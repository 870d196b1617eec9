/**
 * `Jammer`: the rival-jamming player on the protocol-based punter, which
 * keeps the rivers with their owners and a `Scorer` with one partition
 * per punter. It picks a rival by score and takes the rival's best river
 * when what the rival loses by it, plus what the river is worth to this
 * punter, beats this punter's own best; candidates are scored by the
 * total each punter would have after the claim.
 */
module Jammer {
  import opened GameData
  import opened Sorting
  import opened ScoreTables
  import UnionFind
  import opened CommonScorer
  import CostSearch
  import opened Candidates
  import opened Rivals

  /** Which rivers nobody owns. */
  function Free(rivers: seq<CostSearch.RiverProto>): (free: seq<bool>)
    ensures |free| == |rivers| && forall i :: 0 <= i < |rivers| ==> free[i] == (rivers[i].punter == -1)
  {
    seq(|rivers|, i requires 0 <= i < |rivers| => rivers[i].punter == -1)
  }

  /** The two site ids of every river. */
  function RiverEnds(rivers: seq<CostSearch.RiverProto>): (ends: seq<(int, int)>)
    ensures |ends| == |rivers| && forall i :: 0 <= i < |rivers| ==> ends[i] == (rivers[i].source, rivers[i].target)
  {
    seq(|rivers|, i requires 0 <= i < |rivers| => (rivers[i].source, rivers[i].target))
  }

  /** Every river joins two known sites. */
  predicate EndsIn(rivers: seq<CostSearch.RiverProto>, siteIds: seq<int>)
  {
    Sorted(siteIds) && RiversKnown(rivers, siteIds)
  }

  /** Both ends of every river are among `siteIds`, stated river by river from the last. */
  predicate RiversKnown(rivers: seq<CostSearch.RiverProto>, siteIds: seq<int>)
  {
    rivers == [] ||
    var n := |rivers| - 1;
    RiversKnown(rivers[..n], siteIds) && rivers[n].source in siteIds && rivers[n].target in siteIds
  }

  /** River `i` of a list whose rivers are known has both ends among `siteIds`. */
  lemma {:induction false} KnownAt(rivers: seq<CostSearch.RiverProto>, siteIds: seq<int>, i: int)
    requires RiversKnown(rivers, siteIds) && 0 <= i < |rivers|
    ensures rivers[i].source in siteIds && rivers[i].target in siteIds
  {
    var n := |rivers| - 1;
    if i < n {
      assert rivers[..n][i] == rivers[i];
      KnownAt(rivers[..n], siteIds, i);
    }
  }

  /** The total a partition would score once the components of `a` and `b` are joined. */
  function JoinedTotal(roots: seq<int>, base: seq<seq<int>>, mines: seq<int>, a: int, b: int): int
    requires Shaped(roots, base, mines) && 0 <= a < |roots| && 0 <= b < |roots|
  {
    MinesTotal(UnionFind.UnionRoots(roots, roots[a], roots[b]), base, mines, |mines|)
  }

  /** What `TryClaim` reports for each river: the total after claiming it. */
  function Totals(roots: seq<int>, base: seq<seq<int>>, mines: seq<int>, siteIds: seq<int>, rivers: seq<CostSearch.RiverProto>): (t: seq<int>)
    requires Shaped(roots, base, mines) && |roots| == |siteIds| && EndsIn(rivers, siteIds)
    ensures |t| == |rivers|
  {
    if rivers == [] then []
    else
      var n := |rivers| - 1;
      Totals(roots, base, mines, siteIds, rivers[..n]) +
        [JoinedTotal(roots, base, mines, GetIndex(siteIds, rivers[n].source), GetIndex(siteIds, rivers[n].target))]
  }

  /** Entry `i` of `Totals` is the total once river `i`'s ends are joined. */
  lemma {:induction false} TotalAt(roots: seq<int>, base: seq<seq<int>>, mines: seq<int>, siteIds: seq<int>, rivers: seq<CostSearch.RiverProto>, i: int)
    requires Shaped(roots, base, mines) && |roots| == |siteIds| && EndsIn(rivers, siteIds) && 0 <= i < |rivers|
    requires rivers[i].source in siteIds && rivers[i].target in siteIds
    ensures Totals(roots, base, mines, siteIds, rivers)[i] ==
      JoinedTotal(roots, base, mines, GetIndex(siteIds, rivers[i].source), GetIndex(siteIds, rivers[i].target))
  {
    var n := |rivers| - 1;
    if i < n {
      assert rivers[..n][i] == rivers[i];
      TotalAt(roots, base, mines, siteIds, rivers[..n], i);
    }
  }

  /** Claiming a river inside one component leaves the total as it is. */
  lemma JoinedTotalIsScoreWhenJoined(roots: seq<int>, base: seq<seq<int>>, mines: seq<int>, a: int, b: int)
    requires Shaped(roots, base, mines) && 0 <= a < |roots| && 0 <= b < |roots| && roots[a] == roots[b]
    ensures JoinedTotal(roots, base, mines, a, b) == MinesTotal(roots, base, mines, |mines|)
  {
    assert UnionFind.UnionRoots(roots, roots[a], roots[b]) == roots;
  }

  /** Every part is a partition shaped for `mines`. */
  predicate AllShaped(parts: seq<(seq<int>, seq<seq<int>>)>, mines: seq<int>)
  {
    forall q :: 0 <= q < |parts| ==> Shaped(parts[q].0, parts[q].1, mines)
  }

  /** The score of each part: over the mines, its component's sum for that mine. */
  function ScoresOf(parts: seq<(seq<int>, seq<seq<int>>)>, mines: seq<int>): (s: seq<int>)
    requires AllShaped(parts, mines)
    ensures |s| == |parts|
  {
    if parts == [] then []
    else
      var n := |parts| - 1;
      ScoresOf(parts[..n], mines) + [MinesTotal(parts[n].0, parts[n].1, mines, |mines|)]
  }

  /** Each entry of `ScoresOf` is its part's score. */
  lemma {:induction false} ScoreOfPart(parts: seq<(seq<int>, seq<seq<int>>)>, mines: seq<int>, q: int)
    requires AllShaped(parts, mines) && 0 <= q < |parts|
    ensures ScoresOf(parts, mines)[q] == MinesTotal(parts[q].0, parts[q].1, mines, |mines|)
  {
    var n := |parts| - 1;
    if q < n {
      ScoreOfPart(parts[..n], mines, q);
    }
  }

  /** What a `Jammer` turn reads: every punter's partition and sums, the mine and site lists, and the rivers. */
  datatype Board = Board(parts: seq<(seq<int>, seq<seq<int>>)>, mines: seq<int>, siteIds: seq<int>, rivers: seq<CostSearch.RiverProto>)

  /** Every partition has a root per site and a sum per mine, and every river joins two sites. */
  predicate Fit(b: Board)
  {
    AllShaped(b.parts, b.mines) && (forall q :: 0 <= q < |b.parts| ==> |b.parts[q].0| == |b.siteIds|) &&
    EndsIn(b.rivers, b.siteIds)
  }

  /** Every punter's score on a board. */
  function ScoresOn(b: Board): (s: seq<int>)
    requires Fit(b)
    ensures |s| == |b.parts|
  {
    ScoresOf(b.parts, b.mines)
  }

  /** What `TryClaim` reports for punter `p` on each river of a board. */
  function TotalsOn(b: Board, p: int): (t: seq<int>)
    requires Fit(b) && 0 <= p < |b.parts|
    ensures |t| == |b.rivers|
  {
    Totals(b.parts[p].0, b.parts[p].1, b.mines, b.siteIds, b.rivers)
  }

  /** The rival of `me` on a board, chosen from the scores as `PickRival` does. */
  function RivalOn(b: Board, me: int): int
    requires Fit(b) && 0 <= me < |b.parts|
  {
    Rival(Others(ScoresOn(b), me, |b.parts|), ScoresOn(b)[me])
  }

  /** What taking river `ri` is worth against `rival`: the rival's loss, plus `me`'s total after it. */
  function Damage(b: Board, me: int, rival: int, ri: int, rj: int): int
    requires Fit(b) && 0 <= me < |b.parts| && 0 <= rival < |b.parts|
    requires TopTwo(Free(b.rivers), TotalsOn(b, rival), ri, rj)
  {
    TotalsOn(b, rival)[ri] - TotalsOn(b, rival)[rj] + TotalsOn(b, me)[ri]
  }

  /**
   * The attack on `rival` weighed by `me`: with two or more free rivers,
   * `ri` and `rj` are the rival's best and next best, `attack` is `ri`'s
   * candidate and `damage` its damage; with fewer, the empty candidate
   * and no damage.
   */
  predicate AttackOn(b: Board, me: int, rival: int, damage: int, attack: Candidate, ri: int, rj: int)
    requires Fit(b) && 0 <= me < |b.parts| && 0 <= rival < |b.parts|
  {
    (ri >= 0 <==> TwoFree(Free(b.rivers))) &&
    (ri >= 0 ==>
      TopTwo(Free(b.rivers), TotalsOn(b, rival), ri, rj) && damage == Damage(b, me, rival, ri, rj) &&
      attack.source == b.rivers[ri].source && attack.target == b.rivers[ri].target) &&
    (ri < 0 ==> damage == 0 && attack == Candidate(0, 0, 0, 0))
  }

  /** The claim `CreateClaim` makes of river `i`'s ends; of sites 0 and 0 for no river. */
  function ClaimAt(me: int, rivers: seq<CostSearch.RiverProto>, i: int): (m: GameMove)
    ensures m.kind == CLAIM && m.punter == me
  {
    if 0 <= i < |rivers| then Claim(me, rivers[i].source, rivers[i].target) else Claim(me, 0, 0)
  }

  /**
   * With two or more candidates ranked for the rival, the attack is the
   * head's river, and the damage the head's total less the second's plus
   * `me`'s total once it takes that river.
   */
  lemma AttackFound(b: Board, me: int, rival: int, c: seq<Candidate>, mine: int)
    requires Fit(b) && 0 <= me < |b.parts| && 0 <= rival < |b.parts| && |c| >= 2
    requires Ranked(c, Free(b.rivers), TotalsOn(b, rival), RiverEnds(b.rivers))
    requires 0 <= c[0].index < |b.rivers| && mine == TotalsOn(b, me)[c[0].index]
    ensures AttackOn(b, me, rival, c[0].score - c[1].score + mine, c[0], c[0].index, c[1].index)
  {
    var free, totals, ends := Free(b.rivers), TotalsOn(b, rival), RiverEnds(b.rivers);
    RankedTwo(c, free, totals, ends);
    RankedTopTwo(c, free, totals, ends);
  }

  /** The head of a list ranked on a board is one of its rivers. */
  lemma HeadIn(b: Board, p: int, c: seq<Candidate>)
    requires Fit(b) && 0 <= p < |b.parts| && |c| >= 1
    requires Ranked(c, Free(b.rivers), TotalsOn(b, p), RiverEnds(b.rivers))
    ensures 0 <= c[0].index < |b.rivers|
  {
    RankedEntry(c, Free(b.rivers), TotalsOn(b, p), RiverEnds(b.rivers), 0);
  }

  /** With fewer than two candidates ranked for the rival, there is no attack. */
  lemma NoAttack(b: Board, me: int, rival: int, c: seq<Candidate>)
    requires Fit(b) && 0 <= me < |b.parts| && 0 <= rival < |b.parts| && |c| < 2
    requires Ranked(c, Free(b.rivers), TotalsOn(b, rival), RiverEnds(b.rivers))
    ensures AttackOn(b, me, rival, 0, Candidate(0, 0, 0, 0), -1, -1)
  {
    RankedTwo(c, Free(b.rivers), TotalsOn(b, rival), RiverEnds(b.rivers));
  }

  /** A board's rivers for punter `p`: which are free, `p`'s total after each, and their ends. */
  datatype Scored = Scored(free: seq<bool>, totals: seq<int>, ends: seq<(int, int)>)

  function ScoredOn(b: Board, p: int): (s: Scored)
    requires Fit(b) && 0 <= p < |b.parts|
    ensures Aligned(s.free, s.totals, s.ends) && |s.free| == |b.rivers|
  {
    Scored(Free(b.rivers), TotalsOn(b, p), RiverEnds(b.rivers))
  }

  /** The listing of the first `upto` rivers of `s`. */
  function Listed(s: Scored, upto: int): seq<Candidate>
    requires Aligned(s.free, s.totals, s.ends) && 0 <= upto <= |s.free|
  {
    Listing(s.free, s.totals, s.ends, upto)
  }

  /**
   * What a turn of `me` on board `b` does: the rival is another punter,
   * and there is none only when `me` plays alone; `ri` and `rj` are the
   * rival's best and next best river when it has a rival and two rivers are
   * free. With no free river the move is a pass; otherwise `mi` is a free
   * river of the highest total for `me`, the attack is made exactly when
   * its damage (none without `ri`) exceeds that total, and the move claims
   * the attacked river, or `mi`.
   */
  predicate TurnOn(b: Board, me: int, m: GameMove, mi: int, ri: int, rj: int, attacked: bool)
    requires Fit(b) && 0 <= me < |b.parts|
  {
    var rival := RivalOn(b, me);
    var free := Free(b.rivers);
    (rival == -1 <==> |b.parts| == 1) && (rival != -1 ==> 0 <= rival < |b.parts| && rival != me) &&
    (ri >= 0 <==> rival != -1 && TwoFree(free)) &&
    (ri >= 0 ==> rival != -1 && TopTwo(free, TotalsOn(b, rival), ri, rj)) &&
    (m == Pass(me) <==> !AnyFree(free)) &&
    (AnyFree(free) ==>
      0 <= mi < |b.rivers| && free[mi] && Tops(free, TotalsOn(b, me), mi, -1) &&
      (attacked <==> (if ri >= 0 then Damage(b, me, rival, ri, rj) else 0) > TotalsOn(b, me)[mi]) &&
      m == ClaimAt(me, b.rivers, if attacked then ri else mi))
  }

  /** The steps of `Run`, put together: the rival from the sorted pairs, the attack on it, and the choice. */
  lemma TurnChosen(b: Board, me: int, rival: int, damage: int, attack: Candidate,
                   ri: int, rj: int, c: seq<Candidate>, m: GameMove, mi: int, attacked: bool)
    requires Fit(b) && 0 <= me < |b.parts| && rival == RivalOn(b, me)
    requires 0 <= rival < |b.parts| ==> AttackOn(b, me, rival, damage, attack, ri, rj)
    requires rival < 0 ==> damage == 0 && attack == Candidate(0, 0, 0, 0) && ri == -1
    requires Ranked(c, Free(b.rivers), TotalsOn(b, me), RiverEnds(b.rivers))
    requires c == [] ==> m == Pass(me)
    requires c != [] ==> mi == c[0].index && attacked == (damage > c[0].score)
    requires c != [] ==> m == if attacked then Claim(me, attack.source, attack.target) else Claim(me, c[0].source, c[0].target)
    ensures TurnOn(b, me, m, mi, ri, rj, attacked)
  {
    RivalChosen(b, me, rival);
    MoveChosen(b, me, rival, damage, attack, ri, rj, c, m, mi, attacked);
  }

  /** The rival part of `TurnOn`: another punter, none only when `me` plays alone. */
  lemma RivalChosen(b: Board, me: int, rival: int)
    requires Fit(b) && 0 <= me < |b.parts| && rival == RivalOn(b, me)
    ensures (rival == -1 <==> |b.parts| == 1) && (rival != -1 ==> 0 <= rival < |b.parts| && rival != me)
  {
    RivalRanks(ScoresOn(b), me);
  }

  /** The move part of `TurnOn`, once the rival is known to be another punter or none. */
  lemma MoveChosen(b: Board, me: int, rival: int, damage: int, attack: Candidate,
                   ri: int, rj: int, c: seq<Candidate>, m: GameMove, mi: int, attacked: bool)
    requires Fit(b) && 0 <= me < |b.parts| && (rival == -1 || 0 <= rival < |b.parts|)
    requires 0 <= rival < |b.parts| ==> AttackOn(b, me, rival, damage, attack, ri, rj)
    requires rival < 0 ==> damage == 0 && attack == Candidate(0, 0, 0, 0) && ri == -1
    requires Ranked(c, Free(b.rivers), TotalsOn(b, me), RiverEnds(b.rivers))
    requires c == [] ==> m == Pass(me)
    requires c != [] ==> mi == c[0].index && attacked == (damage > c[0].score)
    requires c != [] ==> m == if attacked then Claim(me, attack.source, attack.target) else Claim(me, c[0].source, c[0].target)
    ensures ri >= 0 <==> rival != -1 && TwoFree(Free(b.rivers))
    ensures ri >= 0 ==> rival != -1 && TopTwo(Free(b.rivers), TotalsOn(b, rival), ri, rj)
    ensures m == Pass(me) <==> !AnyFree(Free(b.rivers))
    ensures AnyFree(Free(b.rivers)) ==>
      0 <= mi < |b.rivers| && Free(b.rivers)[mi] && Tops(Free(b.rivers), TotalsOn(b, me), mi, -1) &&
      (attacked <==> (if ri >= 0 then Damage(b, me, rival, ri, rj) else 0) > TotalsOn(b, me)[mi]) &&
      m == ClaimAt(me, b.rivers, if attacked then ri else mi)
  {
    var free, totals, ends := Free(b.rivers), TotalsOn(b, me), RiverEnds(b.rivers);
    RankedEmpty(c, free, totals, ends);
    if c != [] {
      RankedFirst(c, free, totals, ends);
    }
  }

  class Jammer {
    const me: int
    const numPunters: int
    const rivers: seq<CostSearch.RiverProto>
    const scorer: Scorer

    /** The scorer holds one partition per punter, this punter is one of them, and every river's ends are sites. */
    ghost predicate Valid()
      reads this, scorer, scorer.scores
    {
      scorer.Valid() && |scorer.scores| == numPunters && 0 <= me < numPunters && EndsIn(rivers, scorer.siteIds)
    }

    /** The punter as its base class leaves it once set up. */
    constructor (me: int, numPunters: int, rivers: seq<CostSearch.RiverProto>, scorer: Scorer)
      requires scorer.Valid() && |scorer.scores| == numPunters && 0 <= me < numPunters && EndsIn(rivers, scorer.siteIds)
      ensures Valid() && this.me == me && this.numPunters == numPunters && this.rivers == rivers && this.scorer == scorer
    {
      this.me, this.numPunters, this.rivers, this.scorer := me, numPunters, rivers, scorer;
    }

    /** The punter is valid, and `b` is what it holds: every punter's partition and sums, the lists and the rivers. */
    ghost predicate Holds(b: Board)
      reads this, scorer, scorer.scores
      ensures Holds(b) ==> Fit(b) && |b.parts| == numPunters && b.rivers == rivers && 0 <= me < numPunters
    {
      Valid() && |b.parts| == numPunters && b.mines == scorer.mineIndexList && b.siteIds == scorer.siteIds &&
      b.rivers == rivers && forall q :: 0 <= q < numPunters ==> b.parts[q] == (scorer.Partition(q), scorer.scores[q].base)
    }

    /** The board the punter holds. */
    ghost function Current(): (b: Board)
      reads this, scorer, scorer.scores
      requires Valid()
      ensures Holds(b)
    {
      Board(seq(numPunters, q reads this, scorer, scorer.scores requires Valid() && 0 <= q < numPunters => (scorer.Partition(q), scorer.scores[q].base)),
            scorer.mineIndexList, scorer.siteIds, rivers)
    }

    /** `GetScore(p)`, through the scorer: punter `p`'s score; the board stays as it was. */
    method GetScore(p: int, ghost b: Board) returns (score: int)
      requires Holds(b) && 0 <= p < numPunters
      modifies scorer.scores
      ensures Holds(b) && score == ScoresOn(b)[p]
    {
      score := scorer.GetScore(p);
      ScoreOfPart(b.parts, b.mines, p);
    }

    /** `TryClaim(p, ...)` on river `i`'s ends: `p`'s total after claiming it; the board stays as it was. */
    method TryClaimRiver(p: int, i: int, ghost b: Board) returns (score: int)
      requires Holds(b) && 0 <= p < numPunters && 0 <= i < |rivers|
      modifies scorer.scores
      ensures Holds(b) && score == TotalsOn(b, p)[i]
    {
      KnownAt(rivers, scorer.siteIds, i);
      score := scorer.TryClaim(p, rivers[i].source, rivers[i].target);
      TotalAt(b.parts[p].0, b.parts[p].1, b.mines, b.siteIds, rivers, i);
    }

    /** One turn of the rival loop: punter `p`'s pair is added unless `p` is this punter. */
    method AddRival(rivals: seq<(int, int)>, p: int, ghost b: Board) returns (next: seq<(int, int)>)
      requires Holds(b) && 0 <= p < numPunters && rivals == Others(ScoresOn(b), me, p)
      modifies scorer.scores
      ensures Holds(b) && next == Others(ScoresOn(b), me, p + 1)
    {
      OthersNext(ScoresOn(b), me, p);
      next := rivals;
      if p != me {
        var score := GetScore(p, b);
        next := rivals + [(score, p)];
      }
    }

    /** The loop gathering the other punters' (score, id) pairs, in id order. */
    method RivalPairs(ghost b: Board) returns (rivals: seq<(int, int)>)
      requires Holds(b)
      modifies scorer.scores
      ensures Holds(b) && rivals == Others(ScoresOn(b), me, numPunters)
    {
      rivals := [];
      for p := 0 to numPunters
        invariant Holds(b) && rivals == Others(ScoresOn(b), me, p)
      {
        rivals := AddRival(rivals, p, b);
      }
    }

    /** One turn of the candidate loop: river `i`, when free, is scored for `p` and added. */
    method AddCandidate(deltas: seq<Candidate>, p: int, i: int, ghost b: Board, ghost s: Scored) returns (next: seq<Candidate>)
      requires Holds(b) && 0 <= p < numPunters && 0 <= i < |rivers| && s == ScoredOn(b, p)
      requires deltas == Listed(s, i)
      modifies scorer.scores
      ensures Holds(b) && next == Listed(s, i + 1)
    {
      next := deltas;
      var river := rivers[i];
      if river.punter == -1 {
        var score := TryClaimRiver(p, i, b);
        next := deltas + [Candidate(score, i, river.source, river.target)];
      }
    }

    /** The loop of `list_candidates(p)`: the free rivers scored for `p`, in river order. */
    method ListDeltas(p: int, ghost b: Board) returns (deltas: seq<Candidate>)
      requires Holds(b) && 0 <= p < numPunters
      modifies scorer.scores
      ensures Holds(b) && deltas == Listed(ScoredOn(b, p), |rivers|)
    {
      ghost var s := ScoredOn(b, p);
      deltas := [];
      for i := 0 to |rivers|
        invariant Holds(b) && deltas == Listed(s, i)
      {
        deltas := AddCandidate(deltas, p, i, b, s);
      }
    }

    /** `list_candidates(p)`: the free rivers scored by `TryClaim` for `p`, highest first. */
    method ListCandidates(p: int, ghost b: Board) returns (c: seq<Candidate>)
      requires Holds(b) && 0 <= p < numPunters
      modifies scorer.scores
      ensures Holds(b) && Ranked(c, Free(rivers), TotalsOn(b, p), RiverEnds(rivers))
    {
      var deltas := ListDeltas(p, b);
      c := SortCandidates(deltas);
      assert deltas == Listing(Free(rivers), TotalsOn(b, p), RiverEnds(rivers), |rivers|);
    }

    /**
     * The rival, as `Run` picks it: the other punters' pairs, sorted; this
     * punter's own score is read only when there is another punter.
     */
    method ChooseRival(ghost b: Board) returns (rival: int)
      requires Holds(b)
      modifies scorer.scores
      ensures Holds(b) && rival == RivalOn(b, me)
      ensures (rival == -1 <==> numPunters == 1) && (rival != -1 ==> 0 <= rival < numPunters && rival != me)
    {
      var rivals := RivalPairs(b);
      var myScore := 0;
      if |rivals| > 0 {
        myScore := GetScore(me, b);
      }
      rival := PickRival(rivals, myScore);
      RivalChosen(b, me, rival);
    }

    /**
     * The attack on `rival`: with two or more free rivers, the rival's best
     * river and the damage of taking it; otherwise the empty candidate and
     * no damage.
     */
    method Attack(rival: int, ghost b: Board) returns (damage: int, attack: Candidate, ghost ri: int, ghost rj: int)
      requires Holds(b) && 0 <= rival < numPunters
      modifies scorer.scores
      ensures Holds(b) && AttackOn(b, me, rival, damage, attack, ri, rj)
    {
      var candidates := ListCandidates(rival, b);
      if |candidates| >= 2 {
        var best, second := candidates[0], candidates[1];
        HeadIn(b, rival, candidates);
        var mine := TryClaimRiver(me, best.index, b);
        AttackFound(b, me, rival, candidates, mine);
        damage, attack, ri, rj := best.score - second.score + mine, best, best.index, second.index;
      } else {
        NoAttack(b, me, rival, candidates);
        damage, attack, ri, rj := 0, Candidate(0, 0, 0, 0), -1, -1;
      }
    }

    /** The attack on the rival when there is one; no damage and the empty candidate when not. */
    method AttackRival(rival: int, ghost b: Board) returns (damage: int, attack: Candidate, ghost ri: int, ghost rj: int)
      requires Holds(b) && (rival == -1 || 0 <= rival < numPunters)
      modifies scorer.scores
      ensures Holds(b)
      ensures 0 <= rival < |b.parts| ==> AttackOn(b, me, rival, damage, attack, ri, rj)
      ensures rival < 0 ==> damage == 0 && attack == Candidate(0, 0, 0, 0) && ri == -1
    {
      damage, attack := 0, Candidate(0, 0, 0, 0);
      ri, rj := -1, -1;
      if rival >= 0 {
        damage, attack, ri, rj := Attack(rival, b);
      }
    }

    /**
     * `Run()`: the rival is chosen by score. With no free river it passes;
     * otherwise it claims the rival's best river when the damage of doing
     * so exceeds its own best total, and its own best river when not.
     */
    method Run(ghost b: Board) returns (m: GameMove, ghost mi: int, ghost ri: int, ghost rj: int, ghost attacked: bool)
      requires Holds(b)
      modifies scorer.scores
      ensures Holds(b) && TurnOn(b, me, m, mi, ri, rj, attacked)
    {
      var rival := ChooseRival(b);
      var damage, attack;
      damage, attack, ri, rj := AttackRival(rival, b);
      var candidates := ListCandidates(me, b);
      m, mi, attacked := Choose(me, damage, attack, candidates);
      TurnChosen(b, me, rival, damage, attack, ri, rj, candidates, m, mi, attacked);
    }
  }

  /** The end of `Run`: a pass without candidates, else the attack when its damage beats the best candidate's score. */
  method Choose(me: int, damage: int, attack: Candidate, candidates: seq<Candidate>)
    returns (m: GameMove, ghost mi: int, ghost attacked: bool)
    ensures candidates == [] ==> m == Pass(me)
    ensures candidates != [] ==> mi == candidates[0].index && attacked == (damage > candidates[0].score)
    ensures candidates != [] ==>
      m == if attacked then Claim(me, attack.source, attack.target) else Claim(me, candidates[0].source, candidates[0].target)
  {
    mi, attacked := -1, false;
    if |candidates| == 0 {
      m := Pass(me);
    } else {
      mi := candidates[0].index;
      var source, target;
      if damage > candidates[0].score {
        attacked := true;
        source, target := attack.source, attack.target;
      } else {
        source, target := candidates[0].source, candidates[0].target;
      }
      m := Claim(me, source, target);
    }
  }
}
