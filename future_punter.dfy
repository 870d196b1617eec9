/**
 * `FuturePunter`: at set-up it bets on one future per mine chosen from
 * the cost table (the most valuable site it can still reach, then the
 * cheapest to connect), and in play it connects the first bet not yet
 * connected, or else plays like the greedy punter on the same table.
 * The table counts the free rivers still to claim; rivers of other
 * punters are never crossed.
 */
module FuturePunter {
  import opened Wrappers
  import opened GameData
  import opened CostSearch

  /** A candidate target: its score, the rivers still to claim, the site, the mine index (all -1 when none). */
  datatype Pick = Pick(score: int, dist: int, site: int, mine: int)

  const NoPick := Pick(-1, -1, -1, -1)

  /** A future as the punter's state records it: mine index and target site. */
  datatype FutureProto = FutureProto(mineIndex: int, target: int)

  /** The selections' comparison: a higher score wins, then fewer rivers to claim. */
  predicate Beats(score: int, dist: int, p: Pick)
  {
    p.score < score || (p.score == score && dist < p.dist)
  }

  lemma BeatsTrans(s: int, d: int, p: Pick, q: Pick)
    requires Beats(s, d, p) && Beats(p.score, p.dist, q)
    ensures Beats(s, d, q)
  {
  }

  /** A site worth aiming at: reached, with at least one river still to claim. */
  predicate Eligible(e: Entry)
  {
    e.rivers != -1 && e.rivers != 0
  }

  predicate Square(table: seq<seq<Entry>>, n: nat)
  {
    forall k :: 0 <= k < |table| ==> |table[k]| == n
  }

  predicate BeatsAt(table: seq<seq<Entry>>, dist: (int, nat) -> int, i: nat, k: nat, p: Pick)
    requires k < |table| && i < |table[k]|
  {
    Eligible(table[k][i]) && Beats(dist(i, k), table[k][i].rivers, p)
  }

  function Consider(table: seq<seq<Entry>>, dist: (int, nat) -> int, i: nat, k: nat, p: Pick): Pick
    requires k < |table| && i < |table[k]|
  {
    if BeatsAt(table, dist, i, k, p) then Pick(dist(i, k), table[k][i].rivers, i, k) else p
  }

  /** The pick carries an eligible site of the table, with its score and count. */
  predicate Carries(table: seq<seq<Entry>>, dist: (int, nat) -> int, n: nat, p: Pick)
    requires Square(table, n)
  {
    0 <= p.mine < |table| && 0 <= p.site < n && Eligible(table[p.mine][p.site]) &&
    p.score == dist(p.site, p.mine) && p.dist == table[p.mine][p.site].rivers
  }

  // ---------------------------------------------------------------------
  // One mine's best site (`GetFuturesImpl`'s inner loop)

  function Down(table: seq<seq<Entry>>, dist: (int, nat) -> int, n: nat, k: nat, i: nat, p: Pick): Pick
    requires Square(table, n) && k < |table|
    decreases n - i
  {
    if i >= n then p else Down(table, dist, n, k, i + 1, Consider(table, dist, i, k, p))
  }

  lemma {:induction false} DownKeeps(table: seq<seq<Entry>>, dist: (int, nat) -> int, n: nat, k: nat, i: nat, p: Pick,
                                     s: int, d: int)
    requires Square(table, n) && k < |table| && Beats(s, d, Down(table, dist, n, k, i, p))
    ensures Beats(s, d, p)
    decreases n - i
  {
    if i < n {
      var p' := Consider(table, dist, i, k, p);
      DownKeeps(table, dist, n, k, i + 1, p', s, d);
      if p' != p {
        BeatsTrans(s, d, p', p);
      }
    }
  }

  lemma {:induction false} DownCovers(table: seq<seq<Entry>>, dist: (int, nat) -> int, n: nat, k: nat, i: nat, p: Pick, i': nat)
    requires Square(table, n) && k < |table| && i <= i' < n
    ensures !BeatsAt(table, dist, i', k, Down(table, dist, n, k, i, p))
    decreases n - i
  {
    var p' := Consider(table, dist, i, k, p);
    if i' == i {
      if BeatsAt(table, dist, i, k, Down(table, dist, n, k, i + 1, p')) {
        DownKeeps(table, dist, n, k, i + 1, p', dist(i, k), table[k][i].rivers);
      }
    } else {
      DownCovers(table, dist, n, k, i + 1, p', i');
    }
  }

  lemma {:induction false} DownPicks(table: seq<seq<Entry>>, dist: (int, nat) -> int, n: nat, k: nat, i: nat, p: Pick)
    requires Square(table, n) && k < |table|
    ensures var r := Down(table, dist, n, k, i, p); r == p || (Carries(table, dist, n, r) && r.mine == k)
    decreases n - i
  {
    if i < n {
      DownPicks(table, dist, n, k, i + 1, Consider(table, dist, i, k, p));
    }
  }

  /** Mine `k`'s best site: no eligible site beats it, and it is one unless there is none. */
  function BestFor(table: seq<seq<Entry>>, dist: (int, nat) -> int, n: nat, k: nat): (p: Pick)
    requires Square(table, n) && k < |table|
    ensures forall i :: 0 <= i < n ==> !BeatsAt(table, dist, i, k, p)
    ensures p == NoPick || (Carries(table, dist, n, p) && p.mine == k)
  {
    var p := Down(table, dist, n, k, 0, NoPick);
    assert forall i :: 0 <= i < n ==> !BeatsAt(table, dist, i, k, p) by {
      forall i | 0 <= i < n ensures !BeatsAt(table, dist, i, k, p) {
        DownCovers(table, dist, n, k, 0, NoPick, i);
      }
    }
    DownPicks(table, dist, n, k, 0, NoPick);
    p
  }

  /** Some mine sits at site `s`. */
  predicate IsMineSite(mines: seq<nat>, s: int)
  {
    exists j :: 0 <= j < |mines| && mines[j] == s
  }

  /**
   * Mine `k`'s candidate as the source writes it: kept unless a mine sits
   * at the best site. A mine with no eligible site keeps `NoPick`.
   */
  function CandidateAsWritten(table: seq<seq<Entry>>, dist: (int, nat) -> int, n: nat, mines: seq<nat>, k: nat): (c: Option<Pick>)
    requires Square(table, n) && k < |table|
    ensures Candidate(table, dist, n, mines, k) == if c.Some? && c.value.site == -1 then None else c
  {
    var p := BestFor(table, dist, n, k);
    if IsMineSite(mines, p.site) then None else Some(p)
  }

  /** Mine `k`'s candidate: its best site when it has one and no mine sits there. */
  function Candidate(table: seq<seq<Entry>>, dist: (int, nat) -> int, n: nat, mines: seq<nat>, k: nat): (c: Option<Pick>)
    requires Square(table, n) && k < |table|
    ensures c.Some? ==> Carries(table, dist, n, c.value) && c.value.mine == k && !IsMineSite(mines, c.value.site)
    ensures c.Some? ==> forall i :: 0 <= i < n ==> !BeatsAt(table, dist, i, k, c.value)
  {
    var p := BestFor(table, dist, n, k);
    if p.site == -1 || IsMineSite(mines, p.site) then None else Some(p)
  }

  /** As written, a mine with no eligible site yields a candidate naming site -1 and mine index -1. */
  lemma AsWrittenKeepsNoPick(table: seq<seq<Entry>>, dist: (int, nat) -> int, n: nat, mines: seq<nat>, k: nat)
    requires Square(table, n) && k < |table|
    requires forall i :: 0 <= i < n ==> !Eligible(table[k][i])
    ensures CandidateAsWritten(table, dist, n, mines, k) == Some(NoPick)
    ensures Candidate(table, dist, n, mines, k) == None
  {
  }

  /** Three sites, one river between sites 0 and 1, and a single mine at site 2, which no river touches. */
  const IsolatedMine := Board(0, 3, [2], [[Edge(1, 0)], [Edge(0, 0)], []], [RiverProto(0, 1, -1, -1)])

  /** The search from the isolated mine reaches nothing else. */
  lemma IsolatedMineColumn()
    ensures BoardOk(IsolatedMine)
    ensures ColumnOk(Rule.Future(0), IsolatedMine, 0, [Unreached, Unreached, Start])
  {
    var b := IsolatedMine;
    var col := [Unreached, Unreached, Start];
    assert Tree(Rule.Future(0), b.edges, b.rivers, 2, col, [0, 0, 0], [0, 0, 0]);
  }

  /**
   * On that board, whatever column the search returns, the candidate as
   * written is the empty pick, and the future it becomes (the only one,
   * without aggression) names mine index -1 and target -1; the corrected
   * candidate is none.
   */
  lemma IsolatedMineBetsOnNothing(col: seq<Entry>, dist: (int, nat) -> int)
    requires BoardOk(IsolatedMine) && ColumnOk(Rule.Future(0), IsolatedMine, 0, col)
    ensures CandidateAsWritten([col], dist, 3, [2], 0) == Some(NoPick)
    ensures Chosen(SortByScore([NoPick]), false) == [FutureProto(-1, -1)]
    ensures Candidate([col], dist, 3, [2], 0) == None
  {
    var b := IsolatedMine;
    var rule := Rule.Future(0);
    var order, via :| Tree(rule, b.edges, b.rivers, 2, col, order, via);
    forall v | 0 <= v < 2 ensures !Reached(col[v]) {
      Cheapest(rule, b.edges, b.rivers, 2, col, order, via, v, []);
    }
    AsWrittenKeepsNoPick([col], dist, 3, [2], 0);
  }

  /** The candidates of mines `0..upto`, in mine order. */
  function Candidates(table: seq<seq<Entry>>, dist: (int, nat) -> int, n: nat, mines: seq<nat>, upto: nat): (cs: seq<Pick>)
    requires Square(table, n) && upto <= |table|
    ensures forall c :: c in cs ==> Carries(table, dist, n, c) && c.mine < upto && !IsMineSite(mines, c.site)
  {
    if upto == 0 then []
    else
      var c := Candidate(table, dist, n, mines, upto - 1);
      Candidates(table, dist, n, mines, upto - 1) + (if c.Some? then [c.value] else [])
  }

  /** Every mine's best site that is eligible and no mine's site is among the candidates. */
  lemma {:induction false} CandidatesComplete(table: seq<seq<Entry>>, dist: (int, nat) -> int, n: nat, mines: seq<nat>,
                                              upto: nat, k: nat)
    requires Square(table, n) && k < upto <= |table|
    requires Candidate(table, dist, n, mines, k).Some?
    ensures Candidate(table, dist, n, mines, k).value in Candidates(table, dist, n, mines, upto)
    decreases upto
  {
    if k < upto - 1 {
      CandidatesComplete(table, dist, n, mines, upto - 1, k);
    }
  }

  // ---------------------------------------------------------------------
  // The sort by score

  predicate Descending(s: seq<Pick>)
  {
    forall i, j :: 0 <= i < j < |s| ==> s[i].score >= s[j].score
  }

  /** `x` goes before the first element it scores no less than. */
  function InsertByScore(r: seq<Pick>, x: Pick): (q: seq<Pick>)
    ensures multiset(q) == multiset(r) + multiset{x}
  {
    if r == [] || x.score >= r[0].score then [x] + r
    else
      assert r == [r[0]] + r[1..];
      [r[0]] + InsertByScore(r[1..], x)
  }

  /** A head scoring at least every element of a descending list keeps it descending. */
  lemma ConsDescending(h: Pick, q: seq<Pick>)
    requires Descending(q) && forall y | y in q :: h.score >= y.score
    ensures Descending([h] + q)
  {
    var l := [h] + q;
    forall i, j | 0 <= i < j < |l| ensures l[i].score >= l[j].score {
      if i == 0 {
        assert l[j] in q;
      } else {
        assert l[i] == q[i - 1] && l[j] == q[j - 1];
      }
    }
  }

  /** Every element of a descending list's tail scores no more than its head. */
  lemma TailBelowHead(r: seq<Pick>, x: Pick, q: seq<Pick>)
    requires r != [] && Descending(r) && x.score < r[0].score
    requires multiset(q) == multiset(r[1..]) + multiset{x}
    ensures forall y | y in q :: r[0].score >= y.score
  {
    forall y | y in q ensures r[0].score >= y.score {
      assert y in multiset(q);
      if y != x {
        assert y in multiset(r[1..]);
        var i :| 0 <= i < |r[1..]| && r[1..][i] == y;
        assert r[i + 1] == y;
      }
    }
  }

  /** Inserting into a descending list keeps it descending. */
  lemma {:induction false} InsertKeepsDescending(r: seq<Pick>, x: Pick)
    requires Descending(r)
    ensures Descending(InsertByScore(r, x))
    decreases |r|
  {
    if r != [] && x.score < r[0].score {
      var q' := InsertByScore(r[1..], x);
      assert Descending(r[1..]) by {
        forall i, j | 0 <= i < j < |r[1..]| ensures r[1..][i].score >= r[1..][j].score {
          assert r[1..][i] == r[i + 1] && r[1..][j] == r[j + 1];
        }
      }
      InsertKeepsDescending(r[1..], x);
      TailBelowHead(r, x, q');
      ConsDescending(r[0], q');
    } else {
      ConsDescending(x, r) by {
        forall y | y in r ensures x.score >= y.score {
          var i :| 0 <= i < |r| && r[i] == y;
        }
      }
    }
  }

  /** The candidates from the highest score down; equal scores keep their order. */
  function SortByScore(s: seq<Pick>): (r: seq<Pick>)
    ensures multiset(r) == multiset(s) && Descending(r)
  {
    if s == [] then []
    else
      assert s == [s[0]] + s[1..];
      InsertKeepsDescending(SortByScore(s[1..]), s[0]);
      InsertByScore(SortByScore(s[1..]), s[0])
  }

  /** The futures a set-up adds: every sorted candidate when aggressive, else the first. */
  function Chosen(sorted: seq<Pick>, aggressive: bool): (fs: seq<FutureProto>)
    ensures |fs| <= |sorted| && (!aggressive ==> |fs| <= 1)
    ensures forall i :: 0 <= i < |fs| ==> fs[i] == FutureProto(sorted[i].mine, sorted[i].site)
  {
    if aggressive then seq(|sorted|, i requires 0 <= i < |sorted| => FutureProto(sorted[i].mine, sorted[i].site))
    else if sorted == [] then []
    else [FutureProto(sorted[0].mine, sorted[0].site)]
  }

  /** Without aggression the one future bet on scores at least as much as any mine's candidate. */
  lemma ChosenScoresMost(table: seq<seq<Entry>>, dist: (int, nat) -> int, n: nat, mines: seq<nat>, k: nat)
    requires Square(table, n) && k < |table| && Candidate(table, dist, n, mines, k).Some?
    ensures var sorted := SortByScore(Candidates(table, dist, n, mines, |table|));
      |sorted| > 0 && sorted[0].score >= Candidate(table, dist, n, mines, k).value.score
  {
    var cs := Candidates(table, dist, n, mines, |table|);
    var sorted := SortByScore(cs);
    var c := Candidate(table, dist, n, mines, k).value;
    CandidatesComplete(table, dist, n, mines, |table|, k);
    assert c in multiset(sorted);
    var j :| 0 <= j < |sorted| && sorted[j] == c;
  }

  // ---------------------------------------------------------------------
  // The best site over all mines (`RunMirac`)

  function Row(table: seq<seq<Entry>>, dist: (int, nat) -> int, n: nat, i: nat, k: nat, p: Pick): Pick
    requires Square(table, n) && i < n
    decreases |table| - k
  {
    if k >= |table| then p else Row(table, dist, n, i, k + 1, Consider(table, dist, i, k, p))
  }

  function Sites(table: seq<seq<Entry>>, dist: (int, nat) -> int, n: nat, i: nat, p: Pick): Pick
    requires Square(table, n)
    decreases n - i
  {
    if i >= n then p else Sites(table, dist, n, i + 1, Row(table, dist, n, i, 0, p))
  }

  lemma {:induction false} RowKeeps(table: seq<seq<Entry>>, dist: (int, nat) -> int, n: nat, i: nat, k: nat, p: Pick,
                                    s: int, d: int)
    requires Square(table, n) && i < n && Beats(s, d, Row(table, dist, n, i, k, p))
    ensures Beats(s, d, p)
    decreases |table| - k
  {
    if k < |table| {
      var p' := Consider(table, dist, i, k, p);
      RowKeeps(table, dist, n, i, k + 1, p', s, d);
      if p' != p {
        BeatsTrans(s, d, p', p);
      }
    }
  }

  lemma {:induction false} SitesKeeps(table: seq<seq<Entry>>, dist: (int, nat) -> int, n: nat, i: nat, p: Pick, s: int, d: int)
    requires Square(table, n) && Beats(s, d, Sites(table, dist, n, i, p))
    ensures Beats(s, d, p)
    decreases n - i
  {
    if i < n {
      SitesKeeps(table, dist, n, i + 1, Row(table, dist, n, i, 0, p), s, d);
      RowKeeps(table, dist, n, i, 0, p, s, d);
    }
  }

  lemma {:induction false} RowCovers(table: seq<seq<Entry>>, dist: (int, nat) -> int, n: nat, i: nat, k: nat, p: Pick, k': nat)
    requires Square(table, n) && i < n && k <= k' < |table|
    ensures !BeatsAt(table, dist, i, k', Row(table, dist, n, i, k, p))
    decreases |table| - k
  {
    var p' := Consider(table, dist, i, k, p);
    if k' == k {
      if BeatsAt(table, dist, i, k, Row(table, dist, n, i, k + 1, p')) {
        RowKeeps(table, dist, n, i, k + 1, p', dist(i, k), table[k][i].rivers);
      }
    } else {
      RowCovers(table, dist, n, i, k + 1, p', k');
    }
  }

  lemma {:induction false} SitesCovers(table: seq<seq<Entry>>, dist: (int, nat) -> int, n: nat, i: nat, p: Pick,
                                       i': nat, k': nat)
    requires Square(table, n) && i <= i' < n && k' < |table|
    ensures !BeatsAt(table, dist, i', k', Sites(table, dist, n, i, p))
    decreases n - i
  {
    var p' := Row(table, dist, n, i, 0, p);
    if i' == i {
      RowCovers(table, dist, n, i, 0, p, k');
      if BeatsAt(table, dist, i, k', Sites(table, dist, n, i + 1, p')) {
        SitesKeeps(table, dist, n, i + 1, p', dist(i, k'), table[k'][i].rivers);
      }
    } else {
      SitesCovers(table, dist, n, i + 1, p', i', k');
    }
  }

  lemma {:induction false} RowPicks(table: seq<seq<Entry>>, dist: (int, nat) -> int, n: nat, i: nat, k: nat, p: Pick)
    requires Square(table, n) && i < n
    ensures var r := Row(table, dist, n, i, k, p); r == p || Carries(table, dist, n, r)
    decreases |table| - k
  {
    if k < |table| {
      RowPicks(table, dist, n, i, k + 1, Consider(table, dist, i, k, p));
    }
  }

  lemma {:induction false} SitesPicks(table: seq<seq<Entry>>, dist: (int, nat) -> int, n: nat, i: nat, p: Pick)
    requires Square(table, n)
    ensures var r := Sites(table, dist, n, i, p); r == p || Carries(table, dist, n, r)
    decreases n - i
  {
    if i < n {
      RowPicks(table, dist, n, i, 0, p);
      SitesPicks(table, dist, n, i + 1, Row(table, dist, n, i, 0, p));
    }
  }

  /** `RunMirac`'s target: no eligible site from any mine beats it, and it is one unless there is none. */
  function Target(table: seq<seq<Entry>>, dist: (int, nat) -> int, n: nat): (t: Pick)
    requires Square(table, n)
    ensures forall i, k :: 0 <= i < n && 0 <= k < |table| ==> !BeatsAt(table, dist, i, k, t)
    ensures t == NoPick || Carries(table, dist, n, t)
  {
    var t := Sites(table, dist, n, 0, NoPick);
    assert forall i, k :: 0 <= i < n && 0 <= k < |table| ==> !BeatsAt(table, dist, i, k, t) by {
      forall i, k | 0 <= i < n && 0 <= k < |table| ensures !BeatsAt(table, dist, i, k, t) {
        SitesCovers(table, dist, n, 0, NoPick, i, k);
      }
    }
    SitesPicks(table, dist, n, 0, NoPick);
    t
  }

  // ---------------------------------------------------------------------
  // The punter

  /** The move `TryToConnect` makes towards `start` on column `col`: a legal claim of the first river of the table's route. */
  ghost predicate Connects(b: Board, col: seq<Entry>, start: nat, m: GameMove, path: seq<nat>)
  {
    Legal(b.me, b.rivers, m) && m.kind == CLAIM &&
    0 <= m.source < |col| && 0 <= m.target < |col| && col[m.source].rivers == 0 && col[m.target].prev == m.source &&
    |path| > 0 && path[0] == start && path[|path| - 1] == m.target && Chain(col, path)
  }

  /** `RunMirac`'s move on a table: the fallback when the target scores -1, else a claim towards the target. */
  ghost predicate MiracMove(b: Board, table: seq<seq<Entry>>, dist: (int, nat) -> int, m: GameMove, path: seq<nat>)
    requires Square(table, b.n)
  {
    var t := Target(table, dist, b.n);
    (t.score == -1 ==> IsFallback(b.me, b.rivers, m)) &&
    (t.score != -1 ==> Carries(table, dist, b.n, t) && Connects(b, table[t.mine], t.site, m, path))
  }

  /** `GetFuturesImpl`'s inner loop: mine `k`'s best site. */
  method MineBest(table: seq<seq<Entry>>, dist: (int, nat) -> int, n: nat, k: nat) returns (best: Pick)
    requires Square(table, n) && k < |table|
    ensures best == BestFor(table, dist, n, k)
  {
    best := NoPick;
    for i := 0 to n
      invariant Down(table, dist, n, k, i, best) == BestFor(table, dist, n, k)
    {
      var e := table[k][i];
      if e.rivers == -1 {
        continue;
      }
      if e.rivers == 0 {
        continue;
      }
      var score := dist(i, k);
      if best.score < score || (best.score == score && e.rivers < best.dist) {
        best := Pick(score, e.rivers, i, k);
      }
    }
  }

  /** `GetFuturesImpl`'s loop over the mines: each mine's candidate, in mine order. */
  method CollectCandidates(table: seq<seq<Entry>>, dist: (int, nat) -> int, n: nat, mines: seq<nat>)
    returns (candidates: seq<Pick>)
    requires Square(table, n) && |table| == |mines|
    ensures candidates == Candidates(table, dist, n, mines, |table|)
  {
    candidates := [];
    for k := 0 to |mines|
      invariant candidates == Candidates(table, dist, n, mines, k)
    {
      var best := MineBest(table, dist, n, k);
      if best.site != -1 && !IsMineSite(mines, best.site) {
        candidates := candidates + [best];
      }
    }
  }

  /** The futures after the bets: the first sorted candidate, or every one when aggressive. */
  method AddFutures(futures: seq<FutureProto>, sorted: seq<Pick>, aggressive: bool) returns (futures': seq<FutureProto>)
    ensures futures' == futures + Chosen(sorted, aggressive)
  {
    futures' := futures;
    ghost var added := Chosen(sorted, aggressive);
    for i := 0 to |sorted|
      invariant aggressive ==> futures' == futures + added[..i]
      invariant !aggressive ==> i == 0 && futures' == futures
    {
      futures' := futures' + [FutureProto(sorted[i].mine, sorted[i].site)];
      if !aggressive {
        assert futures' == futures + added;
        break;
      }
      assert added[..i + 1] == added[..i] + [added[i]];
    }
  }

  /** `RunMirac`'s two selection loops. */
  method SelectTarget(table: seq<seq<Entry>>, dist: (int, nat) -> int, n: nat) returns (best: Pick)
    requires Square(table, n)
    ensures best == Target(table, dist, n)
  {
    best := NoPick;
    for i := 0 to n
      invariant Sites(table, dist, n, i, best) == Target(table, dist, n)
    {
      for k := 0 to |table|
        invariant Sites(table, dist, n, i + 1, Row(table, dist, n, i, k, best)) == Target(table, dist, n)
      {
        var e := table[k][i];
        if e.rivers == -1 {
          continue;
        }
        if e.rivers == 0 {
          continue;
        }
        var score := dist(i, k);
        if best.score < score || (best.score == score && e.rivers < best.dist) {
          best := Pick(score, e.rivers, i, k);
        }
      }
    }
  }

  /** The future's target is reached in the table and still counts rivers to claim. */
  predicate Unconnected(table: seq<seq<Entry>>, f: FutureProto)
  {
    0 <= f.mineIndex < |table| && 0 <= f.target < |table[f.mineIndex]| && table[f.mineIndex][f.target].rivers > 0
  }

  /** Every future names a mine index and a site of the board. */
  predicate FuturesOn(b: Board, futures: seq<FutureProto>)
  {
    forall j :: 0 <= j < |futures| ==> 0 <= futures[j].mineIndex < |b.mines| && 0 <= futures[j].target < b.n
  }

  lemma FuturesOnAppend(b: Board, fs: seq<FutureProto>, gs: seq<FutureProto>)
    requires FuturesOn(b, fs) && FuturesOn(b, gs)
    ensures FuturesOn(b, fs + gs)
  {
    forall j | 0 <= j < |fs + gs| ensures 0 <= (fs + gs)[j].mineIndex < |b.mines| && 0 <= (fs + gs)[j].target < b.n {
      if j >= |fs| {
        assert (fs + gs)[j] == gs[j - |fs|];
      }
    }
  }

  /** Every pick names a mine index and a site of the board. */
  predicate PicksOn(b: Board, s: seq<Pick>)
  {
    forall p :: p in s ==> 0 <= p.mine < |b.mines| && 0 <= p.site < b.n
  }

  /** The futures chosen from picks on the board are on the board. */
  lemma ChosenOn(b: Board, sorted: seq<Pick>, aggressive: bool)
    requires PicksOn(b, sorted)
    ensures FuturesOn(b, Chosen(sorted, aggressive))
  {
    var added := Chosen(sorted, aggressive);
    forall j | 0 <= j < |added| ensures 0 <= added[j].mineIndex < |b.mines| && 0 <= added[j].target < b.n {
      assert sorted[j] in sorted;
    }
  }

  /** The candidates, hence the added futures, name mines and sites of the board. */
  lemma ChosenValid(table: seq<seq<Entry>>, dist: (int, nat) -> int, b: Board, aggressive: bool)
    requires Square(table, b.n) && |table| == |b.mines|
    ensures FuturesOn(b, Chosen(SortByScore(Candidates(table, dist, b.n, b.mines, |table|)), aggressive))
  {
    var cs := Candidates(table, dist, b.n, b.mines, |table|);
    var sorted := SortByScore(cs);
    assert PicksOn(b, cs);
    forall p | p in sorted ensures 0 <= p.mine < |b.mines| && 0 <= p.site < b.n {
      assert p in multiset(sorted);
      assert p in multiset(cs);
    }
    ChosenOn(b, sorted, aggressive);
  }

  /** The table is the search's, from every mine of the board. */
  ghost predicate TableOk(b: Board, table: seq<seq<Entry>>)
  {
    BoardOk(b) && |table| == |b.mines| && Square(table, b.n) &&
    forall k :: 0 <= k < |table| ==> ColumnOk(Rule.Future(b.me), b, k, table[k])
  }

  /** The futures as the game takes them: (mine site, target). */
  method FutureRivers(b: Board, futures: seq<FutureProto>) returns (fs: seq<River>)
    requires FuturesOn(b, futures)
    ensures |fs| == |futures| &&
      forall j :: 0 <= j < |fs| ==> fs[j] == River(b.mines[futures[j].mineIndex], futures[j].target)
  {
    fs := [];
    for j := 0 to |futures|
      invariant |fs| == j && forall j' :: 0 <= j' < j ==> fs[j'] == River(b.mines[futures[j'].mineIndex], futures[j'].target)
    {
      fs := fs + [River(b.mines[futures[j].mineIndex], futures[j].target)];
    }
  }

  /**
   * `Run`'s move: towards the target of the first future still
   * unconnected, or `RunMirac`'s move when every future is connected.
   */
  ghost predicate RunMove(b: Board, table: seq<seq<Entry>>, futures: seq<FutureProto>, dist: (int, nat) -> int,
                          m: GameMove, path: seq<nat>)
    requires Square(table, b.n)
  {
    (forall j ::
      (0 <= j < |futures| && Unconnected(table, futures[j]) && forall j' :: 0 <= j' < j ==> !Unconnected(table, futures[j'])) ==>
        Connects(b, table[futures[j].mineIndex], futures[j].target, m, path)) &&
    ((forall j :: 0 <= j < |futures| ==> !Unconnected(table, futures[j])) ==> MiracMove(b, table, dist, m, path))
  }

  lemma RunMoveConnects(b: Board, table: seq<seq<Entry>>, futures: seq<FutureProto>, dist: (int, nat) -> int,
                        m: GameMove, path: seq<nat>, j: nat)
    requires Square(table, b.n) && j < |futures| && Unconnected(table, futures[j])
    requires forall j' :: 0 <= j' < j ==> !Unconnected(table, futures[j'])
    requires Connects(b, table[futures[j].mineIndex], futures[j].target, m, path)
    ensures RunMove(b, table, futures, dist, m, path)
  {
  }

  class FuturePunter {
    /** The cost table, one column per mine. */
    var table: seq<seq<Entry>>
    /** The futures bet on. */
    var futures: seq<FutureProto>

    constructor ()
      ensures table == [] && futures == []
    {
      table, futures := [], [];
    }

    /** Every future names a mine index and a site of the board. */
    predicate Valid(b: Board)
      reads this
    {
      FuturesOn(b, futures)
    }

    /** `GenerateRiversToClaim`: the table from every mine, crossing only free rivers and our own. */
    method GenerateRiversToClaim(b: Board)
      requires BoardOk(b)
      modifies this
      ensures TableOk(b, table) && futures == old(futures)
    {
      table := Columns(Rule.Future(b.me), b);
    }

    /**
     * `GetFuturesImpl`: one candidate per mine, sorted by score, the best
     * (or, when aggressive, all) added to the futures; returns every
     * future as (mine site, target).
     */
    method GetFuturesImpl(b: Board, dist: (int, nat) -> int, aggressive: bool) returns (fs: seq<River>)
      requires BoardOk(b) && Valid(b)
      modifies this
      ensures TableOk(b, table) && Valid(b)
      ensures futures == old(futures) + Chosen(SortByScore(Candidates(table, dist, b.n, b.mines, |table|)), aggressive)
      ensures |fs| == |futures| &&
        forall j :: 0 <= j < |fs| ==> fs[j] == River(b.mines[futures[j].mineIndex], futures[j].target)
    {
      GenerateRiversToClaim(b);
      var t := table;
      var candidates := CollectCandidates(t, dist, b.n, b.mines);
      var sorted := SortByScore(candidates);
      ChosenValid(t, dist, b, aggressive);
      var all := AddFutures(futures, sorted, aggressive);
      FuturesOnAppend(b, futures, Chosen(sorted, aggressive));
      futures := all;
      fs := FutureRivers(b, all);
    }

    /** `TryToConnect`: the back-walk on mine `k`'s column from `site`, as a claim. */
    method TryToConnect(b: Board, k: nat, site: nat) returns (m: GameMove, ghost path: seq<nat>)
      requires TableOk(b, table) && k < |table| && site < b.n && Reached(table[k][site]) && table[k][site].rivers != 0
      ensures Connects(b, table[k], site, m, path)
    {
      var col := table[k];
      var rule := Rule.Future(b.me);
      ghost var order, via :| Tree(rule, b.edges, b.rivers, b.mines[k], col, order, via);
      var pos, prevPos, useOption;
      pos, prevPos, useOption, path := Walk(rule, b.edges, b.rivers, b.mines[k], col, order, via, site);
      m := Claim(b.me, pos, prevPos);
      CrossesLegal(rule, b, pos, via[prevPos], prevPos, useOption);
    }

    /** `RunMirac`: the best site over all mines, claimed towards; the fallback when its score is -1. */
    method RunMirac(b: Board, dist: (int, nat) -> int) returns (m: GameMove, ghost path: seq<nat>)
      requires TableOk(b, table)
      ensures MiracMove(b, table, dist, m, path)
    {
      var best := SelectTarget(table, dist, b.n);
      if best.score == -1 {
        m := Fallback(b.me, b.rivers);
        path := [];
        return;
      }
      m, path := TryToConnect(b, best.mine, best.site);
    }

    /**
     * `Run`: the table afresh; the first future whose target still counts
     * rivers to claim is connected; with none, `RunMirac`.
     */
    method Run(b: Board, dist: (int, nat) -> int) returns (m: GameMove, ghost path: seq<nat>)
      requires BoardOk(b) && Valid(b)
      modifies this
      ensures TableOk(b, table) && futures == old(futures) && RunMove(b, table, futures, dist, m, path)
    {
      GenerateRiversToClaim(b);
      var fs, t := futures, table;
      for j := 0 to |fs|
        invariant forall j' :: 0 <= j' < j ==> !Unconnected(t, fs[j'])
      {
        var f := fs[j];
        var cost := t[f.mineIndex][f.target].rivers;
        if cost > 0 {
          m, path := TryToConnect(b, f.mineIndex, f.target);
          RunMoveConnects(b, t, fs, dist, m, path, j);
          return;
        }
      }
      m, path := RunMirac(b, dist);
    }
  }
}
