/**
 * `GreedyToJam`: a `SimplePunter` keeping a `GameMapForAI`, which weighs
 * its own best claim against denying its rival the rival's best edge.
 * Each turn it replays the claims and splurges on the map, picks a rival
 * by score, and takes the rival's best edge when what the rival loses by
 * it (its best gain less its second best) plus what the edge brings this
 * punter beats this punter's own best gain.
 */
module GreedyToJam {
  import opened Wrappers
  import opened GameData
  import opened GameMapForAi
  import opened Candidates
  import opened ThemapReplay
  import opened Rivals
  import SP = SimplePunter

  /** The rival of `me` on a map, chosen from the scores as `PickRival` does. */
  ghost function RivalOf(st: MapState, me: int): int
    requires Ready(st) && 0 <= me < st.numPunters
  {
    Rival(Others(st.scores, me, |st.scores|), st.scores[me])
  }

  /** What taking `ri` is worth against `rival`: the rival's loss, plus `me`'s own gain. */
  ghost function Damage(st: MapState, me: int, rival: int, ri: int, rj: int): int
    requires Fits(st) && 0 <= me < st.numPunters && 0 <= rival < st.numPunters
    requires TopTwo(Uncoloured(st.edges), Gains(st, rival), ri, rj)
  {
    Gains(st, rival)[ri] - Gains(st, rival)[rj] + Gains(st, me)[ri]
  }

  /**
   * The attack on `rival` weighed by `me`: with two or more uncoloured
   * edges, `ri` and `rj` are the rival's best and next best, `attack` names
   * `ri`'s ends and `damage` is its damage; with fewer there is no damage.
   */
  ghost predicate AttackOn(st: MapState, me: int, rival: int, damage: int, attack: Candidate, ri: int, rj: int)
    requires Fits(st) && 0 <= me < st.numPunters && 0 <= rival < st.numPunters
  {
    (ri >= 0 <==> TwoFree(Uncoloured(st.edges))) &&
    (ri >= 0 ==>
      TopTwo(Uncoloured(st.edges), Gains(st, rival), ri, rj) && damage == Damage(st, me, rival, ri, rj) &&
      attack.source == st.edges[ri].source && attack.target == st.edges[ri].dest) &&
    (ri < 0 ==> damage == 0)
  }

  /** The claim of edge `i`, named by its sites' ids. */
  function ClaimOf(st: MapState, me: int, i: int): (m: GameMove)
    requires Fits(st) && 0 <= i < |st.edges|
    ensures m.kind == CLAIM && m.punter == me
  {
    Claim(me, st.nodes[st.edges[i].source].id, st.nodes[st.edges[i].dest].id)
  }

  /**
   * With two or more candidates ranked for the rival, the attack is the
   * head's edge, and the damage the head's score less the second's plus
   * what the edge brings `me`.
   */
  lemma AttackFound(st: MapState, me: int, rival: int, c: seq<Candidate>, mine: int)
    requires Fits(st) && 0 <= me < st.numPunters && 0 <= rival < st.numPunters && |c| >= 2
    requires Ranked(c, Uncoloured(st.edges), Gains(st, rival), EdgeEnds(st.edges))
    requires FlagsFit(st, c[0].source, c[0].target, me) && mine == ClaimGain(st, c[0].source, c[0].target, me, |st.mines|)
    ensures AttackOn(st, me, rival, c[0].score - c[1].score + mine, c[0], c[0].index, c[1].index)
  {
    var free, gains, ends := Uncoloured(st.edges), Gains(st, rival), EdgeEnds(st.edges);
    RankedTwo(c, free, gains, ends);
    RankedTopTwo(c, free, gains, ends);
    assert Gains(st, me)[c[0].index] == ClaimGain(st, c[0].source, c[0].target, me, |st.mines|);
  }

  /** The ends of a ranked list's head are nodes of the map. */
  lemma HeadFits(st: MapState, me: int, rival: int, c: seq<Candidate>)
    requires Fits(st) && 0 <= me < st.numPunters && 0 <= rival < st.numPunters && |c| >= 1
    requires Ranked(c, Uncoloured(st.edges), Gains(st, rival), EdgeEnds(st.edges))
    ensures FlagsFit(st, c[0].source, c[0].target, me)
  {
    RankedEntry(c, Uncoloured(st.edges), Gains(st, rival), EdgeEnds(st.edges), 0);
  }

  /** With fewer than two candidates ranked for the rival, there is no attack. */
  lemma NoAttack(st: MapState, me: int, rival: int, c: seq<Candidate>)
    requires Fits(st) && 0 <= me < st.numPunters && 0 <= rival < st.numPunters && |c| < 2
    requires Ranked(c, Uncoloured(st.edges), Gains(st, rival), EdgeEnds(st.edges))
    ensures AttackOn(st, me, rival, 0, Candidate(0, 0, 0, 0), -1, -1)
  {
    RankedTwo(c, Uncoloured(st.edges), Gains(st, rival), EdgeEnds(st.edges));
  }

  class GreedyToJam {
    const base: SP.SimplePunter
    const themap: GameMapForAI

    /** The map has a score per punter, and this punter is one of them. */
    ghost predicate Valid()
      reads this, base, themap
    {
      themap.Valid() && 0 <= base.punterId < themap.numPunters
    }

    constructor ()
      ensures fresh(base) && fresh(themap)
      ensures themap.themap == [] && themap.id2ix == map[]
    {
      base := new SP.SimplePunter();
      themap := new GameMapForAI();
    }

    /** `SetUp`: `init` on the map, then the base's set-up. */
    method SetUp(id: int, n: int, gameMap: GameMap)
      requires 0 <= id < n && IdsKnown(gameMap)
      modifies base, themap
      ensures Valid() && themap.InitializedFrom(n, gameMap, old(themap.id2ix)) && themap.scores == seq(n, _ => 0)
      ensures base.punterId == id && base.numPunters == n && base.sites == gameMap.sites && base.mines == gameMap.mines
      ensures |base.rivers| == old(|base.rivers|) + |gameMap.rivers| && base.rivers[..old(|base.rivers|)] == old(base.rivers)
      ensures forall i :: 0 <= i < |gameMap.rivers| ==> base.rivers[old(|base.rivers|) + i] == SP.Fresh(gameMap.rivers[i])
    {
      themap.Init(n, gameMap);
      base.SetUp(id, n, gameMap);
    }

    /** `Run()` without moves passes. */
    method RunWithoutMoves() returns (m: GameMove)
      ensures m == Pass(0)
    {
      m := Pass(0);
    }

    /** `list_candidates`: the uncoloured edges scored for `color`, highest first. */
    method ListCandidates(color: int) returns (c: seq<Candidate>)
      requires themap.Shaped() && 0 <= color < themap.numPunters
      modifies themap
      ensures unchanged(themap)
      ensures Ranked(c, Uncoloured(themap.edgeinfo), Gains(themap.State(), color), EdgeEnds(themap.edgeinfo))
    {
      var l := ScoreUncoloured(themap, color);
      c := SortCandidates(l);
    }

    /**
     * The attack on `rival`: with two or more uncoloured edges, the rival's
     * best edge and the damage of taking it; otherwise no damage.
     */
    method Attack(rival: int, ghost st: MapState) returns (damage: int, attack: Candidate, ghost ri: int, ghost rj: int)
      requires Valid() && 0 <= rival < themap.numPunters && st == themap.State()
      modifies themap
      ensures unchanged(themap) && AttackOn(st, base.punterId, rival, damage, attack, ri, rj)
    {
      var candidates := ListCandidates(rival);
      assert themap.edgeinfo == st.edges && themap.State() == st;
      if |candidates| >= 2 {
        var best, second := candidates[0], candidates[1];
        HeadFits(st, base.punterId, rival, candidates);
        var mine := themap.DeltaScore(best.source, best.target, base.punterId);
        assert themap.State() == st;
        AttackFound(st, base.punterId, rival, candidates, mine);
        damage, attack, ri, rj := best.score - second.score + mine, best, best.index, second.index;
      } else {
        NoAttack(st, base.punterId, rival, candidates);
        damage, attack, ri, rj := 0, Candidate(0, 0, 0, 0), -1, -1;
      }
    }

    /**
     * `Run(moves)`: every claim and splurge is replayed on the map and the
     * rival chosen. With no uncoloured edge it passes; otherwise it claims
     * the rival's best edge when the damage of doing so exceeds its own best
     * gain, and its own best edge when not.
     */
    method Run(moves: seq<GameMove>) returns (m: GameMove, ghost mi: int, ghost ri: int, ghost rj: int, ghost attacked: bool)
      requires Valid() && AllResolve(themap.id2ix, |themap.nodeinfo|, themap.numPunters, moves, true)
      modifies themap
      ensures Valid() && themap.id2ix == old(themap.id2ix)
      ensures themap.State() == Replayed(old(themap.State()), old(themap.id2ix), moves, true)
      ensures var st, me := themap.State(), base.punterId;
        var rival := RivalOf(st, me);
        var free := Uncoloured(st.edges);
        (rival == -1 <==> st.numPunters == 1) && (rival != -1 ==> 0 <= rival < st.numPunters && rival != me) &&
        (ri >= 0 <==> rival != -1 && TwoFree(free)) &&
        (ri >= 0 ==> rival != -1 && TopTwo(Uncoloured(st.edges), Gains(st, rival), ri, rj)) &&
        (m == Pass(0) <==> !AnyFree(free)) &&
        (AnyFree(free) ==>
          0 <= mi < |st.edges| && st.edges[mi].color == -1 && Tops(free, Gains(st, me), mi, -1) &&
          (attacked <==> ri >= 0 && Damage(st, me, rival, ri, rj) > Gains(st, me)[mi]) &&
          m == ClaimOf(st, me, if attacked then ri else mi))
    {
      Replay(themap, moves, true);
      var me := base.punterId;
      var rivals := CollectRivals(themap.scores, me);
      var rival := PickRival(rivals, themap.scores[me]);
      RivalRanks(themap.scores, me);
      var damage, attack := 0, Candidate(0, 0, 0, 0);
      ri, rj := -1, -1;
      if rival >= 0 {
        damage, attack, ri, rj := Attack(rival, themap.State());
      }
      ghost var st := themap.State();
      ghost var free, gains, ends := Uncoloured(st.edges), Gains(st, me), EdgeEnds(st.edges);
      var candidates := ListCandidates(me);
      RankedEmpty(candidates, free, gains, ends);
      mi, attacked := -1, false;
      if |candidates| == 0 {
        return Pass(0), mi, ri, rj, attacked;
      }
      RankedFirst(candidates, free, gains, ends);
      GainsNonNegative(st, me);
      mi := candidates[0].index;
      var source, target;
      if damage > candidates[0].score {
        attacked := true;
        source, target := attack.source, attack.target;
      } else {
        source, target := candidates[0].source, candidates[0].target;
      }
      m := Claim(me, themap.nodeinfo[source].id, themap.nodeinfo[target].id);
    }

    /** `GetState`: the base's state, and the map's serialization, stored under "themap". */
    method GetState() returns (v: Json, toks: seq<int>)
      ensures v == SP.StateJson(base.State()) && toks == Encode(themap.State())
    {
      toks := themap.Serialize();
      v := base.GetState();
    }

    /**
     * `SetState` on a punter whose map was never set up: the map is read
     * back from its serialization, then the base reads its entries.
     */
    method SetState(v: Json, toks: seq<int>) returns (r: Result<(), Fatal>)
      requires themap.themap == []
      modifies base, themap
      ensures r.Ok? <==> Decode(toks).Some? && SP.StateOf(v).Ok?
      ensures r.Ok? ==> themap.State() == Decode(toks).value && base.State() == SP.StateOf(v).value
    {
      var ok := themap.Deserialize(toks);
      if !ok {
        return Err(Fatal);
      }
      r := base.SetState(v);
    }
  }
}
