/**
 * `GreedyPunterChun`: a `SimplePunter` that also keeps a `GameMapForAI`.
 * Each turn it replays the claims on that map, scores every uncoloured
 * edge by what claiming it would add to its own score, and claims one of
 * the highest score. It aborts when no edge is left.
 */
module GreedyPunterChun {
  import opened Wrappers
  import opened GameData
  import opened GameMapForAi
  import opened Candidates
  import opened ThemapReplay
  import opened Sorting
  import opened Rivals
  import SP = SimplePunter

  /** The (score, edge index) pair of each candidate, the pairs `Run` sorts. */
  function Keys(l: seq<Candidate>): (k: seq<(int, int)>)
    ensures |k| == |l| && forall i :: 0 <= i < |l| ==> k[i] == (l[i].score, l[i].index)
  {
    seq(|l|, i requires 0 <= i < |l| => (l[i].score, l[i].index))
  }

  /** Every listed candidate has its pair among the keys. */
  lemma KeyOf(l: seq<Candidate>, x: Candidate)
    requires x in l
    ensures (x.score, x.index) in Keys(l)
  {
    var q :| 0 <= q < |l| && l[q] == x;
    assert Keys(l)[q] == (x.score, x.index);
  }

  /**
   * The pair of largest score in a listing names a free river whose score
   * tops that of every free river; there is no such pair exactly when no
   * river is free.
   */
  lemma BestListed(free: seq<bool>, score: seq<int>, ends: seq<(int, int)>)
    requires Aligned(free, score, ends)
    ensures Listing(free, score, ends, |free|) == [] <==> !AnyFree(free)
    ensures Listing(free, score, ends, |free|) != [] ==>
      var b := Best(Keys(Listing(free, score, ends, |free|)));
      0 <= b.1 < |free| && free[b.1] && b.0 == score[b.1] && Tops(free, score, b.1, -1)
  {
    var l := Listing(free, score, ends, |free|);
    if AnyFree(free) {
      var i :| 0 <= i < |free| && free[i];
      assert Entry(score, ends, i) in l;
    }
    if l != [] {
      var keys := Keys(l);
      var b := Best(keys);
      var p :| 0 <= p < |keys| && keys[p] == b;
      forall k | 0 <= k < |free| && free[k] ensures score[k] <= score[b.1] {
        KeyOf(l, Entry(score, ends, k));
      }
    }
  }

  /** `BestListed` for the scored edges of a map. */
  lemma BestTops(st: MapState, punter: int)
    requires Fits(st) && 0 <= punter < st.numPunters
    ensures Scored(st, punter) == [] <==> !AnyFree(Uncoloured(st.edges))
    ensures Scored(st, punter) != [] ==>
      var b := Best(Keys(Scored(st, punter)));
      0 <= b.1 < |st.edges| && st.edges[b.1].color == -1 &&
      b.0 == Gains(st, punter)[b.1] && Tops(Uncoloured(st.edges), Gains(st, punter), b.1, -1)
  {
    BestListed(Uncoloured(st.edges), Gains(st, punter), EdgeEnds(st.edges));
  }

  class GreedyPunterChun {
    const base: SP.SimplePunter
    const themap: GameMapForAI

    /** The map has a score per punter, and this punter is one of them. */
    ghost predicate Valid()
      reads this, base, themap
    {
      themap.Valid() && 0 <= base.punterId < themap.numPunters
    }

    constructor ()
      ensures fresh(base) && fresh(themap)
      ensures themap.themap == [] && themap.id2ix == map[]
    {
      base := new SP.SimplePunter();
      themap := new GameMapForAI();
    }

    /** `SetUp`: `init` on the map, then the base's set-up. */
    method SetUp(id: int, n: int, gameMap: GameMap)
      requires 0 <= id < n && IdsKnown(gameMap)
      modifies base, themap
      ensures Valid() && themap.InitializedFrom(n, gameMap, old(themap.id2ix)) && themap.scores == seq(n, _ => 0)
      ensures base.punterId == id && base.numPunters == n && base.sites == gameMap.sites && base.mines == gameMap.mines
      ensures |base.rivers| == old(|base.rivers|) + |gameMap.rivers| && base.rivers[..old(|base.rivers|)] == old(base.rivers)
      ensures forall i :: 0 <= i < |gameMap.rivers| ==> base.rivers[old(|base.rivers|) + i] == SP.Fresh(gameMap.rivers[i])
    {
      themap.Init(n, gameMap);
      base.SetUp(id, n, gameMap);
    }

    /** `Run()` without moves passes. */
    method RunWithoutMoves() returns (m: GameMove)
      ensures m == Pass(0)
    {
      m := Pass(0);
    }

    /**
     * `Run(moves)`: every claim is replayed on the map; then an uncoloured
     * edge whose claim adds the most to this punter's score is claimed,
     * named by its sites' ids. With no uncoloured edge the check on the
     * candidate count fails.
     */
    method Run(moves: seq<GameMove>) returns (r: Result<GameMove, Fatal>, ghost i: int)
      requires Valid() && AllResolve(themap.id2ix, |themap.nodeinfo|, themap.numPunters, moves, false)
      modifies themap
      ensures Valid() && themap.id2ix == old(themap.id2ix)
      ensures themap.State() == Replayed(old(themap.State()), old(themap.id2ix), moves, false)
      ensures r.Err? <==> !AnyFree(Uncoloured(themap.edgeinfo))
      ensures r.Ok? ==>
        0 <= i < |themap.edgeinfo| && themap.edgeinfo[i].color == -1 &&
        Tops(Uncoloured(themap.edgeinfo), Gains(themap.State(), base.punterId), i, -1) &&
        r.value == Claim(base.punterId, themap.nodeinfo[themap.edgeinfo[i].source].id,
                         themap.nodeinfo[themap.edgeinfo[i].dest].id)
    {
      Replay(themap, moves, false);
      var l := ScoreUncoloured(themap, base.punterId);
      BestTops(themap.State(), base.punterId);
      i := -1;
      if |l| < 1 {
        return Err(Fatal), i;
      }
      var v := SortPairs(Keys(l));
      assert v != [] by {
        assert |multiset(v)| == |multiset(Keys(l))|;
      }
      SortedLast(v, Keys(l));
      var best := v[|v| - 1].1;
      i := best;
      var e := themap.edgeinfo[best];
      var source := themap.nodeinfo[e.source].id;
      var target := themap.nodeinfo[e.dest].id;
      r := Ok(Claim(base.punterId, source, target));
    }

    /** `GetState`: the base's state, and the map's serialization, stored under "themap". */
    method GetState() returns (v: Json, toks: seq<int>)
      ensures v == SP.StateJson(base.State()) && toks == Encode(themap.State())
    {
      toks := themap.Serialize();
      v := base.GetState();
    }

    /**
     * `SetState` on a punter whose map was never set up: the map is read
     * back from its serialization, then the base reads its entries.
     */
    method SetState(v: Json, toks: seq<int>) returns (r: Result<(), Fatal>)
      requires themap.themap == []
      modifies base, themap
      ensures r.Ok? <==> Decode(toks).Some? && SP.StateOf(v).Ok?
      ensures r.Ok? ==> themap.State() == Decode(toks).value && base.State() == SP.StateOf(v).value
    {
      var ok := themap.Deserialize(toks);
      if !ok {
        return Err(Fatal);
      }
      r := base.SetState(v);
    }
  }

  /**
   * What `GetState` writes, `SetState` reads back: the map exactly, the
   * base state with every river free.
   */
  lemma StateRoundTrip(st: MapState, s: SP.SimpleState)
    requires Fits(st) && |st.scores| == st.numPunters
    ensures Decode(Encode(st)) == Some(st)
    ensures SP.StateOf(SP.StateJson(s)) == Ok(s.(rivers := SP.Forgotten(s.rivers)))
  {
    DecodeEncode(st);
    SP.StateRoundTrip(s);
  }
}
