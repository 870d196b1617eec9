/**
 * What the players built on a `GameMapForAI` do with it each turn. They
 * replay the turn's moves: every claim goes through `claim`, with its
 * site ids turned into node indices by `id2ix` (whose `at` aborts on an
 * unknown id); `GreedyToJam` also replays each consecutive pair of a
 * splurge's route; other moves change nothing. Then they score every
 * uncoloured edge with `delta_score`.
 */
module ThemapReplay {
  import opened GameData
  import opened GameMapForAi
  import opened Candidates
  import Graph

  /** A state `claim` accepts: shaped, with one score per punter. */
  ghost predicate Ready(st: MapState)
  {
    Fits(st) && |st.scores| == st.numPunters
  }

  /** Every node once the claim's gains are flagged. */
  ghost function ClaimedNodes(st: MapState, source: int, dest: int, punter: int): (nodes: seq<NodeInfo>)
    requires FlagsFit(st, source, dest, punter)
    ensures |nodes| == |st.nodes|
    ensures forall x :: 0 <= x < |st.nodes| ==> nodes[x] == ClaimedNode(st, source, dest, punter, |st.mines|, x)
  {
    seq(|st.nodes|, x requires 0 <= x < |st.nodes| => ClaimedNode(st, source, dest, punter, |st.mines|, x))
  }

  /** The state after `punter` claims the river `source`-`dest`. */
  ghost function AfterClaim(st: MapState, source: int, dest: int, punter: int): (r: MapState)
    requires Ready(st) && FlagsFit(st, source, dest, punter)
    ensures Ready(r) && r.numPunters == st.numPunters && |r.nodes| == |st.nodes|
    ensures Claimed(st, r, source, dest, punter, ClaimGain(st, source, dest, punter, |st.mines|))
  {
    IncidenceIndexed(st.edges, |st.nodes|);
    var gain := ClaimGain(st, source, dest, punter, |st.mines|);
    var r := st.(nodes := ClaimedNodes(st, source, dest, punter),
                 edges := Recoloured(st.edges, st.themap[source], dest, punter),
                 scores := st.scores[punter := st.scores[punter] + gain]);
    assert Claimed(st, r, source, dest, punter, gain);
    ClaimedFits(st, r, source, dest, punter, gain);
    r
  }

  /** `claim` leaves exactly one state behind. */
  lemma ClaimedUnique(st: MapState, st': MapState, source: int, dest: int, punter: int, gain: int)
    requires Ready(st) && FlagsFit(st, source, dest, punter)
    requires gain == ClaimGain(st, source, dest, punter, |st.mines|) && Claimed(st, st', source, dest, punter, gain)
    ensures st' == AfterClaim(st, source, dest, punter)
  {
    var r := AfterClaim(st, source, dest, punter);
    assert st'.nodes == r.nodes;
  }

  /** The id names a node. */
  predicate Known(id2ix: map<int, int>, n: int, id: int)
  {
    id in id2ix && 0 <= id2ix[id] < n
  }

  /**
   * What the replay needs of a move: a claim names two known sites and a
   * punter with a score; so does a replayed splurge, whose route is not
   * empty since its first site is read unconditionally.
   */
  predicate Resolves(id2ix: map<int, int>, n: int, numPunters: int, m: GameMove, splurges: bool)
  {
    (m.kind == CLAIM ==> Known(id2ix, n, m.source) && Known(id2ix, n, m.target) && 0 <= m.punter < numPunters) &&
    (splurges && m.kind == SPLURGE ==>
      |m.route| >= 1 && (forall k :: 0 <= k < |m.route| ==> Known(id2ix, n, m.route[k])) && 0 <= m.punter < numPunters)
  }

  predicate AllResolve(id2ix: map<int, int>, n: int, numPunters: int, moves: seq<GameMove>, splurges: bool)
  {
    forall i :: 0 <= i < |moves| ==> Resolves(id2ix, n, numPunters, moves[i], splurges)
  }

  /** The node indices of a route of known sites. */
  function Nodes(id2ix: map<int, int>, n: int, route: seq<int>): (path: seq<int>)
    requires forall k :: 0 <= k < |route| ==> Known(id2ix, n, route[k])
    ensures |path| == |route|
    ensures forall k :: 0 <= k < |route| ==> Known(id2ix, n, route[k]) && path[k] == id2ix[route[k]] && 0 <= path[k] < n
  {
    seq(|route|, k requires 0 <= k < |route| && Known(id2ix, n, route[k]) => id2ix[route[k]])
  }

  /** The state after `punter` claims each consecutive pair of `path`, in order. */
  ghost function ClaimPath(st: MapState, path: seq<int>, punter: int): (r: MapState)
    requires Ready(st) && 0 <= punter < st.numPunters
    requires forall k :: 0 <= k < |path| ==> 0 <= path[k] < |st.nodes|
    ensures Ready(r) && r.numPunters == st.numPunters && |r.nodes| == |st.nodes|
    decreases |path|
  {
    if |path| < 2 then st
    else ClaimPath(AfterClaim(st, path[0], path[1], punter), path[1..], punter)
  }

  /** The state after the moves, in order. */
  ghost function Replayed(st: MapState, id2ix: map<int, int>, moves: seq<GameMove>, splurges: bool): (r: MapState)
    requires Ready(st) && AllResolve(id2ix, |st.nodes|, st.numPunters, moves, splurges)
    ensures Ready(r) && r.numPunters == st.numPunters && |r.nodes| == |st.nodes|
    decreases |moves|
  {
    if moves == [] then st
    else
      var m := moves[0];
      var next :=
        if m.kind == CLAIM then AfterClaim(st, id2ix[m.source], id2ix[m.target], m.punter)
        else if splurges && m.kind == SPLURGE then ClaimPath(st, Nodes(id2ix, |st.nodes|, m.route), m.punter)
        else st;
      Replayed(next, id2ix, moves[1..], splurges)
  }

  /** Replaying two batches one after the other is replaying them joined. */
  lemma {:induction false} ReplayAppend(st: MapState, id2ix: map<int, int>, a: seq<GameMove>, b: seq<GameMove>, splurges: bool)
    requires Ready(st) && AllResolve(id2ix, |st.nodes|, st.numPunters, a + b, splurges)
    ensures AllResolve(id2ix, |st.nodes|, st.numPunters, a, splurges)
    ensures var mid := Replayed(st, id2ix, a, splurges);
      AllResolve(id2ix, |mid.nodes|, mid.numPunters, b, splurges) &&
      Replayed(mid, id2ix, b, splurges) == Replayed(st, id2ix, a + b, splurges)
    decreases |a|
  {
    assert forall i :: 0 <= i < |a| ==> (a + b)[i] == a[i];
    assert forall i :: 0 <= i < |b| ==> (a + b)[|a| + i] == b[i];
    if a != [] {
      var m := a[0];
      assert (a + b)[0] == m && (a + b)[1..] == a[1..] + b;
      var next :=
        if m.kind == CLAIM then AfterClaim(st, id2ix[m.source], id2ix[m.target], m.punter)
        else if splurges && m.kind == SPLURGE then ClaimPath(st, Nodes(id2ix, |st.nodes|, m.route), m.punter)
        else st;
      ReplayAppend(next, id2ix, a[1..], b, splurges);
      assert Replayed(st, id2ix, a + b, splurges) == Replayed(next, id2ix, a[1..] + b, splurges);
      assert Replayed(st, id2ix, a, splurges) == Replayed(next, id2ix, a[1..], splurges);
    } else {
      assert a + b == b;
    }
  }

  /** The claims of a route's consecutive pairs, in order. */
  function ClaimsOf(punter: int, route: seq<int>): (r: seq<GameMove>)
    requires |route| >= 1
    ensures |r| == |route| - 1
    ensures forall i :: 0 <= i < |r| ==> r[i] == Claim(punter, route[i], route[i + 1])
  {
    seq(|route| - 1, i requires 0 <= i < |route| - 1 => Claim(punter, route[i], route[i + 1]))
  }

  /** The claims of a route of known sites resolve. */
  lemma ClaimsResolve(id2ix: map<int, int>, n: int, numPunters: int, punter: int, route: seq<int>)
    requires 0 <= punter < numPunters && |route| >= 1
    requires forall k :: 0 <= k < |route| ==> Known(id2ix, n, route[k])
    ensures AllResolve(id2ix, n, numPunters, ClaimsOf(punter, route), true)
  {
    var claims := ClaimsOf(punter, route);
    forall i | 0 <= i < |claims| ensures Resolves(id2ix, n, numPunters, claims[i], true) {
      var c := claims[i];
      assert c.kind == CLAIM && c.source == route[i] && c.target == route[i + 1];
      assert Known(id2ix, n, route[i]) && Known(id2ix, n, route[i + 1]);
    }
  }

  /** The claims of a route: that of its first pair, then those of the rest. */
  lemma ClaimsOfTail(punter: int, route: seq<int>)
    requires |route| >= 2
    ensures ClaimsOf(punter, route)[0] == Claim(punter, route[0], route[1])
    ensures ClaimsOf(punter, route)[1..] == ClaimsOf(punter, route[1..])
  {
    var a, b := ClaimsOf(punter, route)[1..], ClaimsOf(punter, route[1..]);
    forall i | 0 <= i < |b| ensures a[i] == b[i] {
      assert route[1..][i] == route[i + 1] && route[1..][i + 1] == route[i + 2];
    }
  }

  lemma ClaimPathStep(st: MapState, path: seq<int>, punter: int)
    requires Ready(st) && 0 <= punter < st.numPunters && |path| >= 2
    requires forall k :: 0 <= k < |path| ==> 0 <= path[k] < |st.nodes|
    ensures ClaimPath(st, path, punter) == ClaimPath(AfterClaim(st, path[0], path[1], punter), path[1..], punter)
  {
  }

  /** A replayed splurge changes the map as the claims of its consecutive pairs would. */
  lemma {:induction false} SplurgeIsClaims(st: MapState, id2ix: map<int, int>, punter: int, route: seq<int>)
    requires Ready(st) && 0 <= punter < st.numPunters && |route| >= 1
    requires forall k :: 0 <= k < |route| ==> Known(id2ix, |st.nodes|, route[k])
    ensures AllResolve(id2ix, |st.nodes|, st.numPunters, ClaimsOf(punter, route), true)
    ensures ClaimPath(st, Nodes(id2ix, |st.nodes|, route), punter) == Replayed(st, id2ix, ClaimsOf(punter, route), true)
    decreases |route|
  {
    var path := Nodes(id2ix, |st.nodes|, route);
    var claims := ClaimsOf(punter, route);
    ClaimsResolve(id2ix, |st.nodes|, st.numPunters, punter, route);
    if |route| == 1 {
      assert claims == [];
    } else {
      var next := AfterClaim(st, path[0], path[1], punter);
      var tail := route[1..];
      SplurgeIsClaims(next, id2ix, punter, tail);
      assert path[1..] == Nodes(id2ix, |next.nodes|, tail);
      ClaimsOfTail(punter, route);
      ClaimPathStep(st, path, punter);
      assert Replayed(st, id2ix, claims, true) == Replayed(next, id2ix, claims[1..], true);
    }
  }

  /** A replayed splurge move is the claims of its route's consecutive pairs, in order. */
  lemma SplurgeMoveIsClaims(st: MapState, id2ix: map<int, int>, punter: int, route: seq<int>)
    requires Ready(st) && AllResolve(id2ix, |st.nodes|, st.numPunters, [Splurge(punter, route)], true)
    ensures |route| >= 1 && AllResolve(id2ix, |st.nodes|, st.numPunters, ClaimsOf(punter, route), true)
    ensures Replayed(st, id2ix, [Splurge(punter, route)], true) == Replayed(st, id2ix, ClaimsOf(punter, route), true)
  {
    assert Resolves(id2ix, |st.nodes|, st.numPunters, [Splurge(punter, route)][0], true);
    SplurgeIsClaims(st, id2ix, punter, route);
    var path := Nodes(id2ix, |st.nodes|, route);
    assert [Splurge(punter, route)][1..] == [];
    assert Replayed(st, id2ix, [Splurge(punter, route)], true) == Replayed(ClaimPath(st, path, punter), id2ix, [], true);
  }

  /** The splurge loop: each consecutive pair of the route claimed in turn. */
  method ClaimRoute(themap: GameMapForAI, route: seq<int>, punter: int)
    requires themap.Valid() && |route| >= 1 && 0 <= punter < themap.numPunters
    requires forall k :: 0 <= k < |route| ==> Known(themap.id2ix, |themap.nodeinfo|, route[k])
    modifies themap
    ensures themap.Valid() && themap.id2ix == old(themap.id2ix)
    ensures |themap.nodeinfo| == old(|themap.nodeinfo|) && themap.numPunters == old(themap.numPunters)
    ensures themap.State() == ClaimPath(old(themap.State()), Nodes(old(themap.id2ix), old(|themap.nodeinfo|), route), punter)
  {
    ghost var path := Nodes(themap.id2ix, |themap.nodeinfo|, route);
    ghost var target := ClaimPath(themap.State(), path, punter);
    var p := themap.id2ix[route[0]];
    for ix := 1 to |route|
      invariant themap.Valid() && themap.id2ix == old(themap.id2ix)
      invariant |themap.nodeinfo| == old(|themap.nodeinfo|) && themap.numPunters == old(themap.numPunters)
      invariant p == path[ix - 1]
      invariant ClaimPath(themap.State(), path[ix - 1..], punter) == target
    {
      var q := themap.id2ix[route[ix]];
      ghost var before := themap.State();
      assert path[ix - 1..][0] == p && path[ix - 1..][1] == q && path[ix - 1..][1..] == path[ix..];
      var gain := themap.Claim(p, q, punter);
      ClaimedUnique(before, themap.State(), p, q, punter, gain);
      p := q;
    }
  }

  /** The replay loop of `Run(moves)`: each move in order, through `claim`. */
  method Replay(themap: GameMapForAI, moves: seq<GameMove>, splurges: bool)
    requires themap.Valid() && AllResolve(themap.id2ix, |themap.nodeinfo|, themap.numPunters, moves, splurges)
    modifies themap
    ensures themap.Valid() && themap.id2ix == old(themap.id2ix)
    ensures |themap.nodeinfo| == old(|themap.nodeinfo|) && themap.numPunters == old(themap.numPunters)
    ensures themap.State() == Replayed(old(themap.State()), old(themap.id2ix), moves, splurges)
  {
    ghost var target := Replayed(themap.State(), themap.id2ix, moves, splurges);
    for i := 0 to |moves|
      invariant themap.Valid() && themap.id2ix == old(themap.id2ix)
      invariant |themap.nodeinfo| == old(|themap.nodeinfo|) && themap.numPunters == old(themap.numPunters)
      invariant Replayed(themap.State(), themap.id2ix, moves[i..], splurges) == target
    {
      var m := moves[i];
      assert moves[i..][0] == m && moves[i..][1..] == moves[i + 1..];
      assert Resolves(themap.id2ix, |themap.nodeinfo|, themap.numPunters, m, splurges);
      if m.kind == CLAIM {
        var s := themap.id2ix[m.source];
        var t := themap.id2ix[m.target];
        ghost var before := themap.State();
        var gain := themap.Claim(s, t, m.punter);
        ClaimedUnique(before, themap.State(), s, t, m.punter, gain);
      } else if splurges && m.kind == SPLURGE {
        ClaimRoute(themap, m.route, m.punter);
      }
    }
  }

  /** Which edges are still uncoloured. */
  function Uncoloured(edges: seq<EdgeInfo>): (free: seq<bool>)
    ensures |free| == |edges| && forall i :: 0 <= i < |edges| ==> free[i] == (edges[i].color == -1)
  {
    seq(|edges|, i requires 0 <= i < |edges| => edges[i].color == -1)
  }

  /** The two node indices of every edge. */
  function EdgeEnds(edges: seq<EdgeInfo>): (ends: seq<(int, int)>)
    ensures |ends| == |edges| && forall i :: 0 <= i < |edges| ==> ends[i] == (edges[i].source, edges[i].dest)
  {
    seq(|edges|, i requires 0 <= i < |edges| => (edges[i].source, edges[i].dest))
  }

  /** What claiming each edge would add to `punter`'s score. */
  ghost function Gains(st: MapState, punter: int): (g: seq<int>)
    requires Fits(st) && 0 <= punter < st.numPunters
    ensures |g| == |st.edges|
    ensures forall i :: 0 <= i < |st.edges| ==>
      FlagsFit(st, st.edges[i].source, st.edges[i].dest, punter) &&
      g[i] == ClaimGain(st, st.edges[i].source, st.edges[i].dest, punter, |st.mines|)
  {
    seq(|st.edges|, i requires 0 <= i < |st.edges| => ClaimGain(st, st.edges[i].source, st.edges[i].dest, punter, |st.mines|))
  }

  /** The uncoloured edges as candidates for `punter`, in edge order. */
  ghost function Scored(st: MapState, punter: int): seq<Candidate>
    requires Fits(st) && 0 <= punter < st.numPunters
  {
    Listing(Uncoloured(st.edges), Gains(st, punter), EdgeEnds(st.edges), |st.edges|)
  }

  /**
   * The scoring loop of the players: every uncoloured edge, in edge order,
   * with what `delta_score` says claiming it would add for `color`.
   */
  method ScoreUncoloured(themap: GameMapForAI, color: int) returns (l: seq<Candidate>)
    requires themap.Shaped() && 0 <= color < themap.numPunters
    modifies themap
    ensures unchanged(themap)
    ensures l == Scored(themap.State(), color)
  {
    ghost var st := themap.State();
    ghost var free, gains, ends := Uncoloured(st.edges), Gains(st, color), EdgeEnds(st.edges);
    l := [];
    for ix := 0 to |themap.edgeinfo|
      invariant unchanged(themap)
      invariant l == Listing(free, gains, ends, ix)
    {
      var e := themap.edgeinfo[ix];
      if e.color == -1 {
        var sc := themap.DeltaScore(e.source, e.dest, color);
        l := l + [Candidate(sc, ix, e.source, e.dest)];
      }
    }
  }

  /** A sum of squares is never negative. */
  lemma {:induction false} SquareSumNonNegative(mask: seq<bool>, d: seq<int>)
    requires |mask| == |d|
    ensures Graph.SquareSum(mask, d) >= 0
    decreases |mask|
  {
    if mask != [] {
      SquareSumNonNegative(mask[..|mask| - 1], d[..|d| - 1]);
    }
  }

  /** What a claim adds over the first `upto` mines is never negative. */
  lemma {:induction false} ClaimGainNonNegative(st: MapState, source: int, dest: int, punter: int, upto: int)
    requires FlagsFit(st, source, dest, punter) && 0 <= upto <= |st.mines|
    ensures ClaimGain(st, source, dest, punter, upto) >= 0
    decreases upto
  {
    if upto > 0 {
      ClaimGainNonNegative(st, source, dest, punter, upto - 1);
      SquareSumNonNegative(MineMask(st, source, dest, punter, upto - 1), Column(st.nodes, upto - 1));
    }
  }

  /** No edge's claim lowers a score. */
  lemma GainsNonNegative(st: MapState, punter: int)
    requires Fits(st) && 0 <= punter < st.numPunters
    ensures forall i :: 0 <= i < |st.edges| ==> Gains(st, punter)[i] >= 0
  {
    forall i | 0 <= i < |st.edges| ensures Gains(st, punter)[i] >= 0 {
      ClaimGainNonNegative(st, st.edges[i].source, st.edges[i].dest, punter, |st.mines|);
    }
  }
}
