/**
 * What the reachability flags of `GameMapForAI` mean: after `init`, and
 * after every `claim` of a free river, node `x` is flagged for mine `k`
 * and punter `q` exactly when `q`'s rivers connect `x` to that mine.
 * This is the invariant that lets `claim_impl` search only from the end
 * that is not yet connected.
 */
module GameMapComponents {
  import opened Wrappers
  import opened Graph
  import opened GameData
  import opened GameMapForAi

  /** Some edge of colour `p` joins `x` and `w`. */
  ghost predicate Linked(edges: seq<EdgeInfo>, p: int, x: int, w: int)
  {
    exists ix :: Joins(edges, ix, x, w) && edges[ix].color == p
  }

  /** The coloured graph holds `w` among `x`'s neighbours exactly when a `p` edge joins them and neither is cut out. */
  lemma ColouredAdj(edges: seq<EdgeInfo>, n: nat, p: int, ignored: int, x: int, w: int)
    requires EdgesIn(edges, n) && 0 <= x < n
    ensures w in ColouredGraph(IncidenceOf(edges, n), edges, p, ignored)[x] <==>
      x != ignored && w != ignored && Linked(edges, p, x, w)
    ensures Linked(edges, p, x, w) ==> 0 <= w < n
  {
    var themap := IncidenceOf(edges, n);
    if Linked(edges, p, x, w) {
      var ix :| Joins(edges, ix, x, w) && edges[ix].color == p;
      IncidenceMembers(edges, n, x, w, ix);
    }
    if x != ignored {
      ColouredEndsMembers(themap[x], edges, p, ignored, w);
      if w in ColouredEnds(themap[x], edges, p, ignored) {
        var ix :| (w, ix) in themap[x] && 0 <= ix < |edges| && edges[ix].color == p;
        IncidenceMembers(edges, n, x, w, ix);
      }
    }
  }

  /** Giving the uncoloured edge `e` between `a` and `b` the colour `p` links `a` and `b` for `p` and changes nothing else. */
  lemma RecolourLinked(edges: seq<EdgeInfo>, e: int, a: int, b: int, p: int, q: int, x: int, w: int)
    requires Joins(edges, e, a, b) && edges[e].color == -1 && p >= 0 && q >= 0
    ensures Linked(edges[e := edges[e].(color := p)], q, x, w) <==>
      Linked(edges, q, x, w) || (q == p && ((x == a && w == b) || (x == b && w == a)))
  {
    var edges' := edges[e := edges[e].(color := p)];
    if Linked(edges', q, x, w) {
      var ix :| Joins(edges', ix, x, w) && edges'[ix].color == q;
      if ix != e {
        assert Joins(edges, ix, x, w) && edges[ix].color == q;
      }
    }
    if Linked(edges, q, x, w) {
      var ix :| Joins(edges, ix, x, w) && edges[ix].color == q;
      assert ix != e && Joins(edges', ix, x, w);
    }
    if q == p && ((x == a && w == b) || (x == b && w == a)) {
      assert Joins(edges', e, x, w) && edges'[e].color == q;
    }
  }

  /** The graph of punter `q`'s rivers, nobody cut out. */
  ghost function Owned(st: MapState, q: int): seq<seq<int>>
  {
    ColouredGraph(st.themap, st.edges, q, -1)
  }

  /** Mine `k`'s flags for punter `q` are exactly the nodes `q`'s rivers connect to the mine. */
  ghost predicate ComponentFlags(st: MapState, k: int, q: int)
    requires Fits(st) && 0 <= k < |st.mines| && 0 <= q < st.numPunters
  {
    0 <= st.mines[k] < |st.nodes| &&
    forall x :: 0 <= x < |st.nodes| ==> st.nodes[x].reachable[k][q] == ReachMask(Owned(st, q), st.mines[k])[x]
  }

  /** `ComponentFlags` for every mine and punter. */
  ghost predicate FlagsAreComponents(st: MapState)
    requires Fits(st)
  {
    forall k, q :: 0 <= k < |st.mines| && 0 <= q < st.numPunters ==> ComponentFlags(st, k, q)
  }

  /** After `init` every river is free, so each mine's component is the mine alone, which is what the flags say. */
  lemma InitFlagsAreComponents(n: int, gameMap: GameMap, id2ix0: map<int, int>, nodes: seq<NodeInfo>,
                               edges: seq<EdgeInfo>, themap: seq<seq<(int, int)>>, mines: seq<int>,
                               id2ix: map<int, int>, scores: seq<int>)
    requires InitState(n, gameMap, id2ix0, nodes, edges, themap, mines, id2ix)
    ensures Fits(MapState(n, nodes, edges, themap, mines, scores))
    ensures FlagsAreComponents(MapState(n, nodes, edges, themap, mines, scores))
  {
    var st := MapState(n, nodes, edges, themap, mines, scores);
    var size := |nodes|;
    forall k, q | 0 <= k < |mines| && 0 <= q < n ensures ComponentFlags(st, k, q) {
      var g := Owned(st, q);
      var m := mines[k];
      assert 0 <= m < size by {
        assert mines[k] == id2ix[gameMap.mines[k]];
      }
      ColouredSymmetric(edges, size, q, -1);
      assert forall ix :: 0 <= ix < |edges| ==> edges[ix].color == -1 by {
        forall ix | 0 <= ix < |edges| ensures edges[ix].color == -1 {
          assert edges[ix] == NormalEdge(id2ix, gameMap.rivers[ix]);
        }
      }
      forall v, w | 0 <= v < size ensures w !in g[v] {
        ColouredAdj(edges, size, q, -1, v, w);
      }
      var alone := seq(size, x requires 0 <= x < size => x == m);
      forall x | 0 <= x < size && alone[x] ensures x in ReachSet(g, m) {
        TrivialWalk(g, m);
      }
      ClosedMaskIsReach(g, m, alone);
    }
  }

  /** The claimed river is in the map and nobody owns it yet. */
  ghost predicate RiverFree(st: MapState, source: int, dest: int)
    requires 0 <= source < |st.themap|
  {
    var first := FirstMatch(st.themap[source], dest);
    first.Some? && 0 <= st.themap[source][first.value].1 < |st.edges| &&
    st.edges[st.themap[source][first.value].1].color == -1
  }

  /** A claim of a free river colours one edge, an uncoloured one joining the river's ends. */
  lemma ClaimedEdge(st: MapState, st': MapState, source: int, dest: int, p: int, gain: int) returns (e: int)
    requires ClaimArgs(st, source, dest, p) && Claimed(st, st', source, dest, p, gain) && RiverFree(st, source, dest)
    ensures Joins(st.edges, e, source, dest) && st.edges[e].color == -1
    ensures st'.edges == st.edges[e := st.edges[e].(color := p)]
  {
    IncidenceIndexed(st.edges, |st.nodes|);
    var j := FirstMatch(st.themap[source], dest).value;
    e := st.themap[source][j].1;
    assert st.themap[source][j] == (dest, e);
    IncidenceMembers(st.edges, |st.nodes|, source, dest, e);
  }

  /** The claim leaves every other punter's graph as it was, and with it that punter's flags. */
  lemma ClaimKeepsOthers(st: MapState, st': MapState, source: int, dest: int, p: int, gain: int, k: int, q: int)
    requires ClaimArgs(st, source, dest, p) && Claimed(st, st', source, dest, p, gain) && RiverFree(st, source, dest)
    requires 0 <= k < |st.mines| && 0 <= q < st.numPunters && q != p && ComponentFlags(st, k, q)
    ensures Fits(st') && ComponentFlags(st', k, q)
  {
    ClaimedFits(st, st', source, dest, p, gain);
    var n := |st.nodes|;
    var e := ClaimedEdge(st, st', source, dest, p, gain);
    var g, g2 := Owned(st, q), Owned(st', q);
    ColouredSymmetric(st.edges, n, q, -1);
    ColouredSymmetric(st'.edges, n, q, -1);
    forall v, w | 0 <= v < n ensures (w in g2[v]) == (w in g[v]) {
      ColouredAdj(st.edges, n, q, -1, v, w);
      ColouredAdj(st'.edges, n, q, -1, v, w);
      RecolourLinked(st.edges, e, source, dest, p, q, v, w);
    }
    var m := st.mines[k];
    forall x | 0 <= x < n ensures st'.nodes[x].reachable[k][q] == ReachMask(g2, m)[x] {
      ClaimedNodeFlags(st, source, dest, p, |st.mines|, x, k, q);
      if x in ReachSet(g, m) {
        SubgraphReach(g, g2, m, x);
      }
      if x in ReachSet(g2, m) {
        SubgraphReach(g2, g, m, x);
      }
    }
  }

  /** The claiming punter's graph after the claim is the graph before with the river added. */
  lemma OwnedGainsRiver(st: MapState, st': MapState, source: int, dest: int, p: int, gain: int)
    requires ClaimArgs(st, source, dest, p) && Claimed(st, st', source, dest, p, gain) && RiverFree(st, source, dest)
    ensures Fits(st') && WellFormed(Owned(st, p)) && WellFormed(Owned(st', p))
    ensures EdgeAdded(Owned(st, p), Owned(st', p), source, dest)
    ensures EdgeAdded(Owned(st, p), Owned(st', p), dest, source)
  {
    ClaimedFits(st, st', source, dest, p, gain);
    var n := |st.nodes|;
    var e := ClaimedEdge(st, st', source, dest, p, gain);
    var g, g2 := Owned(st, p), Owned(st', p);
    ColouredSymmetric(st.edges, n, p, -1);
    ColouredSymmetric(st'.edges, n, p, -1);
    forall v, w | 0 <= v < n
      ensures (w in g[v]) == Linked(st.edges, p, v, w)
      ensures (w in g2[v]) == (Linked(st.edges, p, v, w) || (v == source && w == dest) || (v == dest && w == source))
    {
      ColouredAdj(st.edges, n, p, -1, v, w);
      ColouredAdj(st'.edges, n, p, -1, v, w);
      RecolourLinked(st.edges, e, source, dest, p, p, v, w);
    }
  }

  /** Cutting node `a` out of a punter's graph is the graph the claim's search walks. */
  lemma OwnedCutOut(st: MapState, p: int, a: int)
    requires Fits(st) && 0 <= a < |st.nodes|
    ensures WellFormed(ColouredGraph(st.themap, st.edges, p, a))
    ensures CutOut(Owned(st, p), ColouredGraph(st.themap, st.edges, p, a), a)
  {
    var n := |st.nodes|;
    var g, h := Owned(st, p), ColouredGraph(st.themap, st.edges, p, a);
    ColouredSymmetric(st.edges, n, p, a);
    forall v, w | 0 <= v < n ensures (w in h[v]) == (v != a && w != a && (w in g[v])) {
      ColouredAdj(st.edges, n, p, a, v, w);
      ColouredAdj(st.edges, n, p, -1, v, w);
    }
  }

  /**
   * The claiming punter's graph gains the river: when both ends or neither
   * were connected to the mine the component stays, otherwise it gains
   * what the other end reaches, which is what the claim flags.
   */
  lemma ClaimJoinsComponents(st: MapState, st': MapState, source: int, dest: int, p: int, gain: int, k: int)
    requires ClaimArgs(st, source, dest, p) && Claimed(st, st', source, dest, p, gain) && RiverFree(st, source, dest)
    requires 0 <= k < |st.mines| && ComponentFlags(st, k, p)
    ensures Fits(st') && ComponentFlags(st', k, p)
  {
    OwnedGainsRiver(st, st', source, dest, p, gain);
    var n := |st.nodes|;
    var g, g2 := Owned(st, p), Owned(st', p);
    var m := st.mines[k];
    var r := ReachMask(g, m);
    var mask := MineMask(st, source, dest, p, k);
    forall x | 0 <= x < n ensures st'.nodes[x].reachable[k][p] == (r[x] || mask[x]) {
      ClaimedNodeFlags(st, source, dest, p, |st.mines|, x, k, p);
    }
    if r[source] == r[dest] {
      AddEdgeSameSide(g, g2, m, source, dest);
    } else {
      var a, b := if r[source] then source else dest, if r[source] then dest else source;
      OwnedCutOut(st, p, a);
      AddEdgeJoins(g, g2, ColouredGraph(st.themap, st.edges, p, a), m, a, b);
    }
  }

  /** A claim of a free river keeps every flag equal to its component. */
  lemma ClaimKeepsComponents(st: MapState, st': MapState, source: int, dest: int, p: int, gain: int)
    requires ClaimArgs(st, source, dest, p) && Claimed(st, st', source, dest, p, gain) && RiverFree(st, source, dest)
    requires FlagsAreComponents(st)
    ensures Fits(st') && FlagsAreComponents(st')
  {
    ClaimedFits(st, st', source, dest, p, gain);
    forall k, q | 0 <= k < |st'.mines| && 0 <= q < st'.numPunters ensures ComponentFlags(st', k, q) {
      if q == p {
        ClaimJoinsComponents(st, st', source, dest, p, gain, k);
      } else {
        ClaimKeepsOthers(st, st', source, dest, p, gain, k, q);
      }
    }
  }
}
