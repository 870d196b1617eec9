/**
 * The map model shared by the greedy punters (`gameutil::GameMapForAI`).
 *
 * One node per site holds the site id, the breadth-first distance of the
 * node from each mine (0 at the mine and wherever the mine cannot be
 * reached) and, per mine and punter, whether the node is joined to the
 * mine through rivers of that punter. One edge per river holds its two
 * node indices, smaller first, and its colour: the punter that claimed it,
 * or -1. Each node lists its `(neighbour, edge index)` pairs.
 */
module GameMapForAi {
  import opened Wrappers
  import opened Graph
  import opened GameData

  datatype NodeInfo = NodeInfo(id: int, minedist: seq<int>, reachable: seq<seq<bool>>)

  datatype EdgeInfo = EdgeInfo(source: int, dest: int, color: int)

  /* ---------------------------------------------------------------- */
  /* Incidence lists                                                   */
  /* ---------------------------------------------------------------- */

  predicate EdgesIn(edges: seq<EdgeInfo>, n: int)
  {
    forall i :: 0 <= i < |edges| ==> 0 <= edges[i].source < n && 0 <= edges[i].dest < n
  }

  /** Edge `ix` is pushed onto its source's list, then onto its destination's. */
  function Attach(themap: seq<seq<(int, int)>>, e: EdgeInfo, ix: int): (r: seq<seq<(int, int)>>)
    requires 0 <= e.source < |themap| && 0 <= e.dest < |themap|
    ensures |r| == |themap|
  {
    var t := themap[e.source := themap[e.source] + [(e.dest, ix)]];
    t[e.dest := t[e.dest] + [(e.source, ix)]]
  }

  /** The lists built from `n` empty ones by attaching the edges in order. */
  function IncidenceOf(edges: seq<EdgeInfo>, n: nat): (r: seq<seq<(int, int)>>)
    requires EdgesIn(edges, n)
    ensures |r| == n
  {
    if edges == [] then seq(n, _ => [])
    else Attach(IncidenceOf(edges[..|edges| - 1], n), edges[|edges| - 1], |edges| - 1)
  }

  /** Edge `ix` joins `v` to `w`, in one direction or the other. */
  predicate Joins(edges: seq<EdgeInfo>, ix: int, v: int, w: int)
  {
    0 <= ix < |edges| &&
    ((edges[ix].source == v && edges[ix].dest == w) || (edges[ix].dest == v && edges[ix].source == w))
  }

  /** Node `v` lists `(w, ix)` exactly when edge `ix` joins `v` and `w`: every edge sits in both ends' lists. */
  lemma {:induction false} IncidenceMembers(edges: seq<EdgeInfo>, n: nat, v: int, w: int, ix: int)
    requires EdgesIn(edges, n) && 0 <= v < n
    ensures (w, ix) in IncidenceOf(edges, n)[v] <==> Joins(edges, ix, v, w)
    decreases |edges|
  {
    if edges != [] {
      var init := edges[..|edges| - 1];
      IncidenceMembers(init, n, v, w, ix);
      if 0 <= ix < |init| {
        assert init[ix] == edges[ix];
      }
    }
  }

  /** The neighbour components of a list of pairs. */
  function Ends(pairs: seq<(int, int)>): (r: seq<int>)
    ensures |r| == |pairs| && forall k :: 0 <= k < |pairs| ==> r[k] == pairs[k].0
  {
    seq(|pairs|, k requires 0 <= k < |pairs| => pairs[k].0)
  }

  /** The lists as a plain adjacency, every river in both directions. */
  function NodeGraph(themap: seq<seq<(int, int)>>): (adj: seq<seq<int>>)
    ensures |adj| == |themap| && forall v :: 0 <= v < |themap| ==> adj[v] == Ends(themap[v])
  {
    seq(|themap|, v requires 0 <= v < |themap| => Ends(themap[v]))
  }

  /** Every pair names a node and an edge. */
  ghost predicate Indexed(themap: seq<seq<(int, int)>>, edges: seq<EdgeInfo>)
  {
    forall v, k :: 0 <= v < |themap| && 0 <= k < |themap[v]| ==>
      0 <= themap[v][k].0 < |themap| && 0 <= themap[v][k].1 < |edges|
  }

  lemma IncidenceIndexed(edges: seq<EdgeInfo>, n: nat)
    requires EdgesIn(edges, n)
    ensures Indexed(IncidenceOf(edges, n), edges) && WellFormed(NodeGraph(IncidenceOf(edges, n)))
  {
    var themap: seq<seq<(int, int)>> := IncidenceOf(edges, n);
    forall v, k | 0 <= v < n && 0 <= k < |themap[v]|
      ensures 0 <= themap[v][k].0 < n && 0 <= themap[v][k].1 < |edges|
    {
      IncidenceMembers(edges, n, v, themap[v][k].0, themap[v][k].1);
    }
    var adj := NodeGraph(themap);
    forall v, w | 0 <= v < n && w in adj[v] ensures 0 <= w < n {
      var k :| 0 <= k < |adj[v]| && adj[v][k] == w;
    }
  }

  /* ---------------------------------------------------------------- */
  /* Site ids and rivers                                               */
  /* ---------------------------------------------------------------- */

  /** `id2ix` after the first loop of `init`: each site id mapped to its position. */
  function IndexIds(id2ix: map<int, int>, sites: seq<Site>): map<int, int>
  {
    if sites == [] then id2ix
    else IndexIds(id2ix, sites[..|sites| - 1])[sites[|sites| - 1].id := |sites| - 1]
  }

  /**
   * A site id maps to the last position holding it; an id of no site
   * keeps whatever an earlier `init` left for it.
   */
  lemma {:induction false} IndexIdsFinds(id2ix: map<int, int>, sites: seq<Site>, id: int)
    ensures var r := IndexIds(id2ix, sites);
      if exists i :: 0 <= i < |sites| && sites[i].id == id then
        id in r && 0 <= r[id] < |sites| && sites[r[id]].id == id &&
        forall j :: r[id] < j < |sites| ==> sites[j].id != id
      else (id in r <==> id in id2ix) && (id in r ==> r[id] == id2ix[id])
    decreases |sites|
  {
    if sites != [] {
      var init := sites[..|sites| - 1];
      IndexIdsFinds(id2ix, init, id);
      if exists i :: 0 <= i < |init| && init[i].id == id {
        var i :| 0 <= i < |init| && init[i].id == id;
        assert sites[i].id == id;
      }
      if exists i :: 0 <= i < |sites| && sites[i].id == id {
        if sites[|sites| - 1].id != id {
          var i :| 0 <= i < |sites| && sites[i].id == id;
          assert init[i].id == id;
        }
      }
    }
  }

  /** With distinct site ids, every site id maps to its own position. */
  lemma DistinctIdsIndexed(id2ix: map<int, int>, sites: seq<Site>, i: int)
    requires forall j, k :: 0 <= j < k < |sites| ==> sites[j].id != sites[k].id
    requires 0 <= i < |sites|
    ensures sites[i].id in IndexIds(id2ix, sites) && IndexIds(id2ix, sites)[sites[i].id] == i
  {
    IndexIdsFinds(id2ix, sites, sites[i].id);
  }

  /** Every river end and every mine names a site. */
  predicate IdsKnown(gameMap: GameMap)
  {
    (forall k :: 0 <= k < |gameMap.rivers| ==>
      (exists i :: 0 <= i < |gameMap.sites| && gameMap.sites[i].id == gameMap.rivers[k].source) &&
      (exists i :: 0 <= i < |gameMap.sites| && gameMap.sites[i].id == gameMap.rivers[k].target)) &&
    forall k :: 0 <= k < |gameMap.mines| ==>
      exists i :: 0 <= i < |gameMap.sites| && gameMap.sites[i].id == gameMap.mines[k]
  }

  /** Both ends of every river resolve to a node below `n`. */
  predicate RiversResolve(id2ix: map<int, int>, rivers: seq<River>, n: int)
  {
    forall k :: 0 <= k < |rivers| ==>
      rivers[k].source in id2ix && rivers[k].target in id2ix &&
      0 <= id2ix[rivers[k].source] < n && 0 <= id2ix[rivers[k].target] < n
  }

  /** Every mine resolves to a node below `n`. */
  predicate MinesResolve(id2ix: map<int, int>, mines: seq<int>, n: int)
  {
    forall k :: 0 <= k < |mines| ==> mines[k] in id2ix && 0 <= id2ix[mines[k]] < n
  }

  /** Known ids resolve through the map the first loop of `init` builds. */
  lemma KnownIdsResolve(id2ix: map<int, int>, gameMap: GameMap)
    requires IdsKnown(gameMap)
    ensures var r := IndexIds(id2ix, gameMap.sites); var n := |gameMap.sites|;
      RiversResolve(r, gameMap.rivers, n) && MinesResolve(r, gameMap.mines, n)
  {
    var r := IndexIds(id2ix, gameMap.sites);
    forall k | 0 <= k < |gameMap.rivers|
      ensures gameMap.rivers[k].source in r && gameMap.rivers[k].target in r
      ensures 0 <= r[gameMap.rivers[k].source] < |gameMap.sites| && 0 <= r[gameMap.rivers[k].target] < |gameMap.sites|
    {
      IndexIdsFinds(id2ix, gameMap.sites, gameMap.rivers[k].source);
      IndexIdsFinds(id2ix, gameMap.sites, gameMap.rivers[k].target);
    }
    forall k | 0 <= k < |gameMap.mines|
      ensures gameMap.mines[k] in r && 0 <= r[gameMap.mines[k]] < |gameMap.sites|
    {
      IndexIdsFinds(id2ix, gameMap.sites, gameMap.mines[k]);
    }
  }

  /** A river as `init` stores it: its two node indices, smaller first, and no colour. */
  function NormalEdge(id2ix: map<int, int>, river: River): (e: EdgeInfo)
    requires river.source in id2ix && river.target in id2ix
    ensures e.source <= e.dest && e.color == -1
    ensures (e.source, e.dest) == (id2ix[river.source], id2ix[river.target]) ||
            (e.source, e.dest) == (id2ix[river.target], id2ix[river.source])
  {
    var a, b := id2ix[river.source], id2ix[river.target];
    if a > b then EdgeInfo(b, a, -1) else EdgeInfo(a, b, -1)
  }

  /** Every node has a distance for mine `k`. */
  predicate HasColumn(nodes: seq<NodeInfo>, k: int)
  {
    forall x :: 0 <= x < |nodes| ==> 0 <= k < |nodes[x].minedist|
  }

  /** Column `k` of the distances: the `k`-th entry of every node's `minedist`. */
  function Column(nodes: seq<NodeInfo>, k: int): (c: seq<int>)
    requires HasColumn(nodes, k)
    ensures |c| == |nodes| && forall x :: 0 <= x < |nodes| ==> c[x] == nodes[x].minedist[k]
  {
    seq(|nodes|, x requires 0 <= x < |nodes| => nodes[x].minedist[k])
  }

  /** Every node has a distance per mine and a flag per mine and punter. */
  ghost predicate NodesShaped(nodes: seq<NodeInfo>, numMines: int, numPunters: int)
  {
    forall x :: 0 <= x < |nodes| ==>
      |nodes[x].minedist| == numMines && |nodes[x].reachable| == numMines &&
      forall k :: 0 <= k < numMines ==> |nodes[x].reachable[k]| == numPunters
  }

  /* ---------------------------------------------------------------- */
  /* init                                                              */
  /* ---------------------------------------------------------------- */

  /** The first loop of `init`: node `i` takes the id of site `i`, and `id2ix` maps the id back. */
  method IndexNodes(nodes0: seq<NodeInfo>, id2ix0: map<int, int>, sites: seq<Site>)
    returns (nodes: seq<NodeInfo>, id2ix: map<int, int>)
    requires |nodes0| == |sites|
    ensures |nodes| == |sites| && forall x :: 0 <= x < |sites| ==> nodes[x] == nodes0[x].(id := sites[x].id)
    ensures id2ix == IndexIds(id2ix0, sites)
  {
    nodes, id2ix := nodes0, id2ix0;
    var i := 0;
    while i < |sites|
      invariant 0 <= i <= |sites| && |nodes| == |sites|
      invariant forall x :: 0 <= x < |sites| ==> nodes[x] == if x < i then nodes0[x].(id := sites[x].id) else nodes0[x]
      invariant id2ix == IndexIds(id2ix0, sites[..i])
    {
      var id := sites[i].id;
      nodes := nodes[i := nodes[i].(id := id)];
      id2ix := id2ix[id := i];
      assert sites[..i + 1][..i] == sites[..i];
      i := i + 1;
    }
    assert sites[..i] == sites;
  }

  /**
   * The rivers loop of `init`: each river becomes an uncoloured edge with
   * the smaller node first, pushed onto both ends' lists.
   */
  method AddRivers(id2ix: map<int, int>, rivers: seq<River>, n: nat)
    returns (edges: seq<EdgeInfo>, themap: seq<seq<(int, int)>>)
    requires RiversResolve(id2ix, rivers, n)
    ensures |edges| == |rivers| && forall i :: 0 <= i < |rivers| ==> edges[i] == NormalEdge(id2ix, rivers[i])
    ensures EdgesIn(edges, n) && themap == IncidenceOf(edges, n)
  {
    edges := seq(|rivers|, _ => EdgeInfo(0, 0, 0));
    themap := seq(n, _ => []);
    var ix := 0;
    while ix < |rivers|
      invariant 0 <= ix <= |rivers| && |edges| == |rivers|
      invariant forall i :: 0 <= i < ix ==> edges[i] == NormalEdge(id2ix, rivers[i])
      invariant EdgesIn(edges[..ix], n) && themap == IncidenceOf(edges[..ix], n)
    {
      var source := id2ix[rivers[ix].source];
      var dest := id2ix[rivers[ix].target];
      if source > dest {
        source, dest := dest, source;
      }
      themap := themap[source := themap[source] + [(dest, ix)]];
      themap := themap[dest := themap[dest] + [(source, ix)]];
      ghost var before := edges[..ix];
      edges := edges[ix := EdgeInfo(source, dest, -1)];
      assert edges[..ix + 1] == before + [EdgeInfo(source, dest, -1)];
      assert edges[..ix + 1][..ix] == before;
      ix := ix + 1;
    }
    assert edges[..ix] == edges;
  }

  /** The mines loop of `init`: each mine id resolved to its node. */
  method ResolveMines(id2ix: map<int, int>, ids: seq<int>, n: int) returns (mines: seq<int>)
    requires MinesResolve(id2ix, ids, n)
    ensures |mines| == |ids| && forall k :: 0 <= k < |ids| ==> mines[k] == id2ix[ids[k]] && 0 <= mines[k] < n
  {
    mines := [];
    for k := 0 to |ids|
      invariant |mines| == k && forall j :: 0 <= j < k ==> mines[j] == id2ix[ids[j]] && 0 <= mines[j] < n
    {
      mines := mines + [id2ix[ids[k]]];
    }
  }

  /**
   * The node reset of `init` before the searches: distances 0, and only a
   * mine's own node flagged for that mine, for every punter. `upto` counts
   * the mines already flagged.
   */
  ghost predicate Reset(nodes: seq<NodeInfo>, mines: seq<int>, numPunters: int, upto: int)
  {
    forall x :: 0 <= x < |nodes| ==>
      nodes[x].minedist == seq(|mines|, _ => 0) && |nodes[x].reachable| == |mines| &&
      forall k :: 0 <= k < |mines| ==>
        |nodes[x].reachable[k]| == numPunters &&
        forall p :: 0 <= p < numPunters ==> nodes[x].reachable[k][p] == (k < upto && x == mines[k])
  }

  method ResetNodes(nodes0: seq<NodeInfo>, mines: seq<int>, numPunters: nat) returns (nodes: seq<NodeInfo>)
    requires forall k :: 0 <= k < |mines| ==> 0 <= mines[k] < |nodes0|
    ensures |nodes| == |nodes0| && forall x :: 0 <= x < |nodes| ==> nodes[x].id == nodes0[x].id
    ensures Reset(nodes, mines, numPunters, |mines|)
  {
    var blank := seq(|mines|, _ => seq(numPunters, _ => false));
    nodes := nodes0;
    for x := 0 to |nodes|
      invariant |nodes| == |nodes0|
      invariant forall y :: 0 <= y < |nodes| ==> nodes[y].id == nodes0[y].id
      invariant forall y :: 0 <= y < x ==> nodes[y].minedist == seq(|mines|, _ => 0) && nodes[y].reachable == blank
    {
      nodes := nodes[x := nodes[x].(minedist := seq(|mines|, _ => 0), reachable := blank)];
    }
    for k := 0 to |mines|
      invariant |nodes| == |nodes0|
      invariant forall y :: 0 <= y < |nodes| ==> nodes[y].id == nodes0[y].id
      invariant Reset(nodes, mines, numPunters, k)
    {
      var m := mines[k];
      nodes := nodes[m := nodes[m].(reachable := nodes[m].reachable[k := seq(numPunters, _ => true)])];
    }
  }

  /** `nodes` with column `k` of the distances replaced by `dist`. */
  function WithColumn(nodes: seq<NodeInfo>, k: int, dist: seq<int>): (r: seq<NodeInfo>)
    requires |dist| == |nodes| && forall x :: 0 <= x < |nodes| ==> 0 <= k < |nodes[x].minedist|
    ensures |r| == |nodes|
    ensures forall x :: 0 <= x < |nodes| ==> r[x] == nodes[x].(minedist := nodes[x].minedist[k := dist[x]])
  {
    seq(|nodes|, x requires 0 <= x < |nodes| =>
      nodes[x].(minedist := nodes[x].minedist[k := dist[x]]))
  }

  /**
   * `initMineScores`: a breadth-first search per mine fills that mine's
   * column of the distances. The columns start at 0, which doubles as the
   * mark of an unvisited node other than the mine.
   */
  method InitMineScores(nodes0: seq<NodeInfo>, themap: seq<seq<(int, int)>>, mines: seq<int>)
    returns (nodes: seq<NodeInfo>)
    requires |nodes0| == |themap| && WellFormed(NodeGraph(themap))
    requires forall k :: 0 <= k < |mines| ==> 0 <= mines[k] < |themap|
    requires forall x :: 0 <= x < |nodes0| ==> nodes0[x].minedist == seq(|mines|, _ => 0)
    ensures |nodes| == |nodes0|
    ensures forall x :: 0 <= x < |nodes| ==>
      nodes[x].id == nodes0[x].id && nodes[x].reachable == nodes0[x].reachable && |nodes[x].minedist| == |mines|
    ensures forall k :: 0 <= k < |mines| ==> DistanceTable(NodeGraph(themap), mines[k], Column(nodes, k), 0)
  {
    nodes := nodes0;
    for k := 0 to |mines|
      invariant |nodes| == |nodes0|
      invariant forall x :: 0 <= x < |nodes| ==>
        nodes[x].id == nodes0[x].id && nodes[x].reachable == nodes0[x].reachable && |nodes[x].minedist| == |mines|
      invariant forall x, j :: 0 <= x < |nodes| && k <= j < |mines| ==> nodes[x].minedist[j] == 0
      invariant forall j :: 0 <= j < k ==> DistanceTable(NodeGraph(themap), mines[j], Column(nodes, j), 0)
    {
      var dist := MineDistance(themap, mines[k]);
      ghost var before := nodes;
      nodes := WithColumn(nodes, k, dist);
      assert Column(nodes, k) == dist;
      forall j | 0 <= j < k ensures Column(nodes, j) == Column(before, j) { }
    }
  }

  /** One search of `initMineScores` over the lists, from the mine `m`. */
  method MineDistance(themap: seq<seq<(int, int)>>, m: int) returns (dist: seq<int>)
    requires WellFormed(NodeGraph(themap)) && 0 <= m < |themap|
    ensures DistanceTable(NodeGraph(themap), m, dist, 0)
  {
    ghost var adj := NodeGraph(themap);
    var n := |themap|;
    dist := seq(n, _ => 0);
    FrontierStart(adj, m, 0);
    assert dist == seq(n, _ => 0)[m := 0];
    var queue := [m];
    ghost var visited := seq(n, _ => false)[m := true];
    ghost var parent := seq(n, _ => m);
    ghost var expanded := seq(n, _ => false);
    ghost var level := 0;
    while |queue| != 0
      invariant |expanded| == n
      invariant Frontier(adj, m, visited, dist, parent, expanded, queue, level, 0)
      invariant ExpandedClosed(adj, visited, dist, expanded, -1)
      decreases n - CountTrue(expanded)
    {
      var v := queue[0];
      FrontierDequeue(adj, m, visited, dist, parent, expanded, queue, level, 0);
      CountTrueSet(expanded, v);
      expanded := expanded[v := true];
      CountTrueBound(expanded);
      level := dist[v];
      queue := queue[1..];
      dist, queue, visited, parent := ExpandNode(themap, adj, m, v, dist, queue, visited, parent, expanded);
    }
    FrontierDone(adj, m, visited, dist, parent, expanded, level, 0);
  }

  /** The inner loop of `initMineScores`: every unvisited neighbour of `v` goes one level deeper. */
  method ExpandNode(themap: seq<seq<(int, int)>>, ghost adj: seq<seq<int>>, m: int, v: int,
                    dist0: seq<int>, queue0: seq<int>,
                    ghost visited0: seq<bool>, ghost parent0: seq<int>, ghost expanded: seq<bool>)
    returns (dist: seq<int>, queue: seq<int>, ghost visited: seq<bool>, ghost parent: seq<int>)
    requires adj == NodeGraph(themap) && WellFormed(adj) && 0 <= v < |adj| == |dist0|
    requires Frontier(adj, m, visited0, dist0, parent0, expanded, queue0, dist0[v], 0) && expanded[v]
    requires ExpandedClosed(adj, visited0, dist0, expanded, v)
    ensures Frontier(adj, m, visited, dist, parent, expanded, queue, dist0[v], 0)
    ensures ExpandedClosed(adj, visited, dist, expanded, -1)
  {
    dist, queue, visited, parent := dist0, queue0, visited0, parent0;
    var curscore := dist[v];
    for j := 0 to |themap[v]|
      invariant |dist| == |adj| && curscore == dist[v]
      invariant Frontier(adj, m, visited, dist, parent, expanded, queue, curscore, 0)
      invariant ExpandedClosed(adj, visited, dist, expanded, v)
      invariant NeighboursDone(adj, v, visited, dist, j)
    {
      dist, queue, visited, parent := ExpandPair(adj, m, v, j, themap[v][j].0, dist, queue, visited, parent, expanded);
    }
    NeighboursDoneClosed(adj, visited, dist, expanded, v);
  }

  /**
   * One pair of the inner loop: the neighbour `w`, the `j`-th of `v`, is
   * given distance `curscore + 1` and queued when it is not the mine and
   * still holds 0, which is exactly when it is unvisited.
   */
  method ExpandPair(ghost adj: seq<seq<int>>, m: int, v: int, ghost j: int, w: int,
                    dist0: seq<int>, queue0: seq<int>,
                    ghost visited0: seq<bool>, ghost parent0: seq<int>, ghost expanded: seq<bool>)
    returns (dist: seq<int>, queue: seq<int>, ghost visited: seq<bool>, ghost parent: seq<int>)
    requires WellFormed(adj) && 0 <= v < |adj| == |dist0| && 0 <= j < |adj[v]| && adj[v][j] == w
    requires Frontier(adj, m, visited0, dist0, parent0, expanded, queue0, dist0[v], 0) && expanded[v]
    requires ExpandedClosed(adj, visited0, dist0, expanded, v)
    requires NeighboursDone(adj, v, visited0, dist0, j)
    ensures |dist| == |adj| && dist[v] == dist0[v]
    ensures Frontier(adj, m, visited, dist, parent, expanded, queue, dist0[v], 0)
    ensures ExpandedClosed(adj, visited, dist, expanded, v)
    ensures NeighboursDone(adj, v, visited, dist, j + 1)
  {
    assert w in adj[v];
    dist, queue, visited, parent := dist0, queue0, visited0, parent0;
    assert visited[w] && w != m ==> dist[w] == dist[parent[w]] + 1 && dist[parent[w]] >= 0;
    if w != m && dist[w] == 0 {
      FrontierEnqueue(adj, m, visited, dist, parent, expanded, queue, 0, v, w);
      dist := dist[w := dist[v] + 1];
      queue := queue + [w];
      visited := visited[w := true];
      parent := parent[w := v];
    } else {
      FrontierVisited(adj, m, visited, dist, parent, expanded, queue, 0, v, w);
    }
    NeighboursDoneStep(adj, v, visited0, dist0, visited, dist, j);
  }

  /** The lists depend only on the edges' ends, not on their colours. */
  lemma {:induction false} IncidenceIgnoresColour(edges: seq<EdgeInfo>, edges': seq<EdgeInfo>, n: nat)
    requires EdgesIn(edges, n) && |edges'| == |edges|
    requires forall i :: 0 <= i < |edges| ==> edges'[i].source == edges[i].source && edges'[i].dest == edges[i].dest
    ensures EdgesIn(edges', n) && IncidenceOf(edges', n) == IncidenceOf(edges, n)
    decreases |edges|
  {
    if edges != [] {
      IncidenceIgnoresColour(edges[..|edges| - 1], edges'[..|edges| - 1], n);
    }
  }

  /** Every node is flagged, for every punter, for exactly the mines sitting on it. */
  ghost predicate OnlyMinesFlagged(nodes: seq<NodeInfo>, mines: seq<int>, numPunters: int)
    requires NodesShaped(nodes, |mines|, numPunters)
  {
    forall x, k, p :: 0 <= x < |nodes| && 0 <= k < |mines| && 0 <= p < numPunters ==>
      nodes[x].reachable[k][p] == (x == mines[k])
  }

  /** Per node a distance per mine and a flag per mine and punter; the lists are those of the edges. */
  ghost predicate Shape(numPunters: int, nodes: seq<NodeInfo>, edges: seq<EdgeInfo>,
                        themap: seq<seq<(int, int)>>, mines: seq<int>)
  {
    numPunters >= 0 && |themap| == |nodes| && EdgesIn(edges, |nodes|) &&
    themap == IncidenceOf(edges, |nodes|) && NodesShaped(nodes, |mines|, numPunters)
  }

  /** The fields `init(n, gameMap)` sets, `id2ix` having held `id2ix0` before. */
  ghost predicate InitState(n: int, gameMap: GameMap, id2ix0: map<int, int>, nodes: seq<NodeInfo>,
                            edges: seq<EdgeInfo>, themap: seq<seq<(int, int)>>, mines: seq<int>, id2ix: map<int, int>)
  {
    Shape(n, nodes, edges, themap, mines) && |nodes| == |gameMap.sites| &&
    id2ix == IndexIds(id2ix0, gameMap.sites) &&
    (forall x :: 0 <= x < |nodes| ==> nodes[x].id == gameMap.sites[x].id) &&
    RiversResolve(id2ix, gameMap.rivers, |nodes|) && |edges| == |gameMap.rivers| &&
    (forall i :: 0 <= i < |edges| ==> edges[i] == NormalEdge(id2ix, gameMap.rivers[i])) &&
    MinesResolve(id2ix, gameMap.mines, |nodes|) && |mines| == |gameMap.mines| &&
    (forall k :: 0 <= k < |mines| ==> mines[k] == id2ix[gameMap.mines[k]]) &&
    OnlyMinesFlagged(nodes, mines, n) &&
    forall k :: 0 <= k < |mines| ==> DistanceTable(NodeGraph(themap), mines[k], Column(nodes, k), 0)
  }

  /** The body of `init`, apart from `scores_`, which it does not touch. */
  method BuildInit(n: int, gameMap: GameMap, id2ix0: map<int, int>)
    returns (nodes: seq<NodeInfo>, edges: seq<EdgeInfo>, themap: seq<seq<(int, int)>>, mines: seq<int>, id2ix: map<int, int>)
    requires n >= 0 && IdsKnown(gameMap)
    ensures InitState(n, gameMap, id2ix0, nodes, edges, themap, mines, id2ix)
  {
    nodes, id2ix := IndexNodes(seq(|gameMap.sites|, _ => NodeInfo(0, [], [])), id2ix0, gameMap.sites);
    KnownIdsResolve(id2ix0, gameMap);
    edges, themap := AddRivers(id2ix, gameMap.rivers, |nodes|);
    mines := ResolveMines(id2ix, gameMap.mines, |nodes|);
    nodes := ResetNodes(nodes, mines, n);
    IncidenceIndexed(edges, |nodes|);
    nodes := InitMineScores(nodes, themap, mines);
  }

  /* ---------------------------------------------------------------- */
  /* The search of claim_impl                                          */
  /* ---------------------------------------------------------------- */

  /** The neighbours in `pairs` over edges of colour `punter`, leaving out `ignored`, in list order. */
  function ColouredEnds(pairs: seq<(int, int)>, edges: seq<EdgeInfo>, punter: int, ignored: int): seq<int>
  {
    if pairs == [] then []
    else
      var rest := ColouredEnds(pairs[..|pairs| - 1], edges, punter, ignored);
      var last := pairs[|pairs| - 1];
      if last.0 != ignored && 0 <= last.1 < |edges| && edges[last.1].color == punter then rest + [last.0] else rest
  }

  /** `w` is kept exactly when it is not `ignored` and some pair reaches it over an edge of colour `punter`. */
  lemma {:induction false} ColouredEndsMembers(pairs: seq<(int, int)>, edges: seq<EdgeInfo>, punter: int,
                                               ignored: int, w: int)
    ensures w in ColouredEnds(pairs, edges, punter, ignored) <==>
      w != ignored && exists ix :: (w, ix) in pairs && 0 <= ix < |edges| && edges[ix].color == punter
    decreases |pairs|
  {
    if pairs != [] {
      var init := pairs[..|pairs| - 1];
      ColouredEndsMembers(init, edges, punter, ignored, w);
      assert pairs == init + [pairs[|pairs| - 1]];
    }
  }

  /**
   * The graph the search of `claim_impl` walks: a node's neighbours over
   * the edges of colour `punter`, with the node `ignored` cut out.
   */
  ghost function ColouredGraph(themap: seq<seq<(int, int)>>, edges: seq<EdgeInfo>, punter: int, ignored: int)
    : (g: seq<seq<int>>)
    ensures |g| == |themap|
    ensures forall v :: 0 <= v < |themap| ==>
      g[v] == if v == ignored then [] else ColouredEnds(themap[v], edges, punter, ignored)
  {
    seq(|themap|, v requires 0 <= v < |themap| =>
      if v == ignored then [] else ColouredEnds(themap[v], edges, punter, ignored))
  }

  /** A `punter` edge from `v` to `w` in the coloured graph is also one from `w` back to `v`. */
  lemma ColouredBack(edges: seq<EdgeInfo>, n: nat, punter: int, ignored: int, v: int, w: int)
    requires EdgesIn(edges, n) && 0 <= v < n && w in ColouredGraph(IncidenceOf(edges, n), edges, punter, ignored)[v]
    ensures 0 <= w < n && v in ColouredGraph(IncidenceOf(edges, n), edges, punter, ignored)[w]
  {
    var themap := IncidenceOf(edges, n);
    ColouredEndsMembers(themap[v], edges, punter, ignored, w);
    var ix :| (w, ix) in themap[v] && 0 <= ix < |edges| && edges[ix].color == punter;
    IncidenceMembers(edges, n, v, w, ix);
    IncidenceMembers(edges, n, w, v, ix);
    ColouredEndsMembers(themap[w], edges, punter, ignored, v);
  }

  /** The coloured graph names only nodes, and every one of its edges goes both ways. */
  lemma ColouredSymmetric(edges: seq<EdgeInfo>, n: nat, punter: int, ignored: int)
    requires EdgesIn(edges, n)
    ensures Symmetric(ColouredGraph(IncidenceOf(edges, n), edges, punter, ignored))
  {
    var g := ColouredGraph(IncidenceOf(edges, n), edges, punter, ignored);
    assert |g| == n;
    forall v, w | 0 <= v < |g| && w in g[v] ensures 0 <= w < |g| {
      ColouredBack(edges, n, punter, ignored, v, w);
    }
    forall v, w | 0 <= v < n && w in g[v] ensures v in g[w] {
      ColouredBack(edges, n, punter, ignored, v, w);
    }
  }

  /**
   * The state of the search between two pops of its stack: `newly` lists
   * the nodes popped so far, each node is on the stack or in `newly` once
   * per time it was marked (the start once more when it starts unmarked),
   * marked nodes are reachable and never `ignored`, and an unmarked start
   * is marked only through a popped neighbour.
   */
  ghost predicate DfsState(g: seq<seq<int>>, start: int, ignored: int, markStart: bool,
                           visited: seq<bool>, stack: seq<int>, newly: seq<int>)
  {
    |visited| == |g| && 0 <= start < |g| && start != ignored &&
    (forall k :: 0 <= k < |stack| ==> 0 <= stack[k] < |g| && (stack[k] == start || visited[stack[k]])) &&
    (forall k :: 0 <= k < |newly| ==> 0 <= newly[k] < |g| && (newly[k] == start || visited[newly[k]])) &&
    (forall x :: 0 <= x < |g| ==>
      Count(newly, x) + Count(stack, x) == (if visited[x] then 1 else 0) + (if x == start && !markStart then 1 else 0)) &&
    (forall x :: 0 <= x < |g| && visited[x] ==> x != ignored && x in ReachSet(g, start)) &&
    (markStart ==> visited[start]) &&
    (visited[start] && !markStart ==> exists k :: 0 <= k < |newly| && start in g[newly[k]])
  }

  /** Every neighbour of the first `upto` popped nodes is marked. */
  ghost predicate PoppedMarked(g: seq<seq<int>>, visited: seq<bool>, newly: seq<int>, upto: int)
  {
    0 <= upto <= |newly| && forall k :: 0 <= k < upto ==> Marked(g, visited, newly[k])
  }

  /** Every neighbour of `x` is marked. */
  ghost predicate Marked(g: seq<seq<int>>, visited: seq<bool>, x: int)
  {
    0 <= x < |g| && forall w :: w in g[x] ==> 0 <= w < |visited| && visited[w]
  }

  lemma CountSnoc<T>(s: seq<T>, x: T, y: T)
    ensures Count(s + [x], y) == Count(s, y) + (if x == y then 1 else 0)
  {
    assert (s + [x])[..|s|] == s;
  }

  /** Popping the top `v` of the stack onto `newly` keeps the state. */
  lemma PopStep(g: seq<seq<int>>, start: int, ignored: int, markStart: bool,
                visited: seq<bool>, stack: seq<int>, newly: seq<int>)
    requires DfsState(g, start, ignored, markStart, visited, stack, newly) && stack != []
    requires PoppedMarked(g, visited, newly, |newly|)
    ensures var v := stack[|stack| - 1];
      DfsState(g, start, ignored, markStart, visited, stack[..|stack| - 1], newly + [v]) &&
      PoppedMarked(g, visited, newly + [v], |newly|)
  {
    var v := stack[|stack| - 1];
    var rest := stack[..|stack| - 1];
    assert stack == rest + [v];
    forall x | 0 <= x < |g|
      ensures Count(newly + [v], x) + Count(rest, x) == Count(newly, x) + Count(stack, x)
    {
      CountSnoc(newly, v, x);
      CountSnoc(rest, v, x);
    }
    var newly' := newly + [v];
    assert forall k :: 0 <= k < |newly| ==> newly'[k] == newly[k];
    if visited[start] && !markStart {
      var k :| 0 <= k < |newly| && start in g[newly[k]];
      assert newly'[k] == newly[k];
    }
  }

  /** Pushing the unmarked neighbour `w` of the popped node `v` and marking it keeps the state. */
  lemma PushStep(g: seq<seq<int>>, start: int, ignored: int, markStart: bool,
                 visited: seq<bool>, stack: seq<int>, newly: seq<int>, w: int)
    requires WellFormed(g) && DfsState(g, start, ignored, markStart, visited, stack, newly) && newly != []
    requires 0 <= w < |g| && w in g[newly[|newly| - 1]] && w != ignored && !visited[w]
    requires PoppedMarked(g, visited, newly, |newly| - 1)
    ensures DfsState(g, start, ignored, markStart, visited[w := true], stack + [w], newly)
    ensures PoppedMarked(g, visited[w := true], newly, |newly| - 1)
    ensures CountTrue(visited[w := true]) == CountTrue(visited) + 1
  {
    PushKeepsState(g, start, ignored, markStart, visited, stack, newly, w);
    PushKeepsPopped(g, visited, newly, |newly| - 1, w);
    CountTrueSet(visited, w);
  }

  /** The `DfsState` part of `PushStep`. */
  lemma PushKeepsState(g: seq<seq<int>>, start: int, ignored: int, markStart: bool,
                       visited: seq<bool>, stack: seq<int>, newly: seq<int>, w: int)
    requires WellFormed(g) && DfsState(g, start, ignored, markStart, visited, stack, newly) && newly != []
    requires 0 <= w < |g| && w in g[newly[|newly| - 1]] && w != ignored && !visited[w]
    ensures DfsState(g, start, ignored, markStart, visited[w := true], stack + [w], newly)
  {
    var v := newly[|newly| - 1];
    if v == start {
      TrivialWalk(g, start);
    }
    ReachClosed(g, start, v, w);
    forall x | 0 <= x < |g|
      ensures Count(stack + [w], x) == Count(stack, x) + (if w == x then 1 else 0)
    {
      CountSnoc(stack, w, x);
    }
  }

  /** Marking one more node keeps the popped nodes' neighbours marked. */
  lemma PushKeepsPopped(g: seq<seq<int>>, visited: seq<bool>, newly: seq<int>, upto: int, w: int)
    requires PoppedMarked(g, visited, newly, upto) && 0 <= w < |visited|
    ensures PoppedMarked(g, visited[w := true], newly, upto)
  {
    forall k | 0 <= k < upto ensures Marked(g, visited[w := true], newly[k]) {
      assert Marked(g, visited, newly[k]);
    }
  }

  /** The searched graph is well formed and every edge in it goes both ways. */
  ghost predicate Symmetric(g: seq<seq<int>>)
  {
    WellFormed(g) && forall v, w :: 0 <= v < |g| && w in g[v] ==> 0 <= w < |g| && v in g[w]
  }

  /** With the stack empty, the marked nodes and the start are exactly the nodes reachable from the start. */
  lemma FinishReach(g: seq<seq<int>>, start: int, ignored: int, markStart: bool, visited: seq<bool>, newly: seq<int>)
    requires Symmetric(g) && DfsState(g, start, ignored, markStart, visited, [], newly)
    requires PoppedMarked(g, visited, newly, |newly|)
    ensures visited[start := true] == ReachMask(g, start)
  {
    var mask := visited[start := true];
    forall x | 0 <= x < |g| && mask[x] ensures x in newly {
      CountPositive(newly, x);
    }
    forall x, w | 0 <= x < |g| && mask[x] && w in g[x] ensures 0 <= w < |g| && mask[w] {
      var k :| 0 <= k < |newly| && newly[k] == x;
    }
    TrivialWalk(g, start);
    ClosedMaskIsReach(g, start, mask);
  }

  /** With the stack empty, a start left unmarked at first got marked exactly when it has a neighbour. */
  lemma FinishStart(g: seq<seq<int>>, start: int, ignored: int, visited: seq<bool>, newly: seq<int>)
    requires Symmetric(g) && DfsState(g, start, ignored, false, visited, [], newly)
    requires PoppedMarked(g, visited, newly, |newly|)
    ensures visited[start] <==> g[start] != []
  {
    if visited[start] {
      var k :| 0 <= k < |newly| && start in g[newly[k]];
      assert newly[k] in g[start];
    } else if g[start] != [] {
      var w := g[start][0];
      assert w in g[start] && start in g[w];
      CountPositive(newly, start);
      var k :| 0 <= k < |newly| && newly[k] == start;
      assert visited[w];
      CountPositive(newly, w);
      assert false;
    }
  }

  /**
   * The end of the search: with the stack empty, the nodes reachable from
   * the start were popped once each, and an unmarked start once more when
   * it has a neighbour.
   */
  lemma CollectFinish(g: seq<seq<int>>, start: int, ignored: int, markStart: bool, visited: seq<bool>, newly: seq<int>)
    requires Symmetric(g) && DfsState(g, start, ignored, markStart, visited, [], newly)
    requires PoppedMarked(g, visited, newly, |newly|)
    ensures forall x :: 0 <= x < |g| ==>
      Count(newly, x) == (if ReachMask(g, start)[x] then 1 else 0) + (if x == start && !markStart && g[start] != [] then 1 else 0)
  {
    FinishReach(g, start, ignored, markStart, visited, newly);
    if !markStart {
      FinishStart(g, start, ignored, visited, newly);
    }
  }

  /**
   * The depth-first search of `claim_impl`, from `start` (the end that is
   * to become reachable) over edges of colour `punter`, never entering
   * `ignored`. With `markStart` false it is the search as written, which
   * leaves the start unmarked; with `markStart` true the start is marked
   * before the first pop.
   */
  method Collect(themap: seq<seq<(int, int)>>, edges: seq<EdgeInfo>, start: int, ignored: int, punter: int,
                 markStart: bool) returns (newly: seq<int>)
    requires EdgesIn(edges, |themap|) && themap == IncidenceOf(edges, |themap|)
    requires 0 <= start < |themap| && start != ignored
    ensures forall k :: 0 <= k < |newly| ==> 0 <= newly[k] < |themap|
    ensures var g := ColouredGraph(themap, edges, punter, ignored);
      forall x :: 0 <= x < |themap| ==>
        Count(newly, x) == (if ReachMask(g, start)[x] then 1 else 0) + (if x == start && !markStart && g[start] != [] then 1 else 0)
  {
    var n := |themap|;
    ghost var g := ColouredGraph(themap, edges, punter, ignored);
    ColouredSymmetric(edges, n, punter, ignored);
    IncidenceIndexed(edges, n);
    var visited := seq(n, _ => false);
    if markStart {
      TrivialWalk(g, start);
      visited := visited[start := true];
    }
    newly := [];
    var stack := [start];
    CountTrueBound(visited);
    while stack != []
      invariant DfsState(g, start, ignored, markStart, visited, stack, newly)
      invariant PoppedMarked(g, visited, newly, |newly|)
      invariant CountTrue(visited) <= n
      decreases n - CountTrue(visited), |stack|
    {
      visited, stack, newly := SearchStep(themap, edges, g, start, ignored, punter, markStart, visited, stack, newly);
    }
    CollectFinish(g, start, ignored, markStart, visited, newly);
  }

  /** One round of the search: pop the top of the stack and push its unmarked neighbours. */
  method SearchStep(themap: seq<seq<(int, int)>>, edges: seq<EdgeInfo>, ghost g: seq<seq<int>>,
                    start: int, ignored: int, punter: int, markStart: bool,
                    visited0: seq<bool>, stack0: seq<int>, newly0: seq<int>)
    returns (visited: seq<bool>, stack: seq<int>, newly: seq<int>)
    requires g == ColouredGraph(themap, edges, punter, ignored) && WellFormed(g) && Indexed(themap, edges)
    requires DfsState(g, start, ignored, markStart, visited0, stack0, newly0) && stack0 != []
    requires PoppedMarked(g, visited0, newly0, |newly0|)
    ensures DfsState(g, start, ignored, markStart, visited, stack, newly)
    ensures PoppedMarked(g, visited, newly, |newly|)
    ensures CountTrue(visited) <= |g|
    ensures CountTrue(visited0) < CountTrue(visited) || (CountTrue(visited0) == CountTrue(visited) && |stack| < |stack0|)
  {
    var v := stack0[|stack0| - 1];
    PopStep(g, start, ignored, markStart, visited0, stack0, newly0);
    newly := newly0 + [v];
    visited, stack := PushNeighbours(themap, edges, g, start, ignored, punter, markStart, v, visited0,
                                     stack0[..|stack0| - 1], newly);
    CountTrueBound(visited);
  }

  /** Every neighbour `pairs` keeps for the search is marked. */
  ghost predicate EndsMarked(pairs: seq<(int, int)>, edges: seq<EdgeInfo>, punter: int, ignored: int, visited: seq<bool>)
  {
    forall w :: w in ColouredEnds(pairs, edges, punter, ignored) ==> 0 <= w < |visited| && visited[w]
  }

  /** The inner loop of the search: every unmarked neighbour of the popped node `v` is pushed and marked. */
  method PushNeighbours(themap: seq<seq<(int, int)>>, edges: seq<EdgeInfo>, ghost g: seq<seq<int>>,
                        start: int, ignored: int, punter: int, markStart: bool, v: int,
                        visited0: seq<bool>, stack0: seq<int>, ghost newly: seq<int>)
    returns (visited: seq<bool>, stack: seq<int>)
    requires g == ColouredGraph(themap, edges, punter, ignored) && WellFormed(g) && Indexed(themap, edges)
    requires DfsState(g, start, ignored, markStart, visited0, stack0, newly) && newly != []
    requires v == newly[|newly| - 1]
    requires PoppedMarked(g, visited0, newly, |newly| - 1)
    ensures DfsState(g, start, ignored, markStart, visited, stack, newly)
    ensures PoppedMarked(g, visited, newly, |newly|)
    ensures CountTrue(visited0) <= CountTrue(visited)
    ensures CountTrue(visited0) == CountTrue(visited) ==> stack == stack0
  {
    visited, stack := visited0, stack0;
    for j := 0 to |themap[v]|
      invariant DfsState(g, start, ignored, markStart, visited, stack, newly)
      invariant PoppedMarked(g, visited, newly, |newly| - 1)
      invariant EndsMarked(themap[v][..j], edges, punter, ignored, visited)
      invariant CountTrue(visited0) <= CountTrue(visited)
      invariant CountTrue(visited0) == CountTrue(visited) ==> stack == stack0
    {
      ghost var visited1, stack1 := visited, stack;
      visited, stack := VisitPair(themap, edges, g, start, ignored, punter, markStart, v, j, visited, stack, newly);
    }
    assert themap[v][..|themap[v]|] == themap[v];
    forall w | w in g[v] ensures 0 <= w < |visited| && visited[w] {
      assert w in ColouredEnds(themap[v], edges, punter, ignored);
    }
  }

  /** The next pair keeps `EndsMarked` when the search skips it or marks its node. */
  lemma EndsMarkedStep(pairs: seq<(int, int)>, j: int, edges: seq<EdgeInfo>, punter: int, ignored: int, visited: seq<bool>)
    requires 0 <= j < |pairs| && EndsMarked(pairs[..j], edges, punter, ignored, visited)
    requires var (adj, ei) := pairs[j];
      adj == ignored || !(0 <= ei < |edges|) || edges[ei].color != punter || (0 <= adj < |visited| && visited[adj])
    ensures EndsMarked(pairs[..j + 1], edges, punter, ignored, visited)
  {
    var p := pairs[..j + 1];
    assert p[..|p| - 1] == pairs[..j] && p[|p| - 1] == pairs[j];
    var rest := ColouredEnds(pairs[..j], edges, punter, ignored);
    var (adj, ei) := pairs[j];
    if adj != ignored && 0 <= ei < |edges| && edges[ei].color == punter {
      assert ColouredEnds(p, edges, punter, ignored) == rest + [adj];
    } else {
      assert ColouredEnds(p, edges, punter, ignored) == rest;
    }
  }

  /** Marking one more node keeps `EndsMarked`. */
  lemma EndsMarkedGrow(pairs: seq<(int, int)>, edges: seq<EdgeInfo>, punter: int, ignored: int, visited: seq<bool>, w: int)
    requires EndsMarked(pairs, edges, punter, ignored, visited) && 0 <= w < |visited|
    ensures EndsMarked(pairs, edges, punter, ignored, visited[w := true])
  {
  }

  /**
   * One pair `(adj, ei)` of the inner loop: `adj` is pushed and marked when
   * it is unmarked, not `ignored`, and edge `ei` has colour `punter`.
   */
  method VisitPair(themap: seq<seq<(int, int)>>, edges: seq<EdgeInfo>, ghost g: seq<seq<int>>,
                   start: int, ignored: int, punter: int, markStart: bool, v: int, j: int,
                   visited0: seq<bool>, stack0: seq<int>, ghost newly: seq<int>)
    returns (visited: seq<bool>, stack: seq<int>)
    requires g == ColouredGraph(themap, edges, punter, ignored) && WellFormed(g) && Indexed(themap, edges)
    requires DfsState(g, start, ignored, markStart, visited0, stack0, newly) && newly != []
    requires v == newly[|newly| - 1] && 0 <= j < |themap[v]|
    requires PoppedMarked(g, visited0, newly, |newly| - 1)
    requires EndsMarked(themap[v][..j], edges, punter, ignored, visited0)
    ensures DfsState(g, start, ignored, markStart, visited, stack, newly)
    ensures PoppedMarked(g, visited, newly, |newly| - 1)
    ensures EndsMarked(themap[v][..j + 1], edges, punter, ignored, visited)
    ensures CountTrue(visited0) <= CountTrue(visited)
    ensures CountTrue(visited0) == CountTrue(visited) ==> stack == stack0
  {
    visited, stack := visited0, stack0;
    var adj := themap[v][j].0;
    var ei := themap[v][j].1;
    if !visited[adj] && adj != ignored && edges[ei].color == punter {
      assert themap[v][..j + 1] == themap[v][..j] + [themap[v][j]];
      ColouredEndsMembers(themap[v], edges, punter, ignored, adj);
      PushStep(g, start, ignored, markStart, visited, stack, newly, adj);
      EndsMarkedGrow(themap[v][..j], edges, punter, ignored, visited, adj);
      stack := stack + [adj];
      visited := visited[adj := true];
    }
    EndsMarkedStep(themap[v], j, edges, punter, ignored, visited);
  }

  /* ---------------------------------------------------------------- */
  /* claim_impl                                                        */
  /* ---------------------------------------------------------------- */

  /** The fields `claim_impl` reads and writes. */
  datatype MapState = MapState(numPunters: int, nodes: seq<NodeInfo>, edges: seq<EdgeInfo>,
                               themap: seq<seq<(int, int)>>, mines: seq<int>, scores: seq<int>)

  ghost predicate Fits(st: MapState)
  {
    Shape(st.numPunters, st.nodes, st.edges, st.themap, st.mines)
  }

  /** Two nodes and a punter with flags. */
  ghost predicate FlagsFit(st: MapState, source: int, dest: int, punter: int)
  {
    NodesShaped(st.nodes, |st.mines|, st.numPunters) && |st.themap| == |st.nodes| &&
    0 <= source < |st.nodes| && 0 <= dest < |st.nodes| && 0 <= punter < st.numPunters
  }

  /** What `claim_impl` needs of its arguments: two nodes and a punter with flags, on a shaped map. */
  ghost predicate ClaimArgs(st: MapState, source: int, dest: int, punter: int)
  {
    Fits(st) && FlagsFit(st, source, dest, punter)
  }

  /**
   * The nodes that become reachable from mine `k` when `punter` takes the
   * river `source`-`dest`: none when both ends or neither already are;
   * otherwise every node reached from the other end over `punter`'s edges
   * without entering the end that already is.
   */
  ghost function MineMask(st: MapState, source: int, dest: int, punter: int, k: int): (r: seq<bool>)
    requires FlagsFit(st, source, dest, punter) && 0 <= k < |st.mines|
    ensures |r| == |st.nodes|
  {
    var rs := st.nodes[source].reachable[k][punter];
    var rd := st.nodes[dest].reachable[k][punter];
    if rs == rd then seq(|st.nodes|, _ => false)
    else ReachMask(ColouredGraph(st.themap, st.edges, punter, if rs then source else dest), if rs then dest else source)
  }

  /** The score the claim adds for mine `k`: the squared distances of the nodes it makes reachable. */
  ghost function MineGain(st: MapState, source: int, dest: int, punter: int, k: int): int
    requires FlagsFit(st, source, dest, punter) && 0 <= k < |st.mines|
  {
    SquareSum(MineMask(st, source, dest, punter, k), Column(st.nodes, k))
  }

  /** The gains of the first `upto` mines. */
  ghost function ClaimGain(st: MapState, source: int, dest: int, punter: int, upto: int): int
    requires FlagsFit(st, source, dest, punter) && 0 <= upto <= |st.mines|
  {
    if upto == 0 then 0 else ClaimGain(st, source, dest, punter, upto - 1) + MineGain(st, source, dest, punter, upto - 1)
  }

  /** The sum of `d[v]^2` over the list `l`, repeats included. */
  function ListSquareSum(l: seq<int>, d: seq<int>): int
    requires forall k :: 0 <= k < |l| ==> 0 <= l[k] < |d|
  {
    if l == [] then 0 else ListSquareSum(l[..|l| - 1], d) + d[l[|l| - 1]] * d[l[|l| - 1]]
  }

  /** A list holding each node of a mask once, and nothing else, sums to the mask's sum. */
  lemma {:induction false} ListSumIsMaskSum(l: seq<int>, mask: seq<bool>, d: seq<int>)
    requires |mask| == |d| && forall k :: 0 <= k < |l| ==> 0 <= l[k] < |d|
    requires forall x :: 0 <= x < |d| ==> Count(l, x) == if mask[x] then 1 else 0
    ensures ListSquareSum(l, d) == SquareSum(mask, d)
    decreases |l|
  {
    if l == [] {
      SquareSumNone(mask, d);
    } else {
      var v := l[|l| - 1];
      var init := l[..|l| - 1];
      assert l == init + [v];
      var mask' := mask[v := false];
      forall x | 0 <= x < |d| ensures Count(init, x) == if mask'[x] then 1 else 0 {
        CountSnoc(init, v, x);
      }
      ListSumIsMaskSum(init, mask', d);
      SquareSumSet(mask', d, v);
      assert mask'[v := true] == mask;
    }
  }

  /** The first loop after the search: the squared distances of the collected nodes, for mine `k`. */
  method SumSquares(nodes: seq<NodeInfo>, newly: seq<int>, k: int) returns (sum: int)
    requires HasColumn(nodes, k)
    requires forall i :: 0 <= i < |newly| ==> 0 <= newly[i] < |nodes|
    ensures sum == ListSquareSum(newly, Column(nodes, k))
  {
    ghost var column := Column(nodes, k);
    sum := 0;
    for i := 0 to |newly|
      invariant sum == ListSquareSum(newly[..i], column)
    {
      var d := nodes[newly[i]].minedist[k];
      assert newly[..i + 1][..i] == newly[..i];
      sum := sum + d * d;
    }
    assert newly[..|newly|] == newly;
  }

  /** `node` flagged as reachable from mine `k` for punter `p`. */
  function Flag(node: NodeInfo, k: int, p: int): NodeInfo
    requires 0 <= k < |node.reachable| && 0 <= p < |node.reachable[k]|
  {
    node.(reachable := node.reachable[k := node.reachable[k][p := true]])
  }

  lemma FlagTwice(node: NodeInfo, k: int, p: int)
    requires 0 <= k < |node.reachable| && 0 <= p < |node.reachable[k]|
    ensures Flag(Flag(node, k, p), k, p) == Flag(node, k, p)
  {
    assert Flag(node, k, p).reachable[k][p := true] == Flag(node, k, p).reachable[k];
  }

  /** The second loop after the search: every collected node gets the flag of mine `k` for `punter`. */
  method MarkReachable(nodes0: seq<NodeInfo>, newly: seq<int>, k: int, punter: int) returns (nodes: seq<NodeInfo>)
    requires forall x :: 0 <= x < |nodes0| ==> 0 <= k < |nodes0[x].reachable| && 0 <= punter < |nodes0[x].reachable[k]|
    requires forall i :: 0 <= i < |newly| ==> 0 <= newly[i] < |nodes0|
    ensures |nodes| == |nodes0|
    ensures forall x :: 0 <= x < |nodes| ==> nodes[x] == if x in newly then Flag(nodes0[x], k, punter) else nodes0[x]
  {
    nodes := nodes0;
    for i := 0 to |newly|
      invariant |nodes| == |nodes0|
      invariant forall x :: 0 <= x < |nodes| ==> nodes[x] == if x in newly[..i] then Flag(nodes0[x], k, punter) else nodes0[x]
    {
      var v := newly[i];
      assert newly[..i + 1] == newly[..i] + [v];
      FlagTwice(nodes0[v], k, punter);
      nodes := nodes[v := Flag(nodes[v], k, punter)];
    }
    assert newly[..|newly|] == newly;
  }

  /** The nodes after a claim that flags, for mine `k` and `punter`, the nodes of `mask`. */
  ghost predicate FlaggedBy(nodes0: seq<NodeInfo>, nodes: seq<NodeInfo>, mask: seq<bool>, k: int, punter: int)
    requires |mask| == |nodes0|
  {
    |nodes| == |nodes0| &&
    forall x :: 0 <= x < |nodes| ==>
      nodes[x] == if mask[x] && 0 <= k < |nodes0[x].reachable| && 0 <= punter < |nodes0[x].reachable[k]|
                  then Flag(nodes0[x], k, punter) else nodes0[x]
  }

  /**
   * One mine of `claim_impl`, the search marking its start: the gain for
   * mine `k` and, when claiming, the nodes with the gained ones flagged.
   */
  method ClaimMine(st: MapState, source: int, dest: int, punter: int, k: int, claim: bool)
    returns (gain: int, nodes: seq<NodeInfo>)
    requires ClaimArgs(st, source, dest, punter) && 0 <= k < |st.mines|
    ensures gain == MineGain(st, source, dest, punter, k)
    ensures claim ==> FlaggedBy(st.nodes, nodes, MineMask(st, source, dest, punter, k), k, punter)
    ensures !claim ==> nodes == st.nodes
  {
    nodes := st.nodes;
    gain := 0;
    var sourceReachable := st.nodes[source].reachable[k][punter];
    var destReachable := st.nodes[dest].reachable[k][punter];
    ghost var mask := MineMask(st, source, dest, punter, k);
    if sourceReachable != destReachable {
      var enable := if sourceReachable then dest else source;
      var ignored := if sourceReachable then source else dest;
      var newly := Collect(st.themap, st.edges, enable, ignored, punter, true);
      gain := SumSquares(st.nodes, newly, k);
      ListSumIsMaskSum(newly, mask, Column(st.nodes, k));
      if claim {
        nodes := MarkReachable(st.nodes, newly, k, punter);
        forall x | 0 <= x < |nodes| ensures (x in newly) == mask[x] {
          CountPositive(newly, x);
        }
      }
    } else {
      SquareSumNone(mask, Column(st.nodes, k));
    }
  }

  /** The claimed river's position among the source's pairs: the first pair leading to `dest`. */
  function FirstMatch(pairs: seq<(int, int)>, dest: int): (r: Option<int>)
    ensures r.Some? ==> 0 <= r.value < |pairs| && pairs[r.value].0 == dest
    ensures r.Some? ==> forall j :: 0 <= j < r.value ==> pairs[j].0 != dest
    ensures r.None? ==> forall j :: 0 <= j < |pairs| ==> pairs[j].0 != dest
  {
    if pairs == [] then None
    else if pairs[0].0 == dest then Some(0)
    else match FirstMatch(pairs[1..], dest)
      case None => None
      case Some(j) => Some(j + 1)
  }

  /** The edges with the first edge from the source's list to `dest` given `punter`'s colour. */
  function Recoloured(edges: seq<EdgeInfo>, pairs: seq<(int, int)>, dest: int, punter: int): (r: seq<EdgeInfo>)
    requires forall j :: 0 <= j < |pairs| ==> 0 <= pairs[j].1 < |edges|
    ensures |r| == |edges|
    ensures forall i :: 0 <= i < |edges| ==> r[i].source == edges[i].source && r[i].dest == edges[i].dest
  {
    match FirstMatch(pairs, dest)
    case None => edges
    case Some(j) => edges[pairs[j].1 := edges[pairs[j].1].(color := punter)]
  }

  /** The colour update at the end of a claim: the loop stops at the first pair leading to `dest`. */
  method ColourRiver(edges0: seq<EdgeInfo>, pairs: seq<(int, int)>, dest: int, punter: int) returns (edges: seq<EdgeInfo>)
    requires forall j :: 0 <= j < |pairs| ==> 0 <= pairs[j].1 < |edges0|
    ensures edges == Recoloured(edges0, pairs, dest, punter)
  {
    edges := edges0;
    var j := 0;
    while j < |pairs|
      invariant 0 <= j <= |pairs| && forall i :: 0 <= i < j ==> pairs[i].0 != dest
    {
      if pairs[j].0 == dest {
        edges := edges0[pairs[j].1 := edges0[pairs[j].1].(color := punter)];
        return;
      }
      j := j + 1;
    }
  }

  /** Node `x` once the first `upto` mines have flagged, for `punter`, the nodes they gain. */
  ghost function ClaimedNode(st: MapState, source: int, dest: int, punter: int, upto: int, x: int): (r: NodeInfo)
    requires FlagsFit(st, source, dest, punter) && 0 <= upto <= |st.mines| && 0 <= x < |st.nodes|
    ensures r.id == st.nodes[x].id && r.minedist == st.nodes[x].minedist
    ensures |r.reachable| == |st.nodes[x].reachable|
    ensures forall k :: 0 <= k < |r.reachable| ==> |r.reachable[k]| == |st.nodes[x].reachable[k]|
  {
    var node := st.nodes[x];
    node.(reachable := seq(|node.reachable|, k requires 0 <= k < |node.reachable| =>
      if k < upto && MineMask(st, source, dest, punter, k)[x] then node.reachable[k][punter := true] else node.reachable[k]))
  }

  /** The flags of a claimed node: those of the first `upto` mines gain the claim's nodes, the rest stay. */
  lemma ClaimedNodeFlags(st: MapState, source: int, dest: int, punter: int, upto: int, x: int, k: int, q: int)
    requires FlagsFit(st, source, dest, punter) && 0 <= upto <= |st.mines| && 0 <= x < |st.nodes|
    requires 0 <= k < |st.mines| && 0 <= q < st.numPunters
    ensures ClaimedNode(st, source, dest, punter, upto, x).reachable[k][q] ==
      (st.nodes[x].reachable[k][q] || (k < upto && q == punter && MineMask(st, source, dest, punter, k)[x]))
  {
  }

  lemma ClaimedNodeStep(st: MapState, source: int, dest: int, punter: int, k: int, x: int)
    requires FlagsFit(st, source, dest, punter) && 0 <= k < |st.mines| && 0 <= x < |st.nodes|
    ensures ClaimedNode(st, source, dest, punter, k + 1, x) ==
      if MineMask(st, source, dest, punter, k)[x] then Flag(ClaimedNode(st, source, dest, punter, k, x), k, punter)
      else ClaimedNode(st, source, dest, punter, k, x)
  {
    var a, b := ClaimedNode(st, source, dest, punter, k + 1, x), ClaimedNode(st, source, dest, punter, k, x);
    var c := if MineMask(st, source, dest, punter, k)[x] then Flag(b, k, punter) else b;
    assert a.reachable == c.reachable;
  }

  lemma ClaimedNodeNone(st: MapState, source: int, dest: int, punter: int, x: int)
    requires FlagsFit(st, source, dest, punter) && 0 <= x < |st.nodes|
    ensures ClaimedNode(st, source, dest, punter, 0, x) == st.nodes[x]
  {
    assert ClaimedNode(st, source, dest, punter, 0, x).reachable == st.nodes[x].reachable;
  }

  /** A mine's gain reads only that mine's distances and flags. */
  lemma SameColumnSameGain(st: MapState, nodes: seq<NodeInfo>, source: int, dest: int, punter: int, k: int)
    requires ClaimArgs(st, source, dest, punter) && 0 <= k < |st.mines|
    requires |nodes| == |st.nodes| && NodesShaped(nodes, |st.mines|, st.numPunters)
    requires forall x :: 0 <= x < |nodes| ==>
      nodes[x].minedist == st.nodes[x].minedist && nodes[x].reachable[k] == st.nodes[x].reachable[k]
    ensures ClaimArgs(st.(nodes := nodes), source, dest, punter)
    ensures MineMask(st.(nodes := nodes), source, dest, punter, k) == MineMask(st, source, dest, punter, k)
    ensures MineGain(st.(nodes := nodes), source, dest, punter, k) == MineGain(st, source, dest, punter, k)
  {
    assert Column(nodes, k) == Column(st.nodes, k);
  }

  /** The state after a claim of `source`-`dest` by `punter` that gained `gain`. */
  ghost predicate Claimed(st: MapState, st': MapState, source: int, dest: int, punter: int, gain: int)
    requires ClaimArgs(st, source, dest, punter)
  {
    IncidenceIndexed(st.edges, |st.nodes|);
    st'.numPunters == st.numPunters && st'.themap == st.themap && st'.mines == st.mines &&
    |st'.nodes| == |st.nodes| &&
    (forall x :: 0 <= x < |st.nodes| ==> st'.nodes[x] == ClaimedNode(st, source, dest, punter, |st.mines|, x)) &&
    st'.edges == Recoloured(st.edges, st.themap[source], dest, punter) &&
    0 <= punter < |st.scores| && st'.scores == st.scores[punter := st.scores[punter] + gain]
  }

  /** A claim keeps the shape: the same sizes, and lists that still index the recoloured edges. */
  lemma ClaimedFits(st: MapState, st': MapState, source: int, dest: int, punter: int, gain: int)
    requires ClaimArgs(st, source, dest, punter) && Claimed(st, st', source, dest, punter, gain)
    ensures ClaimArgs(st', source, dest, punter) && |st'.scores| == |st.scores|
  {
    IncidenceIndexed(st.edges, |st.nodes|);
    IncidenceIgnoresColour(st.edges, st'.edges, |st.nodes|);
    forall x | 0 <= x < |st'.nodes|
      ensures |st'.nodes[x].minedist| == |st.mines| && |st'.nodes[x].reachable| == |st.mines|
      ensures forall k :: 0 <= k < |st.mines| ==> |st'.nodes[x].reachable[k]| == st.numPunters
    {
      var r := ClaimedNode(st, source, dest, punter, |st.mines|, x);
      assert st'.nodes[x] == r;
    }
  }

  /** The nodes once the first `upto` mines are handled: flagged when claiming, untouched otherwise. */
  ghost predicate ClaimedUpTo(st: MapState, nodes: seq<NodeInfo>, source: int, dest: int, punter: int, upto: int, claim: bool)
    requires FlagsFit(st, source, dest, punter) && 0 <= upto <= |st.mines|
  {
    |nodes| == |st.nodes| &&
    forall x :: 0 <= x < |nodes| ==> nodes[x] == if claim then ClaimedNode(st, source, dest, punter, upto, x) else st.nodes[x]
  }

  /** The mine loop's state after the first `upto` mines: their summed gain, and the nodes flagged for them. */
  ghost predicate MinesDone(st: MapState, nodes: seq<NodeInfo>, ret: int, source: int, dest: int, punter: int, upto: int, claim: bool)
  {
    ClaimArgs(st, source, dest, punter) && 0 <= upto <= |st.mines| &&
    ret == ClaimGain(st, source, dest, punter, upto) &&
    ClaimedUpTo(st, nodes, source, dest, punter, upto, claim)
  }

  /** Before the mine loop no mine is done. */
  lemma MinesDoneStart(st: MapState, source: int, dest: int, punter: int, claim: bool)
    requires ClaimArgs(st, source, dest, punter)
    ensures MinesDone(st, st.nodes, 0, source, dest, punter, 0, claim)
  {
    forall x | 0 <= x < |st.nodes| ensures ClaimedNode(st, source, dest, punter, 0, x) == st.nodes[x] {
      ClaimedNodeNone(st, source, dest, punter, x);
    }
  }

  /** One pass of the per-mine loop of `claim_impl`: the mine's gain is added and its nodes flagged. */
  method ClaimStep(st: MapState, nodes0: seq<NodeInfo>, ret0: int, source: int, dest: int, punter: int, k: int, claim: bool)
    returns (ret: int, nodes: seq<NodeInfo>)
    requires k < |st.mines| && MinesDone(st, nodes0, ret0, source, dest, punter, k, claim)
    ensures ret == ret0 + MineGain(st, source, dest, punter, k)
    ensures MinesDone(st, nodes, ret, source, dest, punter, k + 1, claim)
  {
    assert NodesShaped(nodes0, |st.mines|, st.numPunters) by {
      forall x | 0 <= x < |nodes0|
        ensures |nodes0[x].minedist| == |st.mines| && |nodes0[x].reachable| == |st.mines|
        ensures forall j :: 0 <= j < |st.mines| ==> |nodes0[x].reachable[j]| == st.numPunters
      {
      }
    }
    SameColumnSameGain(st, nodes0, source, dest, punter, k);
    var gain;
    gain, nodes := ClaimMine(st.(nodes := nodes0), source, dest, punter, k, claim);
    ret := ret0 + gain;
    if claim {
      forall x | 0 <= x < |nodes| ensures nodes[x] == ClaimedNode(st, source, dest, punter, k + 1, x) {
        ClaimedNodeStep(st, source, dest, punter, k, x);
      }
    }
  }

  /** The per-mine loop of `claim_impl`: the total gain, and the nodes after it. */
  method ClaimMines(st: MapState, source: int, dest: int, punter: int, claim: bool) returns (ret: int, nodes: seq<NodeInfo>)
    requires ClaimArgs(st, source, dest, punter)
    ensures MinesDone(st, nodes, ret, source, dest, punter, |st.mines|, claim)
  {
    nodes := st.nodes;
    ret := 0;
    MinesDoneStart(st, source, dest, punter, claim);
    for k := 0 to |st.mines|
      invariant MinesDone(st, nodes, ret, source, dest, punter, k, claim)
    {
      ret, nodes := ClaimStep(st, nodes, ret, source, dest, punter, k, claim);
    }
  }

  /**
   * `claim_impl` with the search marking its start: the gain over all
   * mines and, when claiming, the flags, the river's colour and the
   * punter's score updated.
   */
  method ClaimCore(st: MapState, source: int, dest: int, punter: int, claim: bool) returns (ret: int, st': MapState)
    requires ClaimArgs(st, source, dest, punter) && (claim ==> |st.scores| == st.numPunters)
    ensures ret == ClaimGain(st, source, dest, punter, |st.mines|)
    ensures !claim ==> st' == st
    ensures claim ==> Claimed(st, st', source, dest, punter, ret)
  {
    var nodes;
    ret, nodes := ClaimMines(st, source, dest, punter, claim);
    st' := st;
    if claim {
      IncidenceIndexed(st.edges, |st.nodes|);
      var edges := ColourRiver(st.edges, st.themap[source], dest, punter);
      st' := st.(nodes := nodes, edges := edges, scores := st.scores[punter := st.scores[punter] + ret]);
    } else {
      assert nodes == st.nodes;
    }
  }

  /* ---------------------------------------------------------------- */
  /* claim_impl as written                                             */
  /* ---------------------------------------------------------------- */

  /**
   * The search as written on a three-node map: the river 0-1 is being
   * claimed by punter 0, who already owns 0-2, and node 1 is the end
   * already connected. Node 0 is popped twice, so its distance would be
   * counted twice.
   */
  method StartCountedTwice() returns (newly: seq<int>)
    ensures Count(newly, 0) == 2 && Count(newly, 2) == 1
  {
    var edges := [EdgeInfo(0, 1, -1), EdgeInfo(0, 2, 0)];
    var themap := IncidenceOf(edges, 3);
    ghost var g := ColouredGraph(themap, edges, 0, 1);
    IncidenceMembers(edges, 3, 0, 2, 1);
    ColouredEndsMembers(themap[0], edges, 0, 1, 2);
    assert 2 in g[0];
    TrivialWalk(g, 0);
    ColouredSymmetric(edges, 3, 0, 1);
    ReachClosed(g, 0, 0, 2);
    newly := Collect(themap, edges, 0, 1, 0, false);
  }

  /**
   * What `claim_impl` as written adds to the score, given each mine's gain
   * and whether exactly one end of the river was connected to it: every
   * such mine adds the running total of the gains so far.
   */
  function AddedAsWritten(gains: seq<int>, active: seq<bool>): (added: int)
    requires |gains| == |active|
    ensures (forall k :: 0 <= k < |gains| ==> 0 <= gains[k] && (!active[k] ==> gains[k] == 0)) ==> added >= Sum(gains)
    decreases |gains|
  {
    if gains == [] then 0
    else
      SumNonNegative(gains[..|gains| - 1]);
      AddedAsWritten(gains[..|gains| - 1], active[..|active| - 1]) + (if active[|active| - 1] then Sum(gains) else 0)
  }

  /** A sum of gains that are never negative is never negative. */
  lemma {:induction false} SumNonNegative(s: seq<int>)
    ensures (forall k :: 0 <= k < |s| ==> 0 <= s[k]) ==> Sum(s) >= 0
  {
    if s != [] {
      SumNonNegative(s[..|s| - 1]);
    }
  }

  /** The score bookkeeping of `claim_impl` as written: `ret` keeps growing, and each active mine adds all of it. */
  method ScoreAsWritten(gains: seq<int>, active: seq<bool>) returns (ret: int, added: int)
    requires |gains| == |active| && forall k :: 0 <= k < |gains| && !active[k] ==> gains[k] == 0
    ensures ret == Sum(gains) && added == AddedAsWritten(gains, active)
  {
    ret, added := 0, 0;
    for k := 0 to |gains|
      invariant ret == Sum(gains[..k]) && added == AddedAsWritten(gains[..k], active[..k])
    {
      assert gains[..k + 1][..k] == gains[..k] && active[..k + 1][..k] == active[..k];
      if active[k] {
        ret := ret + gains[k];
        added := added + ret;
      }
    }
    assert gains[..|gains|] == gains && active[..|active|] == active;
  }

  lemma {:induction false} SumZero(gains: seq<int>)
    requires forall k :: 0 <= k < |gains| ==> gains[k] == 0
    ensures Sum(gains) == 0
    decreases |gains|
  {
    if gains != [] {
      SumZero(gains[..|gains| - 1]);
    }
  }

  lemma {:induction false} AddedNone(gains: seq<int>, active: seq<bool>)
    requires |gains| == |active| && forall k :: 0 <= k < |active| ==> !active[k]
    ensures AddedAsWritten(gains, active) == 0
    decreases |gains|
  {
    if gains != [] {
      AddedNone(gains[..|gains| - 1], active[..|active| - 1]);
    }
  }

  /** With at most one active mine the running total does no harm: the score grows by the gain. */
  lemma {:induction false} AddedAsWrittenOneMine(gains: seq<int>, active: seq<bool>)
    requires |gains| == |active| && forall k :: 0 <= k < |gains| && !active[k] ==> gains[k] == 0
    requires forall i, j :: 0 <= i < j < |active| && active[i] ==> !active[j]
    ensures AddedAsWritten(gains, active) == Sum(gains)
    decreases |gains|
  {
    if gains != [] {
      var n := |gains| - 1;
      if active[n] {
        AddedNone(gains[..n], active[..n]);
        SumZero(gains[..n]);
      } else {
        AddedAsWrittenOneMine(gains[..n], active[..n]);
      }
    }
  }

  /** Two active mines that gain 1 each: the claim is worth 2, the score as written grows by 3. */
  method RunningTotalOvercounts() returns (ret: int, added: int)
    ensures ret == 2 && added == 3
  {
    ret, added := ScoreAsWritten([1, 1], [true, true]);
    assert [1, 1][..1] == [1] && [true, true][..1] == [true];
  }

  /* ---------------------------------------------------------------- */
  /* serialize / deserialize                                           */
  /* ---------------------------------------------------------------- */

  /** A flag row as the integers 1 and 0. */
  function FlagInts(row: seq<bool>): (r: seq<int>)
    ensures |r| == |row| && forall u :: 0 <= u < |row| ==> r[u] == if row[u] then 1 else 0
  {
    seq(|row|, u requires 0 <= u < |row| => if row[u] then 1 else 0)
  }

  /** Integers read back as flags: anything but 0 is set. */
  function Bits(ints: seq<int>): (r: seq<bool>)
    ensures |r| == |ints| && forall u :: 0 <= u < |ints| ==> r[u] == (ints[u] != 0)
  {
    seq(|ints|, u requires 0 <= u < |ints| => ints[u] != 0)
  }

  /** The flags of a node, mine by mine. */
  function FlattenFlags(rows: seq<seq<bool>>): seq<int>
  {
    if rows == [] then [] else FlagInts(rows[0]) + FlattenFlags(rows[1..])
  }

  /** One node as `serialize` writes it: its id, all its distances, then all its flags. */
  function EncodeNode(node: NodeInfo): seq<int>
  {
    [node.id] + node.minedist + FlattenFlags(node.reachable)
  }

  function EncodeNodes(nodes: seq<NodeInfo>): seq<int>
  {
    if nodes == [] then [] else EncodeNode(nodes[0]) + EncodeNodes(nodes[1..])
  }

  function EncodeEdges(edges: seq<EdgeInfo>): seq<int>
  {
    if edges == [] then [] else [edges[0].source, edges[0].dest, edges[0].color] + EncodeEdges(edges[1..])
  }

  /** The tokens `serialize` writes, in order. */
  function Encode(st: MapState): seq<int>
  {
    [st.numPunters, |st.mines|, |st.nodes|] + EncodeNodes(st.nodes) + [|st.edges|] + EncodeEdges(st.edges) +
    st.mines + st.scores
  }

  /** `count` rows of `width` flags. */
  function ReadRows(toks: seq<int>, count: nat, width: nat): Option<(seq<seq<bool>>, seq<int>)>
  {
    if count == 0 then Some(([], toks))
    else if |toks| < width then None
    else match ReadRows(toks[width..], count - 1, width)
      case None => None
      case Some((rows, rest)) => Some(([Bits(toks[..width])] + rows, rest))
  }

  /** A node read in the order `serialize` writes it. */
  function ReadNode(toks: seq<int>, numMines: nat, numPunters: nat): Option<(NodeInfo, seq<int>)>
  {
    if |toks| < 1 + numMines then None
    else match ReadRows(toks[1 + numMines..], numMines, numPunters)
      case None => None
      case Some((rows, rest)) => Some((NodeInfo(toks[0], toks[1..1 + numMines], rows), rest))
  }

  /** `count` entries of a distance followed by that mine's flags, as `deserialize` reads them. */
  function ReadMineEntries(toks: seq<int>, count: nat, numPunters: nat): Option<(seq<int>, seq<seq<bool>>, seq<int>)>
  {
    if count == 0 then Some(([], [], toks))
    else if |toks| < 1 + numPunters then None
    else match ReadMineEntries(toks[1 + numPunters..], count - 1, numPunters)
      case None => None
      case Some((dists, rows, rest)) => Some(([toks[0]] + dists, [Bits(toks[1..1 + numPunters])] + rows, rest))
  }

  /**
   * A node as `deserialize` reads it: its id, then per mine a distance and
   * that mine's flags. It takes as many tokens as the node `serialize`
   * writes, so a misread node goes unnoticed.
   */
  function ReadNodeAsWritten(toks: seq<int>, numMines: nat, numPunters: nat): (r: Option<(NodeInfo, seq<int>)>)
    ensures r.Some? <==> ReadNode(toks, numMines, numPunters).Some?
    ensures r.Some? ==> r.value.1 == ReadNode(toks, numMines, numPunters).value.1 && r.value.0.id == toks[0]
  {
    if |toks| < 1 then None
    else
      ReadersTakeAlike(toks, numMines, numPunters);
      match ReadMineEntries(toks[1..], numMines, numPunters)
      case None => None
      case Some((dists, rows, rest)) => Some((NodeInfo(toks[0], dists, rows), rest))
  }

  /** `ReadRows` succeeds exactly when `count * width` tokens are there, and leaves what follows them. */
  lemma {:induction false} RowsTake(toks: seq<int>, count: nat, width: nat)
    ensures ReadRows(toks, count, width).Some? <==> |toks| >= count * width
    ensures ReadRows(toks, count, width).Some? ==> ReadRows(toks, count, width).value.1 == toks[count * width..]
    decreases count
  {
    if count > 0 {
      assert count * width == width + (count - 1) * width;
      assert (count - 1) * width >= 0;
      if |toks| >= width {
        RowsTake(toks[width..], count - 1, width);
        if |toks| >= count * width {
          assert toks[width..][(count - 1) * width..] == toks[count * width..];
        }
      }
    }
  }

  /** `ReadMineEntries` succeeds exactly when `count * (1 + numPunters)` tokens are there, and leaves what follows them. */
  lemma {:induction false} EntriesTake(toks: seq<int>, count: nat, numPunters: nat)
    ensures ReadMineEntries(toks, count, numPunters).Some? <==> |toks| >= count * (1 + numPunters)
    ensures ReadMineEntries(toks, count, numPunters).Some? ==>
              ReadMineEntries(toks, count, numPunters).value.2 == toks[count * (1 + numPunters)..]
    decreases count
  {
    if count > 0 {
      var w := 1 + numPunters;
      assert count * w == w + (count - 1) * w;
      assert (count - 1) * w >= 0;
      if |toks| >= w {
        EntriesTake(toks[w..], count - 1, numPunters);
        if |toks| >= count * w {
          assert toks[w..][(count - 1) * w..] == toks[count * w..];
        }
      }
    }
  }

  /** Both node readers take the same tokens: `1 + numMines * (1 + numPunters)` of them. */
  lemma ReadersTakeAlike(toks: seq<int>, numMines: nat, numPunters: nat)
    requires |toks| >= 1
    ensures ReadMineEntries(toks[1..], numMines, numPunters).Some? <==> ReadNode(toks, numMines, numPunters).Some?
    ensures ReadMineEntries(toks[1..], numMines, numPunters).Some? ==>
              ReadMineEntries(toks[1..], numMines, numPunters).value.2 == ReadNode(toks, numMines, numPunters).value.1
  {
    var total := numMines * (1 + numPunters);
    assert total == numMines + numMines * numPunters;
    assert numMines * numPunters >= 0;
    EntriesTake(toks[1..], numMines, numPunters);
    if |toks| >= 1 + numMines {
      RowsTake(toks[1 + numMines..], numMines, numPunters);
      if |toks| >= 1 + total {
        assert toks[1 + numMines..][numMines * numPunters..] == toks[1 + total..];
        assert toks[1..][total..] == toks[1 + total..];
      }
    }
  }

  function ReadNodes(toks: seq<int>, count: nat, numMines: nat, numPunters: nat, asWritten: bool)
    : Option<(seq<NodeInfo>, seq<int>)>
    decreases count
  {
    if count == 0 then Some(([], toks))
    else
      var first := if asWritten then ReadNodeAsWritten(toks, numMines, numPunters) else ReadNode(toks, numMines, numPunters);
      match first
      case None => None
      case Some((node, rest)) =>
        match ReadNodes(rest, count - 1, numMines, numPunters, asWritten)
        case None => None
        case Some((nodes, rest')) => Some(([node] + nodes, rest'))
  }

  /** `count` edges as `source dest color`; an end outside the `n` nodes is an error. */
  function ReadEdges(toks: seq<int>, count: nat, n: nat): Option<(seq<EdgeInfo>, seq<int>)>
  {
    if count == 0 then Some(([], toks))
    else if |toks| < 3 || !(0 <= toks[0] < n) || !(0 <= toks[1] < n) then None
    else match ReadEdges(toks[3..], count - 1, n)
      case None => None
      case Some((edges, rest)) => Some(([EdgeInfo(toks[0], toks[1], toks[2])] + edges, rest))
  }

  /**
   * The map read back from `toks`, the lists rebuilt from the edges;
   * `None` when the tokens run out, a count is negative or an edge names
   * no node. Tokens after the scores are left unread.
   */
  function DecodeWith(toks: seq<int>, asWritten: bool): Option<MapState>
  {
    if |toks| < 3 || toks[0] < 0 || toks[1] < 0 || toks[2] < 0 then None
    else match ReadNodes(toks[3..], toks[2], toks[1], toks[0], asWritten)
      case None => None
      case Some((nodes, rest)) => DecodeTail(toks[0], toks[1], nodes, rest)
  }

  /** What follows the nodes: the edge count, the edges, the mines and one score per punter. */
  function DecodeTail(numPunters: nat, numMines: nat, nodes: seq<NodeInfo>, rest: seq<int>): Option<MapState>
  {
    if |rest| < 1 || rest[0] < 0 then None
    else match ReadEdges(rest[1..], rest[0], |nodes|)
      case None => None
      case Some((edges, rest')) =>
        if |rest'| < numMines + numPunters then None
        else
          assert EdgesIn(edges, |nodes|) by { ReadEdgesIn(rest[1..], rest[0], |nodes|); }
          Some(MapState(numPunters, nodes, edges, IncidenceOf(edges, |nodes|), rest'[..numMines],
                        rest'[numMines..numMines + numPunters]))
  }

  lemma {:induction false} ReadEdgesIn(toks: seq<int>, count: nat, n: nat)
    ensures ReadEdges(toks, count, n).Some? ==> EdgesIn(ReadEdges(toks, count, n).value.0, n)
    decreases count
  {
    if count > 0 && |toks| >= 3 {
      ReadEdgesIn(toks[3..], count - 1, n);
    }
  }

  /** `deserialize` with the per-node order of `serialize`. */
  function Decode(toks: seq<int>): Option<MapState>
  {
    DecodeWith(toks, false)
  }

  /**
   * `deserialize` as written: it accepts exactly the inputs the corrected
   * reading accepts and gives the same edges, mines and scores; only the
   * nodes' distances and flags can differ.
   */
  function DecodeAsWritten(toks: seq<int>): (r: Option<MapState>)
    ensures r.Some? <==> Decode(toks).Some?
    ensures r.Some? ==> r.value.(nodes := Decode(toks).value.nodes) == Decode(toks).value
    ensures r.Some? ==> |r.value.nodes| == |Decode(toks).value.nodes|
    ensures r.Some? ==> forall i :: 0 <= i < |r.value.nodes| ==> r.value.nodes[i].id == Decode(toks).value.nodes[i].id
  {
    if |toks| >= 3 && toks[0] >= 0 && toks[1] >= 0 && toks[2] >= 0 then
      ReadNodesAlike(toks[3..], toks[2], toks[1], toks[0]);
      DecodeWith(toks, true)
    else
      DecodeWith(toks, true)
  }

  /** The node loop as written and as corrected succeed together, read as many nodes with the same ids, and leave the same tokens. */
  lemma {:induction false} ReadNodesAlike(toks: seq<int>, count: nat, numMines: nat, numPunters: nat)
    ensures ReadNodes(toks, count, numMines, numPunters, true).Some? <==> ReadNodes(toks, count, numMines, numPunters, false).Some?
    ensures ReadNodes(toks, count, numMines, numPunters, true).Some? ==>
              var a := ReadNodes(toks, count, numMines, numPunters, true).value;
              var b := ReadNodes(toks, count, numMines, numPunters, false).value;
              a.1 == b.1 && |a.0| == |b.0| == count && forall i :: 0 <= i < count ==> a.0[i].id == b.0[i].id
    decreases count
  {
    if count > 0 {
      var first := ReadNodeAsWritten(toks, numMines, numPunters);
      if first.Some? {
        ReadNodesAlike(first.value.1, count - 1, numMines, numPunters);
      }
    }
  }

  lemma {:induction false} ReadRowsEncoded(rows: seq<seq<bool>>, width: nat, rest: seq<int>)
    requires forall j :: 0 <= j < |rows| ==> |rows[j]| == width
    ensures ReadRows(FlattenFlags(rows) + rest, |rows|, width) == Some((rows, rest))
    decreases |rows|
  {
    if rows != [] {
      var toks := FlattenFlags(rows) + rest;
      assert toks == FlagInts(rows[0]) + (FlattenFlags(rows[1..]) + rest);
      assert toks[..width] == FlagInts(rows[0]) && toks[width..] == FlattenFlags(rows[1..]) + rest;
      ReadRowsEncoded(rows[1..], width, rest);
      assert Bits(FlagInts(rows[0])) == rows[0];
      assert ReadRows(toks[width..], |rows| - 1, width) == Some((rows[1..], rest));
      assert ReadRows(toks, |rows|, width) == Some(([rows[0]] + rows[1..], rest));
      assert [rows[0]] + rows[1..] == rows;
    } else {
      assert FlattenFlags(rows) + rest == rest;
    }
  }

  lemma ReadNodeEncoded(node: NodeInfo, numMines: nat, numPunters: nat, rest: seq<int>)
    requires |node.minedist| == numMines && |node.reachable| == numMines
    requires forall j :: 0 <= j < numMines ==> |node.reachable[j]| == numPunters
    ensures ReadNode(EncodeNode(node) + rest, numMines, numPunters) == Some((node, rest))
  {
    var toks := EncodeNode(node) + rest;
    assert toks[1 + numMines..] == FlattenFlags(node.reachable) + rest;
    assert toks[1..1 + numMines] == node.minedist;
    ReadRowsEncoded(node.reachable, numPunters, rest);
  }

  lemma {:induction false} ReadNodesEncoded(nodes: seq<NodeInfo>, numMines: nat, numPunters: nat, rest: seq<int>)
    requires NodesShaped(nodes, numMines, numPunters)
    ensures ReadNodes(EncodeNodes(nodes) + rest, |nodes|, numMines, numPunters, false) == Some((nodes, rest))
    decreases |nodes|
  {
    if nodes != [] {
      assert EncodeNodes(nodes) + rest == EncodeNode(nodes[0]) + (EncodeNodes(nodes[1..]) + rest);
      ReadNodeEncoded(nodes[0], numMines, numPunters, EncodeNodes(nodes[1..]) + rest);
      ReadNodesEncoded(nodes[1..], numMines, numPunters, rest);
      assert [nodes[0]] + nodes[1..] == nodes;
    } else {
      assert EncodeNodes(nodes) + rest == rest;
    }
  }

  lemma {:induction false} ReadEdgesEncoded(edges: seq<EdgeInfo>, n: nat, rest: seq<int>)
    requires EdgesIn(edges, n)
    ensures ReadEdges(EncodeEdges(edges) + rest, |edges|, n) == Some((edges, rest))
    decreases |edges|
  {
    if edges != [] {
      var toks := EncodeEdges(edges) + rest;
      assert toks == [edges[0].source, edges[0].dest, edges[0].color] + (EncodeEdges(edges[1..]) + rest);
      assert toks[3..] == EncodeEdges(edges[1..]) + rest;
      ReadEdgesEncoded(edges[1..], n, rest);
      assert [EdgeInfo(edges[0].source, edges[0].dest, edges[0].color)] + edges[1..] == edges;
    } else {
      assert EncodeEdges(edges) + rest == rest;
    }
  }

  lemma DecodeTailEncoded(st: MapState)
    requires Fits(st) && |st.scores| == st.numPunters
    ensures DecodeTail(st.numPunters, |st.mines|, st.nodes, [|st.edges|] + EncodeEdges(st.edges) + st.mines + st.scores)
         == Some(st)
  {
    var after := st.mines + st.scores;
    var tail := [|st.edges|] + EncodeEdges(st.edges) + after;
    assert tail == [|st.edges|] + EncodeEdges(st.edges) + st.mines + st.scores;
    assert tail[1..] == EncodeEdges(st.edges) + after;
    ReadEdgesEncoded(st.edges, |st.nodes|, after);
    assert after[..|st.mines|] == st.mines && after[|st.mines|..|st.mines| + st.numPunters] == st.scores;
  }

  /** Reading back what `serialize` wrote gives the same map, one score per punter. */
  lemma DecodeEncode(st: MapState)
    requires Fits(st) && |st.scores| == st.numPunters
    ensures Decode(Encode(st)) == Some(st)
  {
    var tail := [|st.edges|] + EncodeEdges(st.edges) + st.mines + st.scores;
    EncodeGroups(st, tail);
    ReadNodesEncoded(st.nodes, |st.mines|, st.numPunters, tail);
    DecodeThrough(Encode(st), st.numPunters, |st.mines|, st.nodes, tail);
    DecodeTailEncoded(st);
  }

  /** `deserialize` reads the counts, the nodes, and hands what follows to the tail. */
  lemma DecodeThrough(toks: seq<int>, numPunters: nat, numMines: nat, nodes: seq<NodeInfo>, tail: seq<int>)
    requires |toks| >= 3 && toks[..3] == [numPunters, numMines, |nodes|]
    requires ReadNodes(toks[3..], |nodes|, numMines, numPunters, false) == Some((nodes, tail))
    ensures Decode(toks) == DecodeTail(numPunters, numMines, nodes, tail)
  {
    assert toks[0] == numPunters && toks[1] == numMines && toks[2] == |nodes|;
  }

  /** What `serialize` writes: the three counts, then the nodes, then the rest. */
  lemma EncodeGroups(st: MapState, tail: seq<int>)
    requires tail == [|st.edges|] + EncodeEdges(st.edges) + st.mines + st.scores
    ensures |Encode(st)| >= 3 && Encode(st)[..3] == [st.numPunters, |st.mines|, |st.nodes|]
    ensures Encode(st)[3..] == EncodeNodes(st.nodes) + tail
  {
    assert Encode(st) == [st.numPunters, |st.mines|, |st.nodes|] + (EncodeNodes(st.nodes) + tail);
  }

  /** With at most one mine, the two orders coincide: a node reads the same either way. */
  lemma ReadNodeOneMine(toks: seq<int>, numMines: nat, numPunters: nat)
    requires numMines <= 1
    ensures ReadNodeAsWritten(toks, numMines, numPunters) == ReadNode(toks, numMines, numPunters)
  {
    if numMines == 0 && |toks| >= 1 {
      assert toks[1..1] == [];
    } else if numMines == 1 && |toks| >= 2 + numPunters {
      var t := toks[1..];
      assert ReadMineEntries(t[1 + numPunters..], 0, numPunters) == Some(([], [], t[1 + numPunters..]));
      assert [t[0]] + [] == [t[0]] && [Bits(t[1..1 + numPunters])] + [] == [Bits(t[1..1 + numPunters])];
      assert ReadMineEntries(t, 1, numPunters) == Some(([t[0]], [Bits(t[1..1 + numPunters])], t[1 + numPunters..]));
      var u := toks[2..];
      assert ReadRows(u[numPunters..], 0, numPunters) == Some(([], u[numPunters..]));
      assert [Bits(u[..numPunters])] + [] == [Bits(u[..numPunters])];
      assert ReadRows(u, 1, numPunters) == Some(([Bits(u[..numPunters])], u[numPunters..]));
      assert t[1 + numPunters..] == u[numPunters..] && t[1..1 + numPunters] == u[..numPunters];
      assert [t[0]] == toks[1..2];
    }
  }

  lemma {:induction false} ReadNodesOneMine(toks: seq<int>, count: nat, numMines: nat, numPunters: nat)
    requires numMines <= 1
    ensures ReadNodes(toks, count, numMines, numPunters, true) == ReadNodes(toks, count, numMines, numPunters, false)
    decreases count
  {
    if count > 0 {
      ReadNodeOneMine(toks, numMines, numPunters);
      match ReadNode(toks, numMines, numPunters)
      case None =>
      case Some((node, rest)) => ReadNodesOneMine(rest, count - 1, numMines, numPunters);
    }
  }

  /** On a map with at most one mine, `deserialize` as written reads what `serialize` wrote. */
  lemma DecodeAsWrittenOneMine(toks: seq<int>)
    requires |toks| >= 2 && toks[1] <= 1
    ensures DecodeAsWritten(toks) == Decode(toks)
  {
    if |toks| >= 3 && toks[0] >= 0 && toks[1] >= 0 && toks[2] >= 0 {
      ReadNodesOneMine(toks[3..], toks[2], toks[1], toks[0]);
    }
  }

  /**
   * A one-punter, two-mine map of one node whose distances are 0 and 3
   * and which is connected to the first mine only: read back as written,
   * its second distance comes out as 1.
   */
  /** A reading prefixed with what was read before it. */
  function Prepend<T>(prefix: seq<T>, r: Option<(seq<T>, seq<int>)>): Option<(seq<T>, seq<int>)>
  {
    match r
    case None => None
    case Some((items, rest)) => Some((prefix + items, rest))
  }

  /** The sites whose ids the nodes carry, in order, for `id2ix`. */
  function NodeSites(nodes: seq<NodeInfo>): (r: seq<Site>)
    ensures |r| == |nodes| && forall i :: 0 <= i < |nodes| ==> r[i] == Site(nodes[i].id)
  {
    seq(|nodes|, i requires 0 <= i < |nodes| => Site(nodes[i].id))
  }

  lemma {:induction false} EncodeNodesSnoc(nodes: seq<NodeInfo>, node: NodeInfo)
    ensures EncodeNodes(nodes + [node]) == EncodeNodes(nodes) + EncodeNode(node)
    decreases |nodes|
  {
    if nodes == [] {
      assert [] + [node] == [node];
      assert EncodeNodes([node]) == EncodeNode(node) + EncodeNodes([]);
    } else {
      assert (nodes + [node])[1..] == nodes[1..] + [node];
      EncodeNodesSnoc(nodes[1..], node);
    }
  }

  lemma {:induction false} EncodeEdgesSnoc(edges: seq<EdgeInfo>, e: EdgeInfo)
    ensures EncodeEdges(edges + [e]) == EncodeEdges(edges) + [e.source, e.dest, e.color]
    decreases |edges|
  {
    if edges == [] {
      assert [] + [e] == [e];
      assert EncodeEdges([e]) == [e.source, e.dest, e.color] + EncodeEdges([]);
    } else {
      assert (edges + [e])[1..] == edges[1..] + [e];
      EncodeEdgesSnoc(edges[1..], e);
    }
  }

  /**
   * The node loop of `deserialize`: `count` nodes read one after another,
   * each id entered in `id2ix` at its position.
   */
  method ReadNodesLoop(toks: seq<int>, count: nat, numMines: nat, numPunters: nat, id2ix0: map<int, int>)
    returns (nodes: seq<NodeInfo>, id2ix: map<int, int>, rest: seq<int>, ok: bool)
    ensures ok <==> ReadNodes(toks, count, numMines, numPunters, false).Some?
    ensures ok ==> ReadNodes(toks, count, numMines, numPunters, false) == Some((nodes, rest))
    ensures ok ==> id2ix == IndexIds(id2ix0, NodeSites(nodes))
  {
    nodes, id2ix, rest := [], id2ix0, toks;
    PrependEmpty(ReadNodes(toks, count, numMines, numPunters, false));
    var i := 0;
    while i < count
      invariant 0 <= i <= count && |nodes| == i
      invariant ReadNodes(toks, count, numMines, numPunters, false) ==
        Prepend(nodes, ReadNodes(rest, count - i, numMines, numPunters, false))
      invariant id2ix == IndexIds(id2ix0, NodeSites(nodes))
    {
      var r := ReadNode(rest, numMines, numPunters);
      if r.None? {
        return [], id2ix0, toks, false;
      }
      var node := r.value.0;
      ghost var later := ReadNodes(r.value.1, count - i - 1, numMines, numPunters, false);
      PrependSnoc(nodes, node, later);
      assert NodeSites(nodes + [node]) == NodeSites(nodes) + [Site(node.id)];
      assert (NodeSites(nodes) + [Site(node.id)])[..i] == NodeSites(nodes);
      id2ix := id2ix[node.id := i];
      nodes, rest := nodes + [node], r.value.1;
      i := i + 1;
    }
    assert ReadNodes(rest, 0, numMines, numPunters, false) == Some(([], rest));
    assert nodes + [] == nodes;
    ok := true;
  }

  lemma PrependEmpty<T>(r: Option<(seq<T>, seq<int>)>)
    ensures Prepend([], r) == r
  {
    if r.Some? {
      assert [] + r.value.0 == r.value.0;
    }
  }

  lemma PrependSnoc<T>(prefix: seq<T>, x: T, r: Option<(seq<T>, seq<int>)>)
    ensures Prepend(prefix, match r case None => None case Some((items, rest)) => Some(([x] + items, rest)))
         == Prepend(prefix + [x], r)
  {
    if r.Some? {
      assert prefix + ([x] + r.value.0) == prefix + [x] + r.value.0;
    }
  }

  /**
   * The rest of `deserialize`: the edge loop, which pushes every edge onto
   * both ends' lists, then the mines and the scores.
   */
  method DecodeTailLoop(numPunters: nat, numMines: nat, nodes: seq<NodeInfo>, toks: seq<int>) returns (r: Option<MapState>)
    ensures r == DecodeTail(numPunters, numMines, nodes, toks)
  {
    if |toks| < 1 || toks[0] < 0 {
      return None;
    }
    var count, n := toks[0], |nodes|;
    var edges: seq<EdgeInfo> := [];
    var themap: seq<seq<(int, int)>> := seq(n, _ => []);
    var rest := toks[1..];
    PrependEmpty(ReadEdges(rest, count, n));
    var i := 0;
    while i < count
      invariant 0 <= i <= count && |edges| == i && EdgesIn(edges, n) && themap == IncidenceOf(edges, n)
      invariant ReadEdges(toks[1..], count, n) == Prepend(edges, ReadEdges(rest, count - i, n))
    {
      if |rest| < 3 || !(0 <= rest[0] < n) || !(0 <= rest[1] < n) {
        return None;
      }
      var e := EdgeInfo(rest[0], rest[1], rest[2]);
      PrependSnoc(edges, e, ReadEdges(rest[3..], count - i - 1, n));
      themap := themap[e.source := themap[e.source] + [(e.dest, i)]];
      themap := themap[e.dest := themap[e.dest] + [(e.source, i)]];
      assert (edges + [e])[..i] == edges;
      edges, rest := edges + [e], rest[3..];
      i := i + 1;
    }
    assert ReadEdges(rest, 0, n) == Some(([], rest));
    assert edges + [] == edges;
    if |rest| < numMines + numPunters {
      return None;
    }
    r := Some(MapState(numPunters, nodes, edges, themap, rest[..numMines], rest[numMines..numMines + numPunters]));
  }

  lemma TwoMinesMisread()
    ensures var st := MapState(1, [NodeInfo(5, [0, 3], [[true], [false]])], [], [[]], [0, 0], [0]);
      Fits(st) && Decode(Encode(st)) == Some(st) &&
      DecodeAsWritten(Encode(st)).Some? && DecodeAsWritten(Encode(st)).value.nodes[0].minedist == [0, 1]
  {
    var st := MapState(1, [NodeInfo(5, [0, 3], [[true], [false]])], [], [[]], [0, 0], [0]);
    assert IncidenceOf([], 1) == [[]];
    DecodeEncode(st);
    EncodedMisread(Encode(st));
  }

  lemma EncodedMisread(toks: seq<int>)
    requires toks == Encode(MapState(1, [NodeInfo(5, [0, 3], [[true], [false]])], [], [[]], [0, 0], [0]))
    ensures DecodeAsWritten(toks).Some? && DecodeAsWritten(toks).value.nodes[0].minedist == [0, 1]
  {
    ExampleEncoded(toks);
    var rest := [0, 0, 0, 0];
    ExampleNodeMisread(toks[3..]);
    assert ReadNodes(rest, 0, 2, 1, true) == Some(([], rest));
    assert [NodeInfo(5, [0, 1], [[true], [false]])] + [] == [NodeInfo(5, [0, 1], [[true], [false]])];
    assert ReadNodes(toks[3..], 1, 2, 1, true) == Some(([NodeInfo(5, [0, 1], [[true], [false]])], rest));
    assert ReadEdges(rest[1..], 0, 1) == Some(([], rest[1..]));
  }

  lemma ExampleEncoded(toks: seq<int>)
    requires toks == Encode(MapState(1, [NodeInfo(5, [0, 3], [[true], [false]])], [], [[]], [0, 0], [0]))
    ensures toks == [1, 2, 1, 5, 0, 3, 1, 0, 0, 0, 0, 0]
  {
    assert FlattenFlags([[false]]) == [0];
    assert FlattenFlags([[true], [false]]) == [1, 0];
    assert EncodeNodes([NodeInfo(5, [0, 3], [[true], [false]])]) == [5, 0, 3, 1, 0];
  }

  lemma ExampleNodeMisread(tn: seq<int>)
    requires tn == [5, 0, 3, 1, 0, 0, 0, 0, 0]
    ensures ReadNodeAsWritten(tn, 2, 1) == Some((NodeInfo(5, [0, 1], [[true], [false]]), [0, 0, 0, 0]))
  {
    var rest := [0, 0, 0, 0];
    var t1 := [1, 0, 0, 0, 0, 0];
    assert t1[2..] == rest && t1[1..2] == [0] && Bits([0]) == [false];
    assert ReadMineEntries(rest, 0, 1) == Some(([], [], rest));
    assert [1] + [] == [1] && [[false]] + [] == [[false]];
    assert ReadMineEntries(t1, 1, 1) == Some(([1], [[false]], rest));
    var t0 := [0, 3] + t1;
    assert t0[2..] == t1 && t0[1..2] == [3] && Bits([3]) == [true];
    assert [0] + [1] == [0, 1] && [[true]] + [[false]] == [[true], [false]];
    assert ReadMineEntries(t0, 2, 1) == Some(([0, 1], [[true], [false]], rest));
    assert tn[1..] == t0;
  }

  class GameMapForAI {
    var numPunters: int
    var nodeinfo: seq<NodeInfo>
    var edgeinfo: seq<EdgeInfo>
    var themap: seq<seq<(int, int)>>
    var mines: seq<int>
    var scores: seq<int>
    var id2ix: map<int, int>

    ghost predicate Shaped()
      reads this
    {
      Shape(numPunters, nodeinfo, edgeinfo, themap, mines)
    }

    /** `Shaped`, and one score per punter. */
    ghost predicate Valid()
      reads this
    {
      Shaped() && |scores| == numPunters
    }

    ghost predicate InitializedFrom(n: int, gameMap: GameMap, id2ix0: map<int, int>)
      reads this
    {
      numPunters == n && InitState(n, gameMap, id2ix0, nodeinfo, edgeinfo, themap, mines, id2ix)
    }

    /** The default constructor; the punter count, left indeterminate there, is 0 here. */
    constructor ()
      ensures Valid() && numPunters == 0 && nodeinfo == [] && edgeinfo == [] && themap == []
      ensures mines == [] && scores == [] && id2ix == map[]
    {
      numPunters, nodeinfo, edgeinfo, themap, mines, scores, id2ix := 0, [], [], [], [], [], map[];
    }

    /** The constructor from a punter count and a map, which calls `init`. */
    constructor FromMap(n: int, gameMap: GameMap)
      requires n >= 0 && IdsKnown(gameMap)
      ensures InitializedFrom(n, gameMap, map[]) && Valid() && scores == seq(n, _ => 0)
    {
      numPunters, nodeinfo, edgeinfo, themap, mines, scores, id2ix := 0, [], [], [], [], [], map[];
      new;
      Init(n, gameMap);
    }

    /**
     * `init` as written: the sites, rivers and mines are indexed, the flags
     * reset and the distances searched, but `scores_` keeps whatever it held.
     */
    method InitCore(n: int, gameMap: GameMap)
      requires n >= 0 && IdsKnown(gameMap)
      modifies this
      ensures InitializedFrom(n, gameMap, old(id2ix)) && scores == old(scores)
    {
      numPunters := n;
      nodeinfo, edgeinfo, themap, mines, id2ix := BuildInit(n, gameMap, id2ix);
    }

    /** `init` with `scores_` sized to one 0 per punter, which `claim` indexes. */
    method Init(n: int, gameMap: GameMap)
      requires n >= 0 && IdsKnown(gameMap)
      modifies this
      ensures InitializedFrom(n, gameMap, old(id2ix)) && Valid() && scores == seq(n, _ => 0)
    {
      InitCore(n, gameMap);
      scores := seq(n, _ => 0);
    }

    /** The fields `claim_impl` reads and writes, as one value. */
    function State(): MapState
      reads this
    {
      MapState(numPunters, nodeinfo, edgeinfo, themap, mines, scores)
    }

    /**
     * `claim_impl`: returns what taking `source`-`dest` is worth to
     * `punter`; when `claim` holds it also flags the nodes gained, colours
     * the river and adds the gain to the punter's score. The search marks
     * its start, so every node is counted once, and the score grows by the
     * gain once.
     */
    method ClaimImpl(source: int, dest: int, punter: int, claim: bool) returns (ret: int)
      requires ClaimArgs(State(), source, dest, punter) && (claim ==> Valid())
      modifies this
      ensures ret == ClaimGain(old(State()), source, dest, punter, old(|mines|))
      ensures id2ix == old(id2ix)
      ensures !claim ==> unchanged(this)
      ensures claim ==> Claimed(old(State()), State(), source, dest, punter, ret)
    {
      var st;
      ret, st := ClaimCore(State(), source, dest, punter, claim);
      nodeinfo, edgeinfo, scores := st.nodes, st.edges, st.scores;
      if claim {
        assert st == State();
      }
    }

    /** `claim`: `claim_impl` that records the claim. */
    method Claim(source: int, dest: int, punter: int) returns (ret: int)
      requires Valid() && 0 <= source < |nodeinfo| && 0 <= dest < |nodeinfo| && 0 <= punter < numPunters
      modifies this
      ensures ret == ClaimGain(old(State()), source, dest, punter, old(|mines|))
      ensures Valid() && id2ix == old(id2ix)
      ensures Claimed(old(State()), State(), source, dest, punter, ret)
    {
      ret := ClaimImpl(source, dest, punter, true);
      ClaimedFits(old(State()), State(), source, dest, punter, ret);
    }

    /** `serialize`: the counts, each node, the edges, the mines and the scores, as tokens. */
    method Serialize() returns (toks: seq<int>)
      ensures toks == Encode(State())
    {
      toks := [numPunters, |mines|, |nodeinfo|];
      var i := 0;
      while i < |nodeinfo|
        invariant 0 <= i <= |nodeinfo|
        invariant toks == [numPunters, |mines|, |nodeinfo|] + EncodeNodes(nodeinfo[..i])
      {
        EncodeNodesSnoc(nodeinfo[..i], nodeinfo[i]);
        assert nodeinfo[..i + 1] == nodeinfo[..i] + [nodeinfo[i]];
        toks := toks + EncodeNode(nodeinfo[i]);
        i := i + 1;
      }
      assert nodeinfo[..i] == nodeinfo;
      ghost var head := toks + [|edgeinfo|];
      toks := toks + [|edgeinfo|];
      i := 0;
      while i < |edgeinfo|
        invariant 0 <= i <= |edgeinfo|
        invariant toks == head + EncodeEdges(edgeinfo[..i])
      {
        var e := edgeinfo[i];
        EncodeEdgesSnoc(edgeinfo[..i], e);
        assert edgeinfo[..i + 1] == edgeinfo[..i] + [e];
        toks := toks + [e.source, e.dest, e.color];
        i := i + 1;
      }
      assert edgeinfo[..i] == edgeinfo;
      toks := toks + mines + scores;
    }

    /**
     * `deserialize` into a map without lists, reading each node in the
     * order `serialize` writes it. The fields change only when the whole
     * map could be read.
     */
    method Deserialize(toks: seq<int>) returns (ok: bool)
      requires themap == []
      modifies this
      ensures ok == Decode(toks).Some?
      ensures ok ==> State() == Decode(toks).value && id2ix == IndexIds(old(id2ix), NodeSites(nodeinfo))
      ensures !ok ==> unchanged(this)
    {
      if |toks| < 3 || toks[0] < 0 || toks[1] < 0 || toks[2] < 0 {
        return false;
      }
      var p, m, n := toks[0], toks[1], toks[2];
      var nodes, ids, rest, read := ReadNodesLoop(toks[3..], n, m, p, id2ix);
      if !read {
        return false;
      }
      var r := DecodeTailLoop(p, m, nodes, rest);
      if r.None? {
        return false;
      }
      numPunters, nodeinfo, edgeinfo, themap, mines, scores := p, nodes, r.value.edges, r.value.themap, r.value.mines, r.value.scores;
      id2ix := ids;
      return true;
    }

    /** `delta_score`: `claim_impl` as a query, which changes nothing. */
    method DeltaScore(source: int, dest: int, punter: int) returns (ret: int)
      requires Shaped() && 0 <= source < |nodeinfo| && 0 <= dest < |nodeinfo| && 0 <= punter < numPunters
      modifies this
      ensures ret == ClaimGain(old(State()), source, dest, punter, old(|mines|))
      ensures unchanged(this)
    {
      ret := ClaimImpl(source, dest, punter, false);
    }
  }

  /** `init` as written leaves a two-punter map with no score slots, so `claim` would index past them. */
  method InitLeavesScoresEmpty() returns (g: GameMapForAI)
    ensures fresh(g) && g.Shaped() && g.numPunters == 2 && |g.scores| == 0 && !g.Valid()
  {
    g := new GameMapForAI();
    var sites := [Site(7), Site(9)];
    assert IdsKnown(GameMap(sites, [River(7, 9)], [7])) by {
      assert sites[0].id == 7 && sites[1].id == 9;
    }
    g.InitCore(2, GameMap(sites, [River(7, 9)], [7]));
  }
}
