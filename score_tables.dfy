/**
 * The tables both engine-side scorers build before any move: the sorted
 * site id list that maps ids to dense indices, the sorted mine index list,
 * the sorted two-way edge list, and one breadth-first distance table per
 * mine in which -1 marks an unreachable site.
 */
module ScoreTables {
  import opened Wrappers
  import opened Graph
  import opened Sorting
  import opened GameData

  /** The ids of the sites, in map order. */
  function SiteIds(sites: seq<Site>): (r: seq<int>)
    ensures |r| == |sites| && forall i :: 0 <= i < |sites| ==> r[i] == sites[i].id
  {
    seq(|sites|, i requires 0 <= i < |sites| => sites[i].id)
  }

  /** `CreateSiteIdList`: the site ids, sorted ascending. */
  method CreateSiteIdList(sites: seq<Site>) returns (ids: seq<int>)
    ensures Sorted(ids) && multiset(ids) == multiset(SiteIds(sites))
  {
    var raw: seq<int> := [];
    var i := 0;
    while i < |sites|
      invariant 0 <= i <= |sites| && raw == SiteIds(sites[..i])
    {
      raw := raw + [sites[i].id];
      i := i + 1;
    }
    assert sites[..i] == sites;
    ids := SortInts(raw);
  }

  /**
   * `GetIndex`: the position `std::lower_bound` finds for a value the
   * list holds; the value must be present.
   */
  function GetIndex(sorted: seq<int>, value: int): (r: nat)
    requires Sorted(sorted) && value in sorted
    ensures r < |sorted| && sorted[r] == value
    ensures forall i :: 0 <= i < r ==> sorted[i] < value
  {
    LowerBoundFinds(sorted, value);
    LowerBound(sorted, value)
  }

  /** In a list without repeats, `GetIndex` inverts indexing. */
  lemma GetIndexInverts(sorted: seq<int>, i: int)
    requires Sorted(sorted) && 0 <= i < |sorted|
    requires forall a, b :: 0 <= a < b < |sorted| ==> sorted[a] != sorted[b]
    ensures GetIndex(sorted, sorted[i]) == i
  {
  }

  /** Every value the list holds. */
  predicate AllIn(values: seq<int>, sorted: seq<int>)
  {
    forall k :: 0 <= k < |values| ==> values[k] in sorted
  }

  /** The index of every value, in order. */
  function IndicesOf(values: seq<int>, sorted: seq<int>): (r: seq<int>)
    requires Sorted(sorted) && AllIn(values, sorted)
    ensures |r| == |values|
    ensures forall k :: 0 <= k < |values| ==> 0 <= r[k] < |sorted| && sorted[r[k]] == values[k]
  {
    seq(|values|, k requires 0 <= k < |values| => GetIndex(sorted, values[k]))
  }

  /** `CreateMineIndexList`: the mines' site indices, sorted ascending. */
  method CreateMineIndexList(mines: seq<int>, siteIds: seq<int>) returns (r: seq<int>)
    requires Sorted(siteIds) && AllIn(mines, siteIds)
    ensures Sorted(r) && multiset(r) == multiset(IndicesOf(mines, siteIds))
  {
    var raw: seq<int> := [];
    var i := 0;
    while i < |mines|
      invariant 0 <= i <= |mines| && raw == IndicesOf(mines[..i], siteIds)
    {
      raw := raw + [GetIndex(siteIds, mines[i])];
      i := i + 1;
    }
    assert mines[..i] == mines;
    r := SortInts(raw);
  }

  /** A sorted list drawn from the indices of a list keeps every entry in range. */
  lemma MineIndicesInRange(r: seq<int>, mines: seq<int>, siteIds: seq<int>)
    requires Sorted(siteIds) && AllIn(mines, siteIds)
    requires multiset(r) == multiset(IndicesOf(mines, siteIds))
    ensures |r| == |mines|
    ensures forall i :: 0 <= i < |r| ==> 0 <= r[i] < |siteIds|
  {
    assert |r| == |multiset(r)| == |IndicesOf(mines, siteIds)|;
    forall i | 0 <= i < |r| ensures 0 <= r[i] < |siteIds| {
      assert r[i] in multiset(r);
      assert r[i] in IndicesOf(mines, siteIds);
    }
  }

  /** Both ends of every river name a site. */
  predicate RiversIn(rivers: seq<River>, sorted: seq<int>)
  {
    forall k :: 0 <= k < |rivers| ==> rivers[k].source in sorted && rivers[k].target in sorted
  }

  /** A river's ends as site indices. */
  function IndexPair(r: River, siteIds: seq<int>): (p: (int, int))
    requires Sorted(siteIds) && r.source in siteIds && r.target in siteIds
    ensures 0 <= p.0 < |siteIds| && 0 <= p.1 < |siteIds|
  {
    (GetIndex(siteIds, r.source), GetIndex(siteIds, r.target))
  }

  /** Every river, as index pairs, once in each direction. */
  function BothWays(rivers: seq<River>, siteIds: seq<int>): (r: seq<(int, int)>)
    requires Sorted(siteIds) && RiversIn(rivers, siteIds)
    ensures |r| == 2 * |rivers|
  {
    if rivers == [] then []
    else
      var p := IndexPair(rivers[|rivers| - 1], siteIds);
      BothWays(rivers[..|rivers| - 1], siteIds) + [p, (p.1, p.0)]
  }

  /** Every river's ends as site indices, in river order. */
  function IndexPairs(rivers: seq<River>, siteIds: seq<int>): (r: seq<(int, int)>)
    requires Sorted(siteIds) && RiversIn(rivers, siteIds)
    ensures |r| == |rivers| && forall k :: 0 <= k < |rivers| ==> r[k] == IndexPair(rivers[k], siteIds)
  {
    if rivers == [] then []
    else
      var init := rivers[..|rivers| - 1];
      assert RiversIn(init, siteIds);
      IndexPairs(init, siteIds) + [IndexPair(rivers[|rivers| - 1], siteIds)]
  }

  /** The two-way list holds exactly the pairs some river joins, in either direction. */
  lemma {:induction false} BothWaysMembers(rivers: seq<River>, siteIds: seq<int>, a: int, b: int)
    requires Sorted(siteIds) && RiversIn(rivers, siteIds)
    ensures (a, b) in BothWays(rivers, siteIds) <==>
      (a, b) in IndexPairs(rivers, siteIds) || (b, a) in IndexPairs(rivers, siteIds)
    decreases |rivers|
  {
    if rivers != [] {
      var last := |rivers| - 1;
      var init := rivers[..last];
      assert RiversIn(init, siteIds);
      var p := IndexPair(rivers[last], siteIds);
      assert BothWays(rivers, siteIds) == BothWays(init, siteIds) + [p, (p.1, p.0)];
      assert IndexPairs(rivers, siteIds) == IndexPairs(init, siteIds) + [p];
      BothWaysMembers(init, siteIds, a, b);
    }
  }

  /** Each direction of a joined pair is in the two-way list, and both ends are sites. */
  lemma {:induction false} BothWaysSymmetric(rivers: seq<River>, siteIds: seq<int>, a: int, b: int)
    requires Sorted(siteIds) && RiversIn(rivers, siteIds) && (a, b) in BothWays(rivers, siteIds)
    ensures (b, a) in BothWays(rivers, siteIds)
    ensures 0 <= a < |siteIds| && 0 <= b < |siteIds|
    decreases |rivers|
  {
    var init := rivers[..|rivers| - 1];
    assert RiversIn(init, siteIds);
    if (a, b) in BothWays(init, siteIds) {
      BothWaysSymmetric(init, siteIds, a, b);
    }
  }

  /** `CreateBidirectionalGraph`: both directions of every river, sorted. */
  method CreateBidirectionalGraph(rivers: seq<River>, siteIds: seq<int>) returns (edges: seq<(int, int)>)
    requires Sorted(siteIds) && RiversIn(rivers, siteIds)
    ensures SortedPairs(edges) && multiset(edges) == multiset(BothWays(rivers, siteIds))
  {
    var raw: seq<(int, int)> := [];
    var i := 0;
    while i < |rivers|
      invariant 0 <= i <= |rivers| && RiversIn(rivers[..i], siteIds) && raw == BothWays(rivers[..i], siteIds)
    {
      var source := GetIndex(siteIds, rivers[i].source);
      var target := GetIndex(siteIds, rivers[i].target);
      assert rivers[..i + 1][..i] == rivers[..i];
      raw := raw + [(source, target), (target, source)];
      i := i + 1;
    }
    assert rivers[..i] == rivers;
    edges := SortPairs(raw);
  }

  /** The second component of every pair. */
  function Seconds(ps: seq<(int, int)>): (r: seq<int>)
    ensures |r| == |ps| && forall i :: 0 <= i < |ps| ==> r[i] == ps[i].1
  {
    seq(|ps|, i requires 0 <= i < |ps| => ps[i].1)
  }

  /** The adjacency a pair list describes over sites `0 .. n-1`: `v`'s neighbours follow `v`. */
  function Neighbours(pairs: seq<(int, int)>, n: nat): (r: seq<seq<int>>)
    ensures |r| == n
  {
    seq(n, v => Seconds(FirstIs(pairs, v)))
  }

  lemma NeighboursMembers(pairs: seq<(int, int)>, n: nat, v: int, w: int)
    requires 0 <= v < n
    ensures w in Neighbours(pairs, n)[v] <==> (v, w) in pairs
  {
    FirstIsMembers(pairs, v);
    var f := FirstIs(pairs, v);
    if w in Neighbours(pairs, n)[v] {
      var i :| 0 <= i < |f| && f[i].1 == w;
      assert f[i] in f;
    }
    if (v, w) in pairs {
      assert (v, w) in f;
      var i :| 0 <= i < |f| && f[i] == (v, w);
      assert Seconds(f)[i] == w;
    }
  }

  /** Pair lists with the same elements describe the same neighbours. */
  lemma SameElementsSameNeighbours(p: seq<(int, int)>, q: seq<(int, int)>, n: nat)
    requires multiset(p) == multiset(q)
    ensures forall v, w :: 0 <= v < n ==> (w in Neighbours(p, n)[v] <==> w in Neighbours(q, n)[v])
  {
    forall v, w | 0 <= v < n ensures w in Neighbours(p, n)[v] <==> w in Neighbours(q, n)[v] {
      NeighboursMembers(p, n, v, w);
      NeighboursMembers(q, n, v, w);
      assert (v, w) in p <==> (v, w) in multiset(p);
      assert (v, w) in q <==> (v, w) in multiset(q);
    }
  }

  /** The river graph over site indices: `w` neighbours `v` when a river joins them. */
  function RiverGraph(rivers: seq<River>, siteIds: seq<int>): (r: seq<seq<int>>)
    requires Sorted(siteIds) && RiversIn(rivers, siteIds)
    ensures |r| == |siteIds|
  {
    Neighbours(BothWays(rivers, siteIds), |siteIds|)
  }

  /** The river graph is symmetric and names only sites. */
  lemma RiverGraphShape(rivers: seq<River>, siteIds: seq<int>)
    requires Sorted(siteIds) && RiversIn(rivers, siteIds)
    ensures WellFormed(RiverGraph(rivers, siteIds))
    ensures forall v, w :: 0 <= v < |siteIds| && 0 <= w < |siteIds| ==>
      (w in RiverGraph(rivers, siteIds)[v] <==> v in RiverGraph(rivers, siteIds)[w])
  {
    var n := |siteIds|;
    var pairs := BothWays(rivers, siteIds);
    forall v, w | 0 <= v < n && w in RiverGraph(rivers, siteIds)[v] ensures 0 <= w < n {
      NeighboursMembers(pairs, n, v, w);
      BothWaysSymmetric(rivers, siteIds, v, w);
    }
    forall v, w | 0 <= v < n && 0 <= w < n
      ensures w in RiverGraph(rivers, siteIds)[v] <==> v in RiverGraph(rivers, siteIds)[w]
    {
      NeighboursMembers(pairs, n, v, w);
      NeighboursMembers(pairs, n, w, v);
      if (v, w) in pairs {
        BothWaysSymmetric(rivers, siteIds, v, w);
      }
      if (w, v) in pairs {
        BothWaysSymmetric(rivers, siteIds, w, v);
      }
    }
  }

  /**
   * The loop over `std::equal_range`'s block for the dequeued site `v`:
   * a neighbour with a distance (`>= 0`) is skipped, any other gets
   * `d + 1` and is enqueued.
   */
  method ExpandEdges(edges: seq<(int, int)>, ghost adj: seq<seq<int>>, s: int, v: int, lo: nat, hi: nat,
                     dist0: seq<int>, queue0: seq<int>,
                     ghost visited0: seq<bool>, ghost parent0: seq<int>, ghost expanded: seq<bool>)
    returns (dist: seq<int>, queue: seq<int>, ghost visited: seq<bool>, ghost parent: seq<int>)
    requires WellFormed(adj) && 0 <= v < |adj| == |dist0|
    requires lo <= hi <= |edges| && adj[v] == Seconds(edges[lo..hi])
    requires Frontier(adj, s, visited0, dist0, parent0, expanded, queue0, dist0[v], -1) && expanded[v]
    requires ExpandedClosed(adj, visited0, dist0, expanded, v)
    ensures Frontier(adj, s, visited, dist, parent, expanded, queue, dist0[v], -1)
    ensures ExpandedClosed(adj, visited, dist, expanded, -1)
  {
    dist, queue, visited, parent := dist0, queue0, visited0, parent0;
    var d := dist[v];
    var k := lo;
    while k < hi
      invariant lo <= k <= hi && |dist| == |adj| && d == dist[v]
      invariant Frontier(adj, s, visited, dist, parent, expanded, queue, d, -1)
      invariant ExpandedClosed(adj, visited, dist, expanded, v)
      invariant NeighboursDone(adj, v, visited, dist, k - lo)
    {
      assert edges[k].1 == adj[v][k - lo];
      dist, queue, visited, parent := ExpandNeighbour(adj, s, v, k - lo, edges[k].1, dist, queue, visited, parent, expanded);
      k := k + 1;
    }
    NeighboursDoneClosed(adj, visited, dist, expanded, v);
  }

  /**
   * One pass of the inner loop: the neighbour `w`, the `m`-th of `v`, is
   * queued at the next level with parent `v` unless it is already visited.
   */
  method ExpandNeighbour(ghost adj: seq<seq<int>>, s: int, v: int, ghost m: int, w: int,
                         dist0: seq<int>, queue0: seq<int>,
                         ghost visited0: seq<bool>, ghost parent0: seq<int>, ghost expanded: seq<bool>)
    returns (dist: seq<int>, queue: seq<int>, ghost visited: seq<bool>, ghost parent: seq<int>)
    requires WellFormed(adj) && 0 <= v < |adj| == |dist0| && 0 <= m < |adj[v]| && adj[v][m] == w
    requires Frontier(adj, s, visited0, dist0, parent0, expanded, queue0, dist0[v], -1) && expanded[v]
    requires ExpandedClosed(adj, visited0, dist0, expanded, v)
    requires NeighboursDone(adj, v, visited0, dist0, m)
    ensures |dist| == |adj| && dist[v] == dist0[v]
    ensures Frontier(adj, s, visited, dist, parent, expanded, queue, dist0[v], -1)
    ensures ExpandedClosed(adj, visited, dist, expanded, v)
    ensures NeighboursDone(adj, v, visited, dist, m + 1)
  {
    assert w in adj[v];
    dist, queue, visited, parent := dist0, queue0, visited0, parent0;
    if dist[w] >= 0 {
      FrontierVisited(adj, s, visited, dist, parent, expanded, queue, -1, v, w);
    } else {
      FrontierEnqueue(adj, s, visited, dist, parent, expanded, queue, -1, v, w);
      dist := dist[w := dist[v] + 1];
      queue := queue + [w];
      visited := visited[w := true];
      parent := parent[w := v];
    }
    NeighboursDoneStep(adj, v, visited0, dist0, visited, dist, m);
  }

  /** One mine's breadth-first search over the sorted two-way edge list. */
  method SearchMine(edges: seq<(int, int)>, n: nat, s: int) returns (dist: seq<int>)
    requires SortedPairs(edges) && WellFormed(Neighbours(edges, n)) && 0 <= s < n
    ensures DistanceTable(Neighbours(edges, n), s, dist, -1)
  {
    ghost var adj := Neighbours(edges, n);
    dist := seq(n, _ => -1);
    dist := dist[s := 0];
    FrontierStart(adj, s, -1);
    var queue := [s];
    ghost var visited := seq(n, _ => false)[s := true];
    ghost var parent := seq(n, _ => s);
    ghost var expanded := seq(n, _ => false);
    ghost var level := 0;
    while |queue| != 0
      invariant |expanded| == n
      invariant Frontier(adj, s, visited, dist, parent, expanded, queue, level, -1)
      invariant ExpandedClosed(adj, visited, dist, expanded, -1)
      decreases n - CountTrue(expanded)
    {
      var v := queue[0];
      var d := dist[v];
      FrontierDequeue(adj, s, visited, dist, parent, expanded, queue, level, -1);
      CountTrueSet(expanded, v);
      expanded := expanded[v := true];
      CountTrueBound(expanded);
      level := d;
      queue := queue[1..];
      var range := EqualRange(edges, v);
      dist, queue, visited, parent := ExpandEdges(edges, adj, s, v, range.0, range.1, dist, queue,
                                                  visited, parent, expanded);
    }
    FrontierDone(adj, s, visited, dist, parent, expanded, level, -1);
  }

  /**
   * `DistanceMap::Initialize`: for each mine of the list, in order, the
   * breadth-first distances over the river graph, -1 where unreachable.
   */
  method InitializeDistanceMap(rivers: seq<River>, siteIds: seq<int>, mineList: seq<int>)
    returns (entries: seq<seq<int>>)
    requires Sorted(siteIds) && RiversIn(rivers, siteIds)
    requires forall i :: 0 <= i < |mineList| ==> 0 <= mineList[i] < |siteIds|
    ensures |entries| == |mineList|
    ensures forall i :: 0 <= i < |mineList| ==> |entries[i]| == |siteIds|
    ensures forall i :: 0 <= i < |mineList| ==> DistanceTable(RiverGraph(rivers, siteIds), mineList[i], entries[i], -1)
  {
    var n := |siteIds|;
    var edges := CreateBidirectionalGraph(rivers, siteIds);
    SameElementsSameNeighbours(edges, BothWays(rivers, siteIds), n);
    SameElementsSameNeighbours(BothWays(rivers, siteIds), edges, n);
    RiverGraphShape(rivers, siteIds);
    assert WellFormed(Neighbours(edges, n));
    entries := [];
    var i := 0;
    while i < |mineList|
      invariant 0 <= i <= |mineList| && |entries| == i
      invariant forall k :: 0 <= k < i ==> DistanceTable(RiverGraph(rivers, siteIds), mineList[k], entries[k], -1)
    {
      var dist := SearchMine(edges, n, mineList[i]);
      SameNeighboursSameTable(Neighbours(edges, n), RiverGraph(rivers, siteIds), mineList[i], dist, -1);
      entries := entries + [dist];
      i := i + 1;
    }
  }

  /** Every table holds 0 at its own mine. */
  lemma DistanceMapAtMines(rivers: seq<River>, siteIds: seq<int>, mineList: seq<int>, entries: seq<seq<int>>)
    requires Sorted(siteIds) && RiversIn(rivers, siteIds) && |entries| == |mineList|
    requires forall i :: 0 <= i < |mineList| ==> 0 <= mineList[i] < |siteIds|
    requires forall i :: 0 <= i < |mineList| ==> DistanceTable(RiverGraph(rivers, siteIds), mineList[i], entries[i], -1)
    ensures forall i :: 0 <= i < |mineList| ==> |entries[i]| == |siteIds| && entries[i][mineList[i]] == 0
  {
    forall i | 0 <= i < |mineList| ensures |entries[i]| == |siteIds| && entries[i][mineList[i]] == 0 {
      DistanceAtSource(RiverGraph(rivers, siteIds), mineList[i], entries[i], -1);
    }
  }
}
