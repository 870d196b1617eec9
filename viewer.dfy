/**
 * The replay viewer's core: the map it loads (dense site indices, an
 * adjacency list and one breadth-first distance table per mine), the move
 * history it rewrites to indices, the replay cursor, the attribution of
 * replayed moves to punters and the score of each punter.
 *
 * A JavaScript `undefined` (a `Map.get` of an unknown key) is `None`.
 * Site coordinates, drawing and file reading are not modelled.
 */
module Viewer {
  import opened Wrappers
  import opened Graph

  /** The viewer's "unreached" distance, 10^18. */
  const INF: int := 1_000_000_000_000_000_000

  /** A river `{source, target}` or a scored edge `{src, dst}`. */
  datatype Link = Link(source: Option<int>, target: Option<int>)

  /* ---------------------------------------------------------------- */
  /* Site indexing                                                     */
  /* ---------------------------------------------------------------- */

  /** The distinct ids of `ids`, in the order of their first occurrence. */
  function FirstSeen(ids: seq<int>): (r: seq<int>)
    ensures forall x :: x in r <==> x in ids
    ensures forall i, j :: 0 <= i < j < |r| ==> r[i] != r[j]
    ensures |r| <= |ids|
  {
    if ids == [] then []
    else
      var r0 := FirstSeen(ids[..|ids| - 1]);
      var x := ids[|ids| - 1];
      assert forall y :: y in ids <==> y in ids[..|ids| - 1] || y == x;
      if x in r0 then r0 else r0 + [x]
  }

  /** Reading one more id appends it to the first-seen order unless it was seen already. */
  lemma FirstSeenStep(ids: seq<int>, i: nat)
    requires i < |ids|
    ensures FirstSeen(ids[..i + 1]) ==
      if ids[i] in FirstSeen(ids[..i]) then FirstSeen(ids[..i]) else FirstSeen(ids[..i]) + [ids[i]]
  {
    assert ids[..i + 1][..i] == ids[..i];
  }

  /** Reading more ids only appends to the first-seen order. */
  lemma {:induction false} FirstSeenPrefix(ids: seq<int>, i: nat)
    requires i <= |ids|
    ensures FirstSeen(ids[..i]) <= FirstSeen(ids)
    decreases |ids| - i
  {
    if i < |ids| {
      FirstSeenPrefix(ids, i + 1);
      assert ids[..i + 1][..i] == ids[..i];
    } else {
      assert ids[..i] == ids;
    }
  }

  /**
   * The first occurrence of an id gets the next dense index: the number of
   * distinct ids seen before it.
   */
  lemma FirstSeenIndex(ids: seq<int>, i: nat)
    requires i < |ids| && ids[i] !in ids[..i]
    ensures |FirstSeen(ids[..i])| < |FirstSeen(ids)|
    ensures FirstSeen(ids)[|FirstSeen(ids[..i])|] == ids[i]
  {
    FirstSeenPrefix(ids, i + 1);
    assert ids[..i + 1][..i] == ids[..i];
    assert ids[i] !in FirstSeen(ids[..i]);
  }

  /** `m.get(k)` of a JavaScript `Map`. */
  function Lookup(m: map<int, int>, k: Option<int>): (r: Option<int>)
    ensures r.Some? <==> k.Some? && k.value in m
    ensures r.Some? ==> r.value == m[k.value]
  {
    if k.Some? && k.value in m then Some(m[k.value]) else None
  }

  /** The two maps of a loaded site list: id to index and index to id. */
  ghost predicate IndexMaps(order: seq<int>, id2index: map<int, int>, index2id: map<int, int>)
  {
    (forall x :: x in id2index <==> x in order) &&
    (forall k :: k in index2id <==> 0 <= k < |order|) &&
    (forall k :: 0 <= k < |order| ==> index2id[k] == order[k] && id2index[order[k]] == k)
  }

  /** A new id appended to the order gets the next index in both maps. */
  lemma IndexMapsAppend(order: seq<int>, id2index: map<int, int>, index2id: map<int, int>, x: int)
    requires IndexMaps(order, id2index, index2id) && x !in order
    ensures IndexMaps(order + [x], id2index[x := |order|], index2id[|order| := x])
  {
    var o := order + [x];
    forall k | 0 <= k < |o| ensures index2id[|order| := x][k] == o[k] && id2index[x := |order|][o[k]] == k {
      if k < |order| {
        assert o[k] == order[k] != x;
      }
    }
  }

  /** Under `IndexMaps`, the two maps are inverse to each other. */
  lemma IndexMapsInverse(order: seq<int>, id2index: map<int, int>, index2id: map<int, int>, x: int)
    requires IndexMaps(order, id2index, index2id) && x in id2index
    ensures 0 <= id2index[x] < |order| && index2id[id2index[x]] == x
  {
    var k :| 0 <= k < |order| && order[k] == x;
  }

  lemma {:induction false} DistinctSetSize(order: seq<int>)
    requires forall i, j :: 0 <= i < j < |order| ==> order[i] != order[j]
    ensures |set x | x in order| == |order|
    decreases |order|
  {
    if order != [] {
      var init := order[..|order| - 1];
      DistinctSetSize(init);
      assert (set x | x in order) == (set x | x in init) + {order[|order| - 1]};
    }
  }

  lemma MapSize(order: seq<int>, m: map<int, int>)
    requires forall i, j :: 0 <= i < j < |order| ==> order[i] != order[j]
    requires forall x :: x in m <==> x in order
    ensures |m| == |order|
  {
    DistinctSetSize(order);
    assert forall x :: x in m.Keys <==> x in order;
    assert m.Keys == set x | x in order;
  }

  /* ---------------------------------------------------------------- */
  /* Adjacency                                                         */
  /* ---------------------------------------------------------------- */

  /** Every link names two sites among `0 .. n-1`. */
  predicate Resolved(links: seq<Link>, n: int)
  {
    forall k :: 0 <= k < |links| ==>
      links[k].source.Some? && links[k].target.Some? &&
      0 <= links[k].source.value < n && 0 <= links[k].target.value < n
  }

  /** The adjacency lists after pushing both directions of every link, in order. */
  function AdjacencyOf(n: nat, links: seq<Link>): (adj: seq<seq<int>>)
    requires Resolved(links, n)
    ensures |adj| == n
  {
    if links == [] then seq(n, _ => [])
    else
      var adj0 := AdjacencyOf(n, links[..|links| - 1]);
      var s := links[|links| - 1].source.value;
      var t := links[|links| - 1].target.value;
      var adj1 := adj0[s := adj0[s] + [t]];
      adj1[t := adj1[t] + [s]]
  }

  /** `w` is adjacent to `x` exactly when some link joins them, in either direction. */
  lemma {:induction false} AdjacencySymmetric(n: nat, links: seq<Link>, x: int, w: int)
    requires Resolved(links, n) && 0 <= x < n
    ensures w in AdjacencyOf(n, links)[x] <==>
      exists k :: 0 <= k < |links| &&
        ((links[k].source == Some(x) && links[k].target == Some(w)) ||
         (links[k].source == Some(w) && links[k].target == Some(x)))
    decreases |links|
  {
    if links != [] {
      var init := links[..|links| - 1];
      AdjacencySymmetric(n, init, x, w);
      forall k | 0 <= k < |init| ensures init[k] == links[k] { }
    }
  }

  lemma {:induction false} AdjacencyWellFormed(n: nat, links: seq<Link>)
    requires Resolved(links, n)
    ensures WellFormed(AdjacencyOf(n, links))
    decreases |links|
  {
    if links != [] {
      AdjacencyWellFormed(n, links[..|links| - 1]);
    }
  }

  /** Builds the adjacency lists, pushing `target` to `source` and `source` to `target`. */
  method BuildAdjacency(n: nat, links: seq<Link>) returns (adj: seq<seq<int>>)
    requires Resolved(links, n)
    ensures adj == AdjacencyOf(n, links)
    ensures WellFormed(adj)
  {
    adj := seq(n, _ => []);
    var i := 0;
    while i < |links|
      invariant 0 <= i <= |links|
      invariant adj == AdjacencyOf(n, links[..i])
    {
      assert links[..i + 1][..i] == links[..i];
      var src := links[i].source.value;
      var tgt := links[i].target.value;
      adj := adj[src := adj[src] + [tgt]];
      adj := adj[tgt := adj[tgt] + [src]];
      i := i + 1;
    }
    assert links[..i] == links;
    AdjacencyWellFormed(n, links);
  }

  /* ---------------------------------------------------------------- */
  /* Breadth-first distances                                           */
  /* ---------------------------------------------------------------- */

  /** The viewer's queue of `{v, d}` records: the frontier's sites, each with its distance. */
  ghost predicate QueueHolds(queue: seq<(int, int)>, sites: seq<int>, dist: seq<int>)
  {
    |queue| == |sites| &&
    forall k :: 0 <= k < |queue| ==> 0 <= sites[k] < |dist| && queue[k] == (sites[k], dist[sites[k]])
  }

  /**
   * The inner loop of the search over the neighbours `v2` of the dequeued
   * site `v`: each gets `min(distance, d + 1)` and, if unvisited, is marked
   * visited and enqueued with `d + 1`.
   */
  method ExpandSite(adj: seq<seq<int>>, s: int, v: int, d: int,
                    visited0: seq<bool>, dist0: seq<int>, queue0: seq<(int, int)>,
                    ghost parent0: seq<int>, ghost expanded: seq<bool>, ghost sites0: seq<int>)
    returns (visited: seq<bool>, dist: seq<int>, queue: seq<(int, int)>,
             ghost parent: seq<int>, ghost sites: seq<int>)
    requires WellFormed(adj) && |adj| < INF && 0 <= v < |adj| == |dist0|
    requires Frontier(adj, s, visited0, dist0, parent0, expanded, sites0, d, INF) && d == dist0[v] && expanded[v]
    requires ExpandedClosed(adj, visited0, dist0, expanded, v) && QueueHolds(queue0, sites0, dist0)
    ensures Frontier(adj, s, visited, dist, parent, expanded, sites, d, INF)
    ensures ExpandedClosed(adj, visited, dist, expanded, -1) && QueueHolds(queue, sites, dist)
  {
    visited, dist, queue, parent, sites := visited0, dist0, queue0, parent0, sites0;
    var j := 0;
    while j < |adj[v]|
      invariant 0 <= j <= |adj[v]| && |dist| == |adj| && |visited| == |adj|
      invariant Frontier(adj, s, visited, dist, parent, expanded, sites, d, INF) && d == dist[v]
      invariant ExpandedClosed(adj, visited, dist, expanded, v) && QueueHolds(queue, sites, dist)
      invariant NeighboursDone(adj, v, visited, dist, j)
    {
      visited, dist, queue, parent, sites := ExpandNeighbour(adj, s, v, d, j, visited, dist, queue, parent, expanded, sites);
      j := j + 1;
    }
    NeighboursDoneClosed(adj, visited, dist, expanded, v);
  }

  /**
   * One pass of the inner loop: the `j`-th neighbour `v2` of `v` gets
   * `min(distance, d + 1)` and, if unvisited, is marked and enqueued.
   */
  method ExpandNeighbour(adj: seq<seq<int>>, s: int, v: int, d: int, j: int,
                         visited0: seq<bool>, dist0: seq<int>, queue0: seq<(int, int)>,
                         ghost parent0: seq<int>, ghost expanded: seq<bool>, ghost sites0: seq<int>)
    returns (visited: seq<bool>, dist: seq<int>, queue: seq<(int, int)>,
             ghost parent: seq<int>, ghost sites: seq<int>)
    requires WellFormed(adj) && |adj| < INF && 0 <= v < |adj| == |dist0| && 0 <= j < |adj[v]|
    requires Frontier(adj, s, visited0, dist0, parent0, expanded, sites0, d, INF) && d == dist0[v] && expanded[v]
    requires ExpandedClosed(adj, visited0, dist0, expanded, v) && QueueHolds(queue0, sites0, dist0)
    requires NeighboursDone(adj, v, visited0, dist0, j)
    ensures |dist| == |adj| && |visited| == |adj| && d == dist[v]
    ensures Frontier(adj, s, visited, dist, parent, expanded, sites, d, INF)
    ensures ExpandedClosed(adj, visited, dist, expanded, v) && QueueHolds(queue, sites, dist)
    ensures NeighboursDone(adj, v, visited, dist, j + 1)
  {
    visited, dist, queue, parent, sites := visited0, dist0, queue0, parent0, sites0;
    var v2 := adj[v][j];
    assert v2 in adj[v];
    if visited[v2] {
      FrontierVisited(adj, s, visited, dist, parent, expanded, sites, INF, v, v2);
      var lowered := Min(dist[v2], d + 1);
      dist := dist[v2 := lowered];
      assert dist == dist0;
    } else {
      CountTrueBound(visited);
      FrontierEnqueue(adj, s, visited, dist, parent, expanded, sites, INF, v, v2);
      var lowered := Min(dist[v2], d + 1);
      assert lowered == d + 1;
      dist := dist[v2 := lowered];
      parent := parent[v2 := v];
      visited := visited[v2 := true];
      queue := queue + [(v2, d + 1)];
      sites := sites + [v2];
      forall k | 0 <= k < |queue| ensures 0 <= sites[k] < |dist| && queue[k] == (sites[k], dist[sites[k]]) {
        if k < |sites0| {
          assert visited0[sites0[k]];
        }
      }
    }
    NeighboursDoneStep(adj, v, visited0, dist0, visited, dist, j);
  }

  /**
   * One mine's breadth-first search: distances start at INF, the mine at 0,
   * a site is marked visited when it is enqueued, and every edge out of a
   * dequeued site lowers its neighbour's distance to at most `d + 1`.
   */
  method MineDistances(adj: seq<seq<int>>, s: int) returns (dist: seq<int>)
    requires WellFormed(adj) && 0 <= s < |adj| && |adj| < INF
    ensures DistanceTable(adj, s, dist, INF)
  {
    var n := |adj|;
    dist := seq(n, _ => INF);
    var visited := seq(n, _ => false);
    FrontierStart(adj, s, INF);
    visited := visited[s := true];
    dist := dist[s := 0];
    var queue := [(s, 0)];
    ghost var parent := seq(n, _ => s);
    ghost var expanded := seq(n, _ => false);
    ghost var sites := [s];
    ghost var level := 0;
    while |queue| != 0
      invariant |expanded| == n
      invariant Frontier(adj, s, visited, dist, parent, expanded, sites, level, INF)
      invariant ExpandedClosed(adj, visited, dist, expanded, -1) && QueueHolds(queue, sites, dist)
      decreases n - CountTrue(expanded)
    {
      var v := queue[0].0;
      var d := queue[0].1;
      FrontierDequeue(adj, s, visited, dist, parent, expanded, sites, level, INF);
      CountTrueSet(expanded, v);
      expanded := expanded[v := true];
      CountTrueBound(expanded);
      level := d;
      queue := queue[1..];
      sites := sites[1..];
      visited, dist, queue, parent, sites := ExpandSite(adj, s, v, d, visited, dist, queue, parent, expanded, sites);
    }
    FrontierDone(adj, s, visited, dist, parent, expanded, level, INF);
  }

  /* ---------------------------------------------------------------- */
  /* The loaded map                                                    */
  /* ---------------------------------------------------------------- */

  /**
   * The first loop of `initialize`: each id not yet in the map gets the
   * next dense index, in both directions.
   */
  method IndexSites(siteIds: seq<int>) returns (id2index: map<int, int>, index2id: map<int, int>)
    ensures IndexMaps(FirstSeen(siteIds), id2index, index2id)
  {
    id2index, index2id := map[], map[];
    var i := 0;
    while i < |siteIds|
      invariant 0 <= i <= |siteIds|
      invariant IndexMaps(FirstSeen(siteIds[..i]), id2index, index2id)
    {
      ghost var seen := FirstSeen(siteIds[..i]);
      FirstSeenStep(siteIds, i);
      if siteIds[i] !in id2index {
        MapSize(seen, id2index);
        var index := |id2index|;
        IndexMapsAppend(seen, id2index, index2id, siteIds[i]);
        id2index := id2index[siteIds[i] := index];
        index2id := index2id[index := siteIds[i]];
      }
      i := i + 1;
    }
    assert siteIds[..i] == siteIds;
  }

  /** A river given by site ids, rewritten to indices. */
  function RiverLink(id2index: map<int, int>, river: (int, int)): (r: Link)
    ensures r.source.Some? <==> river.0 in id2index
    ensures r.target.Some? <==> river.1 in id2index
  {
    Link(Lookup(id2index, Some(river.0)), Lookup(id2index, Some(river.1)))
  }

  function RewriteRivers(id2index: map<int, int>, riverIds: seq<(int, int)>): (r: seq<Link>)
    ensures |r| == |riverIds|
    ensures forall k :: 0 <= k < |r| ==> r[k] == RiverLink(id2index, riverIds[k])
  {
    if riverIds == [] then []
    else RewriteRivers(id2index, riverIds[..|riverIds| - 1]) + [RiverLink(id2index, riverIds[|riverIds| - 1])]
  }

  function RewriteMines(id2index: map<int, int>, mineIds: seq<int>): (r: seq<Option<int>>)
    ensures |r| == |mineIds|
    ensures forall k :: 0 <= k < |r| ==> r[k] == Lookup(id2index, Some(mineIds[k]))
  {
    if mineIds == [] then []
    else RewriteMines(id2index, mineIds[..|mineIds| - 1]) + [Lookup(id2index, Some(mineIds[|mineIds| - 1]))]
  }

  /** The second loop of `initialize`: every listed site, as its index. */
  method IndexSiteList(id2index: map<int, int>, siteIds: seq<int>) returns (indexed: seq<int>)
    requires forall k :: 0 <= k < |siteIds| ==> siteIds[k] in id2index
    ensures |indexed| == |siteIds|
    ensures forall k :: 0 <= k < |siteIds| ==> siteIds[k] in id2index && indexed[k] == id2index[siteIds[k]]
  {
    indexed := [];
    var i := 0;
    while i < |siteIds|
      invariant 0 <= i <= |siteIds|
      invariant |indexed| == i && forall k :: 0 <= k < i ==> indexed[k] == id2index[siteIds[k]]
    {
      indexed := indexed + [id2index[siteIds[i]]];
      i := i + 1;
    }
  }

  /** The river loop of `initialize`. */
  method ResolveRivers(id2index: map<int, int>, riverIds: seq<(int, int)>) returns (links: seq<Link>)
    ensures links == RewriteRivers(id2index, riverIds)
  {
    links := [];
    var i := 0;
    while i < |riverIds|
      invariant 0 <= i <= |riverIds| && links == RewriteRivers(id2index, riverIds[..i])
    {
      assert riverIds[..i + 1][..i] == riverIds[..i];
      links := links + [RiverLink(id2index, riverIds[i])];
      i := i + 1;
    }
    assert riverIds[..i] == riverIds;
  }

  /** The mine loop of `initialize`. */
  method ResolveMines(id2index: map<int, int>, mineIds: seq<int>) returns (ms: seq<Option<int>>)
    ensures ms == RewriteMines(id2index, mineIds)
  {
    ms := [];
    var i := 0;
    while i < |mineIds|
      invariant 0 <= i <= |mineIds| && ms == RewriteMines(id2index, mineIds[..i])
    {
      assert mineIds[..i + 1][..i] == mineIds[..i];
      ms := ms + [Lookup(id2index, Some(mineIds[i]))];
      i := i + 1;
    }
    assert mineIds[..i] == mineIds;
  }

  /** The error a JavaScript read of an undeclared variable throws. */
  datatype JsError = ReferenceError

  /**
   * The static map: every listed site rewritten to its dense index, rivers
   * and mines rewritten through the id-to-index map, the adjacency lists and
   * `distance[i][j]`, the distance from the i-th mine to site j.
   */
  class GameMap {
    var sites: seq<int>
    var rivers: seq<Link>
    var mines: seq<Option<int>>
    var distance: seq<seq<int>>
    var adjacent: seq<seq<int>>
    var siteId2Index: map<int, int>
    var siteIndex2Id: map<int, int>
    /** The site ids the map was loaded from, in input order. */
    ghost var ids: seq<int>

    /** The index maps and the rewritten site list agree with the loaded ids. */
    ghost predicate Valid()
      reads this
    {
      IndexMaps(FirstSeen(ids), siteId2Index, siteIndex2Id) &&
      |sites| == |ids| &&
      forall k :: 0 <= k < |ids| ==> ids[k] in siteId2Index && sites[k] == siteId2Index[ids[k]]
    }

    /** The adjacency lists and one distance table per mine are in place. */
    ghost predicate Precomputed()
      reads this
    {
      |sites| < INF && Resolved(rivers, |sites|) &&
      (forall i :: 0 <= i < |mines| ==> mines[i].Some? && 0 <= mines[i].value < |sites|) &&
      adjacent == AdjacencyOf(|sites|, rivers) && |distance| == |mines| &&
      forall i :: 0 <= i < |mines| ==> DistanceTable(adjacent, mines[i].value, distance[i], INF)
    }

    constructor ()
      ensures Valid() && ids == [] && sites == [] && rivers == [] && mines == []
      ensures siteId2Index == map[] && siteIndex2Id == map[]
      ensures distance == [] && adjacent == []
    {
      sites, rivers, mines, distance, adjacent := [], [], [], [], [];
      siteId2Index, siteIndex2Id := map[], map[];
      ids := [];
    }

    method Reset()
      modifies this
      ensures Valid() && ids == [] && sites == [] && rivers == [] && mines == []
      ensures siteId2Index == map[] && siteIndex2Id == map[]
      ensures distance == [] && adjacent == []
    {
      sites, rivers, mines, distance, adjacent := [], [], [], [], [];
      siteId2Index, siteIndex2Id := map[], map[];
      ids := [];
    }

    /**
     * `initialize`: assigns dense indices to site ids in first-seen order (a
     * repeated id keeps its first index), then rewrites sites, rivers and
     * mines through the id-to-index map; an unknown id becomes `undefined`.
     * It is only ever called on a freshly reset map.
     */
    method Initialize(siteIds: seq<int>, riverIds: seq<(int, int)>, mineIds: seq<int>)
      requires ids == [] && sites == [] && rivers == [] && mines == []
      requires siteId2Index == map[] && siteIndex2Id == map[]
      modifies this
      ensures Valid() && ids == siteIds
      ensures rivers == RewriteRivers(siteId2Index, riverIds)
      ensures mines == RewriteMines(siteId2Index, mineIds)
      ensures distance == old(distance) && adjacent == old(adjacent)
    {
      var id2index, index2id := IndexSites(siteIds);
      assert forall k :: 0 <= k < |siteIds| ==> siteIds[k] in FirstSeen(siteIds);
      var indexed := IndexSiteList(id2index, siteIds);
      var links := ResolveRivers(id2index, riverIds);
      var ms := ResolveMines(id2index, mineIds);
      siteId2Index, siteIndex2Id := id2index, index2id;
      ids, sites, rivers, mines := siteIds, indexed, links, ms;
    }

    /** `getSiteIndex`: the dense index of a site id, `undefined` when it is not a listed site. */
    function GetSiteIndex(siteId: Option<int>): (r: Option<int>)
      reads this
      requires Valid()
      ensures r.Some? <==> siteId.Some? && siteId.value in ids
      ensures r.Some? ==> 0 <= r.value < |FirstSeen(ids)| && FirstSeen(ids)[r.value] == siteId.value
    {
      if siteId.Some? && siteId.value in siteId2Index then
        IndexMapsInverse(FirstSeen(ids), siteId2Index, siteIndex2Id, siteId.value);
        Some(siteId2Index[siteId.value])
      else None
    }

    /** `getSiteId` as written: its body reads the undeclared name `siteId` and so always throws. */
    function GetSiteIdAsWritten(siteIndex: int): (r: Result<int, JsError>)
      ensures r == Err(ReferenceError)
    {
      Err(ReferenceError)
    }

    /** `getSiteId` as evidently intended: the id of a dense index, `undefined` when out of range. */
    function GetSiteId(siteIndex: int): (r: Option<int>)
      reads this
      requires Valid()
      ensures r.Some? <==> 0 <= siteIndex < |FirstSeen(ids)|
      ensures r.Some? ==> r.value == FirstSeen(ids)[siteIndex]
    {
      if siteIndex in siteIndex2Id then Some(siteIndex2Id[siteIndex]) else None
    }

    /** The intended lookup inverts `getSiteIndex`; the written one throws for every loaded site. */
    lemma SiteIdRoundTrip(id: int)
      requires Valid() && id in ids
      ensures GetSiteIndex(Some(id)).Some?
      ensures GetSiteId(GetSiteIndex(Some(id)).value) == Some(id)
      ensures GetSiteIdAsWritten(GetSiteIndex(Some(id)).value).Err?
    {
    }

    /**
     * `precompute_`: symmetric adjacency lists over all listed sites, then one
     * breadth-first distance table per mine.
     */
    method Precompute()
      requires |sites| < INF && Resolved(rivers, |sites|)
      requires forall i :: 0 <= i < |mines| ==> mines[i].Some? && 0 <= mines[i].value < |sites|
      modifies this`adjacent, this`distance
      ensures Precomputed()
    {
      adjacent := BuildAdjacency(|sites|, rivers);
      distance := [];
      var i := 0;
      while i < |mines|
        invariant 0 <= i <= |mines| && adjacent == AdjacencyOf(|sites|, rivers) && WellFormed(adjacent)
        invariant |distance| == i
        invariant forall k :: 0 <= k < i ==> DistanceTable(adjacent, mines[k].value, distance[k], INF)
      {
        var row := MineDistances(adjacent, mines[i].value);
        distance := distance + [row];
        i := i + 1;
      }
    }

    /**
     * `load`: resets the map, indexes it and precomputes distances. A missing
     * mine list counts as empty. Every river end and mine must be a listed
     * site: otherwise `precompute_` indexes its arrays with `undefined` and
     * throws.
     */
    method Load(siteIds: seq<int>, riverIds: seq<(int, int)>, mineIds: Option<seq<int>>)
      requires |siteIds| < INF
      requires forall k :: 0 <= k < |riverIds| ==> riverIds[k].0 in siteIds && riverIds[k].1 in siteIds
      requires mineIds.Some? ==> forall k :: 0 <= k < |mineIds.value| ==> mineIds.value[k] in siteIds
      modifies this
      ensures Valid() && Precomputed() && ids == siteIds
      ensures |rivers| == |riverIds| && |mines| == (if mineIds.Some? then |mineIds.value| else 0)
      ensures forall k :: 0 <= k < |riverIds| ==>
                rivers[k].source == GetSiteIndex(Some(riverIds[k].0)) &&
                rivers[k].target == GetSiteIndex(Some(riverIds[k].1))
      ensures forall k :: 0 <= k < |mines| ==> mines[k] == GetSiteIndex(Some(mineIds.value[k]))
    {
      Reset();
      var ms := if mineIds.Some? then mineIds.value else [];
      Initialize(siteIds, riverIds, ms);
      forall k | 0 <= k < |rivers| ensures rivers[k].source.Some? && rivers[k].target.Some? &&
        0 <= rivers[k].source.value < |sites| && 0 <= rivers[k].target.value < |sites|
      {
        IndexMapsInverse(FirstSeen(ids), siteId2Index, siteIndex2Id, riverIds[k].0);
        IndexMapsInverse(FirstSeen(ids), siteId2Index, siteIndex2Id, riverIds[k].1);
      }
      forall k | 0 <= k < |mines| ensures mines[k].Some? && 0 <= mines[k].value < |sites| {
        IndexMapsInverse(FirstSeen(ids), siteId2Index, siteIndex2Id, ms[k]);
      }
      Precompute();
    }
  }

  /* ---------------------------------------------------------------- */
  /* Moves and the move history                                        */
  /* ---------------------------------------------------------------- */

  /** The body of a `claim` or an `option` move. */
  datatype ClaimBody = ClaimBody(punter: int, source: Option<int>, target: Option<int>)

  /** The body of a `splurge` move: the route as site ids. */
  datatype SplurgeBody = SplurgeBody(punter: int, route: seq<int>)

  /**
   * A move record as parsed from the moves file: each key may be present or
   * not (`pass` holds its punter).
   */
  datatype Move = Move(claim: Option<ClaimBody>, option: Option<ClaimBody>,
                       pass: Option<int>, splurge: Option<SplurgeBody>)

  /** A claim or option body with both endpoints looked up as site indices. */
  function NormalizeBody(id2index: map<int, int>, b: ClaimBody): (r: ClaimBody)
    ensures r.punter == b.punter
    ensures r.source == Lookup(id2index, b.source) && r.target == Lookup(id2index, b.target)
  {
    b.(source := Lookup(id2index, b.source), target := Lookup(id2index, b.target))
  }

  /** The rewriting of one move by `History.load`. */
  function NormalizeMove(id2index: map<int, int>, m: Move): (r: Move)
    ensures r.pass == m.pass && r.splurge == m.splurge
    ensures r.claim.Some? <==> m.claim.Some?
    ensures r.option.Some? <==> m.option.Some?
    ensures m.claim.Some? ==> r.claim.value == NormalizeBody(id2index, m.claim.value)
    ensures m.option.Some? ==> r.option.value == NormalizeBody(id2index, m.option.value)
  {
    m.(claim := if m.claim.Some? then Some(NormalizeBody(id2index, m.claim.value)) else None,
       option := if m.option.Some? then Some(NormalizeBody(id2index, m.option.value)) else None)
  }

  /** The loaded moves, their claim and option endpoints rewritten to site indices. */
  class History {
    var moves: seq<Move>

    constructor ()
      ensures moves == []
    {
      moves := [];
    }

    method Reset()
      modifies this
      ensures moves == []
    {
      moves := [];
    }

    /**
     * `load`: keeps the moves in order and rewrites the endpoints of every
     * claim and option through `getSiteIndex`; passes and splurge routes
     * (still site ids) are left as they are.
     */
    method Load(input: seq<Move>, gameMap: GameMap)
      requires gameMap.Valid()
      modifies this
      ensures |moves| == |input|
      ensures forall k :: 0 <= k < |input| ==> moves[k] == NormalizeMove(gameMap.siteId2Index, input[k])
    {
      Reset();
      moves := input;
      var i := 0;
      while i < |moves|
        invariant 0 <= i <= |moves| == |input|
        invariant forall k :: 0 <= k < i ==> moves[k] == NormalizeMove(gameMap.siteId2Index, input[k])
        invariant forall k :: i <= k < |moves| ==> moves[k] == input[k]
      {
        var m := NormalizeOne(moves[i], gameMap);
        moves := moves[i := m];
        i := i + 1;
      }
    }
  }

  /** The body of the `load` loop for one move. */
  method NormalizeOne(m0: Move, gameMap: GameMap) returns (m: Move)
    requires gameMap.Valid()
    ensures m == NormalizeMove(gameMap.siteId2Index, m0)
  {
    m := m0;
    if m.claim.Some? {
      m := m.(claim := Some(m.claim.value.(source := gameMap.GetSiteIndex(m.claim.value.source))));
      m := m.(claim := Some(m.claim.value.(target := gameMap.GetSiteIndex(m.claim.value.target))));
    }
    if m.option.Some? {
      m := m.(option := Some(m.option.value.(source := gameMap.GetSiteIndex(m.option.value.source))));
      m := m.(option := Some(m.option.value.(target := gameMap.GetSiteIndex(m.option.value.target))));
    }
  }

  /** `getSiteIndex` is the id-to-index lookup. */
  lemma GetSiteIndexIsLookup(gameMap: GameMap, x: Option<int>)
    requires gameMap.Valid()
    ensures gameMap.GetSiteIndex(x) == Lookup(gameMap.siteId2Index, x)
  {
    if x.Some? && x.value in gameMap.siteId2Index {
      IndexMapsInverse(FirstSeen(gameMap.ids), gameMap.siteId2Index, gameMap.siteIndex2Id, x.value);
    }
  }

  /* ---------------------------------------------------------------- */
  /* Players and edge attribution                                      */
  /* ---------------------------------------------------------------- */

  /**
   * The punter a move is credited to when colours are assigned: an option
   * or else a pass wins over a claim; a splurge is not looked at.
   */
  function DetectedPunter(m: Move): (r: Option<int>)
    ensures r.None? <==> m.claim.None? && m.option.None? && m.pass.None?
    ensures m.option.Some? ==> r == Some(m.option.value.punter)
    ensures m.option.None? && m.pass.Some? ==> r == Some(m.pass.value)
    ensures m.option.None? && m.pass.None? && m.claim.Some? ==> r == Some(m.claim.value.punter)
  {
    var fromClaim := if m.claim.Some? then Some(m.claim.value.punter) else None;
    if m.option.Some? then Some(m.option.value.punter)
    else if m.pass.Some? then Some(m.pass.value)
    else fromClaim
  }

  /** Every punter some move is credited to. */
  function Players(moves: seq<Move>): set<int>
  {
    set k | 0 <= k < |moves| && DetectedPunter(moves[k]).Some? :: DetectedPunter(moves[k]).value
  }

  /** The players of the colour assignment: every punter some move is credited to. */
  method DetectPlayers(moves: seq<Move>) returns (players: set<int>)
    ensures forall p :: p in players <==> exists k :: 0 <= k < |moves| && DetectedPunter(moves[k]) == Some(p)
    ensures players == Players(moves)
  {
    players := {};
    var i := 0;
    while i < |moves|
      invariant 0 <= i <= |moves|
      invariant forall p :: p in players <==> exists k :: 0 <= k < i && DetectedPunter(moves[k]) == Some(p)
    {
      var punter := DetectedPunter(moves[i]);
      if punter.Some? {
        players := players + {punter.value};
      }
      i := i + 1;
    }
    forall p | p in Players(moves) ensures p in players {
      var k :| 0 <= k < |moves| && DetectedPunter(moves[k]).Some? && DetectedPunter(moves[k]).value == p;
    }
  }

  /** A punter who only splurges gets no colour and so no score slot. */
  lemma SplurgeOnlyPunterUndetected(moves: seq<Move>, p: int)
    requires forall k :: 0 <= k < |moves| ==> moves[k].claim.None? && moves[k].option.None? && moves[k].pass.None?
    ensures forall k :: 0 <= k < |moves| ==> DetectedPunter(moves[k]) != Some(p)
  {
  }

  /** The edges `route[j] - route[j+1]` of a splurge route, in route order. */
  function RouteLinks(route: seq<int>): (r: seq<Link>)
    ensures |r| == if |route| < 2 then 0 else |route| - 1
    ensures forall j :: 0 <= j < |r| ==> r[j] == Link(Some(route[j]), Some(route[j + 1]))
    decreases |route|
  {
    if |route| < 2 then []
    else RouteLinks(route[..|route| - 1]) + [Link(Some(route[|route| - 2]), Some(route[|route| - 1]))]
  }

  /** The edge a claim or option body gives to punter `p`. */
  function BodyEdges(b: Option<ClaimBody>, p: int): seq<Link>
  {
    if b.Some? && b.value.punter == p then [Link(b.value.source, b.value.target)] else []
  }

  function SplurgeEdges(b: Option<SplurgeBody>, p: int): seq<Link>
  {
    if b.Some? && b.value.punter == p then RouteLinks(b.value.route) else []
  }

  /** The edges one move gives to punter `p`: claim, then option, then splurge. */
  function MoveEdges(m: Move, p: int): seq<Link>
  {
    BodyEdges(m.claim, p) + BodyEdges(m.option, p) + SplurgeEdges(m.splurge, p)
  }

  /** The edges of punter `p` after replaying `moves`, in replay order. */
  function PunterEdges(moves: seq<Move>, p: int): (r: seq<Link>)
    ensures moves == [] ==> r == []
  {
    if moves == [] then []
    else PunterEdges(moves[..|moves| - 1], p) + MoveEdges(moves[|moves| - 1], p)
  }

  /**
   * A move can be attributed when every punter it pushes an edge for has a
   * slot among `n`; otherwise `edges[punter]` is `undefined` and the push
   * throws.
   */
  predicate MoveAttributable(m: Move, n: int)
  {
    (m.claim.Some? ==> 0 <= m.claim.value.punter < n) &&
    (m.option.Some? ==> 0 <= m.option.value.punter < n) &&
    (m.splurge.Some? && |m.splurge.value.route| >= 2 ==> 0 <= m.splurge.value.punter < n)
  }

  predicate Attributable(moves: seq<Move>, n: int)
  {
    forall k :: 0 <= k < |moves| ==> MoveAttributable(moves[k], n)
  }

  /** A pass gives no edge to anybody. */
  lemma PassGivesNoEdges(m: Move, p: int)
    requires m.claim.None? && m.option.None? && m.splurge.None?
    ensures MoveEdges(m, p) == []
  {
  }

  /** The number of edges a move pushes in all. */
  function MoveEdgeCount(m: Move): nat
  {
    (if m.claim.Some? then 1 else 0) + (if m.option.Some? then 1 else 0) +
    (if m.splurge.Some? && |m.splurge.value.route| >= 2 then |m.splurge.value.route| - 1 else 0)
  }

  function EdgeCount(moves: seq<Move>): nat
  {
    if moves == [] then 0 else EdgeCount(moves[..|moves| - 1]) + MoveEdgeCount(moves[|moves| - 1])
  }

  /** The sum of `|f(p)|` over the punters `0 .. n-1`. */
  function SlotTotal(moves: seq<Move>, n: nat): nat
  {
    if n == 0 then 0 else SlotTotal(moves, n - 1) + |PunterEdges(moves, n - 1)|
  }

  lemma {:induction false} MoveSlotTotal(m: Move, n: nat, k: nat)
    requires k <= n && MoveAttributable(m, n)
    ensures MoveSlots(m, k) == (if m.claim.Some? && m.claim.value.punter < k then 1 else 0) +
                               (if m.option.Some? && m.option.value.punter < k then 1 else 0) +
                               (if m.splurge.Some? && |m.splurge.value.route| >= 2 && m.splurge.value.punter < k
                                then |m.splurge.value.route| - 1 else 0)
  {
    if k > 0 {
      MoveSlotTotal(m, n, k - 1);
    }
  }

  function MoveSlots(m: Move, n: nat): nat
  {
    if n == 0 then 0 else MoveSlots(m, n - 1) + |MoveEdges(m, n - 1)|
  }

  lemma {:induction false} SlotTotalStep(moves: seq<Move>, n: nat)
    requires moves != []
    ensures SlotTotal(moves, n) == SlotTotal(moves[..|moves| - 1], n) + MoveSlots(moves[|moves| - 1], n)
  {
    if n > 0 {
      SlotTotalStep(moves, n - 1);
    }
  }

  /**
   * Attribution loses and invents no edge: when every move is attributable,
   * the punters' edge lists hold exactly as many edges as the moves push.
   */
  lemma {:induction false} AttributionConservesEdges(moves: seq<Move>, n: nat)
    requires Attributable(moves, n)
    ensures SlotTotal(moves, n) == EdgeCount(moves)
    decreases |moves|
  {
    if moves == [] {
      NoMovesNoSlots(n);
    } else {
      var init := moves[..|moves| - 1];
      assert Attributable(init, n);
      AttributionConservesEdges(init, n);
      SlotTotalStep(moves, n);
      MoveSlotTotal(moves[|moves| - 1], n, n);
    }
  }

  lemma {:induction false} NoMovesNoSlots(n: nat)
    ensures SlotTotal([], n) == 0
  {
    if n > 0 {
      NoMovesNoSlots(n - 1);
    }
  }

  /** Appends `e` to slot `punter`; `None` when there is no such slot. */
  function PushEdge(edges: seq<seq<Link>>, punter: int, e: Link): (r: Option<seq<seq<Link>>>)
    ensures r.Some? <==> 0 <= punter < |edges|
    ensures r.Some? ==> |r.value| == |edges|
    ensures r.Some? ==> forall p :: 0 <= p < |edges| ==> r.value[p] == edges[p] + (if p == punter then [e] else [])
  {
    if 0 <= punter < |edges| then Some(edges[punter := edges[punter] + [e]]) else None
  }

  /** The inner loop over a splurge route: one edge per consecutive pair of sites. */
  method PushRoute(edges0: seq<seq<Link>>, punter: int, route: seq<int>) returns (r: Option<seq<seq<Link>>>)
    ensures r.Some? <==> |route| < 2 || 0 <= punter < |edges0|
    ensures r.Some? ==> |r.value| == |edges0|
    ensures r.Some? ==> forall p :: 0 <= p < |edges0| ==>
      r.value[p] == edges0[p] + (if p == punter then RouteLinks(route) else [])
  {
    var edges := edges0;
    var j := 0;
    while j < |route| - 1
      invariant 0 <= j <= if |route| < 2 then 0 else |route| - 1
      invariant j > 0 ==> 0 <= punter < |edges0|
      invariant |edges| == |edges0|
      invariant forall p :: 0 <= p < |edges0| ==>
                  edges[p] == edges0[p] + (if p == punter && j > 0 then RouteLinks(route[..j + 1]) else [])
    {
      assert route[..j + 2][..j + 1] == route[..j + 1];
      var pushed := PushEdge(edges, punter, Link(Some(route[j]), Some(route[j + 1])));
      if pushed.None? {
        return None;
      }
      edges := pushed.value;
      j := j + 1;
    }
    assert |route| >= 2 ==> route[..j + 1] == route;
    r := Some(edges);
  }

  /** The push of a claim or an option body, when present. */
  function PushBody(edges: seq<seq<Link>>, b: Option<ClaimBody>): (r: Option<seq<seq<Link>>>)
    ensures r.Some? <==> (b.Some? ==> 0 <= b.value.punter < |edges|)
    ensures r.Some? ==> |r.value| == |edges|
    ensures r.Some? ==> forall p :: 0 <= p < |edges| ==> r.value[p] == edges[p] + BodyEdges(b, p)
  {
    if b.Some? then PushEdge(edges, b.value.punter, Link(b.value.source, b.value.target)) else Some(edges)
  }

  /** The body of the attribution loop for one move: claim, option, then splurge. */
  method PushMove(edges0: seq<seq<Link>>, m: Move) returns (r: Option<seq<seq<Link>>>)
    ensures r.Some? <==> MoveAttributable(m, |edges0|)
    ensures r.Some? ==> |r.value| == |edges0|
    ensures r.Some? ==> forall p :: 0 <= p < |edges0| ==> r.value[p] == edges0[p] + MoveEdges(m, p)
  {
    var afterClaim := PushBody(edges0, m.claim);
    if afterClaim.None? {
      return None;
    }
    var afterOption := PushBody(afterClaim.value, m.option);
    if afterOption.None? {
      return None;
    }
    var edges := afterOption.value;
    if m.splurge.Some? {
      var pushed := PushRoute(edges, m.splurge.value.punter, m.splurge.value.route);
      if pushed.None? {
        return None;
      }
      edges := pushed.value;
    }
    PushMoveEdges(edges0, afterClaim.value, afterOption.value, edges, m);
    r := Some(edges);
  }

  /** The claim, option and splurge pushes together append each punter's `MoveEdges`. */
  lemma PushMoveEdges(edges0: seq<seq<Link>>, e1: seq<seq<Link>>, e2: seq<seq<Link>>, e3: seq<seq<Link>>, m: Move)
    requires |e1| == |e2| == |e3| == |edges0|
    requires forall p :: 0 <= p < |edges0| ==> e1[p] == edges0[p] + BodyEdges(m.claim, p)
    requires forall p :: 0 <= p < |edges0| ==> e2[p] == e1[p] + BodyEdges(m.option, p)
    requires forall p :: 0 <= p < |edges0| ==> e3[p] == e2[p] + SplurgeEdges(m.splurge, p)
    ensures forall p :: 0 <= p < |edges0| ==> e3[p] == edges0[p] + MoveEdges(m, p)
  {
    forall p | 0 <= p < |edges0| ensures e3[p] == edges0[p] + MoveEdges(m, p) {
      var c, o, sp := BodyEdges(m.claim, p), BodyEdges(m.option, p), SplurgeEdges(m.splurge, p);
      assert (edges0[p] + c) + o + sp == edges0[p] + (c + o + sp);
    }
  }

  /**
   * The attribution loop of `display`: `edges[p]` collects, in replay order,
   * the edges of the first `step` moves credited to punter `p`, for the
   * `n` detected players. `None` is the `TypeError` a push to a missing
   * slot throws.
   */
  method AttributeEdges(moves: seq<Move>, step: int, n: nat) returns (r: Option<seq<seq<Link>>>)
    requires 0 <= step <= |moves|
    ensures r.Some? <==> Attributable(moves[..step], n)
    ensures r.Some? ==> |r.value| == n && forall p :: 0 <= p < n ==> r.value[p] == PunterEdges(moves[..step], p)
  {
    var edges: seq<seq<Link>> := seq(n, _ => []);
    var i := 0;
    while i < step
      invariant 0 <= i <= step && |edges| == n
      invariant Attributable(moves[..i], n)
      invariant forall p :: 0 <= p < n ==> edges[p] == PunterEdges(moves[..i], p)
    {
      assert moves[..i + 1][..i] == moves[..i];
      var pushed := PushMove(edges, moves[i]);
      if pushed.None? {
        assert moves[..step][i] == moves[i];
        return None;
      }
      edges := pushed.value;
      i := i + 1;
    }
    assert moves[..i] == moves[..step];
    r := Some(edges);
  }

  /* ---------------------------------------------------------------- */
  /* Scores                                                            */
  /* ---------------------------------------------------------------- */

  /** Every marked site is reachable from `s`. */
  ghost predicate WithinReach(adj: seq<seq<int>>, s: int, m: seq<bool>)
  {
    forall x :: 0 <= x < |m| && m[x] ==> x in ReachSet(adj, s)
  }

  /** The score of one mine over a punter's edges: `d[x]^2` summed over the sites reachable from it. */
  ghost function MineScore(adj: seq<seq<int>>, d: seq<int>, mine: int): int
    requires |d| == |adj|
  {
    SquareSum(ReachMask(adj, mine), d)
  }

  /** Over no edges only the mine itself is reachable. */
  lemma NoEdgesReach(n: nat, mine: int)
    requires 0 <= mine < n
    ensures ReachMask(seq(n, _ => []), mine) == seq(n, x => x == mine)
  {
    var adj: seq<seq<int>> := seq(n, _ => []);
    TrivialWalk(adj, mine);
    ClosedMaskIsReach(adj, mine, seq(n, x => x == mine));
  }

  /** A punter without edges scores 0 from every mine: the mine is at distance 0 from itself. */
  lemma NoEdgesMineScore(n: nat, d: seq<int>, mine: int)
    requires 0 <= mine < n == |d| && d[mine] == 0
    ensures MineScore(seq(n, _ => []), d, mine) == 0
  {
    NoEdgesReach(n, mine);
    var mask := seq(n, x => x == mine);
    assert mask == seq(n, _ => false)[mine := true];
    SquareSumNone(seq(n, _ => false), d);
    SquareSumSet(seq(n, _ => false), d, mine);
  }

  /** The sum over the first `k` mines of their scores. */
  ghost function MinesScore(adj: seq<seq<int>>, distance: seq<seq<int>>, mines: seq<Option<int>>, k: nat): int
    requires k <= |mines| && |distance| == |mines|
    requires forall i :: 0 <= i < |mines| ==> |distance[i]| == |adj| && mines[i].Some?
  {
    if k == 0 then 0
    else MinesScore(adj, distance, mines, k - 1) + MineScore(adj, distance[k - 1], mines[k - 1].value)
  }

  /** Computes punter scores over the loaded map. */
  class Scorer {
    const gameMap: GameMap

    constructor (gameMap: GameMap)
      ensures this.gameMap == gameMap
    {
      this.gameMap := gameMap;
    }

    /**
     * What `compute(edges)` yields: 0 without mines; otherwise the sum over
     * mines of their scores, or `None` for the `TypeError` that an edge end
     * outside the site range causes in `adj[src].push`.
     */
    ghost function ScoreOf(edges: seq<Link>): Option<int>
      reads gameMap
      requires gameMap.Precomputed()
    {
      if |gameMap.mines| == 0 then Some(0)
      else if !Resolved(edges, |gameMap.sites|) then None
      else Some(MinesScore(AdjacencyOf(|gameMap.sites|, edges), gameMap.distance, gameMap.mines, |gameMap.mines|))
    }

    /** `compute`: the punter's score summed over all mines. */
    method Compute(edges: seq<Link>) returns (r: Option<int>)
      requires gameMap.Precomputed()
      ensures r == ScoreOf(edges)
    {
      var mines := gameMap.mines;
      if |mines| == 0 {
        return Some(0);
      }
      if !Resolved(edges, |gameMap.sites|) {
        return None;
      }
      var score := 0;
      var i := 0;
      while i < |mines|
        invariant 0 <= i <= |mines|
        invariant score == MinesScore(AdjacencyOf(|gameMap.sites|, edges), gameMap.distance, mines, i)
      {
        var s := ComputeForMine(edges, i);
        score := score + s;
        i := i + 1;
      }
      r := Some(score);
    }

    /**
     * `computeForMine_`: builds the punter's adjacency lists from its edges
     * and sums the squared distances of the sites a depth-first search
     * from the mine reaches, each site once.
     */
    method ComputeForMine(edges: seq<Link>, mineIndex: int) returns (score: int)
      requires gameMap.Precomputed() && Resolved(edges, |gameMap.sites|) && 0 <= mineIndex < |gameMap.mines|
      ensures score == MineScore(AdjacencyOf(|gameMap.sites|, edges), gameMap.distance[mineIndex],
                                 gameMap.mines[mineIndex].value)
    {
      var n := |gameMap.sites|;
      var visited := new bool[n](_ => false);
      var adj := BuildAdjacency(n, edges);
      var mine := gameMap.mines[mineIndex].value;
      TrivialWalk(adj, mine);
      SquareSumNone(visited[..], gameMap.distance[mineIndex]);
      ghost var start := visited[..];
      score := ComputeRecursively(mine, mineIndex, adj, visited, mine);
      ClosedFromNothing(adj, start, visited[..]);
      ClosedMaskIsReach(adj, mine, visited[..]);
    }

    /**
     * `computeRecursively_`: a depth-first search that marks `v` and every
     * site it reaches through unmarked sites, and returns the squared
     * distances of the sites it marked. `s` is the search's root.
     */
    method ComputeRecursively(v: int, mineIndex: int, adj: seq<seq<int>>, visited: array<bool>, ghost s: int)
      returns (score: int)
      requires gameMap.Precomputed() && 0 <= mineIndex < |gameMap.mines|
      requires WellFormed(adj) && |adj| == |gameMap.sites| == visited.Length && 0 <= v < |adj|
      requires v in ReachSet(adj, s) && WithinReach(adj, s, visited[..])
      modifies visited
      decreases |adj| - CountTrue(visited[..])
      ensures visited[v] && Grows(old(visited[..]), visited[..])
      ensures WithinReach(adj, s, visited[..])
      ensures ClosedSince(adj, old(visited[..]), visited[..], -1)
      ensures score == SquareSum(visited[..], gameMap.distance[mineIndex]) -
                       SquareSum(old(visited[..]), gameMap.distance[mineIndex])
    {
      if visited[v] {
        return 0;
      }
      ghost var entry := visited[..];
      var d := gameMap.distance[mineIndex];
      visited[v] := true;
      assert visited[..] == entry[v := true];
      SquareSumSet(entry, d, v);
      CountTrueSet(entry, v);
      score := d[v] * d[v];
      var i := 0;
      while i < |adj[v]|
        invariant 0 <= i <= |adj[v]| && visited[v]
        invariant Grows(entry, visited[..]) && WithinReach(adj, s, visited[..])
        invariant ClosedSince(adj, entry, visited[..], v)
        invariant PrefixMarked(adj, visited[..], v, i)
        invariant score == SquareSum(visited[..], d) - SquareSum(entry, d)
      {
        var v2 := adj[v][i];
        ReachClosed(adj, s, v, v2);
        ghost var before := visited[..];
        CountTrueMono(entry[v := true], before);
        CountTrueBound(before);
        var sub := ComputeRecursively(v2, mineIndex, adj, visited, s);
        ClosedCompose(adj, entry, before, visited[..], v);
        PrefixMarkedStep(adj, before, visited[..], v, i);
        score := score + sub;
        i := i + 1;
      }
      ClosedFinish(adj, entry, visited[..], v);
    }
  }

  /** A punter with no edges scores 0. */
  lemma NoEdgesScoreZero(scorer: Scorer)
    requires scorer.gameMap.Precomputed()
    ensures scorer.ScoreOf([]) == Some(0)
  {
    var gm := scorer.gameMap;
    var n := |gm.sites|;
    assert AdjacencyOf(n, []) == seq(n, _ => []);
    forall i | 0 <= i < |gm.mines| ensures gm.distance[i][gm.mines[i].value] == 0 {
      DistanceAtSource(gm.adjacent, gm.mines[i].value, gm.distance[i], INF);
    }
    NoMinesNoScore(n, gm.distance, gm.mines, |gm.mines|);
  }

  lemma {:induction false} NoMinesNoScore(n: nat, distance: seq<seq<int>>, mines: seq<Option<int>>, k: nat)
    requires k <= |mines| == |distance|
    requires forall i :: 0 <= i < |mines| ==> |distance[i]| == n && mines[i].Some? && 0 <= mines[i].value < n &&
                                              distance[i][mines[i].value] == 0
    ensures MinesScore(seq(n, _ => []), distance, mines, k) == 0
  {
    if k > 0 {
      NoMinesNoScore(n, distance, mines, k - 1);
      NoEdgesMineScore(n, distance[k - 1], mines[k - 1].value);
    }
  }

  /**
   * The score part of `display`: colours go to the detected players, the
   * first `step` moves are attributed to them, and each player's edges are
   * scored. `None` is a `TypeError` thrown on the way.
   */
  method DisplayScores(scorer: Scorer, moves: seq<Move>, step: int) returns (r: Option<seq<int>>)
    requires scorer.gameMap.Precomputed() && 0 <= step <= |moves|
    ensures r.Some? ==> Attributable(moves[..step], |Players(moves)|)
    ensures r.Some? ==> |r.value| == |Players(moves)|
    ensures r.Some? ==> forall p :: 0 <= p < |r.value| ==>
      scorer.ScoreOf(PunterEdges(moves[..step], p)) == Some(r.value[p])
    ensures r.None? ==> (!Attributable(moves[..step], |Players(moves)|) ||
      exists p :: 0 <= p < |Players(moves)| && scorer.ScoreOf(PunterEdges(moves[..step], p)).None?)
  {
    var players := DetectPlayers(moves);
    var n := |players|;
    var edges := AttributeEdges(moves, step, n);
    if edges.None? {
      return None;
    }
    var scores: seq<int> := [];
    var p := 0;
    while p < n
      invariant 0 <= p <= n && |scores| == p
      invariant forall q :: 0 <= q < p ==> scorer.ScoreOf(PunterEdges(moves[..step], q)) == Some(scores[q])
    {
      var score := scorer.Compute(edges.value[p]);
      if score.None? {
        assert scorer.ScoreOf(PunterEdges(moves[..step], p)).None?;
        return None;
      }
      ghost var before := scores;
      scores := scores + [score.value];
      forall q | 0 <= q < p + 1 ensures scorer.ScoreOf(PunterEdges(moves[..step], q)) == Some(scores[q]) {
        if q < p {
          assert scores[q] == before[q];
        }
      }
      p := p + 1;
    }
    r := Some(scores);
  }

  /* ---------------------------------------------------------------- */
  /* Replay cursor                                                     */
  /* ---------------------------------------------------------------- */

  /** The step the previous button moves to. */
  function PrevStep(step: int): (r: int)
    ensures step > 0 ==> r == step - 1
    ensures step <= 0 ==> r == 0
  {
    Max(step - 1, 0)
  }

  /** The step the next button moves to, for `len` moves. */
  function NextStep(step: int, len: int): (r: int)
    ensures step < len ==> r == step + 1
    ensures step >= len ==> r == len
  {
    Min(step + 1, len)
  }

  /** Both buttons keep the cursor within `0 .. len`. */
  lemma StepsStayInRange(step: int, len: int)
    requires 0 <= step <= len
    ensures 0 <= PrevStep(step) <= step && step <= NextStep(step, len) <= len
  {
  }

  /** Next undoes previous away from the start, and previous undoes next away from the end. */
  lemma PrevNextInverse(step: int, len: int)
    requires 0 <= step <= len
    ensures step < len ==> PrevStep(NextStep(step, len)) == step
    ensures step > 0 ==> NextStep(PrevStep(step), len) == step
  {
  }

  /** The slider value accepted for `len` moves: an integer within `0 .. len`, else the step is kept. */
  function SliderStep(step: int, value: Option<int>, len: int): (r: int)
    ensures value.Some? && 0 <= value.value <= len ==> r == value.value
    ensures !(value.Some? && 0 <= value.value <= len) ==> r == step
  {
    if value.Some? && 0 <= value.value && value.value <= len then value.value else step
  }

  /** The replay position: the number of moves replayed. */
  class State {
    var step: int

    constructor ()
      ensures step == 0
    {
      step := 0;
    }

    method Reset()
      modifies this
      ensures step == 0
    {
      step := 0;
    }
  }

  /**
   * The page controller: it owns the map, the history, the cursor and the
   * scorer, and reacts to the buttons, the slider, the file inputs and the
   * play timer. `timerId` is -1 when no timer runs; timer ids are supplied
   * by the caller.
   */
  class Controller {
    var playing: bool
    var timerId: int
    const gameMap: GameMap
    const history: History
    const state: State
    const scorer: Scorer

    /** The cursor never passes the loaded moves. */
    ghost predicate Valid()
      reads this, history, state
    {
      0 <= state.step <= |history.moves|
    }

    constructor ()
      ensures Valid() && !playing && timerId == -1
      ensures fresh(gameMap) && fresh(history) && fresh(state) && fresh(scorer)
      ensures scorer.gameMap == gameMap && gameMap.Valid() && history.moves == [] && state.step == 0
    {
      playing := false;
      var gm := new GameMap();
      gameMap := gm;
      history := new History();
      state := new State();
      scorer := new Scorer(gm);
      timerId := -1;
    }

    /** `reset`: stops counting as playing and rewinds. */
    method Reset()
      modifies this, state
      ensures !playing && state.step == 0 && timerId == old(timerId)
      ensures Valid()
    {
      playing := false;
      state.step := 0;
    }

    /** `startPlay_`: rewinds first when the replay is at its end, then runs timer `timer`. */
    method StartPlay(timer: int)
      requires Valid()
      modifies this, state
      ensures Valid() && playing && timerId == timer
      ensures state.step == if old(state.step) == |history.moves| then 0 else old(state.step)
    {
      if state.step == |history.moves| {
        state.step := 0;
      }
      timerId := timer;
      playing := true;
    }

    /** `stopPlay_`: clears any running timer. */
    method StopPlay()
      modifies this
      ensures !playing && timerId == -1
    {
      if timerId != -1 {
        timerId := -1;
      }
      playing := false;
    }

    method OnPlayClicked(timer: int)
      requires Valid()
      modifies this, state
      ensures Valid() && playing == !old(playing)
      ensures old(playing) ==> timerId == -1 && state.step == old(state.step)
      ensures !old(playing) ==> timerId == timer
    {
      if playing {
        StopPlay();
      } else {
        StartPlay(timer);
      }
    }

    method OnPrevClicked()
      modifies state
      ensures state.step == PrevStep(old(state.step))
    {
      state.step := Max(state.step - 1, 0);
    }

    method OnNextClicked()
      modifies state
      ensures state.step == NextStep(old(state.step), |history.moves|)
    {
      state.step := Min(state.step + 1, |history.moves|);
    }

    /** A timer tick: one step forward, stopping at the end. */
    method OnInterval()
      requires Valid()
      modifies this, state
      ensures Valid() && state.step == NextStep(old(state.step), |history.moves|)
      ensures state.step == |history.moves| ==> !playing && timerId == -1
      ensures state.step < |history.moves| ==> playing == old(playing) && timerId == old(timerId)
    {
      OnNextClicked();
      if state.step == |history.moves| {
        StopPlay();
      }
    }

    /** The slider: stops playback, then accepts an integer value within `0 .. len`. */
    method OnSliderChange(value: Option<int>)
      modifies this, state
      ensures !playing
      ensures state.step == SliderStep(old(state.step), value, |history.moves|)
    {
      if playing {
        StopPlay();
      }
      if value.Some? && value.value >= 0 && value.value <= |history.moves| {
        state.step := value.value;
      }
    }

    /** A new map: loaded and precomputed, moves dropped, cursor rewound. */
    method OnInputMapChange(siteIds: seq<int>, riverIds: seq<(int, int)>, mineIds: Option<seq<int>>)
      requires |siteIds| < INF
      requires forall k :: 0 <= k < |riverIds| ==> riverIds[k].0 in siteIds && riverIds[k].1 in siteIds
      requires mineIds.Some? ==> forall k :: 0 <= k < |mineIds.value| ==> mineIds.value[k] in siteIds
      modifies gameMap, history, state
      ensures gameMap.Valid() && gameMap.Precomputed() && gameMap.ids == siteIds
      ensures history.moves == [] && state.step == 0 && Valid()
    {
      gameMap.Load(siteIds, riverIds, mineIds);
      history.Reset();
      state.Reset();
    }

    /** A new moves file: normalised against the current map, cursor rewound. */
    method OnInputMovesChange(moves: seq<Move>)
      requires gameMap.Valid()
      modifies history, state
      ensures |history.moves| == |moves| && state.step == 0 && Valid()
      ensures forall k :: 0 <= k < |moves| ==> history.moves[k] == NormalizeMove(gameMap.siteId2Index, moves[k])
    {
      history.Load(moves, gameMap);
      state.Reset();
    }
  }
}
