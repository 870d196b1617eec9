/**
 * `FriendlyPunter`: it grows the network of its least effective mine.
 *
 * Each site is worth its squared distance to every mine. A mine's effect
 * is the worth, to that mine, of the sites joined to it by our own
 * rivers. From the component of the least effective mine a breadth-first
 * search over free rivers measures how far every site is; the site with
 * the highest value is chosen, and the river on its way back that touches
 * the component is claimed.
 *
 * The state is the board the punter keeps (`Board`), and `dist(site, k)`
 * is the breadth-first distance of a site from mine `k` that the board
 * precomputes.
 */
module FriendlyPunter {
  import opened Wrappers
  import opened GameData
  import opened CostSearch
  import G = Graph

  const INF := 1000000000

  /** Every river's ends are sites of the map. */
  predicate RiversOnMap(b: Board)
  {
    forall i :: 0 <= i < |b.rivers| ==>
      0 <= b.rivers[i].source < b.n && 0 <= b.rivers[i].target < b.n
  }

  /** Each adjacency entry has its twin: the river listed at the far site, back to the near one. */
  ghost predicate Symmetric(b: Board)
  {
    forall s, j :: 0 <= s < |b.edges| && 0 <= j < |b.edges[s]| && b.edges[s][j].site < |b.edges| ==>
      exists k :: 0 <= k < |b.edges[b.edges[s][j].site]| &&
        b.edges[b.edges[s][j].site][k] == Edge(s, b.edges[s][j].river)
  }

  /* ---------------------------------------------------------------- */
  /* The lists of our own, and of our own or free, rivers               */
  /* ---------------------------------------------------------------- */

  /** Which rivers a list takes: our own (`adj`), or our own and the free ones (`adj2`). */
  datatype Keep = Own | OwnOrFree

  predicate Kept(keep: Keep, me: int, r: RiverProto)
  {
    r.punter == me || (keep == OwnOrFree && r.punter == -1)
  }

  /** The lists after the first `k` rivers: each kept river is pushed at both of its ends. */
  function AdjacencyOf(b: Board, keep: Keep, k: nat): (adj: seq<seq<int>>)
    requires RiversOnMap(b) && k <= |b.rivers|
    ensures |adj| == b.n
  {
    if k == 0 then seq(b.n, _ => [])
    else
      var adj0 := AdjacencyOf(b, keep, k - 1);
      var r := b.rivers[k - 1];
      if !Kept(keep, b.me, r) then adj0
      else
        var adj1 := adj0[r.source := adj0[r.source] + [r.target]];
        adj1[r.target := adj1[r.target] + [r.source]]
  }

  /** `w` is listed at `x` exactly when a kept river joins the two, either way round. */
  lemma {:induction false} AdjacencyJoins(b: Board, keep: Keep, k: nat, x: int, w: int)
    requires RiversOnMap(b) && k <= |b.rivers| && 0 <= x < b.n
    ensures w in AdjacencyOf(b, keep, k)[x] <==>
      exists i :: 0 <= i < k && Kept(keep, b.me, b.rivers[i]) && Ends(b.rivers[i], x, w)
    decreases k
  {
    if k > 0 {
      AdjacencyJoins(b, keep, k - 1, x, w);
    }
  }

  lemma {:induction false} AdjacencyWellFormed(b: Board, keep: Keep, k: nat)
    requires RiversOnMap(b) && k <= |b.rivers|
    ensures G.WellFormed(AdjacencyOf(b, keep, k))
    decreases k
  {
    if k > 0 {
      AdjacencyWellFormed(b, keep, k - 1);
    }
  }

  /** The loops of `Run` that fill `adj` and `adj2`. */
  method Adjacency(b: Board, keep: Keep) returns (adj: seq<seq<int>>)
    requires RiversOnMap(b)
    ensures adj == AdjacencyOf(b, keep, |b.rivers|) && G.WellFormed(adj)
  {
    adj := seq(b.n, _ => []);
    for i := 0 to |b.rivers|
      invariant adj == AdjacencyOf(b, keep, i)
    {
      var r := b.rivers[i];
      if !Kept(keep, b.me, r) {
        continue;
      }
      adj := adj[r.source := adj[r.source] + [r.target]];
      adj := adj[r.target := adj[r.target] + [r.source]];
    }
    AdjacencyWellFormed(b, keep, |b.rivers|);
  }

  /** Our own rivers are among our own or free ones, so what they join, the larger list joins too. */
  lemma OwnWithinOwnOrFree(b: Board, s: int, x: int)
    requires RiversOnMap(b) && 0 <= s < b.n
    requires x in G.ReachSet(AdjacencyOf(b, Own, |b.rivers|), s)
    ensures x in G.ReachSet(AdjacencyOf(b, OwnOrFree, |b.rivers|), s)
  {
    var own := AdjacencyOf(b, Own, |b.rivers|);
    var both := AdjacencyOf(b, OwnOrFree, |b.rivers|);
    AdjacencyWellFormed(b, OwnOrFree, |b.rivers|);
    forall v, w | 0 <= v < b.n && w in own[v] ensures w in both[v] {
      AdjacencyJoins(b, Own, |b.rivers|, v, w);
      AdjacencyJoins(b, OwnOrFree, |b.rivers|, v, w);
    }
    G.SubgraphReach(own, both, s, x);
  }

  /* ---------------------------------------------------------------- */
  /* The two depth-first searches                                       */
  /* ---------------------------------------------------------------- */

  /**
   * `dfs(site_idx, adj, visited)`: marks `site` and, recursively, every
   * unmarked site listed at a site it marks. Every site it marks is
   * reachable from `site` and ends with all its neighbours marked.
   */
  method Dfs(site: int, adj: seq<seq<int>>, visited: array<bool>)
    requires G.WellFormed(adj) && |adj| == visited.Length && 0 <= site < |adj|
    modifies visited
    decreases |adj| - CountTrue(visited[..])
    ensures visited[site] && G.Grows(old(visited[..]), visited[..])
    ensures G.ClosedSince(adj, old(visited[..]), visited[..], -1)
    ensures forall x :: 0 <= x < |adj| && visited[x] && !old(visited[x]) ==> x in G.ReachSet(adj, site)
  {
    if visited[site] {
      return;
    }
    ghost var entry := visited[..];
    visited[site] := true;
    assert visited[..] == entry[site := true];
    CountTrueSet(entry, site);
    G.TrivialWalk(adj, site);
    for i := 0 to |adj[site]|
      invariant visited[site] && G.Grows(entry, visited[..])
      invariant G.ClosedSince(adj, entry, visited[..], site)
      invariant G.PrefixMarked(adj, visited[..], site, i)
      invariant forall x :: 0 <= x < |adj| && visited[x] && !entry[x] ==> x in G.ReachSet(adj, site)
    {
      var w := adj[site][i];
      assert w in adj[site];
      ghost var before := visited[..];
      CountTrueMono(entry[site := true], before);
      CountTrueBound(before);
      Dfs(w, adj, visited);
      G.ClosedCompose(adj, entry, before, visited[..], site);
      G.PrefixMarkedStep(adj, before, visited[..], site, i);
      forall x | 0 <= x < |adj| && visited[x] && !entry[x] ensures x in G.ReachSet(adj, site) {
        if !before[x] {
          G.ReachPrepend(adj, site, w, x);
        }
      }
    }
    G.ClosedFinish(adj, entry, visited[..], site);
  }

  /** Both lists of a site, one after the other. */
  ghost function Union(adj: seq<seq<int>>, adj2: seq<seq<int>>): seq<seq<int>>
    requires |adj| == |adj2|
  {
    seq(|adj|, v requires 0 <= v < |adj| => adj[v] + adj2[v])
  }

  /**
   * `dfs(site_idx, visited, adj, adj2)`: the same search over the sites
   * listed in either list, `adj`'s first.
   */
  method Dfs2(site: int, visited: array<bool>, adj: seq<seq<int>>, adj2: seq<seq<int>>)
    requires |adj| == |adj2| == visited.Length && G.WellFormed(Union(adj, adj2)) && 0 <= site < |adj|
    modifies visited
    decreases |adj| - CountTrue(visited[..])
    ensures visited[site] && G.Grows(old(visited[..]), visited[..])
    ensures G.ClosedSince(Union(adj, adj2), old(visited[..]), visited[..], -1)
    ensures forall x :: 0 <= x < |adj| && visited[x] && !old(visited[x]) ==> x in G.ReachSet(Union(adj, adj2), site)
  {
    if visited[site] {
      return;
    }
    ghost var u := Union(adj, adj2);
    ghost var entry := visited[..];
    visited[site] := true;
    assert visited[..] == entry[site := true];
    CountTrueSet(entry, site);
    G.TrivialWalk(u, site);
    for i := 0 to |adj[site]|
      invariant visited[site] && G.Grows(entry, visited[..])
      invariant G.ClosedSince(u, entry, visited[..], site)
      invariant G.PrefixMarked(u, visited[..], site, i)
      invariant forall x :: 0 <= x < |adj| && visited[x] && !entry[x] ==> x in G.ReachSet(u, site)
    {
      var w := adj[site][i];
      assert u[site][i] == w && w in u[site];
      ghost var before := visited[..];
      CountTrueMono(entry[site := true], before);
      CountTrueBound(before);
      Dfs2(w, visited, adj, adj2);
      G.ClosedCompose(u, entry, before, visited[..], site);
      G.PrefixMarkedStep(u, before, visited[..], site, i);
      forall x | 0 <= x < |adj| && visited[x] && !entry[x] ensures x in G.ReachSet(u, site) {
        if !before[x] {
          G.ReachPrepend(u, site, w, x);
        }
      }
    }
    for i := 0 to |adj2[site]|
      invariant visited[site] && G.Grows(entry, visited[..])
      invariant G.ClosedSince(u, entry, visited[..], site)
      invariant G.PrefixMarked(u, visited[..], site, |adj[site]| + i)
      invariant forall x :: 0 <= x < |adj| && visited[x] && !entry[x] ==> x in G.ReachSet(u, site)
    {
      var w := adj2[site][i];
      assert u[site][|adj[site]| + i] == w && w in u[site];
      ghost var before := visited[..];
      CountTrueMono(entry[site := true], before);
      CountTrueBound(before);
      Dfs2(w, visited, adj, adj2);
      G.ClosedCompose(u, entry, before, visited[..], site);
      G.PrefixMarkedStep(u, before, visited[..], site, |adj[site]| + i);
      forall x | 0 <= x < |adj| && visited[x] && !entry[x] ensures x in G.ReachSet(u, site) {
        if !before[x] {
          G.ReachPrepend(u, site, w, x);
        }
      }
    }
    G.ClosedFinish(u, entry, visited[..], site);
  }

  /** A search over both lists from nothing marked marks exactly what the two lists together reach. */
  lemma Dfs2MarksReach(adj: seq<seq<int>>, adj2: seq<seq<int>>, before: seq<bool>, after: seq<bool>, site: int)
    requires |adj| == |adj2| == |before| == |after| && G.WellFormed(Union(adj, adj2)) && 0 <= site < |adj|
    requires forall x :: 0 <= x < |before| ==> !before[x]
    requires after[site] && G.Grows(before, after) && G.ClosedSince(Union(adj, adj2), before, after, -1)
    requires forall x :: 0 <= x < |adj| && after[x] && !before[x] ==> x in G.ReachSet(Union(adj, adj2), site)
    ensures after == G.ReachMask(Union(adj, adj2), site)
  {
    var u := Union(adj, adj2);
    G.MarkedReach(u, before, after, site);
  }

  /* ---------------------------------------------------------------- */
  /* Mine effects                                                       */
  /* ---------------------------------------------------------------- */

  /** `value`: the worth of site `i` to mine `j` is its squared distance from it. */
  method Values(n: nat, m: nat, dist: (int, nat) -> int) returns (value: seq<seq<int>>)
    ensures |value| == n && forall i :: 0 <= i < n ==> |value[i]| == m
    ensures forall i, j :: 0 <= i < n && 0 <= j < m ==> value[i][j] == dist(i, j) * dist(i, j)
  {
    value := seq(n, _ => seq(m, _ => 0));
    for i := 0 to n
      invariant |value| == n && forall x :: 0 <= x < n ==> |value[x]| == m
      invariant forall x, j :: 0 <= x < i && 0 <= j < m ==> value[x][j] == dist(x, j) * dist(x, j)
      invariant forall x, j :: i <= x < n && 0 <= j < m ==> value[x][j] == 0
    {
      for j := 0 to m
        invariant |value| == n && forall x :: 0 <= x < n ==> |value[x]| == m
        invariant forall x, k :: 0 <= x < i && 0 <= k < m ==> value[x][k] == dist(x, k) * dist(x, k)
        invariant forall k :: 0 <= k < j ==> value[i][k] == dist(i, k) * dist(i, k)
        invariant forall x, k :: (i < x < n && 0 <= k < m) || (x == i && j <= k < m) ==> value[x][k] == 0
      {
        value := value[i := value[i][j := value[i][j] + dist(i, j) * dist(i, j)]];
      }
    }
  }

  /** `covered`: the sites joined by our own rivers to some mine. */
  method CoveredByMines(b: Board, adj: seq<seq<int>>) returns (covered: seq<bool>)
    requires BoardOk(b) && G.WellFormed(adj) && |adj| == b.n
    ensures |covered| == b.n
    ensures forall x :: 0 <= x < b.n ==>
      (covered[x] <==> exists i :: 0 <= i < |b.mines| && x in G.ReachSet(adj, b.mines[i]))
  {
    var c := new bool[b.n](_ => false);
    for i := 0 to |b.mines|
      invariant G.Closed(adj, c[..])
      invariant forall x :: 0 <= x < b.n ==> (c[x] <==> exists k :: 0 <= k < i && x in G.ReachSet(adj, b.mines[k]))
    {
      ghost var before := c[..];
      Dfs(b.mines[i], adj, c);
      G.MarkedReach(adj, before, c[..], b.mines[i]);
    }
    covered := c[..];
  }

  /** The distances of every site from mine `i`. */
  ghost function Column(dist: (int, nat) -> int, n: nat, i: nat): seq<int>
  {
    seq(n, j => dist(j, i))
  }

  /** The effect of mine `i`: the worth to it of the sites our own rivers join to it. */
  ghost function MineEffect(b: Board, adj: seq<seq<int>>, dist: (int, nat) -> int, i: nat): int
    requires i < |b.mines| && |adj| == b.n
  {
    G.SquareSum(G.ReachMask(adj, b.mines[i]), Column(dist, b.n, i))
  }

  /** `mine_effect`: one search from each mine, then its reached sites' worth summed. */
  method Effects(b: Board, adj: seq<seq<int>>, value: seq<seq<int>>, ghost dist: (int, nat) -> int)
    returns (effects: seq<int>)
    requires BoardOk(b) && G.WellFormed(adj) && |adj| == b.n
    requires |value| == b.n && forall x :: 0 <= x < b.n ==> |value[x]| == |b.mines|
    requires forall x, j :: 0 <= x < b.n && 0 <= j < |b.mines| ==> value[x][j] == dist(x, j) * dist(x, j)
    ensures |effects| == |b.mines| && forall i :: 0 <= i < |b.mines| ==> effects[i] == MineEffect(b, adj, dist, i)
  {
    effects := [];
    for i := 0 to |b.mines|
      invariant |effects| == i && forall k :: 0 <= k < i ==> effects[k] == MineEffect(b, adj, dist, k)
    {
      var visited := new bool[b.n](_ => false);
      ghost var before := visited[..];
      Dfs(b.mines[i], adj, visited);
      G.MarkedReach(adj, before, visited[..], b.mines[i]);
      ghost var mask := visited[..];
      assert mask == G.ReachMask(adj, b.mines[i]);
      ghost var col := Column(dist, b.n, i);
      var e := 0;
      for j := 0 to b.n
        invariant e == G.SquareSum(mask[..j], col[..j])
      {
        assert mask[..j + 1][..j] == mask[..j] && col[..j + 1][..j] == col[..j];
        if visited[j] {
          e := e + value[j][i];
        }
      }
      assert mask[..b.n] == mask && col[..b.n] == col;
      effects := effects + [e];
    }
  }

  /**
   * The least effective mine: the first index whose effect is smaller
   * than every earlier one and no larger than any later one, provided it
   * is below `INF`; -1 when there is none.
   */
  method LeastEffective(effects: seq<int>) returns (k: int)
    ensures -1 <= k < |effects|
    ensures k == -1 <==> forall i :: 0 <= i < |effects| ==> effects[i] >= INF
    ensures k != -1 ==>
      effects[k] < INF && (forall i :: 0 <= i < |effects| ==> effects[k] <= effects[i]) &&
      forall i :: 0 <= i < k ==> effects[k] < effects[i]
  {
    k := -1;
    var least := INF;
    for i := 0 to |effects|
      invariant -1 <= k < i
      invariant k == -1 ==> least == INF && forall x :: 0 <= x < i ==> effects[x] >= INF
      invariant k != -1 ==> least == effects[k] < INF && forall x :: 0 <= x < k ==> effects[k] < effects[x]
      invariant forall x :: 0 <= x < i ==> least <= effects[x]
    {
      if effects[i] < least {
        k := i;
        least := effects[i];
      }
    }
  }

  /* ---------------------------------------------------------------- */
  /* The search over free rivers                                        */
  /* ---------------------------------------------------------------- */

  predicate FreeRiver(b: Board, r: int)
  {
    0 <= r < |b.rivers| && b.rivers[r].punter == -1
  }

  /** Entry `j` of site `p` leads to `x` across a free river. */
  ghost predicate FreeEntry(b: Board, p: int, j: int, x: int)
  {
    0 <= p < |b.edges| && 0 <= j < |b.edges[p]| && b.edges[p][j].site == x && FreeRiver(b, b.edges[p][j].river)
  }

  /**
   * The free rivers as a graph: an entry across a free river leads to its
   * site, any other entry back to its own site, which joins nothing new.
   */
  ghost function FreeAdj(b: Board): seq<seq<int>>
  {
    seq(|b.edges|, v requires 0 <= v < |b.edges| =>
      seq(|b.edges[v]|, j requires 0 <= j < |b.edges[v]| =>
        if FreeRiver(b, b.edges[v][j].river) then b.edges[v][j].site as int else v))
  }

  lemma FreeAdjWellFormed(b: Board)
    requires BoardOk(b)
    ensures G.WellFormed(FreeAdj(b)) && |FreeAdj(b)| == b.n
  {
    var adj := FreeAdj(b);
    forall v, w | 0 <= v < |adj| && w in adj[v] ensures 0 <= w < |adj| {
      var j :| 0 <= j < |adj[v]| && adj[v][j] == w;
    }
  }

  /** `x` is reached from some site of `comp` through free rivers. */
  ghost predicate FreeReached(b: Board, comp: seq<bool>, x: int)
  {
    exists c :: 0 <= c < |comp| && comp[c] && x in G.ReachSet(FreeAdj(b), c)
  }

  /** The first `m` entries of `x` that cross a free river lead to visited sites. */
  ghost predicate ClosedAt(b: Board, visited: seq<bool>, x: int, m: int)
    requires 0 <= x < |b.edges| && 0 <= m <= |b.edges[x]|
  {
    forall j :: 0 <= j < m && FreeRiver(b, b.edges[x][j].river) ==>
      0 <= b.edges[x][j].site < |visited| && visited[b.edges[x][j].site]
  }

  /** `x` was reached across a free river from a visited site one closer. */
  ghost predicate HasParent(b: Board, visited: seq<bool>, distance: seq<int>, x: int)
    requires |visited| == |distance| == |b.edges| && 0 <= x < |b.edges|
  {
    exists p, j :: FreeEntry(b, p, j, x) && visited[p] && 0 <= distance[p] && distance[p] + 1 == distance[x]
  }

  /** Every visited site is reached through free rivers from the component. */
  ghost predicate AllReached(b: Board, comp: seq<bool>, visited: seq<bool>)
  {
    forall x :: 0 <= x < |visited| && visited[x] ==> FreeReached(b, comp, x)
  }

  /** Every visited site lies at a distance below the number of visited sites. */
  ghost predicate Bounded(visited: seq<bool>, distance: seq<int>)
    requires |visited| == |distance|
  {
    forall x :: 0 <= x < |visited| && visited[x] ==> 0 <= distance[x] < CountTrue(visited)
  }

  /** Every visited site outside the component has a parent one closer. */
  ghost predicate Parented(b: Board, comp: seq<bool>, visited: seq<bool>, distance: seq<int>)
    requires |comp| == |visited| == |distance| == |b.edges|
  {
    forall x {:trigger HasParent(b, visited, distance, x)} ::
      0 <= x < |visited| && visited[x] && !comp[x] ==> HasParent(b, visited, distance, x)
  }

  /**
   * What the search keeps true of `visited` and `distance`: the component
   * is visited at distance 0, unvisited sites hold `INF`, every visited
   * site is reached through free rivers, at a distance below the number
   * of visited sites, and every visited site outside the component has a
   * parent one closer.
   */
  ghost predicate Spread(b: Board, comp: seq<bool>, visited: seq<bool>, distance: seq<int>)
  {
    |comp| == |visited| == |distance| == b.n == |b.edges| &&
    (forall x :: 0 <= x < b.n && comp[x] ==> visited[x] && distance[x] == 0) &&
    (forall x :: 0 <= x < b.n && !visited[x] ==> distance[x] == INF) &&
    AllReached(b, comp, visited) && Bounded(visited, distance) && Parented(b, comp, visited, distance)
  }

  /**
   * The queue of `(site, distance)` pairs: distinct visited sites not yet
   * expanded, each with its distance; every visited site is expanded or
   * queued, and every expanded site other than `cur` has all its free
   * rivers leading to visited sites.
   */
  ghost predicate Queue(b: Board, visited: seq<bool>, distance: seq<int>, expanded: seq<bool>,
                        q: seq<(int, int)>, cur: int)
  {
    |visited| == |distance| == |expanded| == b.n == |b.edges| &&
    (forall x :: 0 <= x < b.n && expanded[x] ==> visited[x] && (x != cur ==> ClosedAt(b, visited, x, |b.edges[x]|))) &&
    (forall k :: 0 <= k < |q| ==>
       0 <= q[k].0 < b.n && visited[q[k].0] && !expanded[q[k].0] && q[k].1 == distance[q[k].0]) &&
    (forall i, j :: 0 <= i < j < |q| ==> q[i].0 != q[j].0) &&
    (forall x :: 0 <= x < b.n && visited[x] && !expanded[x] ==> exists k :: 0 <= k < |q| && q[k].0 == x)
  }

  lemma CountTrueHas(s: seq<bool>, x: int)
    requires 0 <= x < |s| && s[x]
    ensures CountTrue(s) >= 1
  {
    var one := seq(|s|, _ => false);
    CountTrueNone(one);
    CountTrueSet(one, x);
    CountTrueMono(one[x := true], s);
  }

  /** With every component site queued at distance 0 and nothing expanded, the search may start. */
  lemma SearchStart(b: Board, comp: seq<bool>, distance: seq<int>, q: seq<(int, int)>)
    requires BoardOk(b) && |comp| == |distance| == b.n
    requires forall x :: 0 <= x < b.n ==> distance[x] == if comp[x] then 0 else INF
    requires forall k :: 0 <= k < |q| ==> 0 <= q[k].0 < b.n && comp[q[k].0] && q[k].1 == 0
    requires forall i, j :: 0 <= i < j < |q| ==> q[i].0 < q[j].0
    requires forall x :: 0 <= x < b.n && comp[x] ==> exists k :: 0 <= k < |q| && q[k].0 == x
    ensures Spread(b, comp, comp, distance)
    ensures Queue(b, comp, distance, seq(b.n, _ => false), q, -1)
  {
    forall x | 0 <= x < b.n && comp[x] ensures FreeReached(b, comp, x) && 0 <= distance[x] < CountTrue(comp) {
      G.TrivialWalk(FreeAdj(b), x);
      CountTrueHas(comp, x);
    }
  }

  /** Taking the head of the queue marks it expanded with none of its entries handled yet. */
  lemma SearchPop(b: Board, visited: seq<bool>, distance: seq<int>, expanded: seq<bool>, q: seq<(int, int)>)
    requires Queue(b, visited, distance, expanded, q, -1) && |q| > 0
    ensures var v := q[0].0;
      0 <= v < b.n && !expanded[v] && q[0].1 == distance[v] &&
      Queue(b, visited, distance, expanded[v := true], q[1..], v)
  {
    var v := q[0].0;
    var e := expanded[v := true];
    var q' := q[1..];
    forall x | 0 <= x < b.n && e[x] && x != v ensures visited[x] && ClosedAt(b, visited, x, |b.edges[x]|) {
      assert expanded[x];
    }
    forall k | 0 <= k < |q'|
      ensures 0 <= q'[k].0 < b.n && visited[q'[k].0] && !e[q'[k].0] && q'[k].1 == distance[q'[k].0]
    {
      assert q'[k] == q[k + 1] && q[0].0 != q[k + 1].0;
    }
    forall i, j | 0 <= i < j < |q'| ensures q'[i].0 != q'[j].0 {
      assert q'[i] == q[i + 1] && q'[j] == q[j + 1];
    }
    forall x | 0 <= x < b.n && visited[x] && !e[x] ensures exists k :: 0 <= k < |q'| && q'[k].0 == x {
      var k :| 0 <= k < |q| && q[k].0 == x;
      assert q'[k - 1].0 == x;
    }
  }

  lemma ReachedVisit(b: Board, comp: seq<bool>, visited: seq<bool>, v: int, j: int, x: int)
    requires BoardOk(b) && |visited| == b.n && AllReached(b, comp, visited)
    requires 0 <= v < b.n && visited[v] && FreeEntry(b, v, j, x)
    ensures AllReached(b, comp, visited[x := true])
  {
    FreeAdjWellFormed(b);
    assert FreeAdj(b)[v][j] == x;
    var c :| 0 <= c < |comp| && comp[c] && v in G.ReachSet(FreeAdj(b), c);
    G.ReachClosed(FreeAdj(b), c, v, x);
    assert FreeReached(b, comp, x);
  }

  lemma BoundedVisit(visited: seq<bool>, distance: seq<int>, v: int, x: int)
    requires |visited| == |distance| && Bounded(visited, distance)
    requires 0 <= v < |visited| && visited[v] && 0 <= x < |visited| && !visited[x]
    ensures Bounded(visited[x := true], distance[x := distance[v] + 1])
  {
    CountTrueSet(visited, x);
  }

  lemma ParentedVisit(b: Board, comp: seq<bool>, visited: seq<bool>, distance: seq<int>, v: int, j: int, x: int)
    requires |comp| == |visited| == |distance| == |b.edges| && Parented(b, comp, visited, distance)
    requires 0 <= v < |visited| && visited[v] && 0 <= distance[v] && FreeEntry(b, v, j, x)
    requires 0 <= x < |visited| && !visited[x]
    ensures Parented(b, comp, visited[x := true], distance[x := distance[v] + 1])
  {
    var visited' := visited[x := true];
    var distance' := distance[x := distance[v] + 1];
    forall y | 0 <= y < |visited'| && visited'[y] && !comp[y] ensures HasParent(b, visited', distance', y) {
      if y == x {
        assert FreeEntry(b, v, j, y) && visited'[v] && distance'[v] + 1 == distance'[y];
      } else {
        assert HasParent(b, visited, distance, y);
        var p, i :| FreeEntry(b, p, i, y) && visited[p] && 0 <= distance[p] && distance[p] + 1 == distance[y];
        assert FreeEntry(b, p, i, y) && visited'[p] && 0 <= distance'[p] && distance'[p] + 1 == distance'[y];
      }
    }
  }

  /** Visiting `x`, unvisited and across free entry `j` of the visited `v`, keeps the spread. */
  lemma SpreadVisit(b: Board, comp: seq<bool>, visited: seq<bool>, distance: seq<int>, v: int, j: int, x: int)
    requires BoardOk(b) && Spread(b, comp, visited, distance)
    requires 0 <= v < b.n && visited[v] && FreeEntry(b, v, j, x) && !visited[x]
    ensures Spread(b, comp, visited[x := true], distance[x := distance[v] + 1])
  {
    ReachedVisit(b, comp, visited, v, j, x);
    BoundedVisit(visited, distance, v, x);
    ParentedVisit(b, comp, visited, distance, v, j, x);
  }

  /** Visiting `x`, unvisited and across free entry `j` of `v`, queues it and closes entry `j`. */
  lemma QueueVisit(b: Board, visited: seq<bool>, distance: seq<int>, expanded: seq<bool>,
                   q: seq<(int, int)>, v: int, j: int, x: int, d: int)
    requires BoardOk(b) && Queue(b, visited, distance, expanded, q, v)
    requires 0 <= v < b.n && 0 <= j < |b.edges[v]| && ClosedAt(b, visited, v, j)
    requires FreeEntry(b, v, j, x) && !visited[x]
    ensures var visited' := visited[x := true];
      var distance' := distance[x := d];
      Queue(b, visited', distance', expanded, q + [(x, d)], v) &&
      ClosedAt(b, visited', v, j + 1)
  {
    var visited' := visited[x := true];
    forall y | 0 <= y < b.n && expanded[y] && y != v ensures ClosedAt(b, visited', y, |b.edges[y]|) {
      ClosedGrow(b, visited, y, |b.edges[y]|, x);
    }
    ClosedGrow(b, visited, v, j, x);
    QueuePush(b, visited, distance, expanded, q, v, x, d);
  }

  /** Marking one more site keeps a site's first `m` entries closed. */
  lemma ClosedGrow(b: Board, visited: seq<bool>, y: int, m: int, x: int)
    requires 0 <= y < |b.edges| && 0 <= m <= |b.edges[y]| && 0 <= x < |visited| && ClosedAt(b, visited, y, m)
    ensures ClosedAt(b, visited[x := true], y, m)
  {
  }

  /** The queue's part of `Queue` after an unvisited, unexpanded `x` is marked and pushed. */
  lemma QueuePush(b: Board, visited: seq<bool>, distance: seq<int>, expanded: seq<bool>,
                  q: seq<(int, int)>, v: int, x: int, d: int)
    requires BoardOk(b) && Queue(b, visited, distance, expanded, q, v)
    requires 0 <= x < b.n && !visited[x]
    ensures var visited', distance', q' := visited[x := true], distance[x := d], q + [(x, d)];
      (forall k :: 0 <= k < |q'| ==>
         0 <= q'[k].0 < b.n && visited'[q'[k].0] && !expanded[q'[k].0] && q'[k].1 == distance'[q'[k].0]) &&
      (forall i, k :: 0 <= i < k < |q'| ==> q'[i].0 != q'[k].0) &&
      (forall y :: 0 <= y < b.n && visited'[y] && !expanded[y] ==> exists k :: 0 <= k < |q'| && q'[k].0 == y)
  {
    var visited', distance', q' := visited[x := true], distance[x := d], q + [(x, d)];
    forall k | 0 <= k < |q'|
      ensures 0 <= q'[k].0 < b.n && visited'[q'[k].0] && !expanded[q'[k].0] && q'[k].1 == distance'[q'[k].0]
    {
      if k < |q| {
        assert q'[k] == q[k];
      }
    }
    forall i, k | 0 <= i < k < |q'| ensures q'[i].0 != q'[k].0 {
      assert q'[i] == q[i];
    }
    forall y | 0 <= y < b.n && visited'[y] && !expanded[y] ensures exists k :: 0 <= k < |q'| && q'[k].0 == y {
      if y == x {
        assert q'[|q|].0 == y;
      } else {
        var k :| 0 <= k < |q| && q[k].0 == y;
        assert q'[k].0 == y;
      }
    }
  }

  /** With the queue empty every visited site is closed, so the visited sites are exactly those reached. */
  lemma SearchDone(b: Board, comp: seq<bool>, visited: seq<bool>, distance: seq<int>, expanded: seq<bool>)
    requires BoardOk(b) && Spread(b, comp, visited, distance) && Queue(b, visited, distance, expanded, [], -1)
    ensures forall x :: 0 <= x < b.n ==> (visited[x] <==> FreeReached(b, comp, x))
  {
    var adj := FreeAdj(b);
    FreeAdjWellFormed(b);
    forall x, w | 0 <= x < b.n && visited[x] && w in adj[x] ensures 0 <= w < b.n && visited[w] {
      var j :| 0 <= j < |adj[x]| && adj[x][j] == w;
      assert expanded[x];
    }
    forall x | 0 <= x < b.n && FreeReached(b, comp, x) ensures visited[x] {
      var c :| 0 <= c < |comp| && comp[c] && x in G.ReachSet(adj, c);
      G.ClosedContainsReach(adj, visited, c, x);
    }
  }

  /** Visiting `x`, unvisited and across free entry `j` of the visited `v`, keeps the spread and the queue. */
  lemma SearchVisit(b: Board, comp: seq<bool>, visited: seq<bool>, distance: seq<int>, expanded: seq<bool>,
                    q: seq<(int, int)>, v: int, j: int, x: int, nd: int)
    requires BoardOk(b) && Spread(b, comp, visited, distance) && Queue(b, visited, distance, expanded, q, v)
    requires 0 <= v < b.n && visited[v] && 0 <= j < |b.edges[v]| && ClosedAt(b, visited, v, j)
    requires FreeEntry(b, v, j, x) && !visited[x] && nd == distance[v] + 1
    ensures Spread(b, comp, visited[x := true], distance[x := nd])
    ensures Queue(b, visited[x := true], distance[x := nd], expanded, q + [(x, nd)], v)
    ensures ClosedAt(b, visited[x := true], v, j + 1)
  {
    QueueVisit(b, visited, distance, expanded, q, v, j, x, nd);
    SpreadVisit(b, comp, visited, distance, v, j, x);
  }

  lemma ClosedStep(b: Board, visited: seq<bool>, v: int, j: int)
    requires BoardOk(b) && |visited| == b.n && 0 <= v < b.n && 0 <= j < |b.edges[v]| && ClosedAt(b, visited, v, j)
    requires visited[b.edges[v][j].site] || !FreeRiver(b, b.edges[v][j].river)
    ensures ClosedAt(b, visited, v, j + 1)
  {
  }

  /** The site across entry `j` of `v`, unvisited and across a free river, is visited one further. */
  method VisitEntry(b: Board, ghost comp: seq<bool>, v: int, j: int, d: int, visited0: seq<bool>,
                    distance0: seq<int>, q0: seq<(int, int)>, ghost expanded: seq<bool>)
    returns (visited: seq<bool>, distance: seq<int>, q: seq<(int, int)>)
    requires BoardOk(b) && Spread(b, comp, visited0, distance0) && Queue(b, visited0, distance0, expanded, q0, v)
    requires 0 <= v < b.n && 0 <= j < |b.edges[v]| && ClosedAt(b, visited0, v, j) && distance0[v] == d
    requires visited0[v] && !visited0[b.edges[v][j].site] && FreeRiver(b, b.edges[v][j].river)
    ensures Spread(b, comp, visited, distance) && Queue(b, visited, distance, expanded, q, v)
    ensures ClosedAt(b, visited, v, j + 1) && distance[v] == d && visited[v]
  {
    var x := b.edges[v][j].site;
    SearchVisit(b, comp, visited0, distance0, expanded, q0, v, j, x, d + 1);
    visited := visited0[x := true];
    distance := distance0[x := d + 1];
    q := q0 + [(x, d + 1)];
  }

  /** Entry `j` of the expanded `v`: its site, unvisited across a free river, goes one further. */
  method ExpandEntry(b: Board, ghost comp: seq<bool>, v: int, j: int, d: int, visited0: seq<bool>,
                     distance0: seq<int>, q0: seq<(int, int)>, ghost expanded: seq<bool>)
    returns (visited: seq<bool>, distance: seq<int>, q: seq<(int, int)>)
    requires BoardOk(b) && Spread(b, comp, visited0, distance0) && Queue(b, visited0, distance0, expanded, q0, v)
    requires 0 <= v < b.n && 0 <= j < |b.edges[v]| && ClosedAt(b, visited0, v, j) && distance0[v] == d
    requires visited0[v]
    ensures Spread(b, comp, visited, distance) && Queue(b, visited, distance, expanded, q, v)
    ensures ClosedAt(b, visited, v, j + 1) && distance[v] == d && visited[v]
  {
    var e := b.edges[v][j];
    if visited0[e.site] || b.rivers[e.river].punter != -1 {
      ClosedStep(b, visited0, v, j);
      visited, distance, q := visited0, distance0, q0;
    } else {
      visited, distance, q := VisitEntry(b, comp, v, j, d, visited0, distance0, q0, expanded);
    }
  }

  /** Once every entry of `v` is handled, `v` is closed like every other expanded site. */
  lemma QueueClose(b: Board, visited: seq<bool>, distance: seq<int>, expanded: seq<bool>, q: seq<(int, int)>, v: int)
    requires Queue(b, visited, distance, expanded, q, v) && 0 <= v < b.n && ClosedAt(b, visited, v, |b.edges[v]|)
    ensures Queue(b, visited, distance, expanded, q, -1)
  {
  }

  /** The inner loop of the search: every unvisited site across a free river of `v` goes one further. */
  method ExpandFree(b: Board, ghost comp: seq<bool>, v: int, d: int, visited0: seq<bool>, distance0: seq<int>,
                    q0: seq<(int, int)>, ghost expanded: seq<bool>)
    returns (visited: seq<bool>, distance: seq<int>, q: seq<(int, int)>)
    requires BoardOk(b) && Spread(b, comp, visited0, distance0) && Queue(b, visited0, distance0, expanded, q0, v)
    requires 0 <= v < b.n && expanded[v] && d == distance0[v]
    ensures Spread(b, comp, visited, distance) && Queue(b, visited, distance, expanded, q, -1)
  {
    visited, distance, q := visited0, distance0, q0;
    for j := 0 to |b.edges[v]|
      invariant Spread(b, comp, visited, distance) && Queue(b, visited, distance, expanded, q, v)
      invariant ClosedAt(b, visited, v, j) && distance[v] == d && visited[v]
    {
      visited, distance, q := ExpandEntry(b, comp, v, j, d, visited, distance, q, expanded);
    }
    QueueClose(b, visited, distance, expanded, q, v);
  }

  /**
   * The search from the least effective mine's component: the component
   * at distance 0, then one step further across each free river to an
   * unvisited site. It visits exactly the sites free rivers reach from the
   * component, each at a distance below the number of sites.
   */
  method FreeSearch(b: Board, comp: seq<bool>) returns (visited: seq<bool>, distance: seq<int>)
    requires BoardOk(b) && |comp| == b.n
    ensures Spread(b, comp, visited, distance)
    ensures forall x :: 0 <= x < b.n ==> (visited[x] <==> FreeReached(b, comp, x))
  {
    var n := b.n;
    visited := comp;
    var q;
    distance, q := SeedQueue(comp);
    SearchStart(b, comp, distance, q);
    ghost var expanded := seq(n, _ => false);
    while |q| != 0
      invariant Spread(b, comp, visited, distance) && Queue(b, visited, distance, expanded, q, -1)
      decreases n - CountTrue(expanded)
    {
      var v := q[0].0;
      var d := q[0].1;
      SearchPop(b, visited, distance, expanded, q);
      CountTrueSet(expanded, v);
      expanded := expanded[v := true];
      CountTrueBound(expanded);
      q := q[1..];
      visited, distance, q := ExpandFree(b, comp, v, d, visited, distance, q, expanded);
    }
    SearchDone(b, comp, visited, distance, expanded);
  }

  /** The first loop of the search: every site of the component queued at distance 0, in site order; the rest at `INF`. */
  method SeedQueue(comp: seq<bool>) returns (distance: seq<int>, q: seq<(int, int)>)
    ensures |distance| == |comp|
    ensures forall x :: 0 <= x < |comp| ==> distance[x] == if comp[x] then 0 else INF
    ensures forall k :: 0 <= k < |q| ==> 0 <= q[k].0 < |comp| && comp[q[k].0] && q[k].1 == 0
    ensures forall a, c :: 0 <= a < c < |q| ==> q[a].0 < q[c].0
    ensures forall x :: 0 <= x < |comp| && comp[x] ==> exists k :: 0 <= k < |q| && q[k].0 == x
  {
    var n := |comp|;
    distance := seq(n, _ => INF);
    q := [];
    ghost var pos: seq<int> := seq(n, _ => 0);
    for i := 0 to n
      invariant |distance| == n && |pos| == n
      invariant forall x :: 0 <= x < n ==> distance[x] == if x < i && comp[x] then 0 else INF
      invariant forall k :: 0 <= k < |q| ==> 0 <= q[k].0 < i && comp[q[k].0] && q[k].1 == 0
      invariant forall a, c :: 0 <= a < c < |q| ==> q[a].0 < q[c].0
      invariant forall x :: 0 <= x < i && comp[x] ==> 0 <= pos[x] < |q| && q[pos[x]].0 == x
    {
      if comp[i] {
        distance := distance[i := 0];
        pos := pos[i := |q|];
        q := q + [(i, 0)];
      }
    }
    forall x | 0 <= x < n && comp[x] ensures exists k :: 0 <= k < |q| && q[k].0 == x {
      assert q[pos[x]].0 == x;
    }
  }

  /* ---------------------------------------------------------------- */
  /* The walk back from the target                                      */
  /* ---------------------------------------------------------------- */

  /** Entry `j` of `v` crosses a free river to a site at distance `d - 1`. */
  predicate Descends(b: Board, distance: seq<int>, v: int, j: int, d: int)
    requires BoardOk(b) && |distance| == b.n && 0 <= v < b.n && 0 <= j < |b.edges[v]|
  {
    FreeRiver(b, b.edges[v][j].river) && distance[b.edges[v][j].site] == d - 1
  }

  /** Some entry of `x` crosses a free river one step down. */
  ghost predicate HasDescent(b: Board, distance: seq<int>, x: int)
    requires BoardOk(b) && |distance| == b.n && 0 <= x < b.n
  {
    exists j :: 0 <= j < |b.edges[x]| && Descends(b, distance, x, j, distance[x])
  }

  /**
   * What the walk back relies on: a distance is `INF` or below the number
   * of sites, it is 0 exactly on the component, and every site at a finite
   * positive distance has a free river down to a site one closer.
   */
  ghost predicate Graded(b: Board, comp: seq<bool>, distance: seq<int>)
    requires BoardOk(b)
  {
    |comp| == |distance| == b.n &&
    (forall x :: 0 <= x < b.n ==> distance[x] == INF || 0 <= distance[x] < b.n) &&
    (forall x :: 0 <= x < b.n ==> (distance[x] == 0 <==> comp[x])) &&
    forall x {:trigger HasDescent(b, distance, x)} :: 0 <= x < b.n && 0 < distance[x] < INF ==> HasDescent(b, distance, x)
  }

  /** Seen from its own side, a visited site's parent is a free river down one step. */
  lemma SpreadIsGraded(b: Board, comp: seq<bool>, visited: seq<bool>, distance: seq<int>)
    requires BoardOk(b) && Symmetric(b) && Spread(b, comp, visited, distance) && b.n < INF
    ensures Graded(b, comp, distance)
  {
    CountTrueBound(visited);
    forall x | 0 <= x < b.n && visited[x] && !comp[x] ensures 0 < distance[x] && HasDescent(b, distance, x) {
      assert HasParent(b, visited, distance, x);
      var p, i :| FreeEntry(b, p, i, x) && visited[p] && 0 <= distance[p] && distance[p] + 1 == distance[x];
      var j :| 0 <= j < |b.edges[x]| && b.edges[x][j] == Edge(p, b.edges[p][i].river);
      assert Descends(b, distance, x, j, distance[x]);
    }
  }

  /** Pair `i` of `path` starts where the previous one ended (at `target` first) and goes one free river down. */
  ghost predicate StepAt(b: Board, distance: seq<int>, target: int, path: seq<(int, int)>, i: int)
    requires BoardOk(b) && |distance| == b.n && 0 <= i < |path|
  {
    0 <= path[i].0 < b.n && path[i].0 == (if i == 0 then target else path[i - 1].1) &&
    exists j :: 0 <= j < |b.edges[path[i].0]| && b.edges[path[i].0][j].site == path[i].1 &&
      Descends(b, distance, path[i].0, j, distance[path[i].0])
  }

  /** The pairs `(v, nv)` the walk pushes, from `target` down to the component, one free river each. */
  ghost predicate StepsBack(b: Board, distance: seq<int>, target: int, path: seq<(int, int)>)
    requires BoardOk(b) && |distance| == b.n
  {
    forall i :: 0 <= i < |path| ==> StepAt(b, distance, target, path, i)
  }

  /** One more step down from where the walk stands keeps it a walk down. */
  lemma StepsExtend(b: Board, distance: seq<int>, target: int, path: seq<(int, int)>, v: int, k: int)
    requires BoardOk(b) && |distance| == b.n && StepsBack(b, distance, target, path)
    requires 0 <= v < b.n && v == (if path == [] then target else path[|path| - 1].1)
    requires 0 <= k < |b.edges[v]| && Descends(b, distance, v, k, distance[v])
    ensures StepsBack(b, distance, target, path + [(v, b.edges[v][k].site as int)])
  {
    var path' := path + [(v, b.edges[v][k].site as int)];
    forall i | 0 <= i < |path'| ensures StepAt(b, distance, target, path', i) {
      if i < |path| {
        assert StepAt(b, distance, target, path, i);
        assert path'[i] == path[i];
        if i > 0 {
          assert path'[i - 1] == path[i - 1];
        }
      } else {
        assert path'[i] == (v, b.edges[v][k].site as int);
        if i > 0 {
          assert path'[i - 1] == path[|path| - 1];
        }
        assert b.edges[path'[i].0][k].site == path'[i].1 && Descends(b, distance, path'[i].0, k, distance[path'[i].0]);
      }
    }
  }

  /** The first entry of `v` across a free river to a site at distance `d - 1`, or -1. */
  method FirstDescent(b: Board, distance: seq<int>, v: int, d: int) returns (k: int)
    requires BoardOk(b) && |distance| == b.n && 0 <= v < b.n
    ensures -1 <= k < |b.edges[v]|
    ensures k == -1 <==> forall j :: 0 <= j < |b.edges[v]| ==> !Descends(b, distance, v, j, d)
    ensures k != -1 ==> Descends(b, distance, v, k, d) && forall j :: 0 <= j < k ==> !Descends(b, distance, v, j, d)
  {
    for j := 0 to |b.edges[v]|
      invariant forall i :: 0 <= i < j ==> !Descends(b, distance, v, i, d)
    {
      var e := b.edges[v][j];
      if b.rivers[e.river].punter != -1 {
        continue;
      }
      if distance[e.site] == d - 1 {
        assert Descends(b, distance, v, j, d);
        return j;
      }
    }
    return -1;
  }

  /** Why `Run` can give no move. */
  datatype Stuck =
    | NoMine  // no mine's effect is below `INF`: the mine list is read at index -1
    | Spins   // the target has no way down: the walk back never ends

  /**
   * The walk back: from `target`, repeatedly the first free river down
   * one step, until the component. A target the search never reached
   * (at `INF`) has no such river, and there the source loops forever.
   */
  method WalkBack(b: Board, ghost comp: seq<bool>, distance: seq<int>, target: int)
    returns (r: Result<seq<(int, int)>, Stuck>)
    requires BoardOk(b) && b.n < INF && Graded(b, comp, distance) && 0 <= target < b.n
    ensures r.Err? <==> distance[target] == INF
    ensures r.Err? ==> r.error == Spins
    ensures r.Ok? ==> |r.value| == distance[target] && StepsBack(b, distance, target, r.value)
    ensures r.Ok? && r.value != [] ==>
      var last := r.value[|r.value| - 1];
      0 <= last.0 < b.n && 0 <= last.1 < b.n && comp[last.1] && !comp[last.0] &&
      last.0 in G.ReachSet(FreeAdj(b), target)
  {
    var v := target;
    var d := distance[target];
    var path: seq<(int, int)> := [];
    FreeAdjWellFormed(b);
    G.TrivialWalk(FreeAdj(b), target);
    while d > 0
      invariant 0 <= v < b.n && d == distance[v] && (d == INF || 0 <= d < b.n)
      invariant distance[target] == INF <==> d == INF
      invariant d == INF ==> path == [] && v == target
      invariant d != INF ==> |path| == distance[target] - d
      invariant StepsBack(b, distance, target, path)
      invariant v == if path == [] then target else path[|path| - 1].1
      invariant path != [] ==> 0 <= path[|path| - 1].0 < b.n && distance[path[|path| - 1].0] == d + 1
      invariant path != [] ==> path[|path| - 1].0 in G.ReachSet(FreeAdj(b), target)
      invariant v in G.ReachSet(FreeAdj(b), target)
      decreases d
    {
      if d < INF {
        assert HasDescent(b, distance, v);
      }
      var k := FirstDescent(b, distance, v, d);
      if k == -1 {
        return Err(Spins);
      }
      StepsExtend(b, distance, target, path, v, k);
      var nv := b.edges[v][k].site as int;
      assert FreeAdj(b)[v][k] == nv;
      G.ReachClosed(FreeAdj(b), target, v, nv);
      path := path + [(v, nv)];
      d := d - 1;
      v := nv;
    }
    if path != [] {
      var last := path[|path| - 1];
      assert distance[last.1] == 0 && distance[last.0] == 1;
      assert comp[last.1] && !comp[last.0];
    }
    return Ok(path);
  }

  /* ---------------------------------------------------------------- */
  /* The value of each site and the target                              */
  /* ---------------------------------------------------------------- */

  /** Among the first `m` entries of `i`: sites the search left unvisited, across our own or a free river. */
  function OpenNeighbours(b: Board, visited: seq<bool>, i: int, m: int): nat
    requires BoardOk(b) && |visited| == b.n && 0 <= i < b.n && 0 <= m <= |b.edges[i]|
  {
    if m == 0 then 0
    else
      var e := b.edges[i][m - 1];
      OpenNeighbours(b, visited, i, m - 1) + if !visited[e.site] && Kept(OwnOrFree, b.me, b.rivers[e.river]) then 1 else 0
  }

  /**
   * `site_values[i]`: nothing for a site of the component or one our own
   * and free rivers cannot reach; otherwise a bonus for a site joined to
   * some mine, less its distance, plus its worth to all mines scaled by
   * half its open neighbours.
   */
  ghost function SiteValue(b: Board, value: seq<seq<int>>, comp: seq<bool>, covered: seq<bool>, reach: seq<bool>,
                           visited: seq<bool>, distance: seq<int>, i: int): int
    requires BoardOk(b) && |value| == |comp| == |covered| == |reach| == |visited| == |distance| == b.n
    requires 0 <= i < b.n
  {
    if comp[i] || !reach[i] then 0
    else
      (if covered[i] then 1000000 - distance[i] else 0) +
      Sum(value[i]) * (1 + OpenNeighbours(b, visited, i, |b.edges[i]|) / 2)
  }

  method SiteValues(b: Board, value: seq<seq<int>>, comp: seq<bool>, covered: seq<bool>, reach: seq<bool>,
                    visited: seq<bool>, distance: seq<int>) returns (values: seq<int>)
    requires BoardOk(b) && |value| == |comp| == |covered| == |reach| == |visited| == |distance| == b.n
    ensures |values| == b.n
    ensures forall i :: 0 <= i < b.n ==> values[i] == SiteValue(b, value, comp, covered, reach, visited, distance, i)
  {
    values := seq(b.n, _ => 0);
    for i := 0 to b.n
      invariant |values| == b.n
      invariant forall x :: 0 <= x < i ==> values[x] == SiteValue(b, value, comp, covered, reach, visited, distance, x)
      invariant forall x :: i <= x < b.n ==> values[x] == 0
    {
      if comp[i] {
        continue;
      }
      if !reach[i] {
        continue;
      }
      if covered[i] {
        values := values[i := values[i] + 1000000 - distance[i]];
      }
      var open := 0;
      for j := 0 to |b.edges[i]|
        invariant open == OpenNeighbours(b, visited, i, j)
      {
        var e := b.edges[i][j];
        if visited[e.site] {
          continue;
        }
        if b.rivers[e.river].punter != -1 && b.rivers[e.river].punter != b.me {
          continue;
        }
        open := open + 1;
      }
      values := values[i := values[i] + Sum(value[i]) * (1 + open / 2)];
    }
  }

  /** `t` holds the largest value, and is the first that does. */
  predicate FirstMax(values: seq<int>, t: int)
  {
    0 <= t < |values| && (forall i :: 0 <= i < |values| ==> values[i] <= values[t]) &&
    forall i :: 0 <= i < t ==> values[i] < values[t]
  }

  /** The target: the first site of largest value, starting from a best score of -1. */
  method BestTarget(values: seq<int>) returns (t: int, best: int)
    ensures t == -1 <==> forall i :: 0 <= i < |values| ==> values[i] < 0
    ensures t == -1 ==> best == -1
    ensures t != -1 ==> FirstMax(values, t) && best == values[t]
  {
    t, best := -1, -1;
    for i := 0 to |values|
      invariant -1 <= t < i
      invariant t == -1 ==> best == -1 && forall x :: 0 <= x < i ==> values[x] < 0
      invariant t != -1 ==> best == values[t] >= 0 && forall x :: 0 <= x < t ==> values[x] < best
      invariant forall x :: 0 <= x < i ==> values[x] <= best
    {
      if best < values[i] {
        best := values[i];
        t := i;
      }
    }
  }

  /* ---------------------------------------------------------------- */
  /* The turn                                                           */
  /* ---------------------------------------------------------------- */

  /** Our own rivers, and our own or free rivers, as adjacency lists. */
  ghost function OwnAdj(b: Board): seq<seq<int>>
    requires RiversOnMap(b)
  {
    AdjacencyOf(b, Own, |b.rivers|)
  }

  ghost function OpenAdj(b: Board): seq<seq<int>>
    requires RiversOnMap(b)
  {
    AdjacencyOf(b, OwnOrFree, |b.rivers|)
  }

  /** Mine `k` is the least effective one: below `INF`, no more than any, less than every earlier one. */
  ghost predicate LeastMine(b: Board, dist: (int, nat) -> int, k: int)
    requires RiversOnMap(b)
  {
    0 <= k < |b.mines| && b.mines[k] < b.n && MineEffect(b, OwnAdj(b), dist, k) < INF &&
    (forall i :: 0 <= i < |b.mines| ==> MineEffect(b, OwnAdj(b), dist, k) <= MineEffect(b, OwnAdj(b), dist, i)) &&
    forall i :: 0 <= i < k ==> MineEffect(b, OwnAdj(b), dist, k) < MineEffect(b, OwnAdj(b), dist, i)
  }

  /** The worth table, the sites joined to some mine, and the sites the free search reaches. */
  ghost function ValueTable(b: Board, dist: (int, nat) -> int): seq<seq<int>>
  {
    seq(b.n, i => seq(|b.mines|, j requires 0 <= j < |b.mines| => dist(i, j) * dist(i, j)))
  }

  ghost function CoveredMask(b: Board): seq<bool>
    requires RiversOnMap(b)
  {
    seq(b.n, x => exists i :: 0 <= i < |b.mines| && x in G.ReachSet(OwnAdj(b), b.mines[i]))
  }

  ghost function FreeMask(b: Board, comp: seq<bool>): seq<bool>
  {
    seq(b.n, x => FreeReached(b, comp, x))
  }

  /** A claim from outside the component across a free river into it, on the target's free way down. */
  ghost predicate ClaimsInto(b: Board, comp: seq<bool>, t: int, m: GameMove)
    requires BoardOk(b) && |comp| == b.n
  {
    m == Claim(b.me, m.source, m.target) && 0 <= m.source < b.n && 0 <= m.target < b.n &&
    !comp[m.source] && comp[m.target] && m.source in G.ReachSet(FreeAdj(b), t) &&
    (exists j :: FreeEntry(b, m.source, j, m.target)) && Legal(b.me, b.rivers, m)
  }

  /** The last pair of the walk crosses a free river: claiming it is a legal move. */
  lemma ClaimLegal(b: Board, distance: seq<int>, src: int, tgt: int, m: GameMove)
    requires BoardOk(b) && |distance| == b.n && 0 <= src < b.n && m == Claim(b.me, src, tgt)
    requires exists j :: 0 <= j < |b.edges[src]| && b.edges[src][j].site == tgt && Descends(b, distance, src, j, distance[src])
    ensures (exists j :: FreeEntry(b, src, j, tgt)) && Legal(b.me, b.rivers, m)
  {
    var j :| 0 <= j < |b.edges[src]| && b.edges[src][j].site == tgt && Descends(b, distance, src, j, distance[src]);
    assert FreeEntry(b, src, j, tgt);
    var i := b.edges[src][j].river;
    assert Ends(b.rivers[i], m.source, m.target);
  }

  /** One search from `site` on fresh marks: exactly the sites reachable from it. */
  method Component(adj: seq<seq<int>>, site: int) returns (mask: seq<bool>)
    requires G.WellFormed(adj) && 0 <= site < |adj|
    ensures mask == G.ReachMask(adj, site) && mask[site]
  {
    var mark := new bool[|adj|](_ => false);
    ghost var before := mark[..];
    Dfs(site, adj, mark);
    G.MarkedReach(adj, before, mark[..], site);
    mask := mark[..];
    assert forall x :: 0 <= x < |adj| ==> mask[x] == G.ReachMask(adj, site)[x];
  }

  /**
   * The first half of `Run`: the worth table, our own rivers, the sites
   * joined to some mine, each mine's effect, and the least effective mine
   * (-1 when none is below `INF`).
   */
  method ChooseMine(b: Board, dist: (int, nat) -> int)
    returns (least: int, value: seq<seq<int>>, adj: seq<seq<int>>, covered: seq<bool>)
    requires BoardOk(b) && RiversOnMap(b)
    ensures value == ValueTable(b, dist) && adj == OwnAdj(b) && covered == CoveredMask(b) && G.WellFormed(adj)
    ensures least == -1 <==> forall i :: 0 <= i < |b.mines| ==> MineEffect(b, OwnAdj(b), dist, i) >= INF
    ensures least != -1 ==> LeastMine(b, dist, least)
  {
    value := Values(b.n, |b.mines|, dist);
    assert forall i :: 0 <= i < b.n ==> value[i] == ValueTable(b, dist)[i];
    adj := Adjacency(b, Own);
    covered := CoveredByMines(b, adj);
    assert forall x :: 0 <= x < b.n ==> covered[x] == CoveredMask(b)[x];
    var effects := Effects(b, adj, value, dist);
    least := LeastEffective(effects);
  }

  /**
   * The second half of `Run`, from the least effective mine: its
   * component, the free search, the sites our own and free rivers reach,
   * and every site's value.
   */
  method Survey(b: Board, dist: (int, nat) -> int, k: int, value: seq<seq<int>>, adj: seq<seq<int>>,
                covered: seq<bool>)
    returns (comp: seq<bool>, visited: seq<bool>, distance: seq<int>, values: seq<int>)
    requires BoardOk(b) && RiversOnMap(b) && Symmetric(b) && b.n < INF && LeastMine(b, dist, k)
    requires value == ValueTable(b, dist) && adj == OwnAdj(b) && covered == CoveredMask(b) && G.WellFormed(adj)
    ensures comp == G.ReachMask(OwnAdj(b), b.mines[k]) && comp[b.mines[k]]
    ensures visited == FreeMask(b, comp) && Spread(b, comp, visited, distance) && Graded(b, comp, distance)
    ensures |values| == b.n
    ensures forall i :: 0 <= i < b.n ==>
      values[i] == SiteValue(b, value, comp, covered, G.ReachMask(OpenAdj(b), b.mines[k]), visited, distance, i)
  {
    var mine := b.mines[k];
    comp := Component(adj, mine);
    visited, distance := FreeSearch(b, comp);
    assert visited == FreeMask(b, comp);
    SpreadIsGraded(b, comp, visited, distance);
    var adj2 := Adjacency(b, OwnOrFree);
    var reach := Component(adj2, mine);
    values := SiteValues(b, value, comp, covered, reach, visited, distance);
  }

  /**
   * The end of `Run`, once the target `t` is chosen: a best score of 0
   * passes; otherwise the walk back from `t` spins or yields the pair
   * whose river enters the component, and that river is claimed.
   */
  method Move(b: Board, ghost comp: seq<bool>, ghost visited: seq<bool>, distance: seq<int>, ghost values: seq<int>,
              t: int, best: int)
    returns (r: Result<GameMove, Stuck>)
    requires BoardOk(b) && b.n < INF && Spread(b, comp, visited, distance) && Graded(b, comp, distance)
    requires visited == FreeMask(b, comp) && |values| == b.n && 0 <= t < b.n && best == values[t]
    requires comp[t] ==> values[t] == 0
    ensures r != Err(NoMine)
    ensures r == Ok(Pass(b.me)) <==> values[t] == 0
    ensures r == Err(Spins) <==> values[t] != 0 && !FreeReached(b, comp, t)
    ensures r.Ok? && values[t] != 0 ==> ClaimsInto(b, comp, t, r.value)
  {
    if best == 0 {
      return Ok(Pass(b.me));
    }
    CountTrueBound(visited);
    var walk := WalkBack(b, comp, distance, t);
    if walk.Err? {
      return Err(Spins);
    }
    var path := walk.value;
    if path == [] {
      assert false;
      return Ok(Pass(b.me));
    }
    var src := path[|path| - 1].0;
    var tgt := path[|path| - 1].1;
    assert StepAt(b, distance, t, path, |path| - 1);
    var m := Claim(b.me, src, tgt);
    ClaimLegal(b, distance, src, tgt, m);
    r := Ok(m);
  }

  /**
   * `FriendlyPunter::Run`. With no mine below `INF` there is no move.
   * Otherwise, from the least effective mine `k`'s component, the free
   * search gives the distances, every site gets its value, and `t` is the
   * first of largest value: a value of 0 passes; a target the search never
   * reached leaves the walk back spinning; any other target yields the
   * claim of the free river that enters the component on its way down.
   */
  method Run(b: Board, dist: (int, nat) -> int)
    returns (r: Result<GameMove, Stuck>, ghost k: int, ghost t: int, ghost values: seq<int>,
             ghost distance: seq<int>)
    requires BoardOk(b) && RiversOnMap(b) && Symmetric(b) && b.n < INF
    ensures r == Err(NoMine) <==> forall i :: 0 <= i < |b.mines| ==> MineEffect(b, OwnAdj(b), dist, i) >= INF
    ensures r != Err(NoMine) ==> LeastMine(b, dist, k)
    ensures r != Err(NoMine) && LeastMine(b, dist, k) ==>
      var comp := G.ReachMask(OwnAdj(b), b.mines[k]);
      Spread(b, comp, FreeMask(b, comp), distance) && |values| == b.n &&
      (forall i :: 0 <= i < b.n ==>
         values[i] == SiteValue(b, ValueTable(b, dist), comp, CoveredMask(b), G.ReachMask(OpenAdj(b), b.mines[k]),
                                FreeMask(b, comp), distance, i)) &&
      FirstMax(values, t) &&
      (r == Ok(Pass(b.me)) <==> values[t] == 0) &&
      (r == Err(Spins) <==> values[t] != 0 && !FreeReached(b, comp, t)) &&
      (r.Ok? && values[t] != 0 ==> ClaimsInto(b, comp, t, r.value))
  {
    var least, value, adj, covered := ChooseMine(b, dist);
    if least == -1 {
      return Err(NoMine), -1, -1, [], [];
    }
    k := least;
    var comp, visited, dists, siteValues := Survey(b, dist, least, value, adj, covered);
    distance, values := dists, siteValues;
    var target, best := BestTarget(siteValues);
    t := target;
    assert siteValues[b.mines[least]] == 0;
    r := Move(b, comp, visited, dists, siteValues, target, best);
  }
}
