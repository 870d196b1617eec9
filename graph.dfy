/**
 * Walks, reachability and shortest walks over adjacency lists whose
 * vertices are the dense site indices 0 .. |adj|-1. Every breadth-first
 * and depth-first search of the model is specified with these predicates.
 */
module Graph {
  import opened Wrappers

  /** Every adjacency entry names a vertex of the graph. */
  ghost predicate WellFormed(adj: seq<seq<int>>)
  {
    forall v, w :: 0 <= v < |adj| && w in adj[v] ==> 0 <= w < |adj|
  }

  /** A non-empty sequence of vertices, each an adjacency entry of the previous one. */
  ghost predicate IsWalk(adj: seq<seq<int>>, p: seq<int>)
  {
    |p| > 0 &&
    (forall k :: 0 <= k < |p| ==> 0 <= p[k] < |adj|) &&
    (forall k :: 0 <= k < |p| - 1 ==> p[k + 1] in adj[p[k]])
  }

  ghost predicate WalkBetween(adj: seq<seq<int>>, s: int, v: int, p: seq<int>)
  {
    IsWalk(adj, p) && p[0] == s && p[|p| - 1] == v
  }

  ghost predicate Reachable(adj: seq<seq<int>>, s: int, v: int)
  {
    exists p :: WalkBetween(adj, s, v, p)
  }

  /** `v` is reached from `s` by a walk of `k` edges and by none shorter. */
  ghost predicate Shortest(adj: seq<seq<int>>, s: int, v: int, k: int)
  {
    k >= 0 &&
    (exists p :: WalkBetween(adj, s, v, p) && |p| == k + 1) &&
    (forall p :: WalkBetween(adj, s, v, p) ==> k + 1 <= |p|)
  }

  /**
   * The result of a breadth-first search from `s`: every reachable vertex
   * holds its shortest walk length, every other vertex holds `unreached`.
   */
  ghost predicate DistanceTable(adj: seq<seq<int>>, s: int, dist: seq<int>, unreached: int)
  {
    |dist| == |adj| &&
    forall v :: 0 <= v < |adj| ==>
      if Reachable(adj, s, v) then Shortest(adj, s, v, dist[v]) else dist[v] == unreached
  }

  /** A distance table holds 0 at its source. */
  lemma DistanceAtSource(adj: seq<seq<int>>, s: int, dist: seq<int>, unreached: int)
    requires 0 <= s < |adj| && DistanceTable(adj, s, dist, unreached)
    ensures dist[s] == 0
  {
    TrivialWalk(adj, s);
    assert Shortest(adj, s, s, dist[s]);
  }

  /** The set of vertices reachable from `s`. */
  ghost function ReachSet(adj: seq<seq<int>>, s: int): set<int>
  {
    set v | 0 <= v < |adj| && Reachable(adj, s, v)
  }

  /** The reachable set is closed under adjacency. */
  lemma ReachClosed(adj: seq<seq<int>>, s: int, x: int, w: int)
    requires WellFormed(adj) && 0 <= x < |adj| && x in ReachSet(adj, s) && w in adj[x]
    ensures w in ReachSet(adj, s)
  {
    var p :| WalkBetween(adj, s, x, p);
    ExtendWalk(adj, s, x, p, w);
  }

  /** A walk to `v` followed by an edge of `v` is a walk. */
  lemma ExtendWalk(adj: seq<seq<int>>, s: int, v: int, p: seq<int>, w: int)
    requires WellFormed(adj) && WalkBetween(adj, s, v, p) && w in adj[v]
    ensures WalkBetween(adj, s, w, p + [w])
  {
    var q := p + [w];
    forall k | 0 <= k < |q| - 1 ensures q[k + 1] in adj[q[k]] {
      if k < |p| - 1 {
        assert q[k] == p[k] && q[k + 1] == p[k + 1];
      }
    }
  }

  lemma TrivialWalk(adj: seq<seq<int>>, s: int)
    requires 0 <= s < |adj|
    ensures WalkBetween(adj, s, s, [s])
  {
  }

  /**
   * The visited set `vis` is closed under adjacency and levels grow by at
   * most one along each edge out of it.
   */
  ghost predicate LevelClosed(adj: seq<seq<int>>, vis: seq<bool>, level: seq<int>)
    requires |vis| == |adj| && |level| == |adj|
  {
    forall x, w :: 0 <= x < |adj| && vis[x] && w in adj[x] ==>
      0 <= w < |adj| && vis[w] && level[w] <= level[x] + 1
  }

  /** Dropping the last vertex of a walk of two or more leaves a walk from the same start. */
  lemma WalkPrefix(adj: seq<seq<int>>, p: seq<int>)
    requires IsWalk(adj, p) && |p| > 1
    ensures IsWalk(adj, p[..|p| - 1]) && p[..|p| - 1][0] == p[0]
    ensures p[..|p| - 1][|p| - 2] == p[|p| - 2]
  {
    var q := p[..|p| - 1];
    assert forall k :: 0 <= k < |q| ==> q[k] == p[k];
  }

  /**
   * A vertex set that contains the start of a walk and is closed under
   * adjacency contains the whole walk; with levels that grow by at most one
   * per edge, the level of the walk's end is at most its length.
   */
  lemma {:induction false} LevelBound(adj: seq<seq<int>>, vis: seq<bool>, level: seq<int>, p: seq<int>)
    requires |vis| == |adj| && |level| == |adj| && IsWalk(adj, p)
    requires vis[p[0]] && level[p[0]] <= 0
    requires LevelClosed(adj, vis, level)
    ensures vis[p[|p| - 1]] && level[p[|p| - 1]] <= |p| - 1
    decreases |p|
  {
    if |p| > 1 {
      var q := p[..|p| - 1];
      WalkPrefix(adj, p);
      LevelBound(adj, vis, level, q);
      assert p[|p| - 1] in adj[p[|p| - 2]];
    }
  }

  /** A vertex set closed under adjacency. */
  ghost predicate Closed(adj: seq<seq<int>>, vis: seq<bool>)
    requires |vis| == |adj|
  {
    forall x, w :: 0 <= x < |adj| && vis[x] && w in adj[x] ==> 0 <= w < |adj| && vis[w]
  }

  /** The same, for a membership set without levels. */
  lemma {:induction false} ClosedContainsWalk(adj: seq<seq<int>>, vis: seq<bool>, p: seq<int>)
    requires |vis| == |adj| && IsWalk(adj, p) && vis[p[0]] && Closed(adj, vis)
    ensures vis[p[|p| - 1]]
    decreases |p|
  {
    if |p| > 1 {
      var q := p[..|p| - 1];
      WalkPrefix(adj, p);
      ClosedContainsWalk(adj, vis, q);
      assert p[|p| - 1] in adj[p[|p| - 2]];
    }
  }

  /* Depth-first marking: what a recursive search leaves behind. */

  /** Every site `a` marks, `b` marks too. */
  ghost predicate Grows(a: seq<bool>, b: seq<bool>)
  {
    |a| == |b| && forall x :: 0 <= x < |a| && a[x] ==> b[x]
  }

  /** Every neighbour of `x` is a site `cur` marks. */
  ghost predicate NeighboursMarked(adj: seq<seq<int>>, cur: seq<bool>, x: int)
    requires 0 <= x < |adj|
  {
    forall w :: w in adj[x] ==> 0 <= w < |cur| && cur[w]
  }

  /** Every site `cur` marks and `prev` did not, other than `v`, has all its neighbours marked. */
  ghost predicate ClosedSince(adj: seq<seq<int>>, prev: seq<bool>, cur: seq<bool>, v: int)
  {
    |prev| == |cur| == |adj| &&
    forall x :: 0 <= x < |adj| && x != v && cur[x] && !prev[x] ==> NeighboursMarked(adj, cur, x)
  }

  /** A search's newly closed sites add to those closed before it. */
  lemma ClosedCompose(adj: seq<seq<int>>, entry: seq<bool>, before: seq<bool>, after: seq<bool>, v: int)
    requires ClosedSince(adj, entry, before, v) && ClosedSince(adj, before, after, -1) && Grows(before, after)
    ensures ClosedSince(adj, entry, after, v)
  {
    forall x | 0 <= x < |adj| && x != v && after[x] && !entry[x] ensures NeighboursMarked(adj, after, x) {
      if before[x] {
        assert NeighboursMarked(adj, before, x);
      } else {
        assert NeighboursMarked(adj, after, x);
      }
    }
  }

  /** A search started with nothing marked leaves a mask closed under adjacency. */
  lemma ClosedFromNothing(adj: seq<seq<int>>, prev: seq<bool>, cur: seq<bool>)
    requires ClosedSince(adj, prev, cur, -1) && forall x :: 0 <= x < |prev| ==> !prev[x]
    ensures |cur| == |adj| && Closed(adj, cur)
  {
    forall x, w | 0 <= x < |adj| && cur[x] && w in adj[x] ensures 0 <= w < |adj| && cur[w] {
      assert !prev[x] && NeighboursMarked(adj, cur, x);
    }
  }

  /** Once all of `v`'s neighbours are marked, `v` is closed too. */
  lemma ClosedFinish(adj: seq<seq<int>>, entry: seq<bool>, cur: seq<bool>, v: int)
    requires ClosedSince(adj, entry, cur, v) && 0 <= v < |adj| && PrefixMarked(adj, cur, v, |adj[v]|)
    ensures ClosedSince(adj, entry, cur, -1)
  {
    forall w | w in adj[v] ensures 0 <= w < |cur| && cur[w] {
      var j :| 0 <= j < |adj[v]| && adj[v][j] == w;
    }
  }

  /** The first `i` neighbours of `v` are marked. */
  ghost predicate PrefixMarked(adj: seq<seq<int>>, m: seq<bool>, v: int, i: int)
    requires 0 <= v < |adj| && 0 <= i <= |adj[v]|
  {
    forall j :: 0 <= j < i ==> 0 <= adj[v][j] < |m| && m[adj[v][j]]
  }

  /** Marking the `i`-th neighbour of `v`, and unmarking nothing, extends the marked prefix. */
  lemma PrefixMarkedStep(adj: seq<seq<int>>, before: seq<bool>, after: seq<bool>, v: int, i: int)
    requires 0 <= v < |adj| && 0 <= i < |adj[v]| && PrefixMarked(adj, before, v, i) && Grows(before, after)
    requires 0 <= adj[v][i] < |after| && after[adj[v][i]]
    ensures PrefixMarked(adj, after, v, i + 1)
  {
  }

  /** An edge out of `s` followed by a walk from its far end is a walk from `s`. */
  lemma ReachPrepend(adj: seq<seq<int>>, s: int, w: int, x: int)
    requires 0 <= s < |adj| && w in adj[s] && x in ReachSet(adj, w)
    ensures x in ReachSet(adj, s)
  {
    var p :| WalkBetween(adj, w, x, p);
    var q := [s] + p;
    forall k | 0 <= k < |q| - 1 ensures q[k + 1] in adj[q[k]] {
      if k > 0 {
        assert q[k] == p[k - 1] && q[k + 1] == p[k];
      }
    }
    assert WalkBetween(adj, s, x, q);
  }

  /**
   * A search that started on a closed mask, marked `s`, closed every site
   * it marked and marked only sites reachable from `s` leaves a closed
   * mask holding exactly the old sites and those reachable from `s`.
   */
  lemma MarkedReach(adj: seq<seq<int>>, before: seq<bool>, after: seq<bool>, s: int)
    requires WellFormed(adj) && |before| == |adj| && 0 <= s < |adj|
    requires Closed(adj, before) && Grows(before, after) && after[s] && ClosedSince(adj, before, after, -1)
    requires forall x :: 0 <= x < |adj| && after[x] && !before[x] ==> x in ReachSet(adj, s)
    ensures Closed(adj, after)
    ensures forall x :: 0 <= x < |adj| ==> (after[x] <==> before[x] || x in ReachSet(adj, s))
  {
    forall x, w | 0 <= x < |adj| && after[x] && w in adj[x] ensures 0 <= w < |adj| && after[w] {
      if !before[x] {
        assert NeighboursMarked(adj, after, x);
      }
    }
    forall x | 0 <= x < |adj| && x in ReachSet(adj, s) ensures after[x] {
      ClosedContainsReach(adj, after, s, x);
    }
  }

  /** The reachable set of `s` as a mask over the vertices. */
  ghost function ReachMask(adj: seq<seq<int>>, s: int): (r: seq<bool>)
    ensures |r| == |adj|
  {
    seq(|adj|, v => v in ReachSet(adj, s))
  }

  /**
   * A mask that holds `s`, holds only vertices reachable from `s` and is
   * closed under adjacency is exactly the reachable set of `s`.
   */
  lemma ClosedMaskIsReach(adj: seq<seq<int>>, s: int, vis: seq<bool>)
    requires WellFormed(adj) && |vis| == |adj| && 0 <= s < |adj| && vis[s]
    requires forall x :: 0 <= x < |adj| && vis[x] ==> x in ReachSet(adj, s)
    requires Closed(adj, vis)
    ensures vis == ReachMask(adj, s)
  {
    forall v | 0 <= v < |adj| ensures vis[v] == (v in ReachSet(adj, s)) {
      if v in ReachSet(adj, s) {
        var p :| WalkBetween(adj, s, v, p);
        ClosedContainsWalk(adj, vis, p);
      }
    }
  }

  /**
   * A breadth-first tree: every visited vertex other than the root `s` has
   * a visited parent one level above it with an edge to it.
   */
  ghost predicate ParentTree(adj: seq<seq<int>>, s: int, vis: seq<bool>, dist: seq<int>, parent: seq<int>)
  {
    |vis| == |adj| && |dist| == |adj| && |parent| == |adj| && 0 <= s < |adj| &&
    vis[s] && dist[s] == 0 &&
    (forall v :: 0 <= v < |adj| && vis[v] ==> dist[v] >= 0) &&
    forall v {:trigger parent[v]} :: 0 <= v < |adj| && vis[v] && v != s ==>
      0 <= parent[v] < |adj| && vis[parent[v]] && v in adj[parent[v]] && dist[v] == dist[parent[v]] + 1
  }

  /** Following parents from a visited vertex gives a walk from the root of its level's length. */
  lemma {:induction false} TreeWalk(adj: seq<seq<int>>, s: int, vis: seq<bool>, dist: seq<int>,
                                    parent: seq<int>, v: int) returns (p: seq<int>)
    requires WellFormed(adj) && ParentTree(adj, s, vis, dist, parent) && 0 <= v < |adj| && vis[v]
    ensures WalkBetween(adj, s, v, p) && |p| == dist[v] + 1
    decreases dist[v]
  {
    if v == s {
      p := [s];
    } else {
      var q := TreeWalk(adj, s, vis, dist, parent, parent[v]);
      ExtendWalk(adj, s, parent[v], q, v);
      p := q + [v];
    }
  }

  /**
   * What every breadth-first search of the model establishes at its end,
   * turned into the distance-table property: the visited set is closed,
   * levels grow by at most one per edge, the visited vertices form a
   * breadth-first tree, and unvisited vertices hold `unreached`.
   */
  lemma ClosedLevelsAreDistances(adj: seq<seq<int>>, s: int, vis: seq<bool>, dist: seq<int>,
                                 parent: seq<int>, unreached: int)
    requires WellFormed(adj) && ParentTree(adj, s, vis, dist, parent)
    requires LevelClosed(adj, vis, dist)
    requires forall v :: 0 <= v < |adj| && !vis[v] ==> dist[v] == unreached
    ensures DistanceTable(adj, s, dist, unreached)
  {
    forall v | 0 <= v < |adj|
      ensures if Reachable(adj, s, v) then Shortest(adj, s, v, dist[v]) else dist[v] == unreached
    {
      if vis[v] {
        var w := TreeWalk(adj, s, vis, dist, parent, v);
        assert WalkBetween(adj, s, v, w);
        forall p | WalkBetween(adj, s, v, p) ensures dist[v] + 1 <= |p| {
          LevelBound(adj, vis, dist, p);
        }
      } else if Reachable(adj, s, v) {
        var p :| WalkBetween(adj, s, v, p);
        LevelBound(adj, vis, dist, p);
        assert false;
      }
    }
  }

  /* ---------------------------------------------------------------- */
  /* The state of a breadth-first search with a FIFO queue              */
  /* ---------------------------------------------------------------- */

  /**
   * The invariant of a breadth-first search from `s` whose last dequeued
   * site sits at distance `level`: visited sites form a breadth-first tree,
   * unvisited sites hold `unreached`, the queue holds distinct visited but
   * unexpanded sites at distances `level` or `level + 1` in non-decreasing
   * order, expanded sites lie at most at `level`, and each distance is
   * below the number of visited sites.
   */
  ghost predicate Frontier(adj: seq<seq<int>>, s: int, visited: seq<bool>, dist: seq<int>, parent: seq<int>,
                           expanded: seq<bool>, queue: seq<int>, level: int, unreached: int)
  {
    var n := |adj|;
    ParentTree(adj, s, visited, dist, parent) && |expanded| == n && level >= 0 &&
    (forall x :: 0 <= x < n && !visited[x] ==> dist[x] == unreached) &&
    (forall x :: 0 <= x < n && visited[x] ==> dist[x] <= level + 1 && dist[x] < CountTrue(visited)) &&
    (forall x :: 0 <= x < n && expanded[x] ==> visited[x] && dist[x] <= level) &&
    (forall k :: 0 <= k < |queue| ==>
       0 <= queue[k] < n && visited[queue[k]] && !expanded[queue[k]] && level <= dist[queue[k]]) &&
    (forall i, j :: 0 <= i < j < |queue| ==> dist[queue[i]] <= dist[queue[j]] && queue[i] != queue[j]) &&
    CountTrue(visited) == CountTrue(expanded) + |queue|
  }

  /** Every edge out of an expanded site other than `cur` leads to a visited site at most one level deeper. */
  ghost predicate ExpandedClosed(adj: seq<seq<int>>, visited: seq<bool>, dist: seq<int>, expanded: seq<bool>, cur: int)
    requires |visited| == |adj| && |dist| == |adj| && |expanded| == |adj|
  {
    forall x, w {:trigger w in adj[x], expanded[x]} :: 0 <= x < |adj| && expanded[x] && x != cur && w in adj[x] ==>
      0 <= w < |adj| && visited[w] && dist[w] <= dist[x] + 1
  }

  /** The search starts with only `s` visited, at distance 0, and queued. */
  lemma FrontierStart(adj: seq<seq<int>>, s: int, unreached: int)
    requires 0 <= s < |adj|
    ensures var n := |adj|;
      var visited := seq(n, _ => false)[s := true];
      var dist := seq(n, _ => unreached)[s := 0];
      var expanded := seq(n, _ => false);
      Frontier(adj, s, visited, dist, seq(n, _ => s), expanded, [s], 0, unreached) &&
      ExpandedClosed(adj, visited, dist, expanded, -1)
  {
    var n := |adj|;
    CountTrueNone(seq(n, _ => false));
    CountTrueSet(seq(n, _ => false), s);
  }

  /** Dequeueing the head `v` of the queue marks it expanded and moves the level to its distance. */
  lemma FrontierDequeue(adj: seq<seq<int>>, s: int, visited: seq<bool>, dist: seq<int>, parent: seq<int>,
                        expanded: seq<bool>, queue: seq<int>, level: int, unreached: int)
    requires Frontier(adj, s, visited, dist, parent, expanded, queue, level, unreached) && |queue| > 0
    requires ExpandedClosed(adj, visited, dist, expanded, -1)
    ensures var v := queue[0];
      Frontier(adj, s, visited, dist, parent, expanded[v := true], queue[1..], dist[v], unreached) &&
      ExpandedClosed(adj, visited, dist, expanded[v := true], v)
  {
    var v := queue[0];
    CountTrueSet(expanded, v);
    var q := queue[1..];
    forall k | 0 <= k < |q| ensures !expanded[v := true][q[k]] && dist[v] <= dist[q[k]] {
      assert q[k] == queue[k + 1];
    }
    forall i, j | 0 <= i < j < |q| ensures dist[q[i]] <= dist[q[j]] && q[i] != q[j] {
      assert q[i] == queue[i + 1] && q[j] == queue[j + 1];
    }
    forall x, w | 0 <= x < |adj| && expanded[v := true][x] && x != v && w in adj[x]
      ensures 0 <= w < |adj| && visited[w] && dist[w] <= dist[x] + 1
    {
      assert expanded[x];
    }
  }

  /** A visited neighbour of the site being expanded already lies at most one level deeper. */
  lemma FrontierVisited(adj: seq<seq<int>>, s: int, visited: seq<bool>, dist: seq<int>, parent: seq<int>,
                        expanded: seq<bool>, queue: seq<int>, unreached: int, v: int, w: int)
    requires 0 <= v < |adj| == |dist| && 0 <= w < |adj|
    requires Frontier(adj, s, visited, dist, parent, expanded, queue, dist[v], unreached) && visited[w]
    ensures dist[w] <= dist[v] + 1
  {
  }

  /**
   * Enqueueing an unvisited neighbour `w` of the expanded site `v` at
   * distance `dist[v] + 1`, with parent `v`, keeps the invariant.
   */
  lemma FrontierEnqueue(adj: seq<seq<int>>, s: int, visited: seq<bool>, dist: seq<int>, parent: seq<int>,
                        expanded: seq<bool>, queue: seq<int>, unreached: int, v: int, w: int)
    requires WellFormed(adj) && 0 <= v < |adj| == |dist|
    requires Frontier(adj, s, visited, dist, parent, expanded, queue, dist[v], unreached)
    requires ExpandedClosed(adj, visited, dist, expanded, v)
    requires expanded[v] && w in adj[v] && !visited[w]
    ensures var d := dist[v] + 1;
      Frontier(adj, s, visited[w := true], dist[w := d], parent[w := v], expanded, queue + [w], dist[v], unreached) &&
      ExpandedClosed(adj, visited[w := true], dist[w := d], expanded, v)
  {
    var d := dist[v] + 1;
    CountTrueSet(visited, w);
    var q := queue + [w];
    forall i, j | 0 <= i < j < |q| ensures dist[w := d][q[i]] <= dist[w := d][q[j]] && q[i] != q[j] {
      if j < |queue| {
        assert q[i] == queue[i] != w && q[j] == queue[j] != w;
      } else {
        assert q[i] == queue[i] != w;
      }
    }
  }

  /** The first `m` neighbours of `v` are visited, at most one level below `d`. */
  ghost predicate NeighboursDone(adj: seq<seq<int>>, v: int, visited: seq<bool>, dist: seq<int>, m: int)
    requires 0 <= v < |adj| == |visited| == |dist| && 0 <= m <= |adj[v]|
  {
    forall i :: 0 <= i < m ==>
      0 <= adj[v][i] < |adj| && visited[adj[v][i]] && dist[adj[v][i]] <= dist[v] + 1
  }

  /**
   * Handling neighbour `m`, which leaves it visited at most one level
   * below `v` and changes no other visited site or distance, extends the
   * handled prefix by one.
   */
  lemma NeighboursDoneStep(adj: seq<seq<int>>, v: int, visited0: seq<bool>, dist0: seq<int>,
                           visited: seq<bool>, dist: seq<int>, m: int)
    requires 0 <= v < |adj| == |visited0| == |dist0| == |visited| == |dist| && 0 <= m < |adj[v]|
    requires NeighboursDone(adj, v, visited0, dist0, m)
    requires var w := adj[v][m]; 0 <= w < |adj| && visited[w] && dist[w] <= dist[v] + 1
    requires dist[v] == dist0[v]
    requires forall x :: 0 <= x < |adj| && visited0[x] ==> visited[x] && dist[x] == dist0[x]
    ensures NeighboursDone(adj, v, visited, dist, m + 1)
  {
  }

  /** Once every neighbour of `v` is handled, `v` is closed like every other expanded site. */
  lemma NeighboursDoneClosed(adj: seq<seq<int>>, visited: seq<bool>, dist: seq<int>, expanded: seq<bool>, v: int)
    requires 0 <= v < |adj| == |visited| == |dist| == |expanded| && expanded[v]
    requires ExpandedClosed(adj, visited, dist, expanded, v)
    requires NeighboursDone(adj, v, visited, dist, |adj[v]|)
    ensures ExpandedClosed(adj, visited, dist, expanded, -1)
  {
    forall x, w | 0 <= x < |adj| && expanded[x] && w in adj[x]
      ensures 0 <= w < |adj| && visited[w] && dist[w] <= dist[x] + 1
    {
      if x == v {
        var i :| 0 <= i < |adj[v]| && adj[v][i] == w;
      }
    }
  }

  /** When the queue is empty and every expanded site is closed, the distances are shortest walk lengths. */
  lemma FrontierDone(adj: seq<seq<int>>, s: int, visited: seq<bool>, dist: seq<int>, parent: seq<int>,
                     expanded: seq<bool>, level: int, unreached: int)
    requires WellFormed(adj) && Frontier(adj, s, visited, dist, parent, expanded, [], level, unreached)
    requires ExpandedClosed(adj, visited, dist, expanded, -1)
    ensures DistanceTable(adj, s, dist, unreached)
  {
    CountTrueSameSubset(expanded, visited);
    ClosedLevelsAreDistances(adj, s, visited, dist, parent, unreached);
  }

  /** Two adjacency lists with the same neighbours have the same walks, hence the same distance tables. */
  lemma SameNeighboursSameTable(adj1: seq<seq<int>>, adj2: seq<seq<int>>, s: int, dist: seq<int>, unreached: int)
    requires |adj1| == |adj2|
    requires forall v, w :: 0 <= v < |adj1| ==> (w in adj1[v] <==> w in adj2[v])
    requires DistanceTable(adj1, s, dist, unreached)
    ensures DistanceTable(adj2, s, dist, unreached)
  {
    assert forall p :: IsWalk(adj1, p) <==> IsWalk(adj2, p);
    forall v | 0 <= v < |adj2|
      ensures if Reachable(adj2, s, v) then Shortest(adj2, s, v, dist[v]) else dist[v] == unreached
    {
      assert forall p :: WalkBetween(adj1, s, v, p) <==> WalkBetween(adj2, s, v, p);
      assert Reachable(adj1, s, v) <==> Reachable(adj2, s, v);
      if Reachable(adj1, s, v) {
        assert Shortest(adj1, s, v, dist[v]);
      }
    }
  }

  /** The sum of `d[x]^2` over the sites `x` the mask holds. */
  function SquareSum(mask: seq<bool>, d: seq<int>): int
    requires |mask| == |d|
  {
    if mask == [] then 0
    else SquareSum(mask[..|mask| - 1], d[..|d| - 1]) + (if mask[|mask| - 1] then d[|d| - 1] * d[|d| - 1] else 0)
  }

  /** Adding one site to the mask adds its square. */
  lemma {:induction false} SquareSumSet(mask: seq<bool>, d: seq<int>, v: int)
    requires |mask| == |d| && 0 <= v < |mask| && !mask[v]
    ensures SquareSum(mask[v := true], d) == SquareSum(mask, d) + d[v] * d[v]
  {
    if v < |mask| - 1 {
      var m := |mask| - 1;
      assert mask[v := true][..m] == mask[..m][v := true];
      SquareSumSet(mask[..m], d[..m], v);
    } else {
      assert mask[v := true][..v] == mask[..v];
    }
  }

  /** The mask with no site. */
  lemma {:induction false} SquareSumNone(mask: seq<bool>, d: seq<int>)
    requires |mask| == |d| && forall x :: 0 <= x < |mask| ==> !mask[x]
    ensures SquareSum(mask, d) == 0
  {
    if mask != [] {
      SquareSumNone(mask[..|mask| - 1], d[..|d| - 1]);
    }
  }

  /** The reachable set of `s` is closed under adjacency. */
  lemma ReachMaskClosed(adj: seq<seq<int>>, s: int)
    requires WellFormed(adj)
    ensures Closed(adj, ReachMask(adj, s))
  {
    forall x, w | 0 <= x < |adj| && ReachMask(adj, s)[x] && w in adj[x]
      ensures 0 <= w < |adj| && ReachMask(adj, s)[w]
    {
      ReachClosed(adj, s, x, w);
    }
  }

  /** A closed mask holding `s` holds every vertex reachable from `s`. */
  lemma ClosedContainsReach(adj: seq<seq<int>>, vis: seq<bool>, s: int, x: int)
    requires |vis| == |adj| && 0 <= s < |adj| && vis[s] && Closed(adj, vis) && x in ReachSet(adj, s)
    ensures vis[x]
  {
    var p :| WalkBetween(adj, s, x, p);
    ClosedContainsWalk(adj, vis, p);
  }

  /** Every vertex reachable in `g` is reachable in a graph `h` holding all of `g`'s edges. */
  lemma SubgraphReach(g: seq<seq<int>>, h: seq<seq<int>>, s: int, x: int)
    requires WellFormed(h) && |g| == |h| && 0 <= s < |g|
    requires forall v, w :: 0 <= v < |g| && w in g[v] ==> w in h[v]
    requires x in ReachSet(g, s)
    ensures x in ReachSet(h, s)
  {
    var y := ReachMask(h, s);
    ReachMaskClosed(h, s);
    TrivialWalk(h, s);
    forall v, w | 0 <= v < |g| && y[v] && w in g[v] ensures 0 <= w < |g| && y[w] {
      assert w in h[v];
    }
    ClosedContainsReach(g, y, s, x);
  }

  /** `g2` is `g` with an edge between `a` and `b` added, in both directions. */
  ghost predicate EdgeAdded(g: seq<seq<int>>, g2: seq<seq<int>>, a: int, b: int)
  {
    |g2| == |g| && 0 <= a < |g| && 0 <= b < |g| && b in g2[a] &&
    (forall v, w :: 0 <= v < |g| && w in g[v] ==> w in g2[v]) &&
    (forall v, w :: 0 <= v < |g| && w in g2[v] ==> w in g[v] || (v == a && w == b) || (v == b && w == a))
  }

  /** `h` is `g` with the vertex `a` cut out: no edge of `h` touches it, and every other edge of `g` stays. */
  ghost predicate CutOut(g: seq<seq<int>>, h: seq<seq<int>>, a: int)
  {
    |h| == |g| &&
    (forall v, w :: 0 <= v < |g| && w in h[v] ==> w in g[v]) &&
    (forall v, w :: 0 <= v < |g| && v != a && w != a && w in g[v] ==> w in h[v])
  }

  /** An edge between two vertices on the same side of the reachable set of `s` leaves it as it was. */
  lemma AddEdgeSameSide(g: seq<seq<int>>, g2: seq<seq<int>>, s: int, a: int, b: int)
    requires WellFormed(g) && WellFormed(g2) && EdgeAdded(g, g2, a, b) && 0 <= s < |g|
    requires ReachMask(g, s)[a] == ReachMask(g, s)[b]
    ensures ReachMask(g2, s) == ReachMask(g, s)
  {
    var r := ReachMask(g, s);
    ReachMaskClosed(g, s);
    forall x, w | 0 <= x < |g2| && r[x] && w in g2[x] ensures 0 <= w < |g2| && r[w] {
      if w in g[x] {
        assert Closed(g, r);
      }
    }
    forall x | 0 <= x < |g2| && r[x] ensures x in ReachSet(g2, s) {
      SubgraphReach(g, g2, s, x);
    }
    TrivialWalk(g, s);
    ClosedMaskIsReach(g2, s, r);
  }

  /**
   * An edge from a vertex `a` reachable from `s` to a vertex `b` that is
   * not adds to the reachable set exactly what `b` reaches without
   * passing through `a`.
   */
  lemma AddEdgeJoins(g: seq<seq<int>>, g2: seq<seq<int>>, h: seq<seq<int>>, s: int, a: int, b: int)
    requires WellFormed(g) && WellFormed(g2) && WellFormed(h) && EdgeAdded(g, g2, a, b) && CutOut(g, h, a)
    requires 0 <= s < |g| && ReachMask(g, s)[a] && !ReachMask(g, s)[b]
    ensures forall x :: 0 <= x < |g| ==> ReachMask(g2, s)[x] == (ReachMask(g, s)[x] || ReachMask(h, b)[x])
  {
    var r, m := ReachMask(g, s), ReachMask(h, b);
    var f := seq(|g|, x requires 0 <= x < |g| => r[x] || m[x]);
    ReachMaskClosed(g, s);
    ReachMaskClosed(h, b);
    TrivialWalk(h, b);
    forall x, w | 0 <= x < |g2| && f[x] && w in g2[x] ensures 0 <= w < |g2| && f[w] {
      if w in g[x] {
        if r[x] {
          assert Closed(g, r);
        } else if w != a {
          assert x != a && w in h[x];
          assert Closed(h, m);
        }
      }
    }
    var y := ReachMask(g2, s);
    ReachMaskClosed(g2, s);
    forall x | 0 <= x < |g| && r[x] ensures y[x] {
      SubgraphReach(g, g2, s, x);
    }
    forall v, w | 0 <= v < |h| && y[v] && w in h[v] ensures 0 <= w < |h| && y[w] {
      assert w in g[v] && w in g2[v];
    }
    forall x | 0 <= x < |g| && m[x] ensures y[x] {
      assert y[a] && b in g2[a];
      ClosedContainsReach(h, y, b, x);
    }
    TrivialWalk(g, s);
    ClosedMaskIsReach(g2, s, f);
  }
}
