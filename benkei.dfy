/**
 * `Benkei`, a `GreedyPunterMirac` that first guards the map's chokepoints.
 *
 * At set-up it runs a breadth-first search from every mine, follows the
 * back pointers from every mine's site back to the searching mine, and
 * counts how often each river is crossed. Rivers crossed by more than a
 * quarter of the ordered pairs of distinct mines are chokepoints. On each
 * turn it claims the last chokepoint nobody holds yet, and plays
 * `GreedyPunterMirac` once none is left.
 */
module Benkei {
  import opened Wrappers
  import opened GameData
  import opened CostSearch
  import G = Graph
  import GreedyPunterMirac

  /* ---------------------------------------------------------------- */
  /* The breadth-first search of `frequentpaths`                        */
  /* ---------------------------------------------------------------- */

  /** The sites across each site's adjacency entries: the graph the search walks. */
  ghost function Sites(b: Board): seq<seq<int>>
  {
    seq(|b.edges|, v requires 0 <= v < |b.edges| =>
      seq(|b.edges[v]|, j requires 0 <= j < |b.edges[v]| => b.edges[v][j].site as int))
  }

  lemma SitesWellFormed(b: Board)
    requires BoardOk(b)
    ensures G.WellFormed(Sites(b)) && |Sites(b)| == b.n
  {
    var adj := Sites(b);
    forall v, w | 0 <= v < |adj| && w in adj[v] ensures 0 <= w < |adj| {
      var j :| 0 <= j < |adj[v]| && adj[v][j] == w;
    }
  }

  /** The back pointer `p` of `v` names an adjacency entry of site `p.0` leading to `v` across river `p.1`. */
  ghost predicate TreeEdge(b: Board, p: (int, int), v: int)
  {
    0 <= p.0 < |b.edges| &&
    exists j :: 0 <= j < |b.edges[p.0]| && b.edges[p.0][j].site == v && b.edges[p.0][j].river == p.1
  }

  /**
   * The back pointers `bp` of a search from `origin`, with the walk
   * lengths `dist` behind them: `dist` holds each site's shortest walk
   * length from the origin and -1 where there is none; the origin and the
   * sites out of reach point nowhere, (-1, -1); every other site points
   * to a reached site one step closer, across a river joining the two.
   */
  ghost predicate TreeOk(b: Board, origin: int, bp: seq<(int, int)>, dist: seq<int>)
  {
    |bp| == b.n && |b.edges| == b.n && 0 <= origin < b.n &&
    G.DistanceTable(Sites(b), origin, dist, -1) && bp[origin] == (-1, -1) &&
    forall v :: 0 <= v < b.n && v != origin ==>
      if dist[v] == -1 then bp[v] == (-1, -1)
      else TreeEdge(b, bp[v], v) && 0 <= dist[bp[v].0] && dist[bp[v].0] + 1 == dist[v]
  }

  /** During the search: unvisited sites and the origin point nowhere, visited ones to their tree parent. */
  ghost predicate BackPointers(b: Board, origin: int, visited: seq<bool>, parent: seq<int>, bp: seq<(int, int)>)
  {
    |bp| == b.n && |visited| == b.n && |parent| == b.n && 0 <= origin < b.n && bp[origin] == (-1, -1) &&
    forall v :: 0 <= v < b.n && v != origin ==>
      if visited[v] then bp[v].0 == parent[v] && TreeEdge(b, bp[v], v) else bp[v] == (-1, -1)
  }

  /**
   * The search of `frequentpaths` from `origin` with a FIFO queue: a site
   * is visited, queued and given its back pointer when first seen. It
   * visits exactly the sites reachable from the origin and leaves a
   * shortest-path tree.
   */
  method Bfs(b: Board, origin: nat) returns (visited: seq<bool>, bp: seq<(int, int)>, ghost dist: seq<int>)
    requires BoardOk(b) && origin < b.n
    ensures |visited| == b.n && TreeOk(b, origin, bp, dist)
    ensures forall v :: 0 <= v < b.n ==> (visited[v] <==> G.Reachable(Sites(b), origin, v))
  {
    ghost var adj := Sites(b);
    SitesWellFormed(b);
    var n := b.n;
    visited := seq(n, _ => false)[origin := true];
    bp := seq(n, _ => (-1, -1));
    var queue := [origin];
    G.FrontierStart(adj, origin, -1);
    dist := seq(n, _ => -1)[origin := 0];
    ghost var parent := seq(n, _ => origin as int);
    ghost var expanded := seq(n, _ => false);
    ghost var level := 0;
    while |queue| != 0
      invariant |expanded| == n
      invariant G.Frontier(adj, origin, visited, dist, parent, expanded, queue, level, -1)
      invariant G.ExpandedClosed(adj, visited, dist, expanded, -1)
      invariant BackPointers(b, origin, visited, parent, bp)
      decreases n - CountTrue(expanded)
    {
      var v := queue[0];
      G.FrontierDequeue(adj, origin, visited, dist, parent, expanded, queue, level, -1);
      CountTrueSet(expanded, v);
      expanded := expanded[v := true];
      CountTrueBound(expanded);
      level := dist[v];
      queue := queue[1..];
      visited, bp, queue, dist, parent := Expand(b, adj, origin, v, visited, bp, queue, dist, parent, expanded);
    }
    G.FrontierDone(adj, origin, visited, dist, parent, expanded, level, -1);
    forall v | 0 <= v < n ensures visited[v] <==> G.Reachable(adj, origin, v) {
      if G.Reachable(adj, origin, v) {
        assert G.Shortest(adj, origin, v, dist[v]);
      }
    }
  }

  /** The inner loop of the search: every unvisited site across an entry of `v` is visited and queued. */
  method Expand(b: Board, ghost adj: seq<seq<int>>, origin: nat, v: nat,
                visited0: seq<bool>, bp0: seq<(int, int)>, queue0: seq<int>,
                ghost dist0: seq<int>, ghost parent0: seq<int>, ghost expanded: seq<bool>)
    returns (visited: seq<bool>, bp: seq<(int, int)>, queue: seq<int>, ghost dist: seq<int>, ghost parent: seq<int>)
    requires BoardOk(b) && adj == Sites(b) && G.WellFormed(adj) && v < b.n == |adj| == |dist0|
    requires G.Frontier(adj, origin, visited0, dist0, parent0, expanded, queue0, dist0[v], -1) && expanded[v]
    requires G.ExpandedClosed(adj, visited0, dist0, expanded, v)
    requires BackPointers(b, origin, visited0, parent0, bp0)
    ensures G.Frontier(adj, origin, visited, dist, parent, expanded, queue, dist0[v], -1)
    ensures G.ExpandedClosed(adj, visited, dist, expanded, -1)
    ensures BackPointers(b, origin, visited, parent, bp)
  {
    visited, bp, queue, dist, parent := visited0, bp0, queue0, dist0, parent0;
    for j := 0 to |b.edges[v]|
      invariant |dist| == |adj| && dist[v] == dist0[v]
      invariant G.Frontier(adj, origin, visited, dist, parent, expanded, queue, dist0[v], -1)
      invariant G.ExpandedClosed(adj, visited, dist, expanded, v)
      invariant G.NeighboursDone(adj, v, visited, dist, j)
      invariant BackPointers(b, origin, visited, parent, bp)
    {
      visited, bp, queue, dist, parent := Visit(b, adj, origin, v, j, visited, bp, queue, dist, parent, expanded);
    }
    G.NeighboursDoneClosed(adj, visited, dist, expanded, v);
  }

  /** One adjacency entry `j` of `v`: an unvisited site across it is visited, queued and pointed back at `v`. */
  method Visit(b: Board, ghost adj: seq<seq<int>>, origin: nat, v: nat, j: nat,
               visited0: seq<bool>, bp0: seq<(int, int)>, queue0: seq<int>,
               ghost dist0: seq<int>, ghost parent0: seq<int>, ghost expanded: seq<bool>)
    returns (visited: seq<bool>, bp: seq<(int, int)>, queue: seq<int>, ghost dist: seq<int>, ghost parent: seq<int>)
    requires BoardOk(b) && adj == Sites(b) && G.WellFormed(adj) && v < b.n == |adj| == |dist0|
    requires j < |b.edges[v]|
    requires G.Frontier(adj, origin, visited0, dist0, parent0, expanded, queue0, dist0[v], -1) && expanded[v]
    requires G.ExpandedClosed(adj, visited0, dist0, expanded, v)
    requires G.NeighboursDone(adj, v, visited0, dist0, j)
    requires BackPointers(b, origin, visited0, parent0, bp0)
    ensures |dist| == |adj| && dist[v] == dist0[v]
    ensures G.Frontier(adj, origin, visited, dist, parent, expanded, queue, dist0[v], -1)
    ensures G.ExpandedClosed(adj, visited, dist, expanded, v)
    ensures G.NeighboursDone(adj, v, visited, dist, j + 1)
    ensures BackPointers(b, origin, visited, parent, bp)
  {
    visited, bp, queue, dist, parent := visited0, bp0, queue0, dist0, parent0;
    var w := b.edges[v][j].site;
    var r := b.edges[v][j].river;
    assert adj[v][j] == w;
    if !visited[w] {
      G.FrontierEnqueue(adj, origin, visited, dist, parent, expanded, queue, -1, v, w);
      queue := queue + [w];
      visited := visited[w := true];
      bp := bp[w := (v as int, r as int)];
      dist := dist[w := dist[v] + 1];
      parent := parent[w := v];
    } else {
      G.FrontierVisited(adj, origin, visited, dist, parent, expanded, queue, -1, v, w);
    }
    G.NeighboursDoneStep(adj, v, visited0, dist0, visited, dist, j);
  }

  /* ---------------------------------------------------------------- */
  /* Tracing the back pointers                                          */
  /* ---------------------------------------------------------------- */

  /** Every back pointer lands on a site strictly closer to the origin, across a river of the map. */
  ghost predicate Chained(b: Board, bp: seq<(int, int)>, dist: seq<int>)
  {
    |bp| == b.n && |dist| == b.n &&
    forall c :: 0 <= c < b.n && bp[c].0 != -1 ==>
      0 <= bp[c].0 < b.n && 0 <= bp[c].1 < |b.rivers| && 0 <= dist[bp[c].0] < dist[c]
  }

  lemma TreeChained(b: Board, origin: int, bp: seq<(int, int)>, dist: seq<int>)
    requires BoardOk(b) && TreeOk(b, origin, bp, dist)
    ensures Chained(b, bp, dist)
  {
    forall c | 0 <= c < b.n && bp[c].0 != -1
      ensures 0 <= bp[c].0 < b.n && 0 <= bp[c].1 < |b.rivers| && 0 <= dist[bp[c].0] < dist[c]
    {
      var p := bp[c].0;
      var j :| 0 <= j < |b.edges[p]| && b.edges[p][j].site == c && b.edges[p][j].river == bp[c].1;
    }
  }

  /** The rivers crossed going back from `c` to the origin, in the order the trace meets them. */
  ghost function Path(b: Board, bp: seq<(int, int)>, dist: seq<int>, c: int): (rs: seq<nat>)
    requires Chained(b, bp, dist) && 0 <= c < b.n
    ensures forall i :: 0 <= i < |rs| ==> rs[i] < |b.rivers|
    decreases dist[c]
  {
    if bp[c].0 == -1 then [] else [bp[c].1 as nat] + Path(b, bp, dist, bp[c].0)
  }

  /**
   * The trace from a site crosses exactly as many rivers as its shortest
   * walk from the origin has steps, and none from a site out of reach.
   */
  lemma {:induction false} PathIsShortest(b: Board, origin: int, bp: seq<(int, int)>, dist: seq<int>, c: int)
    requires BoardOk(b) && TreeOk(b, origin, bp, dist) && 0 <= c < b.n
    ensures Chained(b, bp, dist)
    ensures |Path(b, bp, dist, c)| == if dist[c] == -1 then 0 else dist[c]
    decreases if dist[c] < 0 then 0 else dist[c]
  {
    TreeChained(b, origin, bp, dist);
    if c == origin {
      G.DistanceAtSource(Sites(b), origin, dist, -1);
    } else if dist[c] != -1 {
      PathIsShortest(b, origin, bp, dist, bp[c].0);
    }
  }

  /** `freqs` with one added for each occurrence of a river index in `rs`, in order. */
  function Tally(freqs: seq<int>, rs: seq<nat>): (t: seq<int>)
    requires forall i :: 0 <= i < |rs| ==> rs[i] < |freqs|
    ensures |t| == |freqs|
    decreases |rs|
  {
    if rs == [] then freqs else Tally(freqs[rs[0] := freqs[rs[0]] + 1], rs[1..])
  }

  /** Each count grows by the number of times its river occurs. */
  lemma {:induction false} TallyCounts(freqs: seq<int>, rs: seq<nat>)
    requires forall i :: 0 <= i < |rs| ==> rs[i] < |freqs|
    ensures forall r :: 0 <= r < |freqs| ==> Tally(freqs, rs)[r] == freqs[r] + multiset(rs)[r]
    decreases |rs|
  {
    if rs != [] {
      TallyCounts(freqs[rs[0] := freqs[rs[0]] + 1], rs[1..]);
      assert rs == [rs[0]] + rs[1..];
      assert multiset(rs) == multiset{rs[0]} + multiset(rs[1..]);
    }
  }

  /** Tallying two runs of rivers is tallying one, then the other. */
  lemma {:induction false} TallyAppend(freqs: seq<int>, a: seq<nat>, c: seq<nat>)
    requires forall i :: 0 <= i < |a| ==> a[i] < |freqs|
    requires forall i :: 0 <= i < |c| ==> c[i] < |freqs|
    ensures Tally(freqs, a + c) == Tally(Tally(freqs, a), c)
    decreases |a|
  {
    if a == [] {
      assert a + c == c;
    } else {
      assert (a + c)[1..] == a[1..] + c;
      TallyAppend(freqs[a[0] := freqs[a[0]] + 1], a[1..], c);
    }
  }

  /** The traces from each target in turn, joined. */
  ghost function Paths(b: Board, bp: seq<(int, int)>, dist: seq<int>, targets: seq<nat>): (rs: seq<nat>)
    requires Chained(b, bp, dist) && forall i :: 0 <= i < |targets| ==> targets[i] < b.n
    ensures forall i :: 0 <= i < |rs| ==> rs[i] < |b.rivers|
  {
    if targets == [] then []
    else Paths(b, bp, dist, targets[..|targets| - 1]) + Path(b, bp, dist, targets[|targets| - 1])
  }

  /** The trace loop of `frequentpaths`: one added to every river on the way back from each target. */
  method AddPaths(b: Board, bp: seq<(int, int)>, ghost dist: seq<int>, targets: seq<nat>, freqs0: seq<int>)
    returns (freqs: seq<int>)
    requires Chained(b, bp, dist) && |freqs0| == |b.rivers|
    requires forall i :: 0 <= i < |targets| ==> targets[i] < b.n
    ensures freqs == Tally(freqs0, Paths(b, bp, dist, targets))
  {
    freqs := freqs0;
    for i := 0 to |targets|
      invariant freqs == Tally(freqs0, Paths(b, bp, dist, targets[..i]))
    {
      assert targets[..i + 1][..i] == targets[..i];
      var c: int := targets[i];
      ghost var before := freqs;
      while bp[c].0 != -1
        invariant 0 <= c < b.n && |freqs| == |b.rivers|
        invariant Tally(freqs, Path(b, bp, dist, c)) == Tally(before, Path(b, bp, dist, targets[i]))
        decreases dist[c]
      {
        var r := bp[c].1;
        freqs := freqs[r := freqs[r] + 1];
        c := bp[c].0;
      }
      TallyAppend(freqs0, Paths(b, bp, dist, targets[..i]), Path(b, bp, dist, targets[i]));
    }
    assert targets[..|targets|] == targets;
  }

  /**
   * `frequentpaths`: a count per river is required (otherwise the
   * process aborts); the search from `origin` leaves a shortest-path
   * tree, and each target's trace back to the origin is counted.
   */
  method FrequentPaths(b: Board, origin: nat, targets: seq<nat>, freqs0: seq<int>)
    returns (r: Result<seq<int>, Fatal>, ghost bp: seq<(int, int)>, ghost dist: seq<int>)
    requires BoardOk(b) && origin < b.n
    requires forall i :: 0 <= i < |targets| ==> targets[i] < b.n
    ensures r.Err? <==> |freqs0| != |b.rivers|
    ensures r.Ok? ==>
      TreeOk(b, origin, bp, dist) && Chained(b, bp, dist) && r.value == Tally(freqs0, Paths(b, bp, dist, targets))
  {
    if |freqs0| != |b.rivers| {
      return Err(Fatal), [], [];
    }
    var visited, tree;
    visited, tree, dist := Bfs(b, origin);
    bp := tree;
    TreeChained(b, origin, bp, dist);
    var freqs := AddPaths(b, tree, dist, targets, freqs0);
    r := Ok(freqs);
  }

  /* ---------------------------------------------------------------- */
  /* Set-up                                                             */
  /* ---------------------------------------------------------------- */

  /** One search per mine, in mine order, each leaving a shortest-path tree. */
  ghost predicate Forest(b: Board, trees: seq<(seq<(int, int)>, seq<int>)>)
  {
    |trees| <= |b.mines| &&
    forall i :: 0 <= i < |trees| ==> TreeOk(b, b.mines[i], trees[i].0, trees[i].1) && Chained(b, trees[i].0, trees[i].1)
  }

  /** The traces of every search, each from every target, joined. */
  ghost function AllPaths(b: Board, trees: seq<(seq<(int, int)>, seq<int>)>, targets: seq<nat>): (rs: seq<nat>)
    requires Forest(b, trees) && forall i :: 0 <= i < |targets| ==> targets[i] < b.n
    ensures forall i :: 0 <= i < |rs| ==> rs[i] < |b.rivers|
  {
    if trees == [] then []
    else
      var t := trees[|trees| - 1];
      AllPaths(b, trees[..|trees| - 1], targets) + Paths(b, t.0, t.1, targets)
  }

  /** The search from the next mine extends the forest, and its traces follow the earlier ones. */
  lemma ForestAppend(b: Board, trees: seq<(seq<(int, int)>, seq<int>)>, bp: seq<(int, int)>, dist: seq<int>,
                     targets: seq<nat>)
    requires Forest(b, trees) && |trees| < |b.mines| && forall i :: 0 <= i < |targets| ==> targets[i] < b.n
    requires TreeOk(b, b.mines[|trees|], bp, dist) && Chained(b, bp, dist)
    ensures Forest(b, trees + [(bp, dist)])
    ensures AllPaths(b, trees + [(bp, dist)], targets) == AllPaths(b, trees, targets) + Paths(b, bp, dist, targets)
  {
    assert (trees + [(bp, dist)])[..|trees|] == trees;
  }

  /**
   * The counting half of `SetUp`: each river's count is the number of
   * times it lies on the trace from some mine's site back to some mine.
   */
  method Frequencies(b: Board) returns (freqs: seq<int>, ghost trees: seq<(seq<(int, int)>, seq<int>)>)
    requires BoardOk(b)
    ensures Forest(b, trees) && |trees| == |b.mines| && |freqs| == |b.rivers|
    ensures forall r :: 0 <= r < |freqs| ==> freqs[r] == multiset(AllPaths(b, trees, b.mines))[r]
  {
    freqs := seq(|b.rivers|, _ => 0);
    trees := [];
    // `mines_copy`: the sites of the mines, in order.
    var targets := b.mines;
    for i := 0 to |b.mines|
      invariant |trees| == i && Forest(b, trees) && |freqs| == |b.rivers|
      invariant forall r :: 0 <= r < |freqs| ==> freqs[r] == multiset(AllPaths(b, trees, targets))[r]
    {
      var res, bp, dist := FrequentPaths(b, b.mines[i], targets, freqs);
      CountsStep(freqs, AllPaths(b, trees, targets), Paths(b, bp, dist, targets), res.value);
      ForestAppend(b, trees, bp, dist, targets);
      freqs := res.value;
      trees := trees + [(bp, dist)];
    }
  }

  /** Tallying the traces of one more search onto counts of the earlier ones counts them all. */
  lemma CountsStep(freqs: seq<int>, earlier: seq<nat>, more: seq<nat>, next: seq<int>)
    requires forall i :: 0 <= i < |more| ==> more[i] < |freqs|
    requires forall r :: 0 <= r < |freqs| ==> freqs[r] == multiset(earlier)[r]
    requires next == Tally(freqs, more)
    ensures |next| == |freqs| && forall r :: 0 <= r < |next| ==> next[r] == multiset(earlier + more)[r]
  {
    TallyCounts(freqs, more);
  }

  /**
   * The chokepoint cut-off for `m` mines, `m·(m-1)/4 + 1`: the least
   * count above a quarter of the ordered pairs of distinct mines.
   */
  function Threshold(m: nat): (t: int)
    ensures 4 * (t - 1) <= m * (m - 1) < 4 * t
  {
    m * (m - 1) / 4 + 1
  }

  /** The river indices whose count reaches the cut-off, in increasing order. */
  method Chokepoints(freqs: seq<int>, threshold: int) returns (cps: seq<nat>)
    ensures forall i, j :: 0 <= i < j < |cps| ==> cps[i] < cps[j]
    ensures forall r: nat :: r in cps <==> r < |freqs| && freqs[r] >= threshold
  {
    cps := [];
    for i := 0 to |freqs|
      invariant forall k :: 0 <= k < |cps| ==> cps[k] < i
      invariant forall a, c :: 0 <= a < c < |cps| ==> cps[a] < cps[c]
      invariant forall r: nat :: r in cps <==> r < i && freqs[r] >= threshold
    {
      if freqs[i] >= threshold {
        cps := cps + [i];
      }
    }
  }

  /* ---------------------------------------------------------------- */
  /* Turns                                                              */
  /* ---------------------------------------------------------------- */

  /** `IsRiverClaimed(river_ix)`: some punter holds the river. */
  predicate IsRiverClaimed(b: Board, ix: nat)
    requires ix < |b.rivers|
  {
    b.rivers[ix].punter != -1
  }

  /**
   * `IsRiverClaimed(source, dest)`: whether the first river listed at
   * `source` that joins it to `dest` is held; aborts when `source` has no
   * such river, which happens exactly when `dest` is not among its
   * adjacency entries.
   */
  method IsRiverClaimedBetween(b: Board, source: nat, dest: int) returns (r: Result<bool, Fatal>)
    requires BoardOk(b) && source < b.n
    ensures r.Err? <==> forall j :: 0 <= j < |b.edges[source]| ==> b.edges[source][j].site != dest
    ensures r.Ok? ==>
      exists j :: 0 <= j < |b.edges[source]| && b.edges[source][j].site == dest &&
        (forall i :: 0 <= i < j ==> b.edges[source][i].site != dest) &&
        r.value == IsRiverClaimed(b, b.edges[source][j].river)
  {
    var es := b.edges[source];
    for j := 0 to |es|
      invariant forall i :: 0 <= i < j ==> es[i].site != dest
    {
      var ix := es[j].river;
      var river := b.rivers[ix];
      assert Ends(river, source, es[j].site);
      if (river.source == source && river.target == dest) || (river.source == dest && river.target == source) {
        return Ok(IsRiverClaimed(b, ix));
      }
    }
    return Err(Fatal);
  }

  class Benkei {
    /** The `BenkeiProto` extension of the punter's state: river indices still to try, taken from the back. */
    var chokepoints: seq<nat>

    constructor ()
      ensures chokepoints == []
    {
      chokepoints := [];
    }

    /**
     * `SetUp`: the rivers whose count reaches `Threshold` of the number
     * of mines are appended to the chokepoints in increasing order.
     */
    method SetUp(b: Board) returns (ghost freqs: seq<int>, ghost trees: seq<(seq<(int, int)>, seq<int>)>)
      requires BoardOk(b)
      modifies this
      ensures Forest(b, trees) && |trees| == |b.mines| && |freqs| == |b.rivers|
      ensures forall r :: 0 <= r < |freqs| ==> freqs[r] == multiset(AllPaths(b, trees, b.mines))[r]
      ensures |chokepoints| >= |old(chokepoints)| && chokepoints[..|old(chokepoints)|] == old(chokepoints)
      ensures var added := chokepoints[|old(chokepoints)|..];
        (forall i, j :: 0 <= i < j < |added| ==> added[i] < added[j]) &&
        forall r: nat :: r in added <==> r < |b.rivers| && freqs[r] >= Threshold(|b.mines|)
    {
      var counts;
      counts, trees := Frequencies(b);
      freqs := counts;
      var threshold := |b.mines| * (|b.mines| - 1) / 4 + 1;
      var cps := Chokepoints(counts, threshold);
      ghost var before := chokepoints;
      chokepoints := chokepoints + cps;
      assert chokepoints[|before|..] == cps;
    }

    /**
     * `Run`: chokepoints are taken from the back; held ones are dropped,
     * and the first free one is claimed. With none left the move is
     * `GreedyPunterMirac`'s.
     */
    method Run(b: Board, dist: (int, nat) -> int, optionsLeft: nat) returns (m: GameMove)
      requires BoardOk(b) && forall i :: 0 <= i < |chokepoints| ==> chokepoints[i] < |b.rivers|
      modifies this
      ensures |chokepoints| <= |old(chokepoints)| && chokepoints == old(chokepoints)[..|chokepoints|]
      ensures forall i :: |chokepoints| < i < |old(chokepoints)| ==> IsRiverClaimed(b, old(chokepoints)[i])
      ensures if |chokepoints| < |old(chokepoints)| && !IsRiverClaimed(b, old(chokepoints)[|chokepoints|]) then
          var river := b.rivers[old(chokepoints)[|chokepoints|]];
          m == Claim(b.me, river.source, river.target) && Legal(b.me, b.rivers, m)
        else
          chokepoints == [] && (forall i :: 0 <= i < |old(chokepoints)| ==> IsRiverClaimed(b, old(chokepoints)[i])) &&
          (Legal(b.me, b.rivers, m) || IsFallback(b.me, b.rivers, m))
    {
      while |chokepoints| != 0
        invariant |chokepoints| <= |old(chokepoints)| && chokepoints == old(chokepoints)[..|chokepoints|]
        invariant forall i :: |chokepoints| <= i < |old(chokepoints)| ==> IsRiverClaimed(b, old(chokepoints)[i])
        decreases |chokepoints|
      {
        var ix := chokepoints[|chokepoints| - 1];
        chokepoints := chokepoints[..|chokepoints| - 1];
        if IsRiverClaimed(b, ix) {
          continue;
        }
        var river := b.rivers[ix];
        m := Claim(b.me, river.source, river.target);
        assert Ends(b.rivers[ix], m.source, m.target);
        return;
      }
      var cols;
      ghost var path;
      m, cols, path := GreedyPunterMirac.Run(b, dist, optionsLeft);
    }
  }
}
