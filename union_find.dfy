/**
 * The scorer's union-find set of score cells: one cell per site, a parent
 * link that is absent at a root, and one score per mine. A root's score
 * for mine `j` is the sum, over the sites of its component, of their
 * contributions to mine `j` (squared distances, adjusted by futures).
 *
 * The ghost `rank` of a cell is below its parent's; it only serves to
 * show that following parents ends at a root.
 */
module UnionFind {
  import opened Wrappers

  /** A score cell: a parent link, absent at a root, and one score per mine. */
  datatype Cell = Cell(parent: Option<int>, scores: seq<int>)

  function Parents(cells: seq<Cell>): (r: seq<Option<int>>)
    ensures |r| == |cells| && forall i :: 0 <= i < |cells| ==> r[i] == cells[i].parent
  {
    seq(|cells|, i requires 0 <= i < |cells| => cells[i].parent)
  }

  /** Parent links stay in range and climb strictly in rank; no rank exceeds `height`. */
  ghost predicate Ranked(parents: seq<Option<int>>, rank: seq<nat>, height: nat)
  {
    |rank| == |parents| &&
    (forall i :: 0 <= i < |parents| ==> rank[i] <= height) &&
    (forall i :: 0 <= i < |parents| && parents[i].Some? ==>
       0 <= parents[i].value < |parents| && rank[i] < rank[parents[i].value])
  }

  /** The root reached by following parent links from `i`. */
  ghost function Root(parents: seq<Option<int>>, rank: seq<nat>, height: nat, i: int): (r: int)
    requires Ranked(parents, rank, height) && 0 <= i < |parents|
    ensures 0 <= r < |parents| && parents[r].None? && rank[i] <= rank[r]
    ensures parents[i].None? ==> r == i
    ensures parents[i].Some? ==> rank[i] < rank[r]
    decreases height - rank[i]
  {
    if parents[i].None? then i else Root(parents, rank, height, parents[i].value)
  }

  ghost function Roots(parents: seq<Option<int>>, rank: seq<nat>, height: nat): (r: seq<int>)
    requires Ranked(parents, rank, height)
    ensures |r| == |parents|
    ensures forall i {:trigger Root(parents, rank, height, i)} :: 0 <= i < |parents| ==> r[i] == Root(parents, rank, height, i)
  {
    seq(|parents|, i requires 0 <= i < |parents| => Root(parents, rank, height, i))
  }

  /** `roots[i]` is the root of site `i`. */
  ghost predicate RootsAre(roots: seq<int>, parents: seq<Option<int>>, rank: seq<nat>, height: nat)
    requires Ranked(parents, rank, height)
  {
    |roots| == |parents| &&
    forall i {:trigger Root(parents, rank, height, i)} :: 0 <= i < |parents| ==> roots[i] == Root(parents, rank, height, i)
  }

  /**
   * Re-pointing `x` straight at its root, as path compression does, keeps
   * the ranking and every site's root.
   */
  lemma {:induction false} CompressKeepsRoots(parents: seq<Option<int>>, rank: seq<nat>, height: nat, x: int, y: int)
    requires Ranked(parents, rank, height) && 0 <= x < |parents| && parents[x].Some? && 0 <= y < |parents|
    ensures Ranked(parents[x := Some(Root(parents, rank, height, x))], rank, height)
    ensures Root(parents[x := Some(Root(parents, rank, height, x))], rank, height, y) == Root(parents, rank, height, y)
    decreases height - rank[y]
  {
    var q := parents[x := Some(Root(parents, rank, height, x))];
    assert Ranked(q, rank, height);
    if y == x {
      var r := Root(parents, rank, height, x);
      assert r != x;
      assert Root(q, rank, height, r) == r;
    } else if parents[y].Some? {
      CompressKeepsRoots(parents, rank, height, x, parents[y].value);
    }
  }

  /** The union of the components of roots `r1` and `r2`, with `r1` as the new root. */
  function UnionRoots(roots: seq<int>, r1: int, r2: int): (r: seq<int>)
    ensures |r| == |roots|
    ensures forall x :: 0 <= x < |roots| ==> r[x] == if roots[x] == r2 then r1 else roots[x]
  {
    seq(|roots|, x requires 0 <= x < |roots| => if roots[x] == r2 then r1 else roots[x])
  }

  /** The rank update of a merge: the surviving root ranks above the one it absorbs. */
  ghost function MergedRank(rank: seq<nat>, r1: int, r2: int): seq<nat>
    requires 0 <= r1 < |rank| && 0 <= r2 < |rank|
  {
    rank[r1 := Max(rank[r1], rank[r2] + 1)]
  }

  /** Hanging root `r2` under root `r1` moves exactly `r2`'s component to `r1`. */
  lemma {:induction false} LinkRoots(parents: seq<Option<int>>, rank: seq<nat>, height: nat, r1: int, r2: int, y: int)
    requires Ranked(parents, rank, height) && 0 <= r1 < |parents| && 0 <= r2 < |parents| && r1 != r2
    requires parents[r1].None? && parents[r2].None? && 0 <= y < |parents|
    ensures var rank' := MergedRank(rank, r1, r2);
      var height' := Max(height, rank'[r1]);
      Ranked(parents[r2 := Some(r1)], rank', height') &&
      Root(parents[r2 := Some(r1)], rank', height', y) ==
        (if Root(parents, rank, height, y) == r2 then r1 else Root(parents, rank, height, y))
    decreases height - rank[y]
  {
    var rank' := MergedRank(rank, r1, r2);
    var height' := Max(height, rank'[r1]);
    var q := parents[r2 := Some(r1)];
    assert Ranked(q, rank', height');
    if y == r2 {
      assert Root(q, rank', height', r1) == r1;
    } else if parents[y].Some? {
      LinkRoots(parents, rank, height, r1, r2, parents[y].value);
    }
  }

  /** Every site has a contribution to mine `j`. */
  predicate Wide(base: seq<seq<int>>, j: int)
  {
    forall i :: 0 <= i < |base| ==> j < |base[i]|
  }

  /**
   * The cells are ranked, `roots` names each site's root, every cell and
   * contribution row has one entry per mine, and every root holds its
   * component's sums.
   */
  ghost predicate Consistent(cells: seq<Cell>, rank: seq<nat>, height: nat, roots: seq<int>, base: seq<seq<int>>,
                             width: nat)
  {
    Ranked(Parents(cells), rank, height) && RootsAre(roots, Parents(cells), rank, height) &&
    Sized(cells, base, width) && RootSums(cells, roots, base, width)
  }

  /** Every cell and contribution row has one entry per mine. */
  ghost predicate Sized(cells: seq<Cell>, base: seq<seq<int>>, width: nat)
  {
    |base| == |cells| && forall i :: 0 <= i < |cells| ==> |cells[i].scores| == width && |base[i]| == width
  }

  /** Every root cell holds, per mine, its component's sum. */
  ghost predicate RootSums(cells: seq<Cell>, roots: seq<int>, base: seq<seq<int>>, width: nat)
    requires Sized(cells, base, width) && |roots| == |cells|
  {
    forall r, j {:trigger CellScore(cells, r, j)} :: 0 <= r < |cells| && cells[r].parent.None? && 0 <= j < width ==>
      CellScore(cells, r, j) == ComponentSum(roots, base, r, j)
  }

  /** The score cell `r` holds for mine `j`. */
  function CellScore(cells: seq<Cell>, r: int, j: int): int
    requires 0 <= r < |cells| && 0 <= j < |cells[r].scores|
  {
    cells[r].scores[j]
  }

  /** The sum over the first `k` sites whose root is `r` of their contributions to mine `j`. */
  function ComponentSumTo(roots: seq<int>, base: seq<seq<int>>, r: int, j: int, k: nat): int
    requires k <= |roots| == |base| && 0 <= j && Wide(base, j)
  {
    if k == 0 then 0
    else ComponentSumTo(roots, base, r, j, k - 1) + (if roots[k - 1] == r then base[k - 1][j] else 0)
  }

  /** A component's total contribution to mine `j`. */
  function ComponentSum(roots: seq<int>, base: seq<seq<int>>, r: int, j: int): int
    requires |roots| == |base| && 0 <= j && Wide(base, j)
  {
    ComponentSumTo(roots, base, r, j, |roots|)
  }

  /** After a union the new root sums both components; every other root keeps its sum. */
  lemma {:induction false} UnionSums(roots: seq<int>, base: seq<seq<int>>, r1: int, r2: int, r: int, j: int, k: nat)
    requires k <= |roots| == |base| && 0 <= j && Wide(base, j)
    requires r1 != r2 && r != r2
    ensures ComponentSumTo(UnionRoots(roots, r1, r2), base, r, j, k) ==
      ComponentSumTo(roots, base, r, j, k) + (if r == r1 then ComponentSumTo(roots, base, r2, j, k) else 0)
  {
    if k > 0 {
      UnionSums(roots, base, r1, r2, r, j, k - 1);
    }
  }

  /** While every site is its own root, a component's sum is its root's own contribution. */
  lemma {:induction false} SingletonSum(roots: seq<int>, base: seq<seq<int>>, r: int, j: int, k: nat)
    requires k <= |roots| == |base| && 0 <= j && Wide(base, j)
    requires forall i :: 0 <= i < |roots| ==> roots[i] == i
    ensures ComponentSumTo(roots, base, r, j, k) == if 0 <= r < k then base[r][j] else 0
  {
    if k > 0 {
      SingletonSum(roots, base, r, j, k - 1);
    }
  }

  /** Changing one site's contribution changes its component's sum by as much, and no other. */
  lemma {:induction false} ContributionChange(roots: seq<int>, base: seq<seq<int>>, x: int, j: int, v: int,
                                             r: int, jj: int, k: nat)
    requires k <= |roots| == |base| && 0 <= x < |base| && 0 <= j < |base[x]|
    requires 0 <= jj && Wide(base, jj)
    ensures ComponentSumTo(roots, base[x := base[x][j := v]], r, jj, k) ==
      ComponentSumTo(roots, base, r, jj, k) + (if x < k && roots[x] == r && j == jj then v - base[x][j] else 0)
  {
    if k > 0 {
      ContributionChange(roots, base, x, j, v, r, jj, k - 1);
    }
  }

  /**
   * One punter's union-find set over the score cells. `roots[x]` is the
   * root of site `x`, `base[x][j]` the ghost contribution of site `x` to
   * mine `j`, and `width` the number of mines.
   */
  class UnionFindSet {
    var cells: seq<Cell>
    ghost var rank: seq<nat>
    ghost var height: nat
    ghost var roots: seq<int>
    ghost var base: seq<seq<int>>
    ghost var width: nat

    /** Every root holds, per mine, the sum of its component's contributions. */
    ghost predicate Valid()
      reads this
      ensures Valid() ==> |roots| == |cells| && |base| == |cells|
    {
      Consistent(cells, rank, height, roots, base, width)
    }

    constructor ()
      ensures Valid() && cells == [] && roots == [] && base == [] && width == 0
    {
      cells, rank, height, roots, base, width := [], [], 0, [], [], 0;
    }

    /** `Initialize`: one parentless cell without scores per site. */
    method Initialize(numSites: nat)
      requires cells == []
      modifies this
      ensures Valid() && width == 0
      ensures cells == seq(numSites, _ => Cell(None, []))
      ensures roots == Identity(numSites)
    {
      cells := [];
      var i := 0;
      while i < numSites
        invariant 0 <= i <= numSites && cells == seq(i, _ => Cell(None, []))
      {
        cells := cells + [Cell(None, [])];
        i := i + 1;
      }
      rank, height, roots, base, width := seq(numSites, _ => 0), 0, Identity(numSites), seq(numSites, _ => []), 0;
      forall x | 0 <= x < numSites ensures Root(Parents(cells), rank, height, x) == x { }
    }

    /**
     * `SetDistanceMap`: every cell, still its own root, gets one score per
     * mine, the square of the site's distance to that mine.
     */
    method SetDistanceMap(distance: seq<seq<int>>)
      requires Valid() && width == 0
      requires forall i :: 0 <= i < |cells| ==> cells[i] == Cell(None, [])
      requires forall j :: 0 <= j < |distance| ==> |distance[j]| == |cells|
      modifies this
      ensures Valid() && |cells| == old(|cells|) && width == |distance| && roots == old(roots)
      ensures forall i :: 0 <= i < |cells| ==> cells[i] == Cell(None, SquaredDistances(distance, i))
      ensures |base| == |cells| && forall i :: 0 <= i < |cells| ==> base[i] == SquaredDistances(distance, i)
    {
      var n := |cells|;
      ghost var parents := Parents(cells);
      assert |roots| == n;
      forall x | 0 <= x < n ensures roots[x] == x {
        SingletonRoot(parents, rank, height, x);
      }
      var newCells: seq<Cell> := [];
      var i := 0;
      while i < n
        invariant 0 <= i <= n && |newCells| == i && unchanged(this)
        invariant forall k :: 0 <= k < i ==> newCells[k] == Cell(None, SquaredDistances(distance, k))
      {
        var scores := SquareColumn(distance, i);
        newCells := newCells + [Cell(None, scores)];
        i := i + 1;
      }
      cells := newCells;
      assert Parents(cells) == parents;
      width := |distance|;
      base := seq(n, k requires 0 <= k < n => SquaredDistances(distance, k));
      assert forall j :: 0 <= j < width ==> Wide(base, j);
      forall r, j | 0 <= r < n && 0 <= j < width
        ensures CellScore(cells, r, j) == ComponentSum(roots, base, r, j)
      {
        SingletonSum(roots, base, r, j, n);
      }
    }

    /**
     * `FindIndex`: the root of `x`; on the way back every visited cell is
     * re-pointed at the root. Roots and every site's root stay as they were.
     */
    method FindIndex(x: int) returns (r: int)
      requires Valid() && 0 <= x < |cells|
      modifies this
      decreases height - rank[x]
      ensures Valid() && |cells| == old(|cells|) && roots == old(roots) && base == old(base) && width == old(width)
      ensures 0 <= r < |cells| && r == roots[x] && cells[r].parent.None?
      ensures forall i :: 0 <= i < |cells| ==> cells[i].parent.None? == old(cells[i].parent.None?)
      ensures rank == old(rank) && height == old(height)
    {
      if cells[x].parent.None? {
        SingletonRoot(Parents(cells), rank, height, x);
        return x;
      }
      var p := cells[x].parent.value;
      assert rank[x] < rank[p];
      assert Root(Parents(cells), rank, height, x) == Root(Parents(cells), rank, height, p);
      r := FindIndex(p);
      CompressConsistent(cells, rank, height, roots, base, width, x);
      cells := cells[x := cells[x].(parent := Some(r))];
    }

    /** `GetScore(site, mine)`: the score of the site's component for that mine. */
    method GetScore(site: int, mine: int) returns (score: int)
      requires Valid() && 0 <= site < |cells| && 0 <= mine < width
      modifies this
      ensures Valid() && roots == old(roots) && base == old(base) && width == old(width)
      ensures |cells| == old(|cells|)
      ensures score == ComponentSum(roots, base, roots[site], mine)
    {
      var index := FindIndex(site);
      score := cells[index].scores[mine];
      assert score == CellScore(cells, index, mine);
    }

    /** `IsConnected`: whether both sites have the same root. */
    method IsConnected(site1: int, site2: int) returns (b: bool)
      requires Valid() && 0 <= site1 < |cells| && 0 <= site2 < |cells|
      modifies this
      ensures Valid() && roots == old(roots) && base == old(base) && width == old(width)
      ensures |cells| == old(|cells|)
      ensures b <==> roots[site1] == roots[site2]
    {
      var r1 := FindIndex(site1);
      var r2 := FindIndex(site2);
      b := r1 == r2;
    }

    /**
     * `Merge`: unless both sites share a root, the first root takes the
     * element-wise sum of both roots' scores and the second root is hung
     * under it.
     */
    method Merge(site1: int, site2: int)
      requires Valid() && 0 <= site1 < |cells| && 0 <= site2 < |cells|
      modifies this
      ensures Valid() && base == old(base) && width == old(width) && |cells| == old(|cells|)
      ensures roots == UnionRoots(old(roots), old(roots)[site1], old(roots)[site2])
    {
      var root1 := FindIndex(site1);
      var root2 := FindIndex(site2);
      if root1 == root2 {
        assert roots == UnionRoots(roots, root1, root2);
        return;
      }
      var sum := AddScores(cells[root1].scores, cells[root2].scores);
      LinkConsistent(cells, rank, height, roots, base, width, root1, root2, sum);
      cells, rank, height, roots := Linked(cells, root1, root2, sum), MergedRank(rank, root1, root2),
                                    Max(height, MergedRank(rank, root1, root2)[root1]), UnionRoots(roots, root1, root2);
    }

    /**
     * `AddFuture`: the mine's own cell, which must hold 0 for that mine,
     * gets `-d^3` and the target's cell gains `2 d^3`. A cell written while
     * it is a root moves its component's sum by as much; the contributions
     * record that change.
     */
    method AddFuture(mineIndex: int, mineSite: int, targetSite: int, distance: int)
      requires Valid() && 0 <= mineIndex < width && 0 <= mineSite < |cells| && 0 <= targetSite < |cells|
      requires cells[mineSite].scores[mineIndex] == 0
      modifies this
      ensures Valid() && width == old(width) && roots == old(roots) && |cells| == old(|cells|)
      ensures cells == FutureCells(old(cells), mineIndex, mineSite, targetSite, distance)
      ensures base == FutureBase(old(base), roots, mineIndex, mineSite, targetSite, distance)
    {
      FutureConsistent(cells, rank, height, roots, base, width, mineIndex, mineSite, targetSite, distance);
      cells, base := FutureCells(cells, mineIndex, mineSite, targetSite, distance),
                     FutureBase(base, roots, mineIndex, mineSite, targetSite, distance);
    }
  }

  /** The identity partition: every site its own root. */
  function Identity(n: nat): (r: seq<int>)
    ensures |r| == n && forall x :: 0 <= x < n ==> r[x] == x
  {
    seq(n, x => x)
  }

  /** Site `i`'s squared distance to each mine. */
  function SquaredDistances(distance: seq<seq<int>>, i: int): (r: seq<int>)
    requires 0 <= i && forall j :: 0 <= j < |distance| ==> i < |distance[j]|
    ensures |r| == |distance|
    ensures forall j :: 0 <= j < |distance| ==> r[j] == distance[j][i] * distance[j][i]
  {
    seq(|distance|, j requires 0 <= j < |distance| => distance[j][i] * distance[j][i])
  }

  /** The inner loop of `SetDistanceMap`: one cell's scores, mine by mine. */
  method SquareColumn(distance: seq<seq<int>>, i: int) returns (scores: seq<int>)
    requires 0 <= i && forall j :: 0 <= j < |distance| ==> i < |distance[j]|
    ensures scores == SquaredDistances(distance, i)
  {
    scores := [];
    var j := 0;
    while j < |distance|
      invariant 0 <= j <= |distance| && |scores| == j
      invariant forall jj :: 0 <= jj < j ==> scores[jj] == distance[jj][i] * distance[jj][i]
    {
      var dist := distance[j][i];
      scores := scores + [dist * dist];
      j := j + 1;
    }
  }

  /** The element-wise sum of two score lists, as `Merge`'s loop adds them. */
  method AddScores(a: seq<int>, b: seq<int>) returns (c: seq<int>)
    requires |a| == |b|
    ensures |c| == |a| && forall j :: 0 <= j < |a| ==> c[j] == a[j] + b[j]
  {
    c := a;
    var i := 0;
    while i < |c|
      invariant 0 <= i <= |c| == |a|
      invariant forall j :: 0 <= j < i ==> c[j] == a[j] + b[j]
      invariant forall j :: i <= j < |a| ==> c[j] == a[j]
    {
      c := c[i := c[i] + b[i]];
      i := i + 1;
    }
  }

  /**
   * Hanging root `r2` under root `r1`, with `r1` holding the sum of both
   * roots' scores, keeps the cells consistent and unites the two components.
   */
  lemma LinkConsistent(cells: seq<Cell>, rank: seq<nat>, height: nat, roots: seq<int>, base: seq<seq<int>>,
                       width: nat, r1: int, r2: int, sum: seq<int>)
    requires Consistent(cells, rank, height, roots, base, width)
    requires 0 <= r1 < |cells| && 0 <= r2 < |cells| && r1 != r2
    requires cells[r1].parent.None? && cells[r2].parent.None?
    requires |sum| == width && forall j :: 0 <= j < width ==> sum[j] == cells[r1].scores[j] + cells[r2].scores[j]
    ensures Consistent(Linked(cells, r1, r2, sum), MergedRank(rank, r1, r2), Max(height, MergedRank(rank, r1, r2)[r1]),
                       UnionRoots(roots, r1, r2), base, width)
  {
    var parents := Parents(cells);
    assert Parents(Linked(cells, r1, r2, sum)) == parents[r2 := Some(r1)];
    LinkRanked(parents, rank, height, roots, r1, r2);
    LinkSums(cells, roots, base, width, r1, r2, sum);
  }

  /** Hanging root `r2` under root `r1` keeps the ranking and moves `r2`'s component to `r1`. */
  lemma LinkRanked(parents: seq<Option<int>>, rank: seq<nat>, height: nat, roots: seq<int>, r1: int, r2: int)
    requires Ranked(parents, rank, height) && RootsAre(roots, parents, rank, height)
    requires 0 <= r1 < |parents| && 0 <= r2 < |parents| && r1 != r2
    requires parents[r1].None? && parents[r2].None?
    ensures var rank' := MergedRank(rank, r1, r2);
      Ranked(parents[r2 := Some(r1)], rank', Max(height, rank'[r1])) &&
      RootsAre(UnionRoots(roots, r1, r2), parents[r2 := Some(r1)], rank', Max(height, rank'[r1]))
  {
    var rank' := MergedRank(rank, r1, r2);
    var height' := Max(height, rank'[r1]);
    LinkRoots(parents, rank, height, r1, r2, r1);
    SingletonRoot(parents, rank, height, r1);
    SingletonRoot(parents, rank, height, r2);
    forall y | 0 <= y < |parents|
      ensures Root(parents[r2 := Some(r1)], rank', height', y) == UnionRoots(roots, r1, r2)[y]
    {
      LinkRoots(parents, rank, height, r1, r2, y);
    }
  }

  /** The linked cells hold the sums of the united components at their roots. */
  lemma LinkSums(cells: seq<Cell>, roots: seq<int>, base: seq<seq<int>>, width: nat, r1: int, r2: int, sum: seq<int>)
    requires Sized(cells, base, width) && |roots| == |cells| && RootSums(cells, roots, base, width)
    requires 0 <= r1 < |cells| && 0 <= r2 < |cells| && r1 != r2
    requires cells[r1].parent.None? && cells[r2].parent.None?
    requires |sum| == width && forall j :: 0 <= j < width ==> sum[j] == cells[r1].scores[j] + cells[r2].scores[j]
    ensures Sized(Linked(cells, r1, r2, sum), base, width)
    ensures RootSums(Linked(cells, r1, r2, sum), UnionRoots(roots, r1, r2), base, width)
  {
    var cells' := Linked(cells, r1, r2, sum);
    forall r, j | 0 <= r < |cells| && cells'[r].parent.None? && 0 <= j < width
      ensures CellScore(cells', r, j) == ComponentSum(UnionRoots(roots, r1, r2), base, r, j)
    {
      assert CellScore(cells, r, j) == ComponentSum(roots, base, r, j);
      assert CellScore(cells, r2, j) == ComponentSum(roots, base, r2, j);
      UnionSums(roots, base, r1, r2, r, j, |cells|);
    }
  }

  /** Path compression of a non-root `x` straight to its root keeps every invariant. */
  lemma CompressConsistent(cells: seq<Cell>, rank: seq<nat>, height: nat, roots: seq<int>, base: seq<seq<int>>,
                           width: nat, x: int)
    requires Consistent(cells, rank, height, roots, base, width) && 0 <= x < |cells| && cells[x].parent.Some?
    ensures Consistent(cells[x := cells[x].(parent := Some(roots[x]))], rank, height, roots, base, width)
  {
    var before := Parents(cells);
    assert roots[x] == Root(before, rank, height, x);
    forall y | 0 <= y < |cells| ensures Root(before[x := Some(roots[x])], rank, height, y) == Root(before, rank, height, y) {
      CompressKeepsRoots(before, rank, height, x, y);
    }
    CompressKeepsRoots(before, rank, height, x, x);
    var c := cells[x := cells[x].(parent := Some(roots[x]))];
    assert Parents(c) == before[x := Some(roots[x])];
    forall y | 0 <= y < |c| ensures roots[y] == Root(Parents(c), rank, height, y) {
      assert roots[y] == Root(before, rank, height, y);
    }
    forall q, j | 0 <= q < |c| && c[q].parent.None? && 0 <= j < width
      ensures CellScore(c, q, j) == ComponentSum(roots, base, q, j)
    {
      assert CellScore(cells, q, j) == ComponentSum(roots, base, q, j);
    }
  }

  /** Root `r1` holding `sum` and root `r2` hung under it. */
  function Linked(cells: seq<Cell>, r1: int, r2: int, sum: seq<int>): seq<Cell>
    requires 0 <= r1 < |cells| && 0 <= r2 < |cells|
  {
    cells[r1 := cells[r1].(scores := sum)][r2 := cells[r2].(parent := Some(r1))]
  }

  /** A root is its own root. */
  lemma SingletonRoot(parents: seq<Option<int>>, rank: seq<nat>, height: nat, x: int)
    requires Ranked(parents, rank, height) && 0 <= x < |parents| && parents[x].None?
    ensures Root(parents, rank, height, x) == x
  {
  }

  /**
   * Writing one score of one cell keeps every root's sums when, if the
   * cell is a root, its site's contribution moves by the same amount.
   */
  lemma WriteSums(cells: seq<Cell>, roots: seq<int>, base: seq<seq<int>>, width: nat, site: int, mine: int, v: int)
    requires Sized(cells, base, width) && |roots| == |cells| && RootSums(cells, roots, base, width)
    requires 0 <= site < |cells| && 0 <= mine < width
    requires cells[site].parent.None? <==> roots[site] == site
    ensures Sized(WithScore(cells, site, mine, v), if roots[site] == site then Bump(base, site, mine, v - cells[site].scores[mine]) else base, width)
    ensures RootSums(WithScore(cells, site, mine, v), roots,
                     if roots[site] == site then Bump(base, site, mine, v - cells[site].scores[mine]) else base, width)
  {
    var cells' := WithScore(cells, site, mine, v);
    var base' := if roots[site] == site then Bump(base, site, mine, v - cells[site].scores[mine]) else base;
    forall r, j | 0 <= r < |cells| && cells'[r].parent.None? && 0 <= j < width
      ensures CellScore(cells', r, j) == ComponentSum(roots, base', r, j)
    {
      assert CellScore(cells, r, j) == ComponentSum(roots, base, r, j);
      if roots[site] == site {
        ContributionChange(roots, base, site, mine, base'[site][mine], r, j, |cells|);
      }
    }
  }

  /** `AddFuture`'s two writes keep the cells consistent. */
  lemma FutureConsistent(cells: seq<Cell>, rank: seq<nat>, height: nat, roots: seq<int>, base: seq<seq<int>>,
                         width: nat, mineIndex: int, mineSite: int, targetSite: int, distance: int)
    requires Consistent(cells, rank, height, roots, base, width)
    requires 0 <= mineIndex < width && 0 <= mineSite < |cells| && 0 <= targetSite < |cells|
    requires cells[mineSite].scores[mineIndex] == 0
    ensures Consistent(FutureCells(cells, mineIndex, mineSite, targetSite, distance), rank, height, roots,
                       FutureBase(base, roots, mineIndex, mineSite, targetSite, distance), width)
  {
    var parents := Parents(cells);
    assert roots[mineSite] == Root(parents, rank, height, mineSite);
    assert roots[targetSite] == Root(parents, rank, height, targetSite);
    FutureSums(cells, roots, base, width, mineIndex, mineSite, targetSite, distance);
  }

  /** `AddFuture`'s two writes keep every parent link and every root's sums. */
  lemma FutureSums(cells: seq<Cell>, roots: seq<int>, base: seq<seq<int>>, width: nat,
                   mineIndex: int, mineSite: int, targetSite: int, distance: int)
    requires Sized(cells, base, width) && |roots| == |cells| && RootSums(cells, roots, base, width)
    requires 0 <= mineIndex < width && 0 <= mineSite < |cells| && 0 <= targetSite < |cells|
    requires cells[mineSite].scores[mineIndex] == 0
    requires cells[mineSite].parent.None? <==> roots[mineSite] == mineSite
    requires cells[targetSite].parent.None? <==> roots[targetSite] == targetSite
    ensures Parents(FutureCells(cells, mineIndex, mineSite, targetSite, distance)) == Parents(cells)
    ensures Sized(FutureCells(cells, mineIndex, mineSite, targetSite, distance),
                  FutureBase(base, roots, mineIndex, mineSite, targetSite, distance), width)
    ensures RootSums(FutureCells(cells, mineIndex, mineSite, targetSite, distance), roots,
                     FutureBase(base, roots, mineIndex, mineSite, targetSite, distance), width)
  {
    var score := Cube(distance);
    WriteSums(cells, roots, base, width, mineSite, mineIndex, -score);
    assert -score - cells[mineSite].scores[mineIndex] == -score;
    var c1 := WithScore(cells, mineSite, mineIndex, -score);
    var b1 := if roots[mineSite] == mineSite then Bump(base, mineSite, mineIndex, -score) else base;
    var raised := c1[targetSite].scores[mineIndex] + 2 * score;
    WriteSums(c1, roots, b1, width, targetSite, mineIndex, raised);
    assert raised - c1[targetSite].scores[mineIndex] == 2 * score;
    var c2 := WithScore(c1, targetSite, mineIndex, raised);
    assert Parents(c2) == Parents(cells);
  }

  /** Cell `site` with its score for `mine` set to `v`. */
  function WithScore(cells: seq<Cell>, site: int, mine: int, v: int): (r: seq<Cell>)
    requires 0 <= site < |cells| && 0 <= mine < |cells[site].scores|
    ensures |r| == |cells| && forall x :: 0 <= x < |cells| ==> r[x].parent == cells[x].parent
  {
    cells[site := cells[site].(scores := cells[site].scores[mine := v])]
  }

  /** Site `site`'s contribution to mine `mine` moved by `delta`. */
  function Bump(base: seq<seq<int>>, site: int, mine: int, delta: int): seq<seq<int>>
    requires 0 <= site < |base| && 0 <= mine < |base[site]|
  {
    base[site := base[site][mine := base[site][mine] + delta]]
  }

  /** The value of a future at distance `d`: `d^3`. */
  function Cube(d: int): int
  {
    d * d * d
  }

  /** The cells after `AddFuture`: the mine's cell set to `-d^3`, then the target's raised by `2 d^3`. */
  function FutureCells(cells: seq<Cell>, mineIndex: int, mineSite: int, targetSite: int, distance: int): (r: seq<Cell>)
    requires 0 <= mineSite < |cells| && 0 <= targetSite < |cells|
    requires 0 <= mineIndex < |cells[mineSite].scores| && 0 <= mineIndex < |cells[targetSite].scores|
    ensures |r| == |cells|
  {
    var c1 := WithScore(cells, mineSite, mineIndex, -Cube(distance));
    WithScore(c1, targetSite, mineIndex, c1[targetSite].scores[mineIndex] + 2 * Cube(distance))
  }

  /** The contributions after `AddFuture`, following the two cell writes while the written sites are roots. */
  ghost function FutureBase(base: seq<seq<int>>, roots: seq<int>, mineIndex: int, mineSite: int, targetSite: int,
                            distance: int): seq<seq<int>>
    requires |base| == |roots| && 0 <= mineSite < |roots| && 0 <= targetSite < |roots|
    requires 0 <= mineIndex < |base[mineSite]| && 0 <= mineIndex < |base[targetSite]|
  {
    var b1 := if roots[mineSite] == mineSite then Bump(base, mineSite, mineIndex, -Cube(distance)) else base;
    if roots[targetSite] == targetSite then Bump(b1, targetSite, mineIndex, 2 * Cube(distance)) else b1
  }
}
