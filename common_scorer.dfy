/**
 * The engine's incremental scorer: the tables of `ScoreTables` plus one
 * union-find set of score cells per punter. A punter's score is, over the
 * mines in index order, the score its component holds for that mine.
 */
module CommonScorer {
  import opened Wrappers
  import opened Graph
  import opened Sorting
  import opened GameData
  import opened ScoreTables
  import opened UnionFind

  /** Roots and contributions cover the same sites, the mines are sites, and every site has one contribution per mine. */
  predicate Shaped(roots: seq<int>, base: seq<seq<int>>, mines: seq<int>)
  {
    |roots| == |base| &&
    (forall i :: 0 <= i < |mines| ==> 0 <= mines[i] < |roots|) &&
    (forall x :: 0 <= x < |base| ==> |base[x]| == |mines|)
  }

  /** What the mine with list position `i` is worth: its component's sum for that mine. */
  function MineTerm(roots: seq<int>, base: seq<seq<int>>, mines: seq<int>, i: int): int
    requires Shaped(roots, base, mines) && 0 <= i < |mines|
  {
    assert Wide(base, i);
    ComponentSum(roots, base, roots[mines[i]], i)
  }

  /** The score over the first `k` mines. */
  function MinesTotal(roots: seq<int>, base: seq<seq<int>>, mines: seq<int>, k: nat): int
    requires Shaped(roots, base, mines) && k <= |mines|
  {
    if k == 0 then 0 else MinesTotal(roots, base, mines, k - 1) + MineTerm(roots, base, mines, k - 1)
  }

  /**
   * The effect of one claim on a mine's term: after uniting the components
   * of `a` and `b`, a mine joined to one of them gains the other's sum for
   * that mine, and every other mine keeps its term.
   */
  lemma UnionTerm(roots: seq<int>, base: seq<seq<int>>, mines: seq<int>, a: int, b: int, i: int)
    requires Shaped(roots, base, mines) && 0 <= a < |roots| && 0 <= b < |roots| && 0 <= i < |mines|
    requires roots[a] != roots[b]
    ensures Shaped(UnionRoots(roots, roots[a], roots[b]), base, mines)
    ensures MineTerm(UnionRoots(roots, roots[a], roots[b]), base, mines, i) ==
      MineTerm(roots, base, mines, i) +
      (if roots[mines[i]] == roots[a] then ComponentSum(roots, base, roots[b], i)
       else if roots[mines[i]] == roots[b] then ComponentSum(roots, base, roots[a], i)
       else 0)
  {
    var u := UnionRoots(roots, roots[a], roots[b]);
    assert Wide(base, i);
    var r := u[mines[i]];
    UnionSums(roots, base, roots[a], roots[b], r, i, |roots|);
  }

  /** A union keeps the shape. */
  lemma UnionShaped(roots: seq<int>, base: seq<seq<int>>, mines: seq<int>, a: int, b: int)
    requires Shaped(roots, base, mines) && 0 <= a < |roots| && 0 <= b < |roots|
    ensures Shaped(UnionRoots(roots, roots[a], roots[b]), base, mines)
  {
  }

  /** The chain of unions a splurge performs, one per consecutive pair of its route. */
  function SplurgeRoots(roots: seq<int>, path: seq<int>): (r: seq<int>)
    requires forall k :: 0 <= k < |path| ==> 0 <= path[k] < |roots|
    ensures |r| == |roots|
    decreases |path|
  {
    if |path| < 2 then roots
    else SplurgeRoots(UnionRoots(roots, roots[path[0]], roots[path[1]]), path[1..])
  }

  /** A splurge from position `i` is the union of its first pair followed by the splurge from `i + 1`. */
  lemma SplurgeStep(roots: seq<int>, path: seq<int>, i: int)
    requires forall k :: 0 <= k < |path| ==> 0 <= path[k] < |roots|
    requires 0 <= i && i + 1 < |path|
    ensures SplurgeRoots(roots, path[i..]) ==
      SplurgeRoots(UnionRoots(roots, roots[path[i]], roots[path[i + 1]]), path[i + 1..])
  {
    assert path[i..][1..] == path[i + 1..];
  }

  /** A union keeps every pair that shared a root together, and joins its two sites. */
  lemma UnionJoins(roots: seq<int>, a: int, b: int)
    requires 0 <= a < |roots| && 0 <= b < |roots|
    ensures var u := UnionRoots(roots, roots[a], roots[b]);
      u[a] == u[b] &&
      forall x, y :: 0 <= x < |roots| && 0 <= y < |roots| && roots[x] == roots[y] ==> u[x] == u[y]
  {
  }

  /**
   * After a splurge every site of its route shares one root, and sites that
   * shared a root before still do.
   */
  lemma {:induction false} SplurgeConnects(roots: seq<int>, path: seq<int>)
    requires forall k :: 0 <= k < |path| ==> 0 <= path[k] < |roots|
    ensures forall k :: 0 <= k < |path| ==> SplurgeRoots(roots, path)[path[k]] == SplurgeRoots(roots, path)[path[0]]
    ensures forall x, y :: 0 <= x < |roots| && 0 <= y < |roots| && roots[x] == roots[y] ==>
      SplurgeRoots(roots, path)[x] == SplurgeRoots(roots, path)[y]
    decreases |path|
  {
    if |path| >= 2 {
      var u := UnionRoots(roots, roots[path[0]], roots[path[1]]);
      UnionJoins(roots, path[0], path[1]);
      SplurgeConnects(u, path[1..]);
      forall k | 0 <= k < |path|
        ensures SplurgeRoots(roots, path)[path[k]] == SplurgeRoots(roots, path)[path[0]]
      {
        if k > 0 {
          assert path[k] == path[1..][k - 1];
        }
      }
    }
  }

  /** A root list over `n` sites in which every site is its own root. */
  predicate Singletons(roots: seq<int>)
  {
    forall x :: 0 <= x < |roots| ==> roots[x] == x
  }

  /**
   * Before any claim or future every site is its own component holding its
   * squared distance to each mine, so each mine is worth its own squared
   * distance, 0, and the score is 0.
   */
  lemma {:induction false} FreshScoreZero(roots: seq<int>, base: seq<seq<int>>, mines: seq<int>,
                                          distance: seq<seq<int>>, k: nat)
    requires Shaped(roots, base, mines) && Singletons(roots) && k <= |mines| && |distance| == |mines|
    requires forall i :: 0 <= i < |mines| ==> |distance[i]| == |roots| && distance[i][mines[i]] == 0
    requires forall x :: 0 <= x < |base| ==> base[x] == SquaredDistances(distance, x)
    ensures MinesTotal(roots, base, mines, k) == 0
  {
    if k > 0 {
      FreshScoreZero(roots, base, mines, distance, k - 1);
      var i := k - 1;
      assert Wide(base, i);
      SingletonSum(roots, base, mines[i], i, |roots|);
    }
  }

  /**
   * A future from mine position `i` to site `t` at distance `d` (written
   * while both cells are roots) is worth `d^3` once the target shares the
   * mine's component and `-d^3` while it does not; no other mine's term
   * changes.
   */
  lemma FuturePays(roots: seq<int>, base: seq<seq<int>>, mines: seq<int>, i: int, t: int, d: int, j: int)
    requires Shaped(roots, base, mines) && 0 <= i < |mines| && 0 <= t < |roots| && 0 <= j < |mines|
    ensures var s := Cube(d);
      var m := mines[i];
      var b2 := Bump(Bump(base, m, i, -s), t, i, 2 * s);
      Shaped(roots, b2, mines) &&
      MineTerm(roots, b2, mines, j) ==
        MineTerm(roots, base, mines, j) + (if j == i then (if roots[t] == roots[m] then s else -s) else 0)
  {
    var s := Cube(d);
    var m := mines[i];
    var b1 := Bump(base, m, i, -s);
    assert Wide(base, j) && Wide(b1, j);
    ContributionChange(roots, base, m, i, base[m][i] + -s, roots[mines[j]], j, |roots|);
    ContributionChange(roots, b1, t, i, b1[t][i] + 2 * s, roots[mines[j]], j, |roots|);
  }

  /** A change to one mine's term moves the total by as much. */
  lemma {:induction false} TotalShift(roots: seq<int>, base: seq<seq<int>>, base': seq<seq<int>>, mines: seq<int>,
                                      i: int, delta: int, k: nat)
    requires Shaped(roots, base, mines) && Shaped(roots, base', mines) && k <= |mines|
    requires forall j :: 0 <= j < |mines| ==>
      MineTerm(roots, base', mines, j) == MineTerm(roots, base, mines, j) + (if j == i then delta else 0)
    ensures MinesTotal(roots, base', mines, k) == MinesTotal(roots, base, mines, k) + (if 0 <= i < k then delta else 0)
  {
    if k > 0 {
      TotalShift(roots, base, base', mines, i, delta, k - 1);
    }
  }

  /** The sorted id and mine lists, and one distance per mine and site. */
  predicate TablesFit(siteIds: seq<int>, mines: seq<int>, distance: seq<seq<int>>)
  {
    Sorted(siteIds) && Sorted(mines) &&
    (forall i :: 0 <= i < |mines| ==> 0 <= mines[i] < |siteIds|) &&
    |distance| == |mines| &&
    (forall i :: 0 <= i < |mines| ==> |distance[i]| == |siteIds|)
  }

  /** A valid set with a cell per site and a score per mine. */
  ghost predicate Fits(uf: UnionFindSet, numSites: int, numMines: int)
    reads uf
  {
    uf.Valid() && |uf.cells| == numSites && uf.width == numMines
  }

  /** A set of `numSites` singleton cells, each holding the site's squared distances. */
  ghost predicate Pristine(uf: UnionFindSet, numSites: int, distance: seq<seq<int>>)
    reads uf
  {
    Fits(uf, numSites, |distance|) && Singletons(uf.roots) &&
    (forall j :: 0 <= j < |distance| ==> |distance[j]| == numSites) &&
    forall x :: 0 <= x < numSites ==> uf.base[x] == SquaredDistances(distance, x)
  }

  /** `count` new sets of `numSites` singleton cells, each holding the site's squared distances. */
  method FreshSets(count: nat, numSites: nat, distance: seq<seq<int>>) returns (sets: seq<UnionFindSet>)
    requires forall j :: 0 <= j < |distance| ==> |distance[j]| == numSites
    ensures |sets| == count
    ensures forall k :: 0 <= k < count ==> fresh(sets[k]) && Pristine(sets[k], numSites, distance)
    ensures forall k, l :: 0 <= k < l < count ==> sets[k] != sets[l]
  {
    sets := [];
    var p := 0;
    while p < count
      invariant 0 <= p <= count && |sets| == p
      invariant forall k :: 0 <= k < p ==> fresh(sets[k]) && Pristine(sets[k], numSites, distance)
      invariant forall k, l :: 0 <= k < l < p ==> sets[k] != sets[l]
    {
      var uf := FreshSet(numSites, distance);
      sets := sets + [uf];
      p := p + 1;
    }
  }

  /** One new set of `numSites` singleton cells holding squared distances. */
  method FreshSet(numSites: nat, distance: seq<seq<int>>) returns (uf: UnionFindSet)
    requires forall j :: 0 <= j < |distance| ==> |distance[j]| == numSites
    ensures fresh(uf) && Pristine(uf, numSites, distance)
  {
    uf := new UnionFindSet();
    uf.Initialize(numSites);
    uf.SetDistanceMap(distance);
  }

  /** The tables `Initialize` builds from the map before any set. */
  method BuildTables(gameMap: GameMap) returns (ids: seq<int>, mines: seq<int>, tables: seq<seq<int>>)
    requires RiversIn(gameMap.rivers, SiteIds(gameMap.sites)) && AllIn(gameMap.mines, SiteIds(gameMap.sites))
    ensures TablesFit(ids, mines, tables)
    ensures multiset(ids) == multiset(SiteIds(gameMap.sites))
    ensures RiversIn(gameMap.rivers, ids) && AllIn(gameMap.mines, ids)
    ensures forall i :: 0 <= i < |mines| ==> DistanceTable(RiverGraph(gameMap.rivers, ids), mines[i], tables[i], -1)
    ensures forall i :: 0 <= i < |mines| ==> tables[i][mines[i]] == 0
    ensures multiset(mines) == multiset(IndicesOf(gameMap.mines, ids))
  {
    ids := CreateSiteIdList(gameMap.sites);
    SameElementsSameMembers(ids, SiteIds(gameMap.sites));
    mines := CreateMineIndexList(gameMap.mines, ids);
    MineIndicesInRange(mines, gameMap.mines, ids);
    tables := InitializeDistanceMap(gameMap.rivers, ids, mines);
    DistanceMapAtMines(gameMap.rivers, ids, mines, tables);
  }

  /** A pristine set scores 0: each mine's component is the mine alone, at distance 0 from itself. */
  lemma PristineScoreZero(uf: UnionFindSet, siteIds: seq<int>, mines: seq<int>, distance: seq<seq<int>>)
    requires TablesFit(siteIds, mines, distance) && Pristine(uf, |siteIds|, distance)
    requires forall i :: 0 <= i < |mines| ==> distance[i][mines[i]] == 0
    ensures MinesTotal(uf.roots, uf.base, mines, |mines|) == 0
  {
    FreshScoreZero(uf.roots, uf.base, mines, distance, |mines|);
  }

  /** The loop of `GetScore`: each mine's score at the root of its site, summed. */
  method SumOverMines(uf: UnionFindSet, mines: seq<int>) returns (score: int)
    requires uf.Valid() && uf.width == |mines| && Shaped(uf.roots, uf.base, mines)
    modifies uf
    ensures Fits(uf, old(|uf.cells|), old(uf.width))
    ensures uf.roots == old(uf.roots) && uf.base == old(uf.base)
    ensures score == MinesTotal(uf.roots, uf.base, mines, |mines|)
  {
    ghost var roots := uf.roots;
    ghost var base := uf.base;
    ghost var n := |uf.cells|;
    score := 0;
    var i := 0;
    while i < |mines|
      invariant 0 <= i <= |mines| && uf.Valid() && |uf.cells| == n && uf.width == |mines|
      invariant uf.roots == roots && uf.base == base
      invariant score == MinesTotal(roots, base, mines, i)
    {
      var s := uf.GetScore(mines[i], i);
      score := score + s;
      i := i + 1;
    }
  }

  /**
   * The loop of `TryClaim` once the two ends lie in different components:
   * the gain of each mine, summed.
   */
  method UnionGain(uf: UnionFindSet, mines: seq<int>, a: int, b: int) returns (gain: int)
    requires uf.Valid() && uf.width == |mines| && Shaped(uf.roots, uf.base, mines)
    requires 0 <= a < |uf.cells| && 0 <= b < |uf.cells| && uf.roots[a] != uf.roots[b]
    modifies uf
    ensures Fits(uf, old(|uf.cells|), old(uf.width))
    ensures uf.roots == old(uf.roots) && uf.base == old(uf.base)
    ensures var roots := uf.roots;
      var united := UnionRoots(roots, roots[a], roots[b]);
      Shaped(united, uf.base, mines) &&
      gain == MinesTotal(united, uf.base, mines, |mines|) - MinesTotal(roots, uf.base, mines, |mines|)
  {
    ghost var roots := uf.roots;
    ghost var base := uf.base;
    ghost var n := |uf.cells|;
    ghost var united := UnionRoots(roots, roots[a], roots[b]);
    UnionShaped(roots, base, mines, a, b);
    gain := 0;
    var i := 0;
    while i < |mines|
      invariant 0 <= i <= |mines| && uf.Valid() && |uf.cells| == n && uf.width == |mines|
      invariant uf.roots == roots && uf.base == base
      invariant gain == MinesTotal(united, base, mines, i) - MinesTotal(roots, base, mines, i)
    {
      var s := MineGain(uf, mines, a, b, i);
      gain := gain + s;
      i := i + 1;
    }
  }

  /**
   * One mine's gain from uniting the components of `a` and `b`: a mine
   * joined to `a` gains `b`'s component sum, one joined to `b` gains
   * `a`'s, any other nothing.
   */
  method MineGain(uf: UnionFindSet, mines: seq<int>, a: int, b: int, i: int) returns (gain: int)
    requires uf.Valid() && uf.width == |mines| && Shaped(uf.roots, uf.base, mines) && 0 <= i < |mines|
    requires 0 <= a < |uf.cells| && 0 <= b < |uf.cells| && uf.roots[a] != uf.roots[b]
    modifies uf
    ensures uf.Valid() && |uf.cells| == old(|uf.cells|) && uf.width == old(uf.width)
    ensures uf.roots == old(uf.roots) && uf.base == old(uf.base)
    ensures var roots := uf.roots;
      var united := UnionRoots(roots, roots[a], roots[b]);
      Shaped(united, uf.base, mines) &&
      gain == MineTerm(united, uf.base, mines, i) - MineTerm(roots, uf.base, mines, i)
  {
    UnionTerm(uf.roots, uf.base, mines, a, b, i);
    var withFirst := uf.IsConnected(mines[i], a);
    if withFirst {
      gain := uf.GetScore(b, i);
    } else {
      var withSecond := uf.IsConnected(mines[i], b);
      if withSecond {
        gain := uf.GetScore(a, i);
      } else {
        gain := 0;
      }
    }
  }

  /** The loop of `GetConnectedMineList`. */
  method MinesJoined(uf: UnionFindSet, siteIds: seq<int>, mines: seq<int>, site: int) returns (result: seq<int>)
    requires uf.Valid() && |uf.cells| == |siteIds| && 0 <= site < |siteIds|
    requires forall i :: 0 <= i < |mines| ==> 0 <= mines[i] < |siteIds|
    modifies uf
    ensures Fits(uf, old(|uf.cells|), old(uf.width))
    ensures uf.roots == old(uf.roots) && uf.base == old(uf.base)
    ensures result == MinesWithRoot(siteIds, mines, uf.roots, uf.roots[site])
  {
    ghost var roots := uf.roots;
    ghost var base := uf.base;
    ghost var n := |uf.cells|;
    ghost var w := uf.width;
    result := [];
    var i := 0;
    while i < |mines|
      invariant 0 <= i <= |mines| && uf.Valid() && |uf.cells| == n && uf.width == w
      invariant uf.roots == roots && uf.base == base
      invariant result == MinesWithRoot(siteIds, mines[..i], roots, roots[site])
    {
      assert mines[..i + 1][..i] == mines[..i];
      var connected := uf.IsConnected(mines[i], site);
      if connected {
        result := result + [siteIds[mines[i]]];
      }
      i := i + 1;
    }
    assert mines[..i] == mines;
  }

  /** The loop of `GetConnectedSiteList`. */
  method SitesJoined(uf: UnionFindSet, siteIds: seq<int>, site: int) returns (result: seq<int>)
    requires uf.Valid() && |uf.cells| == |siteIds| && 0 <= site < |siteIds|
    modifies uf
    ensures Fits(uf, old(|uf.cells|), old(uf.width))
    ensures uf.roots == old(uf.roots) && uf.base == old(uf.base)
    ensures result == SitesWithRoot(siteIds, uf.roots, uf.roots[site], |siteIds|)
  {
    ghost var roots := uf.roots;
    ghost var base := uf.base;
    ghost var n := |uf.cells|;
    ghost var w := uf.width;
    result := [];
    var i := 0;
    while i < |siteIds|
      invariant 0 <= i <= |siteIds| && uf.Valid() && |uf.cells| == n && uf.width == w
      invariant uf.roots == roots && uf.base == base
      invariant result == SitesWithRoot(siteIds, roots, roots[site], i)
    {
      var connected := uf.IsConnected(i, site);
      if connected {
        result := result + [siteIds[i]];
      }
      i := i + 1;
    }
  }

  /** A future whose source is a mine's site and whose target is a site. */
  predicate FutureIn(siteIds: seq<int>, mines: seq<int>, f: Future)
  {
    Sorted(siteIds) && Sorted(mines) && f.source in siteIds && f.target in siteIds &&
    GetIndex(siteIds, f.source) in mines
  }

  /** The position, in the mine list, of a future's mine. */
  function MinePosition(siteIds: seq<int>, mines: seq<int>, f: Future): (i: int)
    requires FutureIn(siteIds, mines, f)
    ensures 0 <= i < |mines| && mines[i] == GetIndex(siteIds, f.source)
  {
    GetIndex(mines, GetIndex(siteIds, f.source))
  }

  /** Futures from different mines write different slots. */
  lemma FutureSlotsDiffer(siteIds: seq<int>, mines: seq<int>, f: Future, g: Future)
    requires FutureIn(siteIds, mines, f) && FutureIn(siteIds, mines, g) && f.source != g.source
    ensures MinePosition(siteIds, mines, f) != MinePosition(siteIds, mines, g)
  {
  }

  /** Every future names a mine and a site, and no two share a mine. */
  predicate FuturesIn(siteIds: seq<int>, mines: seq<int>, futures: seq<Future>)
  {
    (forall k :: 0 <= k < |futures| ==> FutureIn(siteIds, mines, futures[k])) &&
    (forall k, l :: 0 <= k < l < |futures| ==> futures[k].source != futures[l].source)
  }

  /** A future's worth on a partition: `d^3` when its target shares its mine's component, `-d^3` otherwise. */
  function FutureValue(siteIds: seq<int>, mines: seq<int>, distance: seq<seq<int>>, f: Future, roots: seq<int>): int
    requires TablesFit(siteIds, mines, distance) && |roots| == |siteIds| && FutureIn(siteIds, mines, f)
  {
    var m := MinePosition(siteIds, mines, f);
    var t := GetIndex(siteIds, f.target);
    var d := distance[m][t];
    if roots[t] == roots[mines[m]] then Cube(d) else -Cube(d)
  }

  /** The worth of a list of futures. */
  function FuturesValue(siteIds: seq<int>, mines: seq<int>, distance: seq<seq<int>>, futures: seq<Future>,
                        roots: seq<int>): int
    requires TablesFit(siteIds, mines, distance) && |roots| == |siteIds|
    requires forall k :: 0 <= k < |futures| ==> FutureIn(siteIds, mines, futures[k])
  {
    if futures == [] then 0
    else FuturesValue(siteIds, mines, distance, futures[..|futures| - 1], roots) +
         FutureValue(siteIds, mines, distance, futures[|futures| - 1], roots)
  }

  /**
   * One future on singleton components moves the total by its worth: the
   * contributions change as `FutureBase` says, both cells being roots.
   */
  lemma FutureStep(roots: seq<int>, base: seq<seq<int>>, mines: seq<int>, i: int, t: int, d: int)
    requires Shaped(roots, base, mines) && Singletons(roots)
    requires 0 <= i < |mines| && 0 <= t < |roots|
    ensures var b := FutureBase(base, roots, i, mines[i], t, d);
      Shaped(roots, b, mines) &&
      MinesTotal(roots, b, mines, |mines|) ==
      MinesTotal(roots, base, mines, |mines|) + (if t == mines[i] then Cube(d) else -Cube(d))
  {
    var b := FutureBase(base, roots, i, mines[i], t, d);
    var delta := if t == mines[i] then Cube(d) else -Cube(d);
    forall j | 0 <= j < |mines|
      ensures MineTerm(roots, b, mines, j) == MineTerm(roots, base, mines, j) + (if j == i then delta else 0)
    {
      FuturePays(roots, base, mines, i, t, d, j);
    }
    TotalShift(roots, base, b, mines, i, delta, |mines|);
  }

  /** Extending a list of futures by one adds that future's worth. */
  lemma FuturesValueStep(siteIds: seq<int>, mines: seq<int>, distance: seq<seq<int>>, futures: seq<Future>, i: int,
                         roots: seq<int>)
    requires TablesFit(siteIds, mines, distance) && |roots| == |siteIds| && 0 <= i < |futures|
    requires forall k :: 0 <= k < |futures| ==> FutureIn(siteIds, mines, futures[k])
    ensures FuturesValue(siteIds, mines, distance, futures[..i + 1], roots) ==
      FuturesValue(siteIds, mines, distance, futures[..i], roots) + FutureValue(siteIds, mines, distance, futures[i], roots)
  {
    assert futures[..i + 1][..i] == futures[..i];
  }

  /** The loop of `AddFuture` over one set. */
  method AddFutures(uf: UnionFindSet, siteIds: seq<int>, mines: seq<int>, distance: seq<seq<int>>, futures: seq<Future>)
    requires TablesFit(siteIds, mines, distance) && Fits(uf, |siteIds|, |mines|) && FuturesIn(siteIds, mines, futures)
    requires forall k :: 0 <= k < |futures| ==>
      uf.cells[GetIndex(siteIds, futures[k].source)].scores[MinePosition(siteIds, mines, futures[k])] == 0
    modifies uf
    ensures Fits(uf, |siteIds|, |mines|) && uf.roots == old(uf.roots)
    ensures Singletons(uf.roots) ==>
      Shaped(uf.roots, old(uf.base), mines) && Shaped(uf.roots, uf.base, mines) &&
      MinesTotal(uf.roots, uf.base, mines, |mines|) ==
      MinesTotal(uf.roots, old(uf.base), mines, |mines|) + FuturesValue(siteIds, mines, distance, futures, uf.roots)
  {
    ghost var roots := uf.roots;
    ghost var base0 := uf.base;
    var i := 0;
    while i < |futures|
      invariant 0 <= i <= |futures| && FuturesAdded(uf, siteIds, mines, distance, futures, i, roots, base0)
    {
      AddOneFuture(uf, siteIds, mines, distance, futures, i, roots, base0);
      i := i + 1;
    }
    assert futures[..i] == futures;
  }

  /**
   * The state after the first `i` futures: the set still fits and keeps
   * its partition, the later futures' mine cells still hold 0, and on
   * singleton components the total has moved by the worth of the first
   * `i` futures.
   */
  ghost predicate FuturesAdded(uf: UnionFindSet, siteIds: seq<int>, mines: seq<int>, distance: seq<seq<int>>,
                               futures: seq<Future>, i: int, roots: seq<int>, base0: seq<seq<int>>)
    reads uf
  {
    TablesFit(siteIds, mines, distance) && FuturesIn(siteIds, mines, futures) && 0 <= i <= |futures| &&
    Fits(uf, |siteIds|, |mines|) && uf.roots == roots &&
    (forall k :: i <= k < |futures| ==>
      uf.cells[GetIndex(siteIds, futures[k].source)].scores[MinePosition(siteIds, mines, futures[k])] == 0) &&
    (Singletons(roots) ==>
      Shaped(roots, base0, mines) && Shaped(roots, uf.base, mines) &&
      MinesTotal(roots, uf.base, mines, |mines|) ==
      MinesTotal(roots, base0, mines, |mines|) + FuturesValue(siteIds, mines, distance, futures[..i], roots))
  }

  /** One iteration of `AddFuture`'s loop: future `i` written into the set. */
  method AddOneFuture(uf: UnionFindSet, siteIds: seq<int>, mines: seq<int>, distance: seq<seq<int>>,
                      futures: seq<Future>, i: int, ghost roots: seq<int>, ghost base0: seq<seq<int>>)
    requires FuturesAdded(uf, siteIds, mines, distance, futures, i, roots, base0) && i < |futures|
    modifies uf
    ensures FuturesAdded(uf, siteIds, mines, distance, futures, i + 1, roots, base0)
  {
    var future := futures[i];
    var sourceIndex := GetIndex(siteIds, future.source);
    var mineIndex := GetIndex(mines, sourceIndex);
    var targetIndex := GetIndex(siteIds, future.target);
    ghost var before := uf.base;
    uf.AddFuture(mineIndex, sourceIndex, targetIndex, distance[mineIndex][targetIndex]);
    forall k | i < k < |futures|
      ensures uf.cells[GetIndex(siteIds, futures[k].source)].scores[MinePosition(siteIds, mines, futures[k])] == 0
    {
      FutureSlotsDiffer(siteIds, mines, future, futures[k]);
    }
    if Singletons(roots) {
      FutureStep(roots, before, mines, mineIndex, targetIndex, distance[mineIndex][targetIndex]);
      FuturesValueStep(siteIds, mines, distance, futures, i, roots);
    }
  }

  /** The scorer of one game: the tables and one union-find set per punter. */
  class Scorer {
    var siteIds: seq<int>
    var mineIndexList: seq<int>
    var distance: seq<seq<int>>
    var scores: seq<UnionFindSet>

    /** The tables, and one valid set per punter with a cell per site and a score per mine. */
    ghost predicate Valid()
      reads this, scores
    {
      TablesFit(siteIds, mineIndexList, distance) &&
      (forall p :: 0 <= p < |scores| ==> Fits(scores[p], |siteIds|, |mineIndexList|)) &&
      (forall p, q :: 0 <= p < q < |scores| ==> scores[p] != scores[q])
    }

    /** The partition of punter `p`'s sites into components, as roots. */
    ghost function Partition(p: int): (r: seq<int>)
      reads this, scores
      requires Valid() && 0 <= p < |scores|
      ensures Shaped(r, scores[p].base, mineIndexList)
    {
      scores[p].roots
    }

    /** Punter `p`'s score: over the mines, its component's sum for that mine. */
    ghost function Score(p: int): int
      reads this, scores
      requires Valid() && 0 <= p < |scores|
    {
      MinesTotal(Partition(p), scores[p].base, mineIndexList, |mineIndexList|)
    }

    constructor ()
      ensures Valid() && siteIds == [] && mineIndexList == [] && distance == [] && scores == []
    {
      siteIds, mineIndexList, distance, scores := [], [], [], [];
    }

    /**
     * `Initialize`: the sorted id and mine lists, one distance table per
     * mine, and per punter a set of singleton cells holding squared
     * distances; every punter's score is then 0.
     */
    method Initialize(numPunters: nat, gameMap: GameMap)
      requires siteIds == [] && mineIndexList == [] && distance == [] && scores == []
      requires RiversIn(gameMap.rivers, SiteIds(gameMap.sites)) && AllIn(gameMap.mines, SiteIds(gameMap.sites))
      modifies this
      ensures Valid() && |scores| == numPunters
      ensures multiset(siteIds) == multiset(SiteIds(gameMap.sites))
      ensures RiversIn(gameMap.rivers, siteIds) && AllIn(gameMap.mines, siteIds)
      ensures forall i :: 0 <= i < |mineIndexList| ==>
        DistanceTable(RiverGraph(gameMap.rivers, siteIds), mineIndexList[i], distance[i], -1)
      ensures multiset(mineIndexList) == multiset(IndicesOf(gameMap.mines, siteIds))
      ensures forall p :: 0 <= p < numPunters ==> fresh(scores[p]) && Pristine(scores[p], |siteIds|, distance)
      ensures forall p :: 0 <= p < numPunters ==> Score(p) == 0
    {
      var ids, mines, tables := BuildTables(gameMap);
      var sets := FreshSets(numPunters, |ids|, tables);
      siteIds, mineIndexList, distance, scores := ids, mines, tables, sets;
      forall q | 0 <= q < numPunters ensures Score(q) == 0 {
        PristineScoreZero(scores[q], siteIds, mineIndexList, distance);
      }
    }

    /** `GetScore`: the sum over mines of the score at the root of the mine's site. */
    method GetScore(p: int) returns (score: int)
      requires Valid() && 0 <= p < |scores|
      modifies scores[p]
      ensures Valid() && Partition(p) == old(Partition(p)) && scores[p].base == old(scores[p].base)
      ensures score == Score(p)
    {
      score := SumOverMines(scores[p], mineIndexList);
    }

    /** `IsConnected`: whether two sites share a component of punter `p`. */
    method IsConnected(p: int, siteId1: int, siteId2: int) returns (b: bool)
      requires Valid() && 0 <= p < |scores| && siteId1 in siteIds && siteId2 in siteIds
      modifies scores[p]
      ensures Valid() && Partition(p) == old(Partition(p)) && scores[p].base == old(scores[p].base)
      ensures b <==> Partition(p)[GetIndex(siteIds, siteId1)] == Partition(p)[GetIndex(siteIds, siteId2)]
    {
      b := scores[p].IsConnected(GetIndex(siteIds, siteId1), GetIndex(siteIds, siteId2));
    }

    /** `Claim`: unites the components of the river's two ends. */
    method Claim(p: int, siteId1: int, siteId2: int)
      requires Valid() && 0 <= p < |scores| && siteId1 in siteIds && siteId2 in siteIds
      modifies scores[p]
      ensures Valid() && scores[p].base == old(scores[p].base)
      ensures var a, b := GetIndex(siteIds, siteId1), GetIndex(siteIds, siteId2);
        Partition(p) == UnionRoots(old(Partition(p)), old(Partition(p))[a], old(Partition(p))[b])
    {
      var a := GetIndex(siteIds, siteId1);
      var b := GetIndex(siteIds, siteId2);
      scores[p].Merge(a, b);
    }

    /** `Splurge`: a claim for each consecutive pair of the route, in order. */
    method Splurge(p: int, route: seq<int>)
      requires Valid() && 0 <= p < |scores| && forall k :: 0 <= k < |route| ==> route[k] in siteIds
      modifies scores[p]
      ensures Valid() && scores[p].base == old(scores[p].base)
      ensures Partition(p) == SplurgeRoots(old(Partition(p)), IndicesOf(route, siteIds))
    {
      ghost var path := IndicesOf(route, siteIds);
      ghost var n := |siteIds|;
      ghost var base := scores[p].base;
      ghost var result := SplurgeRoots(Partition(p), path);
      var i := 0;
      while i + 1 < |route|
        invariant 0 <= i <= |route| && (|route| > 0 ==> i < |route|) && Valid()
        invariant scores[p].base == base && |Partition(p)| == n
        invariant SplurgeRoots(Partition(p), path[i..]) == result
      {
        ghost var before := Partition(p);
        assert path[i] == GetIndex(siteIds, route[i]) && path[i + 1] == GetIndex(siteIds, route[i + 1]);
        SplurgeStep(before, path, i);
        Claim(p, route[i], route[i + 1]);
        i := i + 1;
      }
    }

    /**
     * `TryClaim`: the score punter `p` would have after claiming the river,
     * computed without changing the partition.
     */
    method TryClaim(p: int, siteId1: int, siteId2: int) returns (score: int)
      requires Valid() && 0 <= p < |scores| && siteId1 in siteIds && siteId2 in siteIds
      modifies scores[p]
      ensures Valid() && Partition(p) == old(Partition(p)) && scores[p].base == old(scores[p].base)
      ensures var a, b := GetIndex(siteIds, siteId1), GetIndex(siteIds, siteId2);
        score == MinesTotal(UnionRoots(Partition(p), Partition(p)[a], Partition(p)[b]),
                            scores[p].base, mineIndexList, |mineIndexList|)
    {
      score := GetScore(p);
      var a := GetIndex(siteIds, siteId1);
      var b := GetIndex(siteIds, siteId2);
      var joined := scores[p].IsConnected(a, b);
      if joined {
        assert UnionRoots(Partition(p), Partition(p)[a], Partition(p)[b]) == Partition(p);
      } else {
        var gain := UnionGain(scores[p], mineIndexList, a, b);
        score := score + gain;
      }
    }

    /**
     * `AddFuture`: for each future, in order, the mine's own cell gets
     * `-d^3` and the target's cell gains `2 d^3` at that mine's position,
     * `d` being the target's distance from the mine. Each future's mine
     * cell must still hold 0 there. Added before any claim, the futures
     * move the score by what they are worth on the current partition.
     */
    method AddFuture(p: int, futures: seq<Future>)
      requires Valid() && 0 <= p < |scores| && FuturesIn(siteIds, mineIndexList, futures)
      requires forall k :: 0 <= k < |futures| ==>
        scores[p].cells[GetIndex(siteIds, futures[k].source)].scores[MinePosition(siteIds, mineIndexList, futures[k])] == 0
      modifies scores[p]
      ensures Valid() && Partition(p) == old(Partition(p))
      ensures Singletons(old(Partition(p))) ==>
        Score(p) == old(Score(p)) + FuturesValue(siteIds, mineIndexList, distance, futures, Partition(p))
    {
      AddFutures(scores[p], siteIds, mineIndexList, distance, futures);
    }

    /** `GetConnectedMineList`: the ids of the mines sharing `siteId`'s component, in mine-list order. */
    method GetConnectedMineList(p: int, siteId: int) returns (result: seq<int>)
      requires Valid() && 0 <= p < |scores| && siteId in siteIds
      modifies scores[p]
      ensures Valid() && Partition(p) == old(Partition(p)) && scores[p].base == old(scores[p].base)
      ensures result == MinesWithRoot(siteIds, mineIndexList, Partition(p), Partition(p)[GetIndex(siteIds, siteId)])
    {
      result := MinesJoined(scores[p], siteIds, mineIndexList, GetIndex(siteIds, siteId));
    }

    /** `GetConnectedSiteList`: the ids of the sites sharing `siteId`'s component, in ascending order. */
    method GetConnectedSiteList(p: int, siteId: int) returns (result: seq<int>)
      requires Valid() && 0 <= p < |scores| && siteId in siteIds
      modifies scores[p]
      ensures Valid() && Partition(p) == old(Partition(p)) && scores[p].base == old(scores[p].base)
      ensures result == SitesWithRoot(siteIds, Partition(p), Partition(p)[GetIndex(siteIds, siteId)], |siteIds|)
    {
      result := SitesJoined(scores[p], siteIds, GetIndex(siteIds, siteId));
    }
  }

  /** Sorting keeps the elements, so membership is unchanged. */
  lemma SameElementsSameMembers(a: seq<int>, b: seq<int>)
    requires multiset(a) == multiset(b)
    ensures forall x :: x in a <==> x in b
  {
    forall x ensures x in a <==> x in b {
      assert x in a <==> x in multiset(a);
      assert x in b <==> x in multiset(b);
    }
  }

  /** The ids of the listed mines whose root is `r`, in list order. */
  function MinesWithRoot(siteIds: seq<int>, mines: seq<int>, roots: seq<int>, r: int): (result: seq<int>)
    requires forall i :: 0 <= i < |mines| ==> 0 <= mines[i] < |siteIds| && mines[i] < |roots|
    ensures |result| <= |mines|
  {
    if mines == [] then []
    else
      var last := mines[|mines| - 1];
      MinesWithRoot(siteIds, mines[..|mines| - 1], roots, r) + (if roots[last] == r then [siteIds[last]] else [])
  }

  /** The ids of the first `k` sites whose root is `r`, in index order. */
  function SitesWithRoot(siteIds: seq<int>, roots: seq<int>, r: int, k: nat): (result: seq<int>)
    requires k <= |siteIds| <= |roots|
    ensures |result| <= k
  {
    if k == 0 then []
    else SitesWithRoot(siteIds, roots, r, k - 1) + (if roots[k - 1] == r then [siteIds[k - 1]] else [])
  }

  /** The connected mine list names exactly the mines whose root is `r`. */
  lemma {:induction false} MinesWithRootMembers(siteIds: seq<int>, mines: seq<int>, roots: seq<int>, r: int, id: int)
    requires forall i :: 0 <= i < |mines| ==> 0 <= mines[i] < |siteIds| && mines[i] < |roots|
    ensures id in MinesWithRoot(siteIds, mines, roots, r) <==>
      exists i :: 0 <= i < |mines| && roots[mines[i]] == r && siteIds[mines[i]] == id
    decreases |mines|
  {
    if mines != [] {
      var init := mines[..|mines| - 1];
      MinesWithRootMembers(siteIds, init, roots, r, id);
      if exists i :: 0 <= i < |mines| && roots[mines[i]] == r && siteIds[mines[i]] == id {
        var i :| 0 <= i < |mines| && roots[mines[i]] == r && siteIds[mines[i]] == id;
        if i < |init| {
          assert init[i] == mines[i];
        }
      }
      if id in MinesWithRoot(siteIds, init, roots, r) {
        var i :| 0 <= i < |init| && roots[init[i]] == r && siteIds[init[i]] == id;
        assert init[i] == mines[i];
      }
    }
  }

  /**
   * The connected site list holds exactly the ids of the sites whose root
   * is `r`, and is sorted because the id list is.
   */
  lemma {:induction false} SitesWithRootMembers(siteIds: seq<int>, roots: seq<int>, r: int, k: nat)
    requires k <= |siteIds| <= |roots| && Sorted(siteIds)
    ensures Sorted(SitesWithRoot(siteIds, roots, r, k))
    ensures forall id :: id in SitesWithRoot(siteIds, roots, r, k) <==>
      exists i :: 0 <= i < k && roots[i] == r && siteIds[i] == id
    decreases k
  {
    if k > 0 {
      SitesWithRootMembers(siteIds, roots, r, k - 1);
      var init := SitesWithRoot(siteIds, roots, r, k - 1);
      forall j | 0 <= j < |init| ensures init[j] <= siteIds[k - 1] {
        assert init[j] in init;
      }
    }
  }
}
