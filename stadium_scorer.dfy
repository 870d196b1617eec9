/**
 * The referee's scorer (`stadium::Scorer`). Its id lists, distance table
 * and union-find sets are built exactly as the engine-side scorer builds
 * them, so this class reuses those operations; it offers only
 * `Initialize`, `AddFuture`, `GetScore` and `Claim`.
 */
module StadiumScorer {
  import opened Sorting
  import opened GameData
  import opened Graph
  import opened ScoreTables
  import opened UnionFind
  import opened CommonScorer

  class Scorer {
    var siteIdList: seq<int>
    var mineList: seq<int>
    var distanceMap: seq<seq<int>>
    var scores: seq<UnionFindSet>

    ghost predicate Valid()
      reads this, scores
    {
      TablesFit(siteIdList, mineList, distanceMap) &&
      (forall p :: 0 <= p < |scores| ==> Fits(scores[p], |siteIdList|, |mineList|)) &&
      (forall p, q :: 0 <= p < q < |scores| ==> scores[p] != scores[q])
    }

    /** Punter `p`'s score: over the mines, its component's sum for that mine. */
    ghost function Score(p: int): int
      reads this, scores
      requires Valid() && 0 <= p < |scores|
    {
      MinesTotal(scores[p].roots, scores[p].base, mineList, |mineList|)
    }

    constructor ()
      ensures Valid() && siteIdList == [] && mineList == [] && distanceMap == [] && scores == []
    {
      siteIdList, mineList, distanceMap, scores := [], [], [], [];
    }

    /**
     * `Initialize`: the sorted site ids, the sorted mine indices, a BFS
     * table per mine (-1 where unreached), and per punter a set of
     * singleton cells holding squared distances, so every score is 0.
     */
    method Initialize(numPunters: nat, gameMap: GameMap)
      requires siteIdList == [] && mineList == [] && distanceMap == [] && scores == []
      requires RiversIn(gameMap.rivers, SiteIds(gameMap.sites)) && AllIn(gameMap.mines, SiteIds(gameMap.sites))
      modifies this
      ensures Valid() && |scores| == numPunters
      ensures multiset(siteIdList) == multiset(SiteIds(gameMap.sites))
      ensures RiversIn(gameMap.rivers, siteIdList) && AllIn(gameMap.mines, siteIdList)
      ensures multiset(mineList) == multiset(IndicesOf(gameMap.mines, siteIdList))
      ensures forall i :: 0 <= i < |mineList| ==>
        DistanceTable(RiverGraph(gameMap.rivers, siteIdList), mineList[i], distanceMap[i], -1)
      ensures forall p :: 0 <= p < numPunters ==> fresh(scores[p]) && Pristine(scores[p], |siteIdList|, distanceMap)
      ensures forall p :: 0 <= p < numPunters ==> Score(p) == 0
    {
      var ids, mines, tables := BuildTables(gameMap);
      var sets := FreshSets(numPunters, |ids|, tables);
      siteIdList, mineList, distanceMap, scores := ids, mines, tables, sets;
      forall q | 0 <= q < numPunters ensures Score(q) == 0 {
        PristineScoreZero(scores[q], siteIdList, mineList, distanceMap);
      }
    }

    /**
     * `AddFuture`: each future puts `-d^3` in its mine's cell and adds
     * `2 d^3` to its target's cell; on singleton components the score
     * moves by what the futures are worth.
     */
    method AddFuture(p: int, futures: seq<Future>)
      requires Valid() && 0 <= p < |scores| && FuturesIn(siteIdList, mineList, futures)
      requires forall k :: 0 <= k < |futures| ==>
        scores[p].cells[GetIndex(siteIdList, futures[k].source)].scores[MinePosition(siteIdList, mineList, futures[k])] == 0
      modifies scores[p]
      ensures Valid() && scores[p].roots == old(scores[p].roots)
      ensures Singletons(old(scores[p].roots)) ==>
        Score(p) == old(Score(p)) + FuturesValue(siteIdList, mineList, distanceMap, futures, scores[p].roots)
    {
      AddFutures(scores[p], siteIdList, mineList, distanceMap, futures);
    }

    /** `GetScore`: the sum over mines of the score at the root of the mine's site. */
    method GetScore(p: int) returns (score: int)
      requires Valid() && 0 <= p < |scores|
      modifies scores[p]
      ensures Valid() && scores[p].roots == old(scores[p].roots) && scores[p].base == old(scores[p].base)
      ensures score == Score(p)
    {
      score := SumOverMines(scores[p], mineList);
    }

    /** `Claim`: unites the components of the river's two ends. */
    method Claim(p: int, siteId1: int, siteId2: int)
      requires Valid() && 0 <= p < |scores| && siteId1 in siteIdList && siteId2 in siteIdList
      modifies scores[p]
      ensures Valid() && scores[p].base == old(scores[p].base)
      ensures var roots, a, b := old(scores[p].roots), GetIndex(siteIdList, siteId1), GetIndex(siteIdList, siteId2);
        scores[p].roots == UnionRoots(roots, roots[a], roots[b])
    {
      scores[p].Merge(GetIndex(siteIdList, siteId1), GetIndex(siteIdList, siteId2));
    }
  }
}
