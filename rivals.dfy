/**
 * The rival choice of the jamming players. The other punters' (score, id)
 * pairs are sorted ascending; the rival is the top one when it scores
 * below us or is the only other punter, and the runner-up otherwise.
 */
module Rivals {
  import opened Sorting

  /** Ids strictly increasing along the list, so no pair repeats. */
  predicate Increasing(s: seq<(int, int)>)
  {
    forall a, b :: 0 <= a < b < |s| ==> s[a].1 < s[b].1
  }

  /** Punter `p`'s pair is in `r`. */
  predicate Lists(r: seq<(int, int)>, scores: seq<int>, p: int)
    requires 0 <= p < |scores|
  {
    (scores[p], p) in r
  }

  /** The (score, id) pairs of the punters other than `me` among the first `upto`, in id order. */
  function Others(scores: seq<int>, me: int, upto: nat): (r: seq<(int, int)>)
    requires upto <= |scores|
    ensures forall k :: 0 <= k < |r| ==> 0 <= r[k].1 < upto && r[k].1 != me && r[k].0 == scores[r[k].1]
    ensures forall p {:trigger Lists(r, scores, p)} :: 0 <= p < upto && p != me ==> Lists(r, scores, p)
    ensures Increasing(r)
  {
    if upto == 0 then []
    else
      var rest := Others(scores, me, upto - 1);
      var r := if upto - 1 != me then rest + [(scores[upto - 1], upto - 1)] else rest;
      assert forall p :: 0 <= p < upto - 1 && p != me && Lists(rest, scores, p) ==> Lists(r, scores, p);
      r
  }

  /** One more punter: its pair is appended unless it is `me`. */
  lemma OthersNext(scores: seq<int>, me: int, p: nat)
    requires p < |scores|
    ensures Others(scores, me, p + 1) == if p != me then Others(scores, me, p) + [(scores[p], p)] else Others(scores, me, p)
  {
  }

  /** The loop gathering the other punters' pairs, in id order. */
  method CollectRivals(scores: seq<int>, me: int) returns (rivals: seq<(int, int)>)
    ensures rivals == Others(scores, me, |scores|)
  {
    rivals := [];
    for p := 0 to |scores|
      invariant rivals == Others(scores, me, p)
    {
      if p != me {
        rivals := rivals + [(scores[p], p)];
      }
    }
  }

  /** The largest pair, in the order of `std::pair`. */
  function Best(s: seq<(int, int)>): (b: (int, int))
    requires s != []
    ensures b in s && forall y :: y in s ==> PairLe(y, b)
  {
    if |s| == 1 then s[0]
    else
      var t := Best(s[1..]);
      assert s == [s[0]] + s[1..];
      if PairLe(s[0], t) then t else s[0]
  }

  /** `s` without the entries equal to `x`. */
  function Without(s: seq<(int, int)>, x: (int, int)): (r: seq<(int, int)>)
    ensures forall y :: y in r <==> y in s && y != x
  {
    if s == [] then []
    else
      assert s == [s[0]] + s[1..];
      (if s[0] == x then [] else [s[0]]) + Without(s[1..], x)
  }

  /**
   * The rival among `rivals` for a punter scoring `myScore`: none (-1)
   * without rivals; the best when it trails us or stands alone; otherwise
   * the best of the others.
   */
  function Rival(rivals: seq<(int, int)>, myScore: int): int
    requires Increasing(rivals)
  {
    if rivals == [] then -1
    else
      var top := Best(rivals);
      if top.0 < myScore || |rivals| == 1 then top.1
      else
        assert rivals[0] in Without(rivals, top) || rivals[1] in Without(rivals, top) by {
          assert rivals[0] != rivals[1];
        }
        Best(Without(rivals, top)).1
  }

  /** Removing `x` drops its every copy and keeps the rest. */
  lemma {:induction false} WithoutCounts(s: seq<(int, int)>, x: (int, int))
    ensures multiset(Without(s, x)) == multiset(s)[x := 0]
  {
    if s != [] {
      WithoutCounts(s[1..], x);
      assert s == [s[0]] + s[1..];
    }
  }

  /** A list with increasing ids holds each pair at most once. */
  lemma {:induction false} IncreasingOnce(s: seq<(int, int)>, x: (int, int))
    requires Increasing(s)
    ensures multiset(s)[x] <= 1
  {
    if s != [] {
      IncreasingOnce(s[1..], x);
      assert s == [s[0]] + s[1..];
      if x == s[0] {
        assert x !in s[1..];
      }
    }
  }

  /** The last element of a sorted arrangement of `s` is `s`'s best. */
  lemma SortedLast(r: seq<(int, int)>, s: seq<(int, int)>)
    requires SortedPairs(r) && multiset(r) == multiset(s) && r != []
    ensures s != [] && r[|r| - 1] == Best(s)
  {
    assert r[|r| - 1] in multiset(r);
    assert r[|r| - 1] in s;
    var b := Best(s);
    assert b in multiset(s);
    var k :| 0 <= k < |r| && r[k] == b;
    assert PairLe(b, r[|r| - 1]);
  }

  /** The last-but-one element of a sorted arrangement of `s` is the best of `s` without its best. */
  lemma SortedRunnerUp(r: seq<(int, int)>, s: seq<(int, int)>)
    requires SortedPairs(r) && multiset(r) == multiset(s) && |r| >= 2 && Increasing(s)
    ensures s != [] && Without(s, Best(s)) != [] && r[|r| - 2] == Best(Without(s, Best(s)))
  {
    var n := |r|;
    SortedLast(r, s);
    var top := r[n - 1];
    assert r == r[..n - 1] + [top];
    WithoutCounts(s, top);
    IncreasingOnce(s, top);
    assert multiset(r[..n - 1]) == multiset(Without(s, top));
    SortedLast(r[..n - 1], Without(s, top));
    assert r[..n - 1][n - 2] == r[n - 2];
  }

  /**
   * The sort of `PickRival`: with `rivals` sorted ascending, the last
   * pair's id when it trails `myScore` or stands alone, else the one
   * before it.
   */
  method PickRival(rivals: seq<(int, int)>, myScore: int) returns (rival: int)
    requires Increasing(rivals)
    ensures rival == Rival(rivals, myScore)
  {
    var sorted := SortPairs(rivals);
    assert |sorted| == |rivals| by {
      assert |multiset(sorted)| == |multiset(rivals)|;
    }
    rival := -1;
    if |sorted| > 0 {
      var n := |sorted|;
      SortedLast(sorted, rivals);
      if sorted[n - 1].0 < myScore || n == 1 {
        rival := sorted[n - 1].1;
      } else {
        SortedRunnerUp(sorted, rivals);
        rival := sorted[n - 2].1;
      }
    }
  }

  /** Punter `p` ranks at least as high as punter `q`: by score, then by id. */
  predicate Outranks(scores: seq<int>, p: int, q: int)
    requires 0 <= p < |scores| && 0 <= q < |scores|
  {
    PairLe((scores[q], q), (scores[p], p))
  }

  /** Punter `r` ranks first among the punters other than `me`. */
  predicate RanksFirst(scores: seq<int>, me: int, r: int)
    requires 0 <= r < |scores|
  {
    forall p :: 0 <= p < |scores| && p != me ==> Outranks(scores, r, p)
  }

  /** Punter `t`, scoring at least as much as `me`, ranks above `r`, and `r` above every other punter but `me`. */
  predicate RanksSecond(scores: seq<int>, me: int, r: int, t: int)
    requires 0 <= me < |scores| && 0 <= r < |scores|
  {
    0 <= t < |scores| && t != me && t != r && scores[t] >= scores[me] && Outranks(scores, t, r) &&
    forall p :: 0 <= p < |scores| && p != me && p != t ==> Outranks(scores, r, p)
  }

  /** A listed pair is that of another punter. */
  lemma InOthers(scores: seq<int>, me: int, x: (int, int))
    requires x in Others(scores, me, |scores|)
    ensures 0 <= x.1 < |scores| && x.1 != me && x.0 == scores[x.1]
  {
  }

  /** The best of the other punters ranks first among them. */
  lemma BestRanksFirst(scores: seq<int>, me: int)
    requires 0 <= me < |scores| && Others(scores, me, |scores|) != []
    ensures var top := Best(Others(scores, me, |scores|));
      0 <= top.1 < |scores| && top.1 != me && RanksFirst(scores, me, top.1)
  {
    var rivals := Others(scores, me, |scores|);
    var top := Best(rivals);
    InOthers(scores, me, top);
    forall p | 0 <= p < |scores| && p != me ensures Outranks(scores, top.1, p) {
      assert Lists(rivals, scores, p);
    }
  }

  /** Once the best is set aside, the best of the rest is second, behind the best. */
  lemma NextRanksSecond(scores: seq<int>, me: int)
    requires 0 <= me < |scores| && |Others(scores, me, |scores|)| >= 2
    requires Best(Others(scores, me, |scores|)).0 >= scores[me]
    ensures var rivals := Others(scores, me, |scores|);
      var top := Best(rivals);
      Without(rivals, top) != [] &&
      var next := Best(Without(rivals, top));
      0 <= next.1 < |scores| && RanksSecond(scores, me, next.1, top.1)
  {
    var rivals := Others(scores, me, |scores|);
    var top := Best(rivals);
    assert rivals[0] != rivals[1];
    assert rivals[0] in Without(rivals, top) || rivals[1] in Without(rivals, top);
    var rest := Without(rivals, top);
    var next := Best(rest);
    InOthers(scores, me, next);
    InOthers(scores, me, top);
    forall p | 0 <= p < |scores| && p != me && p != top.1 ensures Outranks(scores, next.1, p) {
      assert Lists(rivals, scores, p);
      assert (scores[p], p) in rest;
    }
  }

  /**
   * Over all punters, the rival is another punter, and there is none
   * only when `me` plays alone. Either it ranks first among the others,
   * or exactly one other punter, scoring at least as much as `me`, ranks
   * above it.
   */
  lemma RivalRanks(scores: seq<int>, me: int)
    requires 0 <= me < |scores|
    ensures var r := Rival(Others(scores, me, |scores|), scores[me]);
      (r == -1 <==> |scores| == 1) &&
      (r != -1 ==> 0 <= r < |scores| && r != me && (RanksFirst(scores, me, r) || exists t :: RanksSecond(scores, me, r, t)))
  {
    var rivals := Others(scores, me, |scores|);
    if |scores| > 1 {
      var other := if me == 0 then 1 else 0;
      assert Lists(rivals, scores, other);
    }
    if rivals != [] {
      BestRanksFirst(scores, me);
      var top := Best(rivals);
      if !(top.0 < scores[me] || |rivals| == 1) {
        NextRanksSecond(scores, me);
      }
    }
  }
}
