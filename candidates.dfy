/**
 * The scored candidate lists of the jamming players: one entry per free
 * river, in river order, then sorted by score with the highest first
 * (`std::sort` with `a.score > b.score`, whose order among equal scores
 * is unspecified). What the players rely on is stated about every list
 * sorted that way: its head is a best river, its second entry a best
 * river other than the head.
 */
module Candidates {

  /** A free river and what taking it is worth: the score, the river's position, and its two ends. */
  datatype Candidate = Candidate(score: int, index: int, source: int, target: int)

  /** The candidate for river `i`, given every river's score and ends. */
  function Entry(score: seq<int>, ends: seq<(int, int)>, i: int): (c: Candidate)
    requires 0 <= i < |score| == |ends|
    ensures c.index == i && c.score == score[i]
  {
    Candidate(score[i], i, ends[i].0, ends[i].1)
  }

  predicate Aligned(free: seq<bool>, score: seq<int>, ends: seq<(int, int)>)
  {
    |free| == |score| == |ends|
  }

  /**
   * The candidates of the free rivers among the first `upto`, in river
   * order: exactly one entry per free river, and nothing else.
   */
  function Listing(free: seq<bool>, score: seq<int>, ends: seq<(int, int)>, upto: nat): (r: seq<Candidate>)
    requires Aligned(free, score, ends) && upto <= |free|
    ensures forall k :: 0 <= k < |r| ==> 0 <= r[k].index < upto && free[r[k].index] && r[k] == Entry(score, ends, r[k].index)
    ensures forall i :: 0 <= i < upto && free[i] ==> Entry(score, ends, i) in r
    ensures forall a, b :: 0 <= a < b < |r| ==> r[a].index < r[b].index
  {
    if upto == 0 then []
    else
      var rest := Listing(free, score, ends, upto - 1);
      if free[upto - 1] then rest + [Entry(score, ends, upto - 1)] else rest
  }

  /** Sorted by score, highest first. */
  predicate SortedDown(c: seq<Candidate>)
  {
    forall i, j :: 0 <= i < j < |c| ==> c[i].score >= c[j].score
  }

  /** Inserts `x` before the first entry scoring no more than it. */
  function InsertDown(r: seq<Candidate>, x: Candidate): (q: seq<Candidate>)
    requires SortedDown(r)
    ensures SortedDown(q) && multiset(q) == multiset(r) + multiset{x}
  {
    if r == [] || x.score >= r[0].score then [x] + r
    else
      var t := InsertDown(r[1..], x);
      InsertDownStep(r, x, t);
      [r[0]] + t
  }

  lemma InsertDownStep(r: seq<Candidate>, x: Candidate, t: seq<Candidate>)
    requires SortedDown(r) && r != [] && x.score < r[0].score
    requires SortedDown(t) && multiset(t) == multiset(r[1..]) + multiset{x}
    ensures SortedDown([r[0]] + t) && multiset([r[0]] + t) == multiset(r) + multiset{x}
  {
    assert r == [r[0]] + r[1..];
    forall k | 0 <= k < |t| ensures r[0].score >= t[k].score {
      assert t[k] in multiset(t);
      if t[k] != x {
        assert t[k] in multiset(r[1..]);
      }
    }
  }

  /** The `std::sort` of a candidate list, highest score first. */
  method SortCandidates(s: seq<Candidate>) returns (r: seq<Candidate>)
    ensures SortedDown(r) && multiset(r) == multiset(s)
  {
    r := [];
    var i := 0;
    while i < |s|
      invariant 0 <= i <= |s| && SortedDown(r) && multiset(r) == multiset(s[..i])
    {
      assert s[..i + 1] == s[..i] + [s[i]];
      r := InsertDown(r, s[i]);
      i := i + 1;
    }
    assert s[..i] == s;
  }

  /** The listing of all rivers, sorted highest first. */
  ghost predicate Ranked(c: seq<Candidate>, free: seq<bool>, score: seq<int>, ends: seq<(int, int)>)
  {
    Aligned(free, score, ends) && SortedDown(c) && multiset(c) == multiset(Listing(free, score, ends, |free|))
  }

  /** Some river is free. */
  predicate AnyFree(free: seq<bool>)
  {
    exists i :: 0 <= i < |free| && free[i]
  }

  /** At least two rivers are free. */
  predicate TwoFree(free: seq<bool>)
  {
    exists i, j :: 0 <= i < j < |free| && free[i] && free[j]
  }

  /** The score of river `i` tops that of every free river except `skip`. */
  predicate Tops(free: seq<bool>, score: seq<int>, i: int, skip: int)
    requires |free| == |score| && 0 <= i < |score|
  {
    forall k :: 0 <= k < |free| && free[k] && k != skip ==> score[k] <= score[i]
  }

  /** An entry of a ranked list is the candidate of a free river. */
  lemma RankedEntry(c: seq<Candidate>, free: seq<bool>, score: seq<int>, ends: seq<(int, int)>, p: int)
    requires Ranked(c, free, score, ends) && 0 <= p < |c|
    ensures 0 <= c[p].index < |free| && free[c[p].index] && c[p] == Entry(score, ends, c[p].index)
  {
    var l := Listing(free, score, ends, |free|);
    assert c[p] in multiset(c);
    assert c[p] in multiset(l);
    var k :| 0 <= k < |l| && l[k] == c[p];
  }

  /** Every free river has its candidate somewhere in a ranked list. */
  lemma RankedHas(c: seq<Candidate>, free: seq<bool>, score: seq<int>, ends: seq<(int, int)>, i: int) returns (p: int)
    requires Ranked(c, free, score, ends) && 0 <= i < |free| && free[i]
    ensures 0 <= p < |c| && c[p] == Entry(score, ends, i)
  {
    var l := Listing(free, score, ends, |free|);
    assert Entry(score, ends, i) in l;
    assert Entry(score, ends, i) in multiset(l);
    assert Entry(score, ends, i) in multiset(c);
    p :| 0 <= p < |c| && c[p] == Entry(score, ends, i);
  }

  /** A ranked list is empty exactly when no river is free. */
  lemma RankedEmpty(c: seq<Candidate>, free: seq<bool>, score: seq<int>, ends: seq<(int, int)>)
    requires Ranked(c, free, score, ends)
    ensures c == [] <==> !AnyFree(free)
  {
    if c != [] {
      RankedEntry(c, free, score, ends, 0);
    }
    if AnyFree(free) {
      var i :| 0 <= i < |free| && free[i];
      var p := RankedHas(c, free, score, ends, i);
    }
  }

  /** The head of a ranked list is a free river of the highest score. */
  lemma RankedFirst(c: seq<Candidate>, free: seq<bool>, score: seq<int>, ends: seq<(int, int)>)
    requires Ranked(c, free, score, ends) && c != []
    ensures 0 <= c[0].index < |free| && free[c[0].index] && c[0] == Entry(score, ends, c[0].index)
    ensures Tops(free, score, c[0].index, -1)
  {
    RankedEntry(c, free, score, ends, 0);
    forall k | 0 <= k < |free| && free[k] ensures score[k] <= score[c[0].index] {
      var p := RankedHas(c, free, score, ends, k);
    }
  }

  /** An element twice in a sequence counts twice in its multiset. */
  lemma TwoCopies<T>(s: seq<T>, a: int, b: int)
    requires 0 <= a < b < |s| && s[a] == s[b]
    ensures multiset(s)[s[a]] >= 2
  {
    assert s == s[..b] + [s[b]] + s[b + 1..];
    assert s[a] in multiset(s[..b]);
  }

  /** A listing holds each candidate at most once. */
  lemma ListingOnce(free: seq<bool>, score: seq<int>, ends: seq<(int, int)>, upto: nat, x: Candidate)
    requires Aligned(free, score, ends) && upto <= |free|
    ensures multiset(Listing(free, score, ends, upto))[x] <= 1
  {
    IndexedOnce(Listing(free, score, ends, upto), x);
  }

  /** Candidates whose indices strictly increase hold each candidate at most once. */
  lemma {:induction false} IndexedOnce(r: seq<Candidate>, x: Candidate)
    requires forall a, b :: 0 <= a < b < |r| ==> r[a].index < r[b].index
    ensures multiset(r)[x] <= 1
  {
    if r != [] {
      IndexedOnce(r[1..], x);
      assert r == [r[0]] + r[1..];
      if x == r[0] {
        assert x !in r[1..] by {
          assert forall k :: 0 <= k < |r[1..]| ==> r[1..][k].index > r[0].index;
        }
      }
    }
  }

  /** More than one river is free exactly when a ranked list has a second entry. */
  lemma RankedTwo(c: seq<Candidate>, free: seq<bool>, score: seq<int>, ends: seq<(int, int)>)
    requires Ranked(c, free, score, ends)
    ensures |c| >= 2 <==> TwoFree(free)
  {
    if |c| >= 2 {
      RankedEntry(c, free, score, ends, 0);
      RankedEntry(c, free, score, ends, 1);
      if c[0].index == c[1].index {
        TwoCopies(c, 0, 1);
        ListingOnce(free, score, ends, |free|, c[0]);
        assert false;
      }
      if c[0].index < c[1].index {
        assert free[c[0].index] && free[c[1].index];
      } else {
        assert free[c[1].index] && free[c[0].index];
      }
    }
    if TwoFree(free) {
      var i, j :| 0 <= i < j < |free| && free[i] && free[j];
      var p := RankedHas(c, free, score, ends, i);
      var q := RankedHas(c, free, score, ends, j);
      assert p != q;
    }
  }

  /**
   * The second entry of a ranked list is another free river, of the
   * highest score once the head's river is set aside.
   */
  lemma RankedSecond(c: seq<Candidate>, free: seq<bool>, score: seq<int>, ends: seq<(int, int)>)
    requires Ranked(c, free, score, ends) && |c| >= 2
    ensures 0 <= c[1].index < |free| && free[c[1].index] && c[1] == Entry(score, ends, c[1].index)
    ensures c[1].index != c[0].index
    ensures Tops(free, score, c[1].index, c[0].index)
  {
    RankedEntry(c, free, score, ends, 0);
    RankedEntry(c, free, score, ends, 1);
    if c[0].index == c[1].index {
      TwoCopies(c, 0, 1);
      ListingOnce(free, score, ends, |free|, c[0]);
      assert false;
    }
    forall k | 0 <= k < |free| && free[k] && k != c[0].index ensures score[k] <= score[c[1].index] {
      var p := RankedHas(c, free, score, ends, k);
      assert p != 0;
    }
  }

  /** Rivers `i` and `j` are free: `i` tops every free river, `j` every free river but `i`. */
  predicate TopTwo(free: seq<bool>, score: seq<int>, i: int, j: int)
    requires |free| == |score|
  {
    0 <= i < |free| && 0 <= j < |free| && i != j && free[i] && free[j] &&
    Tops(free, score, i, -1) && Tops(free, score, j, i)
  }

  /** The first two entries of a ranked list are a best river and a best other river. */
  lemma RankedTopTwo(c: seq<Candidate>, free: seq<bool>, score: seq<int>, ends: seq<(int, int)>)
    requires Ranked(c, free, score, ends) && |c| >= 2
    ensures TopTwo(free, score, c[0].index, c[1].index)
    ensures c[0] == Entry(score, ends, c[0].index) && c[1] == Entry(score, ends, c[1].index)
  {
    RankedFirst(c, free, score, ends);
    RankedSecond(c, free, score, ends);
  }
}
