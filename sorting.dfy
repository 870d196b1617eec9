/**
 * Sorted sequences and the `std::sort` / `std::lower_bound` /
 * `std::equal_range` calls the engine makes on them. The sort is an
 * insertion sort standing in for the library's; only its result (sorted,
 * and a permutation of the input) is relied on.
 */
module Sorting {

  predicate Sorted(s: seq<int>)
  {
    forall i, j :: 0 <= i < j < |s| ==> s[i] <= s[j]
  }

  /** Lexicographic order on pairs, the order of `std::pair`. */
  predicate PairLe(a: (int, int), b: (int, int))
  {
    a.0 < b.0 || (a.0 == b.0 && a.1 <= b.1)
  }

  predicate SortedPairs(s: seq<(int, int)>)
  {
    forall i, j :: 0 <= i < j < |s| ==> PairLe(s[i], s[j])
  }

  /** Inserts `x` before the first element larger than it. */
  function Insert(r: seq<int>, x: int): (q: seq<int>)
    requires Sorted(r)
    ensures Sorted(q) && multiset(q) == multiset(r) + multiset{x}
  {
    if r == [] || x <= r[0] then [x] + r
    else
      var t := Insert(r[1..], x);
      InsertStep(r, x, t);
      [r[0]] + t
  }

  /** Putting the head back in front of the tail with `x` inserted keeps it sorted. */
  lemma InsertStep(r: seq<int>, x: int, t: seq<int>)
    requires Sorted(r) && r != [] && r[0] < x
    requires Sorted(t) && multiset(t) == multiset(r[1..]) + multiset{x}
    ensures Sorted([r[0]] + t) && multiset([r[0]] + t) == multiset(r) + multiset{x}
  {
    assert r == [r[0]] + r[1..];
    forall k | 0 <= k < |t| ensures r[0] <= t[k] {
      assert t[k] in multiset(t);
      if t[k] != x {
        assert t[k] in multiset(r[1..]);
      }
    }
  }

  /** `std::sort` on integers. */
  method SortInts(s: seq<int>) returns (r: seq<int>)
    ensures Sorted(r) && multiset(r) == multiset(s)
  {
    r := [];
    var i := 0;
    while i < |s|
      invariant 0 <= i <= |s| && Sorted(r) && multiset(r) == multiset(s[..i])
    {
      assert s[..i + 1] == s[..i] + [s[i]];
      r := Insert(r, s[i]);
      i := i + 1;
    }
    assert s[..i] == s;
  }

  function InsertPair(r: seq<(int, int)>, x: (int, int)): (q: seq<(int, int)>)
    requires SortedPairs(r)
    ensures SortedPairs(q) && multiset(q) == multiset(r) + multiset{x}
  {
    if r == [] || PairLe(x, r[0]) then [x] + r
    else
      var t := InsertPair(r[1..], x);
      InsertPairStep(r, x, t);
      [r[0]] + t
  }

  /** Putting the head back in front of the tail with `x` inserted keeps it sorted. */
  lemma InsertPairStep(r: seq<(int, int)>, x: (int, int), t: seq<(int, int)>)
    requires SortedPairs(r) && r != [] && !PairLe(x, r[0])
    requires SortedPairs(t) && multiset(t) == multiset(r[1..]) + multiset{x}
    ensures SortedPairs([r[0]] + t) && multiset([r[0]] + t) == multiset(r) + multiset{x}
  {
    assert r == [r[0]] + r[1..];
    forall k | 0 <= k < |t| ensures PairLe(r[0], t[k]) {
      assert t[k] in multiset(t);
      if t[k] != x {
        assert t[k] in multiset(r[1..]);
      }
    }
  }

  /** `std::sort` on pairs. */
  method SortPairs(s: seq<(int, int)>) returns (r: seq<(int, int)>)
    ensures SortedPairs(r) && multiset(r) == multiset(s)
  {
    r := [];
    var i := 0;
    while i < |s|
      invariant 0 <= i <= |s| && SortedPairs(r) && multiset(r) == multiset(s[..i])
    {
      assert s[..i + 1] == s[..i] + [s[i]];
      r := InsertPair(r, s[i]);
      i := i + 1;
    }
    assert s[..i] == s;
  }

  /** `std::lower_bound`: the first position whose element is not below `v`. */
  function LowerBound(s: seq<int>, v: int): (r: nat)
    requires Sorted(s)
    ensures r <= |s|
    ensures forall i :: 0 <= i < r ==> s[i] < v
    ensures forall i :: r <= i < |s| ==> v <= s[i]
  {
    LowerBoundIn(s, v, 0, |s|)
  }

  /** Binary search for the lower bound between `lo` and `hi`. */
  function LowerBoundIn(s: seq<int>, v: int, lo: nat, hi: nat): (r: nat)
    requires Sorted(s) && lo <= hi <= |s|
    requires forall i :: 0 <= i < lo ==> s[i] < v
    requires forall i :: hi <= i < |s| ==> v <= s[i]
    ensures lo <= r <= hi
    ensures forall i :: 0 <= i < r ==> s[i] < v
    ensures forall i :: r <= i < |s| ==> v <= s[i]
    decreases hi - lo
  {
    if lo == hi then lo
    else
      var mid := (lo + hi) / 2;
      if s[mid] < v then LowerBoundIn(s, v, mid + 1, hi) else LowerBoundIn(s, v, lo, mid)
  }

  /**
   * The lower bound of a present value is its first position, so a list
   * of distinct values is indexed by it one-to-one.
   */
  lemma LowerBoundFinds(s: seq<int>, v: int)
    requires Sorted(s) && v in s
    ensures LowerBound(s, v) < |s| && s[LowerBound(s, v)] == v
  {
    var k :| 0 <= k < |s| && s[k] == v;
  }

  /** The pairs of `edges` whose first component is `v`, as `std::equal_range` finds them. */
  function FirstIs(edges: seq<(int, int)>, v: int): (r: seq<(int, int)>)
    ensures |r| <= |edges|
  {
    if edges == [] then []
    else
      var init := FirstIs(edges[..|edges| - 1], v);
      var last := edges[|edges| - 1];
      if last.0 == v then init + [last] else init
  }

  /** `FirstIs` keeps exactly the pairs starting with `v`. */
  lemma {:induction false} FirstIsMembers(edges: seq<(int, int)>, v: int)
    ensures forall e :: e in FirstIs(edges, v) <==> e in edges && e.0 == v
    decreases |edges|
  {
    if edges != [] {
      FirstIsMembers(edges[..|edges| - 1], v);
      assert forall e :: e in edges <==> e in edges[..|edges| - 1] || e == edges[|edges| - 1];
    }
  }

  /**
   * `std::equal_range` comparing first components: in a sorted list the
   * pairs starting with `v` form the block `lo .. hi`.
   */
  function EqualRange(edges: seq<(int, int)>, v: int): (r: (nat, nat))
    requires SortedPairs(edges)
    ensures r.0 <= r.1 <= |edges|
    ensures edges[r.0..r.1] == FirstIs(edges, v)
  {
    var lo := FirstBelow(edges, v, 0, |edges|);
    var hi := FirstBelow(edges, v + 1, lo, |edges|);
    EqualRangeBlock(edges, v, lo, hi);
    (lo, hi)
  }

  /** Binary search for the first pair whose first component is not below `v`. */
  function FirstBelow(edges: seq<(int, int)>, v: int, lo: nat, hi: nat): (r: nat)
    requires SortedPairs(edges) && lo <= hi <= |edges|
    requires forall i :: 0 <= i < lo ==> edges[i].0 < v
    requires forall i :: hi <= i < |edges| ==> v <= edges[i].0
    ensures lo <= r <= hi
    ensures forall i :: 0 <= i < r ==> edges[i].0 < v
    ensures forall i :: r <= i < |edges| ==> v <= edges[i].0
    decreases hi - lo
  {
    if lo == hi then lo
    else
      var mid := (lo + hi) / 2;
      if edges[mid].0 < v then FirstBelow(edges, v, mid + 1, hi) else FirstBelow(edges, v, lo, mid)
  }

  lemma {:induction false} EqualRangeBlock(edges: seq<(int, int)>, v: int, lo: nat, hi: nat)
    requires lo <= hi <= |edges|
    requires forall i :: 0 <= i < lo ==> edges[i].0 < v
    requires forall i :: lo <= i < hi ==> edges[i].0 == v
    requires forall i :: hi <= i < |edges| ==> v < edges[i].0
    ensures edges[lo..hi] == FirstIs(edges, v)
    decreases |edges|
  {
    if edges != [] {
      var init := edges[..|edges| - 1];
      if hi < |edges| {
        EqualRangeBlock(init, v, lo, hi);
        forall k | 0 <= k < hi - lo ensures init[lo..hi][k] == edges[lo..hi][k] {
          assert init[lo + k] == edges[lo + k];
        }
        assert init[lo..hi] == edges[lo..hi];
        assert FirstIs(edges, v) == FirstIs(init, v);
      } else if lo < hi {
        EqualRangeBlock(init, v, lo, hi - 1);
        assert edges[lo..hi] == init[lo..hi - 1] + [edges[hi - 1]];
        assert FirstIs(edges, v) == FirstIs(init, v) + [edges[hi - 1]];
      } else {
        EqualRangeBlock(init, v, |init|, |init|);
        assert FirstIs(edges, v) == FirstIs(init, v);
      }
    }
  }
}
