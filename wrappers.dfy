/** Small shared vocabulary: optional values, results and integer folds. */
module Wrappers {

  datatype Option<T> = None | Some(value: T)

  datatype Result<T, E> = Ok(value: T) | Err(error: E)

  /** Sum of a sequence of integers, left to right. */
  function Sum(s: seq<int>): int
  {
    if s == [] then 0 else Sum(s[..|s| - 1]) + s[|s| - 1]
  }

  lemma {:induction false} SumAppend(s: seq<int>, t: seq<int>)
    ensures Sum(s + t) == Sum(s) + Sum(t)
    decreases |t|
  {
    if t == [] {
      assert s + t == s;
    } else {
      assert (s + t)[..|s + t| - 1] == s + t[..|t| - 1];
      SumAppend(s, t[..|t| - 1]);
    }
  }

  /** Number of `true` entries. */
  function CountTrue(s: seq<bool>): nat
  {
    if s == [] then 0 else CountTrue(s[..|s| - 1]) + (if s[|s| - 1] then 1 else 0)
  }

  lemma {:induction false} CountTrueBound(s: seq<bool>)
    ensures CountTrue(s) <= |s|
    decreases |s|
  {
    if s != [] {
      CountTrueBound(s[..|s| - 1]);
    }
  }

  lemma {:induction false} CountTrueNone(s: seq<bool>)
    requires forall i :: 0 <= i < |s| ==> !s[i]
    ensures CountTrue(s) == 0
    decreases |s|
  {
    if s != [] {
      CountTrueNone(s[..|s| - 1]);
    }
  }

  /** Setting one `false` entry to `true` adds exactly one. */
  lemma {:induction false} CountTrueSet(s: seq<bool>, i: nat)
    requires i < |s| && !s[i]
    ensures CountTrue(s[i := true]) == CountTrue(s) + 1
    decreases |s|
  {
    var t := s[i := true];
    if i < |s| - 1 {
      assert t[..|t| - 1] == s[..|s| - 1][i := true];
      CountTrueSet(s[..|s| - 1], i);
    } else {
      assert t[..|t| - 1] == s[..|s| - 1];
    }
  }

  /** Turning entries from `false` to `true` never lowers the count. */
  lemma {:induction false} CountTrueMono(a: seq<bool>, b: seq<bool>)
    requires |a| == |b| && forall i :: 0 <= i < |a| && a[i] ==> b[i]
    ensures CountTrue(a) <= CountTrue(b)
    decreases |a|
  {
    if a != [] {
      CountTrueMono(a[..|a| - 1], b[..|b| - 1]);
    }
  }

  /** A pointwise smaller mask with the same count is the same mask. */
  lemma {:induction false} CountTrueSameSubset(a: seq<bool>, b: seq<bool>)
    requires |a| == |b| && forall i :: 0 <= i < |a| && a[i] ==> b[i]
    requires CountTrue(a) == CountTrue(b)
    ensures forall i :: 0 <= i < |a| ==> a[i] == b[i]
    decreases |a|
  {
    if a != [] {
      var k := |a| - 1;
      CountTrueMono(a[..k], b[..k]);
      CountTrueSameSubset(a[..k], b[..k]);
      assert forall i :: 0 <= i < k ==> a[i] == a[..k][i] && b[i] == b[..k][i];
    }
  }

  /** Number of occurrences of `x` in `s`. */
  function Count<T(==)>(s: seq<T>, x: T): nat
  {
    if s == [] then 0 else Count(s[..|s| - 1], x) + (if s[|s| - 1] == x then 1 else 0)
  }

  lemma {:induction false} CountAppend<T>(s: seq<T>, t: seq<T>, x: T)
    ensures Count(s + t, x) == Count(s, x) + Count(t, x)
    decreases |t|
  {
    if t == [] {
      assert s + t == s;
    } else {
      assert (s + t)[..|s + t| - 1] == s + t[..|t| - 1];
      CountAppend(s, t[..|t| - 1], x);
    }
  }

  lemma {:induction false} CountPositive<T>(s: seq<T>, x: T)
    ensures Count(s, x) > 0 <==> x in s
    decreases |s|
  {
    if s != [] {
      CountPositive(s[..|s| - 1], x);
      assert s == s[..|s| - 1] + [s[|s| - 1]];
    }
  }

  function Max(a: int, b: int): int { if a < b then b else a }

  function Min(a: int, b: int): int { if a < b then a else b }

  /** A finite set of integers holding `w` has a least element. */
  lemma {:induction false} MinExists(sites: set<int>, w: int)
    requires w in sites
    ensures exists m :: m in sites && forall x :: x in sites ==> m <= x
    decreases |sites|
  {
    if exists z :: z in sites && z < w {
      var z :| z in sites && z < w;
      MinExists(sites - {w}, z);
      var m :| m in sites - {w} && forall x :: x in sites - {w} ==> m <= x;
      forall x | x in sites ensures m <= x {
        if x != w {
          assert x in sites - {w};
        }
      }
    } else {
      assert forall x :: x in sites ==> w <= x;
    }
  }


  // ---------------------------------------------------------------------
  // Sequences without repeats

  /** No value occurs twice in `s`. */
  predicate NoDuplicates<T(==)>(s: seq<T>)
  {
    forall x :: x in multiset(s) ==> multiset(s)[x] == 1
  }

  /** A prefix of a sequence without repeats has none either. */
  lemma NoDuplicatesPrefix<T>(s: seq<T>, k: nat)
    requires NoDuplicates(s) && k <= |s|
    ensures NoDuplicates(s[..k])
  {
    assert s == s[..k] + s[k..];
    assert multiset(s) == multiset(s[..k]) + multiset(s[k..]);
    forall x | x in multiset(s[..k]) ensures multiset(s[..k])[x] == 1 {
      assert x in multiset(s);
    }
  }

  /** In a sequence without repeats, no element occurs before its own position. */
  lemma NoDuplicatesFresh<T>(s: seq<T>, i: nat)
    requires NoDuplicates(s) && i < |s|
    ensures s[i] !in s[..i]
  {
    assert s[..i + 1] == s[..i] + [s[i]];
    assert s == s[..i + 1] + s[i + 1..];
    assert multiset(s)[s[i]] >= multiset(s[..i])[s[i]] + 1;
  }

  /** Two sequences without repeats and without a common element concatenate to one without repeats. */
  lemma NoDuplicatesConcat<T>(s: seq<T>, t: seq<T>)
    requires NoDuplicates(s) && NoDuplicates(t)
    requires forall x :: x in s ==> x !in t
    ensures NoDuplicates(s + t)
  {
    forall x | x in multiset(s + t) ensures multiset(s + t)[x] == 1 {
      if x in s {
        assert x !in multiset(t);
      } else {
        assert x !in multiset(s);
      }
    }
  }

  /** A permutation has the same length and members, and no repeats when the original has none. */
  lemma Permutation<T>(r: seq<T>, s: seq<T>)
    requires multiset(r) == multiset(s)
    ensures |r| == |s| && forall x :: x in r <==> x in s
    ensures NoDuplicates(s) ==> NoDuplicates(r)
  {
    assert |r| == |multiset(r)|;
    assert forall x :: x in r <==> x in multiset(r);
    assert forall x :: x in s <==> x in multiset(s);
  }
}
