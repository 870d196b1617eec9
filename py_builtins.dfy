/**
 * The Python built-ins the two referees rely on, on text: `int()` of a
 * string, `str.find`, slicing with Python's index rules, and the loose
 * equality between a JSON value and an integer.
 */
module PyBuiltins {
  import opened Wrappers
  import opened GameData
  import opened MoveKey

  // ---------------------------------------------------------------------
  // int() of a string

  /** The ASCII characters `int()` strips from both ends: space, tab to carriage return, and 28 to 31. */
  predicate IsSpace(c: char)
  {
    c == ' ' || 9 <= c as int <= 13 || 28 <= c as int <= 31
  }

  /** `s` without leading whitespace. */
  function StripLeft(s: string): (t: string)
    ensures |t| <= |s| && (|t| > 0 ==> !IsSpace(t[0]))
    ensures t == s[|s| - |t|..]
  {
    if |s| > 0 && IsSpace(s[0]) then StripLeft(s[1..]) else s
  }

  /** `s` without trailing whitespace. */
  function StripRight(s: string): (t: string)
    ensures |t| <= |s| && (|t| > 0 ==> !IsSpace(t[|t| - 1]))
    ensures t == s[..|t|]
  {
    if |s| > 0 && IsSpace(s[|s| - 1]) then StripRight(s[..|s| - 1]) else s
  }

  /** Position `i` of `b` holds a digit, or a single underscore between two digits. */
  predicate GroupChar(b: string, i: int)
    requires 0 <= i < |b|
  {
    IsDigit(b[i]) || (b[i] == '_' && 0 < i < |b| - 1 && IsDigit(b[i + 1]))
  }

  /** Decimal digits, with single underscores allowed between two digits. */
  predicate Grouped(b: string)
  {
    |b| > 0 && forall i :: 0 <= i < |b| ==> GroupChar(b, i)
  }

  /** The digits of `b`, underscores dropped. */
  function DigitsOf(b: string): (d: string)
    ensures AllDigits(d) && |d| <= |b|
    ensures (forall i :: 0 <= i < |b| ==> IsDigit(b[i])) ==> d == b
  {
    if b == [] then []
    else if IsDigit(b[|b| - 1]) then DigitsOf(b[..|b| - 1]) + [b[|b| - 1]]
    else DigitsOf(b[..|b| - 1])
  }

  /**
   * `int(s)` in base 10: surrounding whitespace, an optional sign, then
   * digits that may be grouped by single underscores. Anything else
   * raises `ValueError`, here `None`.
   */
  function PyInt(s: string): (r: Option<int>)
    ensures s == [] ==> r == None
  {
    Signed(StripRight(StripLeft(s)))
  }

  /** An optional sign, then grouped digits. */
  function Signed(t: string): (r: Option<int>)
  {
    var negative := |t| > 0 && t[0] == '-';
    var body := if |t| > 0 && (t[0] == '-' || t[0] == '+') then t[1..] else t;
    if !Grouped(body) then None
    else
      var v := DigitsValue(DigitsOf(body));
      Some(if negative then -v else v)
  }

  /** Text with no whitespace at either end is left as it is. */
  lemma StripNothing(s: string)
    requires |s| > 0 && !IsSpace(s[0]) && !IsSpace(s[|s| - 1])
    ensures StripRight(StripLeft(s)) == s
  {
  }

  /** Digits are grouped, and have no underscore to drop. */
  lemma DigitsAlone(d: string)
    requires |d| > 0 && AllDigits(d)
    ensures Grouped(d) && DigitsOf(d) == d
  {
  }

  /** Digits without a sign are read as the number they show. */
  lemma PyIntUnsigned(d: string)
    requires |d| > 0 && AllDigits(d)
    ensures PyInt(d) == Some(DigitsValue(d))
  {
    StripNothing(d);
    assert Grouped(d);
  }

  /** A '-' before grouped digits negates them. */
  lemma SignedNegative(t: string)
    requires |t| > 0 && t[0] == '-' && Grouped(t[1..])
    ensures Signed(t) == Some(-DigitsValue(DigitsOf(t[1..])))
  {
  }

  /** Digits after a '-' are read as the negated number they show. */
  lemma PyIntNegative(s: string, d: string)
    requires |d| > 0 && AllDigits(d) && |s| > 0 && s[0] == '-' && s[1..] == d
    ensures PyInt(s) == Some(-DigitsValue(d))
  {
    DigitsAlone(d);
    SignedNegative(s);
    StripNothing(s);
  }

  /** `int()` reads back every numeral `str()` writes. */
  lemma PyIntShow(n: int)
    ensures PyInt(Show(n)) == Some(n)
  {
    var m: nat := if n < 0 then -n else n;
    ShowNatValue(m);
    if n < 0 {
      var s := Show(n);
      assert s[0] == '-' && s[1..] == ShowNat(m);
      PyIntNegative(s, ShowNat(m));
    } else {
      PyIntUnsigned(ShowNat(m));
    }
  }

  /** A numeral `str()` writes has no ':' in it. */
  lemma ShowNoColon(n: int)
    ensures ':' !in Show(n)
  {
    var digits := ShowNat(if n < 0 then -n else n);
    assert forall k :: 0 <= k < |digits| ==> digits[k] != ':';
  }

  // ---------------------------------------------------------------------
  // Text

  /** `s.find(c)`: the first position of `c` in `s`, or -1. */
  function Find(s: string, c: char): (i: int)
    ensures -1 <= i < |s|
    ensures i == -1 <==> c !in s
    ensures i >= 0 ==> s[i] == c && c !in s[..i]
  {
    if s == [] then -1
    else if s[0] == c then 0
    else
      var j := Find(s[1..], c);
      assert j >= 0 ==> s[..j + 1] == [s[0]] + s[1..][..j];
      if j == -1 then -1 else 1 + j
  }

  /** An index as Python's slice reads it: negative ones count from the end, then clamped to the text. */
  function Clamp(i: int, n: nat): (k: nat)
    ensures k <= n
    ensures 0 <= i <= n ==> k == i
  {
    if i < 0 then (if i + n < 0 then 0 else i + n)
    else if i > n then n
    else i
  }

  /** `s[i:j]`. */
  function PySlice(s: string, i: int, j: int): (t: string)
    ensures 0 <= i <= j <= |s| ==> t == s[i..j]
  {
    var a := Clamp(i, |s|);
    var b := Clamp(j, |s|);
    if a < b then s[a..b] else []
  }

  /** `s.split(c)`: the pieces between the occurrences of `c`, empty ones kept; there is always at least one. */
  function Split(s: string, c: char): (parts: seq<string>)
    ensures |parts| > 0
    ensures forall k :: 0 <= k < |parts| ==> c !in parts[k]
    ensures forall k, x :: 0 <= k < |parts| && x in parts[k] ==> x in s
    decreases |s|
  {
    var i := Find(s, c);
    if i == -1 then [s]
    else
      var rest := Split(s[i + 1..], c);
      assert forall k, x :: 0 <= k < |rest| && x in rest[k] ==> x in s[i + 1..];
      [s[..i]] + rest
  }

  /** `c.join(parts)`. */
  function Join(parts: seq<string>, c: char): string
  {
    if parts == [] then []
    else if |parts| == 1 then parts[0]
    else parts[0] + [c] + Join(parts[1..], c)
  }

  /** Splitting at the separator undoes joining with it, when no piece holds the separator. */
  lemma {:induction false} SplitJoin(parts: seq<string>, c: char)
    requires |parts| > 0 && forall k :: 0 <= k < |parts| ==> c !in parts[k]
    ensures Split(Join(parts, c), c) == parts
  {
    if |parts| == 1 {
      assert Find(parts[0], c) == -1;
    } else {
      var head := parts[0];
      var rest := Join(parts[1..], c);
      assert Join(parts, c) == head + ([c] + rest);
      SplitAfter(head, c, rest);
      SplitJoin(parts[1..], c);
      assert parts == [head] + parts[1..];
    }
  }

  /** Splitting `head + [c] + rest`, when `head` has no `c`, yields `head` and then the pieces of `rest`. */
  lemma SplitAfter(head: string, c: char, rest: string)
    requires c !in head
    ensures Split(head + ([c] + rest), c) == [head] + Split(rest, c)
  {
    var s := head + ([c] + rest);
    FindAfter(head, c, rest);
    assert s[..|head|] == head && s[|head| + 1..] == rest;
  }

  /** The first `c` of `head + [c] + rest` is the one after `head`, when `head` has none. */
  lemma FindAfter(head: string, c: char, rest: string)
    requires c !in head
    ensures Find(head + ([c] + rest), c) == |head|
  {
    var s := head + ([c] + rest);
    assert s[|head|] == c && s[..|head|] == head;
  }

  /** `c.upper()` for ASCII letters; every other character is left as it is. */
  function Upper(c: char): (u: char)
    ensures 'a' <= c <= 'z' ==> 'A' <= u <= 'Z' && u as int == c as int - 32
    ensures !('a' <= c <= 'z') ==> u == c
  {
    if 'a' <= c <= 'z' then (c as int - 32) as char else c
  }

  /** Python's order on strings: by code point, a proper prefix first. */
  predicate TextLe(a: string, b: string)
    decreases |a|
  {
    a == [] || (b != [] && (a[0] < b[0] || (a[0] == b[0] && TextLe(a[1..], b[1..]))))
  }

  /** Any two strings are ordered one way or the other. */
  lemma {:induction false} TextLeTotal(a: string, b: string)
    ensures TextLe(a, b) || TextLe(b, a)
    decreases |a|
  {
    if a != [] && b != [] && a[0] == b[0] {
      TextLeTotal(a[1..], b[1..]);
    }
  }

  /** Strings ordered both ways are equal. */
  lemma {:induction false} TextLeAntisymmetric(a: string, b: string)
    requires TextLe(a, b) && TextLe(b, a)
    ensures a == b
    decreases |a|
  {
    if a != [] {
      TextLeAntisymmetric(a[1..], b[1..]);
      assert a == [a[0]] + a[1..] && b == [b[0]] + b[1..];
    }
  }

  // ---------------------------------------------------------------------
  // JSON values in Python

  /** `d.get(key)` on a dictionary: `None` when the key is missing or its value is null. */
  function Lookup(fields: map<string, Json>, key: string): (r: Option<Json>)
    ensures r.Some? <==> key in fields && fields[key] != JNull
    ensures r.Some? ==> r.value == fields[key]
  {
    if key in fields && fields[key] != JNull then Some(fields[key]) else None
  }

  /** `v == i` for a decoded JSON value `v`: an equal integer, or `True`/`False` against 1/0. */
  predicate PyEqInt(v: Json, i: int)
  {
    v == JInt(i) || (v == JBool(true) && i == 1) || (v == JBool(false) && i == 0)
  }

  /** The integer `%d` formats a JSON number or Boolean as; anything else raises. */
  function Number(v: Json): (r: Option<int>)
    ensures r.Some? <==> v.JInt? || v.JBool?
    ensures forall i :: PyEqInt(v, i) <==> r == Some(i)
  {
    match v
    case JInt(i) => Some(i)
    case JBool(b) => Some(if b then 1 else 0)
    case _ => None
  }
}
