/**
 * The keys the simulating player files its snapshots under. A key is built
 * from a move list sorted by (punter, source, target); each move is written
 * as its three numbers in decimal, separated by spaces.
 *
 * As written, nothing separates one move from the next, so two different
 * move lists can share a key (`KeysCollide`). `Key`, the key the rest of
 * the model uses, ends every move with a ';'; it is then the same for two
 * move lists exactly when they hold the same (punter, source, target)
 * triples, counted with repetition (`KeySameExactly`).
 */
module MoveKey {
  import opened GameData

  /** What a move contributes to its key. */
  type Triple = (int, int, int)

  // ---------------------------------------------------------------------
  // Decimal numerals, as `std::ostream` writes an `int`

  predicate IsDigit(c: char)
  {
    '0' <= c <= '9'
  }

  predicate AllDigits(s: string)
  {
    forall k :: 0 <= k < |s| ==> IsDigit(s[k])
  }

  function DigitChar(d: int): (c: char)
    requires 0 <= d < 10
    ensures IsDigit(c) && c as int - '0' as int == d
  {
    ('0' as int + d) as char
  }

  /** The decimal numeral of `n`, without leading zeros. */
  function ShowNat(n: nat): (s: string)
    ensures |s| > 0 && AllDigits(s)
  {
    if n < 10 then [DigitChar(n)] else ShowNat(n / 10) + [DigitChar(n % 10)]
  }

  /** The numeral of `x`, with a leading '-' when it is negative. */
  function Show(x: int): (s: string)
    ensures |s| > 0 && ' ' !in s && ';' !in s
  {
    if x < 0 then "-" + ShowNat(-x) else ShowNat(x)
  }

  /** The number a string of digits stands for. */
  function DigitsValue(s: string): int
    requires AllDigits(s)
  {
    if s == [] then 0 else DigitsValue(s[..|s| - 1]) * 10 + (s[|s| - 1] as int - '0' as int)
  }

  /** Reads a numeral back: a leading '-' negates the digits after it. */
  function ReadInt(s: string): int
  {
    if |s| > 0 && s[0] == '-' && AllDigits(s[1..]) then -DigitsValue(s[1..])
    else if AllDigits(s) then DigitsValue(s)
    else 0
  }

  lemma {:induction false} ShowNatValue(n: nat)
    ensures DigitsValue(ShowNat(n)) == n
  {
    if n >= 10 {
      ShowNatValue(n / 10);
      var s := ShowNat(n);
      assert s[..|s| - 1] == ShowNat(n / 10);
    }
  }

  /** Every numeral reads back as the number it shows. */
  lemma ReadShow(x: int)
    ensures ReadInt(Show(x)) == x
  {
    if x < 0 {
      ShowNatValue(-x);
      assert Show(x)[1..] == ShowNat(-x);
    } else {
      ShowNatValue(x);
      assert !IsDigit('-');
    }
  }

  // ---------------------------------------------------------------------
  // The order of the key

  /** The comparison of the sort: by punter, then source, then target. */
  predicate TripleLe(a: Triple, b: Triple)
  {
    a.0 < b.0 || (a.0 == b.0 && (a.1 < b.1 || (a.1 == b.1 && a.2 <= b.2)))
  }

  predicate SortedTriples(s: seq<Triple>)
  {
    forall i, j :: 0 <= i < j < |s| ==> TripleLe(s[i], s[j])
  }

  /** The (punter, source, target) of each move, the only fields the key reads. */
  function Triples(moves: seq<GameMove>): (t: seq<Triple>)
    ensures |t| == |moves| && forall i :: 0 <= i < |moves| ==> t[i] == (moves[i].punter, moves[i].source, moves[i].target)
  {
    if moves == [] then []
    else Triples(moves[..|moves| - 1]) + [(moves[|moves| - 1].punter, moves[|moves| - 1].source, moves[|moves| - 1].target)]
  }

  function InsertTriple(r: seq<Triple>, x: Triple): seq<Triple>
  {
    if r == [] || TripleLe(x, r[0]) then [x] + r else [r[0]] + InsertTriple(r[1..], x)
  }

  /** Inserting into a sorted sequence keeps it sorted and adds exactly the new triple. */
  lemma {:induction false} InsertTripleSorts(r: seq<Triple>, x: Triple)
    requires SortedTriples(r)
    ensures SortedTriples(InsertTriple(r, x)) && multiset(InsertTriple(r, x)) == multiset(r) + multiset{x}
  {
    if r != [] && !TripleLe(x, r[0]) {
      InsertTripleSorts(r[1..], x);
      InsertTripleStep(r, x, InsertTriple(r[1..], x));
    }
  }

  lemma InsertTripleStep(r: seq<Triple>, x: Triple, t: seq<Triple>)
    requires SortedTriples(r) && r != [] && !TripleLe(x, r[0])
    requires SortedTriples(t) && multiset(t) == multiset(r[1..]) + multiset{x}
    ensures SortedTriples([r[0]] + t) && multiset([r[0]] + t) == multiset(r) + multiset{x}
  {
    assert r == [r[0]] + r[1..];
    forall k | 0 <= k < |t| ensures TripleLe(r[0], t[k]) {
      assert t[k] in multiset(t);
      if t[k] != x {
        assert t[k] in multiset(r[1..]);
      }
    }
  }

  /**
   * The `std::sort` of the key. The comparison looks at the triple alone,
   * so sorting the moves and then taking their triples gives the triples
   * sorted; moves with equal triples contribute the same text in either order.
   */
  function SortTriples(s: seq<Triple>): seq<Triple>
  {
    if s == [] then [] else InsertTriple(SortTriples(s[..|s| - 1]), s[|s| - 1])
  }

  /** The sort leaves the triples in lexicographic order and is a permutation of them. */
  lemma {:induction false} SortTriplesSorts(s: seq<Triple>)
    ensures SortedTriples(SortTriples(s)) && multiset(SortTriples(s)) == multiset(s)
  {
    if s != [] {
      SortTriplesSorts(s[..|s| - 1]);
      InsertTripleSorts(SortTriples(s[..|s| - 1]), s[|s| - 1]);
      assert s == s[..|s| - 1] + [s[|s| - 1]];
    }
  }

  /** The head of a sorted sequence comes first among its elements. */
  lemma HeadFirst(a: seq<Triple>, x: Triple)
    requires SortedTriples(a) && x in multiset(a)
    ensures TripleLe(a[0], x)
  {
    var i :| 0 <= i < |a| && a[i] == x;
    if i > 0 {
      assert TripleLe(a[0], a[i]);
    }
  }

  lemma Tail(a: seq<Triple>)
    requires a != []
    ensures multiset(a[1..]) == multiset(a) - multiset{a[0]}
  {
    assert a == [a[0]] + a[1..];
  }

  /** Two sorted arrangements of the same triples are the same sequence. */
  lemma {:induction false} SortedUnique(a: seq<Triple>, b: seq<Triple>)
    requires SortedTriples(a) && SortedTriples(b) && multiset(a) == multiset(b)
    ensures a == b
  {
    if a != [] {
      assert |b| == |a| by {
        assert |multiset(a)| == |multiset(b)|;
      }
      HeadFirst(b, a[0]);
      HeadFirst(a, b[0]);
      Tail(a);
      Tail(b);
      SortedUnique(a[1..], b[1..]);
      assert a == [a[0]] + a[1..] && b == [b[0]] + b[1..];
    }
  }

  // ---------------------------------------------------------------------
  // Keys

  /** One move's text: punter, source and target, separated by spaces. */
  function Piece(t: Triple): string
  {
    Show(t.0) + " " + Show(t.1) + " " + Show(t.2)
  }

  /** The pieces one after another, nothing between them. */
  function Glued(s: seq<Triple>): string
  {
    if s == [] then [] else Piece(s[0]) + Glued(s[1..])
  }

  /** The pieces, each followed by ';'. */
  function Delimited(s: seq<Triple>): string
  {
    if s == [] then [] else Piece(s[0]) + ";" + Delimited(s[1..])
  }

  /** `MovesToKey` as written: the sorted moves' pieces with no separator. */
  function KeyAsWritten(moves: seq<GameMove>): (k: string)
    ensures |Key(moves)| == |k| + |moves|
  {
    SortTriplesSorts(Triples(moves));
    assert |SortTriples(Triples(moves))| == |Triples(moves)| by {
      assert |multiset(SortTriples(Triples(moves)))| == |multiset(Triples(moves))|;
    }
    DelimitedLonger(SortTriples(Triples(moves)));
    Glued(SortTriples(Triples(moves)))
  }

  /** The delimited pieces are the glued ones plus one ';' per move. */
  lemma {:induction false} DelimitedLonger(s: seq<Triple>)
    ensures |Delimited(s)| == |Glued(s)| + |s|
  {
    if s != [] {
      DelimitedLonger(s[1..]);
    }
  }

  /** The key with every move ended by ';'. */
  function Key(moves: seq<GameMove>): string
  {
    Delimited(SortTriples(Triples(moves)))
  }

  /** Either key is blind to the order of the moves. */
  lemma KeysIgnoreOrder(a: seq<GameMove>, b: seq<GameMove>)
    requires multiset(Triples(a)) == multiset(Triples(b))
    ensures Key(a) == Key(b) && KeyAsWritten(a) == KeyAsWritten(b)
  {
    SortTriplesSorts(Triples(a));
    SortTriplesSorts(Triples(b));
    SortedUnique(SortTriples(Triples(a)), SortTriples(Triples(b)));
  }

  /** Cutting two strings at the first occurrence of the same character. */
  lemma CutAt(u: string, v: string, u': string, v': string, c: char)
    requires u + [c] + v == u' + [c] + v' && c !in u && c !in u'
    ensures u == u' && v == v'
  {
    var w := u + [c] + v;
    assert w[|u|] == c && (u' + [c] + v')[|u'|] == c;
    assert u == w[..|u|] && u' == w[..|u'|];
    assert v == w[|u| + 1..] && v' == w[|u'| + 1..];
  }

  /** A numeral determines its number. */
  lemma ShowInjective(x: int, y: int)
    requires Show(x) == Show(y)
    ensures x == y
  {
    ReadShow(x);
    ReadShow(y);
  }

  /** The first piece of a delimited text is read off unambiguously. */
  lemma HeadInjective(a: Triple, rest: string, b: Triple, rest': string)
    requires Piece(a) + ";" + rest == Piece(b) + ";" + rest'
    ensures a == b && rest == rest'
  {
    var x2, y2 := Show(a.2) + [';'] + rest, Show(b.2) + [';'] + rest';
    var x1, y1 := Show(a.1) + [' '] + x2, Show(b.1) + [' '] + y2;
    PieceThen(a, rest);
    PieceThen(b, rest');
    CutAt(Show(a.0), x1, Show(b.0), y1, ' ');
    CutAt(Show(a.1), x2, Show(b.1), y2, ' ');
    CutAt(Show(a.2), rest, Show(b.2), rest', ';');
    ShowInjective(a.0, b.0);
    ShowInjective(a.1, b.1);
    ShowInjective(a.2, b.2);
  }

  /** A piece and what follows it, regrouped numeral by numeral. */
  lemma PieceThen(a: Triple, rest: string)
    ensures Piece(a) + ";" + rest == Show(a.0) + [' '] + (Show(a.1) + [' '] + (Show(a.2) + [';'] + rest))
  {
  }

  /** Only no triples give an empty delimited text. */
  lemma DelimitedEmpty(s: seq<Triple>)
    ensures Delimited(s) == [] <==> s == []
  {
    if s != [] {
      assert |Delimited(s)| >= |Piece(s[0]) + ";"|;
    }
  }

  /** A delimited text determines the triples it was written from. */
  lemma {:induction false} DelimitedInjective(s: seq<Triple>, t: seq<Triple>)
    requires Delimited(s) == Delimited(t)
    ensures s == t
  {
    DelimitedEmpty(s);
    DelimitedEmpty(t);
    if s != [] && t != [] {
      HeadInjective(s[0], Delimited(s[1..]), t[0], Delimited(t[1..]));
      DelimitedInjective(s[1..], t[1..]);
      assert s == [s[0]] + s[1..] && t == [t[0]] + t[1..];
    }
  }

  /** Two move lists share a key exactly when they hold the same triples. */
  lemma KeySameExactly(a: seq<GameMove>, b: seq<GameMove>)
    ensures Key(a) == Key(b) <==> multiset(Triples(a)) == multiset(Triples(b))
  {
    if Key(a) == Key(b) {
      DelimitedInjective(SortTriples(Triples(a)), SortTriples(Triples(b)));
      SortTriplesSorts(Triples(a));
      SortTriplesSorts(Triples(b));
    }
    if multiset(Triples(a)) == multiset(Triples(b)) {
      KeysIgnoreOrder(a, b);
    }
  }

  /** The as-written key of two moves already in order: their pieces, glued. */
  lemma GluedPair(m: GameMove, n: GameMove)
    requires TripleLe((m.punter, m.source, m.target), (n.punter, n.source, n.target))
    ensures KeyAsWritten([m, n]) == Piece((m.punter, m.source, m.target)) + Piece((n.punter, n.source, n.target))
  {
    var t := Triples([m, n]);
    SortTriplesSorts(t);
    SortedUnique(SortTriples(t), t);
    assert Glued(t[1..]) == Piece(t[1]) + Glued([]);
  }

  /** The numerals of the collision below. */
  lemma SmallNumerals()
    ensures Show(0) == "0" && Show(1) == "1" && Show(3) == "3" && Show(4) == "4" && Show(5) == "5"
    ensures Show(12) == "12" && Show(23) == "23"
  {
    assert ShowNat(1) == "1" && ShowNat(2) == "2";
    assert ShowNat(12) == ShowNat(1) + [DigitChar(2)];
    assert ShowNat(23) == ShowNat(2) + [DigitChar(3)];
  }

  /** "0 1 12" + "3 4 5" is "0 1 1" + "23 4 5". */
  lemma PiecesCollide()
    ensures Piece((0, 1, 12)) + Piece((3, 4, 5)) == Piece((0, 1, 1)) + Piece((23, 4, 5))
  {
    SmallNumerals();
    assert "12" + "3" == "1" + "23";
  }

  /**
   * The key as written gives one text to two different move lists:
   * "0 1 12" + "3 4 5" and "0 1 1" + "23 4 5" are both "0 1 123 4 5".
   */
  lemma KeysCollide()
    ensures var a := [Claim(0, 1, 12), Claim(3, 4, 5)];
      var b := [Claim(0, 1, 1), Claim(23, 4, 5)];
      multiset(Triples(a)) != multiset(Triples(b)) && KeyAsWritten(a) == KeyAsWritten(b)
  {
    var a := [Claim(0, 1, 12), Claim(3, 4, 5)];
    var b := [Claim(0, 1, 1), Claim(23, 4, 5)];
    assert Triples(a)[0] == (0, 1, 12) && (0, 1, 12) !in Triples(b);
    assert (0, 1, 12) in multiset(Triples(a));
    GluedPair(a[0], a[1]);
    GluedPair(b[0], b[1]);
    PiecesCollide();
  }
}
