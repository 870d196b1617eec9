/**
 * The results matrix of the lambdapark dashboard: the configuration a
 * report is filed under, and the points a finished match gives each of
 * its punters by rank. Reports come from the database as values; the web
 * pages, averages and timings are not part of this model.
 */
module Dashboard {
  import opened Wrappers
  import opened MoveKey
  import opened PyBuiltins

  /** A match report as the matrix reads it; `error` says whether the report carries an error. */
  datatype Report = Report(mapName: string, punters: seq<string>, extensions: string, error: bool, scores: seq<int>)

  // ---------------------------------------------------------------------
  // The configuration key

  /** `filter(None, parts)`: the nonempty pieces, in order. */
  function NonEmpty(parts: seq<string>): (r: seq<string>)
    ensures forall k :: 0 <= k < |r| ==> r[k] != [] && r[k] in parts
    ensures forall k :: 0 <= k < |parts| && parts[k] != [] ==> parts[k] in r
  {
    if parts == [] then []
    else (if parts[0] == [] then [] else [parts[0]]) + NonEmpty(parts[1..])
  }

  /** The first character of each name, upper-cased. */
  function Heads(names: seq<string>): (r: string)
    requires forall k :: 0 <= k < |names| ==> names[k] != []
    ensures |r| == |names| && forall k :: 0 <= k < |names| ==> r[k] == Upper(names[k][0])
  {
    if names == [] then [] else [Upper(names[0][0])] + Heads(names[1..])
  }

  /** The extensions' initials: the first letter of each extension named in the comma-separated list, upper-cased. */
  function Initials(extensions: string): string
  {
    Heads(NonEmpty(Split(extensions, ',')))
  }

  /** `s or '-'`. */
  function OrDash(s: string): (r: string)
    ensures r != []
  {
    if s == [] then "-" else s
  }

  /** The configuration a report is filed under: the map, the number of punters, the initials and the extensions. */
  function ConfigKey(r: Report): string
  {
    r.mapName + " " + Show(|r.punters|) + " " + OrDash(Initials(r.extensions)) + " " + OrDash(r.extensions)
  }

  /** Upper-casing never makes a space. */
  lemma UpperNoSpace(c: char)
    requires c != ' '
    ensures Upper(c) != ' '
  {
  }

  /** Initials of extensions written without spaces have no space. */
  lemma InitialsNoSpace(extensions: string)
    requires ' ' !in extensions
    ensures ' ' !in Initials(extensions)
  {
    var parts := Split(extensions, ',');
    var names := NonEmpty(parts);
    var r := Heads(names);
    forall k | 0 <= k < |r|
      ensures r[k] != ' '
    {
      var j :| 0 <= j < |parts| && parts[j] == names[k];
      NoSpaceHead(parts[j], extensions);
    }
    assert Initials(extensions) == r;
  }

  /** A nonempty piece of spaceless text starts with no space, upper-cased or not. */
  lemma NoSpaceHead(piece: string, s: string)
    requires piece != [] && ' ' !in s && forall x :: x in piece ==> x in s
    ensures Upper(piece[0]) != ' '
  {
    assert piece[0] in piece;
  }

  /** A numeral has no space. */
  lemma ShowNoSpace(n: int)
    ensures ' ' !in Show(n)
  {
    var digits := ShowNat(if n < 0 then -n else n);
    assert forall k :: 0 <= k < |digits| ==> digits[k] != ' ';
  }

  /**
   * The key of a report whose map and extensions have no spaces splits
   * back at its spaces into the map, the number of punters, the initials
   * and the extensions, a '-' standing for an empty part.
   */
  lemma ConfigKeyFields(r: Report)
    requires ' ' !in r.mapName && ' ' !in r.extensions
    ensures Split(ConfigKey(r), ' ') == [r.mapName, Show(|r.punters|), OrDash(Initials(r.extensions)), OrDash(r.extensions)]
  {
    ShowNoSpace(|r.punters|);
    InitialsNoSpace(r.extensions);
    FourFields(r.mapName, Show(|r.punters|), OrDash(Initials(r.extensions)), OrDash(r.extensions));
  }

  /** Four fields without spaces, written with a space between each two, split back into those fields. */
  lemma FourFields(a: string, b: string, c: string, d: string)
    requires ' ' !in a && ' ' !in b && ' ' !in c && ' ' !in d
    ensures Split(a + " " + b + " " + c + " " + d, ' ') == [a, b, c, d]
  {
    assert Join([d], ' ') == d;
    JoinCons(c, [d], ' ');
    JoinCons(b, [c, d], ' ');
    JoinCons(a, [b, c, d], ' ');
    assert [a] + [b, c, d] == [a, b, c, d];
    assert a + " " + b + " " + c + " " + d == a + [' '] + (b + [' '] + (c + [' '] + d));
    SplitJoin([a, b, c, d], ' ');
  }

  /** Joining a piece before a nonempty list puts the separator between them. */
  lemma JoinCons(h: string, t: seq<string>, c: char)
    requires |t| > 0
    ensures Join([h] + t, c) == h + [c] + Join(t, c)
  {
    assert ([h] + t)[1..] == t;
  }

  /**
   * Two reports filed under one key, their maps and extensions written
   * without spaces and no extension list being "-", share the map, the
   * number of punters and the extensions.
   */
  lemma SameKey(r1: Report, r2: Report)
    requires ' ' !in r1.mapName && ' ' !in r1.extensions && ' ' !in r2.mapName && ' ' !in r2.extensions
    requires r1.extensions != "-" && r2.extensions != "-"
    requires ConfigKey(r1) == ConfigKey(r2)
    ensures r1.mapName == r2.mapName && |r1.punters| == |r2.punters| && r1.extensions == r2.extensions
  {
    ConfigKeyFields(r1);
    ConfigKeyFields(r2);
    PyIntShow(|r1.punters|);
    PyIntShow(|r2.punters|);
  }

  // ---------------------------------------------------------------------
  // Ranking and points

  /** `zip(punters, scores)`: pairs up to the shorter of the two. */
  function Zip(punters: seq<string>, scores: seq<int>): (z: seq<(string, int)>)
    ensures |z| == Min(|punters|, |scores|)
    ensures forall i :: 0 <= i < |z| ==> z[i] == (punters[i], scores[i])
  {
    seq(Min(|punters|, |scores|), i requires 0 <= i < Min(|punters|, |scores|) => (punters[i], scores[i]))
  }

  /** Best first: no entry scores more than one before it. */
  predicate Descending(ranking: seq<(string, int)>)
  {
    forall i, j :: 0 <= i < j < |ranking| ==> ranking[i].1 >= ranking[j].1
  }

  /** `x` placed after every entry that scores at least as much. */
  function Placed(ranking: seq<(string, int)>, x: (string, int)): (q: seq<(string, int)>)
    requires Descending(ranking)
    ensures Descending(q) && multiset(q) == multiset(ranking) + multiset{x}
    ensures forall e :: e in q ==> e in ranking || e == x
  {
    if ranking == [] then [x]
    else
      var last := ranking[|ranking| - 1];
      if x.1 > last.1 then
        var front := ranking[..|ranking| - 1];
        assert ranking == front + [last];
        var p := Placed(front, x);
        PlacedBelow(p, front, x, last);
        p + [last]
      else ranking + [x]
  }

  /** Placing an entry that beats `last` among entries that all do leaves `last` at the bottom. */
  lemma PlacedBelow(p: seq<(string, int)>, front: seq<(string, int)>, x: (string, int), last: (string, int))
    requires Descending(p) && forall e :: e in p ==> e in front || e == x
    requires Descending(front + [last]) && x.1 > last.1
    ensures Descending(p + [last])
  {
    forall i | 0 <= i < |p|
      ensures p[i].1 >= last.1
    {
      assert p[i] in p;
      if p[i] != x {
        var j :| 0 <= j < |front| && front[j] == p[i];
        assert (front + [last])[j] == front[j] && (front + [last])[|front|] == last;
      }
    }
  }

  /** `sort(key=score, reverse=True)`: best first, a stable sort, so equal scores keep their order. */
  function Ranked(pairs: seq<(string, int)>): (r: seq<(string, int)>)
    ensures Descending(r) && multiset(r) == multiset(pairs)
  {
    if pairs == [] then []
    else
      assert pairs == pairs[..|pairs| - 1] + [pairs[|pairs| - 1]];
      Placed(Ranked(pairs[..|pairs| - 1]), pairs[|pairs| - 1])
  }

  /** How many entries score more than `v`. */
  function Above(ranking: seq<(string, int)>, v: int): nat
  {
    if ranking == [] then 0
    else Above(ranking[..|ranking| - 1], v) + (if ranking[|ranking| - 1].1 > v then 1 else 0)
  }

  /** The points of entry `i`: the number of entries, less those that scored more. */
  function Standing(ranking: seq<(string, int)>, i: int): int
    requires 0 <= i < |ranking|
  {
    |ranking| - Above(ranking, ranking[i].1)
  }

  /** Exactly the first `i` entries scoring more than `v` makes `i` entries above `v`. */
  lemma {:induction false} AboveCount(ranking: seq<(string, int)>, v: int, i: nat)
    requires i <= |ranking|
    requires forall k :: 0 <= k < i ==> ranking[k].1 > v
    requires forall k :: i <= k < |ranking| ==> ranking[k].1 <= v
    ensures Above(ranking, v) == i
    decreases |ranking|
  {
    if ranking != [] {
      var front := ranking[..|ranking| - 1];
      if i == |ranking| {
        AboveCount(front, v, i - 1);
      } else {
        AboveCount(front, v, i);
      }
    }
  }

  /** An entry is never above its own score. */
  lemma {:induction false} AboveSelf(ranking: seq<(string, int)>, i: nat)
    requires i < |ranking|
    ensures Above(ranking, ranking[i].1) < |ranking|
    decreases |ranking|
  {
    var front := ranking[..|ranking| - 1];
    if i < |ranking| - 1 {
      assert front[i] == ranking[i];
      AboveSelf(front, i);
    }
    AboveAtMost(front, ranking[i].1);
  }

  lemma {:induction false} AboveAtMost(ranking: seq<(string, int)>, v: int)
    ensures Above(ranking, v) <= |ranking|
    decreases |ranking|
  {
    if ranking != [] {
      AboveAtMost(ranking[..|ranking| - 1], v);
    }
  }

  /** A lower score has every entry above a higher one above it too, and the higher entry besides. */
  lemma {:induction false} AboveGap(ranking: seq<(string, int)>, i: nat, b: int)
    requires i < |ranking| && ranking[i].1 > b
    ensures Above(ranking, b) > Above(ranking, ranking[i].1)
    decreases |ranking|
  {
    var front := ranking[..|ranking| - 1];
    if i < |ranking| - 1 {
      assert front[i] == ranking[i];
      AboveGap(front, i, b);
    } else {
      AboveMono(front, ranking[i].1, b);
    }
  }

  lemma {:induction false} AboveMono(ranking: seq<(string, int)>, a: int, b: int)
    requires a >= b
    ensures Above(ranking, b) >= Above(ranking, a)
    decreases |ranking|
  {
    if ranking != [] {
      AboveMono(ranking[..|ranking| - 1], a, b);
    }
  }

  /**
   * Points lie between 1 and the number of entries; equal scores get equal
   * points and a higher score strictly more.
   */
  lemma StandingOrder(ranking: seq<(string, int)>, i: nat, j: nat)
    requires i < |ranking| && j < |ranking|
    ensures 1 <= Standing(ranking, i) <= |ranking|
    ensures ranking[i].1 == ranking[j].1 ==> Standing(ranking, i) == Standing(ranking, j)
    ensures ranking[i].1 > ranking[j].1 ==> Standing(ranking, i) > Standing(ranking, j)
  {
    AboveSelf(ranking, i);
    if ranking[i].1 > ranking[j].1 {
      AboveGap(ranking, i, ranking[j].1);
    }
  }

  /** The top entry of a ranking gets as many points as there are entries. */
  lemma TopStanding(ranking: seq<(string, int)>)
    requires Descending(ranking) && |ranking| > 0
    ensures Standing(ranking, 0) == |ranking|
  {
    AboveCount(ranking, ranking[0].1, 0);
  }

  /**
   * The points loop: the first entry, and every entry scoring less than
   * the one before, gets the number of entries less those already
   * placed; an entry tying the one before copies its points.
   */
  method Points(ranking: seq<(string, int)>) returns (points: seq<int>)
    requires Descending(ranking)
    ensures |points| == |ranking| && forall i :: 0 <= i < |ranking| ==> points[i] == Standing(ranking, i)
  {
    points := [];
    for i := 0 to |ranking|
      invariant |points| == i && forall k :: 0 <= k < i ==> points[k] == Standing(ranking, k)
    {
      if i > 0 && ranking[i - 1].1 == ranking[i].1 {
        points := points + [points[|points| - 1]];
      } else {
        AboveCount(ranking, ranking[i].1, i);
        points := points + [|ranking| - |points|];
      }
    }
  }

  // ---------------------------------------------------------------------
  // Buckets

  /** The points lists, by (configuration, punter). */
  type Buckets = map<(string, string), seq<int>>

  /** A bucket's points; a missing bucket reads as empty, as a default dictionary's does. */
  function Bucket(b: Buckets, key: (string, string)): seq<int>
  {
    if key in b then b[key] else []
  }

  /** Looking up each punter's bucket of `config`: the bucket is made when missing; no points change. */
  function Touched(b: Buckets, config: string, punters: seq<string>): Buckets
    decreases |punters|
  {
    if punters == [] then b
    else
      var key := (config, punters[0]);
      Touched(b[key := Bucket(b, key)], config, punters[1..])
  }

  /** Each entry's points appended to its punter's bucket of `config`, in ranking order. */
  function Credited(b: Buckets, config: string, ranking: seq<(string, int)>, points: seq<int>): Buckets
    requires |points| == |ranking|
    decreases |ranking|
  {
    if ranking == [] then b
    else
      var key := (config, ranking[0].0);
      Credited(b[key := Bucket(b, key) + [points[0]]], config, ranking[1..], points[1..])
  }

  /** The points `ranking` gives punter `p`, in ranking order. */
  function PointsOf(ranking: seq<(string, int)>, points: seq<int>, p: string): seq<int>
    requires |points| == |ranking|
  {
    if ranking == [] then []
    else (if ranking[0].0 == p then [points[0]] else []) + PointsOf(ranking[1..], points[1..], p)
  }

  /** Looking a bucket up changes no points, and makes every punter's bucket of `config`. */
  lemma {:induction false} TouchedKeeps(b: Buckets, config: string, punters: seq<string>)
    ensures forall key :: Bucket(Touched(b, config, punters), key) == Bucket(b, key)
    ensures forall key :: key in b ==> key in Touched(b, config, punters)
    ensures forall p :: p in punters ==> (config, p) in Touched(b, config, punters)
    ensures forall key :: key in Touched(b, config, punters) ==> key in b || (key.0 == config && key.1 in punters)
    decreases |punters|
  {
    if punters != [] {
      var key := (config, punters[0]);
      TouchedKeeps(b[key := Bucket(b, key)], config, punters[1..]);
    }
  }

  /**
   * Crediting a ranking adds to punter `p`'s bucket of `config` exactly
   * the points of `p`'s entries, in ranking order, and touches no other
   * configuration.
   */
  lemma {:induction false} CreditedBucket(b: Buckets, config: string, ranking: seq<(string, int)>, points: seq<int>, key: (string, string))
    requires |points| == |ranking|
    ensures Bucket(Credited(b, config, ranking, points), key) ==
      Bucket(b, key) + (if key.0 == config then PointsOf(ranking, points, key.1) else [])
    decreases |ranking|
  {
    if ranking != [] {
      var k := (config, ranking[0].0);
      CreditedBucket(b[k := Bucket(b, k) + [points[0]]], config, ranking[1..], points[1..], key);
    }
  }

  /** What one report does to the buckets and the errored configurations. */
  function Filed(b: Buckets, errors: set<string>, r: Report): (Buckets, set<string>)
  {
    var config := ConfigKey(r);
    if r.error then (Touched(b, config, r.punters), errors + {config})
    else
      var ranking := Ranked(Zip(r.punters, r.scores));
      (Credited(b, config, ranking, seq(|ranking|, i requires 0 <= i < |ranking| => Standing(ranking, i))), errors)
  }

  /** The reports filed one after another. */
  function Tallied(b: Buckets, errors: set<string>, reports: seq<Report>): (Buckets, set<string>)
    decreases |reports|
  {
    if reports == [] then (b, errors)
    else
      var step := Filed(b, errors, reports[0]);
      Tallied(step.0, step.1, reports[1..])
  }

  /** A report with an error adds no points: every bucket keeps its points, and its configuration is flagged. */
  lemma ErrorAddsNoPoints(b: Buckets, errors: set<string>, r: Report)
    requires r.error
    ensures forall key :: Bucket(Filed(b, errors, r).0, key) == Bucket(b, key)
    ensures forall p :: p in r.punters ==> (ConfigKey(r), p) in Filed(b, errors, r).0
    ensures Filed(b, errors, r).1 == errors + {ConfigKey(r)}
  {
    TouchedKeeps(b, ConfigKey(r), r.punters);
  }

  /**
   * A finished report gives each of its punters, in its configuration's
   * bucket, the standing of each of its entries, and flags nothing.
   */
  lemma FinishedCredits(b: Buckets, errors: set<string>, r: Report, p: string)
    requires !r.error
    ensures var ranking := Ranked(Zip(r.punters, r.scores));
      Bucket(Filed(b, errors, r).0, (ConfigKey(r), p)) ==
      Bucket(b, (ConfigKey(r), p)) + PointsOf(ranking, seq(|ranking|, i requires 0 <= i < |ranking| => Standing(ranking, i)), p)
    ensures Filed(b, errors, r).1 == errors
  {
    var ranking := Ranked(Zip(r.punters, r.scores));
    CreditedBucket(b, ConfigKey(r), ranking, seq(|ranking|, i requires 0 <= i < |ranking| => Standing(ranking, i)), (ConfigKey(r), p));
  }

  /** Every point a bucket holds is at least 1 and at most the number of entries of the report it came from. */
  lemma {:induction false} PointsOfBounded(ranking: seq<(string, int)>, p: string)
    ensures var points := seq(|ranking|, i requires 0 <= i < |ranking| => Standing(ranking, i));
      forall v :: v in PointsOf(ranking, points, p) ==> 1 <= v <= |ranking|
  {
    var points := seq(|ranking|, i requires 0 <= i < |ranking| => Standing(ranking, i));
    forall i | 0 <= i < |ranking|
      ensures 1 <= points[i] <= |ranking|
    {
      StandingOrder(ranking, i, i);
    }
    PointsOfIn(ranking, points, p);
  }

  /** `PointsOf` picks from the points given. */
  lemma {:induction false} PointsOfIn(ranking: seq<(string, int)>, points: seq<int>, p: string)
    requires |points| == |ranking|
    ensures forall v :: v in PointsOf(ranking, points, p) ==> v in points
    decreases |ranking|
  {
    if ranking != [] {
      PointsOfIn(ranking[1..], points[1..], p);
    }
  }

  // ---------------------------------------------------------------------
  // The matrix loop

  /** For an errored report: each punter's bucket looked up. */
  method Touch(b: Buckets, config: string, punters: seq<string>) returns (t: Buckets)
    ensures t == Touched(b, config, punters)
  {
    t := b;
    for i := 0 to |punters|
      invariant Touched(t, config, punters[i..]) == Touched(b, config, punters)
    {
      assert punters[i..][1..] == punters[i + 1..];
      var key := (config, punters[i]);
      t := t[key := Bucket(t, key)];
    }
    assert punters[|punters|..] == [];
  }

  /** For a finished report: each entry's points appended to its punter's bucket. */
  method Credit(b: Buckets, config: string, ranking: seq<(string, int)>, points: seq<int>) returns (t: Buckets)
    requires |points| == |ranking|
    ensures t == Credited(b, config, ranking, points)
  {
    t := b;
    for i := 0 to |ranking|
      invariant Credited(t, config, ranking[i..], points[i..]) == Credited(b, config, ranking, points)
    {
      assert ranking[i..][1..] == ranking[i + 1..] && points[i..][1..] == points[i + 1..];
      var key := (config, ranking[i].0);
      t := t[key := Bucket(t, key) + [points[i]]];
    }
    assert ranking[|ranking|..] == [] && points[|points|..] == [];
  }

  /** The loop of the matrix handler over the reports. */
  method Tally(reports: seq<Report>) returns (buckets: Buckets, errors: set<string>)
    ensures (buckets, errors) == Tallied(map[], {}, reports)
  {
    buckets := map[];
    errors := {};
    for i := 0 to |reports|
      invariant Tallied(buckets, errors, reports[i..]) == Tallied(map[], {}, reports)
    {
      assert reports[i..][1..] == reports[i + 1..];
      var r := reports[i];
      var config := ConfigKey(r);
      if r.error {
        buckets := Touch(buckets, config, r.punters);
        errors := errors + {config};
      } else {
        var ranking := Ranked(Zip(r.punters, r.scores));
        var points := Points(ranking);
        assert points == seq(|ranking|, i requires 0 <= i < |ranking| => Standing(ranking, i));
        buckets := Credit(buckets, config, ranking, points);
      }
    }
    assert reports[|reports|..] == [];
  }
}
