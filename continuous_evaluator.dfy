/**
 * The continuous evaluator of the lambdapark farm. For one evaluation
 * configuration it keeps starting matches until every punter has played
 * its quota of games. Each match seats the punters with games left first
 * and tops up with the others; every match, crashed or not, is recorded in
 * the configuration's result index. Starting the server, the files on disk
 * and the clock are outside the model: a match's outcome is a parameter,
 * and the result index is the list of entries the loop appends to.
 */
module ContinuousEvaluator {
  import opened Wrappers
  import opened GameData
  import Continuous

  /** An entry of the settings' punter list: a name and the command that starts it. */
  datatype Punter = Punter(name: string, shell: string)

  /** An evaluation configuration. */
  datatype Config = Config(name: string, mapName: string, numGames: int, numPunters: nat)

  /** A match's result document. */
  datatype MatchResult = MatchResult(error: Option<string>, moves: seq<Json>, scores: seq<int>)

  /** An entry of the result index: who played, and their scores. */
  datatype Entry = Entry(punters: seq<string>, scores: seq<int>)

  /** The names of the punters, in order. */
  function NamesOf(punters: seq<Punter>): (names: seq<string>)
    ensures |names| == |punters| && forall i :: 0 <= i < |punters| ==> names[i] == punters[i].name
  {
    seq(|punters|, i requires 0 <= i < |punters| => punters[i].name)
  }

  // ---------------------------------------------------------------------
  // Games left

  /** How many times `n` has played, counting every seat of every recorded match. */
  function Played(results: seq<Entry>, n: string): nat
    decreases |results|
  {
    if results == [] then 0
    else Played(results[..|results| - 1], n) + Count(results[|results| - 1].punters, n)
  }

  /** The games `n` still has to play. */
  function Remaining(numGames: int, results: seq<Entry>, n: string): int
  {
    numGames - Played(results, n)
  }

  /** The games each configured name still has to play. */
  ghost function Left(numGames: int, names: seq<string>, results: seq<Entry>): (left: map<string, int>)
  {
    map n | n in names :: Remaining(numGames, results, n)
  }

  /** The loop that counts down each punter's games over the result index. */
  method GamesLeft(numGames: int, names: seq<string>, results: seq<Entry>) returns (left: map<string, int>)
    ensures left == Left(numGames, names, results)
  {
    left := map n | n in names :: numGames;
    for i := 0 to |results|
      invariant forall n :: n in left <==> n in names
      invariant forall n :: n in names ==> left[n] == numGames - Played(results[..i], n)
    {
      var seats := results[i].punters;
      assert results[..i + 1][..i] == results[..i];
      for j := 0 to |seats|
        invariant forall n :: n in left <==> n in names
        invariant forall n :: n in names ==> left[n] == numGames - Played(results[..i], n) - Count(seats[..j], n)
      {
        assert seats[..j + 1][..j] == seats[..j];
        if seats[j] in left {
          left := left[seats[j] := left[seats[j]] - 1];
        }
      }
      assert seats[..|seats|] == seats;
    }
    assert results[..|results|] == results;
  }

  /** Recording a match adds one game for every seat a name takes in it. */
  lemma {:induction false} PlayedAppend(results: seq<Entry>, more: seq<Entry>, n: string)
    ensures Played(results + more, n) == Played(results, n) + Played(more, n)
    decreases |more|
  {
    if more == [] {
      assert results + more == results;
    } else {
      assert (results + more)[..|results + more| - 1] == results + more[..|more| - 1];
      PlayedAppend(results, more[..|more| - 1], n);
    }
  }

  // ---------------------------------------------------------------------
  // Choosing the next match

  /** The names with games left, in settings order. */
  function Eligible(names: seq<string>, left: map<string, int>): (r: seq<string>)
    requires forall n :: n in names ==> n in left
    ensures multiset(r) <= multiset(names)
    ensures forall n :: n in r <==> n in names && left[n] > 0
    decreases |names|
  {
    if names == [] then []
    else
      var front, last := names[..|names| - 1], names[|names| - 1];
      assert names == front + [last];
      Eligible(front, left) + (if left[last] > 0 then [last] else [])
  }

  /** The members of `s`, each once. */
  function Unique(s: seq<string>): (r: seq<string>)
    ensures NoDuplicates(r) && forall x :: x in r <==> x in s
    decreases |s|
  {
    if s == [] then []
    else
      var front, last := s[..|s| - 1], s[|s| - 1];
      var r := Unique(front);
      if last in r then r
      else
        NoDuplicatesConcat(r, [last]);
        r + [last]
  }

  /** `list(set(all_names) - set(eligible_names))`: the names without games left, each once, in some order. */
  function Ineligible(names: seq<string>, left: map<string, int>): (r: seq<string>)
    requires forall n :: n in names ==> n in left
    ensures NoDuplicates(r) && forall n :: n in r <==> n in names && left[n] <= 0
    decreases |names|
  {
    if names == [] then []
    else
      var front, last := names[..|names| - 1], names[|names| - 1];
      var r := Ineligible(front, left);
      if left[last] > 0 || last in r then r
      else
        NoDuplicatesConcat(r, [last]);
        r + [last]
  }

  /** There are names with games left, and enough names in all to fill the seats. */
  predicate Seatable(names: seq<string>, left: map<string, int>, seats: nat)
    requires forall n :: n in names ==> n in left
  {
    Eligible(names, left) != [] && |Eligible(names, left)| + |Ineligible(names, left)| >= seats
  }

  /**
   * The names for the next match: those with games left in some order,
   * then as many of the others, in some order, as the seats still need;
   * `None` when nobody has games left or the seats cannot be filled.
   */
  method ChooseNames(names: seq<string>, left: map<string, int>, seats: nat) returns (chosen: Option<seq<string>>)
    requires forall n :: n in names ==> n in left
    ensures chosen.Some? <==> Seatable(names, left, seats)
    ensures chosen.Some? ==> |chosen.value| == seats && forall n :: n in chosen.value ==> n in names
    ensures chosen.Some? && seats > 0 ==> left[chosen.value[0]] > 0
    ensures chosen.Some? ==> forall i, j :: 0 <= i < j < seats && left[chosen.value[j]] > 0 ==> left[chosen.value[i]] > 0
    ensures chosen.Some? && (exists i :: 0 <= i < seats && left[chosen.value[i]] <= 0) ==>
      forall n :: n in names && left[n] > 0 ==> n in chosen.value
    ensures chosen.Some? && NoDuplicates(names) ==> NoDuplicates(chosen.value)
  {
    var eligible := Eligible(names, left);
    var spare := Ineligible(names, left);
    var first := Continuous.Shuffle(eligible);
    var rest := Continuous.Shuffle(spare);
    Permutation(first, eligible);
    Permutation(rest, spare);
    if NoDuplicates(names) {
      EligibleDistinct(names, left);
      Permutation(first, eligible);
    }
    chosen := Seat(names, left, first, rest, seats);
  }

  /**
   * The seats filled from `first`, the names with games left, then from
   * `rest`, the others; `None` when `first` is empty or the two together
   * are too few.
   */
  method Seat(names: seq<string>, left: map<string, int>, first: seq<string>, rest: seq<string>, seats: nat)
    returns (chosen: Option<seq<string>>)
    requires forall n :: n in names ==> n in left
    requires forall n :: n in first <==> n in names && left[n] > 0
    requires forall n :: n in rest <==> n in names && left[n] <= 0
    requires NoDuplicates(names) ==> NoDuplicates(first) && NoDuplicates(rest)
    ensures chosen.Some? <==> first != [] && |first| + |rest| >= seats
    ensures chosen.Some? ==> |chosen.value| == seats && forall n :: n in chosen.value ==> n in names
    ensures chosen.Some? && seats > 0 ==> left[chosen.value[0]] > 0
    ensures chosen.Some? ==> forall i, j :: 0 <= i < j < seats && left[chosen.value[j]] > 0 ==> left[chosen.value[i]] > 0
    ensures chosen.Some? && (exists i :: 0 <= i < seats && left[chosen.value[i]] <= 0) ==>
      forall n :: n in names && left[n] > 0 ==> n in chosen.value
    ensures chosen.Some? && NoDuplicates(names) ==> NoDuplicates(chosen.value)
  {
    if first == [] {
      return None;
    }
    var next := first[..Min(seats, |first|)];
    if |next| < seats {
      next := next + rest[..Min(seats - |next|, |rest|)];
    }
    if |next| < seats {
      return None;
    }
    Layout(names, left, first, rest, seats, next);
    LayoutOrder(names, left, first, seats, next);
    if NoDuplicates(names) {
      NoDuplicatesSeated(first, rest, seats, next);
    }
    return Some(next);
  }

  /** Seat `i` holds a name with games left exactly when it was filled from the names with games left. */
  lemma Layout(names: seq<string>, left: map<string, int>, first: seq<string>, rest: seq<string>, seats: nat, next: seq<string>)
    requires forall n :: n in names ==> n in left
    requires forall n :: n in first <==> n in names && left[n] > 0
    requires forall n :: n in rest <==> n in names && left[n] <= 0
    requires |first| >= seats ==> next == first[..seats]
    requires |first| < seats ==> |rest| >= seats - |first| && next == first + rest[..seats - |first|]
    ensures |next| == seats
    ensures forall i :: 0 <= i < seats ==> next[i] in names && (left[next[i]] > 0 <==> i < |first|)
    ensures |first| < seats ==> forall n :: n in first ==> n in next
  {
    forall i | 0 <= i < seats
      ensures next[i] in names && (left[next[i]] > 0 <==> i < |first|)
    {
      if i < |first| {
        assert next[i] == first[i] && first[i] in first;
      } else {
        assert next[i] == rest[i - |first|] && rest[i - |first|] in rest;
      }
    }
    if |first| < seats {
      forall n | n in first ensures n in next {
        var k :| 0 <= k < |first| && first[k] == n;
        assert next[k] == n;
      }
    }
  }

  /** What `Layout` gives, as the choice promises it: names with games left first, and all of them once any seat lacks one. */
  lemma LayoutOrder(names: seq<string>, left: map<string, int>, first: seq<string>, seats: nat, next: seq<string>)
    requires forall n :: n in names ==> n in left
    requires forall n :: n in first <==> n in names && left[n] > 0
    requires |next| == seats && first != []
    requires forall i :: 0 <= i < seats ==> next[i] in names && (left[next[i]] > 0 <==> i < |first|)
    requires |first| < seats ==> forall n :: n in first ==> n in next
    ensures forall n :: n in next ==> n in names
    ensures seats > 0 ==> left[next[0]] > 0
    ensures forall i, j :: 0 <= i < j < seats && left[next[j]] > 0 ==> left[next[i]] > 0
    ensures (exists i :: 0 <= i < seats && left[next[i]] <= 0) ==> forall n :: n in names && left[n] > 0 ==> n in next
  {
    forall n | n in next ensures n in names {
      var k :| 0 <= k < |next| && next[k] == n;
    }
    if exists i :: 0 <= i < seats && left[next[i]] <= 0 {
      var i :| 0 <= i < seats && left[next[i]] <= 0;
      assert |first| <= i;
    }
  }

  /** Taking from two disjoint lists without repeats seats nobody twice. */
  lemma NoDuplicatesSeated(first: seq<string>, rest: seq<string>, seats: nat, next: seq<string>)
    requires NoDuplicates(first) && NoDuplicates(rest) && forall n :: n in first ==> n !in rest
    requires |first| >= seats ==> next == first[..seats]
    requires |first| < seats ==> |rest| >= seats - |first| && next == first + rest[..seats - |first|]
    ensures NoDuplicates(next)
  {
    if |first| >= seats {
      NoDuplicatesPrefix(first, seats);
    } else {
      NoDuplicatesPrefix(rest, seats - |first|);
      NoDuplicatesConcat(first, rest[..seats - |first|]);
    }
  }

  /** With distinct names, those with games left are distinct. */
  lemma EligibleDistinct(names: seq<string>, left: map<string, int>)
    requires forall n :: n in names ==> n in left
    requires NoDuplicates(names)
    ensures NoDuplicates(Eligible(names, left))
  {
    var r := Eligible(names, left);
    forall x | x in multiset(r) ensures multiset(r)[x] == 1 {
      assert multiset(r)[x] <= multiset(names)[x];
    }
  }

  /** With distinct names, a match can be seated exactly when someone has games left and there are enough names. */
  lemma SeatableDistinct(names: seq<string>, left: map<string, int>, seats: nat)
    requires forall n :: n in names ==> n in left
    requires NoDuplicates(names)
    ensures Seatable(names, left, seats) <==> (exists n :: n in names && left[n] > 0) && |names| >= seats
  {
    var eligible, spare := Eligible(names, left), Ineligible(names, left);
    EligibleDistinct(names, left);
    NoDuplicatesConcat(eligible, spare);
    assert forall x :: x in eligible + spare <==> x in names;
    SameMembers(eligible + spare, names);
    assert |eligible| + |spare| == |names|;
    if eligible != [] {
      assert eligible[0] in eligible;
    }
    if exists n :: n in names && left[n] > 0 {
      var n :| n in names && left[n] > 0;
      assert n in eligible;
    }
  }

  /** Two sequences without repeats and with the same members have the same length. */
  lemma SameMembers(a: seq<string>, b: seq<string>)
    requires NoDuplicates(a) && NoDuplicates(b) && forall x :: x in a <==> x in b
    ensures |a| == |b|
  {
    assert multiset(a) == multiset(b) by {
      forall x ensures multiset(a)[x] == multiset(b)[x] {
        if x in a {
          assert x in multiset(a) && x in multiset(b);
        } else {
          assert x !in multiset(a) && x !in multiset(b);
        }
      }
    }
    assert |a| == |multiset(a)| && |b| == |multiset(b)|;
  }

  /** The position of the last entry named `name`, or -1. */
  function LastIndex(punters: seq<Punter>, name: string): (j: int)
    ensures -1 <= j < |punters|
    ensures j == -1 <==> name !in NamesOf(punters)
    ensures j >= 0 ==> punters[j].name == name && forall i :: j < i < |punters| ==> punters[i].name != name
    decreases |punters|
  {
    if punters == [] then -1
    else if punters[|punters| - 1].name == name then |punters| - 1
    else
      var front := punters[..|punters| - 1];
      assert NamesOf(punters) == NamesOf(front) + [punters[|punters| - 1].name];
      LastIndex(front, name)
  }

  /** `{p['name']: p for p in punters}[name]`: a later entry with the same name replaces an earlier one. */
  function Named(punters: seq<Punter>, name: string): (p: Punter)
    requires name in NamesOf(punters)
  {
    punters[LastIndex(punters, name)]
  }

  /**
   * `decide_next_punters`: the punters for the next match of `config`,
   * given the result index; `None` when nobody has games left or the
   * seats cannot be filled. Each returned punter is the last entry with
   * its name.
   */
  method DecideNextPunters(config: Config, punters: seq<Punter>, results: seq<Entry>) returns (next: Option<seq<Punter>>)
    ensures next.Some? <==> Seatable(NamesOf(punters), Left(config.numGames, NamesOf(punters), results), config.numPunters)
    ensures next.Some? ==> |next.value| == config.numPunters
    ensures next.Some? ==> forall i :: 0 <= i < |next.value| ==>
      LastIndex(punters, next.value[i].name) >= 0 && next.value[i] == punters[LastIndex(punters, next.value[i].name)]
    ensures next.Some? && config.numPunters > 0 ==> Remaining(config.numGames, results, next.value[0].name) > 0
    ensures next.Some? ==> forall i, j :: 0 <= i < j < |next.value| && Remaining(config.numGames, results, next.value[j].name) > 0 ==>
      Remaining(config.numGames, results, next.value[i].name) > 0
    ensures next.Some? && (exists i :: 0 <= i < |next.value| && Remaining(config.numGames, results, next.value[i].name) <= 0) ==>
      forall n :: n in NamesOf(punters) && Remaining(config.numGames, results, n) > 0 ==> n in NamesOf(next.value)
    ensures next.Some? && NoDuplicates(NamesOf(punters)) ==> NoDuplicates(NamesOf(next.value))
  {
    var names := NamesOf(punters);
    var left := GamesLeft(config.numGames, names, results);
    var chosen := ChooseNames(names, left, config.numPunters);
    if chosen.None? {
      return None;
    }
    var picked := chosen.value;
    var seated := seq(|picked|, i requires 0 <= i < |picked| => Named(punters, picked[i]));
    assert NamesOf(seated) == picked;
    return Some(seated);
  }

  // ---------------------------------------------------------------------
  // The match loop

  /** The result recorded when starting the server raised: an error, no moves, and a zero score per seat. */
  function CrashResult(seats: nat): (r: MatchResult)
    ensures r.error == Some("server crashed") && r.moves == []
    ensures |r.scores| == seats && forall i :: 0 <= i < seats ==> r.scores[i] == 0
  {
    MatchResult(Some("server crashed"), [], seq(seats, i => 0))
  }

  /** The games still owed to the distinct names in `names`. */
  ghost function Owed(numGames: int, names: seq<string>, results: seq<Entry>): nat
    decreases |names|
  {
    if names == [] then 0
    else Owed(numGames, names[..|names| - 1], results) + Max(0, numGames - Played(results, names[|names| - 1]))
  }

  /** Recording a match never raises what is owed. */
  lemma {:induction false} OwedMonotone(numGames: int, names: seq<string>, results: seq<Entry>, e: Entry)
    ensures Owed(numGames, names, results + [e]) <= Owed(numGames, names, results)
    decreases |names|
  {
    if names != [] {
      OwedMonotone(numGames, names[..|names| - 1], results, e);
      PlayedAppend(results, [e], names[|names| - 1]);
      assert [e][..0] == [];
    }
  }

  /** Recording a match that seats a name still owed a game lowers what is owed. */
  lemma {:induction false} OwedDrops(numGames: int, names: seq<string>, results: seq<Entry>, e: Entry, n: string)
    requires n in names && n in e.punters && Remaining(numGames, results, n) > 0
    ensures Owed(numGames, names, results + [e]) < Owed(numGames, names, results)
    decreases |names|
  {
    var front, last := names[..|names| - 1], names[|names| - 1];
    assert names == front + [last];
    PlayedAppend(results, [e], last);
    assert [e][..0] == [];
    if last == n {
      CountPositive(e.punters, n);
      OwedMonotone(numGames, front, results, e);
    } else {
      OwedDrops(numGames, front, results, e, n);
    }
  }

  /** The entry recorded for a match: the seated names and their scores, zero for all when the server crashed. */
  function Recorded(seated: seq<Punter>, outcome: Option<MatchResult>): (e: Entry)
    ensures e.punters == NamesOf(seated)
    ensures outcome.None? ==> |e.scores| == |seated| && forall i :: 0 <= i < |seated| ==> e.scores[i] == 0
  {
    var result := if outcome.Some? then outcome.value else CrashResult(|seated|);
    Entry(NamesOf(seated), result.scores)
  }

  /**
   * `process_config`: matches until no match can be seated, each one
   * recorded in the result index. `play` stands for starting the server;
   * `None` is the server raising.
   */
  method ProcessConfig(config: Config, punters: seq<Punter>, results: seq<Entry>, play: seq<Punter> -> Option<MatchResult>)
    returns (index: seq<Entry>)
    ensures |index| >= |results| && index[..|results|] == results
    ensures forall i :: |results| <= i < |index| ==> |index[i].punters| == config.numPunters > 0
    ensures config.numPunters > 0 ==> !Seatable(NamesOf(punters), Left(config.numGames, NamesOf(punters), index), config.numPunters)
  {
    index := results;
    while true
      invariant |index| >= |results| && index[..|results|] == results
      invariant forall i :: |results| <= i < |index| ==> |index[i].punters| == config.numPunters > 0
      decreases Owed(config.numGames, Unique(NamesOf(punters)), index)
    {
      var entry := NextEntry(config, punters, index, play);
      if entry.None? {
        return;
      }
      assert (index + [entry.value])[..|results|] == index[..|results|];
      index := index + [entry.value];
    }
  }

  /** One pass of the loop: the entry of the next match, or `None` when no match can be seated. */
  method NextEntry(config: Config, punters: seq<Punter>, index: seq<Entry>, play: seq<Punter> -> Option<MatchResult>)
    returns (entry: Option<Entry>)
    ensures entry.None? && config.numPunters > 0 ==>
      !Seatable(NamesOf(punters), Left(config.numGames, NamesOf(punters), index), config.numPunters)
    ensures entry.Some? ==> |entry.value.punters| == config.numPunters > 0
    ensures entry.Some? ==>
      Owed(config.numGames, Unique(NamesOf(punters)), index + [entry.value]) < Owed(config.numGames, Unique(NamesOf(punters)), index)
  {
    var next := DecideNextPunters(config, punters, index);
    if next.None? || next.value == [] {
      return None;
    }
    var seated := next.value;
    var recorded := Recorded(seated, play(seated));
    var names := NamesOf(punters);
    ghost var first := seated[0].name;
    assert first in names && first in recorded.punters by {
      assert names[LastIndex(punters, first)] == first;
      assert recorded.punters[0] == first;
    }
    OwedDrops(config.numGames, Unique(names), index, recorded, first);
    return Some(recorded);
  }
}
