/**
 * `SimulatingPunter`: a beam search over whole rounds. A snapshot is a
 * move list with the scores a simulation gives it. Each step expands every
 * snapshot of the beam by one round per free river: our claim of that
 * river, then the replies a greedy shadow player makes for each other
 * punter in turn. The expansions are filed by key, one per key, and the
 * ten of highest total score are kept. After at most ten steps the first
 * move of the best snapshot is played.
 *
 * The shadow player and the simulation of scores are code this model does
 * not see; they enter as the functions `nextMove` and `simulate` of a `Sim`.
 * The free rivers are read from the player's own river list, which the
 * search never changes.
 */
module SimulatingPunter {
  import opened Wrappers
  import opened GameData
  import opened MoveKey
  import CostSearch
  import Candidates

  /** Expansions per `Run`. */
  const MaxStep := 10
  /** Snapshots kept per step. */
  const Width := 10

  datatype Snapshot = Snapshot(moves: seq<GameMove>, key: string, scores: seq<int>, totalScore: int)

  // ---------------------------------------------------------------------
  // Scores

  /** The highest score among the first `upto` punters other than `me`, or 0 when that is higher. */
  function RivalScore(scores: seq<int>, me: int, upto: nat): (r: int)
    requires upto <= |scores|
    ensures r >= 0 && forall i :: 0 <= i < upto && i != me ==> scores[i] <= r
    ensures r == 0 || exists i :: 0 <= i < upto && i != me && scores[i] == r
  {
    if upto == 0 then 0
    else if upto - 1 == me then RivalScore(scores, me, upto - 1)
    else Max(scores[upto - 1], RivalScore(scores, me, upto - 1))
  }

  /**
   * What a snapshot is worth to `me`: its own score less the best rival's,
   * where a rival below 0 counts as 0.
   */
  function Total(me: int, scores: seq<int>): (t: int)
    requires 0 <= me < |scores|
    ensures t <= scores[me] && forall i :: 0 <= i < |scores| && i != me ==> t <= scores[me] - scores[i]
    ensures t == scores[me] || exists i :: 0 <= i < |scores| && i != me && t == scores[me] - scores[i]
  {
    scores[me] - RivalScore(scores, me, |scores|)
  }

  /** `TotalScore`: the running maximum over the other punters. */
  method TotalScore(me: int, scores: seq<int>) returns (total: int)
    requires 0 <= me < |scores|
    ensures total == Total(me, scores)
  {
    var rival := 0;
    for i := 0 to |scores|
      invariant rival == RivalScore(scores, me, i)
    {
      if i == me {
        continue;
      }
      rival := Max(scores[i], rival);
    }
    total := scores[me] - rival;
  }

  /** `SnapshotFromMove`: the moves and scores, filed under the moves' key. */
  function SnapshotFromMove(me: int, moves: seq<GameMove>, scores: seq<int>): Snapshot
    requires 0 <= me < |scores|
  {
    Snapshot(moves, Key(moves), scores, Total(me, scores))
  }

  /** Two snapshots share a key exactly when their moves are the same, in whatever order. */
  lemma SnapshotKeys(me: int, a: seq<GameMove>, sa: seq<int>, b: seq<GameMove>, sb: seq<int>)
    requires 0 <= me < |sa| && 0 <= me < |sb|
    ensures SnapshotFromMove(me, a, sa).key == SnapshotFromMove(me, b, sb).key <==> multiset(Triples(a)) == multiset(Triples(b))
  {
    KeySameExactly(a, b);
  }

  /** `ClaimRiver`: our claim of a river, the smaller end first. */
  function ClaimRiver(id: int, r: CostSearch.RiverProto): (m: GameMove)
    ensures m == Claim(id, m.source, m.target) && m.source <= m.target
    ensures multiset{m.source, m.target} == multiset{r.source, r.target}
  {
    var source := Min(r.source, r.target);
    Claim(id, source, r.source + r.target - source)
  }

  // ---------------------------------------------------------------------
  // One snapshot per key

  function KeySet(s: seq<Snapshot>): set<string>
  {
    set x | x in s :: x.key
  }

  /** The first snapshot of `s` filed under `key`. */
  function First(s: seq<Snapshot>, key: string): (f: Snapshot)
    requires key in KeySet(s)
    ensures f in s && f.key == key
  {
    if s[0].key == key then s[0]
    else
      assert key in KeySet(s[1..]) by {
        var x :| x in s && x.key == key;
        assert x != s[0];
      }
      First(s[1..], key)
  }

  /** `First` finds the earliest snapshot under its key. */
  lemma {:induction false} FirstIsEarliest(s: seq<Snapshot>, key: string) returns (i: int)
    requires key in KeySet(s)
    ensures 0 <= i < |s| && s[i] == First(s, key) && forall j :: 0 <= j < i ==> s[j].key != key
  {
    if s[0].key == key {
      i := 0;
    } else {
      assert key in KeySet(s[1..]) by {
        var x :| x in s && x.key == key;
        assert x != s[0];
      }
      var k := FirstIsEarliest(s[1..], key);
      i := k + 1;
      assert s[i] == s[1..][k];
      forall j | 0 <= j < i ensures s[j].key != key {
        if j > 0 {
          assert s[j] == s[1..][j - 1];
        }
      }
    }
  }

  predicate DistinctKeys(s: seq<Snapshot>)
  {
    forall i, j :: 0 <= i < j < |s| ==> s[i].key != s[j].key
  }

  /** Every snapshot of `out` is the first of `s` under its key. */
  predicate FirstsOf(out: seq<Snapshot>, s: seq<Snapshot>)
  {
    forall k :: 0 <= k < |out| ==> out[k].key in KeySet(s) && out[k] == First(s, out[k].key)
  }

  /** `out` holds the first snapshot of `s` under each of its keys, once each, in some order. */
  predicate Uniqified(out: seq<Snapshot>, s: seq<Snapshot>)
  {
    DistinctKeys(out) && FirstsOf(out, s) && KeySet(out) == KeySet(s)
  }

  lemma KeySetSnoc(s: seq<Snapshot>, i: int)
    requires 0 <= i < |s|
    ensures KeySet(s[..i + 1]) == KeySet(s[..i]) + {s[i].key}
  {
    assert s[..i + 1] == s[..i] + [s[i]];
  }

  /** A snapshot whose key no earlier one has is the first under it. */
  lemma FirstAt(s: seq<Snapshot>, i: int)
    requires 0 <= i < |s| && s[i].key !in KeySet(s[..i])
    ensures s[i].key in KeySet(s) && First(s, s[i].key) == s[i]
  {
    assert s[i].key in KeySet(s);
    var p := FirstIsEarliest(s, s[i].key);
  }

  /** One more first snapshot, under a new key. */
  lemma AppendFirst(out: seq<Snapshot>, x: Snapshot, s: seq<Snapshot>)
    requires DistinctKeys(out) && FirstsOf(out, s) && x.key !in KeySet(out)
    requires x.key in KeySet(s) && x == First(s, x.key)
    ensures DistinctKeys(out + [x]) && FirstsOf(out + [x], s) && KeySet(out + [x]) == KeySet(out) + {x.key}
  {
    var t := out + [x];
    forall i, j | 0 <= i < j < |t| ensures t[i].key != t[j].key {
      if j == |out| {
        assert t[i] in out;
      }
    }
    assert forall y :: y in t <==> y in out || y == x;
  }

  /** The first loop of `UniqifyByMove`: the map from each key to its first snapshot. */
  method FileFirsts(snaps: seq<Snapshot>) returns (seen: map<string, Snapshot>)
    ensures seen.Keys == KeySet(snaps)
    ensures forall k :: k in seen ==> seen[k] == First(snaps, k)
  {
    seen := map[];
    for i := 0 to |snaps|
      invariant seen.Keys == KeySet(snaps[..i])
      invariant forall k :: k in seen ==> k in KeySet(snaps) && seen[k] == First(snaps, k)
    {
      KeySetSnoc(snaps, i);
      if snaps[i].key in seen {
        continue;
      }
      FirstAt(snaps, i);
      seen := seen[snaps[i].key := snaps[i]];
    }
    assert snaps[..|snaps|] == snaps;
  }

  /**
   * `UniqifyByMove`: the first snapshot under each key is filed in a hash
   * map, and the map is read back out in its own order, which is
   * unspecified: here each step takes any key not yet read.
   */
  method UniqifyByMove(snaps: seq<Snapshot>) returns (out: seq<Snapshot>)
    ensures Uniqified(out, snaps)
  {
    var seen := FileFirsts(snaps);
    out := [];
    var rest := seen.Keys;
    while rest != {}
      invariant rest <= seen.Keys && KeySet(out) == seen.Keys - rest
      invariant DistinctKeys(out) && FirstsOf(out, snaps)
      decreases |rest|
    {
      var k :| k in rest;
      ReadBackStep(out, snaps, seen, rest, k);
      out := out + [seen[k]];
      rest := rest - {k};
    }
  }

  /** One pass of the read-back loop of `UniqifyByMove`. */
  lemma ReadBackStep(out: seq<Snapshot>, snaps: seq<Snapshot>, seen: map<string, Snapshot>, rest: set<string>,
                     k: string)
    requires seen.Keys == KeySet(snaps) && forall q :: q in seen ==> seen[q] == First(snaps, q)
    requires rest <= seen.Keys && KeySet(out) == seen.Keys - rest && k in rest
    requires DistinctKeys(out) && FirstsOf(out, snaps)
    ensures rest - {k} <= seen.Keys && KeySet(out + [seen[k]]) == seen.Keys - (rest - {k})
    ensures DistinctKeys(out + [seen[k]]) && FirstsOf(out + [seen[k]], snaps)
  {
    AppendFirst(out, seen[k], snaps);
  }

  // ---------------------------------------------------------------------
  // The top of the beam

  predicate Descending(s: seq<Snapshot>)
  {
    forall i, j :: 0 <= i < j < |s| ==> s[i].totalScore >= s[j].totalScore
  }

  predicate Ascending(s: seq<Snapshot>)
  {
    forall i, j :: 0 <= i < j < |s| ==> s[i].totalScore <= s[j].totalScore
  }

  /** `x` scores no more than any snapshot of `top`. */
  predicate Below(x: Snapshot, top: seq<Snapshot>)
  {
    forall k :: 0 <= k < |top| ==> x.totalScore <= top[k].totalScore
  }

  /**
   * `top` is a top ten of `all` by key: one first snapshot per key, best
   * first, as many as there are keys up to ten, and every key left out
   * scores no more than any kept.
   */
  predicate Topped(top: seq<Snapshot>, all: seq<Snapshot>)
  {
    DistinctKeys(top) && FirstsOf(top, all) && Descending(top) &&
    |top| == Min(Width, |KeySet(all)|) &&
    forall x :: x in KeySet(all) && x !in KeySet(top) ==> Below(First(all, x), top)
  }

  function InsertUp(r: seq<Snapshot>, x: Snapshot): (q: seq<Snapshot>)
    requires Ascending(r)
    ensures Ascending(q) && multiset(q) == multiset(r) + multiset{x}
  {
    if r == [] || x.totalScore <= r[0].totalScore then [x] + r
    else
      var t := InsertUp(r[1..], x);
      InsertUpStep(r, x, t);
      [r[0]] + t
  }

  lemma InsertUpStep(r: seq<Snapshot>, x: Snapshot, t: seq<Snapshot>)
    requires Ascending(r) && r != [] && x.totalScore > r[0].totalScore
    requires Ascending(t) && multiset(t) == multiset(r[1..]) + multiset{x}
    ensures Ascending([r[0]] + t) && multiset([r[0]] + t) == multiset(r) + multiset{x}
  {
    assert r == [r[0]] + r[1..];
    forall k | 0 <= k < |t| ensures r[0].totalScore <= t[k].totalScore {
      assert t[k] in multiset(t);
      if t[k] != x {
        assert t[k] in multiset(r[1..]);
      }
    }
  }

  /** The `std::sort` by total score, lowest first; the order of equal scores is left open. */
  method SortByTotal(s: seq<Snapshot>) returns (r: seq<Snapshot>)
    ensures Ascending(r) && multiset(r) == multiset(s)
  {
    r := [];
    for i := 0 to |s|
      invariant Ascending(r) && multiset(r) == multiset(s[..i])
    {
      assert s[..i + 1] == s[..i] + [s[i]];
      r := InsertUp(r, s[i]);
    }
    assert s[..|s|] == s;
  }

  /** `std::reverse`. */
  function Reversed(s: seq<Snapshot>): (r: seq<Snapshot>)
    ensures |r| == |s| && forall i :: 0 <= i < |s| ==> r[i] == s[|s| - 1 - i]
    ensures Ascending(s) ==> Descending(r)
  {
    if s == [] then [] else [s[|s| - 1]] + Reversed(s[..|s| - 1])
  }

  lemma {:induction false} ReversedSame(s: seq<Snapshot>)
    ensures multiset(Reversed(s)) == multiset(s)
  {
    if s != [] {
      ReversedSame(s[..|s| - 1]);
      assert s == s[..|s| - 1] + [s[|s| - 1]];
    }
  }

  /** Distinct keys let each snapshot appear at most once. */
  lemma {:induction false} DistinctOnce(s: seq<Snapshot>, x: Snapshot)
    requires DistinctKeys(s)
    ensures multiset(s)[x] <= 1
  {
    if s != [] {
      DistinctOnce(s[1..], x);
      assert s == [s[0]] + s[1..];
      if x == s[0] {
        assert x !in s[1..];
      }
    }
  }

  /** A rearrangement of a uniqified list is uniqified. */
  lemma Rearranged(t: seq<Snapshot>, u: seq<Snapshot>, all: seq<Snapshot>)
    requires Uniqified(u, all) && multiset(t) == multiset(u)
    ensures Uniqified(t, all)
  {
    forall x ensures x in t <==> x in u {
      assert x in t <==> x in multiset(t);
    }
    forall k | 0 <= k < |t| ensures t[k].key in KeySet(all) && t[k] == First(all, t[k].key) {
      var m :| 0 <= m < |u| && u[m] == t[k];
    }
    forall i, j | 0 <= i < j < |t| ensures t[i].key != t[j].key {
      if t[i].key == t[j].key {
        Candidates.TwoCopies(t, i, j);
        DistinctOnce(u, t[j]);
      }
    }
  }

  /** Keys of a list with distinct keys count its entries. */
  lemma {:induction false} DistinctCount(s: seq<Snapshot>)
    requires DistinctKeys(s)
    ensures |KeySet(s)| == |s|
  {
    if s != [] {
      var n := |s| - 1;
      DistinctCount(s[..n]);
      KeySetSnoc(s, n);
      assert s[..n + 1] == s;
      assert s[n].key !in KeySet(s[..n]);
    }
  }

  /** The entries of a descending list from `Width` on score no more than those before. */
  lemma CutBelow(down: seq<Snapshot>, all: seq<Snapshot>, top: seq<Snapshot>)
    requires Uniqified(down, all) && Descending(down) && top == if |down| > Width then down[..Width] else down
    ensures forall x :: x in KeySet(all) && x !in KeySet(top) ==> Below(First(all, x), top)
  {
    KeptKeys(down, top);
    forall x | x in KeySet(all) && x !in KeySet(top) ensures Below(First(all, x), top) {
      var y :| y in down && y.key == x;
      var p :| 0 <= p < |down| && down[p] == y;
      assert p >= |top|;
    }
  }

  /** Every key of a kept prefix is a key of the top. */
  lemma KeptKeys(down: seq<Snapshot>, top: seq<Snapshot>)
    requires top == if |down| > Width then down[..Width] else down
    ensures forall i :: 0 <= i < |top| ==> down[i].key in KeySet(top)
  {
    forall i | 0 <= i < |top| ensures down[i].key in KeySet(top) {
      assert top[i] == down[i];
    }
  }

  /** Cutting a descending uniqified list to `Width` leaves a top ten. */
  lemma TopOfDescending(down: seq<Snapshot>, all: seq<Snapshot>, top: seq<Snapshot>)
    requires Uniqified(down, all) && Descending(down) && top == if |down| > Width then down[..Width] else down
    ensures Topped(top, all)
  {
    assert DistinctKeys(top) && FirstsOf(top, all) && Descending(top);
    assert |top| == Min(Width, |KeySet(all)|) by {
      DistinctCount(down);
    }
    CutBelow(down, all, top);
  }

  /** `ShrinkToTop`: one snapshot per key, sorted, reversed and cut to `Width`. */
  method ShrinkToTop(snaps: seq<Snapshot>) returns (top: seq<Snapshot>)
    ensures Topped(top, snaps)
  {
    var u := UniqifyByMove(snaps);
    var sorted := SortByTotal(u);
    var down := Reversed(sorted);
    ReversedSame(sorted);
    Rearranged(down, u, snaps);
    top := if |down| > Width then down[..Width] else down;
    TopOfDescending(down, snaps, top);
  }

  // ---------------------------------------------------------------------
  // Expansion

  /**
   * What the search reads: our id, the punter count, our river list, the
   * scores the simulation gives a move list, and the shadow's move for a
   * punter after a move list.
   */
  datatype Sim = Sim(me: int, numPunters: int, rivers: seq<CostSearch.RiverProto>,
                     simulate: seq<GameMove> -> seq<int>, nextMove: (seq<GameMove>, int) -> GameMove)

  /** We are one of the punters, and every simulation scores us. */
  ghost predicate Ready(sim: Sim)
  {
    0 <= sim.me < sim.numPunters && forall ms :: sim.me < |sim.simulate(ms)|
  }

  /** `GenerateSnapshot`: the moves, simulated. */
  function Snap(sim: Sim, moves: seq<GameMove>): Snapshot
    requires Ready(sim)
  {
    SnapshotFromMove(sim.me, moves, sim.simulate(moves))
  }

  /** The snapshot `Run` starts from: no moves. */
  function Root(sim: Sim): Snapshot
    requires Ready(sim)
  {
    Snap(sim, [])
  }

  /**
   * The first `i` moves of a round after `before`: our `claim`, then the
   * shadow's move for each next punter in turn, each made after all moves
   * before it.
   */
  function Round(sim: Sim, before: seq<GameMove>, claim: GameMove, i: nat): (r: seq<GameMove>)
    requires Ready(sim) && i >= 1
    ensures |r| == i && r[0] == claim
  {
    if i == 1 then [claim]
    else
      var r := Round(sim, before, claim, i - 1);
      r + [sim.nextMove(before + r, (sim.me + i - 1) % sim.numPunters)]
  }

  /** The loop of `GenerateNextSnapshots` that plays one round on a shadow. */
  method PlayRound(sim: Sim, before: seq<GameMove>, claim: GameMove) returns (moves: seq<GameMove>)
    requires Ready(sim)
    ensures moves == Round(sim, before, claim, sim.numPunters)
  {
    moves := [claim];
    for i := 1 to sim.numPunters
      invariant moves == Round(sim, before, claim, i)
    {
      var cur := (sim.me + i) % sim.numPunters;
      moves := moves + [sim.nextMove(before + moves, cur)];
    }
  }

  function FreeCount(rivers: seq<CostSearch.RiverProto>, upto: nat): nat
    requires upto <= |rivers|
  {
    if upto == 0 then 0 else FreeCount(rivers, upto - 1) + if rivers[upto - 1].punter < 0 then 1 else 0
  }

  /** `m` is our claim of one of our free rivers. */
  predicate OwnClaim(sim: Sim, m: GameMove)
  {
    exists j :: 0 <= j < |sim.rivers| && sim.rivers[j].punter < 0 && m == ClaimRiver(sim.me, sim.rivers[j])
  }

  /** `c` is `parent` grown by a round that opens with our claim of a free river. */
  predicate Grown(sim: Sim, parent: Snapshot, c: Snapshot)
    requires Ready(sim)
  {
    |c.moves| == |parent.moves| + sim.numPunters && c.moves[..|parent.moves|] == parent.moves &&
    OwnClaim(sim, c.moves[|parent.moves|]) && c == Snap(sim, c.moves)
  }

  /** The snapshot after claiming river `r` from `parent`. */
  function Child(sim: Sim, parent: Snapshot, r: CostSearch.RiverProto): Snapshot
    requires Ready(sim)
  {
    Snap(sim, parent.moves + Round(sim, parent.moves, ClaimRiver(sim.me, r), sim.numPunters))
  }

  /** The children of `parent`, one per free river among the first `upto`, in river order. */
  function Children(sim: Sim, parent: Snapshot, upto: nat): (c: seq<Snapshot>)
    requires Ready(sim) && upto <= |sim.rivers|
    ensures |c| == FreeCount(sim.rivers, upto)
    ensures forall k :: 0 <= k < |c| ==> Grown(sim, parent, c[k])
  {
    if upto == 0 then []
    else
      var rest := Children(sim, parent, upto - 1);
      var r := sim.rivers[upto - 1];
      if r.punter < 0 then
        var c := Child(sim, parent, r);
        assert c.moves[|parent.moves|] == ClaimRiver(sim.me, r);
        assert c.moves[..|parent.moves|] == parent.moves;
        rest + [c]
      else rest
  }

  /** One river more: its child joins the list when it is free. */
  lemma ChildrenNext(sim: Sim, parent: Snapshot, j: nat)
    requires Ready(sim) && j < |sim.rivers|
    ensures Children(sim, parent, j + 1) ==
      Children(sim, parent, j) + if sim.rivers[j].punter < 0 then [Child(sim, parent, sim.rivers[j])] else []
  {
  }

  /** `GenerateNextSnapshots`: appends to `acc` the children of `parent`. */
  method GenerateNextSnapshots(sim: Sim, parent: Snapshot, acc: seq<Snapshot>) returns (next: seq<Snapshot>)
    requires Ready(sim)
    ensures next == acc + Children(sim, parent, |sim.rivers|)
  {
    next := acc;
    for j := 0 to |sim.rivers|
      invariant next == acc + Children(sim, parent, j)
    {
      next := AddChild(sim, parent, acc, next, j);
    }
  }

  /** One pass of the `GenerateNextSnapshots` loop: river `j`'s child, when it is free. */
  method AddChild(sim: Sim, parent: Snapshot, acc: seq<Snapshot>, next: seq<Snapshot>, j: nat)
    returns (r: seq<Snapshot>)
    requires Ready(sim) && j < |sim.rivers| && next == acc + Children(sim, parent, j)
    ensures r == acc + Children(sim, parent, j + 1)
  {
    var river := sim.rivers[j];
    ChildrenNext(sim, parent, j);
    if river.punter >= 0 {
      return next;
    }
    var round := PlayRound(sim, parent.moves, ClaimRiver(sim.me, river));
    var c := Snap(sim, parent.moves + round);
    ChildOfRound(sim, parent, river, round);
    r := next + [c];
    AppendOne(acc, Children(sim, parent, j), c);
  }

  /** The snapshot of a played round is the river's child. */
  lemma ChildOfRound(sim: Sim, parent: Snapshot, river: CostSearch.RiverProto, round: seq<GameMove>)
    requires Ready(sim) && round == Round(sim, parent.moves, ClaimRiver(sim.me, river), sim.numPunters)
    ensures Snap(sim, parent.moves + round) == Child(sim, parent, river)
  {
  }

  lemma AppendOne<T>(a: seq<T>, b: seq<T>, x: T)
    ensures a + b + [x] == a + (b + [x])
  {
  }

  /** The children of every snapshot of the beam, beam by beam. */
  function Expansion(sim: Sim, beam: seq<Snapshot>): seq<Snapshot>
    requires Ready(sim)
  {
    if beam == [] then []
    else Expansion(sim, beam[..|beam| - 1]) + Children(sim, beam[|beam| - 1], |sim.rivers|)
  }

  /** The snapshot opens with our claim of a free river. */
  predicate HeadClaimed(sim: Sim, s: Snapshot)
  {
    |s.moves| > 0 && OwnClaim(sim, s.moves[0])
  }

  /** A beam expands to nothing exactly when it is empty or no river is free. */
  lemma {:induction false} ExpansionEmpty(sim: Sim, beam: seq<Snapshot>)
    requires Ready(sim)
    ensures Expansion(sim, beam) == [] <==> beam == [] || FreeCount(sim.rivers, |sim.rivers|) == 0
  {
    if beam != [] {
      ExpansionEmpty(sim, beam[..|beam| - 1]);
    }
  }

  /** Every snapshot a beam expands to grows one of the beam's. */
  lemma {:induction false} ExpansionGrows(sim: Sim, beam: seq<Snapshot>, c: Snapshot) returns (b: Snapshot)
    requires Ready(sim) && c in Expansion(sim, beam)
    ensures b in beam && Grown(sim, b, c)
  {
    var n := |beam| - 1;
    var kids := Children(sim, beam[n], |sim.rivers|);
    if c in kids {
      var k :| 0 <= k < |kids| && kids[k] == c;
      b := beam[n];
    } else {
      b := ExpansionGrows(sim, beam[..n], c);
    }
  }

  /** A grown snapshot opens with our claim when its parent does or has no moves. */
  lemma GrownHead(sim: Sim, parent: Snapshot, c: Snapshot)
    requires Ready(sim) && Grown(sim, parent, c) && (parent.moves == [] || HeadClaimed(sim, parent))
    ensures HeadClaimed(sim, c)
  {
    if parent.moves != [] {
      assert c.moves[0] == c.moves[..|parent.moves|][0];
    }
  }

  /** The beam after `step` steps: the root at first, then a top ten of the expansion of `prev`, opening with our claims. */
  predicate BeamAfter(sim: Sim, beam: seq<Snapshot>, step: nat, prev: seq<Snapshot>)
    requires Ready(sim)
  {
    beam != [] &&
    (step == 0 ==> beam == [Root(sim)]) &&
    (step > 0 ==> Topped(beam, Expansion(sim, prev)) && FreeCount(sim.rivers, |sim.rivers|) > 0 &&
                  forall s :: s in beam ==> HeadClaimed(sim, s))
  }

  /** The loop of `Run` over the beam: every snapshot's children, in beam order. */
  method ExpandBeam(sim: Sim, beam: seq<Snapshot>) returns (next: seq<Snapshot>)
    requires Ready(sim)
    ensures next == Expansion(sim, beam)
  {
    next := [];
    for i := 0 to |beam|
      invariant next == Expansion(sim, beam[..i])
    {
      next := GenerateNextSnapshots(sim, beam[i], next);
      assert beam[..i + 1][..i] == beam[..i];
    }
    assert beam[..|beam|] == beam;
  }

  /** A top ten of a beam's nonempty expansion is the beam of the next step. */
  lemma NextBeam(sim: Sim, beam: seq<Snapshot>, step: nat, prev: seq<Snapshot>, top: seq<Snapshot>)
    requires Ready(sim) && BeamAfter(sim, beam, step, prev)
    requires Expansion(sim, beam) != [] && Topped(top, Expansion(sim, beam))
    ensures BeamAfter(sim, top, step + 1, beam)
  {
    var next := Expansion(sim, beam);
    ExpansionEmpty(sim, beam);
    assert top != [] by {
      assert next[0].key in KeySet(next);
    }
    forall s | s in top ensures HeadClaimed(sim, s) {
      var k :| 0 <= k < |top| && top[k] == s;
      var b := ExpansionGrows(sim, beam, s);
      GrownHead(sim, b, s);
    }
  }

  /** After a step the beam's head opens with our claim of a free river. */
  lemma BeamHead(sim: Sim, beam: seq<Snapshot>, step: nat, prev: seq<Snapshot>)
    requires Ready(sim) && BeamAfter(sim, beam, step, prev) && step > 0
    ensures HeadClaimed(sim, beam[0]) && FreeCount(sim.rivers, |sim.rivers|) > 0
  {
    assert beam[0] in beam;
  }

  /**
   * `Run`: up to `MaxStep` expansions of the beam, stopping early when
   * one yields nothing; then the first move of the beam's head. Since our
   * river list does not change during the search, the stop can only come
   * at the first step, when no river is free; the beam's head then has no
   * moves, and reading its first move is undefined behaviour (`None`).
   */
  method Run(sim: Sim) returns (r: Option<GameMove>, ghost steps: nat, ghost beam: seq<Snapshot>, ghost prev: seq<Snapshot>)
    requires Ready(sim)
    ensures steps == if FreeCount(sim.rivers, |sim.rivers|) > 0 then MaxStep else 0
    ensures BeamAfter(sim, beam, steps, prev)
    ensures r.None? <==> steps == 0
    ensures r.Some? ==> r == Some(beam[0].moves[0]) && OwnClaim(sim, r.value)
  {
    var current := [Root(sim)];
    steps, prev := 0, [];
    var step := 0;
    while step < MaxStep
      invariant step <= MaxStep && steps == step && BeamAfter(sim, current, step, prev)
    {
      var next := ExpandBeam(sim, current);
      ExpansionEmpty(sim, current);
      if |next| == 0 {
        break;
      }
      var top := ShrinkToTop(next);
      NextBeam(sim, current, step, prev, top);
      prev, current := current, top;
      step := step + 1;
      steps := step;
    }
    beam := current;
    if step == 0 {
      r := None;
    } else {
      BeamHead(sim, current, step, prev);
      r := Some(current[0].moves[0]);
    }
  }
}
