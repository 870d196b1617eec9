/**
 * `punter::GreedyPunter`: a simple punter that keeps, per mine, the set of
 * sites it has connected to that mine, and claims the free river worth
 * most at once. The distance table belongs to a base class that is not
 * part of this model; it is the parameter `dist` (site id, mine index).
 * The inherited fields live in the `SimplePunter` object `base`.
 */
module GreedyPunter {
  import opened Wrappers
  import opened GameData
  import SP = SimplePunter

  /** The site a river would join to a region: its end outside, when exactly one end is inside. */
  function Other(c: set<int>, r: SP.RiverWithPunter): (t: Option<int>)
    ensures t.Some? <==> (r.source in c) != (r.target in c)
    ensures t.Some? ==> t.value !in c && (t.value == r.source || t.value == r.target)
  {
    if r.source in c && r.target !in c then Some(r.target)
    else if r.source !in c && r.target in c then Some(r.source)
    else None
  }

  /** What mine `k` gains from the river: the square of the joined site's distance, if any. */
  function MineGain(connected: seq<set<int>>, r: SP.RiverWithPunter, dist: (int, nat) -> int, k: nat): (g: int)
    requires k < |connected|
    ensures g >= 0
  {
    match Other(connected[k], r)
    case None => 0
    case Some(t) => dist(t, k) * dist(t, k)
  }

  /** A river's score over the first `upto` mines. */
  function RiverScore(connected: seq<set<int>>, r: SP.RiverWithPunter, dist: (int, nat) -> int, upto: nat): (s: int)
    requires upto <= |connected|
    ensures s >= 0
  {
    if upto == 0 then 0 else RiverScore(connected, r, dist, upto - 1) + MineGain(connected, r, dist, upto - 1)
  }

  /** The (mine, site) pairs the river would join, over the first `upto` mines. */
  function Joined(connected: seq<set<int>>, r: SP.RiverWithPunter, upto: nat): set<(int, int)>
    requires upto <= |connected|
  {
    set k, t | 0 <= k < upto && t in {r.source, r.target} && Other(connected[k], r) == Some(t) :: (k, t)
  }

  /**
   * The scan of `Run` over the first `n` rivers: the river kept so far and
   * the best score; the score starts at -1, so the first free river is
   * always kept.
   */
  function Scan(rivers: seq<SP.RiverWithPunter>, connected: seq<set<int>>, dist: (int, nat) -> int, n: nat)
    : (r: (Option<nat>, int))
    requires n <= |rivers|
    ensures r.0.Some? ==> r.0.value < n
  {
    if n == 0 then (None, -1)
    else
      var (best, score) := Scan(rivers, connected, dist, n - 1);
      var r := rivers[n - 1];
      var s := RiverScore(connected, r, dist, |connected|);
      if r.punter == -1 && s > score then (Some(n - 1), s) else (best, score)
  }

  /**
   * The river kept is the first free river of maximal score; there is one
   * exactly when some river is free, and the score kept is its score.
   */
  lemma {:induction false} ScanFindsFirstBest(rivers: seq<SP.RiverWithPunter>, connected: seq<set<int>>,
                                              dist: (int, nat) -> int, n: nat)
    requires n <= |rivers|
    ensures var (best, score) := Scan(rivers, connected, dist, n);
      (best.None? <==> forall j :: 0 <= j < n ==> rivers[j].punter != -1) &&
      (best.None? ==> score == -1) &&
      (best.Some? ==>
        (best.value < n && rivers[best.value].punter == -1 &&
         score == RiverScore(connected, rivers[best.value], dist, |connected|) &&
         (forall j :: 0 <= j < n && rivers[j].punter == -1 ==> RiverScore(connected, rivers[j], dist, |connected|) <= score) &&
         (forall j :: 0 <= j < best.value && rivers[j].punter == -1 ==> RiverScore(connected, rivers[j], dist, |connected|) < score)))
    decreases n
  {
    if n > 0 {
      ScanFindsFirstBest(rivers, connected, dist, n - 1);
    }
  }

  /** The sets after the chosen river's joined sites are added. */
  function Grown(connected: seq<set<int>>, r: SP.RiverWithPunter): (g: seq<set<int>>)
    ensures |g| == |connected|
  {
    seq(|connected|, k requires 0 <= k < |connected| =>
      match Other(connected[k], r) case None => connected[k] case Some(t) => connected[k] + {t})
  }

  /** The sets only grow, and each mine whose set held one end of the river now holds both. */
  lemma GrownJoins(connected: seq<set<int>>, r: SP.RiverWithPunter)
    ensures forall k :: 0 <= k < |connected| ==> connected[k] <= Grown(connected, r)[k]
    ensures forall k :: 0 <= k < |connected| && (r.source in connected[k] || r.target in connected[k]) ==>
      r.source in Grown(connected, r)[k] && r.target in Grown(connected, r)[k]
  {
  }

  /** What `Run` answers: the kept river, else a pass. */
  function GreedyChoice(me: int, rivers: seq<SP.RiverWithPunter>, connected: seq<set<int>>, dist: (int, nat) -> int): GameMove
  {
    match Scan(rivers, connected, dist, |rivers|).0
    case None => Pass(me)
    case Some(i) => Claim(me, rivers[i].source, rivers[i].target)
  }

  /** The inner loop of `Run`: a river's score and the pairs it would join. */
  method ScoreRiver(connected: seq<set<int>>, r: SP.RiverWithPunter, dist: (int, nat) -> int, numMines: nat)
    returns (score: int, joined: set<(int, int)>)
    requires numMines <= |connected|
    ensures score == RiverScore(connected, r, dist, numMines) && joined == Joined(connected, r, numMines)
  {
    score, joined := 0, {};
    for k := 0 to numMines
      invariant score == RiverScore(connected, r, dist, k) && joined == Joined(connected, r, k)
    {
      var c := connected[k];
      var target;
      if r.source in c && r.target !in c {
        target := r.target;
      } else if r.source !in c && r.target in c {
        target := r.source;
      } else {
        assert Joined(connected, r, k + 1) == Joined(connected, r, k);
        continue;
      }
      var d := dist(target, k);
      score := score + d * d;
      joined := joined + {(k, target)};
      assert Joined(connected, r, k + 1) == Joined(connected, r, k) + {(k, target)};
    }
  }

  /** The sets with every joined pair inserted, one pair at a time. */
  method InsertJoined(connected0: seq<set<int>>, joined: set<(int, int)>) returns (connected: seq<set<int>>)
    requires forall p :: p in joined ==> 0 <= p.0 < |connected0|
    ensures |connected| == |connected0|
    ensures forall k :: 0 <= k < |connected0| ==> connected[k] == connected0[k] + set p | p in joined && p.0 == k :: p.1
  {
    connected := connected0;
    var left := joined;
    while exists p :: p in left
      invariant left <= joined && |connected| == |connected0|
      invariant forall k :: 0 <= k < |connected0| ==>
        connected[k] == connected0[k] + set p | p in joined - left && p.0 == k :: p.1
      decreases left
    {
      var p :| p in left;
      connected := connected[p.0 := connected[p.0] + {p.1}];
      left := left - {p};
    }
  }

  /** The joined pairs of a river are exactly what `Grown` adds. */
  lemma JoinedGrows(connected: seq<set<int>>, r: SP.RiverWithPunter)
    ensures forall k :: 0 <= k < |connected| ==>
      Grown(connected, r)[k] == connected[k] + set p | p in Joined(connected, r, |connected|) && p.0 == k :: p.1
  {
    forall k | 0 <= k < |connected|
      ensures Grown(connected, r)[k] == connected[k] + set p | p in Joined(connected, r, |connected|) && p.0 == k :: p.1
    {
      var added := set p | p in Joined(connected, r, |connected|) && p.0 == k :: p.1;
      match Other(connected[k], r)
      case None =>
        assert added == {};
      case Some(t) =>
        assert (k, t) in Joined(connected, r, |connected|);
        assert added == {t};
    }
  }

  // ---------------------------------------------------------------------
  // State

  /** Mine `k`'s list in the state: its sites in ascending order. */
  ghost predicate ListsSet(v: Json, s: set<int>)
  {
    v.JList? && (forall i, j :: 0 <= i < j < |v.items| ==> v.items[i].JInt? && v.items[j].JInt? && v.items[i].i < v.items[j].i) &&
    (forall i :: 0 <= i < |v.items| ==> v.items[i].JInt? && v.items[i].i in s) &&
    (forall x :: x in s ==> JInt(x) in v.items)
  }

  /** The least site of a non-empty set. */
  method Least(sites: set<int>, w: int) returns (m: int)
    requires w in sites
    ensures m in sites && forall x :: x in sites ==> m <= x
  {
    MinExists(sites, w);
    m :| m in sites && forall x :: x in sites ==> m <= x;
  }

  /** One mine's set written as its sites in ascending order, the order a `std::set` iterates in. */
  method SetToJson(s: set<int>) returns (v: Json)
    ensures ListsSet(v, s)
  {
    var items: seq<Json> := [];
    var left := s;
    while exists x :: x in left
      invariant left <= s && (forall x :: x in s - left ==> JInt(x) in items)
      invariant forall i :: 0 <= i < |items| ==> items[i].JInt? && items[i].i in s - left
      invariant forall i, x :: 0 <= i < |items| && x in left ==> items[i].i < x
      invariant forall i, j :: 0 <= i < j < |items| ==> items[i].i < items[j].i
      decreases left
    {
      var w :| w in left;
      var m := Least(left, w);
      items := items + [JInt(m)];
      left := left - {m};
    }
    v := JList(items);
  }

  /** A mine's list read back: every entry an integer, inserted into what the set held. */
  function ReadSites(start: set<int>, items: seq<Json>): (r: Result<set<int>, Fatal>)
    ensures r.Ok? <==> forall i :: 0 <= i < |items| ==> items[i].JInt?
    ensures r.Ok? ==> r.value == start + set i | 0 <= i < |items| :: items[i].i
  {
    if items == [] then Ok(start)
    else match ReadSites(start, items[..|items| - 1])
      case Err(e) => Err(e)
      case Ok(s) =>
        var last := items[|items| - 1];
        if last.JInt? then
          var init := items[..|items| - 1];
          assert (set i | 0 <= i < |items| :: items[i].i) ==
                 (set i | 0 <= i < |init| :: init[i].i) + {last.i};
          Ok(s + {last.i})
        else
          assert !items[|items| - 1].JInt?;
          Err(Fatal)
  }

  /** Reading a written list into an empty set gives back the set. */
  lemma ReadWrittenSites(v: Json, s: set<int>)
    requires ListsSet(v, s)
    ensures ReadSites({}, v.items) == Ok(s)
  {
    var read := set i | 0 <= i < |v.items| :: v.items[i].i;
    forall x | x in s ensures x in read {
      var i :| 0 <= i < |v.items| && v.items[i] == JInt(x);
      assert v.items[i].i == x;
    }
    assert read == s;
    assert {} + read == s;
  }

  /** Mine `k`'s set once the sets are resized to `k`'s count: kept, or empty for a new mine. */
  function Kept(before: seq<set<int>>, k: nat): set<int>
  {
    if k < |before| then before[k] else {}
  }

  /**
   * `SetState`'s reading of the "greedy" lists: every entry a list of
   * integers, each inserted into the mine's resized set.
   */
  function ReadLists(before: seq<set<int>>, lists: seq<Json>): (r: Result<seq<set<int>>, Fatal>)
    ensures r.Ok? <==> forall k :: 0 <= k < |lists| ==>
      lists[k].JList? && forall i :: 0 <= i < |lists[k].items| ==> lists[k].items[i].JInt?
    ensures r.Ok? ==> |r.value| == |lists| && forall k :: 0 <= k < |lists| ==>
      r.value[k] == Kept(before, k) + set i | 0 <= i < |lists[k].items| :: lists[k].items[i].i
  {
    if lists == [] then Ok([])
    else match ReadLists(before, lists[..|lists| - 1])
      case Err(e) => Err(e)
      case Ok(sets) =>
        var l := lists[|lists| - 1];
        if !l.JList? then Err(Fatal)
        else match ReadSites(Kept(before, |lists| - 1), l.items)
          case Err(e) => Err(e)
          case Ok(last) => Ok(sets + [last])
  }

  /** A list that fails to read fails the whole reading. */
  lemma {:induction false} ReadListsPrefixErr(before: seq<set<int>>, lists: seq<Json>, k: nat)
    requires k <= |lists| && ReadLists(before, lists[..k]).Err?
    ensures ReadLists(before, lists).Err?
  {
    forall j | 0 <= j < k ensures lists[..k][j] == lists[j] {
    }
  }

  function ReadGreedy(before: seq<set<int>>, v: Json): Result<seq<set<int>>, Fatal>
  {
    match GetList(v, ["greedy"])
    case None => Err(Fatal)
    case Some(lists) => ReadLists(before, lists)
  }

  /** The inner loop of `SetState`: one mine's list inserted into its set, failing on a non-integer entry. */
  method ReadSiteList(start: set<int>, items: seq<Json>) returns (r: Result<set<int>, Fatal>)
    ensures r.Ok? <==> ReadSites(start, items).Ok?
    ensures r.Ok? ==> r.value == ReadSites(start, items).value
  {
    var site := start;
    for i := 0 to |items|
      invariant ReadSites(start, items[..i]) == Ok(site)
    {
      assert items[..i + 1][..i] == items[..i];
      if !items[i].JInt? {
        assert !ReadSites(start, items).Ok?;
        return Err(Fatal);
      }
      site := site + {items[i].i};
    }
    assert items[..|items|] == items;
    return Ok(site);
  }

  /** The outer loop of `SetState`: every "greedy" list read into its mine's set, failing on a non-list. */
  method ReadAllLists(before: seq<set<int>>, lists: seq<Json>) returns (r: Result<seq<set<int>>, Fatal>)
    ensures r.Ok? <==> ReadLists(before, lists).Ok?
    ensures r.Ok? ==> r.value == ReadLists(before, lists).value
  {
    var sets: seq<set<int>> := [];
    for k := 0 to |lists|
      invariant ReadLists(before, lists[..k]) == Ok(sets)
    {
      assert lists[..k + 1][..k] == lists[..k];
      var l := lists[k];
      if !l.JList? {
        ReadListsPrefixErr(before, lists, k + 1);
        return Err(Fatal);
      }
      var site := ReadSiteList(Kept(before, k), l.items);
      if site.Err? {
        ReadListsPrefixErr(before, lists, k + 1);
        return Err(Fatal);
      }
      sets := sets + [site.value];
    }
    assert lists[..|lists|] == lists;
    return Ok(sets);
  }

  /** Written lists read back into no sets, or into the same sets, give the sets. */
  lemma ListsReadBack(before: seq<set<int>>, sets: seq<set<int>>, lists: seq<Json>)
    requires |lists| == |sets| && forall k :: 0 <= k < |sets| ==> ListsSet(lists[k], sets[k])
    requires before == [] || before == sets
    ensures ReadLists(before, lists) == Ok(sets)
  {
    forall k | 0 <= k < |sets| ensures ReadSites({}, lists[k].items) == Ok(sets[k]) {
      ReadWrittenSites(lists[k], sets[k]);
    }
    var r := ReadLists(before, lists);
    assert r.Ok?;
    forall k | 0 <= k < |sets| ensures r.value[k] == sets[k] {
      var read := set i | 0 <= i < |lists[k].items| :: lists[k].items[i].i;
      assert ReadSites({}, lists[k].items).value == {} + read;
      assert read == sets[k];
      assert Kept(before, k) <= sets[k];
    }
    assert r.value == sets;
  }

  /** The base's entries of a written state read back as the base's state, every river free. */
  lemma BaseStateReadBack(s: SP.SimpleState, v: Json, extra: Json)
    requires v == JDict(SP.StateJson(s).fields["greedy" := extra])
    ensures SP.StateOf(v) == Ok(s.(rivers := SP.Forgotten(s.rivers)))
  {
    var w := SP.StateJson(s);
    assert GetList(v, ["sites"]) == GetList(w, ["sites"]);
    assert GetList(v, ["rivers"]) == GetList(w, ["rivers"]);
    assert GetList(v, ["mines"]) == GetList(w, ["mines"]);
    assert GetInteger(v, ["punter_id"]) == GetInteger(w, ["punter_id"]);
    assert GetInteger(v, ["num_punters"]) == GetInteger(w, ["num_punters"]);
    SP.StateRoundTrip(s);
  }

  /**
   * The state `GetState` writes reads back: the lists give the sets again
   * (into a fresh punter, or into the punter that wrote them), and the
   * base's entries read as the base's state with every river free.
   */
  lemma GreedyStateRoundTrip(s: SP.SimpleState, sets: seq<set<int>>, lists: seq<Json>, v: Json)
    requires |lists| == |sets| && forall k :: 0 <= k < |sets| ==> ListsSet(lists[k], sets[k])
    requires v == JDict(SP.StateJson(s).fields["greedy" := JList(lists)])
    ensures ReadGreedy([], v) == Ok(sets) && ReadGreedy(sets, v) == Ok(sets)
    ensures SP.StateOf(v) == Ok(s.(rivers := SP.Forgotten(s.rivers)))
  {
    assert GetList(v, ["greedy"]) == Some(lists);
    ListsReadBack([], sets, lists);
    ListsReadBack(sets, sets, lists);
    BaseStateReadBack(s, v, JList(lists));
  }

  class GreedyPunter {
    const base: SP.SimplePunter
    var connected: seq<set<int>>

    ghost predicate Valid()
      reads this, base
    {
      |connected| == |base.mines|
    }

    constructor ()
      ensures fresh(base) && connected == [] && base.rivers == [] && base.mines == []
    {
      base := new SP.SimplePunter();
      connected := [];
    }

    /** `SetUp`: the base's set-up, then one set per mine, holding the mine. */
    method SetUp(id: int, n: int, gameMap: GameMap)
      modifies this, base
      ensures Valid() && base.punterId == id && base.mines == gameMap.mines
      ensures |base.rivers| == old(|base.rivers|) + |gameMap.rivers| && base.rivers[..old(|base.rivers|)] == old(base.rivers)
      ensures forall i :: 0 <= i < |gameMap.rivers| ==> base.rivers[old(|base.rivers|) + i] == SP.Fresh(gameMap.rivers[i])
      ensures forall i :: 0 <= i < |connected| ==>
        connected[i] == (if i < old(|connected|) then old(connected[i]) else {}) + {gameMap.mines[i]}
    {
      base.SetUp(id, n, gameMap);
      var mines := base.mines;
      var before := connected;
      var sets := seq(|mines|, i requires 0 <= i < |mines| => if i < |before| then before[i] else {});
      for i := 0 to |mines|
        invariant |sets| == |mines|
        invariant forall j :: 0 <= j < |mines| ==>
          sets[j] == (if j < |connected| then connected[j] else {}) + (if j < i then {mines[j]} else {})
      {
        sets := sets[i := sets[i] + {mines[i]}];
      }
      connected := sets;
    }

    /**
     * `Run`: scores every free river, keeps the first of maximal score,
     * adds the sites it joins to the mines' sets and claims it; passes when
     * no river is free.
     */
    method Run(dist: (int, nat) -> int) returns (m: GameMove)
      requires Valid()
      modifies this
      ensures Valid()
      ensures m == GreedyChoice(base.punterId, base.rivers, old(connected), dist)
      ensures connected == match Scan(base.rivers, old(connected), dist, |base.rivers|).0
        case None => old(connected)
        case Some(i) => Grown(old(connected), base.rivers[i])
    {
      var rivers := base.rivers;
      var best: Option<nat> := None;
      var maxScore := -1;
      var maxJoined: set<(int, int)> := {};
      for i := 0 to |rivers|
        invariant connected == old(connected) && |connected| == |base.mines|
        invariant (best, maxScore) == Scan(rivers, connected, dist, i)
        invariant best.Some? ==> maxJoined == Joined(connected, rivers[best.value], |connected|)
      {
        if rivers[i].punter != -1 {
          continue;
        }
        var score, joined := ScoreRiver(connected, rivers[i], dist, |base.mines|);
        if score > maxScore {
          best, maxScore, maxJoined := Some(i), score, joined;
        }
      }
      if best.Some? {
        var r := rivers[best.value];
        JoinedGrows(connected, r);
        connected := InsertJoined(connected, maxJoined);
        return Claim(base.punterId, r.source, r.target);
      }
      return Pass(base.punterId);
    }

    /** `GetState`: the base's state with one ascending list per mine under "greedy". */
    method GetState() returns (v: Json)
      requires Valid()
      ensures v.JDict? && "greedy" in v.fields && v.fields == SP.StateJson(base.State()).fields["greedy" := v.fields["greedy"]]
      ensures v.fields["greedy"].JList? && |v.fields["greedy"].items| == |connected|
      ensures forall k :: 0 <= k < |connected| ==> ListsSet(v.fields["greedy"].items[k], connected[k])
    {
      var state := base.GetState();
      var lists: seq<Json> := [];
      for k := 0 to |base.mines|
        invariant |lists| == k && forall j :: 0 <= j < k ==> ListsSet(lists[j], connected[j])
      {
        var l := SetToJson(connected[k]);
        lists := lists + [l];
      }
      v := JDict(state.fields["greedy" := JList(lists)]);
    }

    /**
     * `SetState`: the "greedy" lists are read into the sets, resized to
     * the lists' count and not cleared, then the base reads its entries;
     * any missing or mistyped entry fails a check.
     */
    method SetState(v: Json) returns (r: Result<(), Fatal>)
      modifies this, base
      ensures r.Ok? <==> ReadGreedy(old(connected), v).Ok? && SP.StateOf(v).Ok?
      ensures r.Ok? ==> connected == ReadGreedy(old(connected), v).value && base.State() == SP.StateOf(v).value
    {
      var lists := GetList(v, ["greedy"]);
      if lists.None? {
        return Err(Fatal);
      }
      var sets := ReadAllLists(connected, lists.value);
      if sets.Err? {
        return Err(Fatal);
      }
      connected := sets.value;
      r := base.SetState(v);
    }
  }
}
