/**
 * `MetaPunter`: runs a primary and a backup worker side by side. Each
 * turn the backup answers first; the primary is given a time limit, and
 * when it misses it the backup's move is played and the moves the primary
 * has not seen are kept for it. Every turn on which some punter shows
 * more than one move (so passes were made for this punter while it was
 * late) shortens the limit by 100 ms per extra move, down to 100 ms.
 *
 * The workers are the functions `primary` and `backup` from the request
 * they are sent to their reply; process start-up, pipes and clocks are
 * not part of this model.
 */
module MetaPunter {
  import opened Wrappers
  import opened GameData

  /** The time limit `SetUp` starts with, in milliseconds. */
  const InitialTimeout := 800
  /** The limit drops by this much per extra move. */
  const DecreaseStep := 100
  /** The limit never drops below this. */
  const MinimumTimeout := 100

  // ---------------------------------------------------------------------
  // Counting the moves of one turn

  /** The number of moves in `ms` made by punter `p`. */
  function CountOf(ms: seq<GameMove>, p: int): nat
  {
    if ms == [] then 0
    else CountOf(ms[..|ms| - 1], p) + (if ms[|ms| - 1].punter == p then 1 else 0)
  }

  /** A punter has a move in `ms` exactly when its count is positive. */
  lemma {:induction false} CountPositive(ms: seq<GameMove>, p: int)
    ensures CountOf(ms, p) > 0 <==> exists i :: 0 <= i < |ms| && ms[i].punter == p
  {
    if ms != [] {
      var init := ms[..|ms| - 1];
      CountPositive(init, p);
      if exists i :: 0 <= i < |init| && init[i].punter == p {
        var i :| 0 <= i < |init| && init[i].punter == p;
        assert ms[i].punter == p;
      }
    }
  }

  /** The largest count, over the punters of the moves in `ps`, of their moves in `ms`. */
  function MostOver(ms: seq<GameMove>, ps: seq<GameMove>): (n: nat)
    ensures forall i :: 0 <= i < |ps| ==> CountOf(ms, ps[i].punter) <= n
    ensures ps == [] ==> n == 0
    ensures ps != [] ==> exists i :: 0 <= i < |ps| && CountOf(ms, ps[i].punter) == n
  {
    if ps == [] then 0
    else
      var rest := MostOver(ms, ps[1..]);
      var here := CountOf(ms, ps[0].punter);
      assert forall i :: 1 <= i < |ps| ==> ps[i] == ps[1..][i - 1];
      if here >= rest then here else rest
  }

  /** The most moves any one punter has in `ms`; 0 for no moves. */
  function MostMoves(ms: seq<GameMove>): nat
  {
    MostOver(ms, ms)
  }

  /** The most moves is attained by a punter with moves, and it is at least 1 once there is a move. */
  lemma MostMovesAttained(ms: seq<GameMove>)
    ensures ms == [] <==> MostMoves(ms) == 0
    ensures forall i :: 0 <= i < |ms| ==> CountOf(ms, ms[i].punter) <= MostMoves(ms)
    ensures ms != [] ==> exists i :: 0 <= i < |ms| && CountOf(ms, ms[i].punter) == MostMoves(ms)
  {
    if ms != [] {
      CountPositive(ms, ms[0].punter);
    }
  }

  /** The second loop of `Run`'s counting: the largest count in the map, 0 for an empty map. */
  method Largest(count: map<int, nat>) returns (maxCount: nat)
    ensures forall p :: p in count ==> count[p] <= maxCount
    ensures maxCount == 0 || exists p :: p in count && count[p] == maxCount
    ensures (exists p :: p in count) ==> exists p :: p in count && count[p] == maxCount
  {
    maxCount := 0;
    var left := count.Keys;
    while exists p :: p in left
      invariant left <= count.Keys
      invariant forall p :: p in count && p !in left ==> count[p] <= maxCount
      invariant maxCount == 0 || exists p :: p in count && p !in left && count[p] == maxCount
      decreases |left|
    {
      var p :| p in left;
      if count[p] > maxCount {
        maxCount := count[p];
      }
      left := left - {p};
    }
    assert left == {};
    if maxCount == 0 && exists p :: p in count {
      var p :| p in count;
      assert count[p] == 0;
    }
  }

  /**
   * The first two loops of `Run`: the moves counted per punter in a map,
   * then the largest count.
   */
  method MaxMovesByOnePunter(moves: seq<GameMove>) returns (maxCount: nat)
    ensures maxCount == MostMoves(moves)
  {
    var count: map<int, nat> := map[];
    var i := 0;
    while i < |moves|
      invariant 0 <= i <= |moves|
      invariant forall p :: p in count <==> exists j :: 0 <= j < i && moves[j].punter == p
      invariant forall p :: p in count ==> count[p] == CountOf(moves[..i], p)
    {
      assert moves[..i + 1][..i] == moves[..i];
      var p := moves[i].punter;
      if p in count {
        count := count[p := count[p] + 1];
      } else {
        CountPositive(moves[..i], p);
        count := count[p := 1];
      }
      i := i + 1;
    }
    assert moves[..i] == moves;
    maxCount := Largest(count);
    MostMovesAttained(moves);
    if moves != [] {
      var k :| 0 <= k < |moves| && CountOf(moves, moves[k].punter) == MostMoves(moves);
      assert moves[k].punter in count;
      var p :| p in count && count[p] == maxCount;
      var j :| 0 <= j < |moves| && moves[j].punter == p;
      assert CountOf(moves, moves[j].punter) <= MostMoves(moves);
    }
  }

  // ---------------------------------------------------------------------
  // The time limit

  /**
   * The limit after a turn with `numPasses` extra moves: unchanged unless
   * `numPasses` is positive, else shortened by 100 ms each, but not below 100 ms.
   */
  function Backoff(timeout: int, numPasses: int): (t: int)
    ensures numPasses <= 0 ==> t == timeout
    ensures numPasses > 0 ==> MinimumTimeout <= t
    ensures numPasses > 0 && timeout >= MinimumTimeout ==> t <= timeout - (if timeout > MinimumTimeout then 1 else 0)
    ensures t == timeout || t == MinimumTimeout || t == timeout - DecreaseStep * numPasses
  {
    if numPasses > 0 then
      if timeout - DecreaseStep * numPasses < MinimumTimeout then MinimumTimeout
      else timeout - DecreaseStep * numPasses
    else timeout
  }

  /** A limit in [100, 800] stays there and never grows. */
  lemma BackoffKeepsRange(timeout: int, numPasses: int)
    requires MinimumTimeout <= timeout <= InitialTimeout
    ensures MinimumTimeout <= Backoff(timeout, numPasses) <= timeout
  {
  }

  /** More extra moves never leave a longer limit. */
  lemma BackoffMonotone(timeout: int, fewer: int, more: int)
    requires MinimumTimeout <= timeout && fewer <= more
    ensures Backoff(timeout, more) <= Backoff(timeout, fewer)
  {
  }

  /** Seven extra moves or more bring the limit from 800 ms, or less, to the floor. */
  lemma BackoffFloor(timeout: int, numPasses: int)
    requires timeout <= InitialTimeout && numPasses >= 7
    ensures Backoff(timeout, numPasses) == MinimumTimeout
  {
  }

  /** Limits applied turn after turn, from 800 ms, by the extra moves of each turn. */
  function Limits(numPasses: seq<int>): (t: int)
  {
    if numPasses == [] then InitialTimeout
    else Backoff(Limits(numPasses[..|numPasses| - 1]), numPasses[|numPasses| - 1])
  }

  /** From `SetUp` on, the limit lies in [100, 800] and never grows from one turn to the next. */
  lemma {:induction false} LimitsDescend(numPasses: seq<int>)
    ensures MinimumTimeout <= Limits(numPasses) <= InitialTimeout
    ensures numPasses != [] ==> Limits(numPasses) <= Limits(numPasses[..|numPasses| - 1])
  {
    if numPasses != [] {
      LimitsDescend(numPasses[..|numPasses| - 1]);
      BackoffKeepsRange(Limits(numPasses[..|numPasses| - 1]), numPasses[|numPasses| - 1]);
    }
  }

  // ---------------------------------------------------------------------
  // Move lists

  /** `GameMoves::ToJson`: every move in order; an OPTION move cannot be written and is fatal. */
  function MovesJson(ms: seq<GameMove>): (r: Result<seq<Json>, Fatal>)
    ensures r.Ok? <==> forall i :: 0 <= i < |ms| ==> ms[i].kind != OPTION
    ensures r.Ok? ==> |r.value| == |ms| && forall i :: 0 <= i < |ms| ==> MoveJson(ms[i]) == Ok(r.value[i])
  {
    if ms == [] then Ok([])
    else match MovesJson(ms[..|ms| - 1])
      case Err(e) => Err(e)
      case Ok(js) =>
        match MoveJson(ms[|ms| - 1])
        case Err(e) => Err(e)
        case Ok(j) => Ok(js + [j])
  }

  /** The moves the factories build: each field its type does not use is left at its default. */
  predicate Canonical(m: GameMove)
  {
    m == Claim(m.punter, m.source, m.target) || m == Pass(m.punter) || m == Splurge(m.punter, m.route)
  }

  /** Every move read from JSON is canonical. */
  lemma ReadIsCanonical(v: Json)
    requires MoveOf(v).Ok?
    ensures Canonical(MoveOf(v).value)
  {
  }

  /** A canonical move is written and read back unchanged. */
  lemma CanonicalRoundTrip(m: GameMove)
    requires Canonical(m)
    ensures MoveJson(m).Ok? && MoveOf(MoveJson(m).value) == Ok(m)
  {
    MoveRoundTrip(m.punter, m.source, m.target, m.route);
  }

  /** A list whose every element reads as the matching element of `xs` reads as `xs`. */
  lemma ReadsEach<T>(values: seq<Json>, f: Json -> Result<T, Fatal>, xs: seq<T>)
    requires |values| == |xs| && forall i :: 0 <= i < |values| ==> f(values[i]) == Ok(xs[i])
    ensures AllOf(values, f) == Ok(xs)
  {
    AllOfElements(values, f);
    var all := AllOf(values, f);
    assert |all.value| == |xs| && forall i :: 0 <= i < |xs| ==> all.value[i] == xs[i];
    assert all.value == xs;
  }

  /** Each move of a canonical list is written, and reads back as itself. */
  lemma MovesReadBack(ms: seq<GameMove>)
    requires forall i :: 0 <= i < |ms| ==> Canonical(ms[i])
    ensures MovesJson(ms).Ok? && forall i :: 0 <= i < |ms| ==> MoveOf(MovesJson(ms).value[i]) == Ok(ms[i])
  {
    forall i | 0 <= i < |ms|
      ensures MoveJson(ms[i]).Ok? && MoveOf(MoveJson(ms[i]).value) == Ok(ms[i])
    {
      CanonicalRoundTrip(ms[i]);
    }
  }

  /** A list of canonical moves is written and read back unchanged. */
  lemma MovesRoundTrip(ms: seq<GameMove>)
    requires forall i :: 0 <= i < |ms| ==> Canonical(ms[i])
    ensures MovesJson(ms).Ok? && AllOf(MovesJson(ms).value, MoveOf) == Ok(ms)
  {
    MovesReadBack(ms);
    ReadsEach(MovesJson(ms).value, MoveOf, ms);
  }

  // ---------------------------------------------------------------------
  // Saved state

  /** What `GetState` saves: both workers' states, the unseen moves and the limit. */
  datatype Saved = Saved(primary: Json, backup: Json, history: seq<GameMove>, timeoutMs: int)

  /** `GetState`'s dictionary; fatal when a move of the history cannot be written. */
  function StateJson(s: Saved): (r: Result<Json, Fatal>)
    ensures r.Ok? <==> MovesJson(s.history).Ok?
    ensures r.Ok? ==> r.value.JDict? && r.value.fields.Keys == {"primary", "backup", "history", "timeout_ms"}
  {
    match MovesJson(s.history)
    case Err(e) => Err(e)
    case Ok(js) =>
      Ok(JDict(map["primary" := s.primary, "backup" := s.backup, "history" := JList(js),
                   "timeout_ms" := JInt(s.timeoutMs)]))
  }

  /**
   * `SetState`'s reading: a dictionary holding "primary", "backup", a list
   * "history" of moves and an integer "timeout_ms"; anything less is fatal.
   */
  function StateOf(v: Json): (r: Result<Saved, Fatal>)
    ensures r.Ok? ==> v.JDict? && "primary" in v.fields && "backup" in v.fields
    ensures r.Ok? ==> r.value.primary == v.fields["primary"] && r.value.backup == v.fields["backup"]
    ensures r.Ok? ==> GetInteger(v, ["timeout_ms"]) == Some(r.value.timeoutMs)
    ensures r.Ok? ==> GetList(v, ["history"]).Some? && AllOf(GetList(v, ["history"]).value, MoveOf) == Ok(r.value.history)
  {
    if !v.JDict? || "primary" !in v.fields || "backup" !in v.fields then Err(Fatal)
    else match (GetList(v, ["history"]), GetInteger(v, ["timeout_ms"]))
      case (Some(items), Some(t)) =>
        (match AllOf(items, MoveOf)
         case Ok(h) => Ok(Saved(v.fields["primary"], v.fields["backup"], h, t))
         case Err(e) => Err(e))
      case _ => Err(Fatal)
  }

  /** A state saved with a canonical history is read back exactly. */
  lemma StateRoundTrip(s: Saved)
    requires forall i :: 0 <= i < |s.history| ==> Canonical(s.history[i])
    ensures StateJson(s).Ok? && StateOf(StateJson(s).value) == Ok(s)
  {
    MovesRoundTrip(s.history);
    var js := MovesJson(s.history).value;
    var v := StateJson(s).value;
    assert v.fields == map["primary" := s.primary, "backup" := s.backup, "history" := JList(js),
                           "timeout_ms" := JInt(s.timeoutMs)];
    GetKey(v, "history");
    GetKey(v, "timeout_ms");
  }

  // ---------------------------------------------------------------------
  // Worker messages

  /** A request to a worker: the moves to play on, its state, and for the primary the limit. */
  datatype Request = Request(moves: seq<GameMove>, state: Json, timeoutMs: Option<int>)

  /** A worker's reply with its "state" taken out: that state and the rest; fatal if there is none. */
  function TakeState(v: Json): (r: Result<(Json, Json), Fatal>)
    ensures r.Ok? <==> v.JDict? && "state" in v.fields
    ensures r.Ok? ==> r.value.0 == v.fields["state"] && r.value.1.JDict?
    ensures r.Ok? ==> r.value.1.fields.Keys == v.fields.Keys - {"state"}
    ensures r.Ok? ==> forall k :: k in r.value.1.fields ==> r.value.1.fields[k] == v.fields[k]
  {
    if v.JDict? && "state" in v.fields then Ok((v.fields["state"], JDict(v.fields - {"state"})))
    else Err(Fatal)
  }

  /** A primary reply that counts: one that arrived in time and is a dictionary. */
  predicate Answered(reply: Option<Json>)
  {
    reply.Some? && reply.value.JDict?
  }

  class MetaPunter {
    /** The futures the primary bet on at set-up. */
    var futures: seq<Future>
    /** Each worker's state; `None` once handed out by a non-persistent `GetState`. */
    var primaryState: Option<Json>
    var backupState: Option<Json>
    /** The moves sent to the primary since it last answered in time. */
    var history: seq<GameMove>
    /** The primary's time limit, in milliseconds. */
    var timeoutMs: int

    /** The limit lies within [100, 800] ms. */
    ghost predicate InRange()
      reads this
    {
      MinimumTimeout <= timeoutMs <= InitialTimeout
    }

    constructor ()
      ensures futures == [] && primaryState == None && backupState == None
      ensures history == [] && timeoutMs == 0
    {
      futures := [];
      primaryState := None;
      backupState := None;
      history := [];
      timeoutMs := 0;
    }

    /**
     * `SetUp`: each worker's reply must carry a "state"; futures in the
     * primary's reply are kept; the limit starts at 800 ms.
     */
    method SetUp(primaryReply: Json, backupReply: Json) returns (r: Result<(), Fatal>)
      modifies this
      ensures r.Ok? <==> (TakeState(primaryReply).Ok? && TakeState(backupReply).Ok? &&
        (GetList(primaryReply, ["futures"]).Some? ==> AllOf(GetList(primaryReply, ["futures"]).value, RiverOf).Ok?))
      ensures r.Ok? ==> primaryState == Some(primaryReply.fields["state"]) && backupState == Some(backupReply.fields["state"])
      ensures r.Ok? && GetList(primaryReply, ["futures"]).Some? ==>
        futures == AllOf(GetList(primaryReply, ["futures"]).value, RiverOf).value
      ensures r.Ok? && GetList(primaryReply, ["futures"]).None? ==> futures == old(futures)
      ensures r.Ok? ==> history == old(history) && timeoutMs == InitialTimeout && InRange()
    {
      var p := TakeState(primaryReply);
      var b := TakeState(backupReply);
      if p.Err? || b.Err? {
        return Err(Fatal);
      }
      primaryState := Some(p.value.0);
      backupState := Some(b.value.0);
      var rest := p.value.1;
      assert GetList(rest, ["futures"]) == GetList(primaryReply, ["futures"]);
      var listed := GetList(rest, ["futures"]);
      if listed.Some? {
        var read := ListFromJson(listed.value, RiverOf);
        if read.Err? {
          return Err(Fatal);
        }
        futures := read.value;
      }
      timeoutMs := InitialTimeout;
      r := Ok(());
    }

    /**
     * `Run`: shortens the limit by the extra moves of this turn, adds the
     * turn's moves to the history, sends the primary the history with the
     * limit and the backup this turn's moves, and plays the primary's move
     * if it answered in time (clearing the history), the backup's otherwise.
     * A missing state, an unwritable move or a reply without a state or a
     * move is fatal. A primary reply that comes after the limit is the
     * same as none: the function `primary` gives `None` for it.
     */
    method Run(moves: seq<GameMove>, primary: Request -> Option<Json>, backup: Request -> Json)
      returns (r: Result<GameMove, Fatal>)
      modifies this
      ensures timeoutMs == Backoff(old(timeoutMs), MostMoves(moves) - 1)
      ensures old(InRange()) ==> InRange() && timeoutMs <= old(timeoutMs)
      ensures futures == old(futures)
      ensures r.Ok? ==> old(primaryState).Some? && old(backupState).Some?
      ensures r.Ok? ==> MovesJson(old(history) + moves).Ok?
      ensures r.Ok? ==> var reply := backup(Request(moves, old(backupState).value, None));
        TakeState(reply).Ok? && backupState == Some(reply.fields["state"])
      ensures r.Ok? ==>
        var reply := primary(Request(old(history) + moves, old(primaryState).value, Some(timeoutMs)));
        if Answered(reply) then
          TakeState(reply.value).Ok? && primaryState == Some(reply.value.fields["state"]) && history == [] &&
          r == MoveOf(TakeState(reply.value).value.1)
        else
          primaryState == old(primaryState) && history == old(history) + moves &&
          r == MoveOf(TakeState(backup(Request(moves, old(backupState).value, None))).value.1)
    {
      var maxCount := MaxMovesByOnePunter(moves);
      var numPasses := (maxCount as int) - 1;
      MostMovesAttained(moves);
      timeoutMs := Backoff(timeoutMs, numPasses);
      history := history + moves;
      if primaryState.None? || backupState.None? {
        return Err(Fatal);
      }
      var written := MovesJson(history);
      if written.Err? {
        return Err(Fatal);
      }
      var toPrimary := Request(history, primaryState.value, Some(timeoutMs));
      var toBackup := Request(moves, backupState.value, None);
      var backupReply := TakeState(backup(toBackup));
      if backupReply.Err? {
        return Err(Fatal);
      }
      backupState := Some(backupReply.value.0);
      var primaryReply := primary(toPrimary);
      if !Answered(primaryReply) {
        r := MoveOf(backupReply.value.1);
        if r.Err? {
          return Err(Fatal);
        }
        return;
      }
      var taken := TakeState(primaryReply.value);
      if taken.Err? {
        return Err(Fatal);
      }
      primaryState := Some(taken.value.0);
      history := [];
      r := MoveOf(taken.value.1);
      if r.Err? {
        return Err(Fatal);
      }
    }

    /**
     * `GetState`: both workers' states, the history and the limit. When
     * not `persistent`, the workers' states are handed out and gone.
     */
    method GetState(persistent: bool) returns (r: Result<Json, Fatal>)
      modifies this
      ensures r.Ok? <==> old(primaryState).Some? && old(backupState).Some? && MovesJson(history).Ok?
      ensures r.Ok? ==> r == StateJson(Saved(old(primaryState).value, old(backupState).value, history, timeoutMs))
      ensures persistent ==> primaryState == old(primaryState) && backupState == old(backupState)
      ensures r.Ok? && !persistent ==> primaryState == None && backupState == None
      ensures history == old(history) && timeoutMs == old(timeoutMs) && futures == old(futures)
    {
      if primaryState.None? || backupState.None? {
        return Err(Fatal);
      }
      var saved := Saved(primaryState.value, backupState.value, history, timeoutMs);
      r := StateJson(saved);
      if r.Err? {
        return;
      }
      if !persistent {
        primaryState := None;
        backupState := None;
      }
    }

    /** `SetState`: the workers' states, the history and the limit, as read. */
    method SetState(v: Json) returns (r: Result<(), Fatal>)
      modifies this
      ensures r.Ok? <==> StateOf(v).Ok?
      ensures r.Ok? ==> var s := StateOf(v).value;
        primaryState == Some(s.primary) && backupState == Some(s.backup) &&
        history == s.history && timeoutMs == s.timeoutMs
      ensures futures == old(futures)
    {
      var s := StateOf(v);
      if s.Err? {
        return Err(Fatal);
      }
      primaryState := Some(s.value.primary);
      backupState := Some(s.value.backup);
      history := s.value.history;
      timeoutMs := s.value.timeoutMs;
      r := Ok(());
    }
  }
}
