/**
 * The offline referee: the five players are commands run afresh for each
 * prompt. The referee's `run` sends the five set-ups and then one move
 * prompt per turn; each prompt starts the player's process, reads its
 * handshake, writes the prompt and reads one reply, all before the next
 * turn. Unlike the online referee it keeps each player's state and sends
 * it back with the next move prompt, and only claims enter its history.
 *
 * Processes and pipes are not part of this model: what a read from a
 * player's output yields is a parameter. The reader itself is modelled
 * over the text still unread in the pipe.
 */
module OfflineArena {
  import opened Wrappers
  import opened GameData
  import opened MoveKey
  import opened PyBuiltins
  import opened Online = Arena

  // ---------------------------------------------------------------------
  // Reading frames from a pipe

  /** The reader's state: the text read, one past the ':' once found, the length read. */
  datatype Reader = Reader(buffer: string, colonPos: Option<int>, nextLength: Option<int>)

  /** A reader with nothing pending, as at the start and after every message. */
  const Unread := Reader([], None, None)

  /** The position and the length are set together. */
  predicate WellSet(r: Reader)
  {
    r.nextLength.Some? ==> r.colonPos.Some?
  }

  /**
   * How `_read` ends: the pipe closed before a ':', the loop spinning for
   * ever on a payload the pipe closed short of, a message, a refused
   * frame, or `int()` raising on the length.
   */
  datatype ReadEnd = EndOfInput | Spinning | Got(message: Json) | Failure(why: Why) | ReadRaised

  /** The length check's verdict: a length to read, or the end of the read. */
  datatype Header = Length(n: int) | BadHeader(end: ReadEnd, nextLength: Option<int>)

  /**
   * The text before the ':' (which is at `colon - 1`) read by `int()`,
   * and required to be written as `str()` writes that number.
   */
  function ParseLength(buffer: string, colon: int): (h: Header)
    ensures h.BadHeader? ==> h.end == ReadRaised || h.end == Failure(BadLength)
    ensures h.BadHeader? && h.end == ReadRaised <==> PyInt(PySlice(buffer, 0, colon - 1)).None?
    ensures h.Length? ==> Show(h.n) == PySlice(buffer, 0, colon - 1)
  {
    var lengthText := PySlice(buffer, 0, colon - 1);
    match PyInt(lengthText)
    case None => BadHeader(ReadRaised, None)
    case Some(n) => if Show(n) != lengthText then BadHeader(Failure(BadLength), Some(n)) else Length(n)
  }

  /**
   * The length check as `_read` is written: it refuses an empty length
   * when the ':' position is 0, but the position it keeps is one past the
   * ':', so it is never 0.
   */
  function LengthCheckAsWritten(buffer: string, colon: int): (h: Header)
    ensures colon == 0 <==> h == BadHeader(Failure(EmptyLength), None)
    ensures colon == 1 ==> h == BadHeader(ReadRaised, None)
    ensures colon != 1 ==> h == LengthCheck(buffer, colon) || colon == 0
  {
    if colon == 0 then BadHeader(Failure(EmptyLength), None) else ParseLength(buffer, colon)
  }

  /** The length check with the empty length caught where the position it keeps puts it. */
  function LengthCheck(buffer: string, colon: int): (h: Header)
    ensures colon == 1 <==> h == BadHeader(Failure(EmptyLength), None)
    ensures h.BadHeader? ==> h.end == ReadRaised || h.end == Failure(BadLength) || h.end == Failure(EmptyLength)
    ensures h.Length? ==> colon != 1 && Show(h.n) == PySlice(buffer, 0, colon - 1)
  {
    if colon == 1 then BadHeader(Failure(EmptyLength), None) else ParseLength(buffer, colon)
  }

  /** As written, a ':' first makes `int('')` raise, which takes the whole referee down. */
  lemma EmptyLengthRaises(rest: string)
    ensures LengthCheckAsWritten(":" + rest, 1) == BadHeader(ReadRaised, None)
  {
    assert PySlice(":" + rest, 0, 0) == [];
  }

  /** Corrected, a ':' first is refused as an empty length, as the socket reader does. */
  lemma EmptyLengthRefused(rest: string)
    ensures LengthCheck(":" + rest, 1) == BadHeader(Failure(EmptyLength), None)
  {
  }

  /** The corrected check differs from the written one only on an empty length. */
  lemma LengthChecksAgree(buffer: string, colon: int)
    requires colon > 1
    ensures LengthCheck(buffer, colon) == LengthCheckAsWritten(buffer, colon)
  {
  }

  /**
   * `_read` from reader `r` with `input` still unread in the pipe, as a
   * function: the reader after, the input left, and how it ended. While no
   * length is known it reads one character at a time; then it asks for
   * exactly what the payload still lacks.
   */
  function ReadOf(r: Reader, input: string, parse: string -> Option<Json>): (Reader, string, ReadEnd)
    requires WellSet(r)
    decreases |input|, 1
  {
    if r.nextLength.None? then
      if input == [] then (r, input, EndOfInput)
      else Scanned(r.(buffer := r.buffer + [input[0]]), input[0], input[1..], parse)
    else
      var end := r.colonPos.value + r.nextLength.value;
      var want := end - |r.buffer|;
      var taken := if want < 0 || want > |input| then |input| else want;
      var r1 := r.(buffer := r.buffer + input[..taken]);
      if |r1.buffer| < end then
        if taken == 0 then (r1, input, Spinning) else ReadOf(r1, input[taken..], parse)
      else PayloadIn(r1, input[taken..], parse)
  }

  /** After the character `ch` has joined the buffer: note a ':', check the length, go on. */
  function Scanned(r: Reader, ch: char, rest: string, parse: string -> Option<Json>): (Reader, string, ReadEnd)
    requires WellSet(r) && r.nextLength.None?
    decreases |rest|, 2
  {
    var colon := if ch == ':' then Some(|r.buffer|) else r.colonPos;
    if colon.None? then ReadOf(r, rest, parse)
    else match LengthCheck(r.buffer, colon.value)
      case BadHeader(end, n) => (r.(colonPos := colon, nextLength := n), rest, end)
      case Length(n) =>
        var r1 := r.(colonPos := colon, nextLength := Some(n));
        if |r1.buffer| < colon.value + n then ReadOf(r1, rest, parse) else PayloadIn(r1, rest, parse)
  }

  /** The payload: the `nextLength` characters after the ':', parsed; the reader starts afresh. */
  function PayloadIn(r: Reader, rest: string, parse: string -> Option<Json>): (Reader, string, ReadEnd)
    requires r.colonPos.Some? && r.nextLength.Some?
  {
    var start := r.colonPos.value;
    var end := r.colonPos.value + r.nextLength.value;
    match parse(PySlice(r.buffer, start, end))
    case None => (r, rest, Failure(BadMessage))
    case Some(m) => (Reader(PySlice(r.buffer, end, |r.buffer|), None, None), rest, Got(m))
  }

  /** The reader once the length of the frame of `text` has been read. */
  function LengthKnown(text: string): Reader
  {
    Reader(Show(|text|) + ":", Some(|Show(|text|)| + 1), Some(|text|))
  }

  /** With the length known and the pipe holding enough, `_read` takes exactly what is missing, then the payload step. */
  lemma ReadWithLength(r: Reader, input: string, parse: string -> Option<Json>)
    requires r.colonPos.Some? && r.nextLength.Some?
    requires |r.buffer| <= r.colonPos.value + r.nextLength.value <= |r.buffer| + |input|
    ensures var k := r.colonPos.value + r.nextLength.value - |r.buffer|;
      ReadOf(r, input, parse) == PayloadIn(r.(buffer := r.buffer + input[..k]), input[k..], parse)
  {
  }

  /** The length of a frame, once its ':' is in: read and accepted. */
  lemma LengthOfFrame(text: string)
    ensures LengthCheck(Show(|text|) + ":", |Show(|text|)| + 1) == Length(|text|)
  {
    var head := Show(|text|);
    assert PySlice(head + ":", 0, |head|) == head;
    PyIntShow(|text|);
  }

  /** A buffer holding exactly a frame, its length read: the message is handed on and the reader starts afresh. */
  lemma PayloadWhole(text: string, rest: string, parse: string -> Option<Json>)
    requires parse(text).Some?
    ensures PayloadIn(Reader(Serialize(text), Some(|Show(|text|)| + 1), Some(|text|)), rest, parse) == (Unread, rest, Got(parse(text).value))
  {
    var frame := Serialize(text);
    var head := Show(|text|);
    assert PySlice(frame, |head| + 1, |frame|) == text;
    assert PySlice(frame, |frame|, |frame|) == [];
  }

  /** With the length read, the payload is read whole and handed on; nothing after it is read. */
  lemma PayloadReads(text: string, rest: string, parse: string -> Option<Json>)
    requires parse(text).Some?
    ensures ReadOf(LengthKnown(text), text + rest, parse) == (Unread, rest, Got(parse(text).value))
  {
    var r := LengthKnown(text);
    ReadWithLength(r, text + rest, parse);
    assert (text + rest)[..|text|] == text && (text + rest)[|text|..] == rest;
    assert r.buffer + text == Serialize(text);
    PayloadWhole(text, rest, parse);
  }

  /** A ':' whose length is accepted: the position and length are kept, then the payload is read or taken. */
  lemma ScannedLength(r: Reader, rest: string, parse: string -> Option<Json>, n: int)
    requires r.colonPos.None? && r.nextLength.None?
    requires LengthCheck(r.buffer, |r.buffer|) == Length(n)
    ensures Scanned(r, ':', rest, parse) ==
      var r1 := r.(colonPos := Some(|r.buffer|), nextLength := Some(n));
      if |r.buffer| < |r.buffer| + n then ReadOf(r1, rest, parse) else PayloadIn(r1, rest, parse)
  {
  }

  /** The ':' of a frame: the length before it is read and accepted. */
  lemma ColonReads(text: string, rest: string, parse: string -> Option<Json>)
    requires parse(text).Some?
    ensures Scanned(Reader(Show(|text|) + ":", None, None), ':', text + rest, parse) == (Unread, rest, Got(parse(text).value))
  {
    var r0 := Reader(Show(|text|) + ":", None, None);
    assert LengthCheck(r0.buffer, |r0.buffer|) == Length(|text|) by {
      LengthOfFrame(text);
    }
    assert r0.(colonPos := Some(|r0.buffer|), nextLength := Some(|text|)) == LengthKnown(text);
    ScannedLength(r0, text + rest, parse, |text|);
    KnownReads(text, rest, parse);
  }

  /** Once the length of a frame is known, its payload is read, or taken at once when empty. */
  lemma KnownReads(text: string, rest: string, parse: string -> Option<Json>)
    requires parse(text).Some?
    ensures (if 0 < |text| then ReadOf(LengthKnown(text), text + rest, parse) else PayloadIn(LengthKnown(text), text + rest, parse))
      == (Unread, rest, Got(parse(text).value))
  {
    if |text| == 0 {
      assert text + rest == rest;
      assert LengthKnown(text) == Reader(Serialize(text), Some(|Show(|text|)| + 1), Some(|text|));
      PayloadWhole(text, rest, parse);
    } else {
      PayloadReads(text, rest, parse);
    }
  }

  /** Reading a frame whose first `k` length characters are already in the buffer. */
  lemma {:induction false} HeaderReads(text: string, k: nat, rest: string, parse: string -> Option<Json>)
    requires k <= |Show(|text|)| && parse(text).Some?
    ensures ReadOf(Reader(Show(|text|)[..k], None, None), Serialize(text)[k..] + rest, parse) == (Unread, rest, Got(parse(text).value))
    decreases |Show(|text|)| - k
  {
    var head := Show(|text|);
    var frame := Serialize(text);
    var input := frame[k..] + rest;
    ShowNoColon(|text|);
    if k == |head| {
      assert input == ":" + (text + rest);
      assert head[..k] + [':'] == head + ":";
      ColonReads(text, rest, parse);
    } else {
      assert input[0] == head[k] != ':';
      assert input[1..] == frame[k + 1..] + rest;
      assert head[..k] + [input[0]] == head[..k + 1];
      HeaderReads(text, k + 1, rest, parse);
    }
  }

  /**
   * `_read` on a pipe holding a frame and more reads exactly that frame,
   * hands its message on, leaves the rest unread and starts afresh.
   */
  lemma FrameReads(text: string, rest: string, parse: string -> Option<Json>)
    requires parse(text).Some?
    ensures ReadOf(Unread, Serialize(text) + rest, parse) == (Unread, rest, Got(parse(text).value))
  {
    HeaderReads(text, 0, rest, parse);
    assert Serialize(text)[0..] == Serialize(text);
  }

  /** A pipe that closes after part of a payload leaves `_read` spinning. */
  lemma ShortPayloadSpins(text: string, parse: string -> Option<Json>)
    requires |text| > 0
    ensures ReadOf(LengthKnown(text), [], parse).2 == Spinning
  {
  }

  /**
   * A player that writes its handshake frame and then its reply frame: the
   * first `_read` hands on the handshake and leaves the reply unread, the
   * second hands on the reply; the reader starts afresh after each.
   */
  lemma WellBehavedPlayer(hello: string, reply: string, parse: string -> Option<Json>)
    requires parse(hello).Some? && parse(reply).Some?
    ensures ReadOf(Unread, Serialize(hello) + Serialize(reply), parse) == (Unread, Serialize(reply), Got(parse(hello).value))
    ensures ReadOf(Unread, Serialize(reply), parse) == (Unread, [], Got(parse(reply).value))
  {
    FrameReads(hello, Serialize(reply), parse);
    FrameReads(reply, [], parse);
    assert Serialize(reply) + [] == Serialize(reply);
  }

  /**
   * A refused payload leaves the reader holding the frame's position and
   * length: the next process's output is read as the rest of that payload,
   * never as a frame of its own.
   */
  lemma {:induction false} RefusedPayloadSticks(r: Reader, input: string, parse: string -> Option<Json>)
    requires WellSet(r)
    ensures ReadOf(r, input, parse).2 == Failure(BadMessage) ==> ReadOf(r, input, parse).0.nextLength.Some?
    decreases |input|, 1
  {
    if r.nextLength.None? {
      if input != [] {
        ScannedSticks(r.(buffer := r.buffer + [input[0]]), input[0], input[1..], parse);
      }
    } else {
      var end := r.colonPos.value + r.nextLength.value;
      var want := end - |r.buffer|;
      var taken := if want < 0 || want > |input| then |input| else want;
      var r1 := r.(buffer := r.buffer + input[..taken]);
      if |r1.buffer| < end && taken != 0 {
        RefusedPayloadSticks(r1, input[taken..], parse);
      }
    }
  }

  /** `RefusedPayloadSticks` for a read that has just taken the character `ch`. */
  lemma {:induction false} ScannedSticks(r: Reader, ch: char, rest: string, parse: string -> Option<Json>)
    requires WellSet(r) && r.nextLength.None?
    ensures Scanned(r, ch, rest, parse).2 == Failure(BadMessage) ==> Scanned(r, ch, rest, parse).0.nextLength.Some?
    decreases |rest|, 2
  {
    var colon := if ch == ':' then Some(|r.buffer|) else r.colonPos;
    if colon.None? {
      RefusedPayloadSticks(r, rest, parse);
    } else {
      match LengthCheck(r.buffer, colon.value)
      case BadHeader(_, _) =>
      case Length(n) =>
        var r1 := r.(colonPos := colon, nextLength := Some(n));
        if |r1.buffer| < colon.value + n {
          RefusedPayloadSticks(r1, rest, parse);
        }
    }
  }

  class FileEndpoint {
    var buffer: string
    var colonPos: Option<int>
    var nextLength: Option<int>
    /** What the player has written to the pipe and is not read yet. */
    var input: string

    function State(): Reader
      reads this
    {
      Reader(buffer, colonPos, nextLength)
    }

    constructor (output: string)
      ensures State() == Unread && input == output
    {
      buffer := [];
      colonPos := None;
      nextLength := None;
      input := output;
    }

    /** A new process for the next prompt: its output is what the pipe now holds; what the reader kept stays. */
    method Launch(output: string)
      modifies this
      ensures State() == old(State()) && input == output
    {
      input := output;
    }

    /** `_read`: until one message, a refusal, or the end of the pipe. */
    method Read(parse: string -> Option<Json>) returns (end: ReadEnd)
      requires WellSet(State())
      modifies this
      ensures WellSet(State())
      ensures (State(), input, end) == ReadOf(old(State()), old(input), parse)
    {
      while true
        invariant WellSet(State())
        invariant ReadOf(old(State()), old(input), parse) == ReadOf(State(), input, parse)
        decreases |input|
      {
        if nextLength.None? {
          if input == [] {
            return EndOfInput;
          }
          var ch := input[0];
          input := input[1..];
          var stop := ScanChar(ch, parse);
          if stop.Some? {
            return stop.value;
          }
        } else {
          var stop := TakePayload(parse);
          if stop.Some? {
            return stop.value;
          }
        }
      }
    }

    /**
     * One character read while no length is known: note a ':', check the
     * length, and read the payload once the buffer holds it. `None` says
     * the loop goes on.
     */
    method ScanChar(ch: char, parse: string -> Option<Json>) returns (stop: Option<ReadEnd>)
      requires WellSet(State()) && nextLength.None?
      modifies this
      ensures WellSet(State()) && input == old(input)
      ensures stop.Some? ==> (State(), input, stop.value) == Scanned(old(State()).(buffer := old(buffer) + [ch]), ch, input, parse)
      ensures stop.None? ==> ReadOf(State(), input, parse) == Scanned(old(State()).(buffer := old(buffer) + [ch]), ch, input, parse)
    {
      buffer := buffer + [ch];
      if ch == ':' {
        colonPos := Some(|buffer|);
      }
      if colonPos.None? {
        return None;
      }
      var h := LengthCheck(buffer, colonPos.value);
      if h.BadHeader? {
        nextLength := h.nextLength;
        return Some(h.end);
      }
      nextLength := Some(h.n);
      if |buffer| < colonPos.value + nextLength.value {
        return None;
      }
      var end := PayloadFrom(parse);
      stop := Some(end);
    }

    /** The payload step, the length known and the buffer full enough. */
    method PayloadFrom(parse: string -> Option<Json>) returns (end: ReadEnd)
      requires colonPos.Some? && nextLength.Some?
      modifies this
      ensures WellSet(State()) && input == old(input)
      ensures (State(), input, end) == PayloadIn(old(State()), input, parse)
    {
      var start := colonPos.value;
      var stop := colonPos.value + nextLength.value;
      var message := parse(PySlice(buffer, start, stop));
      if message.None? {
        return Failure(BadMessage);
      }
      buffer := PySlice(buffer, stop, |buffer|);
      colonPos := None;
      nextLength := None;
      end := Got(message.value);
    }

    /**
     * With the length known: read what the payload lacks, then hand it on,
     * or spin when the pipe has closed short of it. `None` says the loop
     * goes on with less input.
     */
    method TakePayload(parse: string -> Option<Json>) returns (stop: Option<ReadEnd>)
      requires WellSet(State()) && nextLength.Some?
      modifies this
      ensures WellSet(State())
      ensures stop.Some? ==> (State(), input, stop.value) == ReadOf(old(State()), old(input), parse)
      ensures stop.None? ==> |input| < |old(input)| && ReadOf(State(), input, parse) == ReadOf(old(State()), old(input), parse)
    {
      var end := colonPos.value + nextLength.value;
      var want := end - |buffer|;
      var taken := if want < 0 || want > |input| then |input| else want;
      buffer := buffer + input[..taken];
      input := input[taken..];
      if |buffer| < end {
        if taken == 0 {
          return Some(Spinning);
        }
        return None;
      }
      var r := PayloadFrom(parse);
      stop := Some(r);
    }
  }

  // ---------------------------------------------------------------------
  // A player's host

  /**
   * The handler a message reaches: the reply to a pending set-up, else to
   * a pending move, else the handshake, else a message out of turn. The
   * checks are those of the online handler, with an accepted pass logged
   * without ends to format.
   */
  function Reply(message: Json, setupPending: bool, movePending: bool, receivedHandshake: bool, id: Option<int>): Verdict
  {
    if setupPending then ReadyVerdict(message, id)
    else if movePending then MoveVerdict(message, id)
    else if !receivedHandshake then HandshakeVerdict(message)
    else Refused(OutOfTurn)
  }

  /** The "state" a reply carries, or null when it carries none. */
  function StateIn(message: Json): (state: Json)
    ensures message.JDict? && "state" in message.fields ==> state == message.fields["state"]
    ensures !message.JDict? || "state" !in message.fields ==> state == JNull
  {
    if message.JDict? && "state" in message.fields then message.fields["state"] else JNull
  }

  /** How `run` ends: every turn played, an exception, or a read that never returns. */
  datatype RunEnd = GameOver | Crashed | Hung

  /** The read ended the game: a spinning read hangs it; `int()` raising, or a handler raising, crashes it. */
  function Halt(end: ReadEnd, v: Option<Verdict>): (h: Option<RunEnd>)
    ensures h == Some(Hung) <==> end == Spinning
    ensures h == Some(Crashed) <==> end != Spinning && (end == ReadRaised || v == Some(Raises))
    ensures h != Some(GameOver)
  {
    if end == Spinning then Some(Hung)
    else if end == ReadRaised || v == Some(Raises) then Some(Crashed)
    else None
  }

  class PlayerHost {
    /** A set-up prompt has been written and waits for its reply. */
    var setupPending: bool
    /** A move prompt has been written and waits for its reply. */
    var movePending: bool
    var receivedHandshake: bool
    var name: Option<Json>
    var punterId: Option<int>
    /** The reading side of the player's output, shared by all its processes. */
    const pipe: FileEndpoint

    /** Joining the arena as the host is made: the id is the arena's answer. */
    constructor (arena: Referee)
      requires arena.Valid()
      modifies arena
      ensures fresh(pipe) && pipe.State() == Unread && pipe.input == []
      ensures !setupPending && !movePending && !receivedHandshake && name == None
      ensures arena.Valid() && arena.rivers == old(arena.rivers) && arena.turn == old(arena.turn)
      ensures arena.outbox == old(arena.outbox) && arena.log == old(arena.log)
      ensures old(arena.joined) == Cap ==> punterId == None && arena.joined == Cap
      ensures old(arena.joined) < Cap ==> punterId == Some(old(arena.joined)) && arena.joined == old(arena.joined) + 1
    {
      pipe := new FileEndpoint([]);
      setupPending := false;
      movePending := false;
      receivedHandshake := false;
      name := None;
      new;
      punterId := arena.Join();
    }

    /**
     * `_handle_message`. A pending prompt is settled whatever its reply;
     * an accepted reply is passed to the arena with the state it carries;
     * the handshake is taken once per process. Errors are only logged.
     */
    method HandleMessage(message: Json, arena: Referee) returns (v: Verdict)
      requires arena.Valid() && arena.joined == Cap
      modifies this, arena
      ensures v == Reply(message, old(setupPending), old(movePending), old(receivedHandshake), punterId)
      ensures punterId == old(punterId)
      ensures arena.Valid() && arena.joined == Cap && arena.turn == old(arena.turn) && arena.outbox == old(arena.outbox)
      ensures old(setupPending) ==> !setupPending && movePending == old(movePending) && receivedHandshake == old(receivedHandshake)
      ensures old(setupPending) && v == Fine ==> arena.states == old(arena.states)[old(arena.turn) % Cap := StateIn(message)]
      ensures old(setupPending) && v != Fine ==> arena.states == old(arena.states)
      ensures old(setupPending) ==> arena.rivers == old(arena.rivers) && arena.log == old(arena.log)
      ensures !old(setupPending) && old(movePending) ==> !setupPending && !movePending && receivedHandshake == old(receivedHandshake)
      ensures !old(setupPending) && old(movePending) && (v.PassBy? || v.ClaimBy?) ==>
        arena.states == old(arena.states)[old(arena.turn) % Cap := StateIn(message)]
      ensures !old(setupPending) && old(movePending) && v.PassBy? ==> arena.rivers == old(arena.rivers) && arena.log == old(arena.log)
      ensures !old(setupPending) && old(movePending) && v.ClaimBy? ==>
        arena.rivers == Claimed(old(arena.rivers), v.punter, v.source, v.target) && arena.log == old(arena.log) + [message]
      ensures !old(setupPending) && old(movePending) && !v.PassBy? && !v.ClaimBy? ==>
        arena.states == old(arena.states) && arena.rivers == old(arena.rivers) && arena.log == old(arena.log)
      ensures !old(setupPending) && !old(movePending) ==>
        !setupPending && !movePending && receivedHandshake &&
        arena.states == old(arena.states) && arena.rivers == old(arena.rivers) && arena.log == old(arena.log)
      ensures !old(setupPending) && !old(movePending) && !old(receivedHandshake) && message.JDict? ==>
        name == Lookup(message.fields, "me")
      ensures |arena.rivers| == |old(arena.rivers)|
      ensures arena.start == old(arena.start)
      ensures !old(setupPending) && old(movePending) && v.ClaimBy? ==>
        arena.filings == old(arena.filings) + [Filing(arena.turn, v.punter, v.source, v.target)]
      ensures old(setupPending) || !old(movePending) || !v.ClaimBy? ==> arena.filings == old(arena.filings)
      ensures FiledBy(old(arena.filings), arena.filings, punterId, arena.turn)
    {
      if setupPending {
        setupPending := false;
        v := ReadyVerdict(message, punterId);
        if v == Fine {
          arena.Ready(StateIn(message));
        }
        return;
      }
      if movePending {
        movePending := false;
        v := MoveVerdict(message, punterId);
        if v.PassBy? {
          arena.DoneMove(message, None, StateIn(message));
        } else if v.ClaimBy? {
          arena.DoneMove(message, Some((v.punter, v.source, v.target)), StateIn(message));
        }
        return;
      }
      if !receivedHandshake {
        receivedHandshake := true;
        v := HandshakeVerdict(message);
        if message.JDict? {
          name := Lookup(message.fields, "me");
        }
        return;
      }
      v := Refused(OutOfTurn);
    }

    /** One `_read` from the pipe, and the message it yields handled. */
    method Listen(arena: Referee, parse: string -> Option<Json>) returns (end: ReadEnd, v: Option<Verdict>)
      requires WellSet(pipe.State()) && arena.Valid() && arena.joined == Cap
      modifies this, pipe, arena
      ensures WellSet(pipe.State())
      ensures (pipe.State(), pipe.input, end) == ReadOf(old(pipe.State()), old(pipe.input), parse)
      ensures v.Some? <==> end.Got?
      ensures end.Got? ==> v.value == Reply(end.message, old(setupPending), old(movePending), old(receivedHandshake), punterId)
      ensures !end.Got? ==> setupPending == old(setupPending) && movePending == old(movePending) && receivedHandshake == old(receivedHandshake)
      ensures !end.Got? ==> arena.states == old(arena.states) && arena.rivers == old(arena.rivers) && arena.log == old(arena.log)
      ensures punterId == old(punterId)
      ensures arena.Valid() && arena.joined == Cap && arena.turn == old(arena.turn) && arena.outbox == old(arena.outbox)
      ensures |arena.rivers| == |old(arena.rivers)|
      ensures arena.start == old(arena.start) && FiledBy(old(arena.filings), arena.filings, punterId, arena.turn)
      ensures !end.Got? ==> arena.filings == old(arena.filings)
    {
      end := pipe.Read(parse);
      v := None;
      if end.Got? {
        var verdict := HandleMessage(end.message, arena);
        v := Some(verdict);
      }
    }

    /**
     * `prompt_setup_soon` (`setup`) or `prompt_move_soon`: a fresh process
     * whose output is `output`; its handshake is read, the prompt is
     * marked pending, and one reply is read. The game ends here when a read
     * spins or raises, or the handler raises.
     */
    method Exchange(output: string, setup: bool, arena: Referee, parse: string -> Option<Json>) returns (halt: Option<RunEnd>)
      requires WellSet(pipe.State()) && arena.Valid() && arena.joined == Cap
      modifies this, pipe, arena
      ensures WellSet(pipe.State()) && punterId == old(punterId)
      ensures arena.Valid() && arena.joined == Cap && arena.turn == old(arena.turn) && arena.outbox == old(arena.outbox)
      ensures |arena.rivers| == |old(arena.rivers)|
      ensures halt != Some(GameOver)
      ensures arena.start == old(arena.start) && FiledBy(old(arena.filings), arena.filings, punterId, arena.turn)
    {
      receivedHandshake := false;
      pipe.Launch(output);
      var end, v := Listen(arena, parse);
      halt := Halt(end, v);
      if halt.Some? {
        return;
      }
      if setup {
        setupPending := true;
      } else {
        movePending := true;
      }
      ghost var filed := arena.filings;
      end, v := Listen(arena, parse);
      halt := Halt(end, v);
      FiledByTrans(old(arena.filings), filed, arena.filings, punterId, arena.turn);
    }
  }

  /**
   * A prompt whose reply never came leaves its flag set, and the flag
   * outlives the process: the next process's handshake is taken as that
   * reply and refused, and it settles the stale prompt.
   */
  lemma StaleSetupTakesHandshake(name: Json, id: Option<int>)
    requires name != JNull
    ensures Reply(JDict(map["me" := name]), true, false, false, id) == Refused(BadReady)
    ensures HandshakeVerdict(JDict(map["me" := name])) == HelloFrom(name)
  {
    assert Lookup(map["me" := name], "ready") == None;
  }

  // ---------------------------------------------------------------------
  // The referee

  /** What the referee hands a player's host: a set-up, or a move prompt with the moves and the player's state. */
  datatype Prompt = Setup(punter: int, punters: int) | Move(to: int, moves: seq<Json>, state: Json)

  /** Prompt `t` of a game: the set-up of player `t` for the first five, then a move prompt to player `t % 5` with at most four moves. */
  predicate Issued(t: nat, p: Prompt)
  {
    if t < Cap then p == Setup(t, Cap) else p.Move? && p.to == t % Cap && |p.moves| < Cap
  }

  /** The hosts of a game: host `i` joined as player `i`, each with a pipe of its own. */
  function Seats(hosts: seq<PlayerHost>): set<object>
  {
    set i | 0 <= i < |hosts| :: hosts[i]
  }

  function Pipes(hosts: seq<PlayerHost>): set<object>
  {
    set i | 0 <= i < |hosts| :: hosts[i].pipe
  }

  ghost predicate Seated(hosts: seq<PlayerHost>)
    reads Seats(hosts), Pipes(hosts)
  {
    |hosts| == Cap &&
    (forall i :: 0 <= i < Cap ==> hosts[i].punterId == Some(i) && WellSet(hosts[i].pipe.State())) &&
    (forall i, j :: 0 <= i < j < Cap ==> hosts[i].pipe != hosts[j].pipe)
  }

  /** A claim filed with the referee: the turn it was filed in, and its punter and ends. */
  datatype Filing = Filing(turn: nat, punter: int, source: int, target: int)

  /** The rivers after every filing, in order, each passed through `Claimed`. */
  function ClaimedAll(rivers: seq<Owned>, filings: seq<Filing>): (out: seq<Owned>)
    ensures |out| == |rivers|
  {
    if filings == [] then rivers
    else
      var f := filings[|filings| - 1];
      Claimed(ClaimedAll(rivers, filings[..|filings| - 1]), f.punter, f.source, f.target)
  }

  /** One filing more is one claim more. */
  lemma ClaimedAllSnoc(rivers: seq<Owned>, filings: seq<Filing>, f: Filing)
    ensures ClaimedAll(rivers, filings + [f]) == Claimed(ClaimedAll(rivers, filings), f.punter, f.source, f.target)
  {
    assert (filings + [f])[..|filings|] == filings;
  }

  /** `after` extends `before` with filings made by `punter` in turn `turn` only. */
  predicate FiledBy(before: seq<Filing>, after: seq<Filing>, punter: Option<int>, turn: nat)
  {
    before <= after && forall i :: |before| <= i < |after| ==> Some(after[i].punter) == punter && after[i].turn == turn
  }

  lemma FiledByTrans(a: seq<Filing>, b: seq<Filing>, c: seq<Filing>, punter: Option<int>, turn: nat)
    requires FiledBy(a, b, punter, turn) && FiledBy(b, c, punter, turn)
    ensures FiledBy(a, c, punter, turn)
  {
    forall i | |a| <= i < |c| ensures Some(c[i].punter) == punter && c[i].turn == turn {
      if i < |b| {
        assert c[i] == b[i];
      }
    }
  }

  /** From `from` on, every filing was made by the punter whose turn it was, no later than `turn`. */
  ghost predicate InTurn(filings: seq<Filing>, from: nat, turn: nat)
  {
    from <= |filings| &&
    forall i :: from <= i < |filings| ==> filings[i].punter == filings[i].turn % Cap && filings[i].turn <= turn
  }

  /** What one turn's host files keeps every filing in its turn. */
  lemma InTurnStep(before: seq<Filing>, after: seq<Filing>, from: nat, turn: nat)
    requires InTurn(before, from, turn) && FiledBy(before, after, Some(turn % Cap), turn)
    ensures InTurn(after, from, turn) && InTurn(after, from, turn + 1)
  {
    forall i | from <= i < |after| ensures after[i].punter == after[i].turn % Cap && after[i].turn <= turn {
      if i < |before| {
        assert after[i] == before[i];
      }
    }
  }

  /** The class `Arena` of the offline referee. */
  class Referee {
    /** The players joined so far; their ids are 0, 1, … in that order. */
    var joined: nat
    var rivers: seq<Owned>
    var turn: nat
    /** The deque of the latest claims. */
    var window: seq<Json>
    /** The state each player last handed back, by id. */
    var states: seq<Json>
    /** Every prompt handed to a host, in order. */
    var outbox: seq<Prompt>
    /** Every claim filed. */
    ghost var log: seq<Json>
    /** The rivers as the map gave them, and every claim filed since, with its turn. */
    ghost var start: seq<Owned>
    ghost var filings: seq<Filing>

    /** At most five players, each with a state; rivers smaller end first; the deque the five latest claims. */
    ghost predicate Valid()
      reads this
    {
      joined <= Cap && |states| == joined && Normalized(rivers) && window == Latest(log, Cap) &&
      |filings| == |log| && rivers == ClaimedAll(start, filings)
    }

    constructor (m: GameMap)
      ensures Valid() && joined == 0 && turn == 0 && outbox == [] && log == [] && filings == [] && start == rivers
      ensures |rivers| == |m.rivers| && forall i :: 0 <= i < |m.rivers| ==> rivers[i] == Oriented(m.rivers[i])
    {
      var map_ := MapOf(m);
      joined := 0;
      rivers := map_.rivers;
      turn := 0;
      window := [];
      states := [];
      outbox := [];
      log := [];
      start := rivers;
      filings := [];
    }

    /** `join`: the next id with a null state, or `None` once five have joined. */
    method Join() returns (id: Option<int>)
      requires Valid()
      modifies this
      ensures Valid() && rivers == old(rivers) && turn == old(turn) && outbox == old(outbox) && log == old(log)
      ensures start == old(start) && filings == old(filings)
      ensures old(joined) == Cap ==> id == None && joined == Cap && states == old(states)
      ensures old(joined) < Cap ==> id == Some(old(joined)) && joined == old(joined) + 1 && states == old(states) + [JNull]
    {
      if joined == Cap {
        return None;
      }
      id := Some(joined);
      joined := joined + 1;
      states := states + [JNull];
    }

    /** `ready`: the state of the player whose turn it is. */
    method Ready(state: Json)
      requires Valid() && joined == Cap
      modifies this
      ensures Valid() && joined == Cap && states == old(states)[turn % Cap := state]
      ensures rivers == old(rivers) && turn == old(turn) && window == old(window) && outbox == old(outbox) && log == old(log)
      ensures start == old(start) && filings == old(filings)
    {
      states := states[turn % Cap := state];
    }

    /** `done_move`: the player's new state is kept; a claim (punter, source, target) passes to `Claimed` and joins the deque. */
    method DoneMove(message: Json, claim: Option<(int, int, int)>, newState: Json)
      requires Valid() && joined == Cap
      modifies this
      ensures Valid() && joined == Cap && states == old(states)[turn % Cap := newState]
      ensures turn == old(turn) && outbox == old(outbox)
      ensures claim.None? ==> rivers == old(rivers) && window == old(window) && log == old(log)
      ensures claim.Some? ==> rivers == Claimed(old(rivers), claim.value.0, claim.value.1, claim.value.2)
      ensures claim.Some? ==> log == old(log) + [message]
      ensures start == old(start)
      ensures claim.None? ==> filings == old(filings)
      ensures claim.Some? ==> filings == old(filings) + [Filing(turn, claim.value.0, claim.value.1, claim.value.2)]
    {
      states := states[turn % Cap := newState];
      if claim.Some? {
        var f := Filing(turn, claim.value.0, claim.value.1, claim.value.2);
        ClaimedAllSnoc(start, filings, f);
        ClaimRiver(claim.value.0, claim.value.1, claim.value.2);
        Record(message);
        filings := filings + [f];
      }
    }

    /** The claim loop: every river whose ends are (source, target) in that order goes to `punter`. */
    method ClaimRiver(punter: int, source: int, target: int)
      requires Normalized(rivers)
      modifies this
      ensures rivers == Claimed(old(rivers), punter, source, target) && Normalized(rivers)
      ensures joined == old(joined) && turn == old(turn) && window == old(window) && log == old(log)
      ensures states == old(states) && outbox == old(outbox) && start == old(start) && filings == old(filings)
    {
      var i := 0;
      while i < |rivers|
        invariant 0 <= i <= |rivers| && |rivers| == |old(rivers)|
        invariant forall j :: 0 <= j < i ==> rivers[j] == ClaimOn(old(rivers)[j], punter, source, target)
        invariant forall j :: i <= j < |rivers| ==> rivers[j] == old(rivers)[j]
        invariant joined == old(joined) && turn == old(turn) && window == old(window) && log == old(log)
        invariant states == old(states) && outbox == old(outbox) && start == old(start) && filings == old(filings)
      {
        var river := rivers[i];
        if river.source == source && river.target == target {
          rivers := rivers[i := Owned(river.source, river.target, Some(punter))];
        }
        i := i + 1;
      }
    }

    /** The claim joins the deque, which keeps its five latest. */
    method Record(message: Json)
      requires window == Latest(log, Cap)
      modifies this
      ensures log == old(log) + [message] && window == Latest(log, Cap)
      ensures joined == old(joined) && rivers == old(rivers) && turn == old(turn)
      ensures states == old(states) && outbox == old(outbox) && start == old(start) && filings == old(filings)
    {
      PushedLatest(log, message);
      window := window + [message];
      if |window| > Cap {
        window := window[1..];
      }
      log := log + [message];
    }

    /** The moves a prompt carries: the deque, less its oldest claim when it is full. */
    method RetainedMoves() returns (moves: seq<Json>)
      requires |window| <= Cap
      ensures moves == Retained(window) && |moves| < Cap
    {
      moves := [];
      var start := if |window| == Cap then 1 else 0;
      for i := start to |window|
        invariant moves == window[start..i]
      {
        assert window[start..i + 1] == window[start..i] + [window[i]];
        moves := moves + [window[i]];
      }
      assert window[start..|window|] == Retained(window);
    }

    /**
     * `run`: a set-up to each player in turn, then a move prompt per
     * turn until every river has had one. Each prompt is played out by the
     * host of the player whose turn it is, on the output `outputs(t)` of
     * the process run for prompt `t`; the game stops at the first prompt
     * whose exchange hangs or raises.
     */
    method Run(hosts: seq<PlayerHost>, outputs: nat -> string, parse: string -> Option<Json>) returns (end: RunEnd)
      requires Valid() && joined == Cap && turn == 0 && outbox == [] && Seated(hosts)
      modifies this, Seats(hosts), Pipes(hosts)
      ensures Valid() && joined == Cap && |rivers| == |old(rivers)| && Seated(hosts)
      ensures end == GameOver ==> turn == Cap + |rivers| && |outbox| == turn
      ensures end != GameOver ==> turn < Cap + |rivers| && |outbox| == turn + 1
      ensures forall t :: 0 <= t < |outbox| ==> Issued(t, outbox[t])
      ensures start == old(start) && old(filings) <= filings && InTurn(filings, |old(filings)|, turn)
    {
      var halt := SetUpAll(hosts, outputs, parse);
      if halt.Some? {
        return halt.value;
      }
      end := MoveAll(hosts, outputs, parse, |old(filings)|);
    }

    /** The set-up loop of `run`: one set-up per player, until one exchange ends the game. */
    method SetUpAll(hosts: seq<PlayerHost>, outputs: nat -> string, parse: string -> Option<Json>) returns (halt: Option<RunEnd>)
      requires Valid() && joined == Cap && turn == 0 && outbox == [] && Seated(hosts)
      modifies this, Seats(hosts), Pipes(hosts)
      ensures Valid() && joined == Cap && |rivers| == |old(rivers)| && Seated(hosts) && halt != Some(GameOver)
      ensures halt.None? ==> turn == Cap && |outbox| == turn
      ensures halt.Some? ==> turn < Cap && |outbox| == turn + 1
      ensures forall t :: 0 <= t < |outbox| ==> Issued(t, outbox[t])
      ensures start == old(start) && old(filings) <= filings && InTurn(filings, |old(filings)|, turn)
    {
      for i := 0 to Cap
        invariant turn == i && |outbox| == turn
        invariant Valid() && joined == Cap && |rivers| == |old(rivers)| && Seated(hosts)
        invariant forall t :: 0 <= t < |outbox| ==> Issued(t, outbox[t])
        invariant start == old(start) && old(filings) <= filings && InTurn(filings, |old(filings)|, turn)
      {
        ghost var before := filings;
        halt := SetupStep(hosts, outputs, parse);
        InTurnStep(before, filings, |old(filings)|, i);
        if halt.Some? {
          return;
        }
      }
      halt := None;
    }

    /** The move loop of `run`: a prompt per turn until every river has had one, or an exchange ends the game. */
    method MoveAll(hosts: seq<PlayerHost>, outputs: nat -> string, parse: string -> Option<Json>, ghost from: nat) returns (end: RunEnd)
      requires Valid() && joined == Cap && turn == Cap && |outbox| == turn && Seated(hosts)
      requires forall t :: 0 <= t < |outbox| ==> Issued(t, outbox[t])
      requires InTurn(filings, from, turn)
      modifies this, Seats(hosts), Pipes(hosts)
      ensures Valid() && joined == Cap && |rivers| == |old(rivers)| && Seated(hosts)
      ensures end == GameOver ==> turn == Cap + |rivers| && |outbox| == turn
      ensures end != GameOver ==> turn < Cap + |rivers| && |outbox| == turn + 1
      ensures forall t :: 0 <= t < |outbox| ==> Issued(t, outbox[t])
      ensures start == old(start) && old(filings) <= filings && InTurn(filings, from, turn)
    {
      while turn != Cap + |rivers|
        invariant Cap <= turn <= Cap + |rivers| && |outbox| == turn
        invariant Valid() && joined == Cap && |rivers| == |old(rivers)| && Seated(hosts)
        invariant forall t :: 0 <= t < |outbox| ==> Issued(t, outbox[t])
        invariant start == old(start) && old(filings) <= filings && InTurn(filings, from, turn)
        decreases Cap + |rivers| - turn
      {
        ghost var before := filings;
        ghost var t := turn;
        var halt := MoveStep(hosts, outputs, parse);
        InTurnStep(before, filings, from, t);
        if halt.Some? {
          return halt.value;
        }
      }
      end := GameOver;
    }

    /** One turn of the set-up loop: the set-up for player `turn % 5`, played out by that player's host. */
    method SetupStep(hosts: seq<PlayerHost>, outputs: nat -> string, parse: string -> Option<Json>) returns (halt: Option<RunEnd>)
      requires Valid() && joined == Cap && Seated(hosts)
      modifies this, Seats(hosts), Pipes(hosts)
      ensures Valid() && joined == Cap && |rivers| == |old(rivers)| && Seated(hosts) && halt != Some(GameOver)
      ensures outbox == old(outbox) + [Setup(old(turn) % Cap, Cap)]
      ensures turn == if halt.None? then old(turn) + 1 else old(turn)
      ensures start == old(start) && FiledBy(old(filings), filings, Some(old(turn) % Cap), old(turn))
    {
      outbox := outbox + [Setup(turn % Cap, Cap)];
      halt := Play(hosts, outputs(turn), true, parse);
    }

    /** One turn of the move loop: a move prompt to player `turn % 5` with the retained claims and its state. */
    method MoveStep(hosts: seq<PlayerHost>, outputs: nat -> string, parse: string -> Option<Json>) returns (halt: Option<RunEnd>)
      requires Valid() && joined == Cap && Seated(hosts)
      modifies this, Seats(hosts), Pipes(hosts)
      ensures Valid() && joined == Cap && |rivers| == |old(rivers)| && Seated(hosts) && halt != Some(GameOver)
      ensures outbox == old(outbox) + [Move(old(turn) % Cap, Latest(old(log), Cap - 1), old(states)[old(turn) % Cap])]
      ensures turn == if halt.None? then old(turn) + 1 else old(turn)
      ensures start == old(start) && FiledBy(old(filings), filings, Some(old(turn) % Cap), old(turn))
    {
      var moves := RetainedMoves();
      RetainedLatest(log);
      outbox := outbox + [Move(turn % Cap, moves, states[turn % Cap])];
      halt := Play(hosts, outputs(turn), false, parse);
    }

    /** The prompt handed over is played out by the host of the player whose turn it is; the turn passes unless the game ended. */
    method Play(hosts: seq<PlayerHost>, output: string, setup: bool, parse: string -> Option<Json>) returns (halt: Option<RunEnd>)
      requires Valid() && joined == Cap && Seated(hosts)
      modifies this, Seats(hosts), Pipes(hosts)
      ensures Valid() && joined == Cap && |rivers| == |old(rivers)| && Seated(hosts) && halt != Some(GameOver)
      ensures outbox == old(outbox)
      ensures turn == if halt.None? then old(turn) + 1 else old(turn)
      ensures start == old(start) && FiledBy(old(filings), filings, Some(old(turn) % Cap), old(turn))
    {
      var k := turn % Cap;
      var host := hosts[k];
      assert host in Seats(hosts) && host.pipe in Pipes(hosts);
      halt := host.Exchange(output, setup, this, parse);
      assert Seated(hosts) by {
        forall j | 0 <= j < Cap
          ensures hosts[j].punterId == Some(j) && WellSet(hosts[j].pipe.State())
        {
          if j != k {
            assert hosts[j] != host && hosts[j].pipe != host.pipe;
          }
        }
      }
      if halt.None? {
        turn := turn + 1;
      }
    }
  }
}
