/**
 * The online referee: five players join over sockets, are sent their
 * set-up one after the other, then are prompted for a move in turn, each
 * prompt carrying the latest moves of the others, until every river has
 * had its turn. Messages travel as frames `<length>:<json text>`.
 *
 * JSON texts are taken as already written (`json.dumps` writes ASCII
 * only, so a text's length in characters is its length in bytes); parsing
 * one is the parameter `parse`. Sockets, threads, the lock and timers are
 * not part of this model: a player's handler is told of its prompts and
 * timeouts by calls.
 */
module Arena {
  import opened Wrappers
  import opened GameData
  import opened MoveKey
  import opened PyBuiltins

  /** The number of players in a game. */
  const Cap := 5

  // ---------------------------------------------------------------------
  // Frames

  /** `serialize`: the length of the JSON text in decimal, a ':', then the text. */
  function Serialize(text: string): (frame: string)
  {
    Show(|text|) + ":" + text
  }

  /** The frame parser's state: the bytes received, where the ':' is (-1: not yet found), the length read. */
  datatype Parser = Parser(buffer: string, colonPos: int, nextLength: Option<int>)

  /** A connection's parser before anything has arrived, and after every message. */
  const Fresh := Parser([], -1, None)

  /** Why a message or a frame is refused. */
  datatype Why = EmptyLength | BadLength | BadMessage | BadReady | BadMove | BadHandshake | OutOfTurn

  /**
   * What one pass of the receive loop comes to: wait for more bytes, a
   * message, a refusal, or an exception `int()` raised on the length.
   */
  datatype Outcome = Waiting | Received(message: Json) | Rejected(why: Why) | Raised

  /**
   * One pass of `_recv`'s loop on the bytes `data` just received: find the
   * ':', read and check the length before it, and once the whole payload
   * is there parse it and keep what follows.
   */
  function FeedOf(p: Parser, data: string, parse: string -> Option<Json>): (Parser, Outcome)
  {
    var buffer := p.buffer + data;
    if p.nextLength.None? then Header(buffer, p.colonPos, parse)
    else Payload(Parser(buffer, p.colonPos, p.nextLength), parse)
  }

  /** The header step, no length read yet: find the ':' (unless already found), then read the length. */
  function Header(buffer: string, colonPos: int, parse: string -> Option<Json>): (Parser, Outcome)
  {
    var colon := if colonPos == -1 then Find(buffer, ':') else colonPos;
    if colon == -1 then (Parser(buffer, -1, None), Waiting)
    else if colon == 0 then (Parser(buffer, 0, None), Rejected(EmptyLength))
    else Length(buffer, colon, parse)
  }

  /**
   * The length before the ':' at `colon`: `int()` must read it, and it
   * must be written as `str()` writes that number; then the payload step.
   */
  function Length(buffer: string, colon: int, parse: string -> Option<Json>): (Parser, Outcome)
  {
    var lengthText := PySlice(buffer, 0, colon);
    match PyInt(lengthText)
    case None => (Parser(buffer, colon, None), Raised)
    case Some(n) =>
      if Show(n) != lengthText then (Parser(buffer, colon, Some(n)), Rejected(BadLength))
      else Payload(Parser(buffer, colon, Some(n)), parse)
  }

  /** The payload step: wait for `nextLength` bytes after the ':', parse them, keep the rest. */
  function Payload(p: Parser, parse: string -> Option<Json>): (Parser, Outcome)
    requires p.nextLength.Some?
  {
    var start := p.colonPos + 1;
    var end := p.colonPos + 1 + p.nextLength.value;
    if |p.buffer| < end then (p, Waiting)
    else match parse(PySlice(p.buffer, start, end))
      case None => (p, Rejected(BadMessage))
      case Some(m) => (Parser(PySlice(p.buffer, end, |p.buffer|), -1, None), Received(m))
  }

  /**
   * The loop of `_recv` over the chunks the socket yields: each chunk is
   * added to the buffer and at most one message taken out; the loop ends
   * on a refusal or an exception, or when the socket has nothing more.
   */
  function Deliver(p: Parser, chunks: seq<string>, parse: string -> Option<Json>): (Parser, seq<Json>, Outcome)
    decreases |chunks|
  {
    if chunks == [] then (p, [], Waiting)
    else
      var step := FeedOf(p, chunks[0], parse);
      if step.1.Waiting? then Deliver(step.0, chunks[1..], parse)
      else if step.1.Received? then
        var d := Deliver(step.0, chunks[1..], parse);
        (d.0, [step.1.message] + d.1, d.2)
      else (step.0, [], step.1)
  }

  /** The parser after the first `k` bytes of the frame of `text`, `k` short of the whole frame. */
  function Pending(text: string, k: nat): Parser
    requires k <= |Serialize(text)|
  {
    var head := Show(|text|);
    var frame := Serialize(text);
    if k <= |head| then Parser(frame[..k], -1, None)
    else Parser(frame[..k], |head|, Some(|text|))
  }

  /** The ':' of a frame comes right after the length, and nowhere before. */
  lemma ColonAt(text: string, buffer: string)
    requires |buffer| > |Show(|text|)| && buffer[..|Show(|text|)| + 1] == Show(|text|) + ":"
    ensures Find(buffer, ':') == |Show(|text|)|
    ensures PySlice(buffer, 0, |Show(|text|)|) == Show(|text|)
  {
    var head := Show(|text|);
    ShowNoColon(|text|);
    assert buffer[..|head|] == head;
    assert buffer[|head|] == ':';
  }

  /** Before the ':' has arrived the parser only waits. */
  lemma HeaderIncomplete(text: string, buffer: string, parse: string -> Option<Json>)
    requires |buffer| <= |Show(|text|)| && buffer == Show(|text|)[..|buffer|]
    ensures Header(buffer, -1, parse) == (Parser(buffer, -1, None), Waiting)
  {
    ShowNoColon(|text|);
    assert ':' !in buffer by {
      forall k | 0 <= k < |buffer|
        ensures buffer[k] != ':'
      {
        assert buffer[k] == Show(|text|)[k];
      }
    }
  }

  /** Once the ':' of a frame has arrived, its length is read and accepted, and the payload step follows. */
  lemma HeaderComplete(text: string, buffer: string, parse: string -> Option<Json>)
    requires |buffer| > |Show(|text|)| && buffer[..|Show(|text|)| + 1] == Show(|text|) + ":"
    ensures Header(buffer, -1, parse) == Payload(Parser(buffer, |Show(|text|)|, Some(|text|)), parse)
  {
    ColonAt(text, buffer);
    PyIntShow(|text|);
  }

  /** More bytes of a frame, still short of its end: the parser waits, holding all it has. */
  lemma FeedWaits(text: string, k: nat, c: string, parse: string -> Option<Json>)
    requires c != [] && k + |c| < |Serialize(text)| && c == Serialize(text)[k..k + |c|]
    ensures FeedOf(Pending(text, k), c, parse) == (Pending(text, k + |c|), Waiting)
  {
    var head := Show(|text|);
    var frame := Serialize(text);
    var buffer := frame[..k] + c;
    assert buffer == frame[..k + |c|];
    if k + |c| <= |head| {
      assert buffer == head[..k + |c|];
      HeaderIncomplete(text, buffer, parse);
    } else if k <= |head| {
      assert buffer[..|head| + 1] == head + ":";
      HeaderComplete(text, buffer, parse);
    }
  }

  /** A whole frame in the buffer, its length read: its message is handed on and the rest kept. */
  lemma PayloadComplete(text: string, buffer: string, rest: string, parse: string -> Option<Json>)
    requires buffer == Serialize(text) + rest && parse(text).Some?
    ensures Payload(Parser(buffer, |Show(|text|)|, Some(|text|)), parse) == (Parser(rest, -1, None), Received(parse(text).value))
  {
    var head := Show(|text|);
    assert buffer[|head| + 1..|head| + 1 + |text|] == text;
    assert buffer[|head| + 1 + |text|..|buffer|] == rest;
  }

  /** The last bytes of a frame, and maybe more: the parser hands the message on and keeps the rest. */
  lemma FeedCompletes(text: string, k: nat, c: string, rest: string, parse: string -> Option<Json>)
    requires k < |Serialize(text)| && c == Serialize(text)[k..] + rest && parse(text).Some?
    ensures FeedOf(Pending(text, k), c, parse) == (Parser(rest, -1, None), Received(parse(text).value))
  {
    var head := Show(|text|);
    var frame := Serialize(text);
    var buffer := frame[..k] + c;
    assert buffer == frame + rest;
    PayloadComplete(text, buffer, rest, parse);
    if k <= |head| {
      assert buffer[..|head| + 1] == head + ":";
      HeaderComplete(text, buffer, parse);
      assert FeedOf(Pending(text, k), c, parse) == Header(buffer, -1, parse);
    }
  }

  /** A frame arriving whole on a fresh connection is read back as its message; what follows stays buffered. */
  lemma FrameRoundTrip(text: string, rest: string, parse: string -> Option<Json>)
    requires parse(text).Some?
    ensures FeedOf(Fresh, Serialize(text) + rest, parse) == (Parser(rest, -1, None), Received(parse(text).value))
  {
    assert Pending(text, 0) == Fresh;
    assert Serialize(text)[0..] == Serialize(text);
    FeedCompletes(text, 0, Serialize(text) + rest, rest, parse);
  }

  /** The bytes of all the chunks, in order. */
  function Joined(chunks: seq<string>): string
  {
    if chunks == [] then [] else chunks[0] + Joined(chunks[1..])
  }

  /** One step of `Deliver`: the first chunk fed, then on as `Deliver` says. */
  lemma DeliverStep(p: Parser, chunks: seq<string>, parse: string -> Option<Json>)
    requires chunks != []
    ensures var step := FeedOf(p, chunks[0], parse);
      var d := Deliver(step.0, chunks[1..], parse);
      Deliver(p, chunks, parse) ==
        if step.1.Waiting? then d
        else if step.1.Received? then (d.0, [step.1.message] + d.1, d.2)
        else (step.0, [], step.1)
  {
  }

  /** The first step of `Deliver` when the chunk leaves the parser waiting. */
  lemma DeliverWaits(p: Parser, chunks: seq<string>, parse: string -> Option<Json>)
    requires chunks != [] && FeedOf(p, chunks[0], parse).1 == Waiting
    ensures Deliver(p, chunks, parse) == Deliver(FeedOf(p, chunks[0], parse).0, chunks[1..], parse)
  {
  }

  /** The first step of `Deliver` when the chunk completes a message. */
  lemma DeliverReceives(p: Parser, chunks: seq<string>, parse: string -> Option<Json>)
    requires chunks != [] && FeedOf(p, chunks[0], parse).1.Received?
    ensures var step := FeedOf(p, chunks[0], parse);
      var d := Deliver(step.0, chunks[1..], parse);
      Deliver(p, chunks, parse) == (d.0, [step.1.message] + d.1, d.2)
  {
  }

  /** How a frame cut at `k` continues: the next chunk, then the rest. */
  lemma CutFrame(frame: string, k: nat, chunks: seq<string>)
    requires k <= |frame| && chunks != [] && frame[..k] + Joined(chunks) == frame
    ensures k + |chunks[0]| <= |frame|
    ensures chunks[0] == frame[k..k + |chunks[0]|]
    ensures frame[..k + |chunks[0]|] + Joined(chunks[1..]) == frame
  {
    var c := chunks[0];
    assert Joined(chunks) == c + Joined(chunks[1..]);
    assert frame[..k] + c + Joined(chunks[1..]) == frame;
    assert (frame[..k] + c + Joined(chunks[1..]))[k..k + |c|] == c;
    assert frame[..k + |c|] == frame[..k] + c;
  }

  /**
   * However a frame is cut into chunks, the receive loop delivers its
   * message exactly once, after the last chunk, and is fresh again.
   */
  lemma {:induction false} DeliverChunked(text: string, k: nat, chunks: seq<string>, parse: string -> Option<Json>)
    requires parse(text).Some? && k < |Serialize(text)|
    requires forall i :: 0 <= i < |chunks| ==> chunks[i] != []
    requires Serialize(text)[..k] + Joined(chunks) == Serialize(text)
    ensures Deliver(Pending(text, k), chunks, parse) == (Fresh, [parse(text).value], Waiting)
    decreases |chunks|
  {
    var frame := Serialize(text);
    if chunks == [] {
      assert false;
    } else {
      var c := chunks[0];
      CutFrame(frame, k, chunks);
      if k + |c| < |frame| {
        FeedWaits(text, k, c, parse);
        DeliverWaits(Pending(text, k), chunks, parse);
        DeliverChunked(text, k + |c|, chunks[1..], parse);
      } else {
        assert |Joined(chunks[1..])| == 0;
        assert chunks[1..] == [];
        assert c == frame[k..] + [];
        FeedCompletes(text, k, c, [], parse);
        DeliverReceives(Pending(text, k), chunks, parse);
        assert Deliver(Fresh, chunks[1..], parse) == (Fresh, [], Waiting);
        assert [parse(text).value] + [] == [parse(text).value];
      }
    }
  }

  /** A single chunk that completes a message. */
  lemma DeliverOne(p: Parser, chunk: string, q: Parser, m: Json, parse: string -> Option<Json>)
    requires FeedOf(p, chunk, parse) == (q, Received(m))
    ensures Deliver(p, [chunk], parse) == (q, [m], Waiting)
  {
    assert [chunk][1..] == [];
    assert Deliver(q, [], parse) == (q, [], Waiting);
    DeliverReceives(p, [chunk], parse);
    assert [m] + [] == [m];
  }

  /** A chunk holding a whole frame and more: the frame's message is handed on, the rest buffered. */
  lemma OneChunk(text: string, rest: string, parse: string -> Option<Json>)
    requires parse(text).Some?
    ensures Deliver(Fresh, [Serialize(text) + rest], parse) == (Parser(rest, -1, None), [parse(text).value], Waiting)
  {
    FrameRoundTrip(text, rest, parse);
    DeliverOne(Fresh, Serialize(text) + rest, Parser(rest, -1, None), parse(text).value, parse);
  }

  /** Two frames in one chunk: only the first is handed on; the second waits in the buffer for more bytes. */
  lemma TwoFramesOneChunk(text: string, next: string, parse: string -> Option<Json>)
    requires parse(text).Some?
    ensures Deliver(Fresh, [Serialize(text) + Serialize(next)], parse) ==
      (Parser(Serialize(next), -1, None), [parse(text).value], Waiting)
  {
    OneChunk(text, Serialize(next), parse);
  }

  /** On a fresh connection the bytes received are the whole buffer, and the header step reads them. */
  lemma FreshFeed(data: string, parse: string -> Option<Json>)
    ensures FeedOf(Fresh, data, parse) == Header(data, -1, parse)
  {
    assert Fresh.buffer + data == data;
  }

  /** A ':' first is an empty length, refused. */
  lemma ColonFirst(rest: string, parse: string -> Option<Json>)
    ensures FeedOf(Fresh, ":" + rest, parse).1 == Rejected(EmptyLength)
  {
    FreshFeed(":" + rest, parse);
    assert Find(":" + rest, ':') == 0;
  }

  /** The header `lengthText` then ':' opens a fresh buffer: the length read is exactly `lengthText`. */
  lemma HeaderText(lengthText: string, rest: string)
    requires lengthText != [] && ':' !in lengthText
    ensures Find(lengthText + ":" + rest, ':') == |lengthText|
    ensures PySlice(lengthText + ":" + rest, 0, |lengthText|) == lengthText
  {
    var buffer := lengthText + ":" + rest;
    assert buffer[|lengthText|] == ':';
    assert buffer[..|lengthText|] == lengthText;
  }

  /** A length `int()` reads, but that `str()` would write otherwise, is refused. */
  lemma MiswrittenLength(lengthText: string, rest: string, parse: string -> Option<Json>)
    requires lengthText != [] && ':' !in lengthText
    requires PyInt(lengthText).Some? && Show(PyInt(lengthText).value) != lengthText
    ensures FeedOf(Fresh, lengthText + ":" + rest, parse).1 == Rejected(BadLength)
  {
    var buffer := lengthText + ":" + rest;
    HeaderText(lengthText, rest);
    FreshFeed(buffer, parse);
    assert Header(buffer, -1, parse) == Length(buffer, |lengthText|, parse);
  }

  /** A length `int()` cannot read makes it raise. */
  lemma UnreadableLength(lengthText: string, rest: string, parse: string -> Option<Json>)
    requires lengthText != [] && ':' !in lengthText && PyInt(lengthText).None?
    ensures FeedOf(Fresh, lengthText + ":" + rest, parse).1 == Raised
  {
    var buffer := lengthText + ":" + rest;
    HeaderText(lengthText, rest);
    FreshFeed(buffer, parse);
    assert Header(buffer, -1, parse) == Length(buffer, |lengthText|, parse);
  }

  /** "05" is read as 5, which `str()` writes as "5". */
  lemma ZeroFive()
    ensures PyInt("05") == Some(5) && Show(5) != "05"
  {
    PyIntUnsigned("05");
    assert DigitsValue("05") == 5;
  }

  /** A length with a leading zero, such as "05", is refused. */
  lemma LeadingZero(rest: string, parse: string -> Option<Json>)
    ensures FeedOf(Fresh, "05" + ":" + rest, parse).1 == Rejected(BadLength)
  {
    assert ':' !in "05" by {
      assert "05"[0] != ':' && "05"[1] != ':';
    }
    assert PyInt("05").Some? && Show(PyInt("05").value) != "05" by {
      ZeroFive();
    }
    MiswrittenLength("05", rest, parse);
  }

  /** "x" is no number. */
  lemma XIsNoNumber()
    ensures PyInt("x") == None
  {
    var x := "x";
    assert !GroupChar(x, 0);
    assert StripRight(StripLeft(x)) == x;
    assert Signed(x) == None;
  }

  /** A length that is no number makes `int()` raise. */
  lemma LengthNotANumber(rest: string, parse: string -> Option<Json>)
    ensures FeedOf(Fresh, "x" + ":" + rest, parse).1 == Raised
  {
    assert ':' !in "x" by {
      assert "x"[0] != ':';
    }
    assert PyInt("x").None? by {
      XIsNoNumber();
    }
    UnreadableLength("x", rest, parse);
  }

  class Endpoint {
    var buffer: string
    var colonPos: int
    var nextLength: Option<int>

    function State(): Parser
      reads this
    {
      Parser(buffer, colonPos, nextLength)
    }

    constructor ()
      ensures State() == Fresh
    {
      buffer := [];
      colonPos := -1;
      nextLength := None;
    }

    /** One pass of `_recv`'s loop, on the bytes `data` just received. */
    method Feed(data: string, parse: string -> Option<Json>) returns (o: Outcome)
      modifies this
      ensures (State(), o) == FeedOf(old(State()), data, parse)
    {
      buffer := buffer + data;
      if nextLength.None? {
        o := ReadHeader(parse);
      } else {
        o := ReadPayload(parse);
      }
    }

    /** The header step: find the ':', read and check the length, then go on to the payload. */
    method ReadHeader(parse: string -> Option<Json>) returns (o: Outcome)
      requires nextLength.None?
      modifies this
      ensures (State(), o) == Header(old(buffer), old(colonPos), parse)
    {
      if colonPos == -1 {
        colonPos := Find(buffer, ':');
      }
      if colonPos == -1 {
        return Waiting;
      }
      if colonPos == 0 {
        return Rejected(EmptyLength);
      }
      var lengthText := PySlice(buffer, 0, colonPos);
      var n := PyInt(lengthText);
      if n.None? {
        return Raised;
      }
      nextLength := n;
      if Show(n.value) != lengthText {
        return Rejected(BadLength);
      }
      o := ReadPayload(parse);
    }

    /** The payload step: once `nextLength` bytes follow the ':', parse them and keep the rest. */
    method ReadPayload(parse: string -> Option<Json>) returns (o: Outcome)
      requires nextLength.Some?
      modifies this
      ensures (State(), o) == Payload(old(State()), parse)
    {
      if |buffer| < colonPos + 1 + nextLength.value {
        return Waiting;
      }
      var start := colonPos + 1;
      var end := colonPos + 1 + nextLength.value;
      var message := parse(PySlice(buffer, start, end));
      if message.None? {
        return Rejected(BadMessage);
      }
      buffer := PySlice(buffer, end, |buffer|);
      colonPos := -1;
      nextLength := None;
      o := Received(message.value);
    }

    /** `_recv`: the chunks the socket yields, each fed in turn, until a refusal or an exception. */
    method Recv(chunks: seq<string>, parse: string -> Option<Json>) returns (got: seq<Json>, stop: Outcome)
      modifies this
      ensures (State(), got, stop) == Deliver(old(State()), chunks, parse)
    {
      got := [];
      var i := 0;
      assert chunks[0..] == chunks;
      assert Deliver(old(State()), chunks, parse).1 == got + Deliver(State(), chunks[0..], parse).1;
      while i < |chunks|
        invariant 0 <= i <= |chunks|
        invariant var d := Deliver(State(), chunks[i..], parse);
          Deliver(old(State()), chunks, parse) == (d.0, got + d.1, d.2)
      {
        assert chunks[i..][1..] == chunks[i + 1..];
        ghost var before := State();
        DeliverStep(before, chunks[i..], parse);
        var o := Feed(chunks[i], parse);
        if o.Rejected? || o.Raised? {
          assert Deliver(before, chunks[i..], parse) == (State(), [], o);
          assert got + [] == got;
          return got, o;
        }
        if o.Received? {
          var d := Deliver(State(), chunks[i + 1..], parse);
          assert got + ([o.message] + d.1) == (got + [o.message]) + d.1;
          got := got + [o.message];
        }
        i := i + 1;
      }
      assert chunks[i..] == [];
      assert Deliver(State(), [], parse) == (State(), [], Waiting);
      assert got + [] == got;
      stop := Waiting;
    }
  }

  // ---------------------------------------------------------------------
  // The map

  /** A river as the referee keeps it: its ends, smaller first, and its owner if claimed. */
  datatype Owned = Owned(source: int, target: int, owner: Option<int>)

  /** A river of the map data, its ends put in order, unclaimed. */
  function Oriented(r: River): (o: Owned)
    ensures o.source <= o.target && o.owner == None
    ensures multiset{o.source, o.target} == multiset{r.source, r.target}
  {
    if r.source > r.target then Owned(r.target, r.source, None) else Owned(r.source, r.target, None)
  }

  /** Every river has its smaller end first. */
  predicate Normalized(rivers: seq<Owned>)
  {
    forall i :: 0 <= i < |rivers| ==> rivers[i].source <= rivers[i].target
  }

  /** The referee's map: the site ids, the mines and the rivers. */
  datatype RefereeMap = RefereeMap(sites: seq<int>, mines: seq<int>, rivers: seq<Owned>)

  /** `Map`: every site by id, the mines as given, and every river oriented and unclaimed. */
  method MapOf(m: GameMap) returns (r: RefereeMap)
    ensures |r.sites| == |m.sites| && forall i :: 0 <= i < |m.sites| ==> r.sites[i] == m.sites[i].id
    ensures r.mines == m.mines
    ensures |r.rivers| == |m.rivers| && forall i :: 0 <= i < |m.rivers| ==> r.rivers[i] == Oriented(m.rivers[i])
    ensures Normalized(r.rivers)
  {
    var sites: seq<int> := [];
    for i := 0 to |m.sites|
      invariant |sites| == i && forall j :: 0 <= j < i ==> sites[j] == m.sites[j].id
    {
      sites := sites + [m.sites[i].id];
    }
    var rivers: seq<Owned> := [];
    for i := 0 to |m.rivers|
      invariant |rivers| == i && forall j :: 0 <= j < i ==> rivers[j] == Oriented(m.rivers[j])
    {
      var source := m.rivers[i].source;
      var target := m.rivers[i].target;
      if source > target {
        var tmp := source;
        source := target;
        target := tmp;
      }
      rivers := rivers + [Owned(source, target, None)];
    }
    r := RefereeMap(sites, m.mines, rivers);
  }

  // ---------------------------------------------------------------------
  // Claims and the move window

  /** A claim of (source, target) by `punter` on one river: it takes the river only if its ends match in that order. */
  function ClaimOn(r: Owned, punter: int, source: int, target: int): Owned
  {
    if r.source == source && r.target == target then r.(owner := Some(punter)) else r
  }

  /** The rivers after the claim: each river passed through `ClaimOn`. */
  function Claimed(rivers: seq<Owned>, punter: int, source: int, target: int): (out: seq<Owned>)
    ensures |out| == |rivers|
    ensures forall i :: 0 <= i < |rivers| ==> out[i] == ClaimOn(rivers[i], punter, source, target)
  {
    seq(|rivers|, i requires 0 <= i < |rivers| => ClaimOn(rivers[i], punter, source, target))
  }

  /**
   * A claim changes nothing but owners; it gives `punter` exactly the
   * rivers whose ends equal (source, target) in that order, whoever owned
   * them before.
   */
  lemma ClaimExact(rivers: seq<Owned>, punter: int, source: int, target: int)
    ensures forall i :: 0 <= i < |rivers| ==>
      var r := Claimed(rivers, punter, source, target)[i];
      r.source == rivers[i].source && r.target == rivers[i].target &&
      (r.owner != rivers[i].owner ==> r.owner == Some(punter)) &&
      (r.owner == Some(punter) <==> (rivers[i].source == source && rivers[i].target == target) || rivers[i].owner == Some(punter))
  {
  }

  /** A claim written with the larger end first takes nothing. */
  lemma ReversedClaimIgnored(rivers: seq<Owned>, punter: int, source: int, target: int)
    requires Normalized(rivers) && source > target
    ensures Claimed(rivers, punter, source, target) == rivers
  {
  }

  /** The last `k` entries of `log`, or all of it when it is shorter. */
  function Latest(log: seq<Json>, k: nat): (w: seq<Json>)
    ensures |w| == if |log| < k then |log| else k
    ensures log == log[..|log| - |w|] + w
  {
    if |log| <= k then log else log[|log| - k..]
  }

  /** The deque after a message: appended, and the oldest dropped once there are more than five. */
  function Pushed(window: seq<Json>, message: Json): seq<Json>
  {
    if |window + [message]| > Cap then (window + [message])[1..] else window + [message]
  }

  /** The deque is always the five latest messages. */
  lemma PushedLatest(log: seq<Json>, message: Json)
    ensures Pushed(Latest(log, Cap), message) == Latest(log + [message], Cap)
  {
    var w := Latest(log, Cap);
    if |log| >= Cap {
      assert (w + [message])[1..] == (log + [message])[|log| + 1 - Cap..];
    }
  }

  /** The moves a prompt carries: the deque, less its oldest message when it is full. */
  function Retained(window: seq<Json>): seq<Json>
  {
    if |window| == Cap then window[1..] else window
  }

  /** A prompt carries the four latest messages, or all of them when there are fewer. */
  lemma RetainedLatest(log: seq<Json>)
    ensures Retained(Latest(log, Cap)) == Latest(log, Cap - 1)
  {
  }

  // ---------------------------------------------------------------------
  // Message validation

  /** What a handler makes of a message. */
  datatype Verdict =
    | Fine
    | Refused(why: Why)
    | Raises
    | PassBy(punter: int)
    | ClaimBy(punter: int, source: int, target: int)
    | HelloFrom(name: Json)

  /** The reply to a set-up prompt: a "ready" equal to the handler's own id. */
  function ReadyVerdict(message: Json, id: Option<int>): (v: Verdict)
    ensures v == Raises <==> !message.JDict?
    ensures v == Fine <==> (message.JDict? && Lookup(message.fields, "ready").Some? && id.Some? &&
                            PyEqInt(Lookup(message.fields, "ready").value, id.value))
    ensures v == Fine || v == Raises || v == Refused(BadReady)
  {
    if !message.JDict? then Raises
    else match Lookup(message.fields, "ready")
      case None => Refused(BadReady)
      case Some(ready) => if id.Some? && PyEqInt(ready, id.value) then Fine else Refused(BadReady)
  }

  /** The punter id in a "claim" or "pass" body, checked against the handler's own id. */
  predicate OwnId(body: map<string, Json>, id: Option<int>)
  {
    Lookup(body, "punter").Some? && id.Some? && PyEqInt(Lookup(body, "punter").value, id.value)
  }

  /**
   * The reply to a move prompt: a "claim" with the handler's own punter id
   * and a source and a target, or else a "pass" with that id. A body that
   * is no dictionary, or ends `%d` cannot format, raise.
   */
  function MoveVerdict(message: Json, id: Option<int>): (v: Verdict)
    ensures v.PassBy? <==> (message.JDict? && Lookup(message.fields, "claim").None? &&
                            Lookup(message.fields, "pass").Some? && Lookup(message.fields, "pass").value.JDict? &&
                            OwnId(Lookup(message.fields, "pass").value.fields, id))
    ensures v.ClaimBy? <==> (message.JDict? && Lookup(message.fields, "claim").Some? &&
                             Lookup(message.fields, "claim").value.JDict? &&
                             var body := Lookup(message.fields, "claim").value.fields;
                             OwnId(body, id) && Lookup(body, "source").Some? && Lookup(body, "target").Some? &&
                             Number(Lookup(body, "source").value).Some? && Number(Lookup(body, "target").value).Some?)
    ensures v.ClaimBy? ==> var body := Lookup(message.fields, "claim").value.fields;
      Some(v.source) == Number(Lookup(body, "source").value) && Some(v.target) == Number(Lookup(body, "target").value)
    ensures v.PassBy? || v.ClaimBy? ==> id == Some(v.punter)
    ensures v.PassBy? || v.ClaimBy? || v == Raises || v == Refused(BadMove)
  {
    if !message.JDict? then Raises
    else match Lookup(message.fields, "claim")
      case None =>
        (match Lookup(message.fields, "pass")
         case None => Refused(BadMove)
         case Some(pass) =>
           if !pass.JDict? then Raises
           else if !OwnId(pass.fields, id) then Refused(BadMove)
           else PassBy(id.value))
      case Some(claim) =>
        if !claim.JDict? then Raises
        else if !OwnId(claim.fields, id) then Refused(BadMove)
        else
          (match (Lookup(claim.fields, "source"), Lookup(claim.fields, "target"))
           case (Some(source), Some(target)) =>
             (match (Number(source), Number(target))
              case (Some(s), Some(t)) => ClaimBy(id.value, s, t)
              case _ => Raises)
           case _ => Refused(BadMove))
  }

  /**
   * The move check as `_handle_message` is written: logging an accepted
   * pass formats `source` and `target`, which that branch never binds, so
   * it raises before the arena hears of the pass.
   */
  function MoveVerdictAsWritten(message: Json, id: Option<int>): (v: Verdict)
    ensures !v.PassBy?
    ensures MoveVerdict(message, id).PassBy? ==> v == Raises
    ensures !MoveVerdict(message, id).PassBy? ==> v == MoveVerdict(message, id)
  {
    var v := MoveVerdict(message, id);
    if v.PassBy? then Raises else v
  }

  /** The pass message a handler's timeout files for its punter. */
  function PassMessage(id: int): Json
  {
    JDict(map["pass" := JDict(map["punter" := JInt(id)])])
  }

  /** As written, every well-formed pass raises: the arena is never told of a pass a player sends. */
  lemma PassNeverReported(message: Json, id: Option<int>)
    ensures !MoveVerdictAsWritten(message, id).PassBy?
    ensures MoveVerdictAsWritten(PassMessage(0), Some(0)) == Raises
  {
    var m := PassMessage(0);
    assert Lookup(m.fields, "claim") == None;
    assert Lookup(m.fields, "pass") == Some(JDict(map["punter" := JInt(0)]));
  }

  /** With the logging fixed, a player's pass with its own id is accepted as that punter's pass. */
  lemma PassReported(id: int)
    ensures MoveVerdict(PassMessage(id), Some(id)) == PassBy(id)
  {
    var m := PassMessage(id);
    assert Lookup(m.fields, "claim") == None;
    assert Lookup(m.fields, "pass") == Some(JDict(map["punter" := JInt(id)]));
  }

  /** The handshake: a "me" naming the player. */
  function HandshakeVerdict(message: Json): (v: Verdict)
    ensures v == Raises <==> !message.JDict?
    ensures v.HelloFrom? <==> message.JDict? && Lookup(message.fields, "me").Some?
    ensures v.HelloFrom? ==> Lookup(message.fields, "me") == Some(v.name)
    ensures v.HelloFrom? || v == Raises || v == Refused(BadHandshake)
  {
    if !message.JDict? then Raises
    else match Lookup(message.fields, "me")
      case None => Refused(BadHandshake)
      case Some(name) => HelloFrom(name)
  }

  // ---------------------------------------------------------------------
  // The arena

  /** What the arena sends a player's handler. */
  datatype Prompt =
    | SetupPrompt(to: int, punter: int, punters: int)
    | MovePrompt(to: int, moves: seq<Json>)
    | StopPrompt(to: int)

  /** A stop to each of the five players, in the order they joined. */
  function Stops(): (s: seq<Prompt>)
    ensures |s| == Cap && forall i :: 0 <= i < Cap ==> s[i] == StopPrompt(i)
  {
    [StopPrompt(0), StopPrompt(1), StopPrompt(2), StopPrompt(3), StopPrompt(4)]
  }

  class Arena {
    /** The players joined so far; their ids are 0, 1, … in that order. */
    var joined: nat
    var rivers: seq<Owned>
    var turn: nat
    /** The deque of the latest move messages. */
    var window: seq<Json>
    /** Every prompt sent, in order. */
    var outbox: seq<Prompt>
    /** Every move message filed. */
    ghost var log: seq<Json>

    /** At most five players; rivers smaller end first; the deque the five latest messages. */
    ghost predicate Valid()
      reads this
    {
      joined <= Cap && Normalized(rivers) && window == Latest(log, Cap)
    }

    constructor (m: GameMap)
      ensures Valid() && joined == 0 && turn == 0 && outbox == [] && log == []
      ensures |rivers| == |m.rivers| && forall i :: 0 <= i < |m.rivers| ==> rivers[i] == Oriented(m.rivers[i])
    {
      var map_ := MapOf(m);
      joined := 0;
      rivers := map_.rivers;
      turn := 0;
      window := [];
      outbox := [];
      log := [];
    }

    /**
     * `join`: the next id, or `None` once five have joined; the fifth
     * player's arrival sends the first set-up prompt.
     */
    method Join() returns (id: Option<int>)
      requires Valid()
      modifies this
      ensures Valid() && rivers == old(rivers) && log == old(log)
      ensures old(joined) == Cap ==> id == None && joined == Cap && turn == old(turn) && outbox == old(outbox)
      ensures old(joined) < Cap ==> id == Some(old(joined)) && joined == old(joined) + 1
      ensures old(joined) < Cap - 1 ==> turn == old(turn) && outbox == old(outbox)
      ensures old(joined) == Cap - 1 ==>
        turn == old(turn) + 1 && outbox == old(outbox) + [SetupPrompt(old(turn) % Cap, old(turn) % Cap, Cap)]
    {
      if joined == Cap {
        return None;
      }
      id := Some(joined);
      joined := joined + 1;
      if joined == Cap {
        PromptSetup();
      }
    }

    /** `_prompt_setup`: the set-up for the player whose turn it is. */
    method PromptSetup()
      requires Valid() && joined == Cap
      modifies this
      ensures Valid() && joined == old(joined) && rivers == old(rivers) && window == old(window) && log == old(log)
      ensures turn == old(turn) + 1 && outbox == old(outbox) + [SetupPrompt(old(turn) % Cap, old(turn) % Cap, Cap)]
    {
      outbox := outbox + [SetupPrompt(turn % Cap, turn % Cap, Cap)];
      turn := turn + 1;
    }

    /** `done_setup`: the next set-up, or the first move prompt once all five are set up. */
    method DoneSetup()
      requires Valid() && joined == Cap
      modifies this
      ensures Valid() && joined == old(joined) && rivers == old(rivers) && window == old(window) && log == old(log)
      ensures old(turn) != Cap ==>
        turn == old(turn) + 1 && outbox == old(outbox) + [SetupPrompt(old(turn) % Cap, old(turn) % Cap, Cap)]
      ensures old(turn) == Cap ==> Prompted(old(turn), old(outbox))
    {
      if turn == Cap {
        PromptMove();
      } else {
        PromptSetup();
      }
    }

    /**
     * After `_prompt_move` from turn `t` with prompts `sent`: when every
     * river has had its turn, a stop to each player; otherwise a move
     * prompt to player `t % 5` with the retained moves.
     */
    ghost predicate Prompted(t: nat, sent: seq<Prompt>)
      reads this
    {
      if t == Cap + |rivers| then turn == t && outbox == sent + Stops()
      else turn == t + 1 && outbox == sent + [MovePrompt(t % Cap, Latest(log, Cap - 1))]
    }

    /** `_prompt_move`. */
    method PromptMove()
      requires Valid() && joined == Cap
      modifies this
      ensures Valid() && joined == old(joined) && rivers == old(rivers) && window == old(window) && log == old(log)
      ensures Prompted(old(turn), old(outbox))
    {
      if turn == Cap + |rivers| {
        SendStops();
      } else {
        SendMoves();
        RetainedLatest(log);
      }
    }

    /** The game is over: a stop to each player. */
    method SendStops()
      requires joined == Cap
      modifies this
      ensures joined == old(joined) && rivers == old(rivers) && window == old(window) && log == old(log)
      ensures turn == old(turn) && outbox == old(outbox) + Stops()
    {
      for i := 0 to joined
        invariant outbox == old(outbox) + Stops()[..i]
        invariant joined == old(joined) && rivers == old(rivers) && window == old(window) && log == old(log)
        invariant turn == old(turn)
      {
        assert Stops()[..i + 1] == Stops()[..i] + [StopPrompt(i)];
        outbox := outbox + [StopPrompt(i)];
      }
      assert Stops()[..Cap] == Stops();
    }

    /** A move prompt to the player whose turn it is, with the retained moves. */
    method SendMoves()
      modifies this
      ensures joined == old(joined) && rivers == old(rivers) && window == old(window) && log == old(log)
      ensures turn == old(turn) + 1 && outbox == old(outbox) + [MovePrompt(old(turn) % Cap, Retained(window))]
    {
      var moves: seq<Json> := [];
      var start := if |window| == Cap then 1 else 0;
      for i := start to |window|
        invariant moves == window[start..i]
      {
        assert window[start..i + 1] == window[start..i] + [window[i]];
        moves := moves + [window[i]];
      }
      assert window[start..|window|] == Retained(window);
      outbox := outbox + [MovePrompt(turn % Cap, moves)];
      turn := turn + 1;
    }

    /**
     * `done_move`: a claim (punter, source, target) passes to `Claimed`;
     * every message, a pass too, joins the deque; then the next prompt.
     */
    method DoneMove(message: Json, claim: Option<(int, int, int)>)
      requires Valid() && joined == Cap
      modifies this
      ensures Valid() && joined == old(joined) && log == old(log) + [message]
      ensures claim.None? ==> rivers == old(rivers)
      ensures claim.Some? ==> rivers == Claimed(old(rivers), claim.value.0, claim.value.1, claim.value.2)
      ensures Prompted(old(turn), old(outbox))
    {
      if claim.Some? {
        ClaimRiver(claim.value.0, claim.value.1, claim.value.2);
      }
      Record(message);
      PromptMove();
    }

    /** The claim loop: every river whose ends are (source, target) in that order goes to `punter`. */
    method ClaimRiver(punter: int, source: int, target: int)
      requires Normalized(rivers)
      modifies this
      ensures rivers == Claimed(old(rivers), punter, source, target) && Normalized(rivers)
      ensures joined == old(joined) && turn == old(turn) && window == old(window) && log == old(log)
      ensures outbox == old(outbox)
    {
      var i := 0;
      while i < |rivers|
        invariant 0 <= i <= |rivers| && |rivers| == |old(rivers)|
        invariant forall j :: 0 <= j < i ==> rivers[j] == ClaimOn(old(rivers)[j], punter, source, target)
        invariant forall j :: i <= j < |rivers| ==> rivers[j] == old(rivers)[j]
        invariant joined == old(joined) && turn == old(turn) && window == old(window) && log == old(log)
        invariant outbox == old(outbox)
      {
        var river := rivers[i];
        if river.source == source && river.target == target {
          rivers := rivers[i := Owned(river.source, river.target, Some(punter))];
        }
        i := i + 1;
      }
    }

    /** The message joins the deque, which keeps its five latest. */
    method Record(message: Json)
      requires window == Latest(log, Cap)
      modifies this
      ensures log == old(log) + [message] && window == Latest(log, Cap)
      ensures joined == old(joined) && rivers == old(rivers) && turn == old(turn) && outbox == old(outbox)
    {
      PushedLatest(log, message);
      window := window + [message];
      if |window| > Cap {
        window := window[1..];
      }
      log := log + [message];
    }
  }

  // ---------------------------------------------------------------------
  // A player's handler

  class Handler {
    /** A set-up prompt is waiting for its reply. */
    var setupPending: bool
    /** A move prompt is waiting for its reply. */
    var movePending: bool
    var receivedHandshake: bool
    var name: Option<Json>
    var punterId: Option<int>

    constructor ()
      ensures !setupPending && !movePending && !receivedHandshake && name == None && punterId == None
    {
      setupPending := false;
      movePending := false;
      receivedHandshake := false;
      name := None;
      punterId := None;
    }

    /** `_prompt_setup`: the set-up is sent and its timer started. */
    method PromptSetup()
      modifies this
      ensures setupPending && movePending == old(movePending) && receivedHandshake == old(receivedHandshake)
      ensures name == old(name) && punterId == old(punterId)
    {
      setupPending := true;
    }

    /** `_prompt_move`: the prompt is sent and its timer started. */
    method PromptMove()
      modifies this
      ensures movePending && setupPending == old(setupPending) && receivedHandshake == old(receivedHandshake)
      ensures name == old(name) && punterId == old(punterId)
    {
      movePending := true;
    }

    /** `_timeout`: the arena is told the player passed; the pending prompt stays pending. */
    method Timeout(arena: Arena)
      requires arena.Valid() && arena.joined == Cap
      modifies arena
      ensures arena.Valid() && arena.log == old(arena.log) + [JDict(map["pass" := JDict(map["punter" := if punterId.Some? then JInt(punterId.value) else JNull])])]
      ensures arena.rivers == old(arena.rivers) && arena.Prompted(old(arena.turn), old(arena.outbox))
    {
      var message := JDict(map["pass" := JDict(map["punter" := if punterId.Some? then JInt(punterId.value) else JNull])]);
      arena.DoneMove(message, None);
    }

    /**
     * `_handle_message`: the reply to a pending set-up, else to a pending
     * move, else the handshake, else a message out of turn. An accepted
     * reply is passed to the arena; a pending prompt is settled whatever
     * its reply.
     */
    method HandleMessage(message: Json, arena: Arena) returns (v: Verdict)
      requires arena.Valid()
      requires setupPending || movePending ==> arena.joined == Cap
      modifies this, arena
      ensures arena.Valid()
      ensures old(setupPending) ==> v == ReadyVerdict(message, old(punterId)) && !setupPending
      ensures old(setupPending) && v != Fine ==> arena.turn == old(arena.turn) && arena.outbox == old(arena.outbox)
      ensures old(setupPending) && v == Fine && old(arena.turn) == Cap ==> arena.Prompted(old(arena.turn), old(arena.outbox))
      ensures old(setupPending) && v == Fine && old(arena.turn) != Cap ==>
        arena.outbox == old(arena.outbox) + [SetupPrompt(old(arena.turn) % Cap, old(arena.turn) % Cap, Cap)]
      ensures !old(setupPending) && old(movePending) ==> v == MoveVerdict(message, old(punterId)) && !movePending
      ensures !old(setupPending) && old(movePending) && v.PassBy? ==>
        arena.log == old(arena.log) + [message] && arena.rivers == old(arena.rivers)
      ensures !old(setupPending) && old(movePending) && v.ClaimBy? ==>
        arena.log == old(arena.log) + [message] && arena.rivers == Claimed(old(arena.rivers), v.punter, v.source, v.target)
      ensures !old(setupPending) && old(movePending) && !v.PassBy? && !v.ClaimBy? ==>
        arena.log == old(arena.log) && arena.rivers == old(arena.rivers) && arena.outbox == old(arena.outbox)
      ensures !old(setupPending) && !old(movePending) && !old(receivedHandshake) ==>
        receivedHandshake && v == HandshakeVerdict(message) &&
        (v.HelloFrom? ==> name == Some(v.name) && punterId == (if old(arena.joined) < Cap then Some(old(arena.joined)) else None))
      ensures !old(setupPending) && !old(movePending) && old(receivedHandshake) ==> v == Refused(OutOfTurn)
    {
      if setupPending {
        setupPending := false;
        v := ReadyVerdict(message, punterId);
        if v == Fine {
          arena.DoneSetup();
        }
        return;
      }
      if movePending {
        movePending := false;
        v := MoveVerdict(message, punterId);
        if v.PassBy? {
          arena.DoneMove(message, None);
        } else if v.ClaimBy? {
          arena.DoneMove(message, Some((v.punter, v.source, v.target)));
        }
        return;
      }
      if !receivedHandshake {
        receivedHandshake := true;
        v := HandshakeVerdict(message);
        if v.HelloFrom? {
          name := Some(v.name);
          punterId := arena.Join();
        }
        return;
      }
      v := Refused(OutOfTurn);
    }
  }
}
