/**
 Reassembly of WebSocket messages from frames (sections 5.2 and 5.4 of RFC 6455), as one call of
 `Https_websocket_client::receive_message` does it. A string stands for a char buffer, one character a byte.
 */
module FrameReassembly {
  import opened Outcomes

  const MAX_FRAME_SIZE: nat := 65536
  const MAX_FRAMES_PER_MESSAGE: nat := 255

  /** The session refuses larger frames (`setMaxPayloadSize`), so no delivered payload is longer. */
  type Payload = p: string | |p| <= MAX_FRAME_SIZE witness ""

  /** The first byte of a frame header: FIN, three reserved bits and the opcode. */
  type HeaderByte = b: int | 0 <= b < 0x100

  /** `flags & FRAME_FLAG_FIN`. */
  predicate HasFin(flags: HeaderByte): (fin: bool)
    ensures fin <==> 0x80 <= flags
  {
    flags / 0x80 % 2 == 1
  }

  /** One `receiveFrame` call: it appends a payload and reports the first header byte, or it throws. */
  datatype Received =
    | Frame(payload: Payload, flags: HeaderByte)
    | TimedOut               // Poco::TimeoutException
    | Failed                 // any other exception

  /** The outcomes of the calls still to come; past the end the peer has closed the connection. */
  type Wire = seq<Received>

  datatype ClientError =
    | PeerClosed | NotStarted | ConnectFailed   // Websocket_exception
    | MessageTooLong                              // Message_exception
    | Unknown                                     // Unknown_exception

  datatype ClientState = ClientState(websocket: Option<Wire>, connected: bool)

  function Next(wire: Wire): Received {
    if |wire| == 0 then Frame("", 0) else wire[0]
  }

  function Rest(wire: Wire): Wire {
    if |wire| == 0 then [] else wire[1..]
  }

  predicate IsClosed(r: Received) {
    r.Frame? && r.payload == "" && r.flags == 0
  }

  predicate IsFinal(r: Received) {
    r.Frame? && HasFin(r.flags)
  }

  /** A frame after which the loop asks for another one. */
  predicate Continues(r: Received) {
    r.Frame? && !IsFinal(r) && !IsClosed(r)
  }

  datatype Reception = Reception(result: Result<string, ClientError>, rest: Wire, dropped: bool)

  /** The loop from the point where `count` frames are in `buffer`. */
  function Assemble(wire: Wire, buffer: string, count: nat): (r: Reception)
    requires count <= MAX_FRAMES_PER_MESSAGE
    ensures |r.rest| <= |wire|
    ensures count < MAX_FRAMES_PER_MESSAGE && !r.dropped ==> |r.rest| < |wire|
    decreases |wire|
  {
    if count == MAX_FRAMES_PER_MESSAGE then
      Reception(Err(MessageTooLong), wire, false)
    else
      var rest := Rest(wire);
      match Next(wire)
      case TimedOut => Reception(Err(NotStarted), rest, false)
      case Failed => Reception(Err(Unknown), rest, true)
      case Frame(payload, flags) =>
        if payload == "" && flags == 0 then Reception(Err(PeerClosed), rest, true)
        else if HasFin(flags) then Reception(Ok(buffer + payload), rest, false)
        else Assemble(rest, buffer + payload, count + 1)
  }

  /** `receive_message` on a client in state `c`. */
  function Receive(c: ClientState): (Result<string, ClientError>, ClientState) {
    match c.websocket
    case None => (Err(NotStarted), c)
    case Some(wire) =>
      var r := Assemble(wire, "", 0);
      (r.result, ClientState(Some(r.rest), c.connected && !r.dropped))
  }

  /** The results of calling `receive_message` until the client is disconnected. */
  function Drain(wire: Wire): seq<Result<string, ClientError>>
    decreases |wire|
  {
    var r := Assemble(wire, "", 0);
    [r.result] + if r.dropped then [] else Drain(r.rest)
  }

  // ---------- what one call does ----------

  function Text(r: Received): string {
    if r.Frame? then r.payload else ""
  }

  function Texts(frames: seq<Received>): string {
    if |frames| == 0 then "" else Text(frames[0]) + Texts(frames[1..])
  }

  /** Number of leading frames that ask for a continuation. */
  function Lead(wire: Wire): (k: nat)
    ensures k <= |wire|
    ensures forall i | 0 <= i < k :: Continues(wire[i])
    ensures k < |wire| ==> !Continues(wire[k])
  {
    if |wire| > 0 && Continues(wire[0]) then 1 + Lead(wire[1..]) else 0
  }

  /** The reception decided by the outcome that follows `before`. */
  function Ending(buffer: string, r: Received, rest: Wire): Reception {
    if r.TimedOut? then Reception(Err(NotStarted), rest, false)
    else if r.Failed? then Reception(Err(Unknown), rest, true)
    else if IsClosed(r) then Reception(Err(PeerClosed), rest, true)
    else Reception(Ok(buffer + Text(r)), rest, false)
  }

  /**
   A reception told without a loop: it takes every frame up to the first outcome that does not ask for a
   continuation and is decided by that one, unless `room` continuing frames come first.
   */
  function Decided(wire: Wire, buffer: string, room: nat): Reception {
    var k := Lead(wire);
    if k < room then Ending(buffer + Texts(wire[..k]), Next(wire[k..]), Rest(wire[k..]))
    else Reception(Err(MessageTooLong), wire[room..], false)
  }

  /** The whole account of one call. */
  lemma {:induction false} AssembleTakesLead(wire: Wire, buffer: string, count: nat)
    requires count <= MAX_FRAMES_PER_MESSAGE
    ensures Assemble(wire, buffer, count) == Decided(wire, buffer, MAX_FRAMES_PER_MESSAGE - count)
    decreases MAX_FRAMES_PER_MESSAGE - count
  {
    if count == MAX_FRAMES_PER_MESSAGE || Lead(wire) == 0 {
      NothingTaken(wire, buffer);
    } else {
      AssembleStep(wire, buffer, count);
      AssembleTakesLead(wire[1..], buffer + wire[0].payload, count + 1);
      DecidedStep(wire, buffer, MAX_FRAMES_PER_MESSAGE - count);
    }
  }

  lemma DecidedStep(wire: Wire, buffer: string, room: nat)
    requires room > 0 && Lead(wire) > 0
    ensures Decided(wire, buffer, room) == Decided(wire[1..], buffer + wire[0].payload, room - 1)
  {
    var k := Lead(wire);
    assert Lead(wire[1..]) == k - 1;
    if k < room {
      TextsStep(wire[..k], buffer);
      assert wire[..k][1..] == wire[1..][..k - 1];
      DropStep(wire, k);
    } else {
      DropStep(wire, room);
    }
  }

  lemma AssembleStep(wire: Wire, buffer: string, count: nat)
    requires count < MAX_FRAMES_PER_MESSAGE && Lead(wire) > 0
    ensures Assemble(wire, buffer, count) == Assemble(wire[1..], buffer + wire[0].payload, count + 1)
    ensures Lead(wire[1..]) == Lead(wire) - 1
  {
  }

  lemma NothingTaken(wire: Wire, buffer: string)
    ensures wire[0..] == wire && buffer + Texts(wire[..0]) == buffer
  {
  }

  lemma DropStep(wire: Wire, k: nat)
    requires 0 < k <= |wire|
    ensures wire[1..][k - 1..] == wire[k..]
  {
  }

  lemma TextsStep(frames: seq<Received>, buffer: string)
    requires |frames| > 0 && frames[0].Frame?
    ensures (buffer + frames[0].payload) + Texts(frames[1..]) == buffer + Texts(frames)
  {
  }

  lemma {:induction false} TextsAreBounded(frames: seq<Received>)
    ensures |Texts(frames)| <= |frames| * MAX_FRAME_SIZE
  {
    if |frames| > 0 {
      TextsAreBounded(frames[1..]);
    }
  }

  /** A client that was not started receives nothing; a started one receives what its wire holds. */
  lemma ReceiveByState(wire: Wire, connected: bool)
    ensures Receive(ClientState(None, connected)) == (Err(NotStarted), ClientState(None, connected))
    ensures var r := Assemble(wire, "", 0);
            Receive(ClientState(Some(wire), connected)) ==
            (r.result, ClientState(Some(r.rest), connected && !r.dropped))
  {
  }

  /** No returned message is longer than 65536 * 255 bytes, a number that fits 32 bits. */
  lemma MessageLengthBound(c: ClientState)
    ensures Receive(c).0.Ok? ==> |Receive(c).0.value| <= MAX_FRAME_SIZE * MAX_FRAMES_PER_MESSAGE
    ensures MAX_FRAME_SIZE == 65536 && MAX_FRAMES_PER_MESSAGE == 255
    ensures MAX_FRAME_SIZE * MAX_FRAMES_PER_MESSAGE == 16711680 < 0x1_0000_0000
  {
    if c.websocket.Some? {
      var wire := c.websocket.value;
      AssembleTakesLead(wire, "", 0);
      TextsAreBounded(wire[..Lead(wire)]);
      var texts := Texts(wire[..Lead(wire)]);
      assert "" + texts == texts;
    }
  }

  // ---------- whole messages ----------

  ghost predicate AllContinue(frames: seq<Received>) {
    forall i | 0 <= i < |frames| :: Continues(frames[i])
  }

  /** The frames of one message: FIN on the last frame, and only there, and no frame that reads as a close. */
  ghost predicate IsMessage(frames: seq<Received>) {
    && |frames| > 0
    && (forall i | 0 <= i < |frames| - 1 :: Continues(frames[i]))
    && IsFinal(frames[|frames| - 1])
  }

  lemma {:induction false} LeadOfMessage(frames: seq<Received>, rest: Wire)
    requires IsMessage(frames)
    ensures Lead(frames + rest) == |frames| - 1
  {
    var wire := frames + rest;
    assert wire[0] == frames[0];
    if |frames| > 1 {
      assert wire[1..] == frames[1..] + rest;
      LeadOfMessage(frames[1..], rest);
    }
  }

  lemma {:induction false} TextsOfConcat(a: seq<Received>, b: seq<Received>)
    ensures Texts(a + b) == Texts(a) + Texts(b)
  {
    if |a| == 0 {
      assert a + b == b;
    } else {
      assert (a + b)[1..] == a[1..] + b;
      TextsOfConcat(a[1..], b);
    }
  }

  lemma TextsOfLast(front: seq<Received>, last: Received)
    ensures Texts(front + [last]) == Texts(front) + Text(last)
  {
    TextsOfConcat(front, [last]);
    assert [last][1..] == [];
    assert Texts([last]) == Text(last) + "" == Text(last);
  }

  /** How many size errors a message of `n` frames causes before its end is delivered. */
  function Overruns(n: nat): (q: nat)
    requires n > 0
    ensures MAX_FRAMES_PER_MESSAGE * q < n <= MAX_FRAMES_PER_MESSAGE * (q + 1)
  {
    (n - 1) / MAX_FRAMES_PER_MESSAGE
  }

  function TooLong(k: nat): seq<Result<string, ClientError>> {
    seq(k, _ => Err(MessageTooLong))
  }

  /** What a message produces: its size errors, then the text of the frames after the last one. */
  function MessageResults(frames: seq<Received>): seq<Result<string, ClientError>>
    requires |frames| > 0
  {
    var q := Overruns(|frames|);
    TooLong(q) + [Ok(Texts(frames[MAX_FRAMES_PER_MESSAGE * q..]))]
  }

  /** The part of a wire up to and after the end of its first message. */
  lemma MessageParts(frames: seq<Received>, rest: Wire)
    requires |frames| > 0
    ensures var k := |frames| - 1;
            && (frames + rest)[..k] == frames[..k]
            && Next((frames + rest)[k..]) == frames[k]
            && Rest((frames + rest)[k..]) == rest
  {
    var k := |frames| - 1;
    assert (frames + rest)[k..] == [frames[k]] + rest;
  }

  lemma FinalFrameDelivers(wire: Wire)
    requires Lead(wire) < MAX_FRAMES_PER_MESSAGE && IsFinal(Next(wire[Lead(wire)..]))
    ensures var k := Lead(wire);
            Assemble(wire, "", 0) ==
            Reception(Ok(Texts(wire[..k]) + Text(Next(wire[k..]))), Rest(wire[k..]), false)
  {
    AssembleTakesLead(wire, "", 0);
    var front := Texts(wire[..Lead(wire)]);
    assert "" + front == front;
  }

  lemma ShortMessageIsDelivered(frames: seq<Received>, rest: Wire)
    requires IsMessage(frames) && |frames| <= MAX_FRAMES_PER_MESSAGE
    ensures Assemble(frames + rest, "", 0) == Reception(Ok(Texts(frames)), rest, false)
  {
    var k := |frames| - 1;
    LeadOfMessage(frames, rest);
    MessageParts(frames, rest);
    FinalFrameDelivers(frames + rest);
    TextsOfLast(frames[..k], frames[k]);
    assert frames == frames[..k] + [frames[k]];
  }

  lemma LongMessageOverruns(frames: seq<Received>, rest: Wire)
    requires IsMessage(frames) && |frames| > MAX_FRAMES_PER_MESSAGE
    ensures Assemble(frames + rest, "", 0) ==
            Reception(Err(MessageTooLong), frames[MAX_FRAMES_PER_MESSAGE..] + rest, false)
  {
    LeadOfMessage(frames, rest);
    AssembleTakesLead(frames + rest, "", 0);
    assert (frames + rest)[MAX_FRAMES_PER_MESSAGE..] == frames[MAX_FRAMES_PER_MESSAGE..] + rest;
  }

  /**
   Conservation and resynchronisation: a message of n frames is consumed exactly, in blocks of 255,
   as ceil(n/255)-1 size errors and the delivery of its last 1 to 255 frames.
   */
  lemma {:induction false} DrainOfMessage(frames: seq<Received>, rest: Wire)
    requires IsMessage(frames)
    ensures Drain(frames + rest) == MessageResults(frames) + Drain(rest)
    decreases |frames|
  {
    if |frames| <= MAX_FRAMES_PER_MESSAGE {
      ShortMessageIsDelivered(frames, rest);
      OneResult(frames);
    } else {
      var tail := frames[MAX_FRAMES_PER_MESSAGE..];
      LongMessageOverruns(frames, rest);
      assert Drain(frames + rest) == [Err(MessageTooLong)] + Drain(tail + rest);
      DrainOfMessage(tail, rest);
      OneMoreOverrun(frames);
      Associate([Err(MessageTooLong)], MessageResults(tail), Drain(rest));
    }
  }

  lemma Associate<T>(a: seq<T>, b: seq<T>, c: seq<T>)
    ensures a + (b + c) == (a + b) + c
  {
  }

  lemma OneResult(frames: seq<Received>)
    requires 0 < |frames| <= MAX_FRAMES_PER_MESSAGE
    ensures MessageResults(frames) == [Ok(Texts(frames))]
  {
    assert Overruns(|frames|) == 0;
    assert frames[0..] == frames;
  }

  lemma OneMoreOverrun(frames: seq<Received>)
    requires |frames| > MAX_FRAMES_PER_MESSAGE
    ensures MessageResults(frames) == [Err(MessageTooLong)] + MessageResults(frames[MAX_FRAMES_PER_MESSAGE..])
  {
    var tail := frames[MAX_FRAMES_PER_MESSAGE..];
    var q := Overruns(|tail|);
    assert Overruns(|frames|) == q + 1;
    assert tail[MAX_FRAMES_PER_MESSAGE * q..] == frames[MAX_FRAMES_PER_MESSAGE * (q + 1)..];
    assert TooLong(q + 1) == [Err(MessageTooLong)] + TooLong(q);
  }

  function Flatten(messages: seq<seq<Received>>): Wire {
    if |messages| == 0 then [] else messages[0] + Flatten(messages[1..])
  }

  ghost function AllResults(messages: seq<seq<Received>>): seq<Result<string, ClientError>>
    requires forall i | 0 <= i < |messages| :: IsMessage(messages[i])
  {
    if |messages| == 0 then []
    else
      assert IsMessage(messages[0]);
      MessageResults(messages[0]) + AllResults(messages[1..])
  }

  /** Any stream of messages: every one is accounted for in order, and none disturbs the next. */
  lemma {:induction false} DrainOfMessages(messages: seq<seq<Received>>, rest: Wire)
    requires forall i | 0 <= i < |messages| :: IsMessage(messages[i])
    ensures Drain(Flatten(messages) + rest) == AllResults(messages) + Drain(rest)
  {
    if |messages| == 0 {
      assert Flatten(messages) + rest == rest;
    } else {
      var later := Flatten(messages[1..]);
      Associate(messages[0], later, rest);
      assert IsMessage(messages[0]);
      DrainOfMessage(messages[0], later + rest);
      DrainOfMessages(messages[1..], rest);
      Associate(MessageResults(messages[0]), AllResults(messages[1..]), Drain(rest));
    }
  }

  lemma {:induction false} LeadUpTo(front: seq<Received>, r: Received, rest: Wire)
    requires !Continues(r) && AllContinue(front)
    ensures Lead(front + [r] + rest) == |front|
  {
    var wire := front + [r] + rest;
    if |front| > 0 {
      assert wire[1..] == front[1..] + [r] + rest;
      LeadUpTo(front[1..], r, rest);
    }
  }

  /**
   A timeout inside a message does not end the connection but loses what had been read. The frames before
   it cause their size errors as ever; those after it are delivered as if they were the whole message.
   */
  lemma TimeoutLosesHead(front: seq<Received>, tail: seq<Received>, rest: Wire)
    requires IsMessage(front + tail) && |tail| > 0
    ensures IsMessage(tail)
    ensures Drain(front + [TimedOut] + (tail + rest)) ==
            TooLong(|front| / MAX_FRAMES_PER_MESSAGE) + [Err(NotStarted)] + (MessageResults(tail) + Drain(rest))
  {
    MessageSplits(front, tail);
    HeadEnds(front, TimedOut, tail + rest);
    DrainOfMessage(tail, rest);
    Associate(TooLong(|front| / MAX_FRAMES_PER_MESSAGE), [Err(NotStarted)], Drain(tail + rest));
  }

  lemma MessageSplits(front: seq<Received>, tail: seq<Received>)
    requires IsMessage(front + tail) && |tail| > 0
    ensures AllContinue(front) && IsMessage(tail)
  {
    var frames := front + tail;
    assert forall i | 0 <= i < |front| :: frames[i] == front[i];
    assert forall i | 0 <= i < |tail| :: frames[|front| + i] == tail[i];
  }

  /** An outcome that ends a reception without a message. */
  predicate Interrupts(r: Received) {
    r.TimedOut? || r.Failed? || r == Frame("", 0)
  }

  /** The results from an interruption on. */
  function DrainAfter(r: Received, after: Wire): seq<Result<string, ClientError>>
    requires Interrupts(r)
  {
    match r
    case TimedOut => [Err(NotStarted)] + Drain(after)
    case Failed => [Err(Unknown)]
    case Frame(_, _) => [Err(PeerClosed)]
  }

  lemma TooLongCons(k: nat, later: seq<Result<string, ClientError>>)
    requires k > 0
    ensures TooLong(k) + later == [Err(MessageTooLong)] + (TooLong(k - 1) + later)
  {
    assert TooLong(k) == [Err(MessageTooLong)] + TooLong(k - 1);
  }

  /**
   Frames of a message that never comes to its end cause their size errors and one error more, which says
   what came instead; only after a timeout is anything received again.
   */
  lemma {:induction false} HeadEnds(front: seq<Received>, r: Received, after: Wire)
    requires AllContinue(front) && Interrupts(r)
    ensures Drain(front + [r] + after) ==
            TooLong(|front| / MAX_FRAMES_PER_MESSAGE) + DrainAfter(r, after)
    decreases |front|
  {
    var wire := front + [r] + after;
    if |front| < MAX_FRAMES_PER_MESSAGE {
      InterruptionEndsReception(front, r, after);
      assert TooLong(0) + DrainAfter(r, after) == DrainAfter(r, after);
    } else {
      var later := front[MAX_FRAMES_PER_MESSAGE..];
      HeadOverruns(front, r, after);
      DrainStep(wire, Err(MessageTooLong), later + [r] + after);
      HeadEnds(later, r, after);
      TooLongCons(|front| / MAX_FRAMES_PER_MESSAGE, DrainAfter(r, after));
    }
  }

  lemma DrainStep(wire: Wire, r: Result<string, ClientError>, rest: Wire)
    requires Assemble(wire, "", 0) == Reception(r, rest, false)
    ensures Drain(wire) == [r] + Drain(rest)
  {
  }

  lemma HeadOverruns(front: seq<Received>, r: Received, after: Wire)
    requires |front| >= MAX_FRAMES_PER_MESSAGE && AllContinue(front) && Interrupts(r)
    ensures Assemble(front + [r] + after, "", 0) ==
            Reception(Err(MessageTooLong), front[MAX_FRAMES_PER_MESSAGE..] + [r] + after, false)
  {
    var wire := front + [r] + after;
    LeadUpTo(front, r, after);
    AssembleTakesLead(wire, "", 0);
    assert wire[MAX_FRAMES_PER_MESSAGE..] == front[MAX_FRAMES_PER_MESSAGE..] + [r] + after;
  }

  lemma InterruptionEndsReception(front: seq<Received>, r: Received, after: Wire)
    requires |front| < MAX_FRAMES_PER_MESSAGE && AllContinue(front) && Interrupts(r)
    ensures Drain(front + [r] + after) == DrainAfter(r, after)
  {
    var wire := front + [r] + after;
    LeadUpTo(front, r, after);
    AssembleTakesLead(wire, "", 0);
    assert wire[|front|..] == [r] + after;
    assert ([r] + after)[1..] == after;
    var error := match r case TimedOut => NotStarted case Failed => Unknown case Frame(_, _) => PeerClosed;
    assert Assemble(wire, "", 0) == Reception(Err(error), after, !r.TimedOut?);
  }

  // ---------- fragmentation ----------

  /**
   The frames a sender makes of a text message cut into pieces (section 5.4 of RFC 6455): opcode 1 on
   the first, 0 on the others, FIN on the last.
   */
  function Fragment(pieces: seq<Payload>): (frames: seq<Received>)
    ensures |frames| == |pieces|
    ensures forall i | 0 <= i < |pieces| :: frames[i].Frame? && frames[i].payload == pieces[i]
    ensures forall i | 0 <= i < |pieces| :: IsFinal(frames[i]) <==> i == |pieces| - 1
    ensures forall i | 0 <= i < |pieces| :: frames[i].flags == 0 <==> 0 < i < |pieces| - 1
  {
    var n := |pieces|;
    var frames := seq(n, i requires 0 <= i < n => Frame(pieces[i], HeaderOf(i == 0, i == n - 1)));
    assert forall i | 0 <= i < n :: frames[i] == Frame(pieces[i], HeaderOf(i == 0, i == n - 1));
    frames
  }

  function HeaderOf(first: bool, last: bool): (b: HeaderByte)
    ensures HasFin(b) <==> last
    ensures b == if first && last then 0x81 else if first then 0x01 else if last then 0x80 else 0x00
  {
    (if last then 0x80 else 0) + if first then 1 else 0
  }

  function Concat(pieces: seq<Payload>): string {
    if |pieces| == 0 then "" else pieces[0] + Concat(pieces[1..])
  }

  /** Pieces are put together in order. */
  lemma {:induction false} ConcatOfTwo(pieces: seq<Payload>, more: seq<Payload>)
    ensures Concat(pieces + more) == Concat(pieces) + Concat(more)
    ensures |more| == 1 ==> Concat(more) == more[0]
  {
    if |pieces| == 0 {
      assert pieces + more == more;
    } else {
      assert (pieces + more)[1..] == pieces[1..] + more;
      ConcatOfTwo(pieces[1..], more);
    }
  }

  /** What a sender can check: at most 255 pieces, and no empty piece strictly inside. */
  predicate Survives(pieces: seq<Payload>) {
    && 1 <= |pieces| <= 255
    && forall i | 0 < i < |pieces| - 1 :: pieces[i] != ""
  }

  lemma {:induction false} TextsOfPieces(pieces: seq<Payload>, frames: seq<Received>)
    requires |pieces| == |frames|
    requires forall i | 0 <= i < |pieces| :: Text(frames[i]) == pieces[i]
    ensures Texts(frames) == Concat(pieces)
  {
    if |pieces| > 0 {
      TextsOfPieces(pieces[1..], frames[1..]);
    }
  }

  /** Cutting, sending and reassembling gives the text back exactly when the cut survives. */
  lemma FragmentationRoundTrip(pieces: seq<Payload>, rest: Wire)
    requires |pieces| > 0
    ensures Survives(pieces) <==>
            Assemble(Fragment(pieces) + rest, "", 0).result == Ok(Concat(pieces))
    ensures Survives(pieces) ==>
              && IsMessage(Fragment(pieces))
              && Drain(Fragment(pieces) + rest) == [Ok(Concat(pieces))] + Drain(rest)
  {
    var frames := Fragment(pieces);
    TextsOfPieces(pieces, frames);
    if Survives(pieces) {
      ShortMessageIsDelivered(frames, rest);
    } else {
      BadFragmentsFail(pieces, rest);
    }
  }

  lemma BadFragmentsFail(pieces: seq<Payload>, rest: Wire)
    requires |pieces| > 0 && !Survives(pieces)
    ensures Assemble(Fragment(pieces) + rest, "", 0).result.Err?
  {
    var wire := Fragment(pieces) + rest;
    var k := Lead(wire);
    AssembleTakesLead(wire, "", 0);
    if k < MAX_FRAMES_PER_MESSAGE {
      BadFragmentsClose(pieces, rest);
      assert wire[k..][0] == wire[k];
    }
  }

  /** Unless the limit comes first, the first frame that asks for no continuation reads as a close. */
  lemma BadFragmentsClose(pieces: seq<Payload>, rest: Wire)
    requires |pieces| > 0 && !Survives(pieces)
    requires Lead(Fragment(pieces) + rest) < MAX_FRAMES_PER_MESSAGE
    ensures var wire := Fragment(pieces) + rest; IsClosed(Next(wire[Lead(wire)..])) && Lead(wire) < |wire|
  {
    var frames := Fragment(pieces);
    var wire := frames + rest;
    var k := Lead(wire);
    var last := |pieces| - 1;
    assert wire[last] == frames[last] && !Continues(wire[last]);
    assert k <= last;
    if |pieces| <= MAX_FRAMES_PER_MESSAGE {
      var i :| 0 < i < last && pieces[i] == "";
      assert wire[i] == frames[i] == Frame("", 0x00);
      assert k <= i;
    }
    assert k < last;
    assert wire[k] == frames[k];
    assert wire[k..][0] == wire[k];
  }

  /** Any number of surviving messages on one connection come out as they were, in order. */
  lemma {:induction false} ConnectionRoundTrip(messages: seq<seq<Payload>>)
    requires forall i | 0 <= i < |messages| :: Survives(messages[i])
    ensures Drain(FragmentAll(messages)) == Oks(messages) + [Err(PeerClosed)]
  {
    if |messages| > 0 {
      FragmentationRoundTrip(messages[0], FragmentAll(messages[1..]));
      ConnectionRoundTrip(messages[1..]);
    }
  }

  function FragmentAll(messages: seq<seq<Payload>>): Wire {
    if |messages| == 0 then [] else Fragment(messages[0]) + FragmentAll(messages[1..])
  }

  function Oks(messages: seq<seq<Payload>>): seq<Result<string, ClientError>> {
    if |messages| == 0 then [] else [Ok(Concat(messages[0]))] + Oks(messages[1..])
  }
}
