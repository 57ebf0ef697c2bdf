/** What a peer makes the handler say, whatever the sizes of its messages and however its stream breaks. */
module PeerStreams {
  import opened ConnectionSession
  import opened FrameReassembly
  import opened Outcomes
  import ProcessLookup
  import WebsocketClient

  /** A stretch of a wire: a message of any size, or one that a timeout breaks in two. */
  datatype Stretch = Whole(frames: seq<Received>) | Broken(front: seq<Received>, tail: seq<Received>)

  ghost predicate IsStretch(s: Stretch) {
    match s
    case Whole(frames) => IsMessage(frames)
    case Broken(front, tail) => IsMessage(front + tail) && |tail| > 0
  }

  function WireOf(stretches: seq<Stretch>): Wire {
    if |stretches| == 0 then []
    else
      match stretches[0]
      case Whole(frames) => frames + WireOf(stretches[1..])
      case Broken(front, tail) => front + [TimedOut] + (tail + WireOf(stretches[1..]))
  }

  /** The last 1 to 255 frames of a message, as text. */
  function LastBlock(frames: seq<Received>): string
    requires |frames| > 0
  {
    Texts(frames[(|frames| - 1) / 255 * 255..])
  }

  /** One text for each stretch: the last block of the message, or of what followed the timeout. */
  ghost function LastBlocks(stretches: seq<Stretch>): seq<string>
    requires forall i | 0 <= i < |stretches| :: IsStretch(stretches[i])
  {
    if |stretches| == 0 then []
    else
      assert IsStretch(stretches[0]);
      var block := match stretches[0]
                   case Whole(frames) => LastBlock(frames)
                   case Broken(_, tail) => LastBlock(tail);
      [block] + LastBlocks(stretches[1..])
  }

  /** How a wire may end: the peer closes, or the connection fails, perhaps in the middle of a message. */
  ghost predicate IsEnding(front: seq<Received>, r: Received) {
    AllContinue(front) && (r.Failed? || r == Frame("", 0))
  }

  // ---------- filtering results ----------

  lemma {:induction false} OkTextsOfConcat(
    a: seq<Result<string, ClientError>>, b: seq<Result<string, ClientError>>)
    ensures OkTexts(a + b) == OkTexts(a) + OkTexts(b)
  {
    if |a| == 0 {
      assert a + b == b;
    } else {
      assert (a + b)[1..] == a[1..] + b;
      OkTextsOfConcat(a[1..], b);
    }
  }

  lemma OkTextsOfOne(text: string, e: ClientError)
    ensures OkTexts([Ok(text)]) == [text]
    ensures OkTexts([Err(e)]) == []
  {
  }

  lemma {:induction false} OkTextsOfTooLong(k: nat)
    ensures OkTexts(TooLong(k)) == []
  {
    if k > 0 {
      assert TooLong(k)[1..] == TooLong(k - 1);
      OkTextsOfTooLong(k - 1);
    }
  }

  // ---------- what a stretch makes of itself ----------

  /** A message of n frames makes exactly one message callback, which carries its last block. */
  lemma MessageIsHeardOnce(frames: seq<Received>, rest: Wire)
    requires IsMessage(frames)
    ensures OkTexts(Drain(frames + rest)) == [LastBlock(frames)] + OkTexts(Drain(rest))
  {
    DrainOfMessage(frames, rest);
    TextsOfResults(frames);
    OkTextsOfConcat(MessageResults(frames), Drain(rest));
  }

  lemma TextsOfResults(frames: seq<Received>)
    requires |frames| > 0
    ensures OkTexts(MessageResults(frames)) == [LastBlock(frames)]
  {
    var q := Overruns(|frames|);
    OkTextsOfTooLong(q);
    OkTextsOfConcat(TooLong(q), [Ok(LastBlock(frames))]);
    OkTextsOfOne(LastBlock(frames), Unknown);
  }

  /** A timeout makes none: only what follows it is heard. */
  lemma TimeoutIsSilent(front: seq<Received>, tail: seq<Received>, rest: Wire)
    requires IsMessage(front + tail) && |tail| > 0
    ensures OkTexts(Drain(front + [TimedOut] + (tail + rest))) == [LastBlock(tail)] + OkTexts(Drain(rest))
  {
    var k := |front| / MAX_FRAMES_PER_MESSAGE;
    MessageSplits(front, tail);
    HeadEnds(front, TimedOut, tail + rest);
    OkTextsOfTooLong(k);
    OkTextsOfOne("", NotStarted);
    OkTextsOfConcat([Err(NotStarted)], Drain(tail + rest));
    OkTextsOfConcat(TooLong(k), [Err(NotStarted)] + Drain(tail + rest));
    MessageIsHeardOnce(tail, rest);
  }

  /** Neither does a close or a failure, and nothing after it is received. */
  lemma EndingIsSilent(front: seq<Received>, r: Received, after: Wire)
    requires IsEnding(front, r)
    ensures OkTexts(Drain(front + [r] + after)) == []
  {
    var k := |front| / MAX_FRAMES_PER_MESSAGE;
    var last: Result<string, ClientError> := Err(if r.Failed? then Unknown else PeerClosed);
    HeadEnds(front, r, after);
    OkTextsOfTooLong(k);
    OkTextsOfOne("", last.error);
    OkTextsOfConcat(TooLong(k), [last]);
  }

  lemma {:induction false} StretchesAreHeard(stretches: seq<Stretch>, rest: Wire)
    requires forall i | 0 <= i < |stretches| :: IsStretch(stretches[i])
    ensures OkTexts(Drain(WireOf(stretches) + rest)) == LastBlocks(stretches) + OkTexts(Drain(rest))
  {
    if |stretches| == 0 {
      assert WireOf(stretches) + rest == rest;
    } else {
      var later := WireOf(stretches[1..]) + rest;
      assert IsStretch(stretches[0]);
      FirstStretchIsHeard(stretches, rest);
      StretchesAreHeard(stretches[1..], rest);
      Associate(LastBlocks(stretches)[..1], LastBlocks(stretches[1..]), OkTexts(Drain(rest)));
      assert LastBlocks(stretches) == LastBlocks(stretches)[..1] + LastBlocks(stretches[1..]);
    }
  }

  lemma FirstStretchIsHeard(stretches: seq<Stretch>, rest: Wire)
    requires |stretches| > 0 && forall i | 0 <= i < |stretches| :: IsStretch(stretches[i])
    ensures OkTexts(Drain(WireOf(stretches) + rest)) ==
            LastBlocks(stretches)[..1] + OkTexts(Drain(WireOf(stretches[1..]) + rest))
  {
    var later := WireOf(stretches[1..]);
    assert IsStretch(stretches[0]);
    match stretches[0]
    case Whole(frames) =>
      Associate(frames, later, rest);
      MessageIsHeardOnce(frames, later + rest);
    case Broken(front, tail) =>
      Associate(front + [TimedOut], tail + later, rest);
      Associate(tail, later, rest);
      TimeoutIsSilent(front, tail, later + rest);
  }

  lemma StreamTexts(stretches: seq<Stretch>, front: seq<Received>, r: Received, after: Wire)
    requires (forall i | 0 <= i < |stretches| :: IsStretch(stretches[i])) && IsEnding(front, r)
    ensures OkTexts(Drain(WireOf(stretches) + (front + [r] + after))) == LastBlocks(stretches)
  {
    StretchesAreHeard(stretches, front + [r] + after);
    EndingIsSilent(front, r, after);
    assert LastBlocks(stretches) + [] == LastBlocks(stretches);
  }

  /**
   A connection from its first frame to its end: whatever the sizes of its messages, whichever of them a
   timeout breaks and however the stream ends, its episode has one message callback for each message and
   no other, in order.
   */
  lemma StreamIsHeard(
    p: ProcessLookup.LcuParameters, stretches: seq<Stretch>, front: seq<Received>, r: Received, after: Wire,
    wire: Wire, later: seq<Attempt>, n: nat)
    requires (forall i | 0 <= i < |stretches| :: IsStretch(stretches[i])) && IsEnding(front, r)
    requires wire == WireOf(stretches) + (front + [r] + after) && n >= |Drain(wire)|
    ensures Story([Attempt(Ok(p), WebsocketClient.Accepted(wire))] + later, n + 1) ==
            [Connected] + Messages(LastBlocks(stretches)) + [Disconnected] + Story(later, n - |Drain(wire)|)
  {
    StreamTexts(stretches, front, r, after);
    AcceptedIsTold(p, wire, later, n);
  }
}
