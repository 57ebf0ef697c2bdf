/** The WAMP handler: what it sends, and what its users hear of a run of the connection handler below it. */
module WampHandler {
  import opened Outcomes
  import Decimal
  import ProcessLookup
  import WebsocketClient
  import FrameReassembly
  import opened JsonArrays
  import opened WampText
  import Session = ConnectionSession
  import opened WebsocketHandler

  /** An array element as the JSON library hands it out: its text and its number, unless asking for them throws. */
  datatype Element = Element(text: Option<string>, number: Option<int>)

  /** What the JSON library makes of a message. */
  datatype Document = Unreadable | NotAnArray | ArrayOf(items: seq<Element>)

  type Reader = string -> Document

  datatype UserEvent =
    | LcuConnected
    | LcuDisconnected
    | CallResultReceived(id: string, data: string)
    | CallErrorReceived(id: string, error: string, description: string)
    | EventReceived(event: string, data: string)

  /** Which user callbacks are registered. */
  datatype Callbacks = Callbacks(
    onConnected: bool, onDisconnected: bool, onCallResult: bool, onCallError: bool, onEvent: bool)

  predicate Hears(callbacks: Callbacks, e: UserEvent) {
    match e
    case LcuConnected => callbacks.onConnected
    case LcuDisconnected => callbacks.onDisconnected
    case CallResultReceived(_, _) => callbacks.onCallResult
    case CallErrorReceived(_, _, _) => callbacks.onCallError
    case EventReceived(_, _) => callbacks.onEvent
  }

  /** `get(i)`: a missing element has neither text nor number. */
  function Get(items: seq<Element>, i: nat): Element {
    if i < |items| then items[i] else Element(None, None)
  }

  /** What a message means to the user: at most one event, and none when anything about it throws. */
  function Meaning(document: Document): Option<UserEvent> {
    match document
    case Unreadable => None
    case NotAnArray => None
    case ArrayOf(items) =>
      var first, second, third := Get(items, 1).text, Get(items, 2).text, Get(items, 3).text;
      match Get(items, 0).number
      case None => None
      case Some(code) =>
        if code == Code(CallResult) && first.Some? && second.Some? then
          Some(CallResultReceived(first.value, second.value))
        else if code == Code(CallError) && first.Some? && second.Some? && third.Some? then
          Some(CallErrorReceived(first.value, second.value, third.value))
        else if code == Code(WampMessageType.Event) && first.Some? && second.Some? then
          Some(EventReceived(first.value, second.value))
        else
          None
  }

  /** The user event behind a callback of the connection handler; an empty message is not looked at. */
  function EventBehind(read: Reader, e: Session.Event): Option<UserEvent> {
    match e
    case Connected => Some(LcuConnected)
    case Disconnected => Some(LcuDisconnected)
    case Message(text) => if text == "" then None else Meaning(read(text))
  }

  function Heard(read: Reader, callbacks: Callbacks, e: Session.Event): seq<UserEvent> {
    match EventBehind(read, e)
    case None => []
    case Some(u) => if Hears(callbacks, u) then [u] else []
  }

  function AllHeard(read: Reader, callbacks: Callbacks, trace: seq<Session.Event>): seq<UserEvent> {
    if |trace| == 0 then [] else Heard(read, callbacks, trace[0]) + AllHeard(read, callbacks, trace[1..])
  }

  lemma {:induction false} AllHeardOfConcat(
    read: Reader, callbacks: Callbacks, a: seq<Session.Event>, b: seq<Session.Event>)
    ensures AllHeard(read, callbacks, a + b) == AllHeard(read, callbacks, a) + AllHeard(read, callbacks, b)
  {
    if |a| == 0 {
      assert a + b == b;
    } else {
      assert (a + b)[1..] == a[1..] + b;
      AllHeardOfConcat(read, callbacks, a[1..], b);
    }
  }

  lemma OneHeard(read: Reader, callbacks: Callbacks, e: Session.Event)
    ensures AllHeard(read, callbacks, [e]) == Heard(read, callbacks, e)
  {
    assert [e][1..] == [];
  }

  class LcuWampHandler {
    const handler: LcuWebsocketHandler
    const read: Reader
    var callbacks: Callbacks
    var log: seq<UserEvent>       // the user callbacks made so far

    constructor (world: seq<Surroundings>, read: Reader)
      ensures fresh(handler) && this.read == read && log == []
      ensures callbacks == Callbacks(false, false, false, false, false)
      ensures handler.world == world && handler.websocket == null && Session.AtRest(handler.View())
    {
      this.handler := new LcuWebsocketHandler(world);
      this.read := read;
      this.callbacks := Callbacks(false, false, false, false, false);
      this.log := [];
    }

    method Register(callbacks: Callbacks)
      modifies this`callbacks
      ensures this.callbacks == callbacks
    {
      this.callbacks := callbacks;
    }

    method OnConnected()
      modifies this`log
      ensures log == old(log) + if callbacks.onConnected then [LcuConnected] else []
      ensures log == old(log) + Heard(read, callbacks, Session.Connected)
    {
      if callbacks.onConnected {
        log := log + [LcuConnected];
      }
    }

    method OnDisconnected()
      modifies this`log
      ensures log == old(log) + if callbacks.onDisconnected then [LcuDisconnected] else []
      ensures log == old(log) + Heard(read, callbacks, Session.Disconnected)
    {
      if callbacks.onDisconnected {
        log := log + [LcuDisconnected];
      }
    }

    method OnMessage(message: string)
      modifies this`log
      ensures message == "" ==> log == old(log)
      ensures log == old(log) + Heard(read, callbacks, Session.Message(message))
    {
      if message == "" {
        return;
      }
      DispatchMessage(message);
    }

    method DispatchMessage(message: string)
      modifies this`log
      ensures log == old(log) + match Meaning(read(message))
                                case None => []
                                case Some(u) => if Hears(callbacks, u) then [u] else []
    {
      var document := read(message);
      if !document.ArrayOf? {
        return;
      }
      var items := document.items;
      var code := Get(items, 0).number;
      if code.None? {
        return;
      }
      var first, second, third := Get(items, 1).text, Get(items, 2).text, Get(items, 3).text;
      if code.value == Code(CallResult) {
        if first.Some? && second.Some? && callbacks.onCallResult {
          log := log + [CallResultReceived(first.value, second.value)];
        }
      } else if code.value == Code(CallError) {
        if first.Some? && second.Some? && third.Some? && callbacks.onCallError {
          log := log + [CallErrorReceived(first.value, second.value, third.value)];
        }
      } else if code.value == Code(WampMessageType.Event) {
        if first.Some? && second.Some? && callbacks.onEvent {
          log := log + [EventReceived(first.value, second.value)];
        }
      }
    }

    /** Passes one callback of the connection handler on. */
    method PassOn(e: Session.Event)
      modifies this`log
      ensures log == old(log) + Heard(read, callbacks, e)
    {
      match e
      case Connected => OnConnected();
      case Disconnected => OnDisconnected();
      case Message(text) => OnMessage(text);
    }

    method PassOnAll(told: seq<Session.Event>)
      modifies this`log
      ensures log == old(log) + AllHeard(read, callbacks, told)
    {
      for i := 0 to |told|
        invariant log == old(log) + AllHeard(read, callbacks, told[..i])
      {
        PassOn(told[i]);
        assert told[..i + 1] == told[..i] + [told[i]];
        AllHeardOfConcat(read, callbacks, told[..i], [told[i]]);
        OneHeard(read, callbacks, told[i]);
      }
      assert told[..|told|] == told;
    }

    /**
     A run as its users hear it: every callback of the connection handler, in order, gives rise to
     what it means and nothing else does.
     */
    method Run(passes: nat)
      requires Session.AtRest(handler.View())
      modifies this`log, handler, handler.websocket
      ensures Session.AtRest(handler.View())
      ensures log == old(log) + AllHeard(read, callbacks, Session.Story(old(AttemptsOf(handler.world)), passes))
    {
      var start := |handler.trace|;
      handler.Run(passes);
      PassOnAll(handler.trace[start..]);
    }

    method Stop()
      modifies handler`stop, handler.websocket
      ensures handler.stop && handler.View() == old(handler.View())
      ensures var socket := handler.View().socket;
              handler.Sent() ==
              old(handler.Sent()) + if Session.Up(socket) && socket.value.websocket.Some? then ["Exit"] else []
    {
      handler.Stop();
    }

    method CallFunction(id: string, func: string, args: seq<string>) returns (ok: bool)
      requires |args| > 0
      modifies handler.websocket
      ensures handler.View() == old(handler.View())
      ensures ok <==> Session.Up(handler.View().socket) && handler.View().socket.value.websocket.Some?
      ensures handler.Sent() == old(handler.Sent()) + if ok then [CallText(id, func, args)] else []
    {
      ok := handler.SendMessage(CallText(id, func, args));
    }

    method CallFunctionWithoutArguments(id: string, func: string) returns (ok: bool)
      modifies handler.websocket
      ensures handler.View() == old(handler.View())
      ensures ok <==> Session.Up(handler.View().socket) && handler.View().socket.value.websocket.Some?
      ensures handler.Sent() == old(handler.Sent()) + if ok then [CallTextWithoutArguments(id, func)] else []
    {
      ok := handler.SendMessage(CallTextWithoutArguments(id, func));
    }

    method SubscribeTo(event: string) returns (ok: bool)
      modifies handler.websocket
      ensures handler.View() == old(handler.View())
      ensures ok <==> Session.Up(handler.View().socket) && handler.View().socket.value.websocket.Some?
      ensures handler.Sent() == old(handler.Sent()) + if ok then [SubscribeText(event)] else []
    {
      ok := handler.SendMessage(SubscribeText(event));
    }

    method UnsubscribeFrom(event: string) returns (ok: bool)
      modifies handler.websocket
      ensures handler.View() == old(handler.View())
      ensures ok <==> Session.Up(handler.View().socket) && handler.View().socket.value.websocket.Some?
      ensures handler.Sent() == old(handler.Sent()) + if ok then [UnsubscribeText(event)] else []
    {
      ok := handler.SendMessage(UnsubscribeText(event));
    }
  }

  // ---------- what the users hear, callback by callback ----------

  /** An array that begins with a code and these texts. */
  predicate BeginsWith(items: seq<Element>, code: int, texts: seq<string>) {
    && |items| > |texts|
    && items[0].number == Some(code)
    && forall i | 0 <= i < |texts| :: items[i + 1].text == Some(texts[i])
  }

  /** The message is an answer that asks for this user callback. */
  predicate Says(read: Reader, text: string, e: UserEvent) {
    && text != "" && read(text).ArrayOf?
    && var items := read(text).items;
       match e
       case CallResultReceived(id, data) => BeginsWith(items, 3, [id, data])
       case CallErrorReceived(id, error, description) => BeginsWith(items, 4, [id, error, description])
       case EventReceived(event, data) => BeginsWith(items, 8, [event, data])
       case _ => false
  }

  /** Such a message makes that callback if it is registered, and nothing else. */
  lemma AnswerIsHeard(read: Reader, callbacks: Callbacks, text: string, e: UserEvent)
    requires Says(read, text, e)
    ensures var registered := match e
                              case CallResultReceived(_, _) => callbacks.onCallResult
                              case CallErrorReceived(_, _, _) => callbacks.onCallError
                              case EventReceived(_, _) => callbacks.onEvent
                              case _ => false;
            AllHeard(read, callbacks, [Session.Message(text)]) == if registered then [e] else []
  {
    var items := read(text).items;
    OneHeard(read, callbacks, Session.Message(text));
    match e
    case CallResultReceived(id, data) =>
      assert items[0 + 1].text == Some([id, data][0]) && items[1 + 1].text == Some([id, data][1]);
    case CallErrorReceived(id, error, description) =>
      var texts := [id, error, description];
      assert items[0 + 1].text == Some(texts[0]) && items[1 + 1].text == Some(texts[1]);
      assert items[2 + 1].text == Some(texts[2]);
    case EventReceived(event, data) =>
      assert items[0 + 1].text == Some([event, data][0]) && items[1 + 1].text == Some([event, data][1]);
    case _ =>
  }

  /** Every other message is heard by no one: it is empty, not readable, no array, or no answer. */
  lemma OtherMessagesAreSilent(read: Reader, callbacks: Callbacks, text: string)
    requires forall e :: !Says(read, text, e)
    ensures AllHeard(read, callbacks, [Session.Message(text)]) == []
  {
    OneHeard(read, callbacks, Session.Message(text));
    var heard := EventBehind(read, Session.Message(text));
    if heard.Some? {
      assert Says(read, text, heard.value);
    }
  }

  /** Connections and disconnections make their own callbacks; the texts that say nothing make none. */
  lemma OthersAreHeard(read: Reader, callbacks: Callbacks, text: string)
    ensures AllHeard(read, callbacks, [Session.Connected]) == if callbacks.onConnected then [LcuConnected] else []
    ensures AllHeard(read, callbacks, [Session.Disconnected]) ==
            if callbacks.onDisconnected then [LcuDisconnected] else []
    ensures text == "" || !read(text).ArrayOf? ==> AllHeard(read, callbacks, [Session.Message(text)]) == []
  {
    OneHeard(read, callbacks, Session.Connected);
    OneHeard(read, callbacks, Session.Disconnected);
    OneHeard(read, callbacks, Session.Message(text));
  }

  // ---------- end to end ----------

  /** What the users hear of one attempt: the peer's messages between its connection and its disconnection. */
  function PeerHeard(read: Reader, callbacks: Callbacks, peer: Session.Peer): seq<UserEvent> {
    match peer
    case None => []
    case Some(messages) =>
      (if callbacks.onConnected then [LcuConnected] else [])
      + AllHeard(read, callbacks, Session.Messages(Session.WholeTexts(messages)))
      + (if callbacks.onDisconnected then [LcuDisconnected] else [])
  }

  function PeersHeard(read: Reader, callbacks: Callbacks, peers: seq<Session.Peer>): seq<UserEvent> {
    if |peers| == 0 then [] else PeerHeard(read, callbacks, peers[0]) + PeersHeard(read, callbacks, peers[1..])
  }

  /**
   From the frames of the peers to the user callbacks: attempts fail or find a peer, in any order, and
   with peers that cut their messages so that they survive, each message of each peer is heard once, in
   order, within that peer's connection.
   */
  lemma UsersHearCleanPeers(
    read: Reader, callbacks: Callbacks, future: seq<Session.Attempt>, peers: seq<Session.Peer>, n: nat)
    requires |future| == |peers| && forall i | 0 <= i < |peers| :: Session.Finds(future[i], peers[i])
    requires n >= Session.PassesNeeded(peers)
    ensures AllHeard(read, callbacks, Session.Story(future, n)) == PeersHeard(read, callbacks, peers)
  {
    Session.CleanPeersAreHeard(future, peers, n);
    EpisodesAreHeard(read, callbacks, peers);
  }

  lemma {:induction false} EpisodesAreHeard(read: Reader, callbacks: Callbacks, peers: seq<Session.Peer>)
    ensures AllHeard(read, callbacks, Session.EpisodesOf(peers)) == PeersHeard(read, callbacks, peers)
  {
    if |peers| > 0 {
      EpisodesAreHeard(read, callbacks, peers[1..]);
      AllHeardOfConcat(read, callbacks, Session.EpisodeOf(peers[0]), Session.EpisodesOf(peers[1..]));
      if peers[0].Some? {
        EpisodeIsHeard(read, callbacks, peers[0].value);
      }
    }
  }

  lemma EpisodeIsHeard(read: Reader, callbacks: Callbacks, messages: seq<seq<FrameReassembly.Payload>>)
    ensures AllHeard(read, callbacks, Session.EpisodeOf(Some(messages))) == PeerHeard(read, callbacks, Some(messages))
  {
    var said := Session.Messages(Session.WholeTexts(messages));
    AllHeardOfConcat(read, callbacks, [Session.Connected] + said, [Session.Disconnected]);
    AllHeardOfConcat(read, callbacks, [Session.Connected], said);
    OneHeard(read, callbacks, Session.Connected);
    OneHeard(read, callbacks, Session.Disconnected);
  }

  lemma {:induction false} AnswersAreHeard(
    read: Reader, callbacks: Callbacks, texts: seq<string>, answers: seq<UserEvent>)
    requires callbacks == Callbacks(true, true, true, true, true)
    requires |answers| == |texts| && forall i | 0 <= i < |texts| :: Says(read, texts[i], answers[i])
    ensures AllHeard(read, callbacks, Session.Messages(texts)) == answers
  {
    if |texts| > 0 {
      var later := Session.Messages(texts[1..]);
      assert Session.Messages(texts) == [Session.Message(texts[0])] + later;
      assert Says(read, texts[0], answers[0]);
      AllHeardOfConcat(read, callbacks, [Session.Message(texts[0])], later);
      AnswerIsHeard(read, callbacks, texts[0], answers[0]);
      AnswersAreHeard(read, callbacks, texts[1..], answers[1..]);
      assert answers == [answers[0]] + answers[1..];
    }
  }

  /**
   A peer that answers, from its frames to the user callbacks: connected, one callback for each answer with
   the texts it carries, disconnected; then whatever the later attempts lead to.
   */
  lemma AnsweringPeerIsHeard(
    read: Reader, p: ProcessLookup.LcuParameters, messages: seq<seq<FrameReassembly.Payload>>,
    answers: seq<UserEvent>, later: seq<Session.Attempt>, n: nat)
    requires |answers| == |messages|
    requires forall i | 0 <= i < |messages| ::
               FrameReassembly.Survives(messages[i]) && Says(read, FrameReassembly.Concat(messages[i]), answers[i])
    ensures var callbacks := Callbacks(true, true, true, true, true);
            var peer := Session.Attempt(Ok(p), WebsocketClient.Accepted(FrameReassembly.FragmentAll(messages)));
            AllHeard(read, callbacks, Session.Story([peer] + later, n + 2 + |messages|)) ==
            [LcuConnected] + answers + [LcuDisconnected] + AllHeard(read, callbacks, Session.Story(later, n))
  {
    var callbacks := Callbacks(true, true, true, true, true);
    var peer := Session.Attempt(Ok(p), WebsocketClient.Accepted(FrameReassembly.FragmentAll(messages)));
    var episode := Session.EpisodeOf(Some(messages));
    assert Session.Sends(peer, messages);
    assert ([peer] + later)[1..] == later;
    Session.CleanPeerIsHeard([peer] + later, messages, n + 2 + |messages|);
    AllHeardOfConcat(read, callbacks, episode, Session.Story(later, n));
    EpisodeIsHeard(read, callbacks, messages);
    AnswersAreHeard(read, callbacks, Session.WholeTexts(messages), answers);
  }

  // ---------- dispatch of the texts themselves ----------

  function Decimals(n: int): string {
    if n < 0 then "-" + Decimal.Print(0 - n) else Decimal.Print(n)
  }

  /** The reader of this model, seen as a JSON library; a string is never asked for as a number here. */
  function ReadSubset(s: string): Document {
    match Parse(s)
    case None => Unreadable
    case Some(items) => ArrayOf(Elements(items))
  }

  function ElementOf(x: Scalar): Element {
    match x
    case Number(n) => Element(Some(Decimals(n)), Some(n))
    case Text(t) => Element(Some(t), None)
  }

  function Elements(items: seq<Scalar>): (r: seq<Element>)
    ensures |r| == |items| && forall i | 0 <= i < |items| :: r[i] == ElementOf(items[i])
  {
    if |items| == 0 then [] else [ElementOf(items[0])] + Elements(items[1..])
  }

  /**
   An answer written as an array of strings, each escaped as its sender likes, is heard by its code with the
   strings that were meant; an array with another code, or with too few strings, is not heard.
   */
  lemma AnswersAreDispatched(callbacks: Callbacks, n: nat, raws: seq<string>, texts: seq<string>)
    requires AllReadTo(raws, texts)
    ensures AllHeard(ReadSubset, callbacks, [Session.Message(Render(n, raws))]) ==
            if n == 3 && |texts| >= 2 && callbacks.onCallResult then [CallResultReceived(texts[0], texts[1])]
            else if n == 4 && |texts| >= 3 && callbacks.onCallError then
              [CallErrorReceived(texts[0], texts[1], texts[2])]
            else if n == 8 && |texts| >= 2 && callbacks.onEvent then [EventReceived(texts[0], texts[1])]
            else []
  {
    var items := [Number(n)] + TextItems(texts);
    RenderIsRead(n, raws, texts);
    OneHeard(ReadSubset, callbacks, Session.Message(Render(n, raws)));
    assert Elements(items)[0] == ElementOf(Number(n));
    forall i: nat
      ensures Get(Elements(items), 1 + i).text == if i < |texts| then Some(texts[i]) else None
    {
      if i < |texts| {
        assert items[1 + i] == Text(texts[i]);
      }
    }
    MeaningByCode(Elements(items), n);
    assert Get(Elements(items), 1 + 0).text == if 0 < |texts| then Some(texts[0]) else None;
    assert Get(Elements(items), 1 + 1).text == if 1 < |texts| then Some(texts[1]) else None;
    assert Get(Elements(items), 1 + 2).text == if 2 < |texts| then Some(texts[2]) else None;
  }

  /** A text the reader rejects is not heard. */
  lemma UnreadableTextsAreSilent(callbacks: Callbacks, text: string)
    requires Parse(text).None?
    ensures AllHeard(ReadSubset, callbacks, [Session.Message(text)]) == []
  {
    OthersAreHeard(ReadSubset, callbacks, text);
  }

  lemma MeaningByCode(items: seq<Element>, n: nat)
    requires |items| > 0 && items[0].number == Some(n)
    ensures var a, b, c := Get(items, 1).text, Get(items, 2).text, Get(items, 3).text;
            Meaning(ArrayOf(items)) ==
            if n == 3 && a.Some? && b.Some? then Some(CallResultReceived(a.value, b.value))
            else if n == 4 && a.Some? && b.Some? && c.Some? then Some(CallErrorReceived(a.value, b.value, c.value))
            else if n == 8 && a.Some? && b.Some? then Some(EventReceived(a.value, b.value))
            else None
  {
  }
}
