/**
 What the thread inside `Lcu_websocket_handler::run` does between two of its stop checks, as functions
 of the session state, and what whole runs amount to.
 */
module ConnectionSession {
  import opened Outcomes
  import opened FrameReassembly
  import ProcessLookup
  import WebsocketClient

  /** An invocation of one of the three callbacks. */
  datatype Event = Connected | Disconnected | Message(text: string)

  /** What the loop meets when it tries to connect: the parameter lookup, and the connection itself. */
  datatype Attempt = Attempt(
    lookup: Result<ProcessLookup.LcuParameters, ProcessLookup.LookupError>, link: WebsocketClient.Link)

  /** `m_websocket`, `m_is_state_connected`, the callbacks made so far and the attempts still to come. */
  datatype Session = Session(socket: Option<ClientState>, notified: bool, trace: seq<Event>, future: seq<Attempt>)

  /** `m_websocket && m_websocket->is_connected()`. */
  predicate Up(socket: Option<ClientState>) {
    socket.Some? && socket.value.connected
  }

  /** The callback `notify_connection_state_changed` makes, if any. */
  function NoticeOf(notified: bool, connected: bool): seq<Event> {
    if connected && !notified then [Connected]
    else if !connected && notified then [Disconnected]
    else []
  }

  function Notify(h: Session, connected: bool): Session {
    h.(trace := h.trace + NoticeOf(h.notified, connected), notified := connected)
  }

  function DropStale(h: Session): Session {
    if h.socket.Some? && !h.socket.value.connected then h.(socket := None) else h
  }

  /** Looking the client up and starting a new connection; once the script is used up no client is running. */
  function Dial(h: Session): (bool, Session) {
    if |h.future| == 0 then (false, h)
    else
      var a := h.future[0];
      var later := h.(future := h.future[1..]);
      if a.lookup.Err? then (false, later)
      else (a.link.Accepted?, later.(socket := Some(WebsocketClient.Started(WebsocketClient.NEW_CLIENT, a.link))))
  }

  /** `reconnect`: false when it throws. */
  function Reconnect(h: Session): (bool, Session) {
    var d := DropStale(h);
    if d.socket.None? then Dial(d) else (true, d)
  }

  /** What `reconnect` does, case by case; an attempt that fails leaves its client behind if there is one. */
  lemma ReconnectByCases(h: Session)
    ensures Reconnect(h) ==
            if h.socket.Some? && h.socket.value.connected then (true, h)
            else if h.future == [] then (false, h.(socket := None))
            else
              var a, later := h.future[0], h.(future := h.future[1..]);
              if a.lookup.Err? then (false, later.(socket := None))
              else if a.link.Refused? then (false, later.(socket := Some(ClientState(None, false))))
              else (true, later.(socket := Some(ClientState(Some(a.link.wire), true))))
  {
  }

  /** The rest of `reconnect_and_notify` after its first notification. */
  function Redial(h: Session): Session {
    var (ok, d) := Reconnect(h);
    if ok then Notify(d, true) else d
  }

  function ReconnectAndNotify(h: Session): Session {
    Redial(Notify(h, false))
  }

  function MessagesOf(r: Result<string, ClientError>): seq<Event> {
    match r
    case Ok(text) => [Message(text)]
    case Err(_) => []
  }

  /** `receive_message`: a message is passed on, an exception is swallowed. */
  function ReceiveAndPassOn(h: Session): Session
    requires h.socket.Some?
  {
    var (r, c) := Receive(h.socket.value);
    h.(socket := Some(c), trace := h.trace + MessagesOf(r))
  }

  /** One pass through the loop that is not told to stop. */
  function Turn(h: Session): Session {
    if Up(h.socket) then ReceiveAndPassOn(h) else ReconnectAndNotify(h)
  }

  /** The pass that is told to stop. */
  function Halt(h: Session): Session {
    Notify(h.(socket := None), false)
  }

  function Turns(h: Session, n: nat): Session
    decreases n
  {
    if n == 0 then h else Turns(Turn(h), n - 1)
  }

  /** A `run()` that sees the stop request at its check number `n`. */
  function Run(h: Session, n: nat): Session {
    Halt(Turns(h, n))
  }

  // ---------- the callback language ----------

  /** Reads a trace; Some(up) when it is a prefix of (Connected Message* Disconnected)*. */
  function Phase(trace: seq<Event>): Option<bool> {
    if |trace| == 0 then Some(false)
    else
      match (Phase(trace[..|trace| - 1]), trace[|trace| - 1])
      case (Some(up), Connected) => if up then None else Some(true)
      case (Some(up), Disconnected) => if up then Some(false) else None
      case (Some(up), Message(_)) => if up then Some(true) else None
      case (None, _) => None
  }

  lemma PhaseOfAppend(trace: seq<Event>, e: Event)
    ensures Phase(trace + [e]) ==
            match (Phase(trace), e)
            case (Some(up), Connected) => if up then None else Some(true)
            case (Some(up), Disconnected) => if up then Some(false) else None
            case (Some(up), Message(_)) => if up then Some(true) else None
            case (None, _) => None
  {
    assert (trace + [e])[..|trace|] == trace;
  }

  function Messages(texts: seq<string>): seq<Event> {
    seq(|texts|, i requires 0 <= i < |texts| => Message(texts[i]))
  }

  function Episode(texts: seq<string>): seq<Event> {
    [Connected] + Messages(texts) + [Disconnected]
  }

  function Episodes(all: seq<seq<string>>): seq<Event> {
    if |all| == 0 then [] else Episodes(all[..|all| - 1]) + Episode(all[|all| - 1])
  }

  /** A closed trace is a sequence of episodes; an open one continues with an unfinished episode. */
  ghost predicate IsComplete(trace: seq<Event>) {
    exists all :: trace == Episodes(all)
  }

  ghost predicate IsUnfinished(trace: seq<Event>) {
    exists all, texts :: trace == Episodes(all) + [Connected] + Messages(texts)
  }

  /** The reader recognises exactly that language. */
  lemma {:induction false} PhaseIsGrammar(trace: seq<Event>)
    ensures Phase(trace) == Some(false) <==> IsComplete(trace)
    ensures Phase(trace) == Some(true) <==> IsUnfinished(trace)
  {
    PhaseHasWitness(trace);
    forall all | trace == Episodes(all)
      ensures Phase(trace) == Some(false)
    {
      PhaseOfEpisodes(all);
    }
    forall all, texts | trace == Episodes(all) + [Connected] + Messages(texts)
      ensures Phase(trace) == Some(true)
    {
      PhaseOfOpenEpisode(all, texts);
    }
  }

  lemma {:induction false} PhaseOfOpenEpisode(all: seq<seq<string>>, texts: seq<string>)
    ensures Phase(Episodes(all) + [Connected] + Messages(texts)) == Some(true)
    decreases |all|, |texts| + 1
  {
    var start := Episodes(all) + [Connected];
    if |texts| == 0 {
      PhaseOfEpisodes(all);
      PhaseOfAppend(Episodes(all), Connected);
      assert start + Messages(texts) == start;
    } else {
      var front := texts[..|texts| - 1];
      PhaseOfOpenEpisode(all, front);
      assert start + Messages(texts) == start + Messages(front) + [Message(texts[|texts| - 1])];
      PhaseOfAppend(start + Messages(front), Message(texts[|texts| - 1]));
    }
  }

  lemma {:induction false} PhaseOfEpisodes(all: seq<seq<string>>)
    ensures Phase(Episodes(all)) == Some(false)
    decreases |all|, 0
  {
    if |all| > 0 {
      var front := all[..|all| - 1];
      var texts := all[|all| - 1];
      PhaseOfOpenEpisode(front, texts);
      var open := Episodes(front) + [Connected] + Messages(texts);
      assert Episodes(all) == open + [Disconnected];
      PhaseOfAppend(open, Disconnected);
    }
  }

  lemma {:induction false} PhaseHasWitness(trace: seq<Event>)
    ensures Phase(trace) == Some(false) ==> IsComplete(trace)
    ensures Phase(trace) == Some(true) ==> IsUnfinished(trace)
  {
    if |trace| == 0 {
      assert trace == Episodes([]);
    } else {
      var front := trace[..|trace| - 1];
      var last := trace[|trace| - 1];
      assert trace == front + [last];
      PhaseHasWitness(front);
      if Phase(front) == Some(false) && last == Connected {
        EpisodeBegins(front);
      } else if Phase(front) == Some(true) && last.Message? {
        EpisodeGoesOn(front, last.text);
      } else if Phase(front) == Some(true) && last == Disconnected {
        EpisodeEnds(front);
      }
    }
  }

  lemma EpisodeBegins(trace: seq<Event>)
    requires IsComplete(trace)
    ensures IsUnfinished(trace + [Connected])
  {
    var all :| trace == Episodes(all);
    assert trace + [Connected] == Episodes(all) + [Connected] + Messages([]);
  }

  lemma EpisodeGoesOn(trace: seq<Event>, text: string)
    requires IsUnfinished(trace)
    ensures IsUnfinished(trace + [Message(text)])
  {
    var all, texts :| trace == Episodes(all) + [Connected] + Messages(texts);
    assert Messages(texts + [text]) == Messages(texts) + [Message(text)];
    assert trace + [Message(text)] == Episodes(all) + [Connected] + Messages(texts + [text]);
  }

  lemma EpisodeEnds(trace: seq<Event>)
    requires IsUnfinished(trace)
    ensures IsComplete(trace + [Disconnected])
  {
    var all, texts :| trace == Episodes(all) + [Connected] + Messages(texts);
    assert (all + [texts])[..|all|] == all;
    assert trace + [Disconnected] == Episodes(all + [texts]);
  }

  // ---------- what every pass keeps ----------

  /** The state at every loop head: an up socket has been announced and is open, and the trace agrees. */
  ghost predicate AtLoopHead(h: Session) {
    && (Up(h.socket) ==> h.notified && h.socket.value.websocket.Some?)
    && Phase(h.trace) == Some(h.notified)
  }

  /** The state between two runs. */
  ghost predicate AtRest(h: Session) {
    h.socket.None? && !h.notified && Phase(h.trace) == Some(false)
  }

  lemma NotifyKeepsPhase(h: Session, connected: bool)
    requires Phase(h.trace) == Some(h.notified)
    ensures Phase(Notify(h, connected).trace) == Some(connected)
  {
    PhaseOfAppend(h.trace, Connected);
    PhaseOfAppend(h.trace, Disconnected);
    assert h.trace + [] == h.trace;
  }

  lemma TurnKeepsLoopHead(h: Session)
    requires AtLoopHead(h)
    ensures AtLoopHead(Turn(h))
  {
    if Up(h.socket) {
      var (r, c) := Receive(h.socket.value);
      if r.Ok? {
        PhaseOfAppend(h.trace, Message(r.value));
      }
      assert h.trace + [] == h.trace;
    } else {
      var down := Notify(h, false);
      NotifyKeepsPhase(h, false);
      var (ok, d) := Reconnect(down);
      NotifyKeepsPhase(d, true);
    }
  }

  lemma HaltComesToRest(h: Session)
    requires AtLoopHead(h)
    ensures AtRest(Halt(h))
  {
    NotifyKeepsPhase(h.(socket := None), false);
  }

  lemma {:induction false} TurnsKeepLoopHead(h: Session, n: nat)
    requires AtLoopHead(h)
    ensures AtLoopHead(Turns(h, n))
    decreases n
  {
    if n > 0 {
      TurnKeepsLoopHead(h);
      TurnsKeepLoopHead(Turn(h), n - 1);
    }
  }

  function Runs(h: Session, lengths: seq<nat>): Session
    decreases |lengths|
  {
    if |lengths| == 0 then h else Runs(Run(h, lengths[0]), lengths[1..])
  }

  /**
   The whole life of a handler: after any sequence of runs, of any lengths and whatever the lookups,
   connections and frames did, the socket is gone, nothing is announced as connected, and the
   callbacks form complete episodes.
   */
  lemma {:induction false} RunsComeToRest(h: Session, lengths: seq<nat>)
    requires AtRest(h)
    ensures AtRest(Runs(h, lengths))
    ensures IsComplete(Runs(h, lengths).trace)
    decreases |lengths|
  {
    if |lengths| > 0 {
      TurnsKeepLoopHead(h, lengths[0]);
      HaltComesToRest(Turns(h, lengths[0]));
      RunsComeToRest(Run(h, lengths[0]), lengths[1..]);
    } else {
      PhaseIsGrammar(h.trace);
    }
  }

  // ---------- what a run tells its callbacks ----------

  /** The connection an attempt leads to, if it leads to one. */
  function Reached(a: Attempt): Option<Wire> {
    if a.lookup.Ok? && a.link.Accepted? then Some(a.link.wire) else None
  }

  function Take<T>(s: seq<T>, n: nat): seq<T> {
    if n <= |s| then s[..n] else s
  }

  /** The texts among the results of some receptions. */
  function OkTexts(results: seq<Result<string, ClientError>>): seq<string> {
    if |results| == 0 then []
    else if results[0].Ok? then [results[0].value] + OkTexts(results[1..])
    else OkTexts(results[1..])
  }

  /**
   The callbacks of a run told by its attempts instead of its passes: an attempt that reaches nothing
   costs one pass and says nothing; one that reaches a peer makes an episode of what the successive
   receptions deliver until the connection drops or the run is stopped.
   */
  function Story(future: seq<Attempt>, n: nat): seq<Event>
    decreases |future|, 0
  {
    if n == 0 || |future| == 0 then []
    else
      match Reached(future[0])
      case None => Story(future[1..], n - 1)
      case Some(wire) => [Connected] + EpisodeAndAfter(wire, future[1..], n - 1)
  }

  /** The story from a point where the connection is up and `wire` is still to come. */
  function EpisodeAndAfter(wire: Wire, future: seq<Attempt>, n: nat): seq<Event>
    decreases |future|, 1
  {
    var results := Take(Drain(wire), n);
    Messages(OkTexts(results)) + [Disconnected] + Story(future, n - |results|)
  }

  /** Refinement: the loop's callbacks are the story of its attempts, whatever they are. */
  lemma RunTellsStory(h: Session, n: nat)
    requires AtRest(h)
    ensures Run(h, n).trace == h.trace + Story(h.future, n)
  {
    DownRun(h, n);
    assert h.trace + [] == h.trace;
  }

  lemma AcceptedIsTold(p: ProcessLookup.LcuParameters, wire: Wire, later: seq<Attempt>, n: nat)
    ensures var results := Drain(wire);
            Story([Attempt(Ok(p), WebsocketClient.Accepted(wire))] + later, n + 1) ==
            if n < |results| then [Connected] + Messages(OkTexts(results[..n])) + [Disconnected]
            else [Connected] + Messages(OkTexts(results)) + [Disconnected] + Story(later, n - |results|)
  {
    var accepted := [Attempt(Ok(p), WebsocketClient.Accepted(wire))] + later;
    var results := Take(Drain(wire), n);
    assert accepted[1..] == later;
    assert Story(accepted, n + 1) == [Connected] + EpisodeAndAfter(wire, later, n);
    EpisodeJoins(Messages(OkTexts(results)), Story(later, n - |results|));
    TakeByLength(Drain(wire), n);
  }

  lemma EpisodeJoins(told: seq<Event>, rest: seq<Event>)
    ensures [Connected] + (told + [Disconnected] + rest) == [Connected] + told + [Disconnected] + rest
    ensures rest == [] ==> [Connected] + told + [Disconnected] + rest == [Connected] + told + [Disconnected]
  {
  }

  lemma TakeByLength<T>(s: seq<T>, n: nat)
    ensures Take(s, n) == if n < |s| then s[..n] else s
    ensures n <= |s| ==> |Take(s, n)| == n
  {
  }

  /**
   The story, attempt by attempt: a lookup that fails and a connection that is refused take a pass and say
   nothing; an accepted connection is an episode of the texts that were received whole, each error silent.
   */
  lemma StoryOfAttempt(
    e: ProcessLookup.LookupError, p: ProcessLookup.LcuParameters, link: WebsocketClient.Link, refusal: bool,
    wire: Wire, later: seq<Attempt>, n: nat)
    ensures Story([Attempt(Err(e), link)] + later, n + 1) == Story(later, n)
    ensures Story([Attempt(Ok(p), WebsocketClient.Refused(refusal))] + later, n + 1) == Story(later, n)
    ensures var results := Drain(wire);
            Story([Attempt(Ok(p), WebsocketClient.Accepted(wire))] + later, n + 1) ==
            if n < |results| then [Connected] + Messages(OkTexts(results[..n])) + [Disconnected]
            else [Connected] + Messages(OkTexts(results)) + [Disconnected] + Story(later, n - |results|)
  {
    var failing := [Attempt(Err(e), link)] + later;
    var refused := [Attempt(Ok(p), WebsocketClient.Refused(refusal))] + later;
    assert failing[1..] == refused[1..] == later;
    AcceptedIsTold(p, wire, later, n);
  }

  /** The attempts left after one pass that has to connect. */
  function Later(future: seq<Attempt>): seq<Attempt> {
    if |future| == 0 then [] else future[1..]
  }

  lemma FailedPass(h: Session)
    requires !Up(h.socket) && (|h.future| == 0 || Reached(h.future[0]).None?)
    ensures var t := Turn(h);
            && t.trace == h.trace + NoticeOf(h.notified, false)
            && !Up(t.socket) && !t.notified && t.future == Later(h.future)
  {
  }

  lemma ConnectingPass(h: Session)
    requires !Up(h.socket) && |h.future| > 0 && Reached(h.future[0]).Some?
    ensures Turn(h) == Session(
                         Some(ClientState(Reached(h.future[0]), true)), true,
                         h.trace + NoticeOf(h.notified, false) + [Connected], h.future[1..])
  {
  }

  lemma ReceivingPass(h: Session, wire: Wire)
    requires h.socket == Some(ClientState(Some(wire), true))
    ensures var r := Assemble(wire, "", 0);
            Turn(h) == Session(
                         Some(ClientState(Some(r.rest), !r.dropped)), h.notified,
                         h.trace + MessagesOf(r.result), h.future)
  {
  }

  lemma TakeOfDrain(wire: Wire, n: nat)
    requires n > 0
    ensures var r := Assemble(wire, "", 0);
            Take(Drain(wire), n) == [r.result] + if r.dropped then [] else Take(Drain(r.rest), n - 1)
  {
  }

  lemma OkTextsCons(r: Result<string, ClientError>, later: seq<Result<string, ClientError>>)
    ensures Messages(OkTexts([r] + later)) == MessagesOf(r) + Messages(OkTexts(later))
  {
    assert ([r] + later)[1..] == later;
  }

  lemma EpisodeStep(wire: Wire, future: seq<Attempt>, n: nat)
    requires n > 0
    ensures var r := Assemble(wire, "", 0);
            EpisodeAndAfter(wire, future, n) ==
            MessagesOf(r.result) + if r.dropped then [Disconnected] + Story(future, n - 1)
                                   else EpisodeAndAfter(r.rest, future, n - 1)
  {
    var r := Assemble(wire, "", 0);
    var later := if r.dropped then [] else Take(Drain(r.rest), n - 1);
    var rest := Story(future, n - 1 - |later|);
    TakeOfDrain(wire, n);
    var told := Messages(OkTexts(later));
    OkTextsCons(r.result, later);
    Associate(MessagesOf(r.result), told, [Disconnected]);
    Associate(MessagesOf(r.result), told + [Disconnected], rest);
    assert r.dropped ==> told + [Disconnected] == [Disconnected];
  }

  lemma RunStep(h: Session, n: nat)
    requires n > 0
    ensures Run(h, n) == Run(Turn(h), n - 1)
  {
  }

  lemma {:induction false} DownRun(h: Session, n: nat)
    requires !Up(h.socket)
    ensures Run(h, n).trace == h.trace + NoticeOf(h.notified, false) + Story(h.future, n)
    decreases n
  {
    var down := h.trace + NoticeOf(h.notified, false);
    if n == 0 {
      assert down + [] == down;
    } else if |h.future| == 0 || Reached(h.future[0]).None? {
      RunStep(h, n);
      FailedPass(h);
      DownRun(Turn(h), n - 1);
      assert down + [] == down;
      assert Story(h.future, n) == Story(Later(h.future), n - 1);
    } else {
      var wire := Reached(h.future[0]).value;
      RunStep(h, n);
      ConnectingPass(h);
      UpRun(Turn(h), wire, n - 1);
      Associate(down, [Connected], EpisodeAndAfter(wire, h.future[1..], n - 1));
    }
  }

  lemma {:induction false} UpRun(h: Session, wire: Wire, n: nat)
    requires h.socket == Some(ClientState(Some(wire), true)) && h.notified
    ensures Run(h, n).trace == h.trace + EpisodeAndAfter(wire, h.future, n)
    decreases n
  {
    if n == 0 {
      assert Take(Drain(wire), 0) == [];
      assert EpisodeAndAfter(wire, h.future, 0) == [Disconnected];
    } else {
      var r := Assemble(wire, "", 0);
      RunStep(h, n);
      ReceivingPass(h, wire);
      EpisodeStep(wire, h.future, n);
      if r.dropped {
        DownRun(Turn(h), n - 1);
        Associate(h.trace + MessagesOf(r.result), [Disconnected], Story(h.future, n - 1));
        Associate(h.trace, MessagesOf(r.result), [Disconnected] + Story(h.future, n - 1));
      } else {
        UpRun(Turn(h), r.rest, n - 1);
        Associate(h.trace, MessagesOf(r.result), EpisodeAndAfter(r.rest, h.future, n - 1));
      }
    }
  }

  // ---------- peers that fragment their messages properly ----------

  /** An attempt that reaches a peer sending these messages, each cut so that it survives. */
  ghost predicate Sends(a: Attempt, messages: seq<seq<Payload>>) {
    && Reached(a) == Some(FragmentAll(messages))
    && forall i | 0 <= i < |messages| :: Survives(messages[i])
  }

  function WholeTexts(messages: seq<seq<Payload>>): seq<string> {
    seq(|messages|, i requires 0 <= i < |messages| => Concat(messages[i]))
  }

  /** What an attempt finds: nothing it can connect to, or a peer and the messages it sends. */
  type Peer = Option<seq<seq<Payload>>>

  ghost predicate Finds(a: Attempt, peer: Peer) {
    match peer
    case None => Reached(a).None?
    case Some(messages) => Sends(a, messages)
  }

  /** A failed attempt takes one pass; a peer one to connect, one for each message, one to see it go. */
  function PassesOf(peer: Peer): nat {
    if peer.None? then 1 else 2 + |peer.value|
  }

  function PassesNeeded(peers: seq<Peer>): nat {
    if |peers| == 0 then 0 else PassesOf(peers[0]) + PassesNeeded(peers[1..])
  }

  function EpisodeOf(peer: Peer): seq<Event> {
    match peer
    case None => []
    case Some(messages) => Episode(WholeTexts(messages))
  }

  /** One episode for each peer, first to last. */
  function EpisodesOf(peers: seq<Peer>): seq<Event> {
    if |peers| == 0 then [] else EpisodeOf(peers[0]) + EpisodesOf(peers[1..])
  }

  lemma {:induction false} OkTextsOfOks(messages: seq<seq<Payload>>)
    ensures OkTexts(Oks(messages) + [Err(PeerClosed)]) == WholeTexts(messages)
  {
    var last: seq<Result<string, ClientError>> := [Err(PeerClosed)];
    if |messages| == 0 {
      assert Oks(messages) + last == [Err(PeerClosed)] + [];
    } else {
      var later := Oks(messages[1..]) + last;
      assert Oks(messages) + last == [Ok(Concat(messages[0]))] + later;
      OkTextsOfOks(messages[1..]);
      assert WholeTexts(messages) == [Concat(messages[0])] + WholeTexts(messages[1..]);
    }
  }

  lemma {:induction false} OksLength(messages: seq<seq<Payload>>)
    ensures |Oks(messages)| == |messages|
  {
    if |messages| > 0 {
      OksLength(messages[1..]);
    }
  }

  /**
   End to end: attempts fail or find a peer, in any order. With peers that fragment their messages so that
   they survive, every message of every peer reaches the message callback exactly once and in order, inside
   that peer's own episode, and nothing else is said.
   */
  lemma {:induction false} CleanPeersAreHeard(future: seq<Attempt>, peers: seq<Peer>, n: nat)
    requires |future| == |peers| && forall i | 0 <= i < |peers| :: Finds(future[i], peers[i])
    requires n >= PassesNeeded(peers)
    ensures Story(future, n) == EpisodesOf(peers)
  {
    if |peers| > 0 {
      var later, others := future[1..], peers[1..];
      assert Finds(future[0], peers[0]);
      forall i | 0 <= i < |others|
        ensures Finds(later[i], others[i])
      {
        assert Finds(future[i + 1], peers[i + 1]);
      }
      CleanPeersAreHeard(later, others, n - PassesOf(peers[0]));
      AttemptIsTold(future, peers[0], n);
    }
  }

  lemma AttemptIsTold(future: seq<Attempt>, peer: Peer, n: nat)
    requires |future| > 0 && Finds(future[0], peer) && n >= PassesOf(peer)
    ensures Story(future, n) == EpisodeOf(peer) + Story(future[1..], n - PassesOf(peer))
  {
    match peer
    case None =>
      var rest := Story(future[1..], n - 1);
      assert Story(future, n) == rest == [] + rest;
    case Some(messages) =>
      CleanPeerIsHeard(future, messages, n);
  }

  lemma CleanPeerIsHeard(future: seq<Attempt>, messages: seq<seq<Payload>>, n: nat)
    requires |future| > 0 && Sends(future[0], messages) && n >= 2 + |messages|
    ensures Story(future, n) == Episode(WholeTexts(messages)) + Story(future[1..], n - 2 - |messages|)
  {
    var wire := FragmentAll(messages);
    ConnectionRoundTrip(messages);
    OksLength(messages);
    OkTextsOfOks(messages);
    assert Take(Drain(wire), n - 1) == Drain(wire);
    var told := Messages(WholeTexts(messages)) + [Disconnected];
    var rest := Story(future[1..], n - 2 - |messages|);
    assert EpisodeAndAfter(wire, future[1..], n - 1) == told + rest;
    Associate([Connected], told, rest);
    assert [Connected] + told == Episode(WholeTexts(messages));
  }
}
