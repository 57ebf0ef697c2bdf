/**
 The connection handler under concurrency. One runner thread is inside `run()`; any number of calls of
 `stop()` and `send_message()` proceed on other threads, and call number 0 is one the runner itself makes
 from inside a callback. Every shared read, write, lock and unlock is a step of its own.
 Memory is sequentially consistent.
 */
module ThreadInterleaving {
  import opened Outcomes
  import FrameReassembly
  import ProcessLookup
  import WebsocketClient
  import opened ConnectionSession

  /** Where the runner stands, in the order of the source. */
  datatype RunnerPc =
    | Idle                                    // not inside run()
    | Check                                   // about to read m_stop
    | HaltLock | HaltReset | HaltUnlock       // the stop branch: lock, reset the pointer, unlock
    | HaltNotify | HaltCallback
    | ProbeLock | ProbeRead | ProbeUnlock(up: bool)     // is_connected()
    | Deref                                   // about to dereference the pointer, without the lock
    | Receiving(id: nat) | MessageCallback
    | DownNotify | DownCallback
    | ReconnectLock | DropStale | Lookup | Create | Start
    | ReconnectUnlock(ok: bool)               // leaving reconnect(), normally or by an exception
    | UpNotify | UpCallback
    | Sleep

  datatype CallKind = StopCall | SendCall

  datatype CallPc =
    | SetStop                                 // stop() only
    | WantProbe | Probe | LeaveProbe          // is_connected(): lock, read, unlock
    | WantSend                                // send_message() only: lock again
    | Use                                     // about to dereference the pointer
    | Release                                 // send_message() only: unlock

  /** A call in progress: which client its check saw connected, and how long the write history was then. */
  datatype Activity = Activity(kind: CallKind, pc: CallPc, seen: Option<nat>, mark: nat)

  datatype Holder = Runner | Caller(i: nat)

  /** A client object, the parameters it was built from, and the attempt that built it. */
  datatype Client = Client(state: FrameReassembly.ClientState, params: ProcessLookup.LcuParameters, attempt: nat)

  /** The assignments to `m_websocket`. */
  datatype Write = Reset | Assign(id: nat)

  /**
   What only the runner assigns: the pointer, the clients, `m_is_state_connected`, its own position, and
   the callbacks it makes. `writes` and `started` are history; `script` is what its attempts to connect
   will meet, of which `dialed` have been used.
   */
  datatype RunnerSide = RunnerSide(
    pc: RunnerPc,
    pointer: Option<nat>,
    clients: seq<Client>,
    notified: bool,
    trace: seq<Event>,
    script: seq<Attempt>,
    dialed: nat,
    writes: seq<Write>,
    started: seq<nat>)

  /** A message that a call has put on the connection of a client: "Exit" when `stop()` did. */
  datatype Sending = Sending(client: nat, kind: CallKind)

  /** The shared state; `sent` is history. */
  datatype State = State(
    run: RunnerSide, holder: Option<Holder>, stop: bool, calls: map<nat, Activity>, sent: seq<Sending>)

  /** The references the runner's side holds are good. */
  predicate Shape(r: RunnerSide) {
    && (r.pointer.Some? ==> r.pointer.value < |r.clients|)
    && r.dialed <= |r.script|
    && (r.pc.Receiving? ==> r.pc.id < |r.clients|)
    && (r.pc.Create? || r.pc.Start? ==> r.dialed < |r.script| && r.script[r.dialed].lookup.Ok?)
    && (r.pc.Start? ==> r.pointer.Some?)
  }

  function Init(script: seq<Attempt>): (s: State)
    ensures Shape(s.run)
  {
    State(RunnerSide(Idle, None, [], false, [], script, 0, [], []), None, false, map[], [])
  }

  function Socket(r: RunnerSide): Option<FrameReassembly.ClientState>
    requires Shape(r)
  {
    if r.pointer.None? then None else Some(r.clients[r.pointer.value].state)
  }

  /** `m_websocket && m_websocket->is_connected()`. */
  predicate IsUp(r: RunnerSide)
    requires Shape(r)
  {
    Up(Socket(r))
  }

  // ---------- the runner ----------

  predicate InCallback(pc: RunnerPc) {
    pc.HaltCallback? || pc.MessageCallback? || pc.DownCallback? || pc.UpCallback?
  }

  predicate WantsLock(pc: RunnerPc) {
    pc.HaltLock? || pc.ProbeLock? || pc.ReconnectLock?
  }

  predicate Unlocks(pc: RunnerPc) {
    pc.HaltUnlock? || pc.ProbeUnlock? || pc.ReconnectUnlock?
  }

  /** A locking step waits for the mutex, a callback for the call it makes, and a dereference needs a client. */
  predicate RunnerEnabled(s: State) {
    && !s.run.pc.Idle?
    && (WantsLock(s.run.pc) ==> s.holder.None?)
    && (InCallback(s.run.pc) ==> 0 !in s.calls)
    && (s.run.pc.Deref? ==> s.run.pointer.Some?)
  }

  /** What a step of the runner does to its own side; `stop` is the value of `m_stop`. */
  function Move(r: RunnerSide, stop: bool): (t: RunnerSide)
    requires Shape(r) && (r.pc.Deref? ==> r.pointer.Some?)
    ensures Shape(t)
  {
    match r.pc
    case Idle => r
    case Check => r.(pc := if stop then HaltLock else ProbeLock)
    case HaltLock => r.(pc := HaltReset)
    case HaltReset => r.(pointer := None, writes := r.writes + [Reset], pc := HaltUnlock)
    case HaltUnlock => r.(pc := HaltNotify)
    case HaltNotify =>
      if r.notified then r.(trace := r.trace + [Disconnected], pc := HaltCallback)
      else r.(notified := false, pc := Idle)
    case HaltCallback => r.(notified := false, pc := Idle)
    case ProbeLock => r.(pc := ProbeRead)
    case ProbeRead => r.(pc := ProbeUnlock(IsUp(r)))
    case ProbeUnlock(up) => r.(pc := if up then Deref else DownNotify)
    case Deref => r.(pc := Receiving(r.pointer.value))
    case Receiving(id) =>
      var (result, c) := FrameReassembly.Receive(r.clients[id].state);
      r.(clients := r.clients[id := r.clients[id].(state := c)],
         trace := r.trace + MessagesOf(result),
         pc := if result.Ok? then MessageCallback else Check)
    case MessageCallback => r.(pc := Check)
    case DownNotify =>
      if r.notified then r.(trace := r.trace + [Disconnected], pc := DownCallback)
      else r.(notified := false, pc := ReconnectLock)
    case DownCallback => r.(notified := false, pc := ReconnectLock)
    case ReconnectLock => r.(pc := DropStale)
    case DropStale =>
      if r.pointer.Some? && IsUp(r) then r.(pc := ReconnectUnlock(true))
      else if r.pointer.Some? then r.(pointer := None, writes := r.writes + [Reset], pc := Lookup)
      else r.(pc := Lookup)
    case Lookup =>
      if r.dialed == |r.script| then r.(pc := ReconnectUnlock(false))
      else if r.script[r.dialed].lookup.Err? then r.(dialed := r.dialed + 1, pc := ReconnectUnlock(false))
      else r.(pc := Create)
    case Create =>
      r.(clients := r.clients + [Client(WebsocketClient.NEW_CLIENT, r.script[r.dialed].lookup.value, r.dialed)],
         pointer := Some(|r.clients|), writes := r.writes + [Assign(|r.clients|)], pc := Start)
    case Start =>
      var id := r.pointer.value;
      var link := r.script[r.dialed].link;
      r.(clients := r.clients[id := r.clients[id].(state := WebsocketClient.Started(r.clients[id].state, link))],
         dialed := r.dialed + 1,
         started := if link.Accepted? then r.started + [id] else r.started,
         pc := ReconnectUnlock(link.Accepted?))
    case ReconnectUnlock(ok) => r.(pc := if ok then UpNotify else Sleep)
    case UpNotify =>
      if !r.notified then r.(trace := r.trace + [Connected], pc := UpCallback)
      else r.(notified := true, pc := Check)
    case UpCallback => r.(notified := true, pc := Check)
    case Sleep => r.(pc := Check)
  }

  function RunnerStep(s: State): (t: State)
    requires Shape(s.run) && RunnerEnabled(s)
    ensures Shape(t.run)
  {
    s.(run := Move(s.run, s.stop),
       holder := if WantsLock(s.run.pc) then Some(Runner) else if Unlocks(s.run.pc) then None else s.holder)
  }

  // ---------- the calls ----------

  predicate CallWantsLock(pc: CallPc) {
    pc.WantProbe? || pc.WantSend?
  }

  predicate CallUnlocks(pc: CallPc) {
    pc.LeaveProbe? || pc.Release?
  }

  predicate CallEnabled(s: State, i: nat) {
    && i in s.calls
    && (CallWantsLock(s.calls[i].pc) ==> s.holder.None?)
    && (s.calls[i].pc.Use? ==> s.run.pointer.Some?)
  }

  function NewCall(kind: CallKind): Activity {
    Activity(kind, if kind.StopCall? then SetStop else WantProbe, None, 0)
  }

  /** Where a step leads a call; None when it returns. */
  function Progress(a: Activity, r: RunnerSide): Option<Activity>
    requires Shape(r)
  {
    match a.pc
    case SetStop => Some(a.(pc := WantProbe))
    case WantProbe => Some(a.(pc := Probe))
    case Probe => Some(a.(seen := if IsUp(r) then r.pointer else None, mark := |r.writes|, pc := LeaveProbe))
    case LeaveProbe =>
      if a.seen.None? then None
      else Some(a.(pc := if a.kind.StopCall? then Use else WantSend))
    case WantSend => Some(a.(pc := Use))
    case Use => if a.kind.StopCall? then None else Some(a.(pc := Release))
    case Release => None
  }

  /** `m_websocket->send_message`: a client without an inner websocket sends nothing. */
  function SentBy(a: Activity, r: RunnerSide): seq<Sending>
    requires Shape(r) && (a.pc.Use? ==> r.pointer.Some?)
  {
    if a.pc.Use? && Socket(r).value.websocket.Some? then [Sending(r.pointer.value, a.kind)] else []
  }

  function CallStep(s: State, i: nat): (t: State)
    requires Shape(s.run) && CallEnabled(s, i)
    ensures t.run == s.run
  {
    var pc := s.calls[i].pc;
    var after := Progress(s.calls[i], s.run);
    s.(calls := if after.None? then s.calls - {i} else s.calls[i := after.value],
       holder := if CallWantsLock(pc) then Some(Caller(i)) else if CallUnlocks(pc) then None else s.holder,
       stop := s.stop || pc.SetStop?,
       sent := s.sent + SentBy(s.calls[i], s.run))
  }

  // ---------- schedules ----------

  datatype Action = RunBegins | RunnerMoves | CallBegins(i: nat, kind: CallKind) | CallMoves(i: nat)

  predicate Enabled(s: State, a: Action) {
    match a
    case RunBegins => s.run.pc.Idle?
    case RunnerMoves => RunnerEnabled(s)
    case CallBegins(i, _) => i !in s.calls && (i == 0 ==> InCallback(s.run.pc))
    case CallMoves(i) => CallEnabled(s, i)
  }

  function Step(s: State, a: Action): (t: State)
    requires Shape(s.run) && Enabled(s, a)
    ensures Shape(t.run)
  {
    match a
    case RunBegins => s.(stop := false, run := s.run.(pc := Check))
    case RunnerMoves => RunnerStep(s)
    case CallBegins(i, kind) => s.(calls := s.calls[i := NewCall(kind)])
    case CallMoves(i) => CallStep(s, i)
  }

  /** The threads can take these steps one after the other. */
  predicate Possible(s: State, schedule: seq<Action>)
    requires Shape(s.run)
    decreases |schedule|
  {
    |schedule| == 0 || (Enabled(s, schedule[0]) && Possible(Step(s, schedule[0]), schedule[1..]))
  }

  function After(s: State, schedule: seq<Action>): (t: State)
    requires Shape(s.run) && Possible(s, schedule)
    ensures Shape(t.run)
    decreases |schedule|
  {
    if |schedule| == 0 then s else After(Step(s, schedule[0]), schedule[1..])
  }

  lemma {:induction false} PossibleAppend(s: State, schedule: seq<Action>, a: Action)
    requires Shape(s.run) && Possible(s, schedule) && Enabled(After(s, schedule), a)
    ensures Possible(s, schedule + [a])
    ensures After(s, schedule + [a]) == Step(After(s, schedule), a)
    decreases |schedule|
  {
    if |schedule| == 0 {
      assert [a][1..] == [];
      assert schedule + [a] == [a];
    } else {
      assert (schedule + [a])[1..] == schedule[1..] + [a];
      PossibleAppend(Step(s, schedule[0]), schedule[1..], a);
    }
  }

  ghost predicate Reachable(s: State) {
    exists script, schedule ::
      Possible(Init(script), schedule) && s == After(Init(script), schedule)
  }

  lemma ReachableStep(s: State, a: Action)
    requires Reachable(s) && Shape(s.run) && Enabled(s, a)
    ensures Reachable(Step(s, a))
  {
    var script, schedule :| Possible(Init(script), schedule) && s == After(Init(script), schedule);
    PossibleAppend(Init(script), schedule, a);
    assert Possible(Init(script), schedule + [a]);
  }
}
