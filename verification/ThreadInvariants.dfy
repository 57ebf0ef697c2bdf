/** What holds in every reachable state of the concurrent handler, whatever the schedule. */
module ThreadInvariants {
  import opened Outcomes
  import FrameReassembly
  import WebsocketClient
  import opened ConnectionSession
  import opened ThreadInterleaving

  // ---------- the lock ----------

  predicate RunnerHolds(pc: RunnerPc) {
    || pc.HaltReset? || pc.HaltUnlock? || pc.ProbeRead? || pc.ProbeUnlock?
    || pc.DropStale? || pc.Lookup? || pc.Create? || pc.Start? || pc.ReconnectUnlock?
  }

  predicate CallHolds(a: Activity) {
    a.pc.Probe? || a.pc.LeaveProbe? || a.pc.Release? || (a.pc.Use? && a.kind.SendCall?)
  }

  /** The mutex is held by exactly the thread whose program counter is inside a locked region. */
  ghost predicate LocksAgree(s: State) {
    && (s.holder == Some(Runner) <==> RunnerHolds(s.run.pc))
    && (forall i :: s.holder == Some(Caller(i)) ==> i in s.calls)
    && (forall i | i in s.calls :: s.holder == Some(Caller(i)) <==> CallHolds(s.calls[i]))
    && (0 in s.calls ==> InCallback(s.run.pc))
    && (forall i | i in s.calls :: FitsKind(s.calls[i]))
  }

  /** Only `stop()` sets the flag; only `send_message()` locks again. */
  predicate FitsKind(a: Activity) {
    && (a.pc.SetStop? ==> a.kind.StopCall?)
    && (a.pc.WantSend? || a.pc.Release? ==> a.kind.SendCall?)
  }

  lemma RunnerRegions(r: RunnerSide, stop: bool)
    requires Shape(r) && !r.pc.Idle? && (r.pc.Deref? ==> r.pointer.Some?)
    ensures RunnerHolds(Move(r, stop).pc) <==> WantsLock(r.pc) || (RunnerHolds(r.pc) && !Unlocks(r.pc))
    ensures WantsLock(r.pc) ==> !RunnerHolds(r.pc)
  {
    if RunnerHolds(r.pc) {
      LockedRegion(r, stop);
    } else {
      UnlockedRegion(r, stop);
    }
  }

  lemma LockedRegion(r: RunnerSide, stop: bool)
    requires Shape(r) && RunnerHolds(r.pc)
    ensures RunnerHolds(Move(r, stop).pc) <==> !Unlocks(r.pc)
    ensures !WantsLock(r.pc)
  {
  }

  lemma UnlockedRegion(r: RunnerSide, stop: bool)
    requires Shape(r) && !r.pc.Idle? && (r.pc.Deref? ==> r.pointer.Some?) && !RunnerHolds(r.pc)
    ensures RunnerHolds(Move(r, stop).pc) <==> WantsLock(r.pc)
  {
  }

  lemma CallRegions(a: Activity, r: RunnerSide)
    requires Shape(r)
    requires FitsKind(a)
    ensures var t := Progress(a, r);
            && (t.Some? && CallHolds(t.value) <==> CallWantsLock(a.pc) || (CallHolds(a) && !CallUnlocks(a.pc)))
            && (t.None? ==> !CallHolds(a) || CallUnlocks(a.pc))
            && (t.Some? ==> FitsKind(t.value))
    ensures CallWantsLock(a.pc) ==> !CallHolds(a)
    ensures CallUnlocks(a.pc) ==> CallHolds(a)
  {
  }

  lemma LocksStayAgreed(s: State, a: Action)
    requires Shape(s.run) && Enabled(s, a) && LocksAgree(s)
    ensures LocksAgree(Step(s, a))
  {
    match a
    case RunnerMoves =>
      RunnerRegions(s.run, s.stop);
    case CallMoves(i) =>
      CallRegions(s.calls[i], s.run);
    case _ =>
  }

  // ---------- what the runner may rely on ----------

  /**
   The runner's knowledge at each of its points. No step of a call can take it away; in particular the
   pointer is good where the runner dereferences it without the lock.
   */
  ghost predicate RunnerKnows(r: RunnerSide)
    requires Shape(r)
  {
    && (IsUp(r) ==> Socket(r).value.websocket.Some?)
    && match r.pc
       case Idle => r.pointer.None? && !r.notified
       case Check => IsUp(r) ==> r.notified
       case HaltLock => IsUp(r) ==> r.notified
       case HaltReset => IsUp(r) ==> r.notified
       case HaltUnlock => r.pointer.None?
       case HaltNotify => r.pointer.None?
       case HaltCallback => r.pointer.None? && r.notified
       case ProbeLock => IsUp(r) ==> r.notified
       case ProbeRead => IsUp(r) ==> r.notified
       case ProbeUnlock(up) => up == IsUp(r) && (up ==> r.notified)
       case Deref => IsUp(r) && r.notified
       case Receiving(id) => r.pointer == Some(id) && IsUp(r) && r.notified
       case MessageCallback => r.notified && r.pointer.Some?
       case DownNotify => !IsUp(r)
       case DownCallback => !IsUp(r) && r.notified
       case ReconnectLock => !IsUp(r) && !r.notified
       case DropStale => !IsUp(r) && !r.notified
       case Lookup => r.pointer.None? && !r.notified
       case Create => r.pointer.None? && !r.notified
       case Start => r.pointer == Some(|r.clients| - 1) && Socket(r) == Some(WebsocketClient.NEW_CLIENT) && !r.notified
       case ReconnectUnlock(ok) => ok == IsUp(r) && !r.notified
       case UpNotify => IsUp(r) && !r.notified
       case UpCallback => IsUp(r) && !r.notified
       case Sleep => !IsUp(r) && !r.notified
  }

  lemma RunnerStaysInformed(r: RunnerSide, stop: bool)
    requires Shape(r) && !r.pc.Idle? && RunnerKnows(r)
    ensures RunnerKnows(Move(r, stop))
  {
  }

  // ---------- the callbacks ----------

  /** A callback is in the trace before the flag says so. */
  function Announced(r: RunnerSide): bool {
    match r.pc
    case HaltCallback => false
    case DownCallback => false
    case UpCallback => true
    case _ => r.notified
  }

  ghost predicate TraceAgrees(r: RunnerSide) {
    Phase(r.trace) == Some(Announced(r))
  }

  /** The callback a step makes, if any. */
  function Said(r: RunnerSide): seq<Event>
    requires Shape(r)
  {
    match r.pc
    case HaltNotify => NoticeOf(r.notified, false)
    case DownNotify => NoticeOf(r.notified, false)
    case UpNotify => NoticeOf(r.notified, true)
    case Receiving(id) => MessagesOf(FrameReassembly.Receive(r.clients[id].state).0)
    case _ => []
  }

  lemma MoveSays(r: RunnerSide, stop: bool)
    requires Shape(r) && !r.pc.Idle? && (r.pc.Deref? ==> r.pointer.Some?)
    ensures Move(r, stop).trace == r.trace + Said(r)
  {
    assert r.trace + [] == r.trace;
  }

  /**
   The runner enters a callback, where it makes its own calls and holds no lock, exactly by the steps that
   add an event to the trace.
   */
  lemma EventsAreCallbacks(r: RunnerSide, stop: bool)
    requires Shape(r) && !r.pc.Idle? && (r.pc.Deref? ==> r.pointer.Some?)
    ensures var t := Move(r, stop);
            && (InCallback(t.pc) <==> |t.trace| == |r.trace| + 1)
            && (!InCallback(t.pc) <==> t.trace == r.trace)
            && (InCallback(t.pc) ==> !RunnerHolds(t.pc))
  {
    MoveSays(r, stop);
    assert r.trace + [] == r.trace;
  }

  /** The record of successful starts: one entry for each connection accepted, and none else. */
  lemma StartsAreRecorded(r: RunnerSide, stop: bool)
    requires Shape(r) && !r.pc.Idle? && (r.pc.Deref? ==> r.pointer.Some?)
    ensures Move(r, stop).started ==
            if r.pc.Start? && r.script[r.dialed].link.Accepted? then r.started + [r.pointer.value] else r.started
  {
  }

  lemma AnnouncedAfter(r: RunnerSide, stop: bool)
    requires Shape(r) && !r.pc.Idle? && RunnerKnows(r)
    ensures var up := Announced(Move(r, stop));
            if Said(r) == [] then up == Announced(r)
            else |Said(r)| == 1 && match Said(r)[0]
                                   case Connected => !Announced(r) && up
                                   case Disconnected => Announced(r) && !up
                                   case Message(_) => Announced(r) && up
  {
  }

  lemma TraceStaysAgreed(r: RunnerSide, stop: bool)
    requires Shape(r) && !r.pc.Idle? && RunnerKnows(r) && TraceAgrees(r)
    ensures TraceAgrees(Move(r, stop))
  {
    MoveSays(r, stop);
    AnnouncedAfter(r, stop);
    if Said(r) == [] {
      assert r.trace + [] == r.trace;
    } else {
      assert Said(r) == [Said(r)[0]];
      PhaseOfAppend(r.trace, Said(r)[0]);
    }
  }

  // ---------- the pointer's history ----------

  /** The pointer after a sequence of assignments. */
  function PointerAfter(writes: seq<Write>): Option<nat> {
    if |writes| == 0 then None
    else
      match writes[|writes| - 1]
      case Reset => None
      case Assign(id) => Some(id)
  }

  /** A client is only ever assigned to an empty pointer. */
  ghost predicate AssignsToEmpty(writes: seq<Write>) {
    forall k | 0 <= k < |writes| && writes[k].Assign? :: PointerAfter(writes[..k]).None?
  }

  ghost predicate HistoryAgrees(r: RunnerSide) {
    r.pointer == PointerAfter(r.writes) && AssignsToEmpty(r.writes)
  }

  lemma AppendWrite(writes: seq<Write>, w: Write)
    requires AssignsToEmpty(writes) && (w.Assign? ==> PointerAfter(writes).None?)
    ensures AssignsToEmpty(writes + [w])
  {
    forall k | 0 <= k <= |writes|
      ensures (writes + [w])[..k] == writes[..k]
    {
    }
    assert writes[..|writes|] == writes;
  }

  lemma HistoryStaysAgreed(r: RunnerSide, stop: bool)
    requires Shape(r) && !r.pc.Idle? && RunnerKnows(r) && HistoryAgrees(r)
    ensures HistoryAgrees(Move(r, stop))
    ensures r.writes <= Move(r, stop).writes
  {
    AppendWrite(r.writes, Reset);
    if r.pc.Create? {
      AppendWrite(r.writes, Assign(|r.clients|));
    }
  }

  /** A call past its check remembers the client the pointer then held. */
  ghost predicate Remembers(a: Activity, writes: seq<Write>) {
    && (a.pc.SetStop? || a.pc.WantProbe? || a.pc.Probe? ==> a.seen.None?)
    && (a.pc.WantSend? || a.pc.Use? || a.pc.Release? ==> a.seen.Some?)
    && (a.seen.Some? ==> a.mark <= |writes| && PointerAfter(writes[..a.mark]) == a.seen)
  }

  ghost predicate CallsRemember(s: State) {
    forall i | i in s.calls :: Remembers(s.calls[i], s.run.writes)
  }

  lemma RememberLonger(a: Activity, writes: seq<Write>, longer: seq<Write>)
    requires Remembers(a, writes) && writes <= longer
    ensures Remembers(a, longer)
  {
    if a.seen.Some? {
      assert longer[..a.mark] == writes[..a.mark];
    }
  }

  lemma ProgressRemembers(a: Activity, r: RunnerSide)
    requires Shape(r) && HistoryAgrees(r) && Remembers(a, r.writes)
    ensures var t := Progress(a, r); t.Some? ==> Remembers(t.value, r.writes)
  {
    assert r.writes[..|r.writes|] == r.writes;
  }

  lemma CallsKeepRemembering(s: State, a: Action)
    requires Shape(s.run) && Enabled(s, a) && RunnerKnows(s.run) && HistoryAgrees(s.run) && CallsRemember(s)
    ensures CallsRemember(Step(s, a))
  {
    match a
    case RunnerMoves =>
      HistoryStaysAgreed(s.run, s.stop);
      forall i | i in s.calls
        ensures Remembers(s.calls[i], Move(s.run, s.stop).writes)
      {
        RememberLonger(s.calls[i], s.run.writes, Move(s.run, s.stop).writes);
      }
    case CallMoves(i) =>
      ProgressRemembers(s.calls[i], s.run);
    case _ =>
  }

  /** The call a callback makes sees the present pointer: the runner waits for it and assigns nothing. */
  ghost predicate OwnCallIsCurrent(s: State) {
    0 in s.calls && s.calls[0].seen.Some? ==> s.calls[0].mark == |s.run.writes|
  }

  lemma OwnCallStaysCurrent(s: State, a: Action)
    requires Shape(s.run) && Enabled(s, a) && LocksAgree(s) && OwnCallIsCurrent(s)
    ensures OwnCallIsCurrent(Step(s, a))
  {
  }

  // ---------- clients and notifications ----------

  /** Started, but not yet announced. */
  function Unannounced(pc: RunnerPc): nat {
    if pc == ReconnectUnlock(true) || pc.UpNotify? then 1 else 0
  }

  ghost predicate CountsAgree(r: RunnerSide) {
    |r.started| == multiset(r.trace)[Connected] + Unannounced(r.pc)
  }

  lemma StartsAreAnnounced(r: RunnerSide, stop: bool)
    requires Shape(r) && !r.pc.Idle? && RunnerKnows(r)
    ensures var t := Move(r, stop);
            |t.started| + Unannounced(r.pc) ==
            |r.started| + Unannounced(t.pc) + if Said(r) == [Connected] then 1 else 0
    ensures |Said(r)| <= 1
  {
  }

  lemma CountsStayAgreed(r: RunnerSide, stop: bool)
    requires Shape(r) && !r.pc.Idle? && RunnerKnows(r) && CountsAgree(r)
    ensures CountsAgree(Move(r, stop))
  {
    MoveSays(r, stop);
    StartsAreAnnounced(r, stop);
    CountOfSaid(r.trace, Said(r));
  }

  lemma CountOfSaid(trace: seq<Event>, said: seq<Event>)
    requires |said| <= 1
    ensures multiset(trace + said)[Connected] == multiset(trace)[Connected] + if said == [Connected] then 1 else 0
  {
    assert multiset(trace + said) == multiset(trace) + multiset(said);
    assert |said| == 1 ==> said == [said[0]];
  }

  /** Each client was built from the lookup of an attempt of its own; each start was of a client of its own. */
  ghost predicate ClientsAgree(r: RunnerSide)
    requires Shape(r)
  {
    && (forall i | 0 <= i < |r.clients| ::
          && r.clients[i].attempt < |r.script|
          && r.script[r.clients[i].attempt].lookup == Ok(r.clients[i].params)
          && (r.clients[i].attempt < r.dialed || (r.pc.Start? && r.clients[i].attempt == r.dialed)))
    && (forall i, j | 0 <= i < j < |r.clients| :: r.clients[i].attempt < r.clients[j].attempt)
    && (forall k | 0 <= k < |r.started| :: r.started[k] < |r.clients|)
    && (r.pc.Start? ==> forall k | 0 <= k < |r.started| :: r.started[k] < |r.clients| - 1)
    && (forall j, k | 0 <= j < k < |r.started| :: r.started[j] < r.started[k])
  }

  /** A step that neither makes nor starts a client leaves the accounts as they are. */
  lemma SameClients(r: RunnerSide, stop: bool)
    requires Shape(r) && !r.pc.Idle? && RunnerKnows(r) && !r.pc.Create? && !r.pc.Start?
    ensures var t := Move(r, stop);
            && t.script == r.script && t.dialed >= r.dialed && t.started == r.started && !t.pc.Start?
            && |t.clients| == |r.clients|
            && forall i | 0 <= i < |r.clients| ::
                 t.clients[i].attempt == r.clients[i].attempt && t.clients[i].params == r.clients[i].params
  {
  }

  lemma ClientsStayAgreed(r: RunnerSide, stop: bool)
    requires Shape(r) && !r.pc.Idle? && RunnerKnows(r) && ClientsAgree(r)
    ensures ClientsAgree(Move(r, stop))
  {
    if r.pc.Create? {
      CreateKeepsClients(r, stop);
    } else if r.pc.Start? {
      StartKeepsClients(r, stop);
    } else {
      SameClients(r, stop);
    }
  }

  lemma CreateKeepsClients(r: RunnerSide, stop: bool)
    requires Shape(r) && RunnerKnows(r) && ClientsAgree(r) && r.pc.Create?
    ensures ClientsAgree(Move(r, stop))
  {
  }

  lemma StartKeepsClients(r: RunnerSide, stop: bool)
    requires Shape(r) && RunnerKnows(r) && ClientsAgree(r) && r.pc.Start?
    ensures ClientsAgree(Move(r, stop))
  {
  }

  // ---------- every reachable state ----------

  ghost predicate RunnerInv(r: RunnerSide) {
    && Shape(r) && RunnerKnows(r) && TraceAgrees(r) && HistoryAgrees(r) && CountsAgree(r) && ClientsAgree(r)
  }

  ghost predicate Inv(s: State) {
    RunnerInv(s.run) && LocksAgree(s) && CallsRemember(s) && OwnCallIsCurrent(s)
  }

  lemma MoveKeepsInv(r: RunnerSide, stop: bool)
    requires RunnerInv(r) && !r.pc.Idle?
    ensures RunnerInv(Move(r, stop))
  {
    RunnerStaysInformed(r, stop);
    TraceStaysAgreed(r, stop);
    HistoryStaysAgreed(r, stop);
    CountsStayAgreed(r, stop);
    ClientsStayAgreed(r, stop);
  }

  lemma StepKeepsInv(s: State, a: Action)
    requires Inv(s) && Enabled(s, a)
    ensures Inv(Step(s, a))
  {
    LocksStayAgreed(s, a);
    CallsKeepRemembering(s, a);
    OwnCallStaysCurrent(s, a);
    if a.RunnerMoves? {
      MoveKeepsInv(s.run, s.stop);
    }
  }

  lemma {:induction false} ScheduleKeepsInv(s: State, schedule: seq<Action>)
    requires Inv(s) && Possible(s, schedule)
    ensures Inv(After(s, schedule))
    decreases |schedule|
  {
    if |schedule| > 0 {
      StepKeepsInv(s, schedule[0]);
      ScheduleKeepsInv(Step(s, schedule[0]), schedule[1..]);
    }
  }

  lemma InitHasInv(script: seq<Attempt>)
    ensures Inv(Init(script))
  {
  }

  lemma ReachableHasInv(s: State)
    requires Reachable(s)
    ensures Inv(s)
  {
    var script, schedule :| Possible(Init(script), schedule) && s == After(Init(script), schedule);
    InitHasInv(script);
    ScheduleKeepsInv(Init(script), schedule);
  }
}
