/** The results about the concurrent handler, for every reachable state and every schedule. */
module ThreadTheorems {
  import opened Outcomes
  import FrameReassembly
  import ProcessLookup
  import WebsocketClient
  import opened ConnectionSession
  import opened ThreadInterleaving
  import opened ThreadInvariants

  // ---------- safety ----------

  /** The runner never dereferences a null pointer, nor receives from a client that is not connected. */
  lemma RunnerNeverMeetsNull(s: State)
    requires Reachable(s)
    requires s.run.pc.Deref? || s.run.pc.Receiving?
    ensures Shape(s.run) && s.run.pointer.Some? && IsUp(s.run) && Socket(s.run).value.websocket.Some?
    ensures s.run.pc.Receiving? ==> s.run.pointer == Some(s.run.pc.id)
    ensures RunnerEnabled(s)
  {
    ReachableHasInv(s);
  }

  /** Every trace is a prefix of complete episodes, and a returned run leaves nothing behind. */
  lemma CallbacksFollowTheLanguage(s: State)
    requires Reachable(s)
    ensures IsComplete(s.run.trace) || IsUnfinished(s.run.trace)
    ensures s.run.pc.Idle? ==> IsComplete(s.run.trace) && s.run.pointer.None? && !s.run.notified
  {
    ReachableHasInv(s);
    PhaseIsGrammar(s.run.trace);
  }

  /**
   One connection per notification: as many connected callbacks as successful starts, but for one that
   is about to be announced; each start is of another client, and each client has a lookup of its own.
   */
  lemma OneConnectionPerNotification(s: State)
    requires Reachable(s)
    ensures |s.run.started| == multiset(s.run.trace)[Connected] + Unannounced(s.run.pc)
    ensures forall j, k | 0 <= j < k < |s.run.started| :: s.run.started[j] < s.run.started[k] < |s.run.clients|
    ensures forall i | 0 <= i < |s.run.clients| ::
              && s.run.clients[i].attempt < |s.run.script|
              && s.run.script[s.run.clients[i].attempt].lookup == Ok(s.run.clients[i].params)
    ensures forall i, j | 0 <= i < j < |s.run.clients| :: s.run.clients[i].attempt < s.run.clients[j].attempt
  {
    ReachableHasInv(s);
  }

  /** A client that is not connected stays so, but for the one about to be started. */
  lemma MoveRevivesNoClient(r: RunnerSide, stop: bool, id: nat)
    requires Shape(r) && RunnerKnows(r) && !r.pc.Idle?
    requires id < |r.clients| && !r.clients[id].state.connected && !(r.pc.Start? && r.pointer == Some(id))
    ensures var t := Move(r, stop);
            id < |t.clients| && !t.clients[id].state.connected && !(t.pc.Start? && t.pointer == Some(id))
  {
  }

  /** A client that failed to start, or has lost its connection, is never received from again. */
  lemma {:induction false} DroppedClientIsNotUsedAgain(s: State, schedule: seq<Action>, id: nat)
    requires Inv(s) && Possible(s, schedule)
    requires id < |s.run.clients| && !s.run.clients[id].state.connected
    requires !(s.run.pc.Start? && s.run.pointer == Some(id))
    ensures var t := After(s, schedule).run;
            && id < |t.clients| && !t.clients[id].state.connected
            && t.pc != Receiving(id) && (t.pc.Deref? ==> t.pointer != Some(id))
    decreases |schedule|
  {
    if |schedule| > 0 {
      var a := schedule[0];
      StepKeepsInv(s, a);
      if a.RunnerMoves? {
        MoveRevivesNoClient(s.run, s.stop, id);
      }
      DroppedClientIsNotUsedAgain(Step(s, a), schedule[1..], id);
    }
  }

  // ---------- the gap between check and use ----------

  /** The runner has reset the pointer since the history had length `mark`, and not assigned it since. */
  ghost predicate ResetSince(writes: seq<Write>, mark: nat) {
    exists k | mark <= k < |writes| ::
      writes[k].Reset? && forall j | k < j < |writes| :: writes[j].Reset?
  }

  lemma {:induction false} LastWriteDecides(writes: seq<Write>, mark: nat, id: nat)
    requires mark <= |writes| && PointerAfter(writes[..mark]) == Some(id)
    ensures PointerAfter(writes).None? <==> ResetSince(writes, mark)
  {
    if mark == |writes| {
      assert writes[..mark] == writes;
    } else {
      var last := |writes| - 1;
      if writes[last].Reset? {
        assert ResetSince(writes, mark);
      } else {
        forall k | mark <= k < |writes| && writes[k].Reset?
          ensures exists j :: k < j < |writes| && !writes[j].Reset?
        {
          assert k < last;
        }
      }
    }
  }

  /** The first assignment after a check that saw a client is a reset. */
  lemma FirstChangeIsReset(writes: seq<Write>, mark: nat, id: nat)
    requires mark <= |writes| && PointerAfter(writes[..mark]) == Some(id) && AssignsToEmpty(writes)
    ensures mark == |writes| || writes[mark].Reset?
  {
  }

  /**
   What the check of a call is: it reads the pointer and the connected flag of its client, and the call goes
   on, to its use or to locking again, exactly if it saw a connected client.
   */
  lemma CheckDecides(s: State, i: nat)
    requires Shape(s.run) && CallEnabled(s, i)
    ensures s.calls[i].pc.Probe? ==>
              var seen := Step(s, CallMoves(i)).calls[i].seen;
              && (seen.Some? <==> s.run.pointer.Some? && s.run.clients[s.run.pointer.value].state.connected)
              && (seen.Some? ==> seen == s.run.pointer)
    ensures s.calls[i].pc.LeaveProbe? ==>
              var t := Step(s, CallMoves(i));
              && (i in t.calls <==> s.calls[i].seen.Some?)
              && (i in t.calls ==> t.calls[i].pc == if s.calls[i].kind.StopCall? then Use else WantSend)
  {
  }

  /**
   The exact account of the gap: where a call that saw a connected socket comes to use it, the pointer
   is null exactly when the runner has reset it since the check and not assigned it again; and while
   the runner has not reset it, the client used is the client checked.
   */
  lemma UseAfterCheck(s: State, i: nat)
    requires Reachable(s) && i in s.calls && s.calls[i].pc.Use?
    ensures s.calls[i].seen.Some?
    ensures s.run.pointer.None? <==> ResetSince(s.run.writes, s.calls[i].mark)
    ensures (forall k | s.calls[i].mark <= k < |s.run.writes| :: !s.run.writes[k].Reset?) ==>
              s.run.pointer == s.calls[i].seen
  {
    ReachableHasInv(s);
    var a := s.calls[i];
    assert Remembers(a, s.run.writes);
    LastWriteDecides(s.run.writes, a.mark, a.seen.value);
    FirstChangeIsReset(s.run.writes, a.mark, a.seen.value);
    if a.mark == |s.run.writes| {
      assert s.run.writes[..a.mark] == s.run.writes;
    }
  }

  /**
   What a caller can rely on: a call made from inside a callback uses the client it checked, and never a
   null pointer.
   */
  lemma CallbackUseIsSafe(s: State)
    requires Reachable(s) && 0 in s.calls && s.calls[0].pc.Use?
    ensures s.calls[0].seen.Some? && s.run.pointer == s.calls[0].seen
  {
    ReachableHasInv(s);
    assert Remembers(s.calls[0], s.run.writes);
    assert s.run.writes[..|s.run.writes|] == s.run.writes;
  }

  lemma Go(s: State, a: Action) returns (t: State)
    requires Reachable(s) && Shape(s.run) && Enabled(s, a)
    ensures Reachable(t) && Shape(t.run) && t == Step(s, a)
  {
    t := Step(s, a);
    ReachableStep(s, a);
  }

  lemma RunnerGoes(s: State) returns (t: State)
    requires Reachable(s) && Shape(s.run) && s.calls == map[] && !s.run.pc.Idle?
    requires WantsLock(s.run.pc) ==> s.holder.None?
    requires s.run.pc.Deref? ==> s.run.pointer.Some?
    ensures Reachable(t) && Shape(t.run) && t == RunnerStep(s) && t.calls == map[]
  {
    t := Go(s, RunnerMoves);
  }

  /** A handler that has not connected yet, with its runner at `pc`. */
  function Fresh(script: seq<Attempt>, pc: RunnerPc): State {
    State(RunnerSide(pc, None, [], false, [], script, 0, [], []),
          if RunnerHolds(pc) then Some(Runner) else None, false, map[], [])
  }

  /** The runner's way to its first lookup. */
  function Way(k: nat): RunnerPc {
    match k
    case 0 => Check
    case 1 => ProbeLock
    case 2 => ProbeRead
    case 3 => ProbeUnlock(false)
    case 4 => DownNotify
    case 5 => ReconnectLock
    case 6 => DropStale
    case _ => Lookup
  }

  lemma WayGoesOn(script: seq<Attempt>, k: nat)
    requires k < 7 && Reachable(Fresh(script, Way(k)))
    ensures Reachable(Fresh(script, Way(k + 1)))
  {
    var t := RunnerGoes(Fresh(script, Way(k)));
    assert t == Fresh(script, Way(k + 1));
  }

  lemma RunnerCanBegin(script: seq<Attempt>)
    ensures Reachable(Fresh(script, Check))
  {
    var s := Init(script);
    assert Possible(s, []) && s == After(s, []);
    s := Go(s, RunBegins);
    assert s == Fresh(script, Check);
  }

  lemma {:induction false} RunnerCanLookUp(script: seq<Attempt>, k: nat)
    requires k <= 7
    ensures Reachable(Fresh(script, Way(k)))
  {
    if k == 0 {
      RunnerCanBegin(script);
    } else {
      RunnerCanLookUp(script, k - 1);
      WayGoesOn(script, k - 1);
    }
  }

  /** A client whose peer has nothing more to send. */
  const OPEN_CLIENT := FrameReassembly.ClientState(Some([]), true)

  lemma RunnerFindsClient(script: seq<Attempt>, params: ProcessLookup.LcuParameters)
    requires script == [Attempt(Ok(params), WebsocketClient.Accepted([]))]
    ensures Reachable(Fresh(script, Create))
  {
    RunnerCanLookUp(script, 7);
    var s := RunnerGoes(Fresh(script, Lookup));
    assert s == Fresh(script, Create);
  }

  lemma RunnerCanCreate(script: seq<Attempt>, params: ProcessLookup.LcuParameters) returns (s: State)
    requires script == [Attempt(Ok(params), WebsocketClient.Accepted([]))]
    ensures Reachable(s)
    ensures s == State(
                   RunnerSide(Start, Some(0), [Client(WebsocketClient.NEW_CLIENT, params, 0)],
                              false, [], script, 0, [Assign(0)], []),
                   Some(Runner), false, map[], [])
  {
    RunnerFindsClient(script, params);
    s := Fresh(script, Create);
    s := RunnerGoes(s);
  }

  lemma RunnerCanStart(script: seq<Attempt>, params: ProcessLookup.LcuParameters) returns (s: State)
    requires script == [Attempt(Ok(params), WebsocketClient.Accepted([]))]
    ensures Reachable(s)
    ensures s == State(
                   RunnerSide(ReconnectUnlock(true), Some(0), [Client(OPEN_CLIENT, params, 0)],
                              false, [], script, 1, [Assign(0)], [0]),
                   Some(Runner), false, map[], [])
  {
    s := RunnerCanCreate(script, params);
    s := RunnerGoes(s);
  }

  lemma RunnerCanAnnounce(script: seq<Attempt>, params: ProcessLookup.LcuParameters) returns (s: State)
    requires script == [Attempt(Ok(params), WebsocketClient.Accepted([]))]
    ensures Reachable(s)
    ensures s == State(
                   RunnerSide(UpNotify, Some(0), [Client(OPEN_CLIENT, params, 0)],
                              false, [], script, 1, [Assign(0)], [0]),
                   None, false, map[], [])
  {
    s := RunnerCanStart(script, params);
    s := RunnerGoes(s);
  }

  lemma RunnerCanCallBack(script: seq<Attempt>, params: ProcessLookup.LcuParameters) returns (s: State)
    requires script == [Attempt(Ok(params), WebsocketClient.Accepted([]))]
    ensures Reachable(s)
    ensures s == State(
                   RunnerSide(UpCallback, Some(0), [Client(OPEN_CLIENT, params, 0)],
                              false, [Connected], script, 1, [Assign(0)], [0]),
                   None, false, map[], [])
  {
    s := RunnerCanAnnounce(script, params);
    s := RunnerGoes(s);
  }

  /** A runner that has reached a peer and is back at its stop check. */
  lemma RunnerCanConnect() returns (s: State)
    ensures Reachable(s) && Shape(s.run) && IsUp(s.run)
    ensures s.run.pc == Check && s.calls == map[] && s.holder.None? && !s.stop
  {
    var params := ProcessLookup.LcuParameters("token", 2999);
    s := RunnerCanCallBack([Attempt(Ok(params), WebsocketClient.Accepted([]))], params);
    s := RunnerGoes(s);
  }

  /** One call goes through its check while the socket is up. */
  lemma CallChecks(s: State, i: nat) returns (t: State)
    requires Reachable(s) && Shape(s.run) && IsUp(s.run) && s.holder.None?
    requires i in s.calls && s.calls[i].pc.WantProbe?
    ensures Reachable(t) && t.run == s.run && t.stop == s.stop && t.holder.None?
    ensures t.calls.Keys == s.calls.Keys && t.calls[i].kind == s.calls[i].kind
    ensures t.calls[i].pc == if s.calls[i].kind.StopCall? then Use else WantSend
  {
    t := Go(s, CallMoves(i));
    t := Go(t, CallMoves(i));
    t := Go(t, CallMoves(i));
  }

  lemma RunnerLocksToReset(s: State) returns (t: State)
    requires Reachable(s) && Shape(s.run) && s.run.pc.Check? && s.stop && s.holder.None?
    ensures Reachable(t) && Shape(t.run) && t.run.pc.HaltReset? && t.calls == s.calls
  {
    t := Go(s, RunnerMoves);
    t := Go(t, RunnerMoves);
  }

  /** A runner at its stop check, told to stop, resets the pointer. */
  lemma RunnerResets(s: State) returns (t: State)
    requires Reachable(s) && Shape(s.run) && s.run.pc.Check? && s.stop && s.holder.None?
    ensures Reachable(t) && Shape(t.run) && t.run.pc.HaltNotify? && t.run.pointer.None?
    ensures t.calls == s.calls && t.holder.None?
  {
    t := RunnerLocksToReset(s);
    t := Go(t, RunnerMoves);
    t := Go(t, RunnerMoves);
  }

  /** A connected handler that call number `i` has told to stop. */
  lemma StopCanBeSet(i: nat) returns (s: State)
    requires i != 0
    ensures Reachable(s) && Shape(s.run) && IsUp(s.run) && s.run.pc == Check && s.holder.None? && s.stop
    ensures s.calls == map[i := NewCall(StopCall).(pc := WantProbe)]
  {
    s := RunnerCanConnect();
    s := Go(s, CallBegins(i, StopCall));
    s := Go(s, CallMoves(i));
  }

  ghost predicate MeetsNull(s: State, i: nat, kind: CallKind) {
    i in s.calls && s.calls[i].kind == kind && s.calls[i].pc.Use? && s.run.pointer.None?
  }

  /**
   The check of a call does not protect its use: of either kind, exactly the calls made outside the
   callbacks can reach their use with the pointer reset in between. `UseAfterCheck` says when they do.
   */
  lemma UseCanMeetNull(kind: CallKind, i: nat)
    ensures (exists s :: Reachable(s) && MeetsNull(s, i, kind)) <==> i != 0
  {
    if i == 0 {
      forall s | Reachable(s)
        ensures !MeetsNull(s, 0, kind)
      {
        if 0 in s.calls && s.calls[0].pc.Use? {
          CallbackUseIsSafe(s);
        }
      }
    } else if kind.StopCall? {
      var s := StopCanMeetNull(i);
    } else {
      var s := SendCanMeetNull(i);
    }
  }

  lemma StopCanMeetNull(i: nat) returns (s: State)
    requires i != 0
    ensures Reachable(s) && MeetsNull(s, i, StopCall)
  {
    s := StopCanBeSet(i);
    s := CallChecks(s, i);
    s := RunnerResets(s);
  }

  lemma SendCanBegin(i: nat) returns (s: State)
    requires i != 0
    ensures Reachable(s) && Shape(s.run) && IsUp(s.run) && s.run.pc == Check && s.holder.None? && s.stop
    ensures i in s.calls && s.calls[i] == NewCall(SendCall)
  {
    s := StopCanBeSet(i + 1);
    s := Go(s, CallBegins(i, SendCall));
  }

  lemma SendCanMeetNull(i: nat) returns (s: State)
    requires i != 0
    ensures Reachable(s) && MeetsNull(s, i, SendCall)
  {
    s := SendCanBegin(i);
    s := CallChecks(s, i);
    s := RunnerResets(s);
    s := Go(s, CallMoves(i));
  }

  // ---------- the lock ----------

  function RunnerHoldLeft(pc: RunnerPc): nat {
    match pc
    case HaltReset => 2
    case HaltUnlock => 1
    case ProbeRead => 2
    case ProbeUnlock(_) => 1
    case DropStale => 5
    case Lookup => 4
    case Create => 3
    case Start => 2
    case ReconnectUnlock(_) => 1
    case _ => 0
  }

  function CallHoldLeft(pc: CallPc): nat {
    match pc
    case Probe => 2
    case LeaveProbe => 1
    case Use => 2
    case Release => 1
    case _ => 0
  }

  /** The steps its holder has before the mutex is free again. */
  function HoldLeft(s: State): nat {
    match s.holder
    case None => 0
    case Some(Runner) => RunnerHoldLeft(s.run.pc)
    case Some(Caller(i)) => if i in s.calls then CallHoldLeft(s.calls[i].pc) else 0
  }

  function StepOf(h: Holder): Action {
    match h
    case Runner => RunnerMoves
    case Caller(i) => CallMoves(i)
  }

  /**
   No thread asks for the mutex while it holds it: not the runner, not a call, and not a call the
   runner makes inside a callback, where the runner never holds it.
   */
  lemma NoSelfDeadlock(s: State)
    requires Reachable(s)
    ensures WantsLock(s.run.pc) ==> s.holder != Some(Runner) && 0 !in s.calls
    ensures forall i | i in s.calls && CallWantsLock(s.calls[i].pc) :: s.holder != Some(Caller(i))
    ensures InCallback(s.run.pc) || 0 in s.calls ==> s.holder != Some(Runner)
  {
    ReachableHasInv(s);
  }

  /**
   Every assignment to the pointer is the runner's and under the mutex; so are the checks, and the use that
   `send_message` makes of it. Only the use in `stop` and the runner's own dereference are not.
   */
  lemma PointerIsGuarded(s: State, a: Action)
    requires Reachable(s) && Shape(s.run) && Enabled(s, a)
    ensures Step(s, a).run.pointer != s.run.pointer || Step(s, a).run.writes != s.run.writes ==>
              a.RunnerMoves? && s.holder == Some(Runner)
    ensures a.RunnerMoves? && (s.run.pc.ProbeRead? || s.run.pc.DropStale?) ==> s.holder == Some(Runner)
    ensures a.CallMoves? && (s.calls[a.i].pc.Probe? || (s.calls[a.i].pc.Use? && s.calls[a.i].kind.SendCall?)) ==>
              s.holder == Some(Caller(a.i))
  {
    ReachableHasInv(s);
  }

  /** The holder can move, unless it is a `send_message` whose pointer has been reset since its check. */
  lemma HolderCanMove(s: State)
    requires Inv(s) && s.holder.Some?
    ensures var a := StepOf(s.holder.value);
            Enabled(s, a) <==> !(a.CallMoves? && a.i in s.calls && s.calls[a.i].pc.Use? && s.run.pointer.None?)
  {
    match s.holder.value
    case Runner => RunnerReleases(s.run, s.stop);
    case Caller(i) => CallReleases(s.calls[i], s.run);
  }

  /**
   The mutex is always given back: each step of its holder, a lookup or a start that throws included,
   brings it nearer to the release, which is at most five steps away.
   */
  lemma HolderReleases(s: State)
    requires Inv(s) && s.holder.Some? && Enabled(s, StepOf(s.holder.value))
    ensures var t := Step(s, StepOf(s.holder.value));
            && HoldLeft(t) < HoldLeft(s) <= 5
            && (t.holder == s.holder || t.holder.None?)
            && (HoldLeft(t) == 0 <==> t.holder.None?)
  {
    match s.holder.value
    case Runner => RunnerReleases(s.run, s.stop);
    case Caller(i) => CallReleases(s.calls[i], s.run);
  }

  /** Some thread can take its next step. */
  ghost predicate CanMove(s: State)
    requires Shape(s.run)
  {
    RunnerEnabled(s) || exists i: nat :: CallEnabled(s, i)
  }

  /**
   Progress: while the runner is inside `run()`, the handler is never stuck, unless a call has come to use
   a pointer that has been reset.
   */
  lemma SomeThreadCanMove(s: State)
    requires Reachable(s) && !s.run.pc.Idle?
    requires forall i | i in s.calls :: s.calls[i].pc.Use? ==> s.run.pointer.Some?
    ensures Shape(s.run) && CanMove(s)
  {
    ReachableHasInv(s);
    if s.holder.Some? {
      HolderCanMove(s);
      if s.holder.value.Caller? {
        assert CallEnabled(s, s.holder.value.i);
      }
    } else if !RunnerEnabled(s) {
      RunnerWaitsForOthersOnly(s);
      assert CallEnabled(s, 0);
    }
  }

  lemma RunnerReleases(r: RunnerSide, stop: bool)
    requires Shape(r) && RunnerHolds(r.pc)
    ensures RunnerHoldLeft(r.pc) <= 5
    ensures RunnerHoldLeft(Move(r, stop).pc) < RunnerHoldLeft(r.pc)
    ensures Unlocks(r.pc) <==> RunnerHoldLeft(Move(r, stop).pc) == 0
    ensures !WantsLock(r.pc)
  {
  }

  lemma CallReleases(a: Activity, r: RunnerSide)
    requires Shape(r) && CallHolds(a)
    ensures CallHoldLeft(a.pc) <= 2
    ensures var t := Progress(a, r);
            && (CallUnlocks(a.pc) ==> CallHoldLeft(a.pc) == 1)
            && (!CallUnlocks(a.pc) ==> t.Some? && 0 < CallHoldLeft(t.value.pc) < CallHoldLeft(a.pc))
    ensures !CallWantsLock(a.pc)
  {
  }

  // ---------- shutdown ----------

  /** The steps the runner still takes before `run()` returns, once it is told to stop. */
  function Distance(pc: RunnerPc): nat {
    match pc
    case Idle => 0
    case HaltCallback => 1
    case HaltNotify => 2
    case HaltUnlock => 3
    case HaltReset => 4
    case HaltLock => 5
    case Check => 6
    case Sleep => 7
    case UpCallback => 7
    case MessageCallback => 7
    case UpNotify => 8
    case Receiving(_) => 8
    case ReconnectUnlock(_) => 9
    case Deref => 9
    case Start => 10
    case Create => 11
    case Lookup => 12
    case DropStale => 13
    case ReconnectLock => 14
    case DownCallback => 15
    case DownNotify => 16
    case ProbeUnlock(_) => 17
    case ProbeRead => 18
    case ProbeLock => 19
  }

  /** The callbacks it may still make. */
  function CallbacksLeft(pc: RunnerPc): nat {
    match pc
    case Idle => 0
    case HaltCallback => 0
    case HaltNotify => 1
    case HaltUnlock => 1
    case HaltReset => 1
    case HaltLock => 1
    case Check => 1
    case Sleep => 1
    case UpCallback => 1
    case MessageCallback => 1
    case UpNotify => 2
    case Receiving(_) => 2
    case ReconnectUnlock(_) => 2
    case Deref => 2
    case Start => 2
    case Create => 2
    case Lookup => 2
    case DropStale => 2
    case ReconnectLock => 2
    case DownCallback => 2
    case DownNotify => 3
    case ProbeUnlock(_) => 3
    case ProbeRead => 3
    case ProbeLock => 3
  }

  /** Whether it may still finish a reception, or an attempt to connect. */
  function WorkLeft(pc: RunnerPc): nat {
    match pc
    case ProbeLock => 1
    case ProbeRead => 1
    case ProbeUnlock(_) => 1
    case Deref => 1
    case Receiving(_) => 1
    case DownNotify => 1
    case DownCallback => 1
    case ReconnectLock => 1
    case DropStale => 1
    case Lookup => 1
    case Create => 1
    case Start => 1
    case _ => 0
  }

  function MessageCount(trace: seq<Event>): nat {
    if |trace| == 0 then 0
    else MessageCount(trace[..|trace| - 1]) + if trace[|trace| - 1].Message? then 1 else 0
  }

  lemma MessageCountOfSaid(trace: seq<Event>, said: seq<Event>)
    requires |said| <= 1
    ensures MessageCount(trace + said) == MessageCount(trace) + if |said| == 1 && said[0].Message? then 1 else 0
  {
    if |said| == 0 {
      assert trace + said == trace;
    } else {
      assert (trace + said)[..|trace|] == trace;
    }
  }

  /** The attempts to connect that a schedule makes, counted by their lookups. */
  function LookupsIn(s: State, schedule: seq<Action>): nat
    requires Shape(s.run) && Possible(s, schedule)
    decreases |schedule|
  {
    if |schedule| == 0 then 0
    else
      (if schedule[0].RunnerMoves? && s.run.pc.Lookup? then 1 else 0)
      + LookupsIn(Step(s, schedule[0]), schedule[1..])
  }

  /** `WorkLeft`, but for an attempt whose lookup has been made. */
  function BeginningsLeft(pc: RunnerPc): nat {
    if pc.Create? || pc.Start? then 0 else WorkLeft(pc)
  }

  /** A step makes at most one callback, and only a reception or an attempt uses the work up. */
  lemma MoveUsesWork(r: RunnerSide)
    requires Shape(r) && RunnerKnows(r) && !r.pc.Idle?
    ensures var t := Move(r, true);
            && |Said(r)| <= 1
            && r.dialed <= t.dialed
            && var passedOn := if |Said(r)| == 1 && Said(r)[0].Message? then 1 else 0;
            && passedOn + (t.dialed - r.dialed) + WorkLeft(t.pc) <= WorkLeft(r.pc)
            && passedOn + (if r.pc.Lookup? then 1 else 0) + BeginningsLeft(t.pc) <= BeginningsLeft(r.pc)
  {
  }

  /**
   After the flag is set the runner does at most one more thing: it passes one further message on or
   makes one further attempt to connect, not both, on every schedule until another run begins. An attempt
   is counted by its lookup, and again when it has used up its place in the script.
   */
  lemma {:induction false} OneMoreThingAtMost(s: State, schedule: seq<Action>)
    requires Inv(s) && s.stop && Possible(s, schedule) && RunBegins !in schedule
    ensures var t := After(s, schedule).run;
            && MessageCount(s.run.trace) <= MessageCount(t.trace) && s.run.dialed <= t.dialed
            && var passedOn := MessageCount(t.trace) - MessageCount(s.run.trace);
            && passedOn + (t.dialed - s.run.dialed) + WorkLeft(t.pc) <= WorkLeft(s.run.pc)
            && passedOn + LookupsIn(s, schedule) + BeginningsLeft(t.pc) <= BeginningsLeft(s.run.pc)
    decreases |schedule|
  {
    if |schedule| > 0 {
      var a := schedule[0];
      StepKeepsInv(s, a);
      if a.RunnerMoves? {
        MoveSays(s.run, true);
        MoveUsesWork(s.run);
        MessageCountOfSaid(s.run.trace, Said(s.run));
      }
      assert a in schedule && forall b | b in schedule[1..] :: b in schedule;
      OneMoreThingAtMost(Step(s, a), schedule[1..]);
    }
  }

  lemma MoveTowardsReturn(r: RunnerSide)
    requires Shape(r) && RunnerKnows(r) && !r.pc.Idle?
    ensures Distance(Move(r, true).pc) < Distance(r.pc) <= 19
    ensures |Said(r)| + CallbacksLeft(Move(r, true).pc) <= CallbacksLeft(r.pc) <= 3
  {
  }

  function RunnerMovesIn(schedule: seq<Action>): nat {
    if |schedule| == 0 then 0
    else (if schedule[0].RunnerMoves? then 1 else 0) + RunnerMovesIn(schedule[1..])
  }

  /**
   Bounded shutdown: once the stop flag is set and until another run begins, whatever else is scheduled,
   the runner takes at most 19 more steps, makes at most three more callbacks, and passes at most one more
   message on or makes one more attempt to connect.
   */
  lemma ShutdownIsBounded(s: State, schedule: seq<Action>)
    requires Inv(s) && s.stop && Possible(s, schedule) && RunBegins !in schedule
    ensures var t := After(s, schedule);
            && t.stop
            && RunnerMovesIn(schedule) + Distance(t.run.pc) <= Distance(s.run.pc) <= 19
            && |s.run.trace| <= |t.run.trace| <= |s.run.trace| + 3
            && |t.run.trace| + CallbacksLeft(t.run.pc) <= |s.run.trace| + CallbacksLeft(s.run.pc)
            && var passedOn := MessageCount(t.run.trace) - MessageCount(s.run.trace);
            && 0 <= passedOn && s.run.dialed <= t.run.dialed
            && passedOn + (t.run.dialed - s.run.dialed) <= 1
            && passedOn + LookupsIn(s, schedule) <= 1
  {
    ReturnComesNearer(s, schedule);
    OneMoreThingAtMost(s, schedule);
  }

  lemma {:induction false} ReturnComesNearer(s: State, schedule: seq<Action>)
    requires Inv(s) && s.stop && Possible(s, schedule) && RunBegins !in schedule
    ensures var t := After(s, schedule);
            && t.stop
            && RunnerMovesIn(schedule) + Distance(t.run.pc) <= Distance(s.run.pc) <= 19
            && |s.run.trace| <= |t.run.trace| <= |s.run.trace| + 3
            && |t.run.trace| + CallbacksLeft(t.run.pc) <= |s.run.trace| + CallbacksLeft(s.run.pc)
    decreases |schedule|
  {
    if |schedule| == 0 {
      DistanceBounds(s.run.pc);
    } else {
      var a := schedule[0];
      StepKeepsInv(s, a);
      if a.RunnerMoves? {
        MoveTowardsReturn(s.run);
        MoveSays(s.run, true);
      }
      assert a in schedule && forall b | b in schedule[1..] :: b in schedule;
      ReturnComesNearer(Step(s, a), schedule[1..]);
      DistanceBounds(s.run.pc);
    }
  }

  lemma DistanceBounds(pc: RunnerPc)
    ensures Distance(pc) <= 19 && CallbacksLeft(pc) <= 3
    ensures Distance(pc) == 0 <==> pc.Idle?
  {
  }

  /** Nothing but the mutex or a call made inside a callback keeps the runner from its next step. */
  lemma RunnerWaitsForOthersOnly(s: State)
    requires Reachable(s) && !s.run.pc.Idle? && !RunnerEnabled(s)
    ensures || (WantsLock(s.run.pc) && s.holder.Some? && s.holder != Some(Runner))
            || (InCallback(s.run.pc) && 0 in s.calls)
  {
    ReachableHasInv(s);
  }
}
