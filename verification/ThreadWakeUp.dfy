/** The message `stop()` sends: the runner is never left in a reception that nothing will end. */
module ThreadWakeUp {
  import opened Outcomes
  import opened ThreadInterleaving
  import opened ThreadInvariants
  import ThreadTheorems

  /** Between a stop check that said "go on" and the end of the reception it led to. */
  predicate PastCheck(pc: RunnerPc) {
    pc.ProbeLock? || pc.ProbeRead? || pc.ProbeUnlock? || pc.Deref? || pc.Receiving?
  }

  /** A `stop()` that has set the flag and is bound for client `id`. */
  predicate IsBoundFor(a: Activity, id: nat) {
    && a.kind.StopCall?
    && (a.pc.WantProbe? || a.pc.Probe? || ((a.pc.LeaveProbe? || a.pc.Use?) && a.seen == Some(id)))
  }

  /** Client `id` has been sent "Exit", or a call is on its way to do so. */
  ghost predicate WakeUpComes(s: State, id: nat) {
    Sending(id, StopCall) in s.sent || exists i :: i in s.calls && IsBoundFor(s.calls[i], id)
  }

  /** While the runner is past its check, a flag set since then comes with a wake-up for its client. */
  ghost predicate StopWakes(s: State)
    requires Shape(s.run)
  {
    PastCheck(s.run.pc) && s.stop && IsUp(s.run) ==> WakeUpComes(s, s.run.pointer.value)
  }

  lemma MovesPastCheck(r: RunnerSide, stop: bool)
    requires Shape(r) && RunnerKnows(r) && !r.pc.Idle? && PastCheck(Move(r, stop).pc)
    ensures var t := Move(r, stop);
            && t.pointer == r.pointer && t.clients == r.clients
            && if r.pc.Check? then !stop else PastCheck(r.pc)
  {
  }

  /** Every step of a call bound for the runner's client leaves it bound for it, or has sent. */
  lemma BoundCallMoves(s: State, i: nat)
    requires Inv(s) && CallEnabled(s, i) && IsUp(s.run) && IsBoundFor(s.calls[i], s.run.pointer.value)
    ensures var id, t := s.run.pointer.value, CallStep(s, i);
            if s.calls[i].pc.Use? then t.sent == s.sent + [Sending(id, StopCall)]
            else i in t.calls && IsBoundFor(t.calls[i], id) && t.sent == s.sent
                 && StepsToSend(t.calls[i].pc) + 1 == StepsToSend(s.calls[i].pc)
  {
    assert Remembers(s.calls[i], s.run.writes);
  }

  /** The record of what was sent: a call that uses an open client adds to it, and no other step does. */
  lemma UseIsRecorded(s: State, a: Action)
    requires Shape(s.run) && Enabled(s, a)
    ensures var uses := a.CallMoves? && s.calls[a.i].pc.Use?;
            && (uses ==> s.run.pointer.Some?)
            && Step(s, a).sent ==
               if uses && s.run.clients[s.run.pointer.value].state.websocket.Some?
               then s.sent + [Sending(s.run.pointer.value, s.calls[a.i].kind)] else s.sent
  {
    assert s.sent + [] == s.sent;
  }

  /** The steps of a `stop()` until it has sent. */
  function StepsToSend(pc: CallPc): nat {
    match pc
    case WantProbe => 4
    case Probe => 3
    case LeaveProbe => 2
    case Use => 1
    case _ => 0
  }

  lemma CallKeepsWaking(s: State, i: nat)
    requires Inv(s) && CallEnabled(s, i) && StopWakes(s)
    ensures StopWakes(CallStep(s, i))
  {
    var t := CallStep(s, i);
    if PastCheck(s.run.pc) && t.stop && IsUp(s.run) {
      var id := s.run.pointer.value;
      if s.calls[i].pc.SetStop? {
        assert i in t.calls && IsBoundFor(t.calls[i], id);
      } else if Sending(id, StopCall) !in s.sent {
        var j :| j in s.calls && IsBoundFor(s.calls[j], id);
        if i == j {
          BoundCallMoves(s, i);
          assert Sending(id, StopCall) in t.sent || (i in t.calls && IsBoundFor(t.calls[i], id));
        } else {
          assert j in t.calls && t.calls[j] == s.calls[j];
        }
      }
    }
  }

  lemma StepKeepsWaking(s: State, a: Action)
    requires Inv(s) && Enabled(s, a) && StopWakes(s)
    ensures StopWakes(Step(s, a))
  {
    var t := Step(s, a);
    match a
    case RunBegins =>
    case RunnerMoves =>
      if PastCheck(t.run.pc) {
        MovesPastCheck(s.run, s.stop);
        if t.stop && IsUp(t.run) {
          SameWakeUp(s, t, t.run.pointer.value);
        }
      }
    case CallBegins(i, kind) =>
      if PastCheck(s.run.pc) && s.stop && IsUp(s.run) {
        SameWakeUp(s, t, s.run.pointer.value);
      }
    case CallMoves(i) =>
      CallKeepsWaking(s, i);
  }

  lemma SameWakeUp(s: State, t: State, id: nat)
    requires WakeUpComes(s, id) && t.sent == s.sent
    requires forall i | i in s.calls :: i in t.calls && t.calls[i] == s.calls[i]
    ensures WakeUpComes(t, id)
  {
    if Sending(id, StopCall) !in s.sent {
      var i :| i in s.calls && IsBoundFor(s.calls[i], id);
      assert i in t.calls && IsBoundFor(t.calls[i], id);
    }
  }

  lemma {:induction false} ScheduleKeepsWaking(s: State, schedule: seq<Action>)
    requires Inv(s) && Possible(s, schedule) && StopWakes(s)
    ensures StopWakes(After(s, schedule))
    decreases |schedule|
  {
    if |schedule| > 0 {
      StepKeepsInv(s, schedule[0]);
      StepKeepsWaking(s, schedule[0]);
      ScheduleKeepsWaking(Step(s, schedule[0]), schedule[1..]);
    }
  }

  /**
   No wake-up is lost: whenever the runner is inside a reception with the stop flag set, whichever way the
   threads came there, the client it receives from has been sent "Exit", or some `stop()` still in progress
   is bound for that very client.
   */
  lemma StopWakesReception(s: State)
    requires Reachable(s) && s.run.pc.Receiving? && s.stop
    ensures WakeUpComes(s, s.run.pc.id)
  {
    var script, schedule :| Possible(Init(script), schedule) && s == After(Init(script), schedule);
    InitHasInv(script);
    ScheduleKeepsWaking(Init(script), schedule);
    ThreadTheorems.RunnerNeverMeetsNull(s);
  }

  function MoveOf(i: nat, a: Action): nat {
    if a == CallMoves(i) then 1 else 0
  }

  function MovesOf(i: nat, schedule: seq<Action>): nat {
    if |schedule| == 0 then 0 else MoveOf(i, schedule[0]) + MovesOf(i, schedule[1..])
  }

  /** Client `id` has been sent "Exit", or `i` is bound for it and `left` steps from sending. */
  ghost predicate Arrives(s: State, i: nat, id: nat, left: int) {
    || Sending(id, StopCall) in s.sent
    || (i in s.calls && IsBoundFor(s.calls[i], id) && StepsToSend(s.calls[i].pc) == left)
  }

  lemma StepBringsNearer(s: State, a: Action, i: nat, left: int)
    requires Inv(s) && s.run.pc.Receiving? && Enabled(s, a) && !a.RunnerMoves?
    requires Arrives(s, i, s.run.pc.id, left)
    ensures Step(s, a).run == s.run
    ensures Arrives(Step(s, a), i, s.run.pc.id, left - MoveOf(i, a))
  {
    if Sending(s.run.pc.id, StopCall) in s.sent {
      assert s.sent <= Step(s, a).sent;
    } else if a == CallMoves(i) {
      BoundCallMoves(s, i);
    }
  }

  lemma {:induction false} ScheduleBringsNearer(s: State, schedule: seq<Action>, i: nat, left: int)
    requires Inv(s) && s.run.pc.Receiving? && Possible(s, schedule) && RunnerMoves !in schedule
    requires Arrives(s, i, s.run.pc.id, left)
    ensures Arrives(After(s, schedule), i, s.run.pc.id, left - MovesOf(i, schedule))
    decreases |schedule|
  {
    if |schedule| > 0 {
      var a := schedule[0];
      StepKeepsInv(s, a);
      assert a in schedule && forall b | b in schedule[1..] :: b in schedule;
      StepBringsNearer(s, a, i, left);
      ScheduleBringsNearer(Step(s, a), schedule[1..], i, left - MoveOf(i, a));
    }
  }

  /**
   And it arrives: as long as the reception lasts, a `stop()` bound for its client stays bound for it until
   it has sent, which takes at most four steps of its own, whatever the other calls do in between.
   */
  lemma BoundCallArrives(s: State, schedule: seq<Action>, i: nat)
    requires Inv(s) && s.run.pc.Receiving? && Possible(s, schedule) && RunnerMoves !in schedule
    requires i in s.calls && IsBoundFor(s.calls[i], s.run.pc.id)
    ensures var t := After(s, schedule);
            Sending(s.run.pc.id, StopCall) in t.sent || (i in t.calls && IsBoundFor(t.calls[i], s.run.pc.id))
    ensures MovesOf(i, schedule) >= 4 ==> Sending(s.run.pc.id, StopCall) in After(s, schedule).sent
  {
    ScheduleBringsNearer(s, schedule, i, StepsToSend(s.calls[i].pc));
  }
}
