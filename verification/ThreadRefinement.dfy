/**
 The concurrent handler does what the sequential session does: seen from the runner, every interleaving
 is a sequence of whole passes, whatever the other threads do in between.
 */
module ThreadRefinement {
  import opened Outcomes
  import opened ConnectionSession
  import opened ThreadInterleaving
  import opened ThreadInvariants

  /** The session the runner's side stands for. */
  function SessionOf(r: RunnerSide): Session
    requires Shape(r)
  {
    Session(Socket(r), r.notified, r.trace, r.script[r.dialed..])
  }

  /** What is left of `reconnect_and_notify` once `reconnect` has returned or thrown. */
  function AfterReconnect(d: (bool, Session)): Session {
    if d.0 then Notify(d.1, true) else d.1
  }

  /** The session at the end of the pass the runner is in, if it is left to finish it. */
  function Finish(r: RunnerSide): Session
    requires Shape(r)
  {
    var h := SessionOf(r);
    match r.pc
    case Idle => h
    case Check => h
    case HaltLock => Halt(h)
    case HaltReset => Halt(h)
    case HaltUnlock => Notify(h, false)
    case HaltNotify => Notify(h, false)
    case HaltCallback => h.(notified := false)
    case ProbeLock => Turn(h)
    case ProbeRead => Turn(h)
    case ProbeUnlock(_) => Turn(h)
    case Deref => Turn(h)
    case Receiving(_) => Turn(h)
    case MessageCallback => h
    case DownNotify => ReconnectAndNotify(h)
    case DownCallback => Redial(h.(notified := false))
    case ReconnectLock => Redial(h)
    case DropStale => Redial(h)
    case Lookup => AfterReconnect(Dial(h))
    case Create => AfterReconnect(Dial(h))
    case Start => AfterReconnect(Dial(h.(socket := None)))
    case ReconnectUnlock(ok) => AfterReconnect((ok, h))
    case UpNotify => Notify(h, true)
    case UpCallback => h.(notified := true)
    case Sleep => h
  }

  /** A step inside a pass changes nothing of how the pass ends. */
  lemma PassIsAtomic(r: RunnerSide, stop: bool)
    requires Shape(r) && RunnerKnows(r) && !r.pc.Idle? && !r.pc.Check?
    ensures Finish(Move(r, stop)) == Finish(r)
  {
    if r.pc.Receiving? || r.pc.ProbeUnlock? || r.pc.ProbeRead? || r.pc.ProbeLock? || r.pc.Deref? {
      ReceptionIsAtomic(r, stop);
    } else if r.pc.Lookup? || r.pc.Start? {
      DialingIsAtomic(r, stop);
    } else if r.pc.Create? || r.pc.DropStale? || r.pc.ReconnectLock? || r.pc.DownCallback? {
      ReconnectionIsAtomic(r, stop);
    } else if r.pc.HaltLock? || r.pc.HaltReset? || r.pc.HaltUnlock? || r.pc.HaltNotify? || r.pc.HaltCallback? {
      HaltIsAtomic(r, stop);
    } else {
      NotificationIsAtomic(r, stop);
    }
  }

  lemma ReceptionIsAtomic(r: RunnerSide, stop: bool)
    requires Shape(r) && RunnerKnows(r)
    requires r.pc.Receiving? || r.pc.ProbeUnlock? || r.pc.ProbeRead? || r.pc.ProbeLock? || r.pc.Deref?
    ensures Finish(Move(r, stop)) == Finish(r)
  {
  }

  lemma DialingIsAtomic(r: RunnerSide, stop: bool)
    requires Shape(r) && RunnerKnows(r) && (r.pc.Lookup? || r.pc.Start?)
    ensures Finish(Move(r, stop)) == Finish(r)
  {
    var h := SessionOf(r);
    if r.dialed < |r.script| {
      assert h.future[0] == r.script[r.dialed];
      assert h.future[1..] == r.script[r.dialed + 1..];
    }
  }

  lemma ReconnectionIsAtomic(r: RunnerSide, stop: bool)
    requires Shape(r) && RunnerKnows(r)
    requires r.pc.Create? || r.pc.DropStale? || r.pc.ReconnectLock? || r.pc.DownCallback?
    ensures Finish(Move(r, stop)) == Finish(r)
  {
  }

  lemma HaltIsAtomic(r: RunnerSide, stop: bool)
    requires Shape(r) && RunnerKnows(r)
    requires r.pc.HaltLock? || r.pc.HaltReset? || r.pc.HaltUnlock? || r.pc.HaltNotify? || r.pc.HaltCallback?
    ensures Finish(Move(r, stop)) == Finish(r)
  {
    assert r.trace + [] == r.trace;
  }

  lemma NotificationIsAtomic(r: RunnerSide, stop: bool)
    requires Shape(r) && RunnerKnows(r)
    requires r.pc.MessageCallback? || r.pc.DownNotify? || r.pc.ReconnectUnlock?
             || r.pc.UpNotify? || r.pc.UpCallback? || r.pc.Sleep?
    ensures Finish(Move(r, stop)) == Finish(r)
  {
    assert r.trace + [] == r.trace;
  }

  /** The decision of a step that is a stop check. */
  function Decision(s: State, a: Action): seq<bool> {
    if a.RunnerMoves? && s.run.pc.Check? then [s.stop] else []
  }

  /** The decisions of the stop checks along a schedule. */
  function Decisions(s: State, schedule: seq<Action>): seq<bool>
    requires Shape(s.run) && Possible(s, schedule)
    decreases |schedule|
  {
    if |schedule| == 0 then []
    else Decision(s, schedule[0]) + Decisions(Step(s, schedule[0]), schedule[1..])
  }

  /** The passes those decisions call for, one after the other. */
  function Passes(h: Session, decisions: seq<bool>): Session
    decreases |decisions|
  {
    if |decisions| == 0 then h
    else Passes(if decisions[0] then Halt(h) else Turn(h), decisions[1..])
  }

  lemma StepRefines(s: State, a: Action)
    requires Shape(s.run) && Enabled(s, a) && RunnerKnows(s.run)
    ensures Finish(Step(s, a).run) ==
            if a.RunnerMoves? && s.run.pc.Check? then (if s.stop then Halt(Finish(s.run)) else Turn(Finish(s.run)))
            else Finish(s.run)
  {
    if a.RunnerMoves? && !s.run.pc.Check? {
      PassIsAtomic(s.run, s.stop);
    }
  }

  /**
   Refinement: along every schedule, with any number of calls in progress, the pass the runner is in
   will end where running the passes one after the other, undisturbed, ends.
   */
  lemma {:induction false} SchedulesRefinePasses(s: State, schedule: seq<Action>)
    requires Inv(s) && Possible(s, schedule)
    ensures Finish(After(s, schedule).run) == Passes(Finish(s.run), Decisions(s, schedule))
    decreases |schedule|
  {
    if |schedule| > 0 {
      var a := schedule[0];
      var t := Step(s, a);
      StepKeepsInv(s, a);
      StepRefines(s, a);
      SchedulesRefinePasses(t, schedule[1..]);
      var later := Decisions(t, schedule[1..]);
      if a.RunnerMoves? && s.run.pc.Check? {
        assert Decisions(s, schedule)[0] == s.stop && Decisions(s, schedule)[1..] == later;
      } else {
        assert Decisions(s, schedule) == later;
      }
    }
  }

  /** `n` passes and a stop are a run. */
  lemma {:induction false} PassesOfRun(h: Session, n: nat)
    ensures Passes(h, seq(n, _ => false) + [true]) == Run(h, n)
    decreases n
  {
    var decisions := seq(n, _ => false) + [true];
    if n > 0 {
      assert decisions[1..] == seq(n - 1, _ => false) + [true];
      PassesOfRun(Turn(h), n - 1);
    } else {
      assert decisions[1..] == [];
    }
  }

  /** Past its last stop check. */
  predicate Halting(pc: RunnerPc) {
    pc.Idle? || pc.HaltLock? || pc.HaltReset? || pc.HaltUnlock? || pc.HaltNotify? || pc.HaltCallback?
  }

  lemma OnlyTheCheckHalts(r: RunnerSide, stop: bool)
    requires Shape(r) && RunnerKnows(r) && !r.pc.Idle?
    ensures Halting(Move(r, stop).pc) <==> Halting(r.pc) || (r.pc.Check? && stop)
  {
  }

  /** The shape of the decisions of one run: "go on" until the last, which says "stop" and is acted upon. */
  ghost predicate OneRun(decisions: seq<bool>, before: RunnerPc, after: RunnerPc) {
    if Halting(before) then decisions == [] && Halting(after)
    else if Halting(after) then
      |decisions| > 0 && decisions == seq(|decisions| - 1, _ => false) + [true]
    else decisions == seq(|decisions|, _ => false)
  }

  lemma OneRunBegins(decision: bool, later: seq<bool>, before: RunnerPc, next: RunnerPc, after: RunnerPc)
    requires !Halting(before) && Halting(next) == decision && OneRun(later, next, after)
    ensures OneRun([decision] + later, before, after)
  {
    if decision {
      assert [true] + later == seq(0, _ => false) + [true];
    }
  }

  lemma OneRunGoesOn(s: State, a: Action, later: seq<bool>, after: RunnerPc)
    requires Shape(s.run) && RunnerKnows(s.run) && Enabled(s, a) && !a.RunBegins?
    requires OneRun(later, Step(s, a).run.pc, after)
    ensures OneRun(Decision(s, a) + later, s.run.pc, after)
  {
    if a.RunnerMoves? {
      OnlyTheCheckHalts(s.run, s.stop);
    }
    if a.RunnerMoves? && s.run.pc.Check? {
      OneRunBegins(s.stop, later, s.run.pc, Step(s, a).run.pc, after);
    } else {
      assert [] + later == later;
    }
  }

  /** Within one run the checks say "go on" until the last one, which says "stop". */
  lemma {:induction false} OneStopPerRun(s: State, schedule: seq<Action>)
    requires Inv(s) && Possible(s, schedule) && RunBegins !in schedule
    ensures OneRun(Decisions(s, schedule), s.run.pc, After(s, schedule).run.pc)
    decreases |schedule|
  {
    if |schedule| > 0 {
      var a := schedule[0];
      StepKeepsInv(s, a);
      assert a in schedule && forall b | b in schedule[1..] :: b in schedule;
      OneStopPerRun(Step(s, a), schedule[1..]);
      OneRunGoesOn(s, a, Decisions(Step(s, a), schedule[1..]), After(s, schedule).run.pc);
    }
  }

  // ---------- only stop() ends a run ----------

  /** Some `stop()` sets the flag along the schedule. */
  predicate StopIsCalled(s: State, schedule: seq<Action>)
    requires Shape(s.run) && Possible(s, schedule)
    decreases |schedule|
  {
    |schedule| > 0
    && (|| (schedule[0].CallMoves? && s.calls[schedule[0].i].pc.SetStop?)
        || StopIsCalled(Step(s, schedule[0]), schedule[1..]))
  }

  /** Until another run begins the flag is set exactly if it was, or a `stop()` has set it. */
  lemma {:induction false} FlagRemembersStop(s: State, schedule: seq<Action>)
    requires Shape(s.run) && Possible(s, schedule) && RunBegins !in schedule
    ensures After(s, schedule).stop <==> s.stop || StopIsCalled(s, schedule)
    decreases |schedule|
  {
    if |schedule| > 0 {
      assert schedule[0] in schedule && forall b | b in schedule[1..] :: b in schedule;
      FlagRemembersStop(Step(s, schedule[0]), schedule[1..]);
    }
  }

  lemma {:induction false} UnstoppedGoesOn(s: State, schedule: seq<Action>)
    requires Inv(s) && Possible(s, schedule) && RunBegins !in schedule
    requires !s.stop && !Halting(s.run.pc) && !StopIsCalled(s, schedule)
    ensures !Halting(After(s, schedule).run.pc)
    decreases |schedule|
  {
    if |schedule| > 0 {
      var a := schedule[0];
      StepKeepsInv(s, a);
      assert a in schedule && forall b | b in schedule[1..] :: b in schedule;
      StaysUnstopped(s, a);
      UnstoppedGoesOn(Step(s, a), schedule[1..]);
    }
  }

  lemma StaysUnstopped(s: State, a: Action)
    requires Inv(s) && Enabled(s, a) && !a.RunBegins? && !s.stop && !Halting(s.run.pc)
    requires !(a.CallMoves? && s.calls[a.i].pc.SetStop?)
    ensures !Step(s, a).stop && !Halting(Step(s, a).run.pc)
  {
    if a.RunnerMoves? {
      OnlyTheCheckHalts(s.run, s.stop);
    }
  }

  /**
   Only a `stop()` ends a run. A flag left over from before does not: from the beginning of a run, whatever
   the flag was, every stop check says "go on" until a call has set it, and a run that has returned was told
   to by a call made since it began.
   */
  lemma OnlyStopEndsRun(s: State, schedule: seq<Action>)
    requires Inv(s) && s.run.pc.Idle? && Possible(s, [RunBegins] + schedule) && RunBegins !in schedule
    ensures var begun, t := Step(s, RunBegins), After(s, [RunBegins] + schedule);
            && ([RunBegins] + schedule)[1..] == schedule
            && (t.stop <==> StopIsCalled(begun, schedule))
            && (!StopIsCalled(begun, schedule) ==>
                  && !Halting(t.run.pc)
                  && forall k | 0 <= k < |Decisions(begun, schedule)| :: !Decisions(begun, schedule)[k])
            && (t.run.pc.Idle? ==> StopIsCalled(begun, schedule))
  {
    var begun := Step(s, RunBegins);
    assert ([RunBegins] + schedule)[1..] == schedule;
    StepKeepsInv(s, RunBegins);
    FlagRemembersStop(begun, schedule);
    if !StopIsCalled(begun, schedule) {
      UnstoppedGoesOn(begun, schedule);
      OneStopPerRun(begun, schedule);
    }
  }

  /**
   A run among other threads: from `run()` beginning to its return, along whatever schedule, the
   callbacks it made are the story of the attempts it had before it, cut short after as many passes as
   its stop checks let go on.
   */
  lemma RunAmongThreadsTellsStory(s: State, schedule: seq<Action>)
    requires Inv(s) && s.run.pc.Idle? && Possible(s, [RunBegins] + schedule) && RunBegins !in schedule
    requires After(s, [RunBegins] + schedule).run.pc.Idle?
    ensures var decisions := Decisions(s, [RunBegins] + schedule);
            && |decisions| > 0
            && After(s, [RunBegins] + schedule).run.trace ==
               s.run.trace + Story(s.run.script[s.run.dialed..], |decisions| - 1)
  {
    var begun := Step(s, RunBegins);
    assert ([RunBegins] + schedule)[1..] == schedule;
    assert Decisions(s, [RunBegins] + schedule) == Decisions(begun, schedule);
    StepKeepsInv(s, RunBegins);
    SchedulesRefinePasses(begun, schedule);
    OneStopPerRun(begun, schedule);
    var n := |Decisions(begun, schedule)| - 1;
    var h := SessionOf(s.run);
    assert Finish(begun.run) == h;
    PassesOfRun(h, n);
    RunTellsStory(h, n);
    assert After(begun, schedule).run.trace == Finish(After(begun, schedule).run).trace;
  }
}
