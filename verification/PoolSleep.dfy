/** The condition variable is shared by workers and blocked submitters, and an enqueue only
    signals one thread.  No wakeup is lost all the same. */
module PoolSleep {
  import opened PoolQueue
  import opened PoolMachine
  import opened PoolOwnership

  ghost predicate NoneAsleep(s: State) {
    forall tid :: tid in s.pc ==> s.pc[tid] != Asleep
  }

  ghost function WorkersAt(s: State, p: Pc): set<Tid> {
    set tid | tid in s.pc && tid.Wk? && s.pc[tid] == p
  }

  predicate InWait(p: Pc) {
    p == Loop || p == Asleep || p == Woken || (p.Reply? && p.after == ToLoop)
  }

  predicate Exiting(p: Pc) { p == Done || (p.Reply? && p.after == ToExit) }

  /** A submitter sleeps only while the queue is full, the pool open and its timer running. */
  ghost predicate SubsSleep(c: Settings, s: State) {
    forall t :: Sub(t) in s.pc && s.pc[Sub(t)] == Asleep ==>
      |s.q| == Cap(c) && !s.closed && t in s.timers && t !in s.fired
  }

  /** While a worker sleeps, each queued task has a worker that was woken for it. */
  ghost predicate WorkersSleep(s: State) {
    WorkersAt(s, Asleep) != {} ==> |s.q| <= |WorkersAt(s, Woken)|
  }

  ghost predicate Closing(c: Settings, s: State) {
    && (s.closed ==> s.stopped && NoneAsleep(s))
    && (forall w :: Wk(w) in s.pc && Exiting(s.pc[Wk(w)]) ==> s.closed && s.q == [])
    && (Sweeper in s.pc && s.pc[Sweeper] == Done ==> s.stopped)
    && (s.returned ==> s.closed && AllGone(c, s))
  }

  /** A submitter that has not started its timer yet. */
  predicate Early(p: Pc) {
    p in {Begin, Collect, Enter, Arm} || (p.Reply? && p.after == ToEnter)
  }

  /** A submitter in the wait loop has a timer that is running or has fired. */
  ghost predicate Timing(c: Settings, s: State) {
    && (forall t :: Sub(t) in s.pc && InWait(s.pc[Sub(t)]) ==> c.wait && (t in s.timers || t in s.fired))
    && (forall t :: Sub(t) in s.pc && Early(s.pc[Sub(t)]) ==> t !in s.timers && t !in s.fired)
    && (forall t :: Sub(t) in s.pc && s.pc[Sub(t)] == Arm ==> c.wait)
    && (forall t :: t in s.timers ==> t !in s.fired && Sub(t) in s.pc)
    && (forall t :: t in s.fired ==> Sub(t) in s.pc)
  }

  ghost predicate SleepInv(c: Settings, s: State) {
    && |s.q| <= Cap(c)
    && SubsSleep(c, s)
    && WorkersSleep(s)
    && Closing(c, s)
  }

  // ---- timers ----

  lemma RouseTiming(c: Settings, s: State, wake: Wake, who: Tid)
    requires Timing(c, s)
    ensures Timing(c, Rouse(s, wake, who))
  {
    RousePcs(s, wake, who);
    var s' := Rouse(s, wake, who);
    forall tid ensures tid in s'.pc <==> tid in s.pc { assert tid in s'.pc <==> tid in s'.pc.Keys; }
  }

  lemma SameTiming(c: Settings, s: State, s': State)
    requires Timing(c, s) && s'.pc == s.pc && s'.timers == s.timers && s'.fired == s.fired
    ensures Timing(c, s')
  {}

  /** Thread `tid` moves to `p`; the timers stay as they are. */
  lemma MoveTiming(c: Settings, s: State, s': State, tid: Tid, p: Pc)
    requires Timing(c, s) && tid in s.pc && s'.pc == s.pc[tid := p]
    requires s'.timers == s.timers && s'.fired == s.fired
    requires tid.Sub? && InWait(p) ==> InWait(s.pc[tid])
    requires tid.Sub? && Early(p) ==> Early(s.pc[tid])
    requires tid.Sub? && p == Arm ==> c.wait
    ensures Timing(c, s')
  {}

  /** A submitter leaves the wait loop; its timer may be stopped. */
  lemma LeaveTiming(c: Settings, s: State, t: Task, stopWins: bool, p: Pc)
    requires Timing(c, s) && Sub(t) in s.pc && s.pc[Sub(t)] in {Loop, Woken} && !InWait(p) && !Early(p)
    ensures Timing(c, Shift(StopTimer(s, t, stopWins), Sub(t), p))
  {}

  lemma StopThenRouse(s: State, t: Task, stopWins: bool, who: Tid)
    ensures Rouse(StopTimer(s, t, stopWins), One, who) == StopTimer(Rouse(s, One, who), t, stopWins)
  {}

  lemma AcceptTiming(c: Settings, s: State, t: Task, stopWins: bool, who: Tid)
    requires Timing(c, s) && Sub(t) in s.pc && s.pc[Sub(t)] in {Loop, Woken}
    ensures Timing(c, Enqueued(Rouse(StopTimer(s, t, stopWins), One, who), t))
  {
    hide Timing;
    var r := Rouse(s, One, who);
    RouseTiming(c, s, One, who);
    RousePcs(s, One, who);
    LeaveTiming(c, r, t, stopWins, Done);
    StopThenRouse(s, t, stopWins, who);
    hide StopTimer, Rouse;
    SameTiming(c, Shift(StopTimer(r, t, stopWins), Sub(t), Done),
      Enqueued(Rouse(StopTimer(s, t, stopWins), One, who), t));
  }

  lemma PopTiming(c: Settings, s: State, w: nat)
    requires Timing(c, s) && Enabled(c, s, TryPop(w))
    ensures Timing(c, DoPop(c, s, w))
  {
    var s1 := Rouse(s, PopWake(c, s.q, s.now), Sweeper);
    RouseTiming(c, s, PopWake(c, s.q, s.now), Sweeper);
    RousePcs(s, PopWake(c, s.q, s.now), Sweeper);
    var s' := DoPop(c, s, w);
    match PopVerdict(c, s.q, s.closed, s.now) {
      case Got(_) =>
        var s2 := Gathered(c, s1, Wk(w), ToPop);
        MoveTiming(c, s1, s2, Wk(w), s2.pc[Wk(w)]);
        MoveTiming(c, s2, s', Wk(w), s'.pc[Wk(w)]);
      case Sleep => MoveTiming(c, s, s', Wk(w), Asleep);
      case _ => MoveTiming(c, s1, s', Wk(w), s'.pc[Wk(w)]);
    }
  }

  lemma GatherTiming(c: Settings, s: State, wake: Wake, who: Tid, tid: Tid, a: After)
    requires Timing(c, s) && tid in s.pc && Fits(tid, a) && s.pc[tid] != Asleep
    requires a == ToLoop ==> s.pc[tid] in {Loop, Woken}
    requires a == ToEnter ==> s.pc[tid] == Collect
    ensures Timing(c, Gathered(c, Rouse(s, wake, who), tid, a))
  {
    RouseTiming(c, s, wake, who);
    RousePcs(s, wake, who);
    var s1 := Rouse(s, wake, who);
    var s' := Gathered(c, s1, tid, a);
    MoveTiming(c, s1, s', tid, s'.pc[tid]);
  }

  lemma RecheckTiming(c: Settings, s: State, t: Task, stopWins: bool, who: Tid)
    requires Timing(c, s) && Enabled(c, s, Recheck(t, stopWins, who))
    ensures Timing(c, DoRecheck(c, s, t, stopWins, who))
  {
    hide Timing;
    match LoopVerdict(c, s.q, s.closed, t in s.fired, s.now) {
      case TakeDead => GatherTiming(c, s, All, who, Sub(t), ToLoop);
      case Doze => MoveTiming(c, s, Shift(s, Sub(t), Asleep), Sub(t), Asleep);
      case Leave(Accepted) => AcceptTiming(c, s, t, stopWins, who);
      case Leave(_) => LeaveTiming(c, s, t, stopWins, Answer(Deadline, 0));
    }
  }

  lemma EnterTiming(c: Settings, s: State, t: Task, who: Tid)
    requires Timing(c, s) && Enabled(c, s, TryEnter(t, who))
    ensures Timing(c, DoEnter(c, s, t, who))
  {
    hide Timing;
    var s' := DoEnter(c, s, t, who);
    if EnterVerdict(c, s.q, s.closed) == Accepted {
      RouseTiming(c, s, One, who);
      RousePcs(s, One, who);
      MoveTiming(c, Rouse(s, One, who), s', Sub(t), Done);
    } else {
      MoveTiming(c, s, s', Sub(t), s'.pc[Sub(t)]);
    }
  }

  lemma ArmTiming(c: Settings, s: State, t: Task)
    requires Timing(c, s) && Enabled(c, s, ArmTimer(t))
    ensures Timing(c, DoArm(c, s, t))
  {
    var left := LeftAt(c, t, s.now);
    if left < c.minBudget { MoveTiming(c, s, DoArm(c, s, t), Sub(t), Answer(Deadline, left)); }
  }

  lemma FireTiming(c: Settings, s: State, t: Task)
    requires Timing(c, s) && Enabled(c, s, FireTimer(t))
    ensures Timing(c, Do(c, s, FireTimer(t)))
  {
    var s1 := s.(timers := s.timers - {t}, fired := s.fired + {t});
    assert Timing(c, s1);
    RouseTiming(c, s1, All, Sweeper);
  }

  lemma ReplyTiming(c: Settings, s: State, tid: Tid)
    requires Timing(c, s) && Enabled(c, s, ReplyOne(tid)) && WfPc(tid, s.pc[tid])
    ensures Timing(c, DoReplyOne(s, tid))
  {
    hide Timing;
    var s' := DoReplyOne(s, tid);
    MoveTiming(c, s, s', tid, s'.pc[tid]);
  }

  lemma CheckTiming(c: Settings, s: State, t: Task, drift: nat)
    requires Timing(c, s) && Enabled(c, s, Check(t, drift))
    ensures Timing(c, DoCheck(c, s, t, drift))
  {
    hide Timing, LeftAt;
    var s' := DoCheck(c, s, t, drift);
    if Expired(c, t, s.now) {
      assert s' == s.(now := s'.now, pc := s.pc[Sub(t) := Answer(Deadline, LeftAt(c, t, s.now + drift))]);
    } else {
      assert s' == s.(pc := s.pc[Sub(t) := Collect]);
    }
    hide DoCheck;
    MoveTiming(c, s, s', Sub(t), s'.pc[Sub(t)]);
  }

  lemma CloseTiming(c: Settings, s: State)
    requires Timing(c, s)
    ensures Timing(c, Rouse(s.(closed := true), All, Sweeper))
  {
    assert Timing(c, s.(closed := true));
    RouseTiming(c, s.(closed := true), All, Sweeper);
  }

  /** The steps that only move one thread on. */
  lemma SimpleTiming(c: Settings, s: State, step: Step)
    requires Timing(c, s) && Enabled(c, s, step) && (step.Refuse? || step.RunTask? || step.SweeperExit?)
    ensures Timing(c, Do(c, s, step))
  {
    hide Timing;
    match step {
      case Refuse(t) => MoveTiming(c, s, Do(c, s, step), Sub(t), Done);
      case RunTask(w) => MoveTiming(c, s, Do(c, s, step), Wk(w), Pop);
      case SweeperExit => MoveTiming(c, s, Do(c, s, step), Sweeper, Done);
    }
  }

  lemma StepTiming(c: Settings, s: State, step: Step)
    requires Typed(c, s) && Timing(c, s) && Enabled(c, s, step)
    ensures Timing(c, Do(c, s, step))
  {
    hide Timing, DoCheck, DoReplyOne, DoEnter, DoArm, DoRecheck, DoPop, DoRun, Called, Shift;
    match step {
      case Submit(t) => SubmitTiming(c, s, t);
      case Check(t, drift) => CheckTiming(c, s, t, drift);
      case Gather(tid) =>
        GatherTiming(c, s, if Dead(c, s.q, s.now) != [] then All else Nobody, tid,
                     tid, if tid.Sweeper? then ToIdle else ToEnter);
      case ReplyOne(tid) => ReplyTiming(c, s, tid);
      case TryEnter(t, who) => EnterTiming(c, s, t, who);
      case ArmTimer(t) => ArmTiming(c, s, t);
      case Recheck(t, stopWins, who) => RecheckTiming(c, s, t, stopWins, who);
      case TryPop(w) => PopTiming(c, s, w);
      case FireTimer(t) => FireTiming(c, s, t);
      case CloseLock => CloseTiming(c, s);
      case Refuse(_) => SimpleTiming(c, s, step);
      case RunTask(_) => SimpleTiming(c, s, step);
      case SweeperExit => SimpleTiming(c, s, step);
      case _ => SameTiming(c, s, Do(c, s, step));
    }
  }

  lemma SubmitTiming(c: Settings, s: State, t: Task)
    requires Timing(c, s) && Enabled(c, s, Submit(t))
    ensures Timing(c, Do(c, s, Submit(t)))
  {}

  // ---- sleeping ----

  lemma RouseAllSleep(c: Settings, s: State, who: Tid)
    requires SleepInv(c, s)
    ensures SleepInv(c, Rouse(s, All, who)) && NoneAsleep(Rouse(s, All, who))
  {
    RousePcs(s, All, who);
    var s' := Rouse(s, All, who);
    forall tid ensures tid in s'.pc <==> tid in s.pc { assert tid in s'.pc <==> tid in s'.pc.Keys; }
    assert NoneAsleep(s');
    assert WorkersAt(s', Asleep) == {};
  }

  /** With room in the queue only workers can be asleep, so the signal of an enqueue finds a
      worker whenever one sleeps. */
  lemma SignalSleep(c: Settings, s: State, who: Tid)
    requires Typed(c, s) && SleepInv(c, s) && SignalFits(s, who) && |s.q| < Cap(c)
    ensures SleepInv(c, Rouse(s, One, who))
    ensures WorkersAt(Rouse(s, One, who), Asleep) != {} ==> |s.q| < |WorkersAt(Rouse(s, One, who), Woken)|
  {
    var s' := Rouse(s, One, who);
    if who in s.pc && s.pc[who] == Asleep {
      assert !who.Sub? && WfPc(who, Asleep);
      RousePcs(s, One, who);
      ClosingRoused(c, s, s');
      SignalCounts(s, s', who);
      SubsRoused(c, s, s');
      hide Closing, Typed, WfPc, WorkersAt, Rouse, SubsSleep;
    } else {
      hide Closing, Typed, WfPc;
      assert WorkersAt(s, Asleep) == {};
    }
  }

  lemma SignalCounts(s: State, s': State, who: Tid)
    requires who.Wk? && who in s.pc && s.pc[who] == Asleep && s'.pc == s.pc[who := Woken]
    ensures WorkersAt(s, Asleep) != {}
    ensures |WorkersAt(s', Woken)| == |WorkersAt(s, Woken)| + 1
  {
    assert who in WorkersAt(s, Asleep);
    assert who !in WorkersAt(s, Woken) && WorkersAt(s', Woken) == WorkersAt(s, Woken) + {who};
  }

  lemma SubsRoused(c: Settings, s: State, s': State)
    requires SubsSleep(c, s) && |s.q| < Cap(c) && s' == s.(pc := s'.pc) && s'.pc.Keys == s.pc.Keys
    requires forall tid :: tid in s.pc && s.pc[tid] != Asleep ==> s'.pc[tid] == s.pc[tid]
    ensures SubsSleep(c, s')
  {
    forall tid ensures tid in s'.pc <==> tid in s.pc { assert tid in s'.pc <==> tid in s'.pc.Keys; }
  }

  lemma ClosingRoused(c: Settings, s: State, s': State)
    requires Closing(c, s) && !s.closed && s' == s.(pc := s'.pc) && s'.pc.Keys == s.pc.Keys
    requires forall tid :: tid in s.pc && s.pc[tid] != Asleep ==> s'.pc[tid] == s.pc[tid]
    requires forall tid :: tid in s.pc && s.pc[tid] == Asleep ==> s'.pc[tid] in {Asleep, Woken}
    ensures Closing(c, s')
  {
    forall tid ensures tid in s'.pc <==> tid in s.pc { assert tid in s'.pc <==> tid in s'.pc.Keys; }
  }

  /** Thread `tid`, awake before and after, moves to `p`. */
  lemma MoveSleep(c: Settings, s: State, s': State, tid: Tid, p: Pc)
    requires Typed(c, s) && SleepInv(c, s) && tid in s.pc && s'.pc == s.pc[tid := p]
    requires s'.q == s.q && s'.closed == s.closed && s'.stopped == s.stopped && s'.returned == s.returned
    requires s'.fired == s.fired && (forall x :: x in s.timers && Sub(x) != tid ==> x in s'.timers)
    requires s.pc[tid] != Asleep && p != Asleep && (s.pc[tid] == Done ==> tid.Sub?)
    requires tid.Wk? ==> p != Woken && (NoneAsleep(s) || s.pc[tid] != Woken)
    requires tid.Wk? && Exiting(p) ==> s.closed && s.q == []
    requires tid.Sweeper? && p == Done ==> s.stopped
    ensures SleepInv(c, s')
  {
    hide Closing, Typed, WorkersSleep, SubsSleep;
    MoveClosing(c, s, s', tid, p);
    MoveWorkers(s, s', tid, p);
    MoveSubs(c, s, s', tid, p);
  }

  lemma MoveSubs(c: Settings, s: State, s': State, tid: Tid, p: Pc)
    requires SubsSleep(c, s) && tid in s.pc && s'.pc == s.pc[tid := p] && p != Asleep
    requires s'.q == s.q && s'.closed == s.closed && s'.fired == s.fired
    requires forall x :: x in s.timers && Sub(x) != tid ==> x in s'.timers
    ensures SubsSleep(c, s')
  {}

  lemma MoveWorkers(s: State, s': State, tid: Tid, p: Pc)
    requires WorkersSleep(s) && s'.q == s.q
    requires tid in s.pc && s'.pc == s.pc[tid := p] && s.pc[tid] != Asleep && p != Asleep
    requires tid.Wk? ==> p != Woken && (NoneAsleep(s) || s.pc[tid] != Woken)
    ensures WorkersSleep(s')
  {
    MoveCounts(s, s', tid, p);
    hide WorkersAt;
  }

  lemma MoveCounts(s: State, s': State, tid: Tid, p: Pc)
    requires tid in s.pc && s'.pc == s.pc[tid := p] && s.pc[tid] != Asleep && p != Asleep
    requires tid.Wk? ==> p != Woken && (NoneAsleep(s) || s.pc[tid] != Woken)
    ensures WorkersAt(s', Asleep) == WorkersAt(s, Asleep)
    ensures if NoneAsleep(s) then WorkersAt(s, Asleep) == {} else WorkersAt(s', Woken) == WorkersAt(s, Woken)
  {}

  lemma MoveClosing(c: Settings, s: State, s': State, tid: Tid, p: Pc)
    requires Typed(c, s) && Closing(c, s) && tid in s.pc && s'.pc == s.pc[tid := p]
    requires s'.q == s.q && s'.closed == s.closed && s'.stopped == s.stopped && s'.returned == s.returned
    requires s.pc[tid] != Asleep && p != Asleep && (s.pc[tid] == Done ==> tid.Sub?)
    requires tid.Wk? && Exiting(p) ==> s.closed && s.q == []
    requires tid.Sweeper? && p == Done ==> s.stopped
    ensures Closing(c, s')
  {
    if s.returned { assert AllGone(c, s); }
  }

  lemma StopSleep(c: Settings, s: State, t: Task, stopWins: bool)
    requires SleepInv(c, s) && Sub(t) in s.pc && s.pc[Sub(t)] != Asleep
    ensures SleepInv(c, StopTimer(s, t, stopWins))
  {
    var s' := StopTimer(s, t, stopWins);
    assert WorkersAt(s', Asleep) == WorkersAt(s, Asleep);
    assert WorkersAt(s', Woken) == WorkersAt(s, Woken);
  }

  lemma SameSleep(c: Settings, s: State, s': State)
    requires SleepInv(c, s) && s'.pc == s.pc && s'.q == s.q && s'.closed == s.closed
    requires s'.stopped == s.stopped && s'.returned == s.returned
    requires s'.fired == s.fired && s'.timers == s.timers
    ensures SleepInv(c, s')
  {
    assert forall p :: WorkersAt(s', p) == WorkersAt(s, p);
  }

  lemma SubDozes(c: Settings, s: State, t: Task)
    requires Typed(c, s) && SleepInv(c, s) && Sub(t) in s.pc && s.pc[Sub(t)] in {Loop, Woken}
    requires |s.q| >= Cap(c) && !s.closed && t in s.timers && t !in s.fired
    ensures SleepInv(c, Shift(s, Sub(t), Asleep))
  {
    var s' := Shift(s, Sub(t), Asleep);
    assert WorkersAt(s', Asleep) == WorkersAt(s, Asleep);
    assert WorkersAt(s', Woken) == WorkersAt(s, Woken);
  }

  lemma WorkerDozes(c: Settings, s: State, w: nat)
    requires Typed(c, s) && SleepInv(c, s) && Wk(w) in s.pc && AtPop(s.pc[Wk(w)])
    requires s.q == [] && !s.closed
    ensures SleepInv(c, Shift(s, Wk(w), Asleep))
  {}

  lemma GatheredSleep(c: Settings, s: State, tid: Tid, a: After)
    requires Typed(c, s) && SleepInv(c, s) && tid in s.pc && Fits(tid, a)
    requires s.pc[tid] != Asleep && s.pc[tid] != Done
    requires NoneAsleep(s) || (Dead(c, s.q, s.now) == [] && !tid.Wk?)
    requires a == ToExit ==> s.closed && Live(c, s.q, s.now) == []
    ensures SleepInv(c, Gathered(c, s, tid, a))
  {
    hide SleepInv, Typed, Live, Dead, Closing;
    LiveSleep(c, s);
    var s' := Gathered(c, s, tid, a);
    MoveSleep(c, s.(q := s'.q), s', tid, s'.pc[tid]);
  }

  /** The queue loses its expired tasks while nobody sleeps, or has none. */
  lemma LiveSleep(c: Settings, s: State)
    requires Typed(c, s) && SleepInv(c, s) && (NoneAsleep(s) || Dead(c, s.q, s.now) == [])
    ensures var s1 := s.(q := Live(c, s.q, s.now)); Typed(c, s1) && SleepInv(c, s1)
  {
    hide SleepInv, WfPc;
    Partition(c, s.q, s.now);
    var s1 := s.(q := Live(c, s.q, s.now));
    if Dead(c, s.q, s.now) == [] { NoDeadIsLive(c, s.q, s.now); assert s1 == s; } else { ShrinkSleep(c, s, s1); }
  }

  /** With everyone awake the queue may shrink freely. */
  lemma ShrinkSleep(c: Settings, s: State, s': State)
    requires SleepInv(c, s) && NoneAsleep(s) && s' == s.(q := s'.q) && |s'.q| <= |s.q|
    ensures SleepInv(c, s')
  {
    assert WorkersAt(s', Asleep) == {};
  }

  lemma PopHeadSleep(c: Settings, s: State, w: nat)
    requires Typed(c, s) && SleepInv(c, s) && NoneAsleep(s) && s.q != [] && Wk(w) in s.pc
    requires s.pc[Wk(w)] == Pop || (s.pc[Wk(w)].Reply? && s.pc[Wk(w)].after == ToPop)
    ensures SleepInv(c, PopHead(s, w))
  {
    var s' := PopHead(s, w);
    var s1 := s.(q := s'.q);
    ShrinkSleep(c, s, s1);
    MoveSleep(c, s1, s', Wk(w), s'.pc[Wk(w)]);
  }

  lemma EnqueuedSleep(c: Settings, s: State, t: Task)
    requires Typed(c, s) && SleepInv(c, s) && Sub(t) in s.pc && s.pc[Sub(t)] != Asleep
    requires |s.q| < Cap(c) && !s.closed
    requires WorkersAt(s, Asleep) != {} ==> |s.q| < |WorkersAt(s, Woken)|
    ensures SleepInv(c, Enqueued(s, t))
  {
    var s' := Enqueued(s, t);
    assert WorkersAt(s', Asleep) == WorkersAt(s, Asleep);
    assert WorkersAt(s', Woken) == WorkersAt(s, Woken);
  }

  lemma AcceptSleep(c: Settings, s: State, t: Task, who: Tid)
    requires Typed(c, s) && SleepInv(c, s) && SignalFits(s, who)
    requires Sub(t) in s.pc && s.pc[Sub(t)] in {Enter, Loop, Woken} && |s.q| < Cap(c) && !s.closed
    ensures SleepInv(c, Enqueued(Rouse(s, One, who), t))
  {
    SignalSleep(c, s, who);
    RousePcs(s, One, who);
    RestTyped(c, s, Rouse(s, One, who));
    EnqueuedSleep(c, Rouse(s, One, who), t);
  }

  lemma GatherSleep(c: Settings, s: State, wake: Wake, who: Tid, tid: Tid, a: After)
    requires Typed(c, s) && SleepInv(c, s) && tid in s.pc && Fits(tid, a)
    requires s.pc[tid] != Asleep && s.pc[tid] != Done
    requires wake == All || (wake == Nobody && Dead(c, s.q, s.now) == [] && (NoneAsleep(s) || !tid.Wk?))
    requires a == ToExit ==> s.closed && Live(c, s.q, s.now) == []
    ensures SleepInv(c, Gathered(c, Rouse(s, wake, who), tid, a))
  {
    hide SleepInv;
    var s1 := Rouse(s, wake, who);
    if wake == All { RouseAllSleep(c, s, who); }
    RousePcs(s, wake, who);
    RestTyped(c, s, s1);
    GatheredSleep(c, s1, tid, a);
  }

  lemma PopSleep(c: Settings, s: State, w: nat)
    requires OwnInv(c, s) && SleepInv(c, s) && Enabled(c, s, TryPop(w))
    ensures SleepInv(c, DoPop(c, s, w))
  {
    var wake := PopWake(c, s.q, s.now);
    assert s.closed ==> NoneAsleep(s);
    hide SleepInv, Rouse, Typed, BookOf;
    match PopVerdict(c, s.q, s.closed, s.now) {
      case Got(_) => GotSleep(c, s, w);
      case Exit => GatherSleep(c, s, wake, Sweeper, Wk(w), ToExit);
      case Again => GatherSleep(c, s, wake, Sweeper, Wk(w), ToPop);
      case Sleep =>
        NoDeadIsLive(c, s.q, s.now);
        WorkerDozes(c, s, w);
    }
  }

  lemma GotSleep(c: Settings, s: State, w: nat)
    requires OwnInv(c, s) && SleepInv(c, s) && Enabled(c, s, TryPop(w)) && Live(c, s.q, s.now) != []
    ensures SleepInv(c, PopHead(Gathered(c, Rouse(s, All, Sweeper), Wk(w), ToPop), w))
  {
    hide SleepInv, Rouse, Typed, BookOf;
    var s2 := Gathered(c, Rouse(s, All, Sweeper), Wk(w), ToPop);
    GatherSleep(c, s, All, Sweeper, Wk(w), ToPop);
    GatherOwn(c, s, All, Sweeper, Wk(w), ToPop);
    AwakeAfter(c, s, Sweeper, Wk(w), ToPop);
    RousePcs(s, All, Sweeper);
    hide Live, Dead;
    assert Typed(c, s2) && s2.q != [] && s2.pc[Wk(w)] == Replying(Dead(c, s.q, s.now), ToPop);
    hide OwnInv, Gathered;
    PopHeadSleep(c, s2, w);
  }

  lemma AwakeAfter(c: Settings, s: State, who: Tid, tid: Tid, a: After)
    ensures NoneAsleep(Gathered(c, Rouse(s, All, who), tid, a))
  {}

  /** A submitter leaves the wait loop, refused or accepted. */
  lemma LeaveSleep(c: Settings, s: State, t: Task, stopWins: bool, who: Tid)
    requires Typed(c, s) && SleepInv(c, s) && Enabled(c, s, Recheck(t, stopWins, who))
    ensures SleepInv(c, Shift(StopTimer(s, t, stopWins), Sub(t), Answer(Deadline, 0)))
    ensures |s.q| < Cap(c) && !s.closed ==> SleepInv(c, Enqueued(Rouse(StopTimer(s, t, stopWins), One, who), t))
  {
    var s1 := StopTimer(s, t, stopWins);
    assert s1 == s.(timers := s1.timers);
    assert Typed(c, s1);
    hide SleepInv, Typed;
    StopSleep(c, s, t, stopWins);
    hide StopTimer;
    SubSleep(c, s1, t, Shift(s1, Sub(t), Answer(Deadline, 0)), Answer(Deadline, 0));
    if |s.q| < Cap(c) && !s.closed { AcceptSleep(c, s1, t, who); }
  }

  lemma RecheckSleep(c: Settings, s: State, t: Task, stopWins: bool, who: Tid)
    requires Typed(c, s) && SleepInv(c, s) && Timing(c, s) && Enabled(c, s, Recheck(t, stopWins, who))
    ensures SleepInv(c, DoRecheck(c, s, t, stopWins, who))
  {
    assert t !in s.fired ==> t in s.timers;
    hide SleepInv, Timing, Typed;
    match LoopVerdict(c, s.q, s.closed, t in s.fired, s.now) {
      case TakeDead =>
        GatherSleep(c, s, All, who, Sub(t), ToLoop);
        hide Gathered, Rouse;
      case Doze => SubDozes(c, s, t);
      case Leave(_) =>
        LeaveSleep(c, s, t, stopWins, who);
        hide Enqueued, Rouse, StopTimer, Shift;
    }
  }

  lemma EnterSleep(c: Settings, s: State, t: Task, who: Tid)
    requires Typed(c, s) && SleepInv(c, s) && Enabled(c, s, TryEnter(t, who))
    ensures SleepInv(c, DoEnter(c, s, t, who))
  {
    hide SleepInv;
    var s' := DoEnter(c, s, t, who);
    if EnterVerdict(c, s.q, s.closed) == Accepted { AcceptSleep(c, s, t, who); }
    else { MoveSleep(c, s, s', Sub(t), s'.pc[Sub(t)]); }
  }

  lemma ReplySleep(c: Settings, s: State, tid: Tid)
    requires Typed(c, s) && SleepInv(c, s) && Enabled(c, s, ReplyOne(tid))
    ensures SleepInv(c, DoReplyOne(s, tid))
  {
    var s' := DoReplyOne(s, tid);
    assert WfPc(tid, s.pc[tid]);
    assert tid.Wk? && Exiting(s'.pc[tid]) ==> Exiting(s.pc[tid]);
    hide SleepInv;
    MoveSleep(c, s, s', tid, s'.pc[tid]);
  }

  lemma SubSleep(c: Settings, s: State, t: Task, s': State, p: Pc)
    requires Typed(c, s) && SleepInv(c, s) && Sub(t) in s.pc && s.pc[Sub(t)] != Asleep && p != Asleep
    requires s'.pc == s.pc[Sub(t) := p] && s'.q == s.q && s'.closed == s.closed
    requires s'.stopped == s.stopped && s'.returned == s.returned && s'.fired == s.fired
    requires forall x :: x in s.timers ==> x in s'.timers
    ensures SleepInv(c, s')
  {
    hide SleepInv;
    MoveSleep(c, s, s', Sub(t), p);
  }

  lemma SubmitSleep(c: Settings, s: State, t: Task)
    requires Typed(c, s) && SleepInv(c, s) && Enabled(c, s, Submit(t))
    ensures SleepInv(c, Do(c, s, Submit(t)))
  {
    var s' := Do(c, s, Submit(t));
    assert WorkersAt(s', Asleep) == WorkersAt(s, Asleep);
    assert WorkersAt(s', Woken) == WorkersAt(s, Woken);
  }

  lemma FireSleep(c: Settings, s: State, t: Task)
    requires SleepInv(c, s) && Enabled(c, s, FireTimer(t))
    ensures SleepInv(c, Do(c, s, FireTimer(t)))
  {
    RouseAllSleep(c, s, Sweeper);
    var r := Rouse(s, All, Sweeper);
    var s' := Do(c, s, FireTimer(t));
    assert s'.pc == r.pc;
    assert WorkersAt(s', Asleep) == {};
  }

  lemma CloseSleep(c: Settings, s: State, step: Step)
    requires Typed(c, s) && SleepInv(c, s) && Enabled(c, s, step)
    requires step.CloseStop? || step.CloseLock? || step.CloseReturn?
    ensures SleepInv(c, Do(c, s, step))
  {
    var s' := Do(c, s, step);
    if step.CloseLock? {
      RouseAllSleep(c, s, Sweeper);
      assert s'.pc == Rouse(s, All, Sweeper).pc;
      assert WorkersAt(s', Asleep) == {};
    } else {
      assert WorkersAt(s', Asleep) == WorkersAt(s, Asleep);
      assert WorkersAt(s', Woken) == WorkersAt(s, Woken);
    }
  }

  lemma CheckSleep(c: Settings, s: State, t: Task, drift: nat)
    requires Typed(c, s) && SleepInv(c, s) && Enabled(c, s, Check(t, drift))
    ensures SleepInv(c, DoCheck(c, s, t, drift))
  {
    hide SleepInv, Typed, LeftAt;
    var s' := DoCheck(c, s, t, drift);
    if Expired(c, t, s.now) {
      assert s' == s.(now := s'.now, pc := s.pc[Sub(t) := Answer(Deadline, LeftAt(c, t, s.now + drift))]);
    } else {
      assert s' == s.(pc := s.pc[Sub(t) := Collect]);
    }
    hide DoCheck;
    SubSleep(c, s, t, s', s'.pc[Sub(t)]);
  }

  lemma ArmSleep(c: Settings, s: State, t: Task)
    requires Typed(c, s) && SleepInv(c, s) && Enabled(c, s, ArmTimer(t))
    ensures SleepInv(c, DoArm(c, s, t))
  {
    hide SleepInv, Typed, LeftAt;
    var s' := DoArm(c, s, t);
    if LeftAt(c, t, s.now) < c.minBudget {
      assert s' == s.(pc := s.pc[Sub(t) := Answer(Deadline, LeftAt(c, t, s.now))]);
    } else {
      assert s' == s.(timers := s'.timers, pc := s.pc[Sub(t) := Loop]) && forall x :: x in s.timers ==> x in s'.timers;
    }
    hide DoArm;
    SubSleep(c, s, t, s', s'.pc[Sub(t)]);
  }

  /** The steps that only move one thread on. */
  lemma SimpleSleep(c: Settings, s: State, step: Step)
    requires Typed(c, s) && SleepInv(c, s) && Enabled(c, s, step)
    requires step.Refuse? || step.RunTask? || step.SweeperExit?
    ensures SleepInv(c, Do(c, s, step))
  {
    hide SleepInv, Typed;
    match step {
      case Refuse(t) => SubSleep(c, s, t, Do(c, s, step), Done);
      case RunTask(w) => MoveSleep(c, s, Do(c, s, step), Wk(w), Pop);
      case SweeperExit => MoveSleep(c, s, Do(c, s, step), Sweeper, Done);
    }
  }

  lemma GatherStepSleep(c: Settings, s: State, tid: Tid)
    requires Typed(c, s) && SleepInv(c, s) && Enabled(c, s, Gather(tid))
    ensures SleepInv(c, DoGather(c, s, tid))
  {
    hide SleepInv, Typed, Gathered, Rouse;
    var wake := if Dead(c, s.q, s.now) != [] then All else Nobody;
    GatherSleep(c, s, wake, tid, tid, if tid.Sweeper? then ToIdle else ToEnter);
  }

  lemma StepSleep(c: Settings, s: State, step: Step)
    requires OwnInv(c, s) && Timing(c, s) && SleepInv(c, s) && Enabled(c, s, step)
    ensures SleepInv(c, Do(c, s, step))
  {
    assert Typed(c, s);
    hide OwnInv, Typed, SleepInv, Timing, DoReplyOne, DoEnter, DoRecheck, DoPop, DoCheck, DoArm, DoRun, DoGather;
    hide Called, Shift, Rouse;
    match step {
      case Gather(tid) => GatherStepSleep(c, s, tid);
      case Check(t, drift) => CheckSleep(c, s, t, drift);
      case ArmTimer(t) => ArmSleep(c, s, t);
      case ReplyOne(tid) => ReplySleep(c, s, tid);
      case TryEnter(t, who) => EnterSleep(c, s, t, who);
      case Recheck(t, stopWins, who) => RecheckSleep(c, s, t, stopWins, who);
      case TryPop(w) => PopSleep(c, s, w);
      case Refuse(_) => SimpleSleep(c, s, step);
      case RunTask(_) => SimpleSleep(c, s, step);
      case SweeperExit => SimpleSleep(c, s, step);
      case _ => OtherSleep(c, s, step);
    }
  }

  /** The steps of the environment and of Close. */
  lemma OtherSleep(c: Settings, s: State, step: Step)
    requires Typed(c, s) && Timing(c, s) && SleepInv(c, s) && Enabled(c, s, step)
    requires step.Tick? || step.Submit? || step.FireTimer? || step.CloseStop? || step.CloseLock? || step.CloseReturn?
    ensures SleepInv(c, Do(c, s, step))
  {
    hide Typed, SleepInv, Timing, Rouse;
    match step {
      case Tick(_) => SameSleep(c, s, Do(c, s, step));
      case Submit(t) => SubmitSleep(c, s, t);
      case FireTimer(t) => FireSleep(c, s, t);
      case CloseStop => CloseSleep(c, s, step);
      case CloseLock => CloseSleep(c, s, step);
      case CloseReturn => CloseSleep(c, s, step);
    }
  }

  lemma InitSleep(c: Settings, now: int)
    ensures SleepInv(c, Init(c, now)) && Timing(c, Init(c, now))
  {}
}
