/** Closing the pool drains it: the queue can only shrink, every thread comes to its end, and
    when the threads are gone every accepted task has been dealt with. */
module PoolDrain {
  import opened Seqs
  import opened Books
  import opened PoolQueue
  import opened PoolMachine
  import opened PoolOwnership
  import opened PoolFrames
  import opened PoolSleep
  import opened PoolLedger
  import opened PoolTheorems

  // ---- what is left when Close returns ----

  lemma GoneQueueIsEmpty(c: Settings, s: State)
    requires Typed(c, s) && SleepInv(c, s) && c.workers != {} && AllGone(c, s)
    ensures s.q == []
  {
    var w :| w in c.workers;
    assert Wk(w) in s.pc && Exiting(s.pc[Wk(w)]);
  }

  /** Workers and sweeper that are gone hold nothing. */
  lemma GoneHandsAreEmpty(c: Settings, s: State)
    requires Typed(c, s) && AllGone(c, s)
    ensures forall tid :: tid in Hands(s.pc) && !tid.Sub? ==> Hands(s.pc)[tid] == []
  {
    hide WfPc;
  }

  lemma GoneHeldBySubmit(c: Settings, s: State, t: Task)
    requires OwnInv(c, s) && s.q == [] && AllGone(c, s) && t in s.loc
    ensures s.loc[t] == Finished || (s.loc[t].Held? && s.loc[t].holder.Sub?)
  {
    assert Justified(BookOf(s), t) by { hide Own; }
    GoneHandsAreEmpty(c, s);
    hide Balanced, Own, Typed;
  }

  /** Once Close has returned, the workers and the sweeper are gone, the queue is empty, and
      every task is answered or in the hands of a Submit call that is still in progress. */
  lemma CloseDrains(c: Settings, start: int, run: seq<Step>, t: Task)
    requires Legal(c, start, run) && c.workers != {} && At(c, start, run).returned
    requires Sub(t) in At(c, start, run).pc
    ensures var s := At(c, start, run);
      && s.closed && AllGone(c, s) && s.q == []
      && (Here(s, t, Finished) || exists x :: Here(s, t, Held(Sub(x))) && s.pc[Sub(x)] != Done)
  {
    Reached(c, start, run);
    var s := At(c, start, run);
    GoneQueueIsEmpty(c, s);
    GoneHeldBySubmit(c, s, t);
    hide Timing, SleepInv, Ledger, Honest;
    HereIsLoc(c, s, t, s.loc[t]);
    if s.loc[t].Held? {
      var x := s.loc[t].holder.task;
      assert Here(s, t, Held(Sub(x)));
    }
  }

  /** After `closed` is set no step lets the queue grow. */
  lemma ClosedNeverGrows(c: Settings, s: State, step: Step)
    requires s.closed && Enabled(c, s, step)
    ensures IsSubseq(Do(c, s, step).q, s.q) && Do(c, s, step).closed
  {
    SubseqRefl(s.q);
    Partition(c, s.q, s.now);
    hide IsSubseq, DoPop, Live, Dead;
    match step {
      case TryPop(w) => PopShrinks(c, s, w);
      case Gather(tid) => RousePcs(s, All, tid);
      case _ => OthersKeepQueue(c, s, step);
    }
  }

  lemma OthersKeepQueue(c: Settings, s: State, step: Step)
    requires s.closed && Enabled(c, s, step) && !step.TryPop? && !step.Gather?
    ensures Do(c, s, step).q == s.q && Do(c, s, step).closed
  {
    match step {
      case TryEnter(t, who) => assert Do(c, s, step) == Shift(s, Sub(t), Answer(Deadline, 0));
      case Recheck(t, stopWins, who) => ClosedRecheck(c, s, t, stopWins, who);
      case _ =>
        if Calls(step) { CallsKeep(c, s, step); }
        if Moves(step) { MovesKeep(c, s, step); }
        if Flags(step) { FlagsKeep(c, s, step); }
        hide Do, Enabled;
    }
  }

  /** In a closed pool a blocked submitter leaves refused. */
  lemma ClosedRecheck(c: Settings, s: State, t: Task, stopWins: bool, who: Tid)
    requires s.closed && Enabled(c, s, Recheck(t, stopWins, who))
    ensures var s' := DoRecheck(c, s, t, stopWins, who);
      && s' == s.(pc := s.pc[Sub(t) := Answer(Deadline, 0)], timers := s'.timers)
      && |s'.timers| <= |s.timers|
  {
    assert DoRecheck(c, s, t, stopWins, who) == Shift(StopTimer(s, t, stopWins), Sub(t), Answer(Deadline, 0));
    hide DoRecheck;
    if t in s.timers { assert s.timers.Keys - {t} == (s.timers - {t}).Keys; }
  }

  lemma PopShrinks(c: Settings, s: State, w: nat)
    requires Enabled(c, s, TryPop(w))
    ensures IsSubseq(DoPop(c, s, w).q, s.q) && DoPop(c, s, w).closed == s.closed
  {
    var live := Live(c, s.q, s.now);
    Partition(c, s.q, s.now);
    SubseqRefl(s.q);
    RousePcs(s, PopWake(c, s.q, s.now), Sweeper);
    hide Rouse, IsSubseq, Live, Dead;
    if live != [] {
      TailSubseq(live);
      SubseqTrans(live[1..], live, s.q);
    }
  }

  lemma {:induction false} TailSubseq<T(!new)>(s: seq<T>)
    requires s != []
    ensures IsSubseq(s[1..], s)
    decreases |s|
  {
    if |s| == 1 {
      SubseqEmpty(s);
    } else {
      var i := s[..|s| - 1];
      TailSubseq(i);
      SubseqSnoc(i[1..], i, s[|s| - 1]);
      assert s == i + [s[|s| - 1]] && s[1..] == i[1..] + [s[|s| - 1]];
    }
  }

  // ---- every thread comes to its end ----

  /** An upper bound on the steps a thread still takes in a closed pool. */
  function Effort(p: Pc): nat {
    match p
    case Begin => 4
    case Collect => 3
    case Enter => 2
    case Arm => 4
    case Loop => 2
    case Pop => 2
    case Asleep => 0
    case Woken => 2
    case Answer(_, _) => 1
    case Hold(_) => 3
    case Idle => 1
    case Reply(b, ToEnter) => |b| + 2
    case Reply(b, ToLoop) => |b| + 2
    case Reply(b, ToPop) => |b| + 2
    case Reply(b, ToRun(_)) => |b| + 3
    case Reply(b, ToExit) => |b|
    case Reply(b, ToIdle) => |b| + 1
    case Done => 0
  }

  lemma ReplyingEffort(b: seq<Task>, a: After)
    ensures Effort(Replying(b, a)) == |b| + Effort(Resume(a))
  {}

  ghost function Sum(ks: set<Tid>, pc: map<Tid, Pc>): nat
    requires ks <= pc.Keys
  {
    if ks == {} then 0 else
      var k :| k in ks;
      Effort(pc[k]) + Sum(ks - {k}, pc)
  }

  lemma {:induction false} SumPick(ks: set<Tid>, pc: map<Tid, Pc>, k: Tid)
    requires ks <= pc.Keys && k in ks
    ensures Sum(ks, pc) == Effort(pc[k]) + Sum(ks - {k}, pc)
    decreases |ks|
  {
    var j :| j in ks && Sum(ks, pc) == Effort(pc[j]) + Sum(ks - {j}, pc);
    if j != k {
      SumPick(ks - {j}, pc, k);
      SumPick(ks - {k}, pc, j);
      assert ks - {j} - {k} == ks - {k} - {j};
    }
  }

  lemma {:induction false} SumFrame(ks: set<Tid>, pc: map<Tid, Pc>, pc': map<Tid, Pc>)
    requires ks <= pc.Keys && ks <= pc'.Keys && forall k :: k in ks ==> pc[k] == pc'[k]
    ensures Sum(ks, pc) == Sum(ks, pc')
    decreases |ks|
  {
    if ks != {} {
      var k :| k in ks;
      SumPick(ks, pc, k);
      SumPick(ks, pc', k);
      SumFrame(ks - {k}, pc, pc');
    }
  }

  /** The steps that a closed pool can still take, apart from idle ticks. */
  ghost function Rank(s: State): nat {
    2 * |s.q| + |s.timers| + Sum(s.pc.Keys, s.pc) + (if s.returned then 0 else 1)
  }

  lemma RankMove(s: State, s': State, tid: Tid, p: Pc)
    requires tid in s.pc && s'.pc == s.pc[tid := p] && s'.returned == s.returned
    ensures Rank(s') == Rank(s) - Effort(s.pc[tid]) + Effort(p) + 2 * |s'.q| - 2 * |s.q| + |s'.timers| - |s.timers|
  {
    assert s'.pc.Keys == s.pc.Keys;
    SumPick(s.pc.Keys, s.pc, tid);
    SumPick(s.pc.Keys, s'.pc, tid);
    SumFrame(s.pc.Keys - {tid}, s.pc, s'.pc);
  }

  /** Everything but the passing of time, new calls and a tick of the sweeper that finds nothing. */
  predicate Productive(c: Settings, s: State, step: Step) {
    match step
    case Tick(_) => false
    case Submit(_) => false
    case Gather(tid) => tid.Sub? || Dead(c, s.q, s.now) != []
    case _ => true
  }

  lemma RouseClosed(s: State, wake: Wake, who: Tid)
    requires NoneAsleep(s)
    ensures Rouse(s, wake, who) == s
  {
    RousePcs(s, wake, who);
    assert Rouse(s, wake, who).pc == s.pc;
  }

  lemma GatheredRank(c: Settings, s: State, tid: Tid, a: After)
    requires tid in s.pc
    ensures Rank(Gathered(c, s, tid, a)) == Rank(s) - Effort(s.pc[tid]) + Effort(Resume(a)) - |Dead(c, s.q, s.now)|
  {
    var s' := Gathered(c, s, tid, a);
    Partition(c, s.q, s.now);
    ReplyingEffort(Dead(c, s.q, s.now), a);
    RankMove(s, s', tid, s'.pc[tid]);
  }

  lemma PopRank(c: Settings, s: State, w: nat)
    requires s.closed && NoneAsleep(s) && Enabled(c, s, TryPop(w))
    ensures Rank(DoPop(c, s, w)) < Rank(s)
  {
    hide Rank;
    RouseClosed(s, PopWake(c, s.q, s.now), Sweeper);
    match PopVerdict(c, s.q, s.closed, s.now) {
      case Got(_) =>
        GatheredRank(c, s, Wk(w), ToPop);
        var s2 := Gathered(c, s, Wk(w), ToPop);
        var s' := PopHead(s2, w);
        RankMove(s2, s', Wk(w), s'.pc[Wk(w)]);
      case Exit => GatheredRank(c, s, Wk(w), ToExit);
    }
  }

  lemma RecheckRank(c: Settings, s: State, t: Task, stopWins: bool, who: Tid)
    requires s.closed && Enabled(c, s, Recheck(t, stopWins, who))
    ensures Rank(DoRecheck(c, s, t, stopWins, who)) < Rank(s)
  {
    ClosedRecheck(c, s, t, stopWins, who);
    hide Rank, DoRecheck;
    RankMove(s, DoRecheck(c, s, t, stopWins, who), Sub(t), Answer(Deadline, 0));
  }

  lemma ArmRank(c: Settings, s: State, t: Task)
    requires Enabled(c, s, ArmTimer(t))
    ensures Rank(DoArm(c, s, t)) < Rank(s)
  {
    var left := LeftAt(c, t, s.now);
    hide Rank, LeftAt;
    if left < c.minBudget {
      assert DoArm(c, s, t) == Shift(s, Sub(t), Answer(Deadline, left));
      hide DoArm;
      RankMove(s, Shift(s, Sub(t), Answer(Deadline, left)), Sub(t), Answer(Deadline, left));
    } else {
      assert DoArm(c, s, t) == Shift(s.(timers := s.timers[t := s.now + left]), Sub(t), Loop);
      hide DoArm;
      OneTimerMore(s.timers, t, s.now + left);
      RankMove(s, Shift(s.(timers := s.timers[t := s.now + left]), Sub(t), Loop), Sub(t), Loop);
    }
  }

  lemma OneTimerMore(timers: map<Task, int>, t: Task, at: int)
    ensures |timers[t := at]| <= |timers| + 1
  {
    assert timers[t := at].Keys == timers.Keys + {t};
    assert |timers[t := at].Keys| <= |timers.Keys| + 1;
  }

  lemma FireRank(c: Settings, s: State, t: Task)
    requires NoneAsleep(s) && Enabled(c, s, FireTimer(t))
    ensures Rank(Do(c, s, FireTimer(t))) < Rank(s)
  {
    var s1 := s.(timers := s.timers - {t}, fired := s.fired + {t});
    RouseClosed(s1, All, Sweeper);
    assert s1.timers.Keys == s.timers.Keys - {t};
    assert |s1.timers| == |s.timers| - 1;
  }

  lemma ReplyRank(c: Settings, s: State, tid: Tid)
    requires Enabled(c, s, ReplyOne(tid))
    ensures Rank(DoReplyOne(s, tid)) < Rank(s)
  {
    hide Rank;
    var s' := DoReplyOne(s, tid);
    var p := s.pc[tid];
    ReplyingEffort(p.batch[1..], p.after);
    RankMove(s, s', tid, s'.pc[tid]);
  }

  lemma SimpleRank(c: Settings, s: State, step: Step)
    requires s.closed && Enabled(c, s, step)
    requires step.Check? || step.TryEnter? || step.Refuse? || step.RunTask? || step.SweeperExit?
    ensures Rank(Do(c, s, step)) < Rank(s)
  {
    match step
    case Check(t, drift) => CheckRank(c, s, t, drift);
    case TryEnter(t, who) =>
      assert Do(c, s, step) == Shift(s, Sub(t), Answer(Deadline, 0));
      hide Do, Rank;
      RankMove(s, Shift(s, Sub(t), Answer(Deadline, 0)), Sub(t), Answer(Deadline, 0));
    case Refuse(t) => RefuseRank(c, s, t);
    case RunTask(w) => RunRank(c, s, w);
    case SweeperExit =>
      hide Rank;
      RankMove(s, Shift(s, Sweeper, Done), Sweeper, Done);
  }

  lemma CheckRank(c: Settings, s: State, t: Task, drift: nat)
    requires Enabled(c, s, Check(t, drift))
    ensures Rank(DoCheck(c, s, t, drift)) < Rank(s)
  {
    hide Rank, LeftAt;
    var s' := DoCheck(c, s, t, drift);
    if Expired(c, t, s.now) {
      assert s' == Shift(s.(now := s'.now), Sub(t), Answer(Deadline, LeftAt(c, t, s.now + drift)));
    } else {
      assert s' == Shift(s, Sub(t), Collect);
    }
    hide DoCheck;
    RankMove(s, s', Sub(t), s'.pc[Sub(t)]);
  }

  lemma RefuseRank(c: Settings, s: State, t: Task)
    requires Enabled(c, s, Refuse(t))
    ensures Rank(Do(c, s, Refuse(t))) < Rank(s)
  {
    hide Rank;
    RankMove(s, Do(c, s, Refuse(t)), Sub(t), Done);
  }

  lemma RunRank(c: Settings, s: State, w: nat)
    requires Enabled(c, s, RunTask(w))
    ensures Rank(DoRun(c, s, w)) < Rank(s)
  {
    hide Rank, LeftAt;
    RankMove(s, DoRun(c, s, w), Wk(w), Pop);
  }

  lemma GatherRank(c: Settings, s: State, tid: Tid)
    requires NoneAsleep(s) && Enabled(c, s, Gather(tid))
    ensures var s' := DoGather(c, s, tid);
      Rank(s') <= Rank(s) && (tid.Sub? || Dead(c, s.q, s.now) != [] ==> Rank(s') < Rank(s))
  {
    hide Rank, Rouse, Gathered;
    RouseClosed(s, if Dead(c, s.q, s.now) != [] then All else Nobody, tid);
    GatheredRank(c, s, tid, if tid.Sweeper? then ToIdle else ToEnter);
  }

  /** In a closed pool every productive step uses up some of the rank, and no other step of the
      pool itself adds to it. */
  lemma RankFalls(c: Settings, s: State, step: Step)
    requires SleepInv(c, s) && s.closed && Enabled(c, s, step) && !step.Submit?
    ensures Productive(c, s, step) ==> Rank(Do(c, s, step)) < Rank(s)
    ensures Rank(Do(c, s, step)) <= Rank(s)
  {
    assert NoneAsleep(s);
    hide Rank, SleepInv, DoReplyOne, DoEnter, DoRecheck, DoPop, DoCheck, DoArm, DoRun, DoGather, Called, Shift, Rouse;
    match step {
      case Gather(tid) => GatherRank(c, s, tid);
      case ReplyOne(tid) => ReplyRank(c, s, tid);
      case ArmTimer(t) => ArmRank(c, s, t);
      case FireTimer(t) => FireRank(c, s, t);
      case Recheck(t, stopWins, who) => RecheckRank(c, s, t, stopWins, who);
      case TryPop(w) => PopRank(c, s, w);
      case Tick(_) => StillRank(c, s, step);
      case CloseReturn => StillRank(c, s, step);
      case _ => SimpleRank(c, s, step);
    }
  }

  lemma StillRank(c: Settings, s: State, step: Step)
    requires Enabled(c, s, step) && (step.Tick? || step.CloseReturn?)
    ensures Rank(Do(c, s, step)) <= Rank(s) && (step.CloseReturn? ==> Rank(Do(c, s, step)) < Rank(s))
  {}

  /** The steps can be taken one after the other from `s`. */
  predicate LegalFrom(c: Settings, s: State, steps: seq<Step>)
    decreases |steps|
  {
    |steps| == 0 || (Enabled(c, s, steps[0]) && LegalFrom(c, Do(c, s, steps[0]), steps[1..]))
  }

  function ProductiveSteps(c: Settings, s: State, steps: seq<Step>): nat
    requires LegalFrom(c, s, steps)
    decreases |steps|
  {
    if |steps| == 0 then 0
    else (if Productive(c, s, steps[0]) then 1 else 0) + ProductiveSteps(c, Do(c, s, steps[0]), steps[1..])
  }

  lemma {:induction false} ProductiveBound(c: Settings, s: State, steps: seq<Step>)
    requires Inv(c, s) && s.closed && LegalFrom(c, s, steps)
    requires forall i :: 0 <= i < |steps| ==> !steps[i].Submit?
    ensures ProductiveSteps(c, s, steps) <= Rank(s)
    decreases |steps|
  {
    hide Rank, OwnInv, Timing, SleepInv, Ledger, Honest;
    if |steps| > 0 {
      StepInv(c, s, steps[0]);
      RankFalls(c, s, steps[0]);
      ClosedNeverGrows(c, s, steps[0]);
      ProductiveBound(c, Do(c, s, steps[0]), steps[1..]);
    }
  }

  /** The pool is closed for good: no thread is left and nothing is unanswered. */
  ghost predicate Drained(s: State) {
    && s.returned && s.q == []
    && (forall tid :: tid in s.pc ==> s.pc[tid] == Done)
    && (forall t :: Sub(t) in s.pc ==> Here(s, t, Finished))
  }

  /** A thread of a closed pool that is not at its end can move. */
  lemma Next(c: Settings, s: State, tid: Tid) returns (step: Step)
    requires Typed(c, s) && s.closed && s.stopped && NoneAsleep(s) && tid in s.pc && s.pc[tid] != Done
    ensures Enabled(c, s, step) && Productive(c, s, step)
  {
    assert WfPc(tid, s.pc[tid]);
    match s.pc[tid] {
      case Begin => step := Check(tid.task, 0);
      case Collect => step := Gather(tid);
      case Enter => step := TryEnter(tid.task, tid);
      case Arm => step := ArmTimer(tid.task);
      case Loop => step := Recheck(tid.task, true, tid);
      case Woken => step := if tid.Sub? then Recheck(tid.task, true, tid) else TryPop(tid.w);
      case Pop => step := TryPop(tid.w);
      case Hold(_) => step := RunTask(tid.w);
      case Answer(_, _) => step := Refuse(tid.task);
      case Idle => step := SweeperExit;
      case Reply(_, _) => step := ReplyOne(tid);
    }
  }

  lemma CanReturn(c: Settings, s: State)
    requires Typed(c, s) && AllGone(c, s) && s.closed && s.stopped
    ensures s.returned || (Enabled(c, s, CloseReturn) && Productive(c, s, CloseReturn))
  {}

  lemma StuckIsDrained(c: Settings, s: State)
    requires Inv(c, s) && s.closed && c.workers != {}
    requires forall step :: Enabled(c, s, step) ==> !Productive(c, s, step)
    ensures Drained(s)
  {
    assert Typed(c, s);
    forall tid | tid in s.pc ensures s.pc[tid] == Done {
      if s.pc[tid] != Done { var step := Next(c, s, tid); }
    }
    assert AllGone(c, s);
    CanReturn(c, s);
    QuietQueueIsEmpty(c, s);
    AllFinished(c, s);
  }

  /** The state after taking the steps. */
  function After(c: Settings, s: State, steps: seq<Step>): State
    requires LegalFrom(c, s, steps)
    decreases |steps|
  {
    if |steps| == 0 then s else After(c, Do(c, s, steps[0]), steps[1..])
  }

  lemma {:induction false} AfterKeeps(c: Settings, s: State, steps: seq<Step>)
    requires Inv(c, s) && s.closed && LegalFrom(c, s, steps)
    ensures Inv(c, After(c, s, steps)) && After(c, s, steps).closed
    decreases |steps|
  {
    hide Inv;
    if |steps| > 0 {
      StepInv(c, s, steps[0]);
      ClosedNeverGrows(c, s, steps[0]);
      AfterKeeps(c, Do(c, s, steps[0]), steps[1..]);
    }
  }

  /** From any state of any run in which the pool is closed, and without new calls, the pool
      takes at most Rank productive steps; and wherever it comes to that none is possible any
      more, Close has returned, every thread has ended and every submitted task is answered. */
  lemma CloseTerminates(c: Settings, start: int, run: seq<Step>, steps: seq<Step>)
    requires Legal(c, start, run) && c.workers != {} && At(c, start, run).closed
    requires LegalFrom(c, At(c, start, run), steps)
    requires forall i :: 0 <= i < |steps| ==> !steps[i].Submit?
    ensures ProductiveSteps(c, At(c, start, run), steps) <= Rank(At(c, start, run))
    ensures var end := After(c, At(c, start, run), steps);
      (forall step :: Enabled(c, end, step) ==> !Productive(c, end, step)) ==> Drained(end)
  {
    hide Rank, Inv, Drained;
    Reached(c, start, run);
    var s := At(c, start, run);
    ProductiveBound(c, s, steps);
    AfterKeeps(c, s, steps);
    var end := After(c, s, steps);
    if forall step :: Enabled(c, end, step) ==> !Productive(c, end, step) { StuckIsDrained(c, end); }
  }
}
