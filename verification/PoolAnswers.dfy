/** When the answers of a run were given, and what the pool was like then. */
module PoolAnswers {
  import opened PoolQueue
  import opened PoolMachine
  import opened PoolOwnership
  import opened PoolFrames
  import opened PoolSections
  import opened PoolLedger
  import opened PoolTheorems

  /** The time until the task's deadline, less the reserve. */
  function Slack(c: Settings, t: Task, now: int): int { t.enqueued + t.deadline - c.reserve - now }

  // ---- every answer is given by one step, and is what that step owes ----

  /** What each step that calls the handler says: a batch is answered with the deadline, for tasks
      that are out of time; a worker runs the task it holds, with all the time it has, exactly if
      that is enough, whether or not the pool is closed; a submitter passes on why it was refused. */
  ghost predicate Owes(c: Settings, s: State, step: Step, call: Call) {
    match step
    case ReplyOne(tid) =>
      && tid in s.pc && s.pc[tid].Reply? && s.pc[tid].batch != [] && call.task == s.pc[tid].batch[0]
      && call.reason == Deadline && call.left == 0 && Slack(c, call.task, s.now) < c.minBudget
    case RunTask(w) =>
      && Wk(w) in s.pc && s.pc[Wk(w)] == Hold(call.task) && call.task in s.popped
      && call.left == Slack(c, call.task, s.now)
      && call.reason == if call.left >= c.minBudget then Ran else Deadline
    case Refuse(t) => call.task == t && Sub(t) in s.pc && s.pc[Sub(t)] == Answer(call.reason, call.left)
    case _ => false
  }

  /** The handler is called by `step` in state `s`, and rightly so. */
  ghost predicate CallsRightly(c: Settings, s: State, step: Step, call: Call) {
    call.at == s.now && Owes(c, s, step, call) && GoodCall(c, s, call)
  }

  /** The step makes one call, rightly. */
  ghost predicate OneCall(c: Settings, s: State, step: Step, s': State) {
    && |s'.log| == |s.log| + 1 && s'.log[..|s.log|] == s.log
    && CallsRightly(c, s, step, s'.log[|s.log|])
  }

  lemma ReplyCalls(c: Settings, s: State, tid: Tid)
    requires Honest(c, s) && Enabled(c, s, ReplyOne(tid))
    ensures OneCall(c, s, ReplyOne(tid), DoReplyOne(s, tid))
  {
    assert GoodPc(c, s, tid, s.pc[tid]) && s.pc[tid].batch[0] in s.pc[tid].batch;
    var call := Call(s.pc[tid].batch[0], 0, Deadline, s.now);
    assert DoReplyOne(s, tid).log == s.log + [call];
    hide DoReplyOne, Honest;
  }

  lemma RefuseCalls(c: Settings, s: State, t: Task)
    requires Honest(c, s) && Enabled(c, s, Refuse(t))
    ensures OneCall(c, s, Refuse(t), Do(c, s, Refuse(t)))
  {
    assert GoodPc(c, s, Sub(t), s.pc[Sub(t)]);
    var call := Call(t, s.pc[Sub(t)].left, s.pc[Sub(t)].reason, s.now);
    assert Do(c, s, Refuse(t)).log == s.log + [call];
    hide Do, Honest;
  }

  lemma RunCalls(c: Settings, s: State, w: nat)
    requires Honest(c, s) && Enabled(c, s, RunTask(w))
    ensures OneCall(c, s, RunTask(w), DoRun(c, s, w))
  {
    assert GoodPc(c, s, Wk(w), s.pc[Wk(w)]);
    var t := s.pc[Wk(w)].task;
    var left := LeftAt(c, t, s.now);
    var call := Call(t, left, if left < c.minBudget then Deadline else Ran, s.now);
    assert DoRun(c, s, w).log == s.log + [call];
    hide DoRun, Honest;
  }

  /** A step answers at most one task, and rightly. */
  lemma StepCalls(c: Settings, s: State, step: Step)
    requires Honest(c, s) && Enabled(c, s, step)
    ensures var s' := Do(c, s, step); s'.log == s.log || OneCall(c, s, step, s')
  {
    hide OneCall, Honest, DoReplyOne, DoRun, DoPop, DoEnter, DoRecheck, DoGather;
    match step {
      case ReplyOne(tid) => ReplyCalls(c, s, tid);
      case Refuse(t) => RefuseCalls(c, s, t);
      case RunTask(w) => RunCalls(c, s, w);
      case TryPop(w) => PopStepIsSection(c, s, w);
      case TryEnter(t, who) => EnterStepIsSection(c, s, t, who);
      case Recheck(t, stopWins, who) => RecheckStepIsSection(c, s, t, stopWins, who);
      case Gather(tid) => GatherStepIsSection(c, s, tid);
      case _ => if Moves(step) { MovesKeep(c, s, step); } else { FlagsKeep(c, s, step); }
    }
  }

  lemma StepAnswers(c: Settings, s: State, step: Step, i: nat)
    requires Honest(c, s) && Enabled(c, s, step) && i < |Do(c, s, step).log|
    ensures var s' := Do(c, s, step);
      if i < |s.log| then s'.log[i] == s.log[i] else CallsRightly(c, s, step, s'.log[i])
  {
    hide Honest, Do, Enabled, CallsRightly;
    StepCalls(c, s, step);
    var s' := Do(c, s, step);
    if OneCall(c, s, step, s') && i < |s.log| { assert s'.log[i] == s'.log[..|s.log|][i]; }
  }

  /** The last step of a run in which something was answered. */
  lemma LastStep(c: Settings, start: int, run: seq<Step>, i: nat)
    requires Legal(c, start, run) && i < |At(c, start, run).log|
    ensures |run| > 0 && Legal(c, start, run[..|run| - 1])
    ensures var s := At(c, start, run[..|run| - 1]);
      Honest(c, s) && Enabled(c, s, run[|run| - 1]) && At(c, start, run) == Do(c, s, run[|run| - 1])
  {
    hide Honest, Do, Enabled;
    Reached(c, start, run[..|run| - 1]);
  }

  /** For every answer of every run there is the step that gave it, and at that moment it was
      deserved: a deadline answer means that the task was out of time or the pool closed then. */
  lemma {:induction false} AnswersAreDeserved(c: Settings, start: int, run: seq<Step>, i: nat) returns (k: nat)
    requires Legal(c, start, run) && i < |At(c, start, run).log|
    ensures k < |run| && Legal(c, start, run[..k])
    ensures CallsRightly(c, At(c, start, run[..k]), run[k], At(c, start, run).log[i])
    decreases |run|
  {
    LastStep(c, start, run, i);
    var init, step := run[..|run| - 1], run[|run| - 1];
    hide At, Legal, Do, Enabled, Honest, CallsRightly;
    var s := At(c, start, init);
    StepAnswers(c, s, step, i);
    if i < |s.log| {
      k := AnswersAreDeserved(c, start, init, i);
      assert init[..k] == run[..k];
    } else {
      k := |run| - 1;
    }
  }

  // ---- why a submitter is refused ----

  /** The step refuses the submitter of `t`, which will answer `p`: it was out of time at its first
      check or when it was to wait; or the pool was closed; or the queue was full, and under the
      drop policy, or its time to wait was up. */
  ghost predicate Refuses(c: Settings, s: State, step: Step, t: Task, p: Pc) {
    match step
    case Check(x, drift) =>
      x == t && Slack(c, t, s.now) < c.minBudget && p == Answer(Deadline, Slack(c, t, s.now + drift))
    case TryEnter(x, _) =>
      && x == t
      && (|| (s.closed && p == Answer(Deadline, 0))
          || (!s.closed && |s.q| >= Cap(c) && !c.wait && p == Answer(QueueLimit, 0)))
    case ArmTimer(x) =>
      x == t && Slack(c, t, s.now) < c.minBudget && p == Answer(Deadline, Slack(c, t, s.now))
    case Recheck(x, _, _) =>
      x == t && (s.closed || (|s.q| >= Cap(c) && t in s.fired)) && p == Answer(Deadline, 0)
    case _ => false
  }

  lemma StirredAnswer(s: State, s': State, me: Tid, p: Pc, wake: Wake, who: Tid, t: Task)
    requires Section(s, s', me, p, wake, who) && Sub(t) in s'.pc && s'.pc[Sub(t)].Answer?
    ensures Sub(t) in s.pc
    ensures (Sub(t) == me && s'.pc[Sub(t)] == p) || s'.pc[Sub(t)] == s.pc[Sub(t)]
  {
    assert Sub(t) in s'.pc.Keys;
  }

  lemma ReplyingNoAnswer(b: seq<Task>, a: After)
    ensures !Replying(b, a).Answer?
  {}

  /** `s'` has the submitter of `t` where it was, or `step` has refused it. */
  ghost predicate RefusedNow(c: Settings, s: State, step: Step, s': State, t: Task) {
    Sub(t) in s'.pc && s'.pc[Sub(t)].Answer? ==>
      (Sub(t) in s.pc && s.pc[Sub(t)] == s'.pc[Sub(t)]) || Refuses(c, s, step, t, s'.pc[Sub(t)])
  }

  lemma PopRefuses(c: Settings, s: State, w: nat, t: Task)
    requires Enabled(c, s, TryPop(w))
    ensures RefusedNow(c, s, TryPop(w), DoPop(c, s, w), t)
  {
    PopStepIsSection(c, s, w);
    var s', dead := DoPop(c, s, w), Dead(c, s.q, s.now);
    var p := match PopVerdict(c, s.q, s.closed, s.now)
      case Got(t) => Replying(dead, ToRun(t))
      case Exit => Replying(dead, ToExit)
      case Again => Replying(dead, ToPop)
      case Sleep => Asleep;
    hide Section, DoPop;
    if Sub(t) in s'.pc && s'.pc[Sub(t)].Answer? {
      StirredAnswer(s, s', Wk(w), p, PopWake(c, s.q, s.now), Sweeper, t);
    }
  }

  lemma GatherRefuses(c: Settings, s: State, tid: Tid, t: Task)
    requires Enabled(c, s, Gather(tid))
    ensures RefusedNow(c, s, Gather(tid), DoGather(c, s, tid), t)
  {
    GatherStepIsSection(c, s, tid);
    var s', dead := DoGather(c, s, tid), Dead(c, s.q, s.now);
    var p := Replying(dead, if tid.Sweeper? then ToIdle else ToEnter);
    ReplyingNoAnswer(dead, if tid.Sweeper? then ToIdle else ToEnter);
    hide Section, DoGather, Replying, Dead;
    if Sub(t) in s'.pc && s'.pc[Sub(t)].Answer? {
      StirredAnswer(s, s', tid, p, if dead == [] then Nobody else All, tid, t);
    }
  }

  lemma RecheckRefuses(c: Settings, s: State, x: Task, stopWins: bool, who: Tid, t: Task)
    requires Enabled(c, s, Recheck(x, stopWins, who))
    ensures RefusedNow(c, s, Recheck(x, stopWins, who), DoRecheck(c, s, x, stopWins, who), t)
  {
    RecheckStepIsSection(c, s, x, stopWins, who);
    var s', r := DoRecheck(c, s, x, stopWins, who), LoopVerdict(c, s.q, s.closed, x in s.fired, s.now);
    var p := match r
      case TakeDead => Replying(Dead(c, s.q, s.now), ToLoop)
      case Doze => Asleep
      case Leave(Accepted) => Done
      case Leave(_) => Answer(Deadline, 0);
    var wake := match r case TakeDead => All case Leave(Accepted) => One case _ => Nobody;
    assert p.Answer? ==> p == Answer(Deadline, 0) && (s.closed || (|s.q| >= Cap(c) && x in s.fired));
    hide Section, DoRecheck, Replying, Dead, LoopVerdict;
    if Sub(t) in s'.pc && s'.pc[Sub(t)].Answer? {
      StirredAnswer(s, s', Sub(x), p, wake, who, t);
    }
  }

  lemma EnterRefuses(c: Settings, s: State, x: Task, who: Tid, t: Task)
    requires Enabled(c, s, TryEnter(x, who))
    ensures RefusedNow(c, s, TryEnter(x, who), DoEnter(c, s, x, who), t)
  {
    EnterStepIsSection(c, s, x, who);
    var s', r := DoEnter(c, s, x, who), EnterVerdict(c, s.q, s.closed);
    var p := match r
      case Refused => Answer(Deadline, 0)
      case Accepted => Done
      case MustWait => Arm
      case Shed => Answer(QueueLimit, 0);
    hide Section, DoEnter;
    if Sub(t) in s'.pc && s'.pc[Sub(t)].Answer? {
      StirredAnswer(s, s', Sub(x), p, if r == Accepted then One else Nobody, who, t);
    }
  }

  lemma MoveRefuses(c: Settings, s: State, step: Step, t: Task)
    requires Enabled(c, s, step) && Moves(step)
    ensures RefusedNow(c, s, step, Do(c, s, step), t)
  {
    match step
    case Check(x, drift) => CheckMeans(c, s, x, drift); hide DoCheck;
    case ArmTimer(x) => ArmMeans(c, s, x); hide DoArm;
    case Tick(_) =>
    case Submit(_) =>
    case SweeperExit =>
  }

  lemma CallRefuses(c: Settings, s: State, step: Step, t: Task)
    requires Enabled(c, s, step) && Calls(step)
    ensures RefusedNow(c, s, step, Do(c, s, step), t)
  {
    hide LeftAt;
    match step
    case ReplyOne(tid) => ReplyingNoAnswer(s.pc[tid].batch[1..], s.pc[tid].after); hide Replying;
    case Refuse(_) =>
    case RunTask(_) =>
  }

  lemma FlagRefuses(c: Settings, s: State, step: Step, t: Task)
    requires Enabled(c, s, step) && Flags(step)
    ensures RefusedNow(c, s, step, Do(c, s, step), t)
  {
    assert Sub(t) in Do(c, s, step).pc <==> Sub(t) in Do(c, s, step).pc.Keys;
    match step
    case FireTimer(x) =>
      RouseIsWoken(s.(timers := s.timers - {x}, fired := s.fired + {x}), All, Sweeper);
      hide Rouse;
    case CloseLock =>
      RouseIsWoken(s.(closed := true), All, Sweeper);
      hide Rouse;
    case CloseStop =>
    case CloseReturn =>
  }

  lemma StepRefuses(c: Settings, s: State, step: Step, t: Task)
    requires Enabled(c, s, step)
    ensures RefusedNow(c, s, step, Do(c, s, step), t)
  {
    hide RefusedNow, DoPop, DoEnter, DoRecheck, DoGather;
    match step
    case TryPop(w) => PopRefuses(c, s, w, t);
    case Recheck(x, stopWins, who) => RecheckRefuses(c, s, x, stopWins, who, t);
    case Gather(tid) => GatherRefuses(c, s, tid, t);
    case TryEnter(x, who) => EnterRefuses(c, s, x, who, t);
    case _ =>
      if Moves(step) { MoveRefuses(c, s, step, t); }
      if Calls(step) { CallRefuses(c, s, step, t); }
      if Flags(step) { FlagRefuses(c, s, step, t); }
  }

  /** For every submitter about to answer its own task there is the step that refused it. */
  lemma {:induction false} RefusalMoment(c: Settings, start: int, run: seq<Step>, t: Task) returns (k: nat)
    requires Legal(c, start, run)
    requires Sub(t) in At(c, start, run).pc && At(c, start, run).pc[Sub(t)].Answer?
    ensures k < |run| && Legal(c, start, run[..k])
    ensures Refuses(c, At(c, start, run[..k]), run[k], t, At(c, start, run).pc[Sub(t)])
    decreases |run|
  {
    assert forall x :: Sub(x) !in Init(c, start).pc;
    var init, step := run[..|run| - 1], run[|run| - 1];
    var s := At(c, start, init);
    StepRefuses(c, s, step, t);
    hide Refuses, Do, Enabled;
    if Sub(t) in s.pc && s.pc[Sub(t)] == At(c, start, run).pc[Sub(t)] {
      k := RefusalMoment(c, start, init, t);
      assert init[..k] == run[..k];
    } else {
      k := |run| - 1;
    }
  }

  /** A task that is answered with the queue limit was turned away earlier in the run, by a queue
      that was full, in a pool that was open and drops what does not fit. */
  lemma LimitMeansFull(c: Settings, start: int, run: seq<Step>, i: nat) returns (k: nat)
    requires Legal(c, start, run) && i < |At(c, start, run).log| && At(c, start, run).log[i].reason == QueueLimit
    ensures k < |run| && Legal(c, start, run[..k])
    ensures run[k].TryEnter? && run[k].t == At(c, start, run).log[i].task
    ensures var s := At(c, start, run[..k]); |s.q| == Cap(c) && !s.closed && !c.wait
  {
    var t := At(c, start, run).log[i].task;
    var n := AnswersAreDeserved(c, start, run, i);
    k := RefusalMoment(c, start, run[..n], t);
    assert run[..n][..k] == run[..k];
    CountersAgree(c, start, run[..k]);
  }

  // ---- what the steps of a Submit decide ----

  /** The first check: refused exactly if out of time. */
  lemma CheckMeans(c: Settings, s: State, t: Task, drift: nat)
    requires Enabled(c, s, Check(t, drift))
    ensures var s' := DoCheck(c, s, t, drift); var out := Slack(c, t, s.now) < c.minBudget;
      s' == s.(now := if out then s.now + drift else s.now,
               pc := s.pc[Sub(t) := if out then Answer(Deadline, Slack(c, t, s.now + drift)) else Collect])
  {
    assert forall now :: LeftAt(c, t, now) == Slack(c, t, now);
    if Expired(c, t, s.now) {} else {}
  }

  /** Before waiting: refused exactly if out of time; else the timer is set for the end of it. */
  lemma ArmMeans(c: Settings, s: State, t: Task)
    requires Enabled(c, s, ArmTimer(t))
    ensures var s', left := DoArm(c, s, t), Slack(c, t, s.now);
      if left < c.minBudget then s' == s.(pc := s.pc[Sub(t) := Answer(Deadline, left)])
      else s' == s.(pc := s.pc[Sub(t) := Loop], timers := s.timers[t := t.enqueued + t.deadline - c.reserve])
  {
    assert LeftAt(c, t, s.now) == Slack(c, t, s.now);
    if LeftAt(c, t, s.now) < c.minBudget {} else {}
  }

  /** Entering: accepted exactly if the pool is open and has room; with no room, the policy decides. */
  lemma EnterMeans(c: Settings, s: State, t: Task, who: Tid)
    requires Enabled(c, s, TryEnter(t, who))
    ensures var s' := DoEnter(c, s, t, who); var open := !s.closed; var room := |s.q| < Cap(c);
      && (s'.pc[Sub(t)] == Done <==> open && room)
      && (s'.pc[Sub(t)] == Arm <==> open && !room && c.wait)
      && (s'.pc[Sub(t)] == Answer(QueueLimit, 0) <==> open && !room && !c.wait)
      && (s'.pc[Sub(t)] == Answer(Deadline, 0) <==> !open)
      && s'.q == if open && room then s.q + [t] else s.q
  {
    EnterStepIsSection(c, s, t, who);
    hide DoEnter;
  }

  /** A pass of the wait loop: whatever its timer says, a submitter that finds the pool open and room
      in the queue is accepted; it sleeps exactly while it is open, full, with nothing expired and
      time left; a timer that has not come due is stopped when it leaves. */
  lemma RecheckMeans(c: Settings, s: State, t: Task, stopWins: bool, who: Tid)
    requires Enabled(c, s, Recheck(t, stopWins, who))
    ensures var s' := DoRecheck(c, s, t, stopWins, who); var room := |s.q| < Cap(c);
      && (s'.pc[Sub(t)] == Done <==> !s.closed && room)
      && (s'.pc[Sub(t)] == Asleep <==> !s.closed && !room && t !in s.fired && Dead(c, s.q, s.now) == [])
      && (s'.pc[Sub(t)] == Answer(Deadline, 0) <==> s.closed || (!room && t in s.fired))
      && s'.q == (if !s.closed && room then s.q + [t]
                  else if !s.closed && t !in s.fired then Live(c, s.q, s.now) else s.q)
      && ((s.closed || room || t in s.fired) && t in s.timers && s.now < s.timers[t] ==> t !in s'.timers)
  {
    RecheckStepIsSection(c, s, t, stopWins, who);
    if LoopVerdict(c, s.q, s.closed, t in s.fired, s.now) == Doze { NoDeadIsLive(c, s.q, s.now); }
    hide DoRecheck, Dead, Live;
  }

  /** A pass of pop: the first live task is held, after the expired ones; without a live task the worker
      ends exactly if the pool is closed, and else sleeps exactly if nothing has expired either. */
  lemma PopMeans(c: Settings, s: State, w: nat)
    requires Enabled(c, s, TryPop(w))
    ensures var p, live, dead := DoPop(c, s, w).pc[Wk(w)], Live(c, s.q, s.now), Dead(c, s.q, s.now);
      && (live != [] ==> p == if dead == [] then Hold(live[0]) else Reply(dead, ToRun(live[0])))
      && (live == [] && s.closed ==> p == if dead == [] then Done else Reply(dead, ToExit))
      && (live == [] && !s.closed ==> p == if dead == [] then Asleep else Reply(dead, ToPop))
  {
    PopStepIsSection(c, s, w);
    hide DoPop, Live, Dead;
  }

  /** A task stays in the queue exactly as long as it has the minimum budget left. */
  lemma LiveMeans(c: Settings, q: seq<Task>, now: int, t: Task)
    ensures t in Live(c, q, now) <==> t in q && t.enqueued + t.deadline - c.reserve - now >= c.minBudget
    ensures t in Dead(c, q, now) <==> t in q && t.enqueued + t.deadline - c.reserve - now < c.minBudget
  {
    Partition(c, q, now);
  }
}
