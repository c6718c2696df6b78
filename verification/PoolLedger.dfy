/** What the pool counts, the order it serves tasks in, and why each answer is deserved. */
module PoolLedger {
  import opened Seqs
  import opened PoolQueue
  import opened PoolMachine
  import opened PoolOwnership
  import opened PoolFrames

  function Count(log: seq<Call>, r: Reason): nat {
    if |log| == 0 then 0
    else Count(log[..|log| - 1], r) + (if log[|log| - 1].reason == r then 1 else 0)
  }

  /** Nothing accepted is lost, the counters are right, and workers serve in acceptance order. */
  ghost predicate Ledger(s: State) {
    && s.accepted == |s.order|
    && multiset(s.order) == multiset(s.popped) + multiset(s.taken) + multiset(s.q)
    && IsSubseq(s.popped + s.q, s.order)
    && s.expired == Count(s.log, Deadline)
    && s.shed == Count(s.log, QueueLimit)
  }

  lemma SameLedger(s: State, s': State)
    requires Ledger(s)
    requires s'.accepted == s.accepted && s'.order == s.order && s'.popped == s.popped && s'.taken == s.taken
    requires s'.q == s.q && s'.log == s.log && s'.expired == s.expired && s'.shed == s.shed
    ensures Ledger(s')
  {}

  lemma GatheredLedger(c: Settings, s: State, tid: Tid, a: After)
    requires Ledger(s)
    ensures Ledger(Gathered(c, s, tid, a))
  {
    var live := Live(c, s.q, s.now);
    Partition(c, s.q, s.now);
    SubseqPrefix(s.popped, live, s.q);
    SubseqTrans(s.popped + live, s.popped + s.q, s.order);
  }

  lemma PopHeadLedger(s: State, w: nat)
    requires Ledger(s) && s.q != [] && Wk(w) in s.pc
    ensures Ledger(PopHead(s, w))
  {
    assert s.q == [s.q[0]] + s.q[1..];
    assert (s.popped + [s.q[0]]) + s.q[1..] == s.popped + s.q;
  }

  lemma EnqueuedLedger(s: State, t: Task)
    requires Ledger(s)
    ensures Ledger(Enqueued(s, t))
  {
    SubseqSnoc(s.popped + s.q, s.order, t);
    assert s.popped + (s.q + [t]) == (s.popped + s.q) + [t];
  }

  lemma CalledLedger(s: State, tid: Tid, call: Call, p: Pc)
    requires Ledger(s)
    ensures Ledger(Called(s, tid, call, p))
  {
    assert (s.log + [call])[..|s.log|] == s.log;
  }

  lemma ShiftLedger(s: State, tid: Tid, p: Pc)
    requires Ledger(s)
    ensures Ledger(Shift(s, tid, p))
  {}

  lemma StopLedger(s: State, t: Task, stopWins: bool)
    requires Ledger(s)
    ensures Ledger(StopTimer(s, t, stopWins))
  {}

  lemma RouseLedger(s: State, wake: Wake, who: Tid)
    requires Ledger(s)
    ensures Ledger(Rouse(s, wake, who))
  {}

  lemma PopLedger(c: Settings, s: State, w: nat)
    requires Ledger(s) && Enabled(c, s, TryPop(w))
    ensures Ledger(DoPop(c, s, w))
  {
    hide Ledger, Live, Dead;
    var s1 := Rouse(s, PopWake(c, s.q, s.now), Sweeper);
    RouseLedger(s, PopWake(c, s.q, s.now), Sweeper);
    match PopVerdict(c, s.q, s.closed, s.now) {
      case Got(_) =>
        GatheredLedger(c, s1, Wk(w), ToPop);
        PopHeadLedger(Gathered(c, s1, Wk(w), ToPop), w);
      case Exit => GatheredLedger(c, s1, Wk(w), ToExit);
      case Again => GatheredLedger(c, s1, Wk(w), ToPop);
      case Sleep => ShiftLedger(s, Wk(w), Asleep);
    }
  }

  lemma RecheckLedger(c: Settings, s: State, t: Task, stopWins: bool, who: Tid)
    requires Ledger(s)
    ensures Ledger(DoRecheck(c, s, t, stopWins, who))
  {
    hide Ledger, Gathered, Enqueued, Live, Dead, Rouse, Shift, StopTimer;
    var s1 := StopTimer(s, t, stopWins);
    StopLedger(s, t, stopWins);
    match LoopVerdict(c, s.q, s.closed, t in s.fired, s.now) {
      case TakeDead => RouseLedger(s, All, who); GatheredLedger(c, Rouse(s, All, who), Sub(t), ToLoop);
      case Doze => ShiftLedger(s, Sub(t), Asleep);
      case Leave(Accepted) => RouseLedger(s1, One, who); EnqueuedLedger(Rouse(s1, One, who), t);
      case Leave(_) => ShiftLedger(s1, Sub(t), Answer(Deadline, 0));
    }
  }

  lemma EnterLedger(c: Settings, s: State, t: Task, who: Tid)
    requires Ledger(s)
    ensures Ledger(DoEnter(c, s, t, who))
  {
    hide Ledger, Enqueued, Rouse, Shift;
    match EnterVerdict(c, s.q, s.closed) {
      case Refused => ShiftLedger(s, Sub(t), Answer(Deadline, 0));
      case Accepted => RouseLedger(s, One, who); EnqueuedLedger(Rouse(s, One, who), t);
      case MustWait => ShiftLedger(s, Sub(t), Arm);
      case Shed => ShiftLedger(s, Sub(t), Answer(QueueLimit, 0));
    }
  }

  lemma StepLedger(c: Settings, s: State, step: Step)
    requires Ledger(s) && Enabled(c, s, step)
    ensures Ledger(Do(c, s, step))
  {
    hide Ledger, DoPop, DoRecheck, DoEnter;
    match step {
      case Gather(tid) =>
        var wake := if Dead(c, s.q, s.now) != [] then All else Nobody;
        RouseLedger(s, wake, tid);
        GatheredLedger(c, Rouse(s, wake, tid), tid, if tid.Sweeper? then ToIdle else ToEnter);
      case ReplyOne(tid) =>
        var p := s.pc[tid];
        CalledLedger(s, tid, Call(p.batch[0], 0, Deadline, s.now), Replying(p.batch[1..], p.after));
      case TryEnter(t, who) => EnterLedger(c, s, t, who);
      case Recheck(t, stopWins, who) => RecheckLedger(c, s, t, stopWins, who);
      case Refuse(t) => CalledLedger(s, Sub(t), Call(t, s.pc[Sub(t)].left, s.pc[Sub(t)].reason, s.now), Done);
      case TryPop(w) => PopLedger(c, s, w);
      case RunTask(w) =>
        var t := s.pc[Wk(w)].task;
        var left := LeftAt(c, t, s.now);
        CalledLedger(s, Wk(w), Call(t, left, if left < c.minBudget then Deadline else Ran, s.now), Pop);
      case _ => OtherLedger(c, s, step);
    }
  }

  /** The steps that leave the ledger alone. */
  lemma OtherLedger(c: Settings, s: State, step: Step)
    requires Ledger(s) && Enabled(c, s, step)
    requires Moves(step) || Flags(step)
    ensures Ledger(Do(c, s, step))
  {
    if Moves(step) { MovesKeep(c, s, step); } else { FlagsKeep(c, s, step); }
    hide Do, Enabled, Ledger;
    SameLedger(s, Do(c, s, step));
  }

  // ---- every answer is deserved ----

  /** The task has no budget left to be handled with. */
  predicate Spent(c: Settings, t: Task, now: int) {
    Expired(c, t, now) || LeftAt(c, t, now) <= 0
  }

  /** A task that runs gets a real budget that ends, with the reserve, exactly at its deadline;
      a task is refused for its deadline only when it is out of time or the pool is closed;
      the queue limit is an answer of the drop policy alone. */
  ghost predicate GoodCall(c: Settings, s: State, call: Call) {
    && call.at <= s.now
    && match call.reason
       case Ran =>
         && call.left >= c.minBudget && call.task in s.popped
         && call.at + call.left + c.reserve == call.task.enqueued + call.task.deadline
       case Deadline => (call.left < c.minBudget || call.left == 0) && (Spent(c, call.task, call.at) || s.closed)
       case QueueLimit => call.left == 0 && !c.wait
  }

  ghost predicate GoodPc(c: Settings, s: State, tid: Tid, p: Pc) {
    match p
    case Answer(Deadline, l) => (l < c.minBudget || l == 0) && (tid.Sub? ==> Spent(c, tid.task, s.now) || s.closed)
    case Answer(QueueLimit, l) => l == 0 && !c.wait
    case Answer(Ran, _) => false
    case Hold(t) => t in s.popped
    case Reply(b, a) => (forall t :: t in b ==> Expired(c, t, s.now)) && (a.ToRun? ==> a.task in s.popped)
    case _ => true
  }

  /** The moment the timer of a blocked submitter is set for. */
  function TimeUp(c: Settings, t: Task): int { t.enqueued + t.deadline - c.reserve }

  ghost predicate Honest(c: Settings, s: State) {
    && (forall i :: 0 <= i < |s.log| ==> GoodCall(c, s, s.log[i]))
    && (forall tid :: tid in s.pc ==> GoodPc(c, s, tid, s.pc[tid]))
    && (forall t :: t in s.timers ==> s.timers[t] == TimeUp(c, t))
    && (forall t :: t in s.fired ==> TimeUp(c, t) <= s.now)
  }

  /** Time, closing and popping only go one way. */
  ghost predicate Later(s: State, s': State) {
    s.now <= s'.now && (s.closed ==> s'.closed) && (forall t :: t in s.popped ==> t in s'.popped)
  }

  lemma LaterGood(c: Settings, s: State, s': State)
    requires Later(s, s')
    ensures forall call :: GoodCall(c, s, call) ==> GoodCall(c, s', call)
    ensures forall tid, p :: GoodPc(c, s, tid, p) ==> GoodPc(c, s', tid, p)
  {
    forall tid, p | GoodPc(c, s, tid, p) ensures GoodPc(c, s', tid, p) {}
  }

  /** Thread `tid` moves to `p`, and time may pass. */
  lemma MoveHonest(c: Settings, s: State, s': State, tid: Tid, p: Pc)
    requires Honest(c, s) && Later(s, s') && s'.pc == s.pc[tid := p] && GoodPc(c, s', tid, p)
    requires s'.log == s.log
      || (|s'.log| == |s.log| + 1 && s'.log[..|s.log|] == s.log && GoodCall(c, s', s'.log[|s.log|]))
    requires forall t :: t in s'.timers ==>
      (t in s.timers && s'.timers[t] == s.timers[t]) || s'.timers[t] == TimeUp(c, t)
    requires forall t :: t in s'.fired ==> t in s.fired
    ensures Honest(c, s')
  {
    LaterGood(c, s, s');
    forall i | 0 <= i < |s'.log| ensures GoodCall(c, s', s'.log[i]) {
      if i < |s.log| { assert s'.log[i] == s.log[i]; }
    }
  }

  lemma SameHonest(c: Settings, s: State, s': State)
    requires Honest(c, s) && Later(s, s') && s'.pc == s.pc && s'.log == s.log && s'.timers == s.timers
      && s'.fired == s.fired
    ensures Honest(c, s')
  {
    LaterGood(c, s, s');
  }

  lemma RouseHonest(c: Settings, s: State, wake: Wake, who: Tid)
    requires Honest(c, s)
    ensures Honest(c, Rouse(s, wake, who))
  {
    var s' := Rouse(s, wake, who);
    RousePcs(s, wake, who);
    LaterGood(c, s, s');
    forall tid | tid in s'.pc ensures GoodPc(c, s', tid, s'.pc[tid]) { assert tid in s.pc.Keys; }
  }

  lemma GatheredHonest(c: Settings, s: State, tid: Tid, a: After)
    requires Honest(c, s) && !a.ToRun?
    ensures Honest(c, Gathered(c, s, tid, a))
  {
    hide Honest;
    Partition(c, s.q, s.now);
    var s' := Gathered(c, s, tid, a);
    MoveHonest(c, s, s', tid, s'.pc[tid]);
  }

  lemma PopHeadHonest(c: Settings, s: State, w: nat)
    requires Honest(c, s) && s.q != [] && Wk(w) in s.pc
    ensures Honest(c, PopHead(s, w))
  {
    assert GoodPc(c, s, Wk(w), s.pc[Wk(w)]);
    var s' := PopHead(s, w);
    assert s.q[0] == s'.popped[|s.popped|];
    hide Honest;
    MoveHonest(c, s, s', Wk(w), s'.pc[Wk(w)]);
  }

  lemma EnqueuedHonest(c: Settings, s: State, t: Task)
    requires Honest(c, s)
    ensures Honest(c, Enqueued(s, t))
  {
    hide Honest;
    MoveHonest(c, s, Enqueued(s, t), Sub(t), Done);
  }

  lemma CalledHonest(c: Settings, s: State, tid: Tid, call: Call, p: Pc)
    requires Honest(c, s) && GoodCall(c, s, call) && GoodPc(c, s, tid, p)
    ensures Honest(c, Called(s, tid, call, p))
  {
    hide Honest;
    var s' := Called(s, tid, call, p);
    LaterGood(c, s, s');
    MoveHonest(c, s, s', tid, p);
  }

  lemma PopHonest(c: Settings, s: State, w: nat)
    requires Honest(c, s) && Enabled(c, s, TryPop(w))
    ensures Honest(c, DoPop(c, s, w))
  {
    hide Honest;
    var s1 := Rouse(s, PopWake(c, s.q, s.now), Sweeper);
    RouseHonest(c, s, PopWake(c, s.q, s.now), Sweeper);
    match PopVerdict(c, s.q, s.closed, s.now) {
      case Got(_) =>
        GatheredHonest(c, s1, Wk(w), ToPop);
        PopHeadHonest(c, Gathered(c, s1, Wk(w), ToPop), w);
      case Exit => GatheredHonest(c, s1, Wk(w), ToExit);
      case Again => GatheredHonest(c, s1, Wk(w), ToPop);
      case Sleep => MoveHonest(c, s, Shift(s, Wk(w), Asleep), Wk(w), Asleep);
    }
  }

  lemma RecheckHonest(c: Settings, s: State, t: Task, stopWins: bool, who: Tid)
    requires Honest(c, s) && Enabled(c, s, Recheck(t, stopWins, who))
    ensures Honest(c, DoRecheck(c, s, t, stopWins, who))
  {
    assert t in s.fired ==> Spent(c, t, s.now);
    hide Honest;
    var s1 := StopTimer(s, t, stopWins);
    match LoopVerdict(c, s.q, s.closed, t in s.fired, s.now) {
      case TakeDead => RouseHonest(c, s, All, who); GatheredHonest(c, Rouse(s, All, who), Sub(t), ToLoop);
      case Doze => MoveHonest(c, s, Shift(s, Sub(t), Asleep), Sub(t), Asleep);
      case Leave(Accepted) =>
        StopHonest(c, s, t, stopWins);
        RouseHonest(c, s1, One, who);
        EnqueuedHonest(c, Rouse(s1, One, who), t);
      case Leave(_) =>
        StopHonest(c, s, t, stopWins);
        MoveHonest(c, s1, Shift(s1, Sub(t), Answer(Deadline, 0)), Sub(t), Answer(Deadline, 0));
    }
  }

  lemma StopHonest(c: Settings, s: State, t: Task, stopWins: bool)
    requires Honest(c, s)
    ensures Honest(c, StopTimer(s, t, stopWins))
  {
    LaterGood(c, s, StopTimer(s, t, stopWins));
  }

  lemma EnterHonest(c: Settings, s: State, t: Task, who: Tid)
    requires Honest(c, s) && Enabled(c, s, TryEnter(t, who))
    ensures Honest(c, DoEnter(c, s, t, who))
  {
    hide Honest;
    var s' := DoEnter(c, s, t, who);
    if EnterVerdict(c, s.q, s.closed) == Accepted {
      RouseHonest(c, s, One, who);
      EnqueuedHonest(c, Rouse(s, One, who), t);
    } else { MoveHonest(c, s, s', Sub(t), s'.pc[Sub(t)]); }
  }

  lemma ReplyHonest(c: Settings, s: State, tid: Tid)
    requires Honest(c, s) && Enabled(c, s, ReplyOne(tid))
    ensures Honest(c, DoReplyOne(s, tid))
  {
    var p := s.pc[tid];
    assert GoodPc(c, s, tid, p);
    var p' := Replying(p.batch[1..], p.after);
    assert GoodPc(c, s, tid, p');
    hide Honest;
    CalledHonest(c, s, tid, Call(p.batch[0], 0, Deadline, s.now), p');
  }

  lemma CheckHonest(c: Settings, s: State, t: Task, drift: nat)
    requires Honest(c, s) && Enabled(c, s, Check(t, drift))
    ensures Honest(c, DoCheck(c, s, t, drift))
  {
    hide Honest;
    if Expired(c, t, s.now) {
      var p := Answer(Deadline, LeftAt(c, t, s.now + drift));
      MoveHonest(c, s, DoCheck(c, s, t, drift), Sub(t), p);
    } else { MoveHonest(c, s, DoCheck(c, s, t, drift), Sub(t), Collect); }
  }

  lemma ArmHonest(c: Settings, s: State, t: Task)
    requires Honest(c, s) && Enabled(c, s, ArmTimer(t))
    ensures Honest(c, DoArm(c, s, t))
  {
    hide Honest;
    var left := LeftAt(c, t, s.now);
    if left < c.minBudget { MoveHonest(c, s, DoArm(c, s, t), Sub(t), Answer(Deadline, left)); }
    else { MoveHonest(c, s, DoArm(c, s, t), Sub(t), Loop); }
  }

  lemma RefuseHonest(c: Settings, s: State, t: Task)
    requires Honest(c, s) && Enabled(c, s, Refuse(t))
    ensures Honest(c, Do(c, s, Refuse(t)))
  {
    var p := s.pc[Sub(t)];
    assert GoodPc(c, s, Sub(t), p);
    hide Honest;
    CalledHonest(c, s, Sub(t), Call(t, p.left, p.reason, s.now), Done);
  }

  lemma RunHonest(c: Settings, s: State, w: nat)
    requires Honest(c, s) && Enabled(c, s, RunTask(w))
    ensures Honest(c, DoRun(c, s, w))
  {
    var t := s.pc[Wk(w)].task;
    assert GoodPc(c, s, Wk(w), s.pc[Wk(w)]);
    var left := LeftAt(c, t, s.now);
    hide Honest;
    CalledHonest(c, s, Wk(w), Call(t, left, if left < c.minBudget then Deadline else Ran, s.now), Pop);
  }

  lemma FireHonest(c: Settings, s: State, t: Task)
    requires Honest(c, s) && Enabled(c, s, FireTimer(t))
    ensures Honest(c, Do(c, s, FireTimer(t)))
  {
    var s1 := s.(timers := s.timers - {t}, fired := s.fired + {t});
    LaterGood(c, s, s1);
    assert Honest(c, s1);
    RouseHonest(c, s1, All, Sweeper);
  }

  lemma SubmitHonest(c: Settings, s: State, t: Task)
    requires Honest(c, s) && Enabled(c, s, Submit(t))
    ensures Honest(c, Do(c, s, Submit(t)))
  {
    hide Honest;
    MoveHonest(c, s, Do(c, s, Submit(t)), Sub(t), Begin);
  }

  lemma StepHonest(c: Settings, s: State, step: Step)
    requires Honest(c, s) && Enabled(c, s, step)
    ensures Honest(c, Do(c, s, step))
  {
    hide Honest, DoPop, DoRecheck, DoEnter, DoReplyOne, DoCheck, DoArm, DoRun;
    match step {
      case Submit(t) => SubmitHonest(c, s, t);
      case Check(t, drift) => CheckHonest(c, s, t, drift);
      case Gather(tid) =>
        var wake := if Dead(c, s.q, s.now) != [] then All else Nobody;
        RouseHonest(c, s, wake, tid);
        GatheredHonest(c, Rouse(s, wake, tid), tid, if tid.Sweeper? then ToIdle else ToEnter);
      case ReplyOne(tid) => ReplyHonest(c, s, tid);
      case TryEnter(t, who) => EnterHonest(c, s, t, who);
      case ArmTimer(t) => ArmHonest(c, s, t);
      case Recheck(t, stopWins, who) => RecheckHonest(c, s, t, stopWins, who);
      case Refuse(t) => RefuseHonest(c, s, t);
      case TryPop(w) => PopHonest(c, s, w);
      case RunTask(w) => RunHonest(c, s, w);
      case FireTimer(t) => FireHonest(c, s, t);
      case CloseLock => SameHonest(c, s, s.(closed := true)); RouseHonest(c, s.(closed := true), All, Sweeper);
      case SweeperExit => MoveHonest(c, s, Do(c, s, step), Sweeper, Done);
      case _ => SameHonest(c, s, Do(c, s, step));
    }
  }

  lemma InitLedger(c: Settings, now: int)
    ensures Ledger(Init(c, now)) && Honest(c, Init(c, now))
  {
    var none: seq<Task> := [];
    assert none + none == none;
  }
}
