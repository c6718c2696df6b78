/** Every submitted task is in exactly one place, whatever the interleaving. */
module PoolOwnership {
  import opened PoolQueue
  import opened Books
  import opened PoolMachine

  predicate WfPc(tid: Tid, p: Pc) {
    match tid
    case Sub(_) =>
      (match p
       case Reply(b, a) => b != [] && (a == ToEnter || a == ToLoop)
       case Pop => false
       case Hold(_) => false
       case Idle => false
       case _ => true)
    case Wk(_) =>
      (match p
       case Reply(b, a) => b != [] && (a == ToPop || a.ToRun? || a == ToExit)
       case Pop => true
       case Asleep => true
       case Woken => true
       case Hold(_) => true
       case Done => true
       case _ => false)
    case Sweeper =>
      (match p
       case Reply(b, a) => b != [] && a == ToIdle
       case Idle => true
       case Done => true
       case _ => false)
  }

  /** The threads are the submitters seen so far, the workers and the sweeper. */
  ghost predicate Typed(c: Settings, s: State) {
    && (forall t :: Sub(t) in s.pc <==> t in s.loc)
    && (forall w :: Wk(w) in s.pc <==> w in c.workers)
    && Sweeper in s.pc
    && (forall tid :: tid in s.pc ==> WfPc(tid, s.pc[tid]))
  }

  function TasksOf(log: seq<Call>): seq<Task> {
    seq(|log|, i requires 0 <= i < |log| => log[i].task)
  }

  function Hands(pc: map<Tid, Pc>): map<Tid, seq<Task>> {
    map tid | tid in pc :: Own(tid, pc[tid])
  }

  /** Who has which task, forgetting what the threads are doing. */
  function BookOf(s: State): Book<Task, Tid> {
    Book(s.loc, s.q, TasksOf(s.log), Hands(s.pc))
  }

  ghost predicate OwnInv(c: Settings, s: State) { Typed(c, s) && Balanced(BookOf(s)) }

  // ---- each building block keeps the invariant ----

  /** Waking threads changes nothing else about them. */
  lemma RousePcs(s: State, wake: Wake, who: Tid)
    ensures Rouse(s, wake, who) == s.(pc := Rouse(s, wake, who).pc)
    ensures Rouse(s, wake, who).pc.Keys == s.pc.Keys
    ensures forall tid :: tid in s.pc && s.pc[tid] != Asleep ==> Rouse(s, wake, who).pc[tid] == s.pc[tid]
    ensures forall tid :: tid in s.pc && s.pc[tid] == Asleep ==> Rouse(s, wake, who).pc[tid] in {Asleep, Woken}
    ensures wake == All ==> forall tid :: tid in s.pc && s.pc[tid] == Asleep ==> Rouse(s, wake, who).pc[tid] == Woken
  {
    var r := Rouse(s, wake, who);
    match wake {
      case Nobody => assert r == s;
      case One =>
        if who in s.pc && s.pc[who] == Asleep {
          assert r == s.(pc := s.pc[who := Woken]) && r.pc.Keys == s.pc.Keys;
        } else {
          assert r == s;
        }
      case All => RouseAllPcs(s, who);
    }
    hide Rouse;
  }

  lemma RouseAllPcs(s: State, who: Tid)
    ensures var r := Rouse(s, All, who);
      && r == s.(pc := r.pc) && r.pc.Keys == s.pc.Keys
      && forall tid :: tid in s.pc ==> r.pc[tid] == if s.pc[tid] == Asleep then Woken else s.pc[tid]
  {
    var woken := map tid | tid in s.pc :: if s.pc[tid] == Asleep then Woken else s.pc[tid];
    assert Rouse(s, All, who) == s.(pc := woken) && woken.Keys == s.pc.Keys;
    hide Rouse;
  }

  lemma RouseOwn(c: Settings, s: State, wake: Wake, who: Tid)
    requires OwnInv(c, s)
    ensures OwnInv(c, Rouse(s, wake, who))
  {
    var s' := Rouse(s, wake, who);
    RousePcs(s, wake, who);
    RestTyped(c, s, s');
    RestHands(s, s');
  }

  lemma RestTyped(c: Settings, s: State, s': State)
    requires Typed(c, s) && s'.pc.Keys == s.pc.Keys && s'.loc == s.loc
    requires forall tid :: tid in s.pc && s.pc[tid] != Asleep ==> s'.pc[tid] == s.pc[tid]
    requires forall tid :: tid in s.pc && s.pc[tid] == Asleep ==> s'.pc[tid] in {Asleep, Woken}
    ensures Typed(c, s')
  {
    forall tid ensures tid in s'.pc <==> tid in s.pc { assert tid in s'.pc <==> tid in s'.pc.Keys; }
    forall tid | tid in s'.pc ensures WfPc(tid, s'.pc[tid]) { assert WfPc(tid, s.pc[tid]); }
  }

  lemma RestHands(s: State, s': State)
    requires s'.pc.Keys == s.pc.Keys
    requires forall tid :: tid in s.pc && s.pc[tid] != Asleep ==> s'.pc[tid] == s.pc[tid]
    requires forall tid :: tid in s.pc && s.pc[tid] == Asleep ==> s'.pc[tid] in {Asleep, Woken}
    ensures Hands(s'.pc) == Hands(s.pc)
  {
    forall tid | tid in s.pc ensures Own(tid, s'.pc[tid]) == Own(tid, s.pc[tid]) {}
  }

  /** Only what the books do not record has changed. */
  lemma SameBook(c: Settings, s: State, s': State)
    requires OwnInv(c, s) && s'.pc == s.pc && s'.loc == s.loc && s'.q == s.q && s'.log == s.log
    ensures OwnInv(c, s')
  {
    assert BookOf(s') == BookOf(s);
  }

  /** Putting thread `tid` at `p` changes its hand only. */
  lemma HandsAfter(pc: map<Tid, Pc>, tid: Tid, p: Pc)
    ensures Hands(pc[tid := p]) == Hands(pc)[tid := Own(tid, p)]
  {}

  lemma TypedAfter(c: Settings, s: State, s': State, tid: Tid, p: Pc)
    requires Typed(c, s) && tid in s.pc && WfPc(tid, p)
    requires s'.pc == s.pc[tid := p] && s'.loc.Keys == s.loc.Keys
    ensures Typed(c, s')
  {
    assert s'.pc.Keys == s.pc.Keys;
    forall t ensures Sub(t) in s'.pc <==> t in s'.loc { assert t in s'.loc <==> t in s'.loc.Keys; }
  }

  lemma ShiftOwn(c: Settings, s: State, tid: Tid, p: Pc)
    requires OwnInv(c, s) && tid in s.pc && WfPc(tid, p)
    requires Own(tid, p) == Own(tid, s.pc[tid])
    ensures OwnInv(c, Shift(s, tid, p))
  {
    HandsAfter(s.pc, tid, p);
    TypedAfter(c, s, Shift(s, tid, p), tid, p);
    assert Hands(s.pc)[tid := Own(tid, p)] == Hands(s.pc);
    assert BookOf(Shift(s, tid, p)) == BookOf(s);
  }

  /** `a` is where a thread such as `tid` may go on after answering expired tasks. */
  predicate Fits(tid: Tid, a: After) {
    match tid
    case Sub(_) => a == ToEnter || a == ToLoop
    case Wk(_) => a == ToPop || a == ToExit
    case Sweeper => a == ToIdle
  }

  lemma ReplyingOwn(tid: Tid, b: seq<Task>, a: After)
    requires Fits(tid, a)
    ensures WfPc(tid, Replying(b, a)) && Own(tid, Replying(b, a)) == b + Own(tid, Resume(a))
  {}

  lemma GatheredOwn(c: Settings, s: State, tid: Tid, a: After)
    requires OwnInv(c, s) && tid in s.pc && Fits(tid, a)
    requires Own(tid, Resume(a)) == Own(tid, s.pc[tid])
    ensures OwnInv(c, Gathered(c, s, tid, a))
  {
    var dead, live := Dead(c, s.q, s.now), Live(c, s.q, s.now);
    var s' := Gathered(c, s, tid, a);
    Partition(c, s.q, s.now);
    PartitionNoDup(c, s.q, s.now);
    ReplyingOwn(tid, dead, a);
    var hand := Own(tid, Replying(dead, a));
    assert Hands(s.pc)[tid] == Own(tid, s.pc[tid]);
    hide Balanced, WfPc, Own, Dead, Live;
    Grab(BookOf(s), live, dead, tid, hand);
    HandsAfter(s.pc, tid, Replying(dead, a));
    assert s'.loc.Keys == s.loc.Keys;
    TypedAfter(c, s, s', tid, Replying(dead, a));
  }

  lemma PopHeadOwn(c: Settings, s: State, w: nat)
    requires OwnInv(c, s) && s.q != [] && Wk(w) in s.pc
    requires s.pc[Wk(w)] == Pop || (s.pc[Wk(w)].Reply? && s.pc[Wk(w)].after == ToPop)
    ensures OwnInv(c, PopHead(s, w))
  {
    var s' := PopHead(s, w);
    var tid, t := Wk(w), s.q[0];
    var p := s'.pc[tid];
    assert Own(tid, p) == Own(tid, s.pc[tid]) + [t] && WfPc(tid, p);
    assert Hands(s.pc)[tid] == Own(tid, s.pc[tid]);
    assert t in BookOf(s).q && t in s.loc;
    hide Own, WfPc, Balanced;
    TakeHead(BookOf(s), tid, Own(tid, p));
    HandsAfter(s.pc, tid, p);
    assert s'.loc.Keys == s.loc.Keys;
    TypedAfter(c, s, s', tid, p);
  }

  lemma EnqueuedOwn(c: Settings, s: State, t: Task)
    requires OwnInv(c, s) && Sub(t) in s.pc && Own(Sub(t), s.pc[Sub(t)]) == [t]
    ensures OwnInv(c, Enqueued(s, t))
  {
    var s' := Enqueued(s, t);
    assert Hands(s.pc)[Sub(t)] == [t];
    Append(BookOf(s), t, Sub(t));
    HandsAfter(s.pc, Sub(t), Done);
    assert s'.loc.Keys == s.loc.Keys;
    TypedAfter(c, s, s', Sub(t), Done);
  }

  lemma HeldIsKnown(s: State, tid: Tid, t: Task)
    requires Balanced(BookOf(s)) && tid in s.pc && t in Own(tid, s.pc[tid])
    ensures t in s.loc && Hands(s.pc)[tid] == Own(tid, s.pc[tid])
  {
    assert Hands(s.pc)[tid] == Own(tid, s.pc[tid]);
  }

  lemma CalledOwn(c: Settings, s: State, tid: Tid, call: Call, p: Pc)
    requires OwnInv(c, s) && tid in s.pc && WfPc(tid, p)
    requires Own(tid, s.pc[tid]) == [call.task] + Own(tid, p)
    ensures OwnInv(c, Called(s, tid, call, p))
  {
    var s' := Called(s, tid, call, p);
    var t := call.task;
    assert Own(tid, s.pc[tid])[0] == t;
    HeldIsKnown(s, tid, t);
    hide WfPc, Balanced, Own;
    Finish(BookOf(s), t, tid, Own(tid, p));
    HandsAfter(s.pc, tid, p);
    assert TasksOf(s'.log) == TasksOf(s.log) + [t];
    assert s'.loc.Keys == s.loc.Keys;
    TypedAfter(c, s, s', tid, p);
  }

  lemma InitOwn(c: Settings, now: int)
    ensures OwnInv(c, Init(c, now))
  {}

  lemma SubmitOwn(c: Settings, s: State, t: Task)
    requires OwnInv(c, s) && Enabled(c, s, Submit(t))
    ensures OwnInv(c, Do(c, s, Submit(t)))
  {
    var s' := Do(c, s, Submit(t));
    Arrive(BookOf(s), t, Sub(t));
    HandsAfter(s.pc, Sub(t), Begin);
    forall x ensures Sub(x) in s'.pc <==> x in s'.loc {}
    forall tid | tid in s'.pc ensures WfPc(tid, s'.pc[tid]) {}
  }

  lemma PopOwn(c: Settings, s: State, w: nat)
    requires OwnInv(c, s) && Enabled(c, s, TryPop(w))
    ensures OwnInv(c, DoPop(c, s, w))
  {
    hide OwnInv;
    var wake := PopWake(c, s.q, s.now);
    match PopVerdict(c, s.q, s.closed, s.now) {
      case Got(_) =>
        GatherOwn(c, s, wake, Sweeper, Wk(w), ToPop);
        PopHeadOwn(c, Gathered(c, Rouse(s, wake, Sweeper), Wk(w), ToPop), w);
      case Exit => GatherOwn(c, s, wake, Sweeper, Wk(w), ToExit);
      case Again => GatherOwn(c, s, wake, Sweeper, Wk(w), ToPop);
      case Sleep => ShiftOwn(c, s, Wk(w), Asleep);
    }
  }

  lemma AcceptOwn(c: Settings, s: State, t: Task, who: Tid)
    requires OwnInv(c, s) && Sub(t) in s.pc && (s.pc[Sub(t)] == Enter || Resting(s.pc[Sub(t)]))
    ensures OwnInv(c, Enqueued(Rouse(s, One, who), t))
  {
    hide OwnInv;
    RouseOwn(c, s, One, who);
    RousePcs(s, One, who);
    EnqueuedOwn(c, Rouse(s, One, who), t);
  }

  lemma GatherOwn(c: Settings, s: State, wake: Wake, who: Tid, tid: Tid, a: After)
    requires OwnInv(c, s) && tid in s.pc && Fits(tid, a)
    requires s.pc[tid] in {Collect, Idle, Loop, Woken, Pop} && Own(tid, Resume(a)) == Own(tid, s.pc[tid])
    ensures OwnInv(c, Gathered(c, Rouse(s, wake, who), tid, a))
  {
    hide OwnInv;
    RouseOwn(c, s, wake, who);
    RousePcs(s, wake, who);
    GatheredOwn(c, Rouse(s, wake, who), tid, a);
  }

  lemma RecheckOwn(c: Settings, s: State, t: Task, stopWins: bool, who: Tid)
    requires OwnInv(c, s) && Enabled(c, s, Recheck(t, stopWins, who))
    ensures OwnInv(c, DoRecheck(c, s, t, stopWins, who))
  {
    hide OwnInv;
    var s1 := StopTimer(s, t, stopWins);
    SameBook(c, s, s1);
    match LoopVerdict(c, s.q, s.closed, t in s.fired, s.now) {
      case TakeDead => GatherOwn(c, s, All, who, Sub(t), ToLoop);
      case Doze => ShiftOwn(c, s, Sub(t), Asleep);
      case Leave(Accepted) => AcceptOwn(c, s1, t, who);
      case Leave(_) => ShiftOwn(c, s1, Sub(t), Answer(Deadline, 0));
    }
  }

  lemma EnterOwn(c: Settings, s: State, t: Task, who: Tid)
    requires OwnInv(c, s) && Enabled(c, s, TryEnter(t, who))
    ensures OwnInv(c, DoEnter(c, s, t, who))
  {
    hide OwnInv;
    match EnterVerdict(c, s.q, s.closed) {
      case Refused => ShiftOwn(c, s, Sub(t), Answer(Deadline, 0));
      case Accepted => AcceptOwn(c, s, t, who);
      case MustWait => ShiftOwn(c, s, Sub(t), Arm);
      case Shed => ShiftOwn(c, s, Sub(t), Answer(QueueLimit, 0));
    }
  }

  lemma CheckOwn(c: Settings, s: State, t: Task, drift: nat)
    requires OwnInv(c, s) && Enabled(c, s, Check(t, drift))
    ensures OwnInv(c, DoCheck(c, s, t, drift))
  {
    hide OwnInv;
    var s1 := s.(now := s.now + drift);
    SameBook(c, s, s1);
    if Expired(c, t, s.now) { ShiftOwn(c, s1, Sub(t), Answer(Deadline, LeftAt(c, t, s.now + drift))); }
    else { ShiftOwn(c, s, Sub(t), Collect); }
  }

  lemma ArmOwn(c: Settings, s: State, t: Task)
    requires OwnInv(c, s) && Enabled(c, s, ArmTimer(t))
    ensures OwnInv(c, DoArm(c, s, t))
  {
    hide OwnInv;
    var left := LeftAt(c, t, s.now);
    var s1 := s.(timers := s.timers[t := s.now + left]);
    SameBook(c, s, s1);
    if left < c.minBudget { ShiftOwn(c, s, Sub(t), Answer(Deadline, left)); }
    else { ShiftOwn(c, s1, Sub(t), Loop); }
  }

  lemma RunOwn(c: Settings, s: State, w: nat)
    requires OwnInv(c, s) && Enabled(c, s, RunTask(w))
    ensures OwnInv(c, DoRun(c, s, w))
  {
    var t := s.pc[Wk(w)].task;
    var left := LeftAt(c, t, s.now);
    CalledOwn(c, s, Wk(w), Call(t, left, if left < c.minBudget then Deadline else Ran, s.now), Pop);
  }

  /** A change of flags and timers, then a broadcast. */
  lemma FlagOwn(c: Settings, s: State, s1: State)
    requires OwnInv(c, s) && s1.pc == s.pc && s1.loc == s.loc && s1.q == s.q && s1.log == s.log
    ensures OwnInv(c, Rouse(s1, All, Sweeper))
  {
    hide OwnInv;
    SameBook(c, s, s1);
    RouseOwn(c, s1, All, Sweeper);
  }

  /** Answering the first task of a batch takes it out of the hand and nothing else. */
  lemma BatchHead(tid: Tid, p: Pc)
    requires p.Reply? && p.batch != [] && WfPc(tid, p)
    ensures var p' := Replying(p.batch[1..], p.after); Own(tid, p) == [p.batch[0]] + Own(tid, p') && WfPc(tid, p')
  {
    assert p.batch == [p.batch[0]] + p.batch[1..];
  }

  lemma ReplyOneOwn(c: Settings, s: State, tid: Tid)
    requires OwnInv(c, s) && Enabled(c, s, ReplyOne(tid))
    ensures OwnInv(c, DoReplyOne(s, tid))
  {
    var p := s.pc[tid];
    var p' := Replying(p.batch[1..], p.after);
    assert WfPc(tid, p);
    hide OwnInv;
    BatchHead(tid, p);
    hide Own, WfPc;
    CalledOwn(c, s, tid, Call(p.batch[0], 0, Deadline, s.now), p');
  }

  lemma StepOwn(c: Settings, s: State, step: Step)
    requires OwnInv(c, s) && Enabled(c, s, step)
    ensures OwnInv(c, Do(c, s, step))
  {
    hide OwnInv, DoCheck, DoReplyOne, DoEnter, DoArm, DoRecheck, DoPop, DoRun;
    match step {
      case Submit(t) => SubmitOwn(c, s, t);
      case Check(t, drift) => CheckOwn(c, s, t, drift);
      case Gather(tid) =>
        GatherOwn(c, s, if Dead(c, s.q, s.now) != [] then All else Nobody, tid,
                  tid, if tid.Sweeper? then ToIdle else ToEnter);
      case ReplyOne(tid) => ReplyOneOwn(c, s, tid);
      case TryEnter(t, who) => EnterOwn(c, s, t, who);
      case ArmTimer(t) => ArmOwn(c, s, t);
      case Recheck(t, stopWins, who) => RecheckOwn(c, s, t, stopWins, who);
      case Refuse(t) =>
        CalledOwn(c, s, Sub(t), Call(t, s.pc[Sub(t)].left, s.pc[Sub(t)].reason, s.now), Done);
      case TryPop(w) => PopOwn(c, s, w);
      case RunTask(w) => RunOwn(c, s, w);
      case FireTimer(t) => FlagOwn(c, s, s.(timers := s.timers - {t}, fired := s.fired + {t}));
      case CloseLock => FlagOwn(c, s, s.(closed := true));
      case SweeperExit => ShiftOwn(c, s, Sweeper, Done);
      case _ => SameBook(c, s, Do(c, s, step));
    }
  }
}
