/** What holds in every state that any run of the pool can reach. */
module PoolTheorems {
  import opened Seqs
  import opened Books
  import opened PoolQueue
  import opened PoolMachine
  import opened PoolOwnership
  import opened PoolSleep
  import opened PoolLedger

  ghost predicate Inv(c: Settings, s: State) {
    OwnInv(c, s) && Timing(c, s) && SleepInv(c, s) && Ledger(s) && Honest(c, s)
  }

  lemma StepInv(c: Settings, s: State, step: Step)
    requires Inv(c, s) && Enabled(c, s, step)
    ensures Inv(c, Do(c, s, step))
  {
    assert Typed(c, s);
    hide OwnInv, Typed, Timing, SleepInv, Ledger, Honest, Do, Enabled;
    StepOwn(c, s, step);
    StepTiming(c, s, step);
    StepSleep(c, s, step);
    StepLedger(c, s, step);
    StepHonest(c, s, step);
  }

  /** The invariant holds after every run. */
  lemma {:induction false} Reached(c: Settings, start: int, run: seq<Step>)
    requires Legal(c, start, run)
    ensures Inv(c, At(c, start, run))
    decreases |run|
  {
    hide OwnInv, Timing, SleepInv, Ledger, Honest, Do, Enabled, Init;
    if |run| == 0 {
      InitOwn(c, start);
      InitSleep(c, start);
      InitLedger(c, start);
    } else {
      Reached(c, start, run[..|run| - 1]);
      hide Inv;
      StepInv(c, At(c, start, run[..|run| - 1]), run[|run| - 1]);
    }
  }

  // ---- exactly once ----

  /** Task `t` really is at `place`. */
  ghost predicate Here(s: State, t: Task, place: Spot<Tid>) {
    match place
    case InQueue => t in s.q
    case Held(tid) => tid in s.pc && t in Own(tid, s.pc[tid])
    case Finished => exists i :: 0 <= i < |s.log| && s.log[i].task == t
  }

  lemma HereIsLoc(c: Settings, s: State, t: Task, place: Spot<Tid>)
    requires OwnInv(c, s)
    ensures Here(s, t, place) <==> t in s.loc && s.loc[t] == place
  {
    var b := BookOf(s);
    if t in s.loc { assert Justified(b, t); }
    match place {
      case InQueue =>
      case Held(tid) => if tid in s.pc { assert b.hands[tid] == Own(tid, s.pc[tid]); }
      case Finished =>
        if i :| 0 <= i < |s.log| && s.log[i].task == t { assert b.done[i] == t; }
        if t in b.done { var i :| 0 <= i < |b.done| && b.done[i] == t; assert s.log[i].task == t; }
    }
  }

  /** In every interleaving a submitted task is in exactly one place: the queue, the hands of
      one thread, or answered; and it is never held or answered twice. */
  lemma ExactlyOnePlace(c: Settings, start: int, run: seq<Step>, t: Task)
    requires Legal(c, start, run) && Sub(t) in At(c, start, run).pc
    ensures var s := At(c, start, run);
      exists place :: Here(s, t, place) && forall other :: Here(s, t, other) ==> other == place
    ensures var s := At(c, start, run);
      && NoDup(s.q)
      && (forall tid :: tid in s.pc ==> NoDup(Own(tid, s.pc[tid])))
      && (forall i, j :: 0 <= i < j < |s.log| ==> s.log[i].task != s.log[j].task)
  {
    Reached(c, start, run);
    var s := At(c, start, run);
    hide OwnInv, Timing, SleepInv, Ledger, Honest, At, Legal, Here, Own, NoDup;
    OnePlace(c, s, t);
    OnceEach(c, s);
  }

  lemma OnePlace(c: Settings, s: State, t: Task)
    requires OwnInv(c, s) && Sub(t) in s.pc
    ensures exists place :: Here(s, t, place) && forall other :: Here(s, t, other) ==> other == place
  {
    assert t in s.loc;
    hide OwnInv, Here;
    forall place ensures Here(s, t, place) <==> t in s.loc && s.loc[t] == place { HereIsLoc(c, s, t, place); }
    assert Here(s, t, s.loc[t]);
  }

  lemma OnceEach(c: Settings, s: State)
    requires OwnInv(c, s)
    ensures NoDup(s.q)
    ensures forall tid :: tid in s.pc ==> NoDup(Own(tid, s.pc[tid]))
    ensures forall i, j :: 0 <= i < j < |s.log| ==> s.log[i].task != s.log[j].task
  {
    var b := BookOf(s);
    forall tid | tid in s.pc ensures NoDup(Own(tid, s.pc[tid])) { assert b.hands[tid] == Own(tid, s.pc[tid]); }
    forall i, j | 0 <= i < j < |s.log| ensures s.log[i].task != s.log[j].task { assert b.done[i] != b.done[j]; }
  }

  // ---- no wakeup is lost ----

  /** No thread can take a step of its own. */
  ghost predicate Quiet(s: State) {
    forall tid :: tid in s.pc ==> s.pc[tid] == Asleep || s.pc[tid] == Done || (tid.Sweeper? && s.pc[tid] == Idle)
  }

  /** The tasks of all Submit calls so far. */
  ghost function Submitted(s: State): set<Task> {
    set tid | tid in s.pc && tid.Sub? :: tid.task
  }

  lemma QuietQueueIsEmpty(c: Settings, s: State)
    requires Typed(c, s) && SleepInv(c, s) && c.workers != {} && Quiet(s)
    ensures s.q == []
    ensures forall t :: Sub(t) in s.pc ==> s.pc[Sub(t)] == Done
  {
    var w :| w in c.workers;
    assert Wk(w) in s.pc;
    if s.pc[Wk(w)] == Asleep {
      assert Wk(w) in WorkersAt(s, Asleep);
      assert WorkersAt(s, Woken) == {};
    }
  }

  lemma {:induction false} CountSplits(log: seq<Call>)
    ensures |log| == Count(log, Ran) + Count(log, Deadline) + Count(log, QueueLimit)
  {
    if |log| > 0 { CountSplits(log[..|log| - 1]); }
  }

  /** When nothing moves any more, every submitted task has been answered, exactly once, and
      the counters add up. A queued task is never left behind by a sleeping worker, nor a
      blocked submitter by a lost wakeup. */
  lemma QuietMeansAnswered(c: Settings, start: int, run: seq<Step>)
    requires Legal(c, start, run) && c.workers != {} && Quiet(At(c, start, run))
    ensures var s := At(c, start, run);
      && s.q == []
      && (forall t :: Sub(t) in s.pc ==> Here(s, t, Finished))
      && |s.log| == |Submitted(s)|
      && |s.log| == Count(s.log, Ran) + s.shed + s.expired
  {
    Reached(c, start, run);
    var s := At(c, start, run);
    QuietQueueIsEmpty(c, s);
    AllFinished(c, s);
    CountSplits(s.log);
  }

  lemma AllFinished(c: Settings, s: State)
    requires OwnInv(c, s) && s.q == [] && Quiet(s)
    requires forall t :: Sub(t) in s.pc ==> s.pc[Sub(t)] == Done
    ensures forall t :: Sub(t) in s.pc ==> Here(s, t, Finished)
    ensures |s.log| == |Submitted(s)|
  {
    var b := BookOf(s);
    forall t | t in s.loc ensures s.loc[t] == Finished {
      assert Justified(b, t);
    }
    forall t | Sub(t) in s.pc ensures Here(s, t, Finished) { HereIsLoc(c, s, t, Finished); }
    forall t ensures t in b.done <==> t in Submitted(s) {
      assert t in Submitted(s) <==> Sub(t) in s.pc;
      if t in s.loc { assert Justified(b, t); }
    }
    NoDupCard(b.done, Submitted(s));
    assert |b.done| == |s.log|;
  }

  /** While tasks are queued some worker is on its way to them; a submitter sleeps only on a
      full queue of an open pool, with its timer set for the end of its budget; so the signal
      of an enqueue, which needs room, can only wake a worker. */
  lemma NoLostWakeup(c: Settings, start: int, run: seq<Step>)
    requires Legal(c, start, run)
    ensures var s := At(c, start, run);
      s.q != [] && c.workers != {} ==>
        exists w :: Wk(w) in s.pc && s.pc[Wk(w)] != Asleep && !Exiting(s.pc[Wk(w)])
    ensures var s := At(c, start, run);
      forall t :: Sub(t) in s.pc && s.pc[Sub(t)] == Asleep ==>
        |s.q| == Cap(c) && !s.closed && t !in s.fired && t in s.timers && s.timers[t] == TimeUp(c, t)
    ensures var s := At(c, start, run);
      |s.q| < Cap(c) ==> forall tid :: tid in s.pc && s.pc[tid] == Asleep ==> tid.Wk?
    ensures var s := At(c, start, run);
      WorkersAt(s, Asleep) != {} ==> |s.q| <= |WorkersAt(s, Woken)|
  {
    Reached(c, start, run);
    var s := At(c, start, run);
    assert Typed(c, s);
    forall tid | tid in s.pc && s.pc[tid] == Asleep && |s.q| < Cap(c) ensures tid.Wk? { assert WfPc(tid, Asleep); }
    if s.q != [] && c.workers != {} { SomeoneComes(c, s); }
  }

  lemma SomeoneComes(c: Settings, s: State)
    requires Typed(c, s) && SleepInv(c, s) && s.q != [] && c.workers != {}
    ensures exists w :: Wk(w) in s.pc && s.pc[Wk(w)] != Asleep && !Exiting(s.pc[Wk(w)])
  {
    if WorkersAt(s, Asleep) == {} {
      var w :| w in c.workers;
      assert Wk(w) in s.pc;
      assert Wk(w) !in WorkersAt(s, Asleep);
    } else {
      assert WorkersAt(s, Woken) != {};
      var tid :| tid in WorkersAt(s, Woken);
      assert Wk(tid.w) in s.pc;
    }
  }

  // ---- counters, order, reasons ----

  /** The counters agree with what happened, and the queue never outgrows the pool. */
  lemma CountersAgree(c: Settings, start: int, run: seq<Step>)
    requires Legal(c, start, run)
    ensures var s := At(c, start, run);
      && |s.q| <= Cap(c)
      && s.accepted == |s.popped| + |s.taken| + |s.q|
      && multiset(s.order) == multiset(s.popped) + multiset(s.taken) + multiset(s.q)
      && s.expired == Count(s.log, Deadline)
      && s.shed == Count(s.log, QueueLimit)
      && (c.wait ==> s.shed == 0)
  {
    Reached(c, start, run);
    var s := At(c, start, run);
    assert |multiset(s.order)| == |s.order|;
    if c.wait { NoLimitInWait(c, s, s.log); }
  }

  lemma {:induction false} NoLimitInWait(c: Settings, s: State, log: seq<Call>)
    requires c.wait && forall i :: 0 <= i < |log| ==> GoodCall(c, s, log[i])
    ensures Count(log, QueueLimit) == 0
  {
    if |log| > 0 {
      assert GoodCall(c, s, log[|log| - 1]);
      NoLimitInWait(c, s, log[..|log| - 1]);
    }
  }

  /** Workers take tasks in the order in which the pool accepted them. */
  lemma ServedInOrder(c: Settings, start: int, run: seq<Step>)
    requires Legal(c, start, run)
    ensures IsSubseq(At(c, start, run).popped, At(c, start, run).order)
  {
    Reached(c, start, run);
    var s := At(c, start, run);
    SubseqEmpty(s.q);
    SubseqPrefix(s.popped, [], s.q);
    assert s.popped + [] == s.popped;
    SubseqTrans(s.popped, s.popped + s.q, s.order);
  }

  /** A worker that pops gets the first live task of the queue; all expired ones leave the queue for
      its batch, and the live ones behind the first stay in order. */
  lemma PopTakesFirstLive(c: Settings, start: int, run: seq<Step>, w: nat) returns (k: nat)
    requires Legal(c, start, run + [TryPop(w)])
    ensures var s, s' := At(c, start, run), At(c, start, run + [TryPop(w)]);
      && s'.taken == s.taken + Dead(c, s.q, s.now)
      && if |s'.popped| == |s.popped| + 1 then
           && k < |s.q| && s'.popped == s.popped + [s.q[k]] && !Expired(c, s.q[k], s.now)
           && (forall i :: 0 <= i < k ==> Expired(c, s.q[i], s.now))
           && s'.q == Live(c, s.q[k + 1..], s.now)
         else
           && s'.popped == s.popped
           && (forall i :: 0 <= i < |s.q| ==> Expired(c, s.q[i], s.now))
           && s'.q == []
  {
    var all := run + [TryPop(w)];
    assert all[..|all| - 1] == run;
    var s := At(c, start, run);
    assert At(c, start, all) == DoPop(c, s, w);
    PopFacts(c, s, w);
    Partition(c, s.q, s.now);
    if Live(c, s.q, s.now) != [] {
      k := HeadIsFirstLive(c, s.q, s.now);
      LiveAfterHead(c, s.q, k, s.now);
    } else {
      forall i | 0 <= i < |s.q| ensures Expired(c, s.q[i], s.now) { assert s.q[i] in s.q; }
      k := 0;
    }
  }

  lemma PopFacts(c: Settings, s: State, w: nat)
    requires Enabled(c, s, TryPop(w))
    ensures Live(c, s.q, s.now) != [] ==> DoPop(c, s, w).popped == s.popped + [Live(c, s.q, s.now)[0]]
    ensures Live(c, s.q, s.now) == [] ==> DoPop(c, s, w).popped == s.popped
    ensures DoPop(c, s, w).q == PopQueue(c, s.q, s.now) && DoPop(c, s, w).taken == s.taken + Dead(c, s.q, s.now)
  {
    RousePcs(s, PopWake(c, s.q, s.now), Sweeper);
    if PopVerdict(c, s.q, s.closed, s.now) == Sleep { NoDeadIsLive(c, s.q, s.now); }
    hide Rouse, Live, Dead;
  }

  /** What is left behind the first live task. */
  lemma {:induction false} LiveAfterHead(c: Settings, q: seq<Task>, k: nat, now: int)
    requires k < |q| && !Expired(c, q[k], now) && forall i :: 0 <= i < k ==> Expired(c, q[i], now)
    ensures Live(c, q, now) == [q[k]] + Live(c, q[k + 1..], now)
    decreases |q|
  {
    var init, t := q[..|q| - 1], q[|q| - 1];
    assert q == init + [t];
    LiveSnoc(c, init, t, now);
    if k == |init| {
      NoneLive(c, init, now);
      assert q[k + 1..] == [] && Live(c, [], now) == [];
    } else {
      LiveAfterHead(c, init, k, now);
      LiveSnoc(c, init[k + 1..], t, now);
      hide Live, Expired;
      assert q[k + 1..] == init[k + 1..] + [t];
    }
  }

  lemma {:induction false} NoneLive(c: Settings, q: seq<Task>, now: int)
    requires forall i :: 0 <= i < |q| ==> Expired(c, q[i], now)
    ensures Live(c, q, now) == []
  {
    if q != [] { NoneLive(c, q[..|q| - 1], now); }
  }
}
