/** The steps of the machine are the critical sections of the pool object: the same outcome, the
    same queue and the same effect on the sleepers as the contracts of the object say, and nothing
    else is touched. */
module PoolSections {
  import opened PoolQueue
  import opened PoolMachine
  import opened PoolOwnership

  /** What a wake-up makes of a thread. */
  function WokenPc(tid: Tid, p: Pc, wake: Wake, who: Tid): Pc {
    if p == Asleep && (wake == All || (wake == One && tid == who)) then Woken else p
  }

  /** Thread `me` goes to `p`; of the others exactly the woken ones move. */
  ghost predicate Stirred(s: State, s': State, me: Tid, p: Pc, wake: Wake, who: Tid) {
    && s'.pc.Keys == s.pc.Keys
    && (forall tid :: tid in s.pc ==> s'.pc[tid] == if tid == me then p else WokenPc(tid, s.pc[tid], wake, who))
  }

  /** Nothing that other sections look after has changed. */
  ghost predicate RestKept(s: State, s': State) {
    && s'.now == s.now && s'.stopped == s.stopped && s'.returned == s.returned && s'.fired == s.fired
    && s'.log == s.log && s'.shed == s.shed && s'.expired == s.expired
  }

  lemma RouseStirs(s: State, wake: Wake, who: Tid, me: Tid, p: Pc)
    requires me in s.pc
    ensures Stirred(s, Shift(Rouse(s, wake, who), me, p), me, p, wake, who)
    ensures Rouse(s, wake, who) == s.(pc := Rouse(s, wake, who).pc)
  {
    RouseIsWoken(s, wake, who);
    hide Rouse, WokenPc;
    var r := Rouse(s, wake, who);
    assert r.pc[me := p].Keys == s.pc.Keys;
  }

  lemma RouseIsWoken(s: State, wake: Wake, who: Tid)
    ensures var r := Rouse(s, wake, who);
      && r == s.(pc := r.pc) && r.pc.Keys == s.pc.Keys
      && forall tid :: tid in s.pc ==> r.pc[tid] == WokenPc(tid, s.pc[tid], wake, who)
  {
    var r := Rouse(s, wake, who);
    match wake {
      case Nobody => assert r == s;
      case One =>
        if who in s.pc && s.pc[who] == Asleep {
          assert r == s.(pc := s.pc[who := Woken]) && r.pc.Keys == s.pc.Keys;
        } else {
          assert r == s;
        }
      case All => RouseAllPcs(s, who);
    }
    hide Rouse;
  }

  /** A section of thread `me` that ends at `p` and wakes by `wake`. */
  ghost predicate Section(s: State, s': State, me: Tid, p: Pc, wake: Wake, who: Tid) {
    Stirred(s, s', me, p, wake, who) && RestKept(s, s') && s'.closed == s.closed
  }

  lemma ShiftSection(s: State, wake: Wake, who: Tid, me: Tid, p: Pc)
    requires me in s.pc
    ensures var s' := Shift(Rouse(s, wake, who), me, p);
      && Section(s, s', me, p, wake, who)
      && s'.q == s.q && s'.accepted == s.accepted && s'.timers == s.timers
  {
    RouseStirs(s, wake, who, me, p);
    hide Rouse, Stirred;
  }

  lemma GatheredSection(c: Settings, s: State, wake: Wake, who: Tid, me: Tid, a: After)
    requires me in s.pc
    ensures var s' := Gathered(c, Rouse(s, wake, who), me, a);
      && Section(s, s', me, Replying(Dead(c, s.q, s.now), a), wake, who)
      && s'.q == Live(c, s.q, s.now) && s'.accepted == s.accepted && s'.timers == s.timers
  {
    RouseStirs(s, wake, who, me, Replying(Dead(c, s.q, s.now), a));
    hide Rouse, Live, Dead, Replying;
  }

  lemma EnqueuedSection(s: State, who: Tid, t: Task)
    requires Sub(t) in s.pc
    ensures var s' := Enqueued(Rouse(s, One, who), t);
      && Section(s, s', Sub(t), Done, One, who)
      && s'.q == s.q + [t] && s'.accepted == s.accepted + 1 && s'.timers == s.timers
  {
    RouseStirs(s, One, who, Sub(t), Done);
    hide Rouse;
  }

  lemma PopHeadSection(c: Settings, s: State, wake: Wake, w: nat)
    requires Wk(w) in s.pc && Live(c, s.q, s.now) != []
    ensures var s', live := PopHead(Gathered(c, Rouse(s, wake, Sweeper), Wk(w), ToPop), w), Live(c, s.q, s.now);
      && Section(s, s', Wk(w), Replying(Dead(c, s.q, s.now), ToRun(live[0])), wake, Sweeper)
      && s'.q == live[1..] && s'.accepted == s.accepted && s'.timers == s.timers
  {
    var live, dead := Live(c, s.q, s.now), Dead(c, s.q, s.now);
    RouseStirs(s, wake, Sweeper, Wk(w), Replying(dead, ToRun(live[0])));
    hide Rouse, Live, Dead;
    var g := Gathered(c, Rouse(s, wake, Sweeper), Wk(w), ToPop);
    assert g.pc[Wk(w)] == Replying(dead, ToPop) && g.q == live;
    PopHeadIs(g, w, dead);
    hide PopHead, Replying;
  }

  /** The worker goes on to its task, after its batch if it has one. */
  lemma PopHeadIs(g: State, w: nat, dead: seq<Task>)
    requires Wk(w) in g.pc && g.q != [] && g.pc[Wk(w)] == Replying(dead, ToPop)
    ensures var s' := PopHead(g, w);
      s' == g.(q := g.q[1..], popped := s'.popped, loc := s'.loc, pc := g.pc[Wk(w) := Replying(dead, ToRun(g.q[0]))])
  {
    if dead == [] {
      assert g.pc[Wk(w)] == Pop;
    } else {
      assert g.pc[Wk(w)] == Reply(dead, ToPop);
    }
  }

  lemma PopStepIsSection(c: Settings, s: State, w: nat)
    requires Enabled(c, s, TryPop(w))
    ensures var s', dead := DoPop(c, s, w), Dead(c, s.q, s.now);
      && s'.q == PopQueue(c, s.q, s.now) && s'.accepted == s.accepted && s'.timers == s.timers
      && Section(s, s', Wk(w),
           (match PopVerdict(c, s.q, s.closed, s.now)
            case Got(t) => Replying(dead, ToRun(t))
            case Exit => Replying(dead, ToExit)
            case Again => Replying(dead, ToPop)
            case Sleep => Asleep),
           PopWake(c, s.q, s.now), Sweeper)
  {
    var wake, tid := PopWake(c, s.q, s.now), Wk(w);
    assert tid in s.pc;
    hide Live, Dead, Section, Gathered, PopHead, Replying, Enabled;
    match PopVerdict(c, s.q, s.closed, s.now) {
      case Got(t) => PopHeadSection(c, s, wake, w);
      case Exit => GatheredSection(c, s, wake, Sweeper, tid, ToExit);
      case Again => GatheredSection(c, s, wake, Sweeper, tid, ToPop);
      case Sleep =>
        NoDeadIsLive(c, s.q, s.now);
        ShiftSection(s, wake, Sweeper, tid, Asleep);
    }
  }

  lemma EnterStepIsSection(c: Settings, s: State, t: Task, who: Tid)
    requires Enabled(c, s, TryEnter(t, who))
    ensures var s', r := DoEnter(c, s, t, who), EnterVerdict(c, s.q, s.closed);
      && s'.q == s.q + (if r == Accepted then [t] else []) && s'.timers == s.timers
      && s'.accepted == s.accepted + (if r == Accepted then 1 else 0)
      && Section(s, s', Sub(t),
           (match r
            case Refused => Answer(Deadline, 0)
            case Accepted => Done
            case MustWait => Arm
            case Shed => Answer(QueueLimit, 0)),
           if r == Accepted then One else Nobody, who)
  {
    match EnterVerdict(c, s.q, s.closed)
    case Refused => ShiftSection(s, Nobody, who, Sub(t), Answer(Deadline, 0));
    case Accepted => EnqueuedSection(s, who, t);
    case MustWait => ShiftSection(s, Nobody, who, Sub(t), Arm);
    case Shed => ShiftSection(s, Nobody, who, Sub(t), Answer(QueueLimit, 0));
  }

  lemma GatherStepIsSection(c: Settings, s: State, tid: Tid)
    requires Enabled(c, s, Gather(tid))
    ensures var s', dead := DoGather(c, s, tid), Dead(c, s.q, s.now);
      && s'.q == Live(c, s.q, s.now) && s'.accepted == s.accepted && s'.timers == s.timers
      && Section(s, s', tid,
           Replying(dead, if tid.Sweeper? then ToIdle else ToEnter), if dead == [] then Nobody else All, tid)
  {
    var wake := if Dead(c, s.q, s.now) != [] then All else Nobody;
    GatheredSection(c, s, wake, tid, tid, if tid.Sweeper? then ToIdle else ToEnter);
    hide Section, Live, Dead, Gathered, Rouse;
  }

  /** The outcome of a section does not depend on the timers. */
  lemma SectionFrom(s1: State, s: State, s': State, me: Tid, p: Pc, wake: Wake, who: Tid)
    requires Section(s1, s', me, p, wake, who) && s1 == s.(timers := s1.timers)
    ensures Section(s, s', me, p, wake, who)
  {}

  lemma RecheckStepIsSection(c: Settings, s: State, t: Task, stopWins: bool, who: Tid)
    requires Enabled(c, s, Recheck(t, stopWins, who))
    ensures var s', r := DoRecheck(c, s, t, stopWins, who), LoopVerdict(c, s.q, s.closed, t in s.fired, s.now);
      && s'.q == (match r case TakeDead => Live(c, s.q, s.now) case Leave(Accepted) => s.q + [t] case _ => s.q)
      && s'.accepted == s.accepted + (if r == Leave(Accepted) then 1 else 0)
      && s'.timers == (if r.Leave? then StopTimer(s, t, stopWins).timers else s.timers)
      && Section(s, s', Sub(t),
           (match r
            case TakeDead => Replying(Dead(c, s.q, s.now), ToLoop)
            case Doze => Asleep
            case Leave(Accepted) => Done
            case Leave(_) => Answer(Deadline, 0)),
           (match r case TakeDead => All case Leave(Accepted) => One case _ => Nobody), who)
  {
    var s', me, stopped := DoRecheck(c, s, t, stopWins, who), Sub(t), StopTimer(s, t, stopWins);
    assert stopped == s.(timers := stopped.timers);
    hide StopTimer, Live, Dead, Section, Gathered, Enqueued;
    match LoopVerdict(c, s.q, s.closed, t in s.fired, s.now) {
      case TakeDead => GatheredSection(c, s, All, who, me, ToLoop);
      case Doze => ShiftSection(s, Nobody, who, me, Asleep);
      case Leave(end) =>
        if end == Accepted {
          assert s' == Enqueued(Rouse(stopped, One, who), t);
          hide DoRecheck, Rouse;
          EnqueuedSection(stopped, who, t);
          SectionFrom(stopped, s, s', me, Done, One, who);
        } else {
          assert s' == Shift(Rouse(stopped, Nobody, who), me, Answer(Deadline, 0));
          hide DoRecheck, Rouse;
          ShiftSection(stopped, Nobody, who, me, Answer(Deadline, 0));
          SectionFrom(stopped, s, s', me, Answer(Deadline, 0), Nobody, who);
        }
    }
  }

  /** The section of Close: everybody is woken and nothing is done but to set the flag. */
  lemma CloseStepIsSection(c: Settings, s: State)
    requires Enabled(c, s, CloseLock)
    ensures var s' := Do(c, s, CloseLock);
      && s'.closed && s'.q == s.q && s'.accepted == s.accepted && s'.timers == s.timers && RestKept(s, s')
      && s'.pc.Keys == s.pc.Keys
      && forall tid :: tid in s.pc ==> s'.pc[tid] == WokenPc(tid, s.pc[tid], All, Sweeper)
  {
    RouseIsWoken(s.(closed := true), All, Sweeper);
    hide Rouse;
  }
}
