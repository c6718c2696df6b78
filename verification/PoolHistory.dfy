/** What happens to the queue over a run of the pool, and what it would be without sweeping. */
module PoolHistory {
  import opened PoolQueue
  import opened PoolMachine
  import opened PoolOwnership
  import opened PoolFrames

  /** What a step does to the queue, if anything. */
  function EventOf(c: Settings, s: State, step: Step): seq<Event> {
    match step
    case Gather(_) => [Sweep(s.now)]
    case TryPop(_) => [Take(s.now)]
    case TryEnter(t, _) => if EnterVerdict(c, s.q, s.closed) == Accepted then [Enqueue(t)] else []
    case Recheck(t, _, _) =>
      (match LoopVerdict(c, s.q, s.closed, t in s.fired, s.now)
       case TakeDead => [Sweep(s.now)]
       case Leave(Accepted) => [Enqueue(t)]
       case _ => [])
    case _ => []
  }

  /** The enqueues, sweeps and takes of a run, in order. */
  function History(c: Settings, start: int, run: seq<Step>): seq<Event>
    requires Legal(c, start, run)
  {
    if |run| == 0 then []
    else
      var init := run[..|run| - 1];
      History(c, start, init) + EventOf(c, At(c, start, init), run[|run| - 1])
  }

  lemma {:induction false} PlaySnoc(c: Settings, es: seq<Event>, e: Event, o: Outcome)
    ensures Play(c, es + [e], o) == PlayOne(c, e, Play(c, es, o))
    decreases |es|
  {
    hide PlayOne;
    if |es| > 0 {
      PlaySnoc(c, es[1..], e, PlayOne(c, es[0], o));
      assert (es + [e])[1..] == es[1..] + [e];
    }
  }

  lemma PopPlays(c: Settings, s: State, w: nat)
    requires Enabled(c, s, TryPop(w))
    ensures var s' := DoPop(c, s, w);
      s'.now == s.now && Outcome(s'.q, s'.popped) == PlayOne(c, Take(s.now), Outcome(s.q, s.popped))
  {
    RousePcs(s, PopWake(c, s.q, s.now), Sweeper);
    if PopVerdict(c, s.q, s.closed, s.now) == Sleep { NoDeadIsLive(c, s.q, s.now); }
    hide Rouse, Live, Dead;
  }

  lemma RecheckPlays(c: Settings, s: State, t: Task, stopWins: bool, who: Tid)
    requires Enabled(c, s, Recheck(t, stopWins, who))
    ensures var s' := DoRecheck(c, s, t, stopWins, who); var es := EventOf(c, s, Recheck(t, stopWins, who));
      && |es| <= 1 && s'.now == s.now
      && Outcome(s'.q, s'.popped) ==
         if es == [] then Outcome(s.q, s.popped) else PlayOne(c, es[0], Outcome(s.q, s.popped))
  {
    var s', stopped := DoRecheck(c, s, t, stopWins, who), StopTimer(s, t, stopWins);
    assert stopped == s.(timers := stopped.timers);
    hide StopTimer, Live, Dead;
    match LoopVerdict(c, s.q, s.closed, t in s.fired, s.now) {
      case TakeDead =>
        RousePcs(s, All, who);
        hide Rouse;
      case Doze =>
        assert s' == Shift(s, Sub(t), Asleep);
      case Leave(end) =>
        if end == Accepted {
          RousePcs(stopped, One, who);
          hide Rouse;
        } else {
          assert s' == Shift(stopped, Sub(t), Answer(Deadline, 0));
        }
    }
  }

  /** A step does to the queue what its event says, and the clock never goes back. */
  lemma StepPlays(c: Settings, s: State, step: Step)
    requires Enabled(c, s, step)
    ensures var s' := Do(c, s, step); var es := EventOf(c, s, step);
      && |es| <= 1 && s.now <= s'.now
      && Outcome(s'.q, s'.popped) ==
         if es == [] then Outcome(s.q, s.popped) else PlayOne(c, es[0], Outcome(s.q, s.popped))
  {
    hide DoPop, DoRecheck, DoGather, DoEnter, Live, Dead, Rouse;
    match step {
      case TryPop(w) => PopPlays(c, s, w);
      case Recheck(t, stopWins, who) => RecheckPlays(c, s, t, stopWins, who);
      case Gather(tid) => GatherPlays(c, s, tid);
      case TryEnter(t, who) => EnterPlays(c, s, t, who);
      case _ => QuietStep(c, s, step);
    }
  }

  lemma GatherPlays(c: Settings, s: State, tid: Tid)
    ensures var s' := DoGather(c, s, tid);
      s'.now == s.now && Outcome(s'.q, s'.popped) == PlayOne(c, Sweep(s.now), Outcome(s.q, s.popped))
  {
    RousePcs(s, if Dead(c, s.q, s.now) != [] then All else Nobody, tid);
    hide Rouse, Live, Dead;
  }

  lemma EnterPlays(c: Settings, s: State, t: Task, who: Tid)
    ensures var s' := DoEnter(c, s, t, who);
      && s'.now == s.now && s'.popped == s.popped
      && s'.q == if EnterVerdict(c, s.q, s.closed) == Accepted then s.q + [t] else s.q
  {
    RousePcs(s, One, who);
    hide Rouse;
  }

  lemma QuietStep(c: Settings, s: State, step: Step)
    requires Enabled(c, s, step)
    requires Calls(step) || Moves(step) || Flags(step)
    ensures var s' := Do(c, s, step);
      s'.q == s.q && s'.popped == s.popped && s.now <= s'.now && EventOf(c, s, step) == []
  {
    if Calls(step) { CallsKeep(c, s, step); }
    if Moves(step) { MovesKeep(c, s, step); }
    if Flags(step) { FlagsKeep(c, s, step); }
    hide Do, Enabled;
  }

  lemma {:induction false} ChronologicalSnoc(es: seq<Event>, e: Event, from: int, end: int)
    requires Chronological(es, from) && EndsBy(es, end) && from <= end && (e.Enqueue? || end <= e.at)
    ensures Chronological(es + [e], from)
    decreases |es|
  {
    if |es| > 0 {
      ChronologicalSnoc(es[1..], e, Moment(es[0], from), end);
      assert (es + [e])[1..] == es[1..] + [e];
    }
  }

  /** The queue of a run and the tasks its workers took are what its history leaves behind. */
  lemma {:induction false} RunPlays(c: Settings, start: int, run: seq<Step>)
    requires Legal(c, start, run)
    ensures var s, es := At(c, start, run), History(c, start, run);
      && Play(c, es, Outcome([], [])) == Outcome(s.q, s.popped)
      && Chronological(es, start) && EndsBy(es, s.now) && start <= s.now
    decreases |run|
  {
    if |run| > 0 {
      var init, step := run[..|run| - 1], run[|run| - 1];
      RunPlays(c, start, init);
      var s, es := At(c, start, init), History(c, start, init);
      StepPlays(c, s, step);
      var e := EventOf(c, s, step);
      EventIsNow(c, s, step);
      hide Play, PlayOne, Do, EventOf, Enabled;
      if e == [] {
        assert es + e == es;
      } else {
        assert es + e == es + [e[0]];
        PlaySnoc(c, es, e[0], Outcome([], []));
        ChronologicalSnoc(es, e[0], start, s.now);
      }
    }
  }

  lemma EventIsNow(c: Settings, s: State, step: Step)
    ensures forall e :: e in EventOf(c, s, step) ==> e.Enqueue? || e.at == s.now
  {}

  /** Over every run of the pool: with the same acceptances and pops but no sweeping at all, the
      workers would have taken the same tasks in the same order, and the queue would hold the
      same live work from now on. */
  lemma RunSweepsAreInvisible(c: Settings, start: int, run: seq<Step>)
    requires Legal(c, start, run)
    ensures var s := At(c, start, run);
      var unswept := Play(c, WithoutSweeps(History(c, start, run)), Outcome([], []));
      unswept.got == s.popped && SameFrom(c, s.q, unswept.q, s.now)
  {
    RunPlays(c, start, run);
    SweepsAreInvisible(c, History(c, start, run), Outcome([], []), Outcome([], []), start, At(c, start, run).now);
  }
}
