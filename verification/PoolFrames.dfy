/** What the steps of the pool leave alone, for steps that do not touch the queue. */
module PoolFrames {
  import opened PoolQueue
  import opened PoolMachine
  import opened PoolOwnership

  /** The queue and its history are the same, the clock has not gone back, and a closed pool is
      still closed. */
  ghost predicate QueueKept(s: State, s': State) {
    && s'.q == s.q && s'.popped == s.popped && s'.taken == s.taken && s'.order == s.order
    && s'.accepted == s.accepted && s.now <= s'.now && (s.closed ==> s'.closed)
  }

  /** No handler was called either. */
  ghost predicate BooksKept(s: State, s': State) {
    QueueKept(s, s') && s'.log == s.log && s'.expired == s.expired && s'.shed == s.shed
  }

  predicate Calls(step: Step) { step.ReplyOne? || step.Refuse? || step.RunTask? }

  predicate Moves(step: Step) {
    step.Tick? || step.Submit? || step.Check? || step.ArmTimer? || step.SweeperExit?
  }

  predicate Flags(step: Step) { step.FireTimer? || step.CloseStop? || step.CloseLock? || step.CloseReturn? }

  lemma CallsKeep(c: Settings, s: State, step: Step)
    requires Enabled(c, s, step) && Calls(step)
    ensures QueueKept(s, Do(c, s, step))
  {
    match step
    case ReplyOne(tid) => ReplyKeeps(c, s, tid);
    case Refuse(t) => RefuseKeeps(c, s, t);
    case RunTask(w) => RunKeeps(c, s, w);
  }

  lemma ReplyKeeps(c: Settings, s: State, tid: Tid)
    requires Enabled(c, s, ReplyOne(tid))
    ensures QueueKept(s, Do(c, s, ReplyOne(tid)))
  {
    hide Replying;
  }

  lemma RefuseKeeps(c: Settings, s: State, t: Task)
    requires Enabled(c, s, Refuse(t))
    ensures QueueKept(s, Do(c, s, Refuse(t)))
  {}

  lemma RunKeeps(c: Settings, s: State, w: nat)
    requires Enabled(c, s, RunTask(w))
    ensures QueueKept(s, Do(c, s, RunTask(w)))
  {}

  lemma MovesKeep(c: Settings, s: State, step: Step)
    requires Enabled(c, s, step) && Moves(step)
    ensures BooksKept(s, Do(c, s, step))
  {
    match step
    case Tick(_) =>
    case Submit(_) =>
    case Check(t, drift) => CheckKeeps(c, s, t, drift);
    case ArmTimer(t) => ArmKeeps(c, s, t);
    case SweeperExit =>
  }

  lemma CheckKeeps(c: Settings, s: State, t: Task, drift: nat)
    ensures BooksKept(s, DoCheck(c, s, t, drift))
  {
    var s' := DoCheck(c, s, t, drift);
    hide LeftAt;
    if Expired(c, t, s.now) {
      assert s' == s.(now := s'.now, pc := s'.pc);
    } else {
      assert s' == s.(pc := s'.pc);
    }
    hide DoCheck;
  }

  lemma ArmKeeps(c: Settings, s: State, t: Task)
    ensures BooksKept(s, DoArm(c, s, t))
  {
    var s' := DoArm(c, s, t);
    hide LeftAt;
    if LeftAt(c, t, s.now) < c.minBudget {
      assert s' == s.(pc := s'.pc);
    } else {
      assert s' == s.(pc := s'.pc, timers := s'.timers);
    }
    hide DoArm;
  }

  lemma FlagsKeep(c: Settings, s: State, step: Step)
    requires Enabled(c, s, step) && Flags(step)
    ensures BooksKept(s, Do(c, s, step))
  {
    match step
    case FireTimer(t) => RousePcs(s.(timers := s.timers - {t}, fired := s.fired + {t}), All, Sweeper);
    case CloseStop =>
    case CloseLock => RousePcs(s.(closed := true), All, Sweeper);
    case CloseReturn =>
  }
}
