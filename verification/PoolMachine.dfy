/** The pool as a step machine. Every critical section is one step of one thread; the clock,
    the submitters' timers and new Submit calls are steps of the environment.  A step value
    carries every choice that scheduling leaves open, so a run is just a sequence of steps. */
module PoolMachine {
  import opened PoolQueue
  import opened Books

  /** A Submit call is the thread of its own task. */
  datatype Tid = Sub(task: Task) | Wk(w: nat) | Sweeper

  /** Where a thread goes once its batch of expired tasks is answered. */
  datatype After = ToEnter | ToLoop | ToPop | ToRun(task: Task) | ToExit | ToIdle

  datatype Reason = Ran | Deadline | QueueLimit

  datatype Pc =
    | Begin                               // Submit: stamped, before the first budget check
    | Collect                             // Submit: before collectExpired
    | Enter                               // Submit: before the second critical section
    | Arm                                 // Submit: queue full in wait mode, timer not yet started
    | Loop                                // Submit: at the head of the wait loop
    | Pop                                 // worker: at the head of the loop in pop
    | Asleep                              // inside cond.Wait
    | Woken                               // signalled, but the condition is not re-checked yet
    | Answer(reason: Reason, left: int)   // Submit: about to answer its own task
    | Hold(task: Task)                    // worker: popped a task
    | Idle                                // sweeper: in select
    | Reply(batch: seq<Task>, after: After)  // expired tasks in hand, still to be answered
    | Done

  /** One handler call. */
  datatype Call = Call(task: Task, left: int, reason: Reason, at: int)

  /** `q`, `closed` and the condition variable are what the mutex guards.  `loc`, `order`,
      `popped` and `taken` are history: no step reads them. */
  datatype State = State(
    now: int,
    q: seq<Task>,
    closed: bool,
    stopped: bool,
    returned: bool,
    pc: map<Tid, Pc>,
    timers: map<Task, int>,
    fired: set<Task>,
    log: seq<Call>,
    accepted: nat,
    shed: nat,
    expired: nat,
    loc: map<Task, Spot<Tid>>,
    order: seq<Task>,
    popped: seq<Task>,
    taken: seq<Task>)

  function Init(c: Settings, now: int): State {
    State(now, [], false, false, false,
          (map w | w in c.workers :: Wk(w) := Pop)[Sweeper := Idle],
          map[], {}, [], 0, 0, 0, map[], [], [], [])
  }

  function Resume(a: After): Pc {
    match a
    case ToEnter => Enter
    case ToLoop => Loop
    case ToPop => Pop
    case ToRun(t) => Hold(t)
    case ToExit => Done
    case ToIdle => Idle
  }

  function Replying(b: seq<Task>, a: After): Pc {
    if b == [] then Resume(a) else Reply(b, a)
  }

  /** The tasks in a thread's hands. */
  function Own(tid: Tid, pc: Pc): seq<Task> {
    var mine := if tid.Sub? && pc != Done then [tid.task] else [];
    match pc
    case Hold(t) => [t]
    case Reply(b, ToRun(t)) => b + [t]
    case Reply(b, _) => b + mine
    case _ => mine
  }

  // ---- building blocks of the steps ----

  /** Broadcast wakes everyone; Signal wakes the sleeper `who`, if there is one. */
  function Rouse(s: State, wake: Wake, who: Tid): State {
    match wake
    case Nobody => s
    case One => if who in s.pc && s.pc[who] == Asleep then s.(pc := s.pc[who := Woken]) else s
    case All => s.(pc := map tid | tid in s.pc :: if s.pc[tid] == Asleep then Woken else s.pc[tid])
  }

  function Shift(s: State, tid: Tid, p: Pc): State {
    s.(pc := s.pc[tid := p])
  }

  /** takeExpiredLocked, the expired tasks ending up in the hands of `tid`. */
  function Gathered(c: Settings, s: State, tid: Tid, a: After): State {
    var dead := Dead(c, s.q, s.now);
    s.(q := Live(c, s.q, s.now),
       taken := s.taken + dead,
       pc := s.pc[tid := Replying(dead, a)],
       loc := Moved(s.loc, dead, Held(tid)))
  }

  /** The head of the queue goes to worker `w`, which may hold expired tasks already. */
  function PopHead(s: State, w: nat): State
    requires s.q != [] && Wk(w) in s.pc
  {
    var t := s.q[0];
    var p := match s.pc[Wk(w)]
      case Reply(b, _) => Reply(b, ToRun(t))
      case _ => Hold(t);
    s.(q := s.q[1..], popped := s.popped + [t], pc := s.pc[Wk(w) := p], loc := s.loc[t := Held(Wk(w))])
  }

  function Enqueued(s: State, t: Task): State {
    s.(q := s.q + [t], accepted := s.accepted + 1, order := s.order + [t],
       pc := s.pc[Sub(t) := Done], loc := s.loc[t := InQueue])
  }

  /** Thread `tid` calls the handler and moves on to `p`. */
  function Called(s: State, tid: Tid, call: Call, p: Pc): State {
    s.(log := s.log + [call],
       expired := if call.reason == Deadline then s.expired + 1 else s.expired,
       shed := if call.reason == QueueLimit then s.shed + 1 else s.shed,
       pc := s.pc[tid := p],
       loc := s.loc[call.task := Finished])
  }

  /** timer.Stop: a timer whose moment has come may already be on its way. */
  function StopTimer(s: State, t: Task, stopWins: bool): State {
    if t in s.timers && (s.now < s.timers[t] || stopWins) then s.(timers := s.timers - {t}) else s
  }

  predicate Resting(p: Pc) { p == Loop || p == Woken }

  predicate AtPop(p: Pc) { p == Pop || p == Woken }

  predicate AllGone(c: Settings, s: State) {
    && (Sweeper in s.pc && s.pc[Sweeper] == Done)
    && (forall w :: w in c.workers ==> Wk(w) in s.pc && s.pc[Wk(w)] == Done)
  }

  /** Signal has someone to wake, or nobody sleeps. */
  predicate SignalFits(s: State, who: Tid) {
    (who in s.pc && s.pc[who] == Asleep) || (forall tid :: tid in s.pc ==> s.pc[tid] != Asleep)
  }

  // ---- the steps ----

  datatype Step =
    | Tick(d: nat)                                   // time passes
    | Submit(t: Task)                                // a new Submit call stamps its task
    | Check(t: Task, drift: nat)                     // its first budget check, which reads the clock twice
    | Gather(tid: Tid)                               // collectExpired, by a submitter or the sweeper
    | ReplyOne(tid: Tid)                             // replyDead answers the next task of a batch
    | TryEnter(t: Task, roused: Tid)                 // the second critical section of Submit
    | ArmTimer(t: Task)                              // the start of submitWaitLocked
    | Recheck(t: Task, stopWins: bool, roused: Tid)  // one pass of the wait loop
    | Refuse(t: Task)                                // Submit answers its own task
    | TryPop(w: nat)                                 // one pass of the loop in pop
    | RunTask(w: nat)                                // budget and the handler call of a worker
    | FireTimer(t: Task)                             // the timer of a blocked submitter
    | CloseStop | CloseLock | CloseReturn            // the three parts of Close
    | SweeperExit

  predicate Enabled(c: Settings, s: State, step: Step) {
    match step
    case Tick(_) => true
    case Submit(t) => Sub(t) !in s.pc && t.enqueued == s.now
    case Check(t, _) => Sub(t) in s.pc && s.pc[Sub(t)] == Begin
    case Gather(tid) => tid in s.pc && ((tid.Sub? && s.pc[tid] == Collect) || (tid.Sweeper? && s.pc[tid] == Idle))
    case ReplyOne(tid) => tid in s.pc && s.pc[tid].Reply? && s.pc[tid].batch != []
    case TryEnter(t, who) => Sub(t) in s.pc && s.pc[Sub(t)] == Enter && SignalFits(s, who)
    case ArmTimer(t) => Sub(t) in s.pc && s.pc[Sub(t)] == Arm
    case Recheck(t, _, who) => Sub(t) in s.pc && Resting(s.pc[Sub(t)]) && SignalFits(s, who)
    case Refuse(t) => Sub(t) in s.pc && s.pc[Sub(t)].Answer?
    case TryPop(w) => Wk(w) in s.pc && AtPop(s.pc[Wk(w)])
    case RunTask(w) => Wk(w) in s.pc && s.pc[Wk(w)].Hold?
    case FireTimer(t) => t in s.timers && s.now >= s.timers[t]
    case CloseStop => !s.stopped
    case CloseLock => s.stopped && !s.closed
    case CloseReturn => s.closed && !s.returned && AllGone(c, s)
    case SweeperExit => s.stopped && Sweeper in s.pc && s.pc[Sweeper] == Idle
  }

  function DoPop(c: Settings, s: State, w: nat): State
    requires Enabled(c, s, TryPop(w))
  {
    var s1 := Rouse(s, PopWake(c, s.q, s.now), Sweeper);
    match PopVerdict(c, s.q, s.closed, s.now)
    case Got(_) => PopHead(Gathered(c, s1, Wk(w), ToPop), w)
    case Exit => Gathered(c, s1, Wk(w), ToExit)
    case Again => Gathered(c, s1, Wk(w), ToPop)
    case Sleep => Shift(s, Wk(w), Asleep)
  }

  function DoEnter(c: Settings, s: State, t: Task, who: Tid): State {
    match EnterVerdict(c, s.q, s.closed)
    case Refused => Shift(s, Sub(t), Answer(Deadline, 0))
    case Accepted => Enqueued(Rouse(s, One, who), t)
    case MustWait => Shift(s, Sub(t), Arm)
    case Shed => Shift(s, Sub(t), Answer(QueueLimit, 0))
  }

  function DoArm(c: Settings, s: State, t: Task): State {
    var left := LeftAt(c, t, s.now);
    if left < c.minBudget then Shift(s, Sub(t), Answer(Deadline, left))
    else Shift(s.(timers := s.timers[t := s.now + left]), Sub(t), Loop)
  }

  function DoRecheck(c: Settings, s: State, t: Task, stopWins: bool, who: Tid): State {
    match LoopVerdict(c, s.q, s.closed, t in s.fired, s.now)
    case TakeDead => Gathered(c, Rouse(s, All, who), Sub(t), ToLoop)
    case Doze => Shift(s, Sub(t), Asleep)
    case Leave(Accepted) => Enqueued(Rouse(StopTimer(s, t, stopWins), One, who), t)
    case Leave(_) => Shift(StopTimer(s, t, stopWins), Sub(t), Answer(Deadline, 0))
  }

  function DoGather(c: Settings, s: State, tid: Tid): State {
    var wake := if Dead(c, s.q, s.now) != [] then All else Nobody;
    Gathered(c, Rouse(s, wake, tid), tid, if tid.Sweeper? then ToIdle else ToEnter)
  }

  function DoCheck(c: Settings, s: State, t: Task, drift: nat): State {
    if Expired(c, t, s.now) then
      Shift(s.(now := s.now + drift), Sub(t), Answer(Deadline, LeftAt(c, t, s.now + drift)))
    else Shift(s, Sub(t), Collect)
  }

  function DoReplyOne(s: State, tid: Tid): State
    requires tid in s.pc && s.pc[tid].Reply? && s.pc[tid].batch != []
  {
    var p := s.pc[tid];
    Called(s, tid, Call(p.batch[0], 0, Deadline, s.now), Replying(p.batch[1..], p.after))
  }

  function DoRun(c: Settings, s: State, w: nat): State
    requires Wk(w) in s.pc && s.pc[Wk(w)].Hold?
  {
    var t := s.pc[Wk(w)].task;
    var left := LeftAt(c, t, s.now);
    Called(s, Wk(w), Call(t, left, if left < c.minBudget then Deadline else Ran, s.now), Pop)
  }

  function Do(c: Settings, s: State, step: Step): State
    requires Enabled(c, s, step)
  {
    match step
    case Tick(d) => s.(now := s.now + d)
    case Submit(t) => s.(pc := s.pc[Sub(t) := Begin], loc := s.loc[t := Held(Sub(t))])
    case Check(t, drift) => DoCheck(c, s, t, drift)
    case Gather(tid) => DoGather(c, s, tid)
    case ReplyOne(tid) => DoReplyOne(s, tid)
    case TryEnter(t, who) => DoEnter(c, s, t, who)
    case ArmTimer(t) => DoArm(c, s, t)
    case Recheck(t, stopWins, who) => DoRecheck(c, s, t, stopWins, who)
    case Refuse(t) => Called(s, Sub(t), Call(t, s.pc[Sub(t)].left, s.pc[Sub(t)].reason, s.now), Done)
    case TryPop(w) => DoPop(c, s, w)
    case RunTask(w) => DoRun(c, s, w)
    case FireTimer(t) => Rouse(s.(timers := s.timers - {t}, fired := s.fired + {t}), All, Sweeper)
    case CloseStop => s.(stopped := true)
    case CloseLock => Rouse(s.(closed := true), All, Sweeper)
    case CloseReturn => s.(returned := true)
    case SweeperExit => Shift(s, Sweeper, Done)
  }

  // ---- runs ----

  /** Every step of the run is enabled where it is taken. */
  predicate Legal(c: Settings, start: int, run: seq<Step>)
    decreases |run|, 0
  {
    |run| == 0 ||
    (Legal(c, start, run[..|run| - 1]) && Enabled(c, At(c, start, run[..|run| - 1]), run[|run| - 1]))
  }

  /** The state a legal run leads to. */
  function At(c: Settings, start: int, run: seq<Step>): State
    requires Legal(c, start, run)
    decreases |run|, 1
  {
    if |run| == 0 then Init(c, start)
    else Do(c, At(c, start, run[..|run| - 1]), run[|run| - 1])
  }
}
