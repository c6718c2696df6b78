/** The queue discipline of the deadline pool: which tasks are out of time, how the
    expired ones are taken out, and why doing so early is invisible to live work. */
module PoolQueue {
  import opened Seqs

  /** A submitted task. Two Submit calls never share a task, which `id` stands for;
      `enqueued` is the moment Submit stamped it. */
  datatype Task = Task(id: nat, deadline: int, enqueued: int)

  datatype Settings = Settings(workers: set<nat>, depth: int, wait: bool, reserve: int, minBudget: int)

  /** The pool never has room for less than one task, whatever depth was asked for. */
  function Cap(c: Settings): (n: int)
    ensures n >= 1 && n >= c.depth && n in {1, c.depth}
  {
    if c.depth < 1 then 1 else c.depth
  }

  function LeftAt(c: Settings, t: Task, now: int): int {
    t.deadline - (now - t.enqueued) - c.reserve
  }

  predicate Expired(c: Settings, t: Task, now: int) {
    LeftAt(c, t, now) < c.minBudget
  }

  /** The tasks of `q` that still have budget at `now`, in order. */
  function Live(c: Settings, q: seq<Task>, now: int): seq<Task> {
    if |q| == 0 then []
    else
      var r := Live(c, q[..|q| - 1], now);
      if Expired(c, q[|q| - 1], now) then r else r + [q[|q| - 1]]
  }

  /** The tasks of `q` that are out of time at `now`, in order. */
  function Dead(c: Settings, q: seq<Task>, now: int): seq<Task> {
    if |q| == 0 then []
    else
      var r := Dead(c, q[..|q| - 1], now);
      if Expired(c, q[|q| - 1], now) then r + [q[|q| - 1]] else r
  }

  lemma LiveSnoc(c: Settings, q: seq<Task>, t: Task, now: int)
    ensures Live(c, q + [t], now) == Live(c, q, now) + (if Expired(c, t, now) then [] else [t])
    ensures Dead(c, q + [t], now) == Dead(c, q, now) + (if Expired(c, t, now) then [t] else [])
  {
    assert (q + [t])[..|q|] == q;
  }

  /** Taking the expired tasks is a stable partition. */
  lemma {:induction false} Partition(c: Settings, q: seq<Task>, now: int)
    ensures forall t :: t in Live(c, q, now) <==> t in q && !Expired(c, t, now)
    ensures forall t :: t in Dead(c, q, now) <==> t in q && Expired(c, t, now)
    ensures IsSubseq(Live(c, q, now), q) && IsSubseq(Dead(c, q, now), q)
    ensures multiset(q) == multiset(Live(c, q, now)) + multiset(Dead(c, q, now))
    ensures |q| == |Live(c, q, now)| + |Dead(c, q, now)|
  {
    if |q| > 0 {
      var p, t := q[..|q| - 1], q[|q| - 1];
      assert q == p + [t];
      Partition(c, p, now);
      SubseqSnoc(Live(c, p, now), p, t);
      SubseqSnoc(Dead(c, p, now), p, t);
    }
  }

  lemma {:induction false} PartitionNoDup(c: Settings, q: seq<Task>, now: int)
    requires NoDup(q)
    ensures NoDup(Live(c, q, now)) && NoDup(Dead(c, q, now))
  {
    if |q| > 0 {
      var p := q[..|q| - 1];
      PartitionNoDup(c, p, now);
      Partition(c, p, now);
    }
  }

  lemma {:induction false} NoDeadIsLive(c: Settings, q: seq<Task>, now: int)
    requires Dead(c, q, now) == []
    ensures Live(c, q, now) == q
  {
    if |q| > 0 {
      NoDeadIsLive(c, q[..|q| - 1], now);
    }
  }

  /** The head after a take is the first task that is still live. */
  lemma {:induction false} HeadIsFirstLive(c: Settings, q: seq<Task>, now: int) returns (k: nat)
    requires Live(c, q, now) != []
    ensures k < |q| && q[k] == Live(c, q, now)[0] && !Expired(c, q[k], now)
    ensures forall i :: 0 <= i < k ==> Expired(c, q[i], now)
  {
    var p := q[..|q| - 1];
    if Live(c, p, now) == [] {
      Partition(c, p, now);
      k := |q| - 1;
      forall i | 0 <= i < k ensures Expired(c, q[i], now) { assert p[i] in p; }
    } else {
      k := HeadIsFirstLive(c, p, now);
    }
  }

  /** Remaining time only falls, so a later take subsumes an earlier one. */
  lemma {:induction false} LiveLater(c: Settings, q: seq<Task>, early: int, late: int)
    requires early <= late
    ensures Live(c, Live(c, q, early), late) == Live(c, q, late)
  {
    if |q| > 0 {
      var p, t := q[..|q| - 1], q[|q| - 1];
      LiveLater(c, p, early, late);
      LiveSnoc(c, Live(c, p, early), t, late);
    }
  }

  // ---- the sweeper is invisible to live work ----

  datatype Event = Enqueue(t: Task) | Sweep(at: int) | Take(at: int)

  /** What a history leaves behind: the queue and the task each worker took. */
  datatype Outcome = Outcome(q: seq<Task>, got: seq<Task>)

  function Moment(e: Event, before: int): int {
    match e
    case Enqueue(_) => before
    case Sweep(at) => at
    case Take(at) => at
  }

  /** The clock never runs backwards along a history. */
  predicate Chronological(es: seq<Event>, from: int) {
    |es| == 0 || (from <= Moment(es[0], from) && Chronological(es[1..], Moment(es[0], from)))
  }

  function PlayOne(c: Settings, e: Event, o: Outcome): Outcome {
    match e
    case Enqueue(t) => o.(q := o.q + [t])
    case Sweep(at) => o.(q := Live(c, o.q, at))
    case Take(at) =>
      var q := Live(c, o.q, at);
      if q == [] then o.(q := q) else Outcome(q[1..], o.got + [q[0]])
  }

  function Play(c: Settings, es: seq<Event>, o: Outcome): Outcome {
    if |es| == 0 then o else Play(c, es[1..], PlayOne(c, es[0], o))
  }

  function WithoutSweeps(es: seq<Event>): seq<Event> {
    if |es| == 0 then []
    else (if es[0].Sweep? then [] else [es[0]]) + WithoutSweeps(es[1..])
  }

  /** From `from` on the two queues hold the same live work. */
  ghost predicate SameFrom(c: Settings, q1: seq<Task>, q2: seq<Task>, from: int) {
    forall at :: from <= at ==> Live(c, q1, at) == Live(c, q2, at)
  }

  lemma SameFromSnoc(c: Settings, q1: seq<Task>, q2: seq<Task>, t: Task, from: int)
    requires SameFrom(c, q1, q2, from)
    ensures SameFrom(c, q1 + [t], q2 + [t], from)
  {
    forall at | from <= at ensures Live(c, q1 + [t], at) == Live(c, q2 + [t], at) {
      LiveSnoc(c, q1, t, at);
      LiveSnoc(c, q2, t, at);
    }
  }

  lemma SameFromLive(c: Settings, q1: seq<Task>, q2: seq<Task>, from: int, at: int)
    requires SameFrom(c, q1, q2, from) && from <= at
    ensures SameFrom(c, Live(c, q1, at), q2, at)
  {
    forall late | at <= late ensures Live(c, Live(c, q1, at), late) == Live(c, q2, late) {
      LiveLater(c, q1, at, late);
    }
  }

  /** Sweeping at any earlier moments, interleaved with enqueues and worker takes, changes
      neither the tasks the workers get nor the queue that a later take finds. */
  lemma {:induction false} SweepsAreInvisible(
    c: Settings, es: seq<Event>, o1: Outcome, o2: Outcome, from: int, end: int)
    requires Chronological(es, from)
    requires o1.got == o2.got && SameFrom(c, o1.q, o2.q, from)
    requires from <= end && EndsBy(es, end)
    ensures Play(c, es, o1).got == Play(c, WithoutSweeps(es), o2).got
    ensures SameFrom(c, Play(c, es, o1).q, Play(c, WithoutSweeps(es), o2).q, end)
    decreases |es|
  {
    if |es| == 0 { return; }
    var rest := es[1..];
    var at := Moment(es[0], from);
    match es[0] {
      case Enqueue(t) =>
        SameFromSnoc(c, o1.q, o2.q, t, from);
        SweepsAreInvisible(c, rest, o1.(q := o1.q + [t]), o2.(q := o2.q + [t]), at, end);
        assert ([es[0]] + WithoutSweeps(rest))[1..] == WithoutSweeps(rest);
      case Sweep(_) =>
        SameFromLive(c, o1.q, o2.q, from, at);
        SweepsAreInvisible(c, rest, o1.(q := Live(c, o1.q, at)), o2, at, end);
        assert [] + WithoutSweeps(rest) == WithoutSweeps(rest);
      case Take(_) =>
        var q := Live(c, o1.q, at);
        assert q == Live(c, o2.q, at);
        var n1 := if q == [] then o1.(q := q) else Outcome(q[1..], o1.got + [q[0]]);
        SweepsAreInvisible(c, rest, n1, n1, at, end);
        var n2 := if q == [] then o2.(q := q) else Outcome(q[1..], o2.got + [q[0]]);
        assert n1 == n2;
        assert ([es[0]] + WithoutSweeps(rest))[1..] == WithoutSweeps(rest);
    }
  }

  predicate EndsBy(es: seq<Event>, end: int) {
    forall i :: 0 <= i < |es| ==> (es[i].Sweep? || es[i].Take?) ==> es[i].at <= end
  }

  // ---- the critical sections, as functions of what the mutex guards ----

  /** How a critical section touches the condition variable. */
  datatype Wake = Nobody | One | All

  datatype PopResult =
    | Got(t: Task)   // a task to run
    | Exit           // closed and drained
    | Again          // only expired tasks were found
    | Sleep          // nothing to do: wait

  /** One pass of the loop in pop. */
  function PopVerdict(c: Settings, q: seq<Task>, closed: bool, now: int): PopResult {
    var live := Live(c, q, now);
    if live != [] then Got(live[0])
    else if closed then Exit
    else if Dead(c, q, now) != [] then Again
    else Sleep
  }

  function PopQueue(c: Settings, q: seq<Task>, now: int): seq<Task> {
    var live := Live(c, q, now);
    if live != [] then live[1..] else live
  }

  function PopWake(c: Settings, q: seq<Task>, now: int): Wake {
    if Dead(c, q, now) != [] || Live(c, q, now) != [] then All else Nobody
  }

  datatype EnterResult = Refused | Accepted | MustWait | Shed

  /** The second critical section of Submit. */
  function EnterVerdict(c: Settings, q: seq<Task>, closed: bool): EnterResult {
    if closed then Refused
    else if |q| < Cap(c) then Accepted
    else if c.wait then MustWait
    else Shed
  }

  datatype LoopResult = TakeDead | Doze | Leave(end: EnterResult)

  /** One pass of the wait loop of a blocked Submit, and what follows it. */
  function LoopVerdict(c: Settings, q: seq<Task>, closed: bool, timedOut: bool, now: int): LoopResult {
    if |q| >= Cap(c) && !timedOut && !closed then
      if Dead(c, q, now) != [] then TakeDead else Doze
    else if closed then Leave(Refused)
    else if |q| < Cap(c) then Leave(Accepted)
    else Leave(Refused)
  }
}
