/** Runs of the audit sink: any number of callers add events while the flusher takes chunks and
    sends them, in any interleaving of their critical sections. */
module AuditRuns {
  import opened Audit

  /** Where the flusher is: in its select, in a flush, which may be its last one, or gone. */
  datatype Flusher = Waiting | Flushing(last: bool) | Exited

  /** `hand` is what the flusher has taken and not yet handed to send; `kicks` counts the callers
      that are about to kick it.  The rest is history: all events in the order of Add, for each one
      that is no longer pending whether it was dropped, and how many had been added when Close
      was called and when the flusher ended. */
  datatype State = State(
    pending: seq<Item>, size: int, dropped: nat,
    hand: seq<Send>, sent: seq<Send>,
    flusher: Flusher, wake: bool, kicks: nat, stopped: bool, closed: bool,
    added: seq<Item>, fate: seq<bool>, atStop: nat, atExit: nat)

  datatype Step =
    | Add(it: Item)      // the critical section of Add
    | Kick               // kick, by a caller that found the list full
    | HearWake           // the flusher receives the token
    | HearTick           // its ticker fires
    | HearStop           // it finds the stop channel closed
    | Take               // the critical section of one turn of flush
    | SendNext           // the next message of the chunk is handed to send
    | FlushEnds          // flush finds nothing pending
    | CloseStop          // Close closes the stop channel
    | CloseReturns       // Close has waited for the flusher

  const INIT := State([], 0, 0, [], [], Waiting, false, 0, false, false, [], [], 0, 0)

  predicate Enabled(s: State, step: Step) {
    match step
    case Add(_) => true
    case Kick => s.kicks > 0
    case HearWake => s.flusher.Waiting? && s.wake
    case HearTick => s.flusher.Waiting?
    case HearStop => s.flusher.Waiting? && s.stopped
    case Take => s.flusher.Flushing? && s.hand == [] && s.pending != []
    case SendNext => s.hand != []
    case FlushEnds => s.flusher.Flushing? && s.hand == [] && s.pending == []
    case CloseStop => !s.stopped
    case CloseReturns => s.stopped && s.flusher.Exited? && !s.closed
  }

  function Copies(n: nat, b: bool): seq<bool> { seq(n, _ => b) }

  /** The list asks for an early flush. */
  predicate Full(pending: seq<Item>, size: int) { |pending| >= MAX_ITEMS || size >= MAX_SIZE }

  function DoAdd(s: State, it: Item): State {
    var cut := Overflow(|s.pending| + 1);
    var p := (s.pending + [it])[cut..];
    var size := if cut > 0 then SizeOf(p) else s.size + |it.body| + 2;
    s.(pending := p, size := size, dropped := s.dropped + cut,
       kicks := s.kicks + (if Full(p, size) then 1 else 0),
       added := s.added + [it], fate := s.fate + Copies(cut, true))
  }

  function DoTake(s: State): State {
    var n := Chunk(|s.pending|);
    s.(pending := s.pending[n..], size := SizeOf(s.pending[n..]),
       hand := Grouped(s.pending[..n]), fate := s.fate + Copies(n, false))
  }

  function Do(s: State, step: Step): State
    requires Enabled(s, step)
  {
    match step
    case Add(it) => DoAdd(s, it)
    case Kick => s.(kicks := s.kicks - 1, wake := true)
    case HearWake => s.(wake := false, flusher := Flushing(false))
    case HearTick => s.(flusher := Flushing(false))
    case HearStop => s.(flusher := Flushing(true))
    case Take => DoTake(s)
    case SendNext => s.(hand := s.hand[1..], sent := s.sent + [s.hand[0]])
    case FlushEnds => if s.flusher.last then s.(flusher := Exited, atExit := |s.added|) else s.(flusher := Waiting)
    case CloseStop => s.(stopped := true, atStop := |s.added|)
    case CloseReturns => s.(closed := true)
  }

  predicate Legal(run: seq<Step>)
    decreases |run|, 0
  {
    |run| == 0 || (Legal(run[..|run| - 1]) && Enabled(At(run[..|run| - 1]), run[|run| - 1]))
  }

  function At(run: seq<Step>): State
    requires Legal(run)
    decreases |run|, 1
  {
    if |run| == 0 then INIT else Do(At(run[..|run| - 1]), run[|run| - 1])
  }

  /** The events of all Add calls of a run, in order. */
  function Adds(run: seq<Step>): seq<Item> {
    if |run| == 0 then []
    else Adds(run[..|run| - 1]) + (if run[|run| - 1].Add? then [run[|run| - 1].it] else [])
  }

  /** The events that were not dropped. */
  function Survivors(items: seq<Item>, fate: seq<bool>): seq<Item>
    requires |fate| <= |items|
  {
    if |fate| == 0 then []
    else
      var k := |fate| - 1;
      Survivors(items, fate[..k]) + (if fate[k] then [] else [items[k]])
  }

  function Drops(fate: seq<bool>): nat {
    if |fate| == 0 then 0 else Drops(fate[..|fate| - 1]) + (if fate[|fate| - 1] then 1 else 0)
  }

  // ---- history facts ----

  lemma {:induction false} SurvivorsPrefix(items: seq<Item>, more: seq<Item>, fate: seq<bool>)
    requires |fate| <= |items|
    ensures Survivors(items + more, fate) == Survivors(items, fate)
    decreases |fate|
  {
    if |fate| > 0 { SurvivorsPrefix(items, more, fate[..|fate| - 1]); }
  }

  lemma SurvivorsSnoc(items: seq<Item>, fate: seq<bool>, b: bool)
    requires |fate| < |items|
    ensures Survivors(items, fate + [b]) == Survivors(items, fate) + (if b then [] else [items[|fate|]])
    ensures Drops(fate + [b]) == Drops(fate) + (if b then 1 else 0)
  {
    assert (fate + [b])[..|fate|] == fate;
  }

  lemma OneMore(before: seq<Item>, items: seq<Item>, i: nat, j: nat)
    requires i <= j < |items|
    ensures (before + items[i..j]) + [items[j]] == before + items[i..j + 1]
  {
    assert items[i..j + 1] == items[i..j] + [items[j]];
  }

  /** Further events that all share one fate. */
  lemma {:induction false} SurvivorsExtend(items: seq<Item>, fate: seq<bool>, n: nat, b: bool)
    requires |fate| + n <= |items|
    ensures Survivors(items, fate + Copies(n, b)) == Survivors(items, fate) +
      (if b then [] else items[|fate|..|fate| + n])
    ensures Drops(fate + Copies(n, b)) == Drops(fate) + (if b then n else 0)
    decreases n
  {
    if n == 0 {
      assert fate + Copies(0, b) == fate;
    } else {
      hide Survivors, Drops;
      var f, old_ := fate + Copies(n - 1, b), Survivors(items, fate);
      assert fate + Copies(n, b) == f + [b];
      SurvivorsExtend(items, fate, n - 1, b);
      SurvivorsSnoc(items, f, b);
      hide Copies;
      if !b { OneMore(old_, items, |fate|, |fate| + n - 1); }
    }
  }

  // ---- the invariant ----

  /** The pending events are the newest ones; everything older has a fate. */
  ghost predicate Tail(s: State) {
    && |s.added| == |s.fate| + |s.pending|
    && s.pending == s.added[|s.fate|..]
    && s.dropped == Drops(s.fate)
    && s.size == SizeOf(s.pending)
    && |s.pending| <= MAX_PENDING
  }

  /** Per subject, what was sent and what is in hand is what survived, in order. */
  ghost predicate Delivered(s: State)
    requires |s.fate| <= |s.added|
  {
    forall x :: Under(s.sent, x) + Under(s.hand, x) == Of(Survivors(s.added, s.fate), x)
  }

  ghost predicate AllGood(sends: seq<Send>) {
    forall i :: 0 <= i < |sends| ==> GoodSend(sends[i])
  }

  /** The flusher works only in a flush, ends only after Close was called and with nothing pending,
      and is not left waiting beside a full list without a token or a kick to come. */
  ghost predicate Looping(s: State) {
    && (s.hand != [] ==> s.flusher.Flushing?)
    && (s.flusher.Flushing? && s.flusher.last ==> s.stopped)
    && (s.flusher.Exited? ==> s.stopped && s.atStop <= s.atExit <= |s.fate|)
    && (s.closed ==> s.flusher.Exited?)
    && (s.stopped ==> s.atStop <= |s.added|)
    && (s.flusher.Waiting? && Full(s.pending, s.size) ==> s.wake || s.kicks > 0)
  }

  ghost predicate Inv(s: State) {
    Tail(s) && Delivered(s) && AllGood(s.sent) && AllGood(s.hand) && Looping(s)
  }

  lemma AddTail(s: State, it: Item)
    requires Tail(s)
    ensures Tail(DoAdd(s, it))
    ensures Survivors(DoAdd(s, it).added, DoAdd(s, it).fate) == Survivors(s.added, s.fate)
  {
    var s' := DoAdd(s, it);
    var cut := Overflow(|s.pending| + 1);
    SizeSnoc(s.pending, it);
    hide Survivors, Drops, Full;
    SurvivorsExtend(s'.added, s.fate, cut, true);
    SurvivorsPrefix(s.added, [it], s.fate);
    NewestStay(s.added, s.pending, it, |s.fate|, cut);
    assert cut == 0 ==> s'.pending == s.pending + [it];
    assert s'.size == SizeOf(s'.pending);
    hide SizeOf, Overflow;
  }

  /** Dropping from the front of the newest events leaves the newest events. */
  lemma NewestStay(added: seq<Item>, pending: seq<Item>, it: Item, k: nat, cut: nat)
    requires k <= |added| && pending == added[k..] && cut <= |pending| + 1
    ensures (pending + [it])[cut..] == (added + [it])[k + cut..]
  {}

  lemma AddInv(s: State, it: Item)
    requires Inv(s)
    ensures Inv(DoAdd(s, it))
  {
    AddTail(s, it);
    hide Survivors, Tail, Under, Of;
  }

  lemma TakeInv(s: State)
    requires Inv(s) && Enabled(s, Take)
    ensures Inv(DoTake(s))
  {
    var s' := DoTake(s);
    var n := Chunk(|s.pending|);
    var chunk := s.pending[..n];
    assert chunk == s.added[|s.fate|..|s.fate| + n];
    SurvivorsExtend(s.added, s.fate, n, false);
    GroupedGood(chunk);
    var before := Survivors(s.added, s.fate);
    hide Survivors, Drops, SizeOf, Grouped;
    assert Survivors(s'.added, s'.fate) == before + chunk;
    forall x ensures Under(s'.sent, x) + Under(s'.hand, x) == Of(Survivors(s'.added, s'.fate), x) {
      GroupedKeeps(chunk, x);
      OfConcat(before, chunk, x);
      assert Under(s.hand, x) == [];
      assert Under(s.sent, x) + [] == Under(s.sent, x);
    }
  }

  lemma SendInv(s: State)
    requires Inv(s) && Enabled(s, SendNext)
    ensures Inv(Do(s, SendNext))
  {
    var s' := Do(s, SendNext);
    assert Looping(s');
    assert s.hand == [s.hand[0]] + s.hand[1..];
    hide Full, Looping, Tail;
    forall x ensures Under(s'.sent, x) + Under(s'.hand, x) == Of(Survivors(s'.added, s'.fate), x) {
      UnderConcat(s.sent, [s.hand[0]], x);
      UnderConcat([s.hand[0]], s.hand[1..], x);
      hide Under, Survivors, Of;
      MoveOver(Under(s.sent, x), Under([s.hand[0]], x), Under(s.hand[1..], x));
    }
  }

  lemma MoveOver(a: seq<Item>, b: seq<Item>, c: seq<Item>)
    ensures (a + b) + c == a + (b + c)
  {}

  /** The steps that touch no event. */
  lemma ControlInv(s: State, step: Step)
    requires Inv(s) && Enabled(s, step) && !step.Add? && !step.Take? && !step.SendNext?
    ensures Inv(Do(s, step))
  {
    var s' := Do(s, step);
    assert s'.pending == s.pending && s'.hand == s.hand && s'.sent == s.sent;
    assert s'.added == s.added && s'.fate == s.fate;
    assert SizeOf([]) == 0;
    hide Survivors, Drops, SizeOf, Under, Of;
  }

  lemma {:induction false} Reached(run: seq<Step>)
    requires Legal(run)
    ensures Inv(At(run)) && At(run).added == Adds(run)
    decreases |run|
  {
    if |run| == 0 {
    } else {
      hide Inv;
      var s := At(run[..|run| - 1]);
      Reached(run[..|run| - 1]);
      match run[|run| - 1] {
        case Add(it) => AddInv(s, it);
        case Take => TakeInv(s);
        case SendNext => SendInv(s);
        case _ => ControlInv(s, run[|run| - 1]);
      }
    }
  }

  /** In every interleaving: the cached size is right and the list bounded; the pending events
      are the newest, so only the oldest are ever dropped and `dropped` counts them; and for each
      subject the events sent and in hand are exactly the surviving ones in the order of Add,
      in messages of 1 to 256 events of that subject. */
  lemma NothingLost(run: seq<Step>)
    requires Legal(run)
    ensures var s := At(run);
      && s.added == Adds(run)
      && s.size == SizeOf(s.pending) && |s.pending| <= MAX_PENDING
      && |s.added| == |s.fate| + |s.pending| && s.pending == s.added[|s.fate|..]
      && s.dropped == Drops(s.fate)
      && (forall x :: Under(s.sent, x) + Under(s.hand, x) == Of(Survivors(s.added, s.fate), x))
      && AllGood(s.sent) && AllGood(s.hand)
  {
    Reached(run);
  }

  /** When the flusher has nothing in hand and nothing is pending, every event was dropped or has
      been sent, under its subject and in the order of Add. */
  lemma FlushedMeansSent(run: seq<Step>, x: string)
    requires Legal(run) && At(run).hand == [] && At(run).pending == []
    ensures var s := At(run);
      && |s.fate| == |s.added|
      && Under(s.sent, x) == Of(Survivors(s.added, s.fate), x)
      && |s.added| == |Survivors(s.added, s.fate)| + s.dropped
  {
    Reached(run);
    var s := At(run);
    assert Under(s.sent, x) + Under(s.hand, x) == Of(Survivors(s.added, s.fate), x);
    SurvivorsCount(s.added, s.fate);
  }

  /** While the flusher waits beside a list that asks for a flush, a token is there or a caller is
      about to leave one. */
  lemma NoLostKick(run: seq<Step>)
    requires Legal(run)
    ensures var s := At(run);
      s.flusher.Waiting? && Full(s.pending, SizeOf(s.pending)) ==> s.wake || s.kicks > 0
  {
    Reached(run);
  }

  /** When Close has returned, every event added before the flusher ended was sent or dropped; and
      nothing at all is pending exactly if none was added after that. */
  lemma CloseFlushes(run: seq<Step>)
    requires Legal(run) && At(run).closed
    ensures var s := At(run);
      && s.hand == [] && s.atStop <= s.atExit <= |s.fate|
      && (s.pending == [] <==> |s.added| == s.atExit)
  {
    Reached(run);
    StillBounded(run);
  }

  /** In particular, without an Add since Close was called, everything was sent, under its subject
      and in order, or counted as dropped. */
  lemma CloseSendsAll(run: seq<Step>, x: string)
    requires Legal(run) && At(run).closed && |At(run).added| == At(run).atStop
    ensures var s := At(run);
      && s.pending == [] && s.hand == [] && |s.fate| == |s.added|
      && Under(s.sent, x) == Of(Survivors(s.added, s.fate), x)
      && |s.added| == |Survivors(s.added, s.fate)| + s.dropped
  {
    CloseFlushes(run);
    Reached(run);
    hide Survivors, Under, Of;
    FlushedMeansSent(run, x);
  }

  /** After the flusher has ended an event leaves the list only by overflow. */
  ghost predicate Leftover(s: State) {
    s.flusher.Exited? ==> s.atExit <= |s.added| && |s.pending| == Min(|s.added| - s.atExit, MAX_PENDING)
  }

  function Min(a: int, b: int): int { if a <= b then a else b }

  lemma {:induction false} StillBounded(run: seq<Step>)
    requires Legal(run)
    ensures Leftover(At(run))
    decreases |run|
  {
    if |run| > 0 {
      var s := At(run[..|run| - 1]);
      StillBounded(run[..|run| - 1]);
      Reached(run[..|run| - 1]);
      LeftoverStep(s, run[|run| - 1]);
      hide Leftover, Inv, Do, Enabled;
    }
  }

  lemma LeftoverStep(s: State, step: Step)
    requires Inv(s) && Leftover(s) && Enabled(s, step)
    ensures Leftover(Do(s, step))
  {
    hide SizeOf, Survivors, Drops, Under, Of, Grouped;
  }

  /** Nothing is ever sent after the flusher has ended. */
  lemma {:induction false} Stranded(run: seq<Step>, more: seq<Step>)
    requires Legal(run) && At(run).flusher.Exited? && Legal(run + more)
    ensures At(run + more).sent == At(run).sent && At(run + more).flusher.Exited?
    decreases |more|
  {
    if more == [] {
      assert run + more == run;
    } else {
      var init := more[..|more| - 1];
      assert (run + more)[..|run + more| - 1] == run + init;
      Stranded(run, init);
      Reached(run + init);
      hide Tail, Delivered, AllGood, DoAdd, DoTake;
    }
  }

  /** An event that is added after Close is accepted, stays pending and is never sent. */
  lemma LateEventIsStranded(it: Item, more: seq<Step>)
    ensures var run := [CloseStop, HearStop, FlushEnds, CloseReturns, Add(it)];
      && Legal(run) && At(run).closed && At(run).pending == [it]
      && (Legal(run + more) ==> At(run + more).sent == [])
  {
    var r1, r2 := [CloseStop], [CloseStop, HearStop];
    var r3, r4 := [CloseStop, HearStop, FlushEnds], [CloseStop, HearStop, FlushEnds, CloseReturns];
    var run := [CloseStop, HearStop, FlushEnds, CloseReturns, Add(it)];
    assert r1[..0] == [] && r2[..1] == r1 && r3[..2] == r2 && r4[..3] == r3 && run[..4] == r4;
    assert Legal([]) && At([]) == INIT;
    assert Legal(r1) && At(r1) == Do(INIT, CloseStop);
    assert Legal(r2) && At(r2) == Do(At(r1), HearStop);
    assert Legal(r3) && At(r3) == Do(At(r2), FlushEnds);
    assert Legal(r4) && At(r4) == Do(At(r3), CloseReturns);
    assert Legal(run) && At(run) == DoAdd(At(r4), it);
    hide Legal, At;
    if Legal(run + more) { Stranded(run, more); }
  }

  lemma {:induction false} LegalPrefix(run: seq<Step>, i: nat)
    requires Legal(run) && i <= |run|
    ensures Legal(run[..i])
    decreases |run| - i
  {
    if i < |run| {
      LegalPrefix(run, i + 1);
      assert run[..i + 1][..i] == run[..i];
    } else {
      assert run[..i] == run;
    }
  }

  lemma StepAt(run: seq<Step>, i: nat)
    requires Legal(run) && i < |run|
    ensures Legal(run[..i]) && Legal(run[..i + 1]) && Enabled(At(run[..i]), run[i])
    ensures At(run[..i + 1]) == Do(At(run[..i]), run[i])
  {
    LegalPrefix(run, i + 1);
    hide Do, Enabled;
    assert run[..i + 1][..i] == run[..i] && run[..i + 1][i] == run[i];
  }

  /** The sink, with where its flusher is and what that has in hand, is in state `s`. */
  ghost predicate Agrees(sink: Sink, at: Flusher, hand: seq<Send>, s: State)
    reads sink
  {
    && sink.Valid() && sink.pending == s.pending && sink.size == s.size && sink.dropped == s.dropped
    && sink.outbox == s.sent && at == s.flusher && hand == s.hand
    && sink.wake == s.wake && sink.stopped == s.stopped && sink.done == s.flusher.Exited?
  }

  /** One critical section, one receive of the flusher or one message handed to send is one step. */
  method DriveStep(sink: Sink, at: Flusher, hand: seq<Send>, step: Step, ghost s: State)
    returns (at': Flusher, hand': seq<Send>)
    requires Agrees(sink, at, hand, s) && Enabled(s, step)
    modifies sink
    ensures Agrees(sink, at', hand', Do(s, step))
  {
    hide Grouped, SizeOf, Full;
    at', hand' := at, hand;
    match step {
      case Add(it) =>
        SizeSnoc(sink.pending, it);
        var _ := sink.Add(it);
      case Kick => sink.Kick();
      case HearWake =>
        sink.wake := false;
        at' := Flushing(false);
      case HearTick => at' := Flushing(false);
      case HearStop => at' := Flushing(true);
      case Take =>
        var take := sink.Take();
        hand' := Publish(take);
      case SendNext =>
        sink.outbox := sink.outbox + [hand[0]];
        hand' := hand[1..];
      case FlushEnds =>
        if at.last {
          sink.done := true;
          at' := Exited;
        } else {
          at' := Waiting;
        }
      case CloseStop => sink.Stop();
      case CloseReturns =>
    }
  }

  /** The sink, its flusher and Close, driven through any interleaving of their steps, are in the
      state of the run. */
  method Drive(run: seq<Step>) returns (sink: Sink, at: Flusher, hand: seq<Send>)
    requires Legal(run)
    ensures fresh(sink) && Agrees(sink, at, hand, At(run))
  {
    sink := new Sink();
    at, hand := Waiting, [];
    LegalPrefix(run, 0);
    for i := 0 to |run|
      invariant fresh(sink) && Legal(run[..i]) && Agrees(sink, at, hand, At(run[..i]))
    {
      StepAt(run, i);
      hide At, Legal, Do, Enabled, Agrees;
      at, hand := DriveStep(sink, at, hand, run[i], At(run[..i]));
    }
    assert run[..|run|] == run;
  }

  lemma {:induction false} SurvivorsCount(items: seq<Item>, fate: seq<bool>)
    requires |fate| <= |items|
    ensures |Survivors(items, fate)| + Drops(fate) == |fate|
    decreases |fate|
  {
    if |fate| > 0 { SurvivorsCount(items, fate[..|fate| - 1]); }
  }
}
