/** The audit sink: events wait in a bounded list, the oldest give way when it overflows, and a
    flusher takes them in chunks and sends each chunk grouped by subject. */
module Audit {
  import opened Seqs
  import opened Config

  const MAX_ITEMS := 256
  const MAX_SIZE := 512 * 1024
  const MAX_PENDING := 50000

  datatype Item = Item(subject: string, body: Bytes)

  /** One message handed to the bus. */
  datatype Send = Send(subject: string, items: seq<Item>)

  function SizeOf(items: seq<Item>): int {
    if items == [] then 0 else SizeOf(items[..|items| - 1]) + |items[|items| - 1].body| + 2
  }

  lemma SizeSnoc(items: seq<Item>, it: Item)
    ensures SizeOf(items + [it]) == SizeOf(items) + |it.body| + 2
  {
    assert (items + [it])[..|items|] == items;
  }

  /** How many of the oldest events an overlong list loses. */
  function Overflow(n: nat): nat { if n > MAX_PENDING then n - MAX_PENDING else 0 }

  // ---- grouping ----

  /** The events for one subject, in order. */
  function Of(items: seq<Item>, subject: string): seq<Item> {
    if items == [] then []
    else
      var r := Of(items[..|items| - 1], subject);
      if items[|items| - 1].subject == subject then r + [items[|items| - 1]] else r
  }

  /** The subjects in order of first mention. */
  function Subjects(items: seq<Item>): seq<string> {
    if items == [] then []
    else
      var r := Subjects(items[..|items| - 1]);
      if items[|items| - 1].subject in r then r else r + [items[|items| - 1].subject]
  }

  /** What a chunk is sent as: one message per subject. */
  function Grouped(items: seq<Item>): seq<Send> {
    Messages(items, Subjects(items))
  }

  /** One message for each subject of a list. */
  function Messages(items: seq<Item>, order: seq<string>): seq<Send> {
    seq(|order|, i requires 0 <= i < |order| => Send(order[i], Of(items, order[i])))
  }

  lemma Snocs(items: seq<Item>, it: Item)
    ensures forall s :: Of(items + [it], s) == Of(items, s) + (if it.subject == s then [it] else [])
    ensures Subjects(items + [it]) == Subjects(items) + (if it.subject in Subjects(items) then [] else [it.subject])
  {
    assert (items + [it])[..|items|] == items;
  }

  lemma {:induction false} SubjectsFacts(items: seq<Item>)
    ensures NoDup(Subjects(items))
    ensures forall s :: s in Subjects(items) <==> Of(items, s) != []
  {
    if items != [] { SubjectsFacts(items[..|items| - 1]); }
  }

  lemma {:induction false} OfFacts(items: seq<Item>, s: string)
    ensures |Of(items, s)| <= |items|
    ensures forall i :: 0 <= i < |Of(items, s)| ==> Of(items, s)[i].subject == s
  {
    if items != [] { OfFacts(items[..|items| - 1], s); }
  }

  lemma {:induction false} OfConcat(a: seq<Item>, b: seq<Item>, s: string)
    ensures Of(a + b, s) == Of(a, s) + Of(b, s)
    decreases |b|
  {
    if b == [] {
      assert a + b == a;
    } else {
      OfConcat(a, b[..|b| - 1], s);
      assert (a + b)[..|a + b| - 1] == a + b[..|b| - 1];
    }
  }

  /** groupBySubject: the order of first mention, and every event under its own subject. */
  method GroupBySubject(items: seq<Item>) returns (order: seq<string>, by_: map<string, seq<Item>>)
    ensures order == Subjects(items)
    ensures forall s :: s in by_ <==> s in order
    ensures forall s :: s in by_ ==> by_[s] == Of(items, s)
  {
    order, by_ := [], map[];
    for i := 0 to |items|
      invariant order == Subjects(items[..i])
      invariant forall s :: s in by_ <==> s in order
      invariant forall s :: s in by_ ==> by_[s] == Of(items[..i], s)
    {
      var it := items[i];
      assert items[..i + 1] == items[..i] + [it];
      Snocs(items[..i], it);
      SubjectsFacts(items[..i]);
      if it.subject !in by_ {
        order := order + [it.subject];
        by_ := by_[it.subject := []];
      }
      by_ := by_[it.subject := by_[it.subject] + [it]];
    }
    assert items[..|items|] == items;
  }

  lemma GroupedSingle(it: Item)
    ensures Grouped([it]) == [Send(it.subject, [it])]
  {
    var none: seq<Item> := [];
    Snocs(none, it);
    assert none + [it] == [it];
    assert Subjects([it]) == [it.subject] && Of([it], it.subject) == [it];
  }

  /** publish: a single event skips the grouping, with the same result. */
  method Publish(items: seq<Item>) returns (sends: seq<Send>)
    ensures sends == Grouped(items)
  {
    if |items| == 1 {
      assert items == [items[0]] && items[..1] == items;
      GroupedSingle(items[0]);
      return [Send(items[0].subject, items[..1])];
    }
    var order, by_ := GroupBySubject(items);
    sends := [];
    for i := 0 to |order|
      invariant |sends| == i
      invariant forall k :: 0 <= k < i ==> sends[k] == Send(order[k], Of(items, order[k]))
    {
      sends := sends + [Send(order[i], by_[order[i]])];
    }
  }

  /** The events of some messages that go to one subject, in order. */
  function Under(sends: seq<Send>, s: string): seq<Item> {
    if sends == [] then []
    else Under(sends[..|sends| - 1], s) + (if sends[|sends| - 1].subject == s then sends[|sends| - 1].items else [])
  }

  lemma {:induction false} UnderConcat(a: seq<Send>, b: seq<Send>, s: string)
    ensures Under(a + b, s) == Under(a, s) + Under(b, s)
    decreases |b|
  {
    if b == [] {
      assert a + b == a;
    } else {
      UnderConcat(a, b[..|b| - 1], s);
      assert (a + b)[..|a + b| - 1] == a + b[..|b| - 1];
    }
  }

  lemma UnderSnoc(sends: seq<Send>, m: Send, s: string)
    ensures Under(sends + [m], s) == Under(sends, s) + (if m.subject == s then m.items else [])
  {
    assert (sends + [m])[..|sends|] == sends;
  }

  /** Of messages with distinct subjects at most one goes to `s`. */
  lemma {:induction false} UnderOne(items: seq<Item>, order: seq<string>, s: string)
    requires NoDup(order)
    ensures Under(Messages(items, order), s) == if s in order then Of(items, s) else []
    decreases |order|
  {
    hide Of;
    if order != [] {
      var init, last := order[..|order| - 1], order[|order| - 1];
      assert order == init + [last] && last !in init && NoDup(init);
      assert Messages(items, order) == Messages(items, init) + [Send(last, Of(items, last))];
      UnderSnoc(Messages(items, init), Send(last, Of(items, last)), s);
      hide Messages, Under, NoDup;
      UnderOne(items, init, s);
    }
  }

  /** Grouping loses nothing, adds nothing and keeps the order within each subject. */
  lemma GroupedKeeps(items: seq<Item>, s: string)
    ensures Under(Grouped(items), s) == Of(items, s)
  {
    SubjectsFacts(items);
    UnderOne(items, Subjects(items), s);
  }

  /** A message carries between one and 256 events, all of its own subject. */
  ghost predicate GoodSend(m: Send) {
    1 <= |m.items| <= MAX_ITEMS && forall i :: 0 <= i < |m.items| ==> m.items[i].subject == m.subject
  }

  lemma GroupedGood(items: seq<Item>)
    requires |items| <= MAX_ITEMS
    ensures forall i :: 0 <= i < |Grouped(items)| ==> GoodSend(Grouped(items)[i])
  {
    SubjectsFacts(items);
    forall i | 0 <= i < |Grouped(items)| ensures GoodSend(Grouped(items)[i]) {
      OfFacts(items, Subjects(items)[i]);
      assert Subjects(items)[i] in Subjects(items);
    }
  }

  // ---- the object ----

  function Chunk(n: nat): nat { if n > MAX_ITEMS then MAX_ITEMS else n }

  /** What is left of a list after its overflow. */
  function Kept(q: seq<Item>): seq<Item> { q[Overflow(|q|)..] }

  /** What a flush hands to send, how many events are dropped meanwhile, and how many of the batches
      that others add meanwhile it sees. */
  datatype Flushed = Flushed(sends: seq<Send>, drops: nat, seen: nat)

  /** A flush while others add: the batch `late[i]` arrives while the chunk `i` is being sent. */
  function FlushedAmid(pending: seq<Item>, late: seq<seq<Item>>): Flushed
    decreases |late|, |pending|
  {
    if pending == [] then Flushed([], 0, 0)
    else
      var sends, rest := Grouped(pending[..Chunk(|pending|)]), pending[Chunk(|pending|)..];
      if late == [] then
        var r := FlushedAmid(rest, []);
        r.(sends := sends + r.sends)
      else
        var q := rest + late[0];
        var r := FlushedAmid(Kept(q), late[1..]);
        Flushed(sends + r.sends, Overflow(|q|) + r.drops, r.seen + 1)
  }

  /** The events of several batches. */
  function Flat(late: seq<seq<Item>>): seq<Item> {
    if late == [] then [] else late[0] + Flat(late[1..])
  }

  /** Of the events `all`, `r` hands to send, for one subject and in order, all but dropped ones; and
      all if none was dropped. */
  ghost predicate Delivers(r: Flushed, all: seq<Item>, s: string) {
    && IsSubseq(Under(r.sends, s), Of(all, s))
    && (r.drops == 0 ==> Under(r.sends, s) == Of(all, s))
  }

  /** A flush delivers what was pending and what arrived while it was going on, whatever others add. */
  lemma {:induction false} FlushKeeps(pending: seq<Item>, late: seq<seq<Item>>, s: string)
    ensures var r := FlushedAmid(pending, late);
      r.seen <= |late| && Delivers(r, pending + Flat(late[..r.seen]), s)
    decreases |late|, |pending|
  {
    if pending == [] {
      assert pending + Flat(late[..0]) == [];
    } else if late == [] {
      var rest := pending[Chunk(|pending|)..];
      FlushKeeps(rest, [], s);
      FlushAlone(pending, s);
    } else {
      var q := pending[Chunk(|pending|)..] + late[0];
      FlushKeeps(Kept(q), late[1..], s);
      FlushUnfold(pending, late);
      hide FlushedAmid, Delivers, Kept, Grouped;
      var next := FlushedAmid(Kept(q), late[1..]);
      FlatNext(late, next.seen);
      var later := Flat(late[1..][..next.seen]);
      hide Flat;
      FlushJoined(pending, late[0], later, next, FlushedAmid(pending, late), s);
    }
  }

  lemma FlushAlone(pending: seq<Item>, s: string)
    requires pending != []
    requires var rest := pending[Chunk(|pending|)..]; var r := FlushedAmid(rest, []);
      r.seen == 0 && Delivers(r, rest + Flat([]), s)
    ensures var r := FlushedAmid(pending, []); r.seen == 0 && Delivers(r, pending + Flat([]), s)
  {
    AloneUnfold(pending);
    hide FlushedAmid, Delivers, Grouped;
    var next := FlushedAmid(pending[Chunk(|pending|)..], []);
    assert pending + [] == pending && pending[Chunk(|pending|)..] + [] == pending[Chunk(|pending|)..];
    SentOn(pending, Chunk(|pending|), next, FlushedAmid(pending, []), s);
  }

  lemma AloneUnfold(pending: seq<Item>)
    requires pending != []
    ensures var next := FlushedAmid(pending[Chunk(|pending|)..], []);
      FlushedAmid(pending, []) == next.(sends := Grouped(pending[..Chunk(|pending|)]) + next.sends)
  {
    hide Grouped;
  }

  /** A chunk, and then a flush of the rest. */
  lemma SentOn(pending: seq<Item>, n: nat, next: Flushed, r: Flushed, s: string)
    requires n <= |pending| && Delivers(next, pending[n..], s)
    requires r.sends == Grouped(pending[..n]) + next.sends && r.drops == next.drops
    ensures Delivers(r, pending, s)
  {
    var chunk, rest := pending[..n], pending[n..];
    assert pending == chunk + rest;
    GroupedKeeps(chunk, s);
    hide Grouped, IsSubseq, Under, Of;
    SendsOn(Grouped(chunk), next.sends, chunk, rest, rest, s, false);
  }

  /** A chunk, and then a flush of the rest with a batch that arrived meanwhile. */
  lemma FlushJoined(pending: seq<Item>, batch: seq<Item>, later: seq<Item>, next: Flushed, r: Flushed, s: string)
    requires var q := pending[Chunk(|pending|)..] + batch;
      && Delivers(next, Kept(q) + later, s)
      && r.sends == Grouped(pending[..Chunk(|pending|)]) + next.sends && r.drops == Overflow(|q|) + next.drops
    ensures Delivers(r, pending + (batch + later), s)
  {
    var chunk, q := pending[..Chunk(|pending|)], pending[Chunk(|pending|)..] + batch;
    Rejoin(pending, Chunk(|pending|), batch, later);
    KeptSuffix(q, later);
    GroupedKeeps(chunk, s);
    hide Grouped, IsSubseq, Under, Of, Kept, Chunk, Overflow;
    SendsOn(Grouped(chunk), next.sends, chunk, Kept(q) + later, q + later, s, Overflow(|q|) != 0);
  }

  lemma FlushUnfold(pending: seq<Item>, late: seq<seq<Item>>)
    requires pending != [] && late != []
    ensures var q := pending[Chunk(|pending|)..] + late[0];
      var next := FlushedAmid(Kept(q), late[1..]);
      FlushedAmid(pending, late) ==
        Flushed(Grouped(pending[..Chunk(|pending|)]) + next.sends, Overflow(|q|) + next.drops, next.seen + 1)
  {
    hide Grouped, Kept;
  }

  lemma FlatNext(late: seq<seq<Item>>, n: nat)
    requires late != [] && n <= |late[1..]|
    ensures Flat(late[..n + 1]) == late[0] + Flat(late[1..][..n])
  {
    assert late[..n + 1][1..] == late[1..][..n];
  }

  lemma Rejoin(pending: seq<Item>, n: nat, more: seq<Item>, later: seq<Item>)
    requires n <= |pending|
    ensures pending + (more + later) == pending[..n] + ((pending[n..] + more) + later)
  {
    assert pending == pending[..n] + pending[n..];
  }

  lemma KeptSuffix(q: seq<Item>, later: seq<Item>)
    ensures |Kept(q) + later| <= |q + later| && (q + later)[|q + later| - |Kept(q) + later|..] == Kept(q) + later
    ensures Overflow(|q|) == 0 ==> Kept(q) == q
  {}

  /** A chunk is sent, and then what is sent of the rest, after some of its oldest were dropped. */
  lemma SendsOn(a: seq<Send>, b: seq<Send>, chunk: seq<Item>, kept: seq<Item>, rest: seq<Item>, s: string, cut: bool)
    requires Under(a, s) == Of(chunk, s) && IsSubseq(Under(b, s), Of(kept, s))
    requires |kept| <= |rest| && rest[|rest| - |kept|..] == kept && (!cut ==> kept == rest)
    ensures IsSubseq(Under(a + b, s), Of(chunk + rest, s))
    ensures !cut && Under(b, s) == Of(kept, s) ==> Under(a + b, s) == Of(chunk + rest, s)
  {
    UnderConcat(a, b, s);
    OfConcat(chunk, rest, s);
    var lost := rest[..|rest| - |kept|];
    assert rest == lost + kept;
    OfConcat(lost, kept, s);
    hide Under, Of, IsSubseq;
    SubseqSuffix(Of(lost, s), Of(kept, s));
    SubseqTrans(Under(b, s), Of(kept, s), Of(rest, s));
    SubseqPrefix(Of(chunk, s), Under(b, s), Of(rest, s));
  }

  /** Adding to what is left of a list. */
  lemma KeptSnoc(q: seq<Item>, it: Item)
    ensures Kept(Kept(q) + [it]) == Kept(q + [it])
    ensures Overflow(|q|) + Overflow(|Kept(q)| + 1) == Overflow(|q| + 1)
  {}

  method ComputeSize(items: seq<Item>) returns (n: int)
    ensures n == SizeOf(items)
  {
    n := 0;
    for i := 0 to |items|
      invariant n == SizeOf(items[..i])
    {
      SizeSnoc(items[..i], items[i]);
      assert items[..i + 1] == items[..i] + [items[i]];
      n := n + |items[i].body| + 2;
    }
    assert items[..|items|] == items;
  }

  class Sink {
    var pending: seq<Item>
    var size: int
    var dropped: nat
    var outbox: seq<Send>   // what was handed to send
    var wake: bool          // the token for the flusher
    var stopped: bool       // the stop channel is closed
    var done: bool          // the flusher has ended

    /** Holds whenever the lock is free. */
    ghost predicate Valid()
      reads this
    {
      size == SizeOf(pending) && |pending| <= MAX_PENDING
    }

    constructor ()
      ensures Valid() && pending == [] && dropped == 0 && outbox == [] && !wake && !stopped && !done
    {
      pending, size, dropped, outbox := [], 0, 0, [];
      wake, stopped, done := false, false, false;
    }

    /** The critical section of Add; `full` asks for an early flush. */
    method Add(it: Item) returns (full: bool)
      requires Valid()
      modifies this`pending, this`size, this`dropped
      ensures Valid()
      ensures pending == (old(pending) + [it])[Overflow(|old(pending)| + 1)..]
      ensures dropped == old(dropped) + Overflow(|old(pending)| + 1)
      ensures full <==> |pending| >= MAX_ITEMS || SizeOf(pending) >= MAX_SIZE
    {
      SizeSnoc(pending, it);
      pending := pending + [it];
      size := size + |it.body| + 2;
      if |pending| > MAX_PENDING {
        var cut := |pending| - MAX_PENDING;
        dropped := dropped + cut;
        pending := pending[cut..];
        size := ComputeSize(pending);
      }
      full := |pending| >= MAX_ITEMS || size >= MAX_SIZE;
    }

    /** The critical section of one turn of flush. */
    method Take() returns (take: seq<Item>)
      requires Valid()
      modifies this`pending, this`size
      ensures Valid()
      ensures take == old(pending)[..Chunk(|old(pending)|)] && pending == old(pending)[Chunk(|old(pending)|)..]
    {
      var n := |pending|;
      if n > MAX_ITEMS { n := MAX_ITEMS; }
      take := pending[..n];
      pending := pending[n..];
      size := ComputeSize(pending);
    }

    /** What others add while a chunk is being sent. */
    method AddAll(items: seq<Item>)
      requires Valid()
      modifies this`pending, this`size, this`dropped
      ensures Valid()
      ensures pending == Kept(old(pending) + items)
      ensures dropped == old(dropped) + Overflow(|old(pending) + items|)
    {
      ghost var q := pending;
      for i := 0 to |items|
        invariant Valid() && q == old(pending) + items[..i]
        invariant pending == Kept(q) && dropped == old(dropped) + Overflow(|q|)
      {
        KeptSnoc(q, items[i]);
        assert old(pending) + items[..i + 1] == q + [items[i]];
        hide SizeOf;
        var _ := Add(items[i]);
        q := q + [items[i]];
      }
      assert items[..|items|] == items;
    }

    /** flush, with the batches that others add while its chunks are being sent. */
    method Flush(late: seq<seq<Item>>) returns (seen: nat)
      requires Valid()
      modifies this`pending, this`size, this`dropped, this`outbox
      ensures Valid() && pending == []
      ensures var r := FlushedAmid(old(pending), late);
        outbox == old(outbox) + r.sends && dropped == old(dropped) + r.drops && seen == r.seen
    {
      hide Grouped, SizeOf;
      seen := 0;
      var rest := late;
      ghost var all := FlushedAmid(pending, late);
      while pending != []
        invariant Valid()
        invariant var r := FlushedAmid(pending, rest);
          && outbox + r.sends == old(outbox) + all.sends
          && dropped + r.drops == old(dropped) + all.drops && seen + r.seen == all.seen
        decreases |rest|, |pending|
      {
        ghost var o, r := outbox, FlushedAmid(pending, rest);
        ghost var left := pending[Chunk(|pending|)..];
        ghost var next := if rest == [] then FlushedAmid(left, []) else FlushedAmid(Kept(left + rest[0]), rest[1..]);
        assert r.sends == Grouped(pending[..Chunk(|pending|)]) + next.sends;
        hide FlushedAmid, Kept;
        var take := Take();
        var sends := Publish(take);
        outbox := outbox + sends;
        assert (o + sends) + next.sends == o + (sends + next.sends);
        if rest != [] {
          AddAll(rest[0]);
          rest := rest[1..];
          seen := seen + 1;
        }
      }
    }

    /** kick: a token for the flusher, if there is none yet. */
    method Kick()
      modifies this`wake
      ensures wake
    {
      wake := true;
    }

    /** The first part of Close. */
    method Stop()
      modifies this`stopped
      ensures stopped
    {
      stopped := true;
    }
  }
}
