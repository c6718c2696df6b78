/** The numbers and the order of the audit sink. */
module AuditMeaning {
  import opened Seqs
  import opened Audit
  import opened AuditRuns

  /** An event counts with its bytes and two more. */
  lemma {:induction false} SizeMeans(a: seq<Item>, b: seq<Item>, it: Item)
    ensures SizeOf([]) == 0 && SizeOf([it]) == |it.body| + 2 && SizeOf(a + b) == SizeOf(a) + SizeOf(b)
    decreases |b|
  {
    assert [it][..0] == [];
    if b == [] {
      assert a + b == a;
    } else {
      SizeMeans(a, b[..|b| - 1], it);
      SizeSnoc(a + b[..|b| - 1], b[|b| - 1]);
      assert a + b == (a + b[..|b| - 1]) + [b[|b| - 1]];
    }
  }

  /** An event is dropped only when more than 50000 would be pending, and then just the oldest; a full
      list, of 256 events or half a mebibyte, asks for a flush. */
  lemma AddMeans(s: State, it: Item)
    requires Inv(s)
    ensures var s' := DoAdd(s, it);
      && s'.pending == (if |s.pending| < 50000 then s.pending + [it] else s.pending[1..] + [it])
      && s'.dropped == s.dropped + (if |s.pending| < 50000 then 0 else 1)
      && (s'.kicks == s.kicks + 1 <==> |s'.pending| >= 256 || SizeOf(s'.pending) >= 524288)
      && s'.kicks in {s.kicks, s.kicks + 1}
  {
    AddInv(s, it);
    if |s.pending| == 50000 { assert (s.pending + [it])[1..] == s.pending[1..] + [it]; }
    hide SizeOf;
  }

  /** The flusher takes the oldest 256 events, or all if there are fewer. */
  lemma TakeMeans(s: State)
    ensures var n := if |s.pending| < 256 then |s.pending| else 256;
      DoTake(s).pending == s.pending[n..] && DoTake(s).hand == Grouped(s.pending[..n])
  {
    hide Grouped, SizeOf;
  }

  /** `x` is first mentioned at index `i`. */
  predicate FirstMention(items: seq<Item>, x: string, i: nat) {
    i < |items| && items[i].subject == x && forall k :: 0 <= k < i ==> items[k].subject != x
  }

  /** A chunk is sent as one message for each of its subjects, in the order of their first mention. */
  lemma {:induction false} SubjectsInOrder(items: seq<Item>, j: nat, k: nat) returns (a: nat, b: nat)
    requires j < k < |Subjects(items)|
    ensures FirstMention(items, Subjects(items)[j], a) && FirstMention(items, Subjects(items)[k], b) && a < b
  {
    var init, it := items[..|items| - 1], items[|items| - 1];
    var subjects := Subjects(init);
    SubjectsFacts(init);
    if k < |subjects| {
      a, b := SubjectsInOrder(init, j, k);
    } else {
      a := Mentioned(init, subjects[j]);
      b := |items| - 1;
      NotMentioned(init, it.subject);
      assert forall i :: 0 <= i < b ==> items[i] == init[i];
    }
  }

  lemma {:induction false} Mentioned(items: seq<Item>, x: string) returns (i: nat)
    requires x in Subjects(items)
    ensures FirstMention(items, x, i)
  {
    var init := items[..|items| - 1];
    if x in Subjects(init) {
      i := Mentioned(init, x);
    } else {
      i := |items| - 1;
      NotMentioned(init, x);
      assert forall k :: 0 <= k < i ==> items[k] == init[k];
    }
  }

  lemma {:induction false} NotMentioned(items: seq<Item>, x: string)
    ensures x !in Subjects(items) ==> forall i :: 0 <= i < |items| ==> items[i].subject != x
  {
    if items != [] { NotMentioned(items[..|items| - 1], x); }
  }

  lemma GroupedIsBySubject(items: seq<Item>, j: nat)
    requires j < |Grouped(items)|
    ensures |Grouped(items)| == |Subjects(items)| && Grouped(items)[j].subject == Subjects(items)[j]
    ensures NoDup(Subjects(items))
  {
    SubjectsFacts(items);
  }

  /** Messages hold at most 256 events, and at most 50000 events are ever pending. */
  lemma RunLimits(run: seq<Step>, i: nat)
    requires Legal(run)
    ensures |At(run).pending| <= 50000
    ensures i < |At(run).sent| ==> 1 <= |At(run).sent[i].items| <= 256
  {
    NothingLost(run);
  }
}
