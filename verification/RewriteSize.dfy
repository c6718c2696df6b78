/** The rewritten body as a replay of the operations that matched, and how large it can get. */
module RewriteSize {
  import opened Config
  import opened Splice
  import opened Rewrite
  import opened RewriteLaws

  /** An operation and the matches it acted on. */
  datatype Hit = Hit(op: BodyOp, ms: seq<Match>)

  /** The trace of one operation. */
  function HeadTrace(e: Engine, op: BodyOp, body: Bytes, budget: int): seq<Hit> {
    var ms := Hits(e, op, body, budget);
    if ms == [] then [] else [Hit(op, ms)]
  }

  ghost function OpsTrace(e: Engine, ops: seq<BodyOp>, body: Bytes, budget: int): seq<Hit>
    requires Lawful(e)
    decreases |ops|
  {
    if ops == [] || budget <= 0 then []
    else
      HeadTrace(e, ops[0], body, budget) +
      OpsTrace(e, ops[1..], OpBody(e, ops[0], body, budget), budget - |Hits(e, ops[0], body, budget)|)
  }

  /** Every operation of the run that matched something, over all groups, in order. */
  ghost function GroupsTrace(e: Engine, gs: seq<Group>, hit: Group -> bool, st: Run): seq<Hit>
    requires Lawful(e) && st.out.body.Some?
    decreases |gs|
  {
    if gs == [] then []
    else
      (if hit(gs[0]) then OpsTrace(e, gs[0].body, st.out.body.value, st.budget) else []) +
      GroupsTrace(e, gs[1..], hit, GroupStep(e, gs[0], hit, false, st))
  }

  /** `out` is `body` with the operations of the trace carried out one after the other. */
  ghost predicate Replays(e: Engine, tr: seq<Hit>, body: Bytes, out: Bytes)
    decreases |tr|
  {
    if tr == [] then out == body
    else Ordered(tr[0].ms, |body|) && Replays(e, tr[1..], Spliced(e, tr[0].op, body, tr[0].ms), out)
  }

  function Made(tr: seq<Hit>): int { if tr == [] then 0 else |tr[0].ms| + Made(tr[1..]) }

  /** The bytes the inserts of the trace add. */
  function Added(tr: seq<Hit>): int {
    if tr == [] then 0 else (if Inserts(tr[0].op) then |tr[0].ms| * |tr[0].op.text| else 0) + Added(tr[1..])
  }

  /** The bytes the removals of the trace take away. */
  function Cut(tr: seq<Hit>): int {
    if tr == [] then 0 else (if tr[0].op.kind == Remove then Extent(tr[0].ms) else 0) + Cut(tr[1..])
  }

  lemma {:induction false} ReplaysConcat(e: Engine, a: seq<Hit>, b: seq<Hit>, body: Bytes, mid: Bytes, out: Bytes)
    requires Replays(e, a, body, mid) && Replays(e, b, mid, out)
    ensures Replays(e, a + b, body, out) && Made(a + b) == Made(a) + Made(b)
    decreases |a|
  {
    if a == [] {
      assert a + b == b;
    } else {
      hide Ordered, Spliced;
      var next := Spliced(e, a[0].op, body, a[0].ms);
      assert Ordered(a[0].ms, |body|) && Replays(e, a[1..], next, mid);
      assert (a + b)[0] == a[0] && (a + b)[1..] == a[1..] + b;
      assert Made(a) == |a[0].ms| + Made(a[1..]) && Made(a + b) == |a[0].ms| + Made(a[1..] + b);
      assert Replays(e, a[1..] + b, next, out) ==> Replays(e, a + b, body, out);
      hide Replays, Made;
      ReplaysConcat(e, a[1..], b, next, mid, out);
    }
  }

  lemma ReplayOne(e: Engine, h: Hit, body: Bytes)
    requires Ordered(h.ms, |body|)
    ensures Replays(e, [h], body, Spliced(e, h.op, body, h.ms)) && Made([h]) == |h.ms|
  {
    hide Ordered, Spliced;
    assert [h][1..] == [];
  }

  lemma HeadReplay(e: Engine, op: BodyOp, body: Bytes, budget: int)
    requires Lawful(e)
    ensures Replays(e, HeadTrace(e, op, body, budget), body, OpBody(e, op, body, budget))
    ensures Made(HeadTrace(e, op, body, budget)) == |Hits(e, op, body, budget)|
  {
    HitsFacts(e, op, body, budget);
    hide Lawful, Hits, Ordered, Spliced;
    var ms := Hits(e, op, body, budget);
    if ms != [] {
      ReplayOne(e, Hit(op, ms), body);
    }
  }

  lemma {:induction false} OpsReplay(e: Engine, ops: seq<BodyOp>, body: Bytes, budget: int)
    requires Lawful(e)
    ensures Replays(e, OpsTrace(e, ops, body, budget), body, RunOps(e, ops, body, budget).body)
    ensures Made(OpsTrace(e, ops, body, budget)) == RunOps(e, ops, body, budget).matches
    decreases |ops|
  {
    hide Lawful, Hits, OpBody, HeadTrace;
    if ops == [] || budget <= 0 {
      assert OpsTrace(e, ops, body, budget) == [] && RunOps(e, ops, body, budget).body == body;
      assert RunOps(e, ops, body, budget).matches == 0;
      hide OpsTrace, RunOps;
    } else {
      hide Replays, Made;
      var n, next := |Hits(e, ops[0], body, budget)|, OpBody(e, ops[0], body, budget);
      HeadReplay(e, ops[0], body, budget);
      OpsReplay(e, ops[1..], next, budget - n);
      var head, tail := HeadTrace(e, ops[0], body, budget), OpsTrace(e, ops[1..], next, budget - n);
      var rest := RunOps(e, ops[1..], next, budget - n);
      assert OpsTrace(e, ops, body, budget) == head + tail;
      assert RunOps(e, ops, body, budget) == rest.(matches := rest.matches + n);
      hide OpsTrace, RunOps;
      ReplaysConcat(e, head, tail, body, next, rest.body);
    }
  }

  /** The rewritten body is exactly the replay of the matching operations, each acting on what
      the ones before it left, and the rows count exactly those matches. */
  lemma {:induction false} BodyIsReplay(e: Engine, gs: seq<Group>, hit: Group -> bool, st: Run)
    requires Lawful(e) && st.out.body.Some?
    ensures var r, tr := RunGroups(e, gs, hit, false, st), GroupsTrace(e, gs, hit, st);
      && r.out.body.Some? && Replays(e, tr, st.out.body.value, r.out.body.value)
      && Total(r.out.rows) == Total(st.out.rows) + Made(tr)
    decreases |gs|
  {
    hide Lawful;
    if gs != [] {
      var st' := GroupStep(e, gs[0], hit, false, st);
      var head := if hit(gs[0]) then OpsTrace(e, gs[0].body, st.out.body.value, st.budget) else [];
      OpsReplay(e, gs[0].body, st.out.body.value, st.budget);
      TotalSnoc(st.out.rows, st'.out.rows[|st.out.rows|]);
      assert Replays(e, head, st.out.body.value, st'.out.body.value);
      assert Total(st'.out.rows) == Total(st.out.rows) + Made(head);
      hide GroupStep, OpsTrace, Replays, Made;
      BodyIsReplay(e, gs[1..], hit, st');
      ReplaysConcat(e, head, GroupsTrace(e, gs[1..], hit, st'), st.out.body.value, st'.out.body.value,
        RunGroups(e, gs[1..], hit, false, st').out.body.value);
    }
  }

  // ---- size ----

  predicate Plain(op: BodyOp) { Inserts(op) || op.kind == Remove }

  /** A trace of removals and inserts changes the size by exactly what it adds and cuts. */
  lemma {:induction false} ReplaySize(e: Engine, tr: seq<Hit>, body: Bytes, out: Bytes)
    requires Replays(e, tr, body, out) && forall i :: 0 <= i < |tr| ==> Plain(tr[i].op)
    ensures |out| == |body| + Added(tr) - Cut(tr) && Cut(tr) >= 0
    decreases |tr|
  {
    if tr != [] {
      SpliceSize(e, tr[0].op, body, tr[0].ms, 0);
      ExtentPositive(tr[0].ms, |body|);
      assert Plain(tr[0].op);
      ReplaySize(e, tr[1..], Spliced(e, tr[0].op, body, tr[0].ms), out);
    }
  }

  lemma {:induction false} ExtentPositive(ms: seq<Match>, len: int)
    requires Ordered(ms, len)
    ensures Extent(ms) >= 0
  {
    if ms != [] { ExtentPositive(ms[1..], len); }
  }

  lemma {:induction false} AddedBound(tr: seq<Hit>, longest: nat)
    requires forall i :: 0 <= i < |tr| ==> |tr[i].op.text| <= longest
    ensures Added(tr) <= Made(tr) * longest && Made(tr) >= 0
  {
    if tr != [] {
      AddedBound(tr[1..], longest);
      assert |tr[0].op.text| <= longest;
      Scale(|tr[0].ms|, |tr[0].op.text|, longest);
      assert Made(tr) * longest == |tr[0].ms| * longest + Made(tr[1..]) * longest;
    }
  }

  lemma Scale(n: nat, a: nat, b: nat)
    requires a <= b
    ensures n * a <= n * b
  {}

  /** Every operation in the trace belongs to a group. */
  lemma {:induction false} OpsTraceOps(e: Engine, ops: seq<BodyOp>, body: Bytes, budget: int)
    requires Lawful(e)
    ensures forall i :: 0 <= i < |OpsTrace(e, ops, body, budget)| ==> OpsTrace(e, ops, body, budget)[i].op in ops
    decreases |ops|
  {
    hide Lawful, Hits;
    if ops != [] && budget > 0 {
      OpsTraceOps(e, ops[1..], OpBody(e, ops[0], body, budget), budget - |Hits(e, ops[0], body, budget)|);
    }
  }

  ghost predicate AllOps(gs: seq<Group>, longest: nat) {
    forall g, op :: g in gs && op in g.body ==> Plain(op) && |op.text| <= longest
  }

  lemma {:induction false} TraceOps(e: Engine, gs: seq<Group>, hit: Group -> bool, st: Run, longest: nat)
    requires Lawful(e) && st.out.body.Some? && AllOps(gs, longest)
    ensures forall i :: 0 <= i < |GroupsTrace(e, gs, hit, st)| ==>
      Plain(GroupsTrace(e, gs, hit, st)[i].op) && |GroupsTrace(e, gs, hit, st)[i].op.text| <= longest
    decreases |gs|
  {
    hide Lawful;
    if gs != [] {
      var st' := GroupStep(e, gs[0], hit, false, st);
      assert st'.out.body.Some?;
      OpsTraceOps(e, gs[0].body, st.out.body.value, st.budget);
      assert gs[0] in gs && forall g :: g in gs[1..] ==> g in gs;
      hide GroupStep, OpsTrace;
      TraceOps(e, gs[1..], hit, st', longest);
    }
  }

  /** With removals and inserts only, over all groups together: the size changes by exactly the
      inserted minus the removed bytes, and never by more than the match budget times the
      longest text. */
  lemma SizeBound(e: Engine, gs: seq<Group>, hit: Group -> bool, body: Bytes, longest: nat)
    requires Lawful(e) && AllOps(gs, longest)
    ensures var r := RunGroups(e, gs, hit, false, Start(Some(body), MATCH_BUDGET));
      var tr := GroupsTrace(e, gs, hit, Start(Some(body), MATCH_BUDGET));
      && r.out.body.Some?
      && |r.out.body.value| == |body| + Added(tr) - Cut(tr)
      && |r.out.body.value| <= |body| + MATCH_BUDGET * longest
  {
    var st := Start(Some(body), MATCH_BUDGET);
    var tr := GroupsTrace(e, gs, hit, st);
    BodyIsReplay(e, gs, hit, st);
    BudgetConserved(e, gs, hit, Some(body), MATCH_BUDGET);
    TraceOps(e, gs, hit, st, longest);
    hide Lawful, GroupsTrace, RunGroups;
    var r := RunGroups(e, gs, hit, false, st);
    ReplaySize(e, tr, body, r.out.body.value);
    AddedBound(tr, longest);
    assert Made(tr) <= MATCH_BUDGET;
    MoreTimes(Made(tr), MATCH_BUDGET, longest);
  }

  lemma MoreTimes(a: nat, b: nat, n: nat)
    requires a <= b
    ensures a * n <= b * n
  {}
}
