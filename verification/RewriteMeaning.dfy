/** What the rewriter does, said with the library's own matches and with plain concatenation. */
module RewriteMeaning {
  import opened Config
  import opened Splice
  import opened Rewrite
  import opened RewriteLaws

  // ---- one operation ----

  /** An operation acts on exactly the first matches of its pattern: as many as it may make, and as
      many as are left in the budget. */
  lemma ActsOnFirst(e: Engine, op: BodyOp, body: Bytes, budget: int)
    requires Lawful(e) && op.maxMatches > 0 && budget > 0
    ensures var all := e.findAll(op.pattern, body, op.maxMatches);
      Hits(e, op, body, budget) == if |all| <= budget then all else all[..budget]
  {
    var all := e.findAll(op.pattern, body, op.maxMatches);
    var limit := Min(op.maxMatches, budget);
    assert e.findAll(op.pattern, body, limit) == all[..Min(limit, |all|)];
    if |all| <= budget { assert all[..|all|] == all; }
  }

  /** The matches of one operation, the body it leaves and the budget that remains, for any budget. */
  lemma OneOperation(e: Engine, op: BodyOp, body: Bytes, budget: int)
    requires Lawful(e) && op.maxMatches > 0 && budget > 0
    ensures var all := e.findAll(op.pattern, body, op.maxMatches);
      var ms := if |all| <= budget then all else all[..budget];
      && Ordered(ms, |body|)
      && RunOps(e, [op], body, budget) == Ops(Spliced(e, op, body, ms), budget - |ms|, |ms|, false)
  {
    ActsOnFirst(e, op, body, budget);
    HitsFacts(e, op, body, budget);
    var ms := Hits(e, op, body, budget);
    if ms == [] { assert Spliced(e, op, body, ms) == body; }
    hide Lawful, Hits, Spliced;
    assert [op][1..] == [];
    var next := OpBody(e, op, body, budget);
    assert RunOps(e, [], next, budget - |ms|) == Ops(next, budget - |ms|, 0, false);
  }

  /** What one match becomes, between what stands before and after it. */
  lemma OneMatch(e: Engine, op: BodyOp, a: Bytes, x: Bytes, b: Bytes, groups: seq<int>)
    ensures var body, m := a + x + b, Match(|a|, |a| + |x|, groups);
      && Ordered([m], |body|)
      && (op.kind == Remove ==> Spliced(e, op, body, [m]) == a + b)
      && (op.kind == Replace ==> Spliced(e, op, body, [m]) == a + e.expand(op.pattern, op.to, body, m) + b)
      && (op.kind == InsertBefore ==> Spliced(e, op, body, [m]) == a + op.text + x + b)
      && (op.kind == InsertAfter ==> Spliced(e, op, body, [m]) == a + x + op.text + b)
  {
    var body, m := a + x + b, Match(|a|, |a| + |x|, groups);
    var none: seq<Match> := [];
    assert [m][1..] == none && SpliceFrom(e, op, body, none, m.hi) == body[m.hi..];
    assert body[0..|a|] == a && body[|a|..|a| + |x|] == x && body[|a| + |x|..] == b;
    assert Spliced(e, op, body, [m]) == a + Sub(e, op, body, m) + b;
    hide Spliced, SpliceFrom;
  }

  /** Several matches: the first is dealt with like one, and the rest of the body like a body of its
      own. */
  lemma MoreMatches(e: Engine, op: BodyOp, body: Bytes, ms: seq<Match>)
    requires ms != [] && Ordered(ms, |body|)
    ensures Ready(ms[1..], ms[0].hi, |body|)
    ensures Spliced(e, op, body, ms) ==
      body[..ms[0].lo] + Sub(e, op, body, ms[0]) + SpliceFrom(e, op, body, ms[1..], ms[0].hi)
  {
    ReadyNext(ms, 0, |body|);
    assert body[0..ms[0].lo] == body[..ms[0].lo];
  }

  // ---- several operations ----

  /** Operations one after the other: the second list works on the body and the budget that the
      first leaves, unless the budget ran out before the first was through. */
  lemma {:induction false} OpsCompose(e: Engine, a: seq<BodyOp>, b: seq<BodyOp>, body: Bytes, budget: int)
    requires Lawful(e)
    ensures var r := RunOps(e, a, body, budget); var q := RunOps(e, b, r.body, r.budget);
      RunOps(e, a + b, body, budget) ==
        if r.spent then r else q.(matches := r.matches + q.matches)
    decreases |a|
  {
    hide Lawful, Hits, OpBody;
    if a == [] {
      assert a + b == b;
    } else if budget > 0 {
      var n := |Hits(e, a[0], body, budget)|;
      OpsCompose(e, a[1..], b, OpBody(e, a[0], body, budget), budget - n);
      assert (a + b)[0] == a[0] && (a + b)[1..] == a[1..] + b;
    } else {
      assert (a + b)[0] == a[0];
    }
  }

  /** A group runs out of budget exactly if one of its operations finds none left. */
  lemma {:induction false} SpentIff(e: Engine, ops: seq<BodyOp>, body: Bytes, budget: int)
    requires Lawful(e)
    ensures RunOps(e, ops, body, budget).spent <==>
      exists j :: 0 <= j < |ops| && RunOps(e, ops[..j], body, budget).budget <= 0
  {
    if ops != [] {
      var init, op := ops[..|ops| - 1], ops[|ops| - 1];
      SpentIff(e, init, body, budget);
      OpsCompose(e, init, [op], body, budget);
      assert ops == init + [op];
      LastOp(e, op, RunOps(e, init, body, budget).body, RunOps(e, init, body, budget).budget);
      SpentIsGone(e, init, body, budget);
      hide Lawful, Hits, RunOps;
      assert forall j :: 0 <= j < |init| ==> init[..j] == ops[..j];
      assert ops[..|init|] == init;
    }
  }

  lemma LastOp(e: Engine, op: BodyOp, body: Bytes, budget: int)
    requires Lawful(e)
    ensures RunOps(e, [op], body, budget).spent <==> budget <= 0
  {
    hide Lawful, Hits, OpBody;
    assert [op][1..] == [];
    if budget > 0 {
      var n := |Hits(e, op, body, budget)|;
      assert !RunOps(e, [], OpBody(e, op, body, budget), budget - n).spent;
    }
  }

  lemma {:induction false} SpentIsGone(e: Engine, ops: seq<BodyOp>, body: Bytes, budget: int)
    requires Lawful(e)
    ensures RunOps(e, ops, body, budget).spent ==> RunOps(e, ops, body, budget).budget <= 0
    decreases |ops|
  {
    hide Lawful, Hits, OpBody;
    if ops != [] && budget > 0 {
      SpentIsGone(e, ops[1..], OpBody(e, ops[0], body, budget), budget - |Hits(e, ops[0], body, budget)|);
    }
  }

  // ---- the groups ----

  /** What becomes of one group, by its selector, its operations and the body. */
  ghost predicate RowFits(g: Group, hit: Group -> bool, nil: bool, row: Row) {
    && row.group == g.name
    && (row.skipped == Conditions <==> !hit(g))
    && (row.skipped == NoBody <==> hit(g) && |g.body| > 0 && nil)
    && (row.skipped == OutOfBudget ==> !nil)
    && row.headers == (if hit(g) && (|g.body| == 0 || !nil) then |g.headers| else 0)
    && (row.matches != 0 ==> hit(g) && |g.body| > 0 && !nil)
  }

  /** One row for each group, in order. */
  lemma {:induction false} RowsMean(e: Engine, gs: seq<Group>, hit: Group -> bool, nil: bool, st: Run)
    requires Lawful(e) && (nil <==> st.out.body.None?)
    ensures var r := RunGroups(e, gs, hit, nil, st).out; var n := |st.out.rows|;
      && |r.rows| == n + |gs|
      && forall i :: 0 <= i < |gs| ==> RowFits(gs[i], hit, nil, r.rows[n + i])
    decreases |gs|
  {
    if gs != [] {
      var t := GroupStep(e, gs[0], hit, nil, st);
      OneRow(e, gs[0], hit, nil, st);
      RowsMean(e, gs[1..], hit, nil, t);
      RowsAreAppended(e, gs[1..], hit, nil, t, []);
      var r, n := RunGroups(e, gs, hit, nil, st).out, |st.out.rows|;
      assert r == RunGroups(e, gs[1..], hit, nil, t).out;
      hide RunGroups, GroupStep, RowFits, Lawful, SameButRows;
      assert r.rows[n] == r.rows[..n + 1][n] == t.out.rows[n];
      forall i | 0 <= i < |gs| ensures RowFits(gs[i], hit, nil, r.rows[n + i]) {
        if i > 0 { assert gs[i] == gs[1..][i - 1] && r.rows[n + i] == r.rows[n + 1 + (i - 1)]; }
      }
    }
  }

  /** What one group leaves: a group that matches leaves the body and the budget of its operations
      and one row with their matches, and the run is out of budget from the first group on that
      could not carry out one of its operations. */
  lemma OneGroup(e: Engine, g: Group, hit: Group -> bool, nil: bool, st: Run)
    requires Lawful(e) && (nil <==> st.out.body.None?)
    ensures var t := RunGroups(e, [g], hit, nil, st);
      var short := hit(g) && !nil &&
        exists j :: 0 <= j < |g.body| && RunOps(e, g.body[..j], st.out.body.value, st.budget).budget <= 0;
      && |t.out.rows| == |st.out.rows| + 1
      && var row := t.out.rows[|st.out.rows|];
      && (row.skipped == OutOfBudget <==> short)
      && (t.out.spent <==> st.out.spent || short)
      && if hit(g) && !nil then
           var r := RunOps(e, g.body, st.out.body.value, st.budget);
           t.out.body == Some(r.body) && t.budget == r.budget && row.matches == r.matches
         else
           t.out.body == st.out.body && t.budget == st.budget && row.matches == 0
  {
    assert [g][1..] == [];
    if !nil { SpentIff(e, g.body, st.out.body.value, st.budget); }
    var t := GroupStep(e, g, hit, nil, st);
    hide Lawful, RunOps;
    assert RunGroups(e, [], hit, nil, t) == t;
  }

  /** The group called `x` matches, and has its body if it works on one. */
  predicate Takes(gs: seq<Group>, hit: Group -> bool, nil: bool, x: string) {
    exists i :: 0 <= i < |gs| && gs[i].name == x && hit(gs[i]) && (|gs[i].body| == 0 || !nil)
  }

  /** Exactly those groups are applied. */
  lemma {:induction false} AppliedMeans(e: Engine, gs: seq<Group>, hit: Group -> bool, nil: bool, st: Run, x: string)
    requires Lawful(e) && (nil <==> st.out.body.None?)
    ensures x in RunGroups(e, gs, hit, nil, st).out.groups <==> x in st.out.groups || Takes(gs, hit, nil, x)
    decreases |gs|
  {
    if gs != [] {
      OneRow(e, gs[0], hit, nil, st);
      hide GroupStep, Lawful, RowFits;
      AppliedMeans(e, gs[1..], hit, nil, GroupStep(e, gs[0], hit, nil, st), x);
      hide RunGroups;
      TakesCons(gs, hit, nil, x);
    }
  }

  lemma TakesCons(gs: seq<Group>, hit: Group -> bool, nil: bool, x: string)
    requires gs != []
    ensures Takes(gs, hit, nil, x) <==>
      (gs[0].name == x && hit(gs[0]) && (|gs[0].body| == 0 || !nil)) || Takes(gs[1..], hit, nil, x)
  {
    if i :| 1 <= i < |gs| && gs[i].name == x && hit(gs[i]) && (|gs[i].body| == 0 || !nil) {
      assert gs[1..][i - 1] == gs[i];
    }
    if i :| 0 <= i < |gs[1..]| && gs[1..][i].name == x && hit(gs[1..][i]) && (|gs[1..][i].body| == 0 || !nil) {
      assert gs[i + 1] == gs[1..][i];
    }
  }

  lemma OneRow(e: Engine, g: Group, hit: Group -> bool, nil: bool, st: Run)
    requires Lawful(e) && (nil <==> st.out.body.None?)
    ensures var t := GroupStep(e, g, hit, nil, st); var n := |st.out.rows|;
      && (nil <==> t.out.body.None?)
      && |t.out.rows| == n + 1 && RowFits(g, hit, nil, t.out.rows[n])
      && forall x :: x in t.out.groups <==> x in st.out.groups || (g.name == x && hit(g) && (|g.body| == 0 || !nil))
  {
    if !nil && g.body == [] { assert RunOps(e, g.body, st.out.body.value, st.budget).matches == 0; }
    hide Lawful, RunOps;
  }
}
