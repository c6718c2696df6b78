/** What applying groups guarantees about the budget, the size of the body, the headers and
    the independence of the groups. */
module RewriteLaws {
  import opened Config
  import opened Splice
  import opened Rewrite

  // ---- the budget is conserved ----

  function Total(rows: seq<Row>): int {
    if rows == [] then 0 else Total(rows[..|rows| - 1]) + rows[|rows| - 1].matches
  }

  lemma TotalSnoc(rows: seq<Row>, row: Row)
    ensures Total(rows + [row]) == Total(rows) + row.matches
  {
    assert (rows + [row])[..|rows|] == rows;
  }

  lemma HitsFacts(e: Engine, op: BodyOp, body: Bytes, budget: int)
    requires Lawful(e)
    ensures Ordered(Hits(e, op, body, budget), |body|)
    ensures budget > 0 ==> |Hits(e, op, body, budget)| <= budget
    ensures |Hits(e, op, body, budget)| == 0 || |Hits(e, op, body, budget)| <= op.maxMatches
  {}

  lemma {:induction false} OpsBudget(e: Engine, ops: seq<BodyOp>, body: Bytes, budget: int)
    requires Lawful(e) && budget >= 0
    ensures var r := RunOps(e, ops, body, budget);
      && r.budget >= 0 && r.matches >= 0 && r.matches + r.budget == budget
      && (r.spent ==> r.budget == 0)
      && (r.matches == 0 ==> r.body == body)
    decreases |ops|
  {
    hide Lawful, Hits, Spliced;
    if ops != [] && budget > 0 {
      HitsFacts(e, ops[0], body, budget);
      OpsBudget(e, ops[1..], OpBody(e, ops[0], body, budget), budget - |Hits(e, ops[0], body, budget)|);
    }
  }

  /** What a run has used and what it has left. */
  ghost predicate Balanced(r: Run, body: Option<Bytes>, budget: int) {
    && r.budget >= 0
    && Total(r.out.rows) + r.budget == budget
    && Total(r.out.rows) >= 0
    && (r.out.spent ==> r.budget == 0)
    && (r.out.changed <==> Total(r.out.rows) != 0)
    && (!r.out.changed ==> r.out.body == body)
    && (body.None? <==> r.out.body.None?)
    && (body.None? ==> !r.out.changed)
  }

  lemma GroupBudget(e: Engine, g: Group, hit: Group -> bool, nil: bool, st: Run, body: Option<Bytes>, budget: int)
    requires Lawful(e) && (nil <==> st.out.body.None?) && Balanced(st, body, budget)
    ensures Balanced(GroupStep(e, g, hit, nil, st), body, budget)
  {
    var r := GroupStep(e, g, hit, nil, st);
    TotalSnoc(st.out.rows, r.out.rows[|st.out.rows|]);
    if !PassedOver(g, hit, nil) && !nil { OpsBudget(e, g.body, st.out.body.value, st.budget); }
  }

  lemma {:induction false} GroupsBudget(
    e: Engine, gs: seq<Group>, hit: Group -> bool, nil: bool, st: Run, body: Option<Bytes>, budget: int)
    requires Lawful(e) && (nil <==> st.out.body.None?) && Balanced(st, body, budget)
    ensures Balanced(RunGroups(e, gs, hit, nil, st), body, budget)
    decreases |gs|
  {
    if gs != [] {
      GroupBudget(e, gs[0], hit, nil, st, body, budget);
      hide Balanced, GroupStep, Lawful;
      GroupsBudget(e, gs[1..], hit, nil, GroupStep(e, gs[0], hit, nil, st), body, budget);
    }
  }

  /** For every group list and body: the matches in the rows and what is left add up to the
      budget, "budget spent" means that every match was used, and the body has changed exactly
      if there was a match at all. */
  lemma BudgetConserved(e: Engine, gs: seq<Group>, hit: Group -> bool, body: Option<Bytes>, budget: nat)
    requires Lawful(e)
    ensures Balanced(RunGroups(e, gs, hit, body.None?, Start(body, budget)), body, budget)
  {
    GroupsBudget(e, gs, hit, body.None?, Start(body, budget), body, budget);
  }

  // ---- the budget is observable only when it is exhausted ----

  /** A limit that was not used up could have been larger. */
  lemma HitsSame(e: Engine, op: BodyOp, body: Bytes, b1: int, b2: int)
    requires Lawful(e) && 0 < b1 <= b2 && |Hits(e, op, body, b1)| < b1
    ensures Hits(e, op, body, b2) == Hits(e, op, body, b1)
  {
    var l1, l2 := Min(op.maxMatches, b1), Min(op.maxMatches, b2);
    if l1 > 0 && l1 != l2 {
      var m1, m2 := e.findAll(op.pattern, body, l1), e.findAll(op.pattern, body, l2);
      assert m1 == m2[..Min(l1, |m2|)];
    }
  }

  lemma {:induction false} OpsSame(e: Engine, ops: seq<BodyOp>, body: Bytes, b1: int, b2: int)
    requires Lawful(e) && 0 <= b1 <= b2 && RunOps(e, ops, body, b1).budget > 0
    ensures var r1, r2 := RunOps(e, ops, body, b1), RunOps(e, ops, body, b2);
      r2 == r1.(budget := r1.budget + b2 - b1)
    decreases |ops|
  {
    hide Lawful, Hits, Spliced;
    if ops != [] {
      var n := |Hits(e, ops[0], body, b1)|;
      HitsFacts(e, ops[0], body, b1);
      OpsBudget(e, ops, body, b1);
      OpsBudget(e, ops[1..], OpBody(e, ops[0], body, b1), b1 - n);
      HitsSame(e, ops[0], body, b1, b2);
      assert OpBody(e, ops[0], body, b2) == OpBody(e, ops[0], body, b1);
      hide OpBody;
      OpsSame(e, ops[1..], OpBody(e, ops[0], body, b1), b1 - n, b2 - n);
    }
  }

  lemma {:induction false} GroupsFall(e: Engine, gs: seq<Group>, hit: Group -> bool, nil: bool, st: Run)
    requires Lawful(e) && (nil <==> st.out.body.None?) && st.budget >= 0
    ensures 0 <= RunGroups(e, gs, hit, nil, st).budget <= st.budget
    decreases |gs|
  {
    if gs != [] {
      var st' := GroupStep(e, gs[0], hit, nil, st);
      if !PassedOver(gs[0], hit, nil) && !nil { OpsBudget(e, gs[0].body, st.out.body.value, st.budget); }
      assert 0 <= st'.budget <= st.budget && (nil <==> st'.out.body.None?);
      hide GroupStep, Lawful;
      GroupsFall(e, gs[1..], hit, nil, st');
    }
  }

  lemma GroupSame(e: Engine, g: Group, hit: Group -> bool, nil: bool, s1: Run, s2: Run)
    requires Lawful(e) && (nil <==> s1.out.body.None?) && s1.out == s2.out && 0 <= s1.budget <= s2.budget
    requires GroupStep(e, g, hit, nil, s1).budget > 0
    ensures var r1, r2 := GroupStep(e, g, hit, nil, s1), GroupStep(e, g, hit, nil, s2);
      r1.out == r2.out && r2.budget - r1.budget == s2.budget - s1.budget
  {
    if !PassedOver(g, hit, nil) && !nil { OpsSame(e, g.body, s1.out.body.value, s1.budget, s2.budget); }
  }

  /** If a run ends with budget to spare, a larger budget gives the same body, headers, groups
      and rows. */
  lemma {:induction false} BudgetUnobservable(
    e: Engine, gs: seq<Group>, hit: Group -> bool, nil: bool, s1: Run, s2: Run)
    requires Lawful(e) && (nil <==> s1.out.body.None?) && s1.out == s2.out && 0 <= s1.budget <= s2.budget
    requires RunGroups(e, gs, hit, nil, s1).budget > 0
    ensures RunGroups(e, gs, hit, nil, s1).out == RunGroups(e, gs, hit, nil, s2).out
    decreases |gs|
  {
    if gs != [] {
      var t1, t2 := GroupStep(e, gs[0], hit, nil, s1), GroupStep(e, gs[0], hit, nil, s2);
      GroupsFallOne(e, gs[0], hit, nil, s1);
      GroupsFall(e, gs[1..], hit, nil, t1);
      GroupSame(e, gs[0], hit, nil, s1, s2);
      hide GroupStep, Lawful;
      BudgetUnobservable(e, gs[1..], hit, nil, t1, t2);
    }
  }

  lemma GroupsFallOne(e: Engine, g: Group, hit: Group -> bool, nil: bool, st: Run)
    requires Lawful(e) && (nil <==> st.out.body.None?) && st.budget >= 0
    ensures var r := GroupStep(e, g, hit, nil, st);
      0 <= r.budget <= st.budget && (nil <==> r.out.body.None?)
  {
    if !PassedOver(g, hit, nil) && !nil { OpsBudget(e, g.body, st.out.body.value, st.budget); }
  }

  // ---- groups compose ----

  /** Applying two lists of groups is applying the second to what the first leaves. */
  lemma {:induction false} GroupsCompose(
    e: Engine, a: seq<Group>, b: seq<Group>, hit: Group -> bool, nil: bool, st: Run)
    requires Lawful(e) && (nil <==> st.out.body.None?)
    ensures nil <==> RunGroups(e, a, hit, nil, st).out.body.None?
    ensures RunGroups(e, a + b, hit, nil, st) == RunGroups(e, b, hit, nil, RunGroups(e, a, hit, nil, st))
    decreases |a|
  {
    if a == [] {
      assert a + b == b;
    } else {
      assert (a + b)[0] == a[0] && (a + b)[1..] == a[1..] + b;
      var st' := GroupStep(e, a[0], hit, nil, st);
      assert nil <==> st'.out.body.None?;
      hide GroupStep, Lawful;
      GroupsCompose(e, a[1..], b, hit, nil, st');
    }
  }

  /** Only the rows of two runs may differ. */
  ghost predicate SameButRows(r1: Run, r2: Run) {
    r1.budget == r2.budget && r1.out.(rows := []) == r2.out.(rows := [])
  }

  /** Rows are only appended, and nothing depends on them. */
  lemma {:induction false} RowsAreAppended(
    e: Engine, gs: seq<Group>, hit: Group -> bool, nil: bool, st: Run, rows: seq<Row>)
    requires Lawful(e) && (nil <==> st.out.body.None?)
    ensures var r1 := RunGroups(e, gs, hit, nil, st);
      var r2 := RunGroups(e, gs, hit, nil, st.(out := st.out.(rows := rows)));
      && SameButRows(r1, r2)
      && |r1.out.rows| == |st.out.rows| + |gs|
      && r1.out.rows[..|st.out.rows|] == st.out.rows
      && r2.out.rows == rows + r1.out.rows[|st.out.rows|..]
    decreases |gs|
  {
    var st2 := st.(out := st.out.(rows := rows));
    if gs != [] {
      var t1, t2 := GroupStep(e, gs[0], hit, nil, st), GroupStep(e, gs[0], hit, nil, st2);
      var row := t1.out.rows[|st.out.rows|];
      assert t1.out.rows == st.out.rows + [row] && t2 == t1.(out := t1.out.(rows := rows + [row]));
      assert nil <==> t1.out.body.None?;
      hide GroupStep, Lawful;
      RowsAreAppended(e, gs[1..], hit, nil, t1, rows + [row]);
      assert RunGroups(e, gs, hit, nil, st) == RunGroups(e, gs[1..], hit, nil, t1);
      assert RunGroups(e, gs, hit, nil, st2) == RunGroups(e, gs[1..], hit, nil, t2);
      hide RunGroups;
      AppendOne(st.out.rows, rows, row, RunGroups(e, gs, hit, nil, st).out.rows);
    }
  }

  lemma AppendOne(before: seq<Row>, other: seq<Row>, row: Row, all: seq<Row>)
    requires |before| < |all| && all[..|before| + 1] == before + [row]
    ensures all[..|before|] == before
    ensures (other + [row]) + all[|before| + 1..] == other + all[|before|..]
  {
    assert all[|before|] == all[..|before| + 1][|before|] == row;
    assert all[..|before|] == all[..|before| + 1][..|before|];
    assert all[|before|..] == [row] + all[|before| + 1..];
  }

  lemma PassedOverRow(e: Engine, g: Group, b: seq<Group>, hit: Group -> bool, nil: bool, st: Run) returns (row: Row)
    requires Lawful(e) && (nil <==> st.out.body.None?) && PassedOver(g, hit, nil)
    ensures row.group == g.name && row.skipped in {Conditions, NoBody}
    ensures RunGroups(e, [g] + b, hit, nil, st) ==
      RunGroups(e, b, hit, nil, st.(out := st.out.(rows := st.out.rows + [row])))
  {
    hide Lawful;
    assert ([g] + b)[0] == g && ([g] + b)[1..] == b;
    var st' := GroupStep(e, g, hit, nil, st);
    row := st'.out.rows[|st.out.rows|];
    assert st' == st.(out := st.out.(rows := st.out.rows + [row]));
  }

  /** Deleting a group that was passed over changes nothing but its own row. */
  lemma PassedOverIsInert(e: Engine, a: seq<Group>, g: Group, b: seq<Group>, hit: Group -> bool, nil: bool, st: Run)
    requires Lawful(e) && (nil <==> st.out.body.None?) && PassedOver(g, hit, nil)
    ensures var with_, without := RunGroups(e, a + [g] + b, hit, nil, st), RunGroups(e, a + b, hit, nil, st);
      var k := |st.out.rows| + |a|;
      && SameButRows(with_, without)
      && k < |with_.out.rows| && with_.out.rows[k].group == g.name && with_.out.rows[k].skipped in {Conditions, NoBody}
      && without.out.rows == with_.out.rows[..k] + with_.out.rows[k + 1..]
  {
    hide GroupStep, Lawful, RunGroups;
    GroupsCompose(e, a, b, hit, nil, st);
    GroupsCompose(e, a, [g] + b, hit, nil, st);
    assert a + [g] + b == a + ([g] + b);
    var mid := RunGroups(e, a, hit, nil, st);
    RowsAreAppended(e, a, hit, nil, st, []);
    var row := PassedOverRow(e, g, b, hit, nil, mid);
    var rows := mid.out.rows + [row];
    var mid' := mid.(out := mid.out.(rows := rows));
    assert mid'.(out := mid'.out.(rows := mid.out.rows)) == mid;
    RowsAreAppended(e, b, hit, nil, mid', mid.out.rows);
    OneRowOut(RunGroups(e, b, hit, nil, mid').out.rows, mid.out.rows, row);
  }

  lemma OneRowOut(all: seq<Row>, before: seq<Row>, row: Row)
    requires |all| > |before| && all[..|before| + 1] == before + [row]
    ensures all[|before|] == row && all[..|before|] == before
  {
    assert all[|before|] == all[..|before| + 1][|before|];
    assert all[..|before|] == all[..|before| + 1][..|before|];
  }

  // ---- when a body is changed ----

  /** An operation finds something in the body as it came. */
  ghost predicate Finds(e: Engine, ops: seq<BodyOp>, body: Bytes, budget: int) {
    exists i :: 0 <= i < |ops| && Hits(e, ops[i], body, budget) != []
  }

  /** A group that is not passed over has such an operation. */
  ghost predicate AnyFinds(e: Engine, gs: seq<Group>, hit: Group -> bool, body: Bytes, budget: int) {
    exists i :: 0 <= i < |gs| && hit(gs[i]) && Finds(e, gs[i].body, body, budget)
  }

  lemma {:induction false} OpsChangeIff(e: Engine, ops: seq<BodyOp>, body: Bytes, budget: int)
    requires Lawful(e) && budget > 0
    ensures var r := RunOps(e, ops, body, budget);
      if Finds(e, ops, body, budget) then r.matches != 0 else r == Ops(body, budget, 0, false)
    decreases |ops|
  {
    hide Lawful, Hits, Spliced;
    if ops != [] {
      var n := |Hits(e, ops[0], body, budget)|;
      HitsFacts(e, ops[0], body, budget);
      FindsCons(e, ops, body, budget);
      hide Finds;
      if n == 0 {
        OpsChangeIff(e, ops[1..], body, budget);
      } else {
        OpsBudget(e, ops[1..], OpBody(e, ops[0], body, budget), budget - n);
      }
    }
  }

  lemma FindsCons(e: Engine, ops: seq<BodyOp>, body: Bytes, budget: int)
    requires ops != []
    ensures Finds(e, ops, body, budget) <==> Hits(e, ops[0], body, budget) != [] || Finds(e, ops[1..], body, budget)
  {
    hide Hits;
    if Finds(e, ops[1..], body, budget) {
      var i :| 0 <= i < |ops[1..]| && Hits(e, ops[1..][i], body, budget) != [];
      assert ops[i + 1] == ops[1..][i];
    }
    if Finds(e, ops, body, budget) && Hits(e, ops[0], body, budget) == [] {
      var i :| 0 <= i < |ops| && Hits(e, ops[i], body, budget) != [];
      assert ops[1..][i - 1] == ops[i];
    }
  }

  lemma AnyFindsCons(e: Engine, gs: seq<Group>, hit: Group -> bool, body: Bytes, budget: int)
    requires gs != []
    ensures AnyFinds(e, gs, hit, body, budget) <==>
      (hit(gs[0]) && Finds(e, gs[0].body, body, budget)) || AnyFinds(e, gs[1..], hit, body, budget)
  {
    hide Finds;
    if AnyFinds(e, gs[1..], hit, body, budget) {
      var i :| 0 <= i < |gs[1..]| && hit(gs[1..][i]) && Finds(e, gs[1..][i].body, body, budget);
      assert gs[i + 1] == gs[1..][i];
    }
    if AnyFinds(e, gs, hit, body, budget) && !(hit(gs[0]) && Finds(e, gs[0].body, body, budget)) {
      var i :| 0 <= i < |gs| && hit(gs[i]) && Finds(e, gs[i].body, body, budget);
      assert gs[1..][i - 1] == gs[i];
    }
  }

  lemma {:induction false} ChangedStays(e: Engine, gs: seq<Group>, hit: Group -> bool, nil: bool, st: Run)
    requires Lawful(e) && (nil <==> st.out.body.None?) && st.out.changed
    ensures RunGroups(e, gs, hit, nil, st).out.changed
    decreases |gs|
  {
    hide Lawful, RunOps;
    if gs != [] { ChangedStays(e, gs[1..], hit, nil, GroupStep(e, gs[0], hit, nil, st)); }
  }

  /** A run changes the body exactly if some operation of a matching group finds something in the
      body as it came: nothing that earlier operations do matters for that. */
  lemma {:induction false} ChangedIff(e: Engine, gs: seq<Group>, hit: Group -> bool, st: Run)
    requires Lawful(e) && st.out.body.Some? && !st.out.changed && st.budget > 0
    ensures RunGroups(e, gs, hit, false, st).out.changed <==> AnyFinds(e, gs, hit, st.out.body.value, st.budget)
    decreases |gs|
  {
    if gs != [] {
      AnyFindsCons(e, gs, hit, st.out.body.value, st.budget);
      OpsChangeIff(e, gs[0].body, st.out.body.value, st.budget);
      var next := GroupStep(e, gs[0], hit, false, st);
      hide Lawful, RunOps, Finds, AnyFinds;
      if next.out.changed {
        ChangedStays(e, gs[1..], hit, false, next);
      } else {
        ChangedIff(e, gs[1..], hit, next);
      }
    }
  }
}
