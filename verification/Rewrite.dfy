/** Applying the active groups to a response or a frame: nested loops over groups and their
    operations that share one match budget. */
module Rewrite {
  import opened Config
  import opened Splice

  datatype HeaderOps = HeaderOps(set_: map<string, string>, unset: seq<string>)

  datatype Skipped = NotSkipped | Conditions | NoBody | OutOfBudget

  datatype Row = Row(group: string, matches: int, headers: int, skipped: Skipped)

  datatype Applied = Applied(
    groups: seq<string>, body: Option<Bytes>, changed: bool,
    headers: Option<HeaderOps>, rows: seq<Row>, spent: bool)

  /** The result so far and the matches that may still be made. */
  datatype Run = Run(out: Applied, budget: int)

  function Start(body: Option<Bytes>, budget: int): Run {
    Run(Applied([], body, false, None, [], false), budget)
  }

  // ---- one body operation ----

  /** The matches an operation acts on. */
  function Hits(e: Engine, op: BodyOp, body: Bytes, budget: int): seq<Match> {
    var limit := Min(op.maxMatches, budget);
    if limit <= 0 then [] else e.findAll(op.pattern, body, limit)
  }

  ghost function OpBody(e: Engine, op: BodyOp, body: Bytes, budget: int): Bytes
    requires Lawful(e)
  {
    var ms := Hits(e, op, body, budget);
    assert Ordered(ms, |body|);
    if ms == [] then body else Spliced(e, op, body, ms)
  }

  /** applyBodyOp. An operation makes at most max_matches and at most the remaining budget of
      matches, and pays for them. */
  method ApplyBodyOp(e: Engine, op: BodyOp, body: Bytes, budget: int) returns (out: Bytes, n: nat, left: int)
    requires Lawful(e)
    ensures n == |Hits(e, op, body, budget)| && out == OpBody(e, op, body, budget)
    ensures left == budget - n && (budget >= 0 ==> left >= 0)
    ensures n > 0 ==> n <= op.maxMatches
    ensures n == 0 ==> out == body
  {
    var limit := op.maxMatches;
    if limit > budget { limit := budget; }
    if limit <= 0 { return body, 0, budget; }
    var idx := e.findAll(op.pattern, body, limit);
    if |idx| == 0 { return body, 0, budget; }
    left := budget - |idx|;
    out := SpliceLoop(e, op, body, idx);
    n := |idx|;
  }

  // ---- the operations of one group ----

  datatype Ops = Ops(body: Bytes, budget: int, matches: int, spent: bool)

  /** The body operations of a group, one after the other, until the budget is gone. */
  ghost function RunOps(e: Engine, ops: seq<BodyOp>, body: Bytes, budget: int): Ops
    requires Lawful(e)
    decreases |ops|
  {
    if ops == [] then Ops(body, budget, 0, false)
    else if budget <= 0 then Ops(body, budget, 0, true)
    else
      var n := |Hits(e, ops[0], body, budget)|;
      var r := RunOps(e, ops[1..], OpBody(e, ops[0], body, budget), budget - n);
      r.(matches := r.matches + n)
  }

  function HeaderStep(h: Option<HeaderOps>, op: HeaderOp): HeaderOps {
    var cur := if h.Some? then h.value else HeaderOps(map[], []);
    match op.kind
    case SetHeader => cur.(set_ := cur.set_[op.name := op.value])
    case UnsetHeader => if op.name in cur.unset then cur else cur.(unset := cur.unset + [op.name])
    case OtherHeader(_) => cur
  }

  /** The header operations of all applied groups so far, folded in order. */
  function HeadersAfter(h: Option<HeaderOps>, ops: seq<HeaderOp>): Option<HeaderOps>
    decreases |ops|
  {
    if ops == [] then h else HeadersAfter(Some(HeaderStep(h, ops[0])), ops[1..])
  }

  /** Whether a group is passed over before any of its operations. */
  predicate PassedOver(g: Group, hit: Group -> bool, nil: bool) {
    !hit(g) || (HasBody(g) && nil)
  }

  ghost function GroupStep(e: Engine, g: Group, hit: Group -> bool, nil: bool, st: Run): Run
    requires Lawful(e) && (nil <==> st.out.body.None?)
  {
    if !hit(g) then st.(out := st.out.(rows := st.out.rows + [Row(g.name, 0, 0, Conditions)]))
    else if HasBody(g) && nil then st.(out := st.out.(rows := st.out.rows + [Row(g.name, 0, 0, NoBody)]))
    else
      var r := if nil then Ops([], st.budget, 0, false) else RunOps(e, g.body, st.out.body.value, st.budget);
      Run(Applied(
            st.out.groups + [g.name],
            if nil then None else Some(r.body),
            st.out.changed || r.matches != 0,
            HeadersAfter(st.out.headers, g.headers),
            st.out.rows + [Row(g.name, r.matches, |g.headers|, if r.spent then OutOfBudget else NotSkipped)],
            st.out.spent || r.spent),
          r.budget)
  }

  ghost function RunGroups(e: Engine, gs: seq<Group>, hit: Group -> bool, nil: bool, st: Run): Run
    requires Lawful(e) && (nil <==> st.out.body.None?)
    decreases |gs|
  {
    if gs == [] then st else RunGroups(e, gs[1..], hit, nil, GroupStep(e, gs[0], hit, nil, st))
  }

  // ---- the loops of the code ----

  /** applyHeaderOp. */
  method ApplyHeaderOp(h: Option<HeaderOps>, op: HeaderOp) returns (r: Option<HeaderOps>)
    ensures r == Some(HeaderStep(h, op))
  {
    var cur := if h.Some? then h.value else HeaderOps(map[], []);
    match op.kind {
      case SetHeader => cur := cur.(set_ := cur.set_[op.name := op.value]);
      case UnsetHeader =>
        for i := 0 to |cur.unset|
          invariant op.name !in cur.unset[..i]
        {
          if cur.unset[i] == op.name { return Some(cur); }
        }
        assert cur.unset[..|cur.unset|] == cur.unset;
        cur := cur.(unset := cur.unset + [op.name]);
      case OtherHeader(_) =>
    }
    return Some(cur);
  }

  lemma {:induction false} HeadersSnoc(h: Option<HeaderOps>, ops: seq<HeaderOp>, op: HeaderOp)
    ensures HeadersAfter(h, ops + [op]) == Some(HeaderStep(HeadersAfter(h, ops), op))
    decreases |ops|
  {
    if ops != [] {
      HeadersSnoc(Some(HeaderStep(h, ops[0])), ops[1..], op);
      assert (ops + [op])[1..] == ops[1..] + [op];
    }
  }

  method ApplyHeaders(h: Option<HeaderOps>, ops: seq<HeaderOp>) returns (r: Option<HeaderOps>, count: nat)
    ensures r == HeadersAfter(h, ops) && count == |ops|
  {
    r, count := h, 0;
    for i := 0 to |ops|
      invariant r == HeadersAfter(h, ops[..i]) && count == i
    {
      HeadersSnoc(h, ops[..i], ops[i]);
      assert ops[..i + 1] == ops[..i] + [ops[i]];
      r := ApplyHeaderOp(r, ops[i]);
      count := count + 1;
    }
    assert ops[..|ops|] == ops;
  }

  lemma OpsUnfold(e: Engine, ops: seq<BodyOp>, i: nat, body: Bytes, budget: int)
    requires Lawful(e) && i < |ops| && budget > 0
    ensures var n := |Hits(e, ops[i], body, budget)|;
      var r := RunOps(e, ops[i + 1..], OpBody(e, ops[i], body, budget), budget - n);
      RunOps(e, ops[i..], body, budget) == r.(matches := r.matches + n)
  {
    hide Lawful, Hits, OpBody;
    assert ops[i..][0] == ops[i] && ops[i..][1..] == ops[i + 1..];
  }

  method ApplyOps(e: Engine, ops: seq<BodyOp>, body: Bytes, budget: int) returns (r: Ops)
    requires Lawful(e)
    ensures r == RunOps(e, ops, body, budget)
  {
    hide Lawful, Hits, OpBody;
    r := Ops(body, budget, 0, false);
    var i := 0;
    while i < |ops|
      invariant 0 <= i <= |ops| && !r.spent
      invariant var rest := RunOps(e, ops[i..], r.body, r.budget);
        RunOps(e, ops, body, budget) == rest.(matches := rest.matches + r.matches)
    {
      if r.budget <= 0 { return r.(spent := true); }
      OpsUnfold(e, ops, i, r.body, r.budget);
      hide RunOps;
      var next, n, left := ApplyBodyOp(e, ops[i], r.body, r.budget);
      if n != 0 {
        r := r.(body := next, matches := r.matches + n);
      }
      r := r.(budget := left);
      i := i + 1;
    }
  }

  /** apply: the whole of it is the fold of GroupStep over the groups. */
  method Apply(e: Engine, groups: seq<Group>, hit: Group -> bool, body: Option<Bytes>) returns (out: Applied)
    requires Lawful(e)
    ensures out == RunGroups(e, groups, hit, body.None?, Start(body, MATCH_BUDGET)).out
  {
    out := Applied([], body, false, None, [], false);
    var budget := MATCH_BUDGET;
    var i := 0;
    while i < |groups|
      invariant 0 <= i <= |groups|
      invariant body.None? <==> out.body.None?
      invariant RunGroups(e, groups[i..], hit, body.None?, Run(out, budget)) ==
        RunGroups(e, groups, hit, body.None?, Start(body, MATCH_BUDGET))
    {
      out, budget := ApplyGroup(e, groups[i], hit, body.None?, out, budget);
      assert groups[i..][0] == groups[i] && groups[i..][1..] == groups[i + 1..];
      i := i + 1;
    }
  }

  method ApplyGroup(e: Engine, g: Group, hit: Group -> bool, nil: bool, out: Applied, budget: int)
    returns (next: Applied, left: int)
    requires Lawful(e) && (nil <==> out.body.None?)
    ensures Run(next, left) == GroupStep(e, g, hit, nil, Run(out, budget))
  {
    next, left := out, budget;
    var row := Row(g.name, 0, 0, NotSkipped);
    if !hit(g) {
      return next.(rows := next.rows + [row.(skipped := Conditions)]), left;
    }
    if HasBody(g) && nil {
      return next.(rows := next.rows + [row.(skipped := NoBody)]), left;
    }
    if !nil {
      var r := ApplyOps(e, g.body, out.body.value, budget);
      left := r.budget;
      next := next.(body := Some(r.body), changed := next.changed || r.matches != 0, spent := next.spent || r.spent);
      row := row.(matches := r.matches, skipped := if r.spent then OutOfBudget else NotSkipped);
    }
    var headers, count := ApplyHeaders(next.headers, g.headers);
    row := row.(headers := count);
    return next.(headers := headers, groups := next.groups + [g.name], rows := next.rows + [row]), left;
  }
}
