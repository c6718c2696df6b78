/** The header operations of a run, described without its loops. */
module RewriteHeaders {
  import opened Config
  import opened Splice
  import opened Rewrite

  /** The header operations of the groups that are not passed over, in order. */
  function ActiveHeaderOps(gs: seq<Group>, hit: Group -> bool, nil: bool): seq<HeaderOp> {
    if gs == [] then []
    else (if PassedOver(gs[0], hit, nil) then [] else gs[0].headers) + ActiveHeaderOps(gs[1..], hit, nil)
  }

  function ActiveNames(gs: seq<Group>, hit: Group -> bool, nil: bool): seq<string> {
    if gs == [] then []
    else (if PassedOver(gs[0], hit, nil) then [] else [gs[0].name]) + ActiveNames(gs[1..], hit, nil)
  }

  lemma {:induction false} HeadersConcat(h: Option<HeaderOps>, a: seq<HeaderOp>, b: seq<HeaderOp>)
    ensures HeadersAfter(h, a + b) == HeadersAfter(HeadersAfter(h, a), b)
    decreases |a|
  {
    if a == [] {
      assert a + b == b;
    } else {
      assert (a + b)[0] == a[0] && (a + b)[1..] == a[1..] + b;
      HeadersConcat(Some(HeaderStep(h, a[0])), a[1..], b);
    }
  }

  lemma {:induction false} FoldHeaders(e: Engine, gs: seq<Group>, hit: Group -> bool, nil: bool, st: Run)
    requires Lawful(e) && (nil <==> st.out.body.None?)
    ensures RunGroups(e, gs, hit, nil, st).out.headers == HeadersAfter(st.out.headers, ActiveHeaderOps(gs, hit, nil))
    decreases |gs|
  {
    hide Lawful, GroupStep;
    if gs != [] {
      hide HeadersAfter;
      GroupHeaders(e, gs[0], hit, nil, st);
      var ops := if PassedOver(gs[0], hit, nil) then [] else gs[0].headers;
      FoldHeaders(e, gs[1..], hit, nil, GroupStep(e, gs[0], hit, nil, st));
      HeadersConcat(st.out.headers, ops, ActiveHeaderOps(gs[1..], hit, nil));
    }
  }

  lemma {:induction false} FoldNames(e: Engine, gs: seq<Group>, hit: Group -> bool, nil: bool, st: Run)
    requires Lawful(e) && (nil <==> st.out.body.None?)
    ensures RunGroups(e, gs, hit, nil, st).out.groups == st.out.groups + ActiveNames(gs, hit, nil)
    decreases |gs|
  {
    hide Lawful, GroupStep, HeadersAfter;
    if gs != [] {
      GroupHeaders(e, gs[0], hit, nil, st);
      FoldNames(e, gs[1..], hit, nil, GroupStep(e, gs[0], hit, nil, st));
    }
  }

  /** Which groups are applied, and what happens to the headers, depends neither on the body nor
      on the budget: also a group whose body operations ran out of budget contributes. */
  lemma HeadersIgnoreBudget(e: Engine, gs: seq<Group>, hit: Group -> bool, body: Option<Bytes>, budget: int)
    requires Lawful(e)
    ensures var out := RunGroups(e, gs, hit, body.None?, Start(body, budget)).out;
      && out.headers == HeadersAfter(None, ActiveHeaderOps(gs, hit, body.None?))
      && out.groups == ActiveNames(gs, hit, body.None?)
  {
    FoldHeaders(e, gs, hit, body.None?, Start(body, budget));
    FoldNames(e, gs, hit, body.None?, Start(body, budget));
  }

  lemma GroupHeaders(e: Engine, g: Group, hit: Group -> bool, nil: bool, st: Run)
    requires Lawful(e) && (nil <==> st.out.body.None?)
    ensures var st' := GroupStep(e, g, hit, nil, st);
      && (nil <==> st'.out.body.None?)
      && st'.out.headers == HeadersAfter(st.out.headers, if PassedOver(g, hit, nil) then [] else g.headers)
      && st'.out.groups == st.out.groups + (if PassedOver(g, hit, nil) then [] else [g.name])
  {
    hide Lawful, RunOps;
  }

  // ---- the meaning of the fold ----

  predicate Unsets(op: HeaderOp, name: string) { op.kind == UnsetHeader && op.name == name }
  predicate Sets(op: HeaderOp, name: string) { op.kind == SetHeader && op.name == name }

  /** The value the last set operation for `name` asks for. */
  function LastSet(ops: seq<HeaderOp>, name: string): Option<string> {
    if ops == [] then None
    else if Sets(ops[|ops| - 1], name) then Some(ops[|ops| - 1].value)
    else LastSet(ops[..|ops| - 1], name)
  }

  /** The index of the first unset operation for `name`, or the length. */
  function FirstUnset(ops: seq<HeaderOp>, name: string): nat {
    if ops == [] then 0
    else
      var k := FirstUnset(ops[..|ops| - 1], name);
      if k < |ops| - 1 then k else if Unsets(ops[|ops| - 1], name) then |ops| - 1 else |ops|
  }

  lemma {:induction false} FirstUnsetIsFirst(ops: seq<HeaderOp>, name: string)
    ensures FirstUnset(ops, name) <= |ops|
    ensures FirstUnset(ops, name) < |ops| ==> Unsets(ops[FirstUnset(ops, name)], name)
    ensures forall i :: 0 <= i < FirstUnset(ops, name) ==> !Unsets(ops[i], name)
  {
    if ops != [] { FirstUnsetIsFirst(ops[..|ops| - 1], name); }
  }

  /** `unset` is the duplicate-free list of the unset names, in the order of first mention. */
  ghost predicate UnsetList(unset: seq<string>, ops: seq<HeaderOp>) {
    && (forall name :: name in unset <==> FirstUnset(ops, name) < |ops|)
    && (forall i, j :: 0 <= i < j < |unset| ==> FirstUnset(ops, unset[i]) < FirstUnset(ops, unset[j]))
  }

  ghost predicate SetMap(m: map<string, string>, ops: seq<HeaderOp>) {
    forall name :: if LastSet(ops, name).Some? then name in m && m[name] == LastSet(ops, name).value else name !in m
  }

  lemma UnsetSnoc(unset: seq<string>, ops: seq<HeaderOp>, op: HeaderOp)
    requires UnsetList(unset, ops)
    ensures UnsetList(if op.kind == UnsetHeader && op.name !in unset then unset + [op.name] else unset, ops + [op])
  {
    var ops' := ops + [op];
    assert ops'[..|ops'| - 1] == ops;
    var unset' := if op.kind == UnsetHeader && op.name !in unset then unset + [op.name] else unset;
    forall name
      ensures FirstUnset(ops', name) ==
        if name in unset then FirstUnset(ops, name) else if Unsets(op, name) then |ops| else |ops| + 1
    {
      FirstUnsetIsFirst(ops, name);
    }
    forall name ensures name in unset' <==> FirstUnset(ops', name) < |ops'| {}
  }

  lemma SetSnoc(m: map<string, string>, ops: seq<HeaderOp>, op: HeaderOp)
    requires SetMap(m, ops)
    ensures SetMap(if op.kind == SetHeader then m[op.name := op.value] else m, ops + [op])
  {
    var ops' := ops + [op];
    assert ops'[..|ops'| - 1] == ops;
    forall name ensures LastSet(ops', name) == (if Sets(op, name) then Some(op.value) else LastSet(ops, name)) {}
  }

  /** From nothing, the fold gives no header change exactly for no operation; otherwise each set
      name gets the value of its last writer, and the unset list is duplicate free, complete and
      in order of first mention. */
  lemma {:induction false} HeadersMean(ops: seq<HeaderOp>)
    ensures HeadersAfter(None, ops).None? <==> ops == []
    ensures ops != [] ==>
      SetMap(HeadersAfter(None, ops).value.set_, ops) && UnsetList(HeadersAfter(None, ops).value.unset, ops)
    decreases |ops|
  {
    if ops != [] {
      var init, op := ops[..|ops| - 1], ops[|ops| - 1];
      assert ops == init + [op];
      HeadersMean(init);
      HeadersSnoc(None, init, op);
      var cur := if init == [] then HeaderOps(map[], []) else HeadersAfter(None, init).value;
      assert SetMap(cur.set_, init) && UnsetList(cur.unset, init);
      SetSnoc(cur.set_, init, op);
      UnsetSnoc(cur.unset, init, op);
    }
  }
}
