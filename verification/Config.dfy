/** Profiles: the groups of modifiers a rewrite applies and the rules for neighbour requests,
    with the validation that every other component relies on. */
module Config {

  datatype Option<+T> = None | Some(value: T)

  datatype Result<+T> = Ok(value: T) | Err(why: string)

  /** How a validation ends. An empty entry in a list of operations is dereferenced, which is the
      end of the program. */
  datatype Checked<+T> = Valid(value: T) | Refused(why: string) | Crashed

  /** A Go string and a byte slice hold the same bytes; both are sequences of characters here. */
  type Bytes = string

  const MAX_GROUPS := 16
  const MAX_OPS_PER_GROUP := 32
  const MAX_MATCHES_PER_OP := 4096
  const DEFAULT_MAX_MATCH := 256
  const MATCH_BUDGET := 4096
  const MAX_PATTERN_LENGTH := 512
  const ANY_INSPECTOR := "*"

  // A field that must hold one of a few words keeps any other word it was given.

  datatype Mode = Enforce | Observe | Off | OtherMode(text: string)
  datatype Phase = Unset | OnResponse | OnFrame | OtherPhase(text: string)
  datatype BodyKind = Remove | Replace | InsertBefore | InsertAfter | OtherKind(text: string)
  datatype HeaderKind = SetHeader | UnsetHeader | OtherHeader(text: string)
  datatype Verb = Skip | Mutate | Challenge | Reauth | Threshold | Note | OtherVerb(text: string)

  datatype BodyOp = BodyOp(kind: BodyKind, pattern: string, to: Bytes, text: Bytes, maxMatches: int)
  datatype HeaderOp = HeaderOp(kind: HeaderKind, name: string, value: string)
  datatype Group = Group(
    name: string, default_: bool, on: Phase,
    status: seq<int>, contentType: seq<string>,
    direction: seq<string>, opcode: seq<string>,
    body: seq<BodyOp>, headers: seq<HeaderOp>)
  datatype PriorRule = PriorRule(from: string, accept: seq<Verb>, codes: seq<string>)
  datatype Profile = Profile(name: string, mode: Mode, denyResponse: string, groups: seq<Group>, prior: seq<PriorRule>)

  // A decoded profile: entries of the lists of groups and of body operations may be empty.

  datatype GroupDraft = GroupDraft(
    name: string, default_: bool, on: Phase,
    status: seq<int>, contentType: seq<string>,
    direction: seq<string>, opcode: seq<string>,
    body: seq<Option<BodyOp>>, headers: seq<HeaderOp>)
  datatype Draft = Draft(
    name: string, mode: Mode, denyResponse: string, groups: seq<Option<GroupDraft>>, prior: seq<PriorRule>)

  predicate HasBody(g: Group) { |g.body| != 0 }

  predicate Accepts(r: PriorRule, verb: Verb) { verb in r.accept }

  predicate WantsCode(r: PriorRule, code: string) { |r.codes| == 0 || code in r.codes }

  // ---- words ----

  function LowerChar(c: char): char {
    if 'A' <= c <= 'Z' then (c as int + 32) as char else c
  }

  function Lower(s: string): string {
    seq(|s|, i requires 0 <= i < |s| => LowerChar(s[i]))
  }

  predicate HasFold(list: seq<string>, want: string) {
    exists i :: 0 <= i < |list| && Lower(list[i]) == Lower(want)
  }

  function TrimLeft(s: string): string {
    if s != "" && s[0] in {' ', '\t', '\n', '\r'} then TrimLeft(s[1..]) else s
  }

  function TrimRight(s: string): string {
    if s != "" && s[|s| - 1] in {' ', '\t', '\n', '\r'} then TrimRight(s[..|s| - 1]) else s
  }

  function Trim(s: string): string { TrimRight(TrimLeft(s)) }

  function UpTo(s: string, c: char): string {
    if s == "" || s[0] == c then "" else [s[0]] + UpTo(s[1..], c)
  }

  predicate EndsWith(s: string, t: string) { |t| <= |s| && s[|s| - |t|..] == t }

  // ---- which responses and frames a group is for ----

  /** A wanted type that starts with a plus sign is a suffix. */
  predicate TypeIs(ct: string, want: string) {
    if want != "" && want[0] == '+' then EndsWith(ct, want) else ct == want
  }

  predicate TypeAllowed(want: seq<string>, contentType: string) {
    var ct := Trim(UpTo(Lower(Trim(contentType)), ';'));
    |want| == 0 || exists i :: 0 <= i < |want| && TypeIs(ct, Lower(Trim(want[i])))
  }

  predicate Matches(g: Group, status: int, contentType: string) {
    (|g.status| == 0 || status in g.status) && TypeAllowed(g.contentType, contentType)
  }

  predicate MatchesFrame(g: Group, direction: string, opcode: string) {
    (|g.direction| == 0 || HasFold(g.direction, direction)) && (|g.opcode| == 0 || HasFold(g.opcode, opcode))
  }

  predicate Lowercase(c: char) { 'a' <= c <= 'z' }
  predicate Digit(c: char) { '0' <= c <= '9' }

  /** A group name: a lower-case letter or underscore, then up to 63 more word characters. */
  predicate GoodName(s: string) {
    && 1 <= |s| <= 64
    && (Lowercase(s[0]) || s[0] == '_')
    && forall i :: 1 <= i < |s| ==> Lowercase(s[i]) || Digit(s[i]) || s[i] == '_' || s[i] == '-'
  }

  predicate GoodHeaderName(s: string) {
    && 1 <= |s| <= 128
    && forall i :: 0 <= i < |s| ==> Lowercase(LowerChar(s[i])) || Digit(s[i]) || s[i] in {'.', '_', '~', '-'}
  }

  const FORBIDDEN_HEADERS := {
    "host", "authorization", "cookie", "content-length", "transfer-encoding", "content-encoding",
    "connection", "upgrade", "keep-alive", "proxy-authenticate", "proxy-authorization", "te",
    "trailer", "location", "date"}

  // ---- what validation demands ----

  /** Pattern compilation is the regular expression engine's; `compiles` stands for it. */
  predicate GoodBodyOp(compiles: string -> bool, o: BodyOp) {
    && !o.kind.OtherKind?
    && 0 < |o.pattern| <= MAX_PATTERN_LENGTH
    && compiles(o.pattern)
    && (if o.kind.Replace? then o.text == "" else o.to == "")
    && (o.kind.InsertBefore? || o.kind.InsertAfter? ==> o.text != "")
    && 0 <= o.maxMatches <= MAX_MATCHES_PER_OP
  }

  predicate GoodHeaderOp(o: HeaderOp) {
    && !o.kind.OtherHeader?
    && GoodHeaderName(o.name)
    && Lower(o.name) !in FORBIDDEN_HEADERS
    && !(o.kind.SetHeader? && Lower(o.name) == "set-cookie")
    && !(o.kind.UnsetHeader? && Lower(o.name) == "content-type")
    && (if o.kind.SetHeader? then '\r' !in o.value && '\n' !in o.value && '\0' !in o.value else o.value == "")
  }

  predicate GoodSelectors(g: Group) {
    match g.on
    case OnFrame =>
      && |g.headers| == 0 && |g.status| == 0 && |g.contentType| == 0
      && (forall i :: 0 <= i < |g.direction| ==> g.direction[i] in {"c2s", "s2c"})
      && (forall i :: 0 <= i < |g.opcode| ==> g.opcode[i] in {"text", "binary", "continuation"})
    case OtherPhase(_) => false
    case _ => |g.direction| == 0 && |g.opcode| == 0
  }

  predicate GoodGroup(compiles: string -> bool, g: Group) {
    && 1 <= |g.body| + |g.headers| <= MAX_OPS_PER_GROUP
    && GoodSelectors(g)
    && (forall i :: 0 <= i < |g.status| ==> 100 <= g.status[i] <= 599)
    && (forall i :: 0 <= i < |g.body| ==> GoodBodyOp(compiles, g.body[i]))
    && (forall i :: 0 <= i < |g.headers| ==> GoodHeaderOp(g.headers[i]))
  }

  predicate GoodRule(r: PriorRule) {
    && r.from != "" && r.from != ANY_INSPECTOR
    && |r.accept| != 0
    && forall i :: 0 <= i < |r.accept| ==> r.accept[i].Mutate? || r.accept[i].Skip?
  }

  predicate GoodProfile(compiles: string -> bool, p: Profile) {
    && !p.mode.OtherMode?
    && p.denyResponse != ""
    && |p.groups| <= MAX_GROUPS
    && (forall i :: 0 <= i < |p.groups| ==> GoodName(p.groups[i].name) && GoodGroup(compiles, p.groups[i]))
    && (forall i, j :: 0 <= i < j < |p.groups| ==> p.groups[i].name != p.groups[j].name)
    && (forall i :: 0 <= i < |p.prior| ==> GoodRule(p.prior[i]))
  }

  // ---- drafts ----

  predicate Full<T>(s: seq<Option<T>>) { forall i :: 0 <= i < |s| ==> s[i].Some? }

  function Values<T>(s: seq<Option<T>>): seq<T>
    requires Full(s)
  {
    seq(|s|, i requires 0 <= i < |s| => s[i].value)
  }

  /** A group with the given operations. */
  function Built(g: GroupDraft, body: seq<BodyOp>): Group {
    Group(g.name, g.default_, g.on, g.status, g.contentType, g.direction, g.opcode, body, g.headers)
  }

  function BuiltGroup(g: GroupDraft): Group
    requires Full(g.body)
  {
    Built(g, Values(g.body))
  }

  /** No entry of the draft is empty. */
  predicate Complete(d: Draft) {
    Full(d.groups) && forall i :: 0 <= i < |d.groups| ==> Full(d.groups[i].value.body)
  }

  function BuiltProfile(d: Draft): Profile
    requires Complete(d)
  {
    Profile(d.name, d.mode, d.denyResponse,
            seq(|d.groups|, i requires 0 <= i < |d.groups| => BuiltGroup(d.groups[i].value)), d.prior)
  }

  predicate GoodDraft(compiles: string -> bool, d: Draft) {
    Complete(d) && GoodProfile(compiles, BuiltProfile(d))
  }

  predicate GoodEntry(compiles: string -> bool, o: Option<BodyOp>) { o.Some? && GoodBodyOp(compiles, o.value) }

  /** The first operation that is not good is an empty one. */
  predicate OpsCrash(compiles: string -> bool, body: seq<Option<BodyOp>>) {
    exists j :: 0 <= j < |body| && body[j].None? && forall i :: 0 <= i < j ==> GoodEntry(compiles, body[i])
  }

  /** What is looked at before the operations of a group. */
  predicate GoodFront(g: GroupDraft) {
    && 1 <= |g.body| + |g.headers| <= MAX_OPS_PER_GROUP
    && GoodSelectors(Built(g, []))
    && forall i :: 0 <= i < |g.status| ==> 100 <= g.status[i] <= 599
  }

  predicate GroupCrash(compiles: string -> bool, g: GroupDraft) { GoodFront(g) && OpsCrash(compiles, g.body) }

  predicate GoodGroupDraft(compiles: string -> bool, g: GroupDraft) {
    Full(g.body) && GoodGroup(compiles, BuiltGroup(g))
  }

  /** The name of group `i` is good and none of the groups before it has it. */
  predicate GoodNameAt(groups: seq<Option<GroupDraft>>, i: nat) {
    && i < |groups| && groups[i].Some?
    && GoodName(groups[i].value.name)
    && forall k :: 0 <= k < i ==> groups[k].Some? && groups[k].value.name != groups[i].value.name
  }

  /** Group `i` and all before it are good. */
  predicate GoodUpTo(compiles: string -> bool, groups: seq<Option<GroupDraft>>, i: nat) {
    i <= |groups| && forall k: nat :: k < i ==> GoodNameAt(groups, k) && GoodGroupDraft(compiles, groups[k].value)
  }

  /** Validation comes upon an empty operation: everything it looks at before it is good. */
  predicate DraftCrash(compiles: string -> bool, d: Draft) {
    && !d.mode.OtherMode? && d.denyResponse != "" && |d.groups| <= MAX_GROUPS
    && exists i: nat ::
      i < |d.groups| && GoodNameAt(d.groups, i) && GroupCrash(compiles, d.groups[i].value)
      && GoodUpTo(compiles, d.groups, i)
  }

  // ---- the defaults validation writes in ----

  function FilledOp(o: BodyOp): BodyOp {
    if o.maxMatches == 0 then o.(maxMatches := DEFAULT_MAX_MATCH) else o
  }

  function FilledOps(ops: seq<BodyOp>): seq<BodyOp> {
    seq(|ops|, i requires 0 <= i < |ops| => FilledOp(ops[i]))
  }

  function FilledGroup(g: Group): Group {
    g.(on := if g.on.Unset? then OnResponse else g.on,
       opcode := if g.on.OnFrame? && |g.opcode| == 0 then ["text"] else g.opcode,
       body := FilledOps(g.body))
  }

  function Filled(p: Profile): Profile {
    p.(groups := seq(|p.groups|, i requires 0 <= i < |p.groups| => FilledGroup(p.groups[i])))
  }

  /** What a validated profile promises its users. */
  predicate Sound(p: Profile) {
    && !p.mode.OtherMode?
    && (forall i, j :: 0 <= i < j < |p.groups| ==> p.groups[i].name != p.groups[j].name)
    && (forall i :: 0 <= i < |p.groups| ==> SoundGroup(p.groups[i]))
    && (forall i :: 0 <= i < |p.prior| ==> GoodRule(p.prior[i]))
  }

  predicate SoundGroup(g: Group) {
    && (g.on.OnResponse? || g.on.OnFrame?)
    && (g.on.OnFrame? ==> |g.headers| == 0 && HasBody(g) && |g.opcode| != 0)
    && (forall i :: 0 <= i < |g.body| ==> !g.body[i].kind.OtherKind? && 1 <= g.body[i].maxMatches <= MAX_MATCHES_PER_OP)
    && (forall i :: 0 <= i < |g.headers| ==> GoodHeaderOp(g.headers[i]))
  }

  // ---- validation as the code runs it ----

  /** BodyOp.compile. */
  method CompileOp(compiles: string -> bool, o: BodyOp) returns (r: Result<BodyOp>)
    ensures r.Ok? <==> GoodBodyOp(compiles, o)
    ensures r.Ok? ==> r.value == FilledOp(o)
  {
    if o.kind.OtherKind? { return Err("op"); }
    if o.pattern == "" { return Err("pattern is empty"); }
    if |o.pattern| > MAX_PATTERN_LENGTH { return Err("pattern is too long"); }
    if !compiles(o.pattern) { return Err("pattern"); }
    if o.kind.Replace? {
      if o.text != "" { return Err("text is only for insert"); }
    } else if o.to != "" {
      return Err("to is only for replace");
    }
    if (o.kind.InsertBefore? || o.kind.InsertAfter?) && o.text == "" { return Err("text is empty"); }
    var limit := o.maxMatches;
    if limit == 0 { limit := DEFAULT_MAX_MATCH; }
    if limit < 0 || limit > MAX_MATCHES_PER_OP { return Err("max_matches is out of range"); }
    return Ok(o.(maxMatches := limit));
  }

  /** The operations of a group, in order: all compiled, or stopped at the first that is refused
      or empty. */
  method CompileOps(compiles: string -> bool, body: seq<Option<BodyOp>>) returns (r: Checked<seq<BodyOp>>)
    ensures r.Valid? <==> forall i :: 0 <= i < |body| ==> GoodEntry(compiles, body[i])
    ensures r.Valid? ==> Full(body) && r.value == FilledOps(Values(body))
    ensures r.Crashed? <==> OpsCrash(compiles, body)
  {
    hide GoodBodyOp, FilledOp;
    var ops := [];
    for i := 0 to |body|
      invariant |ops| == i
      invariant forall k :: 0 <= k < i ==> GoodEntry(compiles, body[k]) && ops[k] == FilledOp(body[k].value)
    {
      if body[i].None? { return Crashed; }
      var op := CompileOp(compiles, body[i].value);
      if op.Err? {
        assert !GoodEntry(compiles, body[i]);
        return Refused(op.why);
      }
      ops := ops + [op.value];
    }
    assert Full(body);
    assert ops == FilledOps(Values(body));
    return Valid(ops);
  }

  method CheckSelectors(g: Group) returns (r: Result<Group>)
    ensures r.Ok? <==> GoodSelectors(g)
    ensures r.Ok? ==> r.value == FilledGroup(g).(body := g.body)
  {
    match g.on {
      case OtherPhase(_) => return Err("on");
      case OnFrame =>
        if |g.headers| != 0 { return Err("a frame has no headers to change"); }
        if |g.status| + |g.contentType| != 0 { return Err("response selectors on a frame group"); }
        for i := 0 to |g.direction|
          invariant forall k :: 0 <= k < i ==> g.direction[k] in {"c2s", "s2c"}
        {
          if g.direction[i] !in {"c2s", "s2c"} { return Err("direction"); }
        }
        for i := 0 to |g.opcode|
          invariant forall k :: 0 <= k < i ==> g.opcode[k] in {"text", "binary", "continuation"}
        {
          if g.opcode[i] !in {"text", "binary", "continuation"} { return Err("opcode"); }
        }
        return Ok(g.(opcode := if |g.opcode| == 0 then ["text"] else g.opcode));
      case _ =>
        if |g.direction| + |g.opcode| != 0 { return Err("frame selectors on a response group"); }
        return Ok(g.(on := OnResponse));
    }
  }

  lemma FrontIsGood(compiles: string -> bool, g: GroupDraft)
    ensures GoodGroupDraft(compiles, g) <==>
      && GoodFront(g)
      && (forall i :: 0 <= i < |g.body| ==> GoodEntry(compiles, g.body[i]))
      && (forall i :: 0 <= i < |g.headers| ==> GoodHeaderOp(g.headers[i]))
  {
    hide GoodHeaderOp, GoodBodyOp;
    if forall i :: 0 <= i < |g.body| ==> GoodEntry(compiles, g.body[i]) { assert Full(g.body); }
    if Full(g.body) {
      var b := BuiltGroup(g);
      assert forall i :: 0 <= i < |g.body| ==> b.body[i] == g.body[i].value;
      if GoodGroup(compiles, b) {
        forall i | 0 <= i < |g.body| ensures GoodEntry(compiles, g.body[i]) { assert GoodBodyOp(compiles, b.body[i]); }
      }
    }
  }

  /** Group.validate. */
  method CheckGroup(compiles: string -> bool, g: GroupDraft) returns (r: Checked<Group>)
    ensures r.Valid? <==> GoodGroupDraft(compiles, g)
    ensures r.Valid? ==> r.value == FilledGroup(BuiltGroup(g))
    ensures r.Crashed? <==> GroupCrash(compiles, g)
  {
    FrontIsGood(compiles, g);
    hide GoodBodyOp, GoodHeaderOp, GoodSelectors, FilledOps, GoodGroupDraft, OpsCrash;
    if |g.body| + |g.headers| == 0 { return Refused("no operations"); }
    var sel := CheckSelectors(Built(g, []));
    if sel.Err? { return Refused(sel.why); }
    if |g.body| + |g.headers| > MAX_OPS_PER_GROUP { return Refused("too many operations"); }
    for i := 0 to |g.status|
      invariant forall k :: 0 <= k < i ==> 100 <= g.status[k] <= 599
    {
      if g.status[i] < 100 || g.status[i] > 599 { return Refused("status"); }
    }
    var ops := CompileOps(compiles, g.body);
    if ops.Crashed? { return Crashed; }
    if ops.Refused? { return Refused(ops.why); }
    for i := 0 to |g.headers|
      invariant forall k :: 0 <= k < i ==> GoodHeaderOp(g.headers[k])
    {
      if !GoodHeaderOp(g.headers[i]) { return Refused("header"); }
    }
    return Valid(sel.value.(body := ops.value));
  }

  /** Profile.Validate: it accepts exactly the good drafts and fills in their defaults, and it
      crashes exactly if it comes upon an empty operation. */
  method Validate(compiles: string -> bool, d: Draft) returns (r: Checked<Profile>)
    ensures r.Valid? <==> GoodDraft(compiles, d)
    ensures r.Valid? ==> r.value == Filled(BuiltProfile(d))
    ensures r.Crashed? <==> DraftCrash(compiles, d)
  {
    DraftParts(compiles, d);
    hide GoodName, GoodGroupDraft, GoodRule, FilledGroup, GroupCrash, GoodDraft, BuiltGroup;
    if d.mode.OtherMode? { return Refused("mode"); }
    if d.denyResponse == "" { return Refused("deny_response is empty"); }
    if |d.groups| > MAX_GROUPS { return Refused("too many groups"); }
    var groups := CheckGroups(compiles, d.groups);
    if groups.Crashed? { return Crashed; }
    if groups.Refused? { return Refused(groups.why); }
    for i := 0 to |d.prior|
      invariant forall k :: 0 <= k < i ==> GoodRule(d.prior[k])
    {
      if !GoodRule(d.prior[i]) { return Refused("trigger.prior"); }
    }
    assert Complete(d);
    assert groups.value == Filled(BuiltProfile(d)).groups;
    return Valid(Profile(d.name, d.mode, d.denyResponse, groups.value, d.prior));
  }

  /** The loop over the groups. */
  method CheckGroups(compiles: string -> bool, drafts: seq<Option<GroupDraft>>) returns (r: Checked<seq<Group>>)
    ensures r.Valid? <==> GoodUpTo(compiles, drafts, |drafts|)
    ensures r.Valid? ==> |r.value| == |drafts| && Full(drafts)
    ensures r.Valid? ==> forall k :: 0 <= k < |drafts| ==>
      Full(drafts[k].value.body) && r.value[k] == FilledGroup(BuiltGroup(drafts[k].value))
    ensures r.Crashed? <==> exists i: nat ::
      i < |drafts| && GoodNameAt(drafts, i) && GroupCrash(compiles, drafts[i].value) && GoodUpTo(compiles, drafts, i)
  {
    hide GoodName, FilledGroup, GroupCrash, GoodGroup, BuiltGroup;
    var seen := {};
    var groups := [];
    for i := 0 to |drafts|
      invariant |groups| == i && GoodUpTo(compiles, drafts, i)
      invariant forall k :: 0 <= k < i ==> drafts[k].Some?
      invariant seen == set k | 0 <= k < i :: drafts[k].value.name
      invariant forall k :: 0 <= k < i ==>
        Full(drafts[k].value.body) && groups[k] == FilledGroup(BuiltGroup(drafts[k].value))
      invariant forall k: nat :: k < i ==> !GroupCrash(compiles, drafts[k].value)
    {
      if drafts[i].None? { return Refused("group is empty"); }
      var g := drafts[i].value;
      if !GoodName(g.name) { return Refused("bad name"); }
      if g.name in seen { return Refused("duplicate name"); }
      seen := seen + {g.name};
      var one := CheckGroup(compiles, g);
      GoodIsNoCrash(compiles, g);
      assert GoodNameAt(drafts, i);
      if one.Crashed? { return Crashed; }
      if one.Refused? { return Refused(one.why); }
      groups := groups + [one.value];
    }
    return Valid(groups);
  }

  lemma GoodIsNoCrash(compiles: string -> bool, g: GroupDraft)
    ensures !(GroupCrash(compiles, g) && GoodGroupDraft(compiles, g))
  {}

  /** The parts of a good draft are the good parts. */
  lemma DraftParts(compiles: string -> bool, d: Draft)
    ensures GoodDraft(compiles, d) <==>
      && !d.mode.OtherMode? && d.denyResponse != "" && |d.groups| <= MAX_GROUPS
      && GoodUpTo(compiles, d.groups, |d.groups|)
      && (forall i :: 0 <= i < |d.prior| ==> GoodRule(d.prior[i]))
  {
    hide GoodName, GoodGroup, GoodRule;
    if GoodUpTo(compiles, d.groups, |d.groups|) {
      forall i | 0 <= i < |d.groups|
        ensures d.groups[i].Some? && Full(d.groups[i].value.body)
      {
        assert GoodNameAt(d.groups, i);
      }
    }
    if Complete(d) {
      var p := BuiltProfile(d);
      assert forall i :: 0 <= i < |d.groups| ==>
        p.groups[i] == BuiltGroup(d.groups[i].value) && p.groups[i].name == d.groups[i].value.name;
      if GoodProfile(compiles, p) {
        forall i: nat | i < |d.groups| ensures GoodNameAt(d.groups, i) && GoodGroupDraft(compiles, d.groups[i].value) {
          assert GoodGroup(compiles, p.groups[i]);
        }
      }
      if GoodUpTo(compiles, d.groups, |d.groups|) {
        forall i | 0 <= i < |p.groups| ensures GoodName(p.groups[i].name) && GoodGroup(compiles, p.groups[i]) {
          assert GoodNameAt(d.groups, i) && GoodGroupDraft(compiles, d.groups[i].value);
        }
        forall i, j | 0 <= i < j < |p.groups|
          ensures p.groups[i].name != p.groups[j].name
        {
          assert GoodNameAt(d.groups, j);
        }
      }
    }
  }

  /** A draft that crashes validation is not a good one; a complete one never does. */
  lemma CrashNeedsHole(compiles: string -> bool, d: Draft)
    requires DraftCrash(compiles, d)
    ensures !GoodDraft(compiles, d) && !Complete(d)
    ensures exists i :: 0 <= i < |d.groups| && d.groups[i].Some? && None in d.groups[i].value.body
  {
    var i: nat :| i < |d.groups| && GoodNameAt(d.groups, i) && GroupCrash(compiles, d.groups[i].value)
      && GoodUpTo(compiles, d.groups, i);
    assert !Full(d.groups[i].value.body);
  }

  lemma FilledOpSound(compiles: string -> bool, o: BodyOp)
    requires GoodBodyOp(compiles, o)
    ensures GoodBodyOp(compiles, FilledOp(o)) && 1 <= FilledOp(o).maxMatches && FilledOp(FilledOp(o)) == FilledOp(o)
  {}

  lemma FilledGroupSound(compiles: string -> bool, g: Group)
    requires GoodGroup(compiles, g)
    ensures GoodGroup(compiles, FilledGroup(g)) && SoundGroup(FilledGroup(g))
      && FilledGroup(FilledGroup(g)) == FilledGroup(g)
  {
    forall i | 0 <= i < |g.body|
      ensures GoodBodyOp(compiles, FilledOp(g.body[i])) && FilledOp(FilledOp(g.body[i])) == FilledOp(g.body[i])
    {
      FilledOpSound(compiles, g.body[i]);
    }
    assert FilledOps(FilledOps(g.body)) == FilledOps(g.body);
  }

  /** A validated profile is sound, and validating it again changes nothing. */
  lemma ValidatedIsSound(compiles: string -> bool, p: Profile)
    requires GoodProfile(compiles, p)
    ensures Sound(Filled(p)) && GoodProfile(compiles, Filled(p)) && Filled(Filled(p)) == Filled(p)
  {
    forall i | 0 <= i < |p.groups|
      ensures GoodGroup(compiles, FilledGroup(p.groups[i])) && SoundGroup(FilledGroup(p.groups[i]))
        && FilledGroup(FilledGroup(p.groups[i])) == FilledGroup(p.groups[i])
    {
      FilledGroupSound(compiles, p.groups[i]);
    }
    var q := Filled(p);
    assert forall i :: 0 <= i < |p.groups| ==> q.groups[i].name == p.groups[i].name;
    assert Filled(q).groups == q.groups;
  }
}
