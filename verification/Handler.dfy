/** The decision on one held response or frame: which groups are active, what they make of the
    body, where the new body is stored and what is replied. */
module Handler {
  import opened Config
  import opened Splice
  import opened Rewrite
  import opened Prior
  import opened Bodies
  import RewriteLaws
  import Profiles

  const PHASE_FRAME := "frame"
  const OUT_SUFFIX := ":out"

  const SKIPPED := "REWRITE_SKIPPED"
  const NOOP := "REWRITE_NOOP"
  const APPLIED := "REWRITE_APPLIED"
  const OBSERVED := "REWRITE_OBSERVE"
  const PROFILE_OFF := "REWRITE_PROFILE_OFF"
  const UNKNOWN_PROFILE := "REWRITE_UNKNOWN_PROFILE"
  const BODY_UNAVAILABLE := "REWRITE_BODY_UNAVAILABLE"
  const STORE_UNAVAILABLE := "REWRITE_STORE_UNAVAILABLE"
  const STORE_ERROR := "REWRITE_STORE_ERROR"

  datatype Response = Response(status: int, headers: seq<(string, string)>)
  datatype Stream = Stream(direction: string, opcode: string)

  datatype Request = Request(
    v: int, rid: string, inspector: string, phase: string, profile: string, prior: seq<PriorVerdict>,
    headers: Option<Locator>, body: Option<Locator>, response: Option<Response>, stream: Option<Stream>)

  datatype Verdict = Allow | Deny | Error

  datatype RewriteBody = RewriteBody(key: string, size: nat, sha256: string)
  datatype RewriteRef = RewriteRef(groups: seq<string>, body: Option<RewriteBody>)

  datatype Reply = Reply(
    v: int, rid: string, inspector: string, verdict: Verdict, code: string,
    response: Option<string>, headers: Option<HeaderOps>, rewrite: Option<RewriteRef>)

  /** An object handed to the store, and whether the store took it. */
  datatype Put = Put(key: string, value: Bytes, took: bool)

  /** What the decision depends on besides the profile and the request: the regular expression
      library, the loader, the writer (there may be none) and the decoder of a header list. */
  datatype Host = Host(
    engine: Engine, loader: Loader,
    writer: Option<(string, Bytes) -> bool>,
    pairs: Bytes -> Option<seq<(string, string)>>)

  predicate Framed(req: Request) { req.phase == PHASE_FRAME }

  function Plain(req: Request, verdict: Verdict, code: string): Reply {
    Reply(req.v, req.rid, req.inspector, verdict, code, None, None, None)
  }

  // ---- what is asked, loaded and made ----

  /** The groups of one phase. */
  function PhaseGroups(gs: seq<Group>, frame: bool): seq<Group> {
    if gs == [] then []
    else PhaseGroups(gs[..|gs| - 1], frame) + (if gs[|gs| - 1].on.OnFrame? == frame then [gs[|gs| - 1]] else [])
  }

  function ActiveFor(p: Profile, req: Request): seq<Group> {
    var ws := Wishes(req.prior);
    PhaseGroups(ActiveGroups(p.groups, TurnedOn(p, ws), TurnedOff(p, ws)), Framed(req))
  }

  function FirstValue(pairs: seq<(string, string)>, name: string): Option<string> {
    if pairs == [] then None
    else if Lower(pairs[0].0) == name then Some(pairs[0].1)
    else FirstValue(pairs[1..], name)
  }

  /** handler.contentType: looked up only if a group asks, first in the request, then in the
      stored header list. */
  function ContentType(h: Host, req: Request, active: seq<Group>): string {
    if forall i :: 0 <= i < |active| ==> |active[i].contentType| == 0 then ""
    else
      var direct := if req.response.None? then None else FirstValue(req.response.value.headers, "content-type");
      if direct.Some? then direct.value
      else
        var loaded := Load(h.loader, req.headers);
        if !Available(loaded) || Content(loaded.data) == "" then ""
        else
          var pairs := h.pairs(loaded.data.value);
          if pairs.None? then ""
          else
            var v := FirstValue(pairs.value, "content-type");
            if v.None? then "" else v.value
  }

  function ResponseHit(status: int, contentType: string): Group -> bool {
    (g: Group) => Matches(g, status, contentType)
  }

  function FrameHit(direction: string, opcode: string): Group -> bool {
    (g: Group) => MatchesFrame(g, direction, opcode)
  }

  function HitOf(h: Host, req: Request, active: seq<Group>): Group -> bool {
    if Framed(req) then
      if req.stream.None? then FrameHit("", "") else FrameHit(req.stream.value.direction, req.stream.value.opcode)
    else ResponseHit(if req.response.None? then 0 else req.response.value.status, ContentType(h, req, active))
  }

  predicate NeedBody(active: seq<Group>) { exists i :: 0 <= i < |active| && HasBody(active[i]) }

  predicate Wanted(active: seq<Group>, hit: Group -> bool) {
    exists i :: 0 <= i < |active| && HasBody(active[i]) && hit(active[i])
  }

  /** The body as loaded; a response that no active group works on is not loaded. */
  function LoadedFor(h: Host, req: Request, active: seq<Group>): Body {
    if Framed(req) || NeedBody(active) then Load(h.loader, req.body) else EMPTY
  }

  predicate Gone(b: Body) { !Available(b) || b.truncated }

  function Usable(b: Body): Option<Bytes> { if Gone(b) then None else b.data }

  ghost function Made(h: Host, req: Request, active: seq<Group>): Applied
    requires Lawful(h.engine)
  {
    var data := Usable(LoadedFor(h, req, active));
    RunGroups(h.engine, active, HitOf(h, req, active), data.None?, Start(data, MATCH_BUDGET)).out
  }

  // ---- the outcomes ----

  /** The ways a decision can end. */
  datatype Ending =
    | NoProfile | Off | AskedToSkip | NoGroups | StoreDown
    | BodyGone | Watched | NothingDone | NotStored | Rewritten

  function OutKey(req: Request): string {
    (if req.body.None? then "" else req.body.value.key) + OUT_SUFFIX
  }

  /** The writer is there and takes the new body. */
  predicate Takes(h: Host, key: string, body: Bytes) { h.writer.Some? && h.writer.value(key, body) }

  ghost function EndingOf(h: Host, p: Option<Profile>, req: Request): Ending
    requires Lawful(h.engine)
  {
    if p.None? then NoProfile
    else if p.value.mode.Off? then Ending.Off
    else if Skips(p.value, Wishes(req.prior)) then AskedToSkip
    else
      var active := ActiveFor(p.value, req);
      var made := Made(h, req, active);
      if active == [] then NoGroups
      else if LoadedFor(h, req, active).fault then StoreDown
      else if Gone(LoadedFor(h, req, active)) && Wanted(active, HitOf(h, req, active)) then BodyGone
      else if p.value.mode.Observe? then Watched
      else if made.groups == [] || (Framed(req) && !made.changed) then NothingDone
      else if made.changed && !Takes(h, OutKey(req), Content(made.body)) then NotStored
      else Rewritten
  }

  /** A failure denies, unless the profile only observes. */
  function FailPer(p: Profile, req: Request, code: string): Reply {
    if p.mode.Observe? then Plain(req, Allow, code) else Plain(req, Deny, code).(response := Some(p.denyResponse))
  }

  ghost function ReplyOf(h: Host, p: Option<Profile>, req: Request): Reply
    requires Lawful(h.engine)
  {
    match EndingOf(h, p, req)
    case NoProfile => Plain(req, Error, UNKNOWN_PROFILE)
    case Off => Plain(req, Allow, PROFILE_OFF)
    case AskedToSkip => Plain(req, Allow, SKIPPED)
    case NoGroups => Plain(req, Allow, NOOP)
    case StoreDown => Plain(req, Error, STORE_UNAVAILABLE)
    case BodyGone => FailPer(p.value, req, BODY_UNAVAILABLE)
    case Watched => Plain(req, Allow, if Made(h, req, ActiveFor(p.value, req)).groups == [] then NOOP else OBSERVED)
    case NothingDone => Plain(req, Allow, NOOP)
    case NotStored => FailPer(p.value, req, STORE_ERROR)
    case Rewritten =>
      var made := Made(h, req, ActiveFor(p.value, req));
      var body := Content(made.body);
      Plain(req, Allow, APPLIED).(
        headers := if Framed(req) then None else made.headers,
        rewrite := Some(RewriteRef(made.groups,
          if made.changed then Some(RewriteBody(OutKey(req), |body|, h.loader.digest(body))) else None)))
  }

  /** What the store is handed. */
  ghost function PutsOf(h: Host, p: Option<Profile>, req: Request): seq<Put>
    requires Lawful(h.engine)
  {
    var end := EndingOf(h, p, req);
    if !end.NotStored? && !end.Rewritten? then []
    else
      var made := Made(h, req, ActiveFor(p.value, req));
      if !made.changed || h.writer.None? then []
      else [Put(OutKey(req), Content(made.body), Takes(h, OutKey(req), Content(made.body)))]
  }

  // ---- the code ----

  /** ForPhase. */
  method ForPhase(gs: seq<Group>, frame: bool) returns (out: seq<Group>)
    ensures out == PhaseGroups(gs, frame)
  {
    out := [];
    for i := 0 to |gs|
      invariant out == PhaseGroups(gs[..i], frame)
    {
      assert gs[..i + 1][..i] == gs[..i] && gs[..i + 1][i] == gs[i];
      if gs[i].on.OnFrame? == frame { out := out + [gs[i]]; }
    }
    assert gs[..|gs|] == gs;
  }

  /** A changed body was loaded from somewhere. */
  lemma ChangedIsLoaded(h: Host, req: Request, active: seq<Group>)
    requires Lawful(h.engine) && Made(h, req, active).changed
    ensures req.body.Some? && Made(h, req, active).body.Some?
    ensures Usable(LoadedFor(h, req, active)).Some? && LoadedFor(h, req, active) == Load(h.loader, req.body)
  {
    var data := Usable(LoadedFor(h, req, active));
    RewriteLaws.BudgetConserved(h.engine, active, HitOf(h, req, active), data, MATCH_BUDGET);
  }

  /** inspect. */
  method Inspect(h: Host, snap: Option<Profiles.Snapshot>, req: Request) returns (reply: Reply, puts: seq<Put>)
    requires Lawful(h.engine)
    ensures reply == ReplyOf(h, Profiles.Lookup(snap, req.profile), req)
    ensures puts == PutsOf(h, Profiles.Lookup(snap, req.profile), req)
  {
    hide Lawful, Made, Profiles.Lookup, Skips, TurnedOn, TurnedOff;
    hide Wishes, Load, ActiveGroups, ActiveFor, HitOf, LoadedFor, Wanted;
    puts := [];
    var p := Profiles.Lookup(snap, req.profile);
    if p.None? { return Plain(req, Error, UNKNOWN_PROFILE), []; }
    if p.value.mode == Mode.Off { return Plain(req, Allow, PROFILE_OFF), []; }
    var ask := EvaluatePrior(req.prior, p);
    if ask.skip { return Plain(req, Allow, SKIPPED), []; }
    var groups := Active(ask, p.value);
    if Framed(req) {
      reply, puts := InspectFrame(h, p.value, groups, req);
    } else {
      reply, puts := InspectResponse(h, p.value, groups, req);
    }
  }

  /** The part of inspect for responses, for a profile that is on and was not asked to skip, with
      its active groups. */
  method InspectResponse(h: Host, p: Profile, groups: seq<Group>, req: Request) returns (reply: Reply, puts: seq<Put>)
    requires Lawful(h.engine) && !Framed(req) && !p.mode.Off? && !Skips(p, Wishes(req.prior))
    requires groups == ActiveGroups(p.groups, TurnedOn(p, Wishes(req.prior)), TurnedOff(p, Wishes(req.prior)))
    ensures reply == ReplyOf(h, Some(p), req)
    ensures puts == PutsOf(h, Some(p), req)
  {
    hide Lawful, Made, Skips, TurnedOn, TurnedOff, Wishes;
    hide ContentType, Load, ActiveGroups, PhaseGroups, NeedBody, Wanted;
    puts := [];
    var active := ForPhase(groups, false);
    if |active| == 0 { return Plain(req, Allow, NOOP), []; }
    var status := 0;
    if req.response.Some? { status := req.response.value.status; }
    var contentType := ContentType(h, req, active);
    var raw: Option<Bytes>, bodyMissing := None, false;
    if NeedBody(active) {
      var loaded := Load(h.loader, req.body);
      if loaded.fault { return Plain(req, Error, STORE_UNAVAILABLE), []; }
      if Available(loaded) && !loaded.truncated { raw := loaded.data; } else { bodyMissing := true; }
    }
    var hit := ResponseHit(status, contentType);
    var applied := Apply(h.engine, active, hit, raw);
    assert applied == Made(h, req, active) by { MadeIs(h, req, active, hit, raw); }
    if bodyMissing && Wanted(active, hit) { return FailPer(p, req, BODY_UNAVAILABLE), []; }
    if p.mode == Observe {
      if |applied.groups| == 0 { return Plain(req, Allow, NOOP), []; }
      return Plain(req, Allow, OBSERVED), [];
    }
    reply := Plain(req, Allow, APPLIED);
    if |applied.groups| == 0 { return reply.(code := NOOP), []; }
    if applied.headers.Some? { reply := reply.(headers := applied.headers); }
    reply := reply.(rewrite := Some(RewriteRef(applied.groups, None)));
    if applied.changed {
      ChangedIsLoaded(h, req, active);
      var key := req.body.value.key + OUT_SUFFIX;
      if h.writer.None? { return FailPer(p, req, STORE_ERROR), []; }
      var took := h.writer.value(key, applied.body.value);
      puts := [Put(key, applied.body.value, took)];
      if !took { return FailPer(p, req, STORE_ERROR), puts; }
      reply := reply.(rewrite := Some(RewriteRef(applied.groups,
        Some(RewriteBody(key, |applied.body.value|, h.loader.digest(applied.body.value))))));
    }
  }

  lemma MadeIs(h: Host, req: Request, active: seq<Group>, hit: Group -> bool, raw: Option<Bytes>)
    requires Lawful(h.engine) && hit == HitOf(h, req, active) && raw == Usable(LoadedFor(h, req, active))
    ensures Made(h, req, active) == RunGroups(h.engine, active, hit, raw.None?, Start(raw, MATCH_BUDGET)).out
  {}

  /** inspectFrame, for a profile that is on and was not asked to skip, with its active groups. */
  method InspectFrame(h: Host, p: Profile, groups: seq<Group>, req: Request) returns (reply: Reply, puts: seq<Put>)
    requires Lawful(h.engine) && Framed(req) && !p.mode.Off? && !Skips(p, Wishes(req.prior))
    requires groups == ActiveGroups(p.groups, TurnedOn(p, Wishes(req.prior)), TurnedOff(p, Wishes(req.prior)))
    ensures reply == ReplyOf(h, Some(p), req)
    ensures puts == PutsOf(h, Some(p), req)
  {
    hide Lawful, Made, Skips, TurnedOn, TurnedOff, Wishes, Load, ActiveGroups, PhaseGroups, NeedBody, Wanted;
    puts := [];
    var direction, opcode := "", "";
    if req.stream.Some? { direction, opcode := req.stream.value.direction, req.stream.value.opcode; }
    var active := ForPhase(groups, true);
    if |active| == 0 { return Plain(req, Allow, NOOP), []; }
    var raw: Option<Bytes>, bodyMissing := None, false;
    var loaded := Load(h.loader, req.body);
    if loaded.fault { return Plain(req, Error, STORE_UNAVAILABLE), []; }
    if Available(loaded) && !loaded.truncated { raw := loaded.data; } else { bodyMissing := true; }
    var hit := FrameHit(direction, opcode);
    var applied := Apply(h.engine, active, hit, raw);
    assert applied == Made(h, req, active) by { MadeIs(h, req, active, hit, raw); }
    if bodyMissing && Wanted(active, hit) { return FailPer(p, req, BODY_UNAVAILABLE), []; }
    if p.mode == Observe {
      if |applied.groups| == 0 { return Plain(req, Allow, NOOP), []; }
      return Plain(req, Allow, OBSERVED), [];
    }
    reply := Plain(req, Allow, APPLIED);
    if |applied.groups| == 0 || !applied.changed { return reply.(code := NOOP), []; }
    ChangedIsLoaded(h, req, active);
    var key := req.body.value.key + OUT_SUFFIX;
    if h.writer.None? { return FailPer(p, req, STORE_ERROR), []; }
    var took := h.writer.value(key, applied.body.value);
    puts := [Put(key, applied.body.value, took)];
    if !took { return FailPer(p, req, STORE_ERROR), puts; }
    reply := reply.(rewrite := Some(RewriteRef(applied.groups,
      Some(RewriteBody(key, |applied.body.value|, h.loader.digest(applied.body.value))))));
  }
}
