/** Concrete requests on which the decision is not what one would like it to be. */
module HandlerWitness {
  import opened Config
  import opened Splice
  import opened Rewrite
  import opened Prior
  import opened Bodies
  import opened Handler
  import opened HandlerLaws
  import RewriteHeaders
  import RewriteLaws

  /** A group that removes every "x". */
  function Remover(on: Phase): Group {
    Group("g", true, on, [], [], [], if on.OnFrame? then ["text"] else [], [BodyOp(Remove, "x", "", "", 1)], [])
  }

  function OneGroup(mode: Mode, on: Phase): Profile { Profile("p", mode, "d", [Remover(on)], []) }

  /** A host whose store holds "y" under every key. */
  function YHost(): Host {
    Host(
      LiteralEngine(),
      Loader(Some((_, _, _) => Found(Some("y"))), (_, raw) => Some(Some(raw)), _ => ""),
      None,
      _ => None)
  }

  /** A response, or a text frame of the client. */
  function Ask(phase: string, body: Option<Locator>): Request {
    Request(2, "r", "i", phase, "", [], None, body, None,
            if phase == PHASE_FRAME then Some(Stream("c2s", "text")) else None)
  }

  const STORED := Locator("s", "redis", "k", "", "", "", false, None)
  const CUT := STORED.(truncated := true)

  /** The profile is one that validation gives back as it is. */
  predicate Validated(p: Profile) { GoodProfile(LiteralEngine().compiles, p) && Filled(p) == p }

  lemma OneGroupIsValidated(mode: Mode, on: Phase)
    requires mode in {Observe, Enforce} && on in {OnResponse, OnFrame}
    ensures Validated(OneGroup(mode, on))
  {
    var p, g := OneGroup(mode, on), Remover(on);
    assert GoodBodyOp(LiteralEngine().compiles, g.body[0]);
    assert GoodName(g.name) by { assert g.name[0] == 'g'; }
    assert FilledOps(g.body) == g.body;
    assert FilledGroup(g) == g;
    assert Filled(p).groups == p.groups;
  }

  lemma OneActive(mode: Mode, on: Phase, phase: string, body: Option<Locator>)
    requires on.OnFrame? == (phase == PHASE_FRAME)
    ensures var p, req := OneGroup(mode, on), Ask(phase, body);
      ActiveFor(p, req) == [Remover(on)] && !Skips(p, Wishes(req.prior))
  {
    var p, req := OneGroup(mode, on), Ask(phase, body);
    assert Wishes(req.prior) == [];
    assert TurnedOn(p, []) == {} && TurnedOff(p, []) == {};
    var gs := p.groups;
    assert gs[..0] == [] && ActiveGroups([], {}, {}) == [];
    assert ActiveGroups(gs, {}, {}) == [Remover(on)];
    assert PhaseGroups([], on.OnFrame?) == [];
  }

  /** An enforcing profile with a matching body group, and a request without an address for the
      body: the message is allowed, unchanged. */
  lemma EnforcedCanPass()
    ensures var p, req := OneGroup(Enforce, OnResponse), Ask("response", None);
      && Validated(p) && Lawful(YHost().engine) && Addressed(req.body)
      && Wanted(ActiveFor(p, req), HitOf(YHost(), req, ActiveFor(p, req)))
      && ReplyOf(YHost(), Some(p), req).verdict == Allow && PutsOf(YHost(), Some(p), req) == []
  {
    LiteralIsLawful();
    OneGroupIsValidated(Enforce, OnResponse);
    assert "response"[0] != PHASE_FRAME[0];
    OneActive(Enforce, OnResponse, "response", None);
    var p, req := OneGroup(Enforce, OnResponse), Ask("response", None);
    var active := [Remover(OnResponse)];
    assert HitOf(YHost(), req, active)(active[0]) && HasBody(active[0]);
    assert Wanted(active, HitOf(YHost(), req, active));
    hide Lawful, ActiveFor, Skips, Wishes, ReplyOf, PutsOf, HitOf, Validated;
    PassesWithoutBodyIff(YHost(), p, req);
  }

  /** An observing profile with a matching body group, and a body that was cut short: the answer is
      neither "would apply" nor "nothing to do". */
  lemma ObserveCanMissBody()
    ensures var p, req := OneGroup(Observe, OnResponse), Ask("response", Some(CUT));
      && Validated(p) && Lawful(YHost().engine) && Addressed(req.body)
      && ReplyOf(YHost(), Some(p), req).code == BODY_UNAVAILABLE
  {
    LiteralIsLawful();
    OneGroupIsValidated(Observe, OnResponse);
    assert "response"[0] != PHASE_FRAME[0];
    OneActive(Observe, OnResponse, "response", Some(CUT));
    CutLoads();
    hide Lawful, ActiveFor, Skips, Wishes, ReplyOf, HitOf, LoadedFor, Validated, Wanted, YHost, LiteralEngine, Remover;
    ObserveUnavailableIff(YHost(), OneGroup(Observe, OnResponse), Ask("response", Some(CUT)));
  }

  lemma CutLoads()
    ensures var req, active := Ask("response", Some(CUT)), [Remover(OnResponse)];
      && Addressed(req.body) && Wanted(active, HitOf(YHost(), req, active))
      && LoadedFor(YHost(), req, active) == Body(Some("y"), true, "", false, "")
  {
    var req, active := Ask("response", Some(CUT)), [Remover(OnResponse)];
    assert "response"[0] != PHASE_FRAME[0];
    assert HitOf(YHost(), req, active)(active[0]) && HasBody(active[0]);
    assert |CUT.driver| > 0 && |CUT.key| > 0;
  }

  /** A frame that a group matches but whose payload has none of its patterns: the observing
      profile says that it would apply, the enforcing one finds nothing to do. */
  lemma ObserveCanMislead()
    ensures var p, q, req := OneGroup(Observe, OnFrame), OneGroup(Enforce, OnFrame), Ask(PHASE_FRAME, Some(STORED));
      && Validated(p) && Validated(q) && Lawful(YHost().engine) && Addressed(req.body)
      && ReplyOf(YHost(), Some(p), req).code == OBSERVED
      && EndingOf(YHost(), Some(q), req) !in {NotStored, Rewritten}
  {
    LiteralIsLawful();
    OneGroupIsValidated(Observe, OnFrame);
    OneGroupIsValidated(Enforce, OnFrame);
    assert |STORED.driver| > 0 && |STORED.key| > 0;
    FrameEngages(Observe);
    FrameEngages(Enforce);
    FrameFindsNothing(Enforce);
    Modes(Observe);
    Modes(Enforce);
    assert Ask(PHASE_FRAME, Some(STORED)).body == Some(STORED);
    hide Engages, PatternFound, ReplyOf, EndingOf, Lawful, OneGroup, Ask, YHost, LiteralEngine, Validated;
    EndingIff(YHost(), OneGroup(Observe, OnFrame), Ask(PHASE_FRAME, Some(STORED)));
    EndingIff(YHost(), OneGroup(Enforce, OnFrame), Ask(PHASE_FRAME, Some(STORED)));
  }

  lemma Modes(mode: Mode)
    ensures OneGroup(mode, OnFrame).mode == mode && Framed(Ask(PHASE_FRAME, Some(STORED)))
  {}

  lemma FrameLoads(active: seq<Group>)
    ensures var req := Ask(PHASE_FRAME, Some(STORED));
      && LoadedFor(YHost(), req, active) == Body(Some("y"), false, "", false, "")
      && HitOf(YHost(), req, active)(Remover(OnFrame))
  {
    assert |STORED.driver| > 0;
    assert Remover(OnFrame).opcode[0] == "text" && HasFold(Remover(OnFrame).opcode, "text");
  }

  lemma FrameNames(hit: Group -> bool)
    requires hit(Remover(OnFrame))
    ensures RewriteHeaders.ActiveNames([Remover(OnFrame)], hit, false) == ["g"]
  {
    var active := [Remover(OnFrame)];
    assert active[1..] == [] && RewriteHeaders.ActiveNames([], hit, false) == [];
  }

  lemma FrameEngages(mode: Mode)
    requires mode in {Observe, Enforce}
    ensures Engages(YHost(), OneGroup(mode, OnFrame), Ask(PHASE_FRAME, Some(STORED)))
  {
    OneActive(mode, OnFrame, PHASE_FRAME, Some(STORED));
    FrameLoads([Remover(OnFrame)]);
    Modes(mode);
    FrameNames(HitOf(YHost(), Ask(PHASE_FRAME, Some(STORED)), [Remover(OnFrame)]));
    hide *;
    EngagesParts(YHost(), OneGroup(mode, OnFrame), Ask(PHASE_FRAME, Some(STORED)), Remover(OnFrame));
  }

  /** What has to be known for one active group to engage. */
  lemma EngagesParts(h: Host, p: Profile, req: Request, g: Group)
    requires !p.mode.Off? && !Skips(p, Wishes(req.prior)) && ActiveFor(p, req) == [g]
    requires LoadedFor(h, req, [g]) == Body(Some("y"), false, "", false, "")
    requires RewriteHeaders.ActiveNames([g], HitOf(h, req, [g]), false) == ["g"]
    ensures Engages(h, p, req)
  {
    hide ActiveFor, HitOf, LoadedFor, Skips, Wishes, Wanted, RewriteHeaders.ActiveNames;
  }

  lemma FrameFindsNothing(mode: Mode)
    ensures !PatternFound(YHost(), OneGroup(mode, OnFrame), Ask(PHASE_FRAME, Some(STORED)))
  {
    OneActive(mode, OnFrame, PHASE_FRAME, Some(STORED));
    FrameLoads([Remover(OnFrame)]);
    NothingFound(HitOf(YHost(), Ask(PHASE_FRAME, Some(STORED)), [Remover(OnFrame)]));
    hide ActiveFor, HitOf, LoadedFor, OneGroup, Ask, YHost, Remover, RewriteLaws.AnyFinds;
  }

  lemma NothingFound(hit: Group -> bool)
    ensures !RewriteLaws.AnyFinds(YHost().engine, [Remover(OnFrame)], hit, "y", MATCH_BUDGET)
  {
    NoX();
    hide Hits, LiteralEngine;
    assert |Remover(OnFrame).body| == 1;
  }

  lemma NoX()
    ensures Hits(LiteralEngine(), Remover(OnFrame).body[0], "y", MATCH_BUDGET) == []
  {
    assert FindLiteral("x", "y", 1, 1) == [];
    assert "y"[0] != "x"[0];
    assert FindLiteral("x", "y", 0, 1) == [];
  }
}
