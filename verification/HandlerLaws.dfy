/** What holds of every reply, across validation, neighbour requests, loading, rewriting and
    storing. */
module HandlerLaws {
  import opened Config
  import opened Splice
  import opened Rewrite
  import opened Prior
  import opened Bodies
  import opened Handler
  import Profiles
  import RewriteHeaders
  import RewriteLaws
  import RewriteSize

  /** A reply names a new body exactly if the store took one object, and then it names that very
      object: the rewritten body under the key of the loaded one, which is not empty. */
  lemma NamedBodyIsStored(h: Host, p: Option<Profile>, req: Request)
    requires Lawful(h.engine) && Addressed(req.body)
    ensures var reply, puts := ReplyOf(h, p, req), PutsOf(h, p, req);
      && |puts| <= 1
      && ((reply.rewrite.Some? && reply.rewrite.value.body.Some?) <==> (puts != [] && puts[0].took))
      && (puts != [] ==>
            && req.body.Some? && req.body.value.key != ""
            && puts[0].key == req.body.value.key + OUT_SUFFIX
            && Made(h, req, ActiveFor(p.value, req)).body == Some(puts[0].value))
      && (reply.rewrite.Some? && reply.rewrite.value.body.Some? ==>
            reply.rewrite.value.body.value == RewriteBody(puts[0].key, |puts[0].value|, h.loader.digest(puts[0].value)))
  {
    hide Lawful, Made, Skips, TurnedOn, TurnedOff, Wishes, ActiveGroups, HitOf, Load;
    if PutsOf(h, p, req) != [] {
      var active := ActiveFor(p.value, req);
      ChangedIsLoaded(h, req, active);
      LoadedDataIsAddressed(h.loader, req.body);
    }
  }

  /** A denial comes only from an enforcing profile, and exactly if a body that a matching group
      works on is announced as unavailable or cut short, or a changed body could not be stored.
      It names the profile's own deny response. */
  lemma DeniesIff(h: Host, p: Profile, req: Request)
    requires Lawful(h.engine) && Sound(p)
    ensures var active := ActiveFor(p, req);
      var loaded, made := LoadedFor(h, req, active), Made(h, req, active);
      ReplyOf(h, Some(p), req).verdict == Deny <==>
        && p.mode == Enforce && !Skips(p, Wishes(req.prior))
        && !loaded.fault
        && if Gone(loaded) then Wanted(active, HitOf(h, req, active))
           else made.changed && !Takes(h, OutKey(req), Content(made.body))
    ensures ReplyOf(h, Some(p), req).verdict == Deny ==> ReplyOf(h, Some(p), req).response == Some(p.denyResponse)
  {
    var active := ActiveFor(p, req);
    ChangedHasGroups(h, req, active);
    NoDataNoChange(h, req, active);
    assert !p.mode.OtherMode?;
    assert Wanted([], HitOf(h, req, active)) == false;
    hide Lawful, Made, Skips, Wishes, ActiveFor, HitOf, LoadedFor, Wanted, Sound, Takes;
    DenyEndings(h, p, req);
    hide ReplyOf;
  }

  lemma DenyEndings(h: Host, p: Profile, req: Request)
    requires Lawful(h.engine)
    ensures ReplyOf(h, Some(p), req).verdict == Deny <==>
      p.mode != Observe && EndingOf(h, Some(p), req) in {BodyGone, NotStored}
    ensures ReplyOf(h, Some(p), req).verdict == Deny ==> ReplyOf(h, Some(p), req).response == Some(p.denyResponse)
  {
    hide EndingOf, Made, ActiveFor, Lawful;
  }

  lemma NoDataNoChange(h: Host, req: Request, active: seq<Group>)
    requires Lawful(h.engine)
    ensures Usable(LoadedFor(h, req, active)).None? ==> !Made(h, req, active).changed
  {
    var data := Usable(LoadedFor(h, req, active));
    RewriteLaws.BudgetConserved(h.engine, active, HitOf(h, req, active), data, MATCH_BUDGET);
  }

  /** A body is changed by a group that is then named. */
  lemma ChangedHasGroups(h: Host, req: Request, active: seq<Group>)
    requires Lawful(h.engine)
    ensures Made(h, req, active).changed ==> Made(h, req, active).groups != [] && active != []
  {
    var data := Usable(LoadedFor(h, req, active));
    ChangesAreNamed(h.engine, active, HitOf(h, req, active), data.None?, Start(data, MATCH_BUDGET));
  }

  lemma {:induction false} ChangesAreNamed(e: Engine, gs: seq<Group>, hit: Group -> bool, nil: bool, st: Run)
    requires Lawful(e) && (nil <==> st.out.body.None?)
    requires st.out.changed ==> st.out.groups != []
    ensures var out := RunGroups(e, gs, hit, nil, st).out; out.changed ==> out.groups != []
    decreases |gs|
  {
    hide Lawful, RunOps;
    if gs != [] { ChangesAreNamed(e, gs[1..], hit, nil, GroupStep(e, gs[0], hit, nil, st)); }
  }

  /** Only an allowing reply carries header changes or a rewrite; an observing profile never
      stores, denies or carries either; a skipped or switched-off one does nothing at all; and a
      frame never carries headers. */
  lemma MutedReplies(h: Host, p: Option<Profile>, req: Request)
    requires Lawful(h.engine)
    ensures var reply, puts := ReplyOf(h, p, req), PutsOf(h, p, req);
      && (reply.headers.Some? || reply.rewrite.Some? ==>
        reply.verdict == Allow && reply.code == APPLIED && reply.response.None?)
      && (reply.code == APPLIED ==> reply.rewrite.Some?)
      && (p.None? || p.value.mode == Observe || p.value.mode == Mode.Off || Skips(p.value, Wishes(req.prior)) ==>
            puts == [] && reply.verdict != Deny && reply.headers.None? && reply.rewrite.None?)
      && (Framed(req) ==> reply.headers.None?)
      && (reply.verdict == Error ==> puts == [])
      && reply.v == req.v && reply.rid == req.rid && reply.inspector == req.inspector
  {
    hide Lawful, Made, Skips, Wishes, ActiveFor, HitOf, LoadedFor, Wanted, Takes;
    CodesDiffer();
  }

  lemma CodesDiffer()
    ensures APPLIED !in {SKIPPED, NOOP, OBSERVED, PROFILE_OFF, UNKNOWN_PROFILE}
    ensures APPLIED !in {BODY_UNAVAILABLE, STORE_UNAVAILABLE, STORE_ERROR}
    ensures NOOP != OBSERVED
  {
    assert APPLIED[8] == 'A' && SKIPPED[8] == 'S' && NOOP[8] == 'N' && OBSERVED[8] == 'O' && PROFILE_OFF[8] == 'P';
    assert UNKNOWN_PROFILE[8] == 'U' && BODY_UNAVAILABLE[8] == 'B' && STORE_UNAVAILABLE[8] == 'S'
      && STORE_ERROR[8] == 'S';
  }

  // ---- observing tells what enforcing would do ----

  /** The groups the decision comes down to: those that match, and have their body if they work on
      one. */
  function Applying(h: Host, p: Profile, req: Request): seq<string> {
    var active := ActiveFor(p, req);
    RewriteHeaders.ActiveNames(active, HitOf(h, req, active), Usable(LoadedFor(h, req, active)).None?)
  }

  /** Groups apply, and nothing stands in their way. */
  predicate Engages(h: Host, p: Profile, req: Request) {
    var active := ActiveFor(p, req);
    var loaded := LoadedFor(h, req, active);
    && !p.mode.Off? && !Skips(p, Wishes(req.prior))
    && !loaded.fault && !(Gone(loaded) && Wanted(active, HitOf(h, req, active)))
    && Applying(h, p, req) != []
  }

  /** A pattern of a matching group is found in the body as it came. */
  ghost predicate PatternFound(h: Host, p: Profile, req: Request) {
    var active := ActiveFor(p, req);
    var data := Usable(LoadedFor(h, req, active));
    data.Some? && RewriteLaws.AnyFinds(h.engine, active, HitOf(h, req, active), data.value, MATCH_BUDGET)
  }

  lemma MadeIff(h: Host, p: Profile, req: Request)
    requires Lawful(h.engine)
    ensures var active := ActiveFor(p, req); var made := Made(h, req, active);
      && made.groups == Applying(h, p, req)
      && (made.changed <==> PatternFound(h, p, req))
      && (active == [] ==> Applying(h, p, req) == [])
  {
    var active := ActiveFor(p, req);
    var data, hit := Usable(LoadedFor(h, req, active)), HitOf(h, req, active);
    RewriteHeaders.HeadersIgnoreBudget(h.engine, active, hit, data, MATCH_BUDGET);
    NoDataNoChange(h, req, active);
    if data.Some? { RewriteLaws.ChangedIff(h.engine, active, hit, Start(data, MATCH_BUDGET)); }
    hide Lawful, RunGroups, ActiveFor, HitOf, LoadedFor, RewriteLaws.AnyFinds;
  }

  /** What an observing profile says, and what an enforcing one does, by the groups and patterns. */
  lemma EndingIff(h: Host, p: Profile, req: Request)
    requires Lawful(h.engine)
    ensures p.mode == Observe ==> (ReplyOf(h, Some(p), req).code == OBSERVED <==> Engages(h, p, req))
    ensures p.mode == Enforce ==>
      (EndingOf(h, Some(p), req) in {NotStored, Rewritten} <==>
         Engages(h, p, req) && (Framed(req) ==> PatternFound(h, p, req)))
  {
    MadeIff(h, p, req);
    hide Lawful, Made, Skips, Wishes, ActiveFor, HitOf, LoadedFor, Wanted, Takes, Applying, PatternFound;
    if p.mode == Observe { ObservedIff(h, p, req); }
    hide ReplyOf;
  }

  lemma ObservedIff(h: Host, p: Profile, req: Request)
    requires Lawful(h.engine) && p.mode == Observe
    ensures ReplyOf(h, Some(p), req).code == OBSERVED <==>
      EndingOf(h, Some(p), req) == Watched && Made(h, req, ActiveFor(p, req)).groups != []
  {
    assert OBSERVED[8] == 'O' && SKIPPED[8] == 'S' && NOOP[8] == 'N' && PROFILE_OFF[8] == 'P';
    assert BODY_UNAVAILABLE[8] == 'B' && STORE_UNAVAILABLE[8] == 'S' && STORE_ERROR[8] == 'S';
    hide Lawful, Made, EndingOf, ActiveFor;
    ObserveNeverRewrites(h, p, req);
  }

  lemma ObserveNeverRewrites(h: Host, p: Profile, req: Request)
    requires Lawful(h.engine) && p.mode == Observe
    ensures EndingOf(h, Some(p), req) !in {NotStored, Rewritten, NothingDone, NoProfile}
  {
    hide Lawful, Made, Skips, Wishes, ActiveFor, HitOf, LoadedFor, Wanted, Takes;
  }

  /** An observing profile answers that the body is unavailable exactly if it was not asked to skip
      and a matching group works on a body that is announced as missing or cut short. */
  lemma ObserveUnavailableIff(h: Host, p: Profile, req: Request)
    requires Lawful(h.engine) && p.mode == Observe
    ensures var active := ActiveFor(p, req); var loaded := LoadedFor(h, req, active);
      ReplyOf(h, Some(p), req).code == BODY_UNAVAILABLE <==>
        && !Skips(p, Wishes(req.prior)) && !loaded.fault
        && Gone(loaded) && Wanted(active, HitOf(h, req, active))
  {
    assert OBSERVED[8] == 'O' && SKIPPED[8] == 'S' && NOOP[8] == 'N' && PROFILE_OFF[8] == 'P';
    assert BODY_UNAVAILABLE[8] == 'B' && STORE_UNAVAILABLE[8] == 'S' && STORE_ERROR[8] == 'S';
    ObserveNeverRewrites(h, p, req);
    assert ActiveFor(p, req) == [] ==> !Wanted(ActiveFor(p, req), HitOf(h, req, ActiveFor(p, req)));
    hide Lawful, Made, Skips, Wishes, ActiveFor, HitOf, LoadedFor, Wanted, Takes;
  }

  /** "An observing profile says 'would apply' exactly if the enforcing one would" is not true of
      every request: it holds exactly if the request is not a frame whose groups apply while none
      of their patterns is found in the payload. */
  lemma ObserveForetellsIff(h: Host, p: Profile, q: Profile, req: Request)
    requires Lawful(h.engine) && p.mode == Observe && q == p.(mode := Enforce)
    ensures (ReplyOf(h, Some(p), req).code == OBSERVED <==> EndingOf(h, Some(q), req) in {NotStored, Rewritten}) <==>
      !(Framed(req) && Engages(h, q, req) && !PatternFound(h, q, req))
  {
    EndingIff(h, p, req);
    EndingIff(h, q, req);
    SameAsks(p, q, Wishes(req.prior));
    assert Engages(h, p, req) == Engages(h, q, req) by {
      assert ActiveFor(p, req) == ActiveFor(q, req);
      hide Skips, Wishes, ActiveFor, HitOf, LoadedFor, Wanted;
    }
    hide Engages, PatternFound, ReplyOf, EndingOf, Lawful, Skips, TurnedOn, TurnedOff, Wishes;
  }

  lemma SameAsks(p: Profile, q: Profile, ws: seq<Wish>)
    requires p.groups == q.groups && p.prior == q.prior
    ensures Skips(p, ws) == Skips(q, ws) && TurnedOn(p, ws) == TurnedOn(q, ws) && TurnedOff(p, ws) == TurnedOff(q, ws)
  {
    ProfilesAsk(p, q, ws);
  }

  // ---- the order of neighbour requests ----

  /** Two requests that differ in the order or repetition of their neighbour requests, and two
      profiles that differ in the order or repetition of their rules, give the same reply and
      hand the same object to the store. */
  lemma ReplyIgnoresOrder(h: Host, p: Profile, q: Profile, a: Request, b: Request)
    requires Lawful(h.engine)
    requires q == p.(prior := q.prior) && SameMembers(p.prior, q.prior)
    requires b == a.(prior := b.prior) && forall w :: Says(a.prior, w) <==> Says(b.prior, w)
    ensures ReplyOf(h, Some(p), a) == ReplyOf(h, Some(q), b)
    ensures PutsOf(h, Some(p), a) == PutsOf(h, Some(q), b)
  {
    hide Skips, Wishes, Lawful, ActiveFor, Says;
    forall w ensures w in Wishes(a.prior) <==> w in Wishes(b.prior) {
      WishesMembers(a.prior, w);
      WishesMembers(b.prior, w);
    }
    AsksAlike(p, q, a, b) by { assert SameMembers(Wishes(a.prior), Wishes(b.prior)); }
    MadeIgnoresPrior(h, a, b, ActiveFor(p, a));
    hide Made, HitOf, LoadedFor, Wanted, NeedBody, EndingOf;
    EndingIgnoresOrder(h, p, q, a, b);
  }

  /** In particular for any permutation of the entries, of the actions inside them, and of the
      rules. */
  lemma ReplyIgnoresShuffling(h: Host, p: Profile, q: Profile, a: Request, b: Request)
    requires Lawful(h.engine)
    requires q == p.(prior := q.prior) && multiset(p.prior) == multiset(q.prior)
    requires b == a.(prior := b.prior) && Shuffled(a.prior, b.prior)
    ensures ReplyOf(h, Some(p), a) == ReplyOf(h, Some(q), b)
    ensures PutsOf(h, Some(p), a) == PutsOf(h, Some(q), b)
  {
    ShuffledSays(a.prior, b.prior);
    forall x ensures x in p.prior <==> x in q.prior {
      assert x in multiset(p.prior) <==> x in multiset(q.prior);
    }
    hide Lawful, Says, Shuffled, ReplyOf, PutsOf;
    ReplyIgnoresOrder(h, p, q, a, b);
  }

  /** Deleting inside the prior entries every action that is not obeyed changes neither the reply
      nor what is stored. */
  lemma ReplyIgnoresUnobeyed(h: Host, p: Profile, a: Request, b: Request)
    requires Lawful(h.engine) && b == a.(prior := Pruned(p, a.prior))
    ensures ReplyOf(h, Some(p), a) == ReplyOf(h, Some(p), b)
    ensures PutsOf(h, Some(p), a) == PutsOf(h, Some(p), b)
  {
    PrunedWishes(p, a.prior);
    OthersDoNotMatter(p, Wishes(a.prior));
    hide Skips, TurnedOn, TurnedOff, Wishes, Lawful, Pruned, OnlyObeyed;
    assert ActiveFor(p, a) == ActiveFor(p, b);
    MadeIgnoresPrior(h, a, b, ActiveFor(p, a));
    hide Made, HitOf, LoadedFor, Wanted, NeedBody, EndingOf, ActiveFor;
    EndingIgnoresOrder(h, p, p, a, b);
  }

  lemma AsksAlike(p: Profile, q: Profile, a: Request, b: Request)
    requires q == p.(prior := q.prior) && SameMembers(p.prior, q.prior)
    requires b == a.(prior := b.prior) && SameMembers(Wishes(a.prior), Wishes(b.prior))
    ensures Skips(p, Wishes(a.prior)) == Skips(q, Wishes(b.prior)) && ActiveFor(p, a) == ActiveFor(q, b)
  {
    OrderDoesNotMatter(p, q, Wishes(a.prior), Wishes(b.prior));
    hide Skips, TurnedOn, TurnedOff, Wishes, ActiveGroups, SameMembers, PhaseGroups;
  }

  lemma EndingIgnoresOrder(h: Host, p: Profile, q: Profile, a: Request, b: Request)
    requires Lawful(h.engine) && q == p.(prior := q.prior) && b == a.(prior := b.prior)
    requires Skips(p, Wishes(a.prior)) == Skips(q, Wishes(b.prior)) && ActiveFor(p, a) == ActiveFor(q, b)
    ensures EndingOf(h, Some(p), a) == EndingOf(h, Some(q), b)
  {
    MadeIgnoresPrior(h, a, b, ActiveFor(p, a));
    hide Lawful, Made, HitOf, LoadedFor, Wanted, ActiveFor, Skips, Wishes;
  }

  lemma MadeIgnoresPrior(h: Host, a: Request, b: Request, active: seq<Group>)
    requires Lawful(h.engine) && b == a.(prior := b.prior)
    ensures LoadedFor(h, a, active) == LoadedFor(h, b, active) && HitOf(h, a, active) == HitOf(h, b, active)
    ensures Made(h, a, active) == Made(h, b, active)
  {
    hide Lawful, RunGroups, Load;
  }

  // ---- what may be in a reply of a validated profile ----

  lemma {:induction false} PhaseGroupsMembers(gs: seq<Group>, frame: bool)
    ensures forall g :: g in PhaseGroups(gs, frame) <==> g in gs && g.on.OnFrame? == frame
  {
    if gs != [] {
      PhaseGroupsMembers(gs[..|gs| - 1], frame);
      assert gs == gs[..|gs| - 1] + [gs[|gs| - 1]];
    }
  }

  /** Exactly the groups of the request's phase that are on are active. */
  lemma ActiveForMembers(p: Profile, req: Request)
    ensures var ws := Wishes(req.prior); forall g :: g in ActiveFor(p, req) <==>
      g in p.groups && g.on.OnFrame? == Framed(req) && g.name !in TurnedOff(p, ws)
        && (g.default_ || g.name in TurnedOn(p, ws))
  {
    var ws := Wishes(req.prior);
    OffDominates(p.groups, TurnedOn(p, ws), TurnedOff(p, ws));
    PhaseGroupsMembers(ActiveGroups(p.groups, TurnedOn(p, ws), TurnedOff(p, ws)), Framed(req));
    hide TurnedOn, TurnedOff, Wishes;
  }

  lemma {:induction false} HeaderOpsComeFromGroups(gs: seq<Group>, hit: Group -> bool, nil: bool)
    ensures forall op :: op in RewriteHeaders.ActiveHeaderOps(gs, hit, nil) ==> exists g :: g in gs && op in g.headers
    decreases |gs|
  {
    if gs != [] { HeaderOpsComeFromGroups(gs[1..], hit, nil); }
  }

  lemma {:induction false} LastSetIsMember(ops: seq<HeaderOp>, name: string)
    ensures RewriteHeaders.LastSet(ops, name).Some? ==>
      HeaderOp(SetHeader, name, RewriteHeaders.LastSet(ops, name).value) in ops
  {
    if ops != [] { LastSetIsMember(ops[..|ops| - 1], name); }
  }

  /** Headers of the connection and of the message's frame are not for a profile to change. */
  predicate Ours(name: string) {
    Lower(name) !in [
      "host", "authorization", "cookie", "content-length", "transfer-encoding", "content-encoding", "connection",
      "upgrade", "keep-alive", "proxy-authenticate", "proxy-authorization", "te", "trailer", "location", "date"]
  }

  /** The header changes a reply may carry. */
  ghost predicate Permitted(ho: HeaderOps) {
    && (forall n :: n in ho.set_ ==>
          && Ours(n) && Lower(n) != "set-cookie"
          && forall c :: c in ho.set_[n] ==> c != '\r' && c != '\n' && c != '\0')
    && (forall n :: n in ho.unset ==> Ours(n) && Lower(n) != "content-type")
    && (forall i, j :: 0 <= i < j < |ho.unset| ==> ho.unset[i] != ho.unset[j])
  }

  lemma GoodIsPermitted(o: HeaderOp)
    requires GoodHeaderOp(o)
    ensures Ours(o.name)
    ensures o.kind == SetHeader ==> Lower(o.name) != "set-cookie"
    ensures o.kind == SetHeader ==> '\r' !in o.value && '\n' !in o.value && '\0' !in o.value
    ensures o.kind == UnsetHeader ==> Lower(o.name) != "content-type"
  {}

  lemma FoldIsPermitted(ops: seq<HeaderOp>)
    requires ops != [] && forall op :: op in ops ==> GoodHeaderOp(op)
    ensures HeadersAfter(None, ops).Some? && Permitted(HeadersAfter(None, ops).value)
  {
    RewriteHeaders.HeadersMean(ops);
    var ho := HeadersAfter(None, ops).value;
    hide GoodHeaderOp, HeadersAfter, Ours, Lower;
    forall n | n in ho.set_
      ensures Ours(n) && Lower(n) != "set-cookie" && '\r' !in ho.set_[n] && '\n' !in ho.set_[n] && '\0' !in ho.set_[n]
    {
      LastSetIsMember(ops, n);
      GoodIsPermitted(HeaderOp(SetHeader, n, ho.set_[n]));
    }
    forall n | n in ho.unset ensures Ours(n) && Lower(n) != "content-type" {
      RewriteHeaders.FirstUnsetIsFirst(ops, n);
      var op := ops[RewriteHeaders.FirstUnset(ops, n)];
      assert op in ops && op == HeaderOp(UnsetHeader, n, op.value);
      GoodIsPermitted(op);
    }
  }

  /** Whatever groups are active and however they combine, a reply of a validated profile never
      sets or unsets a header that validation forbids, and never sets a value with a line break. */
  lemma HeadersArePermitted(h: Host, p: Profile, req: Request)
    requires Lawful(h.engine) && Sound(p)
    ensures var reply := ReplyOf(h, Some(p), req); reply.headers.Some? ==> Permitted(reply.headers.value)
  {
    var reply := ReplyOf(h, Some(p), req);
    if reply.headers.Some? {
      var active := ActiveFor(p, req);
      var data, hit := Usable(LoadedFor(h, req, active)), HitOf(h, req, active);
      var ops := RewriteHeaders.ActiveHeaderOps(active, hit, data.None?);
      RewriteHeaders.HeadersIgnoreBudget(h.engine, active, hit, data, MATCH_BUDGET);
      MadeIs(h, req, active, hit, data);
      RewriteHeaders.HeadersMean(ops);
      HeaderOpsComeFromGroups(active, hit, data.None?);
      ActiveForMembers(p, req);
      hide GoodHeaderOp, Permitted, ReplyOf, RunGroups, HeadersAfter, Lawful;
      hide ActiveFor, HitOf, LoadedFor, Made;
      hide RewriteHeaders.ActiveHeaderOps, RewriteHeaders.SetMap, RewriteHeaders.UnsetList;
      AppliedHeaders(h, p, req);
      forall op | op in ops ensures GoodHeaderOp(op) {
        var g :| g in active && op in g.headers;
        assert g in p.groups;
      }
      FoldIsPermitted(ops);
    }
  }

  lemma AppliedHeaders(h: Host, p: Profile, req: Request)
    requires Lawful(h.engine)
    ensures var reply := ReplyOf(h, Some(p), req);
      reply.headers.Some? ==> reply.headers == Made(h, req, ActiveFor(p, req)).headers
  {
    hide Lawful, Made, Skips, Wishes, ActiveFor, HitOf, LoadedFor, Wanted, Takes;
  }

  /** With removals and inserts only, the object that is stored is longer than the loaded one by
      at most the match budget times the longest text of the profile. */
  lemma StoredSizeBound(h: Host, p: Profile, req: Request, longest: nat)
    requires Lawful(h.engine) && RewriteSize.AllOps(p.groups, longest) && PutsOf(h, Some(p), req) != []
    ensures var loaded := Load(h.loader, req.body);
      loaded.data.Some? && |PutsOf(h, Some(p), req)[0].value| <= |loaded.data.value| + MATCH_BUDGET * longest
  {
    var active := ActiveFor(p, req);
    var data, hit := Usable(LoadedFor(h, req, active)), HitOf(h, req, active);
    PutIsMade(h, p, req);
    ChangedIsLoaded(h, req, active);
    MadeIs(h, req, active, hit, data);
    ActiveOps(p, req, longest);
    hide Lawful, ActiveFor, HitOf, PutsOf, RunGroups, Load;
    hide Made, NeedBody, RewriteSize.AllOps, RewriteSize.GroupsTrace, RewriteSize.Added, RewriteSize.Cut;
    RewriteSize.SizeBound(h.engine, active, hit, data.value, longest);
  }

  lemma ActiveOps(p: Profile, req: Request, longest: nat)
    requires RewriteSize.AllOps(p.groups, longest)
    ensures RewriteSize.AllOps(ActiveFor(p, req), longest)
  {
    ActiveForMembers(p, req);
    hide ActiveFor, TurnedOn, TurnedOff, Wishes;
  }

  lemma PutIsMade(h: Host, p: Profile, req: Request)
    requires Lawful(h.engine) && PutsOf(h, Some(p), req) != []
    ensures var made := Made(h, req, ActiveFor(p, req));
      made.changed && PutsOf(h, Some(p), req)[0].value == Content(made.body)
  {
    hide Lawful, Made, Skips, Wishes, ActiveFor, HitOf, LoadedFor, Wanted, Takes;
  }

  // ---- a body that is not there ----

  /** When a matching group of an enforcing profile works on the body, the reply allows the
      message without the body ever reaching that group exactly if the request gives the body no
      address, or the object has no content and the store takes that for no object; a body that
      is announced as unavailable or cut short is denied instead. */
  lemma PassesWithoutBodyIff(h: Host, p: Profile, req: Request)
    requires Lawful(h.engine) && p.mode == Enforce && !Skips(p, Wishes(req.prior))
    requires Wanted(ActiveFor(p, req), HitOf(h, req, ActiveFor(p, req)))
    ensures var loaded := Load(h.loader, req.body);
      var passes := ReplyOf(h, Some(p), req).verdict == Allow && Usable(loaded).None?;
      && (passes <==> Available(loaded) && !loaded.truncated && loaded.data.None?)
      && (Solid(h.loader) ==> (passes <==> Unaddressed(req.body)))
    ensures Unaddressed(req.body) ==>
      ReplyOf(h, Some(p), req).verdict == Allow && PutsOf(h, Some(p), req) == []
  {
    var active := ActiveFor(p, req);
    assert active != [] && NeedBody(active);
    NoDataNoChange(h, req, active);
    FaultIsUnavailable(h.loader, req.body);
    if Solid(h.loader) { NothingLoadedIff(h.loader, req.body); }
    if Unaddressed(req.body) { assert Load(h.loader, req.body) == EMPTY; }
    assert LoadedFor(h, req, active) == Load(h.loader, req.body);
    hide Lawful, Made, Skips, Wishes, ActiveFor, HitOf, Load, LoadedFor, NeedBody, Wanted, Takes, Solid, Unaddressed;
    DenyEndings(h, p, req);
    PassEndings(h, p, req);
    hide ReplyOf, PutsOf;
  }

  lemma PassEndings(h: Host, p: Profile, req: Request)
    requires Lawful(h.engine) && p.mode == Enforce
    ensures ReplyOf(h, Some(p), req).verdict == Allow <==>
      EndingOf(h, Some(p), req) !in {StoreDown, BodyGone, NotStored, NoProfile}
    ensures EndingOf(h, Some(p), req) !in {NotStored, Rewritten} ==> PutsOf(h, Some(p), req) == []
    ensures EndingOf(h, Some(p), req).Rewritten? && !Made(h, req, ActiveFor(p, req)).changed ==>
      PutsOf(h, Some(p), req) == []
  {
    hide EndingOf, Made, ActiveFor, Lawful;
  }

  lemma FaultIsUnavailable(l: Loader, loc: Option<Locator>)
    ensures Load(l, loc).fault ==> !Available(Load(l, loc)) && Load(l, loc).data.None?
  {}

  // ---- together with the rollout ----

  /** Whatever name a request carries, the profile a healthy snapshot gives for it is validated,
      and an empty name always finds one. */
  lemma ServedProfilesAreSound(c: Profiles.Codec, s: Profiles.Snapshot, name: string)
    requires Profiles.Healthy(c, s)
    ensures Profiles.Lookup(Some(s), "").Some?
    ensures var p := Profiles.Lookup(Some(s), name); p.Some? ==> Sound(p.value) && GoodProfile(c.compiles, p.value)
  {
    hide Sound, GoodProfile;
  }
}
