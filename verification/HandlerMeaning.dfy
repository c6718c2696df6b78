/** What is loaded, looked at and replied, said with the request's own fields and the wire's words. */
module HandlerMeaning {
  import opened Seqs
  import opened Config
  import opened Splice
  import opened Rewrite
  import opened Prior
  import opened Bodies
  import opened Handler
  import opened HandlerLaws
  import Profiles
  import RewriteHeaders
  import RolloutMeaning

  // ---- what is loaded ----

  /** The digest an object must have, if any: that of the processed object if it is given, else that
      of the whole object unless it was cut short. */
  function Demanded(loc: Locator): string {
    if loc.processedSha256 != "" then loc.processedSha256 else if loc.truncated then "" else loc.sha256
  }

  /** What the store holds for an addressed object, decrypted if it is encrypted. */
  function Plaintext(l: Loader, loc: Locator): Option<Option<Bytes>> {
    if l.get.None? || !l.get.value(loc.driver, loc.store, loc.key).Found? then None
    else
      var raw := l.get.value(loc.driver, loc.store, loc.key).raw;
      if loc.enc.None? then Some(raw) else l.decrypt(loc.enc.value, if raw.None? then "" else raw.value)
  }

  /** An addressed object is loaded, as the store holds it in plain, exactly if it can be had and has
      the demanded digest; else the load is at fault. Without an address nothing is loaded. */
  lemma LoadMeans(l: Loader, loc: Option<Locator>)
    ensures var b := Load(l, loc);
      if loc.None? || (loc.value.unavailable == "" && loc.value.driver == "") then
        b.data == None && b.unavailable == "" && !b.fault && !b.truncated
      else if loc.value.unavailable != "" then
        b.data == None && b.unavailable == loc.value.unavailable && !b.fault && !b.truncated
      else
        var plain, want := Plaintext(l, loc.value), Demanded(loc.value);
        var digest := if plain.None? then "" else l.digest(if plain.value.None? then "" else plain.value.value);
        && (b.fault <==> plain.None? || (want != "" && want != digest))
        && (b.fault ==> b.data == None && b.unavailable != "")
        && (!b.fault ==> b.data == plain.value && b.unavailable == "" && b.truncated == loc.value.truncated)
  {
    assert |"decrypt_failed"| > 0 && |"digest_mismatch"| > 0;
    assert |"store_unconfigured"| > 0 && |"unknown_driver"| > 0 && |"store_error"| > 0;
  }

  /** The body is loaded for every frame, and for a response exactly if an active group works on it. */
  lemma LoadedMeans(h: Host, req: Request, active: seq<Group>)
    ensures var needs := req.phase == "frame" || exists g :: g in active && |g.body| > 0;
      LoadedFor(h, req, active) == if needs then Load(h.loader, req.body) else Load(h.loader, None)
  {
    if NeedBody(active) {
      var i :| 0 <= i < |active| && HasBody(active[i]);
      assert active[i] in active;
    }
    if g :| g in active && |g.body| > 0 {
      var i :| 0 <= i < |active| && active[i] == g;
      assert HasBody(active[i]);
    }
    hide Load;
    assert Load(h.loader, None) == EMPTY by { LoadMeans(h.loader, None); EmptyLoad(h.loader); }
  }

  lemma EmptyLoad(l: Loader)
    ensures Load(l, None) == EMPTY
  {}

  lemma WantedMeans(active: seq<Group>, hit: Group -> bool)
    ensures Wanted(active, hit) <==> exists g :: g in active && |g.body| > 0 && hit(g)
  {
    if Wanted(active, hit) {
      var i :| 0 <= i < |active| && HasBody(active[i]) && hit(active[i]);
      assert active[i] in active;
    }
    if g :| g in active && |g.body| > 0 && hit(g) {
      var i :| 0 <= i < |active| && active[i] == g;
      assert HasBody(active[i]);
    }
  }

  // ---- what the groups look at ----

  /** Header `i` is the first of that name, whatever its case. */
  predicate FirstAt(pairs: seq<(string, string)>, name: string, i: nat) {
    i < |pairs| && Lower(pairs[i].0) == name && forall j :: 0 <= j < i ==> Lower(pairs[j].0) != name
  }

  lemma {:induction false} FirstValueMeans(pairs: seq<(string, string)>, name: string)
    ensures FirstValue(pairs, name).None? <==> forall i :: 0 <= i < |pairs| ==> Lower(pairs[i].0) != name
    ensures FirstValue(pairs, name).Some? ==>
      exists i: nat :: FirstAt(pairs, name, i) && FirstValue(pairs, name).value == pairs[i].1
  {
    hide Lower;
    if pairs != [] && Lower(pairs[0].0) == name {
      assert FirstAt(pairs, name, 0);
    } else if pairs != [] {
      FirstValueMeans(pairs[1..], name);
      assert forall i :: 0 <= i < |pairs[1..]| ==> pairs[1..][i] == pairs[i + 1];
      if FirstValue(pairs[1..], name).Some? {
        var i: nat :| FirstAt(pairs[1..], name, i) && FirstValue(pairs[1..], name).value == pairs[1..][i].1;
        assert forall j :: 0 < j < i + 1 ==> pairs[j] == pairs[1..][j - 1];
        assert FirstAt(pairs, name, i + 1);
      }
    }
  }

  /** The content type: that of the request's own headers, else that of the stored header list if it
      can be had; and none if no active group asks for it. */
  lemma ContentTypeMeans(h: Host, req: Request, active: seq<Group>)
    ensures var ct := ContentType(h, req, active);
      var own := if req.response.None? then [] else req.response.value.headers;
      var stored := Load(h.loader, req.headers);
      && ((forall g :: g in active ==> g.contentType == []) ==> ct == "")
      && ((exists g :: g in active && g.contentType != []) ==>
            if FirstValue(own, "content-type").Some? then ct == FirstValue(own, "content-type").value
            else if stored.unavailable != "" || stored.data.None? || stored.data.value == "" then ct == ""
            else if h.pairs(stored.data.value).None? then ct == ""
            else
              var v := FirstValue(h.pairs(stored.data.value).value, "content-type");
              ct == if v.None? then "" else v.value)
  {
    assert forall i :: 0 <= i < |active| ==> active[i] in active;
    if g :| g in active && g.contentType != [] {
      var i :| 0 <= i < |active| && active[i] == g;
    }
    hide Load;
  }

  /** Responses are selected by status and content type, frames by direction and opcode. */
  lemma HitMeans(h: Host, req: Request, active: seq<Group>, g: Group)
    ensures HitOf(h, req, active)(g) <==>
      if req.phase == "frame" then
        var s := if req.stream.None? then Stream("", "") else req.stream.value;
        MatchesFrame(g, s.direction, s.opcode)
      else Matches(g, if req.response.None? then 0 else req.response.value.status, ContentType(h, req, active))
  {
    hide ContentType, Matches, MatchesFrame;
  }

  /** The active groups of a phase keep the order of the profile. */
  lemma {:induction false} PhaseInOrder(gs: seq<Group>, frame: bool)
    ensures IsSubseq(PhaseGroups(gs, frame), gs)
  {
    if gs != [] {
      var init, g := gs[..|gs| - 1], gs[|gs| - 1];
      PhaseInOrder(init, frame);
      SubseqSnoc(PhaseGroups(init, frame), init, g);
      assert gs == init + [g];
      assert PhaseGroups(gs, frame) == PhaseGroups(init, frame) + (if g.on.OnFrame? == frame then [g] else []);
      assert PhaseGroups(init, frame) + [] == PhaseGroups(init, frame);
      hide IsSubseq, PhaseGroups;
    }
  }

  // ---- what is replied ----

  /** The verdict and the code of every reply for a profile. */
  lemma ReplyMeans(h: Host, p: Profile, req: Request)
    requires Lawful(h.engine)
    ensures var r := ReplyOf(h, Some(p), req);
      var active := ActiveFor(p, req);
      var loaded := LoadedFor(h, req, active);
      var gone := (loaded.unavailable != "" || loaded.truncated) && Wanted(active, HitOf(h, req, active));
      var names := Applying(h, p, req);
      var found := PatternFound(h, p, req);
      (r.verdict, r.code) ==
        if p.mode == Mode.Off then (Allow, "REWRITE_PROFILE_OFF")
        else if Skips(p, Wishes(req.prior)) then (Allow, "REWRITE_SKIPPED")
        else if active == [] then (Allow, "REWRITE_NOOP")
        else if loaded.fault then (Error, "REWRITE_STORE_UNAVAILABLE")
        else if gone then (if p.mode == Observe then Allow else Deny, "REWRITE_BODY_UNAVAILABLE")
        else if names == [] then (Allow, "REWRITE_NOOP")
        else if p.mode == Observe then (Allow, "REWRITE_OBSERVE")
        else if req.phase == "frame" && !found then (Allow, "REWRITE_NOOP")
        else if found && !Stored(h, p, req) then (Deny, "REWRITE_STORE_ERROR")
        else (Allow, "REWRITE_APPLIED")
  {
    EndingMeans(h, p, req);
    ReplySays(h, p, req);
    hide ReplyOf, EndingOf, Lawful, Made, Skips, Wishes, ActiveFor, HitOf, LoadedFor, Wanted, Applying, PatternFound;
    hide Stored;
  }

  /** The verdict and the code of each way a decision can end. */
  lemma ReplySays(h: Host, p: Profile, req: Request)
    requires Lawful(h.engine)
    ensures var r := ReplyOf(h, Some(p), req); var fails := if p.mode == Observe then Allow else Deny;
      (r.verdict, r.code) == match EndingOf(h, Some(p), req)
        case NoProfile => (Error, "REWRITE_UNKNOWN_PROFILE")
        case Off => (Allow, "REWRITE_PROFILE_OFF")
        case AskedToSkip => (Allow, "REWRITE_SKIPPED")
        case NoGroups => (Allow, "REWRITE_NOOP")
        case StoreDown => (Error, "REWRITE_STORE_UNAVAILABLE")
        case BodyGone => (fails, "REWRITE_BODY_UNAVAILABLE")
        case Watched =>
          (Allow, if Made(h, req, ActiveFor(p, req)).groups == [] then "REWRITE_NOOP" else "REWRITE_OBSERVE")
        case NothingDone => (Allow, "REWRITE_NOOP")
        case NotStored => (fails, "REWRITE_STORE_ERROR")
        case Rewritten => (Allow, "REWRITE_APPLIED")
  {
    hide EndingOf, Lawful, Made, ActiveFor;
  }

  lemma EndingMeans(h: Host, p: Profile, req: Request)
    requires Lawful(h.engine)
    ensures var active := ActiveFor(p, req);
      var loaded := LoadedFor(h, req, active);
      var gone := (loaded.unavailable != "" || loaded.truncated) && Wanted(active, HitOf(h, req, active));
      var names, found := Applying(h, p, req), PatternFound(h, p, req);
      && names == Made(h, req, active).groups && (active == [] ==> names == [])
      && EndingOf(h, Some(p), req) ==
        if p.mode == Mode.Off then Ending.Off
        else if Skips(p, Wishes(req.prior)) then AskedToSkip
        else if active == [] then NoGroups
        else if loaded.fault then StoreDown
        else if gone then BodyGone
        else if p.mode == Observe then Watched
        else if names == [] || (req.phase == "frame" && !found) then NothingDone
        else if found && !Stored(h, p, req) then NotStored
        else Rewritten
  {
    MadeIff(h, p, req);
    hide Lawful, Made, Skips, Wishes, ActiveFor, HitOf, LoadedFor, Wanted, Applying, PatternFound;
  }

  /** There is a writer and it takes the new body under the key of the old one. */
  ghost predicate Stored(h: Host, p: Profile, req: Request)
    requires Lawful(h.engine)
  {
    && h.writer.Some?
    && var body := Made(h, req, ActiveFor(p, req)).body;
       var key := if req.body.None? then "" else req.body.value.key;
       h.writer.value(key + ":out", if body.None? then "" else body.value)
  }

  /** A reply that applies: the names of the groups that match and have their body, the header changes
      of those groups in order, unless it is a frame, and a new body exactly if a pattern was found. */
  lemma AppliedReply(h: Host, p: Profile, req: Request)
    requires Lawful(h.engine) && ReplyOf(h, Some(p), req).code == "REWRITE_APPLIED"
    ensures var r := ReplyOf(h, Some(p), req); var active := ActiveFor(p, req);
      var ops := RewriteHeaders.ActiveHeaderOps(active, HitOf(h, req, active), Usable(LoadedFor(h, req, active)).None?);
      && r.response == None && r.rewrite.Some? && r.rewrite.value.groups == Applying(h, p, req)
      && (r.rewrite.value.body.Some? <==> PatternFound(h, p, req))
      && r.headers == if req.phase == "frame" then None else HeadersAfter(None, ops)
  {
    hide EndingOf, Lawful, Made, Skips, Wishes, ActiveFor, HitOf, LoadedFor, Wanted, Applying, PatternFound, Takes;
    hide HeadersAfter, RewriteHeaders.ActiveHeaderOps;
    AppliedIsRewritten(h, p, req);
    MadeIff(h, p, req);
    MadeHeaders(h, p, req);
  }

  lemma AppliedIsRewritten(h: Host, p: Profile, req: Request)
    requires Lawful(h.engine) && ReplyOf(h, Some(p), req).code == "REWRITE_APPLIED"
    ensures EndingOf(h, Some(p), req) == Rewritten
  {
    hide EndingOf, Lawful, Made, ActiveFor;
    CodesDiffer();
  }

  lemma MadeHeaders(h: Host, p: Profile, req: Request)
    requires Lawful(h.engine)
    ensures var active := ActiveFor(p, req);
      var ops := RewriteHeaders.ActiveHeaderOps(active, HitOf(h, req, active), Usable(LoadedFor(h, req, active)).None?);
      Made(h, req, active).headers == HeadersAfter(None, ops)
  {
    var active := ActiveFor(p, req);
    var data, hit := Usable(LoadedFor(h, req, active)), HitOf(h, req, active);
    RewriteHeaders.HeadersIgnoreBudget(h.engine, active, hit, data, MATCH_BUDGET);
    hide Lawful, RunGroups, ActiveFor, HitOf, LoadedFor, RewriteHeaders.ActiveHeaderOps, HeadersAfter;
  }

  /** A reply that does not apply carries nothing, but for the deny response of a denial. */
  lemma OtherReply(h: Host, p: Option<Profile>, req: Request)
    requires Lawful(h.engine) && ReplyOf(h, p, req).code != "REWRITE_APPLIED"
    ensures var r := ReplyOf(h, p, req);
      && r.headers == None && r.rewrite == None
      && r.response == if r.verdict == Deny then Some(p.value.denyResponse) else None
  {
    hide Lawful, Made, Skips, Wishes, ActiveFor, HitOf, LoadedFor, Wanted, Takes;
  }

  /** What the store is handed: something exactly if the reply names a new body or says that storing it
      failed while there is a writer; and then once, under the key of the loaded body, all that the
      matching operations of the active groups make of that body with 4096 matches to spend. */
  lemma HandedToStore(h: Host, p: Profile, req: Request)
    requires Lawful(h.engine)
    ensures var reply, puts := ReplyOf(h, Some(p), req), PutsOf(h, Some(p), req);
      && (puts != [] <==> || (reply.code == "REWRITE_APPLIED" && PatternFound(h, p, req))
                          || (reply.code == "REWRITE_STORE_ERROR" && h.writer.Some?))
      && (puts != [] ==>
            var loaded, active := Load(h.loader, req.body), ActiveFor(p, req);
            && |puts| == 1 && req.body.Some? && puts[0].key == req.body.value.key + ":out"
            && loaded.data.Some? && loaded.unavailable == "" && !loaded.truncated
            && var st := Start(loaded.data, 4096);
               RewriteSize.Replays(h.engine, RewriteSize.GroupsTrace(h.engine, active, HitOf(h, req, active), st),
                                   loaded.data.value, puts[0].value))
  {
    var active := ActiveFor(p, req);
    var data, hit := Usable(LoadedFor(h, req, active)), HitOf(h, req, active);
    PutsWhen(h, p, req);
    MadeIff(h, p, req);
    if PutsOf(h, Some(p), req) != [] {
      PutIsMade(h, p, req);
      ChangedIsLoaded(h, req, active);
      MadeIs(h, req, active, hit, data);
      hide Lawful, ActiveFor, HitOf, PutsOf, ReplyOf, PatternFound, RunGroups, Load, Made, NeedBody;
      hide RewriteSize.Replays, RewriteSize.GroupsTrace;
      RewriteSize.BodyIsReplay(h.engine, active, hit, Start(data, MATCH_BUDGET));
    }
  }

  lemma PutsWhen(h: Host, p: Profile, req: Request)
    requires Lawful(h.engine)
    ensures var puts, made := PutsOf(h, Some(p), req), Made(h, req, ActiveFor(p, req));
      var code := ReplyOf(h, Some(p), req).code;
      && (puts != [] <==> || (code == "REWRITE_APPLIED" && made.changed)
                          || (code == "REWRITE_STORE_ERROR" && h.writer.Some?))
      && (puts != [] ==> |puts| == 1 && puts[0].key == OutKey(req))
  {
    CodesDiffer();
    hide Lawful, Made, Skips, Wishes, ActiveFor, HitOf, LoadedFor, Wanted;
  }

  /** A request for a profile that is not served is answered with an error, and nothing is stored; one
      for a served profile is decided by that profile. */
  lemma DecidedByItsProfile(h: Host, s: Profiles.Snapshot, req: Request)
    requires Lawful(h.engine)
    ensures var p := Profiles.Lookup(Some(s), req.profile);
      var name := if req.profile == "" then "default" else req.profile;
      && (name in s.byName ==> p == Some(s.byName[name]))
      && (name !in s.byName ==>
            && ReplyOf(h, p, req) ==
               Reply(req.v, req.rid, req.inspector, Error, "REWRITE_UNKNOWN_PROFILE", None, None, None)
            && PutsOf(h, p, req) == [])
  {
    RolloutMeaning.LookupMeans(s, req.profile);
    hide Profiles.Lookup, Made, Lawful;
  }
}
