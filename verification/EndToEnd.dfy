/** Replies of a program that has been through any run of rollouts. */
module EndToEnd {
  import opened Config
  import opened Splice
  import opened Prior
  import opened Bodies
  import opened Handler
  import HandlerLaws
  import Profiles
  import Rollout
  import RolloutRuns

  /** What is promised of one reply and of what was handed to the store for it. */
  ghost predicate SafeReply(h: Host, p: Option<Profile>, req: Request, reply: Reply, puts: seq<Put>) {
    && (reply.headers.Some? ==> HandlerLaws.Permitted(reply.headers.value) && !Framed(req))
    && (reply.headers.Some? || reply.rewrite.Some? ==> reply.verdict == Allow && p.Some? && p.value.mode == Enforce)
    && (reply.verdict == Deny ==>
          && p.Some? && p.value.mode == Enforce
          && reply.response == Some(p.value.denyResponse) && p.value.denyResponse != "")
    && (puts != [] ==>
          && p.Some? && p.value.mode == Enforce && |puts| == 1
          && req.body.Some? && req.body.value.key != "" && puts[0].key == req.body.value.key + OUT_SUFFIX)
    && (reply.rewrite.Some? && reply.rewrite.value.body.Some? ==>
          && puts != [] && puts[0].took
          && reply.rewrite.value.body.value ==
             RewriteBody(puts[0].key, |puts[0].value|, h.loader.digest(puts[0].value)))
  }

  /** After any run of starts, reloads, manifests and edits, with any failures, a program that is
      alive finds a validated profile or none for every parsed request, and gives it a safe reply.
      A request without a profile name always finds one. */
  lemma EveryReplyIsSafe(c: Profiles.Codec, base: string, data: string, disk: Profiles.Disk,
                         es: seq<RolloutRuns.Event>, h: Host, req: Request)
    requires base != Rollout.Staging(data) && base != Rollout.Parked(data)
    requires forall i :: 0 <= i < |es| ==> RolloutRuns.Allowed(data, es[i])
    requires Lawful(h.engine) && Addressed(req.body)
    ensures var s := RolloutRuns.Run(c, base, data, RolloutRuns.Idle(disk), es);
      var p := Profiles.Lookup(s.world.shelf.cur, req.profile);
      s.alive ==> (req.profile == "" ==> p.Some?) && SafeReply(h, p, req, ReplyOf(h, p, req), PutsOf(h, p, req))
  {
    RolloutRuns.EveryRun(c, base, data, disk, es);
    var s := RolloutRuns.Run(c, base, data, RolloutRuns.Idle(disk), es);
    hide RolloutRuns.Run, RolloutRuns.Idle, RolloutRuns.Truthful;
    hide RolloutRuns.Allowed, Rollout.Staging, Rollout.Parked, Lawful;
    if s.alive {
      HandlerLaws.ServedProfilesAreSound(c, s.world.shelf.cur.value, req.profile);
      var p := Profiles.Lookup(s.world.shelf.cur, req.profile);
      hide Profiles.Lookup, Profiles.Healthy;
      ReplyIsSafe(c.compiles, h, p, req);
    }
  }

  lemma ReplyIsSafe(compiles: string -> bool, h: Host, p: Option<Profile>, req: Request)
    requires Lawful(h.engine) && Addressed(req.body) && (p.Some? ==> Sound(p.value) && GoodProfile(compiles, p.value))
    ensures SafeReply(h, p, req, ReplyOf(h, p, req), PutsOf(h, p, req))
  {
    HandlerLaws.MutedReplies(h, p, req);
    HandlerLaws.NamedBodyIsStored(h, p, req);
    hide ReplyOf, PutsOf, Lawful, HandlerLaws.Permitted, Made, ActiveFor, Skips, Wishes;
    hide Addressed, SoundGroup, GoodRule, GoodGroup, GoodName, LoadedFor, HitOf, Takes, Wanted;
    if p.Some? {
      HandlerLaws.HeadersArePermitted(h, p.value, req);
      HandlerLaws.DeniesIff(h, p.value, req);
    }
  }
}
