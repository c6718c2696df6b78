/** Requests of neighbouring inspectors: which of them a profile hears, and the groups that are
    active once they are heard. */
module Prior {
  import opened Config

  datatype Action = Action(verb: Verb, apply: string, code: string, group: string, set_: string)

  datatype PriorVerdict = PriorVerdict(inspector: string, actions: seq<Action>)

  datatype Outcome = Obeyed | NoRule | UnknownGroup

  datatype ActionOutcome = ActionOutcome(
    from: string, verb: Verb, apply: string, code: string, groups: seq<string>, outcome: Outcome)

  datatype Ask = Ask(skip: bool, on: set<string>, off: set<string>, outcomes: seq<ActionOutcome>)

  const APPLY_REQUEST := "request"
  const SET_OFF := "off"

  function Scope(a: Action): string { if a.apply == "" then APPLY_REQUEST else a.apply }

  /** An action with its sender. */
  datatype Wish = Wish(from: string, act: Action)

  /** All actions with their senders, in the order they are delivered. */
  function Wishes(entries: seq<PriorVerdict>): seq<Wish> {
    if entries == [] then []
    else
      var v := entries[|entries| - 1];
      Wishes(entries[..|entries| - 1]) +
        seq(|v.actions|, i requires 0 <= i < |v.actions| => Wish(v.inspector, v.actions[i]))
  }

  // ---- what the requests mean, whatever order they come in ----

  predicate Hears(r: PriorRule, w: Wish) {
    r.from == w.from && Accepts(r, w.act.verb) && WantsCode(r, w.act.code) && Scope(w.act) == APPLY_REQUEST
  }

  predicate Heard(rules: seq<PriorRule>, w: Wish) {
    exists i :: 0 <= i < |rules| && Hears(rules[i], w)
  }

  function Known(p: Profile): set<string> { set i | 0 <= i < |p.groups| :: p.groups[i].name }

  predicate AsksSkip(p: Profile, w: Wish) { Heard(p.prior, w) && w.act.verb == Skip }

  predicate AsksOn(p: Profile, w: Wish) {
    Heard(p.prior, w) && w.act.verb == Mutate && w.act.group in Known(p) && w.act.set_ != SET_OFF
  }

  predicate AsksOff(p: Profile, w: Wish) {
    Heard(p.prior, w) && w.act.verb == Mutate && w.act.group in Known(p) && w.act.set_ == SET_OFF
  }

  function OutcomeOf(p: Profile, w: Wish): Outcome {
    if !Heard(p.prior, w) then NoRule
    else match w.act.verb
      case Skip => Obeyed
      case Mutate => if w.act.group in Known(p) then Obeyed else UnknownGroup
      case _ => NoRule
  }

  /** The group an action names, with what becomes of it. */
  function Mark(known: set<string>, w: Wish): string {
    if w.act.group !in known then "?" + w.act.group
    else if w.act.set_ == SET_OFF then "-" + w.act.group
    else "+" + w.act.group
  }

  /** One mark for each rule that hears a request about a group. */
  function Marks(rules: seq<PriorRule>, known: set<string>, w: Wish): seq<string> {
    if rules == [] || w.act.verb != Mutate then []
    else
      Marks(rules[..|rules| - 1], known, w) +
      if Hears(rules[|rules| - 1], w) then [Mark(known, w)] else []
  }

  /** What is recorded for an action. */
  function Recorded(p: Profile, w: Wish): ActionOutcome {
    ActionOutcome(w.from, w.act.verb, Scope(w.act), w.act.code, Marks(p.prior, Known(p), w), OutcomeOf(p, w))
  }

  predicate Skips(p: Profile, ws: seq<Wish>) { exists i :: 0 <= i < |ws| && AsksSkip(p, ws[i]) }

  function TurnedOn(p: Profile, ws: seq<Wish>): set<string> {
    set i | 0 <= i < |ws| && AsksOn(p, ws[i]) :: ws[i].act.group
  }

  function TurnedOff(p: Profile, ws: seq<Wish>): set<string> {
    set i | 0 <= i < |ws| && AsksOff(p, ws[i]) :: ws[i].act.group
  }

  predicate GroupOn(g: Group, on: set<string>, off: set<string>) {
    g.name !in off && (g.default_ || g.name in on)
  }

  /** The active groups, in the order of the profile. */
  function ActiveGroups(groups: seq<Group>, on: set<string>, off: set<string>): seq<Group> {
    if groups == [] then []
    else
      var g := groups[|groups| - 1];
      ActiveGroups(groups[..|groups| - 1], on, off) + (if GroupOn(g, on, off) then [g] else [])
  }

  // ---- the loops of the code ----

  /** Ask.deliver: one action against all rules. */
  method Deliver(a: Ask, w: Wish, p: Profile, known: set<string>) returns (r: Ask)
    requires known == Known(p)
    ensures r.skip == (a.skip || AsksSkip(p, w))
    ensures r.on == a.on + (if AsksOn(p, w) then {w.act.group} else {})
    ensures r.off == a.off + (if AsksOff(p, w) then {w.act.group} else {})
    ensures r.outcomes == a.outcomes + [Recorded(p, w)]
  {
    r := a;
    var out := ActionOutcome(w.from, w.act.verb, Scope(w.act), w.act.code, [], NoRule);
    var i := 0;
    while i < |p.prior|
      invariant 0 <= i <= |p.prior|
      invariant r.outcomes == a.outcomes
      invariant out ==
        ActionOutcome(w.from, w.act.verb, Scope(w.act), w.act.code, Marks(p.prior[..i], known, w), out.outcome)
      invariant var heard := Heard(p.prior[..i], w);
        && r.skip == (a.skip || (heard && w.act.verb == Skip))
        && (var turns := heard && w.act.verb == Mutate && w.act.group in known;
            && r.on == a.on + (if turns && w.act.set_ != SET_OFF then {w.act.group} else {})
            && r.off == a.off + (if turns && w.act.set_ == SET_OFF then {w.act.group} else {}))
        && out.outcome ==
           if !heard then NoRule
           else match w.act.verb
             case Skip => Obeyed
             case Mutate => (if w.act.group in known then Obeyed else UnknownGroup)
             case _ => NoRule
    {
      var rule := p.prior[i];
      HeardNext(p.prior, i, w);
      MarksNext(p.prior, i, known, w);
      hide Marks;
      i := i + 1;
      if rule.from != w.from { continue; }
      if !Accepts(rule, w.act.verb) || !WantsCode(rule, w.act.code) { continue; }
      if Scope(w.act) != APPLY_REQUEST { continue; }
      match w.act.verb {
        case Skip =>
          r := r.(skip := true);
          out := out.(outcome := Obeyed);
        case Mutate =>
          if w.act.group !in known {
            out := out.(groups := out.groups + ["?" + w.act.group], outcome := UnknownGroup);
          } else {
            if w.act.set_ == SET_OFF {
              r := r.(off := r.off + {w.act.group});
              out := out.(groups := out.groups + ["-" + w.act.group]);
            } else {
              r := r.(on := r.on + {w.act.group});
              out := out.(groups := out.groups + ["+" + w.act.group]);
            }
            out := out.(outcome := Obeyed);
          }
        case _ =>
      }
    }
    assert p.prior[..|p.prior|] == p.prior;
    r := r.(outcomes := r.outcomes + [out]);
  }

  lemma HeardNext(rules: seq<PriorRule>, i: nat, w: Wish)
    requires i < |rules|
    ensures Heard(rules[..i + 1], w) <==> Heard(rules[..i], w) || Hears(rules[i], w)
  {
    if Heard(rules[..i], w) {
      var k :| 0 <= k < i && Hears(rules[..i][k], w);
      assert rules[..i + 1][k] == rules[..i][k];
    }
    if Hears(rules[i], w) { assert rules[..i + 1][i] == rules[i]; }
    if Heard(rules[..i + 1], w) {
      var k :| 0 <= k <= i && Hears(rules[..i + 1][k], w);
      if k < i { assert rules[..i][k] == rules[..i + 1][k]; }
    }
  }

  lemma MarksNext(rules: seq<PriorRule>, i: nat, known: set<string>, w: Wish)
    requires i < |rules|
    ensures Marks(rules[..i + 1], known, w) ==
      Marks(rules[..i], known, w) + (if Hears(rules[i], w) && w.act.verb == Mutate then [Mark(known, w)] else [])
  {
    assert rules[..i + 1][..i] == rules[..i] && rules[..i + 1][i] == rules[i];
  }

  lemma WishSnoc(p: Profile, ws: seq<Wish>, w: Wish)
    ensures Skips(p, ws + [w]) <==> Skips(p, ws) || AsksSkip(p, w)
    ensures TurnedOn(p, ws + [w]) == TurnedOn(p, ws) + (if AsksOn(p, w) then {w.act.group} else {})
    ensures TurnedOff(p, ws + [w]) == TurnedOff(p, ws) + (if AsksOff(p, w) then {w.act.group} else {})
  {
    var all := ws + [w];
    hide AsksSkip, AsksOn, AsksOff;
    assert all[|ws|] == w && forall i :: 0 <= i < |ws| ==> all[i] == ws[i];
  }

  /** What an Ask must be after hearing `ws`. */
  ghost predicate Reflects(a: Ask, p: Profile, ws: seq<Wish>) {
    && a.skip == Skips(p, ws)
    && a.on == TurnedOn(p, ws)
    && a.off == TurnedOff(p, ws)
    && |a.outcomes| == |ws|
    && (forall i :: 0 <= i < |ws| ==> a.outcomes[i] == Recorded(p, ws[i]))
  }

  /** EvaluatePrior: Skip, on and off are what the requests ask for as a set, and there is one
      outcome for each action, in order. Without a profile nothing is asked. */
  method EvaluatePrior(entries: seq<PriorVerdict>, p: Option<Profile>) returns (a: Ask)
    ensures p.None? ==> a == Ask(false, {}, {}, [])
    ensures p.Some? ==> Reflects(a, p.value, Wishes(entries))
  {
    a := Ask(false, {}, {}, []);
    if p.None? { return; }
    var known := {};
    for i := 0 to |p.value.groups|
      invariant known == set k | 0 <= k < i :: p.value.groups[k].name
    {
      known := known + {p.value.groups[i].name};
    }
    for i := 0 to |entries|
      invariant Reflects(a, p.value, Wishes(entries[..i]))
    {
      a := DeliverAll(a, entries[i], p.value, known, Wishes(entries[..i]));
      assert entries[..i + 1][..i] == entries[..i] && entries[..i + 1][i] == entries[i];
    }
    assert entries[..|entries|] == entries;
  }

  method DeliverAll(a: Ask, v: PriorVerdict, p: Profile, known: set<string>, ghost ws: seq<Wish>) returns (r: Ask)
    requires known == Known(p) && Reflects(a, p, ws)
    ensures Reflects(r, p, ws + seq(|v.actions|, i requires 0 <= i < |v.actions| => Wish(v.inspector, v.actions[i])))
  {
    r := a;
    ghost var mine := seq(|v.actions|, i requires 0 <= i < |v.actions| => Wish(v.inspector, v.actions[i]));
    hide AsksSkip, AsksOn, AsksOff, Recorded, Skips, TurnedOn, TurnedOff, Known;
    assert ws + mine[..0] == ws;
    for j := 0 to |v.actions|
      invariant Reflects(r, p, ws + mine[..j])
    {
      var w := Wish(v.inspector, v.actions[j]);
      WishSnoc(p, ws + mine[..j], w);
      assert ws + mine[..j + 1] == (ws + mine[..j]) + [w];
      r := Deliver(r, w, p, known);
    }
    assert ws + mine[..|mine|] == ws + mine;
  }

  /** Ask.Active: the profile's own groups, in its order, that are on by default or by request
      and not off by request. */
  method Active(a: Ask, p: Profile) returns (out: seq<Group>)
    ensures out == ActiveGroups(p.groups, a.on, a.off)
  {
    out := [];
    for i := 0 to |p.groups|
      invariant out == ActiveGroups(p.groups[..i], a.on, a.off)
    {
      var g := p.groups[i];
      assert p.groups[..i + 1][..i] == p.groups[..i] && p.groups[..i + 1][i] == g;
      var on := g.default_;
      if g.name in a.on { on := true; }
      if g.name in a.off { on := false; }
      if on { out := out + [g]; }
    }
    assert p.groups[..|p.groups|] == p.groups;
  }

  // ---- the order of the requests does not matter ----

  /** Two lists of the same things, in any order and with any repetitions. */
  ghost predicate SameMembers<T(!new)>(a: seq<T>, b: seq<T>) { forall x :: x in a <==> x in b }

  lemma HeardMembers(a: seq<PriorRule>, b: seq<PriorRule>, w: Wish)
    requires forall x :: x in a ==> x in b
    ensures Heard(a, w) ==> Heard(b, w)
  {
    if Heard(a, w) {
      var i :| 0 <= i < |a| && Hears(a[i], w);
      assert a[i] in b;
    }
  }

  lemma AsksMembers(p: Profile, q: Profile, w: Wish)
    requires p.groups == q.groups && SameMembers(p.prior, q.prior)
    ensures AsksSkip(p, w) == AsksSkip(q, w) && AsksOn(p, w) == AsksOn(q, w) && AsksOff(p, w) == AsksOff(q, w)
  {
    HeardMembers(p.prior, q.prior, w);
    HeardMembers(q.prior, p.prior, w);
  }

  /** Everything `a` asks for, `b` asks for too. */
  lemma MembersAsk(p: Profile, a: seq<Wish>, b: seq<Wish>)
    requires forall i :: 0 <= i < |a| && OutcomeOf(p, a[i]) == Obeyed ==> a[i] in b
    ensures Skips(p, a) ==> Skips(p, b)
    ensures TurnedOn(p, a) <= TurnedOn(p, b) && TurnedOff(p, a) <= TurnedOff(p, b)
  {
    forall i | 0 <= i < |a| && OutcomeOf(p, a[i]) == Obeyed ensures exists j :: 0 <= j < |b| && b[j] == a[i] {
      assert a[i] in b;
    }
  }

  lemma ProfilesAsk(p: Profile, q: Profile, ws: seq<Wish>)
    requires p.groups == q.groups && SameMembers(p.prior, q.prior)
    ensures Skips(p, ws) == Skips(q, ws) && TurnedOn(p, ws) == TurnedOn(q, ws) && TurnedOff(p, ws) == TurnedOff(q, ws)
  {
    forall w
      ensures AsksSkip(p, w) == AsksSkip(q, w) && AsksOn(p, w) == AsksOn(q, w) && AsksOff(p, w) == AsksOff(q, w)
    {
      AsksMembers(p, q, w);
    }
  }

  /** Permuting or repeating requests, and permuting or repeating rules, changes neither Skip
      nor the active groups. */
  lemma OrderDoesNotMatter(p: Profile, q: Profile, a: seq<Wish>, b: seq<Wish>)
    requires p.groups == q.groups && SameMembers(p.prior, q.prior) && SameMembers(a, b)
    ensures Skips(p, a) == Skips(q, b)
    ensures ActiveGroups(p.groups, TurnedOn(p, a), TurnedOff(p, a)) ==
      ActiveGroups(q.groups, TurnedOn(q, b), TurnedOff(q, b))
  {
    ProfilesAsk(p, q, b);
    MembersAsk(p, a, b);
    MembersAsk(p, b, a);
    assert TurnedOn(p, a) == TurnedOn(p, b) && TurnedOff(p, a) == TurnedOff(p, b);
  }

  /** The action stands in the entry of its sender. */
  predicate Says(entries: seq<PriorVerdict>, w: Wish) {
    exists i, j :: 0 <= i < |entries| && 0 <= j < |entries[i].actions|
      && w == Wish(entries[i].inspector, entries[i].actions[j])
  }

  /** The requests delivered are the actions of the entries. */
  lemma {:induction false} WishesMembers(entries: seq<PriorVerdict>, w: Wish)
    ensures w in Wishes(entries) <==> Says(entries, w)
  {
    if entries != [] {
      var init, v := entries[..|entries| - 1], entries[|entries| - 1];
      WishesMembers(init, w);
      SaysSnoc(init, v, w);
      assert entries == init + [v];
      hide Says;
    }
  }

  lemma SaysSnoc(init: seq<PriorVerdict>, v: PriorVerdict, w: Wish)
    ensures Says(init + [v], w) <==>
      || Says(init, w)
      || w in seq(|v.actions|, i requires 0 <= i < |v.actions| => Wish(v.inspector, v.actions[i]))
  {
    var all := init + [v];
    var mine := seq(|v.actions|, i requires 0 <= i < |v.actions| => Wish(v.inspector, v.actions[i]));
    assert all[|init|] == v;
    if w in mine {
      var j :| 0 <= j < |mine| && mine[j] == w;
      assert w == Wish(all[|init|].inspector, all[|init|].actions[j]);
    }
    if i, j :| 0 <= i < |init| && 0 <= j < |init[i].actions| && w == Wish(init[i].inspector, init[i].actions[j]) {
      assert all[i] == init[i];
    }
    if i, j :| 0 <= i < |all| && 0 <= j < |all[i].actions| && w == Wish(all[i].inspector, all[i].actions[j]) {
      if i < |init| { assert init[i] == all[i]; } else { assert mine[j] == w; }
    }
  }

  /** Entry by entry, the same actions in any order. */
  ghost predicate SameEntries(a: seq<PriorVerdict>, b: seq<PriorVerdict>) {
    && |a| == |b|
    && forall i :: 0 <= i < |a| ==> a[i].inspector == b[i].inspector && multiset(a[i].actions) == multiset(b[i].actions)
  }

  /** The entries are permuted, and so are the actions inside them. */
  ghost predicate Shuffled(a: seq<PriorVerdict>, b: seq<PriorVerdict>) {
    exists mid :: multiset(a) == multiset(mid) && SameEntries(mid, b)
  }

  lemma MemberOf<T>(s: seq<T>, x: T) returns (i: nat)
    requires x in multiset(s)
    ensures i < |s| && s[i] == x
  {
    i :| i < |s| && s[i] == x;
  }

  lemma PermutedSays(a: seq<PriorVerdict>, b: seq<PriorVerdict>, w: Wish)
    requires multiset(a) == multiset(b) && Says(a, w)
    ensures Says(b, w)
  {
    var i, j :| 0 <= i < |a| && 0 <= j < |a[i].actions| && w == Wish(a[i].inspector, a[i].actions[j]);
    assert a[i] in multiset(a);
    var k := MemberOf(b, a[i]);
    assert w == Wish(b[k].inspector, b[k].actions[j]);
  }

  lemma EntriesSay(a: seq<PriorVerdict>, b: seq<PriorVerdict>, w: Wish)
    requires SameEntries(a, b) && Says(a, w)
    ensures Says(b, w)
  {
    var i, j :| 0 <= i < |a| && 0 <= j < |a[i].actions| && w == Wish(a[i].inspector, a[i].actions[j]);
    assert a[i].actions[j] in multiset(a[i].actions);
    var k := MemberOf(b[i].actions, a[i].actions[j]);
    assert w == Wish(b[i].inspector, b[i].actions[k]);
  }

  /** Shuffling entries and actions leaves the same requests. */
  lemma ShuffledSays(a: seq<PriorVerdict>, b: seq<PriorVerdict>)
    requires Shuffled(a, b)
    ensures forall w :: Says(a, w) <==> Says(b, w)
  {
    var mid :| multiset(a) == multiset(mid) && SameEntries(mid, b);
    assert SameEntries(b, mid);
    hide Says, SameEntries;
    forall w ensures Says(a, w) <==> Says(b, w) {
      if Says(a, w) {
        PermutedSays(a, mid, w);
        EntriesSay(mid, b, w);
      }
      if Says(b, w) {
        EntriesSay(b, mid, w);
        PermutedSays(mid, a, w);
      }
    }
  }

  /** The requests that were obeyed. */
  function OnlyObeyed(p: Profile, ws: seq<Wish>): seq<Wish> {
    if ws == [] then []
    else OnlyObeyed(p, ws[..|ws| - 1]) + (if OutcomeOf(p, ws[|ws| - 1]) == Obeyed then [ws[|ws| - 1]] else [])
  }

  lemma {:induction false} OnlyObeyedMembers(p: Profile, ws: seq<Wish>)
    ensures forall w :: w in OnlyObeyed(p, ws) <==> w in ws && OutcomeOf(p, w) == Obeyed
  {
    if ws != [] {
      OnlyObeyedMembers(p, ws[..|ws| - 1]);
      assert ws == ws[..|ws| - 1] + [ws[|ws| - 1]];
    }
  }

  /** Deleting every action whose outcome is not `applied` changes nothing. */
  lemma OthersDoNotMatter(p: Profile, ws: seq<Wish>)
    ensures Skips(p, OnlyObeyed(p, ws)) == Skips(p, ws)
    ensures TurnedOn(p, OnlyObeyed(p, ws)) == TurnedOn(p, ws) && TurnedOff(p, OnlyObeyed(p, ws)) == TurnedOff(p, ws)
  {
    OnlyObeyedMembers(p, ws);
    hide OnlyObeyed;
    MembersAsk(p, ws, OnlyObeyed(p, ws));
    MembersAsk(p, OnlyObeyed(p, ws), ws);
  }

  /** An entry without the actions that were not obeyed. */
  function PrunedEntry(p: Profile, v: PriorVerdict): PriorVerdict {
    v.(actions := ObeyedActions(p, v.inspector, v.actions))
  }

  function ObeyedActions(p: Profile, from: string, acts: seq<Action>): seq<Action> {
    if acts == [] then []
    else
      var a := acts[|acts| - 1];
      ObeyedActions(p, from, acts[..|acts| - 1]) + if OutcomeOf(p, Wish(from, a)) == Obeyed then [a] else []
  }

  function Pruned(p: Profile, entries: seq<PriorVerdict>): seq<PriorVerdict> {
    seq(|entries|, i requires 0 <= i < |entries| => PrunedEntry(p, entries[i]))
  }

  /** The actions of one entry with their sender. */
  function WishesOf(from: string, acts: seq<Action>): seq<Wish> {
    seq(|acts|, i requires 0 <= i < |acts| => Wish(from, acts[i]))
  }

  lemma {:induction false} ObeyedConcat(p: Profile, a: seq<Wish>, b: seq<Wish>)
    ensures OnlyObeyed(p, a + b) == OnlyObeyed(p, a) + OnlyObeyed(p, b)
    decreases |b|
  {
    hide OutcomeOf;
    if b == [] {
      assert a + b == a;
    } else {
      ObeyedConcat(p, a, b[..|b| - 1]);
      assert (a + b)[..|a + b| - 1] == a + b[..|b| - 1];
    }
  }

  lemma {:induction false} ObeyedOfEntry(p: Profile, from: string, acts: seq<Action>)
    ensures WishesOf(from, ObeyedActions(p, from, acts)) == OnlyObeyed(p, WishesOf(from, acts))
  {
    hide OutcomeOf;
    if acts != [] {
      var init, a := acts[..|acts| - 1], acts[|acts| - 1];
      ObeyedOfEntry(p, from, init);
      assert WishesOf(from, acts)[..|acts| - 1] == WishesOf(from, init);
      assert WishesOf(from, acts)[|acts| - 1] == Wish(from, a);
      var kept := ObeyedActions(p, from, init);
      assert WishesOf(from, kept + [a]) == WishesOf(from, kept) + [Wish(from, a)];
      assert WishesOf(from, kept + []) == WishesOf(from, kept);
    }
  }

  /** Deleting inside the entries every action that is not obeyed deletes exactly those requests. */
  lemma {:induction false} PrunedWishes(p: Profile, entries: seq<PriorVerdict>)
    ensures Wishes(Pruned(p, entries)) == OnlyObeyed(p, Wishes(entries))
  {
    hide OutcomeOf;
    if entries != [] {
      var init, v := entries[..|entries| - 1], entries[|entries| - 1];
      PrunedWishes(p, init);
      var pruned := Pruned(p, entries);
      assert pruned[..|pruned| - 1] == Pruned(p, init) && pruned[|pruned| - 1] == PrunedEntry(p, v);
      ObeyedOfEntry(p, v.inspector, v.actions);
      ObeyedConcat(p, Wishes(init), WishesOf(v.inspector, v.actions));
      assert Wishes(entries) == Wishes(init) + WishesOf(v.inspector, v.actions);
      hide OnlyObeyed;
      assert Wishes(pruned) == Wishes(Pruned(p, init)) + WishesOf(v.inspector, PrunedEntry(p, v).actions);
    }
  }

  /** Exactly the groups that are on are active; in particular a group asked off is never active,
      whoever asked it on. */
  lemma {:induction false} OffDominates(groups: seq<Group>, on: set<string>, off: set<string>)
    ensures forall g :: g in ActiveGroups(groups, on, off) <==>
      g in groups && g.name !in off && (g.default_ || g.name in on)
  {
    if groups != [] {
      OffDominates(groups[..|groups| - 1], on, off);
      assert groups == groups[..|groups| - 1] + [groups[|groups| - 1]];
    }
  }
}
