/** Which neighbour requests are heard and what they do, said with the rules' own fields. */
module PriorMeaning {
  import opened Seqs
  import opened Config
  import opened Prior

  /** The rule is for this sender, accepts the verb and wants the code. */
  predicate RuleFits(r: PriorRule, w: Wish) {
    r.from == w.from && w.act.verb in r.accept && (r.codes == [] || w.act.code in r.codes)
  }

  /** A request is heard exactly if a rule fits it and it is about this request only. */
  lemma HeardIff(rules: seq<PriorRule>, w: Wish)
    ensures Heard(rules, w) <==> w.act.apply in ["", "request"] && exists r :: r in rules && RuleFits(r, w)
  {
    assert "" != "request" by { assert |""| != |"request"|; }
    if Heard(rules, w) {
      var i :| 0 <= i < |rules| && Hears(rules[i], w);
      assert rules[i] in rules && RuleFits(rules[i], w);
    }
    if r :| r in rules && RuleFits(r, w) {
      var i :| 0 <= i < |rules| && rules[i] == r;
    }
  }

  /** A request from a sender no rule names, with a verb no rule of its sender accepts, a code none of
      them wants, or for more than this request, changes nothing, and its outcome is "no rule". */
  lemma UnheardIsIgnored(p: Profile, ws: seq<Wish>, w: Wish)
    requires w.act.apply !in ["", "request"] ||
      forall r :: r in p.prior ==>
        r.from != w.from || w.act.verb !in r.accept || (r.codes != [] && w.act.code !in r.codes)
    ensures Skips(p, ws + [w]) == Skips(p, ws)
    ensures TurnedOn(p, ws + [w]) == TurnedOn(p, ws) && TurnedOff(p, ws + [w]) == TurnedOff(p, ws)
    ensures Recorded(p, w).outcome == NoRule && Recorded(p, w).groups == []
  {
    HeardIff(p.prior, w);
    WishSnoc(p, ws, w);
    UnheardMarks(p.prior, Known(p), w);
    hide Heard, Skips, TurnedOn, TurnedOff, Marks;
  }

  lemma {:induction false} UnheardMarks(rules: seq<PriorRule>, known: set<string>, w: Wish)
    ensures !Heard(rules, w) ==> Marks(rules, known, w) == []
  {
    if rules != [] {
      var init := rules[..|rules| - 1];
      UnheardMarks(init, known, w);
      HeardNext(rules, |rules| - 1, w);
      assert rules[..|rules|] == rules;
    }
  }

  /** One rule that fits is enough: a skip skips, a mutate turns the group it names off if it says
      "off" and on otherwise, and a group the profile does not have is left alone. */
  lemma OneRuleIsEnough(p: Profile, ws: seq<Wish>, w: Wish, r: PriorRule)
    requires r in p.prior && RuleFits(r, w) && w.act.apply in ["", "request"]
    ensures var known := exists g :: g in p.groups && g.name == w.act.group;
      var mutates := w.act.verb == Mutate && known;
      && (Skips(p, ws + [w]) <==> Skips(p, ws) || w.act.verb == Skip)
      && TurnedOff(p, ws + [w]) == TurnedOff(p, ws) + (if mutates && w.act.set_ == "off" then {w.act.group} else {})
      && TurnedOn(p, ws + [w]) == TurnedOn(p, ws) + (if mutates && w.act.set_ != "off" then {w.act.group} else {})
      && (w.act.verb == Skip || mutates ==> Recorded(p, w).outcome == Obeyed)
      && (w.act.verb == Mutate && !known ==> Recorded(p, w).outcome == UnknownGroup)
  {
    HeardIff(p.prior, w);
    WishSnoc(p, ws, w);
    KnownMeans(p, w.act.group);
    hide Heard, Skips, TurnedOn, TurnedOff, Marks, Known;
  }

  lemma KnownMeans(p: Profile, name: string)
    ensures name in Known(p) <==> exists g :: g in p.groups && g.name == name
  {
    if g :| g in p.groups && g.name == name {
      var i :| 0 <= i < |p.groups| && p.groups[i] == g;
      assert name in Known(p);
    }
    if name in Known(p) {
      var i :| 0 <= i < |p.groups| && p.groups[i].name == name;
      assert p.groups[i] in p.groups;
    }
  }

  /** What is recorded of an action: its own words, the scope spelled out, and for a heard mutate its
      group with a sign for each rule that heard it. */
  lemma {:induction false} MarksMean(rules: seq<PriorRule>, p: Profile, w: Wish)
    requires w.act.verb == Mutate && w.act.apply in ["", "request"]
    ensures var sign := if w.act.group !in Known(p) then "?" else if w.act.set_ == "off" then "-" else "+";
      && (forall m :: m in Marks(rules, Known(p), w) ==> m == sign + w.act.group)
      && |Marks(rules, Known(p), w)| == |Fitting(rules, w)|
  {
    if rules != [] { MarksMean(rules[..|rules| - 1], p, w); }
  }

  /** The rules that fit a request. */
  function Fitting(rules: seq<PriorRule>, w: Wish): seq<PriorRule> {
    if rules == [] then []
    else Fitting(rules[..|rules| - 1], w) + (if RuleFits(rules[|rules| - 1], w) then [rules[|rules| - 1]] else [])
  }

  lemma RecordedMeans(p: Profile, w: Wish)
    ensures var o := Recorded(p, w);
      && o.from == w.from && o.verb == w.act.verb && o.code == w.act.code
      && o.apply == (if w.act.apply == "" then "request" else w.act.apply)
  {}

  /** Requests are delivered entry by entry, and in each entry in the order of its actions. */
  lemma {:induction false} WishesInOrder(a: seq<PriorVerdict>, b: seq<PriorVerdict>)
    ensures Wishes(a + b) == Wishes(a) + Wishes(b)
    decreases |b|
  {
    if b == [] {
      assert a + b == a;
    } else {
      WishesInOrder(a, b[..|b| - 1]);
      assert (a + b)[..|a + b| - 1] == a + b[..|b| - 1];
    }
  }

  lemma WishesOfOne(v: PriorVerdict, j: nat)
    ensures |Wishes([v])| == |v.actions|
    ensures j < |v.actions| ==> Wishes([v])[j] == Wish(v.inspector, v.actions[j])
  {
    assert [v][..0] == [] && Wishes([]) == [];
  }

  /** The active groups are in the order of the profile, each as often as there. */
  lemma {:induction false} ActiveInOrder(groups: seq<Group>, on: set<string>, off: set<string>)
    ensures IsSubseq(ActiveGroups(groups, on, off), groups)
    ensures NoDup(groups) ==> NoDup(ActiveGroups(groups, on, off))
  {
    if groups != [] {
      var init, g := groups[..|groups| - 1], groups[|groups| - 1];
      ActiveInOrder(init, on, off);
      SubseqSnoc(ActiveGroups(init, on, off), init, g);
      OffDominates(init, on, off);
      assert groups == init + [g];
      var before := ActiveGroups(init, on, off);
      assert ActiveGroups(groups, on, off) == if GroupOn(g, on, off) then before + [g] else before;
      hide IsSubseq, ActiveGroups, GroupOn;
      if NoDup(groups) { assert NoDup(init) && g !in init; }
    }
  }
}
