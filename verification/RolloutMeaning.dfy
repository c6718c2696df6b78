/** What is read, served and reported, said with the files and the fields themselves. */
module RolloutMeaning {
  import opened Config
  import opened Names
  import opened Profiles
  import opened Rollout
  import opened RolloutRuns

  // ---- snapshots ----

  /** A request gets the profile of its own name, and none if there is none; the empty name stands for
      `default`. */
  lemma LookupMeans(s: Snapshot, name: string)
    ensures name != "" ==> Lookup(Some(s), name) == if name in s.byName then Some(s.byName[name]) else None
    ensures Lookup(Some(s), "") == if "default" in s.byName then Some(s.byName["default"]) else None
    ensures Lookup(None, name) == None
  {}

  /** The text of a profile in a tree, for a folder that is one. */
  function Text(tree: Tree, n: string): Option<string> {
    if n in tree && tree[n].Folder? && n != "_shared" && "profile.yaml" in tree[n].files
    then Some(tree[n].files["profile.yaml"]) else None
  }

  /** The text opens, decodes and validates to `p`. */
  predicate ReadsAs(c: Codec, n: string, text: string, opens: bool, p: Profile) {
    && opens && c.decode(n, text).Some? && GoodDraft(c.compiles, c.decode(n, text).value)
    && p == Filled(BuiltProfile(c.decode(n, text).value))
  }

  /** A tree's own profiles: all its texts read, and each profile is what its text reads as. */
  lemma OwnMeans(c: Codec, tree: Tree, a: Access)
    ensures Own(c, tree, a).Some? <==>
      forall n :: n in tree && Text(tree, n).Some? ==> exists p :: ReadsAs(c, n, Text(tree, n).value, a.open(n), p)
    ensures Own(c, tree, a).Some? ==> forall n ::
      && (n in Own(c, tree, a).value <==> Text(tree, n).Some?)
      && (n in Own(c, tree, a).value ==> ReadsAs(c, n, Text(tree, n).value, a.open(n), Own(c, tree, a).value[n]))
  {
    forall n | n in tree && Listed(tree, n) ensures
      && (EntryRead(c, tree, n, a).Missing? <==> Text(tree, n).None?)
      && (Bad(c, tree, n, a) <==> Text(tree, n).Some? && !exists p :: ReadsAs(c, n, Text(tree, n).value, a.open(n), p))
      && (EntryRead(c, tree, n, a).Good? ==>
            ReadsAs(c, n, Text(tree, n).value, a.open(n), EntryRead(c, tree, n, a).profile))
    {
      EntryMeans(c, tree, n, a);
    }
    forall n | n in tree && Text(tree, n).Some? ensures Listed(tree, n) {}
    hide EntryRead, ReadsAs;
  }

  lemma EntryMeans(c: Codec, tree: Tree, n: string, a: Access)
    requires Listed(tree, n)
    ensures EntryRead(c, tree, n, a).Missing? <==> Text(tree, n).None?
    ensures Bad(c, tree, n, a) <==> Text(tree, n).Some? && !exists p :: ReadsAs(c, n, Text(tree, n).value, a.open(n), p)
    ensures EntryRead(c, tree, n, a).Good? ==>
      ReadsAs(c, n, Text(tree, n).value, a.open(n), EntryRead(c, tree, n, a).profile)
  {
    if Text(tree, n).Some? {
      var d := c.decode(n, Text(tree, n).value);
      if d.Some? && DraftCrash(c.compiles, d.value) { CrashNeedsHole(c.compiles, d.value); }
      if d.Some? && GoodDraft(c.compiles, d.value) && a.open(n) {
        assert ReadsAs(c, n, Text(tree, n).value, a.open(n), Filled(BuiltProfile(d.value)));
      }
    }
    hide GoodDraft, DraftCrash, Filled;
  }

  /** What is served from a directory: its own profiles, `default` among them, and the probe of the
      base directory if that is another one and they have none. */
  lemma ReadingMeans(c: Codec, disk: Disk, base: string, dir: string, a: Access)
    requires !ReadPanics(c, disk, base, dir, a)
    ensures Reading(c, disk, base, dir, a).Some? <==>
      && a.list && a.walk && dir in disk
      && Own(c, disk[dir], a).Some? && "default" in Own(c, disk[dir], a).value
    ensures Reading(c, disk, base, dir, a).Some? ==>
      var s, own := Reading(c, disk, base, dir, a).value, Own(c, disk[dir], a).value;
      && (forall n :: n in own ==> n in s && s[n] == own[n])
      && (forall n :: n in s && n !in own ==> n == "_probe" && base != dir)
      && ("_probe" in s && "_probe" !in own <==>
            && "_probe" !in own && base != dir && base in disk && Text(disk[base], "_probe").Some?
            && exists p :: ReadsAs(c, "_probe", Text(disk[base], "_probe").value, a.probe, p))
      && ("_probe" in s && "_probe" !in own ==>
            ReadsAs(c, "_probe", Text(disk[base], "_probe").value, a.probe, s["_probe"]))
  {
    assert |"_probe"| != |"_shared"| && |"_probe"| != |"default"|;
    ProbeMeans(c, disk, base, a);
    hide Own, ReadPanics, BaseProbe, ReadsAs;
  }

  lemma ProbeMeans(c: Codec, disk: Disk, base: string, a: Access)
    ensures var probe := BaseProbe(c, disk, base, a);
      && (probe.Good? <==>
            && base in disk && Text(disk[base], "_probe").Some?
            && exists p :: ReadsAs(c, "_probe", Text(disk[base], "_probe").value, a.probe, p))
      && (probe.Good? ==> ReadsAs(c, "_probe", Text(disk[base], "_probe").value, a.probe, probe.profile))
  {
    assert |"_probe"| != |"_shared"|;
    if base in disk && Text(disk[base], "_probe").Some? {
      var d := c.decode("_probe", Text(disk[base], "_probe").value);
      if d.Some? && DraftCrash(c.compiles, d.value) { CrashNeedsHole(c.compiles, d.value); }
      if d.Some? && GoodDraft(c.compiles, d.value) && a.probe {
        assert ReadsAs(c, "_probe", Text(disk[base], "_probe").value, a.probe, Filled(BuiltProfile(d.value)));
      }
    }
    hide GoodDraft, DraftCrash, Filled;
  }

  /** A reload reads its directory again exactly if it can be looked at and its digest is a new one;
      every snapshot that is taken counts one more. */
  lemma ReloadMeans(c: Codec, disk: Disk, base: string, sh: Shelf, looks: bool, a: Access)
    ensures var after := AfterReload(c, disk, base, sh, looks, a);
      var new_ := looks && sh.dir in disk && (sh.cur.None? || sh.cur.value.fingerprint != c.digest(disk[sh.dir]));
      var r := Reading(c, disk, base, sh.dir, a);
      && after.dir == sh.dir
      && (new_ && r.Some? ==>
            && Serves(after) == r && after.cur.value.fingerprint == c.digest(disk[sh.dir])
            && after.gen == after.cur.value.gen == sh.gen + 1)
      && (!(new_ && r.Some?) ==> after == sh)
  {
    hide Reading;
  }

  // ---- starts ----

  /** A start that works serves the live tree exactly if there is one with a `default` profile, it can
      be looked at, and it can be served; and the base directory otherwise. */
  lemma BootMeans(c: Codec, disk: Disk, base: string, data: string, load: Access, stat: bool, boot: Access)
    ensures var sh := Boot(c, disk, base, data, load, stat, boot);
      var first := Reading(c, disk, base, base, load);
      var looks := data != "" && stat && Live(data) in disk && Text(disk[Live(data)], "default").Some?;
      var live := Reading(c, disk, base, Live(data), boot);
      && (sh.None? <==> first.None? || (looks && ReadPanics(c, disk, base, Live(data), boot)))
      && (sh.Some? && looks && live.Some? ==> sh.value.dir == Live(data) && Serves(sh.value) == live)
      && (sh.Some? && !(looks && live.Some?) ==> sh.value.dir == base && Serves(sh.value) == first)
  {
    assert DEFAULT_NAME[0] != "_shared"[0];
    hide Reading, ReadPanics, Listing, Live;
  }

  /** After a generation was applied and is still the live tree, a restart without trouble serves its
      profiles again. */
  lemma RestartServesAgain(c: Codec, base: string, data: string, s: State, m: Manifest, load: Access)
    requires Serving(c, s) && Truthful(c, data, s) && s.alive && s.applied == Some(m) && s.place.AtLive? && data != ""
    requires Reading(c, s.world.disk, base, base, load).Some?
    requires !BaseProbe(c, s.world.disk, base, Perfect()).Crashing?
    ensures var s' := Next(c, base, data, s, Restart(load, true, Perfect()));
      && s'.alive && s'.world.shelf.dir == Live(data) && s'.world.shelf.cur.Some?
      && FromTree(c, s'.world.shelf.cur.value.byName, TreeOf(m))
  {
    var served, disk := s.world.shelf.cur.value.byName, s.world.disk;
    assert FromTree(c, served, TreeOf(m)) && DEFAULT_NAME in served;
    LiveReadsAgain(c, disk, base, data, served, TreeOf(m));
    hide Boot, FromTree, Reading, ReadPanics, TreeOf, Live, Text, Truthful, Serving, BaseProbe;
    BootMeans(c, disk, base, data, load, true, Perfect());
  }

  lemma LiveReadsAgain(c: Codec, disk: Disk, base: string, data: string, served: Served, tree: Tree)
    requires FromTree(c, served, tree) && DEFAULT_NAME in served && Live(data) in disk && disk[Live(data)] == tree
    requires !BaseProbe(c, disk, base, Perfect()).Crashing?
    ensures Text(tree, "default").Some? && !ReadPanics(c, disk, base, Live(data), Perfect())
    ensures Reading(c, disk, base, Live(data), Perfect()).Some?
    ensures FromTree(c, Reading(c, disk, base, Live(data), Perfect()).value, tree)
  {
    assert |PROBE_NAME| != |DEFAULT_NAME|;
    OwnMeansNoPanic(c, tree, Perfect());
    OwnMeans(c, tree, Perfect());
    hide Own, Panics, BaseProbe, Live, ReadsAs, Text;
    assert DEFAULT_NAME in Own(c, tree, Perfect()).value;
    ReadingFromTree(c, disk, base, Live(data), Perfect());
  }

  // ---- manifests ----

  /** The manifest the report already names as applied is passed over; any other is tried. */
  lemma PassedOverIff(c: Codec, base: string, data: string, s: State, m: Manifest, luck: Luck)
    ensures s.report.apply == "ok" && s.report.hash == m.hash && s.report.rev == m.rev ==>
      AfterUpdate(c, base, data, s, m, luck) == s
    ensures !(s.report.apply == "ok" && s.report.hash == m.hash && s.report.rev == m.rev) ==>
      AfterUpdate(c, base, data, s, m, luck).world.disk == Roll(c, base, data, m, s.world, luck).world.disk
  {
    hide Roll;
  }

  /** What is reported of a manifest that is tried: its own hash, revision and names with "ok" if it
      was applied; else "apply_failed", with what was reported before. */
  lemma UpdateReports(c: Codec, base: string, data: string, s: State, m: Manifest, luck: Luck)
    requires !(s.report.apply == "ok" && s.report.hash == m.hash && s.report.rev == m.rev)
    ensures var r, s' := Roll(c, base, data, m, s.world, luck), AfterUpdate(c, base, data, s, m, luck);
      match r.end
      case Success => s'.alive && s'.report == Report(m.hash, m.rev, "ok", s'.report.names) && s'.applied == Some(m)
        && Ascending(s'.report.names) && forall n :: n in s'.report.names <==> n in m.profiles
      case Failure => s'.alive && s'.report == s.report.(apply := "apply_failed") && s'.applied == s.applied
      case Crash => !s'.alive
  {
    hide Roll, PlaceAfter;
  }

  /** Nothing stays staged, once the data directory is there. */
  lemma NothingStaysStaged(c: Codec, base: string, data: string, m: Manifest, w: World, luck: Luck)
    requires luck.mkdir
    ensures Staging(data) !in Roll(c, base, data, m, w, luck).world.disk
  {
    PathsDiffer(data);
    hide Reading, ReadPanics, TreeOf, WritesAll, AfterReloadFrom, Live, Staging, Parked;
  }

  lemma PathsAre(data: string)
    ensures Staging(data) == data + "/.next" && Parked(data) == data + "/.prev" && Live(data) == data + "/profiles"
  {}
}
