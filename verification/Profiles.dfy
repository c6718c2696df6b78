/** Profile trees on disk and the snapshot of them that is served. */
module Profiles {
  import opened Config
  import opened Names

  datatype Entry = Folder(files: map<string, string>) | Plain(text: string)

  /** A directory of profiles: one folder for each. */
  type Tree = map<string, Entry>

  /** The directories of the host, by path. */
  type Disk = map<string, Tree>

  const PROFILE_FILE := "profile.yaml"
  const SHARED_DIR := "_shared"
  const PROBE_NAME := "_probe"
  const DEFAULT_NAME := "default"

  type Served = map<string, Profile>

  datatype Snapshot = Snapshot(byName: Served, names: seq<string>, fingerprint: string, gen: nat)

  /** The libraries a read depends on: the profile decoder, the pattern compiler and the digest
      of a tree. */
  datatype Codec = Codec(decode: (string, string) -> Option<Draft>, compiles: string -> bool, digest: Tree -> string)

  /** Which of the file accesses of a read work: listing the directory, opening the file of each
      profile, opening the probe's file in the base directory, and walking the tree. */
  datatype Access = Access(list: bool, open: string -> bool, probe: bool, walk: bool)

  function Perfect(): Access { Access(true, _ => true, true, true) }

  /** How reading one profile ends; a crash is the end of the program. */
  datatype One = Missing | Broken | Crashing | Good(profile: Profile)

  /** readProfile. */
  function ReadProfile(c: Codec, name: string, files: map<string, string>, opens: bool): One {
    if PROFILE_FILE !in files then Missing
    else if !opens then Broken
    else
      var d := c.decode(name, files[PROFILE_FILE]);
      if d.None? then Broken
      else if DraftCrash(c.compiles, d.value) then Crashing
      else if !GoodDraft(c.compiles, d.value) then Broken
      else Good(Filled(BuiltProfile(d.value)))
  }

  // ---- what a directory means ----

  predicate Listed(tree: Tree, name: string) {
    name in tree && tree[name].Folder? && name != SHARED_DIR
  }

  function EntryRead(c: Codec, tree: Tree, name: string, a: Access): One
    requires Listed(tree, name)
  {
    ReadProfile(c, name, tree[name].files, a.open(name))
  }

  predicate Bad(c: Codec, tree: Tree, name: string, a: Access) {
    Listed(tree, name) && (EntryRead(c, tree, name, a).Broken? || EntryRead(c, tree, name, a).Crashing?)
  }

  /** Reading the profiles in the order of their names comes to a crash at `name`: none before it
      is broken. */
  predicate PanicsAt(c: Codec, tree: Tree, name: string, a: Access) {
    && Listed(tree, name) && EntryRead(c, tree, name, a).Crashing?
    && forall n :: n in tree && Listed(tree, n) && Before(n, name) ==> !EntryRead(c, tree, n, a).Broken?
  }

  predicate Panics(c: Codec, tree: Tree, a: Access) { exists name :: name in tree && PanicsAt(c, tree, name, a) }

  /** The profiles a tree holds of its own; none if one of them is bad. */
  function Own(c: Codec, tree: Tree, a: Access): Option<Served> {
    if exists name :: name in tree && Bad(c, tree, name, a) then None
    else
      Some(map name | name in tree && Listed(tree, name) && EntryRead(c, tree, name, a).Good?
             :: EntryRead(c, tree, name, a).profile)
  }

  /** The probe profile of the base directory. */
  function BaseProbe(c: Codec, disk: Disk, base: string, a: Access): One {
    if base in disk && PROBE_NAME in disk[base] && disk[base][PROBE_NAME].Folder?
    then ReadProfile(c, PROBE_NAME, disk[base][PROBE_NAME].files, a.probe)
    else Missing
  }

  function WithProbe(c: Codec, own: Served, disk: Disk, base: string, dir: string, a: Access): Served {
    var probe := BaseProbe(c, disk, base, a);
    if PROBE_NAME !in own && base != dir && probe.Good? then own[PROBE_NAME := probe.profile] else own
  }

  /** Reading a directory ends the program: at one of its own profiles, or at the probe of the base
      directory, which is read after them if they have none. */
  predicate ReadPanics(c: Codec, disk: Disk, base: string, dir: string, a: Access) {
    && a.list && dir in disk
    && (Panics(c, disk[dir], a)
        || (var own := Own(c, disk[dir], a);
            own.Some? && PROBE_NAME !in own.value && base != dir && BaseProbe(c, disk, base, a).Crashing?))
  }

  /** What is served from directory `dir`, or nothing if it cannot be. */
  function Reading(c: Codec, disk: Disk, base: string, dir: string, a: Access): Option<Served> {
    if !a.list || !a.walk || dir !in disk || ReadPanics(c, disk, base, dir, a) then None
    else
      var own := Own(c, disk[dir], a);
      if own.None? || DEFAULT_NAME !in own.value then None
      else Some(WithProbe(c, own.value, disk, base, dir, a))
  }

  /** What every served snapshot is. */
  ghost predicate Healthy(c: Codec, s: Snapshot) {
    && DEFAULT_NAME in s.byName
    && Ascending(s.names)
    && (forall n :: n in s.names <==> n in s.byName)
    && (forall n :: n in s.byName ==>
      GoodProfile(c.compiles, s.byName[n]) && Sound(s.byName[n]) && Filled(s.byName[n]) == s.byName[n])
  }

  /** Snapshot.Profile. */
  function Lookup(s: Option<Snapshot>, name: string): Option<Profile> {
    if s.None? then None
    else
      var key := if name == "" then DEFAULT_NAME else name;
      if key in s.value.byName then Some(s.value.byName[key]) else None
  }

  lemma GoodReadIsValidated(c: Codec, name: string, files: map<string, string>, opens: bool)
    requires ReadProfile(c, name, files, opens).Good?
    ensures var p := ReadProfile(c, name, files, opens).profile;
      GoodProfile(c.compiles, p) && Sound(p) && Filled(p) == p
  {
    ValidatedIsSound(c.compiles, BuiltProfile(c.decode(name, files[PROFILE_FILE]).value));
  }

  /** Every profile that is read has been validated. */
  lemma ReadingIsValidated(c: Codec, disk: Disk, base: string, dir: string, a: Access)
    requires Reading(c, disk, base, dir, a).Some?
    ensures var s := Reading(c, disk, base, dir, a).value;
      && DEFAULT_NAME in s
      && forall n :: n in s ==> GoodProfile(c.compiles, s[n]) && Sound(s[n]) && Filled(s[n]) == s[n]
  {
    var s := Reading(c, disk, base, dir, a).value;
    hide GoodProfile, Sound, Filled, ReadProfile;
    forall n | n in s ensures GoodProfile(c.compiles, s[n]) && Sound(s[n]) && Filled(s[n]) == s[n] {
      if n in Own(c, disk[dir], a).value {
        GoodReadIsValidated(c, n, disk[dir][n].files, a.open(n));
      } else {
        GoodReadIsValidated(c, PROBE_NAME, disk[base][PROBE_NAME].files, a.probe);
      }
    }
  }

  /** A file that opens reads the same in any access. */
  lemma OpenedReadsSame(c: Codec, tree: Tree, name: string, a: Access)
    requires Listed(tree, name)
    ensures EntryRead(c, tree, name, a) in {EntryRead(c, tree, name, Perfect()), Broken}
  {
    hide DraftCrash, GoodDraft;
  }

  /** Trouble with the files can hide a tree, but never makes it mean something else. */
  lemma OwnIgnoresTrouble(c: Codec, tree: Tree, a: Access)
    ensures Own(c, tree, a).Some? ==> Own(c, tree, a) == Own(c, tree, Perfect())
  {
    if Own(c, tree, a).Some? {
      hide ReadProfile;
      forall name | name in tree && Listed(tree, name)
        ensures EntryRead(c, tree, name, a) == EntryRead(c, tree, name, Perfect())
      {
        OpenedReadsSame(c, tree, name, a);
        assert !Bad(c, tree, name, a);
      }
      hide EntryRead;
      var x, y := Own(c, tree, a), Own(c, tree, Perfect());
      assert y.Some?;
      assert x.value == y.value;
    }
  }

  /** Nor can it cause a crash: what crashes in trouble crashes without it. */
  lemma PanicIgnoresTrouble(c: Codec, tree: Tree, a: Access)
    ensures Panics(c, tree, a) ==> Panics(c, tree, Perfect())
  {
    hide ReadProfile;
    forall n | n in tree && Listed(tree, n)
      ensures EntryRead(c, tree, n, a) in {EntryRead(c, tree, n, Perfect()), Broken}
    {
      OpenedReadsSame(c, tree, n, a);
    }
    hide EntryRead;
    forall name | name in tree && PanicsAt(c, tree, name, a) ensures PanicsAt(c, tree, name, Perfect()) {}
  }

  // ---- the store ----

  /** The state of a store: the directory it serves from, what it serves, how often it has read. */
  datatype Shelf = Shelf(dir: string, cur: Option<Snapshot>, gen: nat)

  /** The snapshot of a directory. */
  ghost function Taken(c: Codec, disk: Disk, base: string, dir: string, a: Access, gen: nat): Option<Snapshot> {
    var r := Reading(c, disk, base, dir, a);
    if r.None? then None else Some(Snapshot(r.value, Listing(r.value.Keys), c.digest(disk[dir]), gen + 1))
  }

  lemma TakenIsHealthy(c: Codec, disk: Disk, base: string, dir: string, a: Access, gen: nat)
    requires Taken(c, disk, base, dir, a, gen).Some?
    ensures Healthy(c, Taken(c, disk, base, dir, a, gen).value)
  {
    ReadingIsValidated(c, disk, base, dir, a);
    hide GoodProfile, Sound, Filled, Reading;
  }

  ghost function AfterReloadFrom(c: Codec, disk: Disk, base: string, sh: Shelf, d: string, a: Access): Shelf {
    var s := Taken(c, disk, base, d, a, sh.gen);
    if s.None? then sh else Shelf(d, s, sh.gen + 1)
  }

  /** A reload looks at the directory first and reads it only if its digest is a new one. */
  ghost function AfterReload(c: Codec, disk: Disk, base: string, sh: Shelf, looks: bool, a: Access): Shelf {
    if !looks || sh.dir !in disk then sh
    else if sh.cur.Some? && sh.cur.value.fingerprint == c.digest(disk[sh.dir]) then sh
    else AfterReloadFrom(c, disk, base, sh, sh.dir, a)
  }

  predicate ReloadPanics(c: Codec, disk: Disk, base: string, sh: Shelf, looks: bool, a: Access) {
    && looks && sh.dir in disk
    && !(sh.cur.Some? && sh.cur.value.fingerprint == c.digest(disk[sh.dir]))
    && ReadPanics(c, disk, base, sh.dir, a)
  }

  /** After a tree has stayed the same since it was read, in whatever trouble, a reload leaves what
      a fresh reading would give exactly if no probe is borrowed, or the base directory now lends
      the very probe that is served and none if none is: a changed probe goes unnoticed. */
  lemma ReloadIsFreshIff(c: Codec, was: Disk, disk: Disk, base: string, dir: string, first: Access, gen: nat, a: Access)
    requires dir in was && dir in disk && was[dir] == disk[dir]
    requires Taken(c, was, base, dir, first, gen).Some?
    ensures var served := Taken(c, was, base, dir, first, gen).value.byName;
      var own := Own(c, disk[dir], Perfect());
      var sh := AfterReload(c, disk, base, Shelf(dir, Taken(c, was, base, dir, first, gen), gen + 1), true, a);
      && own.Some? && sh.cur.Some? && sh.cur.value.byName == served
      && (Reading(c, disk, base, dir, Perfect()) == Some(served) <==>
            || PROBE_NAME in own.value
            || base == dir
            || (match BaseProbe(c, disk, base, Perfect())
                case Good(p) => PROBE_NAME in served && served[PROBE_NAME] == p
                case Crashing => false
                case _ => PROBE_NAME !in served))
  {
    OwnIgnoresTrouble(c, disk[dir], first);
    var own := Own(c, disk[dir], Perfect()).value;
    OwnMeansNoPanic(c, disk[dir], Perfect());
    hide Own, ReadProfile, Panics, BaseProbe;
    var x := WithProbe(c, own, was, base, dir, first);
    var y := WithProbe(c, own, disk, base, dir, Perfect());
    if PROBE_NAME !in own && base != dir && BaseProbe(c, disk, base, Perfect()).Good? && x == y {
      assert x[PROBE_NAME] == y[PROBE_NAME];
    }
    if PROBE_NAME !in own && base != dir && PROBE_NAME in x { assert x == own[PROBE_NAME := x[PROBE_NAME]]; }
  }

  lemma OwnMeansNoPanic(c: Codec, tree: Tree, a: Access)
    requires Own(c, tree, a).Some?
    ensures !Panics(c, tree, a)
  {
    hide EntryRead;
    forall name | name in tree ensures !PanicsAt(c, tree, name, a) { assert !Bad(c, tree, name, a); }
  }

  class Store {
    var dir: string
    const base: string
    var cur: Option<Snapshot>
    var gen: nat

    ghost function State(): Shelf reads this { Shelf(dir, cur, gen) }

    /** LoadProfiles; without a snapshot the program does not start. */
    constructor (c: Codec, disk: Disk, base: string, a: Access)
      ensures this.base == base
      ensures State() == AfterReloadFrom(c, disk, base, Shelf(base, None, 0), base, a)
    {
      this.base := base;
      dir := base;
      cur := None;
      gen := 0;
      new;
      var r := Read(c, disk, a);
      if r.Valid? { cur := Some(r.value); }
    }

    /** The loop of read over the directory's entries, in the order of their names: the first that
        is broken or crashes decides. */
    method ReadOwn(c: Codec, tree: Tree, a: Access) returns (r: Checked<Served>, names: seq<string>)
      ensures r.Valid? <==> Own(c, tree, a).Some?
      ensures r.Crashed? <==> Panics(c, tree, a)
      ensures r.Valid? ==> r.value == Own(c, tree, a).value
      ensures r.Valid? ==> forall i, j :: 0 <= i < j < |names| ==> names[i] != names[j]
      ensures r.Valid? ==> forall n :: n in names <==> n in r.value
    {
      hide DraftCrash, GoodDraft, Filled, ReadProfile, Before;
      var byName: Served := map[];
      names := [];
      var entries := InOrder(tree.Keys);
      for i := 0 to |entries|
        invariant forall k :: 0 <= k < i ==> !Bad(c, tree, entries[k], a)
        invariant forall n :: n in byName <==> n in entries[..i] && Listed(tree, n) && EntryRead(c, tree, n, a).Good?
        invariant forall n :: n in byName ==> byName[n] == EntryRead(c, tree, n, a).profile
        invariant forall n :: n in names <==> n in byName
        invariant forall j, k :: 0 <= j < k < |names| ==> names[j] != names[k]
      {
        var name := entries[i];
        assert name in entries && name in tree;
        assert entries[..i + 1] == entries[..i] + [name];
        if !Listed(tree, name) { continue; }
        var one := ReadProfile(c, name, tree[name].files, a.open(name));
        assert one == EntryRead(c, tree, name, a);
        match one {
          case Broken =>
            BrokenFirst(c, tree, entries, i, a);
            return Refused("a profile is broken"), [];
          case Crashing =>
            CrashFirst(c, tree, entries, i, a);
            return Crashed, [];
          case Missing =>
          case Good(p) =>
            NotTwice(entries, i);
            assert name !in names;
            byName := byName[name := p];
            names := names + [name];
        }
      }
      assert entries[..|entries|] == entries;
      AllGood(c, tree, entries, a);
      assert byName == Own(c, tree, a).value;
      return Valid(byName), names;
    }

    /** read: it succeeds exactly if the directory can be served, and then gives its snapshot; it
        ends the program exactly if it comes upon a profile that does. */
    method Read(c: Codec, disk: Disk, a: Access) returns (r: Checked<Snapshot>)
      modifies this`gen
      ensures r.Crashed? <==> ReadPanics(c, disk, base, dir, a)
      ensures (if r.Valid? then Some(r.value) else None) == Taken(c, disk, base, dir, a, old(gen))
      ensures gen == if r.Valid? then old(gen) + 1 else old(gen)
    {
      hide GoodProfile, Sound, Filled, ReadProfile, EntryRead, Own, BaseProbe, Sort, Listing, Panics;
      if dir !in disk || !a.list { return Refused("list"); }
      var own, names := ReadOwn(c, disk[dir], a);
      if own.Crashed? { return Crashed; }
      if own.Refused? { return Refused(own.why); }
      var byName := own.value;
      if PROBE_NAME !in byName && base != dir {
        var probe := BaseProbe(c, disk, base, a);
        if probe.Crashing? {
          return Crashed;
        } else if probe.Good? {
          assert PROBE_NAME !in names;
          byName := byName[PROBE_NAME := probe.profile];
          names := names + [PROBE_NAME];
        }
      }
      if DEFAULT_NAME !in byName { return Refused("default is missing"); }
      SortIsListing(names, byName.Keys);
      if !a.walk { return Refused("fingerprint"); }
      gen := gen + 1;
      return Valid(Snapshot(byName, Sort(names), c.digest(disk[dir]), gen));
    }

    /** ReloadFrom: on success the store serves `d`, on failure it is as it was. */
    method ReloadFrom(c: Codec, disk: Disk, d: string, a: Access) returns (r: Checked<()>)
      modifies this
      ensures r.Valid? <==> Reading(c, disk, base, d, a).Some?
      ensures r.Crashed? <==> ReadPanics(c, disk, base, d, a)
      ensures !r.Crashed? ==> State() == AfterReloadFrom(c, disk, base, old(State()), d, a)
    {
      var prev := dir;
      dir := d;
      var snap := Read(c, disk, a);
      match snap {
        case Crashed => return Crashed;
        case Refused(why) =>
          dir := prev;
          return Refused(why);
        case Valid(s) =>
          cur := Some(s);
          return Valid(());
      }
    }

    /** Reload: nothing happens while the digest is the old one, or on failure. */
    method Reload(c: Codec, disk: Disk, looks: bool, a: Access) returns (r: Checked<bool>)
      modifies this`cur, this`gen
      ensures r.Crashed? <==> ReloadPanics(c, disk, base, old(State()), looks, a)
      ensures State() == AfterReload(c, disk, base, old(State()), looks, a)
      ensures r.Valid? ==> r.value == (State() != old(State()))
      ensures !r.Valid? ==> State() == old(State())
      ensures r.Valid? ==> cur.Some? && dir in disk && cur.value.fingerprint == c.digest(disk[dir])
    {
      if !looks || dir !in disk { return Refused("fingerprint"); }
      if cur.Some? && cur.value.fingerprint == c.digest(disk[dir]) { return Valid(false); }
      var snap := Read(c, disk, a);
      match snap {
        case Crashed => return Crashed;
        case Refused(why) => return Refused(why);
        case Valid(s) =>
          cur := Some(s);
          return Valid(true);
      }
    }
  }

  lemma NotTwice(entries: seq<string>, i: nat)
    requires Ascending(entries) && i < |entries|
    ensures entries[i] !in entries[..i]
  {
    if entries[i] in entries[..i] {
      var k :| 0 <= k < i && entries[..i][k] == entries[i];
      BeforeOrder(entries[i], entries[k]);
    }
  }

  /** A broken profile that comes before every bad one stops the loop without a crash. */
  lemma BrokenFirst(c: Codec, tree: Tree, entries: seq<string>, i: nat, a: Access)
    requires Ascending(entries) && (forall n :: n in entries <==> n in tree) && i < |entries|
    requires Listed(tree, entries[i]) && EntryRead(c, tree, entries[i], a).Broken?
    requires forall k :: 0 <= k < i ==> !Bad(c, tree, entries[k], a)
    ensures !Panics(c, tree, a) && Own(c, tree, a).None?
  {
    hide EntryRead, Before;
    assert entries[i] in tree && Bad(c, tree, entries[i], a);
    forall name | name in tree ensures !PanicsAt(c, tree, name, a) {
      var k :| 0 <= k < |entries| && entries[k] == name;
      if k < i { assert !Bad(c, tree, entries[k], a); }
      if i < k { assert Before(entries[i], entries[k]); }
    }
  }

  lemma CrashFirst(c: Codec, tree: Tree, entries: seq<string>, i: nat, a: Access)
    requires Ascending(entries) && (forall n :: n in entries <==> n in tree) && i < |entries|
    requires Listed(tree, entries[i]) && EntryRead(c, tree, entries[i], a).Crashing?
    requires forall k :: 0 <= k < i ==> !Bad(c, tree, entries[k], a)
    ensures Panics(c, tree, a) && Own(c, tree, a).None?
  {
    hide EntryRead, Before;
    assert entries[i] in tree && Bad(c, tree, entries[i], a);
    forall n | n in tree && Listed(tree, n) && Before(n, entries[i]) ensures !EntryRead(c, tree, n, a).Broken? {
      var k :| 0 <= k < |entries| && entries[k] == n;
      SmallerIsEarlier(entries, k, i);
      assert !Bad(c, tree, entries[k], a);
    }
    assert PanicsAt(c, tree, entries[i], a);
  }

  lemma AllGood(c: Codec, tree: Tree, entries: seq<string>, a: Access)
    requires forall n :: n in entries <==> n in tree
    requires forall k :: 0 <= k < |entries| ==> !Bad(c, tree, entries[k], a)
    ensures Own(c, tree, a).Some? && !Panics(c, tree, a)
  {
    hide EntryRead;
    forall n | n in tree ensures !Bad(c, tree, n, a) {
      var k :| 0 <= k < |entries| && entries[k] == n;
    }
    OwnMeansNoPanic(c, tree, a);
  }
}
