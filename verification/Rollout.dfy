/** Rolling out a manifest: its files are staged, the live tree is parked, the staged tree takes
    its place and is read, and every failure on the way is undone. */
module Rollout {
  import opened Config
  import opened Names
  import opened Profiles

  datatype File = File(name: string, text: string)

  datatype Manifest = Manifest(rev: int, hash: string, profiles: map<string, seq<File>>)

  /** The files of one profile; a later file of the same name replaces an earlier one. */
  function FilesOf(files: seq<File>): map<string, string> {
    if files == [] then map[]
    else
      var last := files[|files| - 1];
      FilesOf(files[..|files| - 1])[last.name := last.text]
  }

  /** The tree a manifest stands for. */
  function TreeOf(m: Manifest): Tree { map n | n in m.profiles :: Folder(FilesOf(m.profiles[n])) }

  function Staging(data: string): string { data + "/.next" }
  function Parked(data: string): string { data + "/.prev" }
  function Live(data: string): string { data + "/profiles" }

  lemma PathsDiffer(data: string)
    ensures Staging(data) != Parked(data) && Staging(data) != Live(data) && Parked(data) != Live(data)
  {
    assert Staging(data)[|data| + 1] == '.' && Parked(data)[|data| + 1] == '.' && Live(data)[|data| + 1] == 'p';
    assert Staging(data)[|data| + 2] == 'n' && Parked(data)[|data| + 2] == 'p';
  }

  // ---- faults ----

  /** Which of the file accesses of write work. */
  datatype Writes = Writes(root: bool, sub: string -> bool, file: (string, nat) -> bool)

  /** Which steps of an Apply work. Removing a tree always does. */
  datatype Luck = Luck(
    mkdir: bool, stage: Writes, park: bool, promote: bool, reload: Access, restore: bool, again: Access)

  ghost predicate WritesProfile(name: string, files: seq<File>, w: Writes) {
    w.sub(name) && forall i: nat :: i < |files| ==> w.file(name, i)
  }

  ghost predicate WritesAll(m: Manifest, w: Writes) {
    w.root && forall n :: n in m.profiles ==> WritesProfile(n, m.profiles[n], w)
  }

  // ---- what an Apply does ----

  datatype World = World(disk: Disk, shelf: Shelf)

  /** Reading a tree can end the program, in the middle of an Apply. */
  datatype End = Success | Failure | Crash

  datatype Rolled = Rolled(end: End, world: World)

  /** The new tree is written in full. */
  ghost predicate Staged(m: Manifest, luck: Luck) { luck.mkdir && WritesAll(m, luck.stage) }

  /** A failure after the live tree was parked: it is put back, if that works. */
  function PutBack(disk: Disk, data: string, restore: bool): Disk {
    if Live(data) in disk && !restore then (disk - {Live(data)})[Parked(data) := disk[Live(data)]] else disk
  }

  /** The new tree is live and the old one parked. */
  function Swapped(disk: Disk, data: string, m: Manifest): Disk {
    var next := disk[Live(data) := TreeOf(m)];
    if Live(data) in disk then next[Parked(data) := disk[Live(data)]] else next
  }

  ghost function Roll(c: Codec, base: string, data: string, m: Manifest, w: World, luck: Luck): Rolled {
    var live := Live(data);
    if !luck.mkdir then Rolled(Failure, w)
    else if !WritesAll(m, luck.stage) then Rolled(Failure, w.(disk := w.disk - {Staging(data)}))
    else
      var clean := w.disk - {Staging(data), Parked(data)};
      var next := clean[live := TreeOf(m)];
      if !luck.park then Rolled(Failure, w.(disk := clean))
      else if !luck.promote then Rolled(Failure, w.(disk := PutBack(clean, data, luck.restore)))
      else if ReadPanics(c, next, base, live, luck.reload) then Rolled(Crash, w.(disk := Swapped(clean, data, m)))
      else if Reading(c, next, base, live, luck.reload).Some? then
        Rolled(Success, World(next, AfterReloadFrom(c, next, base, w.shelf, live, luck.reload)))
      else if live !in clean || !luck.restore then Rolled(Failure, w.(disk := PutBack(clean, data, false)))
      else if ReadPanics(c, clean, base, live, luck.again) then Rolled(Crash, w.(disk := clean))
      else Rolled(Failure, World(clean, AfterReloadFrom(c, clean, base, w.shelf, live, luck.again)))
  }

  // ---- the laws ----

  ghost predicate SameAt(path: string, a: Disk, b: Disk) {
    (path in a <==> path in b) && (path in a ==> a[path] == b[path])
  }

  /** A reading depends on two directories only. */
  lemma ReadingIsLocal(c: Codec, d1: Disk, d2: Disk, base: string, dir: string, a: Access)
    requires SameAt(dir, d1, d2) && SameAt(base, d1, d2)
    ensures Reading(c, d1, base, dir, a) == Reading(c, d2, base, dir, a)
    ensures ReadPanics(c, d1, base, dir, a) == ReadPanics(c, d2, base, dir, a)
  {
    hide Own, ReadProfile, Panics;
  }

  ghost function Serves(sh: Shelf): Option<Served> { if sh.cur.None? then None else Some(sh.cur.value.byName) }

  lemma CleanKeeps(w: Disk, data: string, base: string)
    requires base != Staging(data) && base != Parked(data)
    ensures var clean := w - {Staging(data), Parked(data)}; SameAt(Live(data), clean, w) && SameAt(base, clean, w)
  {
    PathsDiffer(data);
    hide Staging, Parked, Live;
  }

  /** Success: the live tree is the manifest's and is the one served. */
  ghost predicate Committed(c: Codec, base: string, data: string, m: Manifest, after: World, a: Access) {
    && Live(data) in after.disk && after.disk[Live(data)] == TreeOf(m)
    && after.shelf.dir == Live(data)
    && Serves(after.shelf) == Reading(c, after.disk, base, Live(data), a)
    && Serves(after.shelf).Some?
  }

  /** Failure: the live tree is the old one, or it could not be put back and is still parked. What
      is served changes only to a second reading of the old live tree. */
  ghost predicate RolledBack(c: Codec, base: string, data: string, before: World, after: World, a: Access) {
    && (if Live(data) in before.disk && Live(data) !in after.disk
        then Parked(data) in after.disk && after.disk[Parked(data)] == before.disk[Live(data)]
          && after.shelf == before.shelf
        else SameAt(Live(data), after.disk, before.disk))
    && (after.shelf != before.shelf ==>
          && Live(data) in before.disk
          && after.shelf.dir == Live(data)
          && Serves(after.shelf) == Reading(c, before.disk, base, Live(data), a)
          && Serves(after.shelf).Some?)
  }

  /** Crash: one of the two trees is live, and the old one is not lost. */
  ghost predicate Interrupted(data: string, m: Manifest, before: Disk, after: Disk) {
    && Live(data) in after
    && (SameAt(Live(data), after, before)
        || (after[Live(data)] == TreeOf(m)
            && (Live(data) in before ==> Parked(data) in after && after[Parked(data)] == before[Live(data)])))
  }

  /** No directory but the three changes. */
  ghost predicate SameElsewhere(data: string, before: Disk, after: Disk) {
    forall p :: p != Live(data) && p != Staging(data) && p != Parked(data) ==> SameAt(p, after, before)
  }

  /** Rolling out is a transaction, for every choice of failing steps. */
  lemma Transaction(c: Codec, base: string, data: string, m: Manifest, w: World, luck: Luck)
    requires base != Staging(data) && base != Parked(data)
    ensures var r := Roll(c, base, data, m, w, luck);
      && SameElsewhere(data, w.disk, r.world.disk)
      && match r.end
         case Success => Committed(c, base, data, m, r.world, luck.reload)
         case Failure => RolledBack(c, base, data, w, r.world, luck.again)
         case Crash => Interrupted(data, m, w.disk, r.world.disk)
  {
    PathsDiffer(data);
    CleanKeeps(w.disk, data, base);
    var r := Roll(c, base, data, m, w, luck);
    match r.end {
      case Success => Commits(c, base, data, m, w, luck);
      case Failure => RollsBack(c, base, data, m, w, luck);
      case Crash => Interrupts(c, base, data, m, w, luck);
    }
    TouchesThree(c, base, data, m, w, luck);
  }

  lemma TouchesThree(c: Codec, base: string, data: string, m: Manifest, w: World, luck: Luck)
    ensures SameElsewhere(data, w.disk, Roll(c, base, data, m, w, luck).world.disk)
  {
    hide Reading, ReadPanics, TreeOf, Live, Staging, Parked, WritesAll, AfterReloadFrom;
  }

  lemma Commits(c: Codec, base: string, data: string, m: Manifest, w: World, luck: Luck)
    requires Roll(c, base, data, m, w, luck).end.Success?
    ensures Committed(c, base, data, m, Roll(c, base, data, m, w, luck).world, luck.reload)
  {
    hide Reading, ReadPanics, TreeOf, Live, Staging, Parked, WritesAll, Listing, PutBack, Swapped;
  }

  lemma Interrupts(c: Codec, base: string, data: string, m: Manifest, w: World, luck: Luck)
    requires base != Staging(data) && base != Parked(data)
    requires Roll(c, base, data, m, w, luck).end.Crash?
    ensures Interrupted(data, m, w.disk, Roll(c, base, data, m, w, luck).world.disk)
  {
    PathsDiffer(data);
    CleanKeeps(w.disk, data, base);
    hide Reading, ReadPanics, TreeOf, Live, Staging, Parked, WritesAll, AfterReloadFrom, PutBack;
  }

  lemma PutBackKeeps(data: string, w: Disk, restore: bool)
    ensures var after := PutBack(w - {Staging(data), Parked(data)}, data, restore);
      if Live(data) in w && Live(data) !in after
      then !restore && Parked(data) in after && after[Parked(data)] == w[Live(data)]
      else SameAt(Live(data), after, w)
  {
    PathsDiffer(data);
    hide Live, Staging, Parked;
  }

  lemma RollsBack(c: Codec, base: string, data: string, m: Manifest, w: World, luck: Luck)
    requires base != Staging(data) && base != Parked(data)
    requires Roll(c, base, data, m, w, luck).end.Failure?
    ensures RolledBack(c, base, data, w, Roll(c, base, data, m, w, luck).world, luck.again)
  {
    PathsDiffer(data);
    CleanKeeps(w.disk, data, base);
    PutBackKeeps(data, w.disk, luck.restore);
    PutBackKeeps(data, w.disk, false);
    ReadingIsLocal(c, w.disk - {Staging(data), Parked(data)}, w.disk, base, Live(data), luck.again);
    hide Reading, ReadPanics, TreeOf, Live, Staging, Parked, WritesAll, Listing, PutBack, Swapped;
  }

  /** The manifest's tree can be served, in the trouble its reload is in. */
  predicate Servable(c: Codec, m: Manifest, luck: Luck) {
    && luck.reload.list && luck.reload.walk
    && var own := Own(c, TreeOf(m), luck.reload); own.Some? && DEFAULT_NAME in own.value
  }

  /** The base directory has no part in whether a tree can be served, but for a crash. */
  lemma ServableIff(c: Codec, disk: Disk, base: string, data: string, m: Manifest, luck: Luck)
    requires Live(data) in disk && disk[Live(data)] == TreeOf(m)
    requires !ReadPanics(c, disk, base, Live(data), luck.reload)
    ensures Reading(c, disk, base, Live(data), luck.reload).Some? <==> Servable(c, m, luck)
  {
    hide Own, WithProbe, ReadPanics;
  }

  /** When an Apply ends the program: its own tree, or the old one that is put back and read
      again, comes to a crash. */
  lemma CrashIff(c: Codec, base: string, data: string, m: Manifest, w: World, luck: Luck)
    requires base != Staging(data) && base != Parked(data)
    ensures var live := Live(data); var next := w.disk[live := TreeOf(m)];
      Roll(c, base, data, m, w, luck).end.Crash? <==>
        && Staged(m, luck) && luck.park && luck.promote
        && (|| ReadPanics(c, next, base, live, luck.reload)
            || (!Servable(c, m, luck) && live in w.disk && luck.restore
              && ReadPanics(c, w.disk, base, live, luck.again)))
  {
    PathsDiffer(data);
    var live := Live(data);
    var clean := w.disk - {Staging(data), Parked(data)};
    var next := w.disk[live := TreeOf(m)];
    CleanKeeps(w.disk, data, base);
    assert SameAt(base, clean[live := TreeOf(m)], next);
    ReadingIsLocal(c, clean[live := TreeOf(m)], next, base, live, luck.reload);
    ReadingIsLocal(c, clean, w.disk, base, live, luck.again);
    if !ReadPanics(c, next, base, live, luck.reload) { ServableIff(c, next, base, data, m, luck); }
    hide Reading, ReadPanics, TreeOf, Live, Staging, Parked, WritesAll, Servable;
  }

  /** When a live tree is gone after an Apply: the new one was ready and the old one parked, the
      new one could not take its place or could not be served, and the old one could not be put
      back. */
  lemma LiveLostIff(c: Codec, base: string, data: string, m: Manifest, w: World, luck: Luck)
    requires base != Staging(data) && base != Parked(data) && Live(data) in w.disk
    ensures var live := Live(data); var next := w.disk[live := TreeOf(m)];
      live !in Roll(c, base, data, m, w, luck).world.disk <==>
        && Staged(m, luck) && luck.park && !luck.restore
        && (!luck.promote || (!ReadPanics(c, next, base, live, luck.reload) && !Servable(c, m, luck)))
  {
    PathsDiffer(data);
    var live := Live(data);
    var clean := w.disk - {Staging(data), Parked(data)};
    var next := w.disk[live := TreeOf(m)];
    CleanKeeps(w.disk, data, base);
    assert SameAt(base, clean[live := TreeOf(m)], next);
    ReadingIsLocal(c, clean[live := TreeOf(m)], next, base, live, luck.reload);
    if !ReadPanics(c, next, base, live, luck.reload) { ServableIff(c, next, base, data, m, luck); }
    hide Reading, ReadPanics, TreeOf, Live, Staging, Parked, WritesAll, Servable;
  }

  /** The base directory lends its probe profile to the live tree. */
  predicate Borrows(c: Codec, disk: Disk, base: string, dir: string, own: Served) {
    PROBE_NAME !in own && base != dir && BaseProbe(c, disk, base, Perfect()).Good?
  }

  /** A failed Apply cannot change what is served. */
  predicate Harmless(c: Codec, base: string, live: string, w: World) {
    live in w.disk ==>
      var own := Own(c, w.disk[live], Perfect());
      own.Some? && DEFAULT_NAME in own.value ==>
        && w.shelf.cur.Some? && w.shelf.cur.value.byName == own.value
        && !Borrows(c, w.disk, base, live, own.value)
  }

  /** Trouble with the files hides a tree or its borrowed probe and changes nothing else. */
  lemma ReadingInTrouble(c: Codec, disk: Disk, base: string, dir: string, a: Access)
    requires Reading(c, disk, base, dir, a).Some?
    ensures var own := Own(c, disk[dir], Perfect());
      && own.Some? && DEFAULT_NAME in own.value
      && (!Borrows(c, disk, base, dir, own.value) ==> Reading(c, disk, base, dir, a) == own)
  {
    OwnIgnoresTrouble(c, disk[dir], a);
    hide Own, DraftCrash, GoodDraft, Filled, Panics;
  }

  /** The luck of an Apply that fails only at its reload. */
  function ReloadFails(again: Access): Luck {
    Luck(true, Writes(true, _ => true, (_, _) => true), true, true, Access(false, _ => true, true, true), true, again)
  }

  lemma ReloadFailsRolls(c: Codec, base: string, data: string, m: Manifest, w: World, again: Access)
    requires base != Staging(data) && base != Parked(data)
    requires Live(data) in w.disk && Reading(c, w.disk, base, Live(data), again).Some?
    ensures var r := Roll(c, base, data, m, w, ReloadFails(again));
      r.end.Failure? && Serves(r.world.shelf) == Reading(c, w.disk, base, Live(data), again)
  {
    PathsDiffer(data);
    var clean := w.disk - {Staging(data), Parked(data)};
    assert WritesAll(m, ReloadFails(again).stage);
    CleanKeeps(w.disk, data, base);
    ReadingIsLocal(c, clean, w.disk, base, Live(data), again);
    var next := clean[Live(data) := TreeOf(m)];
    assert Reading(c, next, base, Live(data), ReloadFails(again).reload).None?;
    assert !ReadPanics(c, next, base, Live(data), ReloadFails(again).reload);
    assert !ReadPanics(c, clean, base, Live(data), again);
    hide Reading, ReadPanics, TreeOf, Live, Staging, Parked, WritesAll, Listing;
  }

  /** "A failed Apply leaves the served profiles unchanged" is not true of every state. For all
      failing steps it holds exactly if there is no live tree, or it cannot be served, or it is
      what is being served without a borrowed probe. */
  lemma FailureKeepsServedIff(c: Codec, base: string, data: string, m: Manifest, w: World)
    requires base != Staging(data) && base != Parked(data)
    ensures (forall luck :: Roll(c, base, data, m, w, luck).end.Failure? ==>
               Serves(Roll(c, base, data, m, w, luck).world.shelf) == Serves(w.shelf))
      <==> Harmless(c, base, Live(data), w)
  {
    hide Roll;
    if Harmless(c, base, Live(data), w) {
      forall luck | Roll(c, base, data, m, w, luck).end.Failure?
        ensures Serves(Roll(c, base, data, m, w, luck).world.shelf) == Serves(w.shelf)
      {
        HarmlessKeeps(c, base, data, m, w, luck);
      }
    } else {
      var again := HarmfulAccess(c, base, Live(data), w);
      ReloadFailsRolls(c, base, data, m, w, again);
      assert Serves(Roll(c, base, data, m, w, ReloadFails(again)).world.shelf) != Serves(w.shelf);
    }
  }

  lemma HarmlessKeeps(c: Codec, base: string, data: string, m: Manifest, w: World, luck: Luck)
    requires base != Staging(data) && base != Parked(data)
    requires Harmless(c, base, Live(data), w) && Roll(c, base, data, m, w, luck).end.Failure?
    ensures Serves(Roll(c, base, data, m, w, luck).world.shelf) == Serves(w.shelf)
  {
    Transaction(c, base, data, m, w, luck);
    hide Roll, Reading, Borrows, TreeOf, Own;
    if Roll(c, base, data, m, w, luck).world.shelf != w.shelf {
      ReadingInTrouble(c, w.disk, base, Live(data), luck.again);
    }
  }

  /** In a state that is not harmless there is a second reading that changes what is served. */
  lemma HarmfulAccess(c: Codec, base: string, live: string, w: World) returns (again: Access)
    requires !Harmless(c, base, live, w)
    ensures live in w.disk && Reading(c, w.disk, base, live, again).Some?
    ensures Reading(c, w.disk, base, live, again) != Serves(w.shelf)
  {
    again := Perfect().(probe := false);
    OwnSame(c, w.disk[live], again);
    OwnMeansNoPanic(c, w.disk[live], again);
    OwnMeansNoPanic(c, w.disk[live], Perfect());
    hide Own, DraftCrash, GoodDraft, Filled, Panics;
    if Reading(c, w.disk, base, live, again) == Serves(w.shelf) {
      assert PROBE_NAME !in Reading(c, w.disk, base, live, again).value;
      again := Perfect();
      assert PROBE_NAME in Reading(c, w.disk, base, live, again).value;
    }
  }

  lemma OwnSame(c: Codec, tree: Tree, a: Access)
    requires a.open == Perfect().open
    ensures Own(c, tree, a) == Own(c, tree, Perfect())
  {
    hide ReadProfile;
    OwnIgnoresTrouble(c, tree, a);
    if Own(c, tree, a).None? {
      var n :| n in tree && Bad(c, tree, n, a);
      assert Bad(c, tree, n, Perfect());
    }
  }

  // ---- a failure that switches the served profiles ----

  function Demo(name: string, text: string): Profile { Profile(name, Enforce, text, [], []) }

  /** The text "~" stands for a profile with one group whose only operation is empty. */
  function DemoDraft(name: string, text: string): Draft {
    var groups := if text == "~" then [Some(GroupDraft("g", false, Unset, [], [], [], [], [None], []))] else [];
    Draft(name, Enforce, text, groups, [])
  }

  function DemoCodec(): Codec {
    Codec((n, t) => if t == "" then None else Some(DemoDraft(n, t)), _ => true, _ => "")
  }

  function DemoTree(text: string): Tree { map[DEFAULT_NAME := Folder(map[PROFILE_FILE := text])] }

  lemma DemoEntry(text: string)
    requires text != "" && text != "~"
    ensures EntryRead(DemoCodec(), DemoTree(text), DEFAULT_NAME, Perfect()) == Good(Demo(DEFAULT_NAME, text))
  {
    var c, tree, d := DemoCodec(), DemoTree(text), DemoDraft(DEFAULT_NAME, text);
    assert DEFAULT_NAME[0] != SHARED_DIR[0];
    assert tree[DEFAULT_NAME].files[PROFILE_FILE] == text && c.decode(DEFAULT_NAME, text) == Some(d);
    assert !DraftCrash(c.compiles, d) && GoodDraft(c.compiles, d);
    assert Filled(BuiltProfile(d)) == Demo(DEFAULT_NAME, text);
  }

  lemma DemoReading(disk: Disk, base: string, dir: string, text: string)
    requires dir in disk && disk[dir] == DemoTree(text) && text != "" && text != "~"
    requires base in disk && PROBE_NAME !in disk[base]
    ensures Own(DemoCodec(), DemoTree(text), Perfect()) == Some(map[DEFAULT_NAME := Demo(DEFAULT_NAME, text)])
    ensures Reading(DemoCodec(), disk, base, dir, Perfect()) == Some(map[DEFAULT_NAME := Demo(DEFAULT_NAME, text)])
    ensures !ReadPanics(DemoCodec(), disk, base, dir, Perfect())
  {
    var c, tree := DemoCodec(), DemoTree(text);
    DemoEntry(text);
    hide ReadProfile;
    var own := map[DEFAULT_NAME := Demo(DEFAULT_NAME, text)];
    assert DEFAULT_NAME[0] != SHARED_DIR[0] && Listed(tree, DEFAULT_NAME);
    assert forall n :: n in tree <==> n == DEFAULT_NAME;
    assert Own(c, tree, Perfect()).value == own;
    OwnMeansNoPanic(c, tree, Perfect());
    assert |PROBE_NAME| != |DEFAULT_NAME|;
  }

  /** A store that fell back to its base directory serves the base profile; a live tree from an
      earlier run is there and readable; an Apply that fails at its reload switches to it. */
  lemma FailureCanSwitch(m: Manifest)
    ensures var base, data := "/etc/p", "/data";
      var a, b := map[DEFAULT_NAME := Demo(DEFAULT_NAME, "a")], map[DEFAULT_NAME := Demo(DEFAULT_NAME, "b")];
      var w := World(map[base := DemoTree("a"), Live(data) := DemoTree("b")],
        Shelf(base, Some(Snapshot(a, [DEFAULT_NAME], "", 1)), 1));
      var r := Roll(DemoCodec(), base, data, m, w, ReloadFails(Perfect()));
      && w.shelf == AfterReloadFrom(DemoCodec(), w.disk, base, Shelf(base, None, 0), base, Perfect())
      && r.end.Failure? && Serves(w.shelf) == Some(a) && Serves(r.world.shelf) == Some(b) && a != b
  {
    var base, data := "/etc/p", "/data";
    var a, b := map[DEFAULT_NAME := Demo(DEFAULT_NAME, "a")], map[DEFAULT_NAME := Demo(DEFAULT_NAME, "b")];
    var w := World(map[base := DemoTree("a"), Live(data) := DemoTree("b")],
      Shelf(base, Some(Snapshot(a, [DEFAULT_NAME], "", 1)), 1));
    assert base[1] == 'e' && Live(data)[1] == 'd' && Staging(data)[1] == 'd' && Parked(data)[1] == 'd';
    DemoReading(w.disk, base, base, "a");
    DemoReading(w.disk, base, Live(data), "b");
    AscendingUnique([DEFAULT_NAME], Listing(a.Keys));
    hide Reading;
    ReloadFailsRolls(DemoCodec(), base, data, m, w, Perfect());
    assert a[DEFAULT_NAME].denyResponse != b[DEFAULT_NAME].denyResponse;
  }

  // ---- a manifest that ends the program ----

  lemma DemoPanics()
    ensures Panics(DemoCodec(), DemoTree("~"), Perfect())
  {
    var c, tree, d := DemoCodec(), DemoTree("~"), DemoDraft(DEFAULT_NAME, "~");
    assert DEFAULT_NAME[0] != SHARED_DIR[0] && Listed(tree, DEFAULT_NAME);
    assert tree[DEFAULT_NAME].files[PROFILE_FILE] == "~" && c.decode(DEFAULT_NAME, "~") == Some(d);
    var g := d.groups[0].value;
    assert g.body[0].None?;
    assert OpsCrash(c.compiles, g.body) && GoodFront(g) && GoodNameAt(d.groups, 0) && GoodUpTo(c.compiles, d.groups, 0);
    assert DraftCrash(c.compiles, d);
    BeforeOrder(DEFAULT_NAME, DEFAULT_NAME);
    assert PanicsAt(c, tree, DEFAULT_NAME, Perfect());
  }

  function DemoManifest(rev: int, text: string): Manifest {
    Manifest(rev, text, map[DEFAULT_NAME := [File(PROFILE_FILE, text)]])
  }

  lemma DemoTreeOf(rev: int, text: string)
    ensures TreeOf(DemoManifest(rev, text)) == DemoTree(text)
  {
    assert FilesOf([File(PROFILE_FILE, text)]) == map[PROFILE_FILE := text];
  }

  /** Every step works. */
  function NoFault(): Luck {
    Luck(true, Writes(true, _ => true, (_, _) => true), true, true, Perfect(), true, Perfect())
  }

  /** With no fault at all, a manifest with an empty operation ends the program after its tree has
      become the live one, whatever the disk and the store were. */
  lemma ManifestCanCrash(base: string, data: string, w: World, rev: int)
    requires base != Staging(data) && base != Parked(data)
    ensures var m := DemoManifest(rev, "~");
      var r := Roll(DemoCodec(), base, data, m, w, NoFault());
      && r.end.Crash? && Live(data) in r.world.disk && r.world.disk[Live(data)] == TreeOf(m)
      && (Live(data) in w.disk ==> Parked(data) in r.world.disk && r.world.disk[Parked(data)] == w.disk[Live(data)])
  {
    var m := DemoManifest(rev, "~");
    DemoTreeOf(rev, "~");
    DemoPanics();
    PathsDiffer(data);
    var clean := w.disk - {Staging(data), Parked(data)};
    CleanKeeps(w.disk, data, base);
    assert ReadPanics(DemoCodec(), clean[Live(data) := TreeOf(m)], base, Live(data), Perfect());
    hide ReadPanics, TreeOf, Live, Staging, Parked, Reading;
  }

  // ---- what a successful rollout serves ----

  /** Of several files with one name the last is kept. */
  lemma {:induction false} LastFileWins(files: seq<File>, i: nat)
    requires i < |files| && forall j :: i < j < |files| ==> files[j].name != files[i].name
    ensures files[i].name in FilesOf(files) && FilesOf(files)[files[i].name] == files[i].text
  {
    if i < |files| - 1 { LastFileWins(files[..|files| - 1], i); }
  }

  /** A file on disk is the last of its name in the manifest. */
  lemma {:induction false} FileHasSource(files: seq<File>, name: string) returns (i: nat)
    requires name in FilesOf(files)
    ensures i < |files| && files[i].name == name && FilesOf(files)[name] == files[i].text
    ensures forall j :: i < j < |files| ==> files[j].name != name
  {
    var last := |files| - 1;
    if files[last].name == name {
      i := last;
    } else {
      i := FileHasSource(files[..last], name);
    }
  }

  /** The text of a profile in a manifest: that of the last of its files with the right name. */
  ghost predicate HasText(m: Manifest, n: string, text: string) {
    n in m.profiles &&
    exists i :: 0 <= i < |m.profiles[n]| && m.profiles[n][i] == File(PROFILE_FILE, text)
      && forall j :: i < j < |m.profiles[n]| ==> m.profiles[n][j].name != PROFILE_FILE
  }

  /** After a success every profile served, but a borrowed probe, is the validated reading of the
      manifest's own text, and every profile of the manifest that has one is served. */
  lemma ServesTheManifest(
    c: Codec, base: string, data: string, m: Manifest, w: World, luck: Luck, n: string, text: string)
    requires base != Staging(data) && base != Parked(data) && Roll(c, base, data, m, w, luck).end.Success?
    requires n != SHARED_DIR && HasText(m, n, text)
    ensures var s := Serves(Roll(c, base, data, m, w, luck).world.shelf).value;
      var d := c.decode(n, text);
      n in s && d.Some? && GoodDraft(c.compiles, d.value) && s[n] == Filled(BuiltProfile(d.value))
  {
    Transaction(c, base, data, m, w, luck);
    hide Roll, DraftCrash, GoodDraft, Filled, FilesOf;
    TextIsOnDisk(m, n, text);
    OwnOfManifest(c, m, n, luck.reload);
    hide Own, TreeOf;
  }

  lemma TextIsOnDisk(m: Manifest, n: string, text: string)
    requires HasText(m, n, text)
    ensures PROFILE_FILE in FilesOf(m.profiles[n]) && FilesOf(m.profiles[n])[PROFILE_FILE] == text
  {
    var i :| 0 <= i < |m.profiles[n]| && m.profiles[n][i] == File(PROFILE_FILE, text)
      && forall j :: i < j < |m.profiles[n]| ==> m.profiles[n][j].name != PROFILE_FILE;
    LastFileWins(m.profiles[n], i);
  }

  /** What the own profiles of a manifest's tree are. */
  lemma OwnOfManifest(c: Codec, m: Manifest, n: string, a: Access)
    requires Own(c, TreeOf(m), a).Some?
    ensures var own := Own(c, TreeOf(m), a).value;
      && (n in own <==> n in m.profiles && n != SHARED_DIR && PROFILE_FILE in FilesOf(m.profiles[n]))
      && (n in own ==>
            var d := c.decode(n, FilesOf(m.profiles[n])[PROFILE_FILE]);
            d.Some? && GoodDraft(c.compiles, d.value) && own[n] == Filled(BuiltProfile(d.value)))
  {
    hide DraftCrash, GoodDraft, Filled, FilesOf;
    var tree := TreeOf(m);
    if n in m.profiles && n != SHARED_DIR {
      assert Listed(tree, n);
      assert !Bad(c, tree, n, a);
    }
  }

  /** And nothing else is served, but a borrowed probe. */
  lemma ServesNothingElse(c: Codec, base: string, data: string, m: Manifest, w: World, luck: Luck, n: string)
    requires base != Staging(data) && base != Parked(data) && Roll(c, base, data, m, w, luck).end.Success?
    requires n in Serves(Roll(c, base, data, m, w, luck).world.shelf).value
    ensures n == PROBE_NAME || (n != SHARED_DIR && exists text :: HasText(m, n, text))
  {
    Transaction(c, base, data, m, w, luck);
    hide Roll, DraftCrash, GoodDraft, Filled, FilesOf;
    if n != PROBE_NAME {
      OwnOfManifest(c, m, n, luck.reload);
      hide Own;
      var i := FileHasSource(m.profiles[n], PROFILE_FILE);
      assert HasText(m, n, m.profiles[n][i].text);
    }
  }
}
