/** Apply as the code runs it: step by step on the directories of the host, with every state on
    the way recorded. */
module RolloutApply {
  import opened Config
  import opened Profiles
  import opened Rollout

  datatype Renamed = Done | NotExist | Denied

  /** The directories of the host. `past` holds the state after each step. */
  class Host {
    var trees: Disk
    ghost var past: seq<Disk>

    constructor (disk: Disk)
      ensures trees == disk && past == []
    {
      trees := disk;
      past := [];
    }

    method RemoveAll(path: string)
      modifies this
      ensures trees == old(trees) - {path} && past == old(past) + [trees]
    {
      trees := trees - {path};
      past := past + [trees];
    }

    method MkdirAll(path: string)
      modifies this
      ensures trees == (if path in old(trees) then old(trees) else old(trees)[path := map[]])
        && past == old(past) + [trees]
    {
      if path !in trees { trees := trees[path := map[]]; }
      past := past + [trees];
    }

    /** A directory with contents is never overwritten. */
    method Rename(from: string, to: string, works: bool) returns (r: Renamed)
      modifies this
      ensures past == old(past) + [trees]
      ensures r ==
        if !works then Denied
        else if from !in old(trees) then NotExist
        else if to in old(trees) then Denied
        else Done
      ensures trees == if r.Done? then (old(trees) - {from})[to := old(trees)[from]] else old(trees)
    {
      if !works { r := Denied; }
      else if from !in trees { r := NotExist; }
      else if to in trees { r := Denied; }
      else {
        var t := trees[from];
        trees := (trees - {from})[to := t];
        r := Done;
      }
      past := past + [trees];
    }

    /** Replaces one folder of a tree. */
    method SetFolder(path: string, name: string, files: map<string, string>)
      requires path in trees
      modifies this
      ensures trees == old(trees)[path := old(trees)[path][name := Folder(files)]] && past == old(past) + [trees]
    {
      trees := trees[path := trees[path][name := Folder(files)]];
      past := past + [trees];
    }
  }

  /** Since step `n`, nothing but `path` has changed. */
  ghost predicate OnlyAt(past: seq<Disk>, n: nat, path: string, was: Disk) {
    forall i :: n <= i < |past| ==> past[i] - {path} == was - {path}
  }

  /** The files of one profile, written one after the other. */
  method WriteProfile(h: Host, path: string, name: string, files: seq<File>, w: Writes) returns (ok: bool)
    requires path in h.trees && name !in h.trees[path]
    modifies h
    ensures ok <==> WritesProfile(name, files, w)
    ensures path in h.trees && h.trees - {path} == old(h.trees) - {path}
    ensures ok ==> h.trees == old(h.trees)[path := old(h.trees[path])[name := Folder(FilesOf(files))]]
    ensures |old(h.past)| <= |h.past| && h.past[..|old(h.past)|] == old(h.past)
      && OnlyAt(h.past, |old(h.past)|, path, old(h.trees))
  {
    if !w.sub(name) { return false; }
    h.SetFolder(path, name, map[]);
    ghost var was, rest := old(h.trees), old(h.trees[path]);
    assert files[..0] == [];
    var i := 0;
    while i < |files|
      invariant 0 <= i <= |files|
      invariant h.trees == was[path := rest[name := Folder(FilesOf(files[..i]))]]
      invariant forall k: nat :: k < i ==> w.file(name, k)
      invariant |old(h.past)| <= |h.past| && h.past[..|old(h.past)|] == old(h.past)
        && OnlyAt(h.past, |old(h.past)|, path, was)
    {
      if !w.file(name, i) { return false; }
      FilesNext(files, i);
      hide FilesOf;
      Overwrite(was, path, rest, name, Folder(FilesOf(files[..i])), Folder(FilesOf(files[..i + 1])));
      h.SetFolder(path, name, AddFile(FilesOf(files[..i]), files[i]));
      i := i + 1;
    }
    assert files[..|files|] == files;
    return true;
  }

  function AddFile(files: map<string, string>, f: File): map<string, string> { files[f.name := f.text] }

  lemma Overwrite(was: Disk, path: string, rest: Tree, name: string, x: Entry, y: Entry)
    ensures was[path := rest[name := x]][path := rest[name := x][name := y]] == was[path := rest[name := y]]
  {
    assert rest[name := x][name := y] == rest[name := y];
  }

  lemma FilesNext(files: seq<File>, i: nat)
    requires i < |files|
    ensures FilesOf(files[..i + 1]) == AddFile(FilesOf(files[..i]), files[i])
  {
    assert files[..i + 1][..i] == files[..i] && files[..i + 1][i] == files[i];
  }

  /** write: the profiles are written in some order; complete, the directory holds the tree of
      the manifest. */
  method Write(h: Host, path: string, m: Manifest, w: Writes) returns (ok: bool)
    requires path !in h.trees
    modifies h
    ensures ok <==> WritesAll(m, w)
    ensures h.trees - {path} == old(h.trees)
    ensures ok ==> h.trees == old(h.trees)[path := TreeOf(m)]
    ensures |old(h.past)| <= |h.past| && h.past[..|old(h.past)|] == old(h.past)
      && OnlyAt(h.past, |old(h.past)|, path, old(h.trees))
  {
    hide FilesOf, WritesProfile;
    assert old(h.trees) - {path} == old(h.trees);
    if !w.root { return false; }
    h.MkdirAll(path);
    var todo := m.profiles.Keys;
    while todo != {}
      invariant todo <= m.profiles.Keys && path in h.trees && h.trees - {path} == old(h.trees)
      invariant forall n :: n in h.trees[path] <==> n in m.profiles && n !in todo
      invariant forall n :: n in h.trees[path] ==>
        h.trees[path][n] == Folder(FilesOf(m.profiles[n])) && WritesProfile(n, m.profiles[n], w)
      invariant |old(h.past)| <= |h.past| && h.past[..|old(h.past)|] == old(h.past)
        && OnlyAt(h.past, |old(h.past)|, path, old(h.trees))
      decreases todo
    {
      var name :| name in todo;
      var wrote := WriteProfile(h, path, name, m.profiles[name], w);
      if !wrote { return false; }
      todo := todo - {name};
    }
    assert h.trees[path] == TreeOf(m);
    return true;
  }

  /** At every moment the live tree is absent, wholly the old one or wholly the new one. */
  ghost predicate Whole(s: Disk, data: string, was: Disk, m: Manifest) {
    Live(data) in s ==> (Live(data) in was && s[Live(data)] == was[Live(data)]) || s[Live(data)] == TreeOf(m)
  }

  /** The old tree still exists, live or parked. */
  ghost predicate OldKept(s: Disk, data: string, was: Disk) {
    Live(data) in was ==>
      || (Live(data) in s && s[Live(data)] == was[Live(data)])
      || (Parked(data) in s && s[Parked(data)] == was[Live(data)])
  }

  /** So it has been in all states since step `n`. */
  ghost predicate SafeSince(past: seq<Disk>, n: nat, data: string, was: Disk, m: Manifest) {
    n <= |past| && forall i :: n <= i < |past| ==> Whole(past[i], data, was, m) && OldKept(past[i], data, was)
  }

  ghost predicate Extends(past: seq<Disk>, was: seq<Disk>) { |was| <= |past| && past[..|was|] == was }

  lemma StagingIsSafe(past: seq<Disk>, n: nat, data: string, was: Disk, start: Disk, m: Manifest)
    requires n <= |past| && SameAt(Live(data), start, was) && OnlyAt(past, n, Staging(data), start)
    ensures SafeSince(past, n, data, was, m)
  {
    PathsDiffer(data);
    hide Staging, Live, Parked, TreeOf;
    forall i | n <= i < |past| ensures Whole(past[i], data, was, m) && OldKept(past[i], data, was) {
      var live, s := Live(data), past[i];
      assert live in s - {Staging(data)} <==> live in start - {Staging(data)};
      if live in s { assert (s - {Staging(data)})[live] == (start - {Staging(data)})[live]; }
    }
  }

  /** The first part of Apply: the manifest's files are written beside the live tree. */
  method Stage(h: Host, data: string, m: Manifest, w: Writes) returns (ok: bool)
    modifies h
    ensures ok <==> WritesAll(m, w)
    ensures h.trees == if ok then old(h.trees)[Staging(data) := TreeOf(m)] else old(h.trees) - {Staging(data)}
    ensures Extends(h.past, old(h.past)) && OnlyAt(h.past, |old(h.past)|, Staging(data), old(h.trees))
  {
    hide Staging, TreeOf, WritesAll;
    var staging := Staging(data);
    h.RemoveAll(staging);
    ghost var d1 := h.trees;
    assert d1 - {staging} == d1;
    ok := Write(h, staging, m, w);
    if !ok { h.RemoveAll(staging); }
  }

  lemma KeepsSafe(past: seq<Disk>, n: nat, s: Disk, data: string, was: Disk, m: Manifest)
    requires SafeSince(past, n, data, was, m) && Whole(s, data, was, m) && OldKept(s, data, was)
    ensures SafeSince(past + [s], n, data, was, m)
  {
    hide Whole, OldKept;
  }

  lemma Itself(past: seq<Disk>)
    ensures Extends(past, past)
  {
    assert past[..|past|] == past;
  }

  lemma Longer(past: seq<Disk>, s: Disk, was: seq<Disk>)
    requires Extends(past, was)
    ensures Extends(past + [s], was)
  {
    assert (past + [s])[..|was|] == past[..|was|];
  }

  /** The second part: the live tree is parked. */
  method Park(h: Host, data: string, m: Manifest, works: bool, ghost n: nat, ghost was: Disk) returns (r: Renamed)
    requires SafeSince(h.past, n, data, was, m) && SameAt(Live(data), h.trees, was)
    modifies h
    ensures r == if !works then Denied else if Live(data) in was then Done else NotExist
    ensures var clean := old(h.trees) - {Parked(data)};
      h.trees ==
        if r.Done? then (clean - {Live(data)})[Parked(data) := was[Live(data)]]
        else if r.NotExist? then clean
        else clean - {Staging(data)}
    ensures Extends(h.past, old(h.past)) && SafeSince(h.past, n, data, was, m)
  {
    PathsDiffer(data);
    var staging, prev, live := Staging(data), Parked(data), Live(data);
    hide Staging, Parked, Live, TreeOf, Extends, SafeSince;
    Itself(h.past);
    h.RemoveAll(prev);
    Longer(old(h.past), h.trees, old(h.past));
    KeepsSafe(old(h.past), n, h.trees, data, was, m);
    ghost var p1 := h.past;
    r := h.Rename(live, prev, works);
    Longer(p1, h.trees, old(h.past));
    KeepsSafe(p1, n, h.trees, data, was, m);
    if r == Denied {
      ghost var p2 := h.past;
      h.RemoveAll(staging);
      Longer(p2, h.trees, old(h.past));
      KeepsSafe(p2, n, h.trees, data, was, m);
    }
  }

  /** The third part: the staged tree takes the place of the live one, or the live one is put
      back. */
  method Promote(h: Host, data: string, m: Manifest, lived: bool, luck: Luck, ghost n: nat, ghost was: Disk)
    returns (ok: bool)
    requires Staging(data) in h.trees && h.trees[Staging(data)] == TreeOf(m) && Live(data) !in h.trees
    requires lived <==> Live(data) in was
    requires lived ==> Parked(data) in h.trees && h.trees[Parked(data)] == was[Live(data)]
    requires SafeSince(h.past, n, data, was, m)
    modifies h
    ensures ok == luck.promote
    ensures var clean := old(h.trees) - {Staging(data)};
      h.trees ==
        if ok then clean[Live(data) := TreeOf(m)]
        else if lived && luck.restore then (clean - {Parked(data)})[Live(data) := was[Live(data)]]
        else clean
    ensures Extends(h.past, old(h.past)) && SafeSince(h.past, n, data, was, m)
  {
    PathsDiffer(data);
    var staging, prev, live := Staging(data), Parked(data), Live(data);
    hide Staging, Parked, Live, TreeOf, Extends, SafeSince;
    Itself(h.past);
    var promoted := h.Rename(staging, live, luck.promote);
    Longer(old(h.past), h.trees, old(h.past));
    KeepsSafe(old(h.past), n, h.trees, data, was, m);
    if promoted != Done {
      ghost var p3 := h.past;
      if lived {
        var _ := h.Rename(prev, live, luck.restore);
        Longer(p3, h.trees, old(h.past));
        KeepsSafe(p3, n, h.trees, data, was, m);
      }
      ghost var p4 := h.past;
      h.RemoveAll(staging);
      Longer(p4, h.trees, old(h.past));
      KeepsSafe(p4, n, h.trees, data, was, m);
      return false;
    }
    return true;
  }

  /** The directories after the old tree was put back in place of the new one. */
  function Undone(swapped: Disk, data: string, was: Disk): Disk
    requires Live(data) in was
  {
    (swapped - {Parked(data)})[Live(data) := was[Live(data)]]
  }

  /** How the reading of the new tree, and of the old one if that is put back, ends. */
  ghost function SettleEnd(c: Codec, swapped: Disk, base: string, data: string, was: Disk, luck: Luck): End {
    if ReadPanics(c, swapped, base, Live(data), luck.reload) then Crash
    else if Reading(c, swapped, base, Live(data), luck.reload).Some? then Success
    else if Live(data) !in was || !luck.restore then Failure
    else if ReadPanics(c, Undone(swapped, data, was), base, Live(data), luck.again) then Crash
    else Failure
  }

  ghost function SettleDisk(c: Codec, swapped: Disk, base: string, data: string, was: Disk, luck: Luck): Disk {
    if ReadPanics(c, swapped, base, Live(data), luck.reload) then swapped
    else if Reading(c, swapped, base, Live(data), luck.reload).Some? then swapped - {Parked(data)}
    else if Live(data) in was && luck.restore then Undone(swapped, data, was)
    else swapped - {Live(data)}
  }

  ghost function SettleShelf(
    c: Codec, swapped: Disk, base: string, data: string, was: Disk, luck: Luck, sh: Shelf): Shelf
  {
    if Reading(c, swapped, base, Live(data), luck.reload).Some? then
      AfterReloadFrom(c, swapped, base, sh, Live(data), luck.reload)
    else if Live(data) in was && luck.restore then
      AfterReloadFrom(c, Undone(swapped, data, was), base, sh, Live(data), luck.again)
    else sh
  }

  /** The last part: the new tree is read; if it cannot be served the old one is put back. The old
      tree is given up only after the new one is served, in the very last step. */
  method Settle(
    c: Codec, store: Store, h: Host, data: string, m: Manifest, lived: bool, luck: Luck, ghost n: nat, ghost was: Disk)
    returns (end: End)
    requires Live(data) in h.trees && h.trees[Live(data)] == TreeOf(m)
    requires lived <==> Live(data) in was
    requires lived ==> Parked(data) in h.trees && h.trees[Parked(data)] == was[Live(data)]
    requires SafeSince(h.past, n, data, was, m)
    modifies h, store
    ensures end == SettleEnd(c, old(h.trees), store.base, data, was, luck)
    ensures h.trees == SettleDisk(c, old(h.trees), store.base, data, was, luck)
    ensures !end.Crash? ==>
      store.State() == SettleShelf(c, old(h.trees), store.base, data, was, luck, old(store.State()))
    ensures Extends(h.past, old(h.past))
    ensures end.Success? ==> h.past == old(h.past) + [h.trees]
    ensures !end.Success? ==> SafeSince(h.past, n, data, was, m)
  {
    PathsDiffer(data);
    var prev, live := Parked(data), Live(data);
    hide Staging, Parked, Live, TreeOf, Extends, SafeSince, Reading, ReadPanics, AfterReloadFrom;
    Itself(h.past);
    PanicIsNoReading(c, h.trees, store.base, live, luck.reload);
    FailedReload(c, h.trees, store.base, store.State(), live, luck.reload);
    var r := store.ReloadFrom(c, h.trees, live, luck.reload);
    if r.Crashed? { return Crash; }
    if r.Refused? {
      h.RemoveAll(live);
      Longer(old(h.past), h.trees, old(h.past));
      KeepsSafe(old(h.past), n, h.trees, data, was, m);
      ghost var p1 := h.past;
      if lived {
        var restored := h.Rename(prev, live, luck.restore);
        Longer(p1, h.trees, old(h.past));
        KeepsSafe(p1, n, h.trees, data, was, m);
        if restored == Done {
          assert h.trees == Undone(old(h.trees), data, was);
          var again := store.ReloadFrom(c, h.trees, live, luck.again);
          if again.Crashed? { return Crash; }
        }
      }
      return Failure;
    }
    h.RemoveAll(prev);
    Longer(old(h.past), h.trees, old(h.past));
    return Success;
  }

  lemma PanicIsNoReading(c: Codec, disk: Disk, base: string, dir: string, a: Access)
    ensures ReadPanics(c, disk, base, dir, a) ==> Reading(c, disk, base, dir, a).None?
  {}

  lemma FailedReload(c: Codec, disk: Disk, base: string, sh: Shelf, dir: string, a: Access)
    ensures Reading(c, disk, base, dir, a).None? ==> AfterReloadFrom(c, disk, base, sh, dir, a) == sh
  {
    hide Reading;
  }

  lemma ReloadIsLocal(c: Codec, d1: Disk, d2: Disk, base: string, sh: Shelf, dir: string, a: Access)
    requires SameAt(dir, d1, d2) && SameAt(base, d1, d2)
    ensures Reading(c, d1, base, dir, a) == Reading(c, d2, base, dir, a)
    ensures ReadPanics(c, d1, base, dir, a) == ReadPanics(c, d2, base, dir, a)
    ensures AfterReloadFrom(c, d1, base, sh, dir, a) == AfterReloadFrom(c, d2, base, sh, dir, a)
  {
    ReadingIsLocal(c, d1, d2, base, dir, a);
    if Reading(c, d1, base, dir, a).Some? { assert dir in d1; }
    hide Own, WithProbe, ReadPanics;
  }

  lemma ExtendsTrans(a: seq<Disk>, b: seq<Disk>, c: seq<Disk>)
    requires Extends(b, a) && Extends(c, b)
    ensures Extends(c, a)
  {
    assert c[..|a|] == c[..|b|][..|a|];
  }

  lemma CommitIsSafe(past: seq<Disk>, n: nat, s: Disk, data: string, was: Disk, m: Manifest)
    requires SafeSince(past, n, data, was, m)
    ensures |past + [s]| > 0 && SafeSince((past + [s])[..|past + [s]| - 1], n, data, was, m)
  {
    assert (past + [s])[..|past + [s]| - 1] == past;
  }

  /** Apply. It does to the directories and to the store what `Roll` says; the live tree is whole
      at every moment, and a live tree it found exists until the last step of a success. */
  method Apply(c: Codec, store: Store, h: Host, data: string, m: Manifest, luck: Luck) returns (end: End)
    requires store.base != Staging(data) && store.base != Parked(data)
    modifies h, store
    ensures var r := Roll(c, store.base, data, m, old(World(h.trees, store.State())), luck);
      end == r.end && h.trees == r.world.disk && (!end.Crash? ==> store.State() == r.world.shelf)
    ensures Extends(h.past, old(h.past))
    ensures !end.Success? ==> SafeSince(h.past, |old(h.past)|, data, old(h.trees), m)
    ensures end.Success? ==>
      && |h.past| > 0 && SafeSince(h.past[..|h.past| - 1], |old(h.past)|, data, old(h.trees), m)
      && Whole(h.trees, data, old(h.trees), m)
  {
    PathsDiffer(data);
    Itself(h.past);
    ghost var was, n, sh := h.trees, |h.past|, store.State();
    hide Staging, Parked, Live, TreeOf, WritesAll, Reading, ReadPanics, AfterReloadFrom, SafeSince, OldKept, OnlyAt;
    hide Roll, PutBack, Extends, Whole, SameAt, SettleEnd, SettleDisk, SettleShelf;
    Samples(was);
    if !luck.mkdir {
      UnchangedIsSafe(h.past, Staging(data), was);
      StagingIsSafe(h.past, n, data, was, was, m);
      RollStops(c, store.base, data, m, World(was, sh), luck);
      return Failure;
    }
    var ok := Stage(h, data, m, luck.stage);
    Grown(h.past, old(h.past));
    StagingIsSafe(h.past, n, data, was, was, m);
    if !ok {
      RollStops(c, store.base, data, m, World(was, sh), luck);
      return Failure;
    }
    ghost var p1 := h.past;
    StagedMaps(was, h.trees, data, m);
    var parked := Park(h, data, m, luck.park, n, was);
    ExtendsTrans(old(h.past), p1, h.past);
    if parked == Denied {
      RollStops(c, store.base, data, m, World(was, sh), luck);
      return Failure;
    }
    var lived := parked == Done;
    ghost var gap, p3 := h.trees, h.past;
    ParkedMaps(was, gap, data, m);
    ok := Promote(h, data, m, lived, luck, n, was);
    ExtendsTrans(old(h.past), p3, h.past);
    PromotedMaps(was, gap, h.trees, data, m, luck.restore, ok);
    if !ok {
      RollStops(c, store.base, data, m, World(was, sh), luck);
      return Failure;
    }
    ghost var swapped, p2 := h.trees, h.past;
    SwappedMaps(was, swapped, data, m);
    end := Settle(c, store, h, data, m, lived, luck, n, was);
    ExtendsTrans(old(h.past), p2, h.past);
    RollEnds(c, store.base, data, m, World(was, sh), luck, swapped);
    if end.Success? {
      CommitIsSafe(p2, n, h.trees, data, was, m);
      NewIsWhole(h.trees, data, was, m);
    }
  }

  lemma Samples(d: Disk)
    ensures forall p :: SameAt(p, d, d)
  {}

  lemma Grown(past: seq<Disk>, was: seq<Disk>)
    requires Extends(past, was)
    ensures |was| <= |past|
  {}

  lemma NewIsWhole(s: Disk, data: string, was: Disk, m: Manifest)
    requires Live(data) in s && s[Live(data)] == TreeOf(m)
    ensures Whole(s, data, was, m)
  {}

  lemma StagedMaps(was: Disk, staged: Disk, data: string, m: Manifest)
    requires staged == was[Staging(data) := TreeOf(m)]
    ensures SameAt(Live(data), staged, was)
    ensures staged - {Parked(data)} - {Staging(data)} == was - {Staging(data), Parked(data)}
  {
    PathsDiffer(data);
    hide Staging, Parked, Live, TreeOf;
  }

  /** The directories after the swap. */
  ghost predicate IsSwapped(was: Disk, swapped: Disk, data: string, m: Manifest) {
    swapped == Swapped(was - {Staging(data), Parked(data)}, data, m)
  }

  /** The directories while there is no live tree. */
  ghost predicate IsGap(was: Disk, gap: Disk, data: string, m: Manifest) {
    var clean := was[Staging(data) := TreeOf(m)] - {Parked(data)};
    gap == if Live(data) in was then (clean - {Live(data)})[Parked(data) := was[Live(data)]] else clean
  }

  lemma ParkedMaps(was: Disk, gap: Disk, data: string, m: Manifest)
    requires IsGap(was, gap, data, m)
    ensures Staging(data) in gap && gap[Staging(data)] == TreeOf(m) && Live(data) !in gap
    ensures Live(data) in was ==> Parked(data) in gap && gap[Parked(data)] == was[Live(data)]
  {
    PathsDiffer(data);
    hide Staging, Parked, Live, TreeOf;
  }

  lemma PromotedMaps(was: Disk, gap: Disk, end: Disk, data: string, m: Manifest, restore: bool, ok: bool)
    requires IsGap(was, gap, data, m)
    requires end ==
      if ok then (gap - {Staging(data)})[Live(data) := TreeOf(m)]
      else if Live(data) in was && restore then (gap - {Staging(data)} - {Parked(data)})[Live(data) := was[Live(data)]]
      else gap - {Staging(data)}
    ensures ok ==> IsSwapped(was, end, data, m)
    ensures !ok ==> end == PutBack(was - {Staging(data), Parked(data)}, data, restore)
  {
    PathsDiffer(data);
    hide Staging, Parked, Live, TreeOf;
  }

  lemma SwappedMaps(was: Disk, swapped: Disk, data: string, m: Manifest)
    requires IsSwapped(was, swapped, data, m)
    ensures Live(data) in swapped && swapped[Live(data)] == TreeOf(m)
    ensures Live(data) in was ==> Parked(data) in swapped && swapped[Parked(data)] == was[Live(data)]
  {
    PathsDiffer(data);
  }

  lemma RollStops(c: Codec, base: string, data: string, m: Manifest, w: World, luck: Luck)
    requires !luck.mkdir || !WritesAll(m, luck.stage) || !luck.park || !luck.promote
    ensures var clean := w.disk - {Staging(data), Parked(data)};
      Roll(c, base, data, m, w, luck) == Rolled(Failure, w.(disk :=
        if !luck.mkdir then w.disk
        else if !WritesAll(m, luck.stage) then w.disk - {Staging(data)}
        else if !luck.park then clean
        else PutBack(clean, data, luck.restore)))
  {}

  /** How `Roll` ends once the trees are swapped. */
  lemma RollEnds(c: Codec, base: string, data: string, m: Manifest, w: World, luck: Luck, swapped: Disk)
    requires luck.mkdir && WritesAll(m, luck.stage) && luck.park && luck.promote
    requires base != Staging(data) && base != Parked(data)
    requires IsSwapped(w.disk, swapped, data, m)
    ensures var r := Roll(c, base, data, m, w, luck);
      && r.end == SettleEnd(c, swapped, base, data, w.disk, luck)
      && r.world.disk == SettleDisk(c, swapped, base, data, w.disk, luck)
      && (!r.end.Crash? ==> r.world.shelf == SettleShelf(c, swapped, base, data, w.disk, luck, w.shelf))
      && (r.end.Success? ==> Live(data) in r.world.disk && r.world.disk[Live(data)] == TreeOf(m))
  {
    PathsDiffer(data);
    hide Staging, Parked, Live, TreeOf, WritesAll, Reading, ReadPanics, AfterReloadFrom;
    var live := Live(data);
    var clean := w.disk - {Staging(data), Parked(data)};
    var next := clean[live := TreeOf(m)];
    ReloadIsLocal(c, swapped, next, base, w.shelf, live, luck.reload);
    PanicIsNoReading(c, swapped, base, live, luck.reload);
    assert swapped - {Parked(data)} == next;
    if live in w.disk {
      assert Undone(swapped, data, w.disk) == clean;
    }
    assert swapped - {live} == PutBack(clean, data, false);
  }

  lemma UnchangedIsSafe(past: seq<Disk>, path: string, was: Disk)
    ensures OnlyAt(past, |past|, path, was)
  {}
}
