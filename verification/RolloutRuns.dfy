/** Whole runs of a rollout: starts of the program, reload ticks, manifests and edits of other
    directories, one after the other, each with any of its steps failing. */
module RolloutRuns {
  import opened Config
  import opened Names
  import opened Profiles
  import opened Rollout

  const APPLY_OK := "ok"
  const APPLY_FAILED := "apply_failed"

  datatype Report = Report(hash: string, rev: int, apply: string, names: seq<string>)

  const NO_REPORT := Report("", 0, "", [])

  /** Where the tree of the generation that was applied last is. */
  datatype Place = AtLive | AtParked | Nowhere

  /** The state of the host and, while it is alive, of the program. The manifest that was applied
      last and the place of its tree are kept beside the program's own state; the place follows
      from which steps failed, not from looking at the disk. */
  datatype State = State(alive: bool, world: World, report: Report, applied: Option<Manifest>, place: Place)

  datatype Event =
    | Restart(load: Access, stat: bool, boot: Access)
    | Tick(looks: bool, a: Access)
    | Update(m: Manifest, luck: Luck)
    | Edit(path: string, tree: Tree)

  /** Nobody but the program touches its three trees. */
  predicate Allowed(data: string, e: Event) {
    e.Edit? ==> e.path != Live(data) && e.path != Staging(data) && e.path != Parked(data)
  }

  // ---- the start of the program ----

  predicate HasGeneration(disk: Disk, data: string) {
    && Live(data) in disk && DEFAULT_NAME in disk[Live(data)] && disk[Live(data)][DEFAULT_NAME].Folder?
    && PROFILE_FILE in disk[Live(data)][DEFAULT_NAME].files
  }

  /** Bootstrap looks at the live tree. */
  predicate Looks(disk: Disk, data: string, stat: bool) { data != "" && stat && HasGeneration(disk, data) }

  /** LoadProfiles and Bootstrap: the store of the new program, or nothing if it does not start. */
  ghost function Boot(
    c: Codec, disk: Disk, base: string, data: string, load: Access, stat: bool, boot: Access): Option<Shelf>
  {
    var sh := AfterReloadFrom(c, disk, base, Shelf(base, None, 0), base, load);
    if sh.cur.None? then None
    else if !Looks(disk, data, stat) then Some(sh)
    else if ReadPanics(c, disk, base, Live(data), boot) then None
    else Some(AfterReloadFrom(c, disk, base, sh, Live(data), boot))
  }

  // ---- a manifest ----

  /** A manifest that is the reported one is passed over. */
  predicate Known(r: Report, m: Manifest) { r.apply == APPLY_OK && r.hash == m.hash && r.rev == m.rev }

  ghost function Reported(r: Report, m: Manifest, ok: bool): Report {
    if ok then Report(m.hash, m.rev, APPLY_OK, Listing(m.profiles.Keys)) else r.(apply := APPLY_FAILED)
  }

  /** The manifest's own steps work and its own tree can be served. */
  ghost predicate Works(c: Codec, m: Manifest, luck: Luck) {
    Staged(m, luck) && luck.park && luck.promote && Servable(c, m, luck)
  }

  /** A new tree was ready and the old one parked, which cannot be put back. */
  ghost predicate Loses(m: Manifest, luck: Luck) { Staged(m, luck) && luck.park && !luck.restore }

  /** What the faults of an update do to the tree that was applied last. A parked tree is removed
      as soon as a new one is staged, whatever becomes of that. */
  ghost function PlaceAfter(c: Codec, m: Manifest, luck: Luck, place: Place): Place {
    if Works(c, m, luck) then AtLive
    else if place.AtLive? then (if Loses(m, luck) then AtParked else AtLive)
    else if Staged(m, luck) then Nowhere
    else place
  }

  ghost function AfterUpdate(c: Codec, base: string, data: string, s: State, m: Manifest, luck: Luck): State {
    if Known(s.report, m) then s
    else
      var r := Roll(c, base, data, m, s.world, luck);
      if r.end.Crash? then s.(alive := false, world := s.world.(disk := r.world.disk))
      else
        State(true, r.world, Reported(s.report, m, r.end.Success?),
              if r.end.Success? then Some(m) else s.applied, PlaceAfter(c, m, luck, s.place))
  }

  ghost function Next(c: Codec, base: string, data: string, s: State, e: Event): State {
    match e
    case Restart(load, stat, boot) =>
      var sh := Boot(c, s.world.disk, base, data, load, stat, boot);
      if sh.None? then s.(alive := false)
      else State(true, s.world.(shelf := sh.value), NO_REPORT, None, AtLive)
    case Tick(looks, a) =>
      if !s.alive then s
      else if ReloadPanics(c, s.world.disk, base, s.world.shelf, looks, a) then s.(alive := false)
      else s.(world := s.world.(shelf := AfterReload(c, s.world.disk, base, s.world.shelf, looks, a)))
    case Update(m, luck) => if s.alive then AfterUpdate(c, base, data, s, m, luck) else s
    case Edit(path, tree) => s.(world := s.world.(disk := s.world.disk[path := tree]))
  }

  /** A host on which the program has not been started. */
  function Idle(disk: Disk): State {
    State(false, World(disk, Shelf("", None, 0)), NO_REPORT, None, AtLive)
  }

  ghost function Run(c: Codec, base: string, data: string, s: State, es: seq<Event>): State {
    if es == [] then s else Next(c, base, data, Run(c, base, data, s, es[..|es| - 1]), es[|es| - 1])
  }

  lemma RunSnoc(c: Codec, base: string, data: string, s: State, es: seq<Event>, e: Event)
    ensures Run(c, base, data, s, es + [e]) == Next(c, base, data, Run(c, base, data, s, es), e)
  {
    hide Next;
    assert (es + [e])[..|es|] == es;
  }

  // ---- what every run keeps ----

  /** The profiles served are those of the tree, up to a probe lent by the base directory. */
  ghost predicate FromTree(c: Codec, served: Served, tree: Tree) {
    var own := Own(c, tree, Perfect());
    && own.Some?
    && (served == own.value
        || (PROBE_NAME !in own.value && PROBE_NAME in served && served - {PROBE_NAME} == own.value))
  }

  ghost predicate Serving(c: Codec, s: State) {
    s.alive ==> s.world.shelf.cur.Some? && Healthy(c, s.world.shelf.cur.value)
  }

  ghost predicate InPlace(disk: Disk, data: string, tree: Tree, place: Place) {
    match place
    case AtLive => Live(data) in disk && disk[Live(data)] == tree
    case AtParked => Live(data) !in disk && Parked(data) in disk && disk[Parked(data)] == tree
    case Nowhere => Live(data) !in disk && Parked(data) !in disk
  }

  /** The report names the generation that was applied last; its tree is where the faults so far
      have put it, and it is what is served in any case. */
  ghost predicate Truthful(c: Codec, data: string, s: State) {
    s.alive ==>
      && (s.report.apply == APPLY_OK ==> s.applied.Some? && s.place.AtLive?)
      && (s.applied.None? ==> s.report == NO_REPORT.(apply := s.report.apply))
      && (s.applied.Some? ==> Reports(s.report, s.applied.value) && Holds(c, data, s.world, s.applied.value, s.place))
  }

  ghost predicate Reports(r: Report, m: Manifest) {
    r.hash == m.hash && r.rev == m.rev && r.names == Listing(m.profiles.Keys)
  }

  /** The tree of `m` is in its place and its profiles are served. */
  ghost predicate Holds(c: Codec, data: string, w: World, m: Manifest, place: Place) {
    && InPlace(w.disk, data, TreeOf(m), place)
    && w.shelf.dir == Live(data)
    && w.shelf.cur.Some?
    && FromTree(c, w.shelf.cur.value.byName, TreeOf(m))
  }

  lemma ReadingFromTree(c: Codec, disk: Disk, base: string, dir: string, a: Access)
    requires Reading(c, disk, base, dir, a).Some?
    ensures dir in disk && FromTree(c, Reading(c, disk, base, dir, a).value, disk[dir])
  {
    OwnIgnoresTrouble(c, disk[dir], a);
    hide Own, ReadProfile, Panics, BaseProbe;
    var own, s := Own(c, disk[dir], a).value, Reading(c, disk, base, dir, a).value;
    if s != own { assert s - {PROBE_NAME} == own; }
  }

  ghost predicate GoodShelf(c: Codec, sh: Shelf) { sh.cur.Some? && Healthy(c, sh.cur.value) }

  lemma ReloadServing(c: Codec, disk: Disk, base: string, sh: Shelf, d: string, a: Access)
    ensures var after := AfterReloadFrom(c, disk, base, sh, d, a);
      GoodShelf(c, sh) || after != sh ==> GoodShelf(c, after)
  {
    hide Healthy, Reading;
    if Taken(c, disk, base, d, a, sh.gen).Some? { TakenIsHealthy(c, disk, base, d, a, sh.gen); }
  }

  lemma BootServing(c: Codec, disk: Disk, base: string, data: string, load: Access, stat: bool, boot: Access)
    requires Boot(c, disk, base, data, load, stat, boot).Some?
    ensures GoodShelf(c, Boot(c, disk, base, data, load, stat, boot).value)
  {
    hide Healthy, Reading, ReadPanics, Looks, AfterReloadFrom;
    var none := Shelf(base, None, 0);
    var sh := AfterReloadFrom(c, disk, base, none, base, load);
    ReloadServing(c, disk, base, none, base, load);
    ReloadServing(c, disk, base, sh, Live(data), boot);
  }

  lemma UpdateServing(c: Codec, base: string, data: string, s: State, m: Manifest, luck: Luck)
    requires Serving(c, s) && s.alive
    ensures Serving(c, AfterUpdate(c, base, data, s, m, luck))
  {
    hide Healthy, Reading, ReadPanics, TreeOf, WritesAll, Listing, AfterReloadFrom, PutBack, Swapped, PlaceAfter;
    var clean := s.world.disk - {Staging(data), Parked(data)};
    ReloadServing(c, clean[Live(data) := TreeOf(m)], base, s.world.shelf, Live(data), luck.reload);
    ReloadServing(c, clean, base, s.world.shelf, Live(data), luck.again);
  }

  lemma NextServing(c: Codec, base: string, data: string, s: State, e: Event)
    requires Serving(c, s)
    ensures Serving(c, Next(c, base, data, s, e))
  {
    hide Healthy, Boot, ReloadPanics, AfterUpdate, AfterReloadFrom;
    match e
    case Restart(load, stat, boot) =>
      if Boot(c, s.world.disk, base, data, load, stat, boot).Some? {
        BootServing(c, s.world.disk, base, data, load, stat, boot);
      }
    case Tick(looks, a) => ReloadServing(c, s.world.disk, base, s.world.shelf, s.world.shelf.dir, a);
    case Update(m, luck) => if s.alive { UpdateServing(c, base, data, s, m, luck); }
    case Edit(_, _) =>
  }

  /** Reading the live tree serves the generation that is there. */
  lemma ReloadHolds(c: Codec, base: string, data: string, w: World, m: Manifest, place: Place, a: Access)
    requires Holds(c, data, w, m, place)
    ensures Holds(c, data, w.(shelf := AfterReloadFrom(c, w.disk, base, w.shelf, Live(data), a)), m, place)
  {
    if Reading(c, w.disk, base, Live(data), a).Some? { ReadingFromTree(c, w.disk, base, Live(data), a); }
    hide FromTree, Reading, TreeOf, Live, Parked;
  }

  /** What a failed update does to the tree that was applied last. */
  lemma FailurePlaces(c: Codec, base: string, data: string, m: Manifest, w: World, luck: Luck, tree: Tree, place: Place)
    requires base != Staging(data) && base != Parked(data)
    requires InPlace(w.disk, data, tree, place) && Roll(c, base, data, m, w, luck).end.Failure?
    ensures InPlace(Roll(c, base, data, m, w, luck).world.disk, data, tree, PlaceAfter(c, m, luck, place))
    ensures !Works(c, m, luck)
  {
    PathsDiffer(data);
    FailureIsNoWork(c, base, data, m, w, luck);
    var clean := w.disk - {Staging(data), Parked(data)};
    hide Works, Reading, ReadPanics, TreeOf, Live, Staging, Parked, WritesAll, AfterReloadFrom, Servable;
  }

  lemma FailureIsNoWork(c: Codec, base: string, data: string, m: Manifest, w: World, luck: Luck)
    ensures Roll(c, base, data, m, w, luck).end.Failure? ==> !Works(c, m, luck)
    ensures Roll(c, base, data, m, w, luck).end.Success? ==> Works(c, m, luck)
  {
    var next := (w.disk - {Staging(data), Parked(data)})[Live(data) := TreeOf(m)];
    if !ReadPanics(c, next, base, Live(data), luck.reload) { ServableIff(c, next, base, data, m, luck); }
    hide Reading, ReadPanics, TreeOf, Live, Staging, Parked, WritesAll, Servable, AfterReloadFrom, PutBack, Swapped;
  }

  lemma FailureHolds(
    c: Codec, base: string, data: string, m: Manifest, w: World, luck: Luck, old_: Manifest, place: Place)
    requires base != Staging(data) && base != Parked(data)
    requires Holds(c, data, w, old_, place) && Roll(c, base, data, m, w, luck).end.Failure?
    ensures Holds(c, data, Roll(c, base, data, m, w, luck).world, old_, PlaceAfter(c, m, luck, place))
  {
    Transaction(c, base, data, m, w, luck);
    FailurePlaces(c, base, data, m, w, luck, TreeOf(old_), place);
    var r := Roll(c, base, data, m, w, luck);
    hide Roll, TreeOf, Live, Staging, Parked, PlaceAfter;
    if r.world.shelf != w.shelf { ReadingFromTree(c, w.disk, base, Live(data), luck.again); }
    hide FromTree, Reading;
  }

  lemma SuccessHolds(c: Codec, base: string, data: string, m: Manifest, w: World, luck: Luck)
    requires base != Staging(data) && base != Parked(data) && Roll(c, base, data, m, w, luck).end.Success?
    ensures Holds(c, data, Roll(c, base, data, m, w, luck).world, m, AtLive)
  {
    Transaction(c, base, data, m, w, luck);
    var r := Roll(c, base, data, m, w, luck);
    hide Roll, TreeOf, Live, Staging, Parked;
    ReadingFromTree(c, r.world.disk, base, Live(data), luck.reload);
    hide FromTree, Reading;
  }

  lemma UpdateTruthful(c: Codec, base: string, data: string, s: State, m: Manifest, luck: Luck)
    requires Truthful(c, data, s) && s.alive && base != Staging(data) && base != Parked(data)
    ensures Truthful(c, data, AfterUpdate(c, base, data, s, m, luck))
  {
    WordsDiffer();
    FailureIsNoWork(c, base, data, m, s.world, luck);
    var end := Roll(c, base, data, m, s.world, luck).end;
    hide Roll, Works, Holds, Listing, Staging, Parked;
    if end.Success? { SuccessHolds(c, base, data, m, s.world, luck); }
    if end.Failure? && s.applied.Some? { FailureHolds(c, base, data, m, s.world, luck, s.applied.value, s.place); }
  }

  lemma WordsDiffer()
    ensures APPLY_OK != APPLY_FAILED && APPLY_OK != "" && APPLY_FAILED != ""
  {
    assert |APPLY_OK| != |APPLY_FAILED|;
  }

  lemma EditHolds(c: Codec, data: string, w: World, m: Manifest, place: Place, path: string, tree: Tree)
    requires Holds(c, data, w, m, place) && path != Live(data) && path != Parked(data)
    ensures Holds(c, data, w.(disk := w.disk[path := tree]), m, place)
  {
    hide FromTree, TreeOf, Live, Parked;
  }

  lemma NextTruthful(c: Codec, base: string, data: string, s: State, e: Event)
    requires Truthful(c, data, s) && base != Staging(data) && base != Parked(data) && Allowed(data, e)
    ensures Truthful(c, data, Next(c, base, data, s, e))
  {
    WordsDiffer();
    if s.alive {
      match e {
        case Restart(_, _, _) =>
        case Tick(looks, a) => TickTruthful(c, base, data, s, looks, a);
        case Update(m, luck) => UpdateTruthful(c, base, data, s, m, luck);
        case Edit(path, tree) =>
          hide Holds;
          if s.applied.Some? { EditHolds(c, data, s.world, s.applied.value, s.place, path, tree); }
      }
    }
  }

  lemma TickTruthful(c: Codec, base: string, data: string, s: State, looks: bool, a: Access)
    requires Truthful(c, data, s) && s.alive
    ensures Truthful(c, data, Next(c, base, data, s, Tick(looks, a)))
  {
    if s.applied.Some? {
      assert s.world.shelf.dir == Live(data);
      ReloadHolds(c, base, data, s.world, s.applied.value, s.place, a);
    }
    hide Holds, Reports, AfterReloadFrom, ReloadPanics;
  }

  /** Over every run, whatever fails in it and however often the program is started again, while
      it is alive: the snapshot has `default`, an ascending list of its names and only validated
      profiles; and the reported hash, revision and names are those of the last applied
      generation, whose profiles are the ones served and whose tree is where the faults put it. */
  lemma {:induction false} EveryRun(c: Codec, base: string, data: string, disk: Disk, es: seq<Event>)
    requires base != Staging(data) && base != Parked(data)
    requires forall i :: 0 <= i < |es| ==> Allowed(data, es[i])
    ensures var s := Run(c, base, data, Idle(disk), es); Serving(c, s) && Truthful(c, data, s)
  {
    if es != [] {
      EveryRun(c, base, data, disk, es[..|es| - 1]);
      hide Serving, Truthful, Next, Idle, Staging, Parked, Allowed;
      var s := Run(c, base, data, Idle(disk), es[..|es| - 1]);
      NextServing(c, base, data, s, es[|es| - 1]);
      NextTruthful(c, base, data, s, es[|es| - 1]);
    }
  }

  // ---- where the applied generation is ----

  /** If putting a parked tree back never fails, the reported generation is the live tree, in every
      run and whatever else fails in it. */
  lemma ReportedIsLive(c: Codec, base: string, data: string, disk: Disk, es: seq<Event>)
    requires base != Staging(data) && base != Parked(data)
    requires forall i :: 0 <= i < |es| ==> Allowed(data, es[i])
    requires forall i :: 0 <= i < |es| && es[i].Update? ==> es[i].luck.restore
    ensures var s := Run(c, base, data, Idle(disk), es);
      s.alive && s.applied.Some? ==>
        Reports(s.report, s.applied.value) && Live(data) in s.world.disk
          && s.world.disk[Live(data)] == TreeOf(s.applied.value)
  {
    EveryRun(c, base, data, disk, es);
    RestoringStaysLive(c, base, data, Idle(disk), es);
    hide Run, Reports, FromTree, TreeOf;
  }

  lemma {:induction false} RestoringStaysLive(c: Codec, base: string, data: string, s: State, es: seq<Event>)
    requires s.place.AtLive? && forall i :: 0 <= i < |es| && es[i].Update? ==> es[i].luck.restore
    ensures Run(c, base, data, s, es).place.AtLive?
  {
    if es != [] {
      RestoringStaysLive(c, base, data, s, es[..|es| - 1]);
      hide Roll, Boot, Works, ReloadPanics, AfterReload, Reported, Known;
    }
  }

  /** The tree of the reported generation is the live one, is parked, or is nowhere, exactly as the
      faults say. */
  lemma OnDiskIff(c: Codec, data: string, s: State)
    requires Truthful(c, data, s) && s.alive && s.applied.Some?
    ensures var tree := TreeOf(s.applied.value);
      && (s.place.AtLive? <==> Live(data) in s.world.disk && s.world.disk[Live(data)] == tree)
      && (s.place.AtParked? <==>
            Live(data) !in s.world.disk && Parked(data) in s.world.disk && s.world.disk[Parked(data)] == tree)
      && (s.place.Nowhere? <==> Live(data) !in s.world.disk && Parked(data) !in s.world.disk)
  {
    hide FromTree, Reports, TreeOf;
  }

  /** No event of the list applies a generation or starts the program. */
  ghost predicate AllFail(c: Codec, r: Report, es: seq<Event>) {
    forall i :: 0 <= i < |es| ==>
      && !es[i].Restart?
      && (es[i].Update? ==> !Works(c, es[i].m, es[i].luck) && !Known(r, es[i].m))
  }

  ghost predicate LosesAt(es: seq<Event>, i: nat) { i < |es| && es[i].Update? && Loses(es[i].m, es[i].luck) }

  ghost predicate StagesAt(es: seq<Event>, i: nat) { i < |es| && es[i].Update? && Staged(es[i].m, es[i].luck) }

  ghost predicate EverLoses(es: seq<Event>) { exists i: nat :: LosesAt(es, i) }

  ghost predicate LosesThenStages(es: seq<Event>) {
    exists i: nat, j: nat :: i < j && LosesAt(es, i) && StagesAt(es, j)
  }

  lemma LosesSnoc(es: seq<Event>, e: Event)
    ensures EverLoses(es + [e]) <==> EverLoses(es) || LosesAt([e], 0)
    ensures LosesThenStages(es + [e]) <==> LosesThenStages(es) || (EverLoses(es) && StagesAt([e], 0))
  {
    hide Loses, Staged;
    var all := es + [e];
    assert all[|es|] == e;
    assert forall i: nat :: i < |es| ==>
      (LosesAt(all, i) <==> LosesAt(es, i)) && (StagesAt(all, i) <==> StagesAt(es, i));
    assert LosesAt(all, |es|) <==> LosesAt([e], 0);
    assert StagesAt(all, |es|) <==> StagesAt([e], 0);
    if LosesThenStages(es) {
      var i: nat, j: nat :| i < j && LosesAt(es, i) && StagesAt(es, j);
      assert LosesAt(all, i) && StagesAt(all, j);
    }
    if EverLoses(es) {
      var i: nat :| LosesAt(es, i);
      assert LosesAt(all, i);
    }
  }

  /** After the live generation, any number of updates that fail: its tree stays live exactly if
      none of them parks it without being able to put it back; after such a one it stays parked
      exactly until the next update that stages its files, which removes it although it fails. */
  lemma {:induction false} FailuresPlace(c: Codec, base: string, data: string, s: State, es: seq<Event>)
    requires s.place.AtLive? && AllFail(c, s.report, es) && Run(c, base, data, s, es).alive
    ensures var s' := Run(c, base, data, s, es);
      && s.alive
      && s'.report == s.report.(apply := s'.report.apply) && s'.report.apply in {s.report.apply, APPLY_FAILED}
      && s'.place == if LosesThenStages(es) then Nowhere else if EverLoses(es) then AtParked else AtLive
  {
    if es == [] {
      assert !EverLoses(es) && !LosesThenStages(es);
    } else {
      var init, e := es[..|es| - 1], es[|es| - 1];
      assert es == init + [e];
      LosesSnoc(init, e);
      var mid := Run(c, base, data, s, init);
      assert !e.Restart?;
      assert mid.alive by { hide Roll, ReloadPanics, AfterReload; }
      FailuresPlace(c, base, data, s, init);
      FailingNext(c, base, data, mid, e, s.report);
      hide Run, Next, AllFail, LosesThenStages, EverLoses, Loses, Staged;
    }
  }

  lemma FailingNext(c: Codec, base: string, data: string, s: State, e: Event, r: Report)
    requires AllFail(c, r, [e]) && s.alive && Next(c, base, data, s, e).alive
    requires s.report == r.(apply := s.report.apply) && s.report.apply in {r.apply, APPLY_FAILED}
    ensures var s' := Next(c, base, data, s, e);
      && s'.report == r.(apply := s'.report.apply) && s'.report.apply in {r.apply, APPLY_FAILED}
      && s'.place ==
         if s.place.AtLive? then (if LosesAt([e], 0) then AtParked else AtLive)
         else if StagesAt([e], 0) then Nowhere
         else s.place
  {
    WordsDiffer();
    assert [e][0] == e;
    if e.Update? { FailureIsNoWork(c, base, data, e.m, s.world, e.luck); }
    hide Roll, Works, ReloadPanics, AfterReload, Loses, Staged, Listing;
  }

  // ---- crashes ----

  /** No profile of the tree ends the program when it is read. */
  predicate Sane(c: Codec, tree: Tree) {
    forall n :: n in tree && Listed(tree, n) ==> !EntryRead(c, tree, n, Perfect()).Crashing?
  }

  predicate AllSane(c: Codec, disk: Disk) { forall p :: p in disk ==> Sane(c, disk[p]) }

  lemma SaneReads(c: Codec, disk: Disk, base: string, dir: string, a: Access)
    requires AllSane(c, disk)
    ensures !ReadPanics(c, disk, base, dir, a)
  {
    hide ReadProfile;
    if dir in disk {
      PanicIgnoresTrouble(c, disk[dir], a);
      assert Sane(c, disk[dir]);
      assert forall n :: n in disk[dir] ==> !PanicsAt(c, disk[dir], n, Perfect());
    }
    if base in disk && PROBE_NAME in disk[base] && disk[base][PROBE_NAME].Folder? {
      assert |PROBE_NAME| != |SHARED_DIR| && Listed(disk[base], PROBE_NAME);
      ProbeIsEntry(c, disk[base], a);
    }
    hide Own, Panics;
  }

  lemma ProbeIsEntry(c: Codec, tree: Tree, a: Access)
    requires Listed(tree, PROBE_NAME)
    ensures ReadProfile(c, PROBE_NAME, tree[PROBE_NAME].files, a.probe) in
      {EntryRead(c, tree, PROBE_NAME, Perfect()), Broken}
  {
    hide DraftCrash, GoodDraft;
  }

  predicate SaneEvent(c: Codec, e: Event) {
    match e
    case Update(m, _) => Sane(c, TreeOf(m))
    case Edit(_, tree) => Sane(c, tree)
    case Restart(_, _, _) => true
    case Tick(_, _) => true
  }

  /** The last start of the program, if there was one, could serve its base directory. */
  ghost predicate LastStartWorked(c: Codec, base: string, data: string, s: State, es: seq<Event>) {
    if es == [] then s.alive
    else
      var init, e := es[..|es| - 1], es[|es| - 1];
      if e.Restart? then Reading(c, Run(c, base, data, s, init).world.disk, base, base, e.load).Some?
      else LastStartWorked(c, base, data, s, init)
  }

  /** Without an empty operation that validation comes upon, in any tree, nothing that happens ends
      the program: it is alive exactly if its last start found a base directory it can serve. */
  lemma {:induction false} SaneRunsLive(c: Codec, base: string, data: string, s: State, es: seq<Event>)
    requires base != Staging(data) && base != Parked(data)
    requires AllSane(c, s.world.disk) && forall i :: 0 <= i < |es| ==> SaneEvent(c, es[i])
    ensures var s' := Run(c, base, data, s, es);
      (s'.alive <==> LastStartWorked(c, base, data, s, es)) && AllSane(c, s'.world.disk)
  {
    if es != [] {
      SaneRunsLive(c, base, data, s, es[..|es| - 1]);
      SaneNext(c, base, data, Run(c, base, data, s, es[..|es| - 1]), es[|es| - 1]);
      hide Next, AllSane, SaneEvent, Reading;
    }
  }

  lemma SaneNext(c: Codec, base: string, data: string, s: State, e: Event)
    requires base != Staging(data) && base != Parked(data)
    requires AllSane(c, s.world.disk) && SaneEvent(c, e)
    ensures var s' := Next(c, base, data, s, e);
      && (s'.alive <==> if e.Restart? then Reading(c, s.world.disk, base, base, e.load).Some? else s.alive)
      && AllSane(c, s'.world.disk)
  {
    hide Sane, Reading, ReadPanics, AfterReloadFrom;
    match e
    case Restart(load, stat, boot) =>
      SaneReads(c, s.world.disk, base, Live(data), boot);
      RestartFailsIff(c, base, data, s, load, stat, boot);
    case Tick(looks, a) => SaneReads(c, s.world.disk, base, s.world.shelf.dir, a);
    case Update(m, luck) => if s.alive { SaneUpdate(c, base, data, s, m, luck); }
    case Edit(_, _) =>
  }

  lemma SaneUpdate(c: Codec, base: string, data: string, s: State, m: Manifest, luck: Luck)
    requires base != Staging(data) && base != Parked(data)
    requires s.alive && AllSane(c, s.world.disk) && Sane(c, TreeOf(m))
    ensures var s' := AfterUpdate(c, base, data, s, m, luck); s'.alive && AllSane(c, s'.world.disk)
  {
    hide Sane, Reading, ReadPanics, AfterReloadFrom, TreeOf, WritesAll, Live, Staging, Parked, PlaceAfter, Listing;
    var clean := s.world.disk - {Staging(data), Parked(data)};
    assert AllSane(c, clean[Live(data) := TreeOf(m)]);
    SaneReads(c, clean[Live(data) := TreeOf(m)], base, Live(data), luck.reload);
    SaneReads(c, clean, base, Live(data), luck.again);
  }

  /** When a start of the program fails: its base directory cannot be served, or Bootstrap looks at
      a live tree that ends it. */
  lemma RestartFailsIff(c: Codec, base: string, data: string, s: State, load: Access, stat: bool, boot: Access)
    ensures !Next(c, base, data, s, Restart(load, stat, boot)).alive <==>
      || Reading(c, s.world.disk, base, base, load).None?
      || (Looks(s.world.disk, data, stat) && ReadPanics(c, s.world.disk, base, Live(data), boot))
  {
    hide Reading, ReadPanics, Looks;
  }

  /** A live tree that ends the program keeps it from ever starting again, as long as its files can
      be read: no manifest gets a chance to replace it. */
  lemma {:induction false} CrashLoop(c: Codec, base: string, data: string, s: State, es: seq<Event>)
    requires !s.alive && data != "" && HasGeneration(s.world.disk, data)
    requires Panics(c, s.world.disk[Live(data)], Perfect())
    requires forall i :: 0 <= i < |es| ==>
      Allowed(data, es[i]) && (es[i].Restart? ==> es[i].stat && es[i].boot == Perfect())
    ensures var s' := Run(c, base, data, s, es);
      !s'.alive && Live(data) in s'.world.disk && s'.world.disk[Live(data)] == s.world.disk[Live(data)]
  {
    if es != [] {
      CrashLoop(c, base, data, s, es[..|es| - 1]);
      var mid, e := Run(c, base, data, s, es[..|es| - 1]), es[|es| - 1];
      if e.Restart? { RestartFailsIff(c, base, data, mid, e.load, e.stat, e.boot); }
      hide Panics, Own, BaseProbe;
    }
  }

  /** Whether a manifest is applied depends on nothing that happened before, but for a probe in the
      base directory that ends the program: it is applied exactly if its own steps work and its
      own tree can be served; and then the report, the disk and the store are all its. */
  lemma AppliedIff(c: Codec, base: string, data: string, s: State, m: Manifest, luck: Luck)
    requires base != Staging(data) && base != Parked(data) && s.alive && !Known(s.report, m)
    ensures var s' := AfterUpdate(c, base, data, s, m, luck);
      && (s'.alive && s'.report.apply == APPLY_OK <==>
            Works(c, m, luck) && !ReadPanics(c, s.world.disk[Live(data) := TreeOf(m)], base, Live(data), luck.reload))
      && (s'.alive && s'.report.apply == APPLY_OK ==>
            && s'.applied == Some(m) && s'.place.AtLive? && Reports(s'.report, m)
            && Holds(c, data, s'.world, m, AtLive) && Parked(data) !in s'.world.disk)
  {
    WordsDiffer();
    FailureIsNoWork(c, base, data, m, s.world, luck);
    hide Works, Holds, Listing, TreeOf, ReadPanics, Live, Parked, Staging;
    CrashIsNoSuccess(c, base, data, m, s.world, luck);
    hide Roll;
    if Roll(c, base, data, m, s.world, luck).end.Success? { SuccessHolds(c, base, data, m, s.world, luck); }
  }

  lemma CrashIsNoSuccess(c: Codec, base: string, data: string, m: Manifest, w: World, luck: Luck)
    requires base != Staging(data) && base != Parked(data)
    ensures var r := Roll(c, base, data, m, w, luck);
      var panics := ReadPanics(c, w.disk[Live(data) := TreeOf(m)], base, Live(data), luck.reload);
      && (r.end.Crash? ==> panics || !Works(c, m, luck))
      && (r.end.Success? ==> !panics && Parked(data) !in r.world.disk)
  {
    CrashIff(c, base, data, m, w, luck);
    PathsDiffer(data);
    hide ReadPanics, TreeOf, Live, Parked, Staging, WritesAll, Servable, Reading, AfterReloadFrom, PutBack, Swapped;
  }

  /** Passing over a manifest is right: in every run its tree is then the live one and its
      profiles are the ones served, provided equal digests mean equal manifests. */
  lemma PassedOverIsLive(c: Codec, data: string, s: State, m: Manifest)
    requires Truthful(c, data, s) && s.alive && Known(s.report, m)
    requires s.applied.Some? && s.applied.value.hash == m.hash ==> s.applied.value.profiles == m.profiles
    ensures Holds(c, data, s.world, m, AtLive)
  {
    assert TreeOf(m) == TreeOf(s.applied.value);
    hide TreeOf, FromTree, Listing;
  }
}
