/** Concrete runs in which the rollout does not keep what one would like it to keep. */
module RolloutWitness {
  import opened Config
  import opened Names
  import opened Profiles
  import opened Rollout
  import opened RolloutRuns

  const BASE := "/etc/p"
  const DATA := "/data"

  /** A new host with one base profile, started without trouble. */
  const HOST: Disk := map[BASE := DemoTree("a")]
  const START := Event.Restart(Perfect(), true, Perfect())

  lemma DemoPaths()
    ensures BASE != Staging(DATA) && BASE != Parked(DATA) && BASE != Live(DATA)
  {
    assert BASE[1] == 'e' && Live(DATA)[1] == 'd' && Staging(DATA)[1] == 'd' && Parked(DATA)[1] == 'd';
  }

  lemma Started()
    ensures var s := Next(DemoCodec(), BASE, DATA, Idle(HOST), START);
      s.alive && s.world.disk == HOST && s.report == NO_REPORT && s.applied.None?
  {
    DemoPaths();
    DemoReading(HOST, BASE, BASE, "a");
    hide Reading, ReadPanics;
  }

  lemma DemoWorks(disk: Disk, rev: int, text: string)
    requires text != "" && text != "~" && BASE in disk && disk[BASE] == DemoTree("a")
    ensures var m := DemoManifest(rev, text);
      && Works(DemoCodec(), m, NoFault())
      && !ReadPanics(DemoCodec(), disk[Live(DATA) := TreeOf(m)], BASE, Live(DATA), NoFault().reload)
  {
    var m := DemoManifest(rev, text);
    DemoPaths();
    DemoTreeOf(rev, text);
    DemoReading(disk[Live(DATA) := TreeOf(m)], BASE, Live(DATA), text);
    hide Own, Reading, ReadPanics, TreeOf, DemoCodec, DemoManifest, Live;
  }

  /** A generation is applied without trouble. */
  lemma DemoApplies(s: State, rev: int, text: string)
    requires text != "" && text != "~" && s.alive && BASE in s.world.disk && s.world.disk[BASE] == DemoTree("a")
    requires !Known(s.report, DemoManifest(rev, text))
    ensures var s' := Next(DemoCodec(), BASE, DATA, s, Update(DemoManifest(rev, text), NoFault()));
      s'.alive && s'.applied == Some(DemoManifest(rev, text)) && s'.place.AtLive?
  {
    DemoWorks(s.world.disk, rev, text);
    DemoPaths();
    hide DemoCodec, DemoManifest, Live, Staging, Parked, Works, ReadPanics, TreeOf, DemoTree, Known, NoFault;
    AppliedIff(DemoCodec(), BASE, DATA, s, DemoManifest(rev, text), NoFault());
  }

  /** The new tree cannot take its place, and the old one cannot be put back. */
  function Unlucky(): Luck { NoFault().(promote := false, restore := false) }

  /** What an update does that fails at this point. */
  lemma UnluckyUpdate(s: State, m: Manifest)
    requires s.alive && !Known(s.report, m)
    ensures var s' := Next(DemoCodec(), BASE, DATA, s, Update(m, Unlucky()));
      && s'.alive && s'.applied == s.applied && s'.report == s.report.(apply := APPLY_FAILED)
      && s'.place == if s.place.AtLive? then AtParked else Nowhere
  {
    assert WritesAll(m, Unlucky().stage);
    hide WritesAll, DemoCodec, ReadPanics, Reading, TreeOf, PutBack, Listing, Servable;
  }

  const FIRST := DemoManifest(1, "b")
  const SECOND := DemoManifest(2, "c")

  /** The first generation is applied; the second fails twice at the same point. */
  function Vanishing(n: nat): seq<Event> {
    [START, Update(FIRST, NoFault())] + if n == 0 then [] else if n == 1 then [Update(SECOND, Unlucky())]
      else [Update(SECOND, Unlucky()), Update(SECOND, Unlucky())]
  }

  lemma VanishingRun()
    ensures var c := DemoCodec();
      var s0 := Run(c, BASE, DATA, Idle(HOST), Vanishing(0));
      var s1 := Run(c, BASE, DATA, Idle(HOST), Vanishing(1));
      var s2 := Run(c, BASE, DATA, Idle(HOST), Vanishing(2));
      && s0.alive && s0.applied == Some(FIRST) && s0.place.AtLive?
      && s1.alive && s1.applied == Some(FIRST) && s1.place.AtParked?
      && s2.alive && s2.applied == Some(FIRST) && s2.place.Nowhere?
  {
    var c := DemoCodec();
    var a := Idle(HOST);
    Started();
    var s := Next(c, BASE, DATA, a, START);
    RunSnoc(c, BASE, DATA, a, [], START);
    assert [] + [START] == [START];
    RunSnoc(c, BASE, DATA, a, [START], Update(FIRST, NoFault()));
    assert Vanishing(0) == [START] + [Update(FIRST, NoFault())];
    RunSnoc(c, BASE, DATA, a, Vanishing(0), Update(SECOND, Unlucky()));
    assert Vanishing(1) == Vanishing(0) + [Update(SECOND, Unlucky())];
    RunSnoc(c, BASE, DATA, a, Vanishing(1), Update(SECOND, Unlucky()));
    assert Vanishing(2) == Vanishing(1) + [Update(SECOND, Unlucky())];
    assert "b"[0] != "c"[0];
    WordsDiffer();
    Vanishes(s);
  }

  lemma Vanishes(s: State)
    requires s.alive && s.report == NO_REPORT && BASE in s.world.disk && s.world.disk[BASE] == DemoTree("a")
    ensures var c := DemoCodec();
      var s0 := Next(c, BASE, DATA, s, Update(FIRST, NoFault()));
      var s1 := Next(c, BASE, DATA, s0, Update(SECOND, Unlucky()));
      var s2 := Next(c, BASE, DATA, s1, Update(SECOND, Unlucky()));
      && s0.alive && s0.applied == Some(FIRST) && s0.place.AtLive?
      && s1.alive && s1.applied == Some(FIRST) && s1.place.AtParked?
      && s2.alive && s2.applied == Some(FIRST) && s2.place.Nowhere?
  {
    WordsDiffer();
    assert "b" != "" && "b" != "~" by { assert "b"[0] != "~"[0]; }
    var c := DemoCodec();
    DemoApplies(s, 1, "b");
    var s0 := Next(c, BASE, DATA, s, Update(FIRST, NoFault()));
    assert !Known(s0.report, SECOND) by { NotSecond(s); }
    UnluckyUpdate(s0, SECOND);
    UnluckyUpdate(Next(c, BASE, DATA, s0, Update(SECOND, Unlucky())), SECOND);
  }

  lemma NotSecond(s: State)
    requires s.alive && s.report == NO_REPORT
    ensures !Known(Next(DemoCodec(), BASE, DATA, s, Update(FIRST, NoFault())).report, SECOND)
  {
    WordsDiffer();
    hide Roll, PlaceAfter, Listing;
  }

  /** The reported generation is not live after one unlucky update, and nowhere on the disk after
      two, although it is still reported and served. */
  lemma ReportCanOutliveTree()
    ensures var c := DemoCodec();
      var s1 := Run(c, BASE, DATA, Idle(HOST), Vanishing(1));
      var s2 := Run(c, BASE, DATA, Idle(HOST), Vanishing(2));
      && Reports(s1.report, FIRST) && Live(DATA) !in s1.world.disk && Parked(DATA) in s1.world.disk
      && Reports(s2.report, FIRST) && Live(DATA) !in s2.world.disk && Parked(DATA) !in s2.world.disk
      && s2.world.shelf.cur.Some? && FromTree(c, s2.world.shelf.cur.value.byName, TreeOf(FIRST))
  {
    VanishingRun();
    DemoPaths();
    AllowedVanishing(1);
    AllowedVanishing(2);
    hide Run, Idle, Allowed, DemoCodec, Live, Staging, Parked, TreeOf, FromTree, Reports, Vanishing, Truthful, Serving;
    EveryRun(DemoCodec(), BASE, DATA, HOST, Vanishing(1));
    EveryRun(DemoCodec(), BASE, DATA, HOST, Vanishing(2));
    Outlived(DemoCodec(), Run(DemoCodec(), BASE, DATA, Idle(HOST), Vanishing(1)));
    Outlived(DemoCodec(), Run(DemoCodec(), BASE, DATA, Idle(HOST), Vanishing(2)));
  }

  lemma AllowedVanishing(n: nat)
    ensures forall i :: 0 <= i < |Vanishing(n)| ==> Allowed(DATA, Vanishing(n)[i])
  {
    hide Live, Staging, Parked;
  }

  lemma Outlived(c: Codec, s: State)
    requires Truthful(c, DATA, s) && s.alive && s.applied.Some? && !s.place.AtLive?
    ensures Reports(s.report, s.applied.value) && Live(DATA) !in s.world.disk
    ensures Parked(DATA) in s.world.disk <==> s.place.AtParked?
    ensures s.world.shelf.cur.Some? && FromTree(c, s.world.shelf.cur.value.byName, TreeOf(s.applied.value))
  {
    hide Live, Staging, Parked, TreeOf, FromTree, Reports;
  }

  /** A manifest with an empty operation ends a program that has just been started, and its tree
      is the live one then. */
  lemma ManifestCanKill(s: State, rev: int)
    requires s.alive && s.report == NO_REPORT
    ensures var m := DemoManifest(rev, "~");
      var dead := Next(DemoCodec(), BASE, DATA, s, Update(m, NoFault()));
      !dead.alive && Live(DATA) in dead.world.disk && dead.world.disk[Live(DATA)] == DemoTree("~")
  {
    DemoPaths();
    WordsDiffer();
    ManifestCanCrash(BASE, DATA, s.world, rev);
    DemoTreeOf(rev, "~");
    hide Roll, Live, TreeOf, DemoCodec, DemoTree;
  }

  lemma DemoLooks(disk: Disk)
    requires Live(DATA) in disk && disk[Live(DATA)] == DemoTree("~")
    ensures HasGeneration(disk, DATA) && Panics(DemoCodec(), disk[Live(DATA)], Perfect())
  {
    DemoPanics();
    hide Panics;
  }

  /** After that, whatever happens but trouble with reading the files: the program is never alive
      again. */
  lemma ManifestCanWedge(rev: int, es: seq<Event>)
    requires forall i :: 0 <= i < |es| ==>
      Allowed(DATA, es[i]) && (es[i].Restart? ==> es[i].stat && es[i].boot == Perfect())
    ensures var s := Next(DemoCodec(), BASE, DATA, Idle(HOST), START);
      var dead := Next(DemoCodec(), BASE, DATA, s, Update(DemoManifest(rev, "~"), NoFault()));
      s.alive && !dead.alive && !Run(DemoCodec(), BASE, DATA, dead, es).alive
  {
    Started();
    var s := Next(DemoCodec(), BASE, DATA, Idle(HOST), START);
    ManifestCanKill(s, rev);
    var dead := Next(DemoCodec(), BASE, DATA, s, Update(DemoManifest(rev, "~"), NoFault()));
    DemoLooks(dead.world.disk);
    hide Run, Next, Panics, HasGeneration, DemoCodec, DemoManifest, Live, DemoTree, Idle, Allowed;
    CrashLoop(DemoCodec(), BASE, DATA, dead, es);
  }

  // ---- a probe that goes unnoticed ----

  const PROBED: Tree := DemoTree("a")[PROBE_NAME := Folder(map[PROFILE_FILE := "p"])]

  lemma DemoProbe(disk: Disk)
    requires BASE in disk && disk[BASE] == PROBED
    ensures BaseProbe(DemoCodec(), disk, BASE, Perfect()).Good?
  {
    var c, d := DemoCodec(), DemoDraft(PROBE_NAME, "p");
    assert "p"[0] != "~"[0];
    assert c.decode(PROBE_NAME, "p") == Some(d);
    assert !DraftCrash(c.compiles, d) && GoodDraft(c.compiles, d);
  }

  /** A live tree is served; a probe appears in the base directory; a reload that finds nothing
      wrong leaves what is served without it, although a reading would have it. */
  lemma ReloadCanMissProbe(a: Access)
    ensures var was: Disk := map[BASE := DemoTree("a"), Live(DATA) := DemoTree("b")];
      var sh := Shelf(Live(DATA), Taken(DemoCodec(), was, BASE, Live(DATA), Perfect(), 1), 2);
      && sh.cur.Some?
      && AfterReload(DemoCodec(), was[BASE := PROBED], BASE, sh, true, a) == sh
      && Reading(DemoCodec(), was[BASE := PROBED], BASE, Live(DATA), Perfect()) != Some(sh.cur.value.byName)
  {
    DemoPaths();
    var c, live := DemoCodec(), Live(DATA);
    var was: Disk := map[BASE := DemoTree("a"), live := DemoTree("b")];
    var disk := was[BASE := PROBED];
    assert "b"[0] != "~"[0] && |PROBE_NAME| != |DEFAULT_NAME|;
    DemoReading(was, BASE, live, "b");
    DemoProbe(disk);
    hide Reading, Own, BaseProbe, Live, DemoTree;
    ReloadIsFreshIff(c, was, disk, BASE, live, Perfect(), 1, a);
  }
}
