/** The objects of the running program: its start, and the report that the watcher keeps. */
module RolloutWatch {
  import opened Config
  import opened Names
  import opened Profiles
  import opened Rollout
  import opened RolloutRuns
  import RolloutApply

  /** The start of the program: LoadProfiles, which it cannot do without, and Bootstrap. */
  method StartUp(c: Codec, disk: Disk, base: string, data: string, load: Access, stat: bool, boot: Access)
    returns (store: Store?)
    ensures store == null <==> Boot(c, disk, base, data, load, stat, boot).None?
    ensures store != null ==>
      fresh(store) && store.base == base && store.State() == Boot(c, disk, base, data, load, stat, boot).value
  {
    hide Reading, ReadPanics, AfterReloadFrom;
    var s := new Store(c, disk, base, load);
    if s.cur.None? { return null; }
    var r := Bootstrap(c, s, disk, data, stat, boot);
    return if r.Crashed? then null else s;
  }

  /** Bootstrap: the live tree of an earlier run is served if it is there and can be. */
  method Bootstrap(c: Codec, store: Store, disk: Disk, data: string, stat: bool, a: Access) returns (r: Checked<bool>)
    modifies store
    ensures r.Crashed? <==> Looks(disk, data, stat) && ReadPanics(c, disk, store.base, Live(data), a)
    ensures !r.Crashed? && Looks(disk, data, stat) ==>
      store.State() == AfterReloadFrom(c, disk, store.base, old(store.State()), Live(data), a)
    ensures !Looks(disk, data, stat) ==> store.State() == old(store.State())
    ensures r.Valid? && r.value ==> store.dir == Live(data) && Reading(c, disk, store.base, Live(data), a).Some?
    ensures r.Valid? && !r.value ==> store.State() == old(store.State())
    ensures !r.Refused?
  {
    hide Reading, ReadPanics;
    if data == "" { return Valid(false); }
    var live := Live(data);
    if !stat || !HasGeneration(disk, data) { return Valid(false); }
    var read := store.ReloadFrom(c, disk, live, a);
    match read {
      case Crashed => return Crashed;
      case Refused(_) => return Valid(false);
      case Valid(_) => return Valid(true);
    }
  }

  /** What a program serves that was just started. */
  ghost predicate StartsWhole(
    c: Codec, base: string, data: string, disk: Disk, was: Disk, m: Manifest, load: Access, sh: Shelf)
  {
    && sh.cur.Some?
    && var served := sh.cur.value.byName;
      || (sh.dir == base && Reading(c, disk, base, base, load) == Some(served))
      || (sh.dir == Live(data) && Live(data) in was && FromTree(c, served, was[Live(data)]))
      || (sh.dir == Live(data) && FromTree(c, served, TreeOf(m)))
  }

  lemma WholeStarts(
    c: Codec, base: string, data: string, disk: Disk, was: Disk, m: Manifest, load: Access, stat: bool, boot: Access)
    requires RolloutApply.Whole(disk, data, was, m) && Boot(c, disk, base, data, load, stat, boot).Some?
    ensures StartsWhole(c, base, data, disk, was, m, load, Boot(c, disk, base, data, load, stat, boot).value)
  {
    var sh := AfterReloadFrom(c, disk, base, Shelf(base, None, 0), base, load);
    if Looks(disk, data, stat) && Reading(c, disk, base, Live(data), boot).Some? {
      ReadingFromTree(c, disk, base, Live(data), boot);
    }
    hide Reading, ReadPanics, FromTree, TreeOf, Live, Listing, HasGeneration;
  }

  /** The program is killed in the middle of an Apply, after any of its steps: a start that succeeds
      on the disk it left serves the base directory, the old tree or the new tree, each entire. */
  lemma KilledAnywhere(
    c: Codec, base: string, data: string, past: seq<Disk>, n: nat, i: nat, was: Disk, m: Manifest,
    load: Access, stat: bool, boot: Access)
    requires RolloutApply.SafeSince(past, n, data, was, m) && n <= i < |past|
    requires Boot(c, past[i], base, data, load, stat, boot).Some?
    ensures StartsWhole(c, base, data, past[i], was, m, load, Boot(c, past[i], base, data, load, stat, boot).value)
  {
    hide Boot, StartsWhole;
    WholeStarts(c, base, data, past[i], was, m, load, stat, boot);
  }

  /** The Applied object: the report, and the step of Watch that keeps it. */
  class Reporter {
    var hash: string
    var rev: int
    var apply: string
    var names: seq<string>

    ghost function Value(): Report reads this { Report(hash, rev, apply, names) }

    constructor ()
      ensures Value() == NO_REPORT
    {
      hash, rev, apply, names := "", 0, "", [];
    }

    method Snapshot() returns (h: string, r: int, a: string, n: seq<string>)
      ensures Report(h, r, a, n) == Value()
    {
      return hash, rev, apply, names;
    }

    method Set(h: string, r: int, a: string, n: seq<string>)
      modifies this
      ensures Value() == Report(h, r, a, n)
    {
      hash, rev, apply, names := h, r, a, n;
    }

    /** One manifest arriving: a known one changes nothing, a failed one changes the outcome only,
        and a fatal one ends the program. */
    method Step(c: Codec, store: Store, host: RolloutApply.Host, data: string, m: Manifest, luck: Luck, ghost s: State)
      returns (alive: bool)
      requires store.base != Staging(data) && store.base != Parked(data)
      requires s.alive && s.world == World(host.trees, store.State()) && s.report == Value()
      modifies this, store, host
      ensures var after := AfterUpdate(c, store.base, data, s, m, luck);
        && alive == after.alive && host.trees == after.world.disk
        && (alive ==> store.State() == after.world.shelf && Value() == after.report)
    {
      hide Roll, Listing, Staging, Parked, PlaceAfter;
      var h, r, a, n := Snapshot();
      if a == APPLY_OK && h == m.hash && r == m.rev { return true; }
      var end := RolloutApply.Apply(c, store, host, data, m, luck);
      match end {
        case Crash => return false;
        case Failure =>
          Set(h, r, APPLY_FAILED, n);
        case Success =>
          var sorted := InOrder(m.profiles.Keys);
          Set(m.hash, m.rev, APPLY_OK, sorted);
      }
      return true;
    }
  }
}
