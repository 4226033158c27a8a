/** The files around one database, and the steps maintenance takes on them. Every
    step can fail before its effect or be interrupted after it. */
module Volumes {
  import opened Records
  import opened Invariants

  // --- files --------------------------------------------------------------

  /** The target database, and the files maintenance makes beside it. The last four
      are temporary or time-stamped names, new for every run. */
  datatype Name = Target | Source | Staged | Safety | Rollback | Scratch
  datatype Suffix = Wal | Shm | Journal
  datatype Path = Main(name: Name) | Side(name: Name, suffix: Suffix)

  datatype Database = Database(version: nat, tables: Tables)

  /** A database file, a sidecar with committed or undone pages, or anything else. */
  datatype Content =
    Image(database: Database) | Frames(database: Database) | Undo(database: Database) | Other(bytes: nat)

  type Files = map<Path, Content>

  /** What SQLite reads through a name: a hot journal or a WAL beside the main file
      decides over it. */
  function Logical(files: Files, name: Name): Option<Database> {
    if Main(name) !in files || !files[Main(name)].Image? then None
    else if Side(name, Journal) in files && files[Side(name, Journal)].Undo? then
      Some(files[Side(name, Journal)].database)
    else if Side(name, Wal) in files && files[Side(name, Wal)].Frames? then Some(files[Side(name, Wal)].database)
    else Some(files[Main(name)].database)
  }

  predicate NoSides(files: Files, name: Name) {
    forall suffix :: Side(name, suffix) !in files
  }

  /** No file of the name exists. */
  predicate Absent(files: Files, name: Name) { Main(name) !in files && NoSides(files, name) }

  function MainOf(files: Files): Option<Content> {
    if Main(Target) in files then Some(files[Main(Target)]) else None
  }

  /** Folding the sidecars into the main file, as closing the last connection may. */
  function Settled(files: Files, name: Name): Files {
    var view := Logical(files, name);
    if view.None? then files
    else (files - {Side(name, Wal), Side(name, Shm), Side(name, Journal)})[Main(name) := Image(view.value)]
  }

  predicate SameFile(before: Files, after: Files, p: Path) {
    (p in before <==> p in after) && (p in before ==> before[p] == after[p])
  }

  /** Only the given files differ. */
  ghost predicate Except(before: Files, after: Files, paths: set<Path>) {
    forall p: Path | p !in paths :: SameFile(before, after, p)
  }

  lemma ExceptJoin(a: Files, b: Files, c: Files, first: set<Path>, second: set<Path>)
    requires Except(a, b, first) && Except(b, c, second)
    ensures Except(a, c, first + second)
  { }

  lemma MainKept(before: Files, after: Files, paths: set<Path>)
    requires Except(before, after, paths) && Main(Target) !in paths
    ensures MainOf(after) == MainOf(before)
  { }

  lemma ExceptTouches(before: Files, after: Files, paths: set<Path>, names: set<Name>)
    requires Except(before, after, paths) && forall p: Path | p in paths :: p.name in names
    ensures Touches(before, after, names)
  {
  }

  /** Only files of the given names differ. */
  ghost predicate Touches(before: Files, after: Files, names: set<Name>) {
    forall p: Path | p.name !in names :: SameFile(before, after, p)
  }

  predicate SameSide(files: Files, from: Name, to: Name, suffix: Suffix) {
    (Side(from, suffix) in files <==> Side(to, suffix) in files)
    && (Side(from, suffix) in files ==> files[Side(from, suffix)] == files[Side(to, suffix)])
  }

  /** The files of `to` are those of `from`, sidecars included. */
  ghost predicate SameGroup(files: Files, from: Name, to: Name) {
    (Main(from) in files <==> Main(to) in files)
    && (Main(from) in files ==> files[Main(from)] == files[Main(to)])
    && forall suffix :: SameSide(files, from, to, suffix)
  }

  /** The target's own files are the same in both. */
  ghost predicate SameTarget(before: Files, after: Files) {
    forall p: Path | p.name == Target :: SameFile(before, after, p)
  }

  /** The target is as it was, its sidecars perhaps folded in. */
  ghost predicate Unharmed(before: Files, after: Files) {
    SameTarget(before, after) || SameTarget(Settled(before, Target), after)
  }

  /** An unharmed target reads as before, and exists as before. */
  lemma UnharmedReads(before: Files, after: Files)
    requires Unharmed(before, after)
    ensures Logical(after, Target) == Logical(before, Target)
    ensures Main(Target) in after <==> Main(Target) in before
    ensures MainOf(after) == MainOf(before) || MainOf(after) == MainOf(Settled(before, Target))
  { }

  /** Some sidecars of a name are gone, and nothing else changed. */
  ghost predicate Fewer(before: Files, after: Files, name: Name) {
    after.Keys <= before.Keys && (forall p | p in after :: after[p] == before[p])
    && forall p | p in before && p !in after :: p.Side? && p.name == name
  }

  lemma FewerJoin(a: Files, b: Files, c: Files, name: Name)
    requires Fewer(a, b, name) && Fewer(b, c, name)
    ensures Fewer(a, c, name)
  { }

  lemma StaysGone(before: Files, after: Files, name: Name, suffix: Suffix)
    requires Fewer(before, after, name) && Side(name, suffix) !in before
    ensures Side(name, suffix) !in after
  { }

  lemma SidesGone(files: Files, name: Name)
    requires Side(name, Wal) !in files && Side(name, Shm) !in files && Side(name, Journal) !in files
    ensures NoSides(files, name)
  {
    forall suffix ensures Side(name, suffix) !in files {
      match suffix case Wal => case Shm => case Journal =>
    }
  }

  lemma FewerTouches(before: Files, after: Files, name: Name)
    requires Fewer(before, after, name)
    ensures Touches(before, after, {name}) && SameFile(before, after, Main(name))
  {
  }

  lemma TouchesJoin(a: Files, b: Files, c: Files, first: set<Name>, second: set<Name>)
    requires Touches(a, b, first) && Touches(b, c, second)
    ensures Touches(a, c, first + second)
  { }

  lemma TouchesLogical(before: Files, after: Files, names: set<Name>, name: Name)
    requires Touches(before, after, names) && name !in names
    ensures Logical(after, name) == Logical(before, name)
    ensures SameFile(before, after, Main(name))
  { }

  // --- what is accepted ---------------------------------------------------

  const SCHEMA_VERSION := 2

  /** `check_database_integrity` and `check_coordination_invariants`. */
  predicate Consistent(tables: Tables) { ForeignKeys(tables) && CheckPasses(tables) }

  predicate Healthy(view: Option<Database>, version: nat) {
    view.Some? && view.value.version == version && Consistent(view.value.tables)
  }

  // --- the main file over time --------------------------------------------

  type Trace = seq<Option<Content>>

  /** Since `before`, the target's main file has only been one of `allowed`. */
  ghost predicate Through(before: Trace, after: Trace, allowed: set<Option<Content>>) {
    before <= after && forall k | |before| <= k < |after| :: after[k] in allowed
  }

  // --- a volume -----------------------------------------------------------

  /** Whether a step fails before its effect, or is interrupted after it; and, for
      closing a connection, whether its sidecars are folded in. */
  datatype Fault = Fault(before: bool, after: bool, settles: bool)

  class Volume {
    var files: Files
    var step: nat
    const faults: nat -> Fault
    ghost var trace: Trace

    constructor (initial: Files, schedule: nat -> Fault)
      ensures files == initial && faults == schedule && step == 0 && trace == []
    {
      files, faults, step, trace := initial, schedule, 0, [];
    }

    /** No step from now on fails or is interrupted. */
    ghost predicate Reliable()
      reads this`step
    {
      forall k | k >= step :: !faults(k).before && !faults(k).after
    }

    /** One atomic step. */
    method Do(next: Files) returns (ok: bool)
      modifies this
      ensures old(Reliable()) ==> Reliable()
      ensures old(Reliable()) ==> ok
      ensures files == old(files) || files == next
      ensures ok ==> files == next
      ensures trace == old(trace) + [MainOf(files)]
    {
      var fault := faults(step);
      step := step + 1;
      ok := false;
      if !fault.before {
        files := next;
        ok := !fault.after;
      }
      trace := trace + [MainOf(files)];
    }

    /** A step with no effect on the files modelled: a flush, a mode change, a query. */
    method Quiet() returns (ok: bool)
      modifies this
      ensures old(Reliable()) ==> Reliable()
      ensures old(Reliable()) ==> ok
      ensures files == old(files)
      ensures trace == old(trace) + [MainOf(files)]
    {
      ok := Do(files);
    }

    /** `unlink(missing_ok=True)`. */
    method Unlink(p: Path) returns (ok: bool)
      modifies this
      ensures old(Reliable()) ==> Reliable()
      ensures old(Reliable()) ==> ok
      ensures files == old(files) || files == old(files) - {p}
      ensures ok ==> p !in files
      ensures trace == old(trace) + [MainOf(files)]
    {
      ok := Do(files - {p});
    }

    /** `os.replace`: atomic, and an error when the source is missing. */
    method Replace(from: Path, to: Path) returns (ok: bool)
      requires from != to
      modifies this
      ensures old(Reliable()) ==> Reliable()
      ensures old(Reliable()) && from in old(files) ==> ok
      ensures files == old(files)
              || (from in old(files) && files == old(files)[to := old(files)[from]] - {from})
      ensures ok ==> from in old(files) && files == old(files)[to := old(files)[from]] - {from}
      ensures trace == old(trace) + [MainOf(files)]
    {
      if from in files {
        ok := Do(files[to := files[from]] - {from});
      } else {
        ok := Quiet();
        ok := false;
      }
    }

    /** `os.link`: atomic, and an error when the name is taken. */
    method Link(from: Path, to: Path) returns (ok: bool)
      modifies this
      ensures old(Reliable()) ==> Reliable()
      ensures old(Reliable()) && from in old(files) && to !in old(files) ==> ok
      ensures files == old(files)
              || (from in old(files) && to !in old(files) && files == old(files)[to := old(files)[from]])
      ensures ok ==> from in old(files) && to !in old(files) && files == old(files)[to := old(files)[from]]
      ensures trace == old(trace) + [MainOf(files)]
    {
      if from in files && to !in files {
        ok := Do(files[to := files[from]]);
      } else {
        ok := Quiet();
        ok := false;
      }
    }

    /** A file written over some time: an interruption leaves part of it. */
    method Write(p: Path, content: Content) returns (ok: bool)
      modifies this
      ensures old(Reliable()) ==> Reliable()
      ensures old(Reliable()) ==> ok
      ensures Except(old(files), files, {p})
      ensures ok ==> files == old(files)[p := content]
      ensures p.name != Target ==> Through(old(trace), trace, {MainOf(old(files))})
    {
      ok := Do(files[p := Other(0)]);
      if ok { ok := Do(files[p := content]); }
    }

    /** Closing the last connection to a database. */
    method Close(name: Name) returns (ok: bool)
      modifies this
      ensures old(Reliable()) ==> Reliable()
      ensures old(Reliable()) ==> ok
      ensures files == old(files) || files == Settled(old(files), name)
      ensures trace == old(trace) + [MainOf(files)]
    {
      ok := Do(if faults(step).settles then Settled(files, name) else files);
    }

    /** `for suffix in ("-wal", "-shm", "-journal"): unlink`. */
    method UnlinkSide(name: Name, suffix: Suffix) returns (ok: bool)
      modifies this
      ensures old(Reliable()) ==> ok && Reliable()
      ensures Fewer(old(files), files, name) && MainOf(files) == MainOf(old(files))
      ensures ok ==> Side(name, suffix) !in files
      ensures trace == old(trace) + [MainOf(old(files))]
    {
      ok := Unlink(Side(name, suffix));
    }

    method ClearSides(name: Name) returns (ok: bool)
      modifies this
      ensures old(Reliable()) ==> Reliable()
      ensures old(Reliable()) ==> ok
      ensures Fewer(old(files), files, name)
      ensures ok ==> NoSides(files, name)
      ensures Through(old(trace), trace, {MainOf(old(files))})
    {
      hide Fewer, MainOf, NoSides;
      ghost var a := files;
      ok := UnlinkSide(name, Wal);
      ghost var b := files;
      if !ok { return; }
      ok := UnlinkSide(name, Shm);
      ghost var c := files;
      FewerJoin(a, b, c, name);
      if !ok { return; }
      ok := UnlinkSide(name, Journal);
      FewerJoin(a, c, files, name);
      FewerJoin(b, c, files, name);
      StaysGone(b, files, name, Wal);
      StaysGone(c, files, name, Shm);
      if ok { SidesGone(files, name); }
    }

    /** The clean-up of a temporary database file. */
    method Discard(name: Name) returns (ok: bool)
      requires name != Target
      modifies this
      ensures old(Reliable()) ==> Reliable()
      ensures old(Reliable()) ==> ok
      ensures Touches(old(files), files, {name})
      ensures ok ==> Absent(files, name)
      ensures Through(old(trace), trace, {MainOf(old(files))})
    {
      ok := Unlink(Main(name));
      if ok {
        ghost var mid := files;
        ok := ClearSides(name);
        FewerTouches(mid, files, name);
      }
    }

    /** `publish_temporary_file`: with `force` the destination is replaced, without
        it never; in every case it is only ever the old or the whole new file. */
    method Publish(from: Path, to: Path, force: bool) returns (ok: bool)
      requires from != to && to != Main(Target) && from != Main(Target)
      modifies this
      ensures old(Reliable()) ==> Reliable()
      ensures old(Reliable()) && from in old(files) && (force || to !in old(files)) ==> ok
      ensures Except(old(files), files, {from, to})
      ensures SameFile(old(files), files, to)
              || (from in old(files) && to in files && files[to] == old(files)[from])
      ensures !force && to in old(files) ==> SameFile(old(files), files, to) && !ok
      ensures ok ==> from in old(files) && to in files && files[to] == old(files)[from] && from !in files
      ensures Through(old(trace), trace, {MainOf(old(files))})
    {
      ok := Quiet();
      if !ok { return; }
      if force {
        ok := Replace(from, to);
      } else {
        ok := Link(from, to);
        if ok { ok := Unlink(from); }
      }
      if ok { ok := Quiet(); }
    }
  }
}
