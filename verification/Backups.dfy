/** Verified copies of a database, and raw copies of a damaged one. */
module Backups {
  import opened Records
  import opened Volumes

  /** `_write_verified_copy`: the logical content of a database, checked. */
  method WriteVerifiedCopy(d: Volume, from: Name, to: Name, version: nat) returns (ok: bool)
    requires to != Target && from != to
    modifies d
    ensures old(d.Reliable()) ==> d.Reliable()
    ensures old(d.Reliable()) && Healthy(Logical(old(d.files), from), version) ==> ok
    ensures Touches(old(d.files), d.files, {to})
    ensures ok ==> Healthy(Logical(old(d.files), from), version) && NoSides(d.files, to)
                   && Main(to) in d.files && d.files[Main(to)] == Image(Logical(old(d.files), from).value)
    ensures Through(old(d.trace), d.trace, {MainOf(old(d.files))})
  {
    hide Logical, Consistent;
    var view := Logical(d.files, from);
    ok := view.Some?;
    if ok { ok := d.Write(Main(to), Image(view.value)); }
    if ok { ok := Healthy(view, version); }
    if ok { ok := d.Quiet(); }
    ghost var written := d.files;
    ExceptTouches(old(d.files), written, {Main(to)}, {to});
    var cleared := d.ClearSides(to);
    FewerTouches(written, d.files, to);
    TouchesJoin(old(d.files), written, d.files, {to}, {to});
    ok := ok && cleared;
  }

  /** `atomic_backup`: the destination is only ever absent, as it was, or a whole
      verified copy; without `force` an existing one is never replaced. */
  method AtomicBackup(d: Volume, from: Name, to: Name, force: bool, version: nat) returns (ok: bool)
    requires to != Target && to != Scratch && from != to && from != Scratch
    modifies d
    ensures old(d.Reliable()) ==> d.Reliable()
    ensures old(d.Reliable()) && Healthy(Logical(old(d.files), from), version) ==>
      NoSides(old(d.files), to) && (force || Main(to) !in old(d.files)) ==> ok
    ensures Touches(old(d.files), d.files, {to, Scratch})
    ensures SameFile(old(d.files), d.files, Main(to))
            || (Healthy(Logical(old(d.files), from), version) && Main(to) in d.files
                && d.files[Main(to)] == Image(Logical(old(d.files), from).value))
    ensures !force && Main(to) in old(d.files) ==> SameFile(old(d.files), d.files, Main(to)) && !ok
    ensures NoSides(old(d.files), to) ==> NoSides(d.files, to)
    ensures ok ==> NoSides(d.files, to) && Main(to) in d.files && Healthy(Logical(old(d.files), from), version)
                   && d.files[Main(to)] == Image(Logical(old(d.files), from).value) && Absent(d.files, Scratch)
    ensures Through(old(d.trace), d.trace, {MainOf(old(d.files))})
  {
    ok := force || Main(to) !in d.files;
    if ok { ok := NoSides(d.files, to); }
    if !ok { return; }
    ok := WriteVerifiedCopy(d, from, Scratch, version);
    ghost var copied := d.files;
    KeepsName(old(d.files), copied, to);
    if ok { ok := d.Publish(Main(Scratch), Main(to), force); }
    ghost var published := d.files;
    ExceptTouches(copied, published, {Main(Scratch), Main(to)}, {to, Scratch});
    TouchesJoin(old(d.files), copied, published, {Scratch}, {to, Scratch});
    KeepsSides(copied, published, to);
    var cleaned := d.Discard(Scratch);
    TouchesJoin(old(d.files), published, d.files, {to, Scratch}, {Scratch});
    KeepsName(published, d.files, to);
    ok := ok && cleaned;
  }

  lemma KeepsName(before: Files, after: Files, name: Name)
    requires Touches(before, after, {Scratch}) && name != Scratch
    ensures SameFile(before, after, Main(name)) && (NoSides(before, name) ==> NoSides(after, name))
  { }

  lemma KeepsSides(before: Files, after: Files, name: Name)
    requires Except(before, after, {Main(Scratch), Main(name)})
    ensures NoSides(before, name) ==> NoSides(after, name)
  {
    forall suffix ensures SameFile(before, after, Side(name, suffix)) {}
  }

  /** `_atomic_raw_copy`: one file, byte for byte, never over an existing one. */
  method RawCopy(d: Volume, from: Path, to: Path) returns (ok: bool)
    requires from.name != Scratch && to.name != Scratch && from != to && to != Main(Target)
    modifies d
    ensures old(d.Reliable()) ==> d.Reliable()
    ensures old(d.Reliable()) && from in old(d.files) && to !in old(d.files) ==> ok
    ensures Except(old(d.files), d.files, {Main(Scratch), to})
    ensures SameFile(old(d.files), d.files, to)
            || (from in old(d.files) && to in d.files && d.files[to] == old(d.files)[from])
    ensures ok ==> from in old(d.files) && to in d.files && d.files[to] == old(d.files)[from]
    ensures Through(old(d.trace), d.trace, {MainOf(old(d.files))})
  {
    ok := from in d.files;
    if ok { ok := d.Write(Main(Scratch), d.files[from]); }
    ghost var written := d.files;
    assert SameFile(old(d.files), written, to);
    MainKept(old(d.files), written, {Main(Scratch)});
    if ok { ok := d.Quiet(); }
    if ok { ok := d.Publish(Main(Scratch), to, false); }
    ghost var published := d.files;
    ExceptJoin(old(d.files), written, published, {Main(Scratch)}, {Main(Scratch), to});
    MainKept(old(d.files), published, {Main(Scratch), to});
    var cleaned := d.Unlink(Main(Scratch));
    ExceptJoin(old(d.files), published, d.files, {Main(Scratch), to}, {Main(Scratch)});
    ok := ok && cleaned;
  }

  method CopySide(d: Volume, from: Name, to: Name, suffix: Suffix) returns (ok: bool)
    requires from != Scratch && to != Scratch && from != to && Side(to, suffix) !in d.files
    modifies d
    ensures old(d.Reliable()) ==> d.Reliable()
    ensures old(d.Reliable()) ==> ok
    ensures Except(old(d.files), d.files, {Main(Scratch), Side(to, suffix)})
    ensures ok ==> SameSide(d.files, from, to, suffix)
    ensures Through(old(d.trace), d.trace, {MainOf(old(d.files))})
  {
    ok := true;
    if Side(from, suffix) in d.files {
      ok := RawCopy(d, Side(from, suffix), Side(to, suffix));
      assert SameFile(old(d.files), d.files, Side(from, suffix));
    }
  }

  /** The sidecars of one name copied to another that has none. */
  method CopySides(d: Volume, from: Name, to: Name) returns (ok: bool)
    requires from != Scratch && to != Scratch && from != to && NoSides(d.files, to)
    modifies d
    ensures old(d.Reliable()) ==> d.Reliable()
    ensures old(d.Reliable()) ==> ok
    ensures Except(old(d.files), d.files, {Main(Scratch), Side(to, Wal), Side(to, Shm), Side(to, Journal)})
    ensures ok ==> forall suffix :: SameSide(d.files, from, to, suffix)
    ensures Through(old(d.trace), d.trace, {MainOf(old(d.files))})
  {
    hide SameSide;
    ok := CopySide(d, from, to, Wal);
    ghost var one := d.files;
    MainKept(old(d.files), one, {Main(Scratch), Side(to, Wal)});
    if !ok { return; }
    assert Side(to, Shm) !in one by { assert SameFile(old(d.files), one, Side(to, Shm)); }
    ok := CopySide(d, from, to, Shm);
    ghost var two := d.files;
    ExceptJoin(old(d.files), one, two, {Main(Scratch), Side(to, Wal)}, {Main(Scratch), Side(to, Shm)});
    MainKept(old(d.files), two, {Main(Scratch), Side(to, Wal)} + {Main(Scratch), Side(to, Shm)});
    if !ok { return; }
    SideKept(one, two, from, to, Wal, Shm);
    assert Side(to, Journal) !in two by { assert SameFile(old(d.files), two, Side(to, Journal)); }
    ok := CopySide(d, from, to, Journal);
    ExceptJoin(old(d.files), two, d.files, {Main(Scratch), Side(to, Wal)} + {Main(Scratch), Side(to, Shm)},
               {Main(Scratch), Side(to, Journal)});
    if !ok { return; }
    SideKept(two, d.files, from, to, Wal, Journal);
    SideKept(two, d.files, from, to, Shm, Journal);
    forall suffix ensures SameSide(d.files, from, to, suffix) {
      match suffix case Wal => case Shm => case Journal =>
    }
  }

  lemma SideKept(before: Files, after: Files, from: Name, to: Name, kept: Suffix, copied: Suffix)
    requires SameSide(before, from, to, kept) && kept != copied && from != to
    requires Except(before, after, {Main(Scratch), Side(to, copied)})
    ensures SameSide(after, from, to, kept)
  {
    assert SameFile(before, after, Side(from, kept)) && SameFile(before, after, Side(to, kept));
  }

  /** `preserve_unhealthy_target`: a database that cannot be verified, kept byte for
      byte with its sidecars. */
  method PreserveUnhealthy(d: Volume, from: Name, to: Name) returns (ok: bool)
    requires from != Scratch && to != Scratch && to != Target && from != to && Absent(d.files, to)
    modifies d
    ensures old(d.Reliable()) ==> d.Reliable()
    ensures old(d.Reliable()) && Main(from) in old(d.files) ==> ok
    ensures Touches(old(d.files), d.files, {to, Scratch})
    ensures ok ==> Main(from) in old(d.files) && SameGroup(d.files, from, to)
    ensures from == Target ==> Through(old(d.trace), d.trace, {MainOf(old(d.files))})
  {
    hide SameSide;
    ok := RawCopy(d, Main(from), Main(to));
    ghost var copied := d.files;
    ExceptTouches(old(d.files), copied, {Main(Scratch), Main(to)}, {to, Scratch});
    MainKept(old(d.files), copied, {Main(Scratch), Main(to)});
    if !ok { return; }
    assert SameFile(old(d.files), copied, Main(from));
    KeepsSides(old(d.files), copied, to);
    ok := CopySides(d, from, to);
    ghost var sides := {Main(Scratch), Side(to, Wal), Side(to, Shm), Side(to, Journal)};
    ExceptTouches(copied, d.files, sides, {to, Scratch});
    TouchesJoin(old(d.files), copied, d.files, {to, Scratch}, {to, Scratch});
    if ok { assert SameFile(copied, d.files, Main(from)) && SameFile(copied, d.files, Main(to)); }
    if ok { ok := d.Quiet(); }
  }
}
