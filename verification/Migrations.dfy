/** The failure-atomic migration of a version-1 database in place. */
module Migrations {
  import opened Records
  import opened Ledger
  import opened Invariants
  import opened Volumes
  import opened Backups
  import opened Restores

  // --- preparation --------------------------------------------------------

  /** A migratable source is a healthy version-1 database with no open session and an
      active actor to record it. */
  predicate Migratable(view: Option<Database>, i: Intent) {
    Healthy(view, 1) && NoOpenSession(view) && Accountable(view.value.tables, i.actor, i.session).Pass?
  }

  /** `_verified_v1_backup`: a verified copy renamed into place. */
  method BackUp(d: Volume) returns (ok: bool)
    requires Absent(d.files, Safety)
    modifies d
    ensures old(d.Reliable()) ==> d.Reliable()
    ensures old(d.Reliable()) && Healthy(Logical(old(d.files), Target), 1) ==> ok
    ensures Touches(old(d.files), d.files, {Safety, Scratch})
    ensures ok ==> Logical(old(d.files), Target).Some? && Main(Safety) in d.files && NoSides(d.files, Safety)
                   && d.files[Main(Safety)] == Image(Logical(old(d.files), Target).value)
    ensures Through(old(d.trace), d.trace, {MainOf(old(d.files))})
  {
    hide Logical, Consistent;
    ok := WriteVerifiedCopy(d, Target, Scratch, 1);
    ghost var copied := d.files;
    KeepsName(old(d.files), copied, Safety);
    if ok { ok := d.Replace(Main(Scratch), Main(Safety)); }
    ghost var published := d.files;
    ExceptTouches(copied, published, {Main(Scratch), Main(Safety)}, {Safety, Scratch});
    TouchesJoin(old(d.files), copied, published, {Scratch}, {Safety, Scratch});
    MainKept(copied, published, {Main(Scratch), Main(Safety)});
    KeepsSides(copied, published, Safety);
    if ok { ok := d.Quiet(); }
    var cleaned := d.Discard(Scratch);
    TouchesJoin(old(d.files), published, d.files, {Safety, Scratch}, {Scratch});
    KeepsName(published, d.files, Safety);
    ok := ok && cleaned;
  }

  /** The version-2 objects applied to a copy, checked, and the migration audited. */
  method WriteUpgrade(d: Volume, i: Intent) returns (ok: bool, auditId: nat)
    modifies d
    ensures old(d.Reliable()) ==> d.Reliable()
    ensures old(d.Reliable()) && Migratable(Logical(old(d.files), Target), i) ==> ok
    ensures Except(old(d.files), d.files, {Main(Staged)})
    ensures ok ==>
      var source := Logical(old(d.files), Target);
      && source.Some? && Recorded(source.value, i).Ok?
      && Main(Staged) in d.files && d.files[Main(Staged)] == Image(Recorded(source.value, i).value)
      && Acceptable(d.files[Main(Staged)], i, auditId)
    ensures Through(old(d.trace), d.trace, {MainOf(old(d.files))})
  {
    hide Logical, Consistent, Recorded, HoldsRecord, Acceptable;
    auditId := 0;
    var source := Logical(d.files, Target);
    ok := source.Some?;
    if !ok { return; }
    if Migratable(source, i) { RecordedIsAcceptable(source.value, i); }
    ok := d.Write(Main(Staged), Image(source.value));
    ghost var copied := d.files;
    MainKept(old(d.files), copied, {Main(Staged)});
    if ok { ok := d.Do(d.files[Main(Staged) := Image(Database(SCHEMA_VERSION, source.value.tables))]); }
    if !ok || !Consistent(source.value.tables) { return false, 0; }
    var recorded := Recorded(source.value, i);
    if recorded.Err? { return false, 0; }
    auditId := |source.value.tables.audit| + 1;
    RecordedAccountable(source.value, i);
    RecordedIsAcceptable(source.value, i);
    ok := d.Do(d.files[Main(Staged) := Image(recorded.value)]);
  }

  /** `_staged_migrated_copy`. */
  method StageUpgrade(d: Volume, i: Intent) returns (ok: bool, cleaned: bool, auditId: nat)
    modifies d
    ensures old(d.Reliable()) ==> d.Reliable()
    ensures old(d.Reliable()) && Migratable(Logical(old(d.files), Target), i) ==> ok
    ensures Touches(old(d.files), d.files, {Staged})
    ensures ok ==>
      var source := Logical(old(d.files), Target);
      && source.Some? && Recorded(source.value, i).Ok?
      && Main(Staged) in d.files && d.files[Main(Staged)] == Image(Recorded(source.value, i).value)
      && Acceptable(d.files[Main(Staged)], i, auditId)
    ensures !ok && cleaned ==> Absent(d.files, Staged)
    ensures Through(old(d.trace), d.trace, {MainOf(old(d.files))})
  {
    hide Logical, Recorded, Acceptable, Migratable;
    cleaned := true;
    ok, auditId := WriteUpgrade(d, i);
    ghost var written := d.files;
    ExceptTouches(old(d.files), written, {Main(Staged)}, {Staged});
    MainKept(old(d.files), written, {Main(Staged)});
    var swept := d.ClearSides(Staged);
    ghost var kept := d.files;
    FewerTouches(written, kept, Staged);
    TouchesJoin(old(d.files), written, kept, {Staged}, {Staged});
    assert SameFile(written, kept, Main(Target));
    ok := ok && swept;
    if !ok {
      cleaned := d.Discard(Staged);
      TouchesJoin(old(d.files), kept, d.files, {Staged}, {Staged});
    }
  }

  lemma RecordedAccountable(source: Database, i: Intent)
    requires Recorded(source, i).Ok?
    ensures Accountable(source.tables, i.actor, i.session).Pass?
  {
  }

  // --- rollback -----------------------------------------------------------

  /** The backup renamed over the target, whose sidecars are cleared before. */
  method RenameBack(d: Volume) returns (ok: bool)
    requires Main(Safety) in d.files
    modifies d
    ensures old(d.Reliable()) ==> ok && d.Reliable()
    ensures Touches(old(d.files), d.files, {Target, Rollback})
    ensures ok ==> Main(Target) in d.files && d.files[Main(Target)] == old(d.files)[Main(Safety)]
                   && NoSides(d.files, Target)
    ensures MainOf(d.files) in {MainOf(old(d.files)), Some(old(d.files)[Main(Safety)])}
    ensures Through(old(d.trace), d.trace, {MainOf(old(d.files)), Some(old(d.files)[Main(Safety)])})
  {
    ok := d.Write(Main(Rollback), d.files[Main(Safety)]);
    ghost var written := d.files;
    ExceptTouches(old(d.files), written, {Main(Rollback)}, {Target, Rollback});
    MainKept(old(d.files), written, {Main(Rollback)});
    if ok { ok := d.Quiet(); }
    if !ok { return; }
    ok := d.ClearSides(Target);
    ghost var cleared := d.files;
    FewerTouches(written, cleared, Target);
    TouchesJoin(old(d.files), written, cleared, {Target, Rollback}, {Target});
    if !ok { return; }
    ok := d.Replace(Main(Rollback), Main(Target));
    ghost var replaced := d.files;
    ExceptTouches(cleared, replaced, {Main(Rollback), Main(Target)}, {Target, Rollback});
    TouchesJoin(old(d.files), cleared, replaced, {Target, Rollback} + {Target}, {Target, Rollback});
    StillNoSides(cleared, replaced);
  }

  /** `_rollback_published_migration`, and whether the result is a version-1 database
      whose integrity checks pass. */
  method RollBackMigration(d: Volume) returns (ok: bool, result: bool)
    requires Main(Safety) in d.files
    modifies d
    ensures old(d.Reliable()) ==> ok && d.Reliable()
    ensures Touches(old(d.files), d.files, {Target, Rollback})
    ensures ok ==> Main(Target) in d.files && d.files[Main(Target)] == old(d.files)[Main(Safety)]
                   && NoSides(d.files, Target)
    ensures ok ==> result == (Logical(d.files, Target).Some? && Logical(d.files, Target).value.version == 1
                              && ForeignKeys(Logical(d.files, Target).value.tables))
    ensures Through(old(d.trace), d.trace, {MainOf(old(d.files)), Some(old(d.files)[Main(Safety)])})
  {
    hide Logical, ForeignKeys, NoSides;
    result := false;
    ok := RenameBack(d);
    ghost var back := d.files;
    var cleaned := d.Unlink(Main(Rollback));
    ghost var after := d.files;
    BackKept(back, after);
    TouchesJoin(old(d.files), back, after, {Target, Rollback}, {Rollback});
    ok := ok && cleaned;
    if ok { ok := d.Quiet(); }
    if ok {
      var view := Logical(d.files, Target);
      result := view.Some? && view.value.version == 1 && ForeignKeys(view.value.tables);
    }
  }

  lemma BackKept(before: Files, after: Files)
    requires after == before || after == before - {Main(Rollback)}
    ensures Touches(before, after, {Rollback}) && SameFile(before, after, Main(Target))
    ensures NoSides(before, Target) ==> NoSides(after, Target)
  {
  }

  // --- the migration ------------------------------------------------------

  /** What the caller is told, as for a restore. */
  datatype Migration =
    | Migrated(auditId: nat)
    | Kept(cleaned: bool)
    | Reverted(succeeded: bool, verified: bool)

  /** The staged database and the verified version-1 backup are ready. */
  ghost predicate Ready(before: Files, after: Files, i: Intent, auditId: nat) {
    var source := Logical(before, Target);
    && Healthy(source, 1) && Recorded(source.value, i).Ok?
    && Main(Staged) in after && after[Main(Staged)] == Image(Recorded(source.value, i).value)
    && Acceptable(after[Main(Staged)], i, auditId)
    && Main(Safety) in after && after[Main(Safety)] == Image(source.value) && NoSides(after, Safety)
  }

  lemma ReadyStays(before: Files, mid: Files, after: Files, i: Intent, auditId: nat)
    requires Ready(before, mid, i, auditId) && Touches(mid, after, {Target})
    ensures Ready(before, after, i, auditId)
  { }

  lemma StagedThenReady(before: Files, saved: Files, staged: Files, i: Intent, auditId: nat)
    requires Touches(saved, staged, {Staged}) && Healthy(Logical(before, Target), 1)
    requires Main(Safety) in saved && NoSides(saved, Safety)
             && saved[Main(Safety)] == Image(Logical(before, Target).value)
    requires Recorded(Logical(before, Target).value, i).Ok? && Main(Staged) in staged
             && staged[Main(Staged)] == Image(Recorded(Logical(before, Target).value, i).value)
             && Acceptable(staged[Main(Staged)], i, auditId)
    ensures Ready(before, staged, i, auditId)
  { }

  /** The backup and the staged upgrade, made beside the target. */
  method StageBeside(d: Volume, i: Intent) returns (ok: bool, cleaned: bool, auditId: nat)
    requires Absent(d.files, Safety) && Absent(d.files, Staged)
    modifies d
    ensures old(d.Reliable()) ==> d.Reliable()
    ensures old(d.Reliable()) && Migratable(Logical(old(d.files), Target), i) ==> ok
    ensures !ok && cleaned ==> Absent(d.files, Staged)
    ensures Touches(old(d.files), d.files, {Safety, Scratch} + {Staged})
    ensures ok ==> Ready(old(d.files), d.files, i, auditId)
    ensures Through(old(d.trace), d.trace, {MainOf(old(d.files))})
  {
    hide Logical, Recorded, Acceptable, Healthy, NoSides, Absent;
    auditId, cleaned := 0, true;
    ok := d.Quiet();
    if ok { ok := Migratable(Logical(d.files, Target), i); }
    ghost var ready := d.files;
    if ok { ok := BackUp(d); }
    ghost var saved := d.files;
    TouchesLogical(ready, saved, {Safety, Scratch}, Target);
    StagedStays(ready, saved);
    if ok {
      ok, cleaned, auditId := StageUpgrade(d, i);
      if ok { StagedThenReady(ready, saved, d.files, i, auditId); }
    }
    TouchesJoin(ready, saved, d.files, {Safety, Scratch}, {Staged});
  }

  /** Validation, backup and staging, and the closing of the source. */
  method Prepare(d: Volume, i: Intent) returns (ok: bool, cleaned: bool, auditId: nat)
    requires Absent(d.files, Safety) && Absent(d.files, Staged)
    modifies d
    ensures old(d.Reliable()) ==> d.Reliable()
    ensures old(d.Reliable()) && Migratable(Logical(old(d.files), Target), i) ==> ok
    ensures !ok && cleaned ==> Absent(d.files, Staged)
    ensures Touches(old(d.files), d.files, {Target, Staged, Safety, Scratch}) && Unharmed(old(d.files), d.files)
    ensures ok ==> Ready(old(d.files), d.files, i, auditId)
    ensures Through(old(d.trace), d.trace, {MainOf(old(d.files)), MainOf(Settled(old(d.files), Target))})
  {
    hide Logical, Settled, Migratable, Ready, Absent, Unharmed;
    ok, cleaned, auditId := StageBeside(d, i);
    ghost var staged := d.files;
    TargetApart(old(d.files), staged);
    var closed := d.Close(Target);
    CloseUnharmed(old(d.files), staged, d.files);
    TouchesJoin(old(d.files), staged, d.files, {Safety, Scratch} + {Staged}, {Target});
    if ok { ReadyStays(old(d.files), staged, d.files, i, auditId); }
    StagedStays(staged, d.files);
    if ok && !closed { cleaned := false; }
    ok := ok && closed;
  }

  lemma StagedStays(before: Files, after: Files)
    requires Touches(before, after, {Safety, Scratch}) || Touches(before, after, {Target})
    ensures Absent(before, Staged) ==> Absent(after, Staged)
  { }

  lemma TargetApart(before: Files, after: Files)
    requires Touches(before, after, {Safety, Scratch} + {Staged})
    ensures SameTarget(before, after) && SameTarget(Settled(before, Target), Settled(after, Target))
    ensures MainOf(after) == MainOf(before)
    ensures MainOf(Settled(after, Target)) == MainOf(Settled(before, Target))
  { }

  /** The contents the target's main file may have during a migration. */
  function MigrationPhases(files: Files, i: Intent): set<Option<Content>> {
    var source := Logical(files, Target);
    {MainOf(files), MainOf(Settled(files, Target))}
    + (if source.Some? && Recorded(source.value, i).Ok? then {Some(Image(Recorded(source.value, i).value))} else {})
  }

  lemma BackupBack(before: Files, ready: Files, after: Files, i: Intent, auditId: nat)
    requires Ready(before, ready, i, auditId)
    requires Main(Target) in after && after[Main(Target)] == ready[Main(Safety)] && NoSides(after, Target)
    ensures Unharmed(before, after)
  {
    hide Recorded, Acceptable, Consistent;
    forall p: Path | p.name == Target ensures SameFile(Settled(before, Target), after, p) {
      if p.Side? { match p.suffix case Wal => case Shm => case Journal => }
    }
  }

  /** `_migrate_while_locked`: for every step that fails or is interrupted, the target
      is migrated, unharmed, or reverted as reported. */
  method Migrate(d: Volume, i: Intent) returns (outcome: Migration)
    requires Absent(d.files, Safety) && Absent(d.files, Staged)
    modifies d
    ensures old(d.Reliable()) && Migratable(Logical(old(d.files), Target), i) ==> outcome.Migrated?
    ensures Touches(old(d.files), d.files, {Target, Staged, Safety, Rollback, Scratch})
    ensures outcome.Migrated? ==>
      var source := Logical(old(d.files), Target);
      && Healthy(source, 1) && Recorded(source.value, i).Ok?
      && MainOf(d.files) == Some(Image(Recorded(source.value, i).value)) && NoSides(d.files, Target)
      && Main(Safety) in d.files && d.files[Main(Safety)] == Image(source.value)
    ensures outcome.Kept? ==>
      Unharmed(old(d.files), d.files) && (outcome.cleaned ==> Absent(d.files, Staged))
    ensures outcome.Reverted? && outcome.succeeded ==> Unharmed(old(d.files), d.files)
    ensures outcome.Reverted? && outcome.verified ==> outcome.succeeded
    ensures Through(old(d.trace), d.trace, MigrationPhases(old(d.files), i))
  {
    hide Logical, Settled, Recorded, Acceptable, Consistent, NoSides, Absent, Unharmed, Migratable;
    var ok, cleaned, auditId := Prepare(d, i);
    ghost var ready := d.files;
    UnharmedReads(old(d.files), ready);
    if !ok { return Kept(cleaned); }
    PhasesHold(old(d.files), ready, i, auditId);
    var published;
    ok, published := PublishAndVerify(d, i, auditId);
    ghost var tried := d.files;
    TouchesJoin(old(d.files), ready, tried, {Target, Staged, Safety, Scratch}, {Target, Staged});
    assert SameFile(ready, tried, Main(Safety));
    if ok { return Migrated(auditId); }
    if published || Main(Staged) !in d.files {
      var done, verified := RollBackMigration(d);
      TouchesJoin(old(d.files), tried, d.files, {Target, Staged, Safety, Scratch} + {Target, Staged},
                  {Target, Rollback});
      if done { BackupBack(old(d.files), ready, d.files, i, auditId); }
      return Reverted(done, done && verified);
    }
    cleaned := d.Discard(Staged);
    TouchesJoin(old(d.files), tried, d.files, {Target, Staged, Safety, Scratch} + {Target, Staged}, {Staged});
    UnharmedThen(old(d.files), ready, d.files);
    return Kept(cleaned);
  }

  lemma PhasesHold(before: Files, ready: Files, i: Intent, auditId: nat)
    requires Ready(before, ready, i, auditId)
    ensures Main(Staged) in ready && Some(ready[Main(Staged)]) in MigrationPhases(before, i)
    ensures Main(Safety) in ready && Some(ready[Main(Safety)]) in MigrationPhases(before, i)
  { }
}
