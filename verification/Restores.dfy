/** The failure-atomic restore: stage, preserve, publish, verify, roll back. */
module Restores {
  import opened Records
  import opened Ledger
  import opened Invariants
  import opened Volumes
  import opened Backups

  // --- staging ------------------------------------------------------------

  /** The replacement of a database, as the ledger records it: `restore` or `migrate`. */
  datatype Intent = Intent(
    action: Action, actor: Id, session: Option<Id>, target: string, detail: string, clock: Clock)

  function IntentEntry(i: Intent): Entry {
    Entry(i.actor, i.session, i.action, DatabaseObject, i.target, Given(i.detail), map[])
  }

  /** The database a replacement publishes: the source's at the current version, with
      the replacement recorded. */
  function Recorded(source: Database, i: Intent): Result<Database> {
    var tables :- Audited(source.tables, i.clock, IntentEntry(i));
    Ok(Database(SCHEMA_VERSION, tables))
  }

  predicate HoldsRecord(database: Database, i: Intent, auditId: nat) {
    1 <= auditId <= |database.tables.audit|
    && database.tables.audit[auditId - 1].action == i.action
    && database.tables.audit[auditId - 1].objectType == DatabaseObject
    && database.tables.audit[auditId - 1].objectId == i.target
  }

  /** The staged content passes the checks made on it before and after publication. */
  predicate Acceptable(content: Content, i: Intent, auditId: nat) {
    content.Image? && Healthy(Some(content.database), SCHEMA_VERSION) && HoldsRecord(content.database, i, auditId)
  }

  /** The source is healthy, and the restore can be attributed in it. */
  predicate Restorable(source: Option<Database>, i: Intent) {
    Healthy(source, SCHEMA_VERSION) && Accountable(source.value.tables, i.actor, i.session).Pass?
  }

  /** Recording the restore leaves a healthy database that holds the record. */
  lemma RecordedIsAcceptable(source: Database, i: Intent)
    requires Consistent(source.tables) && Accountable(source.tables, i.actor, i.session).Pass?
    ensures Recorded(source, i).Ok?
    ensures Acceptable(Image(Recorded(source, i).value), i, |source.tables.audit| + 1)
  {
    hide ChangeRows;
    var s := source.tables;
    var t := Recorded(source, i).value.tables;
    assert t.claims == s.claims && t.tasks == s.tasks && t.agents == s.agents && t.evidence == s.evidence;
    SeenKeepsChecks(s, t);
  }

  lemma SeenKeepsChecks(s: Tables, t: Tables)
    requires t.claims == s.claims && t.tasks == s.tasks && t.agents == s.agents && t.evidence == s.evidence
    requires t.sessions.Keys == s.sessions.Keys
    requires forall x | x in s.sessions :: t.sessions[x].(lastSeen := s.sessions[x].lastSeen) == s.sessions[x]
    requires Consistent(s)
    ensures Consistent(t)
  { }

  /** `_staged_restore_from_source` and `_prepare_restore`: a verified copy of the
      source with the restore audited in it; what it leaves on failure is discarded,
      unless closing the source fails after it. */
  method Stage(d: Volume, i: Intent) returns (ok: bool, cleaned: bool, auditId: nat)
    modifies d
    ensures old(d.Reliable()) ==> d.Reliable()
    ensures old(d.Reliable()) && Restorable(Logical(old(d.files), Source), i) ==> ok
    ensures Touches(old(d.files), d.files, {Staged})
    ensures ok ==>
      var source := Logical(old(d.files), Source);
      && Healthy(source, SCHEMA_VERSION) && Recorded(source.value, i).Ok?
      && Main(Staged) in d.files && d.files[Main(Staged)] == Image(Recorded(source.value, i).value)
      && NoSides(d.files, Staged) && Healthy(Some(Recorded(source.value, i).value), SCHEMA_VERSION)
      && HoldsRecord(Recorded(source.value, i).value, i, auditId)
    ensures !ok && cleaned ==> Absent(d.files, Staged)
    ensures Through(old(d.trace), d.trace, {MainOf(old(d.files))})
  {
    hide Logical, Consistent, Audited, HoldsRecord, Recorded;
    auditId, cleaned := 0, true;
    var source := Logical(d.files, Source);
    if Restorable(source, i) { RecordedIsAcceptable(source.value, i); }
    ok := source.Some?;
    if ok { ok := Healthy(source, SCHEMA_VERSION) && Accountable(source.value.tables, i.actor, i.session).Pass?; }
    if ok { ok := WriteVerifiedCopy(d, Source, Staged, SCHEMA_VERSION); }
    ghost var copied := d.files;
    if ok {
      var recorded := Recorded(source.value, i);
      ok := recorded.Ok?;
      if ok {
        auditId := |source.value.tables.audit| + 1;
        ok := d.Do(d.files[Main(Staged) := Image(recorded.value)]);
        if ok { ok := Healthy(Some(recorded.value), SCHEMA_VERSION) && HoldsRecord(recorded.value, i, auditId); }
        if ok { ok := d.Quiet(); }
      }
    }
    ghost var audited := d.files;
    AuditKeeps(copied, audited);
    TouchesJoin(old(d.files), copied, audited, {Staged}, {Staged});
    if !ok {
      cleaned := d.Discard(Staged);
      TouchesJoin(old(d.files), audited, d.files, {Staged}, {Staged});
    }
    var closed := d.Quiet();
    if ok && !closed { ok, cleaned := false, false; }
  }

  lemma AuditKeeps(before: Files, after: Files)
    requires Except(before, after, {Main(Staged)})
    ensures Touches(before, after, {Staged})
    ensures NoSides(before, Staged) ==> NoSides(after, Staged)
  {
    forall suffix ensures SameFile(before, after, Side(Staged, suffix)) {}
  }

  // --- preserving the target ----------------------------------------------

  predicate HasOpenSession(tables: Tables) {
    exists x | x in tables.sessions :: tables.sessions[x].active
  }

  predicate NoOpenSession(view: Option<Database>) {
    view.None? || !HasOpenSession(view.value.tables)
  }

  /** What `_preserved_target_state` leaves: the target unharmed and, on success, its
      content in the safety copy: a verified image of a healthy database, the bytes of
      one that cannot be verified. */
  ghost predicate Preserved(before: Files, after: Files, verified: bool) {
    Main(Target) in before ==>
      && Main(Safety) in after
      && (verified <==> Healthy(Logical(before, Target), SCHEMA_VERSION))
      && (if verified
          then after[Main(Safety)] == Image(Logical(before, Target).value) && NoSides(after, Safety)
          else SameGroup(after, Target, Safety))
  }

  method Preserve(d: Volume) returns (ok: bool, verified: bool)
    requires Absent(d.files, Safety)
    modifies d
    ensures old(d.Reliable()) ==> d.Reliable()
    ensures old(d.Reliable()) && NoOpenSession(Logical(old(d.files), Target)) ==> ok
    ensures Touches(old(d.files), d.files, {Target, Safety, Scratch}) && Unharmed(old(d.files), d.files)
    ensures ok ==> Preserved(old(d.files), d.files, verified)
    ensures ok ==> NoOpenSession(Logical(old(d.files), Target))
    ensures Through(old(d.trace), d.trace, {MainOf(old(d.files)), MainOf(Settled(old(d.files), Target))})
  {
    hide Logical, Healthy, Settled, HasOpenSession, SameGroup;
    verified := false;
    if Main(Target) !in d.files {
      assert Logical(d.files, Target).None? by { AbsentReads(d.files, Target); }
      return true, false;
    }
    var view := Logical(d.files, Target);
    ok := d.Quiet();
    if ok && view.Some? { ok := !HasOpenSession(view.value.tables); }
    if ok && Healthy(view, SCHEMA_VERSION) {
      ok := AtomicBackup(d, Target, Safety, false, SCHEMA_VERSION);
      verified := true;
    }
    ghost var saved := d.files;
    SavedKeepsTarget(old(d.files), saved);
    var closed := d.Close(Target);
    ok := ok && closed;
    ghost var settled := d.files;
    CloseUnharmed(old(d.files), saved, settled);
    UnharmedReads(old(d.files), settled);
    TouchesJoin(old(d.files), saved, settled, {Safety, Scratch}, {Target});
    if !verified && ok {
      StillAbsent(saved, settled);
      ok := PreserveUnhealthy(d, Target, Safety);
      UnharmedAfter(old(d.files), settled, d.files);
      TouchesJoin(old(d.files), settled, d.files, {Target, Safety, Scratch}, {Safety, Scratch});
      if ok {
        assert SameFile(settled, d.files, Main(Target));
        GroupHasMain(d.files, Target, Safety);
      }
    } else {
      SafetyAfterClose(saved, settled);
    }
  }

  lemma AbsentReads(files: Files, name: Name)
    requires Main(name) !in files
    ensures Logical(files, name).None?
  {
  }

  lemma SavedKeepsTarget(before: Files, saved: Files)
    requires Touches(before, saved, {Safety, Scratch})
    ensures SameTarget(before, saved) && MainOf(saved) == MainOf(before)
    ensures SameTarget(Settled(before, Target), Settled(saved, Target))
    ensures MainOf(Settled(saved, Target)) == MainOf(Settled(before, Target))
  { }

  lemma CloseUnharmed(before: Files, saved: Files, closed: Files)
    requires SameTarget(before, saved) && SameTarget(Settled(before, Target), Settled(saved, Target))
    requires closed == saved || closed == Settled(saved, Target)
    ensures Unharmed(before, closed) && Touches(saved, closed, {Target})
  {
  }

  lemma StillAbsent(before: Files, after: Files)
    requires Touches(before, after, {Target}) && Absent(before, Safety)
    ensures Absent(after, Safety)
  { }

  lemma GroupHasMain(files: Files, from: Name, to: Name)
    requires SameGroup(files, from, to) && Main(from) in files
    ensures Main(to) in files
  {
  }

  lemma UnharmedAfter(before: Files, mid: Files, after: Files)
    requires Unharmed(before, mid) && Touches(mid, after, {Safety, Scratch})
    ensures Unharmed(before, after) && MainOf(after) == MainOf(mid)
  { }

  lemma SameTargetJoin(a: Files, b: Files, c: Files)
    requires SameTarget(a, b) && SameTarget(b, c)
    ensures SameTarget(a, c)
  { }

  lemma SafetyAfterClose(saved: Files, closed: Files)
    requires Touches(saved, closed, {Target})
    ensures SameFile(saved, closed, Main(Safety)) && (NoSides(saved, Safety) ==> NoSides(closed, Safety))
  { }

  // --- rollback -----------------------------------------------------------

  /** The safety copy is a verified image of its own. */
  predicate PlainSafety(files: Files) {
    Main(Safety) in files && files[Main(Safety)].Image? && NoSides(files, Safety)
    && Healthy(Some(files[Main(Safety)].database), SCHEMA_VERSION)
  }

  /** `_rollback_published_restore`. Without an exception the target's files are those
      of the safety copy, sidecars included, or none where there was no target; the
      result says whether that is also verified. */
  method RollBack(d: Volume, existed: bool, kept: bool, verified: bool) returns (ok: bool, result: bool)
    requires existed && kept ==> Main(Safety) in d.files
    requires verified ==> kept
    modifies d
    ensures old(d.Reliable()) ==> d.Reliable()
    ensures old(d.Reliable()) && (!existed || (kept && verified && PlainSafety(old(d.files)))) ==> ok && result
    ensures Touches(old(d.files), d.files, {Target, Rollback, Scratch})
    ensures ok && !existed ==> Absent(d.files, Target)
    ensures ok && existed && kept ==> SameGroup(d.files, Safety, Target)
    ensures ok && result ==> existed ==> kept && verified && Healthy(Logical(d.files, Target), SCHEMA_VERSION)
    ensures Through(old(d.trace), d.trace,
                    {MainOf(old(d.files)),
                     if existed && kept then Some(old(d.files)[Main(Safety)]) else None})
  {
    hide Logical, Healthy, SameGroup, Settled, PlainSafety;
    result := false;
    ok := d.ClearSides(Target);
    ghost var cleared := d.files;
    FewerTouches(old(d.files), cleared, Target);
    SafetyKept(old(d.files), cleared);
    if !ok { return; }
    if !existed {
      ok := d.Unlink(Main(Target));
      TouchesJoin(old(d.files), cleared, d.files, {Target}, {Target});
      if ok {
        StillNoSides(cleared, d.files);
        ok := d.Quiet();
      }
      return ok, ok;
    }
    if !kept { return ok, false; }
    ok := CopyBack(d);
    ghost var back := d.files;
    TouchesJoin(old(d.files), cleared, back, {Target}, {Target, Rollback, Scratch});
    SafetyKept(old(d.files), back);
    if !ok || !verified { return ok, false; }
    SafetyIsMain(back);
    if PlainSafety(back) { PlainSafetyReads(back); }
    result := Healthy(Logical(d.files, Target), SCHEMA_VERSION);
    ok := result;
    if ok { ok := d.Quiet(); }
  }

  lemma SafetyKept(before: Files, after: Files)
    requires Touches(before, after, {Target}) || Touches(before, after, {Target} + {Target, Rollback, Scratch})
    ensures SameFile(before, after, Main(Safety)) && (PlainSafety(before) ==> PlainSafety(after))
  { }

  lemma SafetyIsMain(files: Files)
    requires SameGroup(files, Safety, Target) && Main(Safety) in files
    ensures MainOf(files) == Some(files[Main(Safety)])
  {
  }

  lemma PlainSafetyReads(files: Files)
    requires PlainSafety(files) && SameGroup(files, Safety, Target)
    ensures Healthy(Logical(files, Target), SCHEMA_VERSION)
  {
    hide Consistent;
    assert SameSide(files, Safety, Target, Wal) && SameSide(files, Safety, Target, Journal);
  }

  /** The safety copy and its sidecars put in the target's place. */
  method CopyBack(d: Volume) returns (ok: bool)
    requires Main(Safety) in d.files && NoSides(d.files, Target)
    modifies d
    ensures old(d.Reliable()) ==> ok && d.Reliable()
    ensures Touches(old(d.files), d.files, {Target, Rollback, Scratch})
    ensures ok ==> SameGroup(d.files, Safety, Target)
    ensures Through(old(d.trace), d.trace, {MainOf(old(d.files)), Some(old(d.files)[Main(Safety)])})
  {
    hide SameGroup, SameSide;
    ok := PublishRollback(d);
    ghost var back := d.files;
    ExceptTouches(old(d.files), back, {Main(Rollback), Main(Target)}, {Target, Rollback, Scratch});
    if !ok { return; }
    StillNoSides(old(d.files), back);
    ok := CopySides(d, Safety, Target);
    ghost var sides := {Main(Scratch), Side(Target, Wal), Side(Target, Shm), Side(Target, Journal)};
    ExceptTouches(back, d.files, sides, {Target, Rollback, Scratch});
    TouchesJoin(old(d.files), back, d.files, {Target, Rollback, Scratch}, {Target, Rollback, Scratch});
    if ok {
      assert SameFile(back, d.files, Main(Safety)) && SameFile(back, d.files, Main(Target));
      GroupIs(d.files);
      ok := d.Quiet();
    }
  }

  /** The safety copy's main file renamed over the target. */
  method PublishRollback(d: Volume) returns (ok: bool)
    requires Main(Safety) in d.files
    modifies d
    ensures old(d.Reliable()) ==> d.Reliable()
    ensures old(d.Reliable()) ==> ok
    ensures Except(old(d.files), d.files, {Main(Rollback), Main(Target)})
    ensures MainOf(d.files) == MainOf(old(d.files)) || MainOf(d.files) == Some(old(d.files)[Main(Safety)])
    ensures ok ==> Main(Target) in d.files && d.files[Main(Target)] == old(d.files)[Main(Safety)]
    ensures Through(old(d.trace), d.trace, {MainOf(old(d.files)), Some(old(d.files)[Main(Safety)])})
  {
    ok := d.Write(Main(Rollback), d.files[Main(Safety)]);
    ghost var written := d.files;
    MainKept(old(d.files), written, {Main(Rollback)});
    if ok { ok := d.Quiet(); }
    if ok { ok := d.Replace(Main(Rollback), Main(Target)); }
    ghost var replaced := d.files;
    ExceptJoin(old(d.files), written, replaced, {Main(Rollback)}, {Main(Rollback), Main(Target)});
    var cleaned := d.Unlink(Main(Rollback));
    ExceptJoin(old(d.files), replaced, d.files, {Main(Rollback)} + {Main(Rollback), Main(Target)}, {Main(Rollback)});
    ok := ok && cleaned;
  }

  lemma StillNoSides(before: Files, after: Files)
    requires NoSides(before, Target) && Except(before, after, {Main(Rollback), Main(Target)})
    ensures NoSides(after, Target)
  {
    forall suffix ensures SameFile(before, after, Side(Target, suffix)) {}
  }

  lemma GroupIs(files: Files)
    requires Main(Safety) in files && Main(Target) in files && files[Main(Safety)] == files[Main(Target)]
    requires forall suffix :: SameSide(files, Safety, Target, suffix)
    ensures SameGroup(files, Safety, Target)
  {
  }

  // --- publication --------------------------------------------------------

  /** `os.replace`, the clearing of sidecars and the verification. `published` is the
      flag as the code last assigned it: an interruption between the rename and the
      assignment leaves it false with the staged file gone. */
  method PublishAndVerify(d: Volume, i: Intent, auditId: nat) returns (ok: bool, published: bool)
    requires Main(Staged) in d.files
    modifies d
    ensures old(d.Reliable()) ==> d.Reliable()
    ensures old(d.Reliable()) && Acceptable(old(d.files)[Main(Staged)], i, auditId) ==> ok
    ensures Touches(old(d.files), d.files, {Target, Staged})
    ensures Main(Staged) in d.files ==> d.files == old(d.files) && !published
    ensures Main(Staged) !in d.files ==> MainOf(d.files) == Some(old(d.files)[Main(Staged)])
    ensures ok ==> published && NoSides(d.files, Target) && Main(Staged) !in d.files
    ensures published ==> Main(Staged) !in d.files
    ensures Through(old(d.trace), d.trace, {MainOf(old(d.files)), Some(old(d.files)[Main(Staged)])})
  {
    hide Logical, Consistent, HoldsRecord;
    published := false;
    ok := d.Replace(Main(Staged), Main(Target));
    ghost var moved := d.files;
    ExceptTouches(old(d.files), moved, {Main(Staged), Main(Target)}, {Target, Staged});
    if !ok { return; }
    published := true;
    ok := d.ClearSides(Target);
    ghost var cleared := d.files;
    FewerTouches(moved, cleared, Target);
    TouchesJoin(old(d.files), moved, cleared, {Target, Staged}, {Target});
    assert SameFile(moved, cleared, Main(Staged));
    if ok { ok := d.Quiet(); }
    if ok {
      var view := Logical(d.files, Target);
      if d.files[Main(Target)].Image? { PlainImageReads(d.files, Target); }
      ok := Healthy(view, SCHEMA_VERSION) && HoldsRecord(view.value, i, auditId);
    }
    if ok { ok := d.Quiet(); }
  }

  // --- the restore --------------------------------------------------------

  /** What the caller is told. `cleaned` is false only if removing the staged file
      itself failed. */
  datatype Outcome =
    | Restored(auditId: nat, safetyVerified: bool)
    | Unpublished(cleaned: bool)
    | RolledBack(succeeded: bool, verified: bool)

  /** The content a restore publishes, if its source can be restored at all. */
  function Publishable(files: Files, i: Intent): set<Option<Content>> {
    var source := Logical(files, Source);
    if source.Some? && Recorded(source.value, i).Ok? then {Some(Image(Recorded(source.value, i).value))} else {}
  }

  /** The only contents the target's main file ever has: as it was, as it was with its
      sidecars folded in, or the staged database. */
  function Phases(files: Files, i: Intent): set<Option<Content>> {
    {MainOf(files), MainOf(Settled(files, Target))} + Publishable(files, i)
  }

  /** The target's files, sidecars included, are those from before the restore, at
      most folded together; where there was no target there is none. */
  ghost predicate RolledBackTo(before: Files, after: Files) {
    if Main(Target) in before then Unharmed(before, after) else Absent(after, Target)
  }

  lemma CopiedBack(before: Files, kept: Files, after: Files, verified: bool)
    requires Preserved(before, kept, verified) && Unharmed(before, kept) && Main(Target) in before
    requires Touches(kept, after, {Target, Staged} + {Target, Rollback, Scratch})
    requires SameGroup(after, Safety, Target)
    ensures Unharmed(before, after)
  {
    hide Consistent, Logical;
    assert SameFile(kept, after, Main(Safety));
    forall suffix ensures SameFile(kept, after, Side(Safety, suffix)) {}
    if verified {
      VerifiedBack(before, after);
    } else {
      assert Main(Target) in kept by { UnharmedReads(before, kept); }
      RawBack(kept, after);
      if SameTarget(before, kept) { SameTargetJoin(before, kept, after); }
      else { SameTargetJoin(Settled(before, Target), kept, after); }
    }
  }

  lemma VerifiedBack(before: Files, after: Files)
    requires SameGroup(after, Safety, Target) && Logical(before, Target).Some?
    requires Main(Safety) in after && after[Main(Safety)] == Image(Logical(before, Target).value)
    requires NoSides(after, Safety)
    ensures SameTarget(Settled(before, Target), after)
  {
    forall p: Path | p.name == Target ensures SameFile(Settled(before, Target), after, p) {
      if p.Side? {
        assert SameSide(after, Safety, Target, p.suffix);
        match p.suffix case Wal => case Shm => case Journal =>
      }
    }
  }

  lemma RawBack(kept: Files, after: Files)
    requires SameGroup(kept, Target, Safety) && SameGroup(after, Safety, Target) && Main(Target) in kept
    requires SameFile(kept, after, Main(Safety))
    requires forall suffix :: SameFile(kept, after, Side(Safety, suffix))
    ensures SameTarget(kept, after)
  {
    forall p: Path | p.name == Target ensures SameFile(kept, after, p) {
      if p.Side? {
        assert SameSide(kept, Target, Safety, p.suffix) && SameSide(after, Safety, Target, p.suffix)
               && SameFile(kept, after, Side(Safety, p.suffix));
      }
    }
  }

  lemma GroupReadsBack(files: Files)
    requires SameGroup(files, Target, Safety)
    ensures Logical(files, Target) == Logical(files, Safety)
  {
    assert SameSide(files, Target, Safety, Wal) && SameSide(files, Target, Safety, Journal);
  }

  /** The safety copy reads as the target did, and its main file is one of the
      target's own phases. */
  lemma PreservedReads(before: Files, after: Files, verified: bool)
    requires Preserved(before, after, verified) && Unharmed(before, after) && Main(Target) in before
    ensures Main(Safety) in after && Logical(after, Safety) == Logical(before, Target)
    ensures Some(after[Main(Safety)]) in {MainOf(before), MainOf(Settled(before, Target))}
  {
    hide Consistent, Logical, Settled, SameGroup, Unharmed;
    UnharmedReads(before, after);
    if verified {
      SettledMain(before);
      PlainImageReads(after, Safety);
    } else {
      GroupReadsBack(after);
      GroupMains(after);
    }
  }

  lemma PlainImageReads(files: Files, name: Name)
    requires Main(name) in files && files[Main(name)].Image? && NoSides(files, name)
    ensures Logical(files, name) == Some(files[Main(name)].database)
  {
  }

  lemma SettledMain(files: Files)
    requires Logical(files, Target).Some?
    ensures MainOf(Settled(files, Target)) == Some(Image(Logical(files, Target).value))
  {
  }

  lemma GroupMains(files: Files)
    requires SameGroup(files, Target, Safety) && Main(Safety) in files
    ensures MainOf(files) == Some(files[Main(Safety)])
  {
  }

  lemma StagedApart(before: Files, after: Files)
    requires Touches(before, after, {Staged})
    ensures SameTarget(before, after) && MainOf(after) == MainOf(before)
    ensures Logical(after, Target) == Logical(before, Target)
    ensures Absent(before, Safety) ==> Absent(after, Safety)
    ensures MainOf(Settled(after, Target)) == MainOf(Settled(before, Target))
    ensures SameTarget(Settled(before, Target), Settled(after, Target))
  { }

  lemma UnharmedFrom(before: Files, staged: Files, after: Files)
    requires Touches(before, staged, {Staged}) && Unharmed(staged, after)
    ensures Unharmed(before, after)
  { }

  lemma UnharmedThen(before: Files, mid: Files, after: Files)
    requires Unharmed(before, mid) && Touches(mid, after, {Staged})
    ensures Unharmed(before, after)
  { }

  /** The part of a restore after staging. */
  method PublishOver(d: Volume, i: Intent, auditId: nat) returns (outcome: Outcome)
    requires Main(Staged) in d.files && Absent(d.files, Safety)
    modifies d
    ensures old(d.Reliable()) ==> d.Reliable()
    ensures old(d.Reliable()) && Acceptable(old(d.files)[Main(Staged)], i, auditId) ==>
      NoOpenSession(Logical(old(d.files), Target)) ==> outcome.Restored?
    ensures Touches(old(d.files), d.files, {Target, Staged, Safety, Rollback, Scratch})
    ensures outcome.Restored? ==>
      && outcome.auditId == auditId && MainOf(d.files) == Some(old(d.files)[Main(Staged)])
      && NoSides(d.files, Target)
      && (Main(Target) in old(d.files) ==>
            Main(Safety) in d.files && Logical(d.files, Safety) == Logical(old(d.files), Target))
    ensures outcome.Unpublished? ==>
      Unharmed(old(d.files), d.files) && (outcome.cleaned ==> Absent(d.files, Staged))
    ensures outcome.RolledBack? && outcome.succeeded ==> RolledBackTo(old(d.files), d.files)
    ensures outcome.RolledBack? && outcome.verified ==> outcome.succeeded
    ensures Through(old(d.trace), d.trace,
                    {MainOf(old(d.files)), MainOf(Settled(old(d.files), Target)), Some(old(d.files)[Main(Staged)])})
  {
    hide Logical, Healthy, Settled, Unharmed, Preserved, Absent, NoSides, SameGroup;
    var existed := Main(Target) in d.files;
    var ok, safetyVerified := Preserve(d);
    ghost var kept := d.files;
    UnharmedReads(old(d.files), kept);
    assert SameFile(old(d.files), kept, Main(Staged));
    if ok && existed { PreservedReads(old(d.files), kept, safetyVerified); }
    var published := false;
    if ok { ok, published := PublishAndVerify(d, i, auditId); }
    ghost var tried := d.files;
    TouchesJoin(old(d.files), kept, tried, {Target, Safety, Scratch}, {Target, Staged});
    TouchesLogical(kept, tried, {Target, Staged}, Safety);
    if ok {
      outcome := Restored(auditId, safetyVerified);
    } else if published || Main(Staged) !in d.files {
      var done, verified := RollBack(d, existed, existed, safetyVerified && existed);
      TouchesJoin(old(d.files), tried, d.files, {Target, Safety, Scratch} + {Target, Staged},
                  {Target, Rollback, Scratch});
      TouchesLogical(tried, d.files, {Target, Rollback, Scratch}, Safety);
      TouchesJoin(kept, tried, d.files, {Target, Staged}, {Target, Rollback, Scratch});
      if done && existed { CopiedBack(old(d.files), kept, d.files, safetyVerified); }
      outcome := RolledBack(done, done && verified);
    } else {
      var cleaned := d.Discard(Staged);
      TouchesJoin(old(d.files), tried, d.files, {Target, Safety, Scratch} + {Target, Staged}, {Staged});
      UnharmedThen(old(d.files), kept, d.files);
      outcome := Unpublished(cleaned);
    }
  }

  /** `_restore_while_locked`: for every step that fails or is interrupted, the target
      is restored, unharmed, or rolled back as reported. */
  method Restore(d: Volume, i: Intent) returns (outcome: Outcome)
    requires Absent(d.files, Safety)
    modifies d
    ensures old(d.Reliable()) ==> d.Reliable()
    ensures old(d.Reliable()) && Restorable(Logical(old(d.files), Source), i) ==>
      NoOpenSession(Logical(old(d.files), Target)) ==> outcome.Restored?
    ensures Touches(old(d.files), d.files, {Target, Staged, Safety, Rollback, Scratch})
    ensures outcome.Restored? ==>
      var source := Logical(old(d.files), Source);
      && source.Some? && Recorded(source.value, i).Ok?
      && MainOf(d.files) == Some(Image(Recorded(source.value, i).value)) && NoSides(d.files, Target)
      && HoldsRecord(Recorded(source.value, i).value, i, outcome.auditId)
      && (Main(Target) in old(d.files) ==>
            Main(Safety) in d.files && Logical(d.files, Safety) == Logical(old(d.files), Target))
    ensures outcome.Unpublished? ==>
      Unharmed(old(d.files), d.files) && (outcome.cleaned ==> Absent(d.files, Staged))
    ensures outcome.RolledBack? && outcome.succeeded ==> RolledBackTo(old(d.files), d.files)
    ensures outcome.RolledBack? && outcome.verified ==> outcome.succeeded
    ensures Through(old(d.trace), d.trace, Phases(old(d.files), i))
  {
    hide Logical, Consistent, Settled, Unharmed, Recorded, HoldsRecord, Absent, NoSides;
    var staged, cleaned, auditId := Stage(d, i);
    ghost var ready := d.files;
    StagedApart(old(d.files), ready);
    if !staged {
      SameIsUnharmed(old(d.files), ready);
      return Unpublished(cleaned);
    }
    assert SameFile(old(d.files), ready, Main(Target));
    outcome := PublishOver(d, i, auditId);
    TouchesJoin(old(d.files), ready, d.files, {Staged}, {Target, Staged, Safety, Rollback, Scratch});
    if outcome.Unpublished? || (outcome.RolledBack? && outcome.succeeded && Main(Target) in ready) {
      UnharmedFrom(old(d.files), ready, d.files);
    }
  }

  lemma SameIsUnharmed(before: Files, after: Files)
    requires SameTarget(before, after)
    ensures Unharmed(before, after)
  {
  }
}
