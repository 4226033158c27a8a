/** Tombstones: what a redaction leaves in the ledger, and what `doctor` counts. */
module Tombstones {
  import opened Records
  import opened Ledger
  import opened Protocol
  import opened Runs
  import opened Growth
  import Archiving = Archive
  import Redaction
  import Text

  // --- the two queries of `doctor` ----------------------------------------

  /** `detail GLOB '[[]redacted:[0-9]*]'`. */
  predicate LooksStruck(text: string) {
    |text| >= |MARK| + 2 && MARK <= text && Text.IsDigit(text[|MARK|]) && text[|text| - 1] == ']'
  }

  function LeadingDigits(text: string): (digits: string)
    ensures digits <= text && forall i | 0 <= i < |digits| :: Text.IsDigit(digits[i])
  {
    if text == "" || !Text.IsDigit(text[0]) then "" else [text[0]] + LeadingDigits(text[1..])
  }

  /** `CAST(substr(detail, 11, length(detail) - 11) AS INTEGER)`. */
  function NamedRedaction(text: string): nat
    requires LooksStruck(text)
  {
    Text.Value(LeadingDigits(text[|MARK|..|text| - 1]))
  }

  predicate Redacts(row: AuditRow, auditId: nat) {
    IsRedaction(row.action, row.objectType) && row.objectId == Text.Dec(auditId)
  }

  /** The row's text looks struck but names no redaction of it. */
  predicate Dangles(audit: seq<AuditRow>, i: nat)
    requires i < |audit|
  {
    var text := Redaction.Render(audit[i].detail);
    LooksStruck(text)
    && !(1 <= NamedRedaction(text) <= |audit| && Redacts(audit[NamedRedaction(text) - 1], i + 1))
  }

  function DanglingRows(audit: seq<AuditRow>): set<nat> {
    set i | 0 <= i < |audit| && Dangles(audit, i)
  }

  /** The change rows of no audit row. */
  function OrphanRows(s: Tables): set<nat> {
    set c | 0 <= c < |s.changes| && !(1 <= s.changes[c].auditId <= |s.audit|)
  }

  // --- the invariant ------------------------------------------------------

  /** A struck row names a strictly later redaction of it; every redaction struck
      the row it names. */
  ghost predicate Linked(audit: seq<AuditRow>) {
    && (forall i | 0 <= i < |audit| && audit[i].detail.Tombstone? ::
          i + 1 < audit[i].detail.redaction <= |audit|
          && Redacts(audit[audit[i].detail.redaction - 1], i + 1))
    && (forall r | 0 <= r < |audit| && IsRedaction(audit[r].action, audit[r].objectType) ::
          exists i | 0 <= i < r :: Redacts(audit[r], i + 1) && audit[i].detail == Tombstone(r + 1))
  }

  /** Change rows belong to audit rows, and are struck with them. */
  ghost predicate Attached(audit: seq<AuditRow>, changes: seq<ChangeRow>) {
    forall c | 0 <= c < |changes| ::
      && 1 <= changes[c].auditId <= |audit|
      && (audit[changes[c].auditId - 1].detail.Tombstone? ==>
            changes[c].oldValue == changes[c].newValue == Sentinel(audit[changes[c].auditId - 1].detail.redaction))
  }

  ghost predicate Sound(s: Tables) { Linked(s.audit) && Attached(s.audit, s.changes) }

  // --- steps that strike nothing ------------------------------------------

  predicate PlainRow(row: AuditRow) {
    !row.detail.Tombstone? && !IsRedaction(row.action, row.objectType)
  }

  /** Rows are only added, none a redaction, each with its own change rows. */
  ghost predicate PlainlyGrown(s: Tables, t: Tables) {
    && s.audit <= t.audit && s.changes <= t.changes
    && (forall i | |s.audit| <= i < |t.audit| :: PlainRow(t.audit[i]))
    && (forall c | |s.changes| <= c < |t.changes| :: |s.audit| < t.changes[c].auditId <= |t.audit|)
  }

  lemma PlainlyGrownTransitive(s: Tables, mid: Tables, t: Tables)
    requires PlainlyGrown(s, mid) && PlainlyGrown(mid, t)
    ensures PlainlyGrown(s, t)
  {
  }

  lemma PlainlyGrownSound(s: Tables, t: Tables)
    requires Sound(s) && PlainlyGrown(s, t)
    ensures Sound(t)
  {
    forall r | 0 <= r < |t.audit| && IsRedaction(t.audit[r].action, t.audit[r].objectType)
      ensures exists i | 0 <= i < r :: Redacts(t.audit[r], i + 1) && t.audit[i].detail == Tombstone(r + 1)
    {
      var i :| 0 <= i < r && Redacts(s.audit[r], i + 1) && s.audit[i].detail == Tombstone(r + 1);
      assert t.audit[i] == s.audit[i];
    }
  }

  lemma {:induction false} ChangeRowsNamed(fields: seq<Field>, id: nat, e: Entry, at: Seconds)
    ensures forall c | 0 <= c < |ChangeRows(fields, id, e, at)| :: ChangeRows(fields, id, e, at)[c].auditId == id
    decreases |fields|
  {
    if fields != [] { ChangeRowsNamed(fields[1..], id, e, at); }
  }

  lemma AppendedPlainly(s: Tables, e: Entry, at: Seconds)
    requires !e.detail.Tombstone? && !IsRedaction(e.action, e.objectType)
    ensures PlainlyGrown(s, Appended(s, e, at))
  {
    hide ChangeRows;
    ChangeRowsNamed(FIELDS, |s.audit| + 1, e, at);
  }

  lemma FinishedPlainly(s: Tables, finish: Finish)
    requires !finish.Strike?
    ensures PlainlyGrown(s, Finished(s, finish))
  {
    hide Finished, FinishedAgents, Ended;
    FinishedFields(s, finish);
  }

  lemma ReapedPlainly(s: Tables, r: Reaping, stamp: Seconds, clock: Clock)
    ensures PlainlyGrown(s, Reaped(s, r, stamp, clock))
  {
    hide Owned;
    forall i | 0 <= i < |ReapRows(s, r, clock)| ensures PlainRow(ReapRows(s, r, clock)[i]) {}
  }

  lemma {:induction false} ReapAllPlainly(s: Tables, order: seq<Id>, actor: Id, reason: string,
                                          operator: Option<Id>, stamp: Seconds, clock: Clock)
    requires ReapAll(s, order, actor, reason, operator, stamp, clock).Ok?
    ensures PlainlyGrown(s, ReapAll(s, order, actor, reason, operator, stamp, clock).value)
    decreases |order|
  {
    hide Reaped, Accountable;
    if order != [] {
      var r := Reaping(order[0], actor, reason, operator, false);
      ReapedPlainly(s, r, stamp, clock);
      var mid := Reaped(s, r, stamp, clock);
      ReapAllPlainly(mid, order[1..], actor, reason, operator, stamp, clock);
      PlainlyGrownTransitive(s, mid, ReapAll(mid, order[1..], actor, reason, operator, stamp, clock).value);
    }
  }

  // --- the strike ---------------------------------------------------------

  lemma AppendLength(s: Tables, e: Entry, at: Seconds)
    ensures Appended(s, e, at).audit == s.audit + [RowOf(e, at)]
    ensures s.changes <= Appended(s, e, at).changes
    ensures forall c | |s.changes| <= c < |Appended(s, e, at).changes| ::
      Appended(s, e, at).changes[c].auditId == |s.audit| + 1
  {
    hide ChangeRows;
    ChangeRowsNamed(FIELDS, |s.audit| + 1, e, at);
  }

  /** Every redaction still has struck its row once another row is struck. */
  lemma StrikeKeepsRedactions(s: Tables, e: Entry, at: Seconds, k: nat, r: nat)
    requires Linked(s.audit) && 1 <= k <= |s.audit| && !s.audit[k - 1].detail.Tombstone?
    requires e.objectId == Text.Dec(k) && r <= |s.audit|
    ensures var t := Tombstoned(Appended(s, e, at), k);
      && |t.audit| == |s.audit| + 1
      && (IsRedaction(t.audit[r].action, t.audit[r].objectType) ==>
            exists i | 0 <= i < r :: Redacts(t.audit[r], i + 1) && t.audit[i].detail == Tombstone(r + 1))
  {
    hide Appended, Text.Dec, Sentinel, Struck;
    AppendLength(s, e, at);
    var t := Tombstoned(Appended(s, e, at), k);
    if IsRedaction(t.audit[r].action, t.audit[r].objectType) {
      if r == |s.audit| {
        assert Redacts(t.audit[r], k) && t.audit[k - 1].detail == Tombstone(r + 1);
      } else {
        var i :| 0 <= i < r && Redacts(s.audit[r], i + 1) && s.audit[i].detail == Tombstone(r + 1);
        assert Redacts(t.audit[r], i + 1) && t.audit[i].detail == Tombstone(r + 1);
      }
    }
  }

  lemma StrikeKeepsTombstones(s: Tables, e: Entry, at: Seconds, k: nat, i: nat)
    requires Linked(s.audit) && 1 <= k <= |s.audit| && !e.detail.Tombstone?
    requires IsRedaction(e.action, e.objectType) && e.objectId == Text.Dec(k) && i <= |s.audit|
    ensures var t := Tombstoned(Appended(s, e, at), k);
      && |t.audit| == |s.audit| + 1
      && (t.audit[i].detail.Tombstone? ==>
            i + 1 < t.audit[i].detail.redaction <= |t.audit|
            && Redacts(t.audit[t.audit[i].detail.redaction - 1], i + 1))
  {
    hide Appended, Text.Dec, Sentinel, Struck;
    AppendLength(s, e, at);
    var t := Tombstoned(Appended(s, e, at), k);
    if t.audit[i].detail.Tombstone? && i != k - 1 {
      var r := s.audit[i].detail.redaction - 1;
      assert Redacts(s.audit[r], i + 1) && SameRow(s.audit[r], t.audit[r]);
    }
  }

  /** Appending a redaction and then striking the row it names. */
  lemma StrikeLinks(s: Tables, e: Entry, at: Seconds, k: nat)
    requires Sound(s) && 1 <= k <= |s.audit| && !s.audit[k - 1].detail.Tombstone? && !e.detail.Tombstone?
    requires IsRedaction(e.action, e.objectType) && e.objectId == Text.Dec(k)
    ensures Linked(Tombstoned(Appended(s, e, at), k).audit)
  {
    hide Appended, Tombstoned, Text.Dec, IsRedaction, Redacts;
    StrikeKeepsRedactions(s, e, at, k, 0);
    forall r: nat | r <= |s.audit| { StrikeKeepsRedactions(s, e, at, k, r); }
    forall i: nat | i <= |s.audit| { StrikeKeepsTombstones(s, e, at, k, i); }
  }

  lemma StrikeAttaches(s: Tables, e: Entry, at: Seconds, k: nat)
    requires Sound(s) && 1 <= k <= |s.audit| && !e.detail.Tombstone?
    ensures var t := Tombstoned(Appended(s, e, at), k);
      Attached(t.audit, t.changes)
  {
    hide Appended, Sentinel, Linked;
    AppendLength(s, e, at);
  }

  // --- every step ---------------------------------------------------------

  predicate StruckAt(t: Tables, c: nat)
    requires c < |t.changes|
  {
    1 <= t.changes[c].auditId <= |t.audit| && t.audit[t.changes[c].auditId - 1].detail.Tombstone?
  }

  lemma TombstoneMarked(detail: Detail)
    requires detail.Tombstone?
    ensures Redaction.Marked(Redaction.Render(detail))
  { }

  /** A row's text stays, or, unless it is marked, becomes a tombstone of this step; a change row keeps
      its values unless its audit row is struck. */
  ghost predicate TextKept(s: Tables, t: Tables) {
    && |s.audit| <= |t.audit| && |s.changes| <= |t.changes|
    && (forall i | 0 <= i < |s.audit| ::
          t.audit[i].detail == s.audit[i].detail
          || (!Redaction.Marked(Redaction.Render(s.audit[i].detail)) && t.audit[i].detail.Tombstone?
              && t.audit[i].detail.redaction > |s.audit|))
    && (forall c: nat | c < |s.changes| :: t.changes[c] == s.changes[c] || StruckAt(t, c))
  }

  lemma CommitSound(s: Tables, draft: Result<Draft>, clock: Clock)
    requires Sound(s) && Grounded(s, draft) && Commit(draft, clock).Ok?
    ensures Sound(Commit(draft, clock).value) && TextKept(s, Commit(draft, clock).value)
  {
    hide Appended, Finished, Linked, Attached, Text.Dec, Sentinel, Redaction.Render, Redaction.Marked;
    var d := draft.value;
    var at := Second(clock(|d.tables.audit|));
    var mid := Appended(d.tables, d.entry, at);
    var t := Finished(mid, d.finish);
    if d.finish.Strike? {
      assert t == Tombstoned(mid, d.finish.auditId) by { FinishedStrike(mid, d.finish); }
      var struck := s.audit[d.finish.auditId - 1].detail;
      if struck.Tombstone? { TombstoneMarked(struck); }
      StrikeLinks(d.tables, d.entry, at, d.finish.auditId);
      StrikeAttaches(d.tables, d.entry, at, d.finish.auditId);
      AppendLength(d.tables, d.entry, at);
    } else {
      AppendedPlainly(d.tables, d.entry, at);
      FinishedPlainly(mid, d.finish);
      PlainlyGrownTransitive(d.tables, mid, t);
      PlainlyGrownSound(d.tables, t);
    }
  }

  lemma FinishedStrike(s: Tables, finish: Finish)
    requires finish.Strike?
    ensures Finished(s, finish) == Tombstoned(s, finish.auditId)
  { }

  lemma RecoveriesGrowPlainly(s: Tables, e: Event)
    requires (e.op.SessionRecover? || e.op.SessionSweep?) && Apply(s, e).Ok?
    ensures PlainlyGrown(s, Apply(s, e).value)
  {
    hide Reaped, ReapAll, Accountable, PlainlyGrown, DraftOf, ClaimTask, Archiving.ArchiveRecords;
    match e.op
    case SessionRecover(id, actor, reason, staleAfter, force) =>
      ReapedPlainly(s, Reaping(id, actor, reason, e.session, force), Second(e.at.stamp), e.at.clock);
    case SessionSweep(actor, reason, staleAfter, limit) =>
      ReapAllPlainly(s, Oldest(s, Candidates(s, StaleCutoff(e.at.lease, staleAfter), e.session), limit),
                     actor, reason, e.session, Second(e.at.stamp), e.at.clock);
  }

  lemma TakeGrowsPlainly(s: Tables, m: Moment, id: Id, agent: Id, session: Id, revision: int,
                         reaped: Option<Id>)
    requires Commit(TakeTask(s, m, id, agent, session, revision, reaped), m.clock).Ok?
    ensures PlainlyGrown(s, Commit(TakeTask(s, m, id, agent, session, revision, reaped), m.clock).value)
  {
    hide Appended, Taken;
    var d := TakeTask(s, m, id, agent, session, revision, reaped).value;
    var at := Second(m.clock(|d.tables.audit|));
    AppendedPlainly(d.tables, d.entry, at);
    assert d.tables.audit == s.audit && d.tables.changes == s.changes by {
      TakenLedger(s, id, agent, session, Second(m.stamp));
    }
  }

  lemma TakenLedger(s: Tables, id: Id, agent: Id, session: Id, stamp: Seconds)
    requires id in s.tasks
    ensures Taken(s, id, agent, session, stamp).audit == s.audit
    ensures Taken(s, id, agent, session, stamp).changes == s.changes
  {
  }

  lemma ClaimGrowsPlainly(s: Tables, m: Moment, id: Id, agent: Id, session: Option<Id>, ifRevision: int)
    requires ClaimTask(s, m, id, agent, session, ifRevision).Ok?
    ensures PlainlyGrown(s, ClaimTask(s, m, id, agent, session, ifRevision).value.tables)
  {
    hide Reaped, Commit, TakeTask, Accountable;
    if s.tasks[id].revision == ifRevision {
      if s.tasks[id].status == InProgress {
        var holder := s.claims[id].session;
        var r := LeaseReaping(holder, agent, session.value);
        ReapedPlainly(s, r, Second(m.stamp), m.clock);
        var mid := Reaped(s, r, Second(m.stamp), m.clock);
        TakeGrowsPlainly(mid, m, id, agent, session.value, ifRevision + 1, Some(holder));
        PlainlyGrownTransitive(s, mid, ClaimTask(s, m, id, agent, session, ifRevision).value.tables);
      } else {
        TakeGrowsPlainly(s, m, id, agent, session.value, ifRevision, None);
      }
    }
  }

  lemma StepSound(s: Tables, e: Event)
    requires Sound(s)
    ensures Sound(Next(s, e)) && TextKept(s, Next(s, e))
  {
    hide Sound, DraftOf, RecoverSession, SweepSessions, ClaimTask, Archiving.ArchiveRecords, Commit, Grounded;
    if Apply(s, e).Ok? {
      if Drafted(e.op) {
        DraftedApply(s, e);
        DraftGrounded(s, e);
        CommitSound(s, DraftOf(s, e), e.at.clock);
      } else if e.op.ArchiveRun? {
        ArchiveSound(s, e);
      } else {
        if e.op.TaskClaim? {
          ClaimGrowsPlainly(s, e.at, e.op.id, e.op.agent, e.session, e.op.ifRevision);
        } else {
          RecoveriesGrowPlainly(s, e);
        }
        PlainlyGrownSound(s, Next(s, e));
      }
    }
  }

  lemma ArchiveSound(s: Tables, e: Event)
    requires Sound(s) && e.op.ArchiveRun? && Apply(s, e).Ok?
    ensures Sound(Next(s, e)) && TextKept(s, Next(s, e))
  {
    hide Archiving.EligibleMessages, Archiving.Deletable, Archiving.EligibleTasks, Archiving.ArchiveRecords,
      Archiving.Dropped, Commit, Sound, Text.Dec, DraftOf, RecoverSession, SweepSessions, ClaimTask;
    var op := e.op;
    Archiving.ArchiveIsRemoval(s, e.at, op.days, op.actor, e.session, op.force, op.database, op.path);
    var cutoff := Archiving.ArchiveCutoff(e.at, op.days);
    var tasks, messages := Archiving.EligibleTasks(s, cutoff), Archiving.EligibleMessages(s, cutoff);
    if tasks != {} || messages != {} {
      Archiving.DroppedOthers(s, tasks, messages);
      CommitSound(s, Ok(Archiving.Removal(s, tasks, messages, op.actor, e.session, op.database, op.path)),
                  e.at.clock);
    }
  }

  /** Over every run the ledger stays sound. */
  lemma {:induction false} RunSound(s: Tables, events: seq<Event>)
    requires Sound(s)
    ensures Sound(Run(s, events))
    decreases |events|
  {
    hide Sound, Next;
    if events != [] {
      StepSound(s, events[0]);
      RunSound(Next(s, events[0]), events[1..]);
    }
  }

  lemma SoundInitially()
    ensures Sound(EMPTY)
  {
  }

  // --- what soundness gives -----------------------------------------------

  lemma {:induction false} AllDigits(text: string)
    requires forall i | 0 <= i < |text| :: Text.IsDigit(text[i])
    ensures LeadingDigits(text) == text
  {
    if text != "" { AllDigits(text[1..]); }
  }

  lemma SentinelReads(r: nat)
    ensures LooksStruck(Sentinel(r)) && NamedRedaction(Sentinel(r)) == r
  {
    var text := Sentinel(r);
    assert text[|MARK|..|text| - 1] == Text.Dec(r);
    AllDigits(Text.Dec(r));
    Text.ValueOfDec(r);
  }

  lemma TombstoneText(detail: Detail)
    requires detail.Tombstone?
    ensures LooksStruck(Redaction.Render(detail))
            && NamedRedaction(Redaction.Render(detail)) == detail.redaction
  {
    SentinelReads(detail.redaction);
  }

  lemma DanglesExactly(audit: seq<AuditRow>, i: nat)
    requires Linked(audit) && i < |audit|
    ensures Dangles(audit, i) <==> !audit[i].detail.Tombstone? && LooksStruck(Redaction.Render(audit[i].detail))
  {
    hide Redaction.Render, LooksStruck, Sentinel, NamedRedaction, Text.Dec;
    if audit[i].detail.Tombstone? {
      TombstoneText(audit[i].detail);
    } else if LooksStruck(Redaction.Render(audit[i].detail)) {
      var r := NamedRedaction(Redaction.Render(audit[i].detail));
      if 1 <= r <= |audit| && Redacts(audit[r - 1], i + 1) {
        var k :| 0 <= k < r - 1 && Redacts(audit[r - 1], k + 1) && audit[k].detail == Tombstone(r);
        Text.DecInjective(k + 1, i + 1);
      }
    }
  }

  /** `doctor`'s dangling rows are exactly the rows whose own appended text looks
      struck: a tombstone never dangles, and no such row is ever attested. There
      are no orphans. */
  lemma DoctorCounts(s: Tables)
    requires Sound(s)
    ensures DanglingRows(s.audit)
            == set i | 0 <= i < |s.audit| && !s.audit[i].detail.Tombstone?
                       && LooksStruck(Redaction.Render(s.audit[i].detail))
    ensures OrphanRows(s) == {}
  {
    hide Redaction.Render, Linked, LooksStruck, Dangles;
    forall i: nat | i < |s.audit|
      ensures Dangles(s.audit, i)
              <==> !s.audit[i].detail.Tombstone? && LooksStruck(Redaction.Render(s.audit[i].detail))
    {
      DanglesExactly(s.audit, i);
    }
  }

  // --- trails -------------------------------------------------------------

  ghost predicate IsTrail(audit: seq<AuditRow>, trail: seq<nat>) {
    && |trail| > 0
    && (forall k | 0 <= k < |trail| :: trail[k] < |audit|)
    && (forall k | 0 <= k < |trail| - 1 ::
          trail[k] < trail[k + 1] && audit[trail[k]].detail == Tombstone(trail[k + 1] + 1)
          && Redacts(audit[trail[k + 1]], trail[k] + 1))
    && !audit[trail[|trail| - 1]].detail.Tombstone?
  }

  lemma TrailExtends(audit: seq<AuditRow>, i: nat, rest: seq<nat>)
    requires IsTrail(audit, rest) && i < rest[0] && audit[i].detail == Tombstone(rest[0] + 1)
    requires Redacts(audit[rest[0]], i + 1)
    ensures IsTrail(audit, [i] + rest)
  {
    hide Redacts;
    var trail := [i] + rest;
    forall k | 0 <= k < |trail| - 1
      ensures trail[k] < trail[k + 1] && audit[trail[k]].detail == Tombstone(trail[k + 1] + 1)
              && Redacts(audit[trail[k + 1]], trail[k] + 1)
    {
      if k > 0 { assert trail[k] == rest[k - 1] && trail[k + 1] == rest[k]; }
    }
  }

  /** Following tombstones always ends: the rows met are strictly later each time,
      each redacting the one before, and the last one is not struck. */
  function Trail(audit: seq<AuditRow>, i: nat): (trail: seq<nat>)
    requires Linked(audit) && i < |audit|
    ensures IsTrail(audit, trail) && trail[0] == i
    decreases |audit| - i
  {
    if audit[i].detail.Tombstone? then
      var rest := Trail(audit, audit[i].detail.redaction - 1);
      TrailExtends(audit, i, rest);
      [i] + rest
    else [i]
  }

  /** A tombstone is permanent, also once the redaction it names is redacted. */
  lemma {:induction false} TombstonesStay(s: Tables, events: seq<Event>, i: nat)
    requires Sound(s) && i < |s.audit| && s.audit[i].detail.Tombstone?
    ensures var t := Run(s, events);
      && |s.audit| <= |t.audit| && s.audit[i].detail.redaction <= |t.audit|
      && s.audit[i].detail.redaction > i + 1 && t.audit[i].detail == s.audit[i].detail
      && Redacts(t.audit[s.audit[i].detail.redaction - 1], i + 1)
  {
    hide Run, Attached, Text.Dec, Extends;
    RunExtends(s, events);
    RunSound(s, events);
    var t := Run(s, events);
    ExtendsRows(s, t);
    var r := s.audit[i].detail.redaction - 1;
    assert SameRow(s.audit[r], t.audit[r]) && Redacts(t.audit[r], i + 1);
    var k :| 0 <= k < r && Redacts(t.audit[r], k + 1) && t.audit[k].detail == Tombstone(r + 1);
    Text.DecInjective(k + 1, i + 1);
  }

  // --- when a row can be redacted -----------------------------------------

  /** A redaction commits if and only if the row is there, its text does not begin
      like a tombstone's, and actor and session are accountable. */
  lemma RedactionCommits(s: Tables, clock: Clock, auditId: nat, actor: Id, reason: string, session: Option<Id>)
    ensures Commit(Redaction.RedactAudit(s, auditId, actor, reason, session), clock).Ok?
            <==> 1 <= auditId <= |s.audit| && !Redaction.Marked(Redaction.Render(s.audit[auditId - 1].detail))
                 && Accountable(s, actor, session).Pass?
  {
    hide Redaction.Render, Redaction.Marked, Accountable, Appended, Tombstoned, Text.Dec;
  }

  /** A text that begins like a tombstone's is in the ledger for good, whoever wrote it:
      no run changes it, and every later redaction of its row is refused. */
  lemma {:induction false} MarkedStays(s: Tables, events: seq<Event>, i: nat, actor: Id, reason: string,
                                       session: Option<Id>)
    requires Sound(s) && i < |s.audit| && Redaction.Marked(Redaction.Render(s.audit[i].detail))
    ensures var t := Run(s, events);
      && i < |t.audit| && t.audit[i].detail == s.audit[i].detail
      && Redaction.RedactAudit(t, i + 1, actor, reason, session) == Err(AlreadyRedacted)
    decreases |events|
  {
    hide Sound, Next, Redaction.Render, Redaction.Marked, Text.Dec;
    if events != [] {
      StepSound(s, events[0]);
      MarkedStays(Next(s, events[0]), events[1..], i, actor, reason, session);
    }
  }
}
