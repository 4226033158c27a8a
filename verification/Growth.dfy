/** How each step extends the ledger and what it attributes to whom. */
module Growth {
  import opened Records
  import opened Ledger
  import opened Protocol
  import opened Correspondence
  import opened Runs
  import opened Invariants
  import opened Sweep
  import Archiving = Archive
  import Redaction
  import Text

  // --- drafts build on the state they start from --------------------------

  /** A row written by `audit redact`. */
  predicate IsRedaction(action: Action, objectType: ObjectType) {
    action == Redact && objectType == AuditObject
  }

  /** One agent's read position moved forward, the others' stayed. */
  ghost predicate Advanced(before: map<Id, int>, after: map<Id, int>, agent: Id) {
    agent in after && after == before[agent := after[agent]]
    && after[agent] >= if agent in before then before[agent] else 0
  }

  /** Before its audit row a draft leaves the ledger and the existing sessions
      alone and moves no read position back; it strikes a row whose text is not marked as
      struck, exactly when its own row says so. */
  ghost predicate Grounded(s: Tables, draft: Result<Draft>) {
    draft.Ok? ==>
      var d := draft.value;
      && d.tables.audit == s.audit && d.tables.changes == s.changes
      && (forall x | x in s.sessions :: x in d.tables.sessions && d.tables.sessions[x] == s.sessions[x])
      && (d.tables.cursors == s.cursors || Advanced(s.cursors, d.tables.cursors, d.entry.objectId))
      && !d.entry.detail.Tombstone?
      && (d.finish.Strike? <==> IsRedaction(d.entry.action, d.entry.objectType))
      && (d.finish.Strike? ==>
            && 1 <= d.finish.auditId <= |s.audit| && d.entry.objectId == Text.Dec(d.finish.auditId)
            && !Redaction.Marked(Redaction.Render(s.audit[d.finish.auditId - 1].detail)))
  }

  lemma WorkGrounded(s: Tables, e: Event)
    requires e.op.AgentAdd? || e.op.AgentUpdate? || e.op.SessionStart? || e.op.SessionHeartbeat?
             || e.op.SessionEnd? || e.op.EvidenceAdd?
    ensures Grounded(s, WorkDraft(s, e))
  {
    hide Changed, SelectedAgentColumns, AgentColumns, HasActiveSession, RequireActor, RequireOpenSession,
      Redaction.Render, Redaction.Marked, Text.Dec;
    match e.op
    case AgentAdd(_, _, _) =>
    case AgentUpdate(_, _, _, _) =>
    case SessionStart(_, _, _) =>
    case SessionHeartbeat(_) =>
    case SessionEnd(_) =>
    case EvidenceAdd(_, _, _) =>
  }

  lemma TaskGrounded(s: Tables, e: Event)
    requires e.op.TaskCreate? || e.op.TaskUpdate? || e.op.TaskAssign? || e.op.TaskStatus?
    ensures Grounded(s, TaskDraft(s, e))
  {
    hide Changed, RequireAssignment, RequireTransition, RequireReference, Listed, Reassigned, AssigneesOf,
      Assigned, NotesChange, StatusName, Unique, AgentsExist, RequireActor, RequireSession, RequireClaimOwnership,
      Redaction.Render, Redaction.Marked;
    match e.op
    case TaskCreate(_, _, _, _) =>
    case TaskUpdate(_, _, _, _) =>
    case TaskAssign(id, added, removed, actor, ifRevision) =>
      if RequireAssignment(s, id, added, removed, actor, e.session, ifRevision).Pass? {
        AssignmentTask(s, id, added, removed, actor, e.session, ifRevision);
      }
    case TaskStatus(_) =>
  }

  lemma AssignmentTask(s: Tables, id: Id, added: seq<Id>, removed: seq<Id>, actor: Id, session: Option<Id>,
                       ifRevision: int)
    requires RequireAssignment(s, id, added, removed, actor, session, ifRevision).Pass?
    ensures id in s.tasks
  {
  }

  lemma NoteGrounded(s: Tables, e: Event)
    requires e.op.MessageSend? || e.op.MessageRedact? || e.op.ReviewAdd? || e.op.AuditRedact?
    ensures Grounded(s, NoteDraft(s, e))
  {
    hide REDACTED_BODY, REVIEW_DECISIONS, RequireActor, Redaction.RedactAudit, Redaction.Render, Redaction.Marked,
      Text.Dec;
    match e.op
    case MessageSend(_, _, _, _, _) =>
    case MessageRedact(_, _, _) =>
    case ReviewAdd(_, _, _, _) =>
    case AuditRedact(auditId, actor, reason) => RedactGrounded(s, auditId, actor, reason, e.session);
  }

  lemma EdgeGrounded(s: Tables, e: Event)
    requires e.op.InboxMarkRead? || e.op.DependencyAdd? || e.op.DependencyResolve?
    ensures Grounded(s, EdgeDraft(s, e))
  {
    hide EdgeName, InboxOwner, RequireActor, Redaction.Render, Redaction.Marked, Text.Dec;
    match e.op
    case InboxMarkRead(_, _) =>
    case DependencyAdd(_, _) =>
    case DependencyResolve(_, _) =>
  }

  lemma RedactGrounded(s: Tables, auditId: nat, actor: Id, reason: string, session: Option<Id>)
    ensures Grounded(s, Redaction.RedactAudit(s, auditId, actor, reason, session))
  {
    hide Text.Dec, Redaction.Render;
  }

  lemma WriteGrounded(s: Tables, m: Moment, w: RecordWrite, session: Option<Id>)
    requires w.Amending? ==> w.action != Redact && !w.detail.Tombstone?
    ensures Grounded(s, WriteRecord(s, m, w, session))
  {
    hide Changed, RequireAmendable, StatusKnown, WithRecords, RecordsOf, ObjectOf;
    if WriteRecord(s, m, w, session).Ok? {
      forall records ensures WithRecords(s, w.kind, records).audit == s.audit
                             && WithRecords(s, w.kind, records).changes == s.changes
                             && WithRecords(s, w.kind, records).sessions == s.sessions
                             && WithRecords(s, w.kind, records).cursors == s.cursors
      {
        WithRecordsOthers(s, w.kind, records);
      }
    }
  }

  lemma LinkedGrounded(s: Tables, e: Event, draft: Result<Draft>)
    requires Grounded(LinksAdded(s, e.op), draft)
    ensures Grounded(s, draft)
  {
  }

  lemma RecordGrounded(s: Tables, e: Event)
    requires WritesRecord(e.op)
    ensures Grounded(s, RecordDraft(s, e))
  {
    hide RecordDraft, WriteRecord;
    if RecordDraft(s, e).Ok? {
      hide Grounded;
      RecordDraftIs(s, e);
      WriteGrounded(LinksAdded(s, e.op), e.at, RecordWriteOf(s, e.op), e.session);
      LinkedGrounded(s, e, RecordDraft(s, e));
    }
  }

  lemma DraftGrounded(s: Tables, e: Event)
    requires Drafted(e.op)
    ensures Grounded(s, DraftOf(s, e))
  {
    hide Grounded, WorkDraft, TaskDraft, NoteDraft, EdgeDraft, RecordDraft;
    if OnWork(e.op) {
      WorkGrounded(s, e);
    } else if OnTask(e.op) {
      TaskGrounded(s, e);
    } else if OnNote(e.op) {
      NoteGrounded(s, e);
    } else if OnEdge(e.op) {
      EdgeGrounded(s, e);
    } else {
      RecordGrounded(s, e);
    }
  }

  // --- the ledger only grows ----------------------------------------------

  /** Equal but for the text. */
  predicate SameRow(a: AuditRow, b: AuditRow) { a.(detail := b.detail) == b }

  predicate SameChange(a: ChangeRow, b: ChangeRow) {
    a.(oldValue := b.oldValue, newValue := b.newValue) == b
  }

  /** No row is removed or changed except in its text, and every new row is
      attributed to a session only while that session is active. */
  ghost predicate Extends(s: Tables, t: Tables) {
    && |s.audit| <= |t.audit| && |s.changes| <= |t.changes|
    && (forall i | 0 <= i < |s.audit| :: SameRow(s.audit[i], t.audit[i]))
    && (forall i | 0 <= i < |s.changes| :: SameChange(s.changes[i], t.changes[i]))
    && (forall i | |s.audit| <= i < |t.audit| ::
          t.audit[i].session.Some? && t.audit[i].session.value in s.sessions
          ==> s.sessions[t.audit[i].session.value].active)
    && (forall x | x in s.sessions ::
          x in t.sessions && t.sessions[x].agent == s.sessions[x].agent
          && (t.sessions[x].active ==> s.sessions[x].active))
  }

  lemma ExtendsTransitive(s: Tables, mid: Tables, t: Tables)
    requires Extends(s, mid) && Extends(mid, t)
    ensures Extends(s, t)
  { }

  lemma ExtendsRows(s: Tables, t: Tables)
    requires Extends(s, t)
    ensures |s.audit| <= |t.audit| && forall i | 0 <= i < |s.audit| :: SameRow(s.audit[i], t.audit[i])
  { }

  lemma AppendedExtends(s: Tables, e: Entry, at: Seconds)
    requires Accountable(s, e.actor, e.session).Pass?
    ensures Extends(s, Appended(s, e, at))
  { }

  lemma TombstonedExtends(s: Tables, auditId: nat)
    ensures Extends(s, Tombstoned(s, auditId))
  {
    hide Sentinel, Struck;
    if 1 <= auditId <= |s.audit| {
      StruckSame(s.changes, auditId, Sentinel(|s.audit|));
    }
  }

  lemma StruckSame(changes: seq<ChangeRow>, auditId: nat, text: string)
    ensures var t := Struck(changes, auditId, text);
      |t| == |changes| && forall i | 0 <= i < |changes| :: SameChange(changes[i], t[i])
  {
  }

  lemma FinishedExtends(s: Tables, finish: Finish)
    ensures Extends(s, Finished(s, finish))
  {
    hide Tombstoned, AgentEdited, CursorStarted, Extends;
    match finish
    case Nothing => GroundedExtends(s, s);
    case StartCursor(agent) => EditsExtend(s, agent, map[], None, 0);
    case EditAgent(agent, profile, active, stamp) => EditsExtend(s, agent, profile, active, stamp);
    case CloseSession(session, stamp) => ClosedExtends(s, session, stamp);
    case Strike(auditId) => TombstonedExtends(s, auditId);
  }

  lemma EditsExtend(s: Tables, agent: Id, profile: Columns, active: Option<bool>, stamp: Seconds)
    ensures Extends(s, CursorStarted(s, agent)) && Extends(s, AgentEdited(s, agent, profile, active, stamp))
  {
    hide Extends;
    GroundedExtends(s, CursorStarted(s, agent));
    GroundedExtends(s, AgentEdited(s, agent, profile, active, stamp));
  }

  lemma ClosedExtends(s: Tables, session: Id, stamp: Seconds)
    ensures Extends(s, SessionClosed(s, session, stamp))
  {
  }

  lemma CommitOk(draft: Result<Draft>, clock: Clock)
    requires Commit(draft, clock).Ok?
    ensures draft.Ok?
  { }

  lemma CommitExtends(s: Tables, draft: Result<Draft>, clock: Clock)
    requires Grounded(s, draft) && Commit(draft, clock).Ok?
    ensures Extends(s, Commit(draft, clock).value)
  {
    hide Appended, Finished, Extends, Accountable;
    var d := draft.value;
    var at := Second(clock(|d.tables.audit|));
    GroundedExtends(s, d.tables);
    AppendedExtends(d.tables, d.entry, at);
    FinishedExtends(Appended(d.tables, d.entry, at), d.finish);
    ExtendsTransitive(s, d.tables, Appended(d.tables, d.entry, at));
    ExtendsTransitive(s, Appended(d.tables, d.entry, at), Finished(Appended(d.tables, d.entry, at), d.finish));
  }

  lemma GroundedExtends(s: Tables, t: Tables)
    requires t.audit == s.audit && t.changes == s.changes
    requires forall x | x in s.sessions :: x in t.sessions && t.sessions[x] == s.sessions[x]
    ensures Extends(s, t)
  {
  }

  lemma ReapedExtends(s: Tables, r: Reaping, stamp: Seconds, clock: Clock)
    requires Accountable(s, r.actor, r.operator).Pass? && r.operator != Some(r.session)
    ensures Extends(s, Reaped(s, r, stamp, clock))
  {
    hide Owned, RecoverClaimRow;
    ReapRowsBy(s, r, clock);
  }

  lemma ReapRowsBy(s: Tables, r: Reaping, clock: Clock)
    ensures forall i | 0 <= i < |ReapRows(s, r, clock)| :: ReapRows(s, r, clock)[i].session == r.operator
  {
    hide Text.Ascending, Owned;
  }

  lemma {:induction false} ReapAllExtends(s: Tables, order: seq<Id>, actor: Id, reason: string,
                                          operator: Option<Id>, stamp: Seconds, clock: Clock)
    requires ReapAll(s, order, actor, reason, operator, stamp, clock).Ok?
    ensures Extends(s, ReapAll(s, order, actor, reason, operator, stamp, clock).value)
    decreases |order|
  {
    hide Reaped, Extends, Accountable;
    if order == [] {
      GroundedExtends(s, s);
    } else {
      var r := Reaping(order[0], actor, reason, operator, false);
      ReapedExtends(s, r, stamp, clock);
      var mid := Reaped(s, r, stamp, clock);
      ReapAllExtends(mid, order[1..], actor, reason, operator, stamp, clock);
      ExtendsTransitive(s, mid, ReapAll(mid, order[1..], actor, reason, operator, stamp, clock).value);
    }
  }

  lemma TakeGrounded(s: Tables, m: Moment, id: Id, agent: Id, session: Id, revision: int, reaped: Option<Id>)
    ensures Grounded(s, TakeTask(s, m, id, agent, session, revision, reaped))
  {
  }

  lemma ClaimExtends(s: Tables, m: Moment, id: Id, agent: Id, session: Option<Id>, ifRevision: int)
    requires ClaimTask(s, m, id, agent, session, ifRevision).Ok?
    ensures Extends(s, ClaimTask(s, m, id, agent, session, ifRevision).value.tables)
  {
    hide Extends, Reaped, Commit, TakeTask, Grounded, Accountable;
    GroundedExtends(s, s);
    if s.tasks[id].revision == ifRevision {
      if s.tasks[id].status == InProgress {
        var holder := s.claims[id].session;
        var r := LeaseReaping(holder, agent, session.value);
        ReapedExtends(s, r, Second(m.stamp), m.clock);
        var mid := Reaped(s, r, Second(m.stamp), m.clock);
        TakeGrounded(mid, m, id, agent, session.value, ifRevision + 1, Some(holder));
        CommitExtends(mid, TakeTask(mid, m, id, agent, session.value, ifRevision + 1, Some(holder)), m.clock);
        ExtendsTransitive(s, mid, ClaimTask(s, m, id, agent, session, ifRevision).value.tables);
      } else {
        TakeGrounded(s, m, id, agent, session.value, ifRevision, None);
        CommitExtends(s, TakeTask(s, m, id, agent, session.value, ifRevision, None), m.clock);
      }
    }
  }

  lemma ArchiveExtends(s: Tables, e: Event)
    requires e.op.ArchiveRun? && Apply(s, e).Ok?
    ensures Extends(s, Apply(s, e).value)
  {
    hide Archiving.EligibleMessages, Archiving.Deletable, Archiving.EligibleTasks, Archiving.ArchiveRecords,
      Archiving.Dropped, Commit, Extends, DraftOf, RecoverSession, SweepSessions, ClaimTask;
    var op := e.op;
    Archiving.ArchiveIsRemoval(s, e.at, op.days, op.actor, e.session, op.force, op.database, op.path);
    var cutoff := Archiving.ArchiveCutoff(e.at, op.days);
    var tasks, messages := Archiving.EligibleTasks(s, cutoff), Archiving.EligibleMessages(s, cutoff);
    GroundedExtends(s, s);
    if tasks != {} || messages != {} {
      Archiving.DroppedOthers(s, tasks, messages);
      CommitExtends(s, Ok(Archiving.Removal(s, tasks, messages, op.actor, e.session, op.database, op.path)),
                    e.at.clock);
    }
  }

  /** Every step only extends the ledger. */
  lemma StepExtends(s: Tables, e: Event)
    ensures Extends(s, Next(s, e))
  {
    hide DraftOf, RecoverSession, SweepSessions, ClaimTask, Archiving.ArchiveRecords, Commit, Extends, Grounded;
    if Apply(s, e).Ok? {
      if Drafted(e.op) {
        DraftedApply(s, e);
        DraftGrounded(s, e);
        CommitExtends(s, DraftOf(s, e), e.at.clock);
      } else {
        match e.op
        case SessionRecover(_, _, _, _, _) => RecoveriesExtend(s, e);
        case SessionSweep(_, _, _, _) => RecoveriesExtend(s, e);
        case TaskClaim(id, agent, ifRevision) => ClaimExtends(s, e.at, id, agent, e.session, ifRevision);
        case ArchiveRun(_, _, _, _, _) => ArchiveExtends(s, e);
      }
    } else {
      GroundedExtends(s, s);
    }
  }

  lemma RecoveriesExtend(s: Tables, e: Event)
    requires (e.op.SessionRecover? || e.op.SessionSweep?) && Apply(s, e).Ok?
    ensures Extends(s, Apply(s, e).value)
  {
    hide Reaped, ReapAll, Extends, Accountable, DraftOf, ClaimTask, Archiving.ArchiveRecords;
    match e.op
    case SessionRecover(id, actor, reason, staleAfter, force) =>
      ReapedExtends(s, Reaping(id, actor, reason, e.session, force), Second(e.at.stamp), e.at.clock);
    case SessionSweep(actor, reason, staleAfter, limit) =>
      ReapAllExtends(s, Oldest(s, Candidates(s, StaleCutoff(e.at.lease, staleAfter), e.session), limit),
                     actor, reason, e.session, Second(e.at.stamp), e.at.clock);
  }

  /** The ledger is append-only over every run, but for text. */
  lemma {:induction false} RunExtends(s: Tables, events: seq<Event>)
    ensures Extends(s, Run(s, events))
    decreases |events|
  {
    hide Extends, Next;
    if events == [] {
      GroundedExtends(s, s);
    } else {
      StepExtends(s, events[0]);
      RunExtends(Next(s, events[0]), events[1..]);
      ExtendsTransitive(s, Next(s, events[0]), Run(s, events));
    }
  }

  /** Fencing: a session that has ended stays ended, and no later row is ever
      attributed to it. */
  lemma {:induction false} EndedStaysOut(s: Tables, events: seq<Event>, session: Id)
    requires session in s.sessions && !s.sessions[session].active
    ensures var t := Run(s, events);
      && session in t.sessions && !t.sessions[session].active
      && |s.audit| <= |t.audit|
      && (forall i | |s.audit| <= i < |t.audit| :: t.audit[i].session != Some(session))
  {
    RunExtends(s, events);
  }
}
