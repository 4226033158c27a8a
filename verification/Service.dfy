/** The dispatch boundary: every invocation, executed step by step on the database, is
    the event the run theorems speak of. */
module Service {
  import opened Records
  import opened Ledger
  import opened Protocol
  import opened Correspondence
  import opened Runs
  import opened Invariants
  import opened Databases
  import Archiving = Archive
  import Redaction
  import Scopes

  method ExecuteWork(db: Database, e: Event) returns (error: Option<Error>)
    requires OnWork(e.op)
    modifies db
    ensures Follows(old(db.Snapshot()), db.Snapshot(), error, Commit(WorkDraft(old(db.Snapshot()), e), e.at.clock))
    ensures error.None? ==> Receipted(old(db.auditIds), db.auditIds, |old(db.audit)|, |db.audit|)
  {
    hide Commit, AddAgent, UpdateAgent, StartSession, BeatSession, EndSession, AddEvidence, Receipted, Follows;
    match e.op
    case AgentAdd(id, profile, author) => error := db.AddAgent(e.at, id, profile, author, e.session);
    case AgentUpdate(id, profile, active, author) =>
      error := db.UpdateAgent(e.at, id, profile, active, author, e.session);
    case SessionStart(id, agent, harness) => error := db.StartSession(e.at, id, agent, harness);
    case SessionHeartbeat(id) => error := db.BeatSession(e.at, id);
    case SessionEnd(id) => error := db.EndSession(e.at, id);
    case EvidenceAdd(task, uri, actor) => error := db.AddEvidence(e.at, task, uri, actor, e.session);
  }

  method ExecuteTask(db: Database, e: Event) returns (error: Option<Error>)
    requires OnTask(e.op)
    modifies db
    ensures Follows(old(db.Snapshot()), db.Snapshot(), error, Commit(TaskDraft(old(db.Snapshot()), e), e.at.clock))
    ensures error.None? ==> Receipted(old(db.auditIds), db.auditIds, |old(db.audit)|, |db.audit|)
  {
    hide Commit, CreateTask, UpdateTask, AssignTask, ChangeStatus, Receipted, Follows;
    match e.op
    case TaskCreate(id, content, actor, assignees) =>
      error := db.CreateTask(e.at, id, content, actor, assignees, e.session);
    case TaskUpdate(id, content, actor, ifRevision) =>
      error := db.UpdateTask(e.at, id, content, actor, e.session, ifRevision);
    case TaskAssign(id, added, removed, actor, ifRevision) =>
      error := db.AssignTask(e.at, id, added, removed, actor, e.session, ifRevision);
    case TaskStatus(change) => error := db.ChangeStatus(e.at, change.(session := e.session));
  }

  method ExecuteMessage(db: Database, e: Event) returns (error: Option<Error>)
    requires OnNote(e.op)
    modifies db
    ensures Follows(old(db.Snapshot()), db.Snapshot(), error, Commit(NoteDraft(old(db.Snapshot()), e), e.at.clock))
    ensures error.None? ==> Receipted(old(db.auditIds), db.auditIds, |old(db.audit)|, |db.audit|)
  {
    hide Commit, SendMessage, RedactMessage, AddReview, Redaction.RedactAudit, Receipted, Follows;
    match e.op
    case MessageSend(id, actor, recipient, about, body) =>
      error := db.SendMessage(e.at, id, actor, recipient, about, body, e.session);
    case MessageRedact(id, actor, reason) => error := db.RedactMessage(e.at, id, actor, reason, e.session);
    case ReviewAdd(id, about, actor, decision) =>
      error := db.AddReview(e.at, id, about, actor, decision, e.session);
    case AuditRedact(auditId, actor, reason) => error := db.RedactAudit(e.at, auditId, actor, reason, e.session);
  }

  method ExecuteEdge(db: Database, e: Event) returns (error: Option<Error>)
    requires OnEdge(e.op)
    modifies db
    ensures Follows(old(db.Snapshot()), db.Snapshot(), error, Commit(EdgeDraft(old(db.Snapshot()), e), e.at.clock))
    ensures error.None? ==> Receipted(old(db.auditIds), db.auditIds, |old(db.audit)|, |db.audit|)
  {
    hide Commit, MarkInboxRead, AddDependency, ResolveDependency, Receipted, Follows;
    match e.op
    case InboxMarkRead(owner, cursor) => error := db.MarkRead(e.at, owner, cursor, e.session);
    case DependencyAdd(edge, actor) => error := db.AddDependency(e.at, edge, actor, e.session);
    case DependencyResolve(edge, actor) => error := db.ResolveDependency(e.at, edge, actor, e.session);
  }

  method ExecuteRecord(db: Database, e: Event) returns (error: Option<Error>)
    requires WritesRecord(e.op)
    modifies db
    ensures Follows(old(db.Snapshot()), db.Snapshot(), error, Commit(RecordDraft(old(db.Snapshot()), e), e.at.clock))
    ensures error.None? ==> Receipted(old(db.auditIds), db.auditIds, |old(db.audit)|, |db.audit|)
  {
    hide Commit, AddArtifact, ArtifactStatus, UpdateArtifact, AddRecord, DecisionStatus, ResolveEscalation,
      Receipted, Follows, EscalationColumns;
    match e.op
    case ArtifactAdd(id, columns, tasks, reviewers, actor) =>
      error := db.AddArtifact(e.at, id, columns, tasks, reviewers, actor, e.session);
    case ArtifactSetStatus(id, status, ifStatus, because, actor) =>
      error := db.SetArtifactStatus(e.at, id, status, ifStatus, because, actor, e.session);
    case ArtifactUpdate(id, columns, ifStatus, actor) =>
      error := db.UpdateArtifact(e.at, id, columns, ifStatus, actor, e.session);
    case DecisionAdd(id, status, actor) =>
      error := db.AddRecord(e.at, Decision, id, map[Status := status], actor, status, e.session);
    case DecisionSetStatus(id, status, ifStatus, because, note, actor) =>
      error := db.SetDecisionStatus(e.at, id, status, ifStatus, because, note, actor, e.session);
    case EscalationAdd(id, actor) =>
      error := db.AddRecord(e.at, Escalation, id, EscalationColumns("open", "", ""), actor, "", e.session);
    case EscalationResolve(id, status, resolution, followUp, ifStatus, because, actor) =>
      error := db.ResolveEscalation(e.at, id, status, resolution, followUp, ifStatus, because, actor, e.session);
  }

  method ExecuteOther(db: Database, e: Event) returns (error: Option<Error>)
    requires Inv(db.Snapshot()) && !Drafted(e.op)
    modifies db
    ensures Follows(old(db.Snapshot()), db.Snapshot(), error, Apply(old(db.Snapshot()), e))
    ensures error.None? ==> Receipted(old(db.auditIds), db.auditIds, |old(db.audit)|, |db.audit|)
  {
    hide Inv, Commit, DraftOf, RecoverSession, SweepSessions, ClaimTask, Archiving.ArchiveRecords, Receipted;
    match e.op
    case SessionRecover(id, actor, reason, staleAfter, force) =>
      error := db.RecoverSession(e.at, id, actor, reason, e.session, staleAfter, force);
    case SessionSweep(actor, reason, staleAfter, limit) =>
      var recovered, truncated;
      error, recovered, truncated := db.SweepSessions(e.at, actor, reason, e.session, staleAfter, limit);
    case TaskClaim(id, agent, ifRevision) =>
      var receipt;
      error, receipt := db.ClaimTask(e.at, id, agent, e.session, ifRevision);
    case ArchiveRun(days, actor, force, database, path) =>
      error := db.ArchiveRecords(e.at, days, actor, e.session, force, database, path);
  }

  lemma FollowsNext(s: Tables, t: Tables, error: Option<Error>, e: Event)
    requires Follows(s, t, error, Apply(s, e))
    ensures t == Next(s, e)
  {
    hide Apply;
  }

  /** `invoke`: one operation on the database is one event of a run, and its receipt
      the contiguous ids of the rows it appended. */
  method Execute(db: Database, e: Event) returns (error: Option<Error>)
    requires Inv(db.Snapshot())
    modifies db
    ensures Follows(old(db.Snapshot()), db.Snapshot(), error, Apply(old(db.Snapshot()), e))
    ensures db.Snapshot() == Next(old(db.Snapshot()), e) && Inv(db.Snapshot())
    ensures error.None? ==> Receipted(old(db.auditIds), db.auditIds, |old(db.audit)|, |db.audit|)
  {
    hide Inv, Commit, DraftOf, Apply, Next, Receipted, Follows;
    ghost var s := db.Snapshot();
    NextKeeps(s, e);
    if Drafted(e.op) {
      DraftedApply(s, e);
      error := ExecuteDrafted(db, e);
    } else {
      error := ExecuteOther(db, e);
    }
    FollowsNext(s, db.Snapshot(), error, e);
  }

  method ExecuteDrafted(db: Database, e: Event) returns (error: Option<Error>)
    requires Drafted(e.op)
    modifies db
    ensures Follows(old(db.Snapshot()), db.Snapshot(), error, Commit(DraftOf(old(db.Snapshot()), e), e.at.clock))
    ensures error.None? ==> Receipted(old(db.auditIds), db.auditIds, |old(db.audit)|, |db.audit|)
  {
    hide Commit, WorkDraft, TaskDraft, NoteDraft, EdgeDraft, RecordDraft, Receipted, Follows;
    if OnTask(e.op) {
      error := ExecuteTask(db, e);
    } else if WritesRecord(e.op) {
      error := ExecuteRecord(db, e);
    } else if OnWork(e.op) {
      error := ExecuteWork(db, e);
    } else if OnEdge(e.op) {
      error := ExecuteEdge(db, e);
    } else {
      error := ExecuteMessage(db, e);
    }
  }

  /** `invoke` and `_finish`: the operation runs in a scope of its own, whose ids roll up
      into the enclosing one. The receipt of a successful operation is exactly the range of
      the ids of the audit rows its event appended; a failed one has none. */
  method Invoke(db: Database, e: Event) returns (error: Option<Error>, receipt: Option<(nat, nat)>)
    requires Inv(db.Snapshot())
    modifies db
    ensures Follows(old(db.Snapshot()), db.Snapshot(), error, Apply(old(db.Snapshot()), e))
    ensures db.Snapshot() == Next(old(db.Snapshot()), e) && Inv(db.Snapshot())
    ensures error.Some? ==> receipt.None?
    ensures error.None? ==> Receipted(old(db.auditIds), db.auditIds, |old(db.audit)|, |db.audit|)
    ensures error.None? ==>
      receipt == if |db.audit| == |old(db.audit)| then None else Some((|old(db.audit)| + 1, |db.audit|))
  {
    hide Inv, Next, Apply, Follows;
    var outer := db.auditIds;
    db.auditIds := [];
    error := Execute(db, e);
    receipt := None;
    if error.None? && db.auditIds != [] {
      receipt := Some((Scopes.Least(db.auditIds), Scopes.Greatest(db.auditIds)));
      Scopes.ReceiptIsTheRange(db.auditIds, |old(db.audit)| + 1);
    }
    db.auditIds := outer + db.auditIds;
  }

  /** Whole runs on the database: the state is the one the run theorems describe, and
      the coordination check passes after every run. */
  method ExecuteAll(db: Database, events: seq<Event>)
    requires Inv(db.Snapshot())
    modifies db
    ensures db.Snapshot() == Run(old(db.Snapshot()), events)
    ensures Inv(db.Snapshot()) && CheckPasses(db.Snapshot())
  {
    hide Inv, Next, CheckPasses, Apply, Follows, Receipted;
    ghost var s := db.Snapshot();
    assert events[..0] == [] && Run(s, []) == s;
    for i := 0 to |events|
      invariant Inv(db.Snapshot()) && db.Snapshot() == Run(s, events[..i])
    {
      assert events[..i + 1] == events[..i] + [events[i]];
      RunAppend(s, events[..i], [events[i]]);
      RunOne(Run(s, events[..i]), events[i]);
      var error := Execute(db, events[i]);
    }
    assert events[..|events|] == events;
    InvPassesCheck(db.Snapshot());
  }

  lemma RunOne(s: Tables, e: Event)
    ensures Run(s, [e]) == Next(s, e)
  {
    hide Next;
    assert [e][1..] == [];
  }
}
