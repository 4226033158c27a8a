/** Every mutating operation of the runtime as an event, and runs of events. */
module Runs {
  import opened Records
  import opened Ledger
  import opened Protocol
  import opened Correspondence
  import Archiving = Archive
  import Redaction

  datatype Op =
    | AgentAdd(id: Id, profile: Profile, author: Option<Id>)
    | AgentUpdate(id: Id, profile: Profile, active: Option<bool>, author: Option<Id>)
    | SessionStart(id: Id, agent: Id, harness: string)
    | SessionHeartbeat(id: Id)
    | SessionEnd(id: Id)
    | SessionRecover(id: Id, actor: Id, reason: string, staleAfter: Seconds, force: bool)
    | SessionSweep(actor: Id, reason: string, staleAfter: Seconds, limit: nat)
    | TaskCreate(id: Id, content: TaskContent, actor: Id, assignees: seq<Id>)
    | TaskUpdate(id: Id, content: TaskContent, actor: Id, ifRevision: int)
    | TaskAssign(id: Id, added: seq<Id>, removed: seq<Id>, actor: Id, ifRevision: int)
    | TaskStatus(change: StatusChange)
    | TaskClaim(id: Id, agent: Id, ifRevision: int)
    | EvidenceAdd(task: Id, uri: string, actor: Id)
    | MessageSend(id: Id, actor: Id, recipient: string, about: Option<Id>, body: string)
    | MessageRedact(id: Id, actor: Id, reason: string)
    | InboxMarkRead(owner: Option<Id>, cursor: nat)
    | DependencyAdd(edge: Edge, actor: Id)
    | DependencyResolve(edge: Edge, actor: Id)
    | ReviewAdd(id: Id, about: Option<Id>, actor: Id, decision: string)
    | ArtifactAdd(id: Id, columns: Columns, tasks: seq<Id>, reviewers: seq<Id>, actor: Id)
    | ArtifactSetStatus(id: Id, status: string, ifStatus: Option<string>, because: Option<Reference>, actor: Id)
    | ArtifactUpdate(id: Id, selected: ArtifactEdit, ifStatus: Option<string>, actor: Id)
    | DecisionAdd(id: Id, status: string, actor: Id)
    | DecisionSetStatus(id: Id, status: string, ifStatus: Option<string>, because: Option<Reference>,
                        note: string, actor: Id)
    | EscalationAdd(id: Id, actor: Id)
    | EscalationResolve(id: Id, status: string, resolution: string, followUp: string,
                        ifStatus: Option<string>, because: Option<Reference>, actor: Id)
    | AuditRedact(auditId: nat, actor: Id, reason: string)
    | ArchiveRun(days: nat, actor: Id, force: bool, database: string, path: string)

  /** One invocation: the operation, the global `--session`, and its clock. */
  datatype Event = Event(op: Op, session: Option<Id>, at: Moment)

  /** The operations whose transaction writes one audit row. */
  predicate Drafted(op: Op) {
    !op.SessionRecover? && !op.SessionSweep? && !op.TaskClaim? && !op.ArchiveRun?
  }

  // The operations whose transaction writes one audit row, by what they are about.

  predicate OnWork(op: Op) {
    op.AgentAdd? || op.AgentUpdate? || op.SessionStart? || op.SessionHeartbeat? || op.SessionEnd?
    || op.EvidenceAdd?
  }

  predicate OnTask(op: Op) {
    op.TaskCreate? || op.TaskUpdate? || op.TaskAssign? || op.TaskStatus?
  }

  predicate OnNote(op: Op) {
    op.MessageSend? || op.MessageRedact? || op.ReviewAdd? || op.AuditRedact?
  }

  predicate OnEdge(op: Op) {
    op.InboxMarkRead? || op.DependencyAdd? || op.DependencyResolve?
  }

  predicate WritesRecord(op: Op) {
    op.ArtifactAdd? || op.ArtifactSetStatus? || op.ArtifactUpdate? || op.DecisionAdd?
    || op.DecisionSetStatus? || op.EscalationAdd? || op.EscalationResolve?
  }

  function WorkDraft(s: Tables, e: Event): Result<Draft>
    requires OnWork(e.op)
  {
    match e.op
    case AgentAdd(id, profile, author) => AddAgent(s, e.at, id, profile, author, e.session)
    case AgentUpdate(id, profile, active, author) =>
      UpdateAgent(s, e.at, id, profile, active, author, e.session)
    case SessionStart(id, agent, harness) => StartSession(s, e.at, id, agent, harness)
    case SessionHeartbeat(id) => BeatSession(s, id)
    case SessionEnd(id) => EndSession(s, e.at, id)
    case EvidenceAdd(task, uri, actor) => AddEvidence(s, e.at, task, uri, actor, e.session)
  }

  function TaskDraft(s: Tables, e: Event): Result<Draft>
    requires OnTask(e.op)
  {
    match e.op
    case TaskCreate(id, content, actor, assignees) =>
      CreateTask(s, e.at, id, content, actor, assignees, e.session)
    case TaskUpdate(id, content, actor, ifRevision) =>
      UpdateTask(s, e.at, id, content, actor, e.session, ifRevision)
    case TaskAssign(id, added, removed, actor, ifRevision) =>
      AssignTask(s, e.at, id, added, removed, actor, e.session, ifRevision)
    case TaskStatus(change) => ChangeStatus(s, e.at, change.(session := e.session))
  }

  function NoteDraft(s: Tables, e: Event): Result<Draft>
    requires OnNote(e.op)
  {
    match e.op
    case MessageSend(id, actor, recipient, about, body) =>
      SendMessage(s, e.at, id, actor, recipient, about, body, e.session)
    case MessageRedact(id, actor, reason) => RedactMessage(s, id, actor, reason, e.session)
    case ReviewAdd(id, about, actor, decision) => AddReview(s, e.at, id, about, actor, decision, e.session)
    case AuditRedact(auditId, actor, reason) => Redaction.RedactAudit(s, auditId, actor, reason, e.session)
  }

  function EdgeDraft(s: Tables, e: Event): Result<Draft>
    requires OnEdge(e.op)
  {
    match e.op
    case InboxMarkRead(owner, cursor) => MarkInboxRead(s, owner, cursor, e.session)
    case DependencyAdd(edge, actor) => AddDependency(s, edge, actor, e.session)
    case DependencyResolve(edge, actor) => ResolveDependency(s, edge, actor, e.session)
  }

  function RecordDraft(s: Tables, e: Event): Result<Draft>
    requires WritesRecord(e.op)
  {
    match e.op
    case ArtifactAdd(id, columns, tasks, reviewers, actor) =>
      AddArtifact(s, e.at, id, columns, tasks, reviewers, actor, e.session)
    case ArtifactSetStatus(id, status, ifStatus, because, actor) =>
      ArtifactStatus(s, e.at, id, status, ifStatus, because, actor, e.session)
    case ArtifactUpdate(id, columns, ifStatus, actor) =>
      UpdateArtifact(s, e.at, id, columns, ifStatus, actor, e.session)
    case DecisionAdd(id, status, actor) => AddDecision(s, e.at, id, status, actor, e.session)
    case DecisionSetStatus(id, status, ifStatus, because, note, actor) =>
      DecisionStatus(s, e.at, id, status, ifStatus, because, note, actor, e.session)
    case EscalationAdd(id, actor) => AddEscalation(s, e.at, id, actor, e.session)
    case EscalationResolve(id, status, resolution, followUp, ifStatus, because, actor) =>
      ResolveEscalation(s, e.at, id, status, resolution, followUp, ifStatus, because, actor, e.session)
  }

  function DraftOf(s: Tables, e: Event): Result<Draft>
    requires Drafted(e.op)
  {
    if OnWork(e.op) then WorkDraft(s, e)
    else if OnTask(e.op) then TaskDraft(s, e)
    else if OnNote(e.op) then NoteDraft(s, e)
    else if OnEdge(e.op) then EdgeDraft(s, e)
    else RecordDraft(s, e)
  }

  /** The record an operation writes. */
  function RecordWriteOf(s: Tables, op: Op): RecordWrite
    requires WritesRecord(op)
  {
    match op
    case ArtifactAdd(id, columns, _, _, actor) => Adding(Artifact, id, columns, actor, Get(columns, Uri))
    case DecisionAdd(id, status, actor) => Adding(Decision, id, map[Status := status], actor, status)
    case EscalationAdd(id, actor) => Adding(Escalation, id, EscalationColumns("open", "", ""), actor, "")
    case ArtifactSetStatus(id, status, ifStatus, because, actor) =>
      Amending(Artifact, id, map[Status := status], ifStatus, because, actor, StatusAction,
               Ruling(s, Artifact, id, status, because, ""))
    case ArtifactUpdate(id, columns, ifStatus, actor) =>
      Amending(Artifact, id, columns, ifStatus, None, actor, Update, FieldsLine(columns.Keys, None))
    case DecisionSetStatus(id, status, ifStatus, because, note, actor) =>
      Amending(Decision, id, map[Status := status], ifStatus, because, actor, StatusAction,
               Ruling(s, Decision, id, status, because, note))
    case EscalationResolve(id, status, resolution, followUp, ifStatus, because, actor) =>
      Amending(Escalation, id, EscalationColumns(status, resolution, followUp), ifStatus, because, actor,
               Resolve, Ruling(s, Escalation, id, status, because, ""))
  }

  /** An artifact's task links and reviewers are inserted with it. */
  function LinksAdded(s: Tables, op: Op): Tables {
    if op.ArtifactAdd?
    then s.(artifactTasks := s.artifactTasks + Links(op.id, op.tasks),
            artifactReviewers := s.artifactReviewers + Links(op.id, op.reviewers))
    else s
  }

  /** Every record operation that passes its own checks is one of the two writes. */
  lemma RecordDraftIs(s: Tables, e: Event)
    requires WritesRecord(e.op) && RecordDraft(s, e).Ok?
    ensures RecordDraft(s, e) == WriteRecord(LinksAdded(s, e.op), e.at, RecordWriteOf(s, e.op), e.session)
    ensures e.op.ArtifactAdd? ==> forall t | t in e.op.tasks :: t in s.tasks
  {
    hide AddRecord, Amend, EscalationColumns, Ruling, UriFree, StatusKnown, Unique, AgentsExist;
    match e.op
    case ArtifactAdd(_, _, _, _, _) =>
    case DecisionAdd(_, _, _) =>
    case EscalationAdd(_, _) =>
    case ArtifactSetStatus(_, _, _, _, _) =>
    case ArtifactUpdate(_, _, _, _) =>
    case DecisionSetStatus(_, _, _, _, _, _) =>
    case EscalationResolve(_, _, _, _, _, _, _) =>
  }

  /** What the invocation commits, or why it is refused. */
  function Apply(s: Tables, e: Event): Result<Tables> {
    match e.op
    case SessionRecover(id, actor, reason, staleAfter, force) =>
      RecoverSession(s, e.at, id, actor, reason, e.session, staleAfter, force)
    case SessionSweep(actor, reason, staleAfter, limit) =>
      var swept :- SweepSessions(s, e.at, actor, reason, e.session, staleAfter, limit);
      Ok(swept.tables)
    case TaskClaim(id, agent, ifRevision) =>
      var claimed :- ClaimTask(s, e.at, id, agent, e.session, ifRevision);
      Ok(claimed.tables)
    case ArchiveRun(days, actor, force, database, path) =>
      Archiving.ArchiveRecords(s, e.at, days, actor, e.session, force, database, path)
    case _ => Commit(DraftOf(s, e), e.at.clock)
  }

  lemma DraftedApply(s: Tables, e: Event)
    requires Drafted(e.op)
    ensures Apply(s, e) == Commit(DraftOf(s, e), e.at.clock)
  {
    hide DraftOf, Commit;
  }

  /** A refused invocation leaves the state as it was. */
  function Next(s: Tables, e: Event): Tables {
    match Apply(s, e)
    case Ok(next) => next
    case Err(_) => s
  }

  /** The state after a run. */
  function Run(s: Tables, events: seq<Event>): Tables
    decreases |events|
  {
    if events == [] then s else Run(Next(s, events[0]), events[1..])
  }

  lemma {:induction false} RunAppend(s: Tables, before: seq<Event>, after: seq<Event>)
    ensures Run(s, before + after) == Run(Run(s, before), after)
    decreases |before|
  {
    if before == [] {
      assert before + after == after;
    } else {
      assert (before + after)[1..] == before[1..] + after;
      RunAppend(Next(s, before[0]), before[1..], after);
    }
  }
}
