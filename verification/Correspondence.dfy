/** Messages, read positions, dependencies, reviews, amendable records, and the
    redaction of ledger rows. */
module Correspondence {
  import opened Records
  import opened Ledger
  import opened Protocol

  // --- messages and read positions ----------------------------------------

  function SendMessage(s: Tables, m: Moment, id: Id, sender: Id, recipient: string, task: Option<Id>,
                       body: string, session: Option<Id>): Result<Draft>
  {
    (:- RequireActor(s, sender);
     :- Need(task.Some? ==> task.value in s.tasks, NotFound);
     :- Need(id !in s.messages, ConstraintViolation);
     var message := Message(sender, recipient, task, body, Second(m.stamp));
     Ok(Draft(s.(messages := s.messages[id := message]),
              Entry(sender, session, Send, MessageObject, id, Given(recipient), map[]), Nothing)))
  }

  const REDACTED_BODY := "[redacted]"

  function RedactMessage(s: Tables, id: Id, actor: Id, reason: string, session: Option<Id>)
    : Result<Draft>
  {
    (:- RequireActor(s, actor);
     :- Need(id in s.messages, NotFound);
     :- Need(s.messages[id].body != REDACTED_BODY, AlreadyRedacted);
     Ok(Draft(s.(messages := s.messages[id := s.messages[id].(body := REDACTED_BODY)]),
              Entry(actor, session, Redact, MessageObject, id, Given(reason), map[]), Nothing)))
  }

  /** An agent without a stored cursor reads as 0. */
  function CursorOf(s: Tables, agent: Id): int {
    if agent in s.cursors then s.cursors[agent] else 0
  }

  function InboxOwner(s: Tables, agent: Option<Id>, session: Option<Id>): Result<Id> {
    if agent.Some? then Ok(agent.value)
    else if session.None? then Err(InvalidArguments)
    else if session.value in s.sessions then Ok(s.sessions[session.value].agent)
    else Err(NotFound)
  }

  function MarkInboxRead(s: Tables, agent: Option<Id>, cursor: nat, session: Option<Id>)
    : Result<Draft>
  {
    var owner :- InboxOwner(s, agent, session);
    :- RequireActor(s, owner);
    :- Need(cursor <= |s.audit|, InvalidArguments);
    :- Need(CursorOf(s, owner) <= cursor, CursorNotMonotonic);
    Ok(Draft(s.(cursors := s.cursors[owner := cursor]),
             Entry(owner, session, MarkRead, AgentObject, owner, CursorLine(CursorOf(s, owner), cursor),
                   map[]),
             Nothing))
  }

  // --- dependencies and reviews -------------------------------------------

  function EdgeName(edge: Edge): string { edge.task + ":" + edge.on + ":" + edge.kind }

  function AddDependency(s: Tables, edge: Edge, actor: Id, session: Option<Id>): Result<Draft> {
    (:- Need(edge.task != edge.on, InvalidArguments);
     :- RequireActor(s, actor);
     :- Need(edge.task in s.tasks && edge.on in s.tasks, NotFound);
     :- Need(edge !in s.dependencies, ConstraintViolation);
     Ok(Draft(s.(dependencies := s.dependencies[edge := true]),
              Entry(actor, session, Add, DependencyObject, EdgeName(edge), Given(""), map[]), Nothing)))
  }

  function ResolveDependency(s: Tables, edge: Edge, actor: Id, session: Option<Id>)
    : Result<Draft>
  {
    (:- Need(edge in s.dependencies, NotFound);
     Ok(Draft(s.(dependencies := s.dependencies[edge := false]),
              Entry(actor, session, Resolve, DependencyObject, EdgeName(edge), Given(""), map[]), Nothing)))
  }

  /** The CHECK of `reviews.decision`. */
  const REVIEW_DECISIONS := {"accepted", "conditionally_accepted", "changes_requested", "rejected"}

  function AddReview(s: Tables, m: Moment, id: Id, task: Option<Id>, reviewer: Id, decision: string,
                     session: Option<Id>): Result<Draft>
  {
    (:- RequireActor(s, reviewer);
     :- Need(task.Some? ==> task.value in s.tasks, NotFound);
     :- Need(id !in s.reviews && decision in REVIEW_DECISIONS, ConstraintViolation);
     Ok(Draft(s.(reviews := s.reviews[id := ReviewRow(task, reviewer, decision, Second(m.stamp))]),
              Entry(reviewer, session, Create, ReviewObject, id, Given(decision), map[]), Nothing)))
  }

  // --- artifacts, decisions and escalations -------------------------------

  datatype RecordKind = Artifact | Decision | Escalation

  function ObjectOf(kind: RecordKind): ObjectType {
    match kind
    case Artifact => ArtifactObject
    case Decision => DecisionObject
    case Escalation => EscalationObject
  }

  function RecordsOf(s: Tables, kind: RecordKind): map<Id, Record> {
    match kind
    case Artifact => s.artifacts
    case Decision => s.decisions
    case Escalation => s.escalations
  }

  function WithRecords(s: Tables, kind: RecordKind, records: map<Id, Record>): Tables {
    match kind
    case Artifact => s.(artifacts := records)
    case Decision => s.(decisions := records)
    case Escalation => s.(escalations := records)
  }

  lemma WithRecordsOthers(s: Tables, kind: RecordKind, records: map<Id, Record>)
    ensures var t := WithRecords(s, kind, records);
      t == s.(artifacts := t.artifacts, decisions := t.decisions, escalations := t.escalations)
  {
  }

  /** The CHECKs of the three status columns. */
  function StatusesOf(kind: RecordKind): set<string> {
    match kind
    case Artifact => {"draft", "review", "accepted", "superseded"}
    case Decision => {"proposed", "accepted", "superseded", "rejected"}
    case Escalation => {"open", "in_review", "resolved", "closed_no_action"}
  }

  predicate StatusKnown(kind: RecordKind, columns: Columns) { Get(columns, Status) in StatusesOf(kind) }

  /** `artifacts.uri` is unique. */
  predicate UriFree(s: Tables, id: Id, uri: string) {
    forall x | x in s.artifacts && x != id :: Get(s.artifacts[x].columns, Uri) != uri
  }

  function AddRecord(s: Tables, m: Moment, kind: RecordKind, id: Id, columns: Columns, owner: Id,
                     detail: string, session: Option<Id>): Result<Draft>
  {
    (:- RequireActor(s, owner);
     :- Need(id !in RecordsOf(s, kind) && StatusKnown(kind, columns), ConstraintViolation);
     var record := Record(owner, columns, Second(m.stamp), Second(m.stamp));
     Ok(Draft(WithRecords(s, kind, RecordsOf(s, kind)[id := record]),
              Entry(owner, session, Create, ObjectOf(kind), id, Given(detail), map[]), Nothing)))
  }

  function AddDecision(s: Tables, m: Moment, id: Id, status: string, owner: Id, session: Option<Id>)
    : Result<Draft>
  {
    AddRecord(s, m, Decision, id, map[Status := status], owner, status, session)
  }

  function EscalationColumns(status: string, resolution: string, followUp: string): Columns {
    map[Status := status, Resolution := resolution, FollowUpTasks := followUp]
  }

  function AddEscalation(s: Tables, m: Moment, id: Id, raisedBy: Id, session: Option<Id>): Result<Draft> {
    AddRecord(s, m, Escalation, id, EscalationColumns("open", "", ""), raisedBy, "", session)
  }

  /** The task links, or the reviewers, of one artifact. */
  function Links(id: Id, others: seq<Id>): set<(Id, Id)> { set x | x in others :: (id, x) }

  /** What `artifact add` checks before it writes. */
  function RequireArtifact(s: Tables, id: Id, columns: Columns, tasks: seq<Id>, reviewers: seq<Id>, owner: Id)
    : Check
  {
    if !Unique(tasks) || !Unique(reviewers) then Stop(InvalidArguments)
    else if RequireActor(s, owner).Stop? then RequireActor(s, owner)
    else if exists t | t in tasks :: t !in s.tasks then Stop(NotFound)
    else if !AgentsExist(s, reviewers) then Stop(NotFound)
    else Need(UriFree(s, id, Get(columns, Uri)) && id !in s.artifacts && StatusKnown(Artifact, columns),
              ConstraintViolation)
  }

  function AddArtifact(s: Tables, m: Moment, id: Id, columns: Columns, tasks: seq<Id>,
                       reviewers: seq<Id>, owner: Id, session: Option<Id>): Result<Draft>
  {
    (:- RequireArtifact(s, id, columns, tasks, reviewers, owner);
     AddRecord(s.(artifactTasks := s.artifactTasks + Links(id, tasks),
                  artifactReviewers := s.artifactReviewers + Links(id, reviewers)),
               m, Artifact, id, columns, owner, Get(columns, Uri), session))
  }

  /** The constraints on the columns an amendment writes. */
  function RequireColumns(s: Tables, kind: RecordKind, id: Id, selected: Columns): Check {
    Need((Status in selected ==> StatusKnown(kind, selected))
         && (kind == Artifact && Uri in selected ==> UriFree(s, id, selected[Uri])), ConstraintViolation)
  }

  function Both(first: Check, second: Check): Check { if first.Stop? then first else second }

  /** The record is there, with the status the caller saw. */
  function RequireSeen(s: Tables, kind: RecordKind, id: Id, ifStatus: Option<string>): Check {
    if id !in RecordsOf(s, kind) then Stop(NotFound)
    else Need(ifStatus.Some? ==> Get(RecordsOf(s, kind)[id].columns, Status) == ifStatus.value, StatusMismatch)
  }

  /** A decision is written before its cause is looked up, the others after. */
  function RequireWrite(s: Tables, kind: RecordKind, id: Id, selected: Columns, because: Option<Reference>): Check {
    if kind == Decision then Both(RequireColumns(s, kind, id, selected), RequireReference(s, because))
    else Both(RequireReference(s, because), RequireColumns(s, kind, id, selected))
  }

  function RequireAmendable(s: Tables, kind: RecordKind, id: Id, selected: Columns, ifStatus: Option<string>,
                            because: Option<Reference>): (check: Check)
    ensures check.Pass? ==> id in RecordsOf(s, kind)
  {
    Both(RequireSeen(s, kind, id, ifStatus), RequireWrite(s, kind, id, selected, because))
  }

  /** Rewrites some columns of a record, optionally guarded by the status the
      caller saw, and writes a change row for each column that changed. */
  function Amend(s: Tables, m: Moment, kind: RecordKind, id: Id, selected: Columns,
                 ifStatus: Option<string>, because: Option<Reference>, actor: Id, session: Option<Id>,
                 action: Action, detail: Detail): Result<Draft>
  {
    (:- RequireAmendable(s, kind, id, selected, ifStatus, because);
     var before := RecordsOf(s, kind)[id];
     var after := before.(columns := before.columns + selected, updatedAt := Second(m.stamp));
     Ok(Draft(WithRecords(s, kind, RecordsOf(s, kind)[id := after]),
              Entry(actor, session, action, ObjectOf(kind), id, detail, Changed(before.columns, selected)),
              Nothing)))
  }

  function Ruling(s: Tables, kind: RecordKind, id: Id, status: string, because: Option<Reference>,
                  note: string): Detail
  {
    RulingLine(if id in RecordsOf(s, kind) then Get(RecordsOf(s, kind)[id].columns, Status) else "",
               status, because, note)
  }

  function ArtifactStatus(s: Tables, m: Moment, id: Id, status: string, ifStatus: Option<string>,
                          because: Option<Reference>, actor: Id, session: Option<Id>): Result<Draft>
  {
    Amend(s, m, Artifact, id, map[Status := status], ifStatus, because, actor, session, StatusAction,
          Ruling(s, Artifact, id, status, because, ""))
  }

  function UpdateArtifact(s: Tables, m: Moment, id: Id, selected: ArtifactEdit, ifStatus: Option<string>,
                          actor: Id, session: Option<Id>): Result<Draft>
  {
    (:- Need(selected != map[], InvalidArguments);
     :- RequireActor(s, actor);
     Amend(s, m, Artifact, id, selected, ifStatus, None, actor, session, Update,
           FieldsLine(selected.Keys, None)))
  }

  function DecisionStatus(s: Tables, m: Moment, id: Id, status: string, ifStatus: Option<string>,
                          because: Option<Reference>, note: string, actor: Id, session: Option<Id>)
    : Result<Draft>
  {
    (:- RequireActor(s, actor);
     Amend(s, m, Decision, id, map[Status := status], ifStatus, because, actor, session, StatusAction,
           Ruling(s, Decision, id, status, because, note)))
  }

  function ResolveEscalation(s: Tables, m: Moment, id: Id, status: string, resolution: string,
                             followUp: string, ifStatus: Option<string>, because: Option<Reference>,
                             actor: Id, session: Option<Id>): Result<Draft>
  {
    Amend(s, m, Escalation, id, EscalationColumns(status, resolution, followUp), ifStatus, because, actor,
          session, Resolve, Ruling(s, Escalation, id, status, because, ""))
  }

  /** The two ways a record is written. */
  datatype RecordWrite =
    | Adding(kind: RecordKind, id: Id, columns: Columns, owner: Id, text: string)
    | Amending(kind: RecordKind, id: Id, columns: Columns, ifStatus: Option<string>,
               because: Option<Reference>, actor: Id, action: Action, detail: Detail)

  function WriteRecord(s: Tables, m: Moment, w: RecordWrite, session: Option<Id>): Result<Draft> {
    match w
    case Adding(kind, id, columns, owner, text) => AddRecord(s, m, kind, id, columns, owner, text, session)
    case Amending(kind, id, columns, ifStatus, because, actor, action, detail) =>
      Amend(s, m, kind, id, columns, ifStatus, because, actor, session, action, detail)
  }
}
