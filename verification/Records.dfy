/** The tables of the coordination database and the outcomes of its operations. */
module Records {

  type Id = string
  type Micros = int   // a clock reading, in microseconds
  type Seconds = int  // a stored timestamp: a reading truncated to the second

  datatype Option<+T> = None | Some(value: T)

  // --- rows ---------------------------------------------------------------

  datatype TaskStatus = Todo | InProgress | Review | Blocked | Done

  /** The columns change rows may name, in the order of their SQL names. */
  datatype Field =
    | AcceptanceCriteria | ActorType | Assignees | BlockedClaims | Description
    | FollowUpTasks | Name | NextSteps | Notes | Priority | Resolution | Role
    | Status | Tags | Title | Type | Uri | UsageBoundaries

  const FIELDS: seq<Field> :=
    [ AcceptanceCriteria, ActorType, Assignees, BlockedClaims, Description,
      FollowUpTasks, Name, NextSteps, Notes, Priority, Resolution, Role,
      Status, Tags, Title, Type, Uri, UsageBoundaries ]

  type Columns = map<Field, string>

  /** The columns each editing operation takes. */
  type Profile = c: Columns | c.Keys <= {Name, Role, ActorType}
  type TaskContent = c: Columns | c.Keys <= {Title, Description, Priority, Tags, AcceptanceCriteria,
                                             NextSteps, BlockedClaims}
  type ArtifactEdit = c: Columns | c.Keys <= {Uri, Type, UsageBoundaries}

  function Get(columns: Columns, field: Field): string {
    if field in columns then columns[field] else ""
  }

  datatype Agent = Agent(profile: Columns, active: bool, createdAt: Seconds, updatedAt: Seconds)

  datatype Session = Session(
    agent: Id, active: bool, startedAt: Seconds, lastSeen: Seconds, endedAt: Option<Seconds>)

  datatype Task = Task(
    content: Columns, notes: string, status: TaskStatus, revision: int,
    createdBy: Id, createdAt: Seconds, updatedAt: Seconds)

  datatype Claim = Claim(agent: Id, session: Id, claimedAt: Seconds)

  datatype Evidence = Evidence(task: Id, uri: string, addedBy: Id, createdAt: Seconds)

  /** One dependency edge: `task` depends on `on`. */
  datatype Edge = Edge(task: Id, on: Id, kind: string)

  datatype Message = Message(
    sender: Id, recipient: string, task: Option<Id>, body: string, createdAt: Seconds)

  datatype ReviewRow = ReviewRow(task: Option<Id>, reviewer: Id, decision: string, createdAt: Seconds)

  /** An artifact, decision or escalation: the columns that can be amended. */
  datatype Record = Record(owner: Id, columns: Columns, createdAt: Seconds, updatedAt: Seconds)

  // --- the ledger ---------------------------------------------------------

  datatype ObjectType =
    | AgentObject | ArtifactObject | AuditObject | DatabaseObject | DecisionObject
    | DependencyObject | EscalationObject | EvidenceObject | MessageObject
    | ReviewObject | SessionObject | TaskObject

  datatype Action =
    | Add | Archive | AssignAction | ClaimAction | Create | End | Heartbeat | MarkRead
    | Recover | RecoverClaim | Redact | Resolve | Restore | Send | Start | StatusAction
    | Update | Migrate

  datatype Reference = Reference(kind: ObjectType, id: Id)

  /** The text an audit row carries, by the shape of the code that formats it. */
  datatype Detail =
    | Given(text: string)
    | ClaimLine(revision: int, reaped: Option<Id>)
    | RecoverClaimLine(session: Id, revision: int, reason: string)
    | ForcedLine(reason: string)
    | StatusLine(from: TaskStatus, to: TaskStatus, revision: int, because: Option<Reference>)
    | FieldsLine(fields: set<Field>, observed: Option<int>)
    | ColumnsLine(fields: set<Field>)
    | AssignLine(added: set<Id>, removed: set<Id>, revision: int)
    | CursorLine(previous: int, cursor: int)
    | RulingLine(before: string, after: string, because: Option<Reference>, note: string)
    | ArchiveLine(tasks: nat, messages: nat, path: string)
    | Tombstone(redaction: nat)

  datatype AuditRow = AuditRow(
    actor: Id, session: Option<Id>, action: Action, objectType: ObjectType, objectId: string,
    detail: Detail, createdAt: Seconds)

  datatype ChangeRow = ChangeRow(
    auditId: nat, objectType: ObjectType, objectId: string, field: Field,
    oldValue: string, newValue: string, createdAt: Seconds)

  // --- the database -------------------------------------------------------

  /** One state of the database. The audit row with id `k` is `audit[k - 1]`. */
  datatype Tables = Tables(
    agents: map<Id, Agent>,
    sessions: map<Id, Session>,
    tasks: map<Id, Task>,
    claims: map<Id, Claim>,
    assignees: set<(Id, Id)>,
    evidence: map<nat, Evidence>,
    lastEvidence: nat,
    dependencies: map<Edge, bool>,
    messages: map<Id, Message>,
    reviews: map<Id, ReviewRow>,
    artifacts: map<Id, Record>,
    artifactTasks: set<(Id, Id)>,
    artifactReviewers: set<(Id, Id)>,
    decisions: map<Id, Record>,
    escalations: map<Id, Record>,
    cursors: map<Id, int>,
    audit: seq<AuditRow>,
    changes: seq<ChangeRow>)

  const EMPTY := Tables(map[], map[], map[], map[], {}, map[], 0, map[], map[], map[], map[], {}, {},
                        map[], map[], map[], [], [])

  // --- outcomes -----------------------------------------------------------

  datatype Error =
    | AgentHasActiveSessions | AlreadyRedacted | ConstraintViolation | CursorNotMonotonic
    | InactiveActor | InactiveSession | InvalidArguments | InvalidTaskState
    | InvalidTaskTransition | InvariantViolation | NotFound | SessionActorMismatch
    | SessionHasActiveClaims | SessionNotStale | SessionRequired | StaleTaskRevision
    | StatusMismatch | TaskAlreadyClaimed | TaskClaimOwnerMismatch | TaskClaimRequired
    | TaskClaimSessionMismatch | TaskNotClaimed | ConfirmationRequired

  /** What a committed operation leaves, or why it was refused. */
  datatype Result<+T> = Ok(value: T) | Err(error: Error) {
    predicate IsFailure() { Err? }
    function PropagateFailure<U>(): Result<U> requires Err? { Err(error) }
    function Extract(): T requires Ok? { value }
  }

  /** The outcome of a check. */
  datatype Check = Pass | Stop(error: Error) {
    predicate IsFailure() { Stop? }
    function PropagateFailure<U>(): Result<U> requires Stop? { Err(error) }
  }

  function Need(condition: bool, error: Error): Check {
    if condition then Pass else Stop(error)
  }

  // --- time ---------------------------------------------------------------

  const SESSION_LEASE_SECONDS: Seconds := 3600

  /** The reading of the clock when the audit row with index `k` is written. */
  type Clock = nat -> Micros

  /** The clock readings of one operation: its own `now()`, usually taken before
      the writer lock; `stale_cutoff`'s; and one for each audit row it appends. */
  datatype Moment = Moment(stamp: Micros, lease: Micros, clock: Clock)

  /** `now()`: microseconds truncated away. */
  function Second(reading: Micros): Seconds { reading / 1_000_000 }

  function StaleCutoff(reading: Micros, seconds: Seconds): Seconds {
    Second(reading - seconds * 1_000_000)
  }
}
