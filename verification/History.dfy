/** What the change rows of the ledger record, and why no run of the runtime looks
    like an edit made around it. */
module History {
  import opened Records
  import opened Ledger
  import opened Protocol
  import opened Correspondence
  import opened Runs
  import opened Invariants
  import opened Safety
  import opened Growth
  import opened Tombstones
  import opened Sweep
  import Archiving = Archive
  import Redaction
  import Text

  // --- the rows `doctor` and readers of the change log compare -------------

  /** The amendable columns of one row and the stamp of its last write. */
  datatype View = View(columns: Columns, updatedAt: Seconds)

  function RecordView(records: map<Id, Record>, id: Id): Option<View> {
    if id in records then Some(View(records[id].columns, records[id].updatedAt)) else None
  }

  function AgentView(agents: map<Id, Agent>, id: Id): Option<View> {
    if id in agents then Some(View(AgentColumns(agents[id]), agents[id].updatedAt)) else None
  }

  function TaskView(tasks: map<Id, Task>, id: Id): Option<View> {
    if id in tasks then Some(View(tasks[id].content, tasks[id].updatedAt)) else None
  }

  /** The five tables whose rows carry `updated_at`. */
  function ViewOf(s: Tables, kind: ObjectType, id: Id): Option<View> {
    match kind
    case AgentObject => AgentView(s.agents, id)
    case TaskObject => TaskView(s.tasks, id)
    case ArtifactObject => RecordView(s.artifacts, id)
    case DecisionObject => RecordView(s.decisions, id)
    case EscalationObject => RecordView(s.escalations, id)
    case _ => None
  }

  /** The columns whose every change leaves a change row: of a task only its
      content, since `claim` and the reaper write none. */
  predicate Tracked(kind: ObjectType, field: Field) {
    kind == TaskObject ==>
      field in {Title, Description, Priority, Tags, AcceptanceCriteria, NextSteps, BlockedClaims}
  }

  // --- what one transaction does to one row -------------------------------

  /** The entry accounts for the step from `before` to `after` of the row it names. */
  ghost predicate Accounts(before: Option<View>, after: Option<View>, e: Entry, stamp: Seconds) {
    && (after.Some? ==> after == before || after.value.updatedAt == stamp)
    && (before.Some? ==>
          && after.Some?
          && forall f | Tracked(e.objectType, f) ::
               if f in e.changes
               then e.changes[f] == (Get(before.value.columns, f), Get(after.value.columns, f))
               else Get(after.value.columns, f) == Get(before.value.columns, f))
  }

  /** The transaction touches no row but the one its entry names, and accounts for
      that one. */
  ghost predicate Faithful(s: Tables, d: Draft, stamp: Seconds) {
    var t := Finished(d.tables, d.finish);
    && (forall kind, id | !(kind == d.entry.objectType && id == d.entry.objectId) ::
          ViewOf(t, kind, id) == ViewOf(s, kind, id))
    && Accounts(ViewOf(s, d.entry.objectType, d.entry.objectId),
                ViewOf(t, d.entry.objectType, d.entry.objectId), d.entry, stamp)
  }

  lemma SameViews(s: Tables, t: Tables)
    requires s.agents == t.agents && s.tasks == t.tasks && s.artifacts == t.artifacts
    requires s.decisions == t.decisions && s.escalations == t.escalations
    ensures forall kind, id :: ViewOf(t, kind, id) == ViewOf(s, kind, id)
  {
  }

  /** A transaction that writes none of the five tables and records no change. */
  lemma Untouched(s: Tables, d: Draft, stamp: Seconds)
    requires d.tables.agents == s.agents && d.tables.tasks == s.tasks && d.tables.artifacts == s.artifacts
    requires d.tables.decisions == s.decisions && d.tables.escalations == s.escalations
    requires d.entry.changes == map[] && !d.finish.EditAgent?
    ensures Faithful(s, d, stamp)
  {
    hide ViewOf, Finished;
    FinishedOthers(d.tables, d.finish);
    SameViews(s, Finished(d.tables, d.finish));
  }

  lemma FinishedOthers(s: Tables, finish: Finish)
    ensures var t := Finished(s, finish);
      && t.tasks == s.tasks && t.artifacts == s.artifacts && t.decisions == s.decisions
      && t.escalations == s.escalations && t.agents == FinishedAgents(s, finish)
  {
    hide Finished, FinishedAgents, Ended;
    FinishedFields(s, finish);
  }

  lemma AgentAddFaithful(s: Tables, m: Moment, id: Id, profile: Profile, actor: Option<Id>, session: Option<Id>)
    requires AddAgent(s, m, id, profile, actor, session).Ok?
    ensures Faithful(s, AddAgent(s, m, id, profile, actor, session).value, Second(m.stamp))
  {
    hide TaskView, RecordView, Finished;
    var d := AddAgent(s, m, id, profile, actor, session).value;
    FinishedFields(d.tables, d.finish);
  }

  function EditedAgent(agent: Agent, profile: Columns, active: Option<bool>, stamp: Seconds): Agent {
    agent.(profile := agent.profile + profile, active := if active.Some? then active.value else agent.active,
           updatedAt := stamp)
  }

  lemma AgentEditedColumns(agent: Agent, profile: Profile, active: Option<bool>, stamp: Seconds, f: Field)
    ensures var after := EditedAgent(agent, profile, active, stamp);
      var selected := SelectedAgentColumns(profile, active);
      var changes := Changed(AgentColumns(agent), selected);
      if f in changes then changes[f] == (Get(AgentColumns(agent), f), Get(AgentColumns(after), f))
      else Get(AgentColumns(after), f) == Get(AgentColumns(agent), f)
  { }

  lemma EditedViews(s: Tables, id: Id, profile: Profile, active: Option<bool>, stamp: Seconds)
    requires id in s.agents
    ensures var t := Finished(s, EditAgent(id, profile, active, stamp));
      && SameViewsBut(s, t, AgentObject, id)
      && AgentView(t.agents, id) == Some(View(AgentColumns(EditedAgent(s.agents[id], profile, active, stamp)), stamp))
      && AgentView(s.agents, id) == Some(View(AgentColumns(s.agents[id]), s.agents[id].updatedAt))
  {
    hide AgentColumns;
  }

  lemma AgentUpdateFaithful(s: Tables, m: Moment, id: Id, profile: Profile, active: Option<bool>,
                            actor: Option<Id>, session: Option<Id>)
    requires UpdateAgent(s, m, id, profile, active, actor, session).Ok?
    ensures Faithful(s, UpdateAgent(s, m, id, profile, active, actor, session).value, Second(m.stamp))
  {
    hide AgentView, TaskView, RecordView, Finished, Changed, SelectedAgentColumns, AgentColumns, EditedAgent,
      HasActiveSession, Get;
    EditedViews(s, id, profile, active, Second(m.stamp));
    forall f {
      AgentEditedColumns(s.agents[id], profile, active, Second(m.stamp), f);
    }
  }

  lemma TaskCreateFaithful(s: Tables, m: Moment, id: Id, content: TaskContent, actor: Id, assignees: seq<Id>,
                           session: Option<Id>)
    requires CreateTask(s, m, id, content, actor, assignees, session).Ok?
    ensures Faithful(s, CreateTask(s, m, id, content, actor, assignees, session).value, Second(m.stamp))
  {
    hide AgentView, RecordView, Unique, AgentsExist, Assigned;
  }

  lemma ChangedColumns(before: Columns, selected: Columns, f: Field)
    ensures var changes := Changed(before, selected);
      if f in changes then changes[f] == (Get(before, f), Get(before + selected, f))
      else Get(before + selected, f) == Get(before, f)
  {
  }

  lemma TaskEditedViews(s: Tables, id: Id, selected: Columns, stamp: Seconds)
    requires id in s.tasks
    ensures var t := TaskEdited(s, id, selected, stamp);
      && SameViewsBut(s, t, TaskObject, id)
      && TaskView(t.tasks, id) == Some(View(s.tasks[id].content + selected, stamp))
  { }

  lemma TaskUpdateFaithful(s: Tables, m: Moment, id: Id, selected: TaskContent, actor: Id,
                           session: Option<Id>, ifRevision: int)
    requires UpdateTask(s, m, id, selected, actor, session, ifRevision).Ok?
    ensures Faithful(s, UpdateTask(s, m, id, selected, actor, session, ifRevision).value, Second(m.stamp))
  {
    hide AgentView, TaskView, RecordView, TaskEdited, Changed, Accountable, RequireClaimOwnership, Get;
    TaskEditedViews(s, id, selected, Second(m.stamp));
    TaskViewOf(s.tasks, id);
    forall f { ChangedColumns(s.tasks[id].content, selected, f); }
  }

  lemma AssignedViews(s: Tables, id: Id, added: seq<Id>, removed: seq<Id>, stamp: Seconds)
    requires id in s.tasks
    ensures var t := TaskAssigned(s, id, added, removed, stamp);
      && SameViewsBut(s, t, TaskObject, id)
      && TaskView(t.tasks, id) == Some(View(s.tasks[id].content, stamp))
  {
    hide Assigned;
    assert s.tasks[id].content + map[] == s.tasks[id].content;
  }

  ghost predicate SameViewsBut(s: Tables, t: Tables, kind: ObjectType, id: Id) {
    forall k, x | !(k == kind && x == id) :: ViewOf(t, k, x) == ViewOf(s, k, x)
  }

  lemma TaskAssignFaithful(s: Tables, m: Moment, id: Id, added: seq<Id>, removed: seq<Id>, actor: Id,
                           session: Option<Id>, ifRevision: int)
    requires AssignTask(s, m, id, added, removed, actor, session, ifRevision).Ok?
    ensures Faithful(s, AssignTask(s, m, id, added, removed, actor, session, ifRevision).value, Second(m.stamp))
  {
    hide AgentView, TaskView, RecordView, RequireAssignment, Listed, Reassigned, AssigneesOf, TaskAssigned,
      Elements, Get;
    AssignmentTask(s, id, added, removed, actor, session, ifRevision);
    AssignedViews(s, id, added, removed, Second(m.stamp));
    TaskViewOf(s.tasks, id);
  }

  lemma TaskViewOf(tasks: map<Id, Task>, id: Id)
    requires id in tasks
    ensures TaskView(tasks, id) == Some(View(tasks[id].content, tasks[id].updatedAt))
  { }

  lemma TaskStatusFaithful(s: Tables, m: Moment, c: StatusChange)
    requires ChangeStatus(s, m, c).Ok?
    ensures Faithful(s, ChangeStatus(s, m, c).value, Second(m.stamp))
  {
    hide AgentView, RecordView, Accountable, RequireReference, RequireTransition, StatusName;
  }

  /** Replacing one record changes one row's view. */
  lemma RecordsView(s: Tables, kind: RecordKind, id: Id, record: Record)
    ensures var t := WithRecords(s, kind, RecordsOf(s, kind)[id := record]);
      && (forall k, x | !(k == ObjectOf(kind) && x == id) :: ViewOf(t, k, x) == ViewOf(s, k, x))
      && ViewOf(t, ObjectOf(kind), id) == Some(View(record.columns, record.updatedAt))
      && ViewOf(s, ObjectOf(kind), id) == RecordView(RecordsOf(s, kind), id)
  { }

  lemma RecordFaithful(s: Tables, m: Moment, w: RecordWrite, session: Option<Id>)
    requires WriteRecord(s, m, w, session).Ok?
    ensures Faithful(s, WriteRecord(s, m, w, session).value, Second(m.stamp))
  {
    hide ViewOf, WithRecords, RecordsOf, ObjectOf, Changed, RequireActor, RequireAmendable, StatusKnown;
    if w.Amending? {
      var before := RecordsOf(s, w.kind)[w.id];
      forall f { ChangedColumns(before.columns, w.columns, f); }
      RecordsView(s, w.kind, w.id, before.(columns := before.columns + w.columns, updatedAt := Second(m.stamp)));
    } else {
      RecordsView(s, w.kind, w.id, Record(w.owner, w.columns, Second(m.stamp), Second(m.stamp)));
    }
  }

  lemma WorkFaithful(s: Tables, e: Event)
    requires e.op.SessionStart? || e.op.SessionHeartbeat? || e.op.SessionEnd? || e.op.EvidenceAdd?
    requires WorkDraft(s, e).Ok?
    ensures Faithful(s, WorkDraft(s, e).value, Second(e.at.stamp))
  {
    hide Faithful, RequireActor, RequireOpenSession, Text.Dec;
    Untouched(s, WorkDraft(s, e).value, Second(e.at.stamp));
  }

  lemma NoteFaithful(s: Tables, e: Event)
    requires e.op.MessageSend? || e.op.MessageRedact? || e.op.ReviewAdd? || e.op.AuditRedact?
    requires NoteDraft(s, e).Ok?
    ensures Faithful(s, NoteDraft(s, e).value, Second(e.at.stamp))
  {
    hide Faithful, RequireActor, Text.Dec, Redaction.Render;
    Untouched(s, NoteDraft(s, e).value, Second(e.at.stamp));
  }

  lemma EdgeFaithful(s: Tables, e: Event)
    requires e.op.InboxMarkRead? || e.op.DependencyAdd? || e.op.DependencyResolve?
    requires EdgeDraft(s, e).Ok?
    ensures Faithful(s, EdgeDraft(s, e).value, Second(e.at.stamp))
  {
    hide Faithful, RequireActor, EdgeName, InboxOwner, CursorOf;
    Untouched(s, EdgeDraft(s, e).value, Second(e.at.stamp));
  }

  lemma TaskFaithful(s: Tables, e: Event)
    requires e.op.TaskCreate? || e.op.TaskUpdate? || e.op.TaskAssign? || e.op.TaskStatus?
    requires TaskDraft(s, e).Ok?
    ensures Faithful(s, TaskDraft(s, e).value, Second(e.at.stamp))
  {
    hide Faithful, CreateTask, UpdateTask, AssignTask, ChangeStatus;
    match e.op
    case TaskCreate(id, content, actor, assignees) =>
      TaskCreateFaithful(s, e.at, id, content, actor, assignees, e.session);
    case TaskUpdate(id, content, actor, ifRevision) =>
      TaskUpdateFaithful(s, e.at, id, content, actor, e.session, ifRevision);
    case TaskAssign(id, added, removed, actor, ifRevision) =>
      TaskAssignFaithful(s, e.at, id, added, removed, actor, e.session, ifRevision);
    case TaskStatus(change) => TaskStatusFaithful(s, e.at, change.(session := e.session));
  }

  lemma AgentFaithful(s: Tables, e: Event)
    requires (e.op.AgentAdd? || e.op.AgentUpdate?) && WorkDraft(s, e).Ok?
    ensures Faithful(s, WorkDraft(s, e).value, Second(e.at.stamp))
  {
    hide Faithful, AddAgent, UpdateAgent;
    match e.op
    case AgentAdd(id, profile, author) => AgentAddFaithful(s, e.at, id, profile, author, e.session);
    case AgentUpdate(id, profile, active, author) =>
      AgentUpdateFaithful(s, e.at, id, profile, active, author, e.session);
  }

  lemma LinkedViews(s: Tables, op: Op, d: Draft, stamp: Seconds)
    requires Faithful(LinksAdded(s, op), d, stamp)
    ensures Faithful(s, d, stamp)
  { }

  lemma WriteFaithful(s: Tables, e: Event)
    requires WritesRecord(e.op) && RecordDraft(s, e).Ok?
    ensures Faithful(s, RecordDraft(s, e).value, Second(e.at.stamp))
  {
    hide Faithful, RecordDraft, WriteRecord, RecordWriteOf;
    RecordDraftIs(s, e);
    RecordFaithful(LinksAdded(s, e.op), e.at, RecordWriteOf(s, e.op), e.session);
    LinkedViews(s, e.op, RecordDraft(s, e).value, Second(e.at.stamp));
  }

  lemma DraftFaithful(s: Tables, e: Event)
    requires Drafted(e.op) && DraftOf(s, e).Ok?
    ensures Faithful(s, DraftOf(s, e).value, Second(e.at.stamp))
  {
    hide Faithful, WorkDraft, TaskDraft, NoteDraft, EdgeDraft, RecordDraft;
    if e.op.AgentAdd? || e.op.AgentUpdate? {
      AgentFaithful(s, e);
    } else if OnWork(e.op) {
      WorkFaithful(s, e);
    } else if OnTask(e.op) {
      TaskFaithful(s, e);
    } else if OnNote(e.op) {
      NoteFaithful(s, e);
    } else if OnEdge(e.op) {
      EdgeFaithful(s, e);
    } else {
      WriteFaithful(s, e);
    }
  }

  // --- claims, recovery and archival record no change ---------------------

  lemma TakeFaithful(s: Tables, m: Moment, id: Id, agent: Id, session: Id, revision: int, reaped: Option<Id>)
    requires TakeTask(s, m, id, agent, session, revision, reaped).Ok?
    ensures Faithful(s, TakeTask(s, m, id, agent, session, revision, reaped).value, Second(m.stamp))
  {
    hide AgentView, RecordView, MatchingActiveSession;
  }

  /** The view is as before, or its stamp alone is new. */
  predicate Restamped(before: Option<View>, after: Option<View>, stamp: Seconds) {
    after == before || (before.Some? && after == Some(before.value.(updatedAt := stamp)))
  }

  predicate Covers(row: AuditRow, kind: ObjectType, id: Id, stamp: Seconds) {
    row.objectType == kind && row.objectId == id && row.createdAt >= stamp
  }

  lemma SecondRises(x: Micros, y: Micros)
    requires x <= y
    ensures Second(x) <= Second(y)
  {
  }

  /** No audit row of the step is stamped before the step's own `now()`. */
  ghost predicate Timely(m: Moment) {
    forall k: nat :: m.stamp <= m.clock(k)
  }

  lemma ReapedViews(s: Tables, r: Reaping, stamp: Seconds, clock: Clock, kind: ObjectType, id: Id)
    ensures var t := Reaped(s, r, stamp, clock);
      && s.audit <= t.audit && t.changes == s.changes
      && Restamped(ViewOf(s, kind, id), ViewOf(t, kind, id), stamp)
      && (ViewOf(t, kind, id) == ViewOf(s, kind, id) || (kind == TaskObject && id in Owned(s, r.session)))
  { }

  lemma ReapedCovers(s: Tables, r: Reaping, m: Moment, id: Id)
    requires Timely(m) && id in Owned(s, r.session)
    ensures var t := Reaped(s, r, Second(m.stamp), m.clock);
      exists i | |s.audit| <= i < |t.audit| :: Covers(t.audit[i], TaskObject, id, Second(m.stamp))
  {
    hide Owned, Ended, Seen, BlockedTask;
    var t := Reaped(s, r, Second(m.stamp), m.clock);
    var order := Text.Sorted(Owned(s, r.session));
    var i :| 0 <= i < |order| && order[i] == id;
    SecondRises(m.stamp, m.clock(|s.audit| + i));
    assert t.audit[|s.audit| + i] == RecoverClaimRow(s, r, id, Second(m.clock(|s.audit| + i)));
    assert Covers(t.audit[|s.audit| + i], TaskObject, id, Second(m.stamp));
  }

  // --- replaying change rows ----------------------------------------------

  predicate Concerns(row: ChangeRow, kind: ObjectType, id: Id, field: Field) {
    row.objectType == kind && row.objectId == id && row.field == field
  }

  /** The value of a column after replaying change rows over `value`, if every old
      value met is the value reached so far. */
  function Replay(rows: seq<ChangeRow>, kind: ObjectType, id: Id, field: Field, value: string): Option<string>
    decreases |rows|
  {
    if rows == [] then Some(value)
    else if !Concerns(rows[0], kind, id, field) then Replay(rows[1..], kind, id, field, value)
    else if rows[0].oldValue != value then None
    else Replay(rows[1..], kind, id, field, rows[0].newValue)
  }

  lemma {:induction false} ReplayJoin(a: seq<ChangeRow>, b: seq<ChangeRow>, kind: ObjectType, id: Id,
                                      field: Field, value: string, mid: string)
    requires Replay(a, kind, id, field, value) == Some(mid)
    ensures Replay(a + b, kind, id, field, value) == Replay(b, kind, id, field, mid)
    decreases |a|
  {
    if a == [] {
      assert a + b == b;
    } else {
      assert (a + b)[1..] == a[1..] + b;
      ReplayJoin(a[1..], b, kind, id, field,
                 if Concerns(a[0], kind, id, field) then a[0].newValue else value, mid);
    }
  }

  /** Both rows concern the column and are equal, or neither does. */
  predicate Alike(a: ChangeRow, b: ChangeRow, kind: ObjectType, id: Id, field: Field) {
    Concerns(a, kind, id, field) == Concerns(b, kind, id, field) && (Concerns(a, kind, id, field) ==> a == b)
  }

  lemma ReplayStep(rows: seq<ChangeRow>, kind: ObjectType, id: Id, field: Field, value: string)
    requires rows != []
    ensures Replay(rows, kind, id, field, value)
            == if !Concerns(rows[0], kind, id, field) then Replay(rows[1..], kind, id, field, value)
               else if rows[0].oldValue != value then None
               else Replay(rows[1..], kind, id, field, rows[0].newValue)
  { }

  lemma ConcernsAlike(a: ChangeRow, b: ChangeRow, kind: ObjectType, id: Id, field: Field)
    requires Alike(a, b, kind, id, field)
    ensures Concerns(a, kind, id, field) <==> Concerns(b, kind, id, field)
    ensures Concerns(a, kind, id, field) ==> a.oldValue == b.oldValue && a.newValue == b.newValue
  { }

  lemma {:induction false} ReplayAgrees(a: seq<ChangeRow>, b: seq<ChangeRow>, kind: ObjectType, id: Id,
                                        field: Field, value: string)
    requires |a| == |b| && forall c | 0 <= c < |a| :: Alike(a[c], b[c], kind, id, field)
    ensures Replay(a, kind, id, field, value) == Replay(b, kind, id, field, value)
    decreases |a|
  {
    hide Concerns, Alike, Replay;
    if a == [] {
      assert b == [];
    } else {
      ConcernsAlike(a[0], b[0], kind, id, field);
      ReplayStep(a, kind, id, field, value);
      ReplayStep(b, kind, id, field, value);
      ReplayAgrees(a[1..], b[1..], kind, id, field,
                   if Concerns(a[0], kind, id, field) then a[0].newValue else value);
    }
  }

  ghost predicate Distinct(fields: seq<Field>) {
    forall i, j | 0 <= i < j < |fields| :: fields[i] != fields[j]
  }

  lemma ReplayFirst(row: ChangeRow, rest: seq<ChangeRow>, kind: ObjectType, id: Id, field: Field, value: string)
    ensures Replay([row] + rest, kind, id, field, value)
            == if !Concerns(row, kind, id, field) then Replay(rest, kind, id, field, value)
               else if row.oldValue != value then None else Replay(rest, kind, id, field, row.newValue)
  { }

  /** The rows of an entry do not concern what it does not change. */
  lemma {:induction false} ReplayElsewhere(fields: seq<Field>, auditId: nat, e: Entry, at: Seconds,
                                           kind: ObjectType, id: Id, field: Field, value: string)
    requires !(kind == e.objectType && id == e.objectId && field in e.changes && field in fields)
    ensures Replay(ChangeRows(fields, auditId, e, at), kind, id, field, value) == Some(value)
    decreases |fields|
  {
    if fields == [] {
    } else {
      ReplayElsewhere(fields[1..], auditId, e, at, kind, id, field, value);
      if fields[0] in e.changes {
        ReplayFirst(ChangeRow(auditId, e.objectType, e.objectId, fields[0], e.changes[fields[0]].0,
                              e.changes[fields[0]].1, at),
                    ChangeRows(fields[1..], auditId, e, at), kind, id, field, value);
      }
    }
  }

  /** A changed column of the entry's object is replayed once, as the entry says. */
  lemma {:induction false} ReplayEntry(fields: seq<Field>, auditId: nat, e: Entry, at: Seconds, field: Field)
    requires Distinct(fields) && field in e.changes && field in fields
    ensures Replay(ChangeRows(fields, auditId, e, at), e.objectType, e.objectId, field, e.changes[field].0)
            == Some(e.changes[field].1)
    decreases |fields|
  {
    hide Replay;
    var rest := fields[1..];
    if field == fields[0] {
      ReplayElsewhere(rest, auditId, e, at, e.objectType, e.objectId, field, e.changes[field].1);
    } else {
      ReplayEntry(rest, auditId, e, at, field);
    }
    if fields[0] in e.changes {
      ReplayFirst(ChangeRow(auditId, e.objectType, e.objectId, fields[0], e.changes[fields[0]].0,
                            e.changes[fields[0]].1, at),
                  ChangeRows(rest, auditId, e, at), e.objectType, e.objectId, field, e.changes[field].0);
    }
  }

  function Position(field: Field): (i: nat)
    ensures i < |FIELDS| && FIELDS[i] == field
  {
    match field
    case AcceptanceCriteria => 0
    case ActorType => 1
    case Assignees => 2
    case BlockedClaims => 3
    case Description => 4
    case FollowUpTasks => 5
    case Name => 6
    case NextSteps => 7
    case Notes => 8
    case Priority => 9
    case Resolution => 10
    case Role => 11
    case Status => 12
    case Tags => 13
    case Title => 14
    case Type => 15
    case Uri => 16
    case UsageBoundaries => 17
  }

  lemma FieldsListed(field: Field)
    ensures field in FIELDS && Distinct(FIELDS)
  {
    assert FIELDS[Position(field)] == field;
    forall i, j | 0 <= i < j < |FIELDS| ensures FIELDS[i] != FIELDS[j] {
      PositionOf(i);
      PositionOf(j);
    }
  }

  lemma PositionOf(i: nat)
    requires i < |FIELDS|
    ensures Position(FIELDS[i]) == i
  {
  }

  /** Replaying the rows a step added carries a column from before to after it. */
  ghost predicate Replays(s: Tables, t: Tables, kind: ObjectType, id: Id, field: Field) {
    |s.changes| <= |t.changes|
    && (ViewOf(s, kind, id).Some? && ViewOf(t, kind, id).Some? ==>
          Replay(t.changes[|s.changes|..], kind, id, field, Get(ViewOf(s, kind, id).value.columns, field))
          == Some(Get(ViewOf(t, kind, id).value.columns, field)))
  }

  lemma QuietReplays(s: Tables, t: Tables, kind: ObjectType, id: Id, field: Field, stamp: Seconds)
    requires t.changes == s.changes && Restamped(ViewOf(s, kind, id), ViewOf(t, kind, id), stamp)
    ensures Replays(s, t, kind, id, field)
  { }

  /** What a commit leaves of its draft: the rows it wrote, and new change rows. */
  lemma CommitRows(s: Tables, draft: Result<Draft>, clock: Clock)
    requires Grounded(s, draft) && Commit(draft, clock).Ok?
    ensures draft.Ok?
    ensures var d, t := draft.value, Commit(draft, clock).value;
      var at := Second(clock(|s.audit|));
      && |t.changes| >= |s.changes|
      && t.changes[|s.changes|..] == ChangeRows(FIELDS, |s.audit| + 1, d.entry, at)
      && |t.audit| == |s.audit| + 1
      && SameRow(RowOf(d.entry, at), t.audit[|s.audit|])
      && forall i | 0 <= i < |s.audit| :: SameRow(s.audit[i], t.audit[i])
  {
    hide Sentinel, Text.Dec, ChangeRows;
    var d, t := draft.value, Commit(draft, clock).value;
    var at := Second(clock(|s.audit|));
    ChangeRowsNamed(FIELDS, |s.audit| + 1, d.entry, at);
    assert t.changes[|s.changes|..] == ChangeRows(FIELDS, |s.audit| + 1, d.entry, at);
  }

  lemma FinishedIgnoresLedger(s: Tables, t: Tables, finish: Finish)
    requires s.agents == t.agents && s.tasks == t.tasks && s.artifacts == t.artifacts
    requires s.decisions == t.decisions && s.escalations == t.escalations
    ensures var u, v := Finished(s, finish), Finished(t, finish);
      u.agents == v.agents && u.tasks == v.tasks && u.artifacts == v.artifacts
      && u.decisions == v.decisions && u.escalations == v.escalations
  {
    hide Finished;
    FinishedOthers(s, finish);
    FinishedOthers(t, finish);
  }

  lemma CommitViews(draft: Result<Draft>, clock: Clock, kind: ObjectType, id: Id)
    requires Commit(draft, clock).Ok?
    ensures ViewOf(Commit(draft, clock).value, kind, id)
            == ViewOf(Finished(draft.value.tables, draft.value.finish), kind, id)
  {
    hide Finished, ViewOf, ChangeRows;
    var d, t := draft.value, Commit(draft, clock).value;
    var mid := Appended(d.tables, d.entry, Second(clock(|d.tables.audit|)));
    FinishedIgnoresLedger(d.tables, mid, d.finish);
    SameViews(Finished(d.tables, d.finish), t);
  }

  /** An entry that accounts for a row replays it. */
  lemma AccountedReplays(before: Option<View>, after: Option<View>, e: Entry, stamp: Seconds, auditId: nat,
                         at: Seconds, field: Field)
    requires Accounts(before, after, e, stamp) && before.Some? && Tracked(e.objectType, field)
    ensures after.Some?
    ensures Replay(ChangeRows(FIELDS, auditId, e, at), e.objectType, e.objectId, field,
                   Get(before.value.columns, field))
            == Some(Get(after.value.columns, field))
  {
    hide Replay, ChangeRows, Get;
    FieldsListed(field);
    if field in e.changes {
      ReplayEntry(FIELDS, auditId, e, at, field);
    } else {
      ReplayElsewhere(FIELDS, auditId, e, at, e.objectType, e.objectId, field, Get(before.value.columns, field));
    }
  }

  lemma CommitReplays(s: Tables, draft: Result<Draft>, clock: Clock, stamp: Seconds, kind: ObjectType,
                      id: Id, field: Field)
    requires Grounded(s, draft) && Commit(draft, clock).Ok? && Faithful(s, draft.value, stamp)
    requires Tracked(kind, field)
    ensures Replays(s, Commit(draft, clock).value, kind, id, field)
  {
    hide Finished, ViewOf, Grounded, ChangeRows, Replay, Tracked, Commit, Accounts, Get;
    CommitRows(s, draft, clock);
    CommitViews(draft, clock, kind, id);
    var d, at := draft.value, Second(clock(|s.audit|));
    if ViewOf(s, kind, id).Some? {
      if kind == d.entry.objectType && id == d.entry.objectId {
        AccountedReplays(ViewOf(s, kind, id), ViewOf(Finished(d.tables, d.finish), kind, id), d.entry, stamp,
                         |s.audit| + 1, at, field);
      } else {
        ReplayElsewhere(FIELDS, |s.audit| + 1, d.entry, at, kind, id, field,
                        Get(ViewOf(s, kind, id).value.columns, field));
      }
    }
  }

  lemma DroppedViews(s: Tables, tasks: set<Id>, messages: set<Id>, kind: ObjectType, id: Id)
    ensures var t := Archiving.Dropped(s, tasks, messages);
      && (ViewOf(t, kind, id).Some? ==> ViewOf(t, kind, id) == ViewOf(s, kind, id))
      && (kind != TaskObject ==> ViewOf(t, kind, id) == ViewOf(s, kind, id))
  { }

  lemma ArchiveViews(s: Tables, e: Event, kind: ObjectType, id: Id)
    requires e.op.ArchiveRun? && Apply(s, e).Ok?
    ensures var t := Apply(s, e).value;
      && (ViewOf(t, kind, id).Some? ==> ViewOf(t, kind, id) == ViewOf(s, kind, id))
      && (kind != TaskObject ==> ViewOf(t, kind, id) == ViewOf(s, kind, id))
      && t.changes == s.changes
  {
    hide Archiving.EligibleMessages, Archiving.Deletable, Archiving.EligibleTasks, Archiving.ArchiveRecords,
      Archiving.Dropped, Commit, ViewOf, ChangeRows, DraftOf, RecoverSession, SweepSessions, ClaimTask;
    var op := e.op;
    Archiving.ArchiveIsRemoval(s, e.at, op.days, op.actor, e.session, op.force, op.database, op.path);
    var cutoff := Archiving.ArchiveCutoff(e.at, op.days);
    var tasks, messages := Archiving.EligibleTasks(s, cutoff), Archiving.EligibleMessages(s, cutoff);
    if tasks != {} || messages != {} {
      Archiving.DroppedOthers(s, tasks, messages);
      DroppedViews(s, tasks, messages, kind, id);
      var draft := Archiving.Removal(s, tasks, messages, op.actor, e.session, op.database, op.path);
      CommitViews(Ok(draft), e.at.clock, kind, id);
      CommitChanges(Ok(draft), e.at.clock);
    }
  }

  lemma CommitChanges(draft: Result<Draft>, clock: Clock)
    requires Commit(draft, clock).Ok? && draft.value.entry.changes == map[] && !draft.value.finish.Strike?
    ensures Commit(draft, clock).value.changes == draft.value.tables.changes
  {
    hide ChangeRows, RowOf;
    NoChangeRows(FIELDS, |draft.value.tables.audit| + 1, draft.value.entry,
                 Second(clock(|draft.value.tables.audit|)));
  }

  // --- every step ---------------------------------------------------------

  lemma ReapingReplays(s: Tables, r: Reaping, stamp: Seconds, clock: Clock, kind: ObjectType, id: Id, field: Field)
    ensures Replays(s, Reaped(s, r, stamp, clock), kind, id, field)
    ensures ViewOf(s, kind, id).Some? <==> ViewOf(Reaped(s, r, stamp, clock), kind, id).Some?
  {
    hide Reaped, ViewOf, Replays;
    ReapedViews(s, r, stamp, clock, kind, id);
    QuietReplays(s, Reaped(s, r, stamp, clock), kind, id, field, stamp);
  }

  lemma ReplaysJoin(s: Tables, mid: Tables, t: Tables, kind: ObjectType, id: Id, field: Field)
    requires Replays(s, mid, kind, id, field) && Replays(mid, t, kind, id, field)
    requires s.changes <= mid.changes <= t.changes
    requires ViewOf(s, kind, id).Some? && ViewOf(t, kind, id).Some? ==> ViewOf(mid, kind, id).Some?
    ensures Replays(s, t, kind, id, field)
  {
    hide ViewOf, Replay, Get;
    if ViewOf(s, kind, id).Some? && ViewOf(t, kind, id).Some? {
      var before := Get(ViewOf(s, kind, id).value.columns, field);
      var between := Get(ViewOf(mid, kind, id).value.columns, field);
      assert t.changes[|s.changes|..] == mid.changes[|s.changes|..] + t.changes[|mid.changes|..];
      ReplayJoin(mid.changes[|s.changes|..], t.changes[|mid.changes|..], kind, id, field, before, between);
    }
  }

  lemma {:induction false} ReapAllReplays(s: Tables, order: seq<Id>, actor: Id, reason: string,
                                          operator: Option<Id>, stamp: Seconds, clock: Clock,
                                          kind: ObjectType, id: Id, field: Field)
    requires ReapAll(s, order, actor, reason, operator, stamp, clock).Ok?
    ensures var t := ReapAll(s, order, actor, reason, operator, stamp, clock).value;
      t.changes == s.changes && Replays(s, t, kind, id, field)
      && (ViewOf(s, kind, id).Some? <==> ViewOf(t, kind, id).Some?)
    decreases |order|
  {
    hide Reaped, ViewOf, Replays, Accountable;
    if order == [] {
      QuietReplays(s, s, kind, id, field, stamp);
    } else {
      var r := Reaping(order[0], actor, reason, operator, false);
      var mid := Reaped(s, r, stamp, clock);
      ReapedViews(s, r, stamp, clock, kind, id);
      ReapingReplays(s, r, stamp, clock, kind, id, field);
      ReapAllReplays(mid, order[1..], actor, reason, operator, stamp, clock, kind, id, field);
      ReplaysJoin(s, mid, ReapAll(mid, order[1..], actor, reason, operator, stamp, clock).value, kind, id, field);
    }
  }

  lemma TakeReplays(s: Tables, m: Moment, id: Id, agent: Id, session: Id, revision: int, reaped: Option<Id>,
                    kind: ObjectType, row: Id, field: Field)
    requires Commit(TakeTask(s, m, id, agent, session, revision, reaped), m.clock).Ok? && Tracked(kind, field)
    ensures var t := Commit(TakeTask(s, m, id, agent, session, revision, reaped), m.clock).value;
      Replays(s, t, kind, row, field) && t.changes == s.changes
  {
    hide Replays, Faithful, Grounded;
    TakeGrounded(s, m, id, agent, session, revision, reaped);
    TakeFaithful(s, m, id, agent, session, revision, reaped);
    CommitReplays(s, TakeTask(s, m, id, agent, session, revision, reaped), m.clock, Second(m.stamp), kind,
                  row, field);
    CommitChanges(TakeTask(s, m, id, agent, session, revision, reaped), m.clock);
  }

  /** A claim writes no change row, reaping or not. */
  lemma ClaimReplays(s: Tables, m: Moment, id: Id, agent: Id, session: Option<Id>, ifRevision: int,
                     kind: ObjectType, row: Id, field: Field)
    requires ClaimTask(s, m, id, agent, session, ifRevision).Ok? && Tracked(kind, field)
    ensures var t := ClaimTask(s, m, id, agent, session, ifRevision).value.tables;
      Replays(s, t, kind, row, field) && t.changes == s.changes
  {
    hide Reaped, Commit, TakeTask, Accountable, Replays, ViewOf;
    if s.tasks[id].revision != ifRevision {
      QuietReplays(s, s, kind, row, field, 0);
    } else if s.tasks[id].status == InProgress {
      var holder := s.claims[id].session;
      var r := LeaseReaping(holder, agent, session.value);
      var mid := Reaped(s, r, Second(m.stamp), m.clock);
      ReapedViews(s, r, Second(m.stamp), m.clock, kind, row);
      ReapingReplays(s, r, Second(m.stamp), m.clock, kind, row, field);
      TakeReplays(mid, m, id, agent, session.value, ifRevision + 1, Some(holder), kind, row, field);
      ReplaysJoin(s, mid, ClaimTask(s, m, id, agent, session, ifRevision).value.tables, kind, row, field);
    } else {
      TakeReplays(s, m, id, agent, session.value, ifRevision, None, kind, row, field);
    }
  }

  lemma RecoveriesReplay(s: Tables, e: Event, kind: ObjectType, id: Id, field: Field)
    requires (e.op.SessionRecover? || e.op.SessionSweep?) && Apply(s, e).Ok?
    ensures Replays(s, Apply(s, e).value, kind, id, field)
  {
    hide Reaped, ReapAll, Accountable, Replays, ViewOf, DraftOf, ClaimTask, Archiving.ArchiveRecords;
    match e.op
    case SessionRecover(x, actor, reason, staleAfter, force) =>
      ReapingReplays(s, Reaping(x, actor, reason, e.session, force), Second(e.at.stamp), e.at.clock, kind, id,
                     field);
    case SessionSweep(actor, reason, staleAfter, limit) =>
      ReapAllReplays(s, Oldest(s, Candidates(s, StaleCutoff(e.at.lease, staleAfter), e.session), limit),
                     actor, reason, e.session, Second(e.at.stamp), e.at.clock, kind, id, field);
  }

  lemma StepReplays(s: Tables, e: Event, kind: ObjectType, id: Id, field: Field)
    requires Tracked(kind, field)
    ensures Replays(s, Next(s, e), kind, id, field)
  {
    hide DraftOf, RecoverSession, SweepSessions, ClaimTask, Archiving.ArchiveRecords, Commit, Replays, Tracked,
      ViewOf, Grounded, Faithful;
    if Apply(s, e).Err? {
      QuietReplays(s, s, kind, id, field, 0);
    } else if Drafted(e.op) {
      DraftedApply(s, e);
      DraftGrounded(s, e);
      CommitOk(DraftOf(s, e), e.at.clock);
      DraftFaithful(s, e);
      CommitReplays(s, DraftOf(s, e), e.at.clock, Second(e.at.stamp), kind, id, field);
    } else if e.op.ArchiveRun? {
      ArchiveViews(s, e, kind, id);
      ArchiveReplays(s, Apply(s, e).value, kind, id, field);
    } else if e.op.TaskClaim? {
      ClaimReplays(s, e.at, e.op.id, e.op.agent, e.session, e.op.ifRevision, kind, id, field);
    } else {
      RecoveriesReplay(s, e, kind, id, field);
    }
  }

  lemma ArchiveReplays(s: Tables, t: Tables, kind: ObjectType, id: Id, field: Field)
    requires t.changes == s.changes && (ViewOf(t, kind, id).Some? ==> ViewOf(t, kind, id) == ViewOf(s, kind, id))
    ensures Replays(s, t, kind, id, field)
  { }

  // --- rows stay ----------------------------------------------------------

  lemma CommitKeepsRow(s: Tables, draft: Result<Draft>, clock: Clock, stamp: Seconds, kind: ObjectType, id: Id)
    requires Commit(draft, clock).Ok? && draft.Ok? && Faithful(s, draft.value, stamp)
    ensures ViewOf(s, kind, id).Some? ==> ViewOf(Commit(draft, clock).value, kind, id).Some?
  {
    hide Commit, Finished, ViewOf;
    CommitViews(draft, clock, kind, id);
  }

  lemma TakeKeepsRow(s: Tables, m: Moment, id: Id, agent: Id, session: Id, revision: int, reaped: Option<Id>,
                     kind: ObjectType, row: Id)
    requires Commit(TakeTask(s, m, id, agent, session, revision, reaped), m.clock).Ok?
    ensures ViewOf(s, kind, row).Some? ==>
      ViewOf(Commit(TakeTask(s, m, id, agent, session, revision, reaped), m.clock).value, kind, row).Some?
  { }

  lemma ClaimKeepsRow(s: Tables, m: Moment, id: Id, agent: Id, session: Option<Id>, ifRevision: int,
                      kind: ObjectType, row: Id)
    requires ClaimTask(s, m, id, agent, session, ifRevision).Ok? && ViewOf(s, kind, row).Some?
    ensures ViewOf(ClaimTask(s, m, id, agent, session, ifRevision).value.tables, kind, row).Some?
  {
    hide Reaped, Commit, TakeTask, Accountable, ViewOf;
    if s.tasks[id].revision == ifRevision {
      if s.tasks[id].status == InProgress {
        var holder := s.claims[id].session;
        var r := LeaseReaping(holder, agent, session.value);
        ReapedViews(s, r, Second(m.stamp), m.clock, kind, row);
        TakeKeepsRow(Reaped(s, r, Second(m.stamp), m.clock), m, id, agent, session.value, ifRevision + 1,
                     Some(holder), kind, row);
      } else {
        TakeKeepsRow(s, m, id, agent, session.value, ifRevision, None, kind, row);
      }
    }
  }

  lemma RecoveriesKeepRow(s: Tables, e: Event, kind: ObjectType, id: Id)
    requires (e.op.SessionRecover? || e.op.SessionSweep?) && Apply(s, e).Ok? && ViewOf(s, kind, id).Some?
    ensures ViewOf(Apply(s, e).value, kind, id).Some?
  {
    hide Reaped, ReapAll, Accountable, Replays, ViewOf, DraftOf, ClaimTask, Archiving.ArchiveRecords;
    match e.op
    case SessionRecover(x, actor, reason, staleAfter, force) =>
      ReapedViews(s, Reaping(x, actor, reason, e.session, force), Second(e.at.stamp), e.at.clock, kind, id);
    case SessionSweep(actor, reason, staleAfter, limit) =>
      ReapAllReplays(s, Oldest(s, Candidates(s, StaleCutoff(e.at.lease, staleAfter), e.session), limit),
                     actor, reason, e.session, Second(e.at.stamp), e.at.clock, kind, id, Name);
  }

  /** No operation removes a row, except that `archive` removes tasks. */
  lemma StepKeepsRow(s: Tables, e: Event, kind: ObjectType, id: Id)
    requires ViewOf(s, kind, id).Some? && (e.op.ArchiveRun? ==> kind != TaskObject)
    ensures ViewOf(Next(s, e), kind, id).Some?
  {
    hide DraftOf, RecoverSession, SweepSessions, ClaimTask, Archiving.ArchiveRecords, Commit, ViewOf, Faithful;
    if Apply(s, e).Ok? {
      if Drafted(e.op) {
        DraftedApply(s, e);
        CommitOk(DraftOf(s, e), e.at.clock);
        DraftFaithful(s, e);
        CommitKeepsRow(s, DraftOf(s, e), e.at.clock, Second(e.at.stamp), kind, id);
      } else if e.op.ArchiveRun? {
        ArchiveViews(s, e, kind, id);
      } else if e.op.TaskClaim? {
        ClaimKeepsRow(s, e.at, e.op.id, e.op.agent, e.session, e.op.ifRevision, kind, id);
      } else {
        RecoveriesKeepRow(s, e, kind, id);
      }
    }
  }

  lemma {:induction false} RowsStay(s: Tables, events: seq<Event>, kind: ObjectType, id: Id)
    requires ViewOf(s, kind, id).Some?
    requires kind == TaskObject ==> forall i | 0 <= i < |events| :: !events[i].op.ArchiveRun?
    ensures Stays(s, events, kind, id)
    decreases |events|
  {
    hide Next, ViewOf;
    if events != [] {
      StepKeepsRow(s, events[0], kind, id);
      RowsStay(Next(s, events[0]), events[1..], kind, id);
    }
  }

  // --- whole runs ---------------------------------------------------------

  /** The row exists before and after every event of the run. */
  ghost predicate Stays(s: Tables, events: seq<Event>, kind: ObjectType, id: Id)
    decreases |events|
  {
    ViewOf(s, kind, id).Some? && (events != [] ==> Stays(Next(s, events[0]), events[1..], kind, id))
  }

  /** No redaction has struck a change row of the column written from `start` on. */
  ghost predicate Unstruck(t: Tables, start: nat, kind: ObjectType, id: Id, field: Field) {
    forall c: nat | start <= c < |t.changes| && Concerns(t.changes[c], kind, id, field) :: !StruckAt(t, c)
  }

  /** A change row keeps its values over a run unless its audit row is struck. */
  lemma {:induction false} ChangesKept(s: Tables, events: seq<Event>, c: nat)
    requires Sound(s) && c < |s.changes|
    ensures var t := Run(s, events);
      c < |t.changes| && SameChange(s.changes[c], t.changes[c])
      && (t.changes[c] == s.changes[c] || StruckAt(t, c))
    decreases |events|
  {
    hide Next, Linked, Attached;
    if events != [] {
      var mid := Next(s, events[0]);
      StepExtends(s, events[0]);
      StepSound(s, events[0]);
      ChangesKept(mid, events[1..], c);
      assert SameChange(s.changes[c], mid.changes[c]);
      if StruckAt(mid, c) {
        TombstonesStay(mid, events[1..], mid.changes[c].auditId - 1);
      }
    }
  }

  /** Over a run that keeps the row and strikes none of the column's change rows,
      replaying them over the column's first value gives its last, each old value
      being the value reached so far. */
  lemma {:induction false} RunReplays(s: Tables, events: seq<Event>, kind: ObjectType, id: Id, field: Field)
    requires Sound(s) && Tracked(kind, field) && Stays(s, events, kind, id)
    requires Unstruck(Run(s, events), |s.changes|, kind, id, field)
    ensures var t := Run(s, events);
      && |s.changes| <= |t.changes| && ViewOf(s, kind, id).Some? && ViewOf(t, kind, id).Some?
      && Replay(t.changes[|s.changes|..], kind, id, field, Get(ViewOf(s, kind, id).value.columns, field))
         == Some(Get(ViewOf(t, kind, id).value.columns, field))
    decreases |events|
  {
    hide Next, Sound, ViewOf, Tracked, Replay, Get;
    var t := Run(s, events);
    if events == [] {
      assert t.changes[|s.changes|..] == [];
      ReplayNothing(kind, id, field, Get(ViewOf(s, kind, id).value.columns, field));
    } else {
      var mid, rest := Next(s, events[0]), events[1..];
      StepSound(s, events[0]);
      StepReplays(s, events[0], kind, id, field);
      StaysHere(mid, rest, kind, id);
      RunReplays(mid, rest, kind, id, field);
      RunReplaysStep(s, mid, rest, kind, id, field);
    }
  }

  lemma ReplayNothing(kind: ObjectType, id: Id, field: Field, value: string)
    ensures Replay([], kind, id, field, value) == Some(value)
  {
  }

  lemma {:induction false} StaysHere(s: Tables, events: seq<Event>, kind: ObjectType, id: Id)
    requires Stays(s, events, kind, id)
    ensures ViewOf(s, kind, id).Some?
  {
  }

  /** The change rows of one step, as the end of the run has them. */
  lemma {:induction false} StepRowsKept(mid: Tables, rest: seq<Event>, start: nat, kind: ObjectType, id: Id,
                                        field: Field)
    requires Sound(mid) && start <= |mid.changes|
    requires Unstruck(Run(mid, rest), start, kind, id, field)
    ensures |mid.changes| <= |Run(mid, rest).changes|
    ensures forall c: nat | start <= c < |mid.changes| ::
      Alike(mid.changes[c], Run(mid, rest).changes[c], kind, id, field)
  {
    hide Run, Sound, StruckAt, Extends;
    RunGrows(mid, rest);
    forall c: nat | start <= c < |mid.changes|
      ensures Alike(mid.changes[c], Run(mid, rest).changes[c], kind, id, field)
    {
      ChangesKept(mid, rest, c);
    }
  }

  lemma {:induction false} RunGrows(s: Tables, events: seq<Event>)
    ensures |s.changes| <= |Run(s, events).changes|
  {
    RunExtends(s, events);
  }

  lemma ReplayThrough(rows: seq<ChangeRow>, earlier: seq<ChangeRow>, cut: nat, start: nat, kind: ObjectType,
                      id: Id, field: Field, before: string, between: string, after: string)
    requires start <= cut <= |rows| && cut == |earlier|
    requires forall c: nat | start <= c < cut :: Alike(earlier[c], rows[c], kind, id, field)
    requires Replay(earlier[start..], kind, id, field, before) == Some(between)
    requires Replay(rows[cut..], kind, id, field, between) == Some(after)
    ensures Replay(rows[start..], kind, id, field, before) == Some(after)
  {
    hide Replay, Alike;
    ReplayAgrees(earlier[start..], rows[start..cut], kind, id, field, before);
    assert rows[start..] == rows[start..cut] + rows[cut..];
    ReplayJoin(rows[start..cut], rows[cut..], kind, id, field, before, between);
  }

  lemma {:induction false} RunReplaysStep(s: Tables, mid: Tables, rest: seq<Event>, kind: ObjectType, id: Id,
                                          field: Field)
    requires Sound(mid) && Replays(s, mid, kind, id, field)
    requires ViewOf(s, kind, id).Some? && ViewOf(mid, kind, id).Some?
    requires Unstruck(Run(mid, rest), |s.changes|, kind, id, field)
    requires var t := Run(mid, rest);
      && |mid.changes| <= |t.changes| && ViewOf(t, kind, id).Some?
      && Replay(t.changes[|mid.changes|..], kind, id, field, Get(ViewOf(mid, kind, id).value.columns, field))
         == Some(Get(ViewOf(t, kind, id).value.columns, field))
    ensures var t := Run(mid, rest);
      Replay(t.changes[|s.changes|..], kind, id, field, Get(ViewOf(s, kind, id).value.columns, field))
      == Some(Get(ViewOf(t, kind, id).value.columns, field))
  {
    hide Run, Sound, ViewOf, Replay, Get, StruckAt, Alike, Unstruck;
    var t := Run(mid, rest);
    StepRowsKept(mid, rest, |s.changes|, kind, id, field);
    ReplayThrough(t.changes, mid.changes, |mid.changes|, |s.changes|, kind, id, field,
                  Get(ViewOf(s, kind, id).value.columns, field), Get(ViewOf(mid, kind, id).value.columns, field),
                  Get(ViewOf(t, kind, id).value.columns, field));
  }

  /** Task status cannot be replayed: a claim moves a task into `in_progress` and
      writes no change row. */
  lemma ClaimsLeaveNoChangeRow(s: Tables, m: Moment, id: Id, agent: Id, session: Option<Id>, ifRevision: int)
    requires Inv(s) && ClaimTask(s, m, id, agent, session, ifRevision).Ok?
    requires ClaimTask(s, m, id, agent, session, ifRevision).value.receipt.claimed
    ensures var t := ClaimTask(s, m, id, agent, session, ifRevision).value.tables;
      id in t.tasks && t.tasks[id].status == InProgress && t.changes == s.changes
  {
    hide Inv, Commit, Reaped, TakeTask, Accountable;
    ClaimConsumes(s, m, id, agent, session, ifRevision);
    ClaimReplays(s, m, id, agent, session, ifRevision, AgentObject, agent, Name);
  }
}
