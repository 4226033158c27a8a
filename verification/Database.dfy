/** The database as the runtime changes it: every operation step by step inside one
    transaction, proved equal to what `Protocol` and `Correspondence` say it commits,
    and to leave the state as it was when it is refused. */
module Databases {
  import opened Records
  import opened Ledger
  import opened Protocol
  import opened Correspondence
  import opened Invariants
  import opened Sweep
  import Archiving = Archive
  import Redaction
  import Text

  /** The operation committed what `spec` says, or was refused with its error and
      left no trace. */
  predicate Follows(before: Tables, after: Tables, error: Option<Error>, spec: Result<Tables>) {
    if error.None? then spec == Ok(after) else spec == Err(error.value) && after == before
  }

  /** The scope lists exactly the ids of the rows appended, one after another. */
  predicate Receipted(before: seq<nat>, after: seq<nat>, start: nat, stop: nat) {
    start <= stop && after == before + Ids(start, stop)
  }

  /** The ids of the audit rows from `start` on. */
  function Ids(start: nat, stop: nat): seq<nat>
    requires start <= stop
  {
    seq(stop - start, i => start + 1 + i)
  }

  lemma {:induction false} ChangeRowsAppend(fields: seq<Field>, last: Field, id: nat, e: Entry, at: Seconds)
    ensures ChangeRows(fields + [last], id, e, at)
            == ChangeRows(fields, id, e, at)
               + (if last in e.changes
                  then [ChangeRow(id, e.objectType, e.objectId, last, e.changes[last].0, e.changes[last].1, at)]
                  else [])
    decreases |fields|
  {
    if fields == [] {
      assert fields + [last] == [last] && [last][1..] == [];
    } else {
      assert (fields + [last])[1..] == fields[1..] + [last];
      ChangeRowsAppend(fields[1..], last, id, e, at);
    }
  }

  function EntryRows(id: nat, e: Entry, at: Seconds): seq<ChangeRow> { ChangeRows(FIELDS, id, e, at) }

  lemma AppendedIs(s: Tables, e: Entry, at: Seconds)
    ensures Appended(s, e, at)
            == s.(sessions := Seen(s.sessions, e.session, at), audit := s.audit + [RowOf(e, at)],
                  changes := s.changes + EntryRows(|s.audit| + 1, e, at))
  {
  }

  class Database {
    var agents: map<Id, Agent>
    var sessions: map<Id, Session>
    var tasks: map<Id, Task>
    var claims: map<Id, Claim>
    var assignees: set<(Id, Id)>
    var evidence: map<nat, Evidence>
    var lastEvidence: nat
    var dependencies: map<Edge, bool>
    var messages: map<Id, Message>
    var reviews: map<Id, ReviewRow>
    var artifacts: map<Id, Record>
    var artifactTasks: set<(Id, Id)>
    var artifactReviewers: set<(Id, Id)>
    var decisions: map<Id, Record>
    var escalations: map<Id, Record>
    var cursors: map<Id, int>
    var audit: seq<AuditRow>
    var changes: seq<ChangeRow>

    /** The audit ids written in the active operation scope. */
    var auditIds: seq<nat>

    function Snapshot(): Tables
      reads this
    {
      Tables(agents, sessions, tasks, claims, assignees, evidence, lastEvidence, dependencies, messages, reviews,
             artifacts, artifactTasks, artifactReviewers, decisions, escalations, cursors, audit, changes)
    }

    constructor ()
      ensures Snapshot() == EMPTY && auditIds == []
    {
      agents, sessions, tasks, claims, assignees, evidence := map[], map[], map[], map[], {}, map[];
      lastEvidence, dependencies, messages, reviews, artifacts := 0, map[], map[], map[], map[];
      artifactTasks, artifactReviewers, decisions, escalations, cursors := {}, {}, map[], map[], map[];
      audit, changes := [], [];
      auditIds := [];
    }

    /** `connection.rollback()`. */
    method Rollback(saved: Tables)
      modifies this
      ensures Snapshot() == saved && auditIds == old(auditIds)
    {
      RollbackWork(saved);
      RollbackNotes(saved);
      RollbackLedger(saved);
    }

    method RollbackWork(saved: Tables)
      modifies this`agents, this`sessions, this`tasks, this`claims, this`assignees, this`evidence, this`lastEvidence
      ensures agents == saved.agents
      ensures sessions == saved.sessions
      ensures tasks == saved.tasks
      ensures claims == saved.claims
      ensures assignees == saved.assignees
      ensures evidence == saved.evidence
      ensures lastEvidence == saved.lastEvidence
    {
      agents := saved.agents;
      sessions := saved.sessions;
      tasks := saved.tasks;
      claims := saved.claims;
      assignees := saved.assignees;
      evidence := saved.evidence;
      lastEvidence := saved.lastEvidence;
    }

    method RollbackNotes(saved: Tables)
      modifies this`dependencies, this`messages, this`reviews, this`artifacts, this`artifactTasks,
        this`artifactReviewers
      ensures dependencies == saved.dependencies
      ensures messages == saved.messages
      ensures reviews == saved.reviews
      ensures artifacts == saved.artifacts
      ensures artifactTasks == saved.artifactTasks
      ensures artifactReviewers == saved.artifactReviewers
    {
      dependencies := saved.dependencies;
      messages := saved.messages;
      reviews := saved.reviews;
      artifacts := saved.artifacts;
      artifactTasks := saved.artifactTasks;
      artifactReviewers := saved.artifactReviewers;
    }

    method RollbackLedger(saved: Tables)
      modifies this`decisions, this`escalations, this`cursors, this`audit, this`changes
      ensures decisions == saved.decisions
      ensures escalations == saved.escalations
      ensures cursors == saved.cursors
      ensures audit == saved.audit
      ensures changes == saved.changes
    {
      decisions := saved.decisions;
      escalations := saved.escalations;
      cursors := saved.cursors;
      audit := saved.audit;
      changes := saved.changes;
    }

    // --- accountable principals and the audit append ----------------------

    method RequireActiveActor(actor: Id) returns (error: Option<Error>)
      ensures RequireActor(Snapshot(), actor) == if error.None? then Pass else Stop(error.value)
    {
      if actor !in agents { return Some(NotFound); }
      if !agents[actor].active { return Some(InactiveActor); }
      return None;
    }

    method RequireActiveSession(id: Id, actor: Id) returns (error: Option<Error>)
      ensures RequireSession(Snapshot(), id, actor) == if error.None? then Pass else Stop(error.value)
    {
      if id !in sessions || sessions[id].agent !in agents { return Some(NotFound); }
      var session := sessions[id];
      if session.agent != actor { return Some(SessionActorMismatch); }
      if !session.active { return Some(InactiveSession); }
      if !agents[session.agent].active { return Some(InactiveActor); }
      return None;
    }

    /** The change rows of one audit row, in the order of the column names. */
    method WriteChanges(fields: seq<Field>, id: nat, e: Entry, at: Seconds)
      modifies this`changes
      ensures changes == old(changes) + ChangeRows(fields, id, e, at)
    {
      for i := 0 to |fields|
        invariant changes == old(changes) + ChangeRows(fields[..i], id, e, at)
      {
        assert fields[..i + 1] == fields[..i] + [fields[i]];
        ChangeRowsAppend(fields[..i], fields[i], id, e, at);
        var field := fields[i];
        if field in e.changes {
          changes := changes + [ChangeRow(id, e.objectType, e.objectId, field, e.changes[field].0,
                                          e.changes[field].1, at)];
        }
      }
      assert fields[..|fields|] == fields;
    }

    /** The insertion of an audit row and its change rows. */
    method Append(e: Entry, stamp: Seconds)
      modifies this`audit, this`changes, this`auditIds
      ensures audit == old(audit) + [RowOf(e, stamp)]
      ensures changes == old(changes) + EntryRows(|old(audit)| + 1, e, stamp)
      ensures auditIds == old(auditIds) + [|old(audit)| + 1]
    {
      hide EntryRows;
      audit := audit + [AuditRow(e.actor, e.session, e.action, e.objectType, e.objectId, e.detail, stamp)];
      WriteEntryRows(|audit|, e, stamp);
      auditIds := auditIds + [|audit|];
    }

    method WriteEntryRows(id: nat, e: Entry, at: Seconds)
      modifies this`changes
      ensures changes == old(changes) + EntryRows(id, e, at)
    {
      WriteChanges(FIELDS, id, e, at);
    }

    /** The checks of `audit`; the session is seen as soon as they pass. */
    method Attribute(actor: Id, session: Option<Id>, stamp: Seconds) returns (error: Option<Error>)
      modifies this`sessions
      ensures Accountable(old(Snapshot()), actor, session) == if error.None? then Pass else Stop(error.value)
      ensures sessions == if error.None? then Seen(old(sessions), session, stamp) else old(sessions)
    {
      error := RequireActiveActor(actor);
      if error.Some? || session.None? { return; }
      error := RequireActiveSession(session.value, actor);
      if error.Some? { return; }
      sessions := sessions[session.value := sessions[session.value].(lastSeen := stamp)];
    }

    /** `audit`: the session is seen, the row appended, and its change rows written. */
    method Audit(e: Entry, clock: Clock) returns (error: Option<Error>)
      modifies this`sessions, this`audit, this`changes, this`auditIds
      ensures match Accountable(old(Snapshot()), e.actor, e.session)
              case Stop(refusal) => error == Some(refusal) && Snapshot() == old(Snapshot())
                                    && auditIds == old(auditIds)
              case Pass => error.None?
                           && Snapshot() == Appended(old(Snapshot()), e, Second(clock(|old(audit)|)))
                           && auditIds == old(auditIds) + [|old(audit)| + 1]
    {
      hide ChangeRows, Accountable, Seen, Appended, EntryRows;
      var stamp := Second(clock(|audit|));
      error := Attribute(e.actor, e.session, stamp);
      if error.Some? { return; }
      Append(e, stamp);
      AppendedIs(old(Snapshot()), e, stamp);
    }

    /** A transaction's last step: audit, and undo everything if that is refused. */
    method AuditOrUndo(e: Entry, clock: Clock, saved: Tables) returns (error: Option<Error>)
      requires |audit| == |saved.audit|
      modifies this
      ensures match Audited(old(Snapshot()), clock, e)
              case Err(refusal) => error == Some(refusal) && Snapshot() == saved
              case Ok(next) => error.None? && Snapshot() == next
                               && Receipted(old(auditIds), auditIds, |saved.audit|, |audit|)
    {
      hide ChangeRows, Accountable;
      error := Audit(e, clock);
      if error.Some? { Rollback(saved); }
    }

    // --- agents -----------------------------------------------------------

    method InsertAgent(id: Id, profile: Columns, stamp: Seconds)
      modifies this`agents
      ensures Snapshot() == AgentAdded(old(Snapshot()), id, profile, stamp)
    {
      agents := agents[id := Agent(profile, true, stamp, stamp)];
    }

    /** `initialise_cursor`. */
    method InitialiseCursor(agent: Id)
      modifies this`cursors
      ensures Snapshot() == CursorStarted(old(Snapshot()), agent)
    {
      cursors := cursors[agent := |audit|];
    }

    /** `agents.add`. */
    method AddAgent(m: Moment, id: Id, profile: Profile, actor: Option<Id>, session: Option<Id>)
      returns (error: Option<Error>)
      modifies this
      ensures Follows(old(Snapshot()), Snapshot(), error,
                      Commit(Protocol.AddAgent(old(Snapshot()), m, id, profile, actor, session), m.clock))
      ensures error.None? ==> Receipted(old(auditIds), auditIds, |old(audit)|, |audit|)
    {
      hide Receipted, Audited, AgentAdded, CursorStarted;
      var saved := Snapshot();
      if id in agents { return Some(ConstraintViolation); }
      InsertAgent(id, profile, Second(m.stamp));
      assert audit == saved.audit by { AgentAddedLedger(saved, id, profile, Second(m.stamp)); }
      error := AuditOrUndo(Entry(Actor(actor, id), session, Create, AgentObject, id, Given(""), map[]), m.clock,
                           saved);
      if error.None? { InitialiseCursor(id); }
    }

    /** Any active session of the agent, as the deactivation guard looks for one. */
    method ActiveSessionExists(agent: Id) returns (found: bool)
      ensures found == HasActiveSession(Snapshot(), agent)
    {
      var rest := sessions.Keys;
      while rest != {}
        invariant rest <= sessions.Keys
        invariant forall x | x in sessions && x !in rest :: !(sessions[x].agent == agent && sessions[x].active)
        decreases |rest|
      {
        var x :| x in rest;
        if sessions[x].agent == agent && sessions[x].active { return true; }
        rest := rest - {x};
      }
      return false;
    }

    /** The deactivation guard. */
    method MayLeave(agent: Id, active: Option<bool>) returns (allowed: bool)
      ensures allowed == (active == Some(false) ==> !HasActiveSession(Snapshot(), agent))
    {
      if active != Some(false) { return true; }
      var found := ActiveSessionExists(agent);
      return !found;
    }

    method WriteAgent(id: Id, profile: Columns, active: Option<bool>, stamp: Seconds)
      requires id in agents
      modifies this`agents
      ensures Snapshot() == AgentEdited(old(Snapshot()), id, profile, active, stamp)
    {
      var agent := agents[id];
      agents := agents[id := agent.(profile := agent.profile + profile,
                                    active := if active.Some? then active.value else agent.active,
                                    updatedAt := stamp)];
    }

    /** `agents.update`: the audit row is written before the agent's own. */
    method UpdateAgent(m: Moment, id: Id, profile: Profile, active: Option<bool>, actor: Option<Id>,
                       session: Option<Id>) returns (error: Option<Error>)
      modifies this
      ensures Follows(old(Snapshot()), Snapshot(), error,
                      Commit(Protocol.UpdateAgent(old(Snapshot()), m, id, profile, active, actor, session), m.clock))
      ensures error.None? ==> Receipted(old(auditIds), auditIds, |old(audit)|, |audit|)
    {
      hide Receipted, Audited, AgentEdited, Changed, HasActiveSession, SelectedAgentColumns, AgentColumns, Actor,
        StatusText, FinishedAgents, ChangeRows, Text.Sorted, Text.Ascending;
      var saved := Snapshot();
      if profile == map[] && active.None? { return Some(InvalidArguments); }
      if active.Some? && actor.None? { return Some(InvalidArguments); }
      if id !in agents { return Some(NotFound); }
      var leaving := MayLeave(id, active);
      if !leaving { return Some(AgentHasActiveSessions); }
      var selected := SelectedAgentColumns(profile, active);
      var e := Entry(Actor(actor, id), session, Update, AgentObject, id, ColumnsLine(selected.Keys),
                     Changed(AgentColumns(agents[id]), selected));
      error := AuditOrUndo(e, m.clock, saved);
      if error.None? {
        AuditedAgents(saved, m.clock, e);
        WriteAgent(id, profile, active, Second(m.stamp));
      }
    }

    // --- sessions ---------------------------------------------------------

    method InsertSession(id: Id, agent: Id, stamp: Seconds)
      modifies this`sessions
      ensures Snapshot() == SessionStarted(old(Snapshot()), id, agent, stamp)
    {
      sessions := sessions[id := Session(agent, true, stamp, stamp, None)];
    }

    /** `sessions.start`. */
    method StartSession(m: Moment, id: Id, agent: Id, harness: string) returns (error: Option<Error>)
      modifies this
      ensures Follows(old(Snapshot()), Snapshot(), error,
                      Commit(Protocol.StartSession(old(Snapshot()), m, id, agent, harness), m.clock))
      ensures error.None? ==> Receipted(old(auditIds), auditIds, |old(audit)|, |audit|)
    {
      hide Receipted, Audited, SessionStarted, RequireActor;
      var saved := Snapshot();
      error := RequireActiveActor(agent);
      if error.Some? { return; }
      if id in sessions { return Some(ConstraintViolation); }
      InsertSession(id, agent, Second(m.stamp));
      assert audit == saved.audit by { SessionStartedLedger(saved, id, agent, Second(m.stamp)); }
      error := AuditOrUndo(Entry(agent, Some(id), Start, SessionObject, id, Given(harness), map[]), m.clock, saved);
    }

    /** `require_open_session`. */
    method RequireOpen(id: Id) returns (error: Option<Error>)
      ensures RequireOpenSession(Snapshot(), id) == if error.None? then Pass else Stop(error.value)
    {
      if id !in sessions { return Some(NotFound); }
      if !sessions[id].active { return Some(InactiveSession); }
      return None;
    }

    /** `sessions.heartbeat`. */
    method BeatSession(m: Moment, id: Id) returns (error: Option<Error>)
      modifies this
      ensures Follows(old(Snapshot()), Snapshot(), error,
                      Commit(Protocol.BeatSession(old(Snapshot()), id), m.clock))
      ensures error.None? ==> Receipted(old(auditIds), auditIds, |old(audit)|, |audit|)
    {
      hide Receipted, Audited;
      var saved := Snapshot();
      error := RequireOpen(id);
      if error.Some? { return; }
      error := AuditOrUndo(Entry(sessions[id].agent, Some(id), Heartbeat, SessionObject, id, Given(""), map[]),
                           m.clock, saved);
    }

    /** The tasks a session claims, in order of their ids. */
    method ClaimedTasks(session: Id) returns (order: seq<Id>)
      ensures order == Text.Sorted(set t | t in claims && claims[t].session == session)
    {
      order := Text.Sorted(set t | t in claims && claims[t].session == session);
    }

    method CloseSession(id: Id, stamp: Seconds)
      requires id in sessions
      modifies this`sessions
      ensures Snapshot() == SessionClosed(old(Snapshot()), id, stamp)
    {
      sessions := sessions[id := sessions[id].(active := false, lastSeen := stamp, endedAt := Some(stamp))];
    }

    /** `sessions.end`. */
    method EndSession(m: Moment, id: Id) returns (error: Option<Error>)
      modifies this
      ensures Follows(old(Snapshot()), Snapshot(), error,
                      Commit(Protocol.EndSession(old(Snapshot()), m, id), m.clock))
      ensures error.None? ==> Receipted(old(auditIds), auditIds, |old(audit)|, |audit|)
    {
      hide Receipted, Audited, SessionClosed, Text.Ascending;
      var saved := Snapshot();
      error := RequireOpen(id);
      if error.Some? { return; }
      var claimed := ClaimedTasks(id);
      if claimed != [] {
        assert claimed[0] in claimed;
        return Some(SessionHasActiveClaims);
      }
      assert forall t | t in claims :: claims[t].session != id by { NoneSorted(saved, id); }
      var entry := Entry(sessions[id].agent, Some(id), End, SessionObject, id, Given(""), map[]);
      error := AuditOrUndo(entry, m.clock, saved);
      if error.None? {
        AuditedSessions(saved, m.clock, entry, id);
        CloseSession(id, Second(m.stamp));
      }
    }

    // --- evidence ---------------------------------------------------------

    method InsertEvidence(task: Id, uri: string, actor: Id, stamp: Seconds)
      modifies this`evidence, this`lastEvidence
      ensures Snapshot() == EvidenceAdded(old(Snapshot()), task, uri, actor, stamp)
      ensures lastEvidence == old(lastEvidence) + 1
    {
      lastEvidence := lastEvidence + 1;
      evidence := evidence[lastEvidence := Evidence(task, uri, actor, stamp)];
    }

    /** `evidence.add`. */
    method AddEvidence(m: Moment, task: Id, uri: string, actor: Id, session: Option<Id>)
      returns (error: Option<Error>)
      modifies this
      ensures Follows(old(Snapshot()), Snapshot(), error,
                      Commit(Protocol.AddEvidence(old(Snapshot()), m, task, uri, actor, session), m.clock))
      ensures error.None? ==> Receipted(old(auditIds), auditIds, |old(audit)|, |audit|)
    {
      hide Receipted, Audited, EvidenceAdded, RequireActor, Text.Dec;
      var saved := Snapshot();
      error := RequireActiveActor(actor);
      if error.Some? { return; }
      if task !in tasks { return Some(NotFound); }
      InsertEvidence(task, uri, actor, Second(m.stamp));
      assert audit == saved.audit by { EvidenceAddedLedger(saved, task, uri, actor, Second(m.stamp)); }
      error := AuditOrUndo(Entry(actor, session, Add, EvidenceObject, Text.Dec(lastEvidence), Given(task), map[]),
                           m.clock, saved);
    }

    // --- tasks ------------------------------------------------------------

    method InsertTask(id: Id, content: Columns, actor: Id, given: seq<Id>, stamp: Seconds)
      modifies this`tasks, this`assignees
      ensures Snapshot() == TaskCreated(old(Snapshot()), id, content, actor, given, stamp)
    {
      tasks := tasks[id := Task(content, "", Todo, 1, actor, stamp, stamp)];
      AddAssignees(id, given);
    }

    method AddAssignees(task: Id, given: seq<Id>)
      modifies this`assignees
      ensures assignees == old(assignees) + Assigned(task, given)
    {
      for i := 0 to |given|
        invariant assignees == old(assignees) + Assigned(task, given[..i])
      {
        assert given[..i + 1] == given[..i] + [given[i]];
        assignees := assignees + {(task, given[i])};
      }
      assert given[..|given|] == given;
    }

    method RemoveAssignees(task: Id, given: seq<Id>)
      modifies this`assignees
      ensures assignees == old(assignees) - Assigned(task, given)
    {
      for i := 0 to |given|
        invariant assignees == old(assignees) - Assigned(task, given[..i])
      {
        assert given[..i + 1] == given[..i] + [given[i]];
        assignees := assignees - {(task, given[i])};
      }
      assert given[..|given|] == given;
    }

    method RequireAgents(ids: seq<Id>) returns (error: Option<Error>)
      ensures error == if AgentsExist(Snapshot(), ids) then None else Some(NotFound)
    {
      for i := 0 to |ids|
        invariant forall j | 0 <= j < i :: ids[j] in agents
      {
        if ids[i] !in agents { return Some(NotFound); }
      }
      return None;
    }

    /** `tasks.create`. */
    method CreateTask(m: Moment, id: Id, content: TaskContent, actor: Id, given: seq<Id>, session: Option<Id>)
      returns (error: Option<Error>)
      modifies this
      ensures Follows(old(Snapshot()), Snapshot(), error,
                      Commit(Protocol.CreateTask(old(Snapshot()), m, id, content, actor, given, session), m.clock))
      ensures error.None? ==> Receipted(old(auditIds), auditIds, |old(audit)|, |audit|)
    {
      hide Receipted, Audited, TaskCreated, RequireActor, AgentsExist, Unique;
      var saved := Snapshot();
      error := RequireUnique(given);
      if error.Some? { return; }
      error := RequireActiveActor(actor);
      if error.Some? { return; }
      error := RequireAgents(given);
      if error.Some? { return; }
      if id in tasks { return Some(ConstraintViolation); }
      InsertTask(id, content, actor, given, Second(m.stamp));
      assert audit == saved.audit by { TaskCreatedLedger(saved, id, content, actor, given, Second(m.stamp)); }
      error := AuditOrUndo(Entry(actor, session, Create, TaskObject, id, Given(""), map[]), m.clock, saved);
    }

    /** The checks every revision-guarded write begins with. */
    method RequireCurrent(id: Id, actor: Id, session: Option<Id>, ifRevision: int) returns (error: Option<Error>)
      ensures RequireRevision(Snapshot(), id, actor, session, ifRevision)
              == if error.None? then Pass else Stop(error.value)
    {
      error := RequireActiveActor(actor);
      if error.Some? { return; }
      if session.Some? {
        error := RequireActiveSession(session.value, actor);
        if error.Some? { return; }
      }
      if id !in tasks { return Some(NotFound); }
      if tasks[id].revision != ifRevision { return Some(StaleTaskRevision); }
    }

    /** `require_claim_ownership`. */
    method RequireOwnership(id: Id, actor: Id, session: Option<Id>) returns (error: Option<Error>)
      ensures RequireClaimOwnership(Snapshot(), id, actor, session)
              == if error.None? then Pass else Stop(error.value)
    {
      if id !in claims { return None; }
      if actor != claims[id].agent { return Some(TaskClaimOwnerMismatch); }
      if session != Some(claims[id].session) { return Some(TaskClaimSessionMismatch); }
      return None;
    }

    method EditTask(id: Id, selected: Columns, stamp: Seconds)
      requires id in tasks
      modifies this`tasks
      ensures Snapshot() == TaskEdited(old(Snapshot()), id, selected, stamp)
    {
      var task := tasks[id];
      tasks := tasks[id := task.(content := task.content + selected, revision := task.revision + 1,
                                 updatedAt := stamp)];
    }

    /** `tasks.update`. */
    method UpdateTask(m: Moment, id: Id, selected: TaskContent, actor: Id, session: Option<Id>, ifRevision: int)
      returns (error: Option<Error>)
      modifies this
      ensures Follows(old(Snapshot()), Snapshot(), error,
                      Commit(Protocol.UpdateTask(old(Snapshot()), m, id, selected, actor, session, ifRevision),
                             m.clock))
      ensures error.None? ==> Receipted(old(auditIds), auditIds, |old(audit)|, |audit|)
    {
      hide Receipted, Audited, TaskEdited, RequireClaimOwnership, Changed, Accountable;
      var saved := Snapshot();
      if selected == map[] { return Some(InvalidArguments); }
      error := RequireCurrent(id, actor, session, ifRevision);
      if error.Some? { return; }
      error := RequireOwnership(id, actor, session);
      if error.Some? { return; }
      var changed := Changed(tasks[id].content, selected);
      EditTask(id, selected, Second(m.stamp));
      assert audit == saved.audit by { TaskEditedLedger(saved, id, selected, Second(m.stamp)); }
      error := AuditOrUndo(Entry(actor, session, Update, TaskObject, id,
                                 FieldsLine(selected.Keys, Some(ifRevision)), changed), m.clock, saved);
    }

    /** What `assign` checks before it writes, in the order the code does. */
    method RequireAssignable(id: Id, added: seq<Id>, removed: seq<Id>, actor: Id, session: Option<Id>,
                             ifRevision: int) returns (error: Option<Error>)
      ensures RequireAssignment(Snapshot(), id, added, removed, actor, session, ifRevision)
              == if error.None? then Pass else Stop(error.value)
    {
      hide AgentsExist, Unique, RequireRevision, RequireClaimOwnership;
      error := RequireUnique(added);
      if error.Some? { return; }
      error := RequireUnique(removed);
      if error.Some? { return; }
      if exists x | x in added :: x in removed { return Some(InvalidArguments); }
      if added == [] && removed == [] { return Some(InvalidArguments); }
      error := RequireCurrent(id, actor, session, ifRevision);
      if error.Some? { return; }
      error := RequireOwnership(id, actor, session);
      if error.Some? { return; }
      error := RequireAgents(added);
      if error.Some? { return; }
      if id in claims && claims[id].agent in removed { return Some(TaskClaimOwnerMismatch); }
      var existing := set p | p in assignees && p.0 == id :: p.1;
      if exists x | x in removed :: x !in existing { return Some(NotFound); }
      if (existing + Elements(added)) - Elements(removed) == existing { return Some(InvalidArguments); }
    }

    method Reassign(id: Id, added: seq<Id>, removed: seq<Id>, stamp: Seconds)
      requires id in tasks
      modifies this`tasks, this`assignees
      ensures Snapshot() == TaskAssigned(old(Snapshot()), id, added, removed, stamp)
    {
      AddAssignees(id, added);
      RemoveAssignees(id, removed);
      var task := tasks[id];
      tasks := tasks[id := task.(revision := task.revision + 1, updatedAt := stamp)];
      assert task.content + map[] == task.content;
    }

    /** `tasks.assign`. */
    method AssignTask(m: Moment, id: Id, added: seq<Id>, removed: seq<Id>, actor: Id, session: Option<Id>,
                      ifRevision: int) returns (error: Option<Error>)
      modifies this
      ensures Follows(old(Snapshot()), Snapshot(), error,
                      Commit(Protocol.AssignTask(old(Snapshot()), m, id, added, removed, actor, session, ifRevision),
                             m.clock))
      ensures error.None? ==> Receipted(old(auditIds), auditIds, |old(audit)|, |audit|)
    {
      hide Receipted, Audited, TaskAssigned, RequireAssignment, Listed, Reassigned, AssigneesOf;
      var saved := Snapshot();
      error := RequireAssignable(id, added, removed, actor, session, ifRevision);
      if error.Some? { return; }
      RequiredTask(saved, id, added, removed, actor, session, ifRevision);
      var before, after := Listed(AssigneesOf(saved, id)), Listed(Reassigned(saved, id, added, removed));
      Reassign(id, added, removed, Second(m.stamp));
      assert audit == saved.audit by { TaskAssignedLedger(saved, id, added, removed, Second(m.stamp)); }
      error := AuditOrUndo(Entry(actor, session, AssignAction, TaskObject, id,
                                 AssignLine(Elements(added), Elements(removed), ifRevision),
                                 map[Assignees := (before, after)]), m.clock, saved);
    }

    /** `resolve_reference`. */
    method RequireResolvable(because: Option<Reference>) returns (error: Option<Error>)
      ensures RequireReference(Snapshot(), because) == if error.None? then Pass else Stop(error.value)
    {
      if because.None? { return None; }
      var id := because.value.id;
      var found := match because.value.kind
        case ReviewObject => id in reviews
        case DecisionObject => id in decisions
        case MessageObject => id in messages
        case TaskObject => id in tasks
        case EscalationObject => id in escalations
        case ArtifactObject => id in artifacts
        case _ => false;
      return if found then None else Some(NotFound);
    }

    /** The guard of `task_update_done_requires_evidence`. */
    method EvidenceExists(task: Id) returns (found: bool)
      ensures found == HasEvidence(Snapshot(), task)
    {
      var rest := evidence.Keys;
      while rest != {}
        invariant rest <= evidence.Keys
        invariant forall e | e in evidence && e !in rest :: evidence[e].task != task
        decreases |rest|
      {
        var e :| e in rest;
        if evidence[e].task == task { return true; }
        rest := rest - {e};
      }
      return false;
    }

    /** The transition gate of `tasks.status`. */
    method RequireAllowed(from: TaskStatus, c: StatusChange) returns (error: Option<Error>)
      ensures RequireTransition(Snapshot(), from, c) == if error.None? then Pass else Stop(error.value)
    {
      hide HasEvidence;
      if c.owned && from != InProgress { return Some(TaskNotClaimed); }
      if from == InProgress && c.session.None? { return Some(SessionRequired); }
      if c.to == InProgress { return Some(TaskClaimRequired); }
      if c.to == from { return Some(InvalidTaskState); }
      if !Allowed(from, c.to) { return Some(InvalidTaskTransition); }
      if from == InProgress {
        if c.id !in claims { return Some(NotFound); }
        if c.actor != claims[c.id].agent { return Some(TaskClaimOwnerMismatch); }
        if c.session != Some(claims[c.id].session) { return Some(TaskClaimSessionMismatch); }
      } else if c.to == Done {
        var found := EvidenceExists(c.id);
        if !found { return Some(ConstraintViolation); }
      }
      return None;
    }

    method WriteStatus(c: StatusChange, stamp: Seconds)
      requires c.id in tasks
      modifies this`tasks, this`claims
      ensures Snapshot() == StatusChanged(old(Snapshot()), c, stamp)
    {
      var task := tasks[c.id];
      tasks := tasks[c.id := task.(status := c.to, notes := if c.note == "" then task.notes else c.note,
                                   revision := task.revision + 1, updatedAt := stamp)];
      if task.status == InProgress { claims := claims - {c.id}; }
    }

    /** `tasks.status`. */
    method ChangeStatus(m: Moment, c: StatusChange) returns (error: Option<Error>)
      modifies this
      ensures Follows(old(Snapshot()), Snapshot(), error,
                      Commit(Protocol.ChangeStatus(old(Snapshot()), m, c), m.clock))
      ensures error.None? ==> Receipted(old(auditIds), auditIds, |old(audit)|, |audit|)
    {
      hide Receipted, Audited, StatusChanged, RequireTransition, RequireReference, NotesChange, StatusName,
        Accountable;
      var saved := Snapshot();
      error := RequireCurrent(c.id, c.actor, c.session, c.ifRevision);
      if error.Some? { return; }
      error := RequireResolvable(c.because);
      if error.Some? { return; }
      var task := tasks[c.id];
      error := RequireAllowed(task.status, c);
      if error.Some? { return; }
      WriteStatus(c, Second(m.stamp));
      assert audit == saved.audit by { StatusChangedLedger(saved, c, Second(m.stamp)); }
      error := AuditOrUndo(Entry(c.actor, c.session, StatusAction, TaskObject, c.id,
                                 StatusLine(task.status, c.to, c.ifRevision, c.because),
                                 NotesChange(task.notes, c.note)
                                   [Status := (StatusName(task.status), StatusName(c.to))]),
                           m.clock, saved);
    }

    // --- recovery and claims ----------------------------------------------

    /** One claim of a reaped session: its task blocked, the claim deleted. */
    method BlockClaimed(task: Id, reason: string, stamp: Seconds)
      requires task in tasks && task in claims
      modifies this`tasks, this`claims
      ensures Snapshot() == ClaimBlocked(old(Snapshot()), task, reason, stamp)
    {
      var row := tasks[task];
      tasks := tasks[task := row.(status := Blocked, revision := row.revision + 1,
                                  notes := if row.notes == "" then reason else row.notes + "\n" + reason,
                                  updatedAt := stamp)];
      claims := claims - {task};
    }

    /** One round of the reaper's loop. */
    method ReapTask(ghost s: Tables, r: Reaping, order: seq<Id>, i: nat, stamp: Seconds, clock: Clock)
      returns (error: Option<Error>)
      requires Inv(s) && order == Text.Sorted(Owned(s, r.session)) && i < |order|
      requires Snapshot() == PartlyReaped(s, r, order, i, stamp, clock)
      modifies this
      ensures match Accountable(s, r.actor, r.operator)
              case Stop(refusal) => error == Some(refusal)
              case Pass => error.None? && auditIds == old(auditIds) + [|old(audit)| + 1]
                           && Snapshot() == PartlyReaped(s, r, order, i + 1, stamp, clock)
      ensures |old(audit)| == |s.audit| + i
    {
      hide Inv, Accountable, Appended, ClaimBlocked, PartlyReaped, Owned, Text.Sorted, Text.Ascending;
      PartlyReapedTask(s, r, order, i, stamp, clock);
      PartlyReapedAccountable(s, r, order, i, stamp, clock);
      BlockedAccountable(Snapshot(), r, order[i], stamp);
      PartlyReapedNext(s, r, order, i, stamp, clock);
      var task := tasks[order[i]];
      assert task.status == InProgress;  // the code's invariant-violation branch is never taken
      BlockClaimed(order[i], r.reason, stamp);
      error := Audit(ClaimEntry(r, order[i], task.revision), clock);
    }

    /** The end of the reaper, all tasks blocked: the session ended, and its row. */
    method EndReap(ghost s: Tables, r: Reaping, stamp: Seconds, clock: Clock) returns (error: Option<Error>)
      requires r.session in s.sessions
      requires var order := Text.Sorted(Owned(s, r.session));
        Snapshot() == PartlyReaped(s, r, order, |order|, stamp, clock)
      modifies this
      ensures match Reap(s, r, stamp, clock)
              case Err(refusal) => error == Some(refusal)
              case Ok(next) => error.None? && Snapshot() == next && |audit| == |old(audit)| + 1
                               && auditIds == old(auditIds) + [|old(audit)| + 1]
    {
      hide Accountable, Appended, SessionClosed, PartlyReaped, Reap, Owned, Text.Sorted, Text.Ascending;
      ghost var order := Text.Sorted(Owned(s, r.session));
      PartlyReapedSession(s, r, order, stamp, clock);
      EndReaped(s, r, order, stamp, clock);
      SessionClosedLedger(Snapshot(), r.session, stamp);
      AppendedLength(SessionClosed(Snapshot(), r.session, stamp), EndEntry(r), Second(clock(|audit|)));
      CloseSession(r.session, stamp);
      error := Audit(EndEntry(r), clock);
    }

    /** The reaper's loop over the session's claims, in order of their tasks. */
    method ReapTasks(r: Reaping, stamp: Seconds, clock: Clock) returns (error: Option<Error>)
      requires Inv(Snapshot())
      modifies this
      ensures var s, order := old(Snapshot()), Text.Sorted(Owned(old(Snapshot()), r.session));
        if error.Some? then Accountable(s, r.actor, r.operator) == Stop(error.value)
        else Snapshot() == PartlyReaped(s, r, order, |order|, stamp, clock)
             && auditIds == old(auditIds) + Ids(|s.audit|, |s.audit| + |order|)
    {
      hide Inv, PartlyReaped, Accountable, Owned, Ids, Text.Sorted, Text.Ascending;
      ghost var s := Snapshot();
      var order := Text.Sorted(Owned(Snapshot(), r.session));
      PartlyReapedNone(s, r, order, stamp, clock);
      IdsNext(|s.audit|, |s.audit|);
      error := None;
      for i := 0 to |order|
        invariant Snapshot() == PartlyReaped(s, r, order, i, stamp, clock)
        invariant auditIds == old(auditIds) + Ids(|s.audit|, |s.audit| + i) && error.None?
      {
        error := ReapTask(s, r, order, i, stamp, clock);
        if error.Some? { return; }
        IdsNext(|s.audit|, |s.audit| + i);
      }
    }

    /** `recover_session_claims`, the reaper. Refused part-way it leaves what it has
        written to the caller's rollback. */
    method ReapSession(r: Reaping, stamp: Seconds, clock: Clock) returns (error: Option<Error>)
      requires Inv(Snapshot()) && r.session in sessions
      modifies this
      ensures match Reap(old(Snapshot()), r, stamp, clock)
              case Err(refusal) => error == Some(refusal)
              case Ok(next) => error.None? && Snapshot() == next
                               && Receipted(old(auditIds), auditIds, |old(audit)|, |audit|)
    {
      hide Inv, PartlyReaped, Accountable, Reap, Owned, Ids, Text.Sorted, Text.Ascending;
      ghost var s := Snapshot();
      error := ReapTasks(r, stamp, clock);
      if error.Some? {
        ReapUnaccountable(s, r, stamp, clock);
        return;
      }
      PartlyReapedSession(s, r, Text.Sorted(Owned(s, r.session)), stamp, clock);
      IdsNext(|s.audit|, |audit|);
      error := EndReap(s, r, stamp, clock);
    }

    /** `sessions.recover`. */
    method RecoverSession(m: Moment, id: Id, actor: Id, reason: string, session: Option<Id>, staleAfter: Seconds,
                          force: bool) returns (error: Option<Error>)
      requires Inv(Snapshot())
      modifies this
      ensures Follows(old(Snapshot()), Snapshot(), error,
                      Protocol.RecoverSession(old(Snapshot()), m, id, actor, reason, session, staleAfter, force))
      ensures error.None? ==> Receipted(old(auditIds), auditIds, |old(audit)|, |audit|)
    {
      hide Inv, Reap, RequireActor;
      var saved := Snapshot();
      if session == Some(id) { return Some(InvalidArguments); }
      var stamp, cutoff := Second(m.stamp), StaleCutoff(m.lease, staleAfter);
      error := RequireActiveActor(actor);
      if error.Some? { return; }
      if id !in sessions { return Some(NotFound); }
      if !sessions[id].active { return Some(InactiveSession); }
      if !force && sessions[id].lastSeen > cutoff { return Some(SessionNotStale); }
      error := ReapSession(Reaping(id, actor, reason, session, force), stamp, m.clock);
      if error.Some? { Rollback(saved); }
    }

    /** `require_active_actor` and, when a session is given, `require_active_session`. */
    method RequireAccountable(actor: Id, session: Option<Id>) returns (error: Option<Error>)
      ensures Accountable(Snapshot(), actor, session) == if error.None? then Pass else Stop(error.value)
    {
      error := RequireActiveActor(actor);
      if error.None? && session.Some? { error := RequireActiveSession(session.value, actor); }
    }

    /** The sweep's loop: one reaping after another. */
    method ReapEach(order: seq<Id>, actor: Id, reason: string, operator: Option<Id>, stamp: Seconds, clock: Clock)
      returns (error: Option<Error>)
      requires Inv(Snapshot()) && forall x | x in order :: x in sessions
      modifies this
      ensures match ReapAll(old(Snapshot()), order, actor, reason, operator, stamp, clock)
              case Err(refusal) => error == Some(refusal)
              case Ok(next) => error.None? && Snapshot() == next
                               && Receipted(old(auditIds), auditIds, |old(audit)|, |audit|)
    {
      hide Inv, Reap, ReapAll, Ids, Snapshot;
      ghost var s := Snapshot();
      forall x | x in order ensures x in s.sessions { SnapshotSessions(x, s); }
      ReapAllNone(s, actor, reason, operator, stamp, clock);
      IdsNext(|audit|, |audit|);
      assert order[..0] == [];
      error := None;
      for i := 0 to |order|
        invariant Inv(Snapshot()) && error.None?
        invariant ReapAll(s, order[..i], actor, reason, operator, stamp, clock) == Ok(Snapshot())
        invariant |audit| >= |old(audit)| && auditIds == old(auditIds) + Ids(|old(audit)|, |audit|)
      {
        ghost var before, n := Snapshot(), |audit|;
        ReapAllNext(s, order, i, actor, reason, operator, stamp, clock);
        SessionsKept(s, order[..i], actor, reason, operator, stamp, clock);
        SnapshotSessions(order[i], before);
        error := ReapSession(Reaping(order[i], actor, reason, operator, false), stamp, clock);
        if error.Some? { return; }
        ReapKeeps(before, Reaping(order[i], actor, reason, operator, false), stamp, clock);
        IdsJoin(|old(audit)|, n, |audit|);
      }
      assert order[..|order|] == order;
    }

    lemma SnapshotSessions(x: Id, before: Tables)
      requires before == Snapshot()
      ensures x in before.sessions <==> x in sessions
    {
    }

    /** `sessions.sweep`. */
    method SweepSessions(m: Moment, actor: Id, reason: string, session: Option<Id>, staleAfter: Seconds, limit: nat)
      returns (error: Option<Error>, recovered: seq<Id>, truncated: bool)
      requires Inv(Snapshot())
      modifies this
      ensures match Protocol.SweepSessions(old(Snapshot()), m, actor, reason, session, staleAfter, limit)
              case Err(refusal) => error == Some(refusal) && Snapshot() == old(Snapshot())
              case Ok(swept) => error.None? && Snapshot() == swept.tables && recovered == swept.sessions
                                && truncated == swept.truncated
                                && Receipted(old(auditIds), auditIds, |old(audit)|, |audit|)
    {
      hide Inv, ReapAll, Accountable, Stale, Ids;
      recovered, truncated := [], false;
      var saved := Snapshot();
      error := RequireAccountable(actor, session);
      if error.Some? { return; }
      var candidates := Candidates(saved, StaleCutoff(m.lease, staleAfter), session);
      var found := Oldest(saved, candidates, limit + 1);
      truncated := |found| > limit;
      OldestPrefix(saved, candidates, limit);
      recovered := if truncated then found[..limit] else found;
      error := ReapEach(recovered, actor, reason, session, Second(m.stamp), m.clock);
      if error.Some? { Rollback(saved); }
    }

    method InsertClaim(id: Id, agent: Id, session: Id, stamp: Seconds)
      requires id in tasks
      modifies this`claims, this`tasks, this`assignees
      ensures Snapshot() == Taken(old(Snapshot()), id, agent, session, stamp)
    {
      claims := claims[id := Claim(agent, session, stamp)];
      var task := tasks[id];
      tasks := tasks[id := task.(status := InProgress, revision := task.revision + 1, updatedAt := stamp)];
      assignees := assignees + {(id, agent)};
    }

    /** The claim inserted under its triggers, the task moved at the expected revision,
        the claimant assigned, and the audit row. */
    method Take(m: Moment, id: Id, agent: Id, session: Id, revision: int, reaped: Option<Id>)
      returns (error: Option<Error>)
      modifies this
      ensures match Commit(TakeTask(old(Snapshot()), m, id, agent, session, revision, reaped), m.clock)
              case Err(refusal) => error == Some(refusal)
              case Ok(next) => error.None? && Snapshot() == next && |audit| == |old(audit)| + 1
                               && auditIds == old(auditIds) + [|old(audit)| + 1]
    {
      hide Accountable, Appended, Taken;
      if id !in tasks { return Some(NotFound); }
      var matching := session in sessions && sessions[session].agent == agent && sessions[session].active
                      && agent in agents && agents[agent].active;
      if id in claims || !matching || !Claimable(tasks[id].status) { return Some(ConstraintViolation); }
      if tasks[id].revision != revision { return Some(StaleTaskRevision); }
      TakenLedger(Snapshot(), id, agent, session, Second(m.stamp));
      InsertClaim(id, agent, session, Second(m.stamp));
      ghost var entry := Entry(agent, Some(session), ClaimAction, TaskObject, id, ClaimLine(revision, reaped), map[]);
      AppendedLength(Snapshot(), entry, Second(m.clock(|audit|)));
      error := Audit(Entry(agent, Some(session), ClaimAction, TaskObject, id, ClaimLine(revision, reaped), map[]),
                     m.clock);
    }

    /** The lease: a silent holder is reaped on behalf of the claimant. */
    method ReapHolder(m: Moment, id: Id, agent: Id, mine: Id) returns (error: Option<Error>, holder: Id)
      requires Inv(Snapshot())
      modifies this
      ensures if !HolderSilent(old(Snapshot()), id, StaleCutoff(m.lease, SESSION_LEASE_SECONDS))
              then error == Some(TaskAlreadyClaimed)
              else holder == old(claims)[id].session
                   && match Reap(old(Snapshot()), LeaseReaping(holder, agent, mine), Second(m.stamp), m.clock)
                      case Err(refusal) => error == Some(refusal)
                      case Ok(next) => error.None? && Snapshot() == next
                                       && Receipted(old(auditIds), auditIds, |old(audit)|, |audit|)
    {
      hide Inv, Reap, Ids;
      holder := "";
      if id !in claims || claims[id].session !in sessions { return Some(TaskAlreadyClaimed), holder; }
      holder := claims[id].session;
      if sessions[holder].lastSeen > StaleCutoff(m.lease, SESSION_LEASE_SECONDS) {
        return Some(TaskAlreadyClaimed), holder;
      }
      error := ReapSession(LeaseReaping(holder, agent, mine), Second(m.stamp), m.clock);
    }

    /** `tasks.claim` inside its transaction. */
    method ClaimInTransaction(m: Moment, id: Id, agent: Id, mine: Id, ifRevision: int)
      returns (error: Option<Error>, receipt: ClaimReceipt)
      requires Inv(Snapshot())
      modifies this
      ensures match Protocol.ClaimTask(old(Snapshot()), m, id, agent, Some(mine), ifRevision)
              case Err(refusal) => error == Some(refusal)
              case Ok(claimed) => error.None? && Snapshot() == claimed.tables && receipt == claimed.receipt
                                  && Receipted(old(auditIds), auditIds, |old(audit)|, |audit|)
    {
      hide Inv, Reap, Accountable, TakeTask, Commit, Ids, HolderSilent, LeaseReaping;
      receipt := ClaimReceipt(0, false, None);
      error := RequireAccountable(agent, Some(mine));
      if error.Some? { return; }
      if id !in tasks { return Some(NotFound), receipt; }
      var task := tasks[id];
      IdsNext(|audit|, |audit|);
      if task.revision != ifRevision {
        if task.revision == ifRevision + 1 && task.status == InProgress && id in claims
           && claims[id].agent == agent && claims[id].session == mine {
          return None, ClaimReceipt(task.revision, false, None);
        }
        return Some(StaleTaskRevision), receipt;
      }
      if task.status == InProgress {
        var holder;
        error, holder := ReapHolder(m, id, agent, mine);
        if error.Some? { return; }
        error, receipt := TakeReceipt(m, id, agent, mine, ifRevision + 1, Some(holder), |old(audit)|, old(auditIds));
      } else if task.status == Done {
        return Some(InvalidTaskState), receipt;
      } else {
        error, receipt := TakeReceipt(m, id, agent, mine, ifRevision, None, |old(audit)|, old(auditIds));
      }
    }

    method TakeReceipt(m: Moment, id: Id, agent: Id, mine: Id, revision: int, reaped: Option<Id>,
                       ghost start: nat, ghost before: seq<nat>)
      returns (error: Option<Error>, receipt: ClaimReceipt)
      requires start <= |audit| && auditIds == before + Ids(start, |audit|)
      modifies this
      ensures match Commit(TakeTask(old(Snapshot()), m, id, agent, mine, revision, reaped), m.clock)
              case Err(refusal) => error == Some(refusal)
              case Ok(next) => error.None? && Snapshot() == next && |audit| >= start
                               && auditIds == before + Ids(start, |audit|)
                               && receipt == ClaimReceipt(revision + 1, true, reaped)
    {
      hide TakeTask, Commit, Ids;
      IdsNext(start, |audit|);
      error := Take(m, id, agent, mine, revision, reaped);
      receipt := ClaimReceipt(revision + 1, true, reaped);
    }

    /** `tasks.claim`. */
    method ClaimTask(m: Moment, id: Id, agent: Id, session: Option<Id>, ifRevision: int)
      returns (error: Option<Error>, receipt: ClaimReceipt)
      requires Inv(Snapshot())
      modifies this
      ensures match Protocol.ClaimTask(old(Snapshot()), m, id, agent, session, ifRevision)
              case Err(refusal) => error == Some(refusal) && Snapshot() == old(Snapshot())
              case Ok(claimed) => error.None? && Snapshot() == claimed.tables && receipt == claimed.receipt
                                  && Receipted(old(auditIds), auditIds, |old(audit)|, |audit|)
    {
      if session.None? { return Some(SessionRequired), ClaimReceipt(0, false, None); }
      hide Inv, Protocol.ClaimTask, Ids;
      var saved := Snapshot();
      error, receipt := ClaimInTransaction(m, id, agent, session.value, ifRevision);
      if error.Some? { Rollback(saved); }
    }

    // --- messages, read positions and redaction ---------------------------

    method PutMessage(id: Id, message: Message)
      modifies this`messages
      ensures Snapshot() == old(Snapshot()).(messages := old(messages)[id := message])
    {
      messages := messages[id := message];
    }

    /** `messages.send`. */
    method SendMessage(m: Moment, id: Id, sender: Id, recipient: string, about: Option<Id>, body: string,
                       session: Option<Id>) returns (error: Option<Error>)
      modifies this
      ensures Follows(old(Snapshot()), Snapshot(), error,
                      Commit(Correspondence.SendMessage(old(Snapshot()), m, id, sender, recipient, about, body,
                                                        session), m.clock))
      ensures error.None? ==> Receipted(old(auditIds), auditIds, |old(audit)|, |audit|)
    {
      hide Receipted, Audited, RequireActor;
      var saved := Snapshot();
      error := RequireActiveActor(sender);
      if error.Some? { return; }
      if about.Some? && about.value !in tasks { return Some(NotFound); }
      if id in messages { return Some(ConstraintViolation); }
      PutMessage(id, Message(sender, recipient, about, body, Second(m.stamp)));
      error := AuditOrUndo(Entry(sender, session, Send, MessageObject, id, Given(recipient), map[]), m.clock, saved);
    }

    /** `messages.redact`. */
    method RedactMessage(m: Moment, id: Id, actor: Id, reason: string, session: Option<Id>)
      returns (error: Option<Error>)
      modifies this
      ensures Follows(old(Snapshot()), Snapshot(), error,
                      Commit(Correspondence.RedactMessage(old(Snapshot()), id, actor, reason, session), m.clock))
      ensures error.None? ==> Receipted(old(auditIds), auditIds, |old(audit)|, |audit|)
    {
      hide Receipted, Audited, RequireActor, REDACTED_BODY;
      var saved := Snapshot();
      error := RequireActiveActor(actor);
      if error.Some? { return; }
      if id !in messages { return Some(NotFound); }
      if messages[id].body == REDACTED_BODY { return Some(AlreadyRedacted); }
      PutMessage(id, messages[id].(body := REDACTED_BODY));
      error := AuditOrUndo(Entry(actor, session, Redact, MessageObject, id, Given(reason), map[]), m.clock, saved);
    }

    method LoadCursor(agent: Id) returns (cursor: int)
      ensures cursor == CursorOf(Snapshot(), agent)
    {
      cursor := if agent in cursors then cursors[agent] else 0;
    }

    method SaveCursor(agent: Id, cursor: int)
      modifies this`cursors
      ensures Snapshot() == old(Snapshot()).(cursors := old(cursors)[agent := cursor])
    {
      cursors := cursors[agent := cursor];
    }

    /** The inbox's owner: the agent named, or the session's own. */
    method ResolveAgent(agent: Option<Id>, session: Option<Id>) returns (owner: Result<Id>)
      ensures owner == InboxOwner(Snapshot(), agent, session)
    {
      if agent.Some? { return Ok(agent.value); }
      if session.None? { return Err(InvalidArguments); }
      if session.value !in sessions { return Err(NotFound); }
      return Ok(sessions[session.value].agent);
    }

    /** `inbox.mark_read`. */
    method MarkRead(m: Moment, agent: Option<Id>, cursor: nat, session: Option<Id>) returns (error: Option<Error>)
      modifies this
      ensures Follows(old(Snapshot()), Snapshot(), error,
                      Commit(MarkInboxRead(old(Snapshot()), agent, cursor, session), m.clock))
      ensures error.None? ==> Receipted(old(auditIds), auditIds, |old(audit)|, |audit|)
    {
      hide Receipted, Audited, RequireActor, InboxOwner, CursorOf;
      var saved := Snapshot();
      var resolved := ResolveAgent(agent, session);
      if resolved.Err? { return Some(resolved.error); }
      var owner := resolved.value;
      error := RequireActiveActor(owner);
      if error.Some? { return; }
      var previous := LoadCursor(owner);
      var head := |audit|;
      if cursor > head { return Some(InvalidArguments); }
      if cursor < previous { return Some(CursorNotMonotonic); }
      SaveCursor(owner, cursor);
      error := AuditOrUndo(Entry(owner, session, Action.MarkRead, AgentObject, owner,
                                 CursorLine(previous, cursor), map[]),
                           m.clock, saved);
    }

    /** The change rows of one audit row struck, in place. */
    method StrikeChanges(auditId: nat, text: string)
      modifies this`changes
      ensures changes == Struck(old(changes), auditId, text)
    {
      for i := 0 to |changes|
        invariant |changes| == |old(changes)|
        invariant forall j | 0 <= j < i :: changes[j] == Struck(old(changes), auditId, text)[j]
        invariant forall j | i <= j < |changes| :: changes[j] == old(changes)[j]
      {
        if changes[i].auditId == auditId {
          changes := changes[i := changes[i].(oldValue := text, newValue := text)];
        }
      }
    }

    method StrikeRow(auditId: nat)
      requires 1 <= auditId <= |audit|
      modifies this`audit, this`changes
      ensures Snapshot() == Tombstoned(old(Snapshot()), auditId)
    {
      hide Struck, Sentinel;
      var redaction := |audit|;
      audit := audit[auditId - 1 := audit[auditId - 1].(detail := Tombstone(redaction))];
      StrikeChanges(auditId, Sentinel(redaction));
    }

    /** `audit redact`: the event first, then the target's text. */
    method RedactAudit(m: Moment, auditId: nat, actor: Id, reason: string, session: Option<Id>)
      returns (error: Option<Error>)
      modifies this
      ensures Follows(old(Snapshot()), Snapshot(), error,
                      Commit(Redaction.RedactAudit(old(Snapshot()), auditId, actor, reason, session), m.clock))
      ensures error.None? ==> Receipted(old(auditIds), auditIds, |old(audit)|, |audit|)
    {
      hide Receipted, Audited, Tombstoned, Redaction.Render, Redaction.Marked, Text.Dec;
      var saved := Snapshot();
      if auditId < 1 || auditId > |audit| { return Some(NotFound); }
      if Redaction.Marked(Redaction.Render(audit[auditId - 1].detail)) { return Some(AlreadyRedacted); }
      var entry := Entry(actor, session, Redact, AuditObject, Text.Dec(auditId), Given(reason), map[]);
      error := AuditOrUndo(entry, m.clock, saved);
      if error.None? {
        AuditedLength(saved, m.clock, entry);
        StrikeRow(auditId);
        TombstonedLength(Audited(saved, m.clock, entry).value, auditId);
      }
    }

    // --- artifacts, decisions and escalations ------------------------------

    method PutRecord(kind: RecordKind, id: Id, record: Record)
      modifies this`artifacts, this`decisions, this`escalations
      ensures Snapshot() == WithRecords(old(Snapshot()), kind, RecordsOf(old(Snapshot()), kind)[id := record])
    {
      match kind
      case Artifact => artifacts := artifacts[id := record];
      case Decision => decisions := decisions[id := record];
      case Escalation => escalations := escalations[id := record];
    }

    /** `decisions.add` and `escalations.add`. */
    method AddRecord(m: Moment, kind: RecordKind, id: Id, columns: Columns, owner: Id, detail: string,
                     session: Option<Id>) returns (error: Option<Error>)
      modifies this
      ensures Follows(old(Snapshot()), Snapshot(), error,
                      Commit(Correspondence.AddRecord(old(Snapshot()), m, kind, id, columns, owner, detail, session),
                             m.clock))
      ensures error.None? ==> Receipted(old(auditIds), auditIds, |old(audit)|, |audit|)
    {
      hide Receipted, Audited, RequireActor, WithRecords, RecordsOf, ObjectOf, StatusKnown;
      var saved := Snapshot();
      error := RequireActiveActor(owner);
      if error.Some? { return; }
      if id in RecordsOf(saved, kind) || !StatusKnown(kind, columns) { return Some(ConstraintViolation); }
      var record := Record(owner, columns, Second(m.stamp), Second(m.stamp));
      WithRecordsOthers(saved, kind, RecordsOf(saved, kind)[id := record]);
      PutRecord(kind, id, record);
      error := AuditOrUndo(Entry(owner, session, Create, ObjectOf(kind), id, Given(detail), map[]), m.clock, saved);
    }

    method RequireTasks(ids: seq<Id>) returns (error: Option<Error>)
      ensures error == if exists t | t in ids :: t !in tasks then Some(NotFound) else None
    {
      for i := 0 to |ids|
        invariant forall j | 0 <= j < i :: ids[j] in tasks
      {
        if ids[i] !in tasks { return Some(NotFound); }
      }
      return None;
    }

    method RequireNewArtifact(id: Id, columns: Columns, links: seq<Id>, reviewers: seq<Id>, owner: Id)
      returns (error: Option<Error>)
      ensures RequireArtifact(Snapshot(), id, columns, links, reviewers, owner)
              == if error.None? then Pass else Stop(error.value)
    {
      hide RequireActor, AgentsExist, Unique, UriFree, Get, StatusKnown;
      error := RequireUnique(links);
      if error.Some? { return; }
      error := RequireUnique(reviewers);
      if error.Some? { return; }
      error := RequireActiveActor(owner);
      if error.Some? { return; }
      error := RequireTasks(links);
      if error.Some? { return; }
      error := RequireAgents(reviewers);
      if error.Some? { return; }
      if !UriFree(Snapshot(), id, Get(columns, Uri)) || id in artifacts || !StatusKnown(Artifact, columns) {
        return Some(ConstraintViolation);
      }
    }

    method LinkTasks(id: Id, links: seq<Id>)
      modifies this`artifactTasks
      ensures artifactTasks == old(artifactTasks) + Links(id, links)
    {
      for i := 0 to |links|
        invariant artifactTasks == old(artifactTasks) + Links(id, links[..i])
      {
        assert links[..i + 1] == links[..i] + [links[i]];
        artifactTasks := artifactTasks + {(id, links[i])};
      }
      assert links[..|links|] == links;
    }

    method LinkReviewers(id: Id, reviewers: seq<Id>)
      modifies this`artifactReviewers
      ensures artifactReviewers == old(artifactReviewers) + Links(id, reviewers)
    {
      for i := 0 to |reviewers|
        invariant artifactReviewers == old(artifactReviewers) + Links(id, reviewers[..i])
      {
        assert reviewers[..i + 1] == reviewers[..i] + [reviewers[i]];
        artifactReviewers := artifactReviewers + {(id, reviewers[i])};
      }
      assert reviewers[..|reviewers|] == reviewers;
    }

    /** The artifact's row, its task links and its reviewers. */
    method InsertArtifact(id: Id, record: Record, links: seq<Id>, reviewers: seq<Id>)
      modifies this`artifacts, this`artifactTasks, this`artifactReviewers
      ensures Snapshot() == old(Snapshot()).(artifactTasks := old(artifactTasks) + Links(id, links),
                                             artifactReviewers := old(artifactReviewers) + Links(id, reviewers),
                                             artifacts := old(artifacts)[id := record])
    {
      artifacts := artifacts[id := record];
      LinkTasks(id, links);
      LinkReviewers(id, reviewers);
    }

    /** `artifacts.add`. */
    method AddArtifact(m: Moment, id: Id, columns: Columns, links: seq<Id>, reviewers: seq<Id>, owner: Id,
                       session: Option<Id>) returns (error: Option<Error>)
      modifies this
      ensures Follows(old(Snapshot()), Snapshot(), error,
                      Commit(Correspondence.AddArtifact(old(Snapshot()), m, id, columns, links, reviewers, owner,
                                                        session), m.clock))
      ensures error.None? ==> Receipted(old(auditIds), auditIds, |old(audit)|, |audit|)
    {
      hide Receipted, Audited, RequireArtifact, Correspondence.AddArtifact, Get, Links;
      var saved := Snapshot();
      error := RequireNewArtifact(id, columns, links, reviewers, owner);
      ArtifactDraft(saved, m, id, columns, links, reviewers, owner, session);
      if error.Some? { return; }
      InsertArtifact(id, Record(owner, columns, Second(m.stamp), Second(m.stamp)), links, reviewers);
      error := AuditOrUndo(Entry(owner, session, Create, ArtifactObject, id, Given(Get(columns, Uri)), map[]),
                           m.clock, saved);
    }

    method RequireWritable(kind: RecordKind, id: Id, selected: Columns) returns (error: Option<Error>)
      ensures RequireColumns(Snapshot(), kind, id, selected) == if error.None? then Pass else Stop(error.value)
    {
      hide UriFree, StatusKnown;
      if Status in selected && !StatusKnown(kind, selected) { return Some(ConstraintViolation); }
      if kind == Artifact && Uri in selected && !UriFree(Snapshot(), id, selected[Uri]) {
        return Some(ConstraintViolation);
      }
      return None;
    }

    /** `require_expected_status`. */
    method RequireExpected(kind: RecordKind, id: Id, ifStatus: Option<string>) returns (error: Option<Error>)
      ensures RequireSeen(Snapshot(), kind, id, ifStatus) == if error.None? then Pass else Stop(error.value)
    {
      hide RecordsOf, Get;
      if id !in RecordsOf(Snapshot(), kind) { return Some(NotFound); }
      var before := RecordsOf(Snapshot(), kind)[id];
      if ifStatus.Some? && Get(before.columns, Status) != ifStatus.value { return Some(StatusMismatch); }
      return None;
    }

    /** The checks of an amendment, in the order the operations make them. */
    method RequireAmendment(kind: RecordKind, id: Id, selected: Columns, ifStatus: Option<string>,
                            because: Option<Reference>) returns (error: Option<Error>)
      ensures RequireAmendable(Snapshot(), kind, id, selected, ifStatus, because)
              == if error.None? then Pass else Stop(error.value)
    {
      hide RequireReference, RequireColumns, RequireSeen;
      error := RequireExpected(kind, id, ifStatus);
      if error.Some? { return; }
      if kind == Decision {
        error := RequireWritable(kind, id, selected);
        if error.Some? { return; }
        error := RequireResolvable(because);
      } else {
        error := RequireResolvable(because);
        if error.Some? { return; }
        error := RequireWritable(kind, id, selected);
      }
    }

    /** The compare-and-swap rewriting shared by the artifact, decision and escalation
        operations. */
    method Amend(m: Moment, kind: RecordKind, id: Id, selected: Columns, ifStatus: Option<string>,
                 because: Option<Reference>, actor: Id, session: Option<Id>, action: Action, detail: Detail)
      returns (error: Option<Error>)
      modifies this
      ensures Follows(old(Snapshot()), Snapshot(), error,
                      Commit(Correspondence.Amend(old(Snapshot()), m, kind, id, selected, ifStatus, because, actor,
                                                  session, action, detail), m.clock))
      ensures error.None? ==> Receipted(old(auditIds), auditIds, |old(audit)|, |audit|)
    {
      hide Receipted, Audited, WithRecords, RecordsOf, ObjectOf, Changed, RequireAmendable;
      var saved := Snapshot();
      error := RequireAmendment(kind, id, selected, ifStatus, because);
      if error.Some? { return; }
      var before := RecordsOf(saved, kind)[id];
      var after := before.(columns := before.columns + selected, updatedAt := Second(m.stamp));
      WithRecordsOthers(saved, kind, RecordsOf(saved, kind)[id := after]);
      PutRecord(kind, id, after);
      error := AuditOrUndo(Entry(actor, session, action, ObjectOf(kind), id, detail,
                                 Changed(before.columns, selected)), m.clock, saved);
    }

    /** `artifacts.status`. */
    method SetArtifactStatus(m: Moment, id: Id, status: string, ifStatus: Option<string>,
                             because: Option<Reference>, actor: Id, session: Option<Id>)
      returns (error: Option<Error>)
      modifies this
      ensures Follows(old(Snapshot()), Snapshot(), error,
                      Commit(ArtifactStatus(old(Snapshot()), m, id, status, ifStatus, because, actor, session),
                             m.clock))
      ensures error.None? ==> Receipted(old(auditIds), auditIds, |old(audit)|, |audit|)
    {
      hide Receipted, Correspondence.Amend, Commit, Ruling;
      error := Amend(m, Artifact, id, map[Status := status], ifStatus, because, actor, session, StatusAction,
                     Ruling(Snapshot(), Artifact, id, status, because, ""));
    }

    /** `artifacts.update`. */
    method UpdateArtifact(m: Moment, id: Id, selected: ArtifactEdit, ifStatus: Option<string>, actor: Id,
                          session: Option<Id>) returns (error: Option<Error>)
      modifies this
      ensures Follows(old(Snapshot()), Snapshot(), error,
                      Commit(Correspondence.UpdateArtifact(old(Snapshot()), m, id, selected, ifStatus, actor,
                                                           session), m.clock))
      ensures error.None? ==> Receipted(old(auditIds), auditIds, |old(audit)|, |audit|)
    {
      hide Receipted, Correspondence.Amend, Audited;
      if selected == map[] { return Some(InvalidArguments); }
      error := RequireActiveActor(actor);
      if error.Some? { return; }
      error := Amend(m, Artifact, id, selected, ifStatus, None, actor, session, Update,
                     FieldsLine(selected.Keys, None));
    }

    /** `decisions.status`. */
    method SetDecisionStatus(m: Moment, id: Id, status: string, ifStatus: Option<string>,
                             because: Option<Reference>, note: string, actor: Id, session: Option<Id>)
      returns (error: Option<Error>)
      modifies this
      ensures Follows(old(Snapshot()), Snapshot(), error,
                      Commit(DecisionStatus(old(Snapshot()), m, id, status, ifStatus, because, note, actor, session),
                             m.clock))
      ensures error.None? ==> Receipted(old(auditIds), auditIds, |old(audit)|, |audit|)
    {
      hide Receipted, Correspondence.Amend, Audited, Ruling;
      error := RequireActiveActor(actor);
      if error.Some? { return; }
      error := Amend(m, Decision, id, map[Status := status], ifStatus, because, actor, session, StatusAction,
                     Ruling(Snapshot(), Decision, id, status, because, note));
    }

    /** `escalations.resolve`. */
    method ResolveEscalation(m: Moment, id: Id, status: string, resolution: string, followUp: string,
                             ifStatus: Option<string>, because: Option<Reference>, actor: Id, session: Option<Id>)
      returns (error: Option<Error>)
      modifies this
      ensures Follows(old(Snapshot()), Snapshot(), error,
                      Commit(Correspondence.ResolveEscalation(old(Snapshot()), m, id, status, resolution, followUp,
                                                              ifStatus, because, actor, session), m.clock))
      ensures error.None? ==> Receipted(old(auditIds), auditIds, |old(audit)|, |audit|)
    {
      hide Receipted, Correspondence.Amend, Commit, Ruling;
      error := Amend(m, Escalation, id, EscalationColumns(status, resolution, followUp), ifStatus, because, actor,
                     session, Resolve, Ruling(Snapshot(), Escalation, id, status, because, ""));
    }

    // --- dependencies, reviews and the live half of an archive --------------

    method PutEdge(edge: Edge, active: bool)
      modifies this`dependencies
      ensures Snapshot() == old(Snapshot()).(dependencies := old(dependencies)[edge := active])
    {
      dependencies := dependencies[edge := active];
    }

    /** `dependencies.add`. */
    method AddDependency(m: Moment, edge: Edge, actor: Id, session: Option<Id>) returns (error: Option<Error>)
      modifies this
      ensures Follows(old(Snapshot()), Snapshot(), error,
                      Commit(Correspondence.AddDependency(old(Snapshot()), edge, actor, session), m.clock))
      ensures error.None? ==> Receipted(old(auditIds), auditIds, |old(audit)|, |audit|)
    {
      hide Receipted, Audited, RequireActor, EdgeName;
      var saved := Snapshot();
      if edge.task == edge.on { return Some(InvalidArguments); }
      error := RequireActiveActor(actor);
      if error.Some? { return; }
      if edge.task !in tasks || edge.on !in tasks { return Some(NotFound); }
      if edge in dependencies { return Some(ConstraintViolation); }
      PutEdge(edge, true);
      error := AuditOrUndo(Entry(actor, session, Add, DependencyObject, EdgeName(edge), Given(""), map[]), m.clock,
                           saved);
    }

    /** `dependencies.resolve`. */
    method ResolveDependency(m: Moment, edge: Edge, actor: Id, session: Option<Id>) returns (error: Option<Error>)
      modifies this
      ensures Follows(old(Snapshot()), Snapshot(), error,
                      Commit(Correspondence.ResolveDependency(old(Snapshot()), edge, actor, session), m.clock))
      ensures error.None? ==> Receipted(old(auditIds), auditIds, |old(audit)|, |audit|)
    {
      hide Receipted, Audited, EdgeName;
      var saved := Snapshot();
      if edge !in dependencies { return Some(NotFound); }
      PutEdge(edge, false);
      error := AuditOrUndo(Entry(actor, session, Resolve, DependencyObject, EdgeName(edge), Given(""), map[]),
                           m.clock, saved);
    }

    method PutReview(id: Id, review: ReviewRow)
      modifies this`reviews
      ensures Snapshot() == old(Snapshot()).(reviews := old(reviews)[id := review])
    {
      reviews := reviews[id := review];
    }

    /** `reviews.add`. */
    method AddReview(m: Moment, id: Id, about: Option<Id>, reviewer: Id, decision: string, session: Option<Id>)
      returns (error: Option<Error>)
      modifies this
      ensures Follows(old(Snapshot()), Snapshot(), error,
                      Commit(Correspondence.AddReview(old(Snapshot()), m, id, about, reviewer, decision, session),
                             m.clock))
      ensures error.None? ==> Receipted(old(auditIds), auditIds, |old(audit)|, |audit|)
    {
      hide Receipted, Audited, RequireActor, REVIEW_DECISIONS;
      var saved := Snapshot();
      error := RequireActiveActor(reviewer);
      if error.Some? { return; }
      if about.Some? && about.value !in tasks { return Some(NotFound); }
      if id in reviews || decision !in REVIEW_DECISIONS { return Some(ConstraintViolation); }
      PutReview(id, ReviewRow(about, reviewer, decision, Second(m.stamp)));
      error := AuditOrUndo(Entry(reviewer, session, Create, ReviewObject, id, Given(decision), map[]), m.clock,
                           saved);
    }

    /** `DELETE FROM tasks` and `DELETE FROM messages`, with their cascades. */
    method DeleteRecords(gone: set<Id>, read: set<Id>)
      modifies this
      ensures Snapshot() == Archiving.Dropped(old(Snapshot()), gone, read) && auditIds == old(auditIds)
    {
      var dropped := Archiving.Dropped(Snapshot(), gone, read);
      Rollback(dropped);
    }

    /** The live half of `archive`. */
    method ArchiveRecords(m: Moment, days: nat, actor: Id, session: Option<Id>, force: bool, database: string,
                          path: string) returns (error: Option<Error>)
      modifies this
      ensures Follows(old(Snapshot()), Snapshot(), error,
                      Archiving.ArchiveRecords(old(Snapshot()), m, days, actor, session, force, database, path))
      ensures error.None? ==> Receipted(old(auditIds), auditIds, |old(audit)|, |audit|)
    {
      hide Receipted, Audited, RequireActor, Archiving.EligibleTasks, Archiving.EligibleMessages, Archiving.Deletable,
        Archiving.Dropped;
      var saved := Snapshot();
      if !force { return Some(ConfirmationRequired); }
      error := RequireActiveActor(actor);
      if error.Some? { return; }
      var cutoff := Archiving.ArchiveCutoff(m, days);
      var gone, read := Archiving.EligibleTasks(saved, cutoff), Archiving.EligibleMessages(saved, cutoff);
      ReceiptedNone(auditIds, |audit|);
      if gone == {} && read == {} { return None; }
      if !Archiving.Deletable(saved, gone) { return Some(ConstraintViolation); }
      DeleteRecords(gone, read);
      Archiving.DroppedOthers(saved, gone, read);
      var entry := Entry(actor, session, Action.Archive, DatabaseObject, database,
                         ArchiveLine(|gone|, |read|, path), map[]);
      error := AuditOrUndo(entry, m.clock, saved);
      if error.None? { AuditedLength(Archiving.Dropped(saved, gone, read), m.clock, entry); }
    }
  }

  lemma ArtifactDraft(s: Tables, m: Moment, id: Id, columns: Columns, links: seq<Id>, reviewers: seq<Id>,
                      owner: Id, session: Option<Id>)
    ensures Correspondence.AddArtifact(s, m, id, columns, links, reviewers, owner, session)
            == var check := RequireArtifact(s, id, columns, links, reviewers, owner);
               if check.Stop? then Err(check.error)
               else Ok(Draft(s.(artifactTasks := s.artifactTasks + Links(id, links),
                                artifactReviewers := s.artifactReviewers + Links(id, reviewers),
                                artifacts := s.artifacts[id := Record(owner, columns,
                                                                   Second(m.stamp), Second(m.stamp))]),
                             Entry(owner, session, Create, ArtifactObject, id, Given(Get(columns, Uri)), map[]),
                             Nothing))
  { }

  lemma AuditedLength(s: Tables, clock: Clock, e: Entry)
    requires Audited(s, clock, e).Ok?
    ensures |Audited(s, clock, e).value.audit| == |s.audit| + 1
  { }

  lemma TombstonedLength(s: Tables, auditId: nat)
    ensures |Tombstoned(s, auditId).audit| == |s.audit|
  { }

  lemma IdsJoin(start: nat, mid: nat, stop: nat)
    requires start <= mid <= stop
    ensures Ids(start, mid) + Ids(mid, stop) == Ids(start, stop)
  {
  }

  lemma TakenLedger(s: Tables, id: Id, agent: Id, session: Id, stamp: Seconds)
    requires id in s.tasks
    ensures Taken(s, id, agent, session, stamp).audit == s.audit
  {
  }

  lemma ReapAllNone(s: Tables, actor: Id, reason: string, operator: Option<Id>, stamp: Seconds, clock: Clock)
    ensures ReapAll(s, [], actor, reason, operator, stamp, clock) == Ok(s)
  {
  }

  lemma {:induction false} ReapAllAppend(s: Tables, order: seq<Id>, last: Id, actor: Id, reason: string,
                                         operator: Option<Id>, stamp: Seconds, clock: Clock)
    ensures var front := ReapAll(s, order, actor, reason, operator, stamp, clock);
      ReapAll(s, order + [last], actor, reason, operator, stamp, clock)
      == if front.Err? then front
         else Reap(front.value, Reaping(last, actor, reason, operator, false), stamp, clock)
    decreases |order|
  {
    hide Reap;
    if order == [] {
      assert order + [last] == [last] && [last][1..] == [];
    } else {
      assert (order + [last])[1..] == order[1..] + [last];
      var next := Reap(s, Reaping(order[0], actor, reason, operator, false), stamp, clock);
      if next.Ok? { ReapAllAppend(next.value, order[1..], last, actor, reason, operator, stamp, clock); }
    }
  }

  lemma {:induction false} ReapAllErrorStands(s: Tables, order: seq<Id>, i: nat, actor: Id, reason: string,
                                              operator: Option<Id>, stamp: Seconds, clock: Clock)
    requires i <= |order| && ReapAll(s, order[..i], actor, reason, operator, stamp, clock).Err?
    ensures ReapAll(s, order, actor, reason, operator, stamp, clock)
            == ReapAll(s, order[..i], actor, reason, operator, stamp, clock)
    decreases |order|
  {
    hide ReapAll;
    if i == |order| {
      assert order[..i] == order;
    } else {
      var front := order[..|order| - 1];
      assert order == front + [order[|order| - 1]] && front[..i] == order[..i];
      ReapAllErrorStands(s, front, i, actor, reason, operator, stamp, clock);
      ReapAllAppend(s, front, order[|order| - 1], actor, reason, operator, stamp, clock);
    }
  }

  /** One more session: reaped, or the whole list is refused as this one is. */
  lemma ReapAllNext(s: Tables, order: seq<Id>, i: nat, actor: Id, reason: string, operator: Option<Id>,
                    stamp: Seconds, clock: Clock)
    requires i < |order| && ReapAll(s, order[..i], actor, reason, operator, stamp, clock).Ok?
    ensures var mid := ReapAll(s, order[..i], actor, reason, operator, stamp, clock).value;
      var next := Reap(mid, Reaping(order[i], actor, reason, operator, false), stamp, clock);
      && ReapAll(s, order[..i + 1], actor, reason, operator, stamp, clock) == next
      && (next.Err? ==> ReapAll(s, order, actor, reason, operator, stamp, clock) == next)
  {
    hide Reap, ReapAll;
    assert order[..i + 1] == order[..i] + [order[i]];
    ReapAllAppend(s, order[..i], order[i], actor, reason, operator, stamp, clock);
    if ReapAll(s, order[..i + 1], actor, reason, operator, stamp, clock).Err? {
      ReapAllErrorStands(s, order, i + 1, actor, reason, operator, stamp, clock);
    }
  }

  lemma {:induction false} SessionsKept(s: Tables, order: seq<Id>, actor: Id, reason: string,
                                        operator: Option<Id>, stamp: Seconds, clock: Clock)
    requires ReapAll(s, order, actor, reason, operator, stamp, clock).Ok?
    ensures ReapAll(s, order, actor, reason, operator, stamp, clock).value.sessions.Keys == s.sessions.Keys
    decreases |order|
  {
    hide ReapRows, Owned, Accountable;
    if order != [] {
      var mid := Reaped(s, Reaping(order[0], actor, reason, operator, false), stamp, clock);
      assert mid.sessions.Keys == s.sessions.Keys;
      SessionsKept(mid, order[1..], actor, reason, operator, stamp, clock);
    }
  }

  lemma ReapKeeps(s: Tables, r: Reaping, stamp: Seconds, clock: Clock)
    requires Inv(s) && Reap(s, r, stamp, clock).Ok?
    ensures Inv(Reap(s, r, stamp, clock).value)
  {
    hide Inv, Reaped, Accountable;
    ReapedKeeps(s, r, stamp, clock);
  }

  /** `LIMIT limit + 1` tells whether more were stale; the first `limit` are reaped. */
  lemma {:induction false} OldestPrefix(s: Tables, ids: set<Id>, limit: nat)
    requires ids <= s.sessions.Keys
    ensures var found := Oldest(s, ids, limit + 1);
      (|found| > limit <==> |ids| > limit)
      && Oldest(s, ids, limit) == if |found| > limit then found[..limit] else found
    decreases limit
  {
    if limit > 0 && ids != {} {
      var x := FirstSeen(s, ids);
      OldestPrefix(s, ids - {x}, limit - 1);
      var rest := Oldest(s, ids - {x}, limit);
      assert Oldest(s, ids, limit + 1) == [x] + rest;
      if |rest| > limit - 1 { assert ([x] + rest)[..limit] == [x] + rest[..limit - 1]; }
    }
  }

  lemma AppendedLength(s: Tables, e: Entry, at: Seconds)
    ensures |Appended(s, e, at).audit| == |s.audit| + 1
  { }

  function ClaimEntry(r: Reaping, task: Id, revision: int): Entry {
    Entry(r.actor, r.operator, RecoverClaim, TaskObject, task, RecoverClaimLine(r.session, revision, r.reason),
          map[])
  }

  function EndEntry(r: Reaping): Entry {
    Entry(r.actor, r.operator, Recover, SessionObject, r.session,
          if r.forced then ForcedLine(r.reason) else Given(r.reason), map[])
  }

  lemma BlockedAccountable(s: Tables, r: Reaping, task: Id, stamp: Seconds)
    requires task in s.tasks
    ensures Accountable(ClaimBlocked(s, task, r.reason, stamp), r.actor, r.operator)
            == Accountable(s, r.actor, r.operator)
    ensures ClaimBlocked(s, task, r.reason, stamp).audit == s.audit
  {
  }

  lemma SessionClosedLedger(s: Tables, session: Id, stamp: Seconds)
    ensures SessionClosed(s, session, stamp).audit == s.audit
  {
  }

  /** The tables with one claimed task blocked. */
  function ClaimBlocked(s: Tables, task: Id, reason: string, stamp: Seconds): Tables
    requires task in s.tasks
  {
    s.(tasks := s.tasks[task := BlockedTask(s.tasks[task], reason, stamp)], claims := s.claims - {task})
  }

  /** The tables after the reaper has blocked the first `i` of the session's tasks. */
  function PartlyReaped(s: Tables, r: Reaping, order: seq<Id>, i: nat, stamp: Seconds, clock: Clock): Tables
    requires i <= |order|
  {
    s.(tasks := map t | t in s.tasks ::
         if t in order[..i] then BlockedTask(s.tasks[t], r.reason, stamp) else s.tasks[t],
       claims := map t | t in s.claims && t !in order[..i] :: s.claims[t],
       sessions := if i == 0 then s.sessions else Seen(s.sessions, r.operator, Second(clock(|s.audit| + i - 1))),
       audit := s.audit + seq(i, k requires 0 <= k < i =>
         RecoverClaimRow(s, r, order[k], Second(clock(|s.audit| + k)))))
  }

  lemma ReceiptedNone(ids: seq<nat>, n: nat)
    ensures Receipted(ids, ids, n, n)
  {
  }

  lemma IdsNext(start: nat, stop: nat)
    requires start <= stop
    ensures Ids(start, stop + 1) == Ids(start, stop) + [stop + 1]
    ensures Ids(start, start) == []
  {
  }

  lemma PartlyReapedNone(s: Tables, r: Reaping, order: seq<Id>, stamp: Seconds, clock: Clock)
    ensures PartlyReaped(s, r, order, 0, stamp, clock) == s
  { }

  lemma NotYetReaped(order: seq<Id>, i: nat)
    requires Text.Ascending(order) && i < |order|
    ensures order[i] !in order[..i]
  {
    if order[i] in order[..i] {
      var k :| 0 <= k < i && order[k] == order[i];
      Text.AscendingDistinct(order, k, i);
    }
  }

  /** The next task to block is untouched so far, claimed and in progress. */
  lemma PartlyReapedTask(s: Tables, r: Reaping, order: seq<Id>, i: nat, stamp: Seconds, clock: Clock)
    requires Inv(s) && order == Text.Sorted(Owned(s, r.session)) && i < |order|
    ensures var t := PartlyReaped(s, r, order, i, stamp, clock);
      && order[i] in s.tasks && order[i] in t.tasks && order[i] in t.claims
      && t.tasks[order[i]] == s.tasks[order[i]] && t.tasks[order[i]].status == InProgress
      && |t.audit| == |s.audit| + i
  {
    hide RecoverClaimRow, BlockedTask;
    assert order[i] in Owned(s, r.session);
    NotYetReaped(order, i);
  }

  lemma PartlyReapedAccountable(s: Tables, r: Reaping, order: seq<Id>, i: nat, stamp: Seconds, clock: Clock)
    requires i <= |order|
    ensures Accountable(PartlyReaped(s, r, order, i, stamp, clock), r.actor, r.operator)
            == Accountable(s, r.actor, r.operator)
  { }

  lemma PartlyReapedSession(s: Tables, r: Reaping, order: seq<Id>, stamp: Seconds, clock: Clock)
    requires r.session in s.sessions
    ensures var p := PartlyReaped(s, r, order, |order|, stamp, clock);
      r.session in p.sessions && |p.audit| == |s.audit| + |order|
  { }

  /** Blocking one more task is the next stage. */
  lemma BlockedNext(s: Tables, r: Reaping, order: seq<Id>, i: nat, stamp: Seconds, clock: Clock)
    requires i < |order| && order[i] in s.tasks && order[i] !in order[..i]
    ensures var b := ClaimBlocked(PartlyReaped(s, r, order, i, stamp, clock), order[i], r.reason, stamp);
      var done := PartlyReaped(s, r, order, i + 1, stamp, clock);
      b.tasks == done.tasks && b.claims == done.claims
  {
    hide BlockedTask, Seen, RecoverClaimRow;
    assert order[..i + 1] == order[..i] + [order[i]];
  }

  lemma RowsNext(s: Tables, r: Reaping, order: seq<Id>, i: nat, stamp: Seconds, clock: Clock)
    requires i < |order| && order[i] in s.tasks
    ensures PartlyReaped(s, r, order, i + 1, stamp, clock).audit
            == PartlyReaped(s, r, order, i, stamp, clock).audit
               + [RowOf(ClaimEntry(r, order[i], s.tasks[order[i]].revision), Second(clock(|s.audit| + i)))]
  { }

  lemma SeenNext(s: Tables, r: Reaping, order: seq<Id>, i: nat, stamp: Seconds, clock: Clock)
    requires i < |order|
    ensures PartlyReaped(s, r, order, i + 1, stamp, clock).sessions
            == Seen(PartlyReaped(s, r, order, i, stamp, clock).sessions, r.operator, Second(clock(|s.audit| + i)))
  { }

  lemma AppendedOnly(s: Tables, e: Entry, at: Seconds)
    requires e.changes == map[]
    ensures Appended(s, e, at)
            == s.(sessions := Seen(s.sessions, e.session, at), audit := s.audit + [RowOf(e, at)])
  {
    hide ChangeRows;
    NoChangeRows(FIELDS, |s.audit| + 1, e, at);
  }

  lemma PartlyReapedNext(s: Tables, r: Reaping, order: seq<Id>, i: nat, stamp: Seconds, clock: Clock)
    requires Inv(s) && order == Text.Sorted(Owned(s, r.session)) && i < |order|
    ensures order[i] in s.tasks && order[i] in PartlyReaped(s, r, order, i, stamp, clock).tasks
    ensures var t := ClaimBlocked(PartlyReaped(s, r, order, i, stamp, clock), order[i], r.reason, stamp);
      Appended(t, ClaimEntry(r, order[i], s.tasks[order[i]].revision), Second(clock(|s.audit| + i)))
      == PartlyReaped(s, r, order, i + 1, stamp, clock)
  {
    hide Inv, BlockedTask, Seen, RecoverClaimRow, Owned, Appended, Text.Ascending;
    PartlyReapedTask(s, r, order, i, stamp, clock);
    NotYetReaped(order, i);
    var p := PartlyReaped(s, r, order, i, stamp, clock);
    var e := ClaimEntry(r, order[i], s.tasks[order[i]].revision);
    AppendedOnly(ClaimBlocked(p, order[i], r.reason, stamp), e, Second(clock(|s.audit| + i)));
    BlockedNext(s, r, order, i, stamp, clock);
    RowsNext(s, r, order, i, stamp, clock);
    SeenNext(s, r, order, i, stamp, clock);
    hide PartlyReaped;
    PartlyOthers(s, r, order, i, stamp, clock);
    PartlyOthers(s, r, order, i + 1, stamp, clock);
  }

  lemma PartlyOthers(s: Tables, r: Reaping, order: seq<Id>, i: nat, stamp: Seconds, clock: Clock)
    requires i <= |order|
    ensures var p := PartlyReaped(s, r, order, i, stamp, clock);
      p == s.(tasks := p.tasks, claims := p.claims, sessions := p.sessions, audit := p.audit)
  { }

  lemma ReapUnaccountable(s: Tables, r: Reaping, stamp: Seconds, clock: Clock)
    requires Accountable(s, r.actor, r.operator).Stop?
    ensures Reap(s, r, stamp, clock) == Err(Accountable(s, r.actor, r.operator).error)
  {
  }

  /** The reaper's last write: refused when the operator is the session it ended. */
  lemma EndAccountable(s: Tables, q: Tables, r: Reaping, stamp: Seconds)
    requires r.session in s.sessions && q.agents == s.agents && q.sessions.Keys == s.sessions.Keys
    requires forall x | x in s.sessions ::
      q.sessions[x].agent == s.sessions[x].agent
      && q.sessions[x].active == (s.sessions[x].active && x != r.session)
    ensures Accountable(q, r.actor, r.operator)
            == if Accountable(s, r.actor, r.operator).Stop? then Accountable(s, r.actor, r.operator)
               else if r.operator == Some(r.session) then Stop(InactiveSession) else Pass
  {
  }

  lemma EndSeen(sessions: map<Id, Session>, r: Reaping, stamp: Seconds, before: Seconds, at: Seconds)
    requires r.operator != Some(r.session)
    ensures Seen(Ended(Seen(sessions, r.operator, before), r.session, stamp), r.operator, at)
            == Seen(Ended(sessions, r.session, stamp), r.operator, at)
  {
  }

  /** The session ended and its row appended to the fully reaped tables. */
  lemma EndReaped(s: Tables, r: Reaping, order: seq<Id>, stamp: Seconds, clock: Clock)
    requires order == Text.Sorted(Owned(s, r.session)) && r.session in s.sessions
    ensures var closed := SessionClosed(PartlyReaped(s, r, order, |order|, stamp, clock), r.session, stamp);
      match Reap(s, r, stamp, clock)
      case Err(refusal) => Accountable(closed, r.actor, r.operator) == Stop(refusal)
      case Ok(next) => Accountable(closed, r.actor, r.operator).Pass?
                       && Appended(closed, EndEntry(r), Second(clock(|s.audit| + |order|))) == next
  {
    hide Accountable, PartlyReaped, Owned, Reaped, Ended, Appended;
    var p := PartlyReaped(s, r, order, |order|, stamp, clock);
    EndedSessions(s, p, r, order, stamp, clock);
    EndAccountable(s, SessionClosed(p, r.session, stamp), r, stamp);
    if Reap(s, r, stamp, clock).Ok? { EndAppended(s, r, order, stamp, clock); }
  }

  lemma EndedSessions(s: Tables, p: Tables, r: Reaping, order: seq<Id>, stamp: Seconds, clock: Clock)
    requires p == PartlyReaped(s, r, order, |order|, stamp, clock) && r.session in s.sessions
    ensures var q := Ended(p.sessions, r.session, stamp);
      q.Keys == s.sessions.Keys && p.agents == s.agents
      && forall x | x in s.sessions ::
           q[x].agent == s.sessions[x].agent && q[x].active == (s.sessions[x].active && x != r.session)
  { }

  lemma FullyReaped(s: Tables, r: Reaping, order: seq<Id>, stamp: Seconds, clock: Clock)
    requires order == Text.Sorted(Owned(s, r.session))
    ensures var p, done := PartlyReaped(s, r, order, |order|, stamp, clock), Reaped(s, r, stamp, clock);
      p.tasks == done.tasks && p.claims == done.claims
  {
    hide BlockedTask, Seen, Ended, RecoverClaimRow, ReapRows, Owned, Text.Ascending;
    assert order[..|order|] == order;
    var p, done := PartlyReaped(s, r, order, |order|, stamp, clock), Reaped(s, r, stamp, clock);
    assert p.tasks == done.tasks;
    assert p.claims == done.claims;
  }

  lemma FullyAudited(s: Tables, r: Reaping, order: seq<Id>, stamp: Seconds, clock: Clock)
    requires order == Text.Sorted(Owned(s, r.session))
    ensures var p, done := PartlyReaped(s, r, order, |order|, stamp, clock), Reaped(s, r, stamp, clock);
      done.audit == p.audit + [RowOf(EndEntry(r), Second(clock(|s.audit| + |order|)))]
      && |p.audit| == |s.audit| + |order|
  {
    hide BlockedTask, Seen, Ended, RecoverClaimRow, Owned, Text.Ascending;
  }

  lemma FullySeen(s: Tables, r: Reaping, order: seq<Id>, stamp: Seconds, clock: Clock)
    requires order == Text.Sorted(Owned(s, r.session)) && r.operator != Some(r.session)
    ensures Seen(Ended(PartlyReaped(s, r, order, |order|, stamp, clock).sessions, r.session, stamp), r.operator,
                 Second(clock(|s.audit| + |order|)))
            == Reaped(s, r, stamp, clock).sessions
  {
    hide BlockedTask, Seen, Ended, RecoverClaimRow, ReapRows, Owned, Text.Ascending;
    if |order| > 0 {
      EndSeen(s.sessions, r, stamp, Second(clock(|s.audit| + |order| - 1)), Second(clock(|s.audit| + |order|)));
    }
  }

  lemma ReapedOthers(s: Tables, r: Reaping, stamp: Seconds, clock: Clock)
    ensures var p := Reaped(s, r, stamp, clock);
      p == s.(tasks := p.tasks, claims := p.claims, sessions := p.sessions, audit := p.audit)
  { }

  lemma EndAppended(s: Tables, r: Reaping, order: seq<Id>, stamp: Seconds, clock: Clock)
    requires order == Text.Sorted(Owned(s, r.session)) && r.operator != Some(r.session)
    ensures Appended(SessionClosed(PartlyReaped(s, r, order, |order|, stamp, clock), r.session, stamp),
                     EndEntry(r), Second(clock(|s.audit| + |order|)))
            == Reaped(s, r, stamp, clock)
  {
    hide Seen, Ended, ChangeRows, PartlyReaped, Reaped, Owned;
    var p := PartlyReaped(s, r, order, |order|, stamp, clock);
    FullyReaped(s, r, order, stamp, clock);
    FullyAudited(s, r, order, stamp, clock);
    FullySeen(s, r, order, stamp, clock);
    PartlyOthers(s, r, order, |order|, stamp, clock);
    ReapedOthers(s, r, stamp, clock);
    NoChangeRows(FIELDS, |p.audit| + 1, EndEntry(r), Second(clock(|s.audit| + |order|)));
  }

  /** `require_unique`. */
  method RequireUnique(values: seq<Id>) returns (error: Option<Error>)
    ensures error == if Unique(values) then None else Some(InvalidArguments)
  {
    var seen: set<Id>, duplicates: set<Id> := {}, {};
    for i := 0 to |values|
      invariant seen == Elements(values[..i])
      invariant duplicates == {} <==> Unique(values[..i])
    {
      var front, last := values[..i], values[i];
      assert values[..i + 1] == front + [last];
      UniqueAppend(front, last);
      if last in seen {
        duplicates := duplicates + {last};
      } else {
        seen := seen + {last};
      }
    }
    assert values[..|values|] == values;
    return if duplicates == {} then None else Some(InvalidArguments);
  }

  lemma UniqueAppend(front: seq<Id>, last: Id)
    ensures Unique(front + [last]) <==> Unique(front) && last !in front
    ensures Elements(front + [last]) == Elements(front) + {last}
    ensures last in Elements(front) <==> last in front
  {
    var all := front + [last];
    if Unique(all) {
      forall i, j | 0 <= i < j < |front| ensures front[i] != front[j] { assert all[i] != all[j]; }
      forall i | 0 <= i < |front| ensures front[i] != last { assert all[i] != all[|front|]; }
    }
  }

  lemma RequiredTask(s: Tables, id: Id, added: seq<Id>, removed: seq<Id>, actor: Id, session: Option<Id>,
                     ifRevision: int)
    requires RequireAssignment(s, id, added, removed, actor, session, ifRevision).Pass?
    ensures id in s.tasks
  {
  }

  lemma TaskCreatedLedger(s: Tables, id: Id, content: Columns, actor: Id, given: seq<Id>, stamp: Seconds)
    ensures TaskCreated(s, id, content, actor, given, stamp).audit == s.audit
  {
  }

  lemma TaskEditedLedger(s: Tables, id: Id, selected: Columns, stamp: Seconds)
    requires id in s.tasks
    ensures TaskEdited(s, id, selected, stamp).audit == s.audit
  {
  }

  lemma TaskAssignedLedger(s: Tables, id: Id, added: seq<Id>, removed: seq<Id>, stamp: Seconds)
    requires id in s.tasks
    ensures TaskAssigned(s, id, added, removed, stamp).audit == s.audit
  {
  }

  lemma StatusChangedLedger(s: Tables, c: StatusChange, stamp: Seconds)
    requires c.id in s.tasks
    ensures StatusChanged(s, c, stamp).audit == s.audit
  {
  }

  lemma AgentAddedLedger(s: Tables, id: Id, profile: Columns, stamp: Seconds)
    ensures AgentAdded(s, id, profile, stamp).audit == s.audit
  {
  }

  lemma SessionStartedLedger(s: Tables, id: Id, agent: Id, stamp: Seconds)
    ensures SessionStarted(s, id, agent, stamp).audit == s.audit
  {
  }

  lemma EvidenceAddedLedger(s: Tables, task: Id, uri: string, actor: Id, stamp: Seconds)
    ensures EvidenceAdded(s, task, uri, actor, stamp).audit == s.audit
  {
  }

  lemma AuditedAgents(s: Tables, clock: Clock, e: Entry)
    requires Audited(s, clock, e).Ok?
    ensures Audited(s, clock, e).value.agents == s.agents
  { }

  lemma AuditedSessions(s: Tables, clock: Clock, e: Entry, id: Id)
    requires Audited(s, clock, e).Ok? && id in s.sessions
    ensures id in Audited(s, clock, e).value.sessions
  { }

  lemma NoneSorted(s: Tables, session: Id)
    requires Text.Sorted(set t | t in s.claims && s.claims[t].session == session) == []
    ensures forall t | t in s.claims :: s.claims[t].session != session
  {
    var ids := set t | t in s.claims && s.claims[t].session == session;
    assert |ids| == |Text.Sorted(ids)|;
    forall t | t in s.claims ensures s.claims[t].session != session {
      assert t !in ids;
    }
  }
}
