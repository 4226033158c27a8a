/** `check_coordination_invariants` and the inductive invariant behind it. */
module Invariants {
  import opened Records
  import opened Ledger
  import opened Protocol
  import opened Correspondence
  import opened Runs
  import Archiving = Archive
  import Redaction

  // --- the check the code runs --------------------------------------------

  function UnclaimedInProgress(s: Tables): set<Id> {
    set t | t in s.tasks && s.tasks[t].status == InProgress && t !in s.claims
  }

  /** The four-table JOIN drops claims with a dangling reference. */
  function InvalidClaims(s: Tables): set<Id> {
    set t | t in s.claims && t in s.tasks && s.claims[t].session in s.sessions
            && s.claims[t].agent in s.agents
            && (s.tasks[t].status != InProgress
                || !s.sessions[s.claims[t].session].active
                || s.sessions[s.claims[t].session].agent != s.claims[t].agent
                || !s.agents[s.claims[t].agent].active)
  }

  function DoneWithoutEvidence(s: Tables): set<Id> {
    set t | t in s.tasks && s.tasks[t].status == Done && !HasEvidence(s, t)
  }

  function InvalidSessions(s: Tables): set<Id> {
    set x | x in s.sessions && s.sessions[x].agent in s.agents
            && (if s.sessions[x].active
                then s.sessions[x].endedAt.Some? || !s.agents[s.sessions[x].agent].active
                else s.sessions[x].endedAt.None?)
  }

  predicate CheckPasses(s: Tables) {
    UnclaimedInProgress(s) == {} && InvalidClaims(s) == {} && DoneWithoutEvidence(s) == {}
    && InvalidSessions(s) == {}
  }

  // --- the invariant ------------------------------------------------------

  /** A task is in progress exactly when it has its (one) claim. */
  ghost predicate Exclusive(tasks: map<Id, Task>, claims: map<Id, Claim>) {
    && (forall t | t in claims :: t in tasks)
    && (forall t | t in tasks :: tasks[t].status == InProgress <==> t in claims)
  }

  /** Each claim is held by an active session of its agent, still an assignee. */
  ghost predicate Held(claims: map<Id, Claim>, sessions: map<Id, Session>, assignees: set<(Id, Id)>) {
    forall t | t in claims ::
      && claims[t].session in sessions
      && sessions[claims[t].session].active
      && sessions[claims[t].session].agent == claims[t].agent
      && (t, claims[t].agent) in assignees
  }

  /** A session is ended exactly when it has an end time; active ones belong to
      active agents. */
  ghost predicate Sessions(sessions: map<Id, Session>, agents: map<Id, Agent>) {
    forall x | x in sessions ::
      && sessions[x].agent in agents
      && (sessions[x].active <==> sessions[x].endedAt.None?)
      && (sessions[x].active ==> agents[sessions[x].agent].active)
  }

  ghost predicate Evidenced(tasks: map<Id, Task>, evidence: map<nat, Evidence>) {
    forall t | t in tasks && tasks[t].status == Done :: exists e | e in evidence :: evidence[e].task == t
  }

  ghost predicate Revisions(tasks: map<Id, Task>) {
    forall t | t in tasks :: tasks[t].revision >= 1
  }

  ghost predicate AssigneeKeys(assignees: set<(Id, Id)>, tasks: map<Id, Task>, agents: map<Id, Agent>) {
    forall p | p in assignees :: p.0 in tasks && p.1 in agents
  }

  ghost predicate EvidenceKeys(evidence: map<nat, Evidence>, last: nat, tasks: map<Id, Task>) {
    forall e | e in evidence :: e <= last && evidence[e].task in tasks
  }

  ghost predicate EdgeKeys(dependencies: map<Edge, bool>, tasks: map<Id, Task>) {
    forall e | e in dependencies :: e.task in tasks && e.on in tasks && e.task != e.on
  }

  ghost predicate MessageKeys(messages: map<Id, Message>, tasks: map<Id, Task>) {
    forall x | x in messages && messages[x].task.Some? :: messages[x].task.value in tasks
  }

  ghost predicate ReviewKeys(reviews: map<Id, ReviewRow>, tasks: map<Id, Task>) {
    forall x | x in reviews && reviews[x].task.Some? :: reviews[x].task.value in tasks
  }

  ghost predicate LinkKeys(links: set<(Id, Id)>, tasks: map<Id, Task>) {
    forall p | p in links :: p.1 in tasks
  }

  /** Read positions never pass the audit head. */
  ghost predicate Cursors(cursors: map<Id, int>, head: nat) {
    forall a | a in cursors :: 0 <= cursors[a] <= head
  }

  ghost predicate Inv(s: Tables) {
    && Exclusive(s.tasks, s.claims)
    && Held(s.claims, s.sessions, s.assignees)
    && Sessions(s.sessions, s.agents)
    && Evidenced(s.tasks, s.evidence)
    && Revisions(s.tasks)
    && AssigneeKeys(s.assignees, s.tasks, s.agents)
    && EvidenceKeys(s.evidence, s.lastEvidence, s.tasks)
    && EdgeKeys(s.dependencies, s.tasks)
    && MessageKeys(s.messages, s.tasks)
    && ReviewKeys(s.reviews, s.tasks)
    && LinkKeys(s.artifactTasks, s.tasks)
    && Cursors(s.cursors, |s.audit|)
  }

  /** The foreign keys the check's JOINs rely on. */
  predicate ForeignKeys(s: Tables) {
    && (forall t | t in s.claims ::
          t in s.tasks && s.claims[t].session in s.sessions && s.claims[t].agent in s.agents)
    && (forall x | x in s.sessions :: s.sessions[x].agent in s.agents)
  }

  lemma UnclaimedDecides(s: Tables)
    ensures UnclaimedInProgress(s) == {}
            <==> forall t | t in s.tasks && s.tasks[t].status == InProgress :: t in s.claims
  {
    if t :| t in s.tasks && s.tasks[t].status == InProgress && t !in s.claims {
      assert t in UnclaimedInProgress(s);
    }
  }

  predicate ClaimValid(s: Tables, t: Id)
    requires ForeignKeys(s) && t in s.claims
  {
    s.tasks[t].status == InProgress && s.sessions[s.claims[t].session].active
    && s.sessions[s.claims[t].session].agent == s.claims[t].agent && s.agents[s.claims[t].agent].active
  }

  lemma ClaimsDecide(s: Tables)
    requires ForeignKeys(s)
    ensures InvalidClaims(s) == {} <==> forall t | t in s.claims :: ClaimValid(s, t)
  {
    if InvalidClaims(s) == {} {
      forall t | t in s.claims ensures ClaimValid(s, t) { assert t !in InvalidClaims(s); }
    }
  }

  lemma EvidenceDecides(s: Tables)
    ensures DoneWithoutEvidence(s) == {} <==> Evidenced(s.tasks, s.evidence)
  {
    if DoneWithoutEvidence(s) == {} {
      forall t | t in s.tasks && s.tasks[t].status == Done
        ensures exists e | e in s.evidence :: s.evidence[e].task == t
      {
        assert t !in DoneWithoutEvidence(s);
      }
    }
  }

  lemma SessionsDecide(s: Tables)
    requires ForeignKeys(s)
    ensures InvalidSessions(s) == {} <==> Sessions(s.sessions, s.agents)
  {
    if InvalidSessions(s) == {} {
      forall x | x in s.sessions ensures
        (s.sessions[x].active <==> s.sessions[x].endedAt.None?)
        && (s.sessions[x].active ==> s.agents[s.sessions[x].agent].active)
      {
        assert x !in InvalidSessions(s);
      }
    }
  }

  /** Where the foreign keys hold, the check passes exactly when the four
      statements it is meant to test are true. */
  lemma CheckDecides(s: Tables)
    requires ForeignKeys(s)
    ensures CheckPasses(s) <==>
      && Exclusive(s.tasks, s.claims)
      && (forall t | t in s.claims ::
            s.sessions[s.claims[t].session].active
            && s.sessions[s.claims[t].session].agent == s.claims[t].agent
            && s.agents[s.claims[t].agent].active)
      && Sessions(s.sessions, s.agents)
      && Evidenced(s.tasks, s.evidence)
  {
    hide UnclaimedInProgress, InvalidClaims, DoneWithoutEvidence, InvalidSessions, Evidenced, Sessions;
    UnclaimedDecides(s);
    ClaimsDecide(s);
    EvidenceDecides(s);
    SessionsDecide(s);
  }

  lemma InvPassesCheck(s: Tables)
    requires Inv(s)
    ensures ForeignKeys(s) && CheckPasses(s)
  { }

  // --- what one transaction preserves -------------------------------------

  lemma SeenKeeps(sessions: map<Id, Session>, session: Option<Id>, at: Seconds, agents: map<Id, Agent>,
                  claims: map<Id, Claim>, assignees: set<(Id, Id)>)
    requires Sessions(sessions, agents) && Held(claims, sessions, assignees)
    ensures Sessions(Seen(sessions, session, at), agents)
    ensures Held(claims, Seen(sessions, session, at), assignees)
  {
  }

  lemma AppendKeeps(s: Tables, e: Entry, at: Seconds)
    requires Inv(s)
    ensures Inv(Appended(s, e, at))
  { }

  /** What a draft must leave true for the writes after its audit row. */
  ghost predicate Safe(s: Tables, finish: Finish) {
    match finish
    case EditAgent(agent, _, active, _) => active == Some(false) ==> !HasActiveSession(s, agent)
    case CloseSession(session, _) => forall t | t in s.claims :: s.claims[t].session != session
    case _ => true
  }

  lemma AppendSafe(s: Tables, e: Entry, at: Seconds, finish: Finish)
    requires Safe(s, finish)
    ensures Safe(Appended(s, e, at), finish)
  {
  }

  lemma EditKeeps(s: Tables, agent: Id, profile: Columns, active: Option<bool>, stamp: Seconds)
    requires Inv(s) && (active == Some(false) ==> !HasActiveSession(s, agent))
    ensures Inv(AgentEdited(s, agent, profile, active, stamp))
  { }

  lemma FinishKeeps(s: Tables, finish: Finish)
    requires Inv(s) && Safe(s, finish)
    ensures Inv(Finished(s, finish))
  { }

  /** A transaction whose draft keeps the invariant keeps it when it commits. */
  lemma CommitKeeps(draft: Result<Draft>, clock: Clock)
    requires draft.Ok? && Inv(draft.value.tables) && Safe(draft.value.tables, draft.value.finish)
    ensures Commit(draft, clock).Ok? ==> Inv(Commit(draft, clock).value)
  {
    hide Inv, Safe, Appended, Finished;
    var d := draft.value;
    var at := Second(clock(|d.tables.audit|));
    AppendKeeps(d.tables, d.entry, at);
    AppendSafe(d.tables, d.entry, at, d.finish);
    FinishKeeps(Appended(d.tables, d.entry, at), d.finish);
  }

  // --- agents, sessions and tasks -----------------------------------------

  lemma AgentAddedKeeps(s: Tables, id: Id, profile: Columns, stamp: Seconds)
    requires Inv(s) && id !in s.agents
    ensures Inv(AgentAdded(s, id, profile, stamp))
  { }

  lemma SessionStartedKeeps(s: Tables, id: Id, agent: Id, stamp: Seconds)
    requires Inv(s) && id !in s.sessions && RequireActor(s, agent).Pass?
    ensures Inv(SessionStarted(s, id, agent, stamp))
  { }

  lemma TaskCreatedKeeps(s: Tables, id: Id, content: Columns, actor: Id, assignees: seq<Id>, stamp: Seconds)
    requires Inv(s) && id !in s.tasks && AgentsExist(s, assignees)
    ensures Inv(TaskCreated(s, id, content, actor, assignees, stamp))
  {
  }

  lemma TaskEditedKeeps(s: Tables, id: Id, selected: Columns, stamp: Seconds)
    requires Inv(s) && id in s.tasks
    ensures Inv(TaskEdited(s, id, selected, stamp))
  {
    TaskEditedProtocol(s, id, selected, stamp);
    TaskEditedKeys(s, id, selected, stamp);
    hide TaskEdited, Exclusive, Held, Sessions, Evidenced, Revisions, AssigneeKeys, EvidenceKeys, EdgeKeys,
      MessageKeys, ReviewKeys, LinkKeys, Cursors;
  }

  lemma TaskEditedProtocol(s: Tables, id: Id, selected: Columns, stamp: Seconds)
    requires Inv(s) && id in s.tasks
    ensures var t := TaskEdited(s, id, selected, stamp);
      && Exclusive(t.tasks, t.claims) && Held(t.claims, t.sessions, t.assignees) && Sessions(t.sessions, t.agents)
      && Evidenced(t.tasks, t.evidence) && Revisions(t.tasks) && Cursors(t.cursors, |t.audit|)
  {
    hide AssigneeKeys, EvidenceKeys, EdgeKeys, MessageKeys, ReviewKeys, LinkKeys, Held, Sessions, Cursors;
  }

  lemma TaskEditedKeys(s: Tables, id: Id, selected: Columns, stamp: Seconds)
    requires Inv(s) && id in s.tasks
    ensures var t := TaskEdited(s, id, selected, stamp);
      && AssigneeKeys(t.assignees, t.tasks, t.agents) && EvidenceKeys(t.evidence, t.lastEvidence, t.tasks)
      && EdgeKeys(t.dependencies, t.tasks) && MessageKeys(t.messages, t.tasks) && ReviewKeys(t.reviews, t.tasks)
      && LinkKeys(t.artifactTasks, t.tasks)
  {
    hide Exclusive, Held, Sessions, Evidenced, Revisions, Cursors;
  }

  lemma TaskAssignedKeeps(s: Tables, id: Id, added: seq<Id>, removed: seq<Id>, stamp: Seconds)
    requires Inv(s) && id in s.tasks && AgentsExist(s, added)
    requires id in s.claims ==> s.claims[id].agent !in removed
    ensures Inv(TaskAssigned(s, id, added, removed, stamp))
  {
    hide Exclusive, Evidenced, EvidenceKeys, EdgeKeys, MessageKeys, ReviewKeys, Sessions;
    TaskEditedKeeps(s, id, map[], stamp);
    var t := TaskAssigned(s, id, added, removed, stamp);
    assert Held(t.claims, t.sessions, t.assignees);
    assert AssigneeKeys(t.assignees, t.tasks, t.agents);
  }

  lemma StatusChangedTasks(s: Tables, c: StatusChange, stamp: Seconds)
    requires Inv(s) && c.id in s.tasks && RequireTransition(s, s.tasks[c.id].status, c).Pass?
    ensures var t := StatusChanged(s, c, stamp);
      Exclusive(t.tasks, t.claims) && Evidenced(t.tasks, t.evidence) && Revisions(t.tasks)
  {
    hide Held, Sessions, AssigneeKeys, EvidenceKeys, EdgeKeys, MessageKeys, ReviewKeys, LinkKeys, Cursors,
      RequireHolder;
  }

  lemma StatusChangedKeeps(s: Tables, c: StatusChange, stamp: Seconds)
    requires Inv(s) && c.id in s.tasks && RequireTransition(s, s.tasks[c.id].status, c).Pass?
    ensures Inv(StatusChanged(s, c, stamp))
  {
    hide Exclusive, Evidenced, Revisions, RequireTransition;
    StatusChangedTasks(s, c, stamp);
  }

  lemma EvidenceAddedKeeps(s: Tables, task: Id, uri: string, actor: Id, stamp: Seconds)
    requires Inv(s) && task in s.tasks
    ensures Inv(EvidenceAdded(s, task, uri, actor, stamp))
  {
    hide Exclusive, Held, Sessions;
    var t := EvidenceAdded(s, task, uri, actor, stamp);
    forall x | x in t.tasks && t.tasks[x].status == Done
      ensures exists e | e in t.evidence :: t.evidence[e].task == x
    {
      var e :| e in s.evidence && s.evidence[e].task == x;
      assert e in t.evidence && t.evidence[e].task == x;
    }
  }

  /** The draft, if there is one, satisfies the invariant, and finishing it keeps it. */
  ghost predicate Admissible(draft: Result<Draft>) {
    draft.Ok? ==> Inv(draft.value.tables) && Safe(draft.value.tables, draft.value.finish)
  }

  lemma WorkDrafts(s: Tables, e: Event)
    requires Inv(s)
    requires e.op.AgentAdd? || e.op.AgentUpdate? || e.op.SessionStart? || e.op.SessionHeartbeat?
             || e.op.SessionEnd? || e.op.EvidenceAdd?
    ensures Admissible(WorkDraft(s, e))
  {
    hide Inv, AgentAdded, SessionStarted, EvidenceAdded, Text.Dec;
    if WorkDraft(s, e).Ok? {
      match e.op
      case AgentAdd(id, profile, author) => AgentAddedKeeps(s, id, profile, Second(e.at.stamp));
      case SessionStart(id, agent, harness) => SessionStartedKeeps(s, id, agent, Second(e.at.stamp));
      case EvidenceAdd(task, uri, actor) => EvidenceAddedKeeps(s, task, uri, actor, Second(e.at.stamp));
      case _ =>
    }
  }

  lemma StatusDrafts(s: Tables, m: Moment, c: StatusChange)
    requires Inv(s)
    ensures Admissible(ChangeStatus(s, m, c))
  {
    hide Inv, StatusChanged, RequireTransition, RequireReference, Accountable, NotesChange, StatusName;
    if ChangeStatus(s, m, c).Ok? { StatusChangedKeeps(s, c, Second(m.stamp)); }
  }

  lemma TaskDrafts(s: Tables, e: Event)
    requires Inv(s)
    requires e.op.TaskCreate? || e.op.TaskUpdate? || e.op.TaskAssign? || e.op.TaskStatus?
    ensures Admissible(TaskDraft(s, e))
  {
    hide Inv, TaskCreated, TaskEdited, TaskAssigned, ChangeStatus, Accountable, Changed, Listed;
    if TaskDraft(s, e).Ok? {
      match e.op
      case TaskCreate(id, content, actor, assignees) =>
        TaskCreatedKeeps(s, id, content, actor, assignees, Second(e.at.stamp));
      case TaskUpdate(id, content, actor, ifRevision) =>
        TaskEditedKeeps(s, id, content, Second(e.at.stamp));
      case TaskAssign(id, added, removed, actor, ifRevision) =>
        TaskAssignedKeeps(s, id, added, removed, Second(e.at.stamp));
      case TaskStatus(change) => StatusDrafts(s, e.at, change.(session := e.session));
    }
  }

  // --- recovery and claims ------------------------------------------------

  lemma BlockingKeepsTasks(s: Tables, r: Reaping, stamp: Seconds, clock: Clock)
    requires Inv(s)
    ensures var t := Reaped(s, r, stamp, clock);
      Exclusive(t.tasks, t.claims) && Evidenced(t.tasks, t.evidence) && Revisions(t.tasks)
  {
    hide Held, Sessions, AssigneeKeys, EvidenceKeys, EdgeKeys, MessageKeys, ReviewKeys, LinkKeys, Cursors, ReapRows,
      Seen, Ended;
  }

  lemma EndingKeepsHolders(s: Tables, r: Reaping, stamp: Seconds, clock: Clock)
    requires Inv(s) && r.operator != Some(r.session)
    ensures var t := Reaped(s, r, stamp, clock);
      Held(t.claims, t.sessions, t.assignees) && Sessions(t.sessions, t.agents)
  {
    hide Evidenced, Revisions, ReapRows, AssigneeKeys, EvidenceKeys, EdgeKeys, MessageKeys, ReviewKeys,
      LinkKeys, Cursors, BlockedTask;
    var t := Reaped(s, r, stamp, clock);
    var ended := Ended(s.sessions, r.session, stamp);
    assert Held(t.claims, ended, t.assignees);
    SeenKeeps(ended, r.operator, Second(clock(|s.audit| + |Owned(s, r.session)|)), t.agents, t.claims,
              t.assignees);
  }

  lemma ReapedKeeps(s: Tables, r: Reaping, stamp: Seconds, clock: Clock)
    requires Inv(s) && r.operator != Some(r.session)
    ensures Inv(Reaped(s, r, stamp, clock))
  {
    hide Exclusive, Held, Sessions, Evidenced, ReapRows;
    BlockingKeepsTasks(s, r, stamp, clock);
    EndingKeepsHolders(s, r, stamp, clock);
  }

  lemma {:induction false} ReapAllKeeps(s: Tables, order: seq<Id>, actor: Id, reason: string,
                                        operator: Option<Id>, stamp: Seconds, clock: Clock)
    requires Inv(s) && ReapAll(s, order, actor, reason, operator, stamp, clock).Ok?
    ensures Inv(ReapAll(s, order, actor, reason, operator, stamp, clock).value)
    decreases |order|
  {
    hide Inv, Reaped;
    if order != [] {
      var r := Reaping(order[0], actor, reason, operator, false);
      ReapedKeeps(s, r, stamp, clock);
      ReapAllKeeps(Reaped(s, r, stamp, clock), order[1..], actor, reason, operator, stamp, clock);
    }
  }

  lemma TakenKeeps(s: Tables, id: Id, agent: Id, session: Id, stamp: Seconds)
    requires Inv(s) && id in s.tasks && MatchingActiveSession(s, agent, session)
    ensures Inv(Taken(s, id, agent, session, stamp))
  {
    TakenKeepsTasks(s, id, agent, session, stamp);
    TakenKeepsHolders(s, id, agent, session, stamp);
    TakenKeepsKeys(s, id, agent, session, stamp);
    hide Taken, Exclusive, Held, Sessions, Evidenced, Revisions, AssigneeKeys, EvidenceKeys, EdgeKeys, MessageKeys,
      ReviewKeys, LinkKeys, Cursors;
  }

  lemma TakenKeepsTasks(s: Tables, id: Id, agent: Id, session: Id, stamp: Seconds)
    requires Inv(s) && id in s.tasks && MatchingActiveSession(s, agent, session)
    ensures var t := Taken(s, id, agent, session, stamp);
      Exclusive(t.tasks, t.claims) && Evidenced(t.tasks, t.evidence) && Revisions(t.tasks)
  {
    hide Held, Sessions, AssigneeKeys, EvidenceKeys, EdgeKeys, MessageKeys, ReviewKeys, LinkKeys, Cursors;
  }

  lemma TakenKeepsHolders(s: Tables, id: Id, agent: Id, session: Id, stamp: Seconds)
    requires Inv(s) && id in s.tasks && MatchingActiveSession(s, agent, session)
    ensures var t := Taken(s, id, agent, session, stamp);
      Held(t.claims, t.sessions, t.assignees) && AssigneeKeys(t.assignees, t.tasks, t.agents)
  {
    hide Exclusive, Evidenced, Revisions, EvidenceKeys, EdgeKeys, MessageKeys, ReviewKeys, LinkKeys, Cursors;
  }

  lemma TakenKeepsKeys(s: Tables, id: Id, agent: Id, session: Id, stamp: Seconds)
    requires Inv(s) && id in s.tasks
    ensures var t := Taken(s, id, agent, session, stamp);
      EvidenceKeys(t.evidence, t.lastEvidence, t.tasks) && EdgeKeys(t.dependencies, t.tasks)
      && MessageKeys(t.messages, t.tasks) && ReviewKeys(t.reviews, t.tasks) && LinkKeys(t.artifactTasks, t.tasks)
  { }

  lemma TakeTaskKeeps(s: Tables, m: Moment, id: Id, agent: Id, session: Id, revision: int, reaped: Option<Id>)
    requires Inv(s) && Commit(TakeTask(s, m, id, agent, session, revision, reaped), m.clock).Ok?
    ensures Inv(Commit(TakeTask(s, m, id, agent, session, revision, reaped), m.clock).value)
  {
    hide Inv, Taken;
    TakenKeeps(s, id, agent, session, Second(m.stamp));
    CommitKeeps(TakeTask(s, m, id, agent, session, revision, reaped), m.clock);
  }

  lemma ClaimTaskKeeps(s: Tables, m: Moment, id: Id, agent: Id, session: Option<Id>, ifRevision: int)
    requires Inv(s) && ClaimTask(s, m, id, agent, session, ifRevision).Ok?
    ensures Inv(ClaimTask(s, m, id, agent, session, ifRevision).value.tables)
  {
    hide Inv, Reaped, Commit, TakeTask;
    var task := s.tasks[id];
    if task.revision == ifRevision {
      if task.status == InProgress {
        var holder := s.claims[id].session;
        var r := LeaseReaping(holder, agent, session.value);
        ReapedKeeps(s, r, Second(m.stamp), m.clock);
        TakeTaskKeeps(Reaped(s, r, Second(m.stamp), m.clock), m, id, agent, session.value,
                      ifRevision + 1, Some(holder));
      } else {
        TakeTaskKeeps(s, m, id, agent, session.value, ifRevision, None);
      }
    }
  }

  lemma RecoveriesKeep(s: Tables, e: Event)
    requires Inv(s) && (e.op.SessionRecover? || e.op.SessionSweep?) && Apply(s, e).Ok?
    ensures Inv(Apply(s, e).value)
  {
    hide Inv, Reaped, DraftOf, ClaimTask, Archiving.ArchiveRecords;
    match e.op
    case SessionRecover(id, actor, reason, staleAfter, force) =>
      ReapedKeeps(s, Reaping(id, actor, reason, e.session, force), Second(e.at.stamp), e.at.clock);
    case SessionSweep(actor, reason, staleAfter, limit) =>
      ReapAllKeeps(s, Oldest(s, Candidates(s, StaleCutoff(e.at.lease, staleAfter), e.session), limit), actor,
                   reason, e.session, Second(e.at.stamp), e.at.clock);
  }

  // --- correspondence -----------------------------------------------------

  /** The states that share everything the claim protocol reads. */
  ghost predicate SameProtocol(s: Tables, t: Tables) {
    s.agents == t.agents && s.sessions == t.sessions && s.tasks == t.tasks && s.claims == t.claims
    && s.assignees == t.assignees && s.evidence == t.evidence && s.lastEvidence == t.lastEvidence
  }

  ghost predicate NotesSound(s: Tables) {
    EdgeKeys(s.dependencies, s.tasks) && MessageKeys(s.messages, s.tasks) && ReviewKeys(s.reviews, s.tasks)
    && LinkKeys(s.artifactTasks, s.tasks) && Cursors(s.cursors, |s.audit|)
  }

  lemma NotesKeep(s: Tables)
    requires Inv(s)
    ensures NotesSound(s)
    ensures forall t: Tables :: SameProtocol(s, t) && NotesSound(t) ==> Inv(t)
  {
  }

  /** The draft touches only correspondence, and leaves it sound. */
  ghost predicate Quiet(s: Tables, draft: Result<Draft>) {
    draft.Ok? ==> SameProtocol(s, draft.value.tables) && NotesSound(draft.value.tables)
                  && (draft.value.finish.Nothing? || draft.value.finish.Strike?)
  }

  lemma NoteDrafts(s: Tables, e: Event)
    requires NotesSound(s)
    requires e.op.MessageSend? || e.op.MessageRedact? || e.op.ReviewAdd? || e.op.AuditRedact?
    ensures Quiet(s, NoteDraft(s, e))
  {
    hide Cursors, EdgeKeys, LinkKeys, RequireActor, REDACTED_BODY, REVIEW_DECISIONS, Redaction.Render, Text.Dec;
    match e.op
    case MessageSend(_, _, _, _, _) =>
    case MessageRedact(_, _, _) =>
    case ReviewAdd(_, _, _, _) =>
    case AuditRedact(_, _, _) =>
  }

  lemma EdgeDrafts(s: Tables, e: Event)
    requires NotesSound(s)
    requires e.op.InboxMarkRead? || e.op.DependencyAdd? || e.op.DependencyResolve?
    ensures Quiet(s, EdgeDraft(s, e))
  {
    hide MessageKeys, ReviewKeys, LinkKeys, EdgeName, RequireActor;
    match e.op
    case InboxMarkRead(_, _) =>
    case DependencyAdd(_, _) =>
    case DependencyResolve(_, _) =>
  }

  lemma WriteQuiet(s: Tables, m: Moment, w: RecordWrite, session: Option<Id>)
    requires NotesSound(s)
    ensures Quiet(s, WriteRecord(s, m, w, session))
  {
    hide Changed, RequireAmendable, StatusKnown, EdgeKeys, MessageKeys, ReviewKeys, LinkKeys, Cursors, WithRecords,
      RecordsOf, ObjectOf;
    if WriteRecord(s, m, w, session).Ok? {
      forall records ensures SameProtocol(s, WithRecords(s, w.kind, records))
                             && NotesSound(WithRecords(s, w.kind, records))
      {
        WithRecordsOthers(s, w.kind, records);
      }
    }
  }

  lemma RecordDrafts(s: Tables, e: Event)
    requires NotesSound(s) && WritesRecord(e.op)
    ensures Quiet(s, RecordDraft(s, e))
  {
    hide RecordDraft, WriteRecord, RecordWriteOf, EdgeKeys, MessageKeys, ReviewKeys, Cursors;
    if RecordDraft(s, e).Ok? {
      RecordDraftIs(s, e);
      WriteQuiet(LinksAdded(s, e.op), e.at, RecordWriteOf(s, e.op), e.session);
    }
  }

  /** The operations that leave the claim protocol's tables alone. */
  predicate Corresponds(op: Op) { OnNote(op) || OnEdge(op) || WritesRecord(op) }

  lemma QuietDrafts(s: Tables, e: Event)
    requires NotesSound(s) && Corresponds(e.op)
    ensures Quiet(s, DraftOf(s, e))
  {
    hide NotesSound, Quiet, WorkDraft, TaskDraft, NoteDraft, EdgeDraft, RecordDraft;
    if OnNote(e.op) {
      NoteDrafts(s, e);
    } else if OnEdge(e.op) {
      EdgeDrafts(s, e);
    } else {
      RecordDrafts(s, e);
    }
  }

  // --- archival -----------------------------------------------------------

  lemma DroppedKeepsTasks(s: Tables, tasks: set<Id>, messages: set<Id>)
    requires Inv(s)
    ensures var t := Archiving.Dropped(s, tasks, messages);
      Exclusive(t.tasks, t.claims) && Held(t.claims, t.sessions, t.assignees)
      && Evidenced(t.tasks, t.evidence) && Revisions(t.tasks)
  {
    var t := Archiving.Dropped(s, tasks, messages);
    forall x | x in t.tasks && t.tasks[x].status == Done
      ensures exists e | e in t.evidence :: t.evidence[e].task == x
    {
      var e :| e in s.evidence && s.evidence[e].task == x;
      assert e in t.evidence && t.evidence[e].task == x;
    }
  }

  lemma DroppedKeepsKeys(s: Tables, tasks: set<Id>, messages: set<Id>)
    requires Inv(s) && Archiving.Deletable(s, tasks)
    ensures var t := Archiving.Dropped(s, tasks, messages);
      AssigneeKeys(t.assignees, t.tasks, t.agents) && EvidenceKeys(t.evidence, t.lastEvidence, t.tasks)
      && EdgeKeys(t.dependencies, t.tasks) && MessageKeys(t.messages, t.tasks)
      && ReviewKeys(t.reviews, t.tasks) && LinkKeys(t.artifactTasks, t.tasks)
  {
    hide Exclusive, Held, Sessions, Evidenced;
  }

  lemma DroppedKeeps(s: Tables, tasks: set<Id>, messages: set<Id>)
    requires Inv(s) && Archiving.Deletable(s, tasks)
    ensures Inv(Archiving.Dropped(s, tasks, messages))
  {
    hide Exclusive, Held, Evidenced, Revisions, AssigneeKeys, EvidenceKeys, EdgeKeys, MessageKeys,
      ReviewKeys, LinkKeys;
    DroppedKeepsTasks(s, tasks, messages);
    DroppedKeepsKeys(s, tasks, messages);
  }

  lemma ArchiveKeeps(s: Tables, e: Event)
    requires Inv(s) && e.op.ArchiveRun? && Apply(s, e).Ok?
    ensures Inv(Apply(s, e).value)
  {
    hide Inv, Archiving.Dropped, Archiving.Deletable, Archiving.EligibleTasks, Archiving.EligibleMessages,
      Archiving.ArchiveRecords, Commit, DraftOf, RecoverSession, SweepSessions, ClaimTask;
    var op := e.op;
    Archiving.ArchiveIsRemoval(s, e.at, op.days, op.actor, e.session, op.force, op.database, op.path);
    var cutoff := Archiving.ArchiveCutoff(e.at, op.days);
    var tasks, messages := Archiving.EligibleTasks(s, cutoff), Archiving.EligibleMessages(s, cutoff);
    if tasks != {} || messages != {} {
      DroppedKeeps(s, tasks, messages);
      CommitKeeps(Ok(Archiving.Removal(s, tasks, messages, op.actor, e.session, op.database, op.path)),
                  e.at.clock);
    }
  }

  // --- every run ----------------------------------------------------------

  lemma DraftKeeps(s: Tables, e: Event)
    requires Inv(s) && Drafted(e.op)
    ensures Admissible(DraftOf(s, e))
  {
    hide Inv, NotesSound, SameProtocol, WorkDraft, TaskDraft, NoteDraft, EdgeDraft, RecordDraft;
    if OnWork(e.op) {
      WorkDrafts(s, e);
    } else if OnTask(e.op) {
      TaskDrafts(s, e);
    } else {
      NotesKeep(s);
      QuietDrafts(s, e);
    }
  }

  /** Every operation preserves the invariant, and a refused one keeps the state. */
  lemma NextKeeps(s: Tables, e: Event)
    requires Inv(s)
    ensures Inv(Next(s, e))
    ensures Apply(s, e).Err? ==> Next(s, e) == s
  {
    hide Inv, DraftOf, RecoverSession, SweepSessions, ClaimTask, Archiving.ArchiveRecords, Commit, Safe;
    if Apply(s, e).Ok? {
      if Drafted(e.op) {
        DraftedApply(s, e);
        DraftKeeps(s, e);
        if DraftOf(s, e).Ok? {
          CommitKeeps(DraftOf(s, e), e.at.clock);
        } else {
          CommitRefused(DraftOf(s, e), e.at.clock);
        }
      } else {
        match e.op
        case SessionRecover(_, _, _, _, _) => RecoveriesKeep(s, e);
        case SessionSweep(_, _, _, _) => RecoveriesKeep(s, e);
        case TaskClaim(id, agent, ifRevision) => ClaimTaskKeeps(s, e.at, id, agent, e.session, ifRevision);
        case ArchiveRun(_, _, _, _, _) => ArchiveKeeps(s, e);
      }
    }
  }

  lemma CommitRefused(draft: Result<Draft>, clock: Clock)
    requires draft.Err?
    ensures Commit(draft, clock).Err?
  {
  }

  lemma InvInitially()
    ensures Inv(EMPTY)
  {
  }

  /** In every state a run reaches the invariant holds and the check passes. */
  lemma {:induction false} RunKeeps(s: Tables, events: seq<Event>)
    requires Inv(s)
    ensures Inv(Run(s, events)) && ForeignKeys(Run(s, events)) && CheckPasses(Run(s, events))
    decreases |events|
  {
    hide Inv, Next, ForeignKeys, CheckPasses;
    if events == [] {
      InvPassesCheck(s);
    } else {
      NextKeeps(s, events[0]);
      RunKeeps(Next(s, events[0]), events[1..]);
    }
  }
}
