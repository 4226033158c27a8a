/** The claim, lease and revision protocol: what each agent, session, task and
    evidence operation commits, as a function of the state it starts from.
    An operation with one audit row is given by its `Draft`. `Database.dfy`
    proves the step-by-step operations equal to these. */
module Protocol {
  import opened Records
  import opened Ledger
  import Text

  // --- agents -------------------------------------------------------------

  function StatusText(active: bool): string { if active then "active" else "inactive" }

  /** The columns of an agent that `agent update` may change. */
  function AgentColumns(agent: Agent): Columns {
    agent.profile[Status := StatusText(agent.active)]
  }

  function SelectedAgentColumns(profile: Columns, active: Option<bool>): Columns {
    if active.Some? then profile[Status := StatusText(active.value)] else profile
  }

  function Actor(actor: Option<Id>, default: Id): Id {
    if actor.Some? then actor.value else default
  }

  function AgentAdded(s: Tables, id: Id, profile: Columns, stamp: Seconds): Tables {
    s.(agents := s.agents[id := Agent(profile, true, stamp, stamp)])
  }

  function AddAgent(s: Tables, m: Moment, id: Id, profile: Profile, actor: Option<Id>,
                    session: Option<Id>): Result<Draft>
  {
    (:- Need(id !in s.agents, ConstraintViolation);
     Ok(Draft(AgentAdded(s, id, profile, Second(m.stamp)),
              Entry(Actor(actor, id), session, Create, AgentObject, id, Given(""), map[]),
              StartCursor(id))))
  }

  predicate HasActiveSession(s: Tables, agent: Id) {
    exists x | x in s.sessions :: s.sessions[x].agent == agent && s.sessions[x].active
  }

  function UpdateAgent(s: Tables, m: Moment, id: Id, profile: Profile, active: Option<bool>,
                       actor: Option<Id>, session: Option<Id>): Result<Draft>
  {
    (:- Need(profile != map[] || active.Some?, InvalidArguments);
     :- Need(active.Some? ==> actor.Some?, InvalidArguments);
     :- Need(id in s.agents, NotFound);
     :- Need(active == Some(false) ==> !HasActiveSession(s, id), AgentHasActiveSessions);
     var selected := SelectedAgentColumns(profile, active);
     Ok(Draft(s, Entry(Actor(actor, id), session, Update, AgentObject, id, ColumnsLine(selected.Keys),
                       Changed(AgentColumns(s.agents[id]), selected)),
              EditAgent(id, profile, active, Second(m.stamp)))))
  }

  // --- sessions -----------------------------------------------------------

  function SessionStarted(s: Tables, id: Id, agent: Id, stamp: Seconds): Tables {
    s.(sessions := s.sessions[id := Session(agent, true, stamp, stamp, None)])
  }

  function StartSession(s: Tables, m: Moment, id: Id, agent: Id, harness: string): Result<Draft> {
    (:- RequireActor(s, agent);
     :- Need(id !in s.sessions, ConstraintViolation);
     Ok(Draft(SessionStarted(s, id, agent, Second(m.stamp)),
              Entry(agent, Some(id), Start, SessionObject, id, Given(harness), map[]), Nothing)))
  }

  function RequireOpenSession(s: Tables, id: Id): Check {
    if id !in s.sessions then Stop(NotFound) else Need(s.sessions[id].active, InactiveSession)
  }

  function BeatSession(s: Tables, id: Id): Result<Draft> {
    (:- RequireOpenSession(s, id);
     Ok(Draft(s, Entry(s.sessions[id].agent, Some(id), Heartbeat, SessionObject, id, Given(""), map[]),
              Nothing)))
  }

  /** The tasks a session holds claims on. */
  function Owned(s: Tables, session: Id): set<Id> {
    set t | t in s.claims && t in s.tasks && s.claims[t].session == session
  }

  function EndSession(s: Tables, m: Moment, id: Id): Result<Draft> {
    (:- RequireOpenSession(s, id);
     :- Need(forall t | t in s.claims :: s.claims[t].session != id, SessionHasActiveClaims);
     Ok(Draft(s, Entry(s.sessions[id].agent, Some(id), End, SessionObject, id, Given(""), map[]),
              CloseSession(id, Second(m.stamp)))))
  }

  // --- recovery -----------------------------------------------------------

  /** One call of the reaper shared by `recover`, `sweep` and `claim`. */
  datatype Reaping = Reaping(session: Id, actor: Id, reason: string, operator: Option<Id>, forced: bool)

  function BlockedTask(task: Task, reason: string, stamp: Seconds): Task {
    task.(status := Blocked,
          revision := task.revision + 1,
          notes := if task.notes == "" then reason else task.notes + "\n" + reason,
          updatedAt := stamp)
  }

  function RecoverClaimRow(s: Tables, r: Reaping, task: Id, at: Seconds): AuditRow {
    AuditRow(r.actor, r.operator, RecoverClaim, TaskObject, task,
             RecoverClaimLine(r.session, if task in s.tasks then s.tasks[task].revision else 0, r.reason),
             at)
  }

  function RecoverRow(r: Reaping, at: Seconds): AuditRow {
    AuditRow(r.actor, r.operator, Recover, SessionObject, r.session,
             if r.forced then ForcedLine(r.reason) else Given(r.reason), at)
  }

  /** The rows the reaper appends: one for each task it blocks, then its own. */
  function ReapRows(s: Tables, r: Reaping, clock: Clock): seq<AuditRow> {
    var order := Text.Sorted(Owned(s, r.session));
    seq(|order|, i requires 0 <= i < |order| =>
      RecoverClaimRow(s, r, order[i], Second(clock(|s.audit| + i))))
    + [RecoverRow(r, Second(clock(|s.audit| + |order|)))]
  }

  /** The state the reaper leaves: the session ended, exactly its tasks blocked. */
  function Reaped(s: Tables, r: Reaping, stamp: Seconds, clock: Clock): Tables {
    var owned := Owned(s, r.session);
    s.(tasks := map t | t in s.tasks ::
         if t in owned then BlockedTask(s.tasks[t], r.reason, stamp) else s.tasks[t],
       claims := map t | t in s.claims && t !in owned :: s.claims[t],
       sessions := Seen(Ended(s.sessions, r.session, stamp), r.operator,
                        Second(clock(|s.audit| + |owned|))),
       audit := s.audit + ReapRows(s, r, clock))
  }

  /** The reaper is refused when its operator is the session it ends: the last
      audit row would then be attributed to a session that has just ended. */
  function Reap(s: Tables, r: Reaping, stamp: Seconds, clock: Clock): Result<Tables> {
    (:- Accountable(s, r.actor, r.operator);
     :- Need(r.operator != Some(r.session), InactiveSession);
     Ok(Reaped(s, r, stamp, clock)))
  }

  predicate Stale(s: Tables, session: Id, cutoff: Seconds) {
    session in s.sessions && s.sessions[session].active && s.sessions[session].lastSeen <= cutoff
  }

  function RecoverSession(s: Tables, m: Moment, id: Id, actor: Id, reason: string,
                          session: Option<Id>, staleAfter: Seconds, force: bool): Result<Tables>
  {
    (:- Need(session != Some(id), InvalidArguments);
     :- RequireActor(s, actor);
     :- Need(id in s.sessions, NotFound);
     :- Need(s.sessions[id].active, InactiveSession);
     :- Need(force || s.sessions[id].lastSeen <= StaleCutoff(m.lease, staleAfter), SessionNotStale);
     Reap(s, Reaping(id, actor, reason, session, force), Second(m.stamp), m.clock))
  }

  /** `ORDER BY last_seen_at, id`. */
  predicate SeenBefore(s: Tables, x: Id, y: Id) {
    x in s.sessions && y in s.sessions &&
    (s.sessions[x].lastSeen < s.sessions[y].lastSeen
     || (s.sessions[x].lastSeen == s.sessions[y].lastSeen && Text.Before(x, y)))
  }

  /** The sessions a sweep may reap. */
  function Candidates(s: Tables, cutoff: Seconds, operator: Option<Id>): set<Id> {
    set x | x in s.sessions && Stale(s, x, cutoff) && operator != Some(x)
  }

  predicate IsFirstSeen(s: Tables, x: Id, ids: set<Id>) {
    x in ids && forall y | y in ids :: y == x || SeenBefore(s, x, y)
  }

  lemma {:induction false} FirstSeenExists(s: Tables, ids: set<Id>)
    requires ids != {} && ids <= s.sessions.Keys
    ensures exists x :: IsFirstSeen(s, x, ids)
    decreases |ids|
  {
    var x :| x in ids;
    var rest := ids - {x};
    if rest == {} {
      assert ids == {x};
      assert IsFirstSeen(s, x, ids);
    } else {
      FirstSeenExists(s, rest);
      var y :| IsFirstSeen(s, y, rest);
      Text.BeforeTotal(x, y);
      if SeenBefore(s, x, y) {
        forall z | z in ids ensures z == x || SeenBefore(s, x, z) {
          if z != x && z != y { SeenBeforeTransitive(s, x, y, z); }
        }
        assert IsFirstSeen(s, x, ids);
      } else {
        assert SeenBefore(s, y, x);
        assert IsFirstSeen(s, y, ids);
      }
    }
  }

  lemma SeenBeforeTransitive(s: Tables, x: Id, y: Id, z: Id)
    requires SeenBefore(s, x, y) && SeenBefore(s, y, z)
    ensures SeenBefore(s, x, z)
  {
    if Text.Before(x, y) && Text.Before(y, z) { Text.BeforeTransitive(x, y, z); }
  }

  lemma FirstSeenUnique(s: Tables, x: Id, y: Id, ids: set<Id>)
    requires IsFirstSeen(s, x, ids) && IsFirstSeen(s, y, ids)
    ensures x == y
  {
    if x != y && s.sessions[x].lastSeen == s.sessions[y].lastSeen { Text.BeforeAsymmetric(x, y); }
  }

  function FirstSeen(s: Tables, ids: set<Id>): (x: Id)
    requires ids != {} && ids <= s.sessions.Keys
    ensures IsFirstSeen(s, x, ids)
  {
    FirstSeenExists(s, ids);
    assert forall x, y | IsFirstSeen(s, x, ids) && IsFirstSeen(s, y, ids) :: x == y by {
      forall x, y | IsFirstSeen(s, x, ids) && IsFirstSeen(s, y, ids) ensures x == y {
        FirstSeenUnique(s, x, y, ids);
      }
    }
    var x :| IsFirstSeen(s, x, ids);
    x
  }

  /** The first `limit` of `ids`, oldest first. */
  function Oldest(s: Tables, ids: set<Id>, limit: nat): (order: seq<Id>)
    requires ids <= s.sessions.Keys
    ensures |order| == if limit < |ids| then limit else |ids|
    ensures forall x | x in order :: x in ids
    decreases limit
  {
    if limit == 0 || ids == {} then [] else
      var x := FirstSeen(s, ids);
      [x] + Oldest(s, ids - {x}, limit - 1)
  }

  /** Reaping several sessions one after another. */
  function ReapAll(s: Tables, order: seq<Id>, actor: Id, reason: string, operator: Option<Id>,
                   stamp: Seconds, clock: Clock): Result<Tables>
    decreases |order|
  {
    if order == [] then Ok(s) else
      var next :- Reap(s, Reaping(order[0], actor, reason, operator, false), stamp, clock);
      ReapAll(next, order[1..], actor, reason, operator, stamp, clock)
  }

  datatype Swept = Swept(tables: Tables, sessions: seq<Id>, truncated: bool)

  function SweepSessions(s: Tables, m: Moment, actor: Id, reason: string, session: Option<Id>,
                         staleAfter: Seconds, limit: nat): Result<Swept>
  {
    (:- Accountable(s, actor, session);
     var candidates := Candidates(s, StaleCutoff(m.lease, staleAfter), session);
     var order := Oldest(s, candidates, limit);
     var next :- ReapAll(s, order, actor, reason, session, Second(m.stamp), m.clock);
     Ok(Swept(next, order, |candidates| > limit)))
  }

  // --- tasks --------------------------------------------------------------

  predicate Allowed(from: TaskStatus, to: TaskStatus) {
    match from
    case Todo => to == InProgress || to == Blocked
    case InProgress => to == Todo || to == Review || to == Blocked
    case Review => to == InProgress || to == Blocked || to == Done
    case Blocked => to == Todo || to == InProgress
    case Done => false
  }

  predicate Claimable(status: TaskStatus) {
    status == Todo || status == Review || status == Blocked
  }

  function StatusName(status: TaskStatus): string {
    match status
    case Todo => "todo"
    case InProgress => "in_progress"
    case Review => "review"
    case Blocked => "blocked"
    case Done => "done"
  }

  predicate Unique(items: seq<Id>) {
    forall i, j | 0 <= i < j < |items| :: items[i] != items[j]
  }

  function Elements(items: seq<Id>): set<Id> { set x | x in items }

  /** The assignee rows of one task. */
  function Assigned(task: Id, agents: seq<Id>): set<(Id, Id)> { set x | x in agents :: (task, x) }

  predicate AgentsExist(s: Tables, ids: seq<Id>) {
    forall x | x in ids :: x in s.agents
  }

  function TaskCreated(s: Tables, id: Id, content: Columns, actor: Id, assignees: seq<Id>, stamp: Seconds)
    : Tables
  {
    s.(tasks := s.tasks[id := Task(content, "", Todo, 1, actor, stamp, stamp)],
       assignees := s.assignees + Assigned(id, assignees))
  }

  function CreateTask(s: Tables, m: Moment, id: Id, content: TaskContent, actor: Id, assignees: seq<Id>,
                      session: Option<Id>): Result<Draft>
  {
    (:- Need(Unique(assignees), InvalidArguments);
     :- RequireActor(s, actor);
     :- Need(AgentsExist(s, assignees), NotFound);
     :- Need(id !in s.tasks, ConstraintViolation);
     Ok(Draft(TaskCreated(s, id, content, actor, assignees, Second(m.stamp)),
              Entry(actor, session, Create, TaskObject, id, Given(""), map[]), Nothing)))
  }

  /** Only the claim's own agent and session may write to a claimed task. */
  function RequireClaimOwnership(s: Tables, task: Id, actor: Id, session: Option<Id>): Check {
    if task !in s.claims then Pass
    else if actor != s.claims[task].agent then Stop(TaskClaimOwnerMismatch)
    else Need(session == Some(s.claims[task].session), TaskClaimSessionMismatch)
  }

  /** The checks every revision-guarded write begins with. */
  function RequireRevision(s: Tables, task: Id, actor: Id, session: Option<Id>, revision: int): Check {
    match Accountable(s, actor, session)
    case Stop(error) => Stop(error)
    case Pass =>
      if task !in s.tasks then Stop(NotFound)
      else Need(s.tasks[task].revision == revision, StaleTaskRevision)
  }

  /** The task at its next revision with some content columns replaced. */
  function TaskEdited(s: Tables, id: Id, selected: Columns, stamp: Seconds): Tables
    requires id in s.tasks
  {
    var task := s.tasks[id];
    s.(tasks := s.tasks[id := task.(content := task.content + selected,
                                    revision := task.revision + 1, updatedAt := stamp)])
  }

  function UpdateTask(s: Tables, m: Moment, id: Id, selected: TaskContent, actor: Id, session: Option<Id>,
                      ifRevision: int): Result<Draft>
  {
    (:- Need(selected != map[], InvalidArguments);
     :- RequireRevision(s, id, actor, session, ifRevision);
     :- RequireClaimOwnership(s, id, actor, session);
     Ok(Draft(TaskEdited(s, id, selected, Second(m.stamp)),
              Entry(actor, session, Update, TaskObject, id, FieldsLine(selected.Keys, Some(ifRevision)),
                    Changed(s.tasks[id].content, selected)),
              Nothing)))
  }

  function AssigneesOf(s: Tables, task: Id): set<Id> {
    set p | p in s.assignees && p.0 == task :: p.1
  }

  function TaskAssigned(s: Tables, id: Id, added: seq<Id>, removed: seq<Id>, stamp: Seconds): Tables
    requires id in s.tasks
  {
    TaskEdited(s, id, map[], stamp).(
      assignees := (s.assignees + Assigned(id, added)) - Assigned(id, removed))
  }

  /** What `task assign` checks before it writes. */
  function RequireAssignment(s: Tables, id: Id, added: seq<Id>, removed: seq<Id>, actor: Id,
                             session: Option<Id>, ifRevision: int): Check
  {
    if !Unique(added) || !Unique(removed) || (exists x | x in added :: x in removed)
       || (added == [] && removed == []) then Stop(InvalidArguments)
    else if RequireRevision(s, id, actor, session, ifRevision).Stop? then
      RequireRevision(s, id, actor, session, ifRevision)
    else if RequireClaimOwnership(s, id, actor, session).Stop? then
      RequireClaimOwnership(s, id, actor, session)
    else if !AgentsExist(s, added) then Stop(NotFound)
    else if id in s.claims && s.claims[id].agent in removed then Stop(TaskClaimOwnerMismatch)
    else if exists x | x in removed :: x !in AssigneesOf(s, id) then Stop(NotFound)
    else Need(Reassigned(s, id, added, removed) != AssigneesOf(s, id), InvalidArguments)
  }

  function Reassigned(s: Tables, id: Id, added: seq<Id>, removed: seq<Id>): set<Id> {
    (AssigneesOf(s, id) + Elements(added)) - Elements(removed)
  }

  function Listed(ids: set<Id>): string { Text.Join(Text.Sorted(ids), ',') }

  function AssignTask(s: Tables, m: Moment, id: Id, added: seq<Id>, removed: seq<Id>, actor: Id,
                      session: Option<Id>, ifRevision: int): Result<Draft>
  {
    (:- RequireAssignment(s, id, added, removed, actor, session, ifRevision);
     Ok(Draft(TaskAssigned(s, id, added, removed, Second(m.stamp)),
              Entry(actor, session, AssignAction, TaskObject, id,
                    AssignLine(Elements(added), Elements(removed), ifRevision),
                    map[Assignees := (Listed(AssigneesOf(s, id)), Listed(Reassigned(s, id, added, removed)))]),
              Nothing)))
  }

  predicate Resolves(s: Tables, reference: Reference) {
    match reference.kind
    case ReviewObject => reference.id in s.reviews
    case DecisionObject => reference.id in s.decisions
    case MessageObject => reference.id in s.messages
    case TaskObject => reference.id in s.tasks
    case EscalationObject => reference.id in s.escalations
    case ArtifactObject => reference.id in s.artifacts
    case _ => false
  }

  function RequireReference(s: Tables, because: Option<Reference>): Check {
    Need(because.Some? ==> Resolves(s, because.value), NotFound)
  }

  predicate HasEvidence(s: Tables, task: Id) {
    exists e | e in s.evidence :: s.evidence[e].task == task
  }

  /** What `task status` asks of the claim before leaving `in_progress`. */
  function RequireHolder(s: Tables, task: Id, actor: Id, session: Option<Id>): Check {
    if task !in s.claims then Stop(NotFound) else RequireClaimOwnership(s, task, actor, session)
  }

  datatype StatusChange = StatusChange(
    id: Id, to: TaskStatus, actor: Id, session: Option<Id>, ifRevision: int, note: string,
    because: Option<Reference>, owned: bool)

  function RequireTransition(s: Tables, from: TaskStatus, c: StatusChange): Check {
    if c.owned && from != InProgress then Stop(TaskNotClaimed)
    else if from == InProgress && c.session.None? then Stop(SessionRequired)
    else if c.to == InProgress then Stop(TaskClaimRequired)
    else if c.to == from then Stop(InvalidTaskState)
    else if !Allowed(from, c.to) then Stop(InvalidTaskTransition)
    else if from == InProgress then RequireHolder(s, c.id, c.actor, c.session)
    else Need(c.to == Done ==> HasEvidence(s, c.id), ConstraintViolation)
  }

  function NotesChange(before: string, note: string): Changes {
    if note != "" && before != note then map[Notes := (before, note)] else map[]
  }

  /** The task in its new status at its next revision; leaving `in_progress`
      releases the claim. */
  function StatusChanged(s: Tables, c: StatusChange, stamp: Seconds): Tables
    requires c.id in s.tasks
  {
    var task := s.tasks[c.id];
    s.(tasks := s.tasks[c.id := task.(status := c.to,
                                      notes := if c.note == "" then task.notes else c.note,
                                      revision := task.revision + 1, updatedAt := stamp)],
       claims := if task.status == InProgress then s.claims - {c.id} else s.claims)
  }

  function ChangeStatus(s: Tables, m: Moment, c: StatusChange): Result<Draft> {
    (:- RequireRevision(s, c.id, c.actor, c.session, c.ifRevision);
     var task := s.tasks[c.id];
     :- RequireReference(s, c.because);
     :- RequireTransition(s, task.status, c);
     Ok(Draft(StatusChanged(s, c, Second(m.stamp)),
              Entry(c.actor, c.session, StatusAction, TaskObject, c.id,
                    StatusLine(task.status, c.to, c.ifRevision, c.because),
                    NotesChange(task.notes, c.note)[Status := (StatusName(task.status), StatusName(c.to))]),
              Nothing)))
  }

  // --- claims -------------------------------------------------------------

  datatype ClaimReceipt = ClaimReceipt(revision: int, claimed: bool, reaped: Option<Id>)
  datatype Claimed = Claimed(tables: Tables, receipt: ClaimReceipt)

  /** The guard of `task_claim_requires_active_session`. */
  predicate MatchingActiveSession(s: Tables, agent: Id, session: Id) {
    session in s.sessions && s.sessions[session].agent == agent && s.sessions[session].active
    && agent in s.agents && s.agents[agent].active
  }

  function Taken(s: Tables, id: Id, agent: Id, session: Id, stamp: Seconds): Tables
    requires id in s.tasks
  {
    var task := s.tasks[id];
    s.(claims := s.claims[id := Claim(agent, session, stamp)],
       tasks := s.tasks[id := task.(status := InProgress, revision := task.revision + 1,
                                    updatedAt := stamp)],
       assignees := s.assignees + {(id, agent)})
  }

  /** Insert the claim and move the task into `in_progress` at the next revision,
      under the guards of the claim triggers. */
  function TakeTask(s: Tables, m: Moment, id: Id, agent: Id, session: Id, revision: int,
                    reaped: Option<Id>): Result<Draft>
  {
    (:- Need(id in s.tasks, NotFound);
     :- Need(id !in s.claims && MatchingActiveSession(s, agent, session) && Claimable(s.tasks[id].status),
             ConstraintViolation);
     :- Need(s.tasks[id].revision == revision, StaleTaskRevision);
     Ok(Draft(Taken(s, id, agent, session, Second(m.stamp)),
              Entry(agent, Some(session), ClaimAction, TaskObject, id, ClaimLine(revision, reaped), map[]),
              Nothing)))
  }

  /** The reason the reaper records when a claim displaces an expired lease. */
  function LeaseExpired(agent: Id): string {
    "claim lease expired after " + Text.Numeral(SESSION_LEASE_SECONDS) + " seconds of silence; reclaimed by " + agent
  }

  function LeaseReaping(holder: Id, agent: Id, session: Id): Reaping {
    Reaping(holder, agent, LeaseExpired(agent), Some(session), false)
  }

  predicate IsReplay(s: Tables, id: Id, agent: Id, session: Id, ifRevision: int) {
    id in s.tasks && s.tasks[id].revision == ifRevision + 1 && s.tasks[id].status == InProgress
    && id in s.claims && s.claims[id].agent == agent && s.claims[id].session == session
  }

  predicate HolderSilent(s: Tables, id: Id, cutoff: Seconds) {
    id in s.claims && s.claims[id].session in s.sessions
    && s.sessions[s.claims[id].session].lastSeen <= cutoff
  }

  function ClaimTask(s: Tables, m: Moment, id: Id, agent: Id, session: Option<Id>, ifRevision: int)
    : Result<Claimed>
  {
    (:- Need(session.Some?, SessionRequired);
     var mine := session.value;
     :- Accountable(s, agent, session);
     :- Need(id in s.tasks, NotFound);
     var task := s.tasks[id];
     if task.revision != ifRevision then
       if IsReplay(s, id, agent, mine, ifRevision)
       then Ok(Claimed(s, ClaimReceipt(task.revision, false, None)))
       else Err(StaleTaskRevision)
     else if task.status == InProgress then
       :- Need(HolderSilent(s, id, StaleCutoff(m.lease, SESSION_LEASE_SECONDS)), TaskAlreadyClaimed);
       var holder := s.claims[id].session;
       var reaped :- Reap(s, LeaseReaping(holder, agent, mine), Second(m.stamp), m.clock);
       var next :- Commit(TakeTask(reaped, m, id, agent, mine, ifRevision + 1, Some(holder)), m.clock);
       Ok(Claimed(next, ClaimReceipt(ifRevision + 2, true, Some(holder))))
     else
       :- Need(task.status != Done, InvalidTaskState);
       var next :- Commit(TakeTask(s, m, id, agent, mine, ifRevision, None), m.clock);
       Ok(Claimed(next, ClaimReceipt(ifRevision + 1, true, None))))
  }

  // --- evidence -----------------------------------------------------------

  function EvidenceAdded(s: Tables, task: Id, uri: string, actor: Id, stamp: Seconds): Tables {
    s.(evidence := s.evidence[s.lastEvidence + 1 := Evidence(task, uri, actor, stamp)],
       lastEvidence := s.lastEvidence + 1)
  }

  function AddEvidence(s: Tables, m: Moment, task: Id, uri: string, actor: Id, session: Option<Id>)
    : Result<Draft>
  {
    (:- RequireActor(s, actor);
     :- Need(task in s.tasks, NotFound);
     Ok(Draft(EvidenceAdded(s, task, uri, actor, Second(m.stamp)),
              Entry(actor, session, Add, EvidenceObject, Text.Dec(s.lastEvidence + 1), Given(task), map[]),
              Nothing)))
  }
}
