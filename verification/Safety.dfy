/** Whole-run safety of the claim protocol: no lost update, accountable loss of
    claims, leases, and the fencing of ended sessions. */
module Safety {
  import opened Records
  import opened Ledger
  import opened Protocol
  import opened Runs
  import opened Invariants
  import opened Sweep
  import Archiving = Archive

  // --- what a commit does to the protocol's tables ------------------------

  function FinishedSessions(sessions: map<Id, Session>, finish: Finish): map<Id, Session> {
    if finish.CloseSession? then Ended(sessions, finish.session, finish.stamp) else sessions
  }

  lemma CommitShape(draft: Result<Draft>, clock: Clock)
    requires Commit(draft, clock).Ok?
    ensures draft.Ok?
    ensures var d, t := draft.value, Commit(draft, clock).value;
      && t.tasks == d.tables.tasks && t.claims == d.tables.claims
      && t.sessions == FinishedSessions(
           Seen(d.tables.sessions, d.entry.session, Second(clock(|d.tables.audit|))), d.finish)
      && (forall x | x in d.tables.sessions ::
            x in t.sessions && t.sessions[x].agent == d.tables.sessions[x].agent
            && (t.sessions[x].active ==> d.tables.sessions[x].active))
  {
    hide ChangeRows, RowOf, Finished, FinishedAgents;
    var d := draft.value;
    FinishedFields(Appended(d.tables, d.entry, Second(clock(|d.tables.audit|))), d.finish);
  }

  // --- revisions ----------------------------------------------------------

  /** What one step may do to a task that stays: nothing, or exactly `revisions` revisions,
      and a done task stays done. */
  ghost predicate Advances(before: Task, after: Task, revisions: int) {
    after == before
    || (after.revision == before.revision + revisions && (before.status == Done ==> after.status == Done))
  }

  /** Every task advances by one revision at most; only `twice`, if any, by two. */
  ghost predicate TasksAdvance(before: map<Id, Task>, after: map<Id, Task>, twice: Option<Id>) {
    forall x | x in before && x in after :: Advances(before[x], after[x], if twice == Some(x) then 2 else 1)
  }

  /** The task a reaping claim takes: blocked by the reaper, then claimed. */
  function TakenTwice(s: Tables, op: Op): Option<Id> {
    if op.TaskClaim? && op.id in s.tasks && s.tasks[op.id].revision == op.ifRevision
       && s.tasks[op.id].status == InProgress
    then Some(op.id) else None
  }

  ghost predicate NoneVanish(before: map<Id, Task>, after: map<Id, Task>) {
    forall x | x in before :: x in after
  }

  lemma WorkDraftsAdvance(s: Tables, e: Event)
    requires e.op.AgentAdd? || e.op.AgentUpdate? || e.op.SessionStart? || e.op.SessionHeartbeat?
             || e.op.SessionEnd? || e.op.EvidenceAdd?
    ensures WorkDraft(s, e).Ok? ==>
      WorkDraft(s, e).value.tables.tasks == s.tasks && WorkDraft(s, e).value.tables.claims == s.claims
  {
    hide Changed, SelectedAgentColumns, AgentColumns, HasActiveSession, RequireActor, RequireOpenSession;
    match e.op
    case AgentAdd(_, _, _) =>
    case AgentUpdate(_, _, _, _) =>
    case SessionStart(_, _, _) =>
    case SessionHeartbeat(_) =>
    case SessionEnd(_) =>
    case EvidenceAdd(_, _, _) =>
  }

  /** The one task an edit names, one revision on. */
  ghost predicate EditsOne(s: Tables, draft: Result<Draft>, id: Id, ifRevision: int) {
    draft.Ok? ==>
      && id in s.tasks && s.tasks[id].revision == ifRevision
      && id in draft.value.tables.tasks
      && draft.value.tables.tasks == s.tasks[id := draft.value.tables.tasks[id]]
      && draft.value.tables.tasks[id].revision == ifRevision + 1
      && (s.tasks[id].status == Done ==> draft.value.tables.tasks[id].status == Done)
      && draft.value.finish.Nothing?
  }

  lemma UpdateEdits(s: Tables, m: Moment, id: Id, selected: TaskContent, actor: Id, session: Option<Id>,
                    ifRevision: int)
    ensures var d := UpdateTask(s, m, id, selected, actor, session, ifRevision);
      EditsOne(s, d, id, ifRevision) && (d.Ok? ==> d.value.tables.claims == s.claims)
  { }

  lemma AssignEdits(s: Tables, m: Moment, id: Id, added: seq<Id>, removed: seq<Id>, actor: Id,
                    session: Option<Id>, ifRevision: int)
    ensures var d := AssignTask(s, m, id, added, removed, actor, session, ifRevision);
      EditsOne(s, d, id, ifRevision) && (d.Ok? ==> d.value.tables.claims == s.claims)
  {
    hide Listed, AssigneesOf, Reassigned, Unique, AgentsExist;
  }

  lemma StatusEdits(s: Tables, m: Moment, c: StatusChange)
    ensures var d := ChangeStatus(s, m, c);
      EditsOne(s, d, c.id, c.ifRevision)
      && (d.Ok? ==> d.value.tables.claims == if s.tasks[c.id].status == InProgress then s.claims - {c.id}
                                             else s.claims)
  { }

  lemma TaskDraftsAdvance(s: Tables, e: Event)
    requires e.op.TaskCreate? || e.op.TaskUpdate? || e.op.TaskAssign? || e.op.TaskStatus?
    ensures TaskDraft(s, e).Ok? ==>
      TasksAdvance(s.tasks, TaskDraft(s, e).value.tables.tasks, None)
      && NoneVanish(s.tasks, TaskDraft(s, e).value.tables.tasks)
  {
    hide UpdateTask, AssignTask, ChangeStatus;
    match e.op
    case TaskCreate(_, _, _, _) =>
    case TaskUpdate(id, content, actor, ifRevision) =>
      UpdateEdits(s, e.at, id, content, actor, e.session, ifRevision);
    case TaskAssign(id, added, removed, actor, ifRevision) =>
      AssignEdits(s, e.at, id, added, removed, actor, e.session, ifRevision);
    case TaskStatus(change) => StatusEdits(s, e.at, change.(session := e.session));
  }

  lemma TakeAdvances(s: Tables, m: Moment, id: Id, agent: Id, session: Id, revision: int, reaped: Option<Id>)
    requires Commit(TakeTask(s, m, id, agent, session, revision, reaped), m.clock).Ok?
    ensures var t := Commit(TakeTask(s, m, id, agent, session, revision, reaped), m.clock).value;
      && id in s.tasks && s.tasks[id].revision == revision && Claimable(s.tasks[id].status) && id !in s.claims
      && t.tasks == s.tasks[id := s.tasks[id].(status := InProgress, revision := revision + 1,
                                               updatedAt := Second(m.stamp))]
      && t.claims == s.claims[id := Claim(agent, session, Second(m.stamp))]
  {
  }

  /** One reap moves each task it blocks, none of them done, by one revision. */
  lemma ReapingAdvances(s: Tables, r: Reaping, stamp: Seconds, clock: Clock)
    requires Inv(s) && r.operator != Some(r.session)
    ensures var t := Reaped(s, r, stamp, clock);
      TasksAdvance(s.tasks, t.tasks, None) && NoneVanish(s.tasks, t.tasks)
      && forall x | x in s.claims && s.claims[x].session == r.session ::
           x in t.tasks && t.tasks[x] == BlockedTask(s.tasks[x], r.reason, stamp)
  {
    hide Inv, Reaped, OthersKept, Ends, Releases;
    InvClaims(s);
    ReapedEffect(s, r, stamp, clock);
  }

  /** A step by one revision and then another by one of a task it had moved. */
  lemma AdvancesTwice(before: map<Id, Task>, mid: map<Id, Task>, id: Id, task: Task)
    requires TasksAdvance(before, mid, None) && NoneVanish(before, mid) && id in before
    requires mid[id].revision == before[id].revision + 1 && task.revision == mid[id].revision + 1
    requires before[id].status != Done
    ensures TasksAdvance(before, mid[id := task], Some(id)) && NoneVanish(before, mid[id := task])
  { }

  lemma ClaimAdvances(s: Tables, m: Moment, id: Id, agent: Id, session: Option<Id>, ifRevision: int)
    requires Inv(s) && ClaimTask(s, m, id, agent, session, ifRevision).Ok?
    ensures var t := ClaimTask(s, m, id, agent, session, ifRevision).value.tables;
      TasksAdvance(s.tasks, t.tasks, TakenTwice(s, TaskClaim(id, agent, ifRevision))) && NoneVanish(s.tasks, t.tasks)
  {
    hide Inv, Commit, TakeTask, Reaped, Accountable, BlockedTask;
    var task := s.tasks[id];
    if task.revision == ifRevision {
      if task.status == InProgress {
        var holder := s.claims[id].session;
        var r := LeaseReaping(holder, agent, session.value);
        ReapingAdvances(s, r, Second(m.stamp), m.clock);
        BlockedRevision(task, r.reason, Second(m.stamp));
        var mid := Reaped(s, r, Second(m.stamp), m.clock);
        TakeAdvances(mid, m, id, agent, session.value, ifRevision + 1, Some(holder));
        hide TasksAdvance, NoneVanish;
        var t := ClaimTask(s, m, id, agent, session, ifRevision).value.tables;
        AdvancesTwice(s.tasks, mid.tasks, id, t.tasks[id]);
        assert t.tasks == mid.tasks[id := t.tasks[id]];
      } else {
        TakeAdvances(s, m, id, agent, session.value, ifRevision, None);
      }
    }
  }

  lemma BlockedRevision(task: Task, reason: string, stamp: Seconds)
    ensures BlockedTask(task, reason, stamp).revision == task.revision + 1
  { }

  /** The facts of the invariant the reaper's laws use. */
  lemma InvClaims(s: Tables)
    requires Inv(s)
    ensures ClaimsHaveTasks(s)
    ensures forall x | x in s.claims :: s.tasks[x].status == InProgress
    ensures forall x | x in s.claims :: s.claims[x].session in s.sessions && s.sessions[s.claims[x].session].active
  {
  }

  lemma RecoveriesAdvance(s: Tables, e: Event)
    requires Inv(s) && (e.op.SessionRecover? || e.op.SessionSweep?) && Apply(s, e).Ok?
    ensures TasksAdvance(s.tasks, Apply(s, e).value.tasks, None) && NoneVanish(s.tasks, Apply(s, e).value.tasks)
  {
    hide Inv, Reaped, ReapAll, OthersKept, Ends, Releases, DraftOf, ClaimTask, Archiving.ArchiveRecords;
    InvClaims(s);
    match e.op
    case SessionRecover(id, actor, reason, staleAfter, force) =>
      ReapingAdvances(s, Reaping(id, actor, reason, e.session, force), Second(e.at.stamp), e.at.clock);
    case SessionSweep(actor, reason, staleAfter, limit) =>
      ReapAllEffect(s, Oldest(s, Candidates(s, StaleCutoff(e.at.lease, staleAfter), e.session), limit),
                    actor, reason, e.session, Second(e.at.stamp), e.at.clock);
  }

  /** What `archive` does to the protocol's tables. */
  ghost predicate ArchivesDone(s: Tables, t: Tables) {
    && (forall x | x in s.tasks && x !in t.tasks :: s.tasks[x].status == Done)
    && (forall x | x in t.tasks :: x in s.tasks && t.tasks[x] == s.tasks[x])
    && (forall x | x in s.claims && (x in s.tasks ==> s.tasks[x].status != Done) ::
          x in t.claims && t.claims[x] == s.claims[x])
  }

  lemma ArchiveShape(s: Tables, e: Event)
    requires e.op.ArchiveRun? && Apply(s, e).Ok?
    ensures ArchivesDone(s, Apply(s, e).value)
    ensures forall x | x in s.sessions ::
      x in Apply(s, e).value.sessions && Apply(s, e).value.sessions[x].agent == s.sessions[x].agent
      && (Apply(s, e).value.sessions[x].active ==> s.sessions[x].active)
  {
    hide Archiving.EligibleMessages, Archiving.Deletable, Archiving.EligibleTasks, Archiving.ArchiveRecords,
      Archiving.Dropped, Commit, DraftOf, RecoverSession, SweepSessions, ClaimTask;
    var op := e.op;
    Archiving.ArchiveIsRemoval(s, e.at, op.days, op.actor, e.session, op.force, op.database, op.path);
    var cutoff := Archiving.ArchiveCutoff(e.at, op.days);
    var tasks, messages := Archiving.EligibleTasks(s, cutoff), Archiving.EligibleMessages(s, cutoff);
    if tasks != {} || messages != {} {
      DroppedShape(s, cutoff, messages);
      CommitShape(Ok(Archiving.Removal(s, tasks, messages, op.actor, e.session, op.database, op.path)),
                  e.at.clock);
    }
  }

  lemma DroppedShape(s: Tables, cutoff: Seconds, messages: set<Id>)
    ensures var t := Archiving.Dropped(s, Archiving.EligibleTasks(s, cutoff), messages);
      ArchivesDone(s, t) && t.sessions == s.sessions
  { }

  lemma DraftsAdvance(s: Tables, e: Event)
    requires Inv(s) && Drafted(e.op) && DraftOf(s, e).Ok?
    ensures TasksAdvance(s.tasks, DraftOf(s, e).value.tables.tasks, None)
    ensures NoneVanish(s.tasks, DraftOf(s, e).value.tables.tasks)
  {
    hide Inv, WorkDraft, TaskDraft, NoteDraft, EdgeDraft, RecordDraft, NotesSound;
    if Corresponds(e.op) {
      NotesKeep(s);
      QuietDrafts(s, e);
    } else if OnTask(e.op) {
      TaskDraftsAdvance(s, e);
    } else {
      WorkDraftsAdvance(s, e);
    }
  }

  /** Each step moves a task by exactly one revision or not at all, two only for the
      task a reaping claim takes; none revives a done task, and only `archive` removes
      tasks, done ones. */
  lemma StepAdvances(s: Tables, e: Event)
    requires Inv(s)
    ensures TasksAdvance(s.tasks, Next(s, e).tasks, TakenTwice(s, e.op))
    ensures forall x | x in s.tasks && x !in Next(s, e).tasks :: e.op.ArchiveRun? && s.tasks[x].status == Done
  {
    hide Inv, DraftOf, RecoverSession, SweepSessions, ClaimTask, Archiving.ArchiveRecords, Commit;
    if Apply(s, e).Ok? {
      if Drafted(e.op) {
        DraftedApply(s, e);
        CommitShape(DraftOf(s, e), e.at.clock);
        DraftsAdvance(s, e);
      } else {
        match e.op
        case SessionRecover(_, _, _, _, _) => RecoveriesAdvance(s, e);
        case SessionSweep(_, _, _, _) => RecoveriesAdvance(s, e);
        case TaskClaim(id, agent, ifRevision) => ClaimAdvances(s, e.at, id, agent, e.session, ifRevision);
        case ArchiveRun(_, _, _, _, _) => ArchiveShape(s, e);
      }
    }
  }

  // --- no lost update -----------------------------------------------------

  /** The revision-guarded mutations of a task. */
  predicate Carries(op: Op, task: Id, revision: int) {
    match op
    case TaskUpdate(id, _, _, ifRevision) => id == task && ifRevision == revision
    case TaskAssign(id, _, _, _, ifRevision) => id == task && ifRevision == revision
    case TaskStatus(change) => change.id == task && change.ifRevision == revision
    case TaskClaim(id, _, ifRevision) => id == task && ifRevision == revision
    case _ => false
  }

  predicate Replays(s: Tables, e: Event) {
    e.op.TaskClaim? && e.session.Some? && IsReplay(s, e.op.id, e.op.agent, e.session.value, e.op.ifRevision)
  }

  /** The event commits a mutation observed at `revision`. */
  predicate Mutates(s: Tables, e: Event, task: Id, revision: int) {
    Carries(e.op, task, revision) && Apply(s, e).Ok? && !Replays(s, e)
  }

  lemma ClaimConsumes(s: Tables, m: Moment, id: Id, agent: Id, session: Option<Id>, ifRevision: int)
    requires Inv(s) && ClaimTask(s, m, id, agent, session, ifRevision).Ok?
    requires !IsReplay(s, id, agent, session.value, ifRevision)
    ensures var t := ClaimTask(s, m, id, agent, session, ifRevision).value;
      && id in s.tasks && s.tasks[id].revision == ifRevision && id in t.tables.tasks
      && t.receipt.claimed && t.receipt.revision == t.tables.tasks[id].revision
      && (t.receipt.reaped.None? <==> s.tasks[id].status != InProgress)
      && t.tables.tasks[id].revision == ifRevision + (if t.receipt.reaped.None? then 1 else 2)
      && t.tables.tasks[id].status == InProgress
      && id in t.tables.claims && t.tables.claims[id] == Claim(agent, session.value, Second(m.stamp))
  {
    hide Inv, Commit, TakeTask, Reaped, OthersKept, Ends;
    var task := s.tasks[id];
    if task.status == InProgress {
      var holder := s.claims[id].session;
      var r := LeaseReaping(holder, agent, session.value);
      InvClaims(s);
      ReapedEffect(s, r, Second(m.stamp), m.clock);
      TakeAdvances(Reaped(s, r, Second(m.stamp), m.clock), m, id, agent, session.value, ifRevision + 1,
                   Some(holder));
    } else {
      TakeAdvances(s, m, id, agent, session.value, ifRevision, None);
    }
  }

  /** A mutation commits only at the revision it observed, and consumes it. */
  lemma MutationConsumes(s: Tables, e: Event, task: Id, revision: int)
    requires Inv(s) && Mutates(s, e, task, revision)
    ensures task in s.tasks && s.tasks[task].revision == revision
    ensures task in Next(s, e).tasks && Next(s, e).tasks[task].revision > revision
  {
    hide Inv, UpdateTask, AssignTask, ChangeStatus, ClaimTask, Commit, IsReplay;
    match e.op
    case TaskUpdate(id, content, actor, ifRevision) =>
      CommitShape(DraftOf(s, e), e.at.clock);
      UpdateEdits(s, e.at, id, content, actor, e.session, ifRevision);
    case TaskAssign(id, added, removed, actor, ifRevision) =>
      CommitShape(DraftOf(s, e), e.at.clock);
      AssignEdits(s, e.at, id, added, removed, actor, e.session, ifRevision);
    case TaskStatus(change) =>
      CommitShape(DraftOf(s, e), e.at.clock);
      StatusEdits(s, e.at, change.(session := e.session));
    case TaskClaim(id, agent, ifRevision) =>
      ClaimNeedsSession(s, e.at, id, agent, e.session, ifRevision);
      ClaimConsumes(s, e.at, id, agent, e.session, ifRevision);
  }

  lemma ClaimNeedsSession(s: Tables, m: Moment, id: Id, agent: Id, session: Option<Id>, ifRevision: int)
    requires ClaimTask(s, m, id, agent, session, ifRevision).Ok?
    ensures session.Some?
  {
  }

  /** The task is present before and after every event of the run. */
  ghost predicate Present(s: Tables, events: seq<Event>, task: Id)
    decreases |events|
  {
    task in s.tasks && (events != [] ==> Present(Next(s, events[0]), events[1..], task))
  }

  lemma {:induction false} RevisionsRise(s: Tables, events: seq<Event>, task: Id)
    requires Inv(s) && Present(s, events, task)
    ensures task in Run(s, events).tasks
    ensures Run(s, events).tasks[task].revision >= s.tasks[task].revision
    ensures s.tasks[task].status == Done ==> Run(s, events).tasks[task].status == Done
    decreases |events|
  {
    hide Inv, Next;
    if events != [] {
      NextKeeps(s, events[0]);
      StepAdvances(s, events[0]);
      RevisionsRise(Next(s, events[0]), events[1..], task);
    }
  }

  /** No lost update: once a mutation observed at `revision` commits, no later one
      observed at the same revision does, as long as the task stays. */
  lemma {:induction false} NoLostUpdate(s: Tables, first: Event, between: seq<Event>, second: Event, task: Id,
                                        revision: int)
    requires Inv(s) && Mutates(s, first, task, revision)
    requires Present(Next(s, first), between, task)
    ensures !Mutates(Run(Next(s, first), between), second, task, revision)
  {
    hide Inv, Next, Mutates, Present;
    NextKeeps(s, first);
    MutationConsumes(s, first, task, revision);
    RevisionsRise(Next(s, first), between, task);
    RunKeeps(Next(s, first), between);
    var later := Run(Next(s, first), between);
    if Mutates(later, second, task, revision) {
      MutationConsumes(later, second, task, revision);
    }
  }

  /** Only `archive` ends a task's stay, and only once it is done. */
  lemma {:induction false} LeavesOnlyArchived(s: Tables, events: seq<Event>, task: Id)
    requires Inv(s) && task in s.tasks && forall i | 0 <= i < |events| :: !events[i].op.ArchiveRun?
    ensures Present(s, events, task)
    decreases |events|
  {
    hide Inv, Next;
    if events != [] {
      NextKeeps(s, events[0]);
      StepAdvances(s, events[0]);
      LeavesOnlyArchived(Next(s, events[0]), events[1..], task);
    }
  }

  /** An immediate retry of a committed claim is answered from the claim it made,
      and changes nothing, exactly when the task was not in progress; a retry of a
      claim that displaced a holder is refused as stale. */
  lemma RetryAfterClaim(s: Tables, m: Moment, again: Moment, id: Id, agent: Id, session: Option<Id>,
                        ifRevision: int)
    requires Inv(s) && ClaimTask(s, m, id, agent, session, ifRevision).Ok?
    requires !IsReplay(s, id, agent, session.value, ifRevision)
    ensures var first := ClaimTask(s, m, id, agent, session, ifRevision).value;
      ClaimTask(first.tables, again, id, agent, session, ifRevision)
      == if s.tasks[id].status != InProgress
         then Ok(Claimed(first.tables, ClaimReceipt(first.receipt.revision, false, None)))
         else Err(StaleTaskRevision)
  {
    var first := ClaimTask(s, m, id, agent, session, ifRevision).value;
    ClaimConsumes(s, m, id, agent, session, ifRevision);
    ClaimLeavesAccountable(s, m, id, agent, session, ifRevision);
    RetryDecision(first.tables, again, id, agent, session.value, ifRevision);
  }

  lemma RetryDecision(t: Tables, m: Moment, id: Id, agent: Id, session: Id, ifRevision: int)
    requires Accountable(t, agent, Some(session)).Pass?
    requires id in t.tasks && t.tasks[id].revision > ifRevision
    ensures ClaimTask(t, m, id, agent, Some(session), ifRevision)
            == if IsReplay(t, id, agent, session, ifRevision)
               then Ok(Claimed(t, ClaimReceipt(t.tasks[id].revision, false, None)))
               else Err(StaleTaskRevision)
  {
  }

  lemma TakeLeavesAccountable(s: Tables, m: Moment, id: Id, agent: Id, session: Id, revision: int,
                              reaped: Option<Id>)
    requires Commit(TakeTask(s, m, id, agent, session, revision, reaped), m.clock).Ok?
    ensures Accountable(Commit(TakeTask(s, m, id, agent, session, revision, reaped), m.clock).value, agent,
                        Some(session)).Pass?
  { }

  lemma ClaimLeavesAccountable(s: Tables, m: Moment, id: Id, agent: Id, session: Option<Id>, ifRevision: int)
    requires ClaimTask(s, m, id, agent, session, ifRevision).Ok?
    requires !IsReplay(s, id, agent, session.value, ifRevision)
    ensures Accountable(ClaimTask(s, m, id, agent, session, ifRevision).value.tables, agent, session).Pass?
  {
    hide Commit, Reaped, Accountable, TakeTask;
    if s.tasks[id].status == InProgress {
      var holder := s.claims[id].session;
      var mid := Reaped(s, LeaseReaping(holder, agent, session.value), Second(m.stamp), m.clock);
      TakeLeavesAccountable(mid, m, id, agent, session.value, ifRevision + 1, Some(holder));
    } else {
      TakeLeavesAccountable(s, m, id, agent, session.value, ifRevision, None);
    }
  }

  // --- when a claim commits -----------------------------------------------

  /** A claim is decided by the state alone: it commits (other than as a replay)
      exactly for an accountable agent and session that observed the current
      revision of a task which is open, or whose holder is another session that
      has been silent for the lease. */
  lemma ClaimCommits(s: Tables, m: Moment, id: Id, agent: Id, session: Option<Id>, ifRevision: int)
    requires Inv(s)
    ensures var claim := ClaimTask(s, m, id, agent, session, ifRevision);
      claim.Ok? && claim.value.receipt.claimed <==>
        && session.Some? && Accountable(s, agent, session).Pass?
        && id in s.tasks && s.tasks[id].revision == ifRevision
        && (Claimable(s.tasks[id].status)
            || (s.tasks[id].status == InProgress && s.claims[id].session != session.value
                && Stale(s, s.claims[id].session, StaleCutoff(m.lease, SESSION_LEASE_SECONDS))))
  {
    hide Inv, Reaped, Ends, OthersKept, Commit, TakeTask, Accountable;
    if session.Some? && Accountable(s, agent, session).Pass? && id in s.tasks
       && s.tasks[id].revision == ifRevision {
      InvClaims(s);
      InvExclusive(s);
      if s.tasks[id].status == InProgress {
        if s.claims[id].session != session.value { TakeAfterReap(s, m, id, agent, session.value, ifRevision); }
      } else if s.tasks[id].status != Done {
        TakeCommits(s, m, id, agent, session.value, ifRevision, None);
      }
    }
  }

  lemma TakeAfterReap(s: Tables, m: Moment, id: Id, agent: Id, session: Id, ifRevision: int)
    requires Inv(s) && Accountable(s, agent, Some(session)).Pass?
    requires id in s.tasks && s.tasks[id].status == InProgress && s.tasks[id].revision == ifRevision
    requires id in s.claims && s.claims[id].session != session
    ensures var holder := s.claims[id].session;
      var mid := Reaped(s, LeaseReaping(holder, agent, session), Second(m.stamp), m.clock);
      Commit(TakeTask(mid, m, id, agent, session, ifRevision + 1, Some(holder)), m.clock).Ok?
  {
    hide Inv, Reaped, Ends, OthersKept, Commit, TakeTask, Accountable;
    var r := LeaseReaping(s.claims[id].session, agent, session);
    InvClaims(s);
    ReapedEffect(s, r, Second(m.stamp), m.clock);
    ReapedAccountable(s, r, Second(m.stamp), m.clock);
    TakeCommits(Reaped(s, r, Second(m.stamp), m.clock), m, id, agent, session, ifRevision + 1, Some(r.session));
  }

  lemma InvExclusive(s: Tables)
    requires Inv(s)
    ensures forall x | x in s.tasks :: s.tasks[x].status == InProgress <==> x in s.claims
  {
  }

  lemma ReapedAccountable(s: Tables, r: Reaping, stamp: Seconds, clock: Clock)
    requires Accountable(s, r.actor, r.operator).Pass? && r.operator != Some(r.session)
    ensures Accountable(Reaped(s, r, stamp, clock), r.actor, r.operator).Pass?
  { }

  lemma TakeCommits(s: Tables, m: Moment, id: Id, agent: Id, session: Id, revision: int, reaped: Option<Id>)
    requires Accountable(s, agent, Some(session)).Pass? && id in s.tasks && id !in s.claims
    requires Claimable(s.tasks[id].status) && s.tasks[id].revision == revision
    ensures Commit(TakeTask(s, m, id, agent, session, revision, reaped), m.clock).Ok?
  { }

  /** A claimant whose own silent session holds the task is refused: the reaper it
      enters ends that session, and its last audit row is then refused. */
  lemma SelfReapRefused(s: Tables, m: Moment, id: Id, agent: Id, session: Id, ifRevision: int)
    requires Inv(s) && Accountable(s, agent, Some(session)).Pass?
    requires id in s.claims && s.claims[id].session == session && s.tasks[id].revision == ifRevision
    ensures ClaimTask(s, m, id, agent, Some(session), ifRevision)
            == Err(if HolderSilent(s, id, StaleCutoff(m.lease, SESSION_LEASE_SECONDS))
                   then InactiveSession else TaskAlreadyClaimed)
  {
    hide Inv, Commit, TakeTask, Reaped;
    InvClaims(s);
  }
}
