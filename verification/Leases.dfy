/** How claims are lost, how sessions end, and what a lease protects. */
module Leases {
  import opened Records
  import opened Ledger
  import opened Protocol
  import opened Runs
  import opened Invariants
  import opened Sweep
  import opened Safety
  import opened Growth
  import Archiving = Archive

  // --- causes -------------------------------------------------------------

  /** The step reaps the session: by force, or after enough silence. */
  predicate ReapCause(s: Tables, e: Event, session: Id) {
    e.session != Some(session)
    && match e.op
       case SessionRecover(id, _, _, staleAfter, force) =>
         id == session && (force || Stale(s, session, StaleCutoff(e.at.lease, staleAfter)))
       case SessionSweep(_, _, staleAfter, _) => Stale(s, session, StaleCutoff(e.at.lease, staleAfter))
       case TaskClaim(id, _, _) =>
         id in s.claims && s.claims[id].session == session
         && Stale(s, session, StaleCutoff(e.at.lease, SESSION_LEASE_SECONDS))
       case _ => false
  }

  /** The step is the claim's own agent and session moving the task on. */
  predicate Releasing(s: Tables, e: Event, task: Id)
    requires task in s.claims
  {
    e.op.TaskStatus? && e.op.change.id == task && e.op.change.actor == s.claims[task].agent
    && e.session == Some(s.claims[task].session)
  }

  predicate LossCause(s: Tables, e: Event, task: Id)
    requires task in s.claims
  {
    Releasing(s, e, task) || ReapCause(s, e, s.claims[task].session)
  }

  ghost predicate Keeps(before: map<Id, Claim>, after: map<Id, Claim>, task: Id)
    requires task in before
  {
    task in after && after[task] == before[task]
  }

  /** The session is as before, but may have been seen at an audit of the step. */
  ghost predicate Lives(before: Session, after: Session, clock: Clock) {
    after == before || exists k: nat :: after == before.(lastSeen := Second(clock(k)))
  }

  ghost predicate StaysAlive(s: Tables, t: Tables, session: Id, clock: Clock) {
    session in s.sessions && session in t.sessions && Lives(s.sessions[session], t.sessions[session], clock)
  }

  lemma LivesTransitive(a: Session, b: Session, c: Session, clock: Clock)
    requires Lives(a, b, clock) && Lives(b, c, clock)
    ensures Lives(a, c, clock)
  {
  }

  // --- the reaping operations ---------------------------------------------

  lemma ReapedSessions(s: Tables, r: Reaping, stamp: Seconds, clock: Clock, session: Id)
    requires r.operator != Some(r.session) && session in s.sessions && session != r.session
    ensures StaysAlive(s, Reaped(s, r, stamp, clock), session, clock)
  { }

  lemma {:induction false} ReapAllSessions(s: Tables, order: seq<Id>, actor: Id, reason: string,
                                           operator: Option<Id>, stamp: Seconds, clock: Clock, session: Id)
    requires ReapAll(s, order, actor, reason, operator, stamp, clock).Ok?
    requires session in s.sessions && session !in order
    ensures StaysAlive(s, ReapAll(s, order, actor, reason, operator, stamp, clock).value, session, clock)
    decreases |order|
  {
    hide Reaped, Lives, Accountable;
    if order == [] {
      assert Lives(s.sessions[session], s.sessions[session], clock) by { SelfLives(s.sessions[session], clock); }
    } else {
      var r := Reaping(order[0], actor, reason, operator, false);
      ReapedSessions(s, r, stamp, clock, session);
      var mid := Reaped(s, r, stamp, clock);
      ReapAllSessions(mid, order[1..], actor, reason, operator, stamp, clock, session);
      var t := ReapAll(mid, order[1..], actor, reason, operator, stamp, clock).value;
      LivesTransitive(s.sessions[session], mid.sessions[session], t.sessions[session], clock);
    }
  }

  lemma SelfLives(a: Session, clock: Clock)
    ensures Lives(a, a, clock)
  {
  }

  lemma RecoverEnds(s: Tables, e: Event, session: Id)
    requires e.op.SessionRecover? && Apply(s, e).Ok? && session in s.sessions
    ensures StaysAlive(s, Apply(s, e).value, session, e.at.clock) || ReapCause(s, e, session)
  {
    hide Reaped, StaysAlive, Accountable, DraftOf, SweepSessions, ClaimTask, Archiving.ArchiveRecords;
    var r := Reaping(e.op.id, e.op.actor, e.op.reason, e.session, e.op.force);
    if session != e.op.id { ReapedSessions(s, r, Second(e.at.stamp), e.at.clock, session); }
  }

  lemma RecoverLoss(s: Tables, e: Event, task: Id)
    requires Inv(s) && task in s.claims && e.op.SessionRecover? && Apply(s, e).Ok?
    ensures Keeps(s.claims, Apply(s, e).value.claims, task) || LossCause(s, e, task)
  {
    hide Inv, Reaped, OthersKept, Ends, Blocks, Accountable, DraftOf, SweepSessions, ClaimTask,
      Archiving.ArchiveRecords;
    InvClaims(s);
    ReapedEffect(s, Reaping(e.op.id, e.op.actor, e.op.reason, e.session, e.op.force), Second(e.at.stamp),
                 e.at.clock);
  }

  lemma SweepEnds(s: Tables, e: Event, session: Id)
    requires e.op.SessionSweep? && Apply(s, e).Ok? && session in s.sessions
    ensures StaysAlive(s, Apply(s, e).value, session, e.at.clock) || ReapCause(s, e, session)
  {
    hide ReapAll, StaysAlive, Stale, DraftOf, RecoverSession, ClaimTask, Archiving.ArchiveRecords;
    var order := Oldest(s, Candidates(s, StaleCutoff(e.at.lease, e.op.staleAfter), e.session), e.op.limit);
    if session !in order {
      ReapAllSessions(s, order, e.op.actor, e.op.reason, e.session, Second(e.at.stamp), e.at.clock, session);
    }
  }

  lemma SweepLoss(s: Tables, e: Event, task: Id)
    requires Inv(s) && task in s.claims && e.op.SessionSweep? && Apply(s, e).Ok?
    ensures Keeps(s.claims, Apply(s, e).value.claims, task) || LossCause(s, e, task)
  {
    hide Inv, ReapAll, OthersKept, Ends, Blocks, Stale, DraftOf, RecoverSession, ClaimTask,
      Archiving.ArchiveRecords;
    InvClaims(s);
    var order := Oldest(s, Candidates(s, StaleCutoff(e.at.lease, e.op.staleAfter), e.session), e.op.limit);
    ReapAllEffect(s, order, e.op.actor, e.op.reason, e.session, Second(e.at.stamp), e.at.clock);
  }

  lemma TakeEnds(s: Tables, m: Moment, id: Id, agent: Id, mine: Id, revision: int, reaped: Option<Id>,
                 session: Id)
    requires Commit(TakeTask(s, m, id, agent, mine, revision, reaped), m.clock).Ok? && session in s.sessions
    ensures StaysAlive(s, Commit(TakeTask(s, m, id, agent, mine, revision, reaped), m.clock).value, session,
                       m.clock)
  { }

  lemma ClaimEnds(s: Tables, e: Event, session: Id)
    requires Inv(s) && e.op.TaskClaim? && Apply(s, e).Ok? && session in s.sessions
    ensures StaysAlive(s, Apply(s, e).value, session, e.at.clock) || ReapCause(s, e, session)
  {
    hide Inv, Commit, TakeTask, Reaped, Lives, Accountable, DraftOf, RecoverSession, SweepSessions,
      Archiving.ArchiveRecords;
    InvClaims(s);
    SelfLives(s.sessions[session], e.at.clock);
    var id, agent := e.op.id, e.op.agent;
    if s.tasks[id].revision == e.op.ifRevision {
      if s.tasks[id].status == InProgress {
        var holder := s.claims[id].session;
        var r := LeaseReaping(holder, agent, e.session.value);
        if session != holder {
          ReapedSessions(s, r, Second(e.at.stamp), e.at.clock, session);
          var mid := Reaped(s, r, Second(e.at.stamp), e.at.clock);
          TakeEnds(mid, e.at, id, agent, e.session.value, e.op.ifRevision + 1, Some(holder), session);
          LivesTransitive(s.sessions[session], mid.sessions[session], Apply(s, e).value.sessions[session],
                          e.at.clock);
        }
      } else {
        TakeEnds(s, e.at, id, agent, e.session.value, e.op.ifRevision, None, session);
      }
    }
  }

  lemma ClaimLoss(s: Tables, e: Event, task: Id)
    requires Inv(s) && task in s.claims && e.op.TaskClaim? && Apply(s, e).Ok?
    ensures Keeps(s.claims, Apply(s, e).value.claims, task) || LossCause(s, e, task)
  {
    hide Inv, Commit, TakeTask, Reaped, OthersKept, Ends, Blocks, Accountable, ClaimsHaveTasks, DraftOf,
      RecoverSession, SweepSessions, Archiving.ArchiveRecords;
    InvClaims(s);
    var id, agent := e.op.id, e.op.agent;
    if s.tasks[id].revision == e.op.ifRevision {
      if s.tasks[id].status == InProgress {
        var holder := s.claims[id].session;
        var r := LeaseReaping(holder, agent, e.session.value);
        ReapedEffect(s, r, Second(e.at.stamp), e.at.clock);
        TakeAdvances(Reaped(s, r, Second(e.at.stamp), e.at.clock), e.at, id, agent, e.session.value,
                     e.op.ifRevision + 1, Some(holder));
      } else {
        TakeAdvances(s, e.at, id, agent, e.session.value, e.op.ifRevision, None);
      }
    }
  }

  // --- the other operations -----------------------------------------------

  lemma StatusLoss(s: Tables, m: Moment, c: StatusChange, task: Id)
    requires Inv(s) && task in s.claims && ChangeStatus(s, m, c).Ok?
    ensures Keeps(s.claims, ChangeStatus(s, m, c).value.tables.claims, task)
            || (c.id == task && c.actor == s.claims[task].agent && c.session == Some(s.claims[task].session))
  {
    hide Inv, NotesChange, StatusName, RequireReference, HasEvidence, Accountable;
  }

  lemma TaskDraftLoss(s: Tables, e: Event, task: Id)
    requires e.op.TaskCreate? || e.op.TaskUpdate? || e.op.TaskAssign? || e.op.TaskStatus?
    requires Inv(s) && task in s.claims && TaskDraft(s, e).Ok?
    ensures Keeps(s.claims, TaskDraft(s, e).value.tables.claims, task) || Releasing(s, e, task)
  {
    hide Inv, UpdateTask, AssignTask, ChangeStatus;
    match e.op
    case TaskCreate(_, _, _, _) =>
    case TaskUpdate(id, content, actor, ifRevision) =>
      UpdateEdits(s, e.at, id, content, actor, e.session, ifRevision);
    case TaskAssign(id, added, removed, actor, ifRevision) =>
      AssignEdits(s, e.at, id, added, removed, actor, e.session, ifRevision);
    case TaskStatus(change) => StatusLoss(s, e.at, change.(session := e.session), task);
  }

  lemma TaskDraftOpen(s: Tables, e: Event)
    requires e.op.TaskCreate? || e.op.TaskUpdate? || e.op.TaskAssign? || e.op.TaskStatus?
    ensures TaskDraft(s, e).Ok? ==> TaskDraft(s, e).value.finish.Nothing?
  {
    hide UpdateTask, AssignTask, ChangeStatus;
    match e.op
    case TaskCreate(_, _, _, _) =>
    case TaskUpdate(id, content, actor, ifRevision) =>
      UpdateEdits(s, e.at, id, content, actor, e.session, ifRevision);
    case TaskAssign(id, added, removed, actor, ifRevision) =>
      AssignEdits(s, e.at, id, added, removed, actor, e.session, ifRevision);
    case TaskStatus(change) => StatusEdits(s, e.at, change.(session := e.session));
  }

  lemma WorkDraftCloses(s: Tables, e: Event)
    requires e.op.AgentAdd? || e.op.AgentUpdate? || e.op.SessionStart? || e.op.SessionHeartbeat?
             || e.op.SessionEnd? || e.op.EvidenceAdd?
    ensures WorkDraft(s, e).Ok? && WorkDraft(s, e).value.finish.CloseSession? ==>
      e.op == SessionEnd(WorkDraft(s, e).value.finish.session)
  {
    hide Changed, SelectedAgentColumns, AgentColumns, HasActiveSession, RequireActor, RequireOpenSession,
      AgentAdded, SessionStarted, EvidenceAdded;
  }

  lemma DraftLoss(s: Tables, e: Event, task: Id)
    requires Inv(s) && task in s.claims && Drafted(e.op) && DraftOf(s, e).Ok?
    ensures Keeps(s.claims, DraftOf(s, e).value.tables.claims, task) || LossCause(s, e, task)
  {
    hide Inv, WorkDraft, TaskDraft, NoteDraft, EdgeDraft, RecordDraft, NotesSound, ReapCause, Releasing;
    if Corresponds(e.op) {
      NotesKeep(s);
      QuietDrafts(s, e);
    } else if OnTask(e.op) {
      TaskDraftLoss(s, e, task);
    } else {
      WorkDraftsAdvance(s, e);
    }
  }

  lemma DraftEnds(s: Tables, e: Event, session: Id)
    requires Inv(s) && Drafted(e.op) && Apply(s, e).Ok? && session in s.sessions
    ensures StaysAlive(s, Apply(s, e).value, session, e.at.clock) || e.op == SessionEnd(session)
  {
    hide Inv, WorkDraft, TaskDraft, NoteDraft, EdgeDraft, RecordDraft, NotesSound, SameProtocol, Commit;
    DraftedApply(s, e);
    CommitShape(DraftOf(s, e), e.at.clock);
    DraftGrounded(s, e);
    if Corresponds(e.op) {
      NotesKeep(s);
      QuietDrafts(s, e);
    } else if OnTask(e.op) {
      TaskDraftOpen(s, e);
    } else {
      WorkDraftCloses(s, e);
    }
  }

  // --- one step -----------------------------------------------------------

  /** A claim is lost only by its holder's release or a reap of its session. */
  lemma ClaimsAreLostOnlyBy(s: Tables, e: Event, task: Id)
    requires Inv(s) && task in s.claims
    ensures Keeps(s.claims, Next(s, e).claims, task) || LossCause(s, e, task)
  {
    hide Inv, DraftOf, RecoverSession, SweepSessions, ClaimTask, Archiving.ArchiveRecords, Commit, LossCause;
    if Apply(s, e).Ok? {
      if Drafted(e.op) {
        DraftedApply(s, e);
        CommitShape(DraftOf(s, e), e.at.clock);
        DraftLoss(s, e, task);
      } else {
        match e.op
        case SessionRecover(_, _, _, _, _) => RecoverLoss(s, e, task);
        case SessionSweep(_, _, _, _) => SweepLoss(s, e, task);
        case TaskClaim(_, _, _) => ClaimLoss(s, e, task);
        case ArchiveRun(_, _, _, _, _) =>
          InvClaims(s);
          ArchiveShape(s, e);
      }
    }
  }

  /** A session ends only by ending itself or being reaped. */
  lemma SessionsEndOnlyBy(s: Tables, e: Event, session: Id)
    requires Inv(s) && session in s.sessions
    ensures StaysAlive(s, Next(s, e), session, e.at.clock) || e.op == SessionEnd(session)
            || ReapCause(s, e, session)
  {
    hide Inv, DraftOf, RecoverSession, SweepSessions, ClaimTask, Archiving.ArchiveRecords, Commit, ReapCause,
      Lives;
    SelfLives(s.sessions[session], e.at.clock);
    if Apply(s, e).Ok? {
      if Drafted(e.op) {
        DraftEnds(s, e, session);
      } else {
        match e.op
        case SessionRecover(_, _, _, _, _) => RecoverEnds(s, e, session);
        case SessionSweep(_, _, _, _) => SweepEnds(s, e, session);
        case TaskClaim(_, _, _) => ClaimEnds(s, e, session);
        case ArchiveRun(_, _, _, _, _) => ArchiveEnds(s, e, session);
      }
    }
  }

  lemma ArchiveEnds(s: Tables, e: Event, session: Id)
    requires e.op.ArchiveRun? && Apply(s, e).Ok? && session in s.sessions
    ensures StaysAlive(s, Apply(s, e).value, session, e.at.clock)
  {
    hide Archiving.EligibleMessages, Archiving.Deletable, Archiving.EligibleTasks, Archiving.ArchiveRecords,
      Archiving.Dropped, Commit, DraftOf, RecoverSession, SweepSessions, ClaimTask;
    var op := e.op;
    Archiving.ArchiveIsRemoval(s, e.at, op.days, op.actor, e.session, op.force, op.database, op.path);
    var cutoff := Archiving.ArchiveCutoff(e.at, op.days);
    var tasks, messages := Archiving.EligibleTasks(s, cutoff), Archiving.EligibleMessages(s, cutoff);
    if tasks != {} || messages != {} {
      Archiving.DroppedOthers(s, tasks, messages);
      CommitShape(Ok(Archiving.Removal(s, tasks, messages, op.actor, e.session, op.database, op.path)),
                  e.at.clock);
    }
  }

  // --- whole runs ---------------------------------------------------------

  /** Over any run a claim is still held at the end, or some step of the run had
      one of the two causes to take it while it was held. */
  lemma {:induction false} LostClaimHasCause(s: Tables, events: seq<Event>, task: Id)
    requires Inv(s) && task in s.claims
    ensures Keeps(s.claims, Run(s, events).claims, task)
            || exists i | 0 <= i < |events| ::
                 Keeps(s.claims, Run(s, events[..i]).claims, task)
                 && LossCause(Run(s, events[..i]), events[i], task)
    decreases |events|
  {
    hide Inv, Next, LossCause;
    if events != [] {
      var e, rest := events[0], events[1..];
      assert events[..0] == [];
      ClaimsAreLostOnlyBy(s, e, task);
      NextKeeps(s, e);
      if Keeps(s.claims, Next(s, e).claims, task) {
        LostClaimHasCause(Next(s, e), rest, task);
        if !Keeps(s.claims, Run(s, events).claims, task) {
          var i :| 0 <= i < |rest| && Keeps(Next(s, e).claims, Run(Next(s, e), rest[..i]).claims, task)
                   && LossCause(Run(Next(s, e), rest[..i]), rest[i], task);
          RunPrefix(s, events, i + 1);
          assert Keeps(s.claims, Run(s, events[..i + 1]).claims, task)
                 && LossCause(Run(s, events[..i + 1]), events[i + 1], task);
        }
      } else {
        assert Keeps(s.claims, Run(s, events[..0]).claims, task) && LossCause(Run(s, events[..0]), events[0], task);
      }
    }
  }

  lemma {:induction false} RunPrefix(s: Tables, events: seq<Event>, i: nat)
    requires 0 < i <= |events|
    ensures Run(s, events[..i]) == Run(Next(s, events[0]), events[1..][..i - 1])
  {
    hide Next;
    assert events[..i][1..] == events[1..][..i - 1];
  }

  // --- the lease in real time ---------------------------------------------

  /** Truncation on both sides costs at most a second: a session seen no more than
      the lease less one second ago is not stale, and one silent for the whole
      lease is. */
  lemma LeaseInRealTime(seen: Micros, reading: Micros, lease: Seconds)
    ensures reading - seen <= (lease - 1) * 1_000_000 ==> Second(seen) > StaleCutoff(reading, lease)
    ensures reading - seen >= lease * 1_000_000 ==> Second(seen) <= StaleCutoff(reading, lease)
  {
  }

  /** Between those bounds the whole seconds decide: a claim displaces the holder of its
      task exactly when the holder's age, each time truncated to seconds, reaches the lease. */
  lemma LeaseInWholeSeconds(s: Tables, m: Moment, id: Id, agent: Id, session: Id, seen: Micros)
    requires Inv(s) && Accountable(s, agent, Some(session)).Pass?
    requires id in s.tasks && s.tasks[id].status == InProgress && s.claims[id].session != session
    requires s.sessions[s.claims[id].session].lastSeen == Second(seen)
    ensures var claim := ClaimTask(s, m, id, agent, Some(session), s.tasks[id].revision);
      claim.Ok? <==> Second(m.lease) - Second(seen) >= SESSION_LEASE_SECONDS
  {
    hide Inv, Accountable, Commit, TakeTask, Reap;
    InvExclusive(s);
    InvClaims(s);
    ClaimCommits(s, m, id, agent, Some(session), s.tasks[id].revision);
  }

  /** Agent x holds task t through session p, last seen at `at`; agent y works in q. */
  function Contested(at: Seconds): Tables {
    EMPTY.(agents := map["x" := Agent(map[], true, 0, 0), "y" := Agent(map[], true, 0, 0)],
           sessions := map["p" := Session("x", true, 0, at, None), "q" := Session("y", true, 0, at, None)],
           tasks := map["t" := Task(map[], "", InProgress, 2, "x", 0, 0)],
           claims := map["t" := Claim("x", "p", 0)],
           assignees := {("t", "x")})
  }

  predicate HeldThrough(s: Tables, task: Id, session: Id) { task in s.claims && s.claims[task].session == session }

  lemma ContestedSound(at: Seconds)
    ensures Inv(Contested(at)) && Accountable(Contested(at), "y", Some("q")).Pass?
  { }

  /** The lease in the documentation's terms is not kept, nor its promise of a replay:
      with the holder seen 999,999 microseconds into the clock and the claimant reading
      3,600,000,000, the holder has been silent for less than an hour, is displaced all
      the same, and the claimant's immediate retry is refused. */
  lemma DisplacedEarly(m: Moment, again: Moment)
    requires m.lease == 3_600_000_000
    ensures var s, seen := Contested(Second(999_999)), 999_999;
      var claim := ClaimTask(s, m, "t", "y", Some("q"), 2);
      && Inv(s) && HeldThrough(s, "t", "p") && s.sessions["p"].lastSeen == Second(seen)
      && m.lease - seen < SESSION_LEASE_SECONDS * 1_000_000
      && claim.Ok? && HeldThrough(claim.value.tables, "t", "q")
      && ClaimTask(claim.value.tables, again, "t", "y", Some("q"), 2) == Err(StaleTaskRevision)
  {
    hide Inv, ClaimTask, Accountable;
    var s := Contested(Second(999_999));
    ContestedSound(0);
    LeaseInWholeSeconds(s, m, "t", "y", "q", 999_999);
    assert !IsReplay(s, "t", "y", "q", 2);
    ClaimConsumes(s, m, "t", "y", Some("q"), 2);
    RetryAfterClaim(s, m, again, "t", "y", Some("q"), 2);
  }

  /** The unforced step happens within `lease` less one second of the reading
      `seen`, and does not end the session itself. */
  predicate WithinLease(e: Event, session: Id, seen: Micros) {
    match e.op
    case SessionEnd(id) => id != session
    case SessionRecover(id, _, _, staleAfter, force) =>
      id == session ==> !force && e.at.lease - seen <= (staleAfter - 1) * 1_000_000
    case SessionSweep(_, _, staleAfter, _) => e.at.lease - seen <= (staleAfter - 1) * 1_000_000
    case TaskClaim(_, _, _) => e.at.lease - seen <= (SESSION_LEASE_SECONDS - 1) * 1_000_000
    case _ => true
  }

  /** Every audit row of the step is written at or after `seen`. */
  ghost predicate After(e: Event, seen: Micros) {
    forall k: nat :: e.at.clock(k) >= seen
  }

  predicate SeenSince(s: Tables, session: Id, seen: Micros) {
    session in s.sessions && s.sessions[session].active && s.sessions[session].lastSeen >= Second(seen)
  }

  lemma LeaseHoldsStep(s: Tables, e: Event, session: Id, seen: Micros)
    requires Inv(s) && SeenSince(s, session, seen) && WithinLease(e, session, seen) && After(e, seen)
    ensures SeenSince(Next(s, e), session, seen) && !ReapCause(s, e, session)
  {
    hide Inv, Next;
    SessionsEndOnlyBy(s, e, session);
    NotReapedWithinLease(s, e, session, seen);
  }

  lemma NotReapedWithinLease(s: Tables, e: Event, session: Id, seen: Micros)
    requires SeenSince(s, session, seen) && WithinLease(e, session, seen)
    ensures !ReapCause(s, e, session)
  { }

  /** Without force, a session seen at `seen` is never reaped within its lease
      less one second, and keeps every claim it does not release itself. */
  lemma {:induction false} LeaseHolds(s: Tables, events: seq<Event>, session: Id, seen: Micros, task: Id)
    requires Inv(s) && SeenSince(s, session, seen)
    requires task in s.claims && s.claims[task].session == session
    requires forall i | 0 <= i < |events| :: WithinLease(events[i], session, seen) && After(events[i], seen)
    requires forall i | 0 <= i < |events| ::
      !(events[i].op.TaskStatus? && events[i].op.change.id == task && events[i].session == Some(session))
    ensures SeenSince(Run(s, events), session, seen) && Keeps(s.claims, Run(s, events).claims, task)
    decreases |events|
  {
    hide Inv, Next, WithinLease, After, SeenSince, ReapCause;
    if events != [] {
      LeaseHoldsStep(s, events[0], session, seen);
      ClaimsAreLostOnlyBy(s, events[0], task);
      NextKeeps(s, events[0]);
      LeaseHolds(Next(s, events[0]), events[1..], session, seen, task);
    }
  }

  /** A session silent for the whole lease can be reaped by any accountable actor
      that is not attributing the recovery to that session. */
  lemma SilentIsReapable(s: Tables, m: Moment, id: Id, actor: Id, reason: string, operator: Option<Id>,
                         lease: Seconds, seen: Micros)
    requires id in s.sessions && s.sessions[id].active && s.sessions[id].lastSeen <= Second(seen)
    requires m.lease - seen >= lease * 1_000_000
    ensures RecoverSession(s, m, id, actor, reason, operator, lease, false).Ok?
            <==> Accountable(s, actor, operator).Pass? && operator != Some(id)
  { }
}
