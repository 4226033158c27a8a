/** Inbox read positions only move forward. */
module ReadPositions {
  import opened Records
  import opened Ledger
  import opened Protocol
  import opened Correspondence
  import opened Runs
  import opened Invariants
  import opened Growth
  import Archiving = Archive

  ghost predicate Forward(s: Tables, t: Tables) {
    forall a :: CursorOf(t, a) >= CursorOf(s, a)
  }

  lemma AdvancedForward(s: Tables, t: Tables, agent: Id)
    requires t.cursors == s.cursors || Advanced(s.cursors, t.cursors, agent)
    ensures Forward(s, t)
  {
  }

  lemma CommitForward(s: Tables, draft: Result<Draft>, clock: Clock)
    requires Cursors(s.cursors, |s.audit|) && Grounded(s, draft) && Commit(draft, clock).Ok?
    ensures Forward(s, Commit(draft, clock).value)
  {
    hide Appended, Finished, Text.Dec;
    var d, t := draft.value, Commit(draft, clock).value;
    FinishedCursors(Appended(d.tables, d.entry, Second(clock(|d.tables.audit|))), d.finish);
    AppendedCursors(d.tables, d.entry, Second(clock(|d.tables.audit|)));
    AdvancedForward(s, d.tables, d.entry.objectId);
  }

  lemma AppendedCursors(s: Tables, e: Entry, at: Seconds)
    ensures Appended(s, e, at).cursors == s.cursors && |Appended(s, e, at).audit| == |s.audit| + 1
  { }

  lemma FinishedCursors(s: Tables, finish: Finish)
    ensures var t := Finished(s, finish);
      t.cursors == if finish.StartCursor? then s.cursors[finish.agent := |s.audit|] else s.cursors
  { }

  lemma {:induction false} ReapAllCursors(s: Tables, order: seq<Id>, actor: Id, reason: string,
                                          operator: Option<Id>, stamp: Seconds, clock: Clock)
    requires ReapAll(s, order, actor, reason, operator, stamp, clock).Ok?
    ensures ReapAll(s, order, actor, reason, operator, stamp, clock).value.cursors == s.cursors
    decreases |order|
  {
    hide Accountable;
    if order != [] {
      ReapAllCursors(Reaped(s, Reaping(order[0], actor, reason, operator, false), stamp, clock), order[1..],
                     actor, reason, operator, stamp, clock);
    }
  }

  lemma RecoveriesForward(s: Tables, e: Event)
    requires (e.op.SessionRecover? || e.op.SessionSweep?) && Apply(s, e).Ok?
    ensures Apply(s, e).value.cursors == s.cursors
  {
    hide ReapAll, Accountable, DraftOf, ClaimTask, Archiving.ArchiveRecords;
    match e.op
    case SessionRecover(id, actor, reason, staleAfter, force) =>
    case SessionSweep(actor, reason, staleAfter, limit) =>
      ReapAllCursors(s, Oldest(s, Candidates(s, StaleCutoff(e.at.lease, staleAfter), e.session), limit),
                     actor, reason, e.session, Second(e.at.stamp), e.at.clock);
  }

  lemma TakeForward(s: Tables, m: Moment, id: Id, agent: Id, session: Id, revision: int, reaped: Option<Id>)
    requires Commit(TakeTask(s, m, id, agent, session, revision, reaped), m.clock).Ok?
    ensures Commit(TakeTask(s, m, id, agent, session, revision, reaped), m.clock).value.cursors == s.cursors
  { }

  lemma ClaimForward(s: Tables, m: Moment, id: Id, agent: Id, session: Option<Id>, ifRevision: int)
    requires ClaimTask(s, m, id, agent, session, ifRevision).Ok?
    ensures ClaimTask(s, m, id, agent, session, ifRevision).value.tables.cursors == s.cursors
  {
    hide Accountable, Commit, TakeTask, Reaped;
    if s.tasks[id].revision == ifRevision {
      if s.tasks[id].status == InProgress {
        var r := LeaseReaping(s.claims[id].session, agent, session.value);
        ReapedCursors(s, r, Second(m.stamp), m.clock);
        TakeForward(Reaped(s, r, Second(m.stamp), m.clock), m, id, agent, session.value, ifRevision + 1,
                    Some(r.session));
      } else {
        TakeForward(s, m, id, agent, session.value, ifRevision, None);
      }
    }
  }

  lemma ReapedCursors(s: Tables, r: Reaping, stamp: Seconds, clock: Clock)
    ensures Reaped(s, r, stamp, clock).cursors == s.cursors
  {
  }

  lemma ArchiveForward(s: Tables, e: Event)
    requires e.op.ArchiveRun? && Apply(s, e).Ok?
    ensures Apply(s, e).value.cursors == s.cursors
  {
    hide Archiving.EligibleMessages, Archiving.Deletable, Archiving.EligibleTasks, Archiving.ArchiveRecords,
      Archiving.Dropped, Appended, Accountable, DraftOf, RecoverSession, SweepSessions, ClaimTask;
    var op := e.op;
    Archiving.ArchiveIsRemoval(s, e.at, op.days, op.actor, e.session, op.force, op.database, op.path);
    var cutoff := Archiving.ArchiveCutoff(e.at, op.days);
    var tasks, messages := Archiving.EligibleTasks(s, cutoff), Archiving.EligibleMessages(s, cutoff);
    if tasks != {} || messages != {} {
      Archiving.DroppedOthers(s, tasks, messages);
      var d := Archiving.Removal(s, tasks, messages, op.actor, e.session, op.database, op.path);
      AppendedCursors(d.tables, d.entry, Second(e.at.clock(|d.tables.audit|)));
    }
  }

  lemma StepForward(s: Tables, e: Event)
    requires Cursors(s.cursors, |s.audit|)
    ensures Forward(s, Next(s, e))
  {
    hide DraftOf, RecoverSession, SweepSessions, ClaimTask, Archiving.ArchiveRecords, Commit, Grounded, Cursors;
    if Apply(s, e).Ok? {
      if Drafted(e.op) {
        DraftedApply(s, e);
        DraftGrounded(s, e);
        CommitForward(s, DraftOf(s, e), e.at.clock);
      } else if e.op.ArchiveRun? {
        ArchiveForward(s, e);
      } else if e.op.TaskClaim? {
        ClaimForward(s, e.at, e.op.id, e.op.agent, e.session, e.op.ifRevision);
      } else {
        RecoveriesForward(s, e);
      }
    }
  }

  /** Over every run each agent's read position only moves forward, and never
      passes the head of the ledger. */
  lemma {:induction false} RunForward(s: Tables, events: seq<Event>)
    requires Inv(s)
    ensures var t := Run(s, events);
      Forward(s, t) && forall a :: 0 <= CursorOf(t, a) <= |t.audit|
    decreases |events|
  {
    hide Inv, Next;
    if events == [] {
      InvCursors(s);
    } else {
      InvCursors(s);
      StepForward(s, events[0]);
      NextKeeps(s, events[0]);
      RunForward(Next(s, events[0]), events[1..]);
    }
  }

  lemma InvCursors(s: Tables)
    requires Inv(s)
    ensures Cursors(s.cursors, |s.audit|) && forall a :: 0 <= CursorOf(s, a) <= |s.audit|
  {
  }
}
