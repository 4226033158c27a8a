/** `archive` step by step: an archive file built, verified and published, and only
    then the deletion, with a failure or interruption possible at every step. */
module ArchiveRuns {
  import opened Records
  import opened Ledger
  import opened Protocol
  import opened Archive
  import opened ArchiveLaws
  import opened Invariants
  import Volumes

  /** What one run is asked, and its clock. */
  datatype Request = Request(
    m: Moment, days: nat, actor: Id, session: Option<Id>, force: bool, database: string, path: string)

  function Selected(s: Tables, q: Request): (r: (set<Id>, set<Id>)) {
    (EligibleTasks(s, ArchiveCutoff(q.m, q.days)), EligibleMessages(s, ArchiveCutoff(q.m, q.days)))
  }

  /** The archive file of a run. */
  function CopyOf(s: Tables, q: Request): Tables { ArchivedCopy(s, Selected(s, q).0, Selected(s, q).1) }

  function Committed(s: Tables, q: Request): Result<Tables> {
    ArchiveRecords(s, q.m, q.days, q.actor, q.session, q.force, q.database, q.path)
  }

  datatype Outcome = Archived | NothingToArchive | Refused(error: Error) | Failed

  /** What the deletion commits, or why it is refused. */
  function Deletion(s: Tables, q: Request, tasks: set<Id>, messages: set<Id>): Result<Tables> {
    (:- Need(Deletable(s, tasks), ConstraintViolation);
     Commit(Ok(Removal(s, tasks, messages, q.actor, q.session, q.database, q.path)), q.m.clock))
  }

  /** Each task and message row is in the live database or in an archive file; of a
      message at most its link may be cut. */
  ghost predicate NothingLost(before: Tables, live: Tables, archives: seq<Tables>) {
    && (forall t | t in before.tasks ::
          (t in live.tasks && live.tasks[t] == before.tasks[t])
          || exists a | a in archives :: t in a.tasks && a.tasks[t] == before.tasks[t])
    && (forall x | x in before.messages ::
          (x in live.messages && live.messages[x].(task := None) == before.messages[x].(task := None))
          || exists a | a in archives ::
               x in a.messages && a.messages[x].(task := None) == before.messages[x].(task := None))
  }

  lemma MovedNotLost(s: Tables, tasks: set<Id>, messages: set<Id>, live: Tables, archives: seq<Tables>)
    requires live.tasks == Dropped(s, tasks, messages).tasks
    requires live.messages == Dropped(s, tasks, messages).messages
    requires ArchivedCopy(s, tasks, messages) in archives
    ensures NothingLost(s, live, archives)
  { }

  lemma KeptNotLost(s: Tables, archives: seq<Tables>)
    ensures NothingLost(s, s, archives)
  {
  }

  // The statements that fill the archive, one by one.

  function CopiedTasks(s: Tables, tasks: set<Id>): map<Id, Task> {
    map t | t in s.tasks && t in tasks :: s.tasks[t]
  }

  function CopiedAssignees(s: Tables, tasks: set<Id>): set<(Id, Id)> {
    set p | p in s.assignees && p.0 in tasks
  }

  function CopiedEvidence(s: Tables, tasks: set<Id>): map<nat, Evidence> {
    map e | e in s.evidence && s.evidence[e].task in tasks :: s.evidence[e]
  }

  function CopiedEdges(s: Tables, tasks: set<Id>): map<Edge, bool> {
    map e | e in s.dependencies && e.task in tasks && e.on in tasks :: s.dependencies[e]
  }

  function CopiedMessages(s: Tables, tasks: set<Id>, messages: set<Id>): map<Id, Message> {
    map x | x in s.messages && x in messages :: s.messages[x].(task := KeptLink(s.messages[x].task, tasks))
  }

  lemma CopyFields(s: Tables, tasks: set<Id>, messages: set<Id>)
    ensures ArchivedCopy(s, tasks, messages)
            == EMPTY.(agents := s.agents, lastEvidence := s.lastEvidence, tasks := CopiedTasks(s, tasks),
                      assignees := CopiedAssignees(s, tasks), evidence := CopiedEvidence(s, tasks),
                      dependencies := CopiedEdges(s, tasks), messages := CopiedMessages(s, tasks, messages))
  { }

  class Vault {
    var live: Tables
    var archives: seq<Tables>
    var temporary: Option<Tables>
    var step: nat
    const faults: nat -> Volumes.Fault

    constructor (initial: Tables, schedule: nat -> Volumes.Fault)
      ensures live == initial && archives == [] && temporary.None? && faults == schedule && step == 0
    {
      live, archives, temporary, faults, step := initial, [], None, schedule, 0;
    }

    ghost predicate Reliable()
      reads this`step
    {
      forall k | k >= step :: !faults(k).before && !faults(k).after
    }

    /** Whether the next step raises before its effect, and after it. */
    method Next() returns (before: bool, after: bool)
      modifies this`step
      ensures old(Reliable()) ==> !before && !after && Reliable()
    {
      before, after := faults(step).before, faults(step).after;
      step := step + 1;
    }

    method Fill(content: Tables) returns (ok: bool)
      modifies this`step, this`temporary
      ensures old(Reliable()) ==> ok && Reliable()
      ensures ok ==> temporary == Some(content)
    {
      var before, after := Next();
      if before { return false; }
      temporary := Some(content);
      ok := !after;
    }

    /** The statements that copy the selection into the attached file. */
    method BuildCopy(tasks: set<Id>, messages: set<Id>) returns (ok: bool)
      modifies this`step, this`temporary
      ensures old(Reliable()) ==> ok && Reliable()
      ensures ok ==> temporary == Some(ArchivedCopy(live, tasks, messages))
    {
      var whole := ArchivedCopy(live, tasks, messages);
      CopyFields(live, tasks, messages);
      hide ArchivedCopy;
      var copy := EMPTY.(agents := live.agents, lastEvidence := live.lastEvidence);
      ok := Fill(copy);
      if !ok { return; }
      copy := copy.(tasks := CopiedTasks(live, tasks));
      ok := Fill(copy);
      if !ok { return; }
      copy := copy.(assignees := CopiedAssignees(live, tasks), evidence := CopiedEvidence(live, tasks));
      ok := Fill(copy);
      if !ok { return; }
      copy := copy.(dependencies := CopiedEdges(live, tasks));
      ok := Fill(copy);
      if !ok { return; }
      copy := copy.(messages := CopiedMessages(live, tasks, messages));
      ok := Fill(copy);
    }

    /** `_published_archive`: built, checked, renamed into place; the temporary file is
        removed whatever happens, unless its removal fails too. */
    method PublishArchive(tasks: set<Id>, messages: set<Id>) returns (ok: bool)
      modifies this`step, this`temporary, this`archives
      ensures old(Reliable()) && Volumes.Consistent(ArchivedCopy(live, tasks, messages)) ==> ok
      ensures old(Reliable()) ==> Reliable() && temporary.None?
      ensures ok ==> archives == old(archives) + [ArchivedCopy(live, tasks, messages)]
      ensures archives == old(archives) || archives == old(archives) + [ArchivedCopy(live, tasks, messages)]
    {
      hide ArchivedCopy, Volumes.Consistent;
      ok := BuildCopy(tasks, messages);
      if ok { ok := Volumes.Consistent(temporary.value); }
      var before, after := false, false;
      if ok {
        before, after := Next();
        if !before {
          archives, temporary := archives + [temporary.value], None;
        }
        ok := !before && !after;
      }
      before, after := Next();
      if !before { temporary := None; }
      ok := ok && !before && !after;
    }

    /** The deletion and its audit row in one transaction, rolled back unless it
        commits. An interruption after the commit still reports a failure. */
    method Delete(q: Request, tasks: set<Id>, messages: set<Id>) returns (ok: bool, refusal: Option<Error>)
      modifies this`step, this`live
      ensures ok ==> refusal.None? && Deletion(old(live), q, tasks, messages) == Ok(live)
      ensures refusal.Some? ==> live == old(live) && Deletion(old(live), q, tasks, messages) == Err(refusal.value)
      ensures live == old(live) || Deletion(old(live), q, tasks, messages) == Ok(live)
      ensures old(Reliable()) ==> Reliable() && (ok || refusal.Some?)
    {
      hide Deletable, Dropped, Appended, Accountable;
      ok, refusal := false, None;
      var saved := live;
      var before, after := Next();
      if before || after { return; }
      live := Dropped(live, {}, messages);
      before, after := Next();
      if before || after || !Deletable(saved, tasks) {
        live := saved;
        if !before && !after { refusal := Some(ConstraintViolation); }
        return;
      }
      live := Dropped(live, tasks, {});
      DroppedInTwo(saved, tasks, messages);
      var audited := Audited(live, q.m.clock,
                             Entry(q.actor, q.session, Action.Archive, DatabaseObject, q.database,
                                   ArchiveLine(|tasks|, |messages|, q.path), map[]));
      before, after := Next();
      if audited.Err? || before {
        live := saved;
        if audited.Err? { refusal := Some(audited.error); }
        return;
      }
      live := audited.value;
      ok := !after;
    }

    /** `archive`. */
    method Run(q: Request) returns (outcome: Outcome)
      modifies this
      ensures outcome.Archived? ==> Committed(old(live), q) == Ok(live)
                                    && archives == old(archives) + [CopyOf(old(live), q)]
      ensures outcome.NothingToArchive? ==> Committed(old(live), q) == Ok(live) && live == old(live)
                                            && archives == old(archives)
      ensures outcome.Refused? ==> Committed(old(live), q) == Err(outcome.error) && live == old(live)
      ensures archives == old(archives) || archives == old(archives) + [CopyOf(old(live), q)]
      ensures live == old(live) || (Committed(old(live), q) == Ok(live) && CopyOf(old(live), q) in archives)
      ensures NothingLost(old(live), live, archives)
      ensures old(Reliable()) && Inv(old(live)) ==>
        !outcome.Failed? && temporary == if archives == old(archives) then old(temporary) else None
    {
      hide EligibleTasks, EligibleMessages, Deletable, Removal, Commit, ArchivedCopy, NothingLost, Inv, RequireActor;
      ghost var s := live;
      KeptNotLost(s, archives);
      if !q.force { return Refused(ConfirmationRequired); }
      var actor := RequireActor(live, q.actor);
      if actor.Stop? { return Refused(actor.error); }
      var tasks, messages := EligibleTasks(live, ArchiveCutoff(q.m, q.days)),
                             EligibleMessages(live, ArchiveCutoff(q.m, q.days));
      if tasks == {} && messages == {} { return NothingToArchive; }
      if Inv(live) { CopyIsConsistent(live, ArchiveCutoff(q.m, q.days), messages); }
      var published := PublishArchive(tasks, messages);
      KeptNotLost(s, archives);
      if !published { return Failed; }
      var deleted, refusal := Delete(q, tasks, messages);
      if live == s {
        KeptNotLost(s, archives);
      } else {
        RemovalRows(s, tasks, messages, q, live);
        MovedNotLost(s, tasks, messages, live, archives);
      }
      if refusal.Some? { return Refused(refusal.value); }
      outcome := if deleted then Archived else Failed;
    }
  }

  lemma TasksInTwo(s: Tables, tasks: set<Id>, messages: set<Id>)
    ensures var two, one := Dropped(Dropped(s, {}, messages), tasks, {}), Dropped(s, tasks, messages);
      two.tasks == one.tasks && two.claims == one.claims
  { }

  lemma SatellitesInTwo(s: Tables, tasks: set<Id>, messages: set<Id>)
    ensures var two, one := Dropped(Dropped(s, {}, messages), tasks, {}), Dropped(s, tasks, messages);
      two.assignees == one.assignees && two.evidence == one.evidence
  { }

  lemma NotesInTwo(s: Tables, tasks: set<Id>, messages: set<Id>)
    ensures var two, one := Dropped(Dropped(s, {}, messages), tasks, {}), Dropped(s, tasks, messages);
      two.dependencies == one.dependencies && two.messages == one.messages && two.reviews == one.reviews
      && two.artifactTasks == one.artifactTasks
  {
  }

  lemma DroppedFields(s: Tables, tasks: set<Id>, messages: set<Id>)
    ensures var t := Dropped(s, tasks, messages);
      t == s.(tasks := t.tasks, claims := t.claims, assignees := t.assignees, evidence := t.evidence,
              dependencies := t.dependencies, messages := t.messages, reviews := t.reviews,
              artifactTasks := t.artifactTasks)
  {
  }

  /** Messages first, then tasks, as one deletion. */
  lemma DroppedInTwo(s: Tables, tasks: set<Id>, messages: set<Id>)
    ensures Dropped(Dropped(s, {}, messages), tasks, {}) == Dropped(s, tasks, messages)
  {
    hide Dropped;
    TasksInTwo(s, tasks, messages);
    SatellitesInTwo(s, tasks, messages);
    NotesInTwo(s, tasks, messages);
    DroppedFields(s, {}, messages);
    DroppedFields(Dropped(s, {}, messages), tasks, {});
    DroppedFields(s, tasks, messages);
  }

  lemma CopyIsConsistent(s: Tables, cutoff: Seconds, messages: set<Id>)
    requires Inv(s)
    ensures Volumes.Consistent(ArchivedCopy(s, EligibleTasks(s, cutoff), messages))
  {
    hide Inv, ArchivedCopy, EligibleTasks;
    ArchiveIsClosed(s, cutoff, messages);
    InvPassesCheck(ArchivedCopy(s, EligibleTasks(s, cutoff), messages));
  }

  lemma RemovalRows(s: Tables, tasks: set<Id>, messages: set<Id>, q: Request, live: Tables)
    requires Commit(Ok(Removal(s, tasks, messages, q.actor, q.session, q.database, q.path)), q.m.clock) == Ok(live)
    ensures live.tasks == Dropped(s, tasks, messages).tasks && live.messages == Dropped(s, tasks, messages).messages
  {
    hide Dropped, ChangeRows;
  }
}
