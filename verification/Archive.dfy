/** Selection and the live half of `archive`. */
module Archive {
  import opened Records
  import opened Ledger
  import opened Correspondence

  // --- selection ----------------------------------------------------------

  predicate Settled(s: Tables, task: Id, cutoff: Seconds) {
    task in s.tasks && s.tasks[task].status == Done && s.tasks[task].updatedAt <= cutoff
  }

  /** No task that directly depends on `task` is unsettled. */
  predicate Unpinned(s: Tables, task: Id, cutoff: Seconds) {
    forall e | e in s.dependencies && e.on == task && e.task in s.tasks :: Settled(s, e.task, cutoff)
  }

  function EligibleTasks(s: Tables, cutoff: Seconds): set<Id> {
    set t | t in s.tasks && Settled(s, t, cutoff) && Unpinned(s, t, cutoff)
  }

  predicate IsSend(row: AuditRow, message: Id) {
    row.action == Send && row.objectType == MessageObject && row.objectId == message
  }

  /** The id of the last send event of a message, or 0. */
  function LastSend(audit: seq<AuditRow>, message: Id): nat {
    if audit == [] then 0
    else if IsSend(audit[|audit| - 1], message) then |audit|
    else LastSend(audit[..|audit| - 1], message)
  }

  function ActiveAgents(s: Tables): set<Id> { set a | a in s.agents && s.agents[a].active }

  /** Every active agent's cursor has passed the message's send event. */
  predicate ReadByAll(s: Tables, message: Id) {
    ActiveAgents(s) != {} && LastSend(s.audit, message) >= 1
    && forall a | a in ActiveAgents(s) :: LastSend(s.audit, message) <= CursorOf(s, a)
  }

  function EligibleMessages(s: Tables, cutoff: Seconds): set<Id> {
    set x | x in s.messages && s.messages[x].createdAt <= cutoff && ReadByAll(s, x)
  }

  // --- deletion -----------------------------------------------------------

  /** `ON DELETE SET NULL`. */
  function Unlinked(task: Option<Id>, gone: set<Id>): Option<Id> {
    if task.Some? && task.value in gone then None else task
  }

  /** The tables after the two DELETE statements and the cascades they trigger. */
  function Dropped(s: Tables, tasks: set<Id>, messages: set<Id>): Tables {
    s.(tasks := s.tasks - tasks,
       claims := s.claims - tasks,
       assignees := (set p | p in s.assignees && p.0 !in tasks),
       evidence := map e | e in s.evidence && s.evidence[e].task !in tasks :: s.evidence[e],
       dependencies := map e | e in s.dependencies && e.task !in tasks :: s.dependencies[e],
       messages := map x | x in s.messages && x !in messages ::
                     s.messages[x].(task := Unlinked(s.messages[x].task, tasks)),
       reviews := map x | x in s.reviews :: s.reviews[x].(task := Unlinked(s.reviews[x].task, tasks)),
       artifactTasks := (set p | p in s.artifactTasks && p.1 !in tasks))
  }

  lemma DroppedOthers(s: Tables, tasks: set<Id>, messages: set<Id>)
    ensures var t := Dropped(s, tasks, messages);
      t.agents == s.agents && t.sessions == s.sessions && t.cursors == s.cursors && t.audit == s.audit
      && t.changes == s.changes
  {
  }

  /** `depends_on_task_id` has no cascade, so an edge from a task that stays to a
      task that goes makes the DELETE fail. */
  predicate Deletable(s: Tables, tasks: set<Id>) {
    forall e | e in s.dependencies && e.on in tasks :: e.task in tasks
  }

  const SECONDS_PER_DAY := 86_400

  function ArchiveCutoff(m: Moment, days: nat): Seconds { StaleCutoff(m.lease, days * SECONDS_PER_DAY) }

  /** The transaction on the live database. */
  function Removal(s: Tables, tasks: set<Id>, messages: set<Id>, actor: Id, session: Option<Id>,
                   database: string, path: string): Draft
  {
    Draft(Dropped(s, tasks, messages),
          Entry(actor, session, Action.Archive, DatabaseObject, database,
                ArchiveLine(|tasks|, |messages|, path), map[]),
          Nothing)
  }

  /** What `archive` commits to the live database. */
  function ArchiveRecords(s: Tables, m: Moment, days: nat, actor: Id, session: Option<Id>, force: bool,
                          database: string, path: string): Result<Tables>
  {
    (:- Need(force, ConfirmationRequired);
     :- RequireActor(s, actor);
     var tasks := EligibleTasks(s, ArchiveCutoff(m, days));
     var messages := EligibleMessages(s, ArchiveCutoff(m, days));
     if tasks == {} && messages == {} then Ok(s) else
       :- Need(Deletable(s, tasks), ConstraintViolation);
       Commit(Ok(Removal(s, tasks, messages, actor, session, database, path)), m.clock))
  }

  /** A committed archive run selected nothing, or is the removal of its selection. */
  lemma ArchiveIsRemoval(s: Tables, m: Moment, days: nat, actor: Id, session: Option<Id>, force: bool,
                         database: string, path: string)
    requires ArchiveRecords(s, m, days, actor, session, force, database, path).Ok?
    ensures var archive := ArchiveRecords(s, m, days, actor, session, force, database, path);
      var tasks := EligibleTasks(s, ArchiveCutoff(m, days));
      var messages := EligibleMessages(s, ArchiveCutoff(m, days));
      if tasks == {} && messages == {} then archive == Ok(s)
      else Deletable(s, tasks)
           && archive == Commit(Ok(Removal(s, tasks, messages, actor, session, database, path)), m.clock)
  { }
}
