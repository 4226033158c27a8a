/** What `archive` guarantees: a move, a closed archive, untouched inboxes, and
    exactly when it commits. */
module ArchiveLaws {
  import opened Records
  import opened Ledger
  import opened Correspondence
  import opened Archive
  import opened Protocol
  import opened Invariants

  // --- the archive file ---------------------------------------------------

  /** The rows copied into the archive: every agent, the selected tasks with their
      assignees and evidence, the edges between them, and the selected messages. */
  function ArchivedCopy(s: Tables, tasks: set<Id>, messages: set<Id>): Tables {
    EMPTY.(agents := s.agents,
           tasks := map t | t in s.tasks && t in tasks :: s.tasks[t],
           assignees := (set p | p in s.assignees && p.0 in tasks),
           evidence := (map e | e in s.evidence && s.evidence[e].task in tasks :: s.evidence[e]),
           lastEvidence := s.lastEvidence,
           dependencies := (map e | e in s.dependencies && e.task in tasks && e.on in tasks :: s.dependencies[e]),
           messages := (map x | x in s.messages && x in messages ::
                          s.messages[x].(task := KeptLink(s.messages[x].task, tasks))))
  }

  /** A link survives in the archive only to an archived task. */
  function KeptLink(task: Option<Id>, kept: set<Id>): Option<Id> {
    if task.Some? && task.value in kept then task else None
  }

  // --- a move -------------------------------------------------------------

  ghost predicate Splits<K(!new), V(!new)>(whole: map<K, V>, a: map<K, V>, b: map<K, V>) {
    && whole.Keys == a.Keys + b.Keys && a.Keys !! b.Keys
    && (forall k | k in a :: a[k] == whole[k])
    && (forall k | k in b :: b[k] == whole[k])
  }

  lemma TasksSplit(s: Tables, tasks: set<Id>, messages: set<Id>)
    ensures Splits(s.tasks, Dropped(s, tasks, messages).tasks, ArchivedCopy(s, tasks, messages).tasks)
  { }

  lemma EvidenceSplits(s: Tables, tasks: set<Id>, messages: set<Id>)
    ensures Splits(s.evidence, Dropped(s, tasks, messages).evidence, ArchivedCopy(s, tasks, messages).evidence)
  { }

  /** The live database and the archive split the tasks and their evidence and
      assignees between them, row for row. */
  lemma TasksMove(s: Tables, tasks: set<Id>, messages: set<Id>)
    ensures var live, copy := Dropped(s, tasks, messages), ArchivedCopy(s, tasks, messages);
      && Splits(s.tasks, live.tasks, copy.tasks)
      && Splits(s.evidence, live.evidence, copy.evidence)
      && s.assignees == live.assignees + copy.assignees && live.assignees !! copy.assignees
  {
    hide Splits;
    TasksSplit(s, tasks, messages);
    EvidenceSplits(s, tasks, messages);
  }

  /** They split the messages, of which only a link across the split is cut. */
  lemma MessagesMove(s: Tables, tasks: set<Id>, messages: set<Id>)
    ensures var live, copy := Dropped(s, tasks, messages), ArchivedCopy(s, tasks, messages);
      && s.messages.Keys == live.messages.Keys + copy.messages.Keys && live.messages.Keys !! copy.messages.Keys
      && (forall x | x in live.messages ::
            live.messages[x] == if s.messages[x].task.Some? && s.messages[x].task.value in tasks
                                then s.messages[x].(task := None) else s.messages[x])
      && (forall x | x in copy.messages ::
            copy.messages[x] == if s.messages[x].task.Some? && s.messages[x].task.value !in tasks
                                then s.messages[x].(task := None) else s.messages[x])
  {
  }

  /** The only edges lost belong to archived tasks that depended on a live one, so
      to tasks done and past the cutoff. */
  lemma EdgesLost(s: Tables, cutoff: Seconds, messages: set<Id>, edge: Edge)
    requires edge in s.dependencies
    ensures var tasks := EligibleTasks(s, cutoff);
      var live, copy := Dropped(s, tasks, messages), ArchivedCopy(s, tasks, messages);
      && !(edge in live.dependencies && edge in copy.dependencies)
      && (edge !in live.dependencies && edge !in copy.dependencies
          <==> edge.task in tasks && edge.on !in tasks)
      && (edge !in live.dependencies ==> Settled(s, edge.task, cutoff))
  { }

  /** The archive is a consistent database of its own: referentially closed, every
      task done and with its evidence. */
  lemma ArchiveIsClosed(s: Tables, cutoff: Seconds, messages: set<Id>)
    requires Inv(s)
    ensures var copy := ArchivedCopy(s, EligibleTasks(s, cutoff), messages);
      Inv(copy) && forall t | t in copy.tasks :: copy.tasks[t].status == Done
  {
    hide Unpinned, Held, Sessions, Cursors;
    var tasks := EligibleTasks(s, cutoff);
    var copy := ArchivedCopy(s, tasks, messages);
    assert Held(copy.claims, copy.sessions, copy.assignees) && Sessions(copy.sessions, copy.agents)
           && Cursors(copy.cursors, 0) by { EmptyIsSound(copy); }
    CopyKeys(s, tasks, messages);
    forall t | t in copy.tasks ensures exists e | e in copy.evidence :: copy.evidence[e].task == t {
      var e :| e in s.evidence && s.evidence[e].task == t;
      assert e in copy.evidence && copy.evidence[e].task == t;
    }
  }

  lemma EmptyIsSound(copy: Tables)
    requires copy.claims == map[] && copy.sessions == map[] && copy.cursors == map[]
    ensures Held(copy.claims, copy.sessions, copy.assignees) && Sessions(copy.sessions, copy.agents)
            && Cursors(copy.cursors, 0)
  {
  }

  lemma CopyKeys(s: Tables, tasks: set<Id>, messages: set<Id>)
    requires Inv(s)
    ensures var copy := ArchivedCopy(s, tasks, messages);
      && AssigneeKeys(copy.assignees, copy.tasks, copy.agents)
      && EvidenceKeys(copy.evidence, copy.lastEvidence, copy.tasks)
      && EdgeKeys(copy.dependencies, copy.tasks) && MessageKeys(copy.messages, copy.tasks)
      && ReviewKeys(copy.reviews, copy.tasks) && LinkKeys(copy.artifactTasks, copy.tasks)
      && Revisions(copy.tasks)
  {
    hide Held, Sessions, Cursors, Exclusive, Evidenced;
  }

  // --- when it commits ----------------------------------------------------

  predicate SelectsNothing(s: Tables, m: Moment, days: nat) {
    EligibleTasks(s, ArchiveCutoff(m, days)) == {} && EligibleMessages(s, ArchiveCutoff(m, days)) == {}
  }

  /** A confirmed run by an active actor commits exactly when it selects nothing,
      or its audit can be attributed and no edge crosses from the live side into
      the selection. */
  lemma ArchiveCommits(s: Tables, m: Moment, days: nat, actor: Id, session: Option<Id>, force: bool,
                       database: string, path: string)
    ensures ArchiveRecords(s, m, days, actor, session, force, database, path).Ok?
            <==> force && RequireActor(s, actor).Pass?
                 && (SelectsNothing(s, m, days)
                     || (Accountable(s, actor, session).Pass?
                         && Deletable(s, EligibleTasks(s, ArchiveCutoff(m, days)))))
  {
    hide EligibleTasks, EligibleMessages, Deletable, Dropped, Appended;
    var cutoff := ArchiveCutoff(m, days);
    DroppedOthers(s, EligibleTasks(s, cutoff), EligibleMessages(s, cutoff));
  }

  /** A selected task has a dependent that is done and past the cutoff, but that
      an unsettled task depends on in turn. */
  ghost predicate PinnedChain(s: Tables, cutoff: Seconds) {
    exists e, p | e in s.dependencies && p in s.dependencies ::
      e.on in EligibleTasks(s, cutoff) && p.on == e.task && p.task in s.tasks && !Settled(s, p.task, cutoff)
  }

  /** The selection is not closed under dependents: the delete is refused exactly
      when such a chain exists. */
  lemma DeletableUnlessChained(s: Tables, cutoff: Seconds)
    requires EdgeKeys(s.dependencies, s.tasks)
    ensures Deletable(s, EligibleTasks(s, cutoff)) <==> !PinnedChain(s, cutoff)
  { }

  function ChainEdge(task: Id, on: Id): Edge { Edge(task, on, "blocks") }

  /** Tasks a and b done, c open; b depends on a and c on b. */
  function Chain(): Tables {
    var done := Task(map[], "", Done, 1, "x", 0, 0);
    EMPTY.(agents := map["x" := Agent(map[], true, 0, 0)],
           tasks := map["a" := done, "b" := done, "c" := done.(status := Todo)],
           evidence := map[1 := Evidence("a", "u", "x", 0), 2 := Evidence("b", "u", "x", 0)],
           lastEvidence := 2,
           dependencies := map[ChainEdge("b", "a") := true, ChainEdge("c", "b") := true])
  }

  lemma ChainSound()
    ensures Inv(Chain())
  {
    ChainTasks();
    ChainKeys();
    hide Exclusive, Evidenced, Revisions, AssigneeKeys, EvidenceKeys, EdgeKeys, MessageKeys, ReviewKeys, LinkKeys;
  }

  lemma ChainTasks()
    ensures var s := Chain();
      Exclusive(s.tasks, s.claims) && Evidenced(s.tasks, s.evidence) && Revisions(s.tasks)
  {
    var s := Chain();
    assert s.evidence[1].task == "a" && s.evidence[2].task == "b";
  }

  lemma ChainKeys()
    ensures var s := Chain();
      AssigneeKeys(s.assignees, s.tasks, s.agents) && EvidenceKeys(s.evidence, s.lastEvidence, s.tasks)
      && EdgeKeys(s.dependencies, s.tasks) && MessageKeys(s.messages, s.tasks)
      && ReviewKeys(s.reviews, s.tasks) && LinkKeys(s.artifactTasks, s.tasks)
  {
  }

  lemma ChainSelection(cutoff: Seconds)
    requires cutoff >= 0
    ensures EligibleTasks(Chain(), cutoff) == {"a"} && !Deletable(Chain(), {"a"})
  { }

  /** In such a state every archive run that reaches the tasks is refused, though
      the state is sound and the run confirmed. */
  lemma ChainIsRefused(m: Moment, days: nat, path: string)
    requires ArchiveCutoff(m, days) >= 0
    ensures Inv(Chain())
    ensures EligibleTasks(Chain(), ArchiveCutoff(m, days)) == {"a"}
    ensures ArchiveRecords(Chain(), m, days, "x", None, true, "db", path) == Err(ConstraintViolation)
  {
    hide EligibleMessages, EligibleTasks, Deletable, Inv;
    ChainSound();
    ChainSelection(ArchiveCutoff(m, days));
  }

  // --- what a commit leaves -----------------------------------------------

  /** A run that removed something appends exactly its own row to the ledger. */
  lemma LedgerGainsOneRow(s: Tables, m: Moment, days: nat, actor: Id, session: Option<Id>, force: bool,
                          database: string, path: string)
    requires ArchiveRecords(s, m, days, actor, session, force, database, path).Ok?
    requires !SelectsNothing(s, m, days)
    ensures var t := ArchiveRecords(s, m, days, actor, session, force, database, path).value;
      var tasks, messages := EligibleTasks(s, ArchiveCutoff(m, days)), EligibleMessages(s, ArchiveCutoff(m, days));
      && t.audit == s.audit + [AuditRow(actor, session, Action.Archive, DatabaseObject, database,
                                        ArchiveLine(|tasks|, |messages|, path), Second(m.clock(|s.audit|)))]
      && t == Dropped(s, tasks, messages).(audit := t.audit, changes := t.changes, sessions := t.sessions)
  {
    hide EligibleTasks, EligibleMessages, Deletable, Dropped, ChangeRows, Seen;
    var cutoff := ArchiveCutoff(m, days);
    DroppedOthers(s, EligibleTasks(s, cutoff), EligibleMessages(s, cutoff));
  }

  // --- read positions and inboxes -----------------------------------------

  /** One line of an inbox: a message and the id of its send event. */
  datatype Letter = Letter(id: Id, message: Message, sent: nat)

  predicate Delivered(s: Tables, agent: Id, row: AuditRow) {
    row.action == Send && row.objectType == MessageObject && row.objectId in s.messages
    && (s.messages[row.objectId].recipient == agent || s.messages[row.objectId].recipient == "team")
  }

  /** `inbox list`: the messages for an agent sent after its read position, in the
      order of their send events, among the first `n` ledger rows. */
  function InboxUpTo(s: Tables, agent: Id, n: nat): seq<Letter>
    requires n <= |s.audit|
  {
    if n == 0 then []
    else
      var row := s.audit[n - 1];
      InboxUpTo(s, agent, n - 1)
      + (if n > CursorOf(s, agent) && Delivered(s, agent, row)
         then [Letter(row.objectId, s.messages[row.objectId], n)] else [])
  }

  function Inbox(s: Tables, agent: Id): seq<Letter> { InboxUpTo(s, agent, |s.audit|) }

  /** The same letters, links to removed tasks cut. */
  function WithoutLinks(letters: seq<Letter>, gone: set<Id>): seq<Letter> {
    seq(|letters|, i requires 0 <= i < |letters| =>
      letters[i].(message := letters[i].message.(task := Unlinked(letters[i].message.task, gone))))
  }

  lemma {:induction false} LastSendBounds(audit: seq<AuditRow>, message: Id, i: nat)
    requires i < |audit| && IsSend(audit[i], message)
    ensures LastSend(audit, message) >= i + 1
    decreases |audit|
  {
    if !IsSend(audit[|audit| - 1], message) { LastSendBounds(audit[..|audit| - 1], message, i); }
  }

  lemma UnreadStays(s: Tables, cutoff: Seconds, agent: Id, i: nat)
    requires agent in ActiveAgents(s) && i < |s.audit| && i + 1 > CursorOf(s, agent)
    requires IsSend(s.audit[i], s.audit[i].objectId)
    ensures s.audit[i].objectId !in EligibleMessages(s, cutoff)
  {
    LastSendBounds(s.audit, s.audit[i].objectId, i);
  }

  lemma {:induction false} InboxKept(s: Tables, t: Tables, cutoff: Seconds, tasks: set<Id>, agent: Id, n: nat)
    requires agent in ActiveAgents(s) && n <= |s.audit| <= |t.audit|
    requires t.messages == Dropped(s, tasks, EligibleMessages(s, cutoff)).messages
    requires t.cursors == s.cursors && s.audit <= t.audit
    ensures InboxUpTo(t, agent, n) == WithoutLinks(InboxUpTo(s, agent, n), tasks)
  {
    hide EligibleMessages, ActiveAgents;
    if n > 0 {
      InboxKept(s, t, cutoff, tasks, agent, n - 1);
      var row := s.audit[n - 1];
      if n > CursorOf(s, agent) && row.action == Send && row.objectType == MessageObject {
        UnreadStays(s, cutoff, agent, n - 1);
      }
    }
  }

  /** Archiving changes no active agent's inbox, but for links to tasks it removed. */
  lemma InboxesUnchanged(s: Tables, m: Moment, days: nat, actor: Id, session: Option<Id>, force: bool,
                         database: string, path: string, agent: Id)
    requires agent in ActiveAgents(s)
    requires ArchiveRecords(s, m, days, actor, session, force, database, path).Ok?
    ensures var t := ArchiveRecords(s, m, days, actor, session, force, database, path).value;
      Inbox(t, agent) == if SelectsNothing(s, m, days) then Inbox(s, agent)
                         else WithoutLinks(Inbox(s, agent), EligibleTasks(s, ArchiveCutoff(m, days)))
  {
    hide EligibleTasks, EligibleMessages, ActiveAgents, InboxUpTo, Dropped, ArchiveRecords;
    ArchiveIsRemoval(s, m, days, actor, session, force, database, path);
    if !SelectsNothing(s, m, days) {
      var t := ArchiveRecords(s, m, days, actor, session, force, database, path).value;
      var tasks := EligibleTasks(s, ArchiveCutoff(m, days));
      LedgerGainsOneRow(s, m, days, actor, session, force, database, path);
      DroppedOthers(s, tasks, EligibleMessages(s, ArchiveCutoff(m, days)));
      InboxKept(s, t, ArchiveCutoff(m, days), tasks, agent, |s.audit|);
      LastRowNotDelivered(t, agent);
    }
  }

  lemma LastRowNotDelivered(t: Tables, agent: Id)
    requires |t.audit| > 0 && t.audit[|t.audit| - 1].action != Send
    ensures InboxUpTo(t, agent, |t.audit|) == InboxUpTo(t, agent, |t.audit| - 1)
  {
  }

  // --- a second run -------------------------------------------------------

  lemma LastSendAppend(audit: seq<AuditRow>, row: AuditRow, message: Id)
    requires row.action != Send
    ensures LastSend(audit + [row], message) == LastSend(audit, message)
  { }

  lemma TasksExhausted(s: Tables, cutoff: Seconds, messages: set<Id>)
    requires EdgeKeys(s.dependencies, s.tasks)
    ensures EligibleTasks(Dropped(s, EligibleTasks(s, cutoff), messages), cutoff) == {}
  { }

  /** A second run at the same cutoff finds nothing to do. */
  lemma SecondRunSelectsNothing(s: Tables, m: Moment, days: nat, actor: Id, session: Option<Id>, force: bool,
                                database: string, path: string)
    requires Inv(s) && ArchiveRecords(s, m, days, actor, session, force, database, path).Ok?
    ensures var t := ArchiveRecords(s, m, days, actor, session, force, database, path).value;
      SelectsNothing(t, m, days)
      && ArchiveRecords(t, m, days, actor, session, force, database, path) == Ok(t)
  {
    hide ArchiveRecords, Dropped, EligibleTasks, EligibleMessages;
    ArchiveCommits(s, m, days, actor, session, force, database, path);
    var t := ArchiveRecords(s, m, days, actor, session, force, database, path).value;
    ArchiveIsRemoval(s, m, days, actor, session, force, database, path);
    if !SelectsNothing(s, m, days) {
      LedgerGainsOneRow(s, m, days, actor, session, force, database, path);
      var cutoff := ArchiveCutoff(m, days);
      var tasks, messages := EligibleTasks(s, cutoff), EligibleMessages(s, cutoff);
      DroppedOthers(s, tasks, messages);
      InvEdges(s);
      TasksExhausted(s, cutoff, messages);
      SameSelection(t, Dropped(s, tasks, messages), cutoff);
      MessagesExhausted(s, t, tasks, cutoff);
    }
    NothingToDo(t, m, days, actor, session, force, database, path);
  }

  lemma InvEdges(s: Tables)
    requires Inv(s)
    ensures EdgeKeys(s.dependencies, s.tasks)
  {
  }

  lemma SameSelection(s: Tables, t: Tables, cutoff: Seconds)
    requires s.tasks == t.tasks && s.dependencies == t.dependencies
    ensures EligibleTasks(s, cutoff) == EligibleTasks(t, cutoff)
  {
  }

  lemma MessagesExhausted(s: Tables, t: Tables, tasks: set<Id>, cutoff: Seconds)
    requires t.messages == Dropped(s, tasks, EligibleMessages(s, cutoff)).messages
    requires t.agents == s.agents && t.cursors == s.cursors
    requires |t.audit| == |s.audit| + 1 && s.audit <= t.audit && t.audit[|s.audit|].action != Send
    ensures EligibleMessages(t, cutoff) == {}
  {
    hide LastSend;
    forall x | x in t.messages ensures !(t.messages[x].createdAt <= cutoff && ReadByAll(t, x)) {
      assert t.audit == s.audit + [t.audit[|s.audit|]];
      LastSendAppend(s.audit, t.audit[|s.audit|], x);
      assert ActiveAgents(t) == ActiveAgents(s);
      assert x !in EligibleMessages(s, cutoff);
    }
  }

  lemma NothingToDo(t: Tables, m: Moment, days: nat, actor: Id, session: Option<Id>, force: bool,
                    database: string, path: string)
    requires SelectsNothing(t, m, days) && force && RequireActor(t, actor).Pass?
    ensures ArchiveRecords(t, m, days, actor, session, force, database, path) == Ok(t)
  { }
}
