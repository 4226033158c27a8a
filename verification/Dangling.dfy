/** Which rows `doctor` counts as dangling redactions: exactly those whose caller
    supplied a text that looks struck. */
module Dangling {
  import opened Records
  import opened Ledger
  import opened Protocol
  import opened Correspondence
  import opened Runs
  import opened Growth
  import opened Tombstones
  import Archiving = Archive
  import Redaction
  import Text

  // --- what an invocation writes into the ledger --------------------------

  /** The words of its caller with which an operation's row begins, "" if its row
      begins with words of the runtime. */
  function CallerText(op: Op): string {
    match op
    case SessionStart(_, _, harness) => harness
    case SessionRecover(_, _, reason, _, force) => if force then "" else reason
    case SessionSweep(_, reason, _, _) => reason
    case EvidenceAdd(task, _, _) => task
    case MessageSend(_, _, recipient, _, _) => recipient
    case MessageRedact(_, _, reason) => reason
    case ArtifactAdd(_, columns, _, _, _) => Get(columns, Uri)
    case AuditRedact(_, _, reason) => reason
    case _ => ""
  }

  /** A sweep writes a row only if it finds a session to end. */
  predicate Writes(s: Tables, e: Event) {
    e.op.SessionSweep? ==>
      e.op.limit > 0 && Candidates(s, StaleCutoff(e.at.lease, e.op.staleAfter), e.session) != {}
  }

  /** What a caller can see beforehand: the invocation would write a text that looks struck. */
  predicate Strikes(s: Tables, e: Event) { LooksStruck(CallerText(e.op)) && Writes(s, e) }

  predicate Unbracketed(text: string) { text == "" || text[0] != '[' }

  /** A text the runtime composes, other than a ruling, which begins with a status. */
  predicate Composed(detail: Detail) { !detail.Given? && !detail.RulingLine? && !detail.Tombstone? }

  lemma {:induction false} NamesPlain(order: seq<Field>, fields: set<Field>)
    ensures Unbracketed(Text.Join(Redaction.Names(order, fields), ','))
    decreases |order|
  {
    if order != [] { NamesPlain(order[1..], fields); }
  }

  lemma StepPlain(revision: int)
    ensures |Redaction.Step(revision)| > 0 && Redaction.Step(revision)[0] == 'r'
  { }

  lemma ComposedTextIsPlain(detail: Detail)
    requires Composed(detail)
    ensures Unbracketed(Redaction.Render(detail))
  {
    hide Text.Sorted, Text.Join, Redaction.Names, Redaction.Step, Redaction.Cause, Text.Dec;
    if detail.ColumnsLine? { NamesPlain([Name, Role, ActorType, Status], detail.fields); }
    if detail.StatusLine? { assert |StatusName(detail.from)| > 0 && StatusName(detail.from)[0] != '['; }
    if detail.ClaimLine? { StepPlain(detail.revision); }
  }

  // --- statuses -----------------------------------------------------------

  /** Every record's status is one its CHECK lets through. */
  ghost predicate StatusesKnown(s: Tables) {
    forall kind: RecordKind, id | id in RecordsOf(s, kind) :: StatusKnown(kind, RecordsOf(s, kind)[id].columns)
  }

  predicate SameRecords(s: Tables, t: Tables) {
    s.artifacts == t.artifacts && s.decisions == t.decisions && s.escalations == t.escalations
  }

  lemma StatusPlain(kind: RecordKind, columns: Columns)
    requires StatusKnown(kind, columns)
    ensures |Get(columns, Status)| > 0 && Get(columns, Status)[0] != '['
  { }

  lemma DecisionPlain(decision: string)
    requires decision in REVIEW_DECISIONS
    ensures Unbracketed(Redaction.Render(Given(decision)))
  { }

  lemma RulingPlain(s: Tables, kind: RecordKind, id: Id, status: string, because: Option<Reference>, note: string)
    requires StatusesKnown(s) && id in RecordsOf(s, kind)
    ensures Unbracketed(Redaction.Render(Ruling(s, kind, id, status, because, note)))
  {
    hide StatusKnown, Redaction.Cause;
    StatusPlain(kind, RecordsOf(s, kind)[id].columns);
  }

  lemma WithRecordsKept(s: Tables, kind: RecordKind, id: Id, record: Record)
    requires StatusesKnown(s) && StatusKnown(kind, record.columns)
    ensures StatusesKnown(WithRecords(s, kind, RecordsOf(s, kind)[id := record]))
  {
    hide StatusKnown;
    var t := WithRecords(s, kind, RecordsOf(s, kind)[id := record]);
    forall k: RecordKind, x | x in RecordsOf(t, k) ensures StatusKnown(k, RecordsOf(t, k)[x].columns) {
      assert k != kind ==> RecordsOf(t, k) == RecordsOf(s, k);
    }
  }

  lemma AmendedStatus(kind: RecordKind, before: Columns, selected: Columns)
    requires StatusKnown(kind, before) && (Status in selected ==> StatusKnown(kind, selected))
    ensures StatusKnown(kind, before + selected)
  {
    hide StatusesOf;
  }

  lemma WriteKeepsStatuses(s: Tables, m: Moment, w: RecordWrite, session: Option<Id>)
    requires StatusesKnown(s) && WriteRecord(s, m, w, session).Ok?
    ensures StatusesKnown(WriteRecord(s, m, w, session).value.tables)
    ensures w.id in RecordsOf(s, w.kind) || (w.Adding? && StatusKnown(w.kind, w.columns))
  {
    hide StatusKnown, RecordsOf, WithRecords, RequireReference, UriFree, RequireActor, ObjectOf, Changed,
      StatusesKnown;
    if w.Adding? {
      WithRecordsKept(s, w.kind, w.id, Record(w.owner, w.columns, Second(m.stamp), Second(m.stamp)));
    } else {
      var before := RecordsOf(s, w.kind)[w.id];
      assert StatusKnown(w.kind, before.columns) by { StatusOf(s, w.kind, w.id); }
      AmendedStatus(w.kind, before.columns, w.columns);
      WithRecordsKept(s, w.kind, w.id, before.(columns := before.columns + w.columns, updatedAt := Second(m.stamp)));
    }
  }

  lemma StatusOf(s: Tables, kind: RecordKind, id: Id)
    requires StatusesKnown(s) && id in RecordsOf(s, kind)
    ensures StatusKnown(kind, RecordsOf(s, kind)[id].columns)
  { }

  // --- drafts -------------------------------------------------------------

  /** The row of a draft begins with its caller's words, or with words that do not look struck. */
  predicate Says(detail: Detail, text: string) {
    detail == Given(text) || (text == "" && (Composed(detail) || Unbracketed(Redaction.Render(detail))))
  }

  /** What every committed draft does to the texts and statuses. */
  ghost predicate Plain(s: Tables, draft: Result<Draft>, text: string) {
    draft.Ok? ==> Says(draft.value.entry.detail, text) && StatusesKnown(draft.value.tables)
  }

  lemma SameRecordsKnown(s: Tables, t: Tables)
    requires StatusesKnown(s) && SameRecords(s, t)
    ensures StatusesKnown(t)
  {
    hide StatusKnown;
    forall k: RecordKind ensures RecordsOf(t, k) == RecordsOf(s, k) { }
  }

  lemma WorkPlain(s: Tables, e: Event)
    requires e.op.AgentAdd? || e.op.AgentUpdate? || e.op.SessionStart? || e.op.SessionHeartbeat?
             || e.op.SessionEnd? || e.op.EvidenceAdd?
    requires WorkDraft(s, e).Ok?
    ensures Says(WorkDraft(s, e).value.entry.detail, CallerText(e.op)) && SameRecords(s, WorkDraft(s, e).value.tables)
  {
    hide Changed, SelectedAgentColumns, AgentColumns, HasActiveSession, Redaction.Render, RequireActor,
      RequireOpenSession, Text.Dec;
    match e.op
    case AgentAdd(_, _, _) =>
    case AgentUpdate(_, _, _, _) =>
    case SessionStart(_, _, _) =>
    case SessionHeartbeat(_) =>
    case SessionEnd(_) =>
    case EvidenceAdd(_, _, _) =>
  }

  lemma TaskPlain(s: Tables, e: Event)
    requires e.op.TaskCreate? || e.op.TaskUpdate? || e.op.TaskAssign? || e.op.TaskStatus?
    requires TaskDraft(s, e).Ok?
    ensures Says(TaskDraft(s, e).value.entry.detail, CallerText(e.op)) && SameRecords(s, TaskDraft(s, e).value.tables)
  {
    hide Changed, RequireReference, RequireActor, RequireSession, RequireClaimOwnership, RequireTransition, Listed,
      Reassigned, AssigneesOf, Assigned, NotesChange, StatusName, Unique, AgentsExist, Redaction.Render;
    match e.op
    case TaskCreate(_, _, _, _) =>
    case TaskUpdate(_, _, _, _) =>
    case TaskAssign(_, _, _, _, _) =>
    case TaskStatus(_) =>
  }

  lemma NotePlain(s: Tables, e: Event)
    requires e.op.MessageSend? || e.op.MessageRedact? || e.op.ReviewAdd? || e.op.AuditRedact?
    requires NoteDraft(s, e).Ok?
    ensures Says(NoteDraft(s, e).value.entry.detail, CallerText(e.op)) && SameRecords(s, NoteDraft(s, e).value.tables)
  {
    hide REDACTED_BODY, REVIEW_DECISIONS, Text.Dec, Redaction.Render, Redaction.Marked, RequireActor;
    match e.op
    case MessageSend(_, _, _, _, _) =>
    case MessageRedact(_, _, _) =>
    case ReviewAdd(_, _, _, decision) => DecisionPlain(decision);
    case AuditRedact(_, _, _) =>
  }

  lemma EdgePlain(s: Tables, e: Event)
    requires e.op.InboxMarkRead? || e.op.DependencyAdd? || e.op.DependencyResolve?
    requires EdgeDraft(s, e).Ok?
    ensures Says(EdgeDraft(s, e).value.entry.detail, CallerText(e.op)) && SameRecords(s, EdgeDraft(s, e).value.tables)
  {
    hide EdgeName, InboxOwner, Text.Dec, Redaction.Render, RequireActor, CursorOf;
    match e.op
    case InboxMarkRead(_, _) =>
    case DependencyAdd(_, _) =>
    case DependencyResolve(_, _) =>
  }

  lemma RecordPlain(s: Tables, e: Event)
    requires StatusesKnown(s) && WritesRecord(e.op) && RecordDraft(s, e).Ok?
    ensures Plain(s, RecordDraft(s, e), CallerText(e.op))
  {
    hide RecordDraft, StatusKnown, StatusesKnown, Redaction.Render, RequireActor, RecordsOf, WithRecords,
      RequireAmendable, Ruling, ObjectOf, Changed;
    RecordDraftIs(s, e);
    var base, w := LinksAdded(s, e.op), RecordWriteOf(s, e.op);
    assert StatusesKnown(base) by { SameRecordsKnown(s, base); }
    WriteKeepsStatuses(base, e.at, w, e.session);
    assert Says(RecordDraft(s, e).value.entry.detail, CallerText(e.op)) by { RecordSays(s, e); }
  }

  lemma RecordSays(s: Tables, e: Event)
    requires StatusesKnown(s) && WritesRecord(e.op) && RecordDraft(s, e).Ok?
    ensures Says(RecordDraft(s, e).value.entry.detail, CallerText(e.op))
  {
    hide RecordDraft, StatusKnown, StatusesKnown, Redaction.Render, RequireActor, WithRecords, RequireAmendable,
      Ruling, ObjectOf, Changed, Redaction.Cause;
    RecordDraftIs(s, e);
    var base := LinksAdded(s, e.op);
    assert StatusesKnown(base) by { SameRecordsKnown(s, base); }
    WriteKeepsStatuses(base, e.at, RecordWriteOf(s, e.op), e.session);
    match e.op
    case DecisionAdd(_, status, _) => StatusGiven(status);
    case ArtifactSetStatus(id, status, _, because, _) => RulingPlain(s, Artifact, id, status, because, "");
    case DecisionSetStatus(id, status, _, because, note, _) => RulingPlain(s, Decision, id, status, because, note);
    case EscalationResolve(id, status, _, _, _, because, _) => RulingPlain(s, Escalation, id, status, because, "");
    case _ =>
  }

  lemma StatusGiven(status: string)
    requires StatusKnown(Decision, map[Status := status])
    ensures Unbracketed(Redaction.Render(Given(status)))
  { }

  lemma DraftPlain(s: Tables, e: Event)
    requires StatusesKnown(s) && Drafted(e.op) && DraftOf(s, e).Ok?
    ensures Plain(s, DraftOf(s, e), CallerText(e.op))
  {
    hide StatusesKnown, Says, SameRecords, WorkDraft, TaskDraft, NoteDraft, EdgeDraft, RecordDraft;
    if WritesRecord(e.op) {
      RecordPlain(s, e);
    } else {
      if OnWork(e.op) {
        WorkPlain(s, e);
      } else if OnTask(e.op) {
        TaskPlain(s, e);
      } else if OnNote(e.op) {
        NotePlain(s, e);
      } else {
        EdgePlain(s, e);
      }
      SameRecordsKnown(s, DraftOf(s, e).value.tables);
    }
  }

  // --- steps --------------------------------------------------------------

  predicate Voices(detail: Detail, text: string) {
    detail == Given(text) || (!detail.Tombstone? && Unbracketed(Redaction.Render(detail)))
  }

  /** Every new row begins with the caller's words or does not look struck, and one does begin with them. */
  ghost predicate Speaks(s: Tables, t: Tables, text: string) {
    && |s.audit| <= |t.audit|
    && (forall i | |s.audit| <= i < |t.audit| :: Voices(t.audit[i].detail, text))
    && (text != "" ==> exists i | |s.audit| <= i < |t.audit| :: t.audit[i].detail == Given(text))
  }

  lemma SaysVoices(detail: Detail, text: string)
    requires Says(detail, text)
    ensures Voices(detail, text) && (text != "" ==> detail == Given(text))
  {
    hide Redaction.Render;
    if Composed(detail) { ComposedTextIsPlain(detail); }
    if detail.Tombstone? { TombstoneMarked(detail); }
  }

  lemma CommitSpeaks(s: Tables, draft: Result<Draft>, clock: Clock, text: string)
    requires Commit(draft, clock).Ok? && draft.Ok? && Plain(s, draft, text) && Grounded(s, draft)
    ensures Speaks(s, Commit(draft, clock).value, text) && StatusesKnown(Commit(draft, clock).value)
  {
    hide Says, Voices, Redaction.Render, Redaction.Marked, ChangeRows, Struck, Sentinel, Text.Dec, StatusesKnown;
    var d, t := draft.value, Commit(draft, clock).value;
    SaysVoices(d.entry.detail, text);
    assert t.audit[|s.audit|].detail == d.entry.detail;
    SameRecordsKnown(d.tables, t);
  }

  lemma ReapedSpeaks(s: Tables, r: Reaping, stamp: Seconds, clock: Clock)
    ensures Speaks(s, Reaped(s, r, stamp, clock), if r.forced then "" else r.reason)
    ensures SameRecords(s, Reaped(s, r, stamp, clock))
  {
    hide Owned, Voices, Redaction.Render, Text.Ascending;
    var t := Reaped(s, r, stamp, clock);
    var text := if r.forced then "" else r.reason;
    var last := t.audit[|t.audit| - 1];
    assert last == RecoverRow(r, last.createdAt);
    forall i | |s.audit| <= i < |t.audit| ensures Voices(t.audit[i].detail, text) {
      if i < |t.audit| - 1 { assert t.audit[i].detail.RecoverClaimLine?; }
      ReapRowVoices(t.audit[i].detail, r);
    }
  }

  lemma ReapRowVoices(detail: Detail, r: Reaping)
    requires detail.RecoverClaimLine? || detail == RecoverRow(r, 0).detail
    ensures Voices(detail, if r.forced then "" else r.reason)
  {
    if !detail.Given? { ComposedTextIsPlain(detail); }
  }

  lemma SpeaksOn(s: Tables, mid: Tables, t: Tables, text: string)
    requires Speaks(s, mid, text) && |mid.audit| <= |t.audit|
    requires forall i | 0 <= i < |mid.audit| :: t.audit[i] == mid.audit[i]
    requires forall i | |mid.audit| <= i < |t.audit| :: Voices(t.audit[i].detail, text)
    ensures Speaks(s, t, text)
  {
    hide Voices;
    if text != "" {
      var i :| |s.audit| <= i < |mid.audit| && mid.audit[i].detail == Given(text);
      assert t.audit[i].detail == Given(text);
    }
  }

  lemma {:induction false} ReapAllSpeaks(s: Tables, order: seq<Id>, actor: Id, reason: string, operator: Option<Id>,
                                         stamp: Seconds, clock: Clock)
    requires ReapAll(s, order, actor, reason, operator, stamp, clock).Ok?
    ensures var t := ReapAll(s, order, actor, reason, operator, stamp, clock).value;
      && SameRecords(s, t) && s.audit <= t.audit
      && (if order == [] then t == s else Speaks(s, t, reason))
    decreases |order|
  {
    hide Reaped, Accountable, Voices;
    if order != [] {
      var r := Reaping(order[0], actor, reason, operator, false);
      ReapedSpeaks(s, r, stamp, clock);
      var mid := Reaped(s, r, stamp, clock);
      assert s.audit <= mid.audit by { ReapedPlainly(s, r, stamp, clock); }
      ReapAllSpeaks(mid, order[1..], actor, reason, operator, stamp, clock);
      SpeaksOn(s, mid, ReapAll(mid, order[1..], actor, reason, operator, stamp, clock).value, reason);
    }
  }

  lemma TakePlain(s: Tables, m: Moment, id: Id, agent: Id, session: Id, revision: int, reaped: Option<Id>)
    requires StatusesKnown(s)
    ensures Plain(s, TakeTask(s, m, id, agent, session, revision, reaped), "")
  {
    hide StatusKnown, Redaction.Render;
    if TakeTask(s, m, id, agent, session, revision, reaped).Ok? {
      SameRecordsKnown(s, TakeTask(s, m, id, agent, session, revision, reaped).value.tables);
    }
  }

  lemma LeasePlain(agent: Id)
    ensures Unbracketed(Redaction.Render(Given(LeaseExpired(agent))))
  {
    hide Text.Numeral;
    assert LeaseExpired(agent)[0] == 'c';
  }

  lemma ClaimSpeaks(s: Tables, m: Moment, id: Id, agent: Id, session: Option<Id>, ifRevision: int)
    requires StatusesKnown(s) && ClaimTask(s, m, id, agent, session, ifRevision).Ok?
    ensures Speaks(s, ClaimTask(s, m, id, agent, session, ifRevision).value.tables, "")
    ensures StatusesKnown(ClaimTask(s, m, id, agent, session, ifRevision).value.tables)
  {
    hide Reaped, Commit, TakeTask, Accountable, StatusesKnown, Plain, Redaction.Render, Grounded, LeaseExpired;
    if s.tasks[id].revision == ifRevision {
      if s.tasks[id].status == InProgress {
        var holder := s.claims[id].session;
        var r := LeaseReaping(holder, agent, session.value);
        ReapedSpeaks(s, r, Second(m.stamp), m.clock);
        LeasePlain(agent);
        var mid := Reaped(s, r, Second(m.stamp), m.clock);
        SameRecordsKnown(s, mid);
        TakeSpeaks(mid, m, id, agent, session.value, ifRevision + 1, Some(holder));
      } else {
        TakeSpeaks(s, m, id, agent, session.value, ifRevision, None);
      }
    }
  }

  lemma TakeSpeaks(s: Tables, m: Moment, id: Id, agent: Id, session: Id, revision: int, reaped: Option<Id>)
    requires StatusesKnown(s) && Commit(TakeTask(s, m, id, agent, session, revision, reaped), m.clock).Ok?
    ensures var t := Commit(TakeTask(s, m, id, agent, session, revision, reaped), m.clock).value;
      Speaks(s, t, "") && StatusesKnown(t) && s.audit <= t.audit
  {
    hide StatusesKnown, Grounded, Plain, TakeTask, Commit;
    TakePlain(s, m, id, agent, session, revision, reaped);
    TakeGrounded(s, m, id, agent, session, revision, reaped);
    TakeGrowsPlainly(s, m, id, agent, session, revision, reaped);
    CommitOk(TakeTask(s, m, id, agent, session, revision, reaped), m.clock);
    CommitSpeaks(s, TakeTask(s, m, id, agent, session, revision, reaped), m.clock, "");
  }

  lemma DroppedRecords(s: Tables, tasks: set<Id>, messages: set<Id>)
    ensures SameRecords(s, Archiving.Dropped(s, tasks, messages))
  { }

  lemma ArchiveSpeaks(s: Tables, e: Event)
    requires StatusesKnown(s) && e.op.ArchiveRun? && Apply(s, e).Ok?
    ensures Speaks(s, Apply(s, e).value, "") && StatusesKnown(Apply(s, e).value)
  {
    hide Archiving.EligibleMessages, Archiving.Deletable, Archiving.EligibleTasks, Archiving.ArchiveRecords,
      Archiving.Dropped, Commit, StatusesKnown, Redaction.Render, DraftOf, RecoverSession, SweepSessions, ClaimTask;
    var op := e.op;
    Archiving.ArchiveIsRemoval(s, e.at, op.days, op.actor, e.session, op.force, op.database, op.path);
    var cutoff := Archiving.ArchiveCutoff(e.at, op.days);
    var tasks, messages := Archiving.EligibleTasks(s, cutoff), Archiving.EligibleMessages(s, cutoff);
    if tasks != {} || messages != {} {
      Archiving.DroppedOthers(s, tasks, messages);
      DroppedRecords(s, tasks, messages);
      SameRecordsKnown(s, Archiving.Dropped(s, tasks, messages));
      CommitSpeaks(s, Ok(Archiving.Removal(s, tasks, messages, op.actor, e.session, op.database, op.path)),
                   e.at.clock, "");
    }
  }

  lemma SweepSpeaks(s: Tables, e: Event)
    requires StatusesKnown(s) && e.op.SessionSweep? && Apply(s, e).Ok?
    ensures if Writes(s, e) then Speaks(s, Apply(s, e).value, CallerText(e.op)) else Apply(s, e).value == s
    ensures StatusesKnown(Apply(s, e).value)
  {
    hide ReapAll, Accountable, Speaks, StatusesKnown, DraftOf, RecoverSession, ClaimTask, Archiving.ArchiveRecords;
    var op := e.op;
    var order := Oldest(s, Candidates(s, StaleCutoff(e.at.lease, op.staleAfter), e.session), op.limit);
    ReapAllSpeaks(s, order, op.actor, op.reason, e.session, Second(e.at.stamp), e.at.clock);
    SameRecordsKnown(s, Apply(s, e).value);
  }

  lemma RecoverSpeaks(s: Tables, e: Event)
    requires StatusesKnown(s) && e.op.SessionRecover? && Apply(s, e).Ok?
    ensures Speaks(s, Apply(s, e).value, CallerText(e.op)) && StatusesKnown(Apply(s, e).value)
  {
    hide Reaped, Accountable, Speaks, StatusesKnown, DraftOf, SweepSessions, ClaimTask, Archiving.ArchiveRecords;
    var op := e.op;
    ReapedSpeaks(s, Reaping(op.id, op.actor, op.reason, e.session, op.force), Second(e.at.stamp), e.at.clock);
    SameRecordsKnown(s, Apply(s, e).value);
  }

  /** Every committed step writes its caller's words or words that do not look struck,
      and keeps the statuses known. */
  lemma StepSpeaks(s: Tables, e: Event)
    requires StatusesKnown(s) && Apply(s, e).Ok?
    ensures if Writes(s, e) then Speaks(s, Next(s, e), CallerText(e.op)) else Next(s, e) == s
    ensures StatusesKnown(Next(s, e))
  {
    hide StatusesKnown, DraftOf, RecoverSession, SweepSessions, ClaimTask, Archiving.ArchiveRecords, Commit, Grounded,
      Speaks, Plain, Candidates;
    if Drafted(e.op) {
      DraftedApply(s, e);
      CommitOk(DraftOf(s, e), e.at.clock);
      DraftGrounded(s, e);
      DraftPlain(s, e);
      CommitSpeaks(s, DraftOf(s, e), e.at.clock, CallerText(e.op));
    } else {
      match e.op
      case SessionRecover(_, _, _, _, _) => RecoverSpeaks(s, e);
      case SessionSweep(_, _, _, _) => SweepSpeaks(s, e);
      case TaskClaim(id, agent, ifRevision) => ClaimSpeaks(s, e.at, id, agent, e.session, ifRevision);
      case ArchiveRun(_, _, _, _, _) => ArchiveSpeaks(s, e);
    }
  }

  // --- the dangling rows --------------------------------------------------

  lemma StruckMarked(text: string)
    requires LooksStruck(text)
    ensures Redaction.Marked(text) && !Unbracketed(text)
  { }

  lemma DanglesSame(s: Tables, t: Tables, i: nat)
    requires Sound(s) && Sound(t) && TextKept(s, t) && i < |s.audit|
    ensures Dangles(s.audit, i) <==> Dangles(t.audit, i)
  {
    hide Redaction.Render, LooksStruck, Dangles, Linked, Attached, Redaction.Marked;
    DanglesExactly(s.audit, i);
    DanglesExactly(t.audit, i);
    var text := Redaction.Render(s.audit[i].detail);
    if LooksStruck(text) { StruckMarked(text); }
    if s.audit[i].detail.Tombstone? { TombstoneMarked(s.audit[i].detail); }
  }

  lemma NewDangles(s: Tables, t: Tables, text: string, i: nat)
    requires Sound(t) && Speaks(s, t, text) && |s.audit| <= i < |t.audit|
    ensures Dangles(t.audit, i) <==> LooksStruck(text) && t.audit[i].detail == Given(text)
  {
    hide LooksStruck, Dangles, Linked, Attached, Unbracketed;
    DanglesExactly(t.audit, i);
    var own := Redaction.Render(t.audit[i].detail);
    if LooksStruck(own) { StruckMarked(own); }
    assert Voices(t.audit[i].detail, text);
  }

  /** A committed step adds a dangling row if and only if its caller's words look
      struck and it writes them; it never removes one. */
  lemma StepDangles(s: Tables, e: Event)
    requires Sound(s) && StatusesKnown(s) && Apply(s, e).Ok?
    ensures DanglingRows(s.audit) <= DanglingRows(Next(s, e).audit)
    ensures DanglingRows(Next(s, e).audit) != DanglingRows(s.audit) <==> Strikes(s, e)
  {
    hide Sound, StatusesKnown, LooksStruck, Dangles, Next, Speaks, TextKept, Writes, CallerText;
    StepSound(s, e);
    StepSpeaks(s, e);
    var t, text := Next(s, e), CallerText(e.op);
    assert |s.audit| <= |t.audit| by { KeptLength(s, t); }
    forall i: nat | i < |s.audit| ensures Dangles(s.audit, i) <==> Dangles(t.audit, i) { DanglesSame(s, t, i); }
    if Writes(s, e) {
      forall i: nat | |s.audit| <= i < |t.audit|
        ensures Dangles(t.audit, i) <==> LooksStruck(text) && t.audit[i].detail == Given(text)
      {
        NewDangles(s, t, text, i);
      }
      if LooksStruck(text) {
        var i := SpokenRow(s, t, text);
        assert i in DanglingRows(t.audit) && i !in DanglingRows(s.audit);
      }
    }
  }

  lemma KeptLength(s: Tables, t: Tables)
    requires TextKept(s, t)
    ensures |s.audit| <= |t.audit|
  { }

  lemma SpokenRow(s: Tables, t: Tables, text: string) returns (i: nat)
    requires Speaks(s, t, text) && LooksStruck(text)
    ensures |s.audit| <= i < |t.audit| && t.audit[i].detail == Given(text)
  {
    hide Voices;
    assert text != "";
    i :| |s.audit| <= i < |t.audit| && t.audit[i].detail == Given(text);
  }

  /** No invocation of the run that commits writes a text that looks struck. */
  ghost predicate NoneStrikes(s: Tables, events: seq<Event>)
    decreases |events|
  {
    events == []
    || (!(Apply(s, events[0]).Ok? && Strikes(s, events[0])) && NoneStrikes(Next(s, events[0]), events[1..]))
  }

  /** Over every run the dangling rows stay the same if and only if no committed
      invocation writes a text that looks struck. */
  lemma {:induction false} RunDangles(s: Tables, events: seq<Event>)
    requires Sound(s) && StatusesKnown(s)
    ensures DanglingRows(s.audit) <= DanglingRows(Run(s, events).audit)
    ensures DanglingRows(Run(s, events).audit) == DanglingRows(s.audit) <==> NoneStrikes(s, events)
    decreases |events|
  {
    hide Sound, StatusesKnown, DanglingRows, Apply, Strikes;
    if events != [] {
      var e := events[0];
      if Apply(s, e).Ok? {
        StepDangles(s, e);
        StepSound(s, e);
        StepSpeaks(s, e);
      }
      RunDangles(Next(s, e), events[1..]);
    }
  }

  /** From an empty database: `doctor` counts no dangling redaction if and only if no
      committed invocation wrote a text that looks struck. */
  lemma {:induction false} NoneDangling(events: seq<Event>)
    ensures DanglingRows(Run(EMPTY, events).audit) == {} <==> NoneStrikes(EMPTY, events)
    ensures (forall e | e in events :: !LooksStruck(CallerText(e.op))) ==>
              DanglingRows(Run(EMPTY, events).audit) == {}
  {
    hide Sound, StatusesKnown, Run, LooksStruck, CallerText;
    SoundInitially();
    assert StatusesKnown(EMPTY) by { KnownInitially(); }
    RunDangles(EMPTY, events);
    assert DanglingRows(EMPTY.audit) == {};
    if forall e | e in events :: !LooksStruck(CallerText(e.op)) { PlainRun(EMPTY, events); }
  }

  /** A text that looks struck is a tombstone or the words of a caller. */
  ghost predicate Free(audit: seq<AuditRow>) {
    forall i | 0 <= i < |audit| ::
      audit[i].detail.Given? || audit[i].detail.Tombstone? || Unbracketed(Redaction.Render(audit[i].detail))
  }

  lemma StepFree(s: Tables, e: Event)
    requires Sound(s) && StatusesKnown(s) && Free(s.audit)
    ensures Free(Next(s, e).audit)
  {
    hide Sound, StatusesKnown, Redaction.Render, Unbracketed, CallerText, Writes;
    if Apply(s, e).Ok? {
      StepSound(s, e);
      StepSpeaks(s, e);
      hide Next;
      assert Free(Next(s, e).audit) by { KeptFree(s, Next(s, e), CallerText(e.op)); }
    }
  }

  lemma KeptFree(s: Tables, t: Tables, text: string)
    requires TextKept(s, t) && Free(s.audit) && (t == s || Speaks(s, t, text))
    ensures Free(t.audit)
  {
    hide Redaction.Render, Unbracketed, Redaction.Marked;
    forall i | |s.audit| <= i < |t.audit|
      ensures t.audit[i].detail.Given? || t.audit[i].detail.Tombstone?
              || Unbracketed(Redaction.Render(t.audit[i].detail))
    {
      assert Voices(t.audit[i].detail, text);
    }
  }

  lemma {:induction false} RunFree(s: Tables, events: seq<Event>)
    requires Sound(s) && StatusesKnown(s) && Free(s.audit)
    ensures Free(Run(s, events).audit)
    decreases |events|
  {
    hide Sound, StatusesKnown, Apply, Free;
    if events != [] {
      var e := events[0];
      if Apply(s, e).Ok? {
        StepSound(s, e);
        StepSpeaks(s, e);
      }
      StepFree(s, e);
      RunFree(Next(s, e), events[1..]);
    }
  }

  /** Over every run, a ledger text that looks struck and is no tombstone is the words
      some caller supplied: no text the runtime composes can look struck. */
  lemma {:induction false} OnlyFreeTextLooksStruck(events: seq<Event>, i: nat)
    requires i < |Run(EMPTY, events).audit|
    requires LooksStruck(Redaction.Render(Run(EMPTY, events).audit[i].detail))
    ensures Run(EMPTY, events).audit[i].detail.Given? || Run(EMPTY, events).audit[i].detail.Tombstone?
  {
    hide Sound, StatusesKnown, Run, LooksStruck, Redaction.Render;
    SoundInitially();
    KnownInitially();
    RunFree(EMPTY, events);
    StruckMarked(Redaction.Render(Run(EMPTY, events).audit[i].detail));
  }

  lemma KnownInitially()
    ensures StatusesKnown(EMPTY)
  { }

  lemma {:induction false} PlainRun(s: Tables, events: seq<Event>)
    requires forall e | e in events :: !LooksStruck(CallerText(e.op))
    ensures NoneStrikes(s, events)
    decreases |events|
  {
    hide Apply, Next, LooksStruck, CallerText, Writes;
    if events != [] {
      assert events[0] in events;
      PlainRun(Next(s, events[0]), events[1..]);
    }
  }

  // --- free text can look struck ------------------------------------------

  lemma AgentRow(s: Tables, at: Moment)
    requires "a" !in s.agents && s.sessions == map[] && s.audit == []
    ensures var t := Next(s, Event(AgentAdd("a", map[], None), None, at));
      && "a" in t.agents && t.agents["a"].active && t.sessions == map[]
      && |t.audit| == 1 && t.audit[0].detail == Given("")
  {
    hide ChangeRows;
  }

  lemma SessionRow(s: Tables, at: Moment, harness: string)
    requires "a" in s.agents && s.agents["a"].active && s.sessions == map[]
    ensures var t := Next(s, Event(SessionStart("s", "a", harness), None, at));
      |t.audit| == |s.audit| + 1 && s.audit <= t.audit && t.audit[|s.audit|].detail == Given(harness)
  {
    hide ChangeRows;
  }

  /** A session whose harness text looks struck makes `doctor` report a dangling
      redaction that no one made. */
  lemma HarnessCanDangle(at: Moment)
    ensures var run := [Event(AgentAdd("a", map[], None), None, at),
                        Event(SessionStart("s", "a", "[redacted:1]"), None, at)];
      DanglingRows(Run(EMPTY, run).audit) == {1}
  {
    hide Linked, Attached, DanglingRows, LooksStruck, Next, Run;
    var first := Event(AgentAdd("a", map[], None), None, at);
    var second := Event(SessionStart("s", "a", "[redacted:1]"), None, at);
    AgentRow(EMPTY, at);
    SessionRow(Next(EMPTY, first), at, "[redacted:1]");
    RunOfTwo(EMPTY, first, second);
    SoundInitially();
    RunSound(EMPTY, [first, second]);
    DoctorCounts(Run(EMPTY, [first, second]));
    Looks();
  }

  lemma RunOfTwo(s: Tables, first: Event, second: Event)
    ensures Run(s, [first, second]) == Next(Next(s, first), second)
  {
    hide Next;
    assert [first, second][1..] == [second];
    assert [second][1..] == [];
    assert Run(Next(s, first), [second]) == Run(Next(Next(s, first), second), []);
  }

  lemma Looks()
    ensures LooksStruck("[redacted:1]") && !LooksStruck("")
  {
  }
}
