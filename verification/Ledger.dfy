/** `_db_helpers`: accountable principals, the audit append, and the shape every
    single-row transaction shares. */
module Ledger {
  import opened Records
  import Text

  // --- accountable principals ---------------------------------------------

  function RequireActor(s: Tables, actor: Id): Check {
    if actor !in s.agents then Stop(NotFound)
    else Need(s.agents[actor].active, InactiveActor)
  }

  function RequireSession(s: Tables, session: Id, actor: Id): Check {
    if session !in s.sessions || s.sessions[session].agent !in s.agents then Stop(NotFound)
    else if s.sessions[session].agent != actor then Stop(SessionActorMismatch)
    else if !s.sessions[session].active then Stop(InactiveSession)
    else Need(s.agents[s.sessions[session].agent].active, InactiveActor)
  }

  /** What `audit` checks before it writes. */
  function Accountable(s: Tables, actor: Id, session: Option<Id>): Check {
    match RequireActor(s, actor)
    case Stop(error) => Stop(error)
    case Pass => if session.None? then Pass else RequireSession(s, session.value, actor)
  }

  // --- the append ---------------------------------------------------------

  type Changes = map<Field, (string, string)>

  /** One call of `audit`. */
  datatype Entry = Entry(
    actor: Id, session: Option<Id>, action: Action, objectType: ObjectType, objectId: string,
    detail: Detail, changes: Changes)

  function RowOf(e: Entry, at: Seconds): AuditRow {
    AuditRow(e.actor, e.session, e.action, e.objectType, e.objectId, e.detail, at)
  }

  /** A session is seen whenever a write is attributed to it. */
  function Seen(sessions: map<Id, Session>, session: Option<Id>, at: Seconds): map<Id, Session> {
    if session.Some? && session.value in sessions
    then sessions[session.value := sessions[session.value].(lastSeen := at)]
    else sessions
  }

  /** The changed columns among those an edit selects, with both values. */
  function Changed(before: Columns, selected: Columns): Changes {
    map f | f in selected && Get(before, f) != selected[f] :: (Get(before, f), selected[f])
  }

  /** The change rows of one audit row, ordered by column name. */
  function ChangeRows(fields: seq<Field>, id: nat, e: Entry, at: Seconds): seq<ChangeRow> {
    if fields == [] then []
    else if fields[0] in e.changes then
      [ChangeRow(id, e.objectType, e.objectId, fields[0], e.changes[fields[0]].0,
                 e.changes[fields[0]].1, at)]
      + ChangeRows(fields[1..], id, e, at)
    else ChangeRows(fields[1..], id, e, at)
  }

  lemma {:induction false} NoChangeRows(fields: seq<Field>, id: nat, e: Entry, at: Seconds)
    requires e.changes == map[]
    ensures ChangeRows(fields, id, e, at) == []
    decreases |fields|
  {
    if fields != [] { NoChangeRows(fields[1..], id, e, at); }
  }

  function Appended(s: Tables, e: Entry, at: Seconds): Tables {
    s.(sessions := Seen(s.sessions, e.session, at),
       audit := s.audit + [RowOf(e, at)],
       changes := s.changes + ChangeRows(FIELDS, |s.audit| + 1, e, at))
  }

  /** `audit`: refused unless actor and session are active and belong together. */
  function Audited(s: Tables, clock: Clock, e: Entry): Result<Tables> {
    (:- Accountable(s, e.actor, e.session);
     Ok(Appended(s, e, Second(clock(|s.audit|)))))
  }

  // --- what some operations still write after their audit row -------------

  /** A new agent's read position starts at its own creation. */
  function CursorStarted(s: Tables, agent: Id): Tables {
    s.(cursors := s.cursors[agent := |s.audit|])
  }

  function AgentEdited(s: Tables, agent: Id, profile: Columns, active: Option<bool>, stamp: Seconds): Tables {
    if agent !in s.agents then s else
      var before := s.agents[agent];
      s.(agents := s.agents[agent := before.(
        profile := before.profile + profile,
        active := if active.Some? then active.value else before.active,
        updatedAt := stamp)])
  }

  /** The sessions once one of them has ended. */
  function Ended(sessions: map<Id, Session>, session: Id, at: Seconds): map<Id, Session> {
    if session in sessions
    then sessions[session := sessions[session].(active := false, lastSeen := at, endedAt := Some(at))]
    else sessions
  }

  function SessionClosed(s: Tables, session: Id, stamp: Seconds): Tables {
    s.(sessions := Ended(s.sessions, session, stamp))
  }

  const MARK := "[redacted:"

  /** `REDACTION_SENTINEL.format(id)`. */
  function Sentinel(redaction: nat): string { MARK + Text.Dec(redaction) + "]" }

  /** Change rows with the values of one audit row's rows replaced. */
  function Struck(changes: seq<ChangeRow>, auditId: nat, text: string): seq<ChangeRow> {
    seq(|changes|, i requires 0 <= i < |changes| =>
      if changes[i].auditId == auditId
      then changes[i].(oldValue := text, newValue := text) else changes[i])
  }

  /** One audit row's detail, and its change rows' values, replaced by the
      sentinel naming the row just appended. */
  function Tombstoned(s: Tables, auditId: nat): Tables {
    if !(1 <= auditId <= |s.audit|) then s else
      s.(audit := s.audit[auditId - 1 := s.audit[auditId - 1].(detail := Tombstone(|s.audit|))],
         changes := Struck(s.changes, auditId, Sentinel(|s.audit|)))
  }

  datatype Finish =
    | Nothing
    | StartCursor(agent: Id)
    | EditAgent(agent: Id, profile: Columns, active: Option<bool>, stamp: Seconds)
    | CloseSession(session: Id, stamp: Seconds)
    | Strike(auditId: nat)

  function Finished(s: Tables, finish: Finish): Tables {
    match finish
    case Nothing => s
    case StartCursor(agent) => CursorStarted(s, agent)
    case EditAgent(agent, profile, active, stamp) => AgentEdited(s, agent, profile, active, stamp)
    case CloseSession(session, stamp) => SessionClosed(s, session, stamp)
    case Strike(auditId) => Tombstoned(s, auditId)
  }

  function FinishedAgents(s: Tables, finish: Finish): map<Id, Agent> {
    if finish.EditAgent? then AgentEdited(s, finish.agent, finish.profile, finish.active, finish.stamp).agents
    else s.agents
  }

  lemma EditedFields(s: Tables, agent: Id, profile: Columns, active: Option<bool>, stamp: Seconds)
    ensures var t := AgentEdited(s, agent, profile, active, stamp); t == s.(agents := t.agents)
  { }

  lemma TombstonedFields(s: Tables, auditId: nat)
    ensures var t := Tombstoned(s, auditId);
      t == s.(audit := t.audit, changes := t.changes) && |t.audit| == |s.audit|
  {
    hide Struck, Sentinel;
  }

  /** Each finish writes one table, or strikes the ledger. */
  lemma FinishedFields(s: Tables, finish: Finish)
    ensures var t := Finished(s, finish);
      t == s.(agents := FinishedAgents(s, finish),
              sessions := if finish.CloseSession? then Ended(s.sessions, finish.session, finish.stamp) else s.sessions,
              cursors := if finish.StartCursor? then s.cursors[finish.agent := |s.audit|] else s.cursors,
              audit := if finish.Strike? then t.audit else s.audit,
              changes := if finish.Strike? then t.changes else s.changes)
      && |t.audit| == |s.audit|
  {
    hide Tombstoned, AgentEdited;
    match finish
    case Nothing =>
    case StartCursor(_) =>
    case EditAgent(agent, profile, active, stamp) => EditedFields(s, agent, profile, active, stamp);
    case CloseSession(_, _) =>
    case Strike(auditId) => TombstonedFields(s, auditId);
  }

  /** A transaction with one audit row: the tables before the row is appended, the
      row, and what is written after it. */
  datatype Draft = Draft(tables: Tables, entry: Entry, finish: Finish)

  function Commit(draft: Result<Draft>, clock: Clock): Result<Tables> {
    var d :- draft;
    var audited :- Audited(d.tables, clock, d.entry);
    Ok(Finished(audited, d.finish))
  }
}
