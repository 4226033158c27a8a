/** `doctor`'s search for edits made around the runtime never reports the runtime. */
module OutOfBand {
  import opened Records
  import opened Ledger
  import opened Protocol
  import opened Runs
  import opened Growth
  import opened History
  import opened Invariants
  import opened Tombstones
  import opened Dangling
  import Archiving = Archive
  import Redaction
  import Text

  /** A row whose `updated_at` postdates its last audit row, or that has none. */
  predicate EditedAround(s: Tables, kind: ObjectType, id: Id) {
    ViewOf(s, kind, id).Some?
    && forall i | 0 <= i < |s.audit| :: !Covers(s.audit[i], kind, id, ViewOf(s, kind, id).value.updatedAt)
  }

  ghost predicate NoneEditedAround(s: Tables) {
    forall kind, id :: !EditedAround(s, kind, id)
  }

  lemma RowsOnlyGrow(s: Tables, t: Tables, kind: ObjectType, id: Id)
    requires |s.audit| <= |t.audit| && forall i | 0 <= i < |s.audit| :: SameRow(s.audit[i], t.audit[i])
    requires !EditedAround(s, kind, id) && ViewOf(t, kind, id) == ViewOf(s, kind, id)
    ensures !EditedAround(t, kind, id)
  { }

  lemma CommitCovers(s: Tables, draft: Result<Draft>, m: Moment, kind: ObjectType, id: Id)
    requires Grounded(s, draft) && Commit(draft, m.clock).Ok? && draft.Ok?
    requires Faithful(s, draft.value, Second(m.stamp)) && Timely(m) && !EditedAround(s, kind, id)
    ensures !EditedAround(Commit(draft, m.clock).value, kind, id)
  {
    hide ViewOf, Commit, Grounded, Finished, EditedAround;
    var t := Commit(draft, m.clock).value;
    CommitRows(s, draft, m.clock);
    CommitViews(draft, m.clock, kind, id);
    if ViewOf(t, kind, id) == ViewOf(s, kind, id) {
      RowsOnlyGrow(s, t, kind, id);
    } else {
      SecondRises(m.stamp, m.clock(|s.audit|));
      NewRowCovers(t, |s.audit|, kind, id);
    }
  }

  lemma NewRowCovers(t: Tables, i: nat, kind: ObjectType, id: Id)
    requires i < |t.audit| && (ViewOf(t, kind, id).Some? ==>
                                 Covers(t.audit[i], kind, id, ViewOf(t, kind, id).value.updatedAt))
    ensures !EditedAround(t, kind, id)
  {
  }

  lemma ReapingCovers(s: Tables, r: Reaping, m: Moment, kind: ObjectType, id: Id)
    requires Timely(m) && !EditedAround(s, kind, id)
    ensures !EditedAround(Reaped(s, r, Second(m.stamp), m.clock), kind, id)
  {
    hide Reaped, ViewOf, EditedAround, Owned;
    var t := Reaped(s, r, Second(m.stamp), m.clock);
    ReapedViews(s, r, Second(m.stamp), m.clock, kind, id);
    if ViewOf(t, kind, id) == ViewOf(s, kind, id) {
      RowsOnlyGrow(s, t, kind, id);
    } else {
      ReapedCovers(s, r, m, id);
      var i :| |s.audit| <= i < |t.audit| && Covers(t.audit[i], kind, id, Second(m.stamp));
      NewRowCovers(t, i, kind, id);
    }
  }

  lemma {:induction false} ReapAllCovers(s: Tables, order: seq<Id>, actor: Id, reason: string,
                                         operator: Option<Id>, m: Moment, kind: ObjectType, id: Id)
    requires Timely(m) && !EditedAround(s, kind, id)
    requires ReapAll(s, order, actor, reason, operator, Second(m.stamp), m.clock).Ok?
    ensures !EditedAround(ReapAll(s, order, actor, reason, operator, Second(m.stamp), m.clock).value, kind, id)
    decreases |order|
  {
    hide Reaped, EditedAround, Accountable;
    if order != [] {
      var r := Reaping(order[0], actor, reason, operator, false);
      ReapingCovers(s, r, m, kind, id);
      ReapAllCovers(Reaped(s, r, Second(m.stamp), m.clock), order[1..], actor, reason, operator, m, kind, id);
    }
  }

  lemma TakeCovers(s: Tables, m: Moment, id: Id, agent: Id, session: Id, revision: int, reaped: Option<Id>,
                   kind: ObjectType, row: Id)
    requires Commit(TakeTask(s, m, id, agent, session, revision, reaped), m.clock).Ok?
    requires Timely(m) && !EditedAround(s, kind, row)
    ensures !EditedAround(Commit(TakeTask(s, m, id, agent, session, revision, reaped), m.clock).value, kind, row)
  {
    hide Faithful, Grounded, EditedAround;
    TakeGrounded(s, m, id, agent, session, revision, reaped);
    TakeFaithful(s, m, id, agent, session, revision, reaped);
    CommitCovers(s, TakeTask(s, m, id, agent, session, revision, reaped), m, kind, row);
  }

  lemma ClaimCovers(s: Tables, m: Moment, id: Id, agent: Id, session: Option<Id>, ifRevision: int,
                    kind: ObjectType, row: Id)
    requires ClaimTask(s, m, id, agent, session, ifRevision).Ok? && Timely(m) && !EditedAround(s, kind, row)
    ensures !EditedAround(ClaimTask(s, m, id, agent, session, ifRevision).value.tables, kind, row)
  {
    hide Reaped, Commit, TakeTask, Accountable, EditedAround;
    if s.tasks[id].revision == ifRevision {
      if s.tasks[id].status == InProgress {
        var holder := s.claims[id].session;
        var r := LeaseReaping(holder, agent, session.value);
        ReapingCovers(s, r, m, kind, row);
        TakeCovers(Reaped(s, r, Second(m.stamp), m.clock), m, id, agent, session.value, ifRevision + 1,
                   Some(holder), kind, row);
      } else {
        TakeCovers(s, m, id, agent, session.value, ifRevision, None, kind, row);
      }
    }
  }

  lemma RecoveriesCover(s: Tables, e: Event, kind: ObjectType, id: Id)
    requires (e.op.SessionRecover? || e.op.SessionSweep?) && Apply(s, e).Ok?
    requires Timely(e.at) && !EditedAround(s, kind, id)
    ensures !EditedAround(Apply(s, e).value, kind, id)
  {
    hide Reaped, ReapAll, Accountable, EditedAround, DraftOf, ClaimTask, Archiving.ArchiveRecords;
    match e.op
    case SessionRecover(x, actor, reason, staleAfter, force) =>
      ReapingCovers(s, Reaping(x, actor, reason, e.session, force), e.at, kind, id);
    case SessionSweep(actor, reason, staleAfter, limit) =>
      ReapAllCovers(s, Oldest(s, Candidates(s, StaleCutoff(e.at.lease, staleAfter), e.session), limit),
                    actor, reason, e.session, e.at, kind, id);
  }

  lemma ArchiveCovers(s: Tables, e: Event, kind: ObjectType, id: Id)
    requires e.op.ArchiveRun? && Apply(s, e).Ok? && !EditedAround(s, kind, id)
    ensures !EditedAround(Apply(s, e).value, kind, id)
  {
    hide Apply, ViewOf, EditedAround, Extends, DraftOf, RecoverSession, SweepSessions, ClaimTask;
    ArchiveViews(s, e, kind, id);
    ArchiveExtends(s, e);
    var t := Apply(s, e).value;
    if ViewOf(t, kind, id) == ViewOf(s, kind, id) {
      ExtendsRows(s, t);
      RowsOnlyGrow(s, t, kind, id);
    } else {
      assert !EditedAround(t, kind, id) by { AbsentIsFine(t, kind, id); }
    }
  }

  lemma AbsentIsFine(s: Tables, kind: ObjectType, id: Id)
    requires ViewOf(s, kind, id).None?
    ensures !EditedAround(s, kind, id)
  {
  }

  lemma StepCovers(s: Tables, e: Event, kind: ObjectType, id: Id)
    requires Timely(e.at) && !EditedAround(s, kind, id)
    ensures !EditedAround(Next(s, e), kind, id)
  {
    hide DraftOf, RecoverSession, SweepSessions, ClaimTask, Archiving.ArchiveRecords, Commit, Faithful, Grounded,
      EditedAround, Timely;
    if Apply(s, e).Ok? {
      if Drafted(e.op) {
        DraftedApply(s, e);
        CommitOk(DraftOf(s, e), e.at.clock);
        DraftGrounded(s, e);
        DraftFaithful(s, e);
        CommitCovers(s, DraftOf(s, e), e.at, kind, id);
      } else if e.op.ArchiveRun? {
        ArchiveCovers(s, e, kind, id);
      } else if e.op.TaskClaim? {
        ClaimCovers(s, e.at, e.op.id, e.op.agent, e.session, e.op.ifRevision, kind, id);
      } else {
        RecoveriesCover(s, e, kind, id);
      }
    }
  }

  /** With a clock that does not step back within an invocation, no run of runtime
      operations produces a finding. */
  lemma {:induction false} RunsAreNotFindings(s: Tables, events: seq<Event>)
    requires NoneEditedAround(s) && forall i | 0 <= i < |events| :: Timely(events[i].at)
    ensures NoneEditedAround(Run(s, events))
    decreases |events|
  {
    hide Next, EditedAround, Timely;
    if events != [] {
      forall kind, id ensures !EditedAround(Next(s, events[0]), kind, id) { StepCovers(s, events[0], kind, id); }
      RunsAreNotFindings(Next(s, events[0]), events[1..]);
    }
  }

  // --- the search ---------------------------------------------------------

  const MAX_DIAGNOSTIC_FINDINGS := 100
  const TABLES: seq<ObjectType> :=
    [TaskObject, AgentObject, DecisionObject, ArtifactObject, EscalationObject]

  function KeysOf(s: Tables, kind: ObjectType): set<Id> {
    match kind
    case AgentObject => s.agents.Keys
    case TaskObject => s.tasks.Keys
    case ArtifactObject => s.artifacts.Keys
    case DecisionObject => s.decisions.Keys
    case EscalationObject => s.escalations.Keys
    case _ => {}
  }

  function Offending(s: Tables, kind: ObjectType): set<Id> {
    set id | id in KeysOf(s, kind) && EditedAround(s, kind, id)
  }

  lemma OffendingIs(s: Tables, kind: ObjectType)
    ensures forall id :: id in Offending(s, kind) <==> EditedAround(s, kind, id)
  { }

  /** `out_of_band_edits`: table by table, in order of id, at most a hundred each. */
  method OutOfBandEdits(s: Tables) returns (findings: seq<(ObjectType, Id)>, count: nat, truncated: bool)
    ensures count == |findings|
    ensures forall f | f in findings :: EditedAround(s, f.0, f.1)
    ensures truncated <==> exists kind | kind in TABLES :: |Offending(s, kind)| > MAX_DIAGNOSTIC_FINDINGS
    ensures !truncated ==> forall kind, id | kind in TABLES && EditedAround(s, kind, id) :: (kind, id) in findings
    ensures findings == [] <==> NoneEditedAround(s)
  {
    hide EditedAround, KeysOf, Text.Ascending;
    findings, count, truncated := [], 0, false;
    for i := 0 to |TABLES|
      invariant count == |findings|
      invariant forall f | f in findings :: EditedAround(s, f.0, f.1)
      invariant truncated <==> exists j | 0 <= j < i :: |Offending(s, TABLES[j])| > MAX_DIAGNOSTIC_FINDINGS
      invariant !truncated ==>
        forall j, id | 0 <= j < i && EditedAround(s, TABLES[j], id) :: (TABLES[j], id) in findings
      invariant findings == [] <==> forall j | 0 <= j < i :: Offending(s, TABLES[j]) == {}
    {
      var kind := TABLES[i];
      OffendingIs(s, kind);
      var found := Text.Sorted(Offending(s, kind));
      if |found| > MAX_DIAGNOSTIC_FINDINGS {
        truncated := true;
        found := found[..MAX_DIAGNOSTIC_FINDINGS];
      }
      var rows := seq(|found|, k requires 0 <= k < |found| => (kind, found[k]));
      forall id | id in found ensures (kind, id) in rows {
        var k :| 0 <= k < |found| && found[k] == id;
        assert rows[k] == (kind, id);
      }
      count := count + |found|;
      findings := findings + rows;
    }
    NoneOffending(s);
  }

  lemma NoneOffending(s: Tables)
    ensures NoneEditedAround(s) <==> forall j | 0 <= j < |TABLES| :: Offending(s, TABLES[j]) == {}
  {
    hide EditedAround, KeysOf;
    if forall j | 0 <= j < |TABLES| :: Offending(s, TABLES[j]) == {} {
      forall kind, id ensures !EditedAround(s, kind, id) {
        OffendingIs(s, kind);
        if kind in TABLES {
          var j :| 0 <= j < |TABLES| && TABLES[j] == kind;
        } else {
          Elsewhere(s, kind, id);
        }
      }
    } else {
      var j :| 0 <= j < |TABLES| && Offending(s, TABLES[j]) != {};
      OffendingIs(s, TABLES[j]);
      var id :| id in Offending(s, TABLES[j]);
    }
  }

  lemma Elsewhere(s: Tables, kind: ObjectType, id: Id)
    requires kind !in TABLES
    ensures !EditedAround(s, kind, id)
  { }

  // --- everything `doctor` checks -----------------------------------------

  /** What `doctor` finds in a database that only the runtime has written: the
      coordination check passes, nothing is orphaned or edited around the runtime, and
      no redaction dangles, unless a committed invocation's caller wrote a text that
      looks struck; then, and only then, one does. */
  lemma {:induction false} DoctorFindsTheRuntimeSound(events: seq<Event>)
    requires forall i | 0 <= i < |events| :: Timely(events[i].at)
    ensures var s := Run(EMPTY, events);
      && CheckPasses(s) && OrphanRows(s) == {} && NoneEditedAround(s)
      && (DanglingRows(s.audit) == {} <==> NoneStrikes(EMPTY, events))
  {
    hide Run, Inv, Sound, NoneEditedAround, CheckPasses, OrphanRows, DanglingRows, NoneStrikes, Timely;
    var s := Run(EMPTY, events);
    InvInitially();
    RunKeeps(EMPTY, events);
    SoundInitially();
    RunSound(EMPTY, events);
    assert OrphanRows(s) == {} by { DoctorCounts(s); }
    NothingInitially();
    RunsAreNotFindings(EMPTY, events);
    NoneDangling(events);
  }

  lemma NothingInitially()
    ensures NoneEditedAround(EMPTY)
  {
  }
}
