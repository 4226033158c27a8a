# Verified model of the coordination runtime

A Dafny 4.11 model of a multi-process coordination runtime over one SQLite database, with
proofs of what it is meant to guarantee. `dafny verify dfyconfig.toml` checks everything.

The model has four cores that share one abstract state, `Records.Tables`:

* **The claim, lease and revision protocol.** `Protocol` and `Correspondence` say what each
  operation commits, as a function of the state it starts from; `Runs` makes every mutating
  operation an event and a history a sequence of events. `Invariants` proves the coordination
  check inductive over all of them, `Safety`, `Leases`, `Growth` and `Sweep` prove whole-run
  safety. `Databases.Database` is the runtime's own form: a class over the tables whose
  methods check, loop, write and roll back in the code's order. Each is proved to follow the
  function, and `Service.Execute` proves that a run of methods is the run the theorems are
  about.
* **Failure-atomic maintenance.** `Volumes` models the files beside a database; every step can
  fail before its effect or be interrupted after it, and a ghost trace records every content
  the target's main file ever has. `Backups`, `Restores` and `Migrations` follow the code's
  stages, handlers and clean-ups over it; `ArchiveRuns` does the same for `archive`. `Locks`
  interleaves clients and maintenance over the advisory lock, `Maintenance` puts a restore and an
  archive into their exclusive sections, `Scopes` models operation scopes.
* **The ledger.** `Tombstones`, `Dangling`, `History`, `OutOfBand` and `ReadPositions` relate audit
  rows, redactions, change rows, read positions and the doctor checks; `Archive` and `ArchiveLaws`
  say what archival keeps.
* **The query text engine.** `TagFilter`, `Filters`, `Listing` and `Markdown`.

## Reading the model

* The audit row with id `k` is `audit[k - 1]`. Ledger texts are kept as structured `Detail`
  values and rendered by `Redaction.Render`, so free text is never confused with composed text.
* Clock readings are integers in microseconds, truncated to seconds where the code truncates.
  One invocation (`Moment`) has its own `now()`, the reading of `stale_cutoff`, and one reading
  for each audit row it appends; nothing orders them unless a theorem says so.
* SQLite is a set of maps. Triggers and constraints of `sqlite/schema.sql` are guards on the
  writes, `ON DELETE` clauses are part of the deletion. `depends_on_task_id` has no cascade.
* The form of the columns an operation takes (a profile, task content, an artifact edit) is a
  subset type; other parameter validation happens before an operation and is not modelled.

## Where the code and its documentation differ

The model follows the code.

* `docs/cli-contract.md:816-819` promises an idempotent replay for a retry of any claim. The
  code replays a claim only if the task was not in progress (`Safety.RetryAfterClaim`);
  `Leases.DisplacedEarly` is a claim whose retry is refused.
* `docs/cli-contract.md:830-832` says that a holder seen within the lease is never displaced.
  With both times truncated to seconds it can be displaced in the lease's last second
  (`Leases.DisplacedEarly`); `Leases.LeaseInWholeSeconds` says exactly when it is.
* `docs/cli-contract.md:1617-1619` says that no record outside the archived set depends on an
  archived task. The selection looks one dependency deep; where a longer chain pins a dependent,
  the foreign key refuses the deletion after the archive file is published
  (`ArchiveLaws.DeletableUnlessChained`, `ArchiveLaws.ChainIsRefused`).
* `docs/cli-contract.md:1316-1319` describes the dangling count as a sign of unattested
  redactions. A caller's words can raise it too (`Dangling.HarnessCanDangle`), exactly when they
  look struck (`Dangling.NoneDangling`).
* `docs/cli-contract.md:1312-1317` lets any ledger row be redacted once. A row whose words begin
  with `[redacted:` never can be (`Tombstones.RedactionCommits`, `Tombstones.MarkedStays`).

## Model

| member | source | states |
|---|---|---|
| `Invariants.CheckDecides` | coordination/_connections.py:160-246 | Where the foreign keys the check's JOINs rely on hold, `check_coordination_invariants` passes if and only if every in-progress task has its claim and every claim is on an in-progress task, each claim's session is active and belongs to the claim's active agent, a session is ended exactly when it has an end time and active ones belong to active agents, and done tasks have evidence |
| `Invariants.InvPassesCheck` | coordination/_connections.py:186-232 | The inductive invariant is enough for the check |
| `Invariants.StatusChangedKeeps` | coordination/entities/_tasks_status.py:46-146 | Every transition the gate lets through keeps the invariant: a task leaves `in_progress` with its claim and reaches `done` only with evidence |
| `Invariants.TaskAssignedKeeps` | coordination/entities/_tasks_assign.py:64-74 | Reassignment under its guards never takes the claim holder off the task |
| `Invariants.EditKeeps` | coordination/entities/agents.py:132-149 | Deactivating an agent keeps the invariant exactly because of the active-session guard |
| `Invariants.ReapedKeeps` | coordination/entities/_sessions_recovery.py:42-118 | The reaper keeps the invariant over all the tasks it blocks, unless its operator is the session it ends |
| `Invariants.ClaimTaskKeeps` | coordination/entities/_tasks_claim.py:33-154 | A claim keeps the invariant, also one that blocks many tasks of a silent session and then takes one |
| `Invariants.ArchiveKeeps` | coordination/entities/_maintenance_archive.py:175-194 | The deletion and its cascades keep the invariant whenever they commit |
| `Invariants.NextKeeps` | coordination/_db_helpers.py:42-60 | Each of the 28 mutating operations keeps the invariant, and a refused one leaves the state exactly as it was |
| `Invariants.RunKeeps` | coordination/_connections.py:186-232 | After every run from a state with the invariant, the invariant and the check both hold |
| `Safety.StepAdvances` | coordination/entities/_tasks_shared.py:14-20 | Any operation moves any task by exactly one revision or not at all, two only for the task a reaping claim takes; `done` is final; only `archive` removes tasks, done ones |
| `Safety.ClaimConsumes` | coordination/entities/_tasks_claim.py:122-164 | A committed claim observed the task's current revision, lands one revision on (two if it reaped), and leaves the claimant's claim on an in-progress task, as its receipt says |
| `Safety.MutationConsumes` | coordination/entities/_tasks_status.py:120-142 | A mutation carrying `--if-revision r` commits only at revision r and leaves a higher one |
| `Safety.NoLostUpdate` | coordination/entities/_tasks_assign.py:110-122 | Over any run in which the task stays, at most one mutation carrying a given observed revision commits |
| `Safety.RevisionsRise` | coordination/entities/_tasks_write.py:110-120 | Over any run a task's revision never falls and a done task stays done |
| `Safety.LeavesOnlyArchived` | coordination/entities/_maintenance_archive.py:180-182 | No run without `archive` removes a task |
| `Safety.RetryAfterClaim` | coordination/entities/_tasks_claim.py:47-71 | An immediate retry of a committed claim is answered as a replay that changes nothing exactly when the task was not in progress; a retry of a claim that displaced a holder is refused as stale |
| `Safety.ClaimCommits` | coordination/entities/_tasks_claim.py:33-121 | A claim commits if and only if agent and session are accountable, the revision is current, and the task is open or its holder is another, stale session |
| `Safety.SelfReapRefused` | coordination/entities/_tasks_claim.py:79-112 | A claimant whose own silent session holds the task is refused at the reaper's last audit, because that session has just been ended |
| `Leases.ClaimsAreLostOnlyBy` | coordination/entities/_tasks_claim.py:72-114 | In one step a claim disappears only by its own agent and session moving the task on, a forced recovery, or a reap of its stale session |
| `Leases.SessionsEndOnlyBy` | coordination/entities/_sessions_lifecycle.py:115-147 | In one step a session stays as it is but for being seen, or ends itself, or is reaped |
| `Leases.LostClaimHasCause` | coordination/entities/_sessions_recovery.py:121-173 | Over any run a claim is still held at the end, or some step had one of those causes while it was held |
| `Leases.LeaseInRealTime` | coordination/entities/_sessions_lifecycle.py:150-155 | Despite truncation to seconds on both sides, a session seen within the lease less one second is not stale and one silent for the whole lease is |
| `Leases.LeaseInWholeSeconds` | coordination/entities/_tasks_claim.py:72-114 | A claim by another, accountable session displaces a task's holder if and only if the holder's age, both times truncated to seconds, reaches the lease |
| `Leases.DisplacedEarly` | coordination/entities/_tasks_claim.py:52-114 | In a sound database a holder silent for less than the lease is displaced, and the claimant's immediate retry is refused |
| `Leases.LeaseHolds` | coordination/entities/_tasks_claim.py:72-114 | Without force, over any run within the lease less one second a seen session stays active and keeps every claim it does not release itself |
| `Leases.SilentIsReapable` | coordination/entities/_sessions_recovery.py:121-166 | A session silent for the full lease is recovered without force by exactly the accountable operators that do not act through that session |
| `Growth.StepExtends` | sqlite/schema.sql:306-349 | No operation removes a ledger row or changes anything of it but its text, and none attributes a row to a session that is not active |
| `Growth.RunExtends` | sqlite/schema.sql:306-349 | The same over whole runs |
| `Growth.EndedStaysOut` | coordination/_db_helpers.py:95-100 | An ended session never becomes active again and no later row is ever attributed to it |
| `Sweep.OldestAreFirst` | coordination/entities/_sessions_recovery.py:188-196 | The swept sessions are in order of last seen and id, and precede every candidate left out |
| `Sweep.ReapedEffect` | coordination/entities/_sessions_recovery.py:52-117 | The reaper blocks exactly the session's tasks with revision +1 and the reason appended to their notes, releases exactly their claims, ends exactly that session, and changes nothing else but the ledger |
| `Sweep.ReapAllEffect` | coordination/entities/_sessions_recovery.py:198-211 | Reaping several sessions one after another has that effect for all of them together, each task once |
| `Sweep.SweepCommits` | coordination/entities/_sessions_recovery.py:52-79 | A sweep commits if and only if its operator is accountable: the invariant-violation branches are unreachable |
| `Sweep.SweepEffect` | coordination/entities/_sessions_recovery.py:176-216 | A sweep ends exactly the first `limit` stale sessions other than the operator's, blocks exactly their tasks, changes no other task or session, and reports truncation if and only if more were stale |
| `Sweep.SweepProgress` | coordination/entities/_sessions_recovery.py:176-216 | At a fixed cutoff a sweep removes exactly what it swept from the candidates, so repeated sweeps terminate |
| `Sweep.SweepsLeaveNone` | coordination/entities/_sessions_recovery.py:176-216 | An accountable operator's sweeps at a fixed cutoff all commit, and once they may have swept as many sessions as were stale no candidate is left |
| `Tombstones.StepSound` | coordination/entities/_audit_write.py:20-58 | Every operation keeps the ledger linked: each tombstone names a strictly later redaction of its row, each redaction struck the row it names, and change rows are struck with their audit row; a row's text changes only into a tombstone |
| `Tombstones.RunSound` | coordination/entities/_audit_write.py:20-58 | The ledger stays linked over every run |
| `Tombstones.TombstonesStay` | coordination/entities/_audit_write.py:29-35 | A tombstone and the redaction it names are permanent, also once that redaction is itself redacted |
| `Tombstones.Trail` | coordination/entities/_audit_write.py:48-52 | Following tombstones from any row always ends at a row that is not struck, meeting strictly later rows, each a redaction of the one before |
| `Tombstones.DoctorCounts` | coordination/entities/diagnostics.py:68-88 | In a linked ledger there are no orphaned change rows, and the rows `doctor` counts as dangling are exactly the unstruck rows whose own text looks struck |
| `Dangling.StepDangles` | coordination/entities/diagnostics.py:75-87 | A committed operation never removes a dangling row, and adds one if and only if the words its caller supplied to open a row (harness, unforced reason, recipient, artifact uri, redaction reason, evidence's task) look struck and it writes them |
| `Dangling.RunDangles` | coordination/entities/diagnostics.py:75-87 | Over every run the dangling rows stay the same if and only if no committed invocation writes such words |
| `Dangling.NoneDangling` | coordination/entities/diagnostics.py:75-87 | From an empty database no redaction dangles if and only if no committed invocation writes such words, in particular when no caller's words look struck |
| `Tombstones.RedactionCommits` | coordination/entities/_audit_write.py:20-47 | A redaction commits if and only if its row exists, the row's text does not begin like a tombstone's, and actor and session are accountable |
| `Tombstones.MarkedStays` | coordination/entities/_audit_write.py:29-35 | A text that begins like a tombstone's, whoever wrote it, is never changed by any run, and every redaction of its row is refused |
| `Dangling.OnlyFreeTextLooksStruck` | coordination/entities/diagnostics.py:75-87 | Over every run a ledger text that looks struck is a tombstone or a caller's words: no text the runtime composes does, rulings included |
| `Dangling.HarnessCanDangle` | coordination/entities/_sessions_lifecycle.py:58-66 | Such text is possible: a session whose harness reads `[redacted:1]` makes the dangling count one with no redaction made |
| `Tombstones.SentinelReads` | coordination/entities/diagnostics.py:75-87 | The sentinel of a redaction matches the query's pattern and casts back to the redaction's id |
| `History.DraftFaithful` | coordination/_db_helpers.py:114-132 | A transaction touches no amendable row but the one its audit row names, and its change rows give the before and after value of every tracked column that changed and of no other |
| `History.RunReplays` | coordination/entities/_tasks_write.py:78-140 | Over any run that keeps the row and strikes none of the column's change rows, replaying them in order over the column's first value meets each old value and ends at its current value; for task content, agent profile and status, artifacts, decisions and escalations |
| `History.ChangesKept` | coordination/entities/_audit_write.py:48-56 | Over any run a change row keeps its values unless its audit row is struck |
| `History.RowsStay` | coordination/entities/_maintenance_archive.py:175-182 | No run removes an agent, artifact, decision or escalation, nor, without `archive`, a task |
| `History.ClaimsLeaveNoChangeRow` | coordination/entities/_tasks_claim.py:145-154 | Task status cannot be replayed: a claim moves a task into `in_progress` and writes no change row |
| `OutOfBand.RunsAreNotFindings` | coordination/entities/diagnostics.py:131-171 | If no audit row is stamped before the `now()` of its own invocation, no run of runtime operations leaves a row whose `updated_at` postdates its last audit row |
| `OutOfBand.OutOfBandEdits` | coordination/entities/diagnostics.py:131-171 | The search returns only such rows, all of them up to the bound per table, reports truncation exactly when a table has more, and is empty if and only if there is none |
| `OutOfBand.DoctorFindsTheRuntimeSound` | coordination/entities/diagnostics.py:54-113 | For every run from an empty database the coordination check passes and nothing is orphaned or edited around the runtime; the dangling count is zero if and only if no committed invocation's caller wrote words that look struck |
| `ReadPositions.RunForward` | coordination/entities/inbox.py:134-157 | Over every run each inbox cursor only moves forward and never passes the audit head |
| `ArchiveLaws.TasksMove` | coordination/entities/_maintenance_archive.py:69-98 | Archive is a move: live database and archive split the tasks, their evidence and their assignees, row for row |
| `ArchiveLaws.MessagesMove` | coordination/entities/_maintenance_archive.py:91-98 | They split the messages, of which only a task link across the split is cut |
| `ArchiveLaws.EdgesLost` | coordination/entities/_maintenance_archive_select.py:39-47 | A dependency edge is in neither exactly when an archived task depended on a live one; every edge that leaves the live database belongs to a depending task done and past the cutoff |
| `ArchiveLaws.ArchiveIsClosed` | coordination/entities/_maintenance_archive.py:66-107 | The archive satisfies the whole coordination invariant: referentially closed, every task done and with its evidence |
| `ArchiveLaws.ArchiveCommits` | coordination/entities/_maintenance_archive.py:120-207 | A run commits if and only if it is confirmed by an active actor and selects nothing, or its audit is accountable and no dependency edge leads from a task that stays to one that goes |
| `ArchiveLaws.DeletableUnlessChained` | sqlite/schema.sql:87-96 | That last condition fails exactly when a selected task has a settled dependent that an unsettled task depends on in turn |
| `ArchiveLaws.ChainIsRefused` | coordination/entities/_maintenance_archive_select.py:34-50 | A sound database with such a chain, of which every archive run that reaches the tasks is refused |
| `ArchiveLaws.LedgerGainsOneRow` | coordination/entities/_maintenance_archive.py:183-194 | A run that removes something appends exactly its own audit row |
| `ArchiveLaws.InboxesUnchanged` | coordination/entities/inbox.py:100-121 | Archiving changes no active agent's inbox but for links to the tasks removed |
| `ArchiveLaws.SecondRunSelectsNothing` | coordination/entities/_maintenance_archive_select.py:34-81 | A second run at the same cutoff selects nothing and changes nothing |
| `ArchiveRuns.Vault.BuildCopy` | coordination/entities/_maintenance_archive.py:66-100 | The copying statements leave exactly the archive's tables in the temporary file |
| `ArchiveRuns.Vault.PublishArchive` | coordination/entities/_maintenance_archive.py:44-117 | Whatever step fails, the set of archive files is as before or has the one whole, checked archive more |
| `ArchiveRuns.Vault.Delete` | coordination/entities/_maintenance_archive.py:175-194 | The deletion either commits as specified or leaves the live database as it was, with the constraint or audit refusal as its error |
| `ArchiveRuns.Vault.Run` | coordination/entities/_maintenance_archive.py:120-207 | At every failure point each task and message is in the live database or in a published archive; success and refusal agree with the specification, and a run of which no step fails does not fail |
| `Databases.Database.RequireActiveActor` | coordination/_db_helpers.py:139-167 | Decides the accountable-actor check |
| `Databases.Database.RequireActiveSession` | coordination/_db_helpers.py:170-209 | Decides the accountable-session check, its refusals in the code's order |
| `Databases.Database.WriteChanges` | coordination/_db_helpers.py:114-132 | The loop appends the change rows of the changed columns in the order of their names |
| `Databases.Database.Audit` | coordination/_db_helpers.py:83-136 | `audit` is refused exactly when actor and session are not accountable, then changing nothing; otherwise it sees the session and appends one row with its change rows, and records its id in the scope |
| `Databases.Database.AuditOrUndo` | coordination/_db_helpers.py:42-60 | A transaction's final audit commits the tables with its row, or rolls everything back |
| `Databases.Database.AddAgent` | coordination/entities/agents.py:29-65 | Refines `Protocol.AddAgent`, the inbox cursor starting at the agent's own creation; leaves no trace when refused |
| `Databases.Database.ActiveSessionExists` | coordination/entities/agents.py:132-149 | The deactivation guard's search finds an active session exactly when the agent has one |
| `Databases.Database.UpdateAgent` | coordination/entities/agents.py:90-181 | Refines `Protocol.UpdateAgent`; leaves no trace when refused |
| `Databases.Database.StartSession` | coordination/entities/_sessions_lifecycle.py:48-73 | Refines `Protocol.StartSession`; leaves no trace when refused |
| `Databases.Database.BeatSession` | coordination/entities/_sessions_lifecycle.py:101-112 | Refines `Protocol.BeatSession`; leaves no trace when refused |
| `Databases.Database.EndSession` | coordination/entities/_sessions_lifecycle.py:115-147 | Refines `Protocol.EndSession`: refused while the session holds any claim; leaves no trace when refused |
| `Databases.Database.AddEvidence` | coordination/entities/evidence.py:30-54 | Refines `Protocol.AddEvidence`; leaves no trace when refused |
| `Databases.RequireUnique` | coordination/_validators.py:153-167 | The loop over the two sets refuses exactly the lists with a repetition |
| `Databases.Database.CreateTask` | coordination/entities/_tasks_write.py:25-75 | Refines `Protocol.CreateTask`; leaves no trace when refused |
| `Databases.Database.RequireOwnership` | coordination/entities/_tasks_shared.py:80-121 | Decides the claim-ownership check |
| `Databases.Database.UpdateTask` | coordination/entities/_tasks_write.py:78-145 | Refines `Protocol.UpdateTask`; leaves no trace when refused |
| `Databases.Database.RequireAssignable` | coordination/entities/_tasks_assign.py:25-109 | Decides the assignment checks, their refusals in the code's order but with the no-change check before the writes it undoes |
| `Databases.Database.AssignTask` | coordination/entities/_tasks_assign.py:25-146 | Refines `Protocol.AssignTask`: the add and remove loops leave old plus added minus removed; leaves no trace when refused |
| `Databases.Database.RequireAllowed` | coordination/entities/_tasks_status.py:46-119 | Decides the transition gate together with the evidence trigger |
| `Databases.Database.ChangeStatus` | coordination/entities/_tasks_status.py:25-173 | Refines `Protocol.ChangeStatus`; leaves no trace when refused |
| `Databases.Database.ReapTask` | coordination/entities/_sessions_recovery.py:52-102 | One round of the reaper's loop; the code's invariant-violation branch is shown unreachable |
| `Databases.Database.ReapSession` | coordination/entities/_sessions_recovery.py:22-118 | The reaper's loops refine `Protocol.Reap`, with each row's time and the rows in order of the tasks |
| `Databases.Database.RecoverSession` | coordination/entities/_sessions_recovery.py:121-173 | Refines `Protocol.RecoverSession`; leaves no trace when refused |
| `Databases.Database.SweepSessions` | coordination/entities/_sessions_recovery.py:176-216 | Refines `Protocol.SweepSessions`, its report included; leaves no trace when refused |
| `Databases.Database.ReapHolder` | coordination/entities/_tasks_claim.py:72-114 | The lease branch: a holder not silent long enough is never displaced |
| `Databases.Database.Take` | coordination/entities/_tasks_claim.py:122-154 | The claim insert under its triggers and the task update at the expected revision refine `Protocol.TakeTask` |
| `Databases.Database.ClaimTask` | coordination/entities/_tasks_claim.py:23-165 | Refines `Protocol.ClaimTask`, its receipt included; leaves no trace when refused |
| `Databases.Database.SendMessage` | coordination/entities/messages.py:33-66 | Refines `Correspondence.SendMessage`; leaves no trace when refused |
| `Databases.Database.RedactMessage` | coordination/entities/messages.py:94-134 | Refines `Correspondence.RedactMessage`; leaves no trace when refused |
| `Databases.Database.MarkRead` | coordination/entities/inbox.py:124-168 | Refines `Correspondence.MarkInboxRead`: the cursor never moves back nor past the head; leaves no trace when refused |
| `Databases.Database.StrikeChanges` | coordination/entities/_audit_write.py:53-56 | The in-place rewrite replaces both values of exactly the change rows of one audit row |
| `Databases.Database.RedactAudit` | coordination/entities/_audit_write.py:20-58 | Refines `Redaction.RedactAudit`; leaves no trace when refused |
| `Databases.Database.AddRecord` | coordination/entities/decisions.py:38-73 | Refines `Correspondence.AddRecord`, for decisions and escalations; leaves no trace when refused |
| `Databases.Database.AddArtifact` | coordination/entities/_artifacts_write.py:21-76 | Refines `Correspondence.AddArtifact` with its task links and reviewers; leaves no trace when refused |
| `Databases.Database.RequireExpected` | coordination/entities/_artifacts_write.py:79-102 | Decides the compare-and-swap on the status the caller saw |
| `Databases.Database.Amend` | coordination/entities/decisions.py:98-138 | The rewrite of a record under its checks, shared by the three kinds, refines `Correspondence.Amend`: a decision is written before its cause is looked up, the others after; leaves no trace when refused |
| `Databases.Database.SetArtifactStatus` | coordination/entities/_artifacts_write.py:105-141 | Refines `Correspondence.ArtifactStatus`; leaves no trace when refused |
| `Databases.Database.UpdateArtifact` | coordination/entities/_artifacts_write.py:144-197 | Refines `Correspondence.UpdateArtifact`; leaves no trace when refused |
| `Databases.Database.SetDecisionStatus` | coordination/entities/decisions.py:88-145 | Refines `Correspondence.DecisionStatus`; leaves no trace when refused |
| `Databases.Database.ResolveEscalation` | coordination/entities/escalations.py:89-143 | Refines `Correspondence.ResolveEscalation`; leaves no trace when refused |
| `Databases.Database.ArchiveRecords` | coordination/entities/_maintenance_archive.py:120-207 | Refines the live half of `Archive.ArchiveRecords`; leaves no trace when refused |
| `Service.Execute` | coordination/_service_core.py:112-188 | Every invocation, executed step by step, is one event of a run: the new tables are `Runs.Next` of the old, the invariant holds, and on success the scope lists exactly the ids of the rows appended |
| `Service.Invoke` | coordination/_service_core.py:140-202 | The receipt of a successful operation is exactly the range of the ids of the rows its event appended, none if it appended none; a failed one has no receipt |
| `Service.ExecuteAll` | coordination/_service_core.py:112-188 | Executing any list of invocations reaches the state the run theorems speak of, in which the coordination check passes |
| `Volumes.Volume.Write` | coordination/entities/_maintenance_backup.py:206-208 | A file written over time may be left partial, and touches no other file |
| `Volumes.Volume.Publish` | coordination/_output.py:56-76 | Without `force` an existing destination is never replaced; in every case the destination is only ever the old or the whole new file |
| `Volumes.UnharmedReads` | coordination/entities/_maintenance_restore_phases.py:126-135 | Folding sidecars into the main file on close changes neither what the database reads as nor whether it exists |
| `Backups.WriteVerifiedCopy` | coordination/entities/_maintenance_backup.py:51-71 | On success the copy is the source's logical content, healthy at its version, without sidecars; no other file is touched |
| `Backups.AtomicBackup` | coordination/entities/_maintenance_backup.py:74-137 | The destination is only ever as it was or a whole verified copy, and an existing one is not replaced without `force`; with a healthy source and no failing step it succeeds |
| `Backups.RawCopy` | coordination/entities/_maintenance_backup.py:196-210 | One file byte for byte, never over an existing one |
| `Backups.PreserveUnhealthy` | coordination/entities/_maintenance_backup.py:213-220 | On success the copy has the damaged database's bytes, sidecars included |
| `Restores.RecordedIsAcceptable` | coordination/entities/_maintenance_restore_support.py:94-121 | Auditing the restore in a healthy source leaves a healthy database that holds the record where the check looks for it |
| `Restores.Stage` | coordination/entities/_maintenance_restore_phases.py:37-66 | On success the staged file is the verified source with the restore recorded; on failure it is removed unless its removal, or the closing of the source, fails; the target is never touched |
| `Restores.Preserve` | coordination/entities/_maintenance_restore_phases.py:69-136 | The target is left unharmed; on success its content is in the safety copy, verified exactly when the target is healthy, and no session was active |
| `Restores.RollBack` | coordination/entities/_maintenance_restore_support.py:172-223 | Without an exception the target's files are those of the safety copy, sidecars included, or none where there was no target; a verified result is a healthy database; without a failing step it always succeeds |
| `Restores.PublishAndVerify` | coordination/entities/_maintenance_restore.py:88-111 | The staged file is gone exactly when the target's main file is the staged content, also when an interruption falls between the rename and the flag |
| `Restores.PublishOver` | coordination/entities/_maintenance_restore.py:76-134 | For every failing or interrupted step after staging: restored, unharmed with the staged file removed, or rolled back as reported; the main file is only ever the old, the folded old or the staged content |
| `Restores.Restore` | coordination/entities/_maintenance_restore.py:65-151 | The whole restore: on success the target is the recorded source and the safety copy reads as the old target; an unpublished failure leaves it unharmed; a successful rollback gives back its files, at most folded together, or their absence; with a restorable source and no failing step it restores |
| `Migrations.BackUp` | coordination/entities/_maintenance_migrate_prepare.py:119-153 | On success the backup is the logical content of the version-1 database |
| `Migrations.StageUpgrade` | coordination/entities/_maintenance_migrate_prepare.py:156-244 | On success the staged file holds every record of the source at version 2 with the migration recorded; on failure it is removed unless its removal fails |
| `Migrations.RollBackMigration` | coordination/entities/_maintenance_migrate.py:54-84 | Without an exception the target is the backup's file without sidecars, and the result says whether it is an intact version-1 database |
| `Migrations.Migrate` | coordination/entities/_maintenance_migrate.py:124-189 | For every failing or interrupted step: migrated with every record and a verified backup, unharmed, or reverted as reported; the main file is only ever the old, the folded old or the migrated content; a migratable target with no failing step is migrated |
| `Locks.RunGuarded` | coordination/_locking.py:75-111 | In every interleaving shared and exclusive holders exclude each other, and what the exclusive holder has read is what the database still holds |
| `Locks.NoCommitBetween` | coordination/entities/maintenance.py:96-116 | No client commit falls between the safety copy or selection and the publication or deletion under one lock |
| `Locks.SafetyCopyHasEveryCommit` | coordination/entities/maintenance.py:96-116 | What maintenance has read when it replaces the database is the database, and holds in order every client commit made since the last replacement before |
| `Locks.SelectionStands` | coordination/entities/_maintenance_archive.py:140-197 | An archive's selection is still the selection of the database it deletes from |
| `Maintenance.RestoreLocked` | coordination/entities/maintenance.py:96-102 | A restore in its exclusive section: after success the safety copy reads as the database with every client commit made since the last replacement, in order |
| `Maintenance.ArchiveLocked` | coordination/entities/_maintenance_archive.py:140-197 | An archive in its exclusive section that commits is one event of the run, right after the client commits made since the last replacement; a refused one leaves those commits as they were |
| `Scopes.LockTable.Connect` | coordination/_locking.py:148-155 | A connection gets a lock of its own and an identity no living connection has |
| `Scopes.LockTable.Disconnect` | coordination/_locking.py:139-145 | Closing releases the connection's own lock and no other, and a second close releases nothing |
| `Scopes.LockTable.Perform` | coordination/_locking.py:157-189 | Any program of nested scopes, opens, closes and failures leaves of what it opened only what its own scope still lists, and removes of what was there only what it closed by name; the audit ids roll up in order |
| `Scopes.LockTable.Invoke` | coordination/_service_core.py:140-202 | After an operation, failed or not, the lock table is as before it but for what it closed by name; a successful one's receipt is the least and greatest audit id it wrote |
| `Scopes.ReceiptIsTheRange` | coordination/_service_core.py:198-202 | For contiguous ids the receipt's range holds exactly those ids |
| `TagFilter.EscapedOnce` | coordination/entities/_tasks_read.py:34-36 | The three sequential replacements escape each special character once |
| `TagFilter.LikeLiteral` | coordination/entities/_tasks_read.py:34-36 | An escaped text matches itself up to ASCII case and nothing else, wildcards and backslashes included |
| `TagFilter.TagMatchesToken` | coordination/entities/_tasks_read.py:30-41 | For every stored text and every tag without a comma, the compiled predicate holds if and only if the tag equals, up to ASCII case, one comma-separated token of the text with its spaces and tabs removed |
| `TagFilter.AcceptedTagFilters` | coordination/_validators.py:92-99 | The same for every value the tag validator accepts |
| `Filters.ParsedIsValid` | coordination/entities/_descriptor_engine.py:64-130 | Whatever filter parses is valid for its column: operator, count and form of its values |
| `Filters.ParsePrinted` | coordination/entities/_descriptor_engine.py:64-103 | Parsing undoes printing for every valid filter, also when a text value holds `=`, `:` or `,` |
| `Filters.ParsedNumeral` | coordination/entities/_descriptor_engine.py:118-122 | The integer a filter prints parses back to itself |
| `Listing.CompileOrder` | coordination/entities/_descriptor_engine.py:176-188 | The loop keeps the first term of each column, qualified by the list query's alias, and ends with the qualified id, or fails with the first bad term's error |
| `Listing.QueryOptions` | coordination/entities/_descriptor_engine.py:148-189 | The loops compute the conditions, parameters and ordering specified, the first error first |
| `Listing.ConditionsSelect` | coordination/entities/_descriptor_engine.py:164-174 | Placeholders and parameters never fall out of step: the compiled conditions select exactly the rows that satisfy every filter |
| `Listing.DeduplicationKeepsOrder` | coordination/entities/_descriptor_engine.py:179-184 | Dropping repeated columns leaves the comparison of any two rows unchanged, whatever their directions |
| `Listing.CompiledIsTotal` | coordination/entities/_descriptor_engine.py:185-187 | On rows with distinct ids exactly one of two precedes the other, and the caller's terms, on qualified columns, decide wherever they can |
| `Listing.PrecedesTransitive` | coordination/entities/_descriptor_engine.py:176-188 | The comparison is transitive |
| `Listing.OrderingIsTotal` | coordination/entities/_tasks_read.py:51-56 | The compiled ordering and every list command's default (some columns and the id) tell any two rows of a table apart |
| `Listing.ListingExists` | coordination/entities/_descriptor_engine.py:148-189 | Rows any two of which an ordering tells apart have a listing in that ordering |
| `Listing.AnswerExists` | coordination/entities/_tasks_read.py:47-58 | Every list query has an answer: its selected rows, each once, in its ordering |
| `Listing.ListingIsUnique` | coordination/entities/_descriptor_engine.py:148-189 | They have at most one: an ordering with ties would admit several answers, this one only one |
| `Listing.PagesCoverListing` | coordination/entities/_tasks_read.py:47-59 | Pages read one after another by a query of their own, each cut from any admissible answer of the database, together hold exactly the rows that satisfy every filter, each once, in the compiled or the default ordering |
| `Markdown.EscapingIsReversible` | coordination/entities/_reports_shared.py:24-27 | Decoding the escaped form of any text gives back the whitespace-collapsed text |
| `Markdown.CollapsingKeepsWords` | coordination/entities/_reports_shared.py:25 | Collapsing keeps the words of the text and their order |
| `Markdown.EscapingIsSafe` | coordination/entities/_reports_shared.py:24-27 | The escaped form has no line break, no raw angle bracket and no unescaped special character |

## Left out

- The transports, CLI parsers, console and `register` functions: wiring without logic.
- SQLite itself, the schema comparison and the integrity pragmas: a database's health is the
  coordination check on its tables plus its schema version; the journal-mode header is not modelled.
- File permissions, `fsync`, symbolic and hard links, path resolution and discovery: a file step
  is a rename, link, unlink or write over a map from names to contents.
- Process death and power loss: steps fail or are interrupted, and the code's handlers run. An
  interruption between staging and the handler may leave the staged file; no clean-up is claimed there.
- What SQLite keeps in sidecars while a connection is open: only what remains after closing is
  modelled, folded into the main file or not.
- Waiting for locks: a refused acquisition is a process that does nothing.
- Columns no operation rewrites (an agent's responsibilities and the like, session model, message
  tags, dependency rationale), and the length checks the service repeats.
- The audit rows of `backup` and `export`, `init`, reports, list endpoints other than filtering,
  ordering, paging and tags, and `shape_tasks`, which only regroups rows it reads.
- 64-bit limits: revisions, cursors and row ids are unbounded; the cast of a longer digit run in a
  detail is its value. Digits other than ASCII ones, which `int()` and `\d` also accept, are not modelled.
- ISO timestamps are compared as integers: they have a fixed width and one time zone.
- Databases.Database.DeleteRecords: the cascades of the two DELETE statements are taken in one
  step, as the foreign keys make them; `ArchiveRuns.Vault.Delete` takes the statements one by one.
- Restores.Restore: does not claim that the staged file is removed when the step that removes it fails.
- Migrations.StageUpgrade: the creation of the new schema's objects and the row counts compared after
  it are the change of the database's version; its tables are carried over unchanged but for the record.
- TagFilter.AcceptedTagFilters: SQLite refuses a `LIKE` pattern of more than 50,000 bytes by default,
  which a tag near its limit of 65,536 characters exceeds; that limit is not modelled.
- The SELECT statements of a sweep and of the archive's selection are taken as one step each, with the
  rows and the order `Protocol.Oldest`, `Archive.EligibleTasks` and `Archive.EligibleMessages` define.
