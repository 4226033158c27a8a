/** `maintenance`: a restore or archive inside its exclusive section, among the clients
    of the database. */
module Maintenance {
  import opened Records
  import opened Runs
  import opened Locks
  import opened Volumes
  import ArchiveRuns
  import Restores

  /** The section in `w`'s run that ends with the replacement at `at`, which no other
      replacement precedes from `last` on. */
  ghost predicate Section(w: World, steps: seq<Step>, last: nat, at: nat) {
    && Guarded(w) && Possible(w, steps) && last <= at < |steps| && steps[at].Replace?
    && forall i | last <= i < at :: !steps[i].Replace?
  }

  /** The database a client finds before the section's replacement. */
  ghost function Guarding(w: World, steps: seq<Step>, at: nat): Tables
    requires at <= |steps|
  {
    Locks.Result(w, steps[..at]).database
  }

  /** A restore under the exclusive lock: once it has succeeded, its safety copy reads as
      the database with every client commit made since the last replacement, in order. */
  method RestoreLocked(d: Volume, i: Restores.Intent, ghost w: World, ghost steps: seq<Step>, ghost last: nat,
                       ghost at: nat) returns (outcome: Restores.Outcome)
    requires Absent(d.files, Safety) && Section(w, steps, last, at) && Logical(d.files, Target).Some?
    requires Logical(d.files, Target).value.tables == Guarding(w, steps, at)
    modifies d
    ensures outcome.Restored? ==>
      && Logical(d.files, Safety).Some?
      && Logical(d.files, Safety).value.tables == Run(Guarding(w, steps, last), Commits(steps[last..at]))
    ensures outcome.RolledBack? && outcome.succeeded ==> Restores.RolledBackTo(old(d.files), d.files)
    ensures outcome.Unpublished? ==> Unharmed(old(d.files), d.files)
  {
    hide Run, Locks.Result, Possible, Guarded, Commits, Restores.RolledBackTo, Unharmed;
    SafetyCopyHasEveryCommit(w, steps, last, at);
    outcome := Restores.Restore(d, i);
  }

  /** An archive run under the exclusive lock, if it commits, is one event after the client
      commits made since the last replacement: the runs of the protocol's theorems include it. */
  method ArchiveLocked(vault: ArchiveRuns.Vault, q: ArchiveRuns.Request, ghost w: World, ghost steps: seq<Step>,
                       ghost last: nat, ghost at: nat) returns (outcome: ArchiveRuns.Outcome)
    requires Section(w, steps, last, at) && vault.live == Guarding(w, steps, at)
    modifies vault
    ensures ArchiveRuns.NothingLost(old(vault.live), vault.live, vault.archives)
    ensures outcome.Archived? || outcome.NothingToArchive? ==>
      vault.live == Run(Guarding(w, steps, last), Commits(steps[last..at]) + [ArchiveEvent(q)])
    ensures outcome.Refused? ==> vault.live == Run(Guarding(w, steps, last), Commits(steps[last..at]))
  {
    hide Locks.Result, Possible, Guarded, Commits, ArchiveRuns.NothingLost, ArchiveRuns.Committed;
    SafetyCopyHasEveryCommit(w, steps, last, at);
    ArchiveIsEvent(Guarding(w, steps, at), q);
    EventAppends(Guarding(w, steps, last), Commits(steps[last..at]), ArchiveEvent(q));
    outcome := vault.Run(q);
  }

  function ArchiveEvent(q: ArchiveRuns.Request): Event {
    Event(ArchiveRun(q.days, q.actor, q.force, q.database, q.path), q.session, q.m)
  }

  lemma ArchiveIsEvent(s: Tables, q: ArchiveRuns.Request)
    ensures Apply(s, ArchiveEvent(q)) == ArchiveRuns.Committed(s, q)
  { }

  lemma {:induction false} EventAppends(s: Tables, events: seq<Event>, e: Event)
    ensures Run(s, events + [e]) == Next(Run(s, events), e)
  {
    hide Next;
    RunAppend(s, events, [e]);
    assert [e][1..] == [];
  }
}
