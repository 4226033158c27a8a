/** The advisory lock on the database file: ordinary clients hold it shared from
    connect to scope exit, maintenance holds it exclusively. */
module Locks {
  import opened Records
  import opened Runs
  import opened Archive

  /** A lock handle: every connection, and every exclusive section, opens its own. */
  type Handle = nat

  /** The lock, the database it guards, and what the exclusive holder has read of it
      for its safety copy or its selection. */
  datatype World = World(
    shared: set<Handle>, exclusive: Option<Handle>, database: Tables, observed: Option<Tables>)

  datatype Step =
    | Connect(client: Handle)
    | Commit(client: Handle, event: Event)
    | Disconnect(client: Handle)
    | Lock(holder: Handle)
    | Observe(holder: Handle)
    | Replace(holder: Handle, next: Tables)
    | Unlock(holder: Handle)

  /** `flock` with `LOCK_NB`: a shared lock is granted beside shared ones, an exclusive
      one beside none. A process that is refused waits or gives up, and does nothing. */
  predicate Enabled(w: World, step: Step) {
    match step
    case Connect(c) => w.exclusive.None? && c !in w.shared
    case Commit(c, _) => c in w.shared
    case Disconnect(c) => c in w.shared
    case Lock(h) => w.exclusive.None? && w.shared == {}
    case Observe(h) => w.exclusive == Some(h)
    case Replace(h, _) => w.exclusive == Some(h) && w.observed.Some?
    case Unlock(h) => w.exclusive == Some(h)
  }

  function After(w: World, step: Step): World {
    match step
    case Connect(c) => w.(shared := w.shared + {c})
    case Commit(_, event) => w.(database := Next(w.database, event))
    case Disconnect(c) => w.(shared := w.shared - {c})
    case Lock(h) => w.(exclusive := Some(h), observed := None)
    case Observe(_) => w.(observed := Some(w.database))
    case Replace(_, next) => w.(database := next, observed := None)
    case Unlock(_) => w.(exclusive := None, observed := None)
  }

  /** An interleaving of the processes' steps. */
  ghost predicate Possible(w: World, steps: seq<Step>)
    decreases |steps|
  {
    steps == [] || (Enabled(w, steps[0]) && Possible(After(w, steps[0]), steps[1..]))
  }

  function Result(w: World, steps: seq<Step>): World
    decreases |steps|
  {
    if steps == [] then w else Result(After(w, steps[0]), steps[1..])
  }

  /** Clients and maintenance exclude each other, and what maintenance has read is
      still what the database holds. */
  ghost predicate Guarded(w: World) {
    && (w.exclusive.Some? ==> w.shared == {})
    && (w.observed.Some? ==> w.exclusive.Some? && w.observed == Some(w.database))
  }

  lemma StepGuarded(w: World, step: Step)
    requires Guarded(w) && Enabled(w, step)
    ensures Guarded(After(w, step))
  {
  }

  lemma {:induction false} RunGuarded(w: World, steps: seq<Step>)
    requires Guarded(w) && Possible(w, steps)
    ensures Guarded(Result(w, steps))
    decreases |steps|
  {
    if steps != [] {
      StepGuarded(w, steps[0]);
      RunGuarded(After(w, steps[0]), steps[1..]);
    }
  }

  lemma {:induction false} PossibleSplits(w: World, steps: seq<Step>, i: nat)
    requires Possible(w, steps) && i <= |steps|
    ensures Possible(w, steps[..i]) && Possible(Result(w, steps[..i]), steps[i..])
    ensures Result(w, steps) == Result(Result(w, steps[..i]), steps[i..])
    decreases |steps|
  {
    if i == 0 {
      assert steps[..0] == [] && steps[0..] == steps;
    } else {
      assert steps[..i][1..] == steps[1..][..i - 1] && steps[i..] == steps[1..][i - 1..];
      PossibleSplits(After(w, steps[0]), steps[1..], i - 1);
    }
  }

  /** The client commits of a run, in order. */
  function Commits(steps: seq<Step>): seq<Event>
    decreases |steps|
  {
    if steps == [] then []
    else (if steps[0].Commit? then [steps[0].event] else []) + Commits(steps[1..])
  }

  /** While one holder keeps the lock no client commits, connects or closes. */
  lemma {:induction false} HolderIsAlone(w: World, steps: seq<Step>, holder: Handle)
    requires Guarded(w) && w.exclusive == Some(holder) && Possible(w, steps)
    requires forall i | 0 <= i < |steps| :: steps[i] != Unlock(holder)
    ensures Commits(steps) == [] && Result(w, steps).exclusive == Some(holder)
    ensures forall i | 0 <= i < |steps| ::
      steps[i] == Observe(holder) || (steps[i].Replace? && steps[i].holder == holder)
    decreases |steps|
  {
    if steps != [] {
      StepGuarded(w, steps[0]);
      HolderIsAlone(After(w, steps[0]), steps[1..], holder);
      forall i | 0 <= i < |steps|
        ensures steps[i] == Observe(holder) || (steps[i].Replace? && steps[i].holder == holder)
      {
        if i > 0 { assert steps[i] == steps[1..][i - 1]; }
      }
    }
  }

  lemma {:induction false} CommitsApply(w: World, steps: seq<Step>)
    requires forall i | 0 <= i < |steps| :: !steps[i].Replace?
    ensures Result(w, steps).database == Run(w.database, Commits(steps))
    decreases |steps|
  {
    hide Next;
    if steps != [] {
      CommitsApply(After(w, steps[0]), steps[1..]);
      assert !steps[0].Replace?;
      var rest := Commits(steps[1..]);
      if steps[0].Commit? {
        assert Commits(steps) == [steps[0].event] + rest;
        assert Commits(steps)[1..] == rest;
      } else {
        assert Commits(steps) == rest;
      }
    }
  }

  /** In every interleaving, what maintenance has read when it replaces the database
      holds, in order, every client commit made since the last replacement before. */
  lemma {:induction false} SafetyCopyHasEveryCommit(w: World, steps: seq<Step>, last: nat, at: nat)
    requires Guarded(w) && Possible(w, steps) && last <= at < |steps| && steps[at].Replace?
    requires forall i | last <= i < at :: !steps[i].Replace?
    ensures var before := Result(w, steps[..at]);
      && before.observed == Some(before.database)
      && before.database == Run(Result(w, steps[..last]).database, Commits(steps[last..at]))
  {
    hide Run;
    PossibleSplits(w, steps, at);
    RunGuarded(w, steps[..at]);
    PossibleSplits(w, steps[..at], last);
    assert steps[..at][..last] == steps[..last] && steps[..at][last..] == steps[last..at];
    CommitsApply(Result(w, steps[..last]), steps[last..at]);
    assert steps[at..][0] == steps[at];
  }

  /** Between the reading and the replacement under one lock no client commits. */
  lemma {:induction false} NoCommitBetween(w: World, steps: seq<Step>, read: nat, replaced: nat, holder: Handle)
    requires Guarded(w) && Possible(w, steps) && read < replaced < |steps|
    requires steps[read] == Observe(holder)
    requires steps[replaced].Replace? && steps[replaced].holder == holder
    requires forall i | read < i < replaced :: steps[i] != Unlock(holder)
    ensures Commits(steps[read..replaced]) == []
  {
    PossibleSplits(w, steps, read);
    var mid := Result(w, steps[..read]);
    RunGuarded(w, steps[..read]);
    PossibleSplits(mid, steps[read..], replaced - read);
    assert steps[read..][..replaced - read] == steps[read..replaced];
    assert steps[read..][0] == steps[read];
    HolderIsAlone(mid, steps[read..replaced], holder);
  }

  /** An archive's selection, made under the lock, is still the selection of the
      database it deletes from. */
  lemma {:induction false} SelectionStands(w: World, steps: seq<Step>, at: nat, cutoff: Seconds)
    requires Guarded(w) && Possible(w, steps) && at < |steps| && steps[at].Replace?
    ensures var before := Result(w, steps[..at]);
      before.observed.Some?
      && EligibleTasks(before.observed.value, cutoff) == EligibleTasks(before.database, cutoff)
      && EligibleMessages(before.observed.value, cutoff) == EligibleMessages(before.database, cutoff)
  {
    hide EligibleTasks, EligibleMessages;
    PossibleSplits(w, steps, at);
    RunGuarded(w, steps[..at]);
    assert steps[at..][0] == steps[at];
  }
}
