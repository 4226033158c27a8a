/** What the reaper does over several sessions, and what a sweep guarantees. */
module Sweep {
  import opened Records
  import opened Ledger
  import opened Protocol
  import Text

  // --- the order of the candidates ----------------------------------------

  /** Oldest first, without repetition. */
  ghost predicate SeenInOrder(s: Tables, order: seq<Id>) {
    forall i, j | 0 <= i < j < |order| :: SeenBefore(s, order[i], order[j])
  }

  /** `Oldest` is the first `limit` candidates: in order, and before every other. */
  lemma {:induction false} OldestAreFirst(s: Tables, ids: set<Id>, limit: nat)
    requires ids <= s.sessions.Keys
    ensures var order := Oldest(s, ids, limit);
      SeenInOrder(s, order) && forall x, y | x in order && y in ids && y !in order :: SeenBefore(s, x, y)
    decreases limit
  {
    if limit != 0 && ids != {} {
      var x := FirstSeen(s, ids);
      OldestAreFirst(s, ids - {x}, limit - 1);
      var rest := Oldest(s, ids - {x}, limit - 1);
      assert Oldest(s, ids, limit) == [x] + rest;
      forall y | y in rest ensures SeenBefore(s, x, y) {}
    }
  }

  lemma OrderedDistinct(s: Tables, order: seq<Id>)
    requires SeenInOrder(s, order)
    ensures Unique(order)
  {
    forall i, j | 0 <= i < j < |order| ensures order[i] != order[j] {
      assert SeenBefore(s, order[i], order[j]);
      if order[i] == order[j] { Text.BeforeAsymmetric(order[i], order[j]); }
    }
  }

  // --- the combined effect of the reaper ----------------------------------

  ghost predicate ClaimsHaveTasks(s: Tables) {
    forall t | t in s.claims :: t in s.tasks
  }

  /** The task belongs to one of the sessions being reaped. */
  predicate HeldBy(s: Tables, task: Id, sessions: seq<Id>) {
    task in s.claims && s.claims[task].session in sessions
  }

  /** The tasks after reaping `order`: exactly the held ones blocked, each once. */
  ghost predicate Blocks(s: Tables, t: Tables, order: seq<Id>, reason: string, stamp: Seconds) {
    && t.tasks.Keys == s.tasks.Keys
    && (forall x | x in s.tasks ::
          t.tasks[x] == if HeldBy(s, x, order) then BlockedTask(s.tasks[x], reason, stamp) else s.tasks[x])
  }

  /** The claims after: exactly the held ones released. */
  ghost predicate Releases(s: Tables, t: Tables, order: seq<Id>) {
    && (forall x :: x in t.claims <==> x in s.claims && s.claims[x].session !in order)
    && (forall x | x in t.claims :: t.claims[x] == s.claims[x])
  }

  /** The sessions after: exactly those in `order` ended; the operator was seen. */
  ghost predicate Ends(s: Tables, t: Tables, order: seq<Id>, operator: Option<Id>, stamp: Seconds) {
    && t.sessions.Keys == s.sessions.Keys
    && (forall x | x in s.sessions ::
          if x in order
          then t.sessions[x] == s.sessions[x].(active := false, lastSeen := stamp, endedAt := Some(stamp))
          else if operator == Some(x) then t.sessions[x].(lastSeen := s.sessions[x].lastSeen) == s.sessions[x]
          else t.sessions[x] == s.sessions[x])
  }

  /** Nothing else in the database changes but the ledger grows. */
  ghost predicate OthersKept(s: Tables, t: Tables) {
    && t == s.(tasks := t.tasks, claims := t.claims, sessions := t.sessions, audit := t.audit)
    && s.audit <= t.audit
  }

  lemma ReapedEffect(s: Tables, r: Reaping, stamp: Seconds, clock: Clock)
    requires ClaimsHaveTasks(s) && r.operator != Some(r.session)
    ensures var t := Reaped(s, r, stamp, clock);
      Blocks(s, t, [r.session], r.reason, stamp) && Releases(s, t, [r.session])
      && Ends(s, t, [r.session], r.operator, stamp) && OthersKept(s, t) && ClaimsHaveTasks(t)
  {
    hide ReapRows;
  }

  lemma BlocksCompose(s: Tables, mid: Tables, t: Tables, first: Id, rest: seq<Id>, reason: string,
                      stamp: Seconds)
    requires Blocks(s, mid, [first], reason, stamp) && Releases(s, mid, [first])
    requires Blocks(mid, t, rest, reason, stamp) && Releases(mid, t, rest)
    ensures Blocks(s, t, [first] + rest, reason, stamp) && Releases(s, t, [first] + rest)
  {
  }

  lemma EndsCompose(s: Tables, mid: Tables, t: Tables, first: Id, rest: seq<Id>, operator: Option<Id>,
                    stamp: Seconds)
    requires Ends(s, mid, [first], operator, stamp) && Ends(mid, t, rest, operator, stamp)
    requires operator != Some(first)
    ensures Ends(s, t, [first] + rest, operator, stamp)
  {
  }

  /** Reaping several sessions blocks exactly the tasks they hold, each by one
      revision, ends exactly those sessions, and changes nothing else. */
  lemma {:induction false} ReapAllEffect(s: Tables, order: seq<Id>, actor: Id, reason: string,
                                         operator: Option<Id>, stamp: Seconds, clock: Clock)
    requires ClaimsHaveTasks(s) && ReapAll(s, order, actor, reason, operator, stamp, clock).Ok?
    ensures var t := ReapAll(s, order, actor, reason, operator, stamp, clock).value;
      Blocks(s, t, order, reason, stamp) && Releases(s, t, order)
      && Ends(s, t, order, operator, stamp) && OthersKept(s, t)
    decreases |order|
  {
    if order != [] {
      hide Reaped, Blocks, Releases, Ends, ClaimsHaveTasks;
      var r := Reaping(order[0], actor, reason, operator, false);
      var mid := Reaped(s, r, stamp, clock);
      ReapedEffect(s, r, stamp, clock);
      ReapAllEffect(mid, order[1..], actor, reason, operator, stamp, clock);
      var t := ReapAll(mid, order[1..], actor, reason, operator, stamp, clock).value;
      assert [order[0]] + order[1..] == order;
      BlocksCompose(s, mid, t, order[0], order[1..], reason, stamp);
      EndsCompose(s, mid, t, order[0], order[1..], operator, stamp);
    }
  }

  // --- the sweep ----------------------------------------------------------

  lemma {:induction false} ReapAllCommits(s: Tables, order: seq<Id>, actor: Id, reason: string,
                                          operator: Option<Id>, stamp: Seconds, clock: Clock)
    requires ClaimsHaveTasks(s) && Accountable(s, actor, operator).Pass?
    requires forall x | x in order :: operator != Some(x)
    ensures ReapAll(s, order, actor, reason, operator, stamp, clock).Ok?
    decreases |order|
  {
    if order != [] {
      hide Reaped, Blocks, Releases, ClaimsHaveTasks;
      var r := Reaping(order[0], actor, reason, operator, false);
      ReapedEffect(s, r, stamp, clock);
      var mid := Reaped(s, r, stamp, clock);
      assert Accountable(mid, actor, operator).Pass?;
      ReapAllCommits(mid, order[1..], actor, reason, operator, stamp, clock);
    }
  }

  /** A sweep commits exactly when its operator is accountable: the branches that
      report a violated invariant are never taken. */
  lemma SweepCommits(s: Tables, m: Moment, actor: Id, reason: string, session: Option<Id>,
                     staleAfter: Seconds, limit: nat)
    requires ClaimsHaveTasks(s)
    ensures SweepSessions(s, m, actor, reason, session, staleAfter, limit).Ok?
            <==> Accountable(s, actor, session).Pass?
  {
    if Accountable(s, actor, session).Pass? {
      var candidates := Candidates(s, StaleCutoff(m.lease, staleAfter), session);
      ReapAllCommits(s, Oldest(s, candidates, limit), actor, reason, session, Second(m.stamp), m.clock);
    }
  }

  /** The whole effect of a committed sweep. */
  lemma SweepEffect(s: Tables, m: Moment, actor: Id, reason: string, session: Option<Id>,
                    staleAfter: Seconds, limit: nat)
    requires ClaimsHaveTasks(s) && SweepSessions(s, m, actor, reason, session, staleAfter, limit).Ok?
    ensures var swept := SweepSessions(s, m, actor, reason, session, staleAfter, limit).value;
      var candidates := Candidates(s, StaleCutoff(m.lease, staleAfter), session);
      && (forall x | x in swept.sessions :: x in candidates)
      && |swept.sessions| == (if limit < |candidates| then limit else |candidates|)
      && SeenInOrder(s, swept.sessions) && Unique(swept.sessions)
      && (forall x, y | x in swept.sessions && y in candidates && y !in swept.sessions :: SeenBefore(s, x, y))
      && (swept.truncated <==> exists y :: y in candidates && y !in swept.sessions)
      && Blocks(s, swept.tables, swept.sessions, reason, Second(m.stamp))
      && Releases(s, swept.tables, swept.sessions)
      && Ends(s, swept.tables, swept.sessions, session, Second(m.stamp))
      && OthersKept(s, swept.tables)
  {
    var swept := SweepSessions(s, m, actor, reason, session, staleAfter, limit).value;
    var candidates := Candidates(s, StaleCutoff(m.lease, staleAfter), session);
    OldestAreFirst(s, candidates, limit);
    OrderedDistinct(s, swept.sessions);
    LeftOver(candidates, swept.sessions);
    ReapAllEffect(s, swept.sessions, actor, reason, session, Second(m.stamp), m.clock);
  }

  lemma {:induction false} UniqueElements(order: seq<Id>)
    requires Unique(order)
    ensures |Elements(order)| == |order|
    decreases |order|
  {
    if order == [] {
      assert Elements(order) == {};
    } else {
      UniqueElements(order[1..]);
      assert Elements(order) == {order[0]} + Elements(order[1..]);
    }
  }

  lemma SubsetSize(a: set<Id>, b: set<Id>)
    requires a <= b
    ensures |a| <= |b| && |b - a| == |b| - |a|
  { }

  /** A list without repetition drawn from a set misses a member exactly when it is
      shorter. */
  lemma LeftOver(candidates: set<Id>, order: seq<Id>)
    requires Unique(order) && forall x | x in order :: x in candidates
    ensures |order| < |candidates| <==> exists y :: y in candidates && y !in order
  {
    UniqueElements(order);
    SubsetSize(Elements(order), candidates);
    if |order| < |candidates| {
      assert candidates - Elements(order) != {};
      var y :| y in candidates - Elements(order);
      assert y in candidates && y !in order;
    } else {
      assert candidates - Elements(order) == {};
      forall y | y in candidates ensures y in order {
        assert y !in candidates - Elements(order);
      }
    }
  }

  /** A sweep at a fixed cutoff removes exactly the sessions it swept from the
      candidates, so repeated sweeps terminate. */
  lemma SweepProgress(s: Tables, m: Moment, actor: Id, reason: string, session: Option<Id>,
                      staleAfter: Seconds, limit: nat)
    requires ClaimsHaveTasks(s) && SweepSessions(s, m, actor, reason, session, staleAfter, limit).Ok?
    ensures var swept := SweepSessions(s, m, actor, reason, session, staleAfter, limit).value;
      var cutoff := StaleCutoff(m.lease, staleAfter);
      && Candidates(swept.tables, cutoff, session) == Candidates(s, cutoff, session) - Elements(swept.sessions)
      && |Candidates(swept.tables, cutoff, session)| == |Candidates(s, cutoff, session)| - |swept.sessions|
      && (limit > 0 && Candidates(s, cutoff, session) != {} ==>
            |Candidates(swept.tables, cutoff, session)| < |Candidates(s, cutoff, session)|)
  {
    hide SweepSessions, Blocks, Releases, OthersKept;
    SweepEffect(s, m, actor, reason, session, staleAfter, limit);
    var swept := SweepSessions(s, m, actor, reason, session, staleAfter, limit).value;
    var cutoff := StaleCutoff(m.lease, staleAfter);
    var before, after := Candidates(s, cutoff, session), Candidates(swept.tables, cutoff, session);
    assert after == before - Elements(swept.sessions);
    UniqueElements(swept.sessions);
    SubsetSize(Elements(swept.sessions), before);
  }

  // --- repeated sweeps ----------------------------------------------------

  /** One sweep after another. */
  function Sweeps(s: Tables, moments: seq<Moment>, actor: Id, reason: string, session: Option<Id>,
                  staleAfter: Seconds, limit: nat): Result<Tables>
    decreases |moments|
  {
    if moments == [] then Ok(s) else
      var swept :- SweepSessions(s, moments[0], actor, reason, session, staleAfter, limit);
      Sweeps(swept.tables, moments[1..], actor, reason, session, staleAfter, limit)
  }

  /** A sweep leaves its operator accountable and every claim with its task. */
  lemma SweepKeepsOperator(s: Tables, m: Moment, actor: Id, reason: string, session: Option<Id>,
                           staleAfter: Seconds, limit: nat)
    requires ClaimsHaveTasks(s) && SweepSessions(s, m, actor, reason, session, staleAfter, limit).Ok?
    ensures var t := SweepSessions(s, m, actor, reason, session, staleAfter, limit).value.tables;
      ClaimsHaveTasks(t) && Accountable(t, actor, session).Pass?
  {
    hide SweepSessions;
    SweepCommits(s, m, actor, reason, session, staleAfter, limit);
    SweepEffect(s, m, actor, reason, session, staleAfter, limit);
  }

  /** An accountable operator's sweeps at a fixed cutoff all commit, and enough of them
      leave no stale session but the operator's own. */
  lemma {:induction false} SweepsLeaveNone(s: Tables, moments: seq<Moment>, actor: Id, reason: string,
                                           session: Option<Id>, staleAfter: Seconds, limit: nat, cutoff: Seconds)
    requires ClaimsHaveTasks(s) && Accountable(s, actor, session).Pass?
    requires forall i | 0 <= i < |moments| :: StaleCutoff(moments[i].lease, staleAfter) == cutoff
    requires |Candidates(s, cutoff, session)| <= |moments| * limit
    ensures Sweeps(s, moments, actor, reason, session, staleAfter, limit).Ok?
    ensures Candidates(Sweeps(s, moments, actor, reason, session, staleAfter, limit).value, cutoff, session) == {}
    decreases |moments|
  {
    hide SweepSessions, Candidates, Accountable, ClaimsHaveTasks, StaleCutoff;
    if moments != [] {
      var m := moments[0];
      SweepCommits(s, m, actor, reason, session, staleAfter, limit);
      SweepProgress(s, m, actor, reason, session, staleAfter, limit);
      SweepKeepsOperator(s, m, actor, reason, session, staleAfter, limit);
      SweepSize(s, m, actor, reason, session, staleAfter, limit);
      var next := SweepSessions(s, m, actor, reason, session, staleAfter, limit).value.tables;
      FewerLeft(|Candidates(s, cutoff, session)|, |moments|, limit);
      SweepsLeaveNone(next, moments[1..], actor, reason, session, staleAfter, limit, cutoff);
    }
  }

  lemma FewerLeft(count: nat, n: nat, limit: nat)
    requires n > 0 && count <= n * limit
    ensures (if limit < count then count - limit else 0) <= (n - 1) * limit
  {
    assert n * limit == (n - 1) * limit + limit;
  }

  lemma SweepSize(s: Tables, m: Moment, actor: Id, reason: string, session: Option<Id>, staleAfter: Seconds,
                  limit: nat)
    requires SweepSessions(s, m, actor, reason, session, staleAfter, limit).Ok?
    ensures var candidates := Candidates(s, StaleCutoff(m.lease, staleAfter), session);
      |SweepSessions(s, m, actor, reason, session, staleAfter, limit).value.sessions|
      == if limit < |candidates| then limit else |candidates|
  { }
}
