/** Operation scopes: which connections and locks one operation added, and the audit
    ids it wrote. */
module Scopes {
  import opened Records

  /** A connection's identity while the object is alive, and its lock handle. */
  type Connection = nat
  type Handle = nat

  datatype Scope = Scope(connections: seq<Connection>, auditIds: seq<nat>)

  /** What one operation does; a scope may hold others. */
  datatype Program =
    | Open(hint: Connection)
    | Close(connection: Connection)
    | Note(auditId: nat)
    | Raise
    | Nested(body: seq<Program>)

  /** The connections a program closes by name. */
  function Closed(program: Program): set<Connection> {
    match program
    case Close(connection) => {connection}
    case Nested(body) => ClosedAll(body)
    case _ => {}
  }

  function ClosedAll(body: seq<Program>): set<Connection> {
    if body == [] then {} else Closed(body[0]) + ClosedAll(body[1..])
  }

  /** The audit ids a program writes, in order. */
  function Written(program: Program): seq<nat> {
    match program
    case Note(auditId) => [auditId]
    case Nested(body) => WrittenAll(body)
    case _ => []
  }

  function WrittenAll(body: seq<Program>): seq<nat> {
    if body == [] then [] else Written(body[0]) + WrittenAll(body[1..])
  }

  /** Between two moments nothing was added to the table but the connections `open`,
      and nothing was removed but what was closed by name. */
  ghost predicate KeptBut(before: map<Connection, Handle>, after: map<Connection, Handle>,
                          closed: set<Connection>, open: seq<Connection>)
  {
    && (forall c | c in after :: (c in before && after[c] == before[c]) || c in open)
    && (forall c | c in before && c !in closed :: c in after && after[c] == before[c] && c !in open)
  }

  lemma KeptJoin(a: map<Connection, Handle>, b: map<Connection, Handle>, c: map<Connection, Handle>,
                 first: set<Connection>, second: set<Connection>, added: seq<Connection>, more: seq<Connection>)
    requires KeptBut(a, b, first, added) && KeptBut(b, c, second, more)
    ensures KeptBut(a, c, first + second, added + more)
  { }

  function Members(connections: seq<Connection>): set<Connection> { set c | c in connections }

  lemma MembersNext(connections: seq<Connection>, i: nat)
    requires i < |connections|
    ensures Members(connections[..i + 1]) == Members(connections[..i]) + {connections[i]}
  { }

  predicate Listed(stack: seq<Scope>, c: Connection) {
    exists i | 0 <= i < |stack| :: c in stack[i].connections
  }

  /** The lock belongs to a connection in the table. */
  ghost predicate Owned(locks: map<Connection, Handle>, h: Handle) {
    exists c :: c in locks && locks[c] == h
  }

  lemma OwnedAdd(locks: map<Connection, Handle>, held: set<Handle>, c: Connection, h: Handle)
    requires c !in locks && forall x | x in held :: Owned(locks, x)
    ensures forall x | x in held + {h} :: Owned(locks[c := h], x)
  {
    var after := locks[c := h];
    forall x | x in held + {h} ensures Owned(after, x) {
      if x == h {
        assert c in after && after[c] == h;
      } else {
        var e :| e in locks && locks[e] == x;
        assert e in after && after[e] == x;
      }
    }
  }

  lemma OwnedRemove(locks: map<Connection, Handle>, held: set<Handle>, c: Connection)
    requires c in locks && forall x | x in held :: Owned(locks, x)
    ensures forall x | x in held - {locks[c]} :: Owned(locks - {c}, x)
  {
    forall x | x in held - {locks[c]} ensures Owned(locks - {c}, x) {
      var e :| e in locks && locks[e] == x;
      assert e in locks - {c} && (locks - {c})[e] == x;
    }
  }

  class LockTable {
    var locks: map<Connection, Handle>
    var held: set<Handle>
    var stack: seq<Scope>
    var nextConnection: Connection
    var nextHandle: Handle

    /** Every table entry has a lock of its own, held, and every held lock an entry;
        identities in use lie below the next ones. */
    ghost predicate Valid()
      reads this
    {
      && (forall c | c in locks :: locks[c] in held && c < nextConnection)
      && (forall h | h in held :: h < nextHandle)
      && (forall c, e | c in locks && e in locks && locks[c] == locks[e] :: c == e)
      && (forall h | h in held :: Owned(locks, h))
      && (forall c: Connection | Listed(stack, c) :: c < nextConnection)
    }

    constructor ()
      ensures Valid() && locks == map[] && held == {} && stack == []
    {
      locks, held, stack, nextConnection, nextHandle := map[], {}, [], 0, 0;
    }

    /** `connect`: a lock of its own, and a place in the active scope. The identity may
        be one used before, but never that of an object still listed in a scope. */
    method Connect(hint: Connection) returns (c: Connection)
      requires Valid()
      modifies this
      ensures Valid() && c !in old(locks) && !Listed(old(stack), c)
      ensures c in locks && locks == old(locks)[c := locks[c]]
      ensures locks[c] !in old(held) && held == old(held) + {locks[c]}
      ensures stack == if old(stack) == [] then []
                       else Extended(old(stack), [c], [])
    {
      hide Owned, Listed, Extended;
      c := if hint < nextConnection && hint !in locks && !Listed(stack, hint) then hint else nextConnection;
      if c == nextConnection { nextConnection := nextConnection + 1; }
      var h := nextHandle;
      nextHandle := nextHandle + 1;
      OwnedAdd(locks, held, c, h);
      locks, held := locks[c := h], held + {h};
      if stack != [] {
        TrackedLists(stack, c);
        stack := Extended(stack, [c], []);
      }
    }

    /** `close_connection`: releases the connection's own lock, once. */
    method Disconnect(c: Connection)
      requires Valid()
      modifies this`locks, this`held
      ensures Valid() && locks == old(locks) - {c}
      ensures held == if c in old(locks) then old(held) - {old(locks)[c]} else old(held)
    {
      if c in locks {
        OwnedRemove(locks, held, c);
        held := held - {locks[c]};
        locks := locks - {c};
      } else {
        assert locks - {c} == locks;
      }
    }

    method Enter()
      requires Valid()
      modifies this`stack
      ensures Valid() && stack == old(stack) + [Scope([], [])]
    {
      EnteredLists(stack);
      stack := stack + [Scope([], [])];
    }

    /** The end of a scope, whatever happened in it: every connection it added is
        closed, and what it wrote is reported to the scope around it. */
    method Leave()
      requires Valid() && stack != []
      modifies this`stack, this`locks, this`held
      ensures Valid()
      ensures var finished := old(stack)[|old(stack)| - 1];
        && locks == old(locks) - Members(finished.connections)
        && stack == RolledUp(old(stack))
    {
      var finished := stack[|stack| - 1];
      LeftLists(stack);
      stack := RolledUp(stack);
      for i := 0 to |finished.connections|
        invariant Valid() && stack == RolledUp(old(stack))
        invariant locks == old(locks) - Members(finished.connections[..i])
      {
        MembersNext(finished.connections, i);
        Disconnect(finished.connections[i]);
      }
      assert finished.connections[..|finished.connections|] == finished.connections;
    }

    /** One step of an operation; a failure inside a scope still leaves the scope.
        `added` are the connections the step lists in the active scope, `noted` the
        audit ids it writes. */
    method Perform(p: Program) returns (ok: bool, ghost added: seq<Connection>, ghost noted: seq<nat>)
      requires Valid() && stack != []
      modifies this
      ensures Valid() && stack == Extended(old(stack), added, noted)
      ensures KeptBut(old(locks), locks, Closed(p), added)
      ensures noted <= Written(p) && (ok ==> noted == Written(p))
      decreases p, 0
    {
      ok, added, noted := true, [], [];
      ExtendNothing(stack);
      match p
      case Open(hint) =>
        var c := Connect(hint);
        added := [c];
      case Close(c) =>
        Disconnect(c);
      case Note(auditId) =>
        NotedLists(stack, auditId);
        stack := Extended(stack, [], [auditId]);
        noted := [auditId];
      case Raise =>
        ok := false;
      case Nested(body) =>
        Enter();
        ghost var inner, written;
        ok, inner, written := PerformAll(body);
        NestedExtends(old(stack), inner, written);
        Leave();
        noted := written;
    }

    method PerformAll(body: seq<Program>) returns (ok: bool, ghost added: seq<Connection>, ghost noted: seq<nat>)
      requires Valid() && stack != []
      modifies this
      ensures Valid() && stack == Extended(old(stack), added, noted)
      ensures KeptBut(old(locks), locks, ClosedAll(body), added)
      ensures noted <= WrittenAll(body) && (ok ==> noted == WrittenAll(body))
      decreases body, 1
    {
      ok, added, noted := true, [], [];
      ExtendNothing(stack);
      if body != [] {
        ok, added, noted := Perform(body[0]);
        if ok {
          ghost var first, more, after := locks, [], [];
          ok, more, after := PerformAll(body[1..]);
          KeptJoin(old(locks), first, locks, Closed(body[0]), ClosedAll(body[1..]), added, more);
          ExtendJoin(old(stack), added, noted, more, after);
          added, noted := added + more, noted + after;
        }
      }
    }

    /** `invoke`: one operation in a scope of its own, and its receipt, the least and
        the greatest audit id it wrote. A failed operation has none. */
    method Invoke(body: seq<Program>) returns (ok: bool, receipt: Option<(nat, nat)>)
      requires Valid()
      modifies this
      ensures Valid() && |stack| == |old(stack)|
      ensures KeptBut(old(locks), locks, ClosedAll(body), [])
      ensures old(locks) == map[] ==> locks == map[] && held == {}
      ensures receipt == if ok && WrittenAll(body) != []
                         then Some((Least(WrittenAll(body)), Greatest(WrittenAll(body))))
                         else None
    {
      Enter();
      ghost var added, noted;
      ok, added, noted := PerformAll(body);
      var written := stack[|stack| - 1].auditIds;
      assert written == noted;
      receipt := if ok && written != [] then Some((Least(written), Greatest(written))) else None;
      Leave();
      if old(locks) == map[] {
        assert forall c :: c !in locks;
        assert forall h :: h in held ==> Owned(locks, h);
      }
    }
  }

  function Least(ids: seq<nat>): nat
    requires ids != []
  {
    if |ids| == 1 then ids[0] else
      var rest := Least(ids[1..]);
      if ids[0] < rest then ids[0] else rest
  }

  function Greatest(ids: seq<nat>): nat
    requires ids != []
  {
    if |ids| == 1 then ids[0] else
      var rest := Greatest(ids[1..]);
      if ids[0] > rest then ids[0] else rest
  }

  /** The ids of one transaction are contiguous, so the receipt is exactly their range. */
  lemma {:induction false} ReceiptIsTheRange(ids: seq<nat>, start: nat)
    requires ids != [] && forall i | 0 <= i < |ids| :: ids[i] == start + i
    ensures Least(ids) == start && Greatest(ids) == start + |ids| - 1
    ensures forall x: nat :: x in ids <==> Least(ids) <= x <= Greatest(ids)
    decreases |ids|
  {
    if |ids| > 1 { ReceiptIsTheRange(ids[1..], start + 1); }
    forall x: nat | start <= x < start + |ids| ensures x in ids { assert ids[x - start] == x; }
  }

  /** The active scope with more connections and audit ids. */
  function Extended(stack: seq<Scope>, added: seq<Connection>, noted: seq<nat>): (r: seq<Scope>)
    requires stack != []
    ensures |r| == |stack|
  {
    var top := stack[|stack| - 1];
    stack[..|stack| - 1] + [Scope(top.connections + added, top.auditIds + noted)]
  }

  lemma ExtendNothing(stack: seq<Scope>)
    requires stack != []
    ensures Extended(stack, [], []) == stack
  {
    var top := stack[|stack| - 1];
    assert top.connections + [] == top.connections && top.auditIds + [] == top.auditIds;
  }

  lemma ExtendJoin(stack: seq<Scope>, a: seq<Connection>, m: seq<nat>, b: seq<Connection>, n: seq<nat>)
    requires stack != []
    ensures Extended(Extended(stack, a, m), b, n) == Extended(stack, a + b, m + n)
  {
    var top := stack[|stack| - 1];
    assert (top.connections + a) + b == top.connections + (a + b);
    assert (top.auditIds + m) + n == top.auditIds + (m + n);
  }

  lemma NestedExtends(stack: seq<Scope>, added: seq<Connection>, noted: seq<nat>)
    requires stack != []
    ensures RolledUp(Extended(stack + [Scope([], [])], added, noted)) == Extended(stack, [], noted)
  {
    var top := stack[|stack| - 1];
    assert top.connections + [] == top.connections;
    assert [] + noted == noted;
  }

  lemma NotedLists(stack: seq<Scope>, auditId: nat)
    requires stack != []
    ensures forall c :: Listed(Extended(stack, [], [auditId]), c) <==> Listed(stack, c)
  {
    var r := Extended(stack, [], [auditId]);
    forall c ensures Listed(r, c) <==> Listed(stack, c) {
      if i :| 0 <= i < |stack| && c in stack[i].connections { assert c in r[i].connections; }
      if i :| 0 <= i < |r| && c in r[i].connections { assert c in stack[i].connections; }
    }
  }

  lemma EnteredLists(stack: seq<Scope>)
    ensures forall c :: Listed(stack + [Scope([], [])], c) <==> Listed(stack, c)
  {
    var r := stack + [Scope([], [])];
    forall c ensures Listed(r, c) <==> Listed(stack, c) {
      if i :| 0 <= i < |stack| && c in stack[i].connections { assert c in r[i].connections; }
      if i :| 0 <= i < |r| && c in r[i].connections { assert c in stack[i].connections; }
    }
  }

  /** The stack without its active scope, whose audit ids go to the one around it. */
  function RolledUp(stack: seq<Scope>): (r: seq<Scope>)
    requires stack != []
    ensures |r| == |stack| - 1
  {
    var n := |stack|;
    if n == 1 then []
    else
      var parent := stack[n - 2];
      stack[..n - 2] + [parent.(auditIds := parent.auditIds + stack[n - 1].auditIds)]
  }

  lemma LeftLists(stack: seq<Scope>)
    requires stack != []
    ensures forall c :: Listed(RolledUp(stack), c) ==> Listed(stack, c)
  { }

  lemma TrackedLists(stack: seq<Scope>, c: Connection)
    requires stack != []
    ensures forall e :: Listed(Extended(stack, [c], []), e) <==> Listed(stack, e) || e == c
  {
    var r := Extended(stack, [c], []);
    forall e ensures Listed(r, e) <==> Listed(stack, e) || e == c {
      if i :| 0 <= i < |stack| && e in stack[i].connections { assert e in r[i].connections; }
      if e == c { assert e in r[|r| - 1].connections; }
      if i :| 0 <= i < |r| && e in r[i].connections { assert e in stack[i].connections || e == c; }
    }
  }
}
