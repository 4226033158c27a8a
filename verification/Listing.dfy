/** `query_options`: the conditions, parameters and ordering of a list command, what
    they mean over rows, and the pages they produce. */
module Listing {
  import opened Records
  import opened Characters
  import opened Filters
  import Text

  // --- ordering terms -----------------------------------------------------

  datatype Term = Term(column: string, descending: bool)

  /** `COLUMN[:asc|desc]`. */
  function ParseOrder(d: Descriptor, raw: string): Result<Term> {
    var p := Partitioned(raw, ':');
    :- Need(p.head in d.orderable && (p.tail == "" || p.tail == "asc" || p.tail == "desc"), InvalidArguments);
    Ok(Term(p.head, p.tail == "desc"))
  }

  function ParseOrders(d: Descriptor, raws: seq<string>): Result<seq<Term>>
    decreases |raws|
  {
    if raws == [] then Ok([])
    else
      var front :- ParseOrders(d, raws[..|raws| - 1]);
      var last :- ParseOrder(d, raws[|raws| - 1]);
      Ok(front + [last])
  }

  /** The terms whose column has not occurred before. */
  function Deduplicated(terms: seq<Term>, seen: set<string>): seq<Term>
    decreases |terms|
  {
    if terms == [] then []
    else if terms[0].column in seen then Deduplicated(terms[1..], seen)
    else [terms[0]] + Deduplicated(terms[1..], seen + {terms[0].column})
  }

  function ColumnsOf(terms: seq<Term>): set<string> { set t | t in terms :: t.column }

  function Qualified(d: Descriptor, column: string): string {
    if d.prefix != "" then d.prefix + "." + column else column
  }

  function Qualify(d: Descriptor, terms: seq<Term>): seq<Term> {
    seq(|terms|, i requires 0 <= i < |terms| => terms[i].(column := Qualified(d, terms[i].column)))
  }

  /** The compiled ordering reads qualified columns and ends with the id, unless the
      caller ordered by it. */
  function Compiled(d: Descriptor, terms: seq<Term>): seq<Term> {
    Qualify(d, Deduplicated(terms, {}))
    + (if "id" in ColumnsOf(terms) then [] else [Term(Qualified(d, "id"), false)])
  }

  // --- conditions ---------------------------------------------------------

  /** One SQL condition: a qualified column, an operator and its placeholders. */
  datatype Condition = Condition(column: string, op: Operator, marks: nat)

  function ConditionOf(d: Descriptor, f: Filter): Condition {
    Condition(Qualified(d, f.column), f.op, |f.values|)
  }

  function ConditionsOf(d: Descriptor, filters: seq<Filter>): seq<Condition> {
    seq(|filters|, i requires 0 <= i < |filters| => ConditionOf(d, filters[i]))
  }

  function ParametersOf(filters: seq<Filter>): seq<Value>
    decreases |filters|
  {
    if filters == [] then [] else ParametersOf(filters[..|filters| - 1]) + filters[|filters| - 1].values
  }

  function ParseWheres(d: Descriptor, raws: seq<string>): Result<seq<Filter>>
    decreases |raws|
  {
    if raws == [] then Ok([])
    else
      var front :- ParseWheres(d, raws[..|raws| - 1]);
      var last :- ParseWhere(d, raws[|raws| - 1]);
      Ok(front + [last])
  }

  function WithSince(filters: seq<Filter>, since: Option<string>): Result<seq<Filter>> {
    if since.None? || since.value == "" then Ok(filters)
    else if IsTimestamp(since.value) then Ok(filters + [Filter("updated_at", Ge, [Words(since.value)])])
    else Err(InvalidArguments)
  }

  function AllFilters(d: Descriptor, raws: seq<string>, since: Option<string>): Result<seq<Filter>> {
    var filters :- ParseWheres(d, raws);
    WithSince(filters, since)
  }

  datatype Query = Query(conditions: seq<Condition>, parameters: seq<Value>, order: Option<seq<Term>>)

  /** What `query_options` returns. */
  function QueryOf(d: Descriptor, wheres: seq<string>, since: Option<string>, orders: seq<string>): Result<Query> {
    var filters :- AllFilters(d, wheres, since);
    var terms :- ParseOrders(d, orders);
    Ok(Query(ConditionsOf(d, filters), ParametersOf(filters),
             if orders == [] then None else Some(Compiled(d, terms))))
  }

  lemma {:induction false} OrderErrorStands(d: Descriptor, raws: seq<string>, i: nat)
    requires i <= |raws| && ParseOrders(d, raws[..i]).Err?
    ensures ParseOrders(d, raws) == ParseOrders(d, raws[..i])
    decreases |raws|
  {
    if i < |raws| {
      assert raws[..|raws| - 1][..i] == raws[..i];
      OrderErrorStands(d, raws[..|raws| - 1], i);
    } else {
      assert raws[..i] == raws;
    }
  }

  lemma {:induction false} DeduplicatedAppend(terms: seq<Term>, last: Term, seen: set<string>)
    ensures Deduplicated(terms + [last], seen)
            == Deduplicated(terms, seen)
               + (if last.column in seen + ColumnsOf(terms) then [] else [last])
    decreases |terms|
  {
    if terms == [] {
      assert terms + [last] == [last];
      assert ColumnsOf(terms) == {};
    } else {
      assert (terms + [last])[1..] == terms[1..] + [last];
      assert ColumnsOf(terms) == {terms[0].column} + ColumnsOf(terms[1..]);
      DeduplicatedAppend(terms[1..], last,
                         if terms[0].column in seen then seen else seen + {terms[0].column});
    }
  }

  lemma NothingDeduplicated(d: Descriptor)
    ensures Deduplicated([], {}) == [] && Qualify(d, []) == []
  { }

  lemma QualifyAppend(d: Descriptor, terms: seq<Term>, last: Term)
    ensures Qualify(d, terms + [last]) == Qualify(d, terms) + [Term(Qualified(d, last.column), last.descending)]
  { }

  /** The loop over the orderings. */
  method CompileOrder(d: Descriptor, raws: seq<string>) returns (r: Result<Option<seq<Term>>>)
    ensures r == match ParseOrders(d, raws)
                 case Err(error) => Err(error)
                 case Ok(terms) => Ok(if raws == [] then None else Some(Compiled(d, terms)))
  {
    if raws == [] { return Ok(None); }
    hide ParseOrder, Deduplicated, Qualify, Qualified;
    var parts: seq<Term>, seen: set<string> := [], {};
    NothingDeduplicated(d);
    assert raws[..0] == [];
    ghost var terms: seq<Term> := [];
    for i := 0 to |raws|
      invariant ParseOrders(d, raws[..i]) == Ok(terms)
      invariant seen == ColumnsOf(terms) && parts == Qualify(d, Deduplicated(terms, {}))
    {
      assert raws[..i + 1][..i] == raws[..i];
      var parsed := ParseOrder(d, raws[i]);
      if parsed.Err? {
        OrderErrorStands(d, raws, i + 1);
        return Err(parsed.error);
      }
      var term := parsed.value;
      DeduplicatedAppend(terms, term, {});
      QualifyAppend(d, Deduplicated(terms, {}), term);
      terms := terms + [term];
      if term.column !in seen {
        seen := seen + {term.column};
        parts := parts + [Term(Qualified(d, term.column), term.descending)];
      }
    }
    assert raws[..|raws|] == raws;
    if "id" !in seen { parts := parts + [Term(Qualified(d, "id"), false)]; }
    assert parts == Compiled(d, terms);
    return Ok(Some(parts));
  }

  lemma {:induction false} FilterErrorStands(d: Descriptor, raws: seq<string>, i: nat)
    requires i <= |raws| && ParseWheres(d, raws[..i]).Err?
    ensures ParseWheres(d, raws) == ParseWheres(d, raws[..i])
    decreases |raws|
  {
    hide ParseWhere;
    if i < |raws| {
      assert raws[..|raws| - 1][..i] == raws[..i];
      FilterErrorStands(d, raws[..|raws| - 1], i);
    } else {
      assert raws[..i] == raws;
    }
  }

  method ParseFilters(d: Descriptor, raws: seq<string>, since: Option<string>) returns (r: Result<seq<Filter>>)
    ensures r == AllFilters(d, raws, since)
  {
    var filters: seq<Filter> := [];
    assert raws[..0] == [];
    for i := 0 to |raws|
      invariant ParseWheres(d, raws[..i]) == Ok(filters)
    {
      assert raws[..i + 1][..i] == raws[..i];
      var parsed := ParseWhere(d, raws[i]);
      if parsed.Err? {
        FilterErrorStands(d, raws, i + 1);
        return Err(parsed.error);
      }
      filters := filters + [parsed.value];
    }
    assert raws[..|raws|] == raws;
    if since.Some? && since.value != "" {
      if !IsTimestamp(since.value) { return Err(InvalidArguments); }
      filters := filters + [Filter("updated_at", Ge, [Words(since.value)])];
    }
    return Ok(filters);
  }

  method QueryOptions(d: Descriptor, wheres: seq<string>, since: Option<string>, orders: seq<string>)
    returns (r: Result<Query>)
    ensures r == QueryOf(d, wheres, since, orders)
  {
    hide AllFilters, ParseOrders, Compiled;
    var parsed := ParseFilters(d, wheres, since);
    if parsed.Err? { return Err(parsed.error); }
    var filters := parsed.value;
    var conditions: seq<Condition>, parameters: seq<Value> := [], [];
    for i := 0 to |filters|
      invariant conditions == ConditionsOf(d, filters[..i]) && parameters == ParametersOf(filters[..i])
    {
      assert filters[..i + 1][..i] == filters[..i];
      conditions := conditions + [Condition(Qualified(d, filters[i].column), filters[i].op, |filters[i].values|)];
      parameters := parameters + filters[i].values;
    }
    assert filters[..|filters|] == filters;
    var order := CompileOrder(d, orders);
    if order.Err? { return Err(order.error); }
    return Ok(Query(conditions, parameters, order.value));
  }

  // --- what the conditions mean -------------------------------------------

  datatype Cell = Null | TextCell(text: string) | IntCell(number: int)

  /** A row, by qualified column; an absent column reads as NULL. */
  type Row = map<string, Cell>

  function At(row: Row, column: string): Cell { if column in row then row[column] else Null }

  function CellOf(v: Value): Cell { if v.Words? then TextCell(v.text) else IntCell(v.number) }

  /** The order SQLite sorts in: NULL, then integers, then text. */
  predicate Below(a: Cell, b: Cell) {
    match b
    case Null => false
    case IntCell(n) => a.Null? || (a.IntCell? && a.number < n)
    case TextCell(t) => !a.TextCell? || Text.Before(a.text, t)
  }

  /** A comparison with NULL is not true. */
  predicate Satisfies(cell: Cell, op: Operator, values: seq<Value>) {
    !cell.Null? && values != []
    && match op
       case Eq => cell == CellOf(values[0])
       case Ne => cell != CellOf(values[0])
       case Ge => !Below(cell, CellOf(values[0]))
       case Le => !Below(CellOf(values[0]), cell)
       case In => exists v | v in values :: cell == CellOf(v)
  }

  /** The conjunction of the conditions, each taking its placeholders' values in turn. */
  predicate Selected(conditions: seq<Condition>, parameters: seq<Value>, row: Row)
    decreases |conditions|
  {
    if conditions == [] then parameters == []
    else
      var n := conditions[0].marks;
      n <= |parameters|
      && Satisfies(At(row, conditions[0].column), conditions[0].op, parameters[..n])
      && Selected(conditions[1..], parameters[n..], row)
  }

  lemma {:induction false} ParametersFirst(filters: seq<Filter>)
    requires filters != []
    ensures ParametersOf(filters) == filters[0].values + ParametersOf(filters[1..])
    decreases |filters|
  {
    if |filters| > 1 {
      var front := filters[..|filters| - 1];
      ParametersFirst(front);
      assert front[1..] == filters[1..][..|filters| - 2];
    } else {
      assert filters[..0] == [];
    }
  }

  /** The compiled conditions and parameters select exactly the rows that satisfy
      every filter: placeholders and values never fall out of step. */
  lemma {:induction false} ConditionsSelect(d: Descriptor, filters: seq<Filter>, row: Row)
    ensures Selected(ConditionsOf(d, filters), ParametersOf(filters), row)
            <==> forall f | f in filters :: Satisfies(At(row, Qualified(d, f.column)), f.op, f.values)
    decreases |filters|
  {
    hide Satisfies, At;
    if filters != [] {
      ParametersFirst(filters);
      ConditionsSelect(d, filters[1..], row);
      var n := |filters[0].values|;
      var parameters := ParametersOf(filters);
      assert parameters[..n] == filters[0].values && parameters[n..] == ParametersOf(filters[1..]);
      assert ConditionsOf(d, filters)[1..] == ConditionsOf(d, filters[1..]);
      assert filters == [filters[0]] + filters[1..];
    }
  }

  // --- what the ordering means --------------------------------------------

  lemma BelowTotal(a: Cell, b: Cell)
    ensures a == b || Below(a, b) || Below(b, a)
    ensures !(Below(a, b) && Below(b, a)) && (a == b ==> !Below(a, b))
  {
    if a.TextCell? && b.TextCell? {
      Text.BeforeTotal(a.text, b.text);
      if Text.Before(a.text, b.text) { Text.BeforeAsymmetric(a.text, b.text); }
      if Text.Before(b.text, a.text) { Text.BeforeAsymmetric(b.text, a.text); }
    }
  }

  lemma BelowTransitive(a: Cell, b: Cell, c: Cell)
    requires Below(a, b) && Below(b, c)
    ensures Below(a, c)
  {
    if a.TextCell? && b.TextCell? && c.TextCell? { Text.BeforeTransitive(a.text, b.text, c.text); }
  }

  predicate TermBelow(t: Term, a: Row, b: Row) {
    if t.descending then Below(At(b, t.column), At(a, t.column)) else Below(At(a, t.column), At(b, t.column))
  }

  /** The lexicographic comparison of an ORDER BY list. */
  predicate Precedes(terms: seq<Term>, a: Row, b: Row)
    decreases |terms|
  {
    terms != []
    && (TermBelow(terms[0], a, b)
        || (At(a, terms[0].column) == At(b, terms[0].column) && Precedes(terms[1..], a, b)))
  }

  /** Dropping repeated columns leaves the comparison unchanged, whatever the
      directions of the repetitions. */
  lemma {:induction false} DeduplicationKeepsOrder(d: Descriptor, terms: seq<Term>, seen: set<string>, a: Row, b: Row)
    requires forall c | c in seen :: At(a, Qualified(d, c)) == At(b, Qualified(d, c))
    ensures Precedes(Qualify(d, Deduplicated(terms, seen)), a, b) <==> Precedes(Qualify(d, terms), a, b)
    decreases |terms|
  {
    hide At, Qualified;
    if terms != [] {
      var t, rest := terms[0], terms[1..];
      var column := Qualified(d, t.column);
      BelowTotal(At(a, column), At(b, column));
      assert Qualify(d, terms)[1..] == Qualify(d, rest);
      if t.column in seen {
        DeduplicationKeepsOrder(d, rest, seen, a, b);
      } else {
        var tail := Deduplicated(rest, seen + {t.column});
        assert Qualify(d, [t] + tail)[1..] == Qualify(d, tail);
        if At(a, column) == At(b, column) { DeduplicationKeepsOrder(d, rest, seen + {t.column}, a, b); }
      }
    }
  }

  lemma {:induction false} PrecedesAppend(terms: seq<Term>, last: Term, a: Row, b: Row)
    ensures Precedes(terms + [last], a, b)
            <==> Precedes(terms, a, b)
                 || ((forall t | t in terms :: At(a, t.column) == At(b, t.column)) && TermBelow(last, a, b))
    decreases |terms|
  {
    hide At, TermBelow;
    if terms == [] {
      assert terms + [last] == [last];
    } else {
      assert (terms + [last])[1..] == terms[1..] + [last];
      assert terms == [terms[0]] + terms[1..];
      PrecedesAppend(terms[1..], last, a, b);
      if At(a, terms[0].column) == At(b, terms[0].column) { EqualNotBelow(terms[0], a, b); }
    }
  }

  lemma EqualNotBelow(t: Term, a: Row, b: Row)
    requires At(a, t.column) == At(b, t.column)
    ensures !TermBelow(t, a, b)
  {
    BelowTotal(At(a, t.column), At(b, t.column));
  }

  lemma {:induction false} PrecedesAsymmetric(terms: seq<Term>, a: Row, b: Row)
    ensures !(Precedes(terms, a, b) && Precedes(terms, b, a))
    ensures !Precedes(terms, a, b) && !Precedes(terms, b, a)
            <==> forall t | t in terms :: At(a, t.column) == At(b, t.column)
    decreases |terms|
  {
    hide At;
    if terms != [] {
      BelowTotal(At(a, terms[0].column), At(b, terms[0].column));
      PrecedesAsymmetric(terms[1..], a, b);
      assert terms == [terms[0]] + terms[1..];
    }
  }

  lemma {:induction false} PrecedesTransitive(terms: seq<Term>, a: Row, b: Row, c: Row)
    requires Precedes(terms, a, b) && Precedes(terms, b, c)
    ensures Precedes(terms, a, c)
    decreases |terms|
  {
    var t := terms[0];
    var x, y, z := At(a, t.column), At(b, t.column), At(c, t.column);
    if x == y && y == z {
      EqualNotBelow(t, a, b);
      EqualNotBelow(t, b, c);
      PrecedesTransitive(terms[1..], a, b, c);
    } else if x != y && y != z {
      if t.descending { BelowTransitive(z, y, x); } else { BelowTransitive(x, y, z); }
    }
  }

  lemma {:induction false} IdDeduplicated(terms: seq<Term>, seen: set<string>)
    requires "id" in ColumnsOf(terms) && "id" !in seen
    ensures "id" in ColumnsOf(Deduplicated(terms, seen))
    decreases |terms|
  {
    var t := terms[0];
    if t.column == "id" {
      assert t in Deduplicated(terms, seen);
    } else {
      assert terms == [t] + terms[1..];
      assert "id" in ColumnsOf(terms[1..]);
      IdDeduplicated(terms[1..], if t.column in seen then seen else seen + {t.column});
      if t.column !in seen {
        var rest := Deduplicated(terms[1..], seen + {t.column});
        assert forall u | u in rest :: u in Deduplicated(terms, seen);
      }
    }
  }

  lemma QualifiedIn(d: Descriptor, terms: seq<Term>, column: string)
    requires column in ColumnsOf(terms)
    ensures Qualified(d, column) in ColumnsOf(Qualify(d, terms))
  {
    hide Qualified;
    var i :| 0 <= i < |terms| && terms[i].column == column;
    assert Qualify(d, terms)[i] in Qualify(d, terms);
  }

  lemma CompiledEndsWithId(d: Descriptor, terms: seq<Term>)
    ensures Qualified(d, "id") in ColumnsOf(Compiled(d, terms))
  {
    hide Qualified, Qualify, Deduplicated;
    if "id" in ColumnsOf(terms) {
      IdDeduplicated(terms, {});
      QualifiedIn(d, Deduplicated(terms, {}), "id");
      assert Compiled(d, terms) == Qualify(d, Deduplicated(terms, {}));
    } else {
      assert Term(Qualified(d, "id"), false) in Compiled(d, terms);
    }
  }

  /** An ordering that reads a column two rows differ in decides between them. */
  lemma Decides(terms: seq<Term>, column: string, a: Row, b: Row)
    requires column in ColumnsOf(terms) && At(a, column) != At(b, column)
    ensures Precedes(terms, a, b) <==> !Precedes(terms, b, a)
  {
    hide At, Precedes;
    PrecedesAsymmetric(terms, a, b);
    var t :| t in terms && t.column == column;
  }

  /** The compiled ordering is a strict total order on rows with distinct ids, and
      agrees with the caller's list wherever that list decides. */
  lemma CompiledIsTotal(d: Descriptor, terms: seq<Term>, a: Row, b: Row)
    requires At(a, Qualified(d, "id")) != At(b, Qualified(d, "id"))
    ensures Precedes(Compiled(d, terms), a, b) <==> !Precedes(Compiled(d, terms), b, a)
    ensures Precedes(Qualify(d, terms), a, b) ==> Precedes(Compiled(d, terms), a, b)
  {
    hide At, Precedes, Deduplicated, TermBelow, Qualified, Qualify;
    CompiledEndsWithId(d, terms);
    Decides(Compiled(d, terms), Qualified(d, "id"), a, b);
    DeduplicationKeepsOrder(d, terms, {}, a, b);
    if "id" in ColumnsOf(terms) {
      assert Compiled(d, terms) == Qualify(d, Deduplicated(terms, {}));
    } else {
      PrecedesAppend(Qualify(d, Deduplicated(terms, {})), Term(Qualified(d, "id"), false), a, b);
    }
  }

  // --- listings -----------------------------------------------------------

  /** Rows of a table whose primary key is the id. */
  ghost predicate Keyed(d: Descriptor, rows: set<Row>) {
    forall a, b | a in rows && b in rows && a != b :: At(a, Qualified(d, "id")) != At(b, Qualified(d, "id"))
  }

  /** The ordering of a list command: the compiled one, or the command's default,
      some leading columns and the id. */
  function OrderOf(d: Descriptor, q: Query, leading: seq<string>): seq<Term> {
    if q.order.Some? then q.order.value
    else Qualify(d, seq(|leading|, i requires 0 <= i < |leading| => Term(leading[i], false)) + [Term("id", false)])
  }

  /** Rows in strict order. */
  ghost predicate Listed(terms: seq<Term>, xs: seq<Row>) {
    forall i, j | 0 <= i < j < |xs| :: Precedes(terms, xs[i], xs[j])
  }

  /** What `ORDER BY` promises: each row once, none after a row it precedes. */
  ghost predicate Ordered(terms: seq<Term>, rows: set<Row>, xs: seq<Row>) {
    multiset(xs) == multiset(rows)
    && forall i, j | 0 <= i < j < |xs| :: !Precedes(terms, xs[j], xs[i])
  }

  /** The rows the conditions of a query select. */
  function Kept(q: Query, rows: set<Row>): set<Row> {
    set r | r in rows && Selected(q.conditions, q.parameters, r)
  }

  /** A result the database may answer a list query with before it cuts a page:
      its conditions select, its ordering arranges. */
  ghost predicate Answers(d: Descriptor, q: Query, leading: seq<string>, rows: set<Row>, xs: seq<Row>) {
    Ordered(OrderOf(d, q, leading), Kept(q, rows), xs)
  }

  /** The ordering tells any two of the rows apart. */
  ghost predicate Total(terms: seq<Term>, rows: set<Row>) {
    forall a, b | a in rows && b in rows && a != b :: Precedes(terms, a, b) <==> !Precedes(terms, b, a)
  }

  ghost predicate IsFirst(terms: seq<Term>, rows: set<Row>, x: Row) {
    x in rows && forall y | y in rows && y != x :: Precedes(terms, x, y)
  }

  lemma {:induction false} FirstExists(terms: seq<Term>, rows: set<Row>)
    requires rows != {} && Total(terms, rows)
    ensures exists x :: IsFirst(terms, rows, x)
    decreases |rows|
  {
    hide Precedes;
    var x :| x in rows;
    var rest := rows - {x};
    if rest == {} {
      assert rows == {x};
      assert IsFirst(terms, rows, x);
    } else {
      FirstExists(terms, rest);
      var y :| IsFirst(terms, rest, y);
      if Precedes(terms, x, y) {
        forall z | z in rest && z != y ensures Precedes(terms, x, z) { PrecedesTransitive(terms, x, y, z); }
        assert IsFirst(terms, rows, x);
      } else {
        assert IsFirst(terms, rows, y);
      }
    }
  }

  /** Rows any two of which the ordering tells apart can be listed. */
  lemma {:induction false} ListingExists(terms: seq<Term>, rows: set<Row>)
    requires Total(terms, rows)
    ensures exists xs :: Ordered(terms, rows, xs)
    decreases |rows|
  {
    hide Precedes;
    if rows == {} {
      assert Ordered(terms, rows, []);
    } else {
      FirstExists(terms, rows);
      var x :| IsFirst(terms, rows, x);
      ListingExists(terms, rows - {x});
      var rest :| Ordered(terms, rows - {x}, rest);
      var xs := [x] + rest;
      assert multiset(rows) == multiset(rows - {x}) + multiset{x};
      forall i, j | 0 <= i < j < |xs| ensures !Precedes(terms, xs[j], xs[i]) {
        assert xs[j] == rest[j - 1] && rest[j - 1] in multiset(rest);
        if i > 0 { assert xs[i] == rest[i - 1]; }
      }
      assert Ordered(terms, rows, xs);
    }
  }

  lemma NoneTwice(rows: set<Row>, xs: seq<Row>, i: nat, j: nat)
    requires multiset(xs) == multiset(rows) && i < j < |xs|
    ensures xs[i] != xs[j] && xs[i] in rows && xs[j] in rows
  {
    assert xs == xs[..j] + xs[j..];
    assert xs[i] == xs[..j][i] && xs[j] == xs[j..][0];
    assert multiset(xs) == multiset(xs[..j]) + multiset(xs[j..]);
    assert xs[i] in multiset(xs[..j]) && xs[j] in multiset(xs[j..]);
    assert xs[i] in multiset(xs) && xs[j] in multiset(xs);
  }

  lemma OrderedIsListed(terms: seq<Term>, rows: set<Row>, xs: seq<Row>)
    requires Total(terms, rows) && Ordered(terms, rows, xs)
    ensures Listed(terms, xs) && forall r :: r in xs <==> r in rows
  {
    hide Precedes;
    forall i, j | 0 <= i < j < |xs| ensures Precedes(terms, xs[i], xs[j]) { NoneTwice(rows, xs, i, j); }
    forall r ensures r in xs <==> r in rows { assert r in xs <==> r in multiset(xs); }
  }

  /** Rows any two of which the ordering tells apart have at most one listing. */
  lemma ListingIsUnique(terms: seq<Term>, rows: set<Row>, xs: seq<Row>, ys: seq<Row>)
    requires Total(terms, rows) && Ordered(terms, rows, xs) && Ordered(terms, rows, ys)
    ensures xs == ys
  {
    OrderedIsListed(terms, rows, xs);
    OrderedIsListed(terms, rows, ys);
    ListedAlike(terms, xs, ys);
  }

  lemma {:induction false} ListedAlike(terms: seq<Term>, xs: seq<Row>, ys: seq<Row>)
    requires Listed(terms, xs) && Listed(terms, ys) && forall r :: r in xs <==> r in ys
    ensures xs == ys
    decreases |xs|
  {
    hide Precedes;
    SameEmptiness(xs, ys);
    if xs != [] {
      FirstIsLeast(terms, xs, ys);
      forall r ensures r in xs[1..] <==> r in ys[1..] {
        NotAgain(terms, xs, r);
        NotAgain(terms, ys, r);
      }
      ListedAlike(terms, xs[1..], ys[1..]);
      assert xs == [xs[0]] + xs[1..] && ys == [ys[0]] + ys[1..];
    }
  }

  lemma SameEmptiness(xs: seq<Row>, ys: seq<Row>)
    requires forall r :: r in xs <==> r in ys
    ensures xs == [] <==> ys == []
  {
    if xs != [] { assert xs[0] in ys; }
    if ys != [] { assert ys[0] in xs; }
  }

  lemma FirstIsLeast(terms: seq<Term>, xs: seq<Row>, ys: seq<Row>)
    requires Listed(terms, xs) && Listed(terms, ys) && xs != [] && ys != []
    requires forall r :: r in xs <==> r in ys
    ensures xs[0] == ys[0]
  {
    assert xs[0] in ys && ys[0] in xs;
    var i :| 0 <= i < |ys| && ys[i] == xs[0];
    var j :| 0 <= j < |xs| && xs[j] == ys[0];
    if i > 0 && j > 0 { PrecedesAsymmetric(terms, xs[0], ys[0]); }
  }

  lemma NotAgain(terms: seq<Term>, xs: seq<Row>, r: Row)
    requires Listed(terms, xs) && xs != []
    ensures r in xs[1..] <==> r in xs && r != xs[0]
  {
    assert xs == [xs[0]] + xs[1..];
    if r in xs[1..] {
      var i :| 0 <= i < |xs[1..]| && xs[1..][i] == r;
      PrecedesAsymmetric(terms, xs[0], xs[i + 1]);
    }
  }

  // --- pages --------------------------------------------------------------

  /** `LIMIT limit OFFSET offset`. */
  function Page(xs: seq<Row>, limit: nat, offset: nat): seq<Row> {
    var start := if offset < |xs| then offset else |xs|;
    var stop := if start + limit < |xs| then start + limit else |xs|;
    xs[start..stop]
  }

  /** Successive pages, each cut from the answer of its own query. */
  function PageReads(answers: seq<seq<Row>>, limit: nat): seq<Row>
    decreases |answers|
  {
    if answers == [] then []
    else
      var n := |answers| - 1;
      PageReads(answers[..n], limit) + Page(answers[n], limit, n * limit)
  }

  function Cut(xs: seq<Row>, stop: nat): seq<Row> { xs[..if stop < |xs| then stop else |xs|] }

  lemma PageExtends(xs: seq<Row>, limit: nat, offset: nat)
    ensures Cut(xs, offset) + Page(xs, limit, offset) == Cut(xs, offset + limit)
  { }

  lemma {:induction false} PagesArePrefix(answers: seq<seq<Row>>, xs: seq<Row>, limit: nat)
    requires forall k | 0 <= k < |answers| :: answers[k] == xs
    ensures PageReads(answers, limit) == Cut(xs, |answers| * limit)
    decreases |answers|
  {
    hide Page, Cut;
    if answers == [] {
      assert Cut(xs, 0) == [] by { FirstCut(xs); }
    } else {
      var n := |answers| - 1;
      PagesArePrefix(answers[..n], xs, limit);
      assert (n + 1) * limit == n * limit + limit;
      PageExtends(xs, limit, n * limit);
    }
  }

  lemma FirstCut(xs: seq<Row>)
    ensures Cut(xs, 0) == []
  { }

  /** The rows that satisfy every filter of the command. */
  function Matching(d: Descriptor, filters: seq<Filter>, rows: set<Row>): set<Row> {
    set r | r in rows && forall f | f in filters :: Satisfies(At(r, Qualified(d, f.column)), f.op, f.values)
  }

  /** The compiled ordering and every default tell the rows of a table apart. */
  lemma OrderingIsTotal(d: Descriptor, wheres: seq<string>, since: Option<string>, orders: seq<string>,
                        leading: seq<string>, rows: set<Row>)
    requires Keyed(d, rows) && QueryOf(d, wheres, since, orders).Ok?
    ensures Total(OrderOf(d, QueryOf(d, wheres, since, orders).value, leading), rows)
  {
    hide At, Precedes, AllFilters, Qualified, Qualify, Compiled;
    var order := OrderOf(d, QueryOf(d, wheres, since, orders).value, leading);
    if orders != [] {
      CompiledEndsWithId(d, ParseOrders(d, orders).value);
    } else {
      var terms := seq(|leading|, i requires 0 <= i < |leading| => Term(leading[i], false)) + [Term("id", false)];
      assert Term("id", false) in terms;
      QualifiedIn(d, terms, "id");
    }
    forall a, b | a in rows && b in rows && a != b ensures Precedes(order, a, b) <==> !Precedes(order, b, a) {
      Decides(order, Qualified(d, "id"), a, b);
    }
  }

  lemma ConditionsMatch(d: Descriptor, wheres: seq<string>, since: Option<string>, orders: seq<string>,
                        rows: set<Row>)
    requires QueryOf(d, wheres, since, orders).Ok?
    ensures AllFilters(d, wheres, since).Ok?
    ensures var q := QueryOf(d, wheres, since, orders).value;
      Matching(d, AllFilters(d, wheres, since).value, rows) == Kept(q, rows)
  {
    hide At, AllFilters, Satisfies, Qualified, Selected, Compiled, ConditionsOf, ParametersOf;
    forall r | r in rows { ConditionsSelect(d, AllFilters(d, wheres, since).value, r); }
  }

  /** A list command, asked for one page after another with a query of its own for
      each, whatever admissible answer each query gets: together the pages hold
      exactly the rows that satisfy every filter, each once and in the ordering
      asked for. `rows` are the rows the command's own conditions leave it. */
  lemma PagesCoverListing(d: Descriptor, wheres: seq<string>, since: Option<string>, orders: seq<string>,
                          leading: seq<string>, rows: set<Row>, answers: seq<seq<Row>>, limit: nat)
    requires Keyed(d, rows) && QueryOf(d, wheres, since, orders).Ok?
    requires forall k | 0 <= k < |answers| ::
      Answers(d, QueryOf(d, wheres, since, orders).value, leading, rows, answers[k])
    requires |Matching(d, AllFilters(d, wheres, since).value, rows)| <= |answers| * limit
    ensures var q, pages := QueryOf(d, wheres, since, orders).value, PageReads(answers, limit);
      && multiset(pages) == multiset(Matching(d, AllFilters(d, wheres, since).value, rows))
      && Listed(OrderOf(d, q, leading), pages)
      && Answers(d, q, leading, rows, pages)
  {
    hide At, Precedes, AllFilters, OrderOf, PageReads, QueryOf, Satisfies, Selected;
    var q := QueryOf(d, wheres, since, orders).value;
    var order := OrderOf(d, q, leading);
    ConditionsMatch(d, wheres, since, orders, rows);
    var kept := Matching(d, AllFilters(d, wheres, since).value, rows);
    assert kept <= rows;
    OrderingIsTotal(d, wheres, since, orders, leading, kept);
    var xs: seq<Row>;
    if answers == [] {
      xs := [];
      assert kept == {};
    } else {
      xs := answers[0];
      forall k | 0 <= k < |answers| ensures answers[k] == xs { ListingIsUnique(order, kept, answers[k], xs); }
      assert |multiset(xs)| == |xs| && |multiset(kept)| == |kept|;
    }
    assert Ordered(order, kept, xs);
    OrderedIsListed(order, kept, xs);
    PagesArePrefix(answers, xs, limit);
    assert PageReads(answers, limit) == xs;
  }

  /** Every list command can be answered. */
  lemma AnswerExists(d: Descriptor, wheres: seq<string>, since: Option<string>, orders: seq<string>,
                     leading: seq<string>, rows: set<Row>)
    requires Keyed(d, rows) && QueryOf(d, wheres, since, orders).Ok?
    ensures exists xs :: Answers(d, QueryOf(d, wheres, since, orders).value, leading, rows, xs)
  {
    hide At, Precedes, AllFilters, OrderOf, QueryOf, Selected;
    var q := QueryOf(d, wheres, since, orders).value;
    var kept := Kept(q, rows);
    OrderingIsTotal(d, wheres, since, orders, leading, kept);
    ListingExists(OrderOf(d, q, leading), kept);
    var xs :| Ordered(OrderOf(d, q, leading), kept, xs);
    assert Answers(d, q, leading, rows, xs);
  }
}
