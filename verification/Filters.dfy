/** The `--where` filters of the list commands: `COLUMN:OP=VALUE`. */
module Filters {
  import opened Records
  import opened Characters
  import Text

  // --- descriptors --------------------------------------------------------

  datatype Kind = IdentifierKind | EnumKind | TextKind | IntKind | TimestampKind
  datatype Column = Column(kind: Kind, choices: seq<string>)

  /** What an entity may be filtered and ordered by. */
  datatype Descriptor = Descriptor(
    name: string, prefix: string, columns: map<string, Column>, orderable: seq<string>)

  datatype Operator = Eq | Ne | In | Ge | Le

  function OperatorName(op: Operator): string {
    match op
    case Eq => "eq"
    case Ne => "ne"
    case In => "in"
    case Ge => "ge"
    case Le => "le"
  }

  function OperatorNamed(name: string): Option<Operator> {
    if name == "eq" then Some(Eq) else if name == "ne" then Some(Ne) else if name == "in" then Some(In)
    else if name == "ge" then Some(Ge) else if name == "le" then Some(Le) else None
  }

  predicate Supports(kind: Kind, op: Operator) {
    match kind
    case IdentifierKind => op == Eq || op == Ne || op == In
    case EnumKind => op == Eq || op == Ne || op == In
    case TextKind => op == Eq || op == Ne
    case IntKind => op == Eq || op == Ne || op == Ge || op == Le
    case TimestampKind => op == Ge || op == Le
  }

  datatype Value = Words(text: string) | Number(number: int)
  datatype Filter = Filter(column: string, op: Operator, values: seq<Value>)

  // --- values -------------------------------------------------------------

  predicate IsLetterOrDigit(c: char) { 'a' <= c <= 'z' || 'A' <= c <= 'Z' || Text.IsDigit(c) }

  predicate IsIdentifier(text: string) {
    1 <= |text| <= 128 && IsLetterOrDigit(text[0])
    && forall i | 0 <= i < |text| ::
         IsLetterOrDigit(text[i]) || text[i] == '.' || text[i] == '_' || text[i] == ':' || text[i] == '@'
         || text[i] == '+' || text[i] == '-'
  }

  const MAX_TEXT_LENGTH := 65_536

  predicate IsOptionalText(text: string) { '\0' !in text && |text| <= MAX_TEXT_LENGTH }

  predicate IsTimestamp(text: string) {
    |text| == 25
    && (forall i | i in {0, 1, 2, 3, 5, 6, 8, 9, 11, 12, 14, 15, 17, 18} :: Text.IsDigit(text[i]))
    && text[4] == '-' && text[7] == '-' && text[10] == 'T' && text[13] == ':' && text[16] == ':'
    && text[19..] == "+00:00"
  }

  const MAX_FILTER_INTEGER := 2_147_483_647

  function OnlyDigits(text: string): (digits: string)
    ensures forall i | 0 <= i < |digits| :: Text.IsDigit(digits[i])
  {
    if text == "" then ""
    else (if Text.IsDigit(text[0]) then [text[0]] else "") + OnlyDigits(text[1..])
  }

  /** Digits, in groups joined by single underscores. */
  predicate Grouped(text: string) {
    text != "" && Text.IsDigit(text[0]) && Text.IsDigit(text[|text| - 1])
    && forall i | 0 <= i < |text| && !Text.IsDigit(text[i]) ::
         text[i] == '_' && i + 1 < |text| && Text.IsDigit(text[i + 1])
  }

  /** `int(text)`. */
  function ParsedInt(text: string): Option<int> {
    var trimmed := Strip(text);
    var signed := trimmed != "" && (trimmed[0] == '-' || trimmed[0] == '+');
    var digits := if signed then trimmed[1..] else trimmed;
    if !Grouped(digits) then None
    else
      var magnitude: int := Text.Value(OnlyDigits(digits));
      Some(if signed && trimmed[0] == '-' then -magnitude else magnitude)
  }

  function Coerced(spec: Column, item: string): Result<Value> {
    match spec.kind
    case IdentifierKind => if IsIdentifier(item) then Ok(Words(item)) else Err(InvalidArguments)
    case EnumKind => if item in spec.choices then Ok(Words(item)) else Err(InvalidArguments)
    case TextKind => if IsOptionalText(item) then Ok(Words(item)) else Err(InvalidArguments)
    case IntKind =>
      var parsed := ParsedInt(item);
      if parsed.Some? && -MAX_FILTER_INTEGER <= parsed.value <= MAX_FILTER_INTEGER
      then Ok(Number(parsed.value)) else Err(InvalidArguments)
    case TimestampKind => if IsTimestamp(item) then Ok(Words(item)) else Err(InvalidArguments)
  }

  function CoercedAll(spec: Column, items: seq<string>): Result<seq<Value>>
    decreases |items|
  {
    if items == [] then Ok([])
    else
      var first :- Coerced(spec, items[0]);
      var rest :- CoercedAll(spec, items[1..]);
      Ok([first] + rest)
  }

  // --- parsing and printing -----------------------------------------------

  const MAX_LIST_VALUES := 500

  function ParseWhere(d: Descriptor, raw: string): Result<Filter> {
    var outer := Partitioned(raw, '=');
    var inner := Partitioned(outer.head, ':');
    :- Need(outer.found && inner.found && inner.head != "" && inner.tail != "", InvalidArguments);
    :- Need(inner.head in d.columns, InvalidArguments);
    var spec := d.columns[inner.head];
    var op := OperatorNamed(inner.tail);
    :- Need(op.Some? && Supports(spec.kind, op.value), InvalidArguments);
    var items := if op.value == In then Split(outer.tail, ',') else [outer.tail];
    :- Need(|items| <= MAX_LIST_VALUES, InvalidArguments);
    var values :- CoercedAll(spec, items);
    Ok(Filter(inner.head, op.value, values))
  }

  function PrintedValue(v: Value): string { if v.Words? then v.text else Text.Numeral(v.number) }

  function PrintedAll(values: seq<Value>): (items: seq<string>)
    ensures |items| == |values| && forall i | 0 <= i < |items| :: items[i] == PrintedValue(values[i])
    decreases |values|
  {
    if values == [] then [] else [PrintedValue(values[0])] + PrintedAll(values[1..])
  }

  /** `COLUMN:OP=VALUE`, the values of a list joined by commas. */
  function Printed(f: Filter): string {
    f.column + ":" + OperatorName(f.op) + "=" + Text.Join(PrintedAll(f.values), ',')
  }

  // --- valid filters ------------------------------------------------------

  predicate ValidValue(spec: Column, v: Value) {
    match spec.kind
    case IdentifierKind => v.Words? && IsIdentifier(v.text)
    case EnumKind => v.Words? && v.text in spec.choices
    case TextKind => v.Words? && IsOptionalText(v.text)
    case IntKind => v.Number? && -MAX_FILTER_INTEGER <= v.number <= MAX_FILTER_INTEGER
    case TimestampKind => v.Words? && IsTimestamp(v.text)
  }

  predicate ValidFilter(d: Descriptor, f: Filter) {
    f.column in d.columns && Supports(d.columns[f.column].kind, f.op)
    && (if f.op == In then 1 <= |f.values| <= MAX_LIST_VALUES else |f.values| == 1)
    && forall v | v in f.values :: ValidValue(d.columns[f.column], v)
  }

  /** Column names are words, and the members of an enumeration hold no comma. */
  predicate WellFormed(d: Descriptor) {
    forall c | c in d.columns ::
      c != "" && ':' !in c && '=' !in c && forall x | x in d.columns[c].choices :: ',' !in x
  }

  lemma {:induction false} CoercedAllValid(spec: Column, items: seq<string>)
    requires CoercedAll(spec, items).Ok?
    ensures var values := CoercedAll(spec, items).value;
      |values| == |items| && forall v | v in values :: ValidValue(spec, v)
    decreases |items|
  {
    if items != [] { CoercedAllValid(spec, items[1..]); }
  }

  /** Whatever parses is a valid filter. */
  lemma ParsedIsValid(d: Descriptor, raw: string)
    requires ParseWhere(d, raw).Ok?
    ensures ValidFilter(d, ParseWhere(d, raw).value)
  {
    hide Partitioned, Split, Supports, CoercedAll, ValidValue;
    var outer := Partitioned(raw, '=');
    var inner := Partitioned(outer.head, ':');
    var op := OperatorNamed(inner.tail).value;
    CoercedAllValid(d.columns[inner.head], if op == In then Split(outer.tail, ',') else [outer.tail]);
  }

  // --- parsing undoes printing --------------------------------------------

  lemma {:induction false} OnlyDigitsOf(digits: string)
    requires forall i | 0 <= i < |digits| :: Text.IsDigit(digits[i])
    ensures OnlyDigits(digits) == digits
  {
    if digits != "" { OnlyDigitsOf(digits[1..]); }
  }

  lemma GroupedDigits(digits: string)
    requires digits != "" && forall i | 0 <= i < |digits| :: Text.IsDigit(digits[i])
    ensures Grouped(digits) && OnlyDigits(digits) == digits
  {
    OnlyDigitsOf(digits);
  }

  lemma ParsedNumeral(n: int)
    ensures ParsedInt(Text.Numeral(n)) == Some(n)
  {
    hide Grouped, OnlyDigits, Text.Dec, Text.Value, Strip;
    var magnitude := if n < 0 then -n else n;
    var digits := Text.Dec(magnitude);
    GroupedDigits(digits);
    Text.ValueOfDec(magnitude);
    StripNothing(digits);
    if n < 0 {
      StripNothing("-" + digits);
      assert ("-" + digits)[1..] == digits;
    }
  }

  lemma CoercedPrinted(spec: Column, v: Value)
    requires ValidValue(spec, v)
    ensures Coerced(spec, PrintedValue(v)) == Ok(v)
  {
    hide IsIdentifier, IsTimestamp, ParsedInt, Text.Numeral;
    if v.Number? { ParsedNumeral(v.number); }
  }

  lemma {:induction false} CoercedAllPrinted(spec: Column, values: seq<Value>)
    requires forall v | v in values :: ValidValue(spec, v)
    ensures CoercedAll(spec, PrintedAll(values)) == Ok(values)
    decreases |values|
  {
    hide Coerced, ValidValue, PrintedValue;
    if values != [] {
      assert values[0] in values && forall v | v in values[1..] :: v in values;
      CoercedPrinted(spec, values[0]);
      CoercedAllPrinted(spec, values[1..]);
      assert PrintedAll(values) == [PrintedValue(values[0])] + PrintedAll(values[1..]);
      assert PrintedAll(values)[1..] == PrintedAll(values[1..]);
      assert [values[0]] + values[1..] == values;
    }
  }

  lemma ListedHasNoComma(spec: Column, v: Value)
    requires ValidValue(spec, v) && Supports(spec.kind, In) && forall x | x in spec.choices :: ',' !in x
    ensures ',' !in PrintedValue(v)
  {
  }

  lemma SplitPrinted(spec: Column, values: seq<Value>)
    requires 1 <= |values| && forall v | v in values :: ValidValue(spec, v)
    requires Supports(spec.kind, In) && forall x | x in spec.choices :: ',' !in x
    ensures Split(Text.Join(PrintedAll(values), ','), ',') == PrintedAll(values)
  {
    hide ValidValue, PrintedValue, Supports;
    forall p | p in PrintedAll(values) ensures ',' !in p {
      var i :| 0 <= i < |values| && p == PrintedValue(values[i]);
      ListedHasNoComma(spec, values[i]);
    }
    SplitJoin(PrintedAll(values), ',');
  }

  lemma OperatorNames(op: Operator)
    ensures OperatorNamed(OperatorName(op)) == Some(op)
    ensures OperatorName(op) != "" && '=' !in OperatorName(op)
  {
  }

  /** Parsing undoes printing for every valid filter, also when a text value holds
      `=`, `:` or `,`. */
  lemma ParsePrinted(d: Descriptor, f: Filter)
    requires WellFormed(d) && ValidFilter(d, f)
    ensures ParseWhere(d, Printed(f)) == Ok(f)
  {
    hide Partitioned, Split, Text.Join, Supports, CoercedAll, ValidValue, OperatorName, OperatorNamed, PrintedAll;
    var spec := d.columns[f.column];
    var tail := Text.Join(PrintedAll(f.values), ',');
    OperatorNames(f.op);
    PartitionAt(f.column, ':', OperatorName(f.op));
    PartitionAt(f.column + ":" + OperatorName(f.op), '=', tail);
    assert Printed(f) == (f.column + ":" + OperatorName(f.op)) + "=" + tail;
    CoercedAllPrinted(spec, f.values);
    if f.op == In {
      SplitPrinted(spec, f.values);
    } else {
      OneItem(f.values);
    }
  }

  lemma OneItem(values: seq<Value>)
    requires |values| == 1
    ensures [Text.Join(PrintedAll(values), ',')] == PrintedAll(values)
  {
  }
}
