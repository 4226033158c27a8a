/** Character classes and the string operations the query text engine is built on. */
module Characters {
  import Text

  /** `str.isspace`, which `\s` and `strip` use. */
  predicate IsSpace(c: char) {
    '\t' <= c <= '\r' || '\U{1c}' <= c <= ' ' || c == '\U{85}' || c == '\U{a0}' || c == '\U{1680}'
    || '\U{2000}' <= c <= '\U{200a}' || c == '\U{2028}' || c == '\U{2029}' || c == '\U{202f}'
    || c == '\U{205f}' || c == '\U{3000}'
  }

  /** `text.replace(c, by)` of a single character. */
  function Replaced(text: string, c: char, other: string): string {
    if text == "" then "" else (if text[0] == c then other else [text[0]]) + Replaced(text[1..], c, other)
  }

  lemma {:induction false} ReplacedJoin(a: string, b: string, c: char, other: string)
    ensures Replaced(a + b, c, other) == Replaced(a, c, other) + Replaced(b, c, other)
  {
    if a == "" {
      assert a + b == b;
    } else {
      assert (a + b)[1..] == a[1..] + b;
      ReplacedJoin(a[1..], b, c, other);
    }
  }

  lemma {:induction false} ReplacedAbsent(text: string, c: char, other: string)
    requires forall i | 0 <= i < |text| :: text[i] != c
    ensures Replaced(text, c, other) == text
  {
    if text != "" { ReplacedAbsent(text[1..], c, other); }
  }

  lemma ReplacedOne(d: char, c: char, other: string)
    ensures Replaced([d], c, other) == if d == c then other else [d]
  { }

  lemma ReplacedTwo(d: char, e: char, c: char, other: string)
    ensures Replaced([d, e], c, other) == (if d == c then other else [d]) + (if e == c then other else [e])
  {
    assert [d, e][1..] == [e];
    ReplacedOne(e, c, other);
  }

  /** Each character replaced by its own text, in one pass. */
  function Mapped(text: string, f: char -> string): string {
    if text == "" then "" else f(text[0]) + Mapped(text[1..], f)
  }

  /** Index of the first `c`, or the length. */
  function Find(text: string, c: char): (i: nat)
    ensures i <= |text| && (i < |text| ==> text[i] == c) && forall k | 0 <= k < i :: text[k] != c
  {
    if text == "" || text[0] == c then 0 else 1 + Find(text[1..], c)
  }

  /** `text.partition(c)`. */
  datatype Partition = Partition(head: string, found: bool, tail: string)

  function Partitioned(text: string, c: char): Partition {
    var i := Find(text, c);
    if i < |text| then Partition(text[..i], true, text[i + 1..]) else Partition(text, false, "")
  }

  lemma FindIs(text: string, c: char, i: nat)
    requires i < |text| && text[i] == c && forall k | 0 <= k < i :: text[k] != c
    ensures Find(text, c) == i
  { }

  lemma PartitionAt(head: string, c: char, tail: string)
    requires c !in head
    ensures Partitioned(head + [c] + tail, c) == Partition(head, true, tail)
  {
    var text := head + [c] + tail;
    assert text[..|head|] == head && text[|head| + 1..] == tail;
    FindIs(text, c, |head|);
  }

  /** `text.split(c)`. */
  function Split(text: string, c: char): (parts: seq<string>)
    ensures |parts| >= 1 && forall p | p in parts :: c !in p
    decreases |text|
  {
    var i := Find(text, c);
    if i < |text| then [text[..i]] + Split(text[i + 1..], c) else [text]
  }

  /** `text[a..b]` is one of the parts of `text` between separators. */
  predicate PartAt(text: string, c: char, a: nat, b: nat) {
    a <= b <= |text| && (a == 0 || text[a - 1] == c) && (b == |text| || text[b] == c)
    && forall k | a <= k < b :: text[k] != c
  }

  /** The stretch is the part `x`. */
  predicate Holds(text: string, c: char, a: nat, b: nat, x: string) {
    PartAt(text, c, a, b) && text[a..b] == x
  }

  lemma PartShifts(text: string, c: char, start: nat, a: nat, b: nat, x: string)
    requires 0 < start <= |text| && text[start - 1] == c
    ensures Holds(text[start..], c, a, b, x) <==> Holds(text, c, start + a, start + b, x)
  { }

  ghost predicate IsPart(text: string, c: char, x: string) {
    exists a: nat, b: nat :: Holds(text, c, a, b, x)
  }

  lemma FirstIsPart(text: string, c: char)
    ensures IsPart(text, c, text[..Find(text, c)])
  {
    assert Holds(text, c, 0, Find(text, c), text[..Find(text, c)]);
  }

  lemma HeldFirst(text: string, c: char, a: nat, b: nat, x: string)
    requires Holds(text, c, a, b, x)
    ensures a > Find(text, c) ==> |text| >= b > Find(text, c)
    ensures a <= Find(text, c) ==> x == text[..Find(text, c)]
  { }

  lemma PartOfRest(text: string, c: char, x: string)
    requires Find(text, c) < |text|
    ensures IsPart(text, c, x) <==> x == text[..Find(text, c)] || IsPart(text[Find(text, c) + 1..], c, x)
  {
    hide Holds, PartAt;
    var i := Find(text, c);
    FirstIsPart(text, c);
    if IsPart(text[i + 1..], c, x) {
      var a: nat, b: nat :| Holds(text[i + 1..], c, a, b, x);
      PartShifts(text, c, i + 1, a, b, x);
    }
    if IsPart(text, c, x) {
      var a: nat, b: nat :| Holds(text, c, a, b, x);
      HeldFirst(text, c, a, b, x);
      if a > i { PartShifts(text, c, i + 1, a - i - 1, b - i - 1, x); }
    }
  }

  /** The parts of a split are the stretches between separators. */
  lemma {:induction false} SplitParts(text: string, c: char, x: string)
    ensures x in Split(text, c) <==> IsPart(text, c, x)
    decreases |text|
  {
    var i := Find(text, c);
    if i < |text| {
      PartOfRest(text, c, x);
      SplitParts(text[i + 1..], c, x);
    } else {
      hide Holds, PartAt;
      FirstIsPart(text, c);
      assert text[..i] == text;
      if a: nat, b: nat :| Holds(text, c, a, b, x) { HeldFirst(text, c, a, b, x); }
    }
  }

  /** Splitting undoes joining texts free of the separator. */
  lemma {:induction false} SplitJoin(parts: seq<string>, c: char)
    requires |parts| >= 1 && forall p | p in parts :: c !in p
    ensures Split(Text.Join(parts, c), c) == parts
    decreases |parts|
  {
    if |parts| == 1 {
      assert parts[0] in parts && c !in parts[0];
      assert Find(parts[0], c) == |parts[0]|;
    } else {
      var tail := Text.Join(parts[1..], c);
      PartitionAt(parts[0], c, tail);
      var text := parts[0] + [c] + tail;
      assert text[..|parts[0]|] == parts[0] && text[|parts[0]| + 1..] == tail;
      FindIs(text, c, |parts[0]|);
      SplitJoin(parts[1..], c);
    }
  }

  // --- strip --------------------------------------------------------------

  function StrippedLeft(text: string): (r: string)
    ensures r == "" || !IsSpace(r[0])
    ensures |r| <= |text| && r == text[|text| - |r|..]
    ensures forall i | 0 <= i < |text| - |r| :: IsSpace(text[i])
  {
    if text == "" || !IsSpace(text[0]) then text else StrippedLeft(text[1..])
  }

  function StrippedRight(text: string): (r: string)
    ensures r == "" || !IsSpace(r[|r| - 1])
    ensures r <= text && forall i | |r| <= i < |text| :: IsSpace(text[i])
  {
    if text == "" || !IsSpace(text[|text| - 1]) then text else StrippedRight(text[..|text| - 1])
  }

  /** `text.strip()`. */
  function Strip(text: string): string { StrippedRight(StrippedLeft(text)) }

  lemma StripNothing(text: string)
    requires text != "" && !IsSpace(text[0]) && !IsSpace(text[|text| - 1])
    ensures Strip(text) == text
  {
  }
}
