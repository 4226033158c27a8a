/** Text order, ordered listings and decimal numerals.
    Identifiers are ASCII, so SQLite's BINARY collation is the character order. */
module Text {

  /** The strict lexicographic order. */
  predicate Before(a: string, b: string) {
    if b == "" then false
    else if a == "" then true
    else if a[0] != b[0] then a[0] < b[0]
    else Before(a[1..], b[1..])
  }

  lemma {:induction false} BeforeTotal(a: string, b: string)
    ensures a == b || Before(a, b) || Before(b, a)
  {
    if a != "" && b != "" && a[0] == b[0] {
      BeforeTotal(a[1..], b[1..]);
      assert a == [a[0]] + a[1..] && b == [b[0]] + b[1..];
    }
  }

  lemma {:induction false} BeforeAsymmetric(a: string, b: string)
    requires Before(a, b)
    ensures !Before(b, a) && a != b
  {
    if a != "" && a[0] == b[0] {
      BeforeAsymmetric(a[1..], b[1..]);
    }
  }

  lemma {:induction false} BeforeTransitive(a: string, b: string, c: string)
    requires Before(a, b) && Before(b, c)
    ensures Before(a, c)
  {
    if a != "" && a[0] == b[0] && b[0] == c[0] {
      BeforeTransitive(a[1..], b[1..], c[1..]);
    }
  }

  ghost predicate Ascending(xs: seq<string>) {
    forall i, j | 0 <= i < j < |xs| :: Before(xs[i], xs[j])
  }

  predicate IsLeast(x: string, ids: set<string>) {
    x in ids && forall y | y in ids :: y == x || Before(x, y)
  }

  lemma {:induction false} LeastExists(ids: set<string>)
    requires ids != {}
    ensures exists x :: IsLeast(x, ids)
    decreases |ids|
  {
    var x :| x in ids;
    var rest := ids - {x};
    if rest == {} {
      assert ids == {x};
      assert IsLeast(x, ids);
    } else {
      LeastExists(rest);
      var y :| IsLeast(y, rest);
      BeforeTotal(x, y);
      if Before(x, y) {
        forall z | z in ids ensures z == x || Before(x, z) {
          if z != x && z != y { BeforeTransitive(x, y, z); }
        }
        assert IsLeast(x, ids);
      } else {
        assert IsLeast(y, ids);
      }
    }
  }

  lemma LeastUnique(x: string, y: string, ids: set<string>)
    requires IsLeast(x, ids) && IsLeast(y, ids)
    ensures x == y
  {
    if x != y { BeforeAsymmetric(x, y); }
  }

  function Least(ids: set<string>): (x: string)
    requires ids != {}
    ensures IsLeast(x, ids)
  {
    LeastExists(ids);
    assert forall x, y | IsLeast(x, ids) && IsLeast(y, ids) :: x == y by {
      forall x, y | IsLeast(x, ids) && IsLeast(y, ids) ensures x == y { LeastUnique(x, y, ids); }
    }
    var x :| IsLeast(x, ids);
    x
  }

  /** The listing `ORDER BY id` gives of a set of identifiers. */
  function Sorted(ids: set<string>): (xs: seq<string>)
    ensures |xs| == |ids|
    ensures forall x :: x in xs <==> x in ids
    ensures Ascending(xs)
    decreases |ids|
  {
    if ids == {} then [] else
      var x := Least(ids);
      [x] + Sorted(ids - {x})
  }

  lemma AscendingDistinct(xs: seq<string>, i: nat, j: nat)
    requires Ascending(xs) && i < |xs| && j < |xs| && xs[i] == xs[j]
    ensures i == j
  {
    if i < j { BeforeAsymmetric(xs[i], xs[j]); }
    if j < i { BeforeAsymmetric(xs[j], xs[i]); }
  }

  /** `c.join(parts)`. */
  function Join(parts: seq<string>, c: char): string {
    if |parts| == 0 then "" else if |parts| == 1 then parts[0] else parts[0] + [c] + Join(parts[1..], c)
  }

  // --- decimal numerals -------------------------------------------------

  predicate IsDigit(c: char) { '0' <= c <= '9' }

  function Digit(d: nat): (c: char)
    requires d < 10
    ensures IsDigit(c) && c as int - '0' as int == d
  {
    ('0' as int + d) as char
  }

  /** `str(n)` of a natural number. */
  function Dec(n: nat): (text: string)
    ensures |text| >= 1
    ensures forall i | 0 <= i < |text| :: IsDigit(text[i])
  {
    if n < 10 then [Digit(n)] else Dec(n / 10) + [Digit(n % 10)]
  }

  /** `str(i)` of an integer. */
  function Numeral(i: int): string { if i < 0 then "-" + Dec(-i) else Dec(i) }

  /** The value of a run of digits. */
  function Value(digits: string): nat
    requires forall i | 0 <= i < |digits| :: IsDigit(digits[i])
  {
    if digits == "" then 0
    else
      assert IsDigit(digits[|digits| - 1]);
      Value(digits[..|digits| - 1]) * 10 + (digits[|digits| - 1] as int - '0' as int)
  }

  lemma {:induction false} ValueOfDec(n: nat)
    ensures Value(Dec(n)) == n
  {
    if n >= 10 {
      ValueOfDec(n / 10);
      assert Dec(n)[..|Dec(n)| - 1] == Dec(n / 10);
    }
  }

  lemma DecInjective(m: nat, n: nat)
    requires Dec(m) == Dec(n)
    ensures m == n
  {
    ValueOfDec(m);
    ValueOfDec(n);
  }
}
