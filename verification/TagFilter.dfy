/** The `--tag` filter of `task list`: free text compiled to an escaped `LIKE`. */
module TagFilter {
  import opened Characters
  import opened Records

  // --- LIKE ---------------------------------------------------------------

  /** `LIKE` folds ASCII letters only. */
  function Folded(c: char): char { if 'A' <= c <= 'Z' then (c as int + 32) as char else c }

  predicate SameChar(a: char, b: char) { Folded(a) == Folded(b) }

  predicate SameText(a: string, b: string) {
    |a| == |b| && forall i | 0 <= i < |a| :: SameChar(a[i], b[i])
  }

  /** `text LIKE pattern ESCAPE '\'`. */
  predicate Like(pattern: string, text: string)
    decreases |pattern| + |text|
  {
    if pattern == "" then text == ""
    else if pattern[0] == '%' then Like(pattern[1..], text) || (text != "" && Like(pattern, text[1..]))
    else if pattern[0] == '\\' then
      |pattern| > 1 && text != "" && SameChar(pattern[1], text[0]) && Like(pattern[2..], text[1..])
    else text != "" && (pattern[0] == '_' || SameChar(pattern[0], text[0])) && Like(pattern[1..], text[1..])
  }

  // --- the compiled filter ------------------------------------------------

  /** The three replacements, in the order the code makes them. */
  function Escaped(tag: string): string {
    Replaced(Replaced(Replaced(tag, '\\', "\\\\"), '%', "\\%"), '_', "\\_")
  }

  function Stripped(tags: string): string { Replaced(Replaced(tags, ' ', ""), '\t', "") }

  /** `(',' || stripped tags || ',') LIKE '%,' || escaped tag || ',%'`. */
  predicate TagMatches(tags: string, tag: string) {
    Like("%," + Escaped(tag) + ",%", "," + Stripped(tags) + ",")
  }

  // --- escaping -----------------------------------------------------------

  function EscapedChar(c: char): string {
    if c == '\\' || c == '%' || c == '_' then ['\\', c] else [c]
  }

  /** The three replacements amount to escaping each character once. */
  lemma {:induction false} EscapedOnce(tag: string)
    ensures Escaped(tag) == Mapped(tag, EscapedChar)
  {
    if tag != "" {
      EscapedOnce(tag[1..]);
      var first, rest := [tag[0]], tag[1..];
      assert tag == first + rest;
      ReplacedJoin(first, rest, '\\', "\\\\");
      var one, ones := Replaced(first, '\\', "\\\\"), Replaced(rest, '\\', "\\\\");
      ReplacedJoin(one, ones, '%', "\\%");
      var two, twos := Replaced(one, '%', "\\%"), Replaced(ones, '%', "\\%");
      ReplacedJoin(two, twos, '_', "\\_");
      EscapedFirst(tag[0]);
    }
  }

  lemma EscapedFirst(c: char)
    ensures Escaped([c]) == EscapedChar(c)
  {
    ReplacedOne(c, '\\', "\\\\");
    if c == '\\' {
      ReplacedTwo('\\', '\\', '%', "\\%");
      ReplacedTwo('\\', '\\', '_', "\\_");
    } else {
      ReplacedOne(c, '%', "\\%");
      if c == '%' { ReplacedTwo('\\', '%', '_', "\\_"); } else { ReplacedOne(c, '_', "\\_"); }
    }
  }

  // --- what the pattern matches -------------------------------------------

  lemma LikeChar(c: char, rest: string, text: string)
    ensures Like(EscapedChar(c) + rest, text) <==> text != "" && SameChar(c, text[0]) && Like(rest, text[1..])
  { }

  /** An escaped text matches itself, up to case, and nothing else. */
  lemma {:induction false} LikeLiteral(tag: string, rest: string, text: string)
    ensures Like(Mapped(tag, EscapedChar) + rest, text)
            <==> |tag| <= |text| && SameText(text[..|tag|], tag) && Like(rest, text[|tag|..])
    decreases |tag|
  {
    if tag == "" {
      assert Mapped(tag, EscapedChar) + rest == rest;
    } else {
      var pattern := Mapped(tag, EscapedChar) + rest;
      assert pattern == EscapedChar(tag[0]) + (Mapped(tag[1..], EscapedChar) + rest);
      LikeChar(tag[0], Mapped(tag[1..], EscapedChar) + rest, text);
      if text != "" {
        LikeLiteral(tag[1..], rest, text[1..]);
        SameTextCons(tag, text);
      }
    }
  }

  lemma SameTextCons(tag: string, text: string)
    requires tag != "" && text != ""
    ensures |tag| <= |text| && SameText(text[..|tag|], tag)
            <==> SameChar(tag[0], text[0]) && |tag[1..]| <= |text[1..]|
                 && SameText(text[1..][..|tag[1..]|], tag[1..])
    ensures |tag| <= |text| ==> text[1..][|tag[1..]|..] == text[|tag|..]
  { }

  lemma {:induction false} LikeAnywhere(rest: string, text: string)
    ensures Like("%" + rest, text) <==> exists k | 0 <= k <= |text| :: Like(rest, text[k..])
    decreases |text|
  {
    var pattern := "%" + rest;
    assert pattern[1..] == rest;
    assert text[0..] == text;
    if text != "" {
      LikeAnywhere(rest, text[1..]);
      if k :| 0 <= k <= |text[1..]| && Like(rest, text[1..][k..]) {
        assert text[1..][k..] == text[k + 1..];
      }
      if k :| 0 <= k <= |text| && Like(rest, text[k..]) && k > 0 {
        assert text[1..][k - 1..] == text[k..];
      }
    }
  }

  lemma LikeCommaTail(text: string)
    ensures Like(",%", text) <==> text != "" && text[0] == ','
  {
    assert ",%"[1..] == "%";
    if text != "" {
      assert "%" + "" == "%";
      LikeAnywhere("", text[1..]);
      assert text[1..][|text[1..]|..] == "";
      assert Like("", text[1..][|text[1..]|..]);
    }
  }

  /** A comma, a text equal to the tag up to case, and a comma, from `k` on. */
  predicate BetweenCommas(tag: string, text: string, k: int) {
    0 <= k && k + |tag| + 1 < |text| && text[k] == ',' && SameText(text[k + 1..k + 1 + |tag|], tag)
    && text[k + 1 + |tag|] == ','
  }

  /** The compiled pattern finds the tag between two commas. */
  lemma LikeBetweenCommas(tag: string, text: string)
    ensures Like("%," + Escaped(tag) + ",%", text) <==> exists k :: BetweenCommas(tag, text, k)
  {
    hide Like, Mapped, Escaped, SameText;
    var rest := Mapped(tag, EscapedChar) + ",%";
    EscapedOnce(tag);
    assert "%," + Escaped(tag) + ",%" == "%" + ("," + rest);
    LikeAnywhere("," + rest, text);
    forall k | 0 <= k <= |text| ensures Like("," + rest, text[k..]) <==> BetweenCommas(tag, text, k) {
      LikeFrom(tag, text[k..]);
      if k + |tag| + 1 < |text| {
        assert text[k..][1..1 + |tag|] == text[k + 1..k + 1 + |tag|];
      }
    }
    assert forall k :: BetweenCommas(tag, text, k) ==> 0 <= k <= |text|;
  }

  lemma LikeFrom(tag: string, text: string)
    ensures Like("," + (Mapped(tag, EscapedChar) + ",%"), text)
            <==> BetweenCommas(tag, text, 0)
  {
    var rest := Mapped(tag, EscapedChar) + ",%";
    assert EscapedChar(',') == ",";
    LikeChar(',', rest, text);
    if text != "" {
      LikeLiteral(tag, ",%", text[1..]);
      if |tag| <= |text[1..]| {
        assert text[1..][..|tag|] == text[1..1 + |tag|];
        assert text[1..][|tag|..] == text[1 + |tag|..];
        LikeCommaTail(text[1 + |tag|..]);
      }
    }
  }

  // --- the law ------------------------------------------------------------

  lemma {:induction false} StrippedIs(tags: string)
    ensures Stripped(tags) == Mapped(tags, (c: char) => if c == ' ' || c == '\t' then "" else [c])
  {
    if tags != "" {
      StrippedIs(tags[1..]);
      var first, rest := [tags[0]], tags[1..];
      assert tags == first + rest;
      ReplacedJoin(first, rest, ' ', "");
      ReplacedJoin(Replaced(first, ' ', ""), Replaced(rest, ' ', ""), '\t', "");
      ReplacedOne(tags[0], ' ', "");
      if tags[0] != ' ' { ReplacedOne(tags[0], '\t', ""); }
    }
  }

  lemma CommaFree(a: string, tag: string)
    requires SameText(a, tag) && ',' !in tag
    ensures ',' !in a
  { }

  lemma TokensBetweenCommas(text: string, tag: string, k: nat)
    requires ',' !in tag
    ensures BetweenCommas(tag, "," + text + ",", k)
            <==> k + |tag| <= |text| && PartAt(text, ',', k, k + |tag|) && SameText(text[k..k + |tag|], tag)
  {
    hide SameText;
    var wrapped := "," + text + ",";
    if k + |tag| <= |text| {
      var token := text[k..k + |tag|];
      assert token == wrapped[k + 1..k + 1 + |tag|];
      if SameText(token, tag) {
        CommaFree(token, tag);
        forall i | k <= i < k + |tag| ensures text[i] != ',' { assert text[i] == token[i - k]; }
      }
    }
  }

  /** The compiled predicate holds exactly when the tag is, up to ASCII case, one of
      the comma-separated tokens of the stored text with its spaces and tabs
      removed. Wildcards and backslashes in the tag match only themselves. */
  lemma TagMatchesToken(tags: string, tag: string)
    requires ',' !in tag
    ensures TagMatches(tags, tag)
            <==> exists token | token in Split(Stripped(tags), ',') :: SameText(token, tag)
  {
    hide Like, Escaped, SameText, Stripped, BetweenCommas, Split;
    var text := Stripped(tags);
    LikeBetweenCommas(tag, "," + text + ",");
    if k :| BetweenCommas(tag, "," + text + ",", k) {
      StartsInside(tag, "," + text + ",", k);
      TokensBetweenCommas(text, tag, k);
      assert Holds(text, ',', k, k + |tag|, text[k..k + |tag|]);
      SplitParts(text, ',', text[k..k + |tag|]);
    }
    if token :| token in Split(text, ',') && SameText(token, tag) {
      SplitParts(text, ',', token);
      var a: nat, b: nat :| Holds(text, ',', a, b, token);
      SameLength(token, tag);
      TokensBetweenCommas(text, tag, a);
    }
  }

  lemma StartsInside(tag: string, text: string, k: int)
    requires BetweenCommas(tag, text, k)
    ensures k >= 0
  {
  }

  lemma SameLength(a: string, b: string)
    requires SameText(a, b)
    ensures |a| == |b|
  {
  }

  // --- accepted tags ------------------------------------------------------

  /** `tag_token`: the value stripped, if a single token is left. */
  function TagToken(value: string): Option<string> {
    var token := Strip(value);
    if token == "" || '\0' in value || |value| > 65_536 then None
    else if ',' in token || exists c | c in token :: IsSpace(c) then None
    else Some(token)
  }

  /** For every accepted tag the filter selects the rows that carry it as a token. */
  lemma AcceptedTagFilters(value: string, tags: string)
    requires TagToken(value).Some?
    ensures TagMatches(tags, TagToken(value).value)
            <==> exists token | token in Split(Stripped(tags), ',') :: SameText(token, TagToken(value).value)
  {
    hide TagMatches, Stripped, Strip;
    TagMatchesToken(tags, TagToken(value).value);
  }
}
