/** Inline Markdown escaping of stored text in reports. */
module Markdown {
  import opened Characters

  // --- the escaper --------------------------------------------------------

  /** `re.sub(r"\s+", " ", text)`; `inside` tells that a run has begun. */
  function RunsCollapsed(text: string, inside: bool): string {
    if text == "" then ""
    else if !IsSpace(text[0]) then [text[0]] + RunsCollapsed(text[1..], false)
    else if inside then RunsCollapsed(text[1..], true)
    else " " + RunsCollapsed(text[1..], true)
  }

  function Collapsed(text: string): string { Strip(RunsCollapsed(text, false)) }

  /** `html.escape(text, quote=False)`. */
  function HtmlEscaped(text: string): string {
    Replaced(Replaced(Replaced(text, '&', "&amp;"), '<', "&lt;"), '>', "&gt;")
  }

  predicate Special(c: char) {
    c == '\\' || c == '`' || c == '*' || c == '_' || c == '[' || c == ']' || c == '{' || c == '}' || c == '|'
  }

  function Slashed(c: char): string { if Special(c) then ['\\', c] else [c] }

  function MarkdownInline(text: string): string { Mapped(HtmlEscaped(Collapsed(text)), Slashed) }

  // --- the reader ---------------------------------------------------------

  /** Backslash escapes resolved. */
  function Unslashed(text: string): string {
    if |text| >= 2 && text[0] == '\\' then [text[1]] + Unslashed(text[2..])
    else if text == "" then ""
    else [text[0]] + Unslashed(text[1..])
  }

  /** The three character references resolved. */
  function Unreferenced(text: string): string {
    if text == "" then ""
    else if "&amp;" <= text then "&" + Unreferenced(text[5..])
    else if "&lt;" <= text then "<" + Unreferenced(text[4..])
    else if "&gt;" <= text then ">" + Unreferenced(text[4..])
    else [text[0]] + Unreferenced(text[1..])
  }

  function Decoded(text: string): string { Unreferenced(Unslashed(text)) }

  // --- reversible ---------------------------------------------------------

  function Reference(c: char): string {
    if c == '&' then "&amp;" else if c == '<' then "&lt;" else if c == '>' then "&gt;" else [c]
  }

  /** The three replacements, `&` first, amount to one reference a character. */
  lemma {:induction false} HtmlOnce(text: string)
    ensures HtmlEscaped(text) == Mapped(text, Reference)
  {
    if text != "" {
      HtmlOnce(text[1..]);
      var first, rest := [text[0]], text[1..];
      assert text == first + rest;
      ReplacedJoin(first, rest, '&', "&amp;");
      var one, ones := Replaced(first, '&', "&amp;"), Replaced(rest, '&', "&amp;");
      ReplacedJoin(one, ones, '<', "&lt;");
      ReplacedJoin(Replaced(one, '<', "&lt;"), Replaced(ones, '<', "&lt;"), '>', "&gt;");
      HtmlFirst(text[0]);
    }
  }

  lemma HtmlFirst(c: char)
    ensures HtmlEscaped([c]) == Reference(c)
  {
    ReplacedOne(c, '&', "&amp;");
    if c == '&' {
      ReplacedAbsent("&amp;", '<', "&lt;");
      ReplacedAbsent("&amp;", '>', "&gt;");
    } else {
      ReplacedOne(c, '<', "&lt;");
      if c == '<' { ReplacedAbsent("&lt;", '>', "&gt;"); } else { ReplacedOne(c, '>', "&gt;"); }
    }
  }

  lemma {:induction false} UnslashedUndoes(text: string)
    ensures Unslashed(Mapped(text, Slashed)) == text
  {
    if text != "" {
      UnslashedUndoes(text[1..]);
      var rest := Mapped(text[1..], Slashed);
      if Special(text[0]) {
        assert (Slashed(text[0]) + rest)[2..] == rest;
      } else {
        assert (Slashed(text[0]) + rest)[1..] == rest;
      }
    }
  }

  lemma UnreferencedAmp(rest: string)
    ensures Unreferenced("&amp;" + rest) == "&" + Unreferenced(rest)
  { }

  lemma UnreferencedLess(rest: string)
    ensures Unreferenced("&lt;" + rest) == "<" + Unreferenced(rest)
  {
    var text := "&lt;" + rest;
    assert text[1] == 'l' && "&amp;"[1] == 'a';
    assert text[4..] == rest;
  }

  lemma UnreferencedGreater(rest: string)
    ensures Unreferenced("&gt;" + rest) == ">" + Unreferenced(rest)
  {
    var text := "&gt;" + rest;
    assert text[1] == 'g' && "&amp;"[1] == 'a' && "&lt;"[1] == 'l';
    assert text[4..] == rest;
  }

  lemma UnreferencedPlain(c: char, rest: string)
    requires c != '&'
    ensures Unreferenced([c] + rest) == [c] + Unreferenced(rest)
  { }

  lemma UnreferencedFirst(c: char, rest: string)
    ensures Unreferenced(Reference(c) + rest) == [c] + Unreferenced(rest)
  {
    if c == '&' {
      UnreferencedAmp(rest);
    } else if c == '<' {
      UnreferencedLess(rest);
    } else if c == '>' {
      UnreferencedGreater(rest);
    } else {
      UnreferencedPlain(c, rest);
    }
  }

  lemma {:induction false} UnreferencedUndoes(text: string)
    ensures Unreferenced(Mapped(text, Reference)) == text
  {
    if text != "" {
      UnreferencedUndoes(text[1..]);
      UnreferencedFirst(text[0], Mapped(text[1..], Reference));
    }
  }

  /** Decoding the escaped form gives back the collapsed text, whatever it was. */
  lemma EscapingIsReversible(text: string)
    ensures Decoded(MarkdownInline(text)) == Collapsed(text)
  {
    HtmlOnce(Collapsed(text));
    UnslashedUndoes(HtmlEscaped(Collapsed(text)));
    UnreferencedUndoes(Collapsed(text));
  }

  // --- collapsing keeps the words -----------------------------------------

  /** The maximal stretches without white space. */
  function Words(text: string, word: string): seq<string> {
    if text == "" then (if word == "" then [] else [word])
    else if !IsSpace(text[0]) then Words(text[1..], word + [text[0]])
    else (if word == "" then [] else [word]) + Words(text[1..], "")
  }

  lemma {:induction false} RunsKeepWords(text: string, inside: bool, word: string)
    requires inside ==> word == ""
    ensures Words(RunsCollapsed(text, inside), word) == Words(text, word)
    decreases |text|
  {
    if text != "" {
      if !IsSpace(text[0]) {
        RunsKeepWords(text[1..], false, word + [text[0]]);
        assert ([text[0]] + RunsCollapsed(text[1..], false))[1..] == RunsCollapsed(text[1..], false);
      } else {
        RunsKeepWords(text[1..], true, "");
        if !inside { assert (" " + RunsCollapsed(text[1..], true))[1..] == RunsCollapsed(text[1..], true); }
      }
    }
  }

  lemma {:induction false} LeftKeepsWords(text: string)
    ensures Words(StrippedLeft(text), "") == Words(text, "")
  {
    if text != "" && IsSpace(text[0]) { LeftKeepsWords(text[1..]); }
  }

  lemma {:induction false} TrailingSpace(text: string, c: char, word: string)
    requires IsSpace(c)
    ensures Words(text + [c], word) == Words(text, word)
    decreases |text|
  {
    if text == "" {
      assert text + [c] == [c] && [c][1..] == "";
      assert Words("", "") == [];
    } else {
      assert (text + [c])[1..] == text[1..] + [c];
      TrailingSpace(text[1..], c, if IsSpace(text[0]) then "" else word + [text[0]]);
    }
  }

  lemma {:induction false} RightKeepsWords(text: string)
    ensures Words(StrippedRight(text), "") == Words(text, "")
  {
    if text != "" && IsSpace(text[|text| - 1]) {
      RightKeepsWords(text[..|text| - 1]);
      assert text == text[..|text| - 1] + [text[|text| - 1]];
      TrailingSpace(text[..|text| - 1], text[|text| - 1], "");
    }
  }

  /** Collapsing changes the white space between words only. */
  lemma CollapsingKeepsWords(text: string)
    ensures Words(Collapsed(text), "") == Words(text, "")
  {
    RunsKeepWords(text, false, "");
    LeftKeepsWords(RunsCollapsed(text, false));
    RightKeepsWords(StrippedLeft(RunsCollapsed(text, false)));
  }

  // --- safe ---------------------------------------------------------------

  /** White space is single spaces only. */
  ghost predicate Flat(text: string) {
    forall i | 0 <= i < |text| && IsSpace(text[i]) :: text[i] == ' ' && (i > 0 ==> !IsSpace(text[i - 1]))
  }

  lemma {:induction false} RunsFlat(text: string, inside: bool)
    ensures var r := RunsCollapsed(text, inside); Flat(r) && (inside && r != "" ==> !IsSpace(r[0]))
    decreases |text|
  {
    if text != "" {
      RunsFlat(text[1..], IsSpace(text[0]));
    }
  }

  lemma SuffixFlat(text: string, k: nat)
    requires Flat(text) && k <= |text|
    ensures Flat(text[k..])
  { }

  lemma CollapsedFlat(text: string)
    ensures var r := Collapsed(text);
      Flat(r) && (r != "" ==> !IsSpace(r[0]) && !IsSpace(r[|r| - 1]))
  {
    hide IsSpace, RunsCollapsed, StrippedLeft, StrippedRight;
    var runs := RunsCollapsed(text, false);
    RunsFlat(text, false);
    SuffixFlat(runs, |runs| - |StrippedLeft(runs)|);
  }

  /** Every special character is escaped by a backslash of its own. */
  predicate Guarded(text: string) {
    if text == "" then true
    else if text[0] == '\\' then |text| >= 2 && Special(text[1]) && Guarded(text[2..])
    else !Special(text[0]) && Guarded(text[1..])
  }

  ghost predicate Plain(text: string) {
    forall i | 0 <= i < |text| :: text[i] != '<' && text[i] != '>' && (IsSpace(text[i]) ==> text[i] == ' ')
  }

  lemma {:induction false} SlashedGuarded(text: string)
    ensures Guarded(Mapped(text, Slashed))
    ensures Plain(text) ==> Plain(Mapped(text, Slashed))
  {
    if text != "" {
      SlashedGuarded(text[1..]);
      var rest := Mapped(text[1..], Slashed);
      if Special(text[0]) {
        assert (Slashed(text[0]) + rest)[2..] == rest;
      } else {
        assert (Slashed(text[0]) + rest)[1..] == rest;
      }
      if Plain(text) { assert Plain(text[1..]) && Plain(Slashed(text[0])); }
    }
  }

  lemma {:induction false} ReferencedPlain(text: string)
    requires forall i | 0 <= i < |text| && IsSpace(text[i]) :: text[i] == ' '
    ensures Plain(Mapped(text, Reference))
  {
    if text != "" {
      ReferencedPlain(text[1..]);
      assert Plain(Reference(text[0]));
    }
  }

  /** The escaped form has no line break and no raw angle bracket, and every
      special character in it is escaped. */
  lemma EscapingIsSafe(text: string)
    ensures Plain(MarkdownInline(text)) && Guarded(MarkdownInline(text))
  {
    CollapsedFlat(text);
    HtmlOnce(Collapsed(text));
    ReferencedPlain(Collapsed(text));
    SlashedGuarded(HtmlEscaped(Collapsed(text)));
  }
}
