/** normalize_knowledge_content: one spelling for line ends, no surrounding white space, never empty. */
module Normalization {
  import opened Wrappers
  import opened Text

  /** s.replace("\r\n", "\n"). */
  function ReplaceCrLf(s: string): string {
    if s == "" then ""
    else if |s| >= 2 && s[0] == '\r' && s[1] == '\n' then "\n" + ReplaceCrLf(s[2..])
    else [s[0]] + ReplaceCrLf(s[1..])
  }

  /** s.replace("\r", "\n"). */
  function ReplaceCr(s: string): string {
    seq(|s|, i requires 0 <= i < |s| => if s[i] == '\r' then '\n' else s[i])
  }

  function Normalize(content: string): Option<string> {
    var normalized := Strip(ReplaceCr(ReplaceCrLf(content)));
    if normalized == "" then None else Some(normalized)
  }

  /** The text with every line end spelled `eol`. */
  function WithLineEnds(text: string, eol: string): string {
    if text == "" then "" else (if text[0] == '\n' then eol else [text[0]]) + WithLineEnds(text[1..], eol)
  }

  lemma {:induction false} PlainStays(s: string)
    requires '\r' !in s
    ensures ReplaceCrLf(s) == s && ReplaceCr(s) == s
  {
    if s != "" {
      assert s == [s[0]] + s[1..];
      PlainStays(s[1..]);
    }
  }

  lemma {:induction false} StripIsPart(s: string)
    ensures |Strip(s)| <= |s| && forall c | c in Strip(s) :: c in s
  {
    StripLeftIsPart(s);
    StripRightIsPart(StripLeft(s));
  }

  lemma {:induction false} StripLeftIsPart(s: string)
    ensures |StripLeft(s)| <= |s| && forall c | c in StripLeft(s) :: c in s
    ensures StripLeft(s) == "" || !IsSpace(StripLeft(s)[0])
  {
    if s != "" && IsSpace(s[0]) {
      StripLeftIsPart(s[1..]);
    }
  }

  lemma {:induction false} StripRightIsPart(s: string)
    ensures StripRight(s) <= s
    ensures StripRight(s) == "" || !IsSpace(StripRight(s)[|StripRight(s)| - 1])
  {
    if s != "" && IsSpace(s[|s| - 1]) {
      StripRightIsPart(s[..|s| - 1]);
    }
  }

  lemma StripTwice(s: string)
    ensures Strip(Strip(s)) == Strip(s)
  {
    StripLeftIsPart(s);
    StripRightIsPart(StripLeft(s));
    if Strip(s) != "" {
      StripTight(Strip(s));
    }
  }

  /** What normalization returns has no carriage return and is its own normalization. */
  lemma NormalizeIsIdempotent(content: string)
    requires Normalize(content).Some?
    ensures '\r' !in Normalize(content).value
    ensures Normalize(Normalize(content).value) == Normalize(content)
  {
    var plain := ReplaceCr(ReplaceCrLf(content));
    var normalized := Strip(plain);
    StripIsPart(plain);
    PlainStays(normalized);
    StripTwice(plain);
  }

  /** One pass over the text that spells every line end as a line feed. */
  function Unified(s: string): string {
    if s == "" then ""
    else if s[0] == '\r' then "\n" + Unified(if |s| >= 2 && s[1] == '\n' then s[2..] else s[1..])
    else [s[0]] + Unified(s[1..])
  }

  /** How many characters the line end or character at the start of the text has. */
  function Taken(s: string): nat
    requires s != ""
    ensures 0 < Taken(s) <= |s|
  {
    if |s| >= 2 && s[0] == '\r' && s[1] == '\n' then 2 else 1
  }

  lemma ReplaceCrCons(c: char, s: string)
    ensures ReplaceCr([c] + s) == [if c == '\r' then '\n' else c] + ReplaceCr(s)
  {
  }

  lemma CrLfStep(s: string)
    requires s != ""
    ensures ReplaceCrLf(s) == [if Taken(s) == 2 then '\n' else s[0]] + ReplaceCrLf(s[Taken(s)..])
  {
  }

  lemma UnifiedStep(s: string)
    requires s != ""
    ensures Unified(s) == [if s[0] == '\r' then '\n' else s[0]] + Unified(s[Taken(s)..])
  {
  }

  lemma {:induction false} TwoPassesUnify(s: string)
    ensures ReplaceCr(ReplaceCrLf(s)) == Unified(s)
  {
    if s != "" {
      var rest := s[Taken(s)..];
      CrLfStep(s);
      UnifiedStep(s);
      ReplaceCrCons(if Taken(s) == 2 then '\n' else s[0], ReplaceCrLf(rest));
      TwoPassesUnify(rest);
    }
  }

  lemma {:induction false} UnifiedIsSpace(s: string)
    ensures AllSpace(Unified(s)) <==> AllSpace(s)
  {
    if s != "" {
      var n := Taken(s);
      var first := if s[0] == '\r' then '\n' else s[0];
      UnifiedStep(s);
      UnifiedIsSpace(s[n..]);
      SpaceSplits([first], Unified(s[n..]));
      SpaceSplits(s[..n], s[n..]);
      assert s == s[..n] + s[n..];
      assert s[..n] == if n == 2 then [s[0], s[1]] else [s[0]];
    }
  }

  lemma SpaceSplits(a: string, b: string)
    ensures AllSpace(a + b) <==> AllSpace(a) && AllSpace(b)
  {
    assert forall c | c in a :: c in a + b;
    assert forall c | c in b :: c in a + b;
  }

  /**
   * What is kept of a content is all of it but the white space around it, with every line end a line feed. It is
   * refused exactly when there is nothing but white space.
   */
  lemma NormalizeKeepsText(content: string)
    ensures Normalize(content) == None <==> AllSpace(content)
    ensures Normalize(content).Some? ==> Normalize(content).value != "" && TrimmedTo(Unified(content),
          Normalize(content).value)
  {
    TwoPassesUnify(content);
    StripTrims(Unified(content));
    UnifiedIsSpace(content);
  }

  lemma {:induction false} SpellingsUnify(text: string, eol: string)
    requires '\r' !in text && eol in ["\n", "\r\n", "\r"]
    ensures Unified(WithLineEnds(text, eol)) == text
  {
    LineEndsUnify(text, eol);
    TwoPassesUnify(WithLineEnds(text, eol));
  }

  /** In particular of any spelling of a text: what is kept is the text without the white space around it. */
  lemma SpelledTextIsKept(text: string, eol: string)
    requires '\r' !in text && eol in ["\n", "\r\n", "\r"]
    ensures Normalize(WithLineEnds(text, eol)) == None <==> AllSpace(text)
    ensures Normalize(WithLineEnds(text, eol)).Some? ==> TrimmedTo(text, Normalize(WithLineEnds(text, eol)).value)
  {
    NormalizeKeepsText(WithLineEnds(text, eol));
    SpellingsUnify(text, eol);
    UnifiedIsSpace(WithLineEnds(text, eol));
  }

  lemma {:induction false} LineEndsUnify(text: string, eol: string)
    requires '\r' !in text && eol in ["\n", "\r\n", "\r"]
    ensures ReplaceCr(ReplaceCrLf(WithLineEnds(text, eol))) == text
  {
    if text != "" {
      var rest := WithLineEnds(text[1..], eol);
      var whole := WithLineEnds(text, eol);
      LineEndsUnify(text[1..], eol);
      assert text == [text[0]] + text[1..];
      if eol != "\n" {
        NeverStartsWithLf(text[1..], eol);
      }
      if text[0] == '\n' && eol == "\r\n" {
        assert whole[2..] == rest;
        ReplaceCrAppend("\n", ReplaceCrLf(rest));
      } else {
        var first := if text[0] == '\n' then eol else [text[0]];
        assert whole == first + rest && whole[1..] == rest;
        ReplaceCrAppend(first, ReplaceCrLf(rest));
      }
    }
  }

  lemma ReplaceCrAppend(a: string, b: string)
    ensures ReplaceCr(a + b) == ReplaceCr(a) + ReplaceCr(b)
  {
  }

  lemma NeverStartsWithLf(text: string, eol: string)
    requires eol == "\r\n" || eol == "\r"
    ensures WithLineEnds(text, eol) == "" || WithLineEnds(text, eol)[0] != '\n'
  {
  }

  /** A text spelled with LF, CRLF or CR line ends normalizes to the same content. */
  lemma SpellingDoesNotMatter(text: string, eol: string)
    requires '\r' !in text && eol in ["\n", "\r\n", "\r"]
    ensures Normalize(WithLineEnds(text, eol)) == Normalize(text)
  {
    LineEndsUnify(text, eol);
    PlainStays(text);
  }
}
