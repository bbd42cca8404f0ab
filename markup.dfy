/**
 * The few HTML-ish rewrites the chat pages apply to replies before
 * showing them, each standing for one global regular-expression
 * `replace`. Matching is leftmost and non-overlapping, as `replace` with
 * the `g` flag is.
 */
module Markup {
  import opened Wrappers
  import opened Text

  /** `lit` (lower case) occurs at `i` in `s`, ignoring the letter case of `s`. */
  predicate LiteralAt(s: string, i: nat, lit: string): (b: bool)
    ensures b ==> i + |lit| <= |s|
    decreases |lit|
  {
    if lit == [] then i <= |s|
    else i < |s| && LowerChar(s[i]) == lit[0] && LiteralAt(s, i + 1, lit[1..])
  }

  /** The length of a `<br\s*\/?>` tag (any letter case) at the start of `s`, 0 if there is none. */
  function BrTagLength(s: string): (n: nat)
    ensures n == 0 || 4 <= n <= |s|
  {
    if |s| >= 3 && s[0] == '<' && LowerChar(s[1]) == 'b' && LowerChar(s[2]) == 'r' then
      var k := 3 + WhitespaceRun(s[3..]);
      if k < |s| && s[k] == '>' then k + 1
      else if k + 1 < |s| && s[k] == '/' && s[k + 1] == '>' then k + 2
      else 0
    else 0
  }

  /** The length of the run of white space `s` starts with. */
  function WhitespaceRun(s: string): (n: nat)
    ensures n <= |s|
    ensures forall i :: 0 <= i < n ==> IsWhitespace(s[i])
    ensures n < |s| ==> !IsWhitespace(s[n])
  {
    if s != [] && IsWhitespace(s[0]) then 1 + WhitespaceRun(s[1..]) else 0
  }

  /** `s.replace(/<br\s*\/?>/gi, '\n')` */
  function ReplaceBreaks(s: string): string
    decreases |s|
  {
    if s == [] then []
    else if BrTagLength(s) > 0 then "\n" + ReplaceBreaks(s[BrTagLength(s)..])
    else [s[0]] + ReplaceBreaks(s[1..])
  }

  predicate ClosingParagraphAt(s: string) {
    |s| >= 4 && s[0] == '<' && s[1] == '/' && LowerChar(s[2]) == 'p' && s[3] == '>'
  }

  /** `s.replace(/<\/p>/gi, '\n')` */
  function ReplaceParagraphEnds(s: string): string
    decreases |s|
  {
    if s == [] then []
    else if ClosingParagraphAt(s) then "\n" + ReplaceParagraphEnds(s[4..])
    else [s[0]] + ReplaceParagraphEnds(s[1..])
  }

  /** `s.replace(/<p>/gi, '')` */
  function RemoveParagraphStarts(s: string): string
    decreases |s|
  {
    if s == [] then []
    else if LiteralAt(s, 0, "<p>") then RemoveParagraphStarts(s[3..])
    else [s[0]] + RemoveParagraphStarts(s[1..])
  }

  /** The index of the last newline among the first `n` characters of `s`. */
  function LastNewline(s: string, n: nat): (r: Option<nat>)
    requires n <= |s|
    ensures r.Some? ==> r.value < n && s[r.value] == '\n' && forall k :: r.value < k < n ==> s[k] != '\n'
    ensures r.None? ==> forall k :: 0 <= k < n ==> s[k] != '\n'
  {
    if n == 0 then None
    else if s[n - 1] == '\n' then Some(n - 1)
    else LastNewline(s, n - 1)
  }

  /**
   * `s.replace(/\n\s*\n/g, '\n')`: a newline, then white space up to the
   * last newline of that run, collapse to one newline.
   */
  function CollapseBlankLines(s: string): string
    decreases |s|
  {
    if s == [] then []
    else if s[0] == '\n' then
      var t := s[1..];
      match LastNewline(t, WhitespaceRun(t))
      case Some(m) => "\n" + CollapseBlankLines(t[m + 1..])
      case None => [s[0]] + CollapseBlankLines(t)
    else [s[0]] + CollapseBlankLines(s[1..])
  }

  // ---------------------------------------------------------------------
  // What each rewrite does: text without markup is kept as it is, and a
  // match at the front is rewritten once.

  lemma {:induction false} BreaksKeepPlain(a: string, b: string)
    requires '<' !in a
    ensures ReplaceBreaks(a + b) == a + ReplaceBreaks(b)
    decreases |a|
  {
    if a != [] {
      var s := a + b;
      assert s[0] == a[0] != '<';
      assert BrTagLength(s) == 0;
      assert s[1..] == a[1..] + b;
      BreaksKeepPlain(a[1..], b);
      assert ReplaceBreaks(s) == [a[0]] + ReplaceBreaks(s[1..]);
      assert a == [a[0]] + a[1..];
    } else {
      assert a + b == b;
    }
  }


  /** `<br>` and `<br/>` each become one newline. */
  lemma BreakBecomesNewline(b: string)
    ensures ReplaceBreaks("<br>" + b) == "\n" + ReplaceBreaks(b)
    ensures ReplaceBreaks("<br/>" + b) == "\n" + ReplaceBreaks(b)
  {
    var s := "<br>" + b;
    assert s[3] == '>' && WhitespaceRun(s[3..]) == 0;
    assert BrTagLength(s) == 4 && s[4..] == b;
    var t := "<br/>" + b;
    assert t[3] == '/' && WhitespaceRun(t[3..]) == 0;
    assert BrTagLength(t) == 5 && t[5..] == b;
  }

  lemma {:induction false} ParagraphEndsKeepPlain(a: string, b: string)
    requires '<' !in a
    ensures ReplaceParagraphEnds(a + b) == a + ReplaceParagraphEnds(b)
    decreases |a|
  {
    if a != [] {
      var s := a + b;
      assert s[0] == a[0] != '<';
      assert !ClosingParagraphAt(s);
      assert s[1..] == a[1..] + b;
      ParagraphEndsKeepPlain(a[1..], b);
      assert ReplaceParagraphEnds(s) == [a[0]] + ReplaceParagraphEnds(s[1..]);
      assert a == [a[0]] + a[1..];
    } else {
      assert a + b == b;
    }
  }


  /** `</p>` becomes one newline. */
  lemma ParagraphEndBecomesNewline(b: string)
    ensures ReplaceParagraphEnds("</p>" + b) == "\n" + ReplaceParagraphEnds(b)
  {
    var s := "</p>" + b;
    assert ClosingParagraphAt(s) && s[4..] == b;
  }

  lemma {:induction false} ParagraphStartsKeepPlain(a: string, b: string)
    requires '<' !in a
    ensures RemoveParagraphStarts(a + b) == a + RemoveParagraphStarts(b)
    decreases |a|
  {
    if a != [] {
      var s := a + b;
      assert s[0] == a[0] != '<';
      assert !LiteralAt(s, 0, "<p>");
      assert s[1..] == a[1..] + b;
      ParagraphStartsKeepPlain(a[1..], b);
      assert RemoveParagraphStarts(s) == [a[0]] + RemoveParagraphStarts(s[1..]);
      assert a == [a[0]] + a[1..];
    } else {
      assert a + b == b;
    }
  }


  /** `<p>` disappears. */
  lemma ParagraphStartRemoved(b: string)
    ensures RemoveParagraphStarts("<p>" + b) == RemoveParagraphStarts(b)
  {
    var s := "<p>" + b;
    assert LiteralAt(s[3..], 0, "");
    assert LiteralAt(s[2..], 0, ">") by { assert s[2..][1..] == s[3..]; }
    assert LiteralAt(s[1..], 0, "p>") by { assert s[1..][1..] == s[2..]; }
    assert LiteralAt(s, 0, "<p>");
    assert s[3..] == b;
  }

  lemma {:induction false} CollapseKeepsLines(a: string, b: string)
    requires '\n' !in a
    ensures CollapseBlankLines(a + b) == a + CollapseBlankLines(b)
    decreases |a|
  {
    if a != [] {
      var s := a + b;
      assert s[0] == a[0] != '\n';
      assert s[1..] == a[1..] + b;
      CollapseKeepsLines(a[1..], b);
      assert CollapseBlankLines(s) == [a[0]] + CollapseBlankLines(s[1..]);
      assert a == [a[0]] + a[1..];
    } else {
      assert a + b == b;
    }
  }


  /** An empty line between two lines collapses into one newline. */
  lemma BlankLineCollapses(b: string)
    requires b == [] || !IsWhitespace(b[0])
    ensures CollapseBlankLines("\n\n" + b) == "\n" + CollapseBlankLines(b)
  {
    var s := "\n\n" + b;
    var t := s[1..];
    assert t == "\n" + b && t[1..] == b;
    assert WhitespaceRun(t[1..]) == 0;
    assert WhitespaceRun(t) == 1;
    assert LastNewline(t, 1) == Some(0);
  }
}
