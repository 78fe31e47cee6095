/** The text normaliser applied to OCR output (`cleanText`) and the step that
    joins the cleaned pages of a multi-page document. The OCR engine itself is
    not modelled: page texts are inputs. */
module Ocr {
  import opened TextUtil

  // ---------------------------------------------------------------------
  // Properties of normalised text
  // ---------------------------------------------------------------------

  predicate NoDoubleSpace(s: string) {
    forall k :: 0 <= k < |s| - 1 ==> !(s[k] == ' ' && s[k + 1] == ' ')
  }

  /** No line (a maximal run without '\n') starts or ends with whitespace. */
  predicate LineEdgesClean(s: string) {
    forall k :: 0 <= k < |s| && s[k] != '\n' && IsSpace(s[k]) ==>
      0 < k && s[k - 1] != '\n' && k + 1 < |s| && s[k + 1] != '\n'
  }

  predicate Trimmed(s: string) {
    s == [] || (!IsSpace(s[0]) && !IsSpace(s[|s| - 1]))
  }

  /** What the normaliser promises about its output. */
  predicate Normalized(s: string) {
    NoCharIn(s, '\r') && NoCharIn(s, '\t') && NoDoubleSpace(s) && LineEdgesClean(s)
  }

  /** A stage that introduces neither carriage returns nor tabs. */
  predicate KeepsClean(s: string, r: string) {
    (NoCharIn(s, '\r') ==> NoCharIn(r, '\r')) && (NoCharIn(s, '\t') ==> NoCharIn(r, '\t'))
  }

  // ---------------------------------------------------------------------
  // The stages of cleanText, in order (backend-node/utils/ocr.js)
  // ---------------------------------------------------------------------

  /** `.replace(/\r\n/g, '\n')`, scanning s from position i. */
  function ReplaceCrLf(s: string, i: nat): string
    requires i <= |s|
    decreases |s| - i
  {
    if i == |s| then []
    else if PrefixAt(s, i, "\r\n") then "\n" + ReplaceCrLf(s, i + 2)
    else [s[i]] + ReplaceCrLf(s, i + 1)
  }

  /** `.replace(/\r/g, '\n')`. */
  function ReplaceCr(s: string, i: nat): string
    requires i <= |s|
    decreases |s| - i
  {
    if i == |s| then []
    else if s[i] == '\r' then "\n" + ReplaceCr(s, i + 1)
    else [s[i]] + ReplaceCr(s, i + 1)
  }

  /** `.replace(/\n{3,}/g, '\n\n')`: every maximal run of three or more line
      feeds becomes exactly two; shorter runs are copied. */
  function CollapseBlankLines(s: string, i: nat): string
    requires i <= |s|
    decreases |s| - i
  {
    if i == |s| then []
    else if s[i] == '\n' then
      var j := RunEnd(s, i, Newline);
      (if j - i >= 3 then "\n\n" else s[i..j]) + CollapseBlankLines(s, j)
    else [s[i]] + CollapseBlankLines(s, i + 1)
  }

  /** `.replace(/[ \t]+/g, ' ')`: every run of spaces and tabs becomes one space. */
  function CollapseSpaces(s: string, i: nat): string
    requires i <= |s|
    decreases |s| - i
  {
    if i == |s| then []
    else if InClass(s[i], Blank) then " " + CollapseSpaces(s, RunEnd(s, i, Blank))
    else [s[i]] + CollapseSpaces(s, i + 1)
  }

  // What each stage keeps or establishes.

  lemma {:induction false} ReplaceCrLfKeeps(s: string, i: nat)
    requires i <= |s|
    ensures KeepsClean(s, ReplaceCrLf(s, i))
    decreases |s| - i
  {
    if i < |s| {
      if PrefixAt(s, i, "\r\n") {
        ReplaceCrLfKeeps(s, i + 2);
      } else {
        ReplaceCrLfKeeps(s, i + 1);
      }
    }
  }

  /** No carriage return survives the second replacement. */
  lemma {:induction false} ReplaceCrRemoves(s: string, i: nat)
    requires i <= |s|
    ensures NoCharIn(ReplaceCr(s, i), '\r')
    ensures KeepsClean(s, ReplaceCr(s, i))
    decreases |s| - i
  {
    if i < |s| { ReplaceCrRemoves(s, i + 1); }
  }

  lemma {:induction false} CollapseBlankLinesKeeps(s: string, i: nat)
    requires i <= |s|
    ensures KeepsClean(s, CollapseBlankLines(s, i))
    decreases |s| - i
  {
    if i < |s| {
      if s[i] == '\n' {
        CollapseBlankLinesKeeps(s, RunEnd(s, i, Newline));
      } else {
        CollapseBlankLinesKeeps(s, i + 1);
      }
    }
  }

  /** After the blank collapse no tab is left and no two spaces are adjacent. */
  lemma {:induction false} CollapseSpacesProps(s: string, i: nat)
    requires i <= |s|
    ensures NoCharIn(CollapseSpaces(s, i), '\t') && NoDoubleSpace(CollapseSpaces(s, i))
    ensures NoCharIn(s, '\r') ==> NoCharIn(CollapseSpaces(s, i), '\r')
    ensures CollapseSpaces(s, i) != [] && CollapseSpaces(s, i)[0] == ' ' ==> i < |s| && InClass(s[i], Blank)
    decreases |s| - i
  {
    if i < |s| {
      if InClass(s[i], Blank) {
        var j := RunEnd(s, i, Blank);
        RunEndProps(s, i, Blank);
        CollapseSpacesProps(s, j);
      } else {
        CollapseSpacesProps(s, i + 1);
      }
    }
  }

  /** Index of the line feed that ends the line starting at i, or |s|. */
  function LineEnd(s: string, i: nat): (j: nat)
    requires i <= |s|
    ensures i <= j <= |s|
    ensures forall k :: i <= k < j ==> s[k] != '\n'
    ensures j < |s| ==> s[j] == '\n'
    decreases |s| - i
  {
    if i < |s| && s[i] != '\n' then LineEnd(s, i + 1) else i
  }

  /** `.split('\n').map(line => line.trim()).join('\n')`, from the line that
      starts at position i. */
  function TrimLines(s: string, i: nat): (r: string)
    requires i <= |s|
    decreases |s| - i
  {
    var j := LineEnd(s, i);
    if j == |s| then Trim(s[i..j]) else Trim(s[i..j]) + "\n" + TrimLines(s, j + 1)
  }

  /** The trimmed piece of s[i..j] is a run of characters of s itself. */
  lemma TrimmedSliceChars(s: string, i: nat, j: nat)
    requires i <= j <= |s|
    ensures i + TrimOffset(s[i..j]) + |Trim(s[i..j])| <= j
    ensures forall k :: 0 <= k < |Trim(s[i..j])| ==> Trim(s[i..j])[k] == s[i + TrimOffset(s[i..j]) + k]
  {
    var t := s[i..j];
    TrimSlice(t);
    var line := Trim(t);
    var o := TrimOffset(t);
    forall k | 0 <= k < |line|
      ensures line[k] == s[i + o + k]
    {
      assert line[k] == t[o + k];
    }
  }

  /** A trimmed piece of one line: a slice of s without line feeds. */
  lemma TrimmedLine(s: string, i: nat, j: nat)
    requires i <= j <= |s| && forall k :: i <= k < j ==> s[k] != '\n'
    ensures Trimmed(Trim(s[i..j])) && NoCharIn(Trim(s[i..j]), '\n')
  {
    TrimSlice(s[i..j]);
    TrimmedSliceChars(s, i, j);
  }

  lemma TrimmedLineKeeps(s: string, i: nat, j: nat)
    requires i <= j <= |s|
    ensures KeepsClean(s, Trim(s[i..j]))
  {
    TrimSlice(s[i..j]);
    TrimmedSliceChars(s, i, j);
  }

  lemma TrimmedLineNoDoubleSpace(s: string, i: nat, j: nat)
    requires i <= j <= |s| && NoDoubleSpace(s)
    ensures NoDoubleSpace(Trim(s[i..j]))
  {
    TrimSlice(s[i..j]);
    TrimmedSliceChars(s, i, j);
  }

  lemma LineEdgesOfLine(line: string)
    requires Trimmed(line) && NoCharIn(line, '\n')
    ensures LineEdgesClean(line)
  {
  }

  lemma LineEdgesOfJoin(line: string, rest: string)
    requires Trimmed(line) && NoCharIn(line, '\n') && LineEdgesClean(rest)
    ensures LineEdgesClean(line + "\n" + rest)
  {
    var r := line + "\n" + rest;
    assert forall k :: 0 <= k < |line| ==> r[k] == line[k];
    assert forall k :: |line| < k < |r| ==> r[k] == rest[k - |line| - 1];
  }

  lemma NoDoubleSpaceOfJoin(line: string, rest: string)
    requires NoDoubleSpace(line) && NoDoubleSpace(rest)
    ensures NoDoubleSpace(line + "\n" + rest)
  {
    var r := line + "\n" + rest;
    assert forall k :: 0 <= k < |line| ==> r[k] == line[k];
    assert forall k :: |line| < k < |r| ==> r[k] == rest[k - |line| - 1];
  }

  lemma KeepsCleanOfJoin(s: string, line: string, rest: string)
    requires KeepsClean(s, line) && KeepsClean(s, rest)
    ensures KeepsClean(s, line + "\n" + rest)
  {
    var r := line + "\n" + rest;
    assert forall k :: 0 <= k < |line| ==> r[k] == line[k];
    assert forall k :: |line| < k < |r| ==> r[k] == rest[k - |line| - 1];
  }

  lemma {:induction false} TrimLinesKeeps(s: string, i: nat)
    requires i <= |s|
    ensures KeepsClean(s, TrimLines(s, i))
    decreases |s| - i
  {
    var j := LineEnd(s, i);
    TrimmedLineKeeps(s, i, j);
    if j < |s| {
      TrimLinesKeeps(s, j + 1);
      KeepsCleanOfJoin(s, Trim(s[i..j]), TrimLines(s, j + 1));
    }
  }

  /** After TrimLines no line starts or ends with whitespace. */
  lemma {:induction false} TrimLinesEdges(s: string, i: nat)
    requires i <= |s|
    ensures LineEdgesClean(TrimLines(s, i))
    decreases |s| - i
  {
    var j := LineEnd(s, i);
    TrimmedLine(s, i, j);
    if j == |s| {
      LineEdgesOfLine(Trim(s[i..j]));
    } else {
      TrimLinesEdges(s, j + 1);
      LineEdgesOfJoin(Trim(s[i..j]), TrimLines(s, j + 1));
    }
  }

  lemma {:induction false} TrimLinesNoDoubleSpace(s: string, i: nat)
    requires i <= |s| && NoDoubleSpace(s)
    ensures NoDoubleSpace(TrimLines(s, i))
    decreases |s| - i
  {
    var j := LineEnd(s, i);
    TrimmedLineNoDoubleSpace(s, i, j);
    if j < |s| {
      TrimLinesNoDoubleSpace(s, j + 1);
      NoDoubleSpaceOfJoin(Trim(s[i..j]), TrimLines(s, j + 1));
    }
  }

  /** `cleanText(text)`; the falsy input of the source is the empty string. */
  function CleanText(text: string): string {
    if text == "" then ""
    else Trim(TrimLines(CollapseSpaces(CollapseBlankLines(ReplaceCr(ReplaceCrLf(text, 0), 0), 0), 0), 0))
  }

  /** The empty text stays empty; any output holds no carriage return and no
      tab, no two adjacent spaces, no line that starts or ends with
      whitespace, and is trimmed as a whole. */
  lemma CleanTextNormalized(text: string)
    ensures text == "" ==> CleanText(text) == ""
    ensures Normalized(CleanText(text)) && Trimmed(CleanText(text))
  {
    if text != "" {
      var s1 := ReplaceCrLf(text, 0);
      var s2 := ReplaceCr(s1, 0);
      var s3 := CollapseBlankLines(s2, 0);
      var s4 := CollapseSpaces(s3, 0);
      var s5 := TrimLines(s4, 0);
      ReplaceCrLfKeeps(text, 0);
      ReplaceCrRemoves(s1, 0);
      CollapseBlankLinesKeeps(s2, 0);
      CollapseSpacesProps(s3, 0);
      TrimLinesKeeps(s4, 0);
      TrimLinesEdges(s4, 0);
      TrimLinesNoDoubleSpace(s4, 0);
      TrimKeeps(s5);
      TrimSlice(s5);
    }
  }

  lemma TrimKeeps(s: string)
    requires NoCharIn(s, '\t') && NoCharIn(s, '\r') && NoDoubleSpace(s) && LineEdgesClean(s)
    ensures Normalized(Trim(s))
  {
    TrimSlice(s);
    var r := Trim(s);
    var a := TrimOffset(s);
    assert forall k :: 0 <= k < |r| ==> r[k] == s[a + k];
    assert NoDoubleSpace(r);
    forall k | 0 <= k < |r| && r[k] != '\n' && IsSpace(r[k])
      ensures 0 < k && r[k - 1] != '\n' && k + 1 < |r| && r[k + 1] != '\n'
    {
      assert s[a + k] == r[k];
    }
  }

  // ---------------------------------------------------------------------
  // cleanText is not idempotent
  // ---------------------------------------------------------------------

  // The example below: a text whose two middle lines hold a single space,
  // the result of one pass, and the result of a second pass.
  const SpacedLines: string := "a\n \n \nb"
  const ThreeBreaks: string := "a\n\n\nb"
  const TwoBreaks: string := "a\n\nb"

  // Each stage evaluated on these inputs, one position at a time from the end.

  lemma FirstPassReplace()
    ensures ReplaceCrLf(SpacedLines, 0) == SpacedLines
    ensures ReplaceCr(SpacedLines, 0) == SpacedLines
  {
    var x := SpacedLines;
    assert ReplaceCrLf(x, 6) == "b";
    assert ReplaceCrLf(x, 5) == "\nb";
    assert ReplaceCrLf(x, 4) == " \nb";
    assert ReplaceCrLf(x, 3) == "\n \nb";
    assert ReplaceCrLf(x, 2) == " \n \nb";
    assert ReplaceCrLf(x, 1) == "\n \n \nb";
  }

  lemma FirstPassCollapse()
    ensures CollapseBlankLines(SpacedLines, 0) == SpacedLines
    ensures CollapseSpaces(SpacedLines, 0) == SpacedLines
  {
    var x := SpacedLines;
    assert CollapseBlankLines(x, 6) == "b";
    assert RunEnd(x, 5, Newline) == 6;
    assert CollapseBlankLines(x, 5) == "\nb";
    assert CollapseBlankLines(x, 4) == " \nb";
    assert RunEnd(x, 3, Newline) == 4;
    assert CollapseBlankLines(x, 3) == "\n \nb";
    assert CollapseBlankLines(x, 2) == " \n \nb";
    assert RunEnd(x, 1, Newline) == 2;
    assert CollapseBlankLines(x, 1) == "\n \n \nb";
    assert CollapseSpaces(x, 6) == "b";
    assert CollapseSpaces(x, 5) == "\nb";
    assert RunEnd(x, 4, Blank) == 5;
    assert CollapseSpaces(x, 4) == " \nb";
    assert CollapseSpaces(x, 3) == "\n \nb";
    assert RunEnd(x, 2, Blank) == 3;
    assert CollapseSpaces(x, 2) == " \n \nb";
    assert CollapseSpaces(x, 1) == "\n \n \nb";
  }

  lemma FirstPassTrimLines()
    ensures TrimLines(SpacedLines, 0) == ThreeBreaks
  {
    var x := SpacedLines;
    assert LineEnd(x, 6) == 7;
    assert Trim(x[6..7]) == "b";
    assert TrimLines(x, 6) == "b";
    assert LineEnd(x, 4) == 5;
    assert x[4..5] == " ";
    assert Trim(" ") == "";
    assert TrimLines(x, 4) == "\nb";
    assert LineEnd(x, 2) == 3;
    assert x[2..3] == " ";
    assert TrimLines(x, 2) == "\n\nb";
    assert LineEnd(x, 0) == 1;
    assert Trim(x[0..1]) == "a";
  }

  lemma FirstPass()
    ensures CleanText(SpacedLines) == ThreeBreaks
  {
    FirstPassReplace();
    FirstPassCollapse();
    FirstPassTrimLines();
    TrimNoEdges(ThreeBreaks);
  }

  lemma SecondPassStages()
    ensures ReplaceCrLf(ThreeBreaks, 0) == ThreeBreaks
    ensures ReplaceCr(ThreeBreaks, 0) == ThreeBreaks
    ensures CollapseBlankLines(ThreeBreaks, 0) == TwoBreaks
  {
    var y := ThreeBreaks;
    assert ReplaceCrLf(y, 4) == "b";
    assert ReplaceCrLf(y, 3) == "\nb";
    assert ReplaceCrLf(y, 2) == "\n\nb";
    assert ReplaceCrLf(y, 1) == "\n\n\nb";
    assert CollapseBlankLines(y, 4) == "b";
    assert RunEnd(y, 1, Newline) == 4;
    assert CollapseBlankLines(y, 1) == "\n\nb";
  }

  lemma SecondPassSpaces()
    ensures CollapseSpaces(TwoBreaks, 0) == TwoBreaks
  {
    var z := TwoBreaks;
    assert CollapseSpaces(z, 3) == "b";
    assert CollapseSpaces(z, 2) == "\nb";
    assert CollapseSpaces(z, 1) == "\n\nb";
  }

  lemma SecondPassLines()
    ensures TrimLines(TwoBreaks, 0) == TwoBreaks
  {
    var z := TwoBreaks;
    assert LineEnd(z, 3) == 4;
    assert Trim(z[3..4]) == "b";
    assert TrimLines(z, 3) == "b";
    assert LineEnd(z, 2) == 2;
    assert Trim(z[2..2]) == "";
    assert TrimLines(z, 2) == "\nb";
    assert LineEnd(z, 0) == 1;
    assert Trim(z[0..1]) == "a";
  }

  lemma SecondPass()
    ensures CleanText(ThreeBreaks) == TwoBreaks
  {
    SecondPassStages();
    SecondPassSpaces();
    SecondPassLines();
    TrimNoEdges(TwoBreaks);
  }

  /** The run collapse happens before lines are trimmed, so lines that hold
      only spaces survive it and become empty afterwards: one pass leaves
      three consecutive line feeds, and a second pass removes one of them. */
  lemma CleanTextNotIdempotent()
    ensures CleanText(SpacedLines) == ThreeBreaks
    ensures CleanText(CleanText(SpacedLines)) == TwoBreaks
    ensures CleanText(CleanText(SpacedLines)) != CleanText(SpacedLines)
  {
    FirstPass();
    SecondPass();
  }

  lemma ThreeBreaksHasRun()
    ensures Contains(ThreeBreaks, "\n\n\n")
  {
    var x := ThreeBreaks;
    assert PrefixAt(x, 1, "\n\n\n");
    ContainsFromWitness(x, "\n\n\n", 0, 1);
  }

  /** So a cleaned text can still hold a run of three line feeds. */
  lemma CleanTextLeavesThreeBreaks()
    ensures Contains(CleanText(SpacedLines), "\n\n\n")
  {
    FirstPass();
    ThreeBreaksHasRun();
  }

  // ---------------------------------------------------------------------
  // Joining pages (extractTextFromMultipleImages)
  // ---------------------------------------------------------------------

  const PageBreak: string := "\n\n--- Page Break ---\n\n"

  /** Each page text cleaned, in input order. */
  function CleanPages(pages: seq<string>): (r: seq<string>)
    ensures |r| == |pages| && forall i :: 0 <= i < |pages| ==> r[i] == CleanText(pages[i])
  {
    seq(|pages|, i requires 0 <= i < |pages| => CleanText(pages[i]))
  }

  /** The combined text of a multi-page document. */
  function JoinPages(pages: seq<string>): string {
    Join(CleanPages(pages), PageBreak)
  }

  /** One page is just that page cleaned, and every further page adds the
      page-break line and its own cleaned text at the end. */
  lemma JoinPagesShape(pages: seq<string>, p: string)
    ensures JoinPages([p]) == CleanText(p)
    ensures pages != [] ==> JoinPages(pages + [p]) == JoinPages(pages) + PageBreak + CleanText(p)
  {
    var all := CleanPages(pages + [p]);
    assert all[..|pages|] == CleanPages(pages);
  }

  /** The combined text is normalised as each page is: the separator adds no
      carriage return, tab, double space or untrimmed line. */
  lemma {:induction false} JoinPagesNormalized(pages: seq<string>)
    ensures Normalized(JoinPages(pages))
    decreases |pages|
  {
    if |pages| == 1 {
      CleanTextNormalized(pages[0]);
    } else if |pages| > 1 {
      var front := pages[..|pages| - 1];
      var last := pages[|pages| - 1];
      assert pages == front + [last];
      JoinPagesNormalized(front);
      CleanTextNormalized(last);
      JoinPagesShape(front, last);
      JoinPreserves(JoinPages(front), CleanText(last));
    }
  }

  lemma JoinPreserves(a: string, b: string)
    requires Normalized(a) && Normalized(b)
    ensures Normalized(a + PageBreak + b)
  {
    var s := a + PageBreak + b;
    var n := |a| + |PageBreak|;
    assert forall k :: 0 <= k < |a| ==> s[k] == a[k];
    assert forall k :: |a| <= k < n ==> s[k] == PageBreak[k - |a|];
    assert forall k :: n <= k < |s| ==> s[k] == b[k - n];
    JoinNoDoubleSpace(a, b);
    JoinLineEdges(a, b);
  }

  lemma JoinNoDoubleSpace(a: string, b: string)
    requires NoDoubleSpace(a) && NoDoubleSpace(b)
    ensures NoDoubleSpace(a + PageBreak + b)
  {
    var s := a + PageBreak + b;
    var n := |a| + |PageBreak|;
    forall k | 0 <= k < |s| - 1
      ensures !(s[k] == ' ' && s[k + 1] == ' ')
    {
      if k + 1 < |a| {
        assert s[k] == a[k] && s[k + 1] == a[k + 1];
      } else if n <= k {
        assert s[k] == b[k - n] && s[k + 1] == b[k + 1 - n];
      } else if k < |a| {
        assert s[k + 1] == PageBreak[0];
      } else {
        assert s[k] == PageBreak[k - |a|];
        if k + 1 < n { assert s[k + 1] == PageBreak[k + 1 - |a|]; }
      }
    }
  }

  lemma JoinLineEdges(a: string, b: string)
    requires LineEdgesClean(a) && LineEdgesClean(b)
    ensures LineEdgesClean(a + PageBreak + b)
  {
    var s := a + PageBreak + b;
    var n := |a| + |PageBreak|;
    forall k | 0 <= k < |s| && s[k] != '\n' && IsSpace(s[k])
      ensures 0 < k && s[k - 1] != '\n' && k + 1 < |s| && s[k + 1] != '\n'
    {
      if k < |a| {
        assert s[k] == a[k];
        assert s[k - 1] == a[k - 1];
        assert s[k + 1] == a[k + 1];
      } else if n <= k {
        assert s[k] == b[k - n];
        assert s[k + 1] == b[k + 1 - n];
        assert s[k - 1] == b[k - 1 - n];
      } else {
        assert s[k] == PageBreak[k - |a|];
        assert s[k - 1] == PageBreak[k - 1 - |a|];
        assert s[k + 1] == PageBreak[k + 1 - |a|];
      }
    }
  }
}
