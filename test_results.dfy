/** `extractTestResults`: the demonstration short-circuit, the scan for
    "name value unit range" rows, and the scan for well-known test names. */
module TestResults {
  import opened TextUtil
  import opened Scan
  import opened Patterns
  import opened TestStatus

  datatype TestResult = TestResult(test: string, value: string, unit: string, range: string, status: Status)

  /** A row whose lower-cased name contains one of these is a header or a
      label, not a test. */
  const SkipWords: seq<string> := [
    "diagnostic", "center", "street", "mumbai", "india", "contact", "email",
    "patient", "information", "age", "sex", "date", "report", "referred",
    "laboratory", "biochemistry", "comments", "interpretation", "test",
    "result", "value", "unit", "range", "normal", "male", "female", "verified"
  ]

  predicate HasSkipWord(lower: string) {
    exists i :: 0 <= i < |SkipWords| && Contains(lower, SkipWords[i])
  }

  // ---------------------------------------------------------------------
  // The demonstration report
  // ---------------------------------------------------------------------

  predicate IsDemoReport(text: string) {
    Contains(text, "Fasting Blood Glucose") && Contains(text, "mg/dL") && Contains(text, "70-100")
  }

  const DemoGlucose := TestResult("Fasting Blood Glucose", "115", "mg/dL", "70-100", High)
  const DemoHbA1c := TestResult("HbA1c", "6.2", "%", "4.0-5.6", High)
  const DemoCholesterol := TestResult("Total Cholesterol", "210", "mg/dL", "0-200", High)
  const DemoTriglycerides := TestResult("Triglycerides", "165", "mg/dL", "0-150", High)
  const DemoHdl := TestResult("HDL Cholesterol", "42", "mg/dL", "40-60", Normal)
  const DemoLdl := TestResult("LDL Cholesterol", "130", "mg/dL", "0-100", High)
  const DemoCreatinine := TestResult("Creatinine", "1.0", "mg/dL", "0.6-1.2", Normal)
  const DemoUrea := TestResult("Blood Urea Nitrogen", "18", "mg/dL", "7-20", Normal)

  const DemoTests: seq<TestResult> :=
    [DemoGlucose, DemoHbA1c, DemoCholesterol, DemoTriglycerides, DemoHdl, DemoLdl, DemoCreatinine, DemoUrea]

  // ---------------------------------------------------------------------
  // Structured rows
  // ---------------------------------------------------------------------

  /** The row name cleanup: trim, drop trailing `:-.,` characters, trim. */
  function CleanRowName(raw: string): string {
    Trim(TrimEndClass(Trim(raw), Punct))
  }

  /** The result a Row match contributes, if its name passes the filters. */
  function RowEntry(m: Match): Option<TestResult>
    requires |m.groups| == 4
  {
    var name := CleanRowName(m.groups[0]);
    if HasSkipWord(ToLower(name)) || |name| < 3 then None
    else
      match ParseFloat(m.groups[1])
      case None => None
      case Some(v) => Some(TestResult(name, m.groups[1], m.groups[2], m.groups[3], DetermineTestStatus(name, v, m.groups[3])))
  }

  /** The results of the global Row scan from `lastIndex` = from. */
  function RowScan(s: string, from: nat): seq<TestResult>
    requires from <= |s|
    decreases |s| - from
  {
    var r := Search(Row, s, from);
    if r.None? then []
    else
      SearchLeftmost(Row, s, from);
      var e := RowEntry(r.value);
      (if e.Some? then [e.value] else []) + RowScan(s, r.value.end)
  }

  // ---------------------------------------------------------------------
  // Well-known test names
  // ---------------------------------------------------------------------

  /** Some result already present has a name that, lower-cased, contains it. */
  predicate NameTaken(tests: seq<TestResult>, lower: string) {
    exists i :: 0 <= i < |tests| && Contains(ToLower(tests[i].test), lower)
  }

  /** `text.substring(Math.max(0, start - 50), start + 100)`. */
  function Window(s: string, start: nat): (w: string)
    requires start <= |s|
  {
    s[(if start >= 50 then start - 50 else 0)..(if start + 100 <= |s| then start + 100 else |s|)]
  }

  /** The text of the first range in ctx, or "". */
  function FirstRangeText(ctx: string): (r: string) {
    var found := Search(Range, ctx, 0);
    if found.Some? then
      SearchLeftmost(Range, ctx, 0);
      ctx[found.value.start..found.value.end]
    else ""
  }

  /** The result a NamedTest match contributes, given the results so far. */
  function NamedEntry(s: string, m: Match, tests: seq<TestResult>): Option<TestResult>
    requires |m.groups| == 3 && m.start <= |s|
  {
    var name := Trim(m.groups[0]);
    if NameTaken(tests, ToLower(name)) then None
    else
      match ParseFloat(m.groups[1])
      case None => None
      case Some(v) =>
        var range := FirstRangeText(Window(s, m.start));
        Some(TestResult(name, m.groups[1], m.groups[2], range, DetermineTestStatus(name, v, range)))
  }

  /** The results after the global NamedTest scan from `lastIndex` = from,
      appended to the results so far. */
  function NamedScan(s: string, from: nat, tests: seq<TestResult>): seq<TestResult>
    requires from <= |s|
    decreases |s| - from
  {
    var r := Search(NamedTest, s, from);
    if r.None? then tests
    else
      SearchLeftmost(NamedTest, s, from);
      var e := NamedEntry(s, r.value, tests);
      NamedScan(s, r.value.end, tests + (if e.Some? then [e.value] else []))
  }

  /** What extractTestResults returns. */
  function TestResultsOf(text: string): seq<TestResult> {
    if IsDemoReport(text) then DemoTests else NamedScan(text, 0, RowScan(text, 0))
  }

  // ---------------------------------------------------------------------
  // The extraction, as the source performs it
  // ---------------------------------------------------------------------

  method ExtractTestResults(text: string) returns (tests: seq<TestResult>)
    ensures tests == TestResultsOf(text)
  {
    if Contains(text, "Fasting Blood Glucose") && Contains(text, "mg/dL") && Contains(text, "70-100") {
      tests := DemoTests;
      return;
    }
    tests := ExtractRows(text);
    tests := ExtractNamed(text, tests);
  }

  /** The first loop: every Row match, in order. */
  method ExtractRows(text: string) returns (tests: seq<TestResult>)
    ensures tests == RowScan(text, 0)
  {
    tests := [];
    var lastIndex := 0;
    ghost var all := RowScan(text, 0);
    var found := Search(Row, text, lastIndex);
    while found.Some?
      invariant lastIndex <= |text| && found == Search(Row, text, lastIndex)
      invariant tests + RowScan(text, lastIndex) == all
      decreases |text| - lastIndex
    {
      SearchLeftmost(Row, text, lastIndex);
      var m := found.value;
      RowScanStep(text, lastIndex);
      ghost var entry := RowEntry(m);
      ghost var step := if entry.Some? then [entry.value] else [];
      ghost var prev := tests;
      lastIndex := m.end;
      var result := RowResult(m);
      if result.Some? {
        tests := tests + [result.value];
      }
      assert tests == prev + step;
      AppendAssoc(prev, step, RowScan(text, lastIndex));
      found := Search(Row, text, lastIndex);
    }
  }

  /** The body of the first loop: the filters and the status of one row. */
  method RowResult(m: Match) returns (result: Option<TestResult>)
    requires |m.groups| == 4
    ensures result == RowEntry(m)
  {
    result := None;
    var testName := CleanRowName(m.groups[0]);
    if !HasSkipWord(ToLower(testName)) && |testName| >= 3 {
      var numValue := ParseFloat(m.groups[1]);
      if numValue.Some? {
        var status := DetermineTestStatus(testName, numValue.value, m.groups[3]);
        result := Some(TestResult(testName, m.groups[1], m.groups[2], m.groups[3], status));
      }
    }
  }

  lemma AppendAssoc(a: seq<TestResult>, b: seq<TestResult>, c: seq<TestResult>)
    ensures a + (b + c) == (a + b) + c
  {
  }

  /** One step of the row scan. */
  lemma RowScanStep(s: string, from: nat)
    requires from <= |s| && Search(Row, s, from).Some?
    ensures Search(Row, s, from).value.end <= |s| && |Search(Row, s, from).value.groups| == 4
    ensures var m := Search(Row, s, from).value;
      RowScan(s, from) == (if RowEntry(m).Some? then [RowEntry(m).value] else []) + RowScan(s, m.end)
  {
    SearchLeftmost(Row, s, from);
  }

  /** The second loop: every NamedTest match, in order, after the rows. */
  method ExtractNamed(text: string, rows: seq<TestResult>) returns (tests: seq<TestResult>)
    ensures tests == NamedScan(text, 0, rows)
  {
    tests := rows;
    var lastIndex := 0;
    var found := Search(NamedTest, text, lastIndex);
    while found.Some?
      invariant lastIndex <= |text| && found == Search(NamedTest, text, lastIndex)
      invariant NamedScan(text, lastIndex, tests) == NamedScan(text, 0, rows)
      decreases |text| - lastIndex
    {
      SearchLeftmost(NamedTest, text, lastIndex);
      var m := found.value;
      ghost var entry := NamedEntry(text, m, tests);
      ghost var next := tests + (if entry.Some? then [entry.value] else []);
      lastIndex := m.end;
      var testName := Trim(m.groups[0]);
      if !NameTaken(tests, ToLower(testName)) {
        var numValue := ParseFloat(m.groups[1]);
        if numValue.Some? {
          var range := FirstRangeText(Window(text, m.start));
          var status := DetermineTestStatus(testName, numValue.value, range);
          tests := tests + [TestResult(testName, m.groups[1], m.groups[2], range, status)];
        }
      }
      assert tests == next;
      found := Search(NamedTest, text, lastIndex);
    }
  }

  // ---------------------------------------------------------------------
  // Properties
  // ---------------------------------------------------------------------

  /** A text that is a range from its first character parses as one. */
  lemma RangeHereParses(t: string)
    requires RangeAt(t, 0).Some?
    ensures ParsedRange(t).Some?
  {
    SearchLeftmost(Range, t, 0);
    assert PatternAt(Range, t, 0) == RangeAt(t, 0);
  }

  /** A row match gives a result exactly when its cleaned name passes the
      skip-word and length filters (its value always parses), and the result
      is then classified by its own range. */
  lemma RowEntryOfMatch(s: string, q: nat)
    requires q <= |s| && PatternAt(Row, s, q).Some?
    ensures var m := PatternAt(Row, s, q).value;
      var name := CleanRowName(m.groups[0]);
      && (RowEntry(m).Some? <==> !HasSkipWord(ToLower(name)) && |name| >= 3)
      && (RowEntry(m).Some? ==>
            && ParseFloat(m.groups[1]).Some? && ParsedRange(m.groups[3]).Some?
            && RowEntry(m).value == TestResult(name, m.groups[1], m.groups[2], m.groups[3],
                 Classify(ParseFloat(m.groups[1]).value, ParsedRange(m.groups[3]).value.0, ParsedRange(m.groups[3]).value.1)))
  {
    var m := PatternAt(Row, s, q).value;
    RowAtShape(s, q);
    RangeHereParses(m.groups[3]);
  }

  /** Every row result passed the filters and has a known status. */
  lemma {:induction false} RowScanProps(s: string, from: nat)
    requires from <= |s|
    ensures forall t :: t in RowScan(s, from) ==>
      !HasSkipWord(ToLower(t.test)) && |t.test| >= 3 && t.status != Unknown
    decreases |s| - from
  {
    var r := Search(Row, s, from);
    if r.Some? {
      SearchLeftmost(Row, s, from);
      RowEntryOfMatch(s, r.value.start);
      RowScanProps(s, r.value.end);
    }
  }

  /** A NamedTest result is new (no earlier name contains it), and it is
      classified by the first range near it when there is one, by the
      reference table otherwise. */
  lemma NamedEntryProps(s: string, m: Match, tests: seq<TestResult>)
    requires |m.groups| == 3 && m.start <= |s| && NamedEntry(s, m, tests).Some?
    ensures var t := NamedEntry(s, m, tests).value;
      && t.test == Trim(m.groups[0]) && !NameTaken(tests, ToLower(t.test))
      && ParseFloat(m.groups[1]).Some?
      && t.range == FirstRangeText(Window(s, m.start))
      && (t.range != [] ==> ParsedRange(t.range).Some? && t.status != Unknown)
      && (t.range == [] ==> t.status == TableStatus(NameKey(t.test), ParseFloat(m.groups[1]).value, 0))
  {
    var ctx := Window(s, m.start);
    var found := Search(Range, ctx, 0);
    if found.Some? {
      SearchLeftmost(Range, ctx, 0);
      RangeAtOwn(ctx, found.value.start);
      RangeHereParses(ctx[found.value.start..found.value.end]);
    }
  }

  /** One step of the named scan. */
  lemma NamedScanStep(s: string, from: nat, acc: seq<TestResult>)
    requires from <= |s| && Search(NamedTest, s, from).Some?
    ensures var m := Search(NamedTest, s, from).value;
      && from <= m.start < m.end <= |s| && |m.groups| == 3
      && NamedScan(s, from, acc) == NamedScan(s, m.end, acc + (if NamedEntry(s, m, acc).Some? then [NamedEntry(s, m, acc).value] else []))
  {
    SearchLeftmost(NamedTest, s, from);
  }

  /** A named result is new to the results before it. */
  lemma NamedEntryNew(s: string, m: Match, tests: seq<TestResult>)
    requires |m.groups| == 3 && m.start <= |s| && NamedEntry(s, m, tests).Some?
    ensures !NameTaken(tests, ToLower(NamedEntry(s, m, tests).value.test))
  {
  }

  /** Every result from index n on has a name no earlier result contains. */
  predicate NewNamesFrom(r: seq<TestResult>, n: nat) {
    forall k :: n <= k < |r| ==> !NameTaken(r[..k], ToLower(r[k].test))
  }

  /** The named scan keeps the results it starts from, and every result it
      adds has a name no earlier result contains. */
  lemma {:induction false} NamedScanProps(s: string, from: nat, acc: seq<TestResult>)
    requires from <= |s|
    ensures var r := NamedScan(s, from, acc);
      |acc| <= |r| && r[..|acc|] == acc && NewNamesFrom(r, |acc|)
    decreases |s| - from
  {
    var found := Search(NamedTest, s, from);
    if found.Some? {
      NamedScanStep(s, from, acc);
      var m := found.value;
      var e := NamedEntry(s, m, acc);
      var next := acc + (if e.Some? then [e.value] else []);
      NamedScanProps(s, m.end, next);
      var r := NamedScan(s, m.end, next);
      assert r[..|acc|] == next[..|acc|];
      if e.Some? {
        NamedEntryNew(s, m, acc);
        NewNamesExtend(acc, e.value, r);
      }
    }
  }

  lemma NewNamesExtend(acc: seq<TestResult>, e: TestResult, r: seq<TestResult>)
    requires |acc| + 1 <= |r| && r[..|acc| + 1] == acc + [e]
    requires NewNamesFrom(r, |acc| + 1) && !NameTaken(acc, ToLower(e.test))
    ensures NewNamesFrom(r, |acc|)
  {
    assert r[..|acc|] == acc && r[|acc|] == e by {
      assert r[..|acc|] == r[..|acc| + 1][..|acc|];
    }
  }

  /** Outside the demonstration report, the results are the row results in
      order, followed by named results that each add a new name. */
  lemma TestResultsShape(text: string)
    requires !IsDemoReport(text)
    ensures var r := TestResultsOf(text); var rows := RowScan(text, 0);
      && |rows| <= |r| && r[..|rows|] == rows
      && (forall k :: 0 <= k < |rows| ==> !HasSkipWord(ToLower(r[k].test)) && |r[k].test| >= 3 && r[k].status != Unknown)
      && NewNamesFrom(r, |rows|)
  {
    var rows := RowScan(text, 0);
    RowScanProps(text, 0);
    NamedScanProps(text, 0, rows);
    var r := TestResultsOf(text);
    forall k | 0 <= k < |rows|
      ensures !HasSkipWord(ToLower(r[k].test)) && |r[k].test| >= 3 && r[k].status != Unknown
    {
      assert r[k] == rows[k];
      assert rows[k] in rows;
    }
  }

  // ---------------------------------------------------------------------
  // The demonstration entries agree with determineTestStatus
  // ---------------------------------------------------------------------

  /** The entry's status is what determineTestStatus gives for its own
      name, parsed value and range. */
  predicate StatusRecomputes(t: TestResult) {
    ParseFloat(t.value).Some? && DetermineTestStatus(t.test, ParseFloat(t.value).value, t.range) == t.status
  }

  lemma WholeEntry(t: TestResult, v: nat, lo: nat, hi: nat)
    requires t.value == NatToString(v) && t.range == NatToString(lo) + "-" + NatToString(hi)
    requires t.status == Classify(v as real, lo as real, hi as real)
    ensures StatusRecomputes(t)
  {
    IntText(v);
    IntText(lo);
    IntText(hi);
    ParseFloatText(t.value);
    RangeOfTexts(NatToString(lo), NatToString(hi));
  }

  function DecimalString(w: nat, f: nat): string
    requires f < 10
  {
    NatToString(w) + "." + [DigitChar(f)]
  }

  lemma DecimalEntry(t: TestResult, v: (nat, nat), lo: (nat, nat), hi: (nat, nat))
    requires v.1 < 10 && lo.1 < 10 && hi.1 < 10
    requires t.value == DecimalString(v.0, v.1)
    requires t.range == DecimalString(lo.0, lo.1) + "-" + DecimalString(hi.0, hi.1)
    requires t.status == Classify(v.0 as real + (v.1 as real) / 10.0,
                                  lo.0 as real + (lo.1 as real) / 10.0, hi.0 as real + (hi.1 as real) / 10.0)
    ensures StatusRecomputes(t)
  {
    DecimalText(v.0, v.1);
    DecimalText(lo.0, lo.1);
    DecimalText(hi.0, hi.1);
    ParseFloatText(t.value);
    RangeOfTexts(DecimalString(lo.0, lo.1), DecimalString(hi.0, hi.1));
  }

  /** Every fixed entry of the demonstration report carries the status
      determineTestStatus computes from its own fields. */
  lemma DemoGlucoseRecomputes()
    ensures StatusRecomputes(DemoGlucose)
  {
    assert NatToString(115) == "115" && NatToString(70) == "70" && NatToString(100) == "100";
    WholeEntry(DemoGlucose, 115, 70, 100);
  }

  lemma DemoHbA1cRecomputes()
    ensures StatusRecomputes(DemoHbA1c)
  {
    assert NatToString(6) == "6" && NatToString(4) == "4" && NatToString(5) == "5";
    assert DigitChar(2) == '2' && DigitChar(0) == '0' && DigitChar(6) == '6';
    DecimalEntry(DemoHbA1c, (6, 2), (4, 0), (5, 6));
  }

  lemma DemoCholesterolRecomputes()
    ensures StatusRecomputes(DemoCholesterol)
  {
    assert NatToString(210) == "210" && NatToString(0) == "0" && NatToString(200) == "200";
    WholeEntry(DemoCholesterol, 210, 0, 200);
  }

  lemma DemoTriglyceridesRecomputes()
    ensures StatusRecomputes(DemoTriglycerides)
  {
    assert NatToString(165) == "165" && NatToString(0) == "0" && NatToString(150) == "150";
    WholeEntry(DemoTriglycerides, 165, 0, 150);
  }

  lemma DemoHdlRecomputes()
    ensures StatusRecomputes(DemoHdl)
  {
    assert NatToString(42) == "42" && NatToString(40) == "40" && NatToString(60) == "60";
    WholeEntry(DemoHdl, 42, 40, 60);
  }

  lemma DemoLdlRecomputes()
    ensures StatusRecomputes(DemoLdl)
  {
    assert NatToString(130) == "130" && NatToString(0) == "0" && NatToString(100) == "100";
    WholeEntry(DemoLdl, 130, 0, 100);
  }

  lemma DemoCreatinineRecomputes()
    ensures StatusRecomputes(DemoCreatinine)
  {
    assert NatToString(1) == "1" && NatToString(0) == "0";
    assert DigitChar(0) == '0' && DigitChar(6) == '6' && DigitChar(2) == '2';
    DecimalEntry(DemoCreatinine, (1, 0), (0, 6), (1, 2));
  }

  lemma DemoUreaRecomputes()
    ensures StatusRecomputes(DemoUrea)
  {
    assert NatToString(18) == "18" && NatToString(7) == "7" && NatToString(20) == "20";
    WholeEntry(DemoUrea, 18, 7, 20);
  }

  /** Every fixed entry of the demonstration report carries the status
      determineTestStatus computes from its own fields. */
  lemma DemoStatusesRecompute()
    ensures StatusRecomputes(DemoGlucose) && StatusRecomputes(DemoHbA1c)
    ensures StatusRecomputes(DemoCholesterol) && StatusRecomputes(DemoTriglycerides)
    ensures StatusRecomputes(DemoHdl) && StatusRecomputes(DemoLdl)
    ensures StatusRecomputes(DemoCreatinine) && StatusRecomputes(DemoUrea)
  {
    DemoGlucoseRecomputes();
    DemoHbA1cRecomputes();
    DemoCholesterolRecomputes();
    DemoTriglyceridesRecomputes();
    DemoHdlRecomputes();
    DemoLdlRecomputes();
    DemoCreatinineRecomputes();
    DemoUreaRecomputes();
  }
}
