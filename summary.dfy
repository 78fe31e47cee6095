/** `generateSummary` and `analyzeMedicalReport`: the text report built
    from the patient details and the test results. */
module Summary {
  import opened TextUtil
  import opened TestStatus
  import opened TestResults
  import opened Patient

  // ---------------------------------------------------------------------
  // The fixed texts
  // ---------------------------------------------------------------------

  const NoTestsText := "No specific test results were clearly identified in the report. Manual review recommended.\n"
  const NormalRangePrefix := " - Normal range: "
  const GlucoseAdvice := "\U{1F4CB} Elevated blood glucose detected. Consider dietary modifications and regular monitoring.\n"
  const CholesterolAdvice := "\U{1F4CB} High cholesterol levels observed. Lifestyle changes and possible medication may be needed.\n"
  const PressureAdvice := "\U{1F4CB} Blood pressure is elevated. Regular monitoring and stress management recommended.\n"
  const Disclaimer := "\n\U{26A0}\U{FE0F} Important: This is an automated analysis. Please consult with your healthcare provider for proper interpretation and treatment recommendations."

  /** `Medical Report Analysis for ${patientInfo.name || 'Patient'}:`. */
  function Header(name: string): string {
    "Medical Report Analysis for " + (if name == [] then "Patient" else name) + ":\n\n"
  }

  function AllNormalText(n: nat): string {
    "\U{2705} All " + NatToString(n) + " test(s) are within normal ranges.\n\n"
  }

  function AbnormalCountText(a: nat, n: nat): string {
    "\U{26A0}\U{FE0F} " + NatToString(a) + " of " + NatToString(n) + " test(s) show abnormal values:\n\n"
  }

  /** `status.toUpperCase()`. */
  function StatusUpper(st: Status): string {
    match st
    case High => "HIGH"
    case Low => "LOW"
    case Normal => "NORMAL"
    case Unknown => "UNKNOWN"
  }

  // ---------------------------------------------------------------------
  // The summary as a function of the results
  // ---------------------------------------------------------------------

  predicate IsAbnormal(t: TestResult) { t.status == High || t.status == Low }

  /** `tests.filter(t => t.status === 'high' || t.status === 'low')`. */
  function Abnormal(tests: seq<TestResult>): seq<TestResult> {
    if tests == [] then []
    else (if IsAbnormal(tests[0]) then [tests[0]] else []) + Abnormal(tests[1..])
  }

  /** The line of one abnormal test. */
  function AbnormalLine(t: TestResult): string {
    (if t.status == High then "\U{2191}" else "\U{2193}") + " " + t.test + ": " + t.value + " " + t.unit +
    " (" + StatusUpper(t.status) + ")" + (if t.range != [] then NormalRangePrefix + t.range else "") + "\n"
  }

  function LinesOf(ts: seq<TestResult>): (lines: seq<string>)
    ensures |lines| == |ts|
  {
    seq(|ts|, i requires 0 <= i < |ts| => AbnormalLine(ts[i]))
  }

  function AbnormalLines(ts: seq<TestResult>): string {
    Concat(LinesOf(ts))
  }

  /** Some high test's lower-cased name contains the word. */
  predicate HighWith(ts: seq<TestResult>, word: string) {
    exists i :: 0 <= i < |ts| && Contains(ToLower(ts[i].test), word) && ts[i].status == High
  }

  function Advice(ab: seq<TestResult>): string {
    (if HighWith(ab, "glucose") then GlucoseAdvice else "") +
    (if HighWith(ab, "cholesterol") then CholesterolAdvice else "") +
    (if HighWith(ab, "pressure") then PressureAdvice else "")
  }

  /** The findings part: all normal, or the count and one line per abnormal test. */
  function Findings(tests: seq<TestResult>): string {
    var ab := Abnormal(tests);
    if ab == [] then AllNormalText(|tests|)
    else AbnormalCountText(|ab|, |tests|) + AbnormalLines(ab) + "\n"
  }

  /** What generateSummary returns. */
  function SummaryOf(name: string, tests: seq<TestResult>): string {
    if tests == [] then Header(name) + NoTestsText
    else Header(name) + Findings(tests) + Advice(Abnormal(tests)) + Disclaimer
  }

  // ---------------------------------------------------------------------
  // The summary, as the source builds it
  // ---------------------------------------------------------------------

  /** The full OCR text is a parameter of the source's function that it
      does not read. */
  method GenerateSummary(info: PatientInfo, tests: seq<TestResult>, fullText: string) returns (summary: string)
    ensures summary == SummaryOf(info.name, tests)
  {
    var abnormalTests := Abnormal(tests);
    summary := Header(info.name);
    if |tests| == 0 {
      summary := summary + NoTestsText;
      return;
    }
    ghost var header := summary;
    if |abnormalTests| == 0 {
      summary := summary + AllNormalText(|tests|);
    } else {
      var count := AbnormalCountText(|abnormalTests|, |tests|);
      summary := summary + count;
      summary := AppendAbnormalLines(summary, abnormalTests);
      summary := summary + "\n";
      StringAssoc(header, count, AbnormalLines(abnormalTests));
      StringAssoc(header, count + AbnormalLines(abnormalTests), "\n");
    }
    assert summary == header + Findings(tests);
    summary := AppendAdvice(summary, abnormalTests);
    summary := summary + Disclaimer;
  }

  /** The three health recommendations. */
  method AppendAdvice(start: string, abnormalTests: seq<TestResult>) returns (summary: string)
    ensures summary == start + Advice(abnormalTests)
  {
    summary := start;
    ghost var glucose := if HighWith(abnormalTests, "glucose") then GlucoseAdvice else "";
    ghost var cholesterol := if HighWith(abnormalTests, "cholesterol") then CholesterolAdvice else "";
    ghost var pressure := if HighWith(abnormalTests, "pressure") then PressureAdvice else "";
    if HighWith(abnormalTests, "glucose") {
      summary := summary + GlucoseAdvice;
    }
    assert summary == start + glucose;
    if HighWith(abnormalTests, "cholesterol") {
      summary := summary + CholesterolAdvice;
    }
    assert summary == start + glucose + cholesterol;
    if HighWith(abnormalTests, "pressure") {
      summary := summary + PressureAdvice;
    }
    assert summary == start + glucose + cholesterol + pressure;
    StringAssoc(start, glucose, cholesterol);
    StringAssoc(start, glucose + cholesterol, pressure);
  }

  /** `abnormalTests.forEach(...)`: one line per abnormal test. */
  method AppendAbnormalLines(start: string, abnormalTests: seq<TestResult>) returns (summary: string)
    ensures summary == start + AbnormalLines(abnormalTests)
  {
    summary := start;
    for i := 0 to |abnormalTests|
      invariant summary == start + AbnormalLines(abnormalTests[..i])
    {
      var test := abnormalTests[i];
      var indicator := if test.status == High then "\U{2191}" else "\U{2193}";
      var line := indicator + " " + test.test + ": " + test.value + " " + test.unit +
        " (" + StatusUpper(test.status) + ")";
      if test.range != [] {
        line := line + NormalRangePrefix + test.range;
      }
      line := line + "\n";
      assert line == AbnormalLine(test);
      AbnormalLinesSnoc(abnormalTests, i);
      StringAssoc(start, AbnormalLines(abnormalTests[..i]), line);
      summary := summary + line;
    }
    assert abnormalTests[..|abnormalTests|] == abnormalTests;
  }

  lemma AbnormalLinesSnoc(ts: seq<TestResult>, i: nat)
    requires i < |ts|
    ensures AbnormalLines(ts[..i + 1]) == AbnormalLines(ts[..i]) + AbnormalLine(ts[i])
  {
    var lines := LinesOf(ts[..i + 1]);
    assert lines[..i] == LinesOf(ts[..i]);
  }

  /** The result of analyzeMedicalReport. */
  datatype Analysis = Analysis(success: bool, patientInfo: PatientInfo, testResults: seq<TestResult>, summary: string)

  method AnalyzeMedicalReport(text: string) returns (result: Analysis)
    ensures result.success
    ensures result.patientInfo == PatientInfoOf(text) && result.testResults == TestResultsOf(text)
    ensures result.summary == SummaryOf(PatientInfoOf(text).name, TestResultsOf(text))
  {
    var patientInfo := ExtractPatientInfo(text);
    var tests := ExtractTestResults(text);
    var summary := GenerateSummary(patientInfo, tests, text);
    result := Analysis(true, patientInfo, tests, summary);
  }

  // ---------------------------------------------------------------------
  // Properties
  // ---------------------------------------------------------------------

  /** The filter keeps exactly the high and low tests. */
  lemma {:induction false} AbnormalExact(tests: seq<TestResult>)
    ensures |Abnormal(tests)| <= |tests|
    ensures forall t :: t in Abnormal(tests) <==> t in tests && IsAbnormal(t)
  {
    if tests != [] {
      AbnormalExact(tests[1..]);
      assert tests == [tests[0]] + tests[1..];
    }
  }

  lemma {:induction false} AbnormalNone(tests: seq<TestResult>)
    requires forall t :: t in tests ==> !IsAbnormal(t)
    ensures Abnormal(tests) == []
  {
    if tests != [] {
      assert tests[0] in tests;
      AbnormalNone(tests[1..]);
    }
  }

  /** Looking for a high test among the abnormal ones is looking for one
      among all of them. */
  lemma HighWithAbnormal(tests: seq<TestResult>, word: string)
    ensures HighWith(Abnormal(tests), word) <==> HighWith(tests, word)
  {
    var ab := Abnormal(tests);
    AbnormalExact(tests);
    if HighWith(tests, word) {
      var i :| 0 <= i < |tests| && Contains(ToLower(tests[i].test), word) && tests[i].status == High;
      assert tests[i] in ab;
      var k :| 0 <= k < |ab| && ab[k] == tests[i];
      assert Contains(ToLower(ab[k].test), word) && ab[k].status == High;
    }
    if HighWith(ab, word) {
      var k :| 0 <= k < |ab| && Contains(ToLower(ab[k].test), word) && ab[k].status == High;
      assert ab[k] in tests;
      var i :| 0 <= i < |tests| && tests[i] == ab[k];
      assert Contains(ToLower(tests[i].test), word) && tests[i].status == High;
    }
  }

  /** Every abnormal test has its line among the lines. */
  lemma AbnormalLineListed(ts: seq<TestResult>, k: nat)
    requires k < |ts|
    ensures Contains(AbnormalLines(ts), AbnormalLine(ts[k]))
  {
    ConcatContains(LinesOf(ts), k);
  }

  /** A line opens with the up arrow exactly for a high test. */
  lemma AbnormalLineArrow(t: TestResult)
    ensures AbnormalLine(t) != [] && (AbnormalLine(t)[0] == '\U{2191}' <==> t.status == High)
  {
  }

  /** A summary of some tests opens with the header and closes with the
      disclaimer. */
  lemma SummaryFrame(name: string, tests: seq<TestResult>)
    requires tests != []
    ensures var s := SummaryOf(name, tests);
      && |Header(name)| <= |s| && s[..|Header(name)|] == Header(name)
      && |Disclaimer| <= |s| && s[|s| - |Disclaimer|..] == Disclaimer
  {
    var h := Header(name);
    var rest := Findings(tests) + Advice(Abnormal(tests));
    StringAssoc(h, Findings(tests), Advice(Abnormal(tests)));
    StringAssoc(h, rest, Disclaimer);
    var s := h + (rest + Disclaimer);
    assert s[..|h|] == h;
    assert s == (h + rest) + Disclaimer;
  }

  /** With no tests the summary ends with the manual-review line, and so
      not with the disclaimer. */
  lemma SummaryNoTests(name: string)
    ensures var s := SummaryOf(name, []);
      && |NoTestsText| <= |s| && s[|s| - |NoTestsText|..] == NoTestsText
      && (|Disclaimer| <= |s| ==> s[|s| - |Disclaimer|..] != Disclaimer)
  {
    var s := SummaryOf(name, []);
    assert s[|s| - 1] == '\n';
    if |Disclaimer| <= |s| {
      assert s[|s| - |Disclaimer|..][|Disclaimer| - 1] == s[|s| - 1];
      assert Disclaimer[|Disclaimer| - 1] == '.';
    }
  }

  /** With tests, the summary lists every abnormal test, with its line. */
  lemma SummaryListsAbnormal(name: string, tests: seq<TestResult>, t: TestResult)
    requires t in tests && IsAbnormal(t)
    ensures Contains(SummaryOf(name, tests), AbnormalLine(t))
  {
    var h := Header(name);
    var ab := Abnormal(tests);
    var f := Findings(tests);
    var a := Advice(ab);
    AbnormalExact(tests);
    var k :| 0 <= k < |ab| && ab[k] == t;
    AbnormalLineListed(ab, k);
    ContainsInfix(AbnormalCountText(|ab|, |tests|), AbnormalLines(ab), "\n", AbnormalLine(t));
    ContainsInfix(h, f, a + Disclaimer, AbnormalLine(t));
    StringAssoc(h + f, a, Disclaimer);
  }

  /** With no abnormal test it says all are normal. */
  lemma SummaryAllNormal(name: string, tests: seq<TestResult>)
    requires tests != [] && forall t :: t in tests ==> !IsAbnormal(t)
    ensures Contains(SummaryOf(name, tests), AllNormalText(|tests|))
  {
    AbnormalNone(tests);
    var ab := Abnormal(tests);
    assert Findings(tests) == AllNormalText(|tests|);
    var a := Advice(ab);
    ContainsConcat(Header(name), Findings(tests), a + Disclaimer);
    StringAssoc(Header(name) + Findings(tests), a, Disclaimer);
  }

  /** Each recommendation appears when some test whose name mentions its
      subject is high. */
  lemma SummaryAdvice(name: string, tests: seq<TestResult>)
    requires tests != []
    ensures HighWith(tests, "glucose") ==> Contains(SummaryOf(name, tests), GlucoseAdvice)
    ensures HighWith(tests, "cholesterol") ==> Contains(SummaryOf(name, tests), CholesterolAdvice)
    ensures HighWith(tests, "pressure") ==> Contains(SummaryOf(name, tests), PressureAdvice)
  {
    var ab := Abnormal(tests);
    var hf := Header(name) + Findings(tests);
    var g := if HighWith(ab, "glucose") then GlucoseAdvice else "";
    var c := if HighWith(ab, "cholesterol") then CholesterolAdvice else "";
    var p := if HighWith(ab, "pressure") then PressureAdvice else "";
    HighWithAbnormal(tests, "glucose");
    HighWithAbnormal(tests, "cholesterol");
    HighWithAbnormal(tests, "pressure");
    var s := SummaryOf(name, tests);
    assert s == hf + (g + c + p) + Disclaimer;
    AdviceSplit(hf, g, c, p, Disclaimer);
    ContainsConcat(hf, g, c + (p + Disclaimer));
    ContainsConcat(hf + g, c, p + Disclaimer);
    ContainsConcat(hf + g + c, p, Disclaimer);
  }

  lemma AdviceSplit(x: string, g: string, c: string, p: string, d: string)
    ensures x + (g + c + p) + d == x + g + (c + (p + d))
    ensures x + (g + c + p) + d == x + g + c + (p + d)
    ensures x + (g + c + p) + d == x + g + c + p + d
  {
  }

  /** The report's summary is addressed by name: the extracted name is never
      empty, so the "Patient" fallback is not used. */
  lemma AnalysisHeader(text: string)
    ensures PatientInfoOf(text).name != []
    ensures Header(PatientInfoOf(text).name) == "Medical Report Analysis for " + PatientInfoOf(text).name + ":\n\n"
  {
    PatientInfoProps(text);
  }
}
