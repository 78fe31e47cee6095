/** The fixed regular expressions of the report interpreter, each written out
    as a scanner at one start position, and the leftmost search that
    `String.prototype.match` and `RegExp.prototype.exec` perform with them.

    Each scanner follows the backtracking order of the JavaScript engine:
    greedy quantifiers take the longest run first, lazy ones the shortest,
    alternatives are tried left to right together with what follows them.
    Where only one choice can let the rest of the pattern match, the scanner
    takes that choice directly; the comment on the scanner says why. */
module Patterns {
  import opened TextUtil
  import opened Scan

  datatype Pattern =
    | AgeSex            // Age\/Sex[:\s]*(\d{1,3})\s*\/\s*(Male|Female|M|F)          /i
    | PatientName       // Patient\s*Name[:\s]*([A-Z][a-zA-Z\s\.]+?)(?:\n|Age|Gender|Sex|DOB|Date of Report)  /i
    | LabelName         // Name[:\s]+([A-Z][a-zA-Z\s\.]+?)(?:\n|Age|Sex)            /i
    | TitleName         // (?:Mr\.|Mrs\.|Ms\.|Dr\.)\s+([A-Z][a-zA-Z\s\.]+?)(?:\n|Age|Sex)  /i
    | AgeLabel          // (?:Age|age|AGE)[:\s]*[:\-]?\s*(\d{1,3})\s*(?:years|yrs|Y|y)?  /i
    | AgeYears          // (\d{1,3})\s*(?:years|yrs|Years|Y)\s*(?:old)?            /i
    | GenderLabel       // (?:Gender|Sex|sex|gender)[:\s]*[:\-]?\s*(Male|Female|M|F|MALE|FEMALE)\b  /i
    | GenderBeforeDate  // (Male|Female)\s*(?:Date|\d{1,2}[-\/])                    /i
    | ReportDateMonth   // Date\s*of\s*Report[:\s]*(\d{1,2}[-\/][A-Za-z]{3}[-\/]\d{4})  /i
    | ReportDateNumeric // Date\s*of\s*Report[:\s]*(\d{1,2}[-\/]\d{1,2}[-\/]\d{4})  /i
    | DateLabel         // (?:Date|date|DATE)[:\s]*[:\-]?\s*(\d{1,2}[-\/]\d{1,2}[-\/]\d{2,4})  /i
    | DateMonth         // (\d{1,2}[-\/][A-Za-z]{3}[-\/]\d{4})
    | DateNumeric       // (\d{1,2}[-\/]\d{1,2}[-\/]\d{4})
    | DateIso           // (\d{4}[-\/]\d{1,2}[-\/]\d{1,2})
    | IdLabel           // (?:Patient\s*ID|Patient\s*No|ID|UHID|Registration\s*No|Reg\s*No)[:\s]*[:\-]?\s*([A-Z0-9\-\/]+)  /i
    | IdShort           // (?:ID|UHID)[:\s]+([A-Z0-9\-\/]{3,20})                   /i
    | Range             // (\d+\.?\d*)\s*-\s*(\d+\.?\d*)
    | Row               // ([A-Za-z][A-Za-z\s]{3,40}?)\s+(\d+\.?\d*)\s+(units|\w+\/\w+)\s+(\d+\.?\d*\s*-\s*\d+\.?\d*)   /g
    | NamedTest         // (tokens)[A-Za-z\s]*?\s+(\d+\.?\d*)\s+(units|\w+\/\w+)   /gi

  function GroupCount(pat: Pattern): (n: nat)
    ensures 1 <= n <= 4
  {
    match pat
    case AgeSex => 2
    case Range => 2
    case Row => 4
    case NamedTest => 3
    case _ => 1
  }

  /** r is absent, or a match that starts at p, ends after p inside s and has
      n groups. */
  predicate Shaped(r: Option<Match>, s: string, p: nat, n: nat) {
    r.Some? ==> r.value.start == p && p < r.value.end <= |s| && |r.value.groups| == n
  }

  // ---------------------------------------------------------------------
  // Word sequences and the alternatives the patterns list
  // ---------------------------------------------------------------------

  /** Words separated by `\s*`, case-insensitively (`Date\s*of\s*Report`):
      the end of the last word. Every word starts with a letter, so each
      `\s*` takes the whole whitespace run. */
  function WordsEnd(s: string, p: nat, words: seq<string>): (r: Option<nat>)
    requires p <= |s|
    ensures r.Some? ==> p <= r.value <= |s|
    ensures r.Some? && words != [] && words[0] != "" ==> p < r.value
    decreases |words|
  {
    if words == [] then Some(p)
    else if PrefixAtCI(s, p, words[0]) then
      if |words| == 1 then Some(p + |words[0]|)
      else WordsEnd(s, RunEnd(s, p + |words[0]|, Space), words[1..])
    else None
  }

  const PatientNameEnds: seq<string> := ["\n", "Age", "Gender", "Sex", "DOB", "Date of Report"]
  const ShortNameEnds: seq<string> := ["\n", "Age", "Sex"]
  const Titles: seq<string> := ["Mr.", "Mrs.", "Ms.", "Dr."]
  const AgeSexGenders: seq<string> := ["Male", "Female", "M", "F"]
  const YearWords: seq<string> := ["years", "yrs", "Years", "Y"]
  const GenderLabels: seq<string> := ["Gender", "Sex", "sex", "gender"]
  const GenderWords: seq<string> := ["Male", "Female", "M", "F", "MALE", "FEMALE"]
  const IdLabels: seq<seq<string>> :=
    [["Patient", "ID"], ["Patient", "No"], ["ID"], ["UHID"], ["Registration", "No"], ["Reg", "No"]]
  const ShortIdLabels: seq<string> := ["ID", "UHID"]
  const RowUnits: seq<string> := ["mg/dL", "mmol/L", "g/dL", "%", "U/L", "mEq/L", "ng/mL", "pg/mL"]
  const NamedUnits: seq<string> := ["mg/dL", "mmol/L", "g/dL", "%", "U/L", "mEq/L"]
  const TestTokens: seq<string> :=
    ["Glucose", "Cholesterol", "Hemoglobin", "HbA1c", "Triglycerides", "HDL", "LDL",
     "Creatinine", "Urea", "Protein", "Albumin", "Bilirubin", "ALT", "AST", "SGPT", "SGOT",
     "WBC", "RBC", "Platelet", "Sodium", "Potassium", "Calcium"]

  const MonthShape: seq<DateAtom> := [Digits(1, 2), DateSep, Letters3, DateSep, Digits(4, 4)]
  const NumericShape: seq<DateAtom> := [Digits(1, 2), DateSep, Digits(1, 2), DateSep, Digits(4, 4)]
  const LabelShape: seq<DateAtom> := [Digits(1, 2), DateSep, Digits(1, 2), DateSep, Digits(2, 4)]
  const IsoShape: seq<DateAtom> := [Digits(4, 4), DateSep, Digits(1, 2), DateSep, Digits(1, 2)]

  // ---------------------------------------------------------------------
  // Patient details
  // ---------------------------------------------------------------------

  /** AgeSex at p. `[:\s]*` must stop at the digit, and `\d{1,3}` can only be
      followed by `\s*\/` at the end of the digit run (or after three digits);
      the gender alternation ends the pattern, so its first matching word wins. */
  function AgeSexAt(s: string, p: nat): (r: Option<Match>)
    requires p <= |s|
    ensures Shaped(r, s, p, 2)
  {
    if PrefixAtCI(s, p, "Age/Sex") then
      var c := RunEnd(s, p + 7, ColonSpace);
      var d := RunEndMax(s, c, Digit, 3);
      var q := RunEnd(s, d, Space);
      if d > c && q < |s| && s[q] == '/' then
        var g := RunEnd(s, q + 1, Space);
        match FirstPrefixCI(s, g, AgeSexGenders)
        case Some(w) => Some(Match(p, g + |w|, [s[c..d], s[g..g + |w|]]))
        case None => None
      else None
    else None
  }

  /** The name capture `([A-Z][a-zA-Z\s\.]+?)` at r followed by one of the
      terminators: under the `i` flag `[A-Z]` is any letter; the lazy body
      takes at least one character and then stops at the first terminator. */
  function NameCapture(s: string, p: nat, r: nat, terms: seq<string>): (m: Option<Match>)
    requires p <= r <= |s|
    ensures Shaped(m, s, p, 1)
  {
    if r + 1 < |s| && IsLetter(s[r]) && InClass(s[r + 1], NameBody) then
      match LazyUntil(s, r + 2, NameBody, terms)
      case Some(e) => Some(Match(p, e, [s[r..e]]))
      case None => None
    else None
  }

  /** PatientName at p; `[:\s]*` cannot end on anything but the letter. */
  function PatientNameAt(s: string, p: nat): (r: Option<Match>)
    requires p <= |s|
    ensures Shaped(r, s, p, 1)
  {
    match WordsEnd(s, p, ["Patient", "Name"])
    case Some(q) => NameCapture(s, p, RunEnd(s, q, ColonSpace), PatientNameEnds)
    case None => None
  }

  function LabelNameAt(s: string, p: nat): (r: Option<Match>)
    requires p <= |s|
    ensures Shaped(r, s, p, 1)
  {
    if PrefixAtCI(s, p, "Name") then
      var c := RunEnd(s, p + 4, ColonSpace);
      if c > p + 4 then NameCapture(s, p, c, ShortNameEnds) else None
    else None
  }

  /** TitleName at p; no two titles match at the same position. */
  function TitleNameAt(s: string, p: nat): (r: Option<Match>)
    requires p <= |s|
    ensures Shaped(r, s, p, 1)
  {
    match FirstPrefixCI(s, p, Titles)
    case Some(t) =>
      var c := RunEnd(s, p + |t|, Space);
      if c > p + |t| then NameCapture(s, p, c, ShortNameEnds) else None
    case None => None
  }

  /** AgeLabel at p; the optional year word after the digits constrains
      nothing, so the digit run (at most three) is taken whole. */
  function AgeLabelAt(s: string, p: nat): (r: Option<Match>)
    requires p <= |s|
    ensures Shaped(r, s, p, 1)
  {
    if PrefixAtCI(s, p, "Age") then
      var j := LabelSep(s, p + 3);
      if j < |s| && IsDigit(s[j]) then
        var d := RunEndMax(s, j, Digit, 3);
        Some(Match(p, d, [s[j..d]]))
      else None
    else None
  }

  /** AgeYears at p: a shorter digit prefix would be followed by a digit,
      which neither `\s` nor a year word can start with. */
  function AgeYearsAt(s: string, p: nat): (r: Option<Match>)
    requires p <= |s|
    ensures Shaped(r, s, p, 1)
  {
    if p < |s| && IsDigit(s[p]) then
      var d := RunEndMax(s, p, Digit, 3);
      if AnyPrefixCI(s, RunEnd(s, d, Space), YearWords) then Some(Match(p, d, [s[p..d]])) else None
    else None
  }

  /** The first of the words that occurs at j, ignoring case, and ends on a
      word boundary: an alternation followed by `\b`. */
  function FirstBounded(s: string, j: nat, words: seq<string>): (r: Option<string>)
    ensures r.Some? ==> r.value in words && PrefixAtCI(s, j, r.value) && WordBoundary(s, j + |r.value|)
    decreases |words|
  {
    if words == [] then None
    else if PrefixAtCI(s, j, words[0]) && WordBoundary(s, j + |words[0]|) then Some(words[0])
    else FirstBounded(s, j, words[1..])
  }

  /** `(?:labels)[:\s]*[:\-]?\s*(words)\b` at p; the labels are exclusive
      and the word after the separator starts with a letter. */
  function LabelledWordAt(s: string, p: nat, labels: seq<string>, words: seq<string>): (r: Option<Match>)
    requires p <= |s| && forall w :: w in words ==> w != []
    ensures Shaped(r, s, p, 1)
  {
    match FirstPrefixCI(s, p, labels)
    case Some(l) =>
      var j := LabelSep(s, p + |l|);
      (match FirstBounded(s, j, words)
       case Some(g) => Some(Match(p, j + |g|, [s[j..j + |g|]]))
       case None => None)
    case None => None
  }

  /** The capture of a labelled word is one of the words, ignoring case. */
  lemma LabelledWordCapture(s: string, p: nat, labels: seq<string>, words: seq<string>) returns (j: nat, g: string)
    requires p <= |s| && (forall w :: w in words ==> w != []) && LabelledWordAt(s, p, labels, words).Some?
    ensures g in words && PrefixAtCI(s, j, g)
    ensures LabelledWordAt(s, p, labels, words).value.groups[0] == s[j..j + |g|]
  {
    var l := FirstPrefixCI(s, p, labels).value;
    j := LabelSep(s, p + |l|);
    g := FirstBounded(s, j, words).value;
  }

  function GenderLabelAt(s: string, p: nat): (r: Option<Match>)
    requires p <= |s|
    ensures Shaped(r, s, p, 1)
  {
    LabelledWordAt(s, p, GenderLabels, GenderWords)
  }

  predicate IsDateSep(c: char) { c == '-' || c == '/' }

  /** `\d{1,2}[-\/]` at q. */
  predicate DaySepAt(s: string, q: nat) {
    q < |s| && IsDigit(s[q]) &&
    ((q + 1 < |s| && IsDateSep(s[q + 1])) || (q + 2 < |s| && IsDigit(s[q + 1]) && IsDateSep(s[q + 2])))
  }

  function GenderBeforeDateAt(s: string, p: nat): (r: Option<Match>)
    requires p <= |s|
    ensures Shaped(r, s, p, 1)
  {
    match FirstPrefixCI(s, p, ["Male", "Female"])
    case Some(g) =>
      var q := RunEnd(s, p + |g|, Space);
      if PrefixAtCI(s, q, "Date") || DaySepAt(s, q) then Some(Match(p, p + |g|, [s[p..p + |g|]])) else None
    case None => None
  }

  /** A date shape captured at j, for a match that starts at p. */
  function DateCapture(s: string, p: nat, j: nat, shape: seq<DateAtom>): (r: Option<Match>)
    requires p <= j <= |s| && shape != [] && !(shape[0].Digits? && shape[0].min == 0)
    ensures Shaped(r, s, p, 1)
  {
    match ShapeEnd(s, j, shape)
    case Some(e) => Some(Match(p, e, [s[j..e]]))
    case None => None
  }

  /** "Date of Report" followed by a date shape; `[:\s]*` stops at the digit. */
  function ReportDateAt(s: string, p: nat, shape: seq<DateAtom>): (r: Option<Match>)
    requires p <= |s| && shape != [] && !(shape[0].Digits? && shape[0].min == 0)
    ensures Shaped(r, s, p, 1)
  {
    match WordsEnd(s, p, ["Date", "of", "Report"])
    case Some(q) => DateCapture(s, p, RunEnd(s, q, ColonSpace), shape)
    case None => None
  }

  function DateLabelAt(s: string, p: nat): (r: Option<Match>)
    requires p <= |s|
    ensures Shaped(r, s, p, 1)
  {
    if PrefixAtCI(s, p, "Date") then DateCapture(s, p, LabelSep(s, p + 4), LabelShape) else None
  }

  /** The ID capture `[:\s]*[:\-]?\s*([A-Z0-9\-\/]+)` after a label ending
      at q. The capture class holds '-', so when the colon-space run ends on
      a '-' whose following whitespace does not lead to an ID character, the
      engine backs off and captures from the '-' itself. */
  function IdAfterLabel(s: string, p: nat, q: nat): (r: Option<Match>)
    requires p <= q <= |s|
    ensures Shaped(r, s, p, 1)
  {
    var c := RunEnd(s, q, ColonSpace);
    if c < |s| && s[c] == '-' then
      var g := RunEnd(s, c + 1, Space);
      if g < |s| && InClass(s[g], IdChar) then
        var e := RunEnd(s, g, IdChar);
        Some(Match(p, e, [s[g..e]]))
      else
        var e := RunEnd(s, c, IdChar);
        Some(Match(p, e, [s[c..e]]))
    else if c < |s| && InClass(s[c], IdChar) then
      var e := RunEnd(s, c, IdChar);
      Some(Match(p, e, [s[c..e]]))
    else None
  }

  /** IdLabel at p: each label alternative in turn, with the capture after it. */
  function IdLabelFrom(s: string, p: nat, labels: seq<seq<string>>): (r: Option<Match>)
    requires p <= |s|
    ensures Shaped(r, s, p, 1)
    decreases |labels|
  {
    if labels == [] then None
    else
      var here := match WordsEnd(s, p, labels[0])
                  case Some(q) => IdAfterLabel(s, p, q)
                  case None => None;
      if here.Some? then here else IdLabelFrom(s, p, labels[1..])
  }

  /** IdShort at p: `[:\s]+` stops at the ID character, `{3,20}` is greedy. */
  function IdShortAt(s: string, p: nat): (r: Option<Match>)
    requires p <= |s|
    ensures Shaped(r, s, p, 1)
  {
    match FirstPrefixCI(s, p, ShortIdLabels)
    case Some(l) =>
      var c := RunEnd(s, p + |l|, ColonSpace);
      var e := RunEndMax(s, c, IdChar, 20);
      if c > p + |l| && e - c >= 3 then Some(Match(p, e, [s[c..e]])) else None
    case None => None
  }

  // ---------------------------------------------------------------------
  // Test rows
  // ---------------------------------------------------------------------

  /** `\s+` then a range, after a unit ending at x: where the range starts. */
  function RangeAfter(s: string, x: nat): (r: Option<nat>)
    requires x <= |s|
    ensures r.Some? ==> x < r.value <= |s| && RangeAt(s, r.value).Some?
  {
    var z := RunEnd(s, x, Space);
    if z > x && RangeAt(s, z).Some? then Some(z) else None
  }

  /** End of unit alternative i at u: a literal of the list (case-sensitively,
      or ignoring case), or `\w+\/\w+` as the last alternative. */
  function UnitEnd(s: string, u: nat, units: seq<string>, i: nat, ci: bool): (r: Option<nat>)
    requires u <= |s| && i <= |units|
    ensures r.Some? ==> u < r.value <= |s|
  {
    if i == |units| then WordSlashWordEnd(s, u)
    else if units[i] != "" && (if ci then PrefixAtCI(s, u, units[i]) else PrefixAt(s, u, units[i])) then Some(u + |units[i]|)
    else None
  }

  /** The unit group of Row, from alternative i on, each with the range that
      must follow it. The name is s[p..e], the value s[w..n]. */
  function RowUnit(s: string, p: nat, e: nat, w: nat, n: nat, u: nat, i: nat): (r: Option<Match>)
    requires p < e <= w < n <= u <= |s| && i <= |RowUnits|
    ensures Shaped(r, s, p, 4)
    decreases |RowUnits| - i
  {
    var here: Option<Match> :=
      match UnitEnd(s, u, RowUnits, i, false)
      case Some(x) =>
        (match RangeAfter(s, x)
         case Some(z) =>
           var m := RangeAt(s, z).value;
           Some(Match(p, m.end, [s[p..e], s[w..n], s[u..x], s[z..m.end]]))
         case None => None)
      case None => None;
    if here.Some? then here
    else if i < |RowUnits| then RowUnit(s, p, e, w, n, u, i + 1)
    else None
  }

  /** What follows the name of a Row when the name ends at e. A shorter
      number would be followed by a digit or '.', never by `\s+`. */
  function RowRest(s: string, p: nat, e: nat): (r: Option<Match>)
    requires p < e <= |s|
    ensures Shaped(r, s, p, 4)
  {
    var w := RunEnd(s, e, Space);
    if w > e && w < |s| && IsDigit(s[w]) then
      var n := NumberEnd(s, w);
      var u := RunEnd(s, n, Space);
      if u > n then RowUnit(s, p, e, w, n, u, 0) else None
    else None
  }

  /** The lazy `[A-Za-z\s]{3,40}?`: the name s[p..e] holds 4 to 41 characters;
      the shortest one the rest accepts wins. */
  function RowFrom(s: string, p: nat, e: nat): (r: Option<Match>)
    requires p + 4 <= e <= |s| && e <= p + 41
    ensures Shaped(r, s, p, 4)
    decreases p + 41 - e
  {
    var here := RowRest(s, p, e);
    if here.Some? then here
    else if e < p + 41 && e < |s| && InClass(s[e], LetterSpace) then RowFrom(s, p, e + 1)
    else None
  }

  function RowAt(s: string, p: nat): (r: Option<Match>)
    requires p <= |s|
    ensures Shaped(r, s, p, 4)
  {
    if p + 4 <= |s| && IsLetter(s[p]) && InClass(s[p + 1], LetterSpace) &&
       InClass(s[p + 2], LetterSpace) && InClass(s[p + 3], LetterSpace)
    then RowFrom(s, p, p + 4)
    else None
  }

  /** What the rest of the model needs of a Row match: the value group
      starts with a digit, and the range group is itself a range. */
  predicate RowShape(m: Match) {
    |m.groups| == 4 && m.groups[1] != [] && IsDigit(m.groups[1][0]) && RangeAt(m.groups[3], 0).Some?
  }

  lemma RowUnitHereShape(s: string, p: nat, e: nat, w: nat, n: nat, u: nat, i: nat)
    requires p < e <= w < n <= u <= |s| && i <= |RowUnits| && IsDigit(s[w])
    requires UnitEnd(s, u, RowUnits, i, false).Some? && RangeAfter(s, UnitEnd(s, u, RowUnits, i, false).value).Some?
    ensures RowUnit(s, p, e, w, n, u, i).Some? && RowShape(RowUnit(s, p, e, w, n, u, i).value)
  {
    var x := UnitEnd(s, u, RowUnits, i, false).value;
    var z := RangeAfter(s, x).value;
    var m := RangeAt(s, z).value;
    assert RowUnit(s, p, e, w, n, u, i) == Some(Match(p, m.end, [s[p..e], s[w..n], s[u..x], s[z..m.end]]));
    RangeAtOwn(s, z);
    assert s[w..n][0] == s[w];
  }

  lemma {:induction false} RowUnitShape(s: string, p: nat, e: nat, w: nat, n: nat, u: nat, i: nat)
    requires p < e <= w < n <= u <= |s| && i <= |RowUnits| && IsDigit(s[w])
    requires RowUnit(s, p, e, w, n, u, i).Some?
    ensures RowShape(RowUnit(s, p, e, w, n, u, i).value)
    decreases |RowUnits| - i
  {
    var ux := UnitEnd(s, u, RowUnits, i, false);
    if ux.Some? && RangeAfter(s, ux.value).Some? {
      RowUnitHereShape(s, p, e, w, n, u, i);
    } else {
      RowUnitShape(s, p, e, w, n, u, i + 1);
    }
  }

  lemma RowRestShape(s: string, p: nat, e: nat)
    requires p < e <= |s| && RowRest(s, p, e).Some?
    ensures RowShape(RowRest(s, p, e).value)
  {
    var w := RunEnd(s, e, Space);
    var n := NumberEnd(s, w);
    RowUnitShape(s, p, e, w, n, RunEnd(s, n, Space), 0);
  }

  /** A Row match from name end e is the rest of the row after some name
      end at or past e. */
  lemma {:induction false} RowFromRest(s: string, p: nat, e: nat) returns (e': nat)
    requires p + 4 <= e <= |s| && e <= p + 41 && RowFrom(s, p, e).Some?
    ensures e <= e' <= |s| && p < e' && RowRest(s, p, e') == RowFrom(s, p, e)
    decreases p + 41 - e
  {
    if RowRest(s, p, e).Some? {
      e' := e;
    } else {
      e' := RowFromRest(s, p, e + 1);
    }
  }

  /** Every Row match has a numeric value group and a range group that
      re-parses as a range. */
  lemma RowAtShape(s: string, p: nat)
    requires p <= |s| && PatternAt(Row, s, p).Some?
    ensures RowShape(PatternAt(Row, s, p).value)
  {
    var e' := RowFromRest(s, p, p + 4);
    RowRestShape(s, p, e');
  }

  /** What follows the token s[p..t] of a NamedTest when the filler ends at
      e. The unit alternation ends the pattern, so its first match wins. */
  function NamedRest(s: string, p: nat, t: nat, e: nat): (r: Option<Match>)
    requires p < t <= e <= |s|
    ensures Shaped(r, s, p, 3)
  {
    var w := RunEnd(s, e, Space);
    if w > e && w < |s| && IsDigit(s[w]) then
      var n := NumberEnd(s, w);
      var u := RunEnd(s, n, Space);
      if u > n then
        var x := match FirstPrefixCI(s, u, NamedUnits)
                 case Some(un) => if un != "" then Some(u + |un|) else None
                 case None => WordSlashWordEnd(s, u);
        match x
        case Some(xe) => Some(Match(p, xe, [s[p..t], s[w..n], s[u..xe]]))
        case None => None
      else None
    else None
  }

  /** The lazy `[A-Za-z\s]*?` after the token. */
  function NamedFiller(s: string, p: nat, t: nat, e: nat): (r: Option<Match>)
    requires p < t <= e <= |s|
    ensures Shaped(r, s, p, 3)
    decreases |s| - e
  {
    var here := NamedRest(s, p, t, e);
    if here.Some? then here
    else if e < |s| && InClass(s[e], LetterSpace) then NamedFiller(s, p, t, e + 1)
    else None
  }

  /** NamedTest at p, from token i on, each with the rest of the pattern. */
  function NamedFrom(s: string, p: nat, i: nat): (r: Option<Match>)
    requires p <= |s| && i <= |TestTokens|
    ensures Shaped(r, s, p, 3)
    decreases |TestTokens| - i
  {
    if i == |TestTokens| then None
    else
      var tok := TestTokens[i];
      var here := if tok != "" && PrefixAtCI(s, p, tok) then NamedFiller(s, p, p + |tok|, p + |tok|) else None;
      if here.Some? then here else NamedFrom(s, p, i + 1)
  }

  // ---------------------------------------------------------------------
  // Dispatch and search
  // ---------------------------------------------------------------------

  function PatternAt(pat: Pattern, s: string, p: nat): (r: Option<Match>)
    requires p <= |s|
    ensures Shaped(r, s, p, GroupCount(pat))
  {
    match pat
    case AgeSex => AgeSexAt(s, p)
    case PatientName => PatientNameAt(s, p)
    case LabelName => LabelNameAt(s, p)
    case TitleName => TitleNameAt(s, p)
    case AgeLabel => AgeLabelAt(s, p)
    case AgeYears => AgeYearsAt(s, p)
    case GenderLabel => GenderLabelAt(s, p)
    case GenderBeforeDate => GenderBeforeDateAt(s, p)
    case ReportDateMonth => ReportDateAt(s, p, MonthShape)
    case ReportDateNumeric => ReportDateAt(s, p, NumericShape)
    case DateLabel => DateLabelAt(s, p)
    case DateMonth => DateCapture(s, p, p, MonthShape)
    case DateNumeric => DateCapture(s, p, p, NumericShape)
    case DateIso => DateCapture(s, p, p, IsoShape)
    case IdLabel => IdLabelFrom(s, p, IdLabels)
    case IdShort => IdShortAt(s, p)
    case Range => RangeAt(s, p)
    case Row => RowAt(s, p)
    case NamedTest => NamedFrom(s, p, 0)
  }

  /** The result of trying the pattern at every position of s, 0 to |s|. */
  function Matches(pat: Pattern, s: string): (ms: seq<Option<Match>>)
    ensures |ms| == |s| + 1
  {
    seq(|s| + 1, q requires 0 <= q <= |s| => PatternAt(pat, s, q))
  }

  /** The first match in ms at or after index `from`. */
  function FirstMatch(ms: seq<Option<Match>>, from: nat): Option<Match>
    requires from <= |ms|
    decreases |ms| - from
  {
    if from == |ms| then None
    else if ms[from].Some? then ms[from]
    else FirstMatch(ms, from + 1)
  }

  /** FirstMatch returns the entry at the first index that holds a match,
      and None only when no index from `from` holds one. */
  lemma {:induction false} FirstMatchLeftmost(ms: seq<Option<Match>>, from: nat) returns (j: nat)
    requires from <= |ms|
    ensures FirstMatch(ms, from).Some? ==> from <= j < |ms| && ms[j] == FirstMatch(ms, from)
    ensures FirstMatch(ms, from).Some? ==> forall q :: from <= q < j ==> ms[q].None?
    ensures FirstMatch(ms, from).None? ==> forall q :: from <= q < |ms| ==> ms[q].None?
    decreases |ms| - from
  {
    j := from;
    if from < |ms| && ms[from].None? { j := FirstMatchLeftmost(ms, from + 1); }
  }

  /** The leftmost match at or after `from`: what `match` returns for a
      pattern without the global flag (from 0), and what `exec` returns for
      a global one (from `lastIndex`). */
  function Search(pat: Pattern, s: string, from: nat): Option<Match>
    requires from <= |s|
  {
    FirstMatch(Matches(pat, s), from)
  }

  /** Search returns the match at the first position from `from` at which
      the pattern matches, and None when it matches at no such position. */
  lemma SearchLeftmost(pat: Pattern, s: string, from: nat)
    requires from <= |s|
    ensures Search(pat, s, from).Some? ==>
      var m := Search(pat, s, from).value;
      from <= m.start <= |s| && PatternAt(pat, s, m.start) == Some(m) &&
      forall q :: from <= q < m.start ==> PatternAt(pat, s, q).None?
    ensures Search(pat, s, from).None? ==> forall q :: from <= q <= |s| ==> PatternAt(pat, s, q).None?
  {
    var ms := Matches(pat, s);
    var j := FirstMatchLeftmost(ms, from);
    if Search(pat, s, from).Some? {
      assert ms[j] == PatternAt(pat, s, j);
      assert forall q :: from <= q < j ==> ms[q] == PatternAt(pat, s, q);
    } else {
      assert forall q :: from <= q <= |s| ==> ms[q] == PatternAt(pat, s, q);
    }
  }
}
