/** `extractPatientInfo`: the Age/Sex line first, then the first pattern of
    each list that yields an acceptable name, age, gender, date and ID. */
module Patient {
  import opened TextUtil
  import opened Scan
  import opened Patterns

  /** The extracted details; a field the report does not give is None
      (`null`), and a missing name is "N/A". */
  datatype PatientInfo = PatientInfo(name: string, age: Option<string>, gender: Option<string>,
                                     date: Option<string>, patientId: Option<string>)

  /** The detail a pattern list fills in. */
  datatype Field = NameField | AgeField | GenderField | DateField | IdField

  const NamePatterns: seq<Pattern> := [PatientName, LabelName, TitleName]
  const AgePatterns: seq<Pattern> := [AgeLabel, AgeYears]
  const GenderPatterns: seq<Pattern> := [GenderLabel, GenderBeforeDate]
  const DatePatterns: seq<Pattern> :=
    [ReportDateMonth, ReportDateNumeric, DateLabel, DateMonth, DateNumeric, DateIso]
  const IdPatterns: seq<Pattern> := [IdLabel, IdShort]

  // ---------------------------------------------------------------------
  // What one match contributes
  // ---------------------------------------------------------------------

  /** `${age} years`. */
  function AgeText(n: nat): string { NatToString(n) + " years" }

  predicate ValidAge(n: nat) { 0 < n < 150 }

  /** The age a captured number gives, if `parseInt` of it is in (0, 150). */
  function AgeOf(digits: string): Option<string> {
    match ParseInt(digits)
    case Some(n) => if ValidAge(n) then Some(AgeText(n)) else None
    case None => None
  }

  /** The Age/Sex gender: only the four spellings, whatever their case. */
  function AgeSexGender(g: string): Option<string> {
    var upper := ToUpper(g);
    if upper == "M" || upper == "MALE" then Some("Male")
    else if upper == "F" || upper == "FEMALE" then Some("Female")
    else None
  }

  /** The fallback gender: the four spellings, or the word in title case. */
  function NormalizeGender(g: string): string {
    var upper := ToUpper(g);
    if upper == "M" || upper == "MALE" then "Male"
    else if upper == "F" || upper == "FEMALE" then "Female"
    else if upper == [] then []
    else [upper[0]] + ToLower(upper[1..])
  }

  /** `name.replace(/[:\-,\.]$/g, '')`: one trailing punctuation mark. */
  function DropTrailingPunct(s: string): string {
    if s != [] && InClass(s[|s| - 1], Punct) then s[..|s| - 1] else s
  }

  /** `name.replace(/\s+[A-Z]\s*$/g, '')` on a trimmed name: a final capital
      letter after whitespace goes, with that whitespace. */
  function DropTrailingInitial(s: string): string {
    if |s| >= 2 && IsUpper(s[|s| - 1]) && IsSpace(s[|s| - 2]) then TrimEnd(s[..|s| - 1]) else s
  }

  /** The name a capture gives, after the checks and the cleanup. */
  function CleanName(raw: string): Option<string> {
    var name := Trim(raw);
    if name == "Information" || Contains(name, "Information Age") then None
    else
      var name := Trim(DropTrailingPunct(name));
      var name := Trim(DropTrailingInitial(name));
      if 3 <= |name| <= 50 && !Contains(name, "Age") && !Contains(name, "Sex") then Some(name) else None
  }

  /** The ID a capture gives, unless it looks like part of a heading. */
  function IdOf(raw: string): Option<string> {
    var id := Trim(raw);
    if id != "profile" && !Contains(id, "Information") then Some(id) else None
  }

  /** The value a match of one of the field's patterns gives, if any. */
  function Accept(field: Field, capture: string): Option<string> {
    match field
    case NameField => CleanName(capture)
    case AgeField => AgeOf(capture)
    case GenderField => Some(NormalizeGender(capture))
    case DateField => Some(capture)
    case IdField => IdOf(capture)
  }

  /** The value the pattern's first match in the text gives (`text.match`),
      if it matches with a non-empty capture that the field accepts. */
  function AcceptedBy(field: Field, pat: Pattern, text: string): Option<string> {
    var found := Search(pat, text, 0);
    if found.Some? then
      SearchLeftmost(pat, text, 0);
      var capture := found.value.groups[0];
      if capture != [] then Accept(field, capture) else None
    else None
  }

  /** What each pattern of the list would give, in order. */
  function Candidates(field: Field, pats: seq<Pattern>, text: string): (c: seq<Option<string>>)
    ensures |c| == |pats|
  {
    seq(|pats|, j requires 0 <= j < |pats| => AcceptedBy(field, pats[j], text))
  }

  /** The first value from index i on. */
  function FirstSome(c: seq<Option<string>>, i: nat): Option<string>
    requires i <= |c|
    decreases |c| - i
  {
    if i == |c| then None else if c[i].Some? then c[i] else FirstSome(c, i + 1)
  }

  /** The loop over a pattern list: the value of the first pattern that
      gives one. */
  function FirstFrom(field: Field, pats: seq<Pattern>, text: string): Option<string> {
    FirstSome(Candidates(field, pats, text), 0)
  }

  /** Age and gender from the Age/Sex line. */
  function AgeSexFields(text: string): (Option<string>, Option<string>) {
    var found := Search(AgeSex, text, 0);
    if found.Some? then
      SearchLeftmost(AgeSex, text, 0);
      (AgeOf(found.value.groups[0]), AgeSexGender(found.value.groups[1]))
    else (None, None)
  }

  /** What extractPatientInfo returns. */
  function PatientInfoOf(text: string): PatientInfo {
    var ageSex := AgeSexFields(text);
    var name := FirstFrom(NameField, NamePatterns, text);
    var age := if ageSex.0.Some? then ageSex.0 else FirstFrom(AgeField, AgePatterns, text);
    var gender := if ageSex.1.Some? then ageSex.1 else FirstFrom(GenderField, GenderPatterns, text);
    PatientInfo(
      if name.None? || name.value == "Information" then "N/A" else name.value,
      age, gender,
      FirstFrom(DateField, DatePatterns, text),
      FirstFrom(IdField, IdPatterns, text))
  }

  // ---------------------------------------------------------------------
  // The extraction, as the source performs it
  // ---------------------------------------------------------------------

  /** `for (const pattern of patterns) { ...; break; }` for one field. */
  method FirstAccepted(field: Field, pats: seq<Pattern>, text: string) returns (r: Option<string>)
    ensures r == FirstFrom(field, pats, text)
  {
    r := None;
    ghost var c := Candidates(field, pats, text);
    for i := 0 to |pats|
      invariant FirstFrom(field, pats, text) == FirstSome(c, i)
    {
      var found := Search(pats[i], text, 0);
      if found.Some? {
        SearchLeftmost(pats[i], text, 0);
        var capture := found.value.groups[0];
        if capture != [] {
          var value := Accept(field, capture);
          if value.Some? {
            r := value;
            break;
          }
        }
      }
    }
  }

  /** The Age/Sex line: `text.match(ageSexPattern)` and its two captures. */
  method AgeSexLine(text: string) returns (age: Option<string>, gender: Option<string>)
    ensures (age, gender) == AgeSexFields(text)
  {
    age := None;
    gender := None;
    var ageSexMatch := Search(AgeSex, text, 0);
    if ageSexMatch.Some? {
      SearchLeftmost(AgeSex, text, 0);
      var n := ParseInt(ageSexMatch.value.groups[0]);
      if n.Some? && ValidAge(n.value) {
        age := Some(AgeText(n.value));
      }
      var g := ToUpper(ageSexMatch.value.groups[1]);
      if g == "M" || g == "MALE" {
        gender := Some("Male");
      } else if g == "F" || g == "FEMALE" {
        gender := Some("Female");
      }
    }
  }

  method ExtractPatientInfo(text: string) returns (info: PatientInfo)
    ensures info == PatientInfoOf(text)
  {
    var age, gender := AgeSexLine(text);
    var name := FirstAccepted(NameField, NamePatterns, text);
    if age.None? {
      age := FirstAccepted(AgeField, AgePatterns, text);
    }
    if gender.None? {
      gender := FirstAccepted(GenderField, GenderPatterns, text);
    }
    var date := FirstAccepted(DateField, DatePatterns, text);
    var patientId := FirstAccepted(IdField, IdPatterns, text);
    var finalName := if name.None? || name.value == "Information" then "N/A" else name.value;
    info := PatientInfo(finalName, age, gender, date, patientId);
  }

  // ---------------------------------------------------------------------
  // Properties
  // ---------------------------------------------------------------------

  /** Index j holds the first value from i on. */
  predicate FirstSomeAt(c: seq<Option<string>>, i: nat, j: nat) {
    i <= j < |c| && c[j].Some? && forall k :: i <= k < j ==> c[k].None?
  }

  /** The first value is that at the first index holding one, and there is
      none exactly when no index holds one. */
  lemma {:induction false} FirstSomeFirst(c: seq<Option<string>>, i: nat)
    requires i <= |c|
    ensures FirstSome(c, i).None? <==> forall j :: i <= j < |c| ==> c[j].None?
    ensures forall j: nat :: FirstSomeAt(c, i, j) ==> FirstSome(c, i) == c[j]
    decreases |c| - i
  {
    if i < |c| { FirstSomeFirst(c, i + 1); }
  }

  /** The index the first value comes from. */
  lemma {:induction false} FirstSomeIndex(c: seq<Option<string>>, i: nat) returns (j: nat)
    requires i <= |c| && FirstSome(c, i).Some?
    ensures FirstSomeAt(c, i, j) && FirstSome(c, i) == c[j]
    decreases |c| - i
  {
    if c[i].Some? {
      j := i;
    } else {
      j := FirstSomeIndex(c, i + 1);
    }
  }

  /** What each field's value is known to satisfy, whatever matched. */
  ghost predicate Acceptable(field: Field, v: string) {
    match field
    case NameField =>
      3 <= |v| <= 50 && !Contains(v, "Age") && !Contains(v, "Sex") &&
      !IsSpace(v[0]) && !IsSpace(v[|v| - 1])
    case AgeField => exists n: nat :: ValidAge(n) && v == AgeText(n)
    case GenderField => v == "Male" || v == "Female"
    case DateField => v != []
    case IdField => v != "profile" && !Contains(v, "Information")
  }

  /** The age text reads back as the age (`parseInt("45 years")` is 45). */
  lemma AgeTextRoundTrip(n: nat)
    ensures ParseInt(AgeText(n)) == Some(n)
  {
    ParseIntNatToString(n, " years");
  }

  /** Names, ages, dates and IDs a non-empty capture gives satisfy their field. */
  lemma AcceptProps(field: Field, capture: string)
    requires field != GenderField && capture != [] && Accept(field, capture).Some?
    ensures Acceptable(field, Accept(field, capture).value)
  {
    var v := Accept(field, capture).value;
    match field
    case NameField =>
      var inner := Trim(DropTrailingInitial(Trim(DropTrailingPunct(Trim(capture)))));
      assert v == inner;
      TrimSlice(DropTrailingInitial(Trim(DropTrailingPunct(Trim(capture)))));
    case AgeField =>
      var n := ParseInt(capture).value;
      assert ValidAge(n) && v == AgeText(n);
    case DateField =>
    case IdField =>
  }

  /** So do those a pattern's first match gives. */
  lemma AcceptedByProps(field: Field, pat: Pattern, text: string)
    requires field != GenderField && AcceptedBy(field, pat, text).Some?
    ensures Acceptable(field, AcceptedBy(field, pat, text).value)
  {
    SearchLeftmost(pat, text, 0);
    var capture := Search(pat, text, 0).value.groups[0];
    assert AcceptedBy(field, pat, text) == Accept(field, capture);
    AcceptProps(field, capture);
  }

  /** So does the loop's value for those fields. */
  lemma FirstFromProps(field: Field, pats: seq<Pattern>, text: string)
    requires field != GenderField && FirstFrom(field, pats, text).Some?
    ensures Acceptable(field, FirstFrom(field, pats, text).value)
  {
    var j := FirstSomeIndex(Candidates(field, pats, text), 0);
    AcceptedByProps(field, pats[j], text);
  }

  // ---------------------------------------------------------------------
  // The fallback gender is always Male or Female
  // ---------------------------------------------------------------------

  lemma LowerEqUpperEq(a: char, b: char)
    requires LowerChar(a) == LowerChar(b)
    ensures UpperChar(a) == UpperChar(b)
  {
  }

  /** Characters equal ignoring case upper-case alike. */
  lemma {:induction false} PrefixAtCIUpper(s: string, i: nat, w: string, k: nat)
    requires k <= |w| && PrefixAtCI(s, i, w, k)
    ensures i + |w| <= |s|
    ensures forall t :: k <= t < |w| ==> UpperChar(s[i + t]) == UpperChar(w[t])
    decreases |w| - k
  {
    if k < |w| {
      LowerEqUpperEq(s[i + k], w[k]);
      PrefixAtCIUpper(s, i, w, k + 1);
    }
  }

  /** Text that matches a word ignoring case upper-cases to the same. */
  lemma CaptureUpper(s: string, i: nat, w: string)
    requires PrefixAtCI(s, i, w)
    ensures i + |w| <= |s| && ToUpper(s[i..i + |w|]) == ToUpper(w)
  {
    PrefixAtCIUpper(s, i, w, 0);
  }

  /** The upper-cased alternatives of the gender patterns. */
  lemma GenderWordsUpper()
    ensures ToUpper("Male") == "MALE" && ToUpper("Female") == "FEMALE"
    ensures ToUpper("M") == "M" && ToUpper("F") == "F"
    ensures ToUpper("MALE") == "MALE" && ToUpper("FEMALE") == "FEMALE"
  {
  }

  /** The four upper-cased spellings of the gender words. */
  predicate IsGenderUpper(u: string) {
    u == "MALE" || u == "FEMALE" || u == "M" || u == "F"
  }

  /** Those spellings normalize to Male or Female. */
  lemma NormalizeFromUpper(g: string)
    requires IsGenderUpper(ToUpper(g))
    ensures NormalizeGender(g) == "Male" || NormalizeGender(g) == "Female"
  {
  }

  lemma GenderWordUpper(g: string)
    requires g in GenderWords
    ensures IsGenderUpper(ToUpper(g))
  {
    GenderWordsUpper();
  }

  /** A labelled gender word upper-cases to one of the spellings. */
  lemma LabelledGenderUpper(s: string, q: nat, labels: seq<string>, words: seq<string>)
    requires q <= |s| && (forall w :: w in words ==> w != []) && LabelledWordAt(s, q, labels, words).Some?
    requires forall w :: w in words ==> IsGenderUpper(ToUpper(w))
    ensures IsGenderUpper(ToUpper(LabelledWordAt(s, q, labels, words).value.groups[0]))
  {
    var j, g := LabelledWordCapture(s, q, labels, words);
    CaptureUpper(s, j, g);
  }

  /** So does the GenderBeforeDate capture. */
  lemma GenderBeforeDateUpper(s: string, q: nat)
    requires q <= |s| && GenderBeforeDateAt(s, q).Some?
    ensures IsGenderUpper(ToUpper(GenderBeforeDateAt(s, q).value.groups[0]))
  {
    var g := FirstPrefixCI(s, q, ["Male", "Female"]).value;
    CaptureUpper(s, q, g);
    GenderWordsUpper();
  }

  /** So the fallback gender is Male or Female: the title-case branch is
      never taken. */
  lemma GenderFallbackProps(text: string)
    requires FirstFrom(GenderField, GenderPatterns, text).Some?
    ensures Acceptable(GenderField, FirstFrom(GenderField, GenderPatterns, text).value)
  {
    var j := FirstSomeIndex(Candidates(GenderField, GenderPatterns, text), 0);
    var pat := GenderPatterns[j];
    SearchLeftmost(pat, text, 0);
    var m := Search(pat, text, 0).value;
    if j == 0 {
      forall w | w in GenderWords ensures IsGenderUpper(ToUpper(w)) { GenderWordUpper(w); }
      LabelledGenderUpper(text, m.start, GenderLabels, GenderWords);
    } else {
      GenderBeforeDateUpper(text, m.start);
    }
    NormalizeFromUpper(m.groups[0]);
  }

  /** The Age/Sex line gives an age of 1 to 149 years and Male or Female. */
  lemma AgeSexProps(text: string)
    ensures AgeSexFields(text).0.Some? ==> Acceptable(AgeField, AgeSexFields(text).0.value)
    ensures AgeSexFields(text).1.Some? ==> Acceptable(GenderField, AgeSexFields(text).1.value)
  {
    if AgeSexFields(text).0.Some? {
      SearchLeftmost(AgeSex, text, 0);
      var n := ParseInt(Search(AgeSex, text, 0).value.groups[0]).value;
      assert ValidAge(n) && AgeSexFields(text).0.value == AgeText(n);
    }
  }

  /** What every extraction satisfies: a name of 3 to 50 characters without
      "Age" or "Sex", or "N/A"; an age of 1 to 149 years; Male or Female; a
      non-empty date; an ID that is not a heading word. */
  lemma PatientInfoProps(text: string)
    ensures var info := PatientInfoOf(text);
      && (info.name == "N/A" || (Acceptable(NameField, info.name) && info.name != "Information"))
      && (info.age.Some? ==> Acceptable(AgeField, info.age.value))
      && (info.gender.Some? ==> Acceptable(GenderField, info.gender.value))
      && (info.date.Some? ==> Acceptable(DateField, info.date.value))
      && (info.patientId.Some? ==> Acceptable(IdField, info.patientId.value))
  {
    AgeSexProps(text);
    if FirstFrom(NameField, NamePatterns, text).Some? { FirstFromProps(NameField, NamePatterns, text); }
    if FirstFrom(AgeField, AgePatterns, text).Some? { FirstFromProps(AgeField, AgePatterns, text); }
    if FirstFrom(GenderField, GenderPatterns, text).Some? { GenderFallbackProps(text); }
    if FirstFrom(DateField, DatePatterns, text).Some? { FirstFromProps(DateField, DatePatterns, text); }
    if FirstFrom(IdField, IdPatterns, text).Some? { FirstFromProps(IdField, IdPatterns, text); }
  }
}
