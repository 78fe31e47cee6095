/** `determineTestStatus`: classify a test value against the range printed
    on the report, or else against a fixed table of reference ranges chosen
    by the test's name. */
module TestStatus {
  import opened TextUtil
  import opened Scan
  import opened Patterns

  datatype Status = Normal | High | Low | Unknown

  /** One entry of the reference table: a name key and its bounds. */
  datatype Reference = Reference(key: string, min: real, max: real)

  /** The table in the order its entries are listed (the order in which
      `Object.entries` visits them). */
  const ReferenceRanges: seq<Reference> := [
    Reference("glucose", 70.0, 100.0),
    Reference("cholesterol", 0.0, 200.0),
    Reference("hdl", 40.0, 1000.0),
    Reference("ldl", 0.0, 100.0),
    Reference("triglycerides", 0.0, 150.0),
    Reference("hemoglobin", 12.0, 16.0),
    Reference("hba1c", 0.0, 5.7),
    Reference("creatinine", 0.6, 1.2)
  ]

  /** The two early returns shared by both branches: below the minimum is low,
      above the maximum is high, anything else normal. */
  function Classify(value: real, min: real, max: real): (st: Status)
    ensures st == Low <==> value < min
    ensures st == High <==> min <= value && max < value
    ensures st == Normal <==> min <= value <= max
  {
    if value < min then Low else if value > max then High else Normal
  }

  /** `s.replace(/\s+/g, '')`: the string without its whitespace. */
  function RemoveSpaces(s: string): string {
    if s == [] then []
    else if IsSpace(s[|s| - 1]) then RemoveSpaces(s[..|s| - 1])
    else RemoveSpaces(s[..|s| - 1]) + [s[|s| - 1]]
  }

  /** RemoveSpaces drops exactly the whitespace: what is left has none, and
      every character of s that is not whitespace is kept, in order. */
  lemma {:induction false} RemoveSpacesProps(s: string)
    ensures forall k :: 0 <= k < |RemoveSpaces(s)| ==> !IsSpace(RemoveSpaces(s)[k])
    ensures !AllSpace(s) ==> RemoveSpaces(s) != []
    ensures AllSpace(s) ==> RemoveSpaces(s) == []
  {
    if s != [] {
      RemoveSpacesProps(s[..|s| - 1]);
      if !IsSpace(s[|s| - 1]) {
        var r := RemoveSpaces(s[..|s| - 1]);
        assert RemoveSpaces(s) == r + [s[|s| - 1]];
      } else if !AllSpace(s) {
        var k :| 0 <= k < |s| && !IsSpace(s[k]);
        assert s[..|s| - 1][k] == s[k];
      }
    }
  }

  /** Removing whitespace distributes over concatenation. */
  lemma {:induction false} RemoveSpacesAppend(a: string, b: string)
    ensures RemoveSpaces(a + b) == RemoveSpaces(a) + RemoveSpaces(b)
    decreases |b|
  {
    if b == [] {
      assert a + b == a;
    } else {
      var init := b[..|b| - 1];
      assert (a + b)[..|a + b| - 1] == a + init;
      assert (a + b)[|a + b| - 1] == b[|b| - 1];
      RemoveSpacesAppend(a, init);
    }
  }

  /** A string without whitespace is left as it is. */
  lemma {:induction false} RemoveSpacesNone(s: string)
    requires forall k :: 0 <= k < |s| ==> !IsSpace(s[k])
    ensures RemoveSpaces(s) == s
  {
    if s != [] {
      RemoveSpacesNone(s[..|s| - 1]);
      assert s[..|s| - 1] + [s[|s| - 1]] == s;
    }
  }

  /** The lookup key of a test name: lower case, no whitespace. */
  function NameKey(name: string): string {
    RemoveSpaces(ToLower(name))
  }

  /** The first table entry, from index i, whose key the name key contains. */
  function TableStatus(key: string, value: real, i: nat): Status
    requires i <= |ReferenceRanges|
    decreases |ReferenceRanges| - i
  {
    if i == |ReferenceRanges| then Unknown
    else if Contains(key, ReferenceRanges[i].key) then
      Classify(value, ReferenceRanges[i].min, ReferenceRanges[i].max)
    else TableStatus(key, value, i + 1)
  }

  /** `range.match(/(\d+\.?\d*)\s*-\s*(\d+\.?\d*)/)` on a non-empty range,
      with both groups parsed: the bounds of the first `a - b` in it. */
  function ParsedRange(range: string): (b: Option<(real, real)>)
    ensures b.Some? <==> range != [] && Search(Range, range, 0).Some?
  {
    var found := if range != [] then Search(Range, range, 0) else None;
    if found.Some? then
      SearchLeftmost(Range, range, 0);
      var m := found.value;
      RangeAtNumbers(range, m.start);
      Some((NumberValue(m.groups[0]), NumberValue(m.groups[1])))
    else None
  }

  function DetermineTestStatus(name: string, value: real, range: string): Status {
    match ParsedRange(range)
    case Some(b) => Classify(value, b.0, b.1)
    case None => TableStatus(NameKey(name), value, 0)
  }

  // ---------------------------------------------------------------------
  // Properties
  // ---------------------------------------------------------------------

  /** ParsedRange reads the two bounds of the leftmost range match. */
  lemma ParsedRangeBounds(range: string)
    requires ParsedRange(range).Some?
    ensures var m := Search(Range, range, 0).value;
      && m.start <= |range| && RangeAt(range, m.start) == Some(m)
      && IsNumberText(m.groups[0]) && IsNumberText(m.groups[1])
      && ParsedRange(range).value == (NumberValue(m.groups[0]), NumberValue(m.groups[1]))
  {
    SearchLeftmost(Range, range, 0);
    RangeAtNumbers(range, Search(Range, range, 0).value.start);
  }

  /** With a parseable range its bounds decide, and the name, so the
      reference table, plays no part. */
  lemma StatusFromRange(name: string, value: real, range: string)
    requires ParsedRange(range).Some?
    ensures var b := ParsedRange(range).value;
      && (DetermineTestStatus(name, value, range) == Low <==> value < b.0)
      && (DetermineTestStatus(name, value, range) == High <==> b.0 <= value && b.1 < value)
      && (DetermineTestStatus(name, value, range) == Normal <==> b.0 <= value <= b.1)
    ensures forall other :: DetermineTestStatus(other, value, range) == DetermineTestStatus(name, value, range)
  {
  }

  /** Entry j is the first entry from i whose key occurs in the name key. */
  predicate FirstKeyFrom(key: string, i: nat, j: nat) {
    i <= j < |ReferenceRanges| && Contains(key, ReferenceRanges[j].key) &&
    forall k :: i <= k < j ==> !Contains(key, ReferenceRanges[k].key)
  }

  /** TableStatus picks the first entry from i whose key the name key
      contains, and is Unknown exactly when there is none. */
  lemma {:induction false} TableStatusFirst(key: string, value: real, i: nat)
    requires i <= |ReferenceRanges|
    ensures TableStatus(key, value, i) == Unknown <==>
      forall j :: i <= j < |ReferenceRanges| ==> !Contains(key, ReferenceRanges[j].key)
    ensures forall j: nat :: FirstKeyFrom(key, i, j) ==>
      TableStatus(key, value, i) == Classify(value, ReferenceRanges[j].min, ReferenceRanges[j].max)
    decreases |ReferenceRanges| - i
  {
    if i < |ReferenceRanges| { TableStatusFirst(key, value, i + 1); }
  }

  /** Without a parseable range the first table key contained in the
      lower-cased, space-free name decides, and no such key means Unknown. */
  lemma StatusFromTable(name: string, value: real, range: string)
    requires ParsedRange(range).None?
    ensures DetermineTestStatus(name, value, range) == Unknown <==>
      forall j :: 0 <= j < |ReferenceRanges| ==> !Contains(NameKey(name), ReferenceRanges[j].key)
    ensures forall j: nat :: FirstKeyFrom(NameKey(name), 0, j) ==>
      DetermineTestStatus(name, value, range) == Classify(value, ReferenceRanges[j].min, ReferenceRanges[j].max)
  {
    TableStatusFirst(NameKey(name), value, 0);
  }

  /** Only a parseable range or a name containing a table key gives a known
      status. */
  lemma UnknownIff(name: string, value: real, range: string)
    ensures DetermineTestStatus(name, value, range) == Unknown <==>
      ParsedRange(range).None? &&
      forall j :: 0 <= j < |ReferenceRanges| ==> !Contains(NameKey(name), ReferenceRanges[j].key)
  {
    TableStatusFirst(NameKey(name), value, 0);
  }

  /** The key of "HDL Cholesterol". */
  const HdlKey := "hdlcholesterol"
  /** The key of "HbA1c Level". */
  const HbA1cKey := "hba1clevel"

  /** The key of two lower-case words separated by one space is the two
      words run together. */
  lemma TwoWordKey(name: string, first: string, second: string)
    requires ToLower(name) == first + " " + second
    requires forall k :: 0 <= k < |first| ==> !IsSpace(first[k])
    requires forall k :: 0 <= k < |second| ==> !IsSpace(second[k])
    ensures NameKey(name) == first + second
  {
    RemoveSpacesAppend(first + " ", second);
    RemoveSpacesAppend(first, " ");
    assert RemoveSpaces(" ") == [] by {
      assert " "[..0] == [];
    }
    RemoveSpacesNone(first);
    RemoveSpacesNone(second);
    assert first + [] == first;
  }

  /** "HDL Cholesterol" has the key HdlKey. */
  lemma HdlNameKey()
    ensures NameKey("HDL Cholesterol") == HdlKey
  {
    assert ToLower("HDL Cholesterol") == "hdl" + " " + "cholesterol";
    TwoWordKey("HDL Cholesterol", "hdl", "cholesterol");
  }

  /** "HbA1c Level" has the key HbA1cKey. */
  lemma HbA1cNameKey()
    ensures NameKey("HbA1c Level") == HbA1cKey
  {
    assert ToLower("HbA1c Level") == "hba1c" + " " + "level";
    TwoWordKey("HbA1c Level", "hba1c", "level");
  }

  lemma HdlKeyContains()
    ensures Contains(HdlKey, "cholesterol") && !Contains(HdlKey, "glucose")
  {
    assert PrefixAt(HdlKey, 3, "cholesterol");
    ContainsFromWitness(HdlKey, "cholesterol", 0, 3);
    NotContainsFrom(HdlKey, "glucose", 0);
  }

  /** A name whose key is that of "HDL Cholesterol" is looked up under
      cholesterol, the first key it contains: glucose, listed before it,
      does not occur, and hdl, which does, comes after. */
  lemma HdlCholesterolUsesCholesterol(name: string, value: real)
    requires NameKey(name) == HdlKey
    ensures DetermineTestStatus(name, value, "") == Classify(value, 0.0, 200.0)
  {
    HdlKeyContains();
    assert TableStatus(HdlKey, value, 0) == TableStatus(HdlKey, value, 1);
  }

  lemma HbA1cKeyLacksFirst()
    ensures !Contains(HbA1cKey, "glucose") && !Contains(HbA1cKey, "cholesterol")
    ensures !Contains(HbA1cKey, "triglycerides")
  {
    NotContainsFrom(HbA1cKey, "glucose", 0);
    NotContainsFrom(HbA1cKey, "cholesterol", 0);
    NotContainsFrom(HbA1cKey, "triglycerides", 0);
  }

  lemma HbA1cKeyLacksHdl()
    ensures !Contains(HbA1cKey, "hdl") && !Contains(HbA1cKey, "hemoglobin")
  {
    assert !MatchAt(HbA1cKey, "hdl", 0, 1);
    NotContainsFrom(HbA1cKey, "hdl", 0);
    NotContainsFrom(HbA1cKey, "hemoglobin", 0);
  }

  lemma HbA1cKeyLacksLdl()
    ensures !Contains(HbA1cKey, "ldl")
  {
    assert !MatchAt(HbA1cKey, "ldl", 5, 1);
    NotContainsFrom(HbA1cKey, "ldl", 0);
  }

  lemma HbA1cKeyContains()
    ensures Contains(HbA1cKey, "hba1c")
    ensures forall j :: 0 <= j < 6 ==> !Contains(HbA1cKey, ReferenceRanges[j].key)
  {
    assert PrefixAt(HbA1cKey, 0, "hba1c");
    ContainsFromWitness(HbA1cKey, "hba1c", 0, 0);
    HbA1cKeyLacksFirst();
    HbA1cKeyLacksHdl();
    HbA1cKeyLacksLdl();
  }

  /** "HbA1c Level" with value 6.2 and no range: the first key it contains
      is hba1c, whose maximum is 5.7, so it is high. */
  lemma HbA1cLevelIsHigh(name: string)
    requires NameKey(name) == HbA1cKey
    ensures DetermineTestStatus(name, 6.2, "") == High
  {
    HbA1cKeyContains();
    TableStatusFirst(HbA1cKey, 6.2, 0);
    assert FirstKeyFrom(HbA1cKey, 0, 6);
  }

  /** Without a range, "HDL Cholesterol" is classified by the cholesterol
      bounds 0–200. */
  lemma HdlCholesterolStatus(value: real)
    ensures DetermineTestStatus("HDL Cholesterol", value, "") == Classify(value, 0.0, 200.0)
  {
    HdlNameKey();
    HdlCholesterolUsesCholesterol("HDL Cholesterol", value);
  }

  /** Without a range, "HbA1c Level" 6.2 is high. */
  lemma HbA1cLevelStatus()
    ensures DetermineTestStatus("HbA1c Level", 6.2, "") == High
  {
    HbA1cNameKey();
    HbA1cLevelIsHigh("HbA1c Level");
  }

  /** A range written `a-b`, with two number texts and no spaces, parses
      to their values. */
  lemma RangeOfTexts(a: string, b: string)
    requires IsNumberText(a) && IsNumberText(b)
    ensures ParsedRange(a + "-" + b) == Some((NumberValue(a), NumberValue(b)))
  {
    var t := a + "-" + b;
    var x := |a|;
    assert t[0..x] == a && t[x + 1..|t|] == b;
    NumberEndAt(t, 0, x);
    assert RunEnd(t, x, Space) == x;
    assert b[0] == t[x + 1];
    assert RunEnd(t, x + 1, Space) == x + 1;
    NumberEndAt(t, x + 1, |t|);
    assert RangeParts(t, 0, x, x, x + 1, |t|);
    RangeAtParts(t, 0, x, x, x + 1, |t|);
    SearchLeftmost(Range, t, 0);
    assert PatternAt(Range, t, 0) == RangeAt(t, 0);
    assert t[..x] == a;
  }
}
