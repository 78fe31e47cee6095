/** Building blocks for the fixed regular expressions of the report
    interpreter: match records, decimal numbers (`\d+\.?\d*`), the
    `min - max` range shape, and small greedy and lazy scanners. Every
    scanner works on a position in a fixed string and returns the end of
    what it consumed. */
module Scan {
  import opened TextUtil

  /** One regular-expression match: where it starts, where its last capture
      group ends, and the capture groups. For the two patterns the source runs
      with the global flag the last group closes the match, so `end` is the
      index the next search starts from. */
  datatype Match = Match(start: nat, end: nat, groups: seq<string>)

  // ---------------------------------------------------------------------
  // Decimal numbers
  // ---------------------------------------------------------------------

  /** End of the greedy `\d+\.?\d*` that starts at the digit at p. No shorter
      match can be followed by whitespace or '-', so greedy is the only way
      these patterns can continue. */
  function NumberEnd(s: string, p: nat): (e: nat)
    requires p < |s| && IsDigit(s[p])
    ensures p < e <= |s|
  {
    var a := RunEnd(s, p, Digit);
    if a < |s| && s[a] == '.' then RunEnd(s, a + 1, Digit) else a
  }

  /** The strings `\d+\.?\d*` accepts in full. */
  predicate IsNumberText(t: string) {
    var a := RunEnd(t, 0, Digit);
    0 < a && (a == |t| || (t[a] == '.' && RunEnd(t, a + 1, Digit) == |t|))
  }

  /** `parseFloat` of a number text, exactly: the whole part plus the
      fraction digits over the matching power of ten. */
  function NumberValue(t: string): (v: real)
    requires IsNumberText(t)
    ensures v >= 0.0
  {
    var a := RunEnd(t, 0, Digit);
    NumberTextDigits(t);
    var whole := DigitsValue(t[..a]) as real;
    if a == |t| then whole
    else whole + (DigitsValue(t[a + 1..]) as real) / (Pow10(|t| - a - 1) as real)
  }

  /** `parseFloat` on the strings the patterns capture: the value of the
      leading `\d+\.?\d*`, or None (NaN) when the text does not start with
      a digit. Signs, exponents and leading whitespace never occur in the
      captured texts and are not modelled. */
  function ParseFloat(t: string): (v: Option<real>)
    ensures v.Some? <==> t != [] && IsDigit(t[0])
  {
    if t != [] && IsDigit(t[0]) then
      var e := NumberEnd(t, 0);
      NumberEndText(t, 0);
      Some(NumberValue(t[..e]))
    else None
  }

  /** `parseInt` on the strings the patterns capture: the value of the
      leading digit run, or None (NaN) when the text does not start with a
      digit. */
  function ParseInt(t: string): (v: Option<nat>)
    ensures v.Some? <==> t != [] && IsDigit(t[0])
  {
    if t != [] && IsDigit(t[0]) then
      var e := RunEnd(t, 0, Digit);
      RunEndProps(t, 0, Digit);
      assert AllDigits(t[..e]);
      Some(DigitsValue(t[..e]))
    else None
  }

  /** A known digit run: it ends exactly where the digits stop. */
  lemma RunEndAt(s: string, i: nat, j: nat)
    requires i <= j <= |s|
    requires forall k :: i <= k < j ==> IsDigit(s[k])
    requires j == |s| || !IsDigit(s[j])
    ensures RunEnd(s, i, Digit) == j
  {
    RunEndProps(s, i, Digit);
  }

  /** `parseInt(String(n) + rest)` is n when rest does not start with a digit. */
  lemma ParseIntNatToString(n: nat, rest: string)
    requires rest == [] || !IsDigit(rest[0])
    ensures ParseInt(NatToString(n) + rest) == Some(n)
  {
    var d := NatToString(n);
    var t := d + rest;
    assert t[0] == d[0];
    RunEndAt(t, 0, |d|);
    assert t[..|d|] == d;
    DigitsValueRoundTrip(n);
  }

  /** A number text is a digit run, optionally followed by '.' and another
      digit run. */
  lemma NumberTextDigits(t: string)
    requires IsNumberText(t)
    ensures AllDigits(t[..RunEnd(t, 0, Digit)])
    ensures RunEnd(t, 0, Digit) < |t| ==> AllDigits(t[RunEnd(t, 0, Digit) + 1..])
  {
    var a := RunEnd(t, 0, Digit);
    RunEndProps(t, 0, Digit);
    if a < |t| { RunEndProps(t, a + 1, Digit); }
  }

  /** A run ends at the same place in a slice as in the whole string, unless
      the slice cuts it off. */
  lemma {:induction false} RunEndSlice(s: string, a: nat, b: nat, i: nat, k: CharClass)
    requires a <= i <= b <= |s|
    ensures RunEnd(s[a..b], i - a, k) == (if RunEnd(s, i, k) <= b then RunEnd(s, i, k) else b) - a
    decreases b - i
  {
    var t := s[a..b];
    if i < b {
      assert t[i - a] == s[i];
      if InClass(s[i], k) { RunEndSlice(s, a, b, i + 1, k); }
    }
  }

  lemma NumberEndSlice(s: string, a: nat, b: nat, p: nat)
    requires a <= p < b <= |s| && IsDigit(s[p]) && NumberEnd(s, p) <= b
    ensures IsDigit(s[a..b][p - a]) && NumberEnd(s[a..b], p - a) == NumberEnd(s, p) - a
  {
    var t := s[a..b];
    assert t[p - a] == s[p];
    var e := RunEnd(s, p, Digit);
    RunEndSlice(s, a, b, p, Digit);
    if e < b {
      assert t[e - a] == s[e];
      if s[e] == '.' { RunEndSlice(s, a, b, e + 1, Digit); }
    }
  }

  /** What NumberEnd consumes is a number text. */
  lemma NumberEndText(s: string, p: nat)
    requires p < |s| && IsDigit(s[p])
    ensures IsNumberText(s[p..NumberEnd(s, p)])
  {
    var e := NumberEnd(s, p);
    var t := s[p..e];
    var a := RunEnd(s, p, Digit);
    RunEndSlice(s, p, e, p, Digit);
    if a < e {
      assert t[a - p] == s[a];
      RunEndSlice(s, p, e, a + 1, Digit);
    }
  }

  /** A number text that stops before a character that can neither extend
      the digits nor start a fraction is what NumberEnd consumes. */
  lemma NumberEndAt(t: string, p: nat, e: nat)
    requires p < e <= |t| && IsNumberText(t[p..e])
    requires e == |t| || (!IsDigit(t[e]) && t[e] != '.')
    ensures IsDigit(t[p]) && NumberEnd(t, p) == e
  {
    var u := t[p..e];
    RunEndSlice(t, p, e, p, Digit);
    RunEndProps(t, p, Digit);
    RunEndProps(u, 0, Digit);
    var r := RunEnd(t, p, Digit);
    assert u[0] == t[p];
    var a := RunEnd(u, 0, Digit);
    if a < |u| {
      assert t[r] == u[a];
      RunEndSlice(t, p, e, r + 1, Digit);
      RunEndProps(t, r + 1, Digit);
    }
  }

  /** parseFloat of a whole number text is its value. */
  lemma ParseFloatText(t: string)
    requires IsNumberText(t)
    ensures ParseFloat(t) == Some(NumberValue(t))
  {
    assert t[0..|t|] == t;
    NumberEndAt(t, 0, |t|);
    assert t[..|t|] == t;
  }

  /** The decimal text of n reads back as n. */
  lemma IntText(n: nat)
    ensures IsNumberText(NatToString(n)) && NumberValue(NatToString(n)) == n as real
  {
    var r := NatToString(n);
    RunEndAt(r, 0, |r|);
    assert r[..|r|] == r;
    DigitsValueRoundTrip(n);
  }

  /** The text `w.f` with one fraction digit reads back as w + f/10. */
  lemma DecimalText(w: nat, f: nat)
    requires f < 10
    ensures IsNumberText(NatToString(w) + "." + [DigitChar(f)])
    ensures NumberValue(NatToString(w) + "." + [DigitChar(f)]) == w as real + (f as real) / 10.0
  {
    var ws := NatToString(w);
    var r := ws + "." + [DigitChar(f)];
    RunEndAt(r, 0, |ws|);
    RunEndAt(r, |ws| + 1, |r|);
    assert r[..|ws|] == ws;
    assert r[|ws| + 1..] == [DigitChar(f)];
    assert [DigitChar(f)][..0] == [];
    assert DigitsValue([DigitChar(f)]) == f;
    assert Pow10(|r| - |ws| - 1) == 10;
    DigitsValueRoundTrip(w);
  }

  // ---------------------------------------------------------------------
  // The range shape `(\d+\.?\d*)\s*-\s*(\d+\.?\d*)`
  // ---------------------------------------------------------------------

  /** The range shape matched at p: groups are the two bounds. */
  function RangeAt(s: string, p: nat): (r: Option<Match>)
    requires p <= |s|
    ensures r.Some? ==> r.value.start == p && p < r.value.end <= |s| && |r.value.groups| == 2
  {
    if p < |s| && IsDigit(s[p]) then
      var a := NumberEnd(s, p);
      var b := RunEnd(s, a, Space);
      if b < |s| && s[b] == '-' then
        var c := RunEnd(s, b + 1, Space);
        if c < |s| && IsDigit(s[c]) then
          Some(Match(p, NumberEnd(s, c), [s[p..a], s[c..NumberEnd(s, c)]]))
        else None
      else None
    else None
  }

  /** Both bounds of a range are number texts. */
  lemma RangeAtNumbers(s: string, p: nat)
    requires p <= |s| && RangeAt(s, p).Some?
    ensures IsNumberText(RangeAt(s, p).value.groups[0]) && IsNumberText(RangeAt(s, p).value.groups[1])
  {
    var x := NumberEnd(s, p);
    NumberEndText(s, p);
    NumberEndText(s, RunEnd(s, RunEnd(s, x, Space) + 1, Space));
  }

  /** The positions of a range match at p: the first bound is s[p..x], the
      whitespace before the '-' ends at y, and the second bound is s[c..d]. */
  predicate RangeParts(s: string, p: nat, x: nat, y: nat, c: nat, d: nat) {
    p < |s| && IsDigit(s[p]) && NumberEnd(s, p) == x &&
    RunEnd(s, x, Space) == y && y < |s| && s[y] == '-' &&
    RunEnd(s, y + 1, Space) == c && c < |s| && IsDigit(s[c]) && NumberEnd(s, c) == d
  }

  lemma RangeAtParts(s: string, p: nat, x: nat, y: nat, c: nat, d: nat)
    requires RangeParts(s, p, x, y, c, d)
    ensures RangeAt(s, p) == Some(Match(p, d, [s[p..x], s[c..d]]))
  {
  }

  lemma RangePartsOfMatch(s: string, p: nat) returns (x: nat, y: nat, c: nat, d: nat)
    requires p <= |s| && RangeAt(s, p).Some?
    ensures RangeParts(s, p, x, y, c, d) && RangeAt(s, p) == Some(Match(p, d, [s[p..x], s[c..d]]))
  {
    x := NumberEnd(s, p);
    y := RunEnd(s, x, Space);
    c := RunEnd(s, y + 1, Space);
    d := NumberEnd(s, c);
  }

  /** The parts of a range keep their places, shifted, in the range's own text. */
  lemma RangePartsOwn(s: string, p: nat, x: nat, y: nat, c: nat, d: nat)
    requires RangeParts(s, p, x, y, c, d)
    ensures RangeParts(s[p..d], 0, x - p, y - p, c - p, d - p)
  {
    var t := s[p..d];
    assert p < x <= y < c < d;
    NumberEndSlice(s, p, d, p);
    RunEndSlice(s, p, d, x, Space);
    assert t[y - p] == s[y];
    RunEndSlice(s, p, d, y + 1, Space);
    NumberEndSlice(s, p, d, c);
  }

  lemma RangeAtPartsOwn(s: string, p: nat, x: nat, y: nat, c: nat, d: nat)
    requires p <= x <= y <= c <= d <= |s|
    requires RangeParts(s[p..d], 0, x - p, y - p, c - p, d - p)
    ensures RangeAt(s[p..d], 0) == Some(Match(0, d - p, [s[p..x], s[c..d]]))
  {
    RangeAtParts(s[p..d], 0, x - p, y - p, c - p, d - p);
    SliceOfSlice(s, p, d, 0, x - p);
    SliceOfSlice(s, p, d, c - p, d - p);
  }

  /** The text of a range match is itself a range, matched in full at 0 with
      the same bounds: re-parsing a captured range gives the same numbers. */
  lemma RangeAtOwn(s: string, p: nat)
    requires p <= |s| && RangeAt(s, p).Some?
    ensures RangeAt(s[p..RangeAt(s, p).value.end], 0) == Some(Match(0, RangeAt(s, p).value.end - p, RangeAt(s, p).value.groups))
  {
    var x, y, c, d := RangePartsOfMatch(s, p);
    RangePartsOwn(s, p, x, y, c, d);
    RangeAtPartsOwn(s, p, x, y, c, d);
  }

  // ---------------------------------------------------------------------
  // Literal alternatives
  // ---------------------------------------------------------------------

  /** Some word of the list occurs at i, ignoring ASCII case. */
  predicate AnyPrefixCI(s: string, i: nat, words: seq<string>)
    decreases |words|
  {
    |words| > 0 && (PrefixAtCI(s, i, words[0]) || AnyPrefixCI(s, i, words[1..]))
  }

  /** The first word of the list that occurs at i, ignoring ASCII case: an
      alternation `(a|b|...)` with nothing after it. */
  function FirstPrefixCI(s: string, i: nat, words: seq<string>): (r: Option<string>)
    ensures r.Some? ==> r.value in words && PrefixAtCI(s, i, r.value)
    ensures r.None? ==> forall w :: w in words ==> !PrefixAtCI(s, i, w)
    decreases |words|
  {
    if |words| == 0 then None
    else if PrefixAtCI(s, i, words[0]) then Some(words[0])
    else FirstPrefixCI(s, i, words[1..])
  }

  /** The first word of the list that occurs at i, case-sensitively. */
  function FirstPrefix(s: string, i: nat, words: seq<string>): (r: Option<string>)
    ensures r.Some? ==> r.value in words && PrefixAt(s, i, r.value)
    ensures r.None? ==> forall w :: w in words ==> !PrefixAt(s, i, w)
    decreases |words|
  {
    if |words| == 0 then None
    else if PrefixAt(s, i, words[0]) then Some(words[0])
    else FirstPrefix(s, i, words[1..])
  }

  /** `\b` at i: exactly one of the characters around i is a word character. */
  predicate WordBoundary(s: string, i: nat) {
    (0 < i <= |s| && IsWordChar(s[i - 1])) != (i < |s| && IsWordChar(s[i]))
  }

  // ---------------------------------------------------------------------
  // Separators and lazy captures
  // ---------------------------------------------------------------------

  /** `[:\s]*[:\-]?\s*` in front of something that starts with a digit or a
      letter: where that thing must start. Only the end of the `[:\s]` run, or
      the end of the whitespace after a '-' that follows it, can be followed
      by a digit or a letter. */
  function LabelSep(s: string, q: nat): (r: nat)
    requires q <= |s|
    ensures q <= r <= |s|
  {
    var c := RunEnd(s, q, ColonSpace);
    if c < |s| && s[c] == '-' then RunEnd(s, c + 1, Space) else c
  }

  /** A lazy `[class]*?` from e followed by one of the terminators: the first
      position from e, reached through characters of the class, at which a
      terminator occurs (case-insensitively). */
  function LazyUntil(s: string, e: nat, k: CharClass, terms: seq<string>): (r: Option<nat>)
    requires e <= |s|
    ensures r.Some? ==> e <= r.value <= |s| && AnyPrefixCI(s, r.value, terms)
    ensures r.Some? ==> forall t :: e <= t < r.value ==> InClass(s[t], k) && !AnyPrefixCI(s, t, terms)
    decreases |s| - e
  {
    if AnyPrefixCI(s, e, terms) then Some(e)
    else if e < |s| && InClass(s[e], k) then LazyUntil(s, e + 1, k, terms)
    else None
  }

  /** `\w+\/\w+` at u, greedy: its end. */
  function WordSlashWordEnd(s: string, u: nat): (r: Option<nat>)
    requires u <= |s|
    ensures r.Some? ==> u < r.value <= |s|
  {
    var a := RunEnd(s, u, Word);
    if a > u && a < |s| && s[a] == '/' then
      var b := RunEnd(s, a + 1, Word);
      if b > a + 1 then Some(b) else None
    else None
  }

  /** One step of a fixed date shape. */
  datatype DateAtom = Digits(min: nat, max: nat) | DateSep | Letters3

  /** A date shape such as `\d{1,2}[-\/][A-Za-z]{3}[-\/]\d{4}` matched at p:
      its end. Every digit group is followed by a separator or ends the shape,
      so taking as many digits as allowed is the only way to continue. */
  function ShapeEnd(s: string, p: nat, atoms: seq<DateAtom>): (r: Option<nat>)
    requires p <= |s|
    ensures r.Some? ==> p <= r.value <= |s|
    ensures r.Some? && atoms != [] && !(atoms[0].Digits? && atoms[0].min == 0) ==> p < r.value
    decreases |atoms|
  {
    if atoms == [] then Some(p)
    else
      var next: Option<nat> :=
        match atoms[0]
        case Digits(mn, mx) =>
          var d := RunEndMax(s, p, Digit, mx);
          if d - p >= mn then Some(d) else None
        case DateSep =>
          if p < |s| && (s[p] == '-' || s[p] == '/') then Some(p + 1) else None
        case Letters3 =>
          var d := RunEndMax(s, p, Letter, 3);
          if d - p == 3 then Some(d) else None;
      match next
      case None => None
      case Some(e) => if e <= |s| then ShapeEnd(s, e, atoms[1..]) else None
  }
}
