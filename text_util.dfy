/** Character classes and string helpers shared by the models of the back end
    and the front end. Whitespace is a fixed ASCII set (space, tab, line feed,
    carriage return, vertical tab, form feed); letters are ASCII letters.
    Most functions recurse over an index into a fixed string, so that Dafny can
    evaluate them on literal arguments. */
module TextUtil {

  datatype Option<+T> = None | Some(value: T)

  predicate IsSpace(c: char) {
    c == ' ' || c == '\t' || c == '\n' || c == '\r' || c == '\U{000B}' || c == '\U{000C}'
  }

  predicate IsDigit(c: char) { '0' <= c <= '9' }
  predicate IsUpper(c: char) { 'A' <= c <= 'Z' }
  predicate IsLower(c: char) { 'a' <= c <= 'z' }
  predicate IsLetter(c: char) { IsUpper(c) || IsLower(c) }
  /** The `\w` class. */
  predicate IsWordChar(c: char) { IsLetter(c) || IsDigit(c) || c == '_' }

  function LowerChar(c: char): (r: char)
    ensures !IsUpper(r)
    ensures IsUpper(c) ==> IsLower(r)
    ensures !IsUpper(c) ==> r == c
  {
    if IsUpper(c) then (c as int + 32) as char else c
  }

  function UpperChar(c: char): (r: char)
    ensures !IsLower(r)
    ensures IsLower(c) ==> IsUpper(r)
    ensures !IsLower(c) ==> r == c
  {
    if IsLower(c) then (c as int - 32) as char else c
  }

  function ToLower(s: string): (r: string)
    ensures |r| == |s|
    ensures forall i :: 0 <= i < |s| ==> r[i] == LowerChar(s[i])
  {
    seq(|s|, i requires 0 <= i < |s| => LowerChar(s[i]))
  }

  function ToUpper(s: string): (r: string)
    ensures |r| == |s|
    ensures forall i :: 0 <= i < |s| ==> r[i] == UpperChar(s[i])
  {
    seq(|s|, i requires 0 <= i < |s| => UpperChar(s[i]))
  }

  lemma ToLowerIdempotent(s: string)
    ensures ToLower(ToLower(s)) == ToLower(s)
  {
  }

  /** p occurs in s at position i. */
  predicate MatchAt(s: string, p: string, i: nat, k: nat := 0)
    requires i + |p| <= |s| && k <= |p|
    decreases |p| - k
  {
    k == |p| || (s[i + k] == p[k] && MatchAt(s, p, i, k + 1))
  }

  lemma MatchAtSlice(s: string, p: string, i: nat, k: nat)
    requires i + |p| <= |s| && k <= |p|
    ensures MatchAt(s, p, i, k) <==> s[i + k..i + |p|] == p[k..]
    decreases |p| - k
  {
    if k < |p| {
      MatchAtSlice(s, p, i, k + 1);
      assert s[i + k..i + |p|] == [s[i + k]] + s[i + k + 1..i + |p|];
      assert p[k..] == [p[k]] + p[k + 1..];
    }
  }

  /** p is a prefix of s[i..]. */
  predicate PrefixAt(s: string, i: nat, p: string) {
    i + |p| <= |s| && MatchAt(s, p, i)
  }

  lemma PrefixAtSlice(s: string, i: nat, p: string)
    ensures PrefixAt(s, i, p) <==> i + |p| <= |s| && s[i..i + |p|] == p
  {
    if i + |p| <= |s| { MatchAtSlice(s, p, i, 0); }
  }

  /** Case-insensitive (ASCII) version of PrefixAt, for patterns with the `i` flag. */
  predicate PrefixAtCI(s: string, i: nat, p: string, k: nat := 0)
    requires k <= |p|
    decreases |p| - k
  {
    i + |p| <= |s| && (k == |p| || (LowerChar(s[i + k]) == LowerChar(p[k]) && PrefixAtCI(s, i, p, k + 1)))
  }

  /** `s.includes(p)`, searching from position i. */
  predicate ContainsFrom(s: string, p: string, i: nat)
    decreases |s| - i
  {
    i + |p| <= |s| && (MatchAt(s, p, i) || ContainsFrom(s, p, i + 1))
  }

  predicate Contains(s: string, p: string) {
    ContainsFrom(s, p, 0)
  }

  lemma {:induction false} ContainsFromWitness(s: string, p: string, i: nat, j: nat)
    requires i <= j && PrefixAt(s, j, p)
    ensures ContainsFrom(s, p, i)
    decreases j - i
  {
    if i < j { ContainsFromWitness(s, p, i + 1, j); }
  }

  /** p occurs in s at position j (a slice form of PrefixAt). */
  predicate Occurs(s: string, p: string, j: int) {
    0 <= j && j + |p| <= |s| && s[j..j + |p|] == p
  }

  lemma {:induction false} ContainsFromOccurrence(s: string, p: string, i: nat)
    requires ContainsFrom(s, p, i)
    ensures exists j :: i <= j && Occurs(s, p, j)
    decreases |s| - i
  {
    if MatchAt(s, p, i) {
      PrefixAtSlice(s, i, p);
      assert Occurs(s, p, i);
    } else {
      ContainsFromOccurrence(s, p, i + 1);
    }
  }

  /** Contains agrees with its textbook definition. */
  lemma ContainsIff(s: string, p: string)
    ensures Contains(s, p) <==> exists j :: Occurs(s, p, j)
  {
    if Contains(s, p) {
      ContainsFromOccurrence(s, p, 0);
    } else if exists j :: Occurs(s, p, j) {
      var j :| Occurs(s, p, j);
      PrefixAtSlice(s, j, p);
      ContainsFromWitness(s, p, 0, j);
    }
  }

  /** s does not contain p from i on when p fails at every position from i
      that holds p's first character. */
  lemma {:induction false} NotContainsFrom(s: string, p: string, i: nat)
    requires p != []
    requires forall k :: i <= k && k + |p| <= |s| && s[k] == p[0] ==> !MatchAt(s, p, k)
    ensures !ContainsFrom(s, p, i)
    decreases |s| - i
  {
    if i + |p| <= |s| {
      assert !MatchAt(s, p, i);
      NotContainsFrom(s, p, i + 1);
    }
  }

  /** What a string contains, it contains in any surrounding text. */
  lemma ContainsInfix(a: string, b: string, c: string, x: string)
    requires Contains(b, x)
    ensures Contains(a + b + c, x)
  {
    ContainsIff(b, x);
    var j :| Occurs(b, x, j);
    var s := a + b + c;
    assert s[|a| + j..|a| + j + |x|] == b[j..j + |x|];
    assert Occurs(s, x, |a| + j);
    ContainsIff(s, x);
  }

  lemma ContainsConcat(a: string, b: string, c: string)
    ensures Contains(a + b + c, b)
  {
    var s := a + b + c;
    assert s[|a|..|a| + |b|] == b;
    PrefixAtSlice(s, |a|, b);
    ContainsFromWitness(s, b, 0, |a|);
  }

  /** Containment is transitive: what a contained text contains, the
      containing text contains. */
  lemma ContainsTrans(s: string, x: string, y: string)
    requires Contains(s, x) && Contains(x, y)
    ensures Contains(s, y)
  {
    ContainsIff(s, x);
    ContainsIff(x, y);
    var i :| Occurs(s, x, i);
    var j :| Occurs(x, y, j);
    SliceOfSlice(s, i, i + |x|, j, j + |y|);
    assert Occurs(s, y, i + j);
    ContainsIff(s, y);
  }

  /** A text containing a + b contains a. */
  lemma ContainsLeft(s: string, a: string, b: string)
    requires Contains(s, a + b)
    ensures Contains(s, a)
  {
    ContainsConcat([], a, b);
    assert [] + a + b == a + b;
    ContainsTrans(s, a + b, a);
  }

  /** A text containing a + b contains b. */
  lemma ContainsRight(s: string, a: string, b: string)
    requires Contains(s, a + b)
    ensures Contains(s, b)
  {
    ContainsConcat(a, b, []);
    assert a + b + [] == a + b;
    ContainsTrans(s, a + b, b);
  }

  /** No character of s is in the class. */
  predicate NoCharIn(s: string, c: char) {
    forall i :: 0 <= i < |s| ==> s[i] != c
  }

  function TrimStartFrom(s: string, i: nat): string
    requires i <= |s|
    decreases |s| - i
  {
    if i < |s| && IsSpace(s[i]) then TrimStartFrom(s, i + 1) else s[i..]
  }

  function TrimEndTo(s: string, j: nat): string
    requires j <= |s|
    decreases j
  {
    if 0 < j && IsSpace(s[j - 1]) then TrimEndTo(s, j - 1) else s[..j]
  }

  function TrimStart(s: string): string { TrimStartFrom(s, 0) }
  function TrimEnd(s: string): string { TrimEndTo(s, |s|) }

  /** `s.trim()` over the ASCII whitespace set. */
  function Trim(s: string): string { TrimEnd(TrimStart(s)) }

  /** TrimStartFrom drops the whitespace run at i and keeps the rest. */
  lemma {:induction false} TrimStartFromSlice(s: string, i: nat)
    requires i <= |s|
    ensures |TrimStartFrom(s, i)| <= |s| - i
    ensures TrimStartFrom(s, i) == s[|s| - |TrimStartFrom(s, i)|..]
    ensures TrimStartFrom(s, i) == [] || !IsSpace(TrimStartFrom(s, i)[0])
    ensures forall k :: i <= k < |s| - |TrimStartFrom(s, i)| ==> IsSpace(s[k])
    decreases |s| - i
  {
    if i < |s| && IsSpace(s[i]) { TrimStartFromSlice(s, i + 1); }
  }

  /** TrimEndTo drops the whitespace run that ends at j and keeps the front. */
  lemma {:induction false} TrimEndToSlice(s: string, j: nat)
    requires j <= |s|
    ensures |TrimEndTo(s, j)| <= j
    ensures TrimEndTo(s, j) == s[..|TrimEndTo(s, j)|]
    ensures TrimEndTo(s, j) == [] || !IsSpace(TrimEndTo(s, j)[|TrimEndTo(s, j)| - 1])
    ensures forall k :: |TrimEndTo(s, j)| <= k < j ==> IsSpace(s[k])
    decreases j
  {
    if 0 < j && IsSpace(s[j - 1]) { TrimEndToSlice(s, j - 1); }
  }

  /** Number of whitespace characters Trim removes at the front. */
  function TrimOffset(s: string): (a: nat)
    ensures a <= |s|
  {
    TrimStartFromSlice(s, 0);
    |s| - |TrimStart(s)|
  }

  /** Trim yields the longest infix that neither starts nor ends with
      whitespace, obtained by deleting whitespace only. */
  lemma TrimSlice(s: string)
    ensures Trim(s) == [] || (!IsSpace(Trim(s)[0]) && !IsSpace(Trim(s)[|Trim(s)| - 1]))
    ensures TrimOffset(s) + |Trim(s)| <= |s| && Trim(s) == s[TrimOffset(s)..TrimOffset(s) + |Trim(s)|]
    ensures forall k :: 0 <= k < TrimOffset(s) ==> IsSpace(s[k])
    ensures forall k :: TrimOffset(s) + |Trim(s)| <= k < |s| ==> IsSpace(s[k])
  {
    var t := TrimStart(s);
    TrimStartFromSlice(s, 0);
    TrimEndToSlice(t, |t|);
    var r := Trim(s);
    var a := |s| - |t|;
    assert r == s[a..a + |r|];
  }

  /** Trimming a string that neither starts nor ends with whitespace changes nothing. */
  lemma TrimNoEdges(s: string)
    requires s == [] || (!IsSpace(s[0]) && !IsSpace(s[|s| - 1]))
    ensures Trim(s) == s
  {
    TrimSlice(s);
  }

  predicate AllSpace(s: string) {
    forall k :: 0 <= k < |s| ==> IsSpace(s[k])
  }

  /** Trim yields the empty string exactly for all-whitespace input. */
  lemma TrimEmptyIff(s: string)
    ensures Trim(s) == [] <==> AllSpace(s)
  {
    TrimSlice(s);
    var r := Trim(s);
    if r != [] {
      assert r[0] == s[TrimOffset(s)];
    }
  }

  /** Decimal digits of a natural number, no leading zeros (`${n}` in JavaScript). */
  function NatToString(n: nat): (r: string)
    ensures |r| > 0
    ensures forall k :: 0 <= k < |r| ==> IsDigit(r[k])
    ensures r[0] == '0' ==> n == 0
  {
    if n < 10 then [DigitChar(n)] else NatToString(n / 10) + [DigitChar(n % 10)]
  }

  function DigitChar(d: nat): (c: char)
    requires d < 10
    ensures IsDigit(c)
  {
    ('0' as int + d) as char
  }

  function DigitValue(c: char): (d: nat)
    requires IsDigit(c)
    ensures d < 10
  {
    c as int - '0' as int
  }

  predicate AllDigits(s: string) {
    forall k :: 0 <= k < |s| ==> IsDigit(s[k])
  }

  /** Value of a string of decimal digits (`parseInt`). */
  function DigitsValue(s: string): (v: nat)
    requires AllDigits(s)
  {
    if s == [] then 0 else DigitsValue(s[..|s| - 1]) * 10 + DigitValue(s[|s| - 1])
  }

  lemma {:induction false} DigitsValueRoundTrip(n: nat)
    ensures DigitsValue(NatToString(n)) == n
  {
    var r := NatToString(n);
    if n >= 10 {
      DigitsValueRoundTrip(n / 10);
      assert r[..|r| - 1] == NatToString(n / 10);
    }
  }

  function Pow10(k: nat): (p: nat)
    ensures p >= 1
  {
    if k == 0 then 1 else 10 * Pow10(k - 1)
  }

  /** The character classes the scanned patterns use. */
  datatype CharClass =
    | Space        // `\s`
    | Digit        // `\d`
    | Letter       // `[A-Za-z]`
    | Word         // `\w`
    | LetterSpace  // `[A-Za-z\s]`
    | NameBody     // `[a-zA-Z\s\.]`
    | ColonSpace   // `[:\s]`
    | IdChar       // `[A-Z0-9\-\/]` under the case-insensitive flag
    | Newline      // `\n`
    | Blank        // `[ \t]`
    | Punct        // `[:\-.,]`

  predicate InClass(c: char, k: CharClass) {
    match k
    case Space => IsSpace(c)
    case Digit => IsDigit(c)
    case Letter => IsLetter(c)
    case Word => IsWordChar(c)
    case LetterSpace => IsLetter(c) || IsSpace(c)
    case NameBody => IsLetter(c) || IsSpace(c) || c == '.'
    case ColonSpace => c == ':' || IsSpace(c)
    case IdChar => IsLetter(c) || IsDigit(c) || c == '-' || c == '/'
    case Newline => c == '\n'
    case Blank => c == ' ' || c == '\t'
    case Punct => c == ':' || c == '-' || c == '.' || c == ','
  }

  /** Index of the end of the run of characters of the class, from i (a greedy `*`). */
  function RunEnd(s: string, i: nat, k: CharClass): (j: nat)
    requires i <= |s|
    ensures i <= j <= |s|
    decreases |s| - i
  {
    if i < |s| && InClass(s[i], k) then RunEnd(s, i + 1, k) else i
  }

  /** A slice of a slice is a slice of the whole. */
  lemma SliceOfSlice(s: string, a: nat, b: nat, i: nat, j: nat)
    requires a <= b <= |s| && i <= j <= b - a
    ensures s[a..b][i..j] == s[a + i..a + j]
  {
    assert forall m :: 0 <= m < j - i ==> s[a..b][i..j][m] == s[a + i + m];
  }

  /** RunEnd stops at the first character outside the class: everything it
      passes over is in the class, and the character it stops at is not. */
  lemma {:induction false} RunEndProps(s: string, i: nat, k: CharClass)
    requires i <= |s|
    ensures forall t :: i <= t < RunEnd(s, i, k) ==> InClass(s[t], k)
    ensures RunEnd(s, i, k) == |s| || !InClass(s[RunEnd(s, i, k)], k)
    decreases |s| - i
  {
    if i < |s| && InClass(s[i], k) { RunEndProps(s, i + 1, k); }
  }

  /** Like RunEnd, but consumes at most max characters (a greedy `{0,max}`). */
  function RunEndMax(s: string, i: nat, k: CharClass, max: nat): (j: nat)
    requires i <= |s|
    ensures i <= j <= |s| && j - i <= max
    decreases max
  {
    if max > 0 && i < |s| && InClass(s[i], k) then RunEndMax(s, i + 1, k, max - 1) else i
  }

  /** RunEndMax stops at the first character outside the class, or after max. */
  lemma {:induction false} RunEndMaxProps(s: string, i: nat, k: CharClass, max: nat)
    requires i <= |s|
    ensures forall t :: i <= t < RunEndMax(s, i, k, max) ==> InClass(s[t], k)
    ensures var j := RunEndMax(s, i, k, max); j - i == max || j == |s| || !InClass(s[j], k)
    decreases max
  {
    if max > 0 && i < |s| && InClass(s[i], k) { RunEndMaxProps(s, i + 1, k, max - 1); }
  }

  /** The string without its longest suffix of characters of the class
      (`s.replace(/[class]+$/g, '')`). */
  function TrimEndClass(s: string, k: CharClass): (r: string)
    ensures |r| <= |s| && r == s[..|r|]
    ensures r == [] || !InClass(r[|r| - 1], k)
    decreases |s|
  {
    if s != [] && InClass(s[|s| - 1], k) then TrimEndClass(s[..|s| - 1], k) else s
  }

  /** Concatenation regroups; the verifier does not apply this unprompted. */
  lemma StringAssoc(a: string, b: string, c: string)
    ensures (a + b) + c == a + (b + c)
  {
  }

  /** `strs.join(sep)`. */
  function Join(strs: seq<string>, sep: string): string {
    if |strs| == 0 then []
    else if |strs| == 1 then strs[0]
    else Join(strs[..|strs| - 1], sep) + sep + strs[|strs| - 1]
  }

  /** The strings one after another (`strs.join('')`). */
  function Concat(strs: seq<string>): string {
    if strs == [] then [] else Concat(strs[..|strs| - 1]) + strs[|strs| - 1]
  }

  lemma {:induction false} ConcatAppend(a: seq<string>, b: seq<string>)
    ensures Concat(a + b) == Concat(a) + Concat(b)
    decreases |b|
  {
    if b != [] {
      var b' := b[..|b| - 1];
      assert (a + b)[..|a + b| - 1] == a + b';
      assert (a + b)[|a + b| - 1] == b[|b| - 1];
      ConcatAppend(a, b');
      assert Concat(a + b) == (Concat(a) + Concat(b')) + b[|b| - 1];
    } else {
      assert a + b == a;
    }
  }

  /** Each of the strings occurs in their concatenation. */
  lemma ConcatContains(strs: seq<string>, k: nat)
    requires k < |strs|
    ensures Contains(Concat(strs), strs[k])
  {
    assert strs == strs[..k] + [strs[k]] + strs[k + 1..];
    ConcatAppend(strs[..k] + [strs[k]], strs[k + 1..]);
    ConcatAppend(strs[..k], [strs[k]]);
    assert Concat([strs[k]]) == strs[k] by {
      assert [strs[k]][..0] == [];
    }
    ContainsConcat(Concat(strs[..k]), strs[k], Concat(strs[k + 1..]));
  }
}
