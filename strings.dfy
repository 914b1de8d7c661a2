// String primitives of Python that the pipeline relies on, restricted to ASCII:
// case mapping, character replacement, splitting, stripping, int() and str() of integers,
// and the code-point order that sorted() uses on strings.

module Strings {
  import opened Wrappers

  predicate IsDigit(c: char) { '0' <= c <= '9' }

  predicate IsAsciiUpper(c: char) { 'A' <= c <= 'Z' }

  predicate IsAsciiLower(c: char) { 'a' <= c <= 'z' }

  /** The characters Python's str.isspace() accepts below code point 128. */
  predicate IsSpace(c: char) {
    c == ' ' || (9 <= c as int <= 13) || (28 <= c as int <= 31)
  }

  function LowerChar(c: char): (r: char)
    ensures !IsAsciiUpper(r)
    ensures !IsAsciiUpper(c) ==> r == c
  {
    if IsAsciiUpper(c) then (c as int + 32) as char else c
  }

  function UpperChar(c: char): (r: char)
    ensures !IsAsciiLower(r)
    ensures !IsAsciiLower(c) ==> r == c
  {
    if IsAsciiLower(c) then (c as int - 32) as char else c
  }

  /** str.lower() on the ASCII range. */
  function Lower(s: string): (r: string)
    ensures |r| == |s|
    ensures forall i :: 0 <= i < |s| ==> r[i] == LowerChar(s[i])
  {
    seq(|s|, i requires 0 <= i < |s| => LowerChar(s[i]))
  }

  /** str.upper() on the ASCII range. */
  function Upper(s: string): (r: string)
    ensures |r| == |s|
    ensures forall i :: 0 <= i < |s| ==> r[i] == UpperChar(s[i])
  {
    seq(|s|, i requires 0 <= i < |s| => UpperChar(s[i]))
  }

  /** str.replace(a, b) for one-character a and b. */
  function ReplaceChar(s: string, a: char, b: char): (r: string)
    ensures |r| == |s|
    ensures forall i :: 0 <= i < |s| ==> r[i] == (if s[i] == a then b else s[i])
  {
    seq(|s|, i requires 0 <= i < |s| => if s[i] == a then b else s[i])
  }

  predicate StartsWith(s: string, p: string) {
    |p| <= |s| && s[..|p|] == p
  }

  predicate EndsWith(s: string, p: string) {
    |p| <= |s| && s[|s| - |p|..] == p
  }

  /** Python's `sub in s`. */
  predicate Contains(s: string, sub: string)
    decreases |s|
  {
    StartsWith(s, sub) || (|s| > 0 && Contains(s[1..], sub))
  }

  /** str.replace(pat, rep) for a non-empty pattern: non-overlapping, left to right. */
  function ReplaceAll(s: string, pat: string, rep: string): string
    requires |pat| > 0
    decreases |s|
  {
    if |s| < |pat| then s
    else if s[..|pat|] == pat then rep + ReplaceAll(s[|pat|..], pat, rep)
    else [s[0]] + ReplaceAll(s[1..], pat, rep)
  }

  /** A string without the first character of the pattern has nothing to replace. */
  lemma {:induction false} ReplaceAllAbsent(s: string, pat: string, rep: string)
    requires |pat| > 0 && pat[0] !in s
    ensures ReplaceAll(s, pat, rep) == s
    decreases |s|
  {
    if |s| >= |pat| {
      assert s[0] != pat[0];
      assert s[..|pat|] != pat;
      ReplaceAllAbsent(s[1..], pat, rep);
      assert s == [s[0]] + s[1..];
    }
  }

  /** Replacing pat by "" in s + pat removes exactly the trailing pat when s cannot start one. */
  lemma {:induction false} ReplaceAllDropsSuffix(s: string, pat: string)
    requires |pat| > 0 && pat[0] !in s
    ensures ReplaceAll(s + pat, pat, "") == s
    decreases |s|
  {
    var t := s + pat;
    if |s| == 0 {
      assert t == pat;
      assert t[..|pat|] == pat;
      assert t[|pat|..] == "";
    } else {
      assert t[0] == s[0] && s[0] != pat[0];
      assert t[..|pat|] != pat;
      assert t[1..] == s[1..] + pat;
      ReplaceAllDropsSuffix(s[1..], pat);
      assert s == [s[0]] + s[1..];
    }
  }

  /** s.split(c)[-1]: the text after the last c (all of s when c does not occur). */
  function AfterLast(s: string, c: char): (r: string)
    ensures c !in r
    ensures |r| <= |s| && r == s[|s| - |r|..]
    ensures c !in s ==> r == s
  {
    if |s| == 0 then s
    else if s[|s| - 1] == c then ""
    else
      var rest := AfterLast(s[..|s| - 1], c);
      assert s[..|s| - 1][|s| - 1 - |rest|..] == s[|s| - 1 - |rest|..|s| - 1];
      rest + [s[|s| - 1]]
  }

  /** s.split(c)[0]: the text before the first c. */
  function BeforeFirst(s: string, c: char): (r: string)
    ensures c !in r
    ensures |r| <= |s| && r == s[..|r|]
    ensures c !in s ==> r == s
  {
    if |s| == 0 || s[0] == c then ""
    else [s[0]] + BeforeFirst(s[1..], c)
  }

  /** The text after the first c (empty when c does not occur). */
  function AfterFirst(s: string, c: char): string
  {
    if |s| == 0 then ""
    else if s[0] == c then s[1..]
    else AfterFirst(s[1..], c)
  }

  /** s.split(c)[1], for an s that contains c: the second segment. */
  function SecondSegment(s: string, c: char): string
  {
    BeforeFirst(AfterFirst(s, c), c)
  }

  function StripLeft(s: string): (r: string)
    ensures |r| <= |s| && r == s[|s| - |r|..]
    ensures |r| > 0 ==> !IsSpace(r[0])
  {
    if |s| > 0 && IsSpace(s[0]) then StripLeft(s[1..]) else s
  }

  function StripRight(s: string): (r: string)
    ensures |r| <= |s| && r == s[..|r|]
    ensures |r| > 0 ==> !IsSpace(r[|r| - 1])
  {
    if |s| > 0 && IsSpace(s[|s| - 1]) then StripRight(s[..|s| - 1]) else s
  }

  /** str.strip() with no argument. */
  function Strip(s: string): string {
    StripRight(StripLeft(s))
  }

  /** ", ".join(parts) and friends. */
  function Join(sep: string, parts: seq<string>): string
  {
    if |parts| == 0 then ""
    else if |parts| == 1 then parts[0]
    else parts[0] + sep + Join(sep, parts[1..])
  }

  // ---------------------------------------------------------------------------
  // Decimal integers: str(int) and int(str)

  function DigitChar(d: int): (c: char)
    requires 0 <= d < 10
    ensures IsDigit(c)
  {
    ('0' as int + d) as char
  }

  function DigitValue(c: char): (d: int)
    requires IsDigit(c)
    ensures 0 <= d < 10
  {
    c as int - '0' as int
  }

  predicate AllDigits(s: string) {
    forall i :: 0 <= i < |s| ==> IsDigit(s[i])
  }

  /** The value of a string of decimal digits. */
  function DigitsValue(s: string): (n: nat)
    requires AllDigits(s)
  {
    if |s| == 0 then 0 else DigitsValue(s[..|s| - 1]) * 10 + DigitValue(s[|s| - 1])
  }

  /** str(n) for a non-negative integer. */
  function NatToString(n: nat): (r: string)
    ensures |r| > 0 && AllDigits(r)
  {
    if n < 10 then [DigitChar(n)] else NatToString(n / 10) + [DigitChar(n % 10)]
  }

  /** str(i) for a Python int. */
  function IntToString(i: int): (r: string)
    ensures |r| > 0
  {
    if i < 0 then "-" + NatToString(-i) else NatToString(i)
  }

  /** The body of a Python integer literal: digits, single underscores only between digits. */
  predicate IsDigitBody(s: string) {
    && |s| > 0
    && IsDigit(s[0])
    && IsDigit(s[|s| - 1])
    && (forall i :: 0 <= i < |s| ==> IsDigit(s[i]) || s[i] == '_')
    && (forall i :: 0 <= i < |s| - 1 ==> NotDoubleUnderscoreAt(s, i))
  }

  /** No underscore at position i is followed by another. */
  predicate NotDoubleUnderscoreAt(s: string, i: int)
    requires 0 <= i < |s| - 1
  {
    !(s[i] == '_' && s[i + 1] == '_')
  }

  function RemoveUnderscores(s: string): (r: string)
    ensures (forall i :: 0 <= i < |s| ==> IsDigit(s[i]) || s[i] == '_') ==> AllDigits(r)
    ensures AllDigits(s) ==> r == s
  {
    if |s| == 0 then ""
    else if s[0] == '_' then RemoveUnderscores(s[1..])
    else [s[0]] + RemoveUnderscores(s[1..])
  }

  /** int(s) in base 10: None where Python raises ValueError. */
  function ParsePyInt(s: string): Option<int>
  {
    ParseStripped(Strip(s))
  }

  /** int() after surrounding whitespace is removed: an optional sign, then the digit body. */
  function ParseStripped(t: string): Option<int>
  {
    if |t| == 0 then None
    else
      var body := if t[0] == '-' || t[0] == '+' then t[1..] else t;
      if !IsDigitBody(body) then None
      else
        var n: int := DigitsValue(RemoveUnderscores(body));
        Some(if t[0] == '-' then -n else n)
  }

  lemma {:induction false} DigitsValueOfNatToString(n: nat)
    ensures DigitsValue(NatToString(n)) == n
  {
    if n >= 10 {
      DigitsValueOfNatToString(n / 10);
      var s := NatToString(n / 10) + [DigitChar(n % 10)];
      assert s[..|s| - 1] == NatToString(n / 10);
    }
  }

  lemma NatToStringIsBody(n: nat)
    ensures IsDigitBody(NatToString(n))
    ensures NatToString(n)[0] != '-' && NatToString(n)[0] != '+'
  {
    var s := NatToString(n);
    assert IsDigit(s[0]);
  }

  lemma DigitStringIsStripped(s: string)
    requires |s| > 0 && AllDigits(s)
    ensures Strip(s) == s
  {
    assert !IsSpace(s[0]);
    assert StripLeft(s) == s;
    assert !IsSpace(s[|s| - 1]);
  }

  lemma DashDigitStringIsStripped(s: string)
    requires |s| > 0 && AllDigits(s)
    ensures Strip("-" + s) == "-" + s
  {
    var t := "-" + s;
    assert !IsSpace(t[0]);
    assert StripLeft(t) == t;
    assert t[|t| - 1] == s[|s| - 1];
    assert !IsSpace(t[|t| - 1]);
  }

  lemma ParseUnsignedBody(d: string)
    requires IsDigitBody(d) && AllDigits(d)
    ensures ParseStripped(d) == Some(DigitsValue(d))
  {
    assert d[0] != '-' && d[0] != '+';
  }

  lemma ParseNegatedBody(d: string)
    requires IsDigitBody(d) && AllDigits(d)
    ensures ParseStripped("-" + d) == Some(0 - DigitsValue(d))
  {
    var t := "-" + d;
    assert t[0] == '-';
    assert t[1..] == d;
  }

  lemma ParseNatString(m: nat)
    ensures ParsePyInt(NatToString(m)) == Some(m)
  {
    var digits := NatToString(m);
    NatToStringIsBody(m);
    DigitsValueOfNatToString(m);
    DigitStringIsStripped(digits);
    ParseUnsignedBody(digits);
  }

  lemma ParseNegatedDigits(d: string)
    requires IsDigitBody(d) && AllDigits(d)
    ensures ParsePyInt("-" + d) == Some(0 - DigitsValue(d))
  {
    DashDigitStringIsStripped(d);
    ParseNegatedBody(d);
  }

  /** The rendering of a natural number, behind a minus sign, parses as its negated digits. */
  lemma ParseNegatedRendering(m: nat, d: string)
    requires d == NatToString(m)
    ensures ParsePyInt("-" + d) == Some(0 - DigitsValue(d))
  {
    NatToStringIsBody(m);
    ParseNegatedDigits(d);
  }

  lemma ParseNegatedNatString(m: nat, d: string)
    requires d == NatToString(m)
    ensures ParsePyInt("-" + d) == Some(0 - m)
  {
    ParseNegatedRendering(m, d);
    DigitsValueOfNatToString(m);
  }

  /** int(str(i)) == i: the decimal rendering parses back to the same number. */
  lemma IntToStringRoundTrip(i: int)
    ensures ParsePyInt(IntToString(i)) == Some(i)
  {
    if i < 0 {
      var d := NatToString(-i);
      ParseNegatedNatString(-i, d);
      assert IntToString(i) == "-" + d;
    } else {
      ParseNatString(i);
    }
  }

  // ---------------------------------------------------------------------------
  // Code-point order on strings (Python's < on str)

  predicate LexLe(a: string, b: string)
    decreases |a|
  {
    if |a| == 0 then true
    else if |b| == 0 then false
    else if a[0] != b[0] then a[0] < b[0]
    else LexLe(a[1..], b[1..])
  }

  lemma {:induction false} LexLeReflexive(a: string)
    ensures LexLe(a, a)
    decreases |a|
  {
    if |a| > 0 { LexLeReflexive(a[1..]); }
  }

  lemma {:induction false} LexLeTotal(a: string, b: string)
    ensures LexLe(a, b) || LexLe(b, a)
    decreases |a|
  {
    if |a| > 0 && |b| > 0 && a[0] == b[0] { LexLeTotal(a[1..], b[1..]); }
  }

  lemma {:induction false} LexLeTransitive(a: string, b: string, c: string)
    requires LexLe(a, b) && LexLe(b, c)
    ensures LexLe(a, c)
    decreases |a|
  {
    if |a| > 0 && |b| > 0 && |c| > 0 && a[0] == b[0] && b[0] == c[0] {
      LexLeTransitive(a[1..], b[1..], c[1..]);
    }
  }

  lemma {:induction false} LexLeAntisymmetric(a: string, b: string)
    requires LexLe(a, b) && LexLe(b, a)
    ensures a == b
    decreases |a|
  {
    if |a| > 0 && |b| > 0 {
      LexLeAntisymmetric(a[1..], b[1..]);
      assert a == [a[0]] + a[1..];
      assert b == [b[0]] + b[1..];
    }
  }
}
