/** ASCII text helpers: case mapping, substring search and decimal digits. */
module Text {
  import opened Wrappers

  predicate IsDigit(c: char) {
    '0' <= c <= '9'
  }

  predicate IsUpperAscii(c: char) {
    'A' <= c <= 'Z'
  }

  function LowerChar(c: char): (r: char)
    ensures !IsUpperAscii(r)
  {
    if IsUpperAscii(c) then (c as int + 32) as char else c
  }

  function UpperChar(c: char): char {
    if 'a' <= c <= 'z' then (c as int - 32) as char else c
  }

  /** str.lower() restricted to ASCII letters. */
  function Lower(s: string): (r: string)
    ensures |r| == |s|
    ensures forall i :: 0 <= i < |s| ==> r[i] == LowerChar(s[i])
  {
    seq(|s|, i requires 0 <= i < |s| => LowerChar(s[i]))
  }

  /** str.upper() restricted to ASCII letters. */
  function Upper(s: string): (r: string)
    ensures |r| == |s|
    ensures forall i :: 0 <= i < |s| ==> r[i] == UpperChar(s[i])
  {
    seq(|s|, i requires 0 <= i < |s| => UpperChar(s[i]))
  }

  /** str.replace(a, b) for single characters. */
  function ReplaceChar(s: string, a: char, b: char): (r: string)
    ensures |r| == |s|
    ensures forall i :: 0 <= i < |s| ==> r[i] == if s[i] == a then b else s[i]
  {
    seq(|s|, i requires 0 <= i < |s| => if s[i] == a then b else s[i])
  }

  predicate OccursAt(s: string, pat: string, i: nat) {
    i + |pat| <= |s| && s[i..i + |pat|] == pat
  }

  /** Python's `pat in s` for strings. */
  predicate Contains(s: string, pat: string) {
    exists i: nat :: i <= |s| && OccursAt(s, pat, i)
  }

  datatype CharClass = Digits | DigitsAndDots

  predicate InClass(c: char, cls: CharClass) {
    match cls
    case Digits => IsDigit(c)
    case DigitsAndDots => IsDigit(c) || c == '.'
  }

  predicate AllInClass(s: string, cls: CharClass) {
    forall i :: 0 <= i < |s| ==> InClass(s[i], cls)
  }

  /** Length of the longest run of `cls` characters starting at `from` (what a greedy `[...]+` consumes). */
  function RunLength(s: string, from: nat, cls: CharClass): (r: nat)
    requires from <= |s|
    ensures from + r <= |s|
    ensures AllInClass(s[from..from + r], cls)
    ensures from + r == |s| || !InClass(s[from + r], cls)
    decreases |s| - from
  {
    if from == |s| || !InClass(s[from], cls) then 0
    else
      var rest := RunLength(s, from + 1, cls);
      assert s[from..from + 1 + rest] == [s[from]] + s[from + 1..from + 1 + rest];
      1 + rest
  }

  function DigitValue(c: char): nat
    requires IsDigit(c)
  {
    c as int - '0' as int
  }

  function DigitChar(d: nat): (c: char)
    requires d < 10
    ensures IsDigit(c) && DigitValue(c) == d
  {
    ('0' as int + d) as char
  }

  /** int() of a string of decimal digits. */
  function ParseNat(s: string): nat
    requires AllInClass(s, Digits)
  {
    if |s| == 0 then 0 else 10 * ParseNat(s[..|s| - 1]) + DigitValue(s[|s| - 1])
  }

  /** The decimal representation of n, as str() writes it. */
  function NatDigits(n: nat): (r: string)
    ensures |r| >= 1 && AllInClass(r, Digits)
  {
    if n < 10 then [DigitChar(n)] else NatDigits(n / 10) + [DigitChar(n % 10)]
  }

  lemma {:induction false} ParseNatDigits(n: nat)
    ensures ParseNat(NatDigits(n)) == n
  {
    if n >= 10 {
      var r := NatDigits(n);
      assert r[..|r| - 1] == NatDigits(n / 10);
      ParseNatDigits(n / 10);
    }
  }

  function IndexOf(s: string, c: char): (r: nat)
    ensures r <= |s|
    ensures forall i :: 0 <= i < r ==> s[i] != c
    ensures r < |s| ==> s[r] == c
  {
    if |s| == 0 then 0 else if s[0] == c then 0 else 1 + IndexOf(s[1..], c)
  }

  function Pow10(k: nat): (r: real)
    ensures r >= 1.0
  {
    if k == 0 then 1.0 else 10.0 * Pow10(k - 1)
  }

  /** The value of the digits after a decimal point: d1/10 + d2/100 + ... */
  function FractionValue(digits: string): (r: real)
    requires AllInClass(digits, Digits)
    ensures 0.0 <= r
  {
    ParseNat(digits) as real / Pow10(|digits|)
  }

  predicate HasDigit(s: string) {
    exists i :: 0 <= i < |s| && IsDigit(s[i])
  }

  predicate TwoDots(s: string) {
    exists i, j :: 0 <= i < j < |s| && s[i] == '.' && s[j] == '.'
  }

  /**
   * Splitting a digit-and-dot string at its first dot: a second dot lies in the part after it,
   * and a digit lies on one side or the other.
   */
  lemma FirstDotSplit(s: string, d: nat)
    requires AllInClass(s, DigitsAndDots) && d < |s| && s[d] == '.'
    requires forall i :: 0 <= i < d ==> s[i] != '.'
    ensures AllInClass(s[..d], Digits)
    ensures TwoDots(s) <==> !AllInClass(s[d + 1..], Digits)
    ensures AllInClass(s[d + 1..], Digits) ==> (HasDigit(s) <==> d > 0 || d + 1 < |s|)
  {
    var ip, fp := s[..d], s[d + 1..];
    forall i | 0 <= i < |ip| ensures InClass(ip[i], Digits) {
      assert s[i] != '.' && InClass(s[i], DigitsAndDots);
    }
    if TwoDots(s) {
      var i, j :| 0 <= i < j < |s| && s[i] == '.' && s[j] == '.';
      assert !InClass(fp[j - d - 1], Digits);
    }
    if !AllInClass(fp, Digits) {
      var k :| 0 <= k < |fp| && !InClass(fp[k], Digits);
      assert s[d] == '.' && s[d + 1 + k] == '.';
    }
    if AllInClass(fp, Digits) {
      if d > 0 {
        assert IsDigit(s[0]);
      } else if d + 1 < |s| {
        assert IsDigit(s[d + 1]) by { assert s[d + 1] == fp[0]; }
      } else {
        assert |s| == 1 && s[0] == '.';
      }
    }
  }

  /**
   * float() of a string made of digits and dots: at most one dot and at least one digit,
   * otherwise ValueError. The value is the exact decimal (binary rounding is not modelled).
   */
  function ParseDecimal(s: string): (r: Result<real>)
    requires AllInClass(s, DigitsAndDots)
    ensures r.Err? <==> !HasDigit(s) || TwoDots(s)
    ensures AllInClass(s, Digits) && |s| > 0 ==> r == Ok(ParseNat(s) as real)
    ensures r.Ok? ==> r.value >= 0.0
  {
    var d := IndexOf(s, '.');
    if d == |s| then
      assert AllInClass(s, Digits);
      assert !TwoDots(s);
      assert |s| > 0 ==> IsDigit(s[0]);
      if |s| == 0 then Err(BadNumber) else Ok(ParseNat(s) as real)
    else
      assert !AllInClass(s, Digits) by { assert !InClass(s[d], Digits); }
      FirstDotSplit(s, d);
      var ip, fp := s[..d], s[d + 1..];
      if !AllInClass(fp, Digits) || (|ip| == 0 && |fp| == 0) then Err(BadNumber)
      else
        Ok(ParseNat(ip) as real + FractionValue(fp))
  }

  /** A digit string, a dot and a digit string: the first dot sits right after the whole part. */
  lemma DotAfterDigits(w: string, f: string)
    requires AllInClass(w, Digits) && AllInClass(f, Digits)
    ensures var s := w + "." + f;
      AllInClass(s, DigitsAndDots) && IndexOf(s, '.') == |w| && s[..|w|] == w && s[|w| + 1..] == f
  {
    var s := w + "." + f;
    forall i | 0 <= i < |s| ensures InClass(s[i], DigitsAndDots) {
      if i < |w| { assert s[i] == w[i]; }
      else if i > |w| { assert s[i] == f[i - |w| - 1]; }
    }
    var d := IndexOf(s, '.');
    assert s[|w|] == '.';
    assert s[..|w|] == w;
    assert s[|w| + 1..] == f;
  }

  /** A decimal with whole-part digits w and fraction digits f, not both empty, reads back as w + f / 10^|f|. */
  lemma ParseDecimalFraction(w: string, f: string)
    requires AllInClass(w, Digits) && AllInClass(f, Digits) && |w| + |f| > 0
    ensures AllInClass(w + "." + f, DigitsAndDots)
    ensures var r := ParseDecimal(w + "." + f); r.Ok? && r.value == ParseNat(w) as real + FractionValue(f)
  {
    DotAfterDigits(w, f);
    var s := w + "." + f;
    var d := IndexOf(s, '.');
    assert s[..d] == w && s[d + 1..] == f;
    assert d < |s| && |s[..d]| + |s[d + 1..]| > 0;
  }
}
