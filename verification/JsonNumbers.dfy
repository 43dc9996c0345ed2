/** Decimal canonicalisation of JSON numbers (jobs.rs, normalized_json_number).

    A number is read as the grammar of section 6 of RFC 8259 reads it; its value is an
    exact real.  The canonical triple (sign, digits, exponent) is unique for each value,
    so comparing triples compares values. */
module JsonNumbers {
  import opened Wrappers

  const I64_MIN: int := -0x8000_0000_0000_0000
  const I64_MAX: int := 0x7fff_ffff_ffff_ffff

  predicate InI64(n: int) {
    I64_MIN <= n <= I64_MAX
  }

  // ---------------------------------------------------------------- digits

  predicate IsDigit(c: char) {
    '0' <= c <= '9'
  }

  predicate AllDigits(s: string) {
    forall i | 0 <= i < |s| :: IsDigit(s[i])
  }

  function DigitValue(c: char): (d: nat)
    requires IsDigit(c)
    ensures d <= 9
  {
    c as int - '0' as int
  }

  /** The natural number a string of decimal digits denotes. */
  function Decimal(s: string): nat
    requires AllDigits(s)
  {
    if s == "" then 0 else 10 * Decimal(s[..|s| - 1]) + DigitValue(s[|s| - 1])
  }

  function StripLeadingZeros(s: string): (r: string)
    requires AllDigits(s)
    ensures AllDigits(r)
    ensures r != "" ==> r[0] != '0'
  {
    if s != "" && s[0] == '0' then StripLeadingZeros(s[1..]) else s
  }

  function TrailingZeros(s: string): (n: nat)
    ensures n <= |s|
  {
    if s != "" && s[|s| - 1] == '0' then 1 + TrailingZeros(s[..|s| - 1]) else 0
  }

  // ---------------------------------------------------------------- grammar

  datatype Exponent = Exponent(upper: bool, sign: Option<char>, digits: string)

  datatype Number = Number(negative: bool, whole: string, fraction: Option<string>, exponent: Option<Exponent>)

  /** Section 6 of RFC 8259: int, optional frac, optional exp. */
  predicate WellFormed(n: Number) {
    && AllDigits(n.whole) && n.whole != ""
    && (n.whole[0] == '0' ==> n.whole == "0")
    && (n.fraction.Some? ==> AllDigits(n.fraction.value) && n.fraction.value != "")
    && (n.exponent.Some? ==>
          && AllDigits(n.exponent.value.digits) && n.exponent.value.digits != ""
          && (n.exponent.value.sign.Some? ==> n.exponent.value.sign.value in {'+', '-'}))
  }

  function RenderExponent(e: Exponent): string {
    (if e.sign.Some? then [e.sign.value] else "") + e.digits
  }

  function UnsignedText(n: Number): string {
    n.whole + (if n.fraction.Some? then "." + n.fraction.value else "")
  }

  function RenderMantissa(n: Number): string {
    (if n.negative then "-" else "") + UnsignedText(n)
  }

  function Render(n: Number): string {
    RenderMantissa(n) +
    if n.exponent.Some? then [if n.exponent.value.upper then 'E' else 'e'] + RenderExponent(n.exponent.value) else ""
  }

  function FractionDigits(n: Number): string {
    if n.fraction.Some? then n.fraction.value else ""
  }

  function Significand(n: Number): (s: string)
    requires WellFormed(n)
    ensures AllDigits(s) && s != ""
  {
    n.whole + FractionDigits(n)
  }

  function ExponentValue(n: Number): int
    requires WellFormed(n)
  {
    if n.exponent.None? then 0
    else if n.exponent.value.sign == Some('-') then 0 - Decimal(n.exponent.value.digits)
    else Decimal(n.exponent.value.digits)
  }

  // ---------------------------------------------------------------- values

  /** m scaled by ten to the power e, for any integer e (ScaleMeaning). */
  ghost function Scale(m: nat, e: int): real
    decreases if e >= 0 then e else -e
  {
    if e == 0 then m as real else if e > 0 then Scale(10 * m, e - 1) else Scale(m, e + 1) / 10.0
  }

  ghost function Signed(negative: bool, magnitude: real): real {
    if negative then -magnitude else magnitude
  }

  /** The exact value of a number text. */
  ghost function Value(n: Number): real
    requires WellFormed(n)
  {
    Signed(n.negative, Scale(Decimal(Significand(n)), ExponentValue(n) - |FractionDigits(n)|))
  }

  // ---------------------------------------------------------------- canonical triples

  datatype Triple = Triple(negative: bool, digits: string, exponent: int)

  const ZERO: Triple := Triple(false, "0", 0)

  predicate Canonical(t: Triple) {
    && AllDigits(t.digits)
    && (t == ZERO || (t.digits != "" && t.digits[0] != '0' && t.digits[|t.digits| - 1] != '0'))
  }

  ghost function TripleValue(t: Triple): real
    requires AllDigits(t.digits)
  {
    Signed(t.negative, Scale(Decimal(t.digits), t.exponent))
  }

  /** The canonical triple of a digit string scaled by ten to the power e. */
  function Canonicalise(negative: bool, s: string, e: int): Option<Triple>
    requires AllDigits(s)
  {
    var stripped := StripLeadingZeros(s);
    var zeros := TrailingZeros(stripped);
    if stripped == "" then Some(ZERO)
    else if !InI64(e + zeros) then None
    else Some(Triple(negative, stripped[..|stripped| - zeros], e + zeros))
  }

  /** What the canonicalisation yields; None is an overflow of a 64-bit exponent. */
  function Normalised(n: Number): Option<Triple>
    requires WellFormed(n)
  {
    var e, f := ExponentValue(n), |FractionDigits(n)|;
    if !InI64(e) || !InI64(f) || !InI64(e - f) then None
    else Canonicalise(n.negative, Significand(n), e - f)
  }

  predicate AllZeros(s: string) {
    forall i | 0 <= i < |s| :: s[i] == '0'
  }

  /** Every step of the exponent stays within 64 bits: the one written, the one after the
      fraction, and the one after the trailing zeros, which a zero does not reach. */
  predicate FitsI64(n: Number)
    requires WellFormed(n)
  {
    var e, f := ExponentValue(n), |FractionDigits(n)|;
    && InI64(e) && InI64(f) && InI64(e - f)
    && (AllZeros(Significand(n)) || InI64(e - f + TrailingZeros(Significand(n))))
  }

  lemma {:induction false} StripsAllZeros(s: string)
    requires AllDigits(s)
    ensures StripLeadingZeros(s) == "" <==> AllZeros(s)
  {
    if s != "" && s[0] == '0' {
      StripsAllZeros(s[1..]);
      assert AllZeros(s) <==> AllZeros(s[1..]) by {
        if AllZeros(s[1..]) {
          forall i | 0 <= i < |s| ensures s[i] == '0' { assert i > 0 ==> s[i] == s[1..][i - 1]; }
        }
      }
    }
  }

  /** Leading zeros and trailing zeros are apart when there is another digit. */
  lemma {:induction false} StripKeepsTrailing(s: string)
    requires AllDigits(s) && !AllZeros(s)
    ensures TrailingZeros(StripLeadingZeros(s)) == TrailingZeros(s)
  {
    if s[0] == '0' {
      var t := s[1..];
      assert !AllZeros(t) by {
        var i :| 0 <= i < |s| && s[i] != '0';
        assert t[i - 1] == s[i];
      }
      StripKeepsTrailing(t);
      DropFirstKeepsTrailing(s);
    }
  }

  lemma {:induction false} DropFirstKeepsTrailing(s: string)
    requires s != "" && !AllZeros(s[1..])
    ensures TrailingZeros(s[1..]) == TrailingZeros(s)
  {
    var t := s[1..];
    if s[|s| - 1] == '0' {
      assert t[|t| - 1] == '0';
      assert s[..|s| - 1][1..] == t[..|t| - 1];
      assert !AllZeros(t[..|t| - 1]) by {
        var i :| 0 <= i < |t| && t[i] != '0';
        assert t[..|t| - 1][i] == t[i];
      }
      DropFirstKeepsTrailing(s[..|s| - 1]);
    } else {
      assert t != "" && t[|t| - 1] == s[|s| - 1];
    }
  }

  /** A number text has a triple exactly when its exponent stays within 64 bits. */
  lemma NormalisesExactly(n: Number)
    requires WellFormed(n)
    ensures Normalised(n).Some? <==> FitsI64(n)
  {
    StripsAllZeros(Significand(n));
    if !AllZeros(Significand(n)) { StripKeepsTrailing(Significand(n)); }
  }

  // ---------------------------------------------------------------- the algorithm

  /** split_once(['e', 'E']): the first position of either marker. */
  method FindExponentMarker(s: string) returns (at: nat)
    ensures at <= |s|
    ensures forall i | 0 <= i < at :: s[i] !in {'e', 'E'}
    ensures at < |s| ==> s[at] in {'e', 'E'}
  {
    at := 0;
    while at < |s| && s[at] != 'e' && s[at] != 'E'
      invariant at <= |s|
      invariant forall i | 0 <= i < at :: s[i] !in {'e', 'E'}
    {
      at := at + 1;
    }
  }

  /** str::parse::<i64>: optional sign, then digits; None outside the 64-bit range. */
  method ParseI64(e: Exponent) returns (r: Option<int>)
    requires AllDigits(e.digits)
    ensures var v := if e.sign == Some('-') then 0 - Decimal(e.digits) else Decimal(e.digits);
            r == if InI64(v) then Some(v) else None
  {
    var i, magnitude := 0, 0;
    while i < |e.digits|
      invariant 0 <= i <= |e.digits|
      invariant magnitude == Decimal(e.digits[..i])
    {
      assert e.digits[..i + 1][..i] == e.digits[..i];
      magnitude := 10 * magnitude + DigitValue(e.digits[i]);
      i := i + 1;
    }
    assert e.digits[..i] == e.digits;
    var v := if e.sign == Some('-') then -magnitude else magnitude;
    r := if InI64(v) then Some(v) else None;
  }

  /** The characters of s other than '.', in order. */
  function WithoutDot(s: string): string {
    if s == "" then "" else (if s[0] == '.' then "" else [s[0]]) + WithoutDot(s[1..])
  }

  lemma {:induction false} WithoutDotSplits(a: string, b: string)
    ensures WithoutDot(a + b) == WithoutDot(a) + WithoutDot(b)
  {
    if a == "" {
      assert a + b == b;
    } else {
      var c := if a[0] == '.' then "" else [a[0]];
      assert (a + b)[0] == a[0] && (a + b)[1..] == a[1..] + b;
      WithoutDotSplits(a[1..], b);
      assert WithoutDot(a + b) == c + (WithoutDot(a[1..]) + WithoutDot(b));
      assert WithoutDot(a) == c + WithoutDot(a[1..]);
    }
  }

  lemma {:induction false} WithoutDotKeepsDigits(s: string)
    requires AllDigits(s)
    ensures WithoutDot(s) == s
  {
    if s != "" {
      WithoutDotKeepsDigits(s[1..]);
    }
  }

  lemma SignificandText(n: Number)
    requires WellFormed(n)
    ensures WithoutDot(UnsignedText(n)) == Significand(n)
  {
    WithoutDotKeepsDigits(n.whole);
    if n.fraction.Some? {
      var f := n.fraction.value;
      WithoutDotSplits(n.whole, "." + f);
      WithoutDotSplits(".", f);
      WithoutDotKeepsDigits(f);
      assert WithoutDot(".") == "";
      assert "" + f == f;
    } else {
      assert n.whole + "" == n.whole;
    }
  }

  lemma UnsignedMantissa(n: Number)
    requires WellFormed(n)
    ensures var m := RenderMantissa(n);
            m != "" && (m[0] == '-' <==> n.negative) &&
            UnsignedText(n) == if n.negative then m[1..] else m
  {
    assert UnsignedText(n) != "" && UnsignedText(n)[0] == n.whole[0];
  }

  lemma MantissaHasNoMarker(n: Number)
    requires WellFormed(n)
    ensures forall i | 0 <= i < |RenderMantissa(n)| :: RenderMantissa(n)[i] !in {'e', 'E'}
  {
    forall i | 0 <= i < |RenderMantissa(n)| ensures RenderMantissa(n)[i] !in {'e', 'E'} {
      var c := RenderMantissa(n)[i];
      assert c == '-' || c == '.' || IsDigit(c);
    }
  }

  /** The exponent after the marker at position at, or 0 without one. */
  method ReadExponent(encoded: string, at: nat, ghost n: Number) returns (r: Option<int>)
    requires WellFormed(n) && encoded == Render(n) && at == |RenderMantissa(n)|
    ensures r == if InI64(ExponentValue(n)) then Some(ExponentValue(n)) else None
  {
    if at == |encoded| { return Some(0); }
    var text := encoded[at + 1..];
    assert text == RenderExponent(n.exponent.value);
    assert IsDigit(n.exponent.value.digits[0]);
    var sign := if text[0] == '+' || text[0] == '-' then Some(text[0]) else None;
    var digits := if sign.Some? then text[1..] else text;
    assert sign == n.exponent.value.sign && digits == n.exponent.value.digits;
    r := ParseI64(Exponent(false, sign, digits));
  }

  /** while digits.ends_with('0'): drop it and add one to the exponent, checked. */
  method DropTrailingZeros(stripped: string, start: int) returns (r: Option<(string, int)>)
    requires InI64(start)
    ensures var z := TrailingZeros(stripped);
            r == if InI64(start + z) then Some((stripped[..|stripped| - z], start + z)) else None
  {
    var digits, exponent := stripped, start;
    while |digits| > 0 && digits[|digits| - 1] == '0'
      invariant |digits| <= |stripped| && digits == stripped[..|digits|]
      invariant exponent == start + (|stripped| - |digits|) && InI64(exponent)
      invariant TrailingZeros(stripped) == |stripped| - |digits| + TrailingZeros(digits)
    {
      digits := digits[..|digits| - 1];
      if !InI64(exponent + 1) { return None; }
      exponent := exponent + 1;
    }
    return Some((digits, exponent));
  }

  method NormalizedJsonNumber(encoded: string, ghost n: Number) returns (r: Option<Triple>)
    requires WellFormed(n) && encoded == Render(n)
    ensures r == Normalised(n)
  {
    var at := FindExponentMarker(encoded);
    MarkerEndsMantissa(n, at);
    var explicitExponent := ReadExponent(encoded, at, n);
    if explicitExponent.None? { return None; }
    var negative, significand, fractionDigits := ReadMantissa(encoded[..at], n);
    if !InI64(fractionDigits) || !InI64(explicitExponent.value - fractionDigits) { return None; }
    r := CanonicaliseDigits(negative, significand, explicitExponent.value - fractionDigits);
  }

  method ReadMantissa(mantissa: string, ghost n: Number)
    returns (negative: bool, significand: string, fractionDigits: nat)
    requires WellFormed(n) && mantissa == RenderMantissa(n)
    ensures negative == n.negative && significand == Significand(n)
    ensures fractionDigits == |FractionDigits(n)|
  {
    UnsignedMantissa(n);
    negative := mantissa[0] == '-';
    var unsigned := if negative then mantissa[1..] else mantissa;
    fractionDigits := CountFraction(unsigned, n);
    significand := WithoutDot(unsigned);
    SignificandText(n);
  }

  method CanonicaliseDigits(negative: bool, significand: string, exponent: int) returns (r: Option<Triple>)
    requires AllDigits(significand) && InI64(exponent)
    ensures r == Canonicalise(negative, significand, exponent)
  {
    var digits := DropLeadingZeros(significand);
    if digits == "" { return Some(ZERO); }
    var trimmed := DropTrailingZeros(digits, exponent);
    if trimmed.None? { return None; }
    return Some(Triple(negative, trimmed.value.0, trimmed.value.1));
  }

  lemma MarkerEndsMantissa(n: Number, at: nat)
    requires WellFormed(n) && at <= |Render(n)|
    requires forall i | 0 <= i < at :: Render(n)[i] !in {'e', 'E'}
    requires at < |Render(n)| ==> Render(n)[at] in {'e', 'E'}
    ensures at == |RenderMantissa(n)| && Render(n)[..at] == RenderMantissa(n)
  {
    MantissaHasNoMarker(n);
    var m := RenderMantissa(n);
    assert Render(n)[..|m|] == m;
    assert forall i | 0 <= i < |m| :: Render(n)[i] == m[i];
    assert |Render(n)| > |m| ==> Render(n)[|m|] in {'e', 'E'};
  }

  /** split_once('.') and the length of what follows it. */
  method CountFraction(unsigned: string, ghost n: Number) returns (count: nat)
    requires WellFormed(n) && unsigned == UnsignedText(n)
    ensures count == |FractionDigits(n)|
  {
    var i := 0;
    while i < |unsigned| && unsigned[i] != '.'
      invariant i <= |unsigned|
      invariant forall k | 0 <= k < i :: unsigned[k] != '.'
    {
      i := i + 1;
    }
    assert forall k | 0 <= k < |n.whole| :: IsDigit(unsigned[k]);
    assert n.fraction.Some? ==> unsigned[|n.whole|] == '.';
    count := if i < |unsigned| then |unsigned| - i - 1 else 0;
  }

  method DropLeadingZeros(s: string) returns (r: string)
    requires AllDigits(s)
    ensures r == StripLeadingZeros(s)
  {
    r := s;
    while r != "" && r[0] == '0'
      invariant AllDigits(r)
      invariant StripLeadingZeros(r) == StripLeadingZeros(s)
      decreases |r|
    {
      r := r[1..];
    }
  }

  // ---------------------------------------------------------------- value is kept

  /** Ten to any integer power. */
  ghost function Pow10(k: int): real
    decreases if k >= 0 then k else -k
  {
    if k == 0 then 1.0 else if k > 0 then 10.0 * Pow10(k - 1) else Pow10(k + 1) / 10.0
  }

  lemma Reassociate(a: real, b: real)
    ensures (a * 10.0) * b == a * (10.0 * b)
    ensures (a * b) / 10.0 == a * (b / 10.0)
  {
  }

  lemma {:induction false} ScaleMeaning(m: nat, e: int)
    ensures Scale(m, e) == m as real * Pow10(e)
    decreases if e >= 0 then e else -e
  {
    if e > 0 {
      ScaleMeaning(10 * m, e - 1);
      Reassociate(m as real, Pow10(e - 1));
    } else if e < 0 {
      ScaleMeaning(m, e + 1);
      Reassociate(m as real, Pow10(e + 1));
    }
  }

  lemma {:induction false} ScaleStep(m: nat, e: int)
    ensures Scale(10 * m, e) == Scale(m, e + 1)
    decreases if e >= 0 then 0 else -e
  {
    if e < -1 {
      ScaleStep(m, e + 1);
    }
  }

  lemma {:induction false} ScaleMonotone(a: nat, b: nat, e: int)
    requires a < b
    ensures Scale(a, e) < Scale(b, e)
    decreases if e >= 0 then e else -e
  {
    if e > 0 {
      ScaleMonotone(10 * a, 10 * b, e - 1);
    } else if e < 0 {
      ScaleMonotone(a, b, e + 1);
    }
  }

  lemma {:induction false} ScaleOfZero(e: int)
    ensures Scale(0, e) == 0.0
    decreases if e >= 0 then e else -e
  {
    if e > 0 {
      ScaleOfZero(e - 1);
    } else if e < 0 {
      ScaleOfZero(e + 1);
    }
  }

  lemma {:induction false} DecimalLeadingZero(s: string)
    requires AllDigits(s) && s != "" && s[0] == '0'
    ensures Decimal(s) == Decimal(s[1..])
  {
    if |s| > 1 {
      DecimalLeadingZero(s[..|s| - 1]);
      assert s[1..][..|s| - 2] == s[..|s| - 1][1..];
    }
  }

  lemma {:induction false} StripKeepsDecimal(s: string)
    requires AllDigits(s)
    ensures Decimal(StripLeadingZeros(s)) == Decimal(s)
  {
    if s != "" && s[0] == '0' {
      DecimalLeadingZero(s);
      StripKeepsDecimal(s[1..]);
    }
  }

  lemma {:induction false} TrailingZerosKeepValue(s: string, e: int)
    requires AllDigits(s)
    ensures var z := TrailingZeros(s);
            Scale(Decimal(s[..|s| - z]), e + z) == Scale(Decimal(s), e)
  {
    var z := TrailingZeros(s);
    if z == 0 {
      assert s[..|s| - z] == s;
    } else {
      var t := s[..|s| - 1];
      TrailingZerosKeepValue(t, e + 1);
      assert t[..|t| - (z - 1)] == s[..|s| - z];
      ScaleStep(Decimal(t), e);
    }
  }

  lemma NonZeroDenotes(negative: bool, stripped: string, e: int)
    requires AllDigits(stripped) && stripped != "" && stripped[0] != '0'
    ensures var z := TrailingZeros(stripped);
            var t := Triple(negative, stripped[..|stripped| - z], e + z);
            Canonical(t) && TripleValue(t) == Signed(negative, Scale(Decimal(stripped), e))
  {
    var z := TrailingZeros(stripped);
    KeptPrefix(stripped);
    KeptPrefixCanonical(negative, stripped, z, e + z);
    TrailingZerosKeepValue(stripped, e);
    SignedValue(negative, stripped[..|stripped| - z], e + z, Scale(Decimal(stripped), e));
  }

  lemma SignedValue(negative: bool, digits: string, e: int, magnitude: real)
    requires AllDigits(digits) && Scale(Decimal(digits), e) == magnitude
    ensures TripleValue(Triple(negative, digits, e)) == Signed(negative, magnitude)
  {
  }

  lemma CanonicaliseDenotes(negative: bool, s: string, e: int)
    requires AllDigits(s) && Canonicalise(negative, s, e).Some?
    ensures var t := Canonicalise(negative, s, e).value;
            Canonical(t) && TripleValue(t) == Signed(negative, Scale(Decimal(s), e))
  {
    var stripped := StripLeadingZeros(s);
    assert Scale(Decimal(stripped), e) == Scale(Decimal(s), e) by { StripKeepsDecimal(s); }
    if stripped == "" {
      assert Canonicalise(negative, s, e).value == ZERO;
      ZeroTriple();
      assert Scale(Decimal(stripped), e) == 0.0 by { ScaleOfZero(e); }
    } else {
      NonZeroDenotes(negative, stripped, e);
    }
  }

  /** The canonical triple has the value of the number text, and is canonical. */
  lemma NormalisedDenotes(n: Number)
    requires WellFormed(n) && Normalised(n).Some?
    ensures Canonical(Normalised(n).value)
    ensures TripleValue(Normalised(n).value) == Value(n)
  {
    CanonicaliseDenotes(n.negative, Significand(n), ExponentValue(n) - |FractionDigits(n)|);
  }

  lemma {:induction false} KeptPrefix(s: string)
    requires s != "" && s[0] != '0'
    ensures var z := TrailingZeros(s);
            z < |s| && s[|s| - z - 1] != '0'
  {
    if s[|s| - 1] == '0' {
      KeptPrefix(s[..|s| - 1]);
    }
  }

  lemma KeptPrefixCanonical(negative: bool, s: string, z: nat, e: int)
    requires AllDigits(s) && z < |s| && s[0] != '0' && s[|s| - z - 1] != '0'
    ensures Canonical(Triple(negative, s[..|s| - z], e))
  {
  }

  // ---------------------------------------------------------------- uniqueness

  lemma {:induction false} DecimalPositive(s: string)
    requires AllDigits(s) && s != "" && s[0] != '0'
    ensures Decimal(s) >= 1
  {
    if |s| > 1 {
      DecimalPositive(s[..|s| - 1]);
    }
  }

  lemma DivModUnique(q: nat, d: nat, q': nat, d': nat)
    requires d <= 9 && d' <= 9 && 10 * q + d == 10 * q' + d'
    ensures q == q' && d == d'
  {
  }

  lemma LastDigit(s: string)
    requires AllDigits(s) && s != ""
    ensures Decimal(s) == 10 * Decimal(s[..|s| - 1]) + DigitValue(s[|s| - 1])
  {
  }

  lemma SplitLast(s: string)
    requires s != ""
    ensures s == s[..|s| - 1] + [s[|s| - 1]]
  {
  }

  lemma SameDigit(c: char, d: char)
    requires IsDigit(c) && IsDigit(d) && DigitValue(c) == DigitValue(d)
    ensures c == d
  {
  }

  /** Digit strings without leading zeros are equal when they denote the same number. */
  lemma {:induction false} DecimalInjective(s: string, t: string)
    requires AllDigits(s) && AllDigits(t) && s != "" && t != "" && s[0] != '0' && t[0] != '0'
    requires Decimal(s) == Decimal(t)
    ensures s == t
  {
    var s', t' := s[..|s| - 1], t[..|t| - 1];
    var c, d := s[|s| - 1], t[|t| - 1];
    LastDigit(s);
    LastDigit(t);
    SplitLast(s);
    SplitLast(t);
    DivModUnique(Decimal(s'), DigitValue(c), Decimal(t'), DigitValue(d));
    SameDigit(c, d);
    if s' != "" { DecimalPositive(s'); }
    if t' != "" { DecimalPositive(t'); }
    if s' != "" && t' != "" {
      DecimalInjective(s', t');
    }
  }

  /** a followed by k decimal zeros. */
  function Shift(a: nat, k: nat): nat
    decreases k
  {
    if k == 0 then a else Shift(10 * a, k - 1)
  }

  lemma {:induction false} ShiftScales(a: nat, e: int, k: nat)
    ensures Scale(Shift(a, k), e) == Scale(a, e + k)
    decreases k
  {
    if k > 0 {
      ShiftScales(10 * a, e, k - 1);
      ScaleStep(a, e + k - 1);
    }
  }

  lemma {:induction false} ShiftEndsInZero(a: nat, k: nat)
    requires k > 0
    ensures Shift(a, k) % 10 == 0
    decreases k
  {
    if k > 1 {
      ShiftEndsInZero(10 * a, k - 1);
    }
  }

  /** Two scaled numbers without trailing zeros agree only with equal scale. */
  lemma ScaleUnique(a: nat, b: nat, e: int, f: int)
    requires a % 10 != 0 && b % 10 != 0 && e >= f
    requires Scale(a, e) == Scale(b, f)
    ensures e == f && a == b
  {
    var shifted := Shift(a, e - f);
    ShiftScales(a, f, e - f);
    if shifted < b {
      ScaleMonotone(shifted, b, f);
    } else if b < shifted {
      ScaleMonotone(b, shifted, f);
    }
    if e > f {
      ShiftEndsInZero(a, e - f);
    }
  }

  lemma NonZeroTriple(t: Triple)
    requires Canonical(t) && t != ZERO
    ensures Decimal(t.digits) % 10 != 0 && Decimal(t.digits) >= 1
    ensures t.negative <==> TripleValue(t) < 0.0
    ensures TripleValue(t) != 0.0
  {
    DecimalPositive(t.digits);
    assert DigitValue(t.digits[|t.digits| - 1]) != 0;
    ScaleOfZero(t.exponent);
    ScaleMonotone(0, Decimal(t.digits), t.exponent);
  }

  lemma ZeroTriple()
    ensures TripleValue(ZERO) == 0.0
  {
    assert Decimal("0") == 10 * Decimal("0"[..0]) + DigitValue('0');
    ScaleOfZero(0);
  }

  lemma MagnitudesAgree(s: Triple, t: Triple)
    requires Canonical(s) && Canonical(t) && s != ZERO && t != ZERO
    requires s.negative == t.negative && TripleValue(s) == TripleValue(t)
    ensures s.exponent == t.exponent && Decimal(s.digits) == Decimal(t.digits)
  {
    NonZeroTriple(s);
    NonZeroTriple(t);
    if s.exponent >= t.exponent {
      ScaleUnique(Decimal(s.digits), Decimal(t.digits), s.exponent, t.exponent);
    } else {
      ScaleUnique(Decimal(t.digits), Decimal(s.digits), t.exponent, s.exponent);
    }
  }

  /** A value has at most one canonical triple. */
  lemma CanonicalUnique(s: Triple, t: Triple)
    requires Canonical(s) && Canonical(t) && TripleValue(s) == TripleValue(t)
    ensures s == t
  {
    ZeroTriple();
    if s == ZERO || t == ZERO {
      if s != ZERO { NonZeroTriple(s); }
      if t != ZERO { NonZeroTriple(t); }
    } else {
      NonZeroTriple(s);
      NonZeroTriple(t);
      MagnitudesAgree(s, t);
      DecimalInjective(s.digits, t.digits);
    }
  }

  // ---------------------------------------------------------------- comparison of numbers

  predicate NumbersEquivalent(a: Number, b: Number)
    requires WellFormed(a) && WellFormed(b)
  {
    Normalised(a) == Normalised(b)
  }

  /** Everything the comparison decides, for all pairs: exact decimal equality where both
      exponents fit, and a single class of number texts that overflow. */
  lemma NumbersEquivalentExactly(a: Number, b: Number)
    requires WellFormed(a) && WellFormed(b)
    ensures NumbersEquivalent(a, b) <==>
            if FitsI64(a) && FitsI64(b) then Value(a) == Value(b) else !FitsI64(a) && !FitsI64(b)
  {
    NormalisesExactly(a);
    NormalisesExactly(b);
    if FitsI64(a) && FitsI64(b) {
      NormalisedDenotes(a);
      NormalisedDenotes(b);
      if Value(a) == Value(b) {
        CanonicalUnique(Normalised(a).value, Normalised(b).value);
      }
    }
  }

  /** Negative zero, and zero with any fraction and any exponent that fits, is zero. */
  lemma ZeroIsOneTriple(n: Number)
    requires WellFormed(n) && FitsI64(n)
    ensures Normalised(n) == Some(ZERO) <==> Value(n) == 0.0
  {
    NormalisesExactly(n);
    NormalisedDenotes(n);
    ZeroTriple();
    if Value(n) == 0.0 {
      CanonicalUnique(Normalised(n).value, ZERO);
    }
  }

  /** The texts in which 64-bit integers and floats are rendered are among these: an integer has
      at most 20 digits, a float at most 17 significant ones and a few zeros, and an exponent of
      at most three digits. */
  predicate Short(n: Number)
    requires WellFormed(n)
  {
    |Significand(n)| <= 24 && (n.exponent.Some? ==> |n.exponent.value.digits| <= 3)
  }

  lemma {:induction false} DecimalBelow(s: string)
    requires AllDigits(s)
    ensures Decimal(s) < TenTo(|s|)
  {
    if s != "" { DecimalBelow(s[..|s| - 1]); }
  }

  lemma ShortFits(n: Number)
    requires WellFormed(n) && Short(n)
    ensures FitsI64(n)
  {
    assert TenTo(0) == 1 && TenTo(1) == 10 && TenTo(2) == 100 && TenTo(3) == 1000;
    if n.exponent.Some? { DecimalBelow(n.exponent.value.digits); }
  }

  /** On such texts the comparison is equality of values, with no exception. */
  lemma ShortNumbersCompareExactly(a: Number, b: Number)
    requires WellFormed(a) && WellFormed(b) && Short(a) && Short(b)
    ensures NumbersEquivalent(a, b) <==> Value(a) == Value(b)
  {
    ShortFits(a);
    ShortFits(b);
    NumbersEquivalentExactly(a, b);
  }

  /** No overflow while the exponent and the text stay clear of the 64-bit bounds. */
  lemma NormalisesWithinBounds(n: Number)
    requires WellFormed(n)
    requires -0x4000_0000_0000_0000 <= ExponentValue(n) <= 0x4000_0000_0000_0000
    requires |Significand(n)| <= 0x3fff_ffff_ffff_ffff
    ensures FitsI64(n) && Normalised(n).Some?
  {
    NormalisesExactly(n);
  }

  /** The digits of 10^k. */
  function OneAndZeros(k: nat): (s: string)
    ensures AllDigits(s) && |s| == k + 1
  {
    if k == 0 then "1" else OneAndZeros(k - 1) + "0"
  }

  function TenTo(k: nat): nat {
    if k == 0 then 1 else 10 * TenTo(k - 1)
  }

  lemma {:induction false} DecimalOfPower(k: nat)
    ensures Decimal(OneAndZeros(k)) == TenTo(k)
  {
    if k == 0 {
      assert Decimal("1") == 10 * Decimal("1"[..0]) + DigitValue('1');
    } else {
      DecimalOfPower(k - 1);
      assert OneAndZeros(k)[..k] == OneAndZeros(k - 1);
    }
  }

  lemma BeyondI64()
    ensures TenTo(19) > I64_MAX
  {
    assert TenTo(5) == 100000;
    assert TenTo(10) == 100000 * TenTo(5);
    assert TenTo(15) == 100000 * TenTo(10);
    assert TenTo(19) == 10000 * TenTo(15);
  }

  function WithExponent(digit: char, exponentDigits: string): Number {
    Number(false, [digit], None, Some(Exponent(false, None, exponentDigits)))
  }

  lemma OneDigit(digit: char, exponentDigits: string)
    requires IsDigit(digit) && AllDigits(exponentDigits) && exponentDigits != ""
    ensures var n := WithExponent(digit, exponentDigits);
            WellFormed(n) && ExponentValue(n) == Decimal(exponentDigits) &&
            Value(n) == Scale(DigitValue(digit), Decimal(exponentDigits))
  {
    var n := WithExponent(digit, exponentDigits);
    assert Significand(n) == [digit];
    assert Decimal([digit]) == 10 * Decimal([digit][..0]) + DigitValue(digit);
  }

  /** As number texts 1e(10^19) and 2e(10^19) overflow and therefore compare equal, although one
      is twice the other; a reader that keeps numbers in 64 bits refuses both before. */
  lemma OverflowingNumbersCompareEqual()
    ensures var one, two := WithExponent('1', OneAndZeros(19)), WithExponent('2', OneAndZeros(19));
            && WellFormed(one) && WellFormed(two)
            && NumbersEquivalent(one, two) && Value(one) != Value(two)
  {
    DecimalOfPower(19);
    BeyondI64();
    OneDigit('1', OneAndZeros(19));
    OneDigit('2', OneAndZeros(19));
    ScaleMonotone(1, 2, TenTo(19));
  }
}
