/**
 * JavaScript numbers as produced by the string-to-number conversions the application
 * uses: `parseFloat`, `parseInt(s)` (radix 10) and `Number(s)`. A number is either
 * NaN or a finite value; values are exact reals (no binary rounding).
 */
module JsNumber {
  import opened Wrappers
  import opened JsText

  datatype Num = NaN | Finite(v: real)

  /** JavaScript truthiness of a number: NaN and 0 are falsy. */
  predicate Truthy(n: Num) {
    n.Finite? && n.v != 0.0
  }

  /** `a < b`, `a >= b`, `a > b`: every comparison with NaN is false. */
  predicate Less(a: Num, b: Num) {
    a.Finite? && b.Finite? && a.v < b.v
  }

  predicate AtLeast(a: Num, b: Num) {
    a.Finite? && b.Finite? && a.v >= b.v
  }

  predicate Greater(a: Num, b: Num) {
    a.Finite? && b.Finite? && a.v > b.v
  }

  function Sub(a: Num, b: Num): (r: Num)
    ensures r.Finite? <==> a.Finite? && b.Finite?
    ensures r.Finite? ==> r.v + b.v == a.v
  {
    if a.Finite? && b.Finite? then Finite(a.v - b.v) else NaN
  }

  /** `x || 0` for a number: NaN (and 0) become 0. */
  function OrZero(n: Num): (r: real)
    ensures Truthy(n) ==> r == n.v
    ensures !Truthy(n) ==> r == 0.0
  {
    if Truthy(n) then n.v else 0.0
  }

  /** ToIntegerOrInfinity on a finite value: truncation toward zero. */
  function Trunc(x: real): (i: int)
    ensures x >= 0.0 ==> i as real <= x < i as real + 1.0
    ensures x < 0.0 ==> i as real - 1.0 < x <= i as real
  {
    if x >= 0.0 then x.Floor else -((-x).Floor)
  }

  /** `Math.floor` on a finite value. */
  function Floor(x: real): (i: int)
    ensures i as real <= x < i as real + 1.0
  {
    x.Floor
  }

  /** `Math.ceil` on a finite value. */
  function Ceil(x: real): (i: int)
    ensures i as real - 1.0 < x <= i as real
  {
    -((-x).Floor)
  }

  function Pow10(n: nat): (p: real)
    ensures p >= 1.0
  {
    if n == 0 then 1.0 else 10.0 * Pow10(n - 1)
  }

  /** 10 to an integer power. */
  function Pow10Int(e: int): (p: real)
    ensures p > 0.0
  {
    if e >= 0 then Pow10(e) else 1.0 / Pow10(-e)
  }

  /** The value of digits "I.F" where F has `flen` digits. */
  function Mantissa(ip: nat, fp: nat, flen: nat): (m: real)
    ensures m >= ip as real
  {
    ip as real + fp as real / Pow10(flen)
  }

  /** m times 10 to the power e. */
  function Scaled(m: real, e: int): (r: real)
    ensures e == 0 ==> r == m
  {
    m * Pow10Int(e)
  }

  /** The end of the run of decimal digits that starts at i. */
  function DigitRunEnd(s: string, i: nat): (j: nat)
    requires i <= |s|
    ensures i <= j <= |s| && AllDigits(s[i..j])
    ensures j < |s| ==> !IsDigit(s[j])
    decreases |s| - i
  {
    if i == |s| || !IsDigit(s[i]) then i else DigitRunEnd(s, i + 1)
  }

  lemma {:induction false} DigitRunEndAt(s: string, i: nat, j: nat)
    requires i <= j <= |s| && AllDigits(s[i..j])
    requires j < |s| ==> !IsDigit(s[j])
    ensures DigitRunEnd(s, i) == j
    decreases |s| - i
  {
    if i < j {
      assert IsDigit(s[i..j][0]);
      assert s[i + 1..j] == s[i..j][1..];
      DigitRunEndAt(s, i + 1, j);
    }
  }

  /** The optional exponent part at position i: its signed value and where it ends. */
  function ExponentPart(s: string, i: nat): (r: (int, nat))
    requires i <= |s|
    ensures i <= r.1 <= |s|
    ensures r.1 == i ==> r.0 == 0
  {
    if i < |s| && (s[i] == 'e' || s[i] == 'E') then
      var k := if i + 1 < |s| && (s[i + 1] == '+' || s[i + 1] == '-') then i + 2 else i + 1;
      var e := DigitRunEnd(s, k);
      if e == k then (0, i)
      else
        var mag: int := DigitsValue(s[k..e]);
        (if s[i + 1] == '-' then -mag else mag, e)
    else (0, i)
  }

  /**
   * The longest prefix of s that is a signed decimal literal
   * (`[+-]? (digits [. digits?] | . digits) ([eE] [+-]? digits)?`): its value and length.
   */
  function DecimalPrefix(s: string): (r: Option<(real, nat)>)
    ensures r.Some? ==> 0 < r.value.1 <= |s|
  {
    var i0 := if |s| > 0 && (s[0] == '+' || s[0] == '-') then 1 else 0;
    var a := DigitRunEnd(s, i0);
    var hasDot := a < |s| && s[a] == '.';
    var b := if hasDot then DigitRunEnd(s, a + 1) else a;
    var fracStart := if hasDot then a + 1 else a;
    if a == i0 && b == fracStart then None
    else
      var exp := ExponentPart(s, b);
      var magnitude := Scaled(Mantissa(DigitsValue(s[i0..a]), DigitsValue(s[fracStart..b]), b - fracStart), exp.0);
      Some((if i0 == 1 && s[0] == '-' then -magnitude else magnitude, exp.1))
  }

  /** `parseFloat(s)`: leading white space skipped, the longest decimal prefix read, NaN if none. */
  function ParseFloat(s: string): (r: Num)
    ensures r.Finite? <==> DecimalPrefix(TrimStart(s)).Some?
  {
    match DecimalPrefix(TrimStart(s))
    case None => NaN
    case Some(p) => Finite(p.0)
  }

  /** `Number(s)` on a string: white space trimmed, "" is 0, otherwise the whole rest must be a literal. */
  function ToNumber(s: string): (r: Num)
    ensures Trim(s) == [] ==> r == Finite(0.0)
    ensures Trim(s) != [] ==> (r.Finite? <==> DecimalPrefix(Trim(s)).Some? && DecimalPrefix(Trim(s)).value.1 == |Trim(s)|)
  {
    var t := Trim(s);
    if t == [] then Finite(0.0)
    else match DecimalPrefix(t)
      case Some(p) => if p.1 == |t| then Finite(p.0) else NaN
      case None => NaN
  }

  /** `parseInt(s)` with the default radix on decimal text: sign and leading digits. */
  function ParseInt(s: string): (r: Num)
    ensures r.Finite? <==> IntegerPrefix(TrimStart(s)).Some?
    ensures r.Finite? ==> r.v == IntegerPrefix(TrimStart(s)).value as real
  {
    match IntegerPrefix(TrimStart(s))
    case None => NaN
    case Some(i) => Finite(i as real)
  }

  /** The signed integer read from the longest `[+-]? digits` prefix, if any. */
  function IntegerPrefix(t: string): (r: Option<int>)
    ensures r.Some? ==> t != [] && (IsDigit(t[0]) || (|t| > 1 && IsDigit(t[1])))
  {
    var i0 := if |t| > 0 && (t[0] == '+' || t[0] == '-') then 1 else 0;
    var e := DigitRunEnd(t, i0);
    if e == i0 then None
    else
      var mag: int := DigitsValue(t[i0..e]);
      Some(if i0 == 1 && t[0] == '-' then -mag else mag)
  }

  lemma DecimalPrefixDigits(s: string)
    requires s != [] && AllDigits(s)
    ensures DecimalPrefix(s) == Some((DigitsValue(s) as real, |s|))
  {
    DigitRunEndAt(s, 0, |s|);
    assert s[0..|s|] == s;
    assert s[|s|..|s|] == [];
  }

  lemma DotTextShape(i: string, f: string)
    requires AllDigits(i) && AllDigits(f)
    ensures var s := i + "." + f;
      s[0..|i|] == i && s[|i|] == '.' && s[|i| + 1..|s|] == f && s[0] != '+' && s[0] != '-'
  {
    var s := i + "." + f;
    if i != [] {
      assert s[0] == i[0] && IsDigit(i[0]);
    }
  }

  /** How the digit runs of "I.F" are found. */
  lemma DotTextParts(i: string, f: string)
    requires AllDigits(i) && AllDigits(f)
    ensures var s := i + "." + f;
      s[0..|i|] == i && s[|i|] == '.' && s[|i| + 1..|s|] == f && s[0] != '+' && s[0] != '-'
      && DigitRunEnd(s, 0) == |i| && DigitRunEnd(s, |i| + 1) == |s|
  {
    var s := i + "." + f;
    DotTextShape(i, f);
    DigitRunEndAt(s, 0, |i|);
    DigitRunEndAt(s, |i| + 1, |s|);
  }

  /** An unsigned literal "I.F" with no exponent after it, found by its two digit runs. */
  lemma DecimalPrefixDotted(s: string, a: nat, b: nat)
    requires a < b <= |s| && s[0] != '+' && s[0] != '-' && s[a] == '.'
    requires DigitRunEnd(s, 0) == a && DigitRunEnd(s, a + 1) == b && (a > 0 || b > a + 1)
    requires ExponentPart(s, b) == (0, b)
    ensures DecimalPrefix(s) == Some((Mantissa(DigitsValue(s[0..a]), DigitsValue(s[a + 1..b]), b - (a + 1)), b))
  {
  }

  /** Decimal text "I.F" is read as I + F / 10^|F|. */
  lemma DecimalPrefixFraction(i: string, f: string)
    requires AllDigits(i) && AllDigits(f) && (i != [] || f != [])
    ensures var s := i + "." + f;
      DecimalPrefix(s) == Some((Mantissa(DigitsValue(i), DigitsValue(f), |f|), |s|))
  {
    var s := i + "." + f;
    DotTextParts(i, f);
    DecimalPrefixDotted(s, |i|, |s|);
  }

  /** `parseFloat` of a digit string is its value. */
  lemma ParseFloatDigits(s: string)
    requires s != [] && AllDigits(s)
    ensures ParseFloat(s) == Finite(DigitsValue(s) as real)
  {
    TrimDigits(s);
    DecimalPrefixDigits(s);
  }

  lemma ParseFloatFraction(i: string, f: string)
    requires AllDigits(i) && AllDigits(f) && (i != [] || f != [])
    ensures ParseFloat(i + "." + f) == Finite(Mantissa(DigitsValue(i), DigitsValue(f), |f|))
  {
    DecimalPrefixFraction(i, f);
    var s := i + "." + f;
    DigitNotSpace(s[0]);
    assert TrimStart(s) == s;
  }

  /** `Number` of a digit string is its value. */
  lemma ToNumberDigits(s: string)
    requires s != [] && AllDigits(s)
    ensures ToNumber(s) == Finite(DigitsValue(s) as real)
  {
    TrimDigits(s);
    DecimalPrefixDigits(s);
  }

  /** The integer prefix of a digit string is its value. */
  lemma IntegerPrefixDigits(s: string)
    requires s != [] && AllDigits(s)
    ensures IntegerPrefix(s) == Some(DigitsValue(s))
  {
    assert s[0] != '+' && s[0] != '-';
    DigitRunEndAt(s, 0, |s|);
    assert s[0..|s|] == s;
  }

  /** `parseInt` of a digit string is its value. */
  lemma ParseIntDigits(s: string)
    requires s != [] && AllDigits(s)
    ensures IntegerPrefix(TrimStart(s)) == Some(DigitsValue(s))
    ensures ParseInt(s) == Finite(DigitsValue(s) as real)
  {
    TrimDigits(s);
    IntegerPrefixDigits(s);
  }

  /** A string that starts with something other than white space, a sign, a digit or '.' is NaN. */
  lemma ParseFloatNaN(s: string)
    requires s != [] && !IsJsWhiteSpace(s[0]) && !IsDigit(s[0])
    requires s[0] != '+' && s[0] != '-' && s[0] != '.'
    ensures ParseFloat(s) == NaN && ParseInt(s) == NaN
  {
  }

  /** A character that ends a decimal literal after its fraction: not a digit and not an exponent mark. */
  predicate EndsLiteral(c: char) {
    !IsDigit(c) && c != 'e' && c != 'E'
  }

  /** The digit runs of "I.J" followed by sep and F. */
  lemma StopParts(i: string, j: string, sep: char, f: string)
    requires AllDigits(i) && AllDigits(j) && i != [] && EndsLiteral(sep)
    ensures var t := i + "." + j + [sep] + f;
      var b := |i| + 1 + |j|;
      b < |t| && IsDigit(t[0]) && t[0..|i|] == i && t[|i|] == '.' && t[|i| + 1..b] == j && EndsLiteral(t[b])
      && DigitRunEnd(t, 0) == |i| && DigitRunEnd(t, |i| + 1) == b && TrimStart(t) == t
  {
    var t := i + "." + j + [sep] + f;
    StopSlices(i, j, sep, f);
    StopRuns(t, |i|, |i| + 1 + |j|, i, j);
    assert IsDigit(t[0]) by { assert t[0] == i[0]; }
    DigitNotSpace(t[0]);
  }

  /** The two digit runs of a text "I.J" + rest whose rest starts with a non-digit. */
  lemma StopRuns(t: string, a: nat, b: nat, i: string, j: string)
    requires a < b < |t| && t[0..a] == i && t[a] == '.' && t[a + 1..b] == j && !IsDigit(t[b])
    requires AllDigits(i) && AllDigits(j)
    ensures DigitRunEnd(t, 0) == a && DigitRunEnd(t, a + 1) == b
  {
    DigitRunEndAt(t, 0, a);
    DigitRunEndAt(t, a + 1, b);
  }

  lemma StopSlices(i: string, j: string, sep: char, f: string)
    ensures var t := i + "." + j + [sep] + f;
      var b := |i| + 1 + |j|;
      b < |t| && t[0..|i|] == i && t[|i|] == '.' && t[|i| + 1..b] == j && t[b] == sep
  {
    var t := i + "." + j + [sep] + f;
    var b := |i| + 1 + |j|;
    assert t == i + ("." + j) + ([sep] + f);
    assert t[0..|i|] == i;
    assert t[|i| + 1..b] == j;
  }

  /**
   * A digit run i, a point, a digit run j, then a character that ends the literal: the
   * prefix is "i.j".
   */
  lemma DecimalPrefixStopsAt(t: string, a: nat, b: nat, i: string, j: string)
    requires 0 < a < b < |t| && IsDigit(t[0]) && t[a] == '.' && EndsLiteral(t[b])
    requires DigitRunEnd(t, 0) == a && DigitRunEnd(t, a + 1) == b
    requires t[0..a] == i && t[a + 1..b] == j
    ensures DecimalPrefix(t) == Some((Mantissa(DigitsValue(i), DigitsValue(j), |j|), b))
  {
    assert ExponentPart(t, b) == (0, b);
    DecimalPrefixDotted(t, a, b);
  }

  /**
   * `parseFloat` stops where the literal ends: "I.J.F" (a second point) and "I.J,F" (a comma)
   * both read as I.J.
   */
  lemma ParseFloatStops(i: string, j: string, sep: char, f: string)
    requires AllDigits(i) && AllDigits(j) && i != [] && EndsLiteral(sep)
    ensures ParseFloat(i + "." + j + [sep] + f) == Finite(Mantissa(DigitsValue(i), DigitsValue(j), |j|))
  {
    StopParts(i, j, sep, f);
    DecimalPrefixStopsAt(i + "." + j + [sep] + f, |i|, |i| + 1 + |j|, i, j);
  }
}
