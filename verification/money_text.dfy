/**
 * Money amounts as the card and bank-balance forms read and show them: the input is
 * stripped to `[\d,-]`, its first ',' becomes '.', and `parseFloat` reads the rest; the
 * edit dialog fills the input with `Number.prototype.toString` of the stored value.
 */
module MoneyText {
  import opened JsText
  import opened JsNumber
  import opened Lists

  /** The characters `replace(/[^\d,-]/g, '')` keeps. */
  predicate IsMoneyChar(c: char) {
    IsDigit(c) || c == ',' || c == '-'
  }

  /** `parseFloat(s.replace(/[^\d,-]/g, '').replace(',', '.'))`. */
  function ParseMoney(s: string): (n: Num) {
    ParseFloat(ReplaceFirst(Filter(s, IsMoneyChar), ',', '.'))
  }

  lemma DigitsKept(s: string)
    requires AllDigits(s)
    ensures Filter(s, IsMoneyChar) == s && ',' !in s
  {
    FilterAll(s, IsMoneyChar);
    assert forall k :: 0 <= k < |s| ==> s[k] != ',' by {
      forall k | 0 <= k < |s| ensures s[k] != ',' { assert IsDigit(s[k]); }
    }
  }

  lemma AllDigitsAppend(a: string, b: string)
    requires AllDigits(a) && AllDigits(b)
    ensures AllDigits(a + b)
  {
    assert forall k :: 0 <= k < |a + b| ==> (a + b)[k] == if k < |a| then a[k] else b[k - |a|];
  }

  /** What the filter leaves of p + "I.J,F": the digits of I and J, the comma, the digits of F. */
  lemma BrazilianTextKept(p: string, i: string, j: string, f: string)
    requires forall k :: 0 <= k < |p| ==> !IsMoneyChar(p[k])
    requires AllDigits(i) && AllDigits(j) && AllDigits(f)
    ensures Filter(p + i + "." + j + "," + f, IsMoneyChar) == i + j + [','] + f
  {
    FilterNone(p, IsMoneyChar);
    FilterNone(".", IsMoneyChar);
    FilterAll(",", IsMoneyChar);
    DigitsKept(i);
    DigitsKept(j);
    DigitsKept(f);
    FilterAppend(p, i, IsMoneyChar);
    assert Filter(p + i, IsMoneyChar) == i by {
      assert [] + i == i;
    }
    FilterAppend(p + i, ".", IsMoneyChar);
    assert Filter(p + i + ".", IsMoneyChar) == i by {
      assert i + [] == i;
    }
    FilterAppend(p + i + ".", j, IsMoneyChar);
    FilterAppend(p + i + "." + j, ",", IsMoneyChar);
    FilterAppend(p + i + "." + j + ",", f, IsMoneyChar);
  }

  /**
   * A Brazilian amount "I.J,F" after any prefix without digits, commas or minus signs
   * (a currency symbol, spaces) is read as the number with digits IJ and fraction F:
   * "R$ 1.234,56" is 1234.56.
   */
  lemma ParseMoneyBrazilian(p: string, i: string, j: string, f: string)
    requires forall k :: 0 <= k < |p| ==> !IsMoneyChar(p[k])
    requires AllDigits(i) && AllDigits(j) && AllDigits(f) && i != []
    ensures AllDigits(i + j)
    ensures ParseMoney(p + i + "." + j + "," + f) == Finite(Mantissa(DigitsValue(i + j), DigitsValue(f), |f|))
  {
    AllDigitsAppend(i, j);
    BrazilianTextKept(p, i, j, f);
    DigitsKept(i + j);
    ReplaceFirstAt(i + j, ',', '.', f);
    ParseFloatFraction(i + j, f);
  }

  /** How "I,J,F" regroups around its first comma. */
  lemma CommaRegroup(i: string, j: string, f: string)
    ensures i + "," + j + "," + f == i + [','] + (j + "," + f)
    ensures i + [','] + (j + "," + f) == i + "," + j + "," + f
    ensures i + ['.'] + (j + "," + f) == i + "." + j + [','] + f
  {
  }

  lemma CommaTextKept(i: string, j: string, f: string)
    requires AllDigits(i) && AllDigits(j) && AllDigits(f)
    ensures Filter(i + "," + j + "," + f, IsMoneyChar) == i + "," + j + "," + f
  {
    DigitsKept(i);
    DigitsKept(j);
    DigitsKept(f);
    FilterAll(",", IsMoneyChar);
    FilterAppend(i, ",", IsMoneyChar);
    FilterAppend(i + ",", j, IsMoneyChar);
    FilterAppend(i + "," + j, ",", IsMoneyChar);
    FilterAppend(i + "," + j + ",", f, IsMoneyChar);
  }

  /** Only the first comma becomes a point: "I,J,F" is read as I.J. */
  lemma ParseMoneyFirstCommaOnly(i: string, j: string, f: string)
    requires AllDigits(i) && AllDigits(j) && AllDigits(f) && i != []
    ensures ParseMoney(i + "," + j + "," + f) == Finite(Mantissa(DigitsValue(i), DigitsValue(j), |j|))
  {
    CommaTextKept(i, j, f);
    CommaRegroup(i, j, f);
    DigitsKept(i);
    ReplaceFirstAt(i, ',', '.', j + "," + f);
    ParseFloatStops(i, j, ',', f);
  }

  /** The fraction digits `toString` writes for c hundredths: none, one, or two. */
  function CentDigits(c: nat): (f: string)
    ensures AllDigits(f) && |f| <= 2
    ensures f == [] <==> c % 100 == 0
    ensures |f| == 2 <==> c % 10 != 0
  {
    var r := c % 100;
    LastDigitOfCents(c);
    if r == 0 then ""
    else if r % 10 == 0 then [DigitChar(r / 10)]
    else [DigitChar(r / 10), DigitChar(r % 10)]
  }

  /** The last digit of an amount in hundredths is the last digit of its cents. */
  lemma LastDigitOfCents(c: nat)
    ensures c % 10 == (c % 100) % 10
  {
    var k := 10 * (c / 100);
    assert c == 10 * k + c % 100;
  }

  /**
   * The decimal text of c hundredths with `sep` as the decimal separator: with '.',
   * `Number.prototype.toString` of an amount with at most two decimals ("12", "12.5",
   * "12.05").
   */
  function DecimalText(c: nat, sep: char): (s: string)
    ensures |s| >= 1
  {
    var f := CentDigits(c);
    NatToString(c / 100) + (if f == [] then "" else [sep] + f)
  }

  /** Whole units and hundredths make up the amount. */
  lemma UnitsAndCents(c: nat)
    ensures (c / 100) as real + (c % 100) as real / 100.0 == c as real / 100.0
  {
    assert c == (c / 100) * 100 + c % 100;
    assert c as real == (c / 100) as real * 100.0 + (c % 100) as real;
  }

  lemma OneCentDigit(c: nat)
    requires c % 100 != 0 && c % 10 == 0
    ensures |CentDigits(c)| == 1 && DigitsValue(CentDigits(c)) * 10 == c % 100
  {
    var r := c % 100;
    var f := CentDigits(c);
    assert f == [DigitChar(r / 10)];
    assert f[..0] == [];
    assert r == (r / 10) * 10 by {
      assert c % 10 == r % 10;
    }
  }

  lemma TwoCentDigits(c: nat)
    requires c % 10 != 0
    ensures |CentDigits(c)| == 2 && DigitsValue(CentDigits(c)) == c % 100
  {
    var r := c % 100;
    LastDigitOfCents(c);
    assert r != 0 && r % 10 != 0;
    assert CentDigits(c) == [DigitChar(r / 10), DigitChar(r % 10)];
    TwoDigitsValue(r);
  }

  lemma SmallPowers()
    ensures Pow10(1) == 10.0 && Pow10(2) == 100.0
  {
    assert Pow10(1) == 10.0;
  }

  lemma TenthsAsHundredths(d: nat, r: nat)
    requires d * 10 == r
    ensures d as real / 10.0 == r as real / 100.0
  {
  }

  /** The fraction digits stand for the hundredths of c. */
  lemma CentDigitsValue(c: nat)
    ensures (c / 100) as real + DigitsValue(CentDigits(c)) as real / Pow10(|CentDigits(c)|) == c as real / 100.0
  {
    UnitsAndCents(c);
    SmallPowers();
    if c % 100 == 0 {
    } else if c % 10 == 0 {
      OneCentDigit(c);
      TenthsAsHundredths(DigitsValue(CentDigits(c)), c % 100);
    } else {
      TwoCentDigits(c);
    }
  }

  lemma WholeUnits(c: nat)
    requires c % 100 == 0
    ensures (c / 100) as real == c as real / 100.0
  {
    assert c == (c / 100) * 100;
  }

  /** `parseFloat` reads the `toString` text of c hundredths back as c / 100. */
  lemma ParseFloatDecimalText(c: nat)
    ensures ParseFloat(DecimalText(c, '.')) == Finite(c as real / 100.0)
  {
    var q, f := NatToString(c / 100), CentDigits(c);
    NatToStringValue(c / 100);
    if f == [] {
      assert DecimalText(c, '.') == q;
      ParseFloatDigits(q);
      WholeUnits(c);
    } else {
      assert DecimalText(c, '.') == q + "." + f;
      ParseFloatFraction(q, f);
      DecimalMantissa(c);
    }
  }

  lemma CommaCentsKept(q: string, f: string)
    requires AllDigits(q) && AllDigits(f)
    ensures Filter(q + [','] + f, IsMoneyChar) == q + [','] + f
  {
    DigitsKept(q);
    DigitsKept(f);
    FilterAll([','], IsMoneyChar);
    FilterAppend(q, [','], IsMoneyChar);
    FilterAppend(q + [','], f, IsMoneyChar);
  }

  /** "Q,F" goes to `parseFloat` as "Q.F". */
  lemma CommaPartsRead(q: string, f: string)
    requires AllDigits(q) && AllDigits(f)
    ensures ParseMoney(q + [','] + f) == ParseFloat(q + "." + f)
  {
    CommaCentsKept(q, f);
    DigitsKept(q);
    ReplaceFirstAt(q, ',', '.', f);
  }

  /** The mantissa of the digits of c hundredths is c / 100. */
  lemma DecimalMantissa(c: nat)
    ensures AllDigits(NatToString(c / 100))
    ensures Mantissa(DigitsValue(NatToString(c / 100)), DigitsValue(CentDigits(c)), |CentDigits(c)|) == c as real / 100.0
  {
    NatToStringValue(c / 100);
    CentDigitsValue(c);
  }

  /** The money parse reads a comma-separated amount text back exactly. */
  lemma ParseMoneyCommaText(c: nat)
    ensures ParseMoney(DecimalText(c, ',')) == Finite(c as real / 100.0)
  {
    var q, f := NatToString(c / 100), CentDigits(c);
    NatToStringValue(c / 100);
    if f == [] {
      assert DecimalText(c, ',') == q;
      DigitsKept(q);
      assert ParseMoney(q) == ParseFloat(q);
      ParseFloatDigits(q);
      WholeUnits(c);
    } else {
      assert DecimalText(c, ',') == q + [','] + f;
      CommaPartsRead(q, f);
      ParseFloatFraction(q, f);
      DecimalMantissa(c);
    }
  }

  lemma DigitsValueSnoc(a: string, d: char)
    requires AllDigits(a) && IsDigit(d)
    ensures AllDigits(a + [d]) && DigitsValue(a + [d]) == DigitsValue(a) * 10 + DigitValue(d)
  {
    assert (a + [d])[..|a|] == a;
  }

  /** The filter drops the point of "Q.F". */
  lemma PointTextKept(q: string, f: string)
    requires AllDigits(q) && AllDigits(f)
    ensures Filter(q + "." + f, IsMoneyChar) == q + f
  {
    DigitsKept(q);
    DigitsKept(f);
    FilterNone(".", IsMoneyChar);
    FilterAppend(q, ".", IsMoneyChar);
    assert Filter(q + ".", IsMoneyChar) == q by {
      assert q + [] == q;
    }
    FilterAppend(q + ".", f, IsMoneyChar);
  }

  /** Two more digits multiply by a hundred. */
  lemma TwoMoreDigits(q: string, f: string)
    requires AllDigits(q) && AllDigits(f) && |f| == 2
    ensures AllDigits(q + f) && DigitsValue(q + f) == DigitsValue(q) * 100 + DigitsValue(f)
  {
    var d1, d2 := f[0], f[1];
    assert f == [d1] + [d2];
    assert q + f == q + [d1] + [d2];
    DigitsValueSnoc(q, d1);
    DigitsValueSnoc(q + [d1], d2);
    DigitsValueSnoc([], d1);
    DigitsValueSnoc([d1], d2);
    assert [] + [d1] == [d1];
  }

  /**
   * The money parse drops the point `toString` writes: an amount whose second decimal is
   * not zero comes back a hundred times larger ("1234.56" is read as 123456).
   */
  lemma ParseMoneyPointText(c: nat)
    requires c % 10 != 0
    ensures ParseMoney(DecimalText(c, '.')) == Finite(c as real)
  {
    var q, f := NatToString(c / 100), CentDigits(c);
    NatToStringValue(c / 100);
    assert DecimalText(c, '.') == q + "." + f;
    PointTextKept(q, f);
    TwoMoreDigits(q, f);
    DigitsKept(q + f);
    assert ReplaceFirst(q + f, ',', '.') == q + f;
    ParseFloatDigits(q + f);
    TwoCentDigits(c);
    assert c == (c / 100) * 100 + c % 100;
  }

  /** Digits alone are read as their value. */
  lemma ParseMoneyDigits(s: string)
    requires s != [] && AllDigits(s)
    ensures ParseMoney(s) == Finite(DigitsValue(s) as real)
  {
    DigitsKept(s);
    assert ReplaceFirst(s, ',', '.') == s;
    ParseFloatDigits(s);
  }

  /** Replacing the point of the `toString` text by a comma gives the comma text. */
  lemma PointToComma(c: nat)
    ensures ReplaceFirst(DecimalText(c, '.'), '.', ',') == DecimalText(c, ',')
  {
    var q, f := NatToString(c / 100), CentDigits(c);
    assert '.' !in q by {
      forall k | 0 <= k < |q| ensures q[k] != '.' { assert IsDigit(q[k]); }
    }
    if f != [] {
      assert DecimalText(c, '.') == q + ['.'] + f;
      ReplaceFirstAt(q, '.', ',', f);
    }
  }

  /** Showing an amount with its point turned into a comma, then parsing it, gives the amount back. */
  lemma CommaRoundTrip(c: nat)
    ensures ParseMoney(ReplaceFirst(DecimalText(c, '.'), '.', ',')) == Finite(c as real / 100.0)
  {
    PointToComma(c);
    ParseMoneyCommaText(c);
  }
}
