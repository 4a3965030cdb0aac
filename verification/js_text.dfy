/**
 * The JavaScript string operations the application relies on, as total functions
 * over Dafny strings (sequences of Unicode scalar values): trimming, case mapping,
 * substring tests, `split` on one character, `replace` of the first occurrence,
 * decimal rendering of integers and `padStart`.
 */
module JsText {

  /** An ASCII decimal digit, the class `[0-9]` / `\d` of a JavaScript regular expression. */
  predicate IsDigit(c: char) {
    '0' <= c <= '9'
  }

  predicate AllDigits(s: string) {
    forall i :: 0 <= i < |s| ==> IsDigit(s[i])
  }

  function DigitValue(c: char): (v: nat)
    requires IsDigit(c)
    ensures v < 10
  {
    (c as int) - ('0' as int)
  }

  function DigitChar(v: nat): (c: char)
    requires v < 10
    ensures IsDigit(c) && DigitValue(c) == v
  {
    (('0' as int) + v) as char
  }

  /** The value of a string of decimal digits, most significant first ("" is 0). */
  function DigitsValue(s: string): nat
    requires AllDigits(s)
  {
    if s == [] then 0 else DigitsValue(s[..|s| - 1]) * 10 + DigitValue(s[|s| - 1])
  }

  /** The decimal rendering of a natural number, as `Number.prototype.toString` gives it. */
  function NatToString(n: nat): (s: string)
    ensures |s| >= 1 && AllDigits(s)
    ensures n >= 10 ==> |s| >= 2
    decreases n
  {
    if n < 10 then [DigitChar(n)] else NatToString(n / 10) + [DigitChar(n % 10)]
  }

  /** The decimal rendering of an integer, with a leading '-' when negative. */
  function IntToString(i: int): (s: string)
    ensures |s| >= 1
  {
    if i < 0 then "-" + NatToString(-i) else NatToString(i)
  }

  lemma {:induction false} NatToStringValue(n: nat)
    ensures DigitsValue(NatToString(n)) == n
    decreases n
  {
    var s := NatToString(n);
    if n >= 10 {
      NatToStringValue(n / 10);
      assert s[..|s| - 1] == NatToString(n / 10);
    }
  }

  /** The last two characters of the rendering of n >= 10 are its tens and units digits. */
  lemma NatToStringLastTwo(n: nat)
    requires n >= 10
    ensures var s := NatToString(n);
      s[|s| - 2..] == [DigitChar((n / 10) % 10), DigitChar(n % 10)]
  {
    var s := NatToString(n);
    var p := NatToString(n / 10);
    assert s == p + [DigitChar(n % 10)];
    assert p[|p| - 1] == DigitChar((n / 10) % 10);
  }

  /** Leading zeros do not change the value of a digit string. */
  lemma {:induction false} LeadingZeroValue(s: string)
    requires AllDigits(s)
    ensures AllDigits("0" + s) && DigitsValue("0" + s) == DigitsValue(s)
    decreases |s|
  {
    var t := "0" + s;
    if s != [] {
      assert t[..|t| - 1] == "0" + s[..|s| - 1];
      LeadingZeroValue(s[..|s| - 1]);
    }
  }

  /** 10 to the power k, as a natural number. */
  function TenPow(k: nat): (p: nat)
    ensures p >= 1
  {
    if k == 0 then 1 else 10 * TenPow(k - 1)
  }

  /** A number below 10^k has at most k digits. */
  lemma {:induction false} NatToStringShort(n: nat, k: nat)
    requires k >= 1 && n < TenPow(k)
    ensures |NatToString(n)| <= k
    decreases k
  {
    if n >= 10 {
      assert n / 10 < TenPow(k - 1);
      NatToStringShort(n / 10, k - 1);
    }
  }

  /** A number of at least 10^(k-1) has at least k digits. */
  lemma {:induction false} NatToStringLong(n: nat, k: nat)
    requires k >= 1 && n >= TenPow(k - 1)
    ensures |NatToString(n)| >= k
    decreases k
  {
    if k > 1 {
      assert n >= 10;
      assert n / 10 >= TenPow(k - 2);
      NatToStringLong(n / 10, k - 1);
    }
  }

  /** `s.padStart(width, c)`. */
  function PadStart(s: string, width: nat, c: char): (r: string)
    ensures |r| == if |s| >= width then |s| else width
    ensures r[|r| - |s|..] == s
    ensures forall i :: 0 <= i < |r| - |s| ==> r[i] == c
    decreases width - |s|
  {
    if |s| >= width then s else PadStart([c] + s, width, c)
  }

  /** Padding a digit string with zeros keeps its value. */
  lemma {:induction false} PadStartZerosValue(s: string, width: nat)
    requires AllDigits(s)
    ensures AllDigits(PadStart(s, width, '0'))
    ensures DigitsValue(PadStart(s, width, '0')) == DigitsValue(s)
    decreases width - |s|
  {
    if |s| < width {
      LeadingZeroValue(s);
      PadStartZerosValue("0" + s, width);
    }
  }

  /**
   * `String(n).padStart(2, '0')`, the two-digit month and day fields of an ISO date:
   * the two digits of n below 100, the plain decimal text from 100 on.
   */
  function Pad2(n: nat): (r: string)
    ensures AllDigits(r) && |r| >= 2 && DigitsValue(r) == n
    ensures n < 100 ==> |r| == 2
  {
    if n < 100 then
      TwoDigitsValue(n);
      [DigitChar(n / 10), DigitChar(n % 10)]
    else
      NatToStringValue(n);
      NatToString(n)
  }

  lemma TwoDigitsValue(n: nat)
    requires n < 100
    ensures DigitsValue([DigitChar(n / 10), DigitChar(n % 10)]) == n
  {
    var s := [DigitChar(n / 10), DigitChar(n % 10)];
    assert s[..1] == [DigitChar(n / 10)];
    assert [DigitChar(n / 10)][..0] == [];
    assert DigitsValue(s[..1]) == n / 10;
    assert DigitsValue(s) == (n / 10) * 10 + n % 10;
  }

  /** `Pad2` is `padStart(2, '0')` applied to the decimal text. */
  lemma Pad2IsPadStart(n: nat)
    ensures Pad2(n) == PadStart(NatToString(n), 2, '0')
  {
    if n < 10 {
      assert NatToString(n) == [DigitChar(n)];
      assert PadStart([DigitChar(n)], 2, '0') == PadStart(['0', DigitChar(n)], 2, '0');
    } else if n < 100 {
      Pad2TwoDigits(n);
    }
  }

  lemma Pad2TwoDigits(n: nat)
    requires 10 <= n < 100
    ensures NatToString(n) == [DigitChar(n / 10), DigitChar(n % 10)]
  {
    var s := NatToString(n);
    NatToStringShort(n, 2);
    NatToStringLastTwo(n);
    assert s == s[|s| - 2..];
  }

  /**
   * Characters removed by `String.prototype.trim` and skipped by `parseFloat`/`parseInt`:
   * the ECMAScript WhiteSpace and LineTerminator code points.
   */
  predicate IsJsWhiteSpace(c: char) {
    c == '\t' || c == '\n' || c == '\U{000B}' || c == '\U{000C}' || c == '\r' || c == ' '
    || c == '\U{00A0}' || c == '\U{1680}' || ('\U{2000}' <= c <= '\U{200A}')
    || c == '\U{2028}' || c == '\U{2029}' || c == '\U{202F}' || c == '\U{205F}'
    || c == '\U{3000}' || c == '\U{FEFF}'
  }

  function TrimStart(s: string): (r: string)
    ensures |r| <= |s|
  {
    if s != [] && IsJsWhiteSpace(s[0]) then TrimStart(s[1..]) else s
  }

  function TrimEnd(s: string): (r: string)
    ensures |r| <= |s|
  {
    if s != [] && IsJsWhiteSpace(s[|s| - 1]) then TrimEnd(s[..|s| - 1]) else s
  }

  /** `s.trim()`. */
  function Trim(s: string): (r: string)
    ensures |r| <= |s|
  {
    TrimEnd(TrimStart(s))
  }

  /** `trimStart` drops a leading run of white space and nothing else. */
  lemma {:induction false} TrimStartShape(s: string)
    ensures var r := TrimStart(s);
      r == s[|s| - |r|..] && (r != [] ==> !IsJsWhiteSpace(r[0]))
      && forall i :: 0 <= i < |s| - |r| ==> IsJsWhiteSpace(s[i])
    decreases |s|
  {
    if s != [] && IsJsWhiteSpace(s[0]) {
      TrimStartShape(s[1..]);
    }
  }

  /** `trimEnd` drops a trailing run of white space and nothing else. */
  lemma {:induction false} TrimEndShape(s: string)
    ensures var r := TrimEnd(s);
      r == s[..|r|] && (r != [] ==> !IsJsWhiteSpace(r[|r| - 1]))
      && forall i :: |r| <= i < |s| ==> IsJsWhiteSpace(s[i])
    decreases |s|
  {
    if s != [] && IsJsWhiteSpace(s[|s| - 1]) {
      TrimEndShape(s[..|s| - 1]);
    }
  }

  lemma DigitNotSpace(c: char)
    requires IsDigit(c) || c == '.' || c == '-' || c == '+'
    ensures !IsJsWhiteSpace(c)
  {
  }

  /** A digit string has nothing to trim. */
  lemma TrimDigits(s: string)
    requires AllDigits(s)
    ensures TrimStart(s) == s && TrimEnd(s) == s && Trim(s) == s
  {
    if s != [] {
      DigitNotSpace(s[0]);
      DigitNotSpace(s[|s| - 1]);
    }
  }

  /** `c.toLowerCase()` for ASCII and Latin-1 letters. */
  function LowerChar(c: char): char {
    if 'A' <= c <= 'Z' || ('\U{00C0}' <= c <= '\U{00DE}' && c != '\U{00D7}')
    then ((c as int) + 32) as char
    else c
  }

  /**
   * `c.toUpperCase()` for ASCII and Latin-1 letters, and for the two other letters whose
   * capital is an ASCII letter: dotless 'ı' (U+0131) and long 'ſ' (U+017F).
   */
  function UpperChar(c: char): char {
    if 'a' <= c <= 'z' || ('\U{00E0}' <= c <= '\U{00FE}' && c != '\U{00F7}')
    then ((c as int) - 32) as char
    else if c == '\U{0131}' then 'I'
    else if c == '\U{017F}' then 'S'
    else c
  }

  function ToLower(s: string): (r: string)
    ensures |r| == |s| && forall i :: 0 <= i < |s| ==> r[i] == LowerChar(s[i])
  {
    seq(|s|, i requires 0 <= i < |s| => LowerChar(s[i]))
  }

  function ToUpper(s: string): (r: string)
    ensures |r| == |s| && forall i :: 0 <= i < |s| ==> r[i] == UpperChar(s[i])
  {
    seq(|s|, i requires 0 <= i < |s| => UpperChar(s[i]))
  }

  /** `s.startsWith(prefix)`. */
  predicate StartsWith(s: string, prefix: string) {
    |prefix| <= |s| && s[..|prefix|] == prefix
  }

  /** `s.includes(sub)`. */
  predicate Contains(s: string, sub: string)
    decreases |s|
  {
    StartsWith(s, sub) || (s != [] && Contains(s[1..], sub))
  }

  /** The first position of c in s, if any (`s.indexOf(c)` with -1 as None). */
  function IndexOfChar(s: string, c: char): (r: int)
    ensures -1 <= r < |s|
    ensures r == -1 <==> c !in s
    ensures r >= 0 ==> s[r] == c && c !in s[..r]
  {
    if s == [] then -1
    else if s[0] == c then 0
    else var k := IndexOfChar(s[1..], c); if k == -1 then -1 else k + 1
  }

  /** `s.split(sep)` for a one-character separator: the pieces between separators. */
  function Split(s: string, sep: char): (parts: seq<string>)
    ensures |parts| >= 1
    ensures sep !in s ==> parts == [s]
    ensures sep in s ==> |parts| >= 2
    decreases |s|
  {
    var k := IndexOfChar(s, sep);
    if k == -1 then [s] else [s[..k]] + Split(s[k + 1..], sep)
  }

  lemma SplitCons(a: string, sep: char, b: string)
    requires sep !in a
    ensures Split(a + [sep] + b, sep) == [a] + Split(b, sep)
  {
    var s := a + [sep] + b;
    assert s[..|a|] == a;
    assert s[|a|] == sep;
    assert IndexOfChar(s, sep) == |a|;
    assert s[|a| + 1..] == b;
  }

  /** `s.replace(from, to)` with a one-character string pattern: only the first occurrence. */
  function ReplaceFirst(s: string, from: char, to: char): (r: string)
    ensures |r| == |s|
  {
    var k := IndexOfChar(s, from);
    if k == -1 then s else s[..k] + [to] + s[k + 1..]
  }

  /** Only the first occurrence is replaced: whatever follows it is kept as it is. */
  lemma ReplaceFirstAt(a: string, from: char, to: char, b: string)
    requires from !in a
    ensures ReplaceFirst(a + [from] + b, from, to) == a + [to] + b
  {
    var s := a + [from] + b;
    assert s[..|a|] == a && s[|a|] == from;
    assert IndexOfChar(s, from) == |a|;
    assert s[|a| + 1..] == b;
  }

  /** The number of occurrences of c in s. */
  function CountChar(s: string, c: char): nat {
    if s == [] then 0 else (if s[0] == c then 1 else 0) + CountChar(s[1..], c)
  }

  lemma {:induction false} CountCharAppend(a: string, b: string, c: char)
    ensures CountChar(a + b, c) == CountChar(a, c) + CountChar(b, c)
    decreases |a|
  {
    if a == [] {
      assert a + b == b;
    } else {
      assert (a + b)[1..] == a[1..] + b;
      CountCharAppend(a[1..], b, c);
    }
  }

  lemma {:induction false} CountCharAbsent(s: string, c: char)
    requires c !in s
    ensures CountChar(s, c) == 0
    decreases |s|
  {
    if s != [] {
      CountCharAbsent(s[1..], c);
    }
  }

  /** Length in UTF-16 code units, JavaScript's `s.length`. */
  function Utf16Length(s: string): (n: nat)
    ensures n >= |s|
  {
    if s == [] then 0 else (if s[0] as int > 0xFFFF then 2 else 1) + Utf16Length(s[1..])
  }

  lemma {:induction false} Utf16LengthAppend(a: string, b: string)
    ensures Utf16Length(a + b) == Utf16Length(a) + Utf16Length(b)
    decreases |a|
  {
    if a == [] {
      assert a + b == b;
    } else {
      assert (a + b)[1..] == a[1..] + b;
      Utf16LengthAppend(a[1..], b);
    }
  }
}
