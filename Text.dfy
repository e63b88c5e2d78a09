/**
 * The two string operations the views use on numbers: the decimal rendering of a
 * non-negative integer (`n.toString()`) and left padding (`s.padStart(w, c)`), with
 * the decimal reading `Value` as their partner.
 */
module Text {

  predicate IsDigit(c: char)
  {
    '0' <= c <= '9'
  }

  predicate AllDigits(s: string)
  {
    forall i :: 0 <= i < |s| ==> IsDigit(s[i])
  }

  function DigitChar(d: nat): (c: char)
    requires d < 10
    ensures IsDigit(c) && c as int - '0' as int == d
  {
    ('0' as int + d) as char
  }

  /** The number a string of decimal digits denotes (most significant digit first). */
  function Value(s: string): nat
    requires AllDigits(s)
  {
    if s == [] then 0 else Value(s[..|s| - 1]) * 10 + (s[|s| - 1] as int - '0' as int)
  }

  /** `n.toString()` for a non-negative integer below 10^21, where it is plain decimal: its digits, without leading zeros. */
  function Decimal(n: nat): (s: string)
    ensures AllDigits(s) && |s| >= 1
    ensures n < 10 <==> |s| == 1
    ensures n < 100 <==> |s| <= 2
    ensures |s| > 1 ==> s[0] != '0'
  {
    if n < 10 then [DigitChar(n)] else Decimal(n / 10) + [DigitChar(n % 10)]
  }

  /** Reading back the decimal rendering gives the number. */
  lemma {:induction false} DecimalRoundTrip(n: nat)
    ensures Value(Decimal(n)) == n
  {
    if n >= 10 {
      var s := Decimal(n);
      assert s[..|s| - 1] == Decimal(n / 10);
      DecimalRoundTrip(n / 10);
    }
  }

  /** `n` copies of `c`. */
  function Repeat(c: char, n: nat): (r: string)
    ensures |r| == n && forall i :: 0 <= i < n ==> r[i] == c
  {
    if n == 0 then [] else [c] + Repeat(c, n - 1)
  }

  /** `s.padStart(width, fill)`: `s` preceded by enough copies of `fill` to reach `width`. */
  function PadStart(s: string, width: nat, fill: char): (r: string)
    ensures |r| == if |s| >= width then |s| else width
    ensures r[|r| - |s|..] == s
    ensures forall i :: 0 <= i < |r| - |s| ==> r[i] == fill
  {
    if |s| >= width then s else Repeat(fill, width - |s|) + s
  }

  /** A leading zero does not change the value of a digit string. */
  lemma {:induction false} LeadingZeroValue(s: string)
    requires AllDigits(s)
    ensures AllDigits(['0'] + s) && Value(['0'] + s) == Value(s)
  {
    if s != [] {
      var z := ['0'] + s;
      assert z[..|z| - 1] == ['0'] + s[..|s| - 1];
      LeadingZeroValue(s[..|s| - 1]);
    }
  }

  /** Any number of leading zeros leaves the value of a digit string unchanged. */
  lemma {:induction false} LeadingZerosValue(k: nat, s: string)
    requires AllDigits(s)
    ensures AllDigits(Repeat('0', k) + s) && Value(Repeat('0', k) + s) == Value(s)
  {
    if k > 0 {
      var rest := Repeat('0', k - 1) + s;
      assert Repeat('0', k) + s == ['0'] + rest;
      LeadingZerosValue(k - 1, s);
      LeadingZeroValue(rest);
    } else {
      assert Repeat('0', k) + s == s;
    }
  }

  /** Zero padding keeps a digit string a digit string and keeps its value. */
  lemma ZeroPadValue(s: string, width: nat)
    requires AllDigits(s)
    ensures AllDigits(PadStart(s, width, '0')) && Value(PadStart(s, width, '0')) == Value(s)
  {
    if |s| < width {
      LeadingZerosValue(width - |s|, s);
    }
  }

  /**
   * `n.toString().padStart(width, '0')`: the decimal digits of `n`, zero-padded on the
   * left to at least `width` characters.
   */
  function ZeroPadded(n: nat, width: nat): (s: string)
    ensures AllDigits(s) && Value(s) == n
    ensures |s| >= width && (n < 100 && width >= 2 ==> |s| == width)
    ensures n >= 100 ==> |s| >= 3
  {
    DecimalRoundTrip(n);
    ZeroPadValue(Decimal(n), width);
    PadStart(Decimal(n), width, '0')
  }
}
