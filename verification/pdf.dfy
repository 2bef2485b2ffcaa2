/** The two string helpers of the report generator
    (internal/pdf/generator.go): decimal rendering of a set id and
    truncation of a URL to the width of its column. */
module Pdf {

  predicate IsDigit(c: char) {
    '0' <= c <= '9'
  }

  function DigitChar(d: nat): (c: char)
    requires d < 10
    ensures IsDigit(c)
  {
    ('0' as int + d) as char
  }

  function DigitValue(c: char): nat
    requires IsDigit(c)
  {
    c as int - '0' as int
  }

  ghost predicate AllDigits(s: string) {
    forall i :: 0 <= i < |s| ==> IsDigit(s[i])
  }

  /** A canonical decimal numeral: digits only, at least one, and no
      leading zero unless the numeral is "0" itself. */
  ghost predicate IsCanonical(s: string) {
    |s| >= 1 && AllDigits(s) && (s[0] == '0' ==> |s| == 1)
  }

  /** The number a string of digits denotes, read most significant first. */
  ghost function ValueOf(s: string): nat
    requires AllDigits(s)
  {
    if s == [] then 0 else ValueOf(s[..|s| - 1]) * 10 + DigitValue(s[|s| - 1])
  }

  /** The canonical decimal numeral of n. */
  function Decimal(n: nat): (r: string)
    ensures |r| >= 1 && AllDigits(r)
  {
    if n < 10 then [DigitChar(n)] else Decimal(n / 10) + [DigitChar(n % 10)]
  }

  /** Rendering then reading back gives n, and the rendering is canonical. */
  lemma {:induction false} DecimalRoundTrip(n: nat)
    ensures IsCanonical(Decimal(n)) && ValueOf(Decimal(n)) == n
  {
    if n >= 10 {
      DecimalRoundTrip(n / 10);
      var p := Decimal(n / 10);
      var s := Decimal(n);
      assert s == p + [DigitChar(n % 10)];
      assert s[..|s| - 1] == p;
      assert s[0] == p[0];
      ZeroNumeral(p);
    }
  }

  /** A canonical numeral that starts with '0' is "0" and denotes 0. */
  lemma ZeroNumeral(s: string)
    requires IsCanonical(s)
    ensures s[0] == '0' ==> ValueOf(s) == 0
  {
    if s[0] == '0' {
      assert s[..0] == [];
    }
  }

  /** A canonical numeral without a leading zero denotes at least 1. */
  lemma {:induction false} LeadingNonZero(s: string)
    requires AllDigits(s) && |s| >= 1 && s[0] != '0'
    ensures ValueOf(s) >= 1
  {
    if |s| > 1 {
      var p := s[..|s| - 1];
      assert p[0] == s[0];
      LeadingNonZero(p);
    }
  }

  /** Reading a canonical numeral then rendering gives it back: the
      canonical rendering of a number is unique. */
  lemma {:induction false} DecimalOfValue(s: string)
    requires IsCanonical(s)
    ensures Decimal(ValueOf(s)) == s
  {
    var last := s[|s| - 1];
    if |s| == 1 {
      assert s == [last];
      assert ValueOf(s) == DigitValue(last);
    } else {
      var p := s[..|s| - 1];
      assert p[0] == s[0];
      DecimalOfValue(p);
      LeadingNonZero(p);
      var v := ValueOf(s);
      assert v == ValueOf(p) * 10 + DigitValue(last);
      assert v / 10 == ValueOf(p) && v % 10 == DigitValue(last);
      assert DigitChar(v % 10) == last;
      assert s == p + [last];
    }
  }

  /** Decimal rendering of a signed integer: "-" and the digits of -n for a
      negative n, the canonical numeral otherwise. The source builds the
      digits from the least significant end by prepending. */
  method IntToString(n: int) returns (r: string)
    ensures n == 0 ==> r == "0"
    ensures n >= 0 ==> r == Decimal(n)
    ensures n < 0 ==> r == "-" + Decimal(-n)
    ensures n >= 0 ==> IsCanonical(r) && ValueOf(r) == n
    ensures n < 0 ==> |r| >= 2 && r[0] == '-' && IsCanonical(r[1..]) && ValueOf(r[1..]) == -n
  {
    if n == 0 {
      return "0";
    }

    var result: string := [];
    var negative := n < 0;
    var m := n;
    if negative {
      m := -n;
    }
    ghost var magnitude := m;

    while m > 0
      invariant m >= 0
      invariant (if m == 0 then [] else Decimal(m)) + result == Decimal(magnitude)
    {
      ghost var before := result;
      result := [DigitChar(m % 10)] + result;
      if m >= 10 {
        assert Decimal(m) + before == Decimal(m / 10) + result;
      }
      m := m / 10;
    }

    DecimalRoundTrip(magnitude);
    if negative {
      result := ['-'] + result;
      assert result[1..] == Decimal(magnitude);
    }
    return result;
  }

  /** A string that fits is returned as it is; a longer one keeps its first
      maxLen-3 bytes followed by "...", so it is exactly maxLen long. The
      source slices s[:maxLen-3], which panics when a string longer than
      maxLen meets a maxLen below 3; that case is excluded. */
  function TruncateString(s: string, maxLen: int): (r: string)
    requires |s| <= maxLen || maxLen >= 3
    ensures |r| <= maxLen
    ensures |s| <= maxLen ==> r == s
    ensures |s| > maxLen ==> |r| == maxLen && r[..maxLen - 3] <= s && r[maxLen - 3..] == "..."
  {
    if |s| <= maxLen then s else s[..maxLen - 3] + "..."
  }
}
