/**
  Text produced by JavaScript's number-to-string conversions: the decimal rendering of
  `Date.now()` and the base-36 fragments cut from `Math.random().toString(36)`.
 */
module Text {
  import opened Results

  predicate IsDigit(c: char) { '0' <= c <= '9' }

  predicate AllDigits(s: string) { forall i :: 0 <= i < |s| ==> IsDigit(s[i]) }

  function DigitChar(d: nat): (c: char)
    requires d < 10
    ensures IsDigit(c)
  {
    (48 + d) as char
  }

  function DigitValue(c: char): (d: nat)
    requires IsDigit(c)
    ensures d < 10 && DigitChar(d) == c
  {
    c as int - 48
  }

  /** The decimal numeral of `n`, as `String(n)` renders a non-negative integer. */
  function Decimal(n: nat): string
  {
    if n < 10 then [DigitChar(n)] else Decimal(n / 10) + [DigitChar(n % 10)]
  }

  /** A canonical numeral: only digits, and no leading zero unless the numeral is "0". */
  predicate Canonical(s: string)
  {
    |s| > 0 && AllDigits(s) && (s[0] == '0' ==> |s| == 1)
  }

  /** The value of a string of decimal digits. */
  function ParseDecimal(s: string): nat
    requires AllDigits(s)
  {
    if s == [] then 0 else ParseDecimal(s[..|s| - 1]) * 10 + DigitValue(s[|s| - 1])
  }

  /** Every rendering is canonical, and it starts with '0' only for zero. */
  lemma {:induction false} DecimalIsCanonical(n: nat)
    ensures Canonical(Decimal(n))
    ensures Decimal(n)[0] == '0' <==> n == 0
  {
    if n >= 10 {
      DecimalIsCanonical(n / 10);
      var p := Decimal(n / 10);
      assert Decimal(n) == p + [DigitChar(n % 10)];
      assert Decimal(n)[0] == p[0];
    }
  }

  /** Reading a rendering back gives the number that was rendered. */
  lemma {:induction false} ParseDecimalOfDecimal(n: nat)
    ensures Canonical(Decimal(n))
    ensures ParseDecimal(Decimal(n)) == n
  {
    DecimalIsCanonical(n);
    if n >= 10 {
      ParseDecimalOfDecimal(n / 10);
      var s := Decimal(n);
      assert s[..|s| - 1] == Decimal(n / 10);
    }
  }

  lemma {:induction false} ParseDecimalPositive(s: string)
    requires Canonical(s) && s[0] != '0'
    ensures ParseDecimal(s) > 0
  {
    if |s| > 1 {
      var p := s[..|s| - 1];
      assert p[0] == s[0];
      ParseDecimalPositive(p);
    }
  }

  /** Rendering the value of a canonical numeral gives that numeral back. */
  lemma {:induction false} DecimalOfParseDecimal(s: string)
    requires Canonical(s)
    ensures Decimal(ParseDecimal(s)) == s
  {
    var v := ParseDecimal(s);
    var last := s[|s| - 1];
    if |s| == 1 {
      assert s[..0] == [];
      assert s == [last];
    } else {
      var p := s[..|s| - 1];
      assert p[0] == s[0];
      ParseDecimalPositive(p);
      DecimalOfParseDecimal(p);
      assert v == ParseDecimal(p) * 10 + DigitValue(last);
      assert v / 10 == ParseDecimal(p) && v % 10 == DigitValue(last);
      assert s == p + [last];
    }
  }

  /** Two canonical numerals with the same value are the same numeral. */
  lemma CanonicalInjective(a: string, b: string)
    requires Canonical(a) && Canonical(b)
    requires ParseDecimal(a) == ParseDecimal(b)
    ensures a == b
  {
    DecimalOfParseDecimal(a);
    DecimalOfParseDecimal(b);
  }

  predicate IsBase36Char(c: char) { '0' <= c <= '9' || 'a' <= c <= 'z' }

  /**
    What `Math.random().toString(36).substr(2, 9)` can yield: at most nine base-36
    digits (fewer when the fraction has a short expansion).
   */
  predicate IsRandomToken(s: string)
  {
    |s| <= 9 && forall i :: 0 <= i < |s| ==> IsBase36Char(s[i])
  }

  /** The position of the first `c` in `s`, if any. */
  function IndexOf(s: string, c: char): (r: Option<nat>)
    ensures r.Some? ==> r.value < |s| && s[r.value] == c
    ensures r.Some? ==> forall j :: 0 <= j < r.value ==> s[j] != c
    ensures r.None? ==> forall j :: 0 <= j < |s| ==> s[j] != c
  {
    if s == [] then None
    else if s[0] == c then Some(0)
    else match IndexOf(s[1..], c)
      case None => None
      case Some(i) => Some(i + 1)
  }
}
