/** Decimal notation for natural numbers: Python's `int(text)` on a field of
    ASCII digits, and `str(n)` for the field names built with f-strings. */
module Decimal {
  import opened Wrappers

  predicate IsDigit(c: char) {
    '0' <= c <= '9'
  }

  predicate AllDigits(s: string) {
    forall i :: 0 <= i < |s| ==> IsDigit(s[i])
  }

  function DigitValue(c: char): (d: nat)
    requires IsDigit(c)
    ensures d < 10
  {
    c as int - '0' as int
  }

  function DigitChar(d: nat): (c: char)
    requires d < 10
    ensures IsDigit(c) && DigitValue(c) == d
  {
    ('0' as int + d) as char
  }

  /** The value of a string of digits, most significant digit first. */
  function DigitsValue(s: string): nat
    requires AllDigits(s)
  {
    if |s| == 0 then 0 else DigitsValue(s[..|s| - 1]) * 10 + DigitValue(s[|s| - 1])
  }

  /** A field `int` accepts here: a non-empty run of ASCII digits, leading zeros allowed. */
  predicate Numeral(s: string) {
    |s| > 0 && AllDigits(s)
  }

  /** `int(s)` where `s` is a non-empty run of ASCII digits; None where the
      model treats `int` as raising ValueError (an empty field, any other character). */
  function ParseNat(s: string): (r: Option<nat>)
    ensures r.Some? <==> Numeral(s)
    ensures r.Some? ==> r.value == DigitsValue(s)
  {
    if Numeral(s) then Some(DigitsValue(s)) else None
  }

  /** Leading zeros do not change the value: `int("07") == int("7")`. */
  lemma {:induction false} LeadingZero(s: string)
    requires AllDigits(s)
    ensures AllDigits("0" + s) && DigitsValue("0" + s) == DigitsValue(s)
    decreases |s|
  {
    if |s| > 0 {
      var t := "0" + s;
      assert t[..|t| - 1] == "0" + s[..|s| - 1];
      LeadingZero(s[..|s| - 1]);
    }
  }

  /** `str(n)`: the shortest decimal notation of `n`. */
  function Show(n: nat): (r: string)
    ensures |r| > 0 && AllDigits(r)
  {
    if n < 10 then [DigitChar(n)] else Show(n / 10) + [DigitChar(n % 10)]
  }

  /** Reading back a number's notation gives the number. */
  lemma {:induction false} ParseShow(n: nat)
    ensures ParseNat(Show(n)) == Some(n)
    ensures DigitsValue(Show(n)) == n
  {
    var s := Show(n);
    if n < 10 {
      assert s[..0] == [] && s[0] == DigitChar(n);
      assert DigitsValue(s) == DigitsValue([]) * 10 + DigitValue(s[0]);
    } else {
      ParseShow(n / 10);
      assert s[..|s| - 1] == Show(n / 10);
    }
  }

  /** Different numbers have different notations. */
  lemma ShowInjective(m: nat, n: nat)
    requires Show(m) == Show(n)
    ensures m == n
  {
    ParseShow(m);
    ParseShow(n);
  }
}
