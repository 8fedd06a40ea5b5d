/** Decimal text for non-negative integers: JavaScript's number-to-string conversion
    for the page and row counts placed in URLs, and unary `+` for file sizes. */
module Decimal {
  import opened Wrappers

  predicate IsDigit(c: char) { '0' <= c <= '9' }

  predicate AllDigits(s: string) { forall i :: 0 <= i < |s| ==> IsDigit(s[i]) }

  /** The canonical decimal form: non-empty, digits only, no leading zero unless it is "0". */
  predicate Canonical(s: string) {
    |s| > 0 && AllDigits(s) && (|s| > 1 ==> s[0] != '0')
  }

  function DigitChar(d: nat): (c: char)
    requires d < 10
    ensures IsDigit(c) && (c as int) - ('0' as int) == d
  {
    (('0' as int) + d) as char
  }

  function DigitValue(c: char): (d: nat)
    requires IsDigit(c)
    ensures d < 10
  {
    (c as int) - ('0' as int)
  }

  /** `${n}` for a non-negative integer n. */
  function NatToString(n: nat): (s: string)
    ensures Canonical(s)
    ensures s == "0" <==> n == 0
  {
    if n < 10 then [DigitChar(n)] else NatToString(n / 10) + [DigitChar(n % 10)]
  }

  /** The value of a string of digits (the empty string has value 0, as JavaScript's `+""` does). */
  function DigitsValue(s: string): nat
    requires AllDigits(s)
  {
    if s == [] then 0 else DigitsValue(s[..|s| - 1]) * 10 + DigitValue(s[|s| - 1])
  }

  /** Reading back what NatToString wrote gives the number again. */
  lemma {:induction false} DigitsValueOfNatToString(n: nat)
    ensures DigitsValue(NatToString(n)) == n
  {
    var s := NatToString(n);
    if n >= 10 {
      DigitsValueOfNatToString(n / 10);
      assert s[..|s| - 1] == NatToString(n / 10);
    }
  }

  lemma {:induction false} LeadingNonZeroIsPositive(s: string)
    requires |s| > 0 && AllDigits(s) && s[0] != '0'
    ensures DigitsValue(s) >= 1
  {
    if |s| > 1 {
      LeadingNonZeroIsPositive(s[..|s| - 1]);
    }
  }

  /** Every canonical decimal string is what NatToString writes for its value,
      so NatToString is a bijection between numbers and canonical strings. */
  lemma {:induction false} NatToStringOfDigitsValue(s: string)
    requires Canonical(s)
    ensures NatToString(DigitsValue(s)) == s
  {
    var t := s[..|s| - 1];
    var d := DigitValue(s[|s| - 1]);
    if |t| == 0 {
      assert s == [s[0]];
      assert DigitChar(d) == s[0];
    } else {
      LeadingNonZeroIsPositive(t);
      NatToStringOfDigitsValue(t);
      var n := DigitsValue(s);
      assert n == DigitsValue(t) * 10 + d;
      assert n / 10 == DigitsValue(t) && n % 10 == d;
      assert DigitChar(d) == s[|s| - 1];
      assert s == t + [s[|s| - 1]];
    }
  }

  /** JavaScript's unary `+` on a file's declared size: an absent size is NaN (None), a string
      of decimal digits is its value (the empty string is 0), anything else is NaN here. */
  function ToNumber(size: Option<string>): (r: Option<int>)
    ensures r.Some? ==> r.value >= 0
    ensures size.Some? && AllDigits(size.value) <==> r.Some?
  {
    match size
    case None => None
    case Some(s) => if AllDigits(s) then Some(DigitsValue(s)) else None
  }

  lemma ToNumberOfNatToString(n: nat)
    ensures ToNumber(Some(NatToString(n))) == Some(n)
  {
    DigitsValueOfNatToString(n);
  }
}
