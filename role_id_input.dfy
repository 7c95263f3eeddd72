/**
 * The role-ID form passes its text to Python's `int()`. This module models the
 * part of `int()` that the form relies on: an optional `+` or `-` followed by
 * one or more ASCII decimal digits, leading zeros allowed. Anything else is
 * refused, as `int()` refuses it with a `ValueError`.
 */
module RoleIdInput {
  import opened Wrappers

  predicate IsDigit(c: char) { '0' <= c <= '9' }

  predicate AllDigits(s: string) { forall i :: 0 <= i < |s| ==> IsDigit(s[i]) }

  /** The texts `int()` accepts in this model. */
  predicate IsIntegerLiteral(s: string) {
    if |s| > 0 && (s[0] == '+' || s[0] == '-') then |s| > 1 && AllDigits(s[1..])
    else |s| > 0 && AllDigits(s)
  }

  function DigitValue(c: char): (d: nat)
    requires IsDigit(c)
    ensures d < 10
  {
    c as int - '0' as int
  }

  function DigitChar(d: nat): (c: char)
    requires d < 10
    ensures IsDigit(c) && DigitValue(c) == d
  {
    ('0' as int + d) as char
  }

  /** The value of a string of decimal digits, most significant first. */
  function DigitsValue(s: string): nat
    requires AllDigits(s)
  {
    if s == [] then 0 else 10 * DigitsValue(s[..|s| - 1]) + DigitValue(s[|s| - 1])
  }

  /** Python's `int(text)` on the form's text: `None` stands for the `ValueError`. */
  function ParseInteger(text: string): (r: Option<int>)
    ensures r.Some? <==> IsIntegerLiteral(text)
    ensures r.Some? && text[0] == '-' ==> r.value <= 0
    ensures r.Some? && text[0] != '-' ==> r.value >= 0
  {
    if |text| > 0 && (text[0] == '+' || text[0] == '-') then
      if |text| > 1 && AllDigits(text[1..]) then
        var n: int := DigitsValue(text[1..]);
        Some(if text[0] == '-' then -n else n)
      else
        None
    else if |text| > 0 && AllDigits(text) then
      Some(DigitsValue(text))
    else
      None
  }

  /** The canonical decimal text of a natural number: no sign, no leading zero. */
  function ShowNat(n: nat): (s: string)
    ensures 0 < |s| && AllDigits(s)
    ensures |s| > 1 ==> s[0] != '0'
  {
    if n < 10 then [DigitChar(n)] else ShowNat(n / 10) + [DigitChar(n % 10)]
  }

  /** The canonical decimal text of an integer, as Python's `str()` writes it. */
  function ShowInteger(n: int): (s: string)
    ensures IsIntegerLiteral(s)
    ensures (s[0] == '-') <==> n < 0
  {
    if n < 0 then "-" + ShowNat(-n) else ShowNat(n)
  }

  function Pow10(k: nat): (p: nat)
    ensures p >= 1
  {
    if k == 0 then 1 else 10 * Pow10(k - 1)
  }

  /** A number below 10^k is written with at most k digits. */
  lemma {:induction false} ShowNatLength(n: nat, k: nat)
    requires 1 <= k && n < Pow10(k)
    ensures |ShowNat(n)| <= k
  {
    if n >= 10 {
      assert Pow10(k) == 10 * Pow10(k - 1);
      assert n / 10 < Pow10(k - 1);
      ShowNatLength(n / 10, k - 1);
    }
  }

  lemma {:induction false} DigitsValueOfShowNat(n: nat)
    ensures DigitsValue(ShowNat(n)) == n
  {
    if n >= 10 {
      DigitsValueOfShowNat(n / 10);
      var s := ShowNat(n);
      assert s[..|s| - 1] == ShowNat(n / 10);
    }
  }

  /** Parsing the text of any integer gives that integer back. */
  lemma ParseShowRoundTrip(n: int)
    ensures ParseInteger(ShowInteger(n)) == Some(n)
  {
    if n < 0 {
      DigitsValueOfShowNat(-n);
      assert ShowInteger(n)[1..] == ShowNat(-n);
    } else {
      DigitsValueOfShowNat(n);
    }
  }

  /** A leading zero does not change the value: `int("007") == 7`. */
  lemma {:induction false} LeadingZeroIgnored(s: string)
    requires AllDigits(s)
    ensures AllDigits("0" + s) && DigitsValue("0" + s) == DigitsValue(s)
  {
    if s != [] {
      var t := "0" + s;
      assert t[..|t| - 1] == "0" + s[..|s| - 1];
      LeadingZeroIgnored(s[..|s| - 1]);
    }
  }
}
