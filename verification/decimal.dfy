/**
 * Decimal text for integers: Python's `str(n)` on a non-negative int (used by
 * `User.get_id`) and the `int(s)` coercion pydantic applies to the
 * `number_of_shares` form field.
 */
module Decimal {
  import opened Basics

  predicate IsDigit(c: char) {
    '0' <= c <= '9'
  }

  predicate AllDigits(s: string) {
    forall i :: 0 <= i < |s| ==> IsDigit(s[i])
  }

  function DigitChar(d: nat): (c: char)
    requires d < 10
    ensures IsDigit(c) && DigitValue(c) == d
  {
    "0123456789"[d]
  }

  function DigitValue(c: char): nat
    requires IsDigit(c)
  {
    c as int - '0' as int
  }

  /** `str(n)` for n >= 0: the shortest decimal numeral, no sign, no leading zero. */
  function NatToString(n: nat): (s: string)
    ensures |s| > 0 && AllDigits(s)
    ensures s[0] == '0' ==> n == 0
    ensures |s| > 1 ==> s[0] != '0'
    decreases n
  {
    if n < 10 then [DigitChar(n)] else NatToString(n / 10) + [DigitChar(n % 10)]
  }

  /** The value of a string of digits, most significant first. */
  function DigitsValue(s: string): nat
    requires AllDigits(s)
  {
    if s == [] then 0 else DigitsValue(s[..|s| - 1]) * 10 + DigitValue(s[|s| - 1])
  }

  /** A non-empty string of ASCII digits, read as a natural number. */
  function ParseNat(s: string): (r: Option<nat>)
    ensures r.Some? <==> |s| > 0 && AllDigits(s)
  {
    if |s| > 0 && AllDigits(s) then Some(DigitsValue(s)) else None
  }

  /**
   * Python's `int(s)` on text: an optional sign followed by at least one digit.
   * Surrounding whitespace and `_` separators, which Python also accepts, are
   * not part of this model.
   */
  function ParseInt(s: string): (r: Option<int>)
    ensures r.Some? <==>
      (|s| > 0 && AllDigits(s)) ||
      (|s| > 1 && (s[0] == '+' || s[0] == '-') && AllDigits(s[1..]))
    ensures |s| > 0 && AllDigits(s) ==> r == ParseNat(s)
    ensures |s| > 1 && s[0] == '-' && ParseNat(s[1..]).Some? ==> r == Some(-(ParseNat(s[1..]).value as int))
    ensures |s| > 1 && s[0] == '+' && ParseNat(s[1..]).Some? ==> r == Some(ParseNat(s[1..]).value as int)
  {
    if |s| > 1 && s[0] == '-' then
      match ParseNat(s[1..])
      case Some(n) => Some(-(n as int))
      case None => None
    else if |s| > 1 && s[0] == '+' then
      match ParseNat(s[1..])
      case Some(n) => Some(n)
      case None => None
    else
      match ParseNat(s)
      case Some(n) => Some(n)
      case None => None
  }

  lemma {:induction false} DigitsValueSnoc(s: string, c: char)
    requires AllDigits(s) && IsDigit(c)
    ensures AllDigits(s + [c])
    ensures DigitsValue(s + [c]) == DigitsValue(s) * 10 + DigitValue(c)
  {
    assert (s + [c])[..|s + [c]| - 1] == s;
  }

  /** Reading back the text of `str(n)` gives n. */
  lemma {:induction false} ParseNatString(n: nat)
    ensures ParseNat(NatToString(n)) == Some(n)
    decreases n
  {
    if n < 10 {
      assert DigitsValue([DigitChar(n)]) == DigitsValue([]) * 10 + n;
    } else {
      var prefix := NatToString(n / 10);
      ParseNatString(n / 10);
      DigitsValueSnoc(prefix, DigitChar(n % 10));
      assert DigitsValue(NatToString(n)) == n;
    }
  }

  /** A numeral whose first digit is not zero has a positive value. */
  lemma {:induction false} LeadingDigitPositive(s: string)
    requires |s| > 0 && AllDigits(s) && s[0] != '0'
    ensures DigitsValue(s) >= 1
    decreases |s|
  {
    if |s| > 1 {
      LeadingDigitPositive(s[..|s| - 1]);
    }
  }

  /** A numeral without a leading zero is the text of its own value: `str` has one answer. */
  lemma {:induction false} CanonicalNumeral(s: string, n: nat)
    requires ParseNat(s) == Some(n) && (|s| > 1 ==> s[0] != '0')
    ensures s == NatToString(n)
    decreases |s|
  {
    var prefix, c := s[..|s| - 1], s[|s| - 1];
    assert s == prefix + [c];
    if |s| == 1 {
      assert n == DigitValue(c);
    } else {
      LeadingDigitPositive(prefix);
      var v := DigitsValue(prefix);
      assert n == v * 10 + DigitValue(c);
      assert n / 10 == v && n % 10 == DigitValue(c);
      CanonicalNumeral(prefix, v);
    }
  }

  /** Two numbers with the same text are the same number. */
  lemma NatToStringInjective(m: nat, n: nat)
    requires NatToString(m) == NatToString(n)
    ensures m == n
  {
    ParseNatString(m);
    ParseNatString(n);
  }
}
