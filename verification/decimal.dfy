/** Decimal text for Java `int`s: `Integer.toString` and `Integer.parseInt`. */
module Decimal {
  import opened Base

  predicate IsDigit(c: char) {
    '0' <= c <= '9'
  }

  predicate AllDigits(s: string) {
    forall k :: 0 <= k < |s| ==> IsDigit(s[k])
  }

  /** Value of a string of decimal digits, most significant first. */
  function DigitsValue(s: string): nat
    requires AllDigits(s)
  {
    if |s| == 0 then 0
    else 10 * DigitsValue(s[..|s| - 1]) + (s[|s| - 1] as int - '0' as int)
  }

  /** The shortest decimal spelling of `n` (no leading zeros). */
  function ShowNat(n: nat): (s: string)
    ensures 0 < |s| && AllDigits(s)
    ensures |s| > 1 ==> s[0] != '0'
  {
    if n < 10 then [('0' as int + n) as char]
    else ShowNat(n / 10) + [('0' as int + n % 10) as char]
  }

  /** `Integer.toString(n)`: a minus sign for negatives, then the digits. */
  function ShowInt(n: int): (s: string)
    ensures 0 < |s|
    ensures s[0] == '-' <==> n < 0
    ensures n < 0 ==> AllDigits(s[1..])
    ensures n >= 0 ==> AllDigits(s)
  {
    if n < 0 then "-" + ShowNat(-n) else ShowNat(n)
  }

  /** The text of a numeral after its optional leading sign. */
  function Unsigned(s: string): (d: string)
    ensures |d| <= |s| && (|d| < |s| ==> s[0] == '-' || s[0] == '+')
  {
    if 0 < |s| && (s[0] == '-' || s[0] == '+') then s[1..] else s
  }

  /** An optional sign followed by one or more decimal digits. */
  predicate IsNumeral(s: string) {
    0 < |Unsigned(s)| && AllDigits(Unsigned(s))
  }

  /** The value a numeral denotes: its digits' value, negated after a `-`. */
  function NumeralValue(s: string): int
    requires IsNumeral(s)
  {
    if s[0] == '-' then 0 - DigitsValue(Unsigned(s)) else DigitsValue(Unsigned(s))
  }

  /**
   * `Integer.parseInt(s)`: an optional `+` or `-`, then one or more digits, and the value must fit
   * in an `int`. `None` stands for the `NumberFormatException` thrown otherwise.
   */
  function ParseInt(s: string): (r: Option<int>)
    ensures r.Some? <==> IsNumeral(s) && Int32Min <= NumeralValue(s) <= Int32Max
    ensures r.Some? ==> r.value == NumeralValue(s)
    ensures r.Some? ==> Int32Min <= r.value <= Int32Max
    ensures r.Some? ==> 0 < |s| && AllDigits(s[1..])
    ensures r.Some? ==> (s[0] == '-' || s[0] == '+' || IsDigit(s[0]))
    ensures r.Some? && s[0] == '-' ==> r.value <= 0
    ensures r.Some? && s[0] != '-' ==> r.value >= 0
  {
    if !IsNumeral(s) then None
    else if Int32Min <= NumeralValue(s) <= Int32Max then Some(NumeralValue(s))
    else None
  }

  /** What `Integer.parseInt` accepts and rejects, on a few lease texts. */
  lemma ParseIntExamples()
    ensures ParseInt("45") == Some(45)
    ensures ParseInt("+45") == Some(45)
    ensures ParseInt("045") == Some(45)
    ensures ParseInt("-45") == Some(-45)
    ensures ParseInt("-0") == Some(0)
    ensures ParseInt("") == None
    ensures ParseInt("-") == None
    ensures ParseInt("4a") == None
    ensures ParseInt(" 45") == None
  {
    assert DigitsValue("4") == 4;
    assert DigitsValue("45") == 45 by { assert "45"[..1] == "4"; }
    assert DigitsValue("04") == 4 by { assert "04"[..1] == "0"; }
    assert DigitsValue("045") == 45 by { assert "045"[..2] == "04"; }
    assert Unsigned("+45") == "45";
    assert Unsigned("-45") == "45";
    assert Unsigned("-0") == "0";
    assert !AllDigits("4a") by { assert !IsDigit("4a"[1]); }
    assert !AllDigits(" 45") by { assert !IsDigit(" 45"[0]); }
  }

  lemma {:induction false} DigitsValueOfShowNat(n: nat)
    ensures DigitsValue(ShowNat(n)) == n
  {
    if n >= 10 {
      var s := ShowNat(n);
      assert s[..|s| - 1] == ShowNat(n / 10);
      DigitsValueOfShowNat(n / 10);
    }
  }

  /** `Integer.parseInt(Integer.toString(n)) == n` for every `int`. */
  lemma ParseShowRoundTrip(n: Int32)
    ensures ParseInt(ShowInt(n)) == Some(n)
  {
    var s := ShowInt(n);
    if n < 0 {
      assert s[1..] == ShowNat(-(n as int));
      DigitsValueOfShowNat(-(n as int));
    } else {
      DigitsValueOfShowNat(n);
    }
  }
}
