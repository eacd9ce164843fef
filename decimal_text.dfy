/** How the console messages render numbers.

    Every number the snippets interpolate into a template string is an
    integer (a calorie count, a health value, an option index), except the
    card's displayed amount, which is a number of cents divided by 100.
    JavaScript renders an integer as its decimal digits with a leading '-'
    when negative. The model renders cents / 100 as the exact decimal
    quotient with trailing zeros of the fraction dropped ("4", "4.5",
    "4.05"); JavaScript computes that quotient as a double and shows the
    same text only while the absolute value of the quotient is below 2^46.
    Each rendering comes with a parser that inverts it, and the round-trip
    lemmas show that the model's rendering loses nothing. */
module DecimalText {
  import opened Options

  predicate IsDigit(c: char) {
    '0' <= c <= '9'
  }

  predicate AllDigits(s: string) {
    forall i :: 0 <= i < |s| ==> IsDigit(s[i])
  }

  function DigitChar(d: nat): (c: char)
    requires d < 10
    ensures IsDigit(c) && DigitValue(c) == d
  {
    ('0' as int + d) as char
  }

  function DigitValue(c: char): (d: nat)
    requires IsDigit(c)
    ensures d < 10
  {
    c as int - '0' as int
  }

  /** The value of a string of decimal digits, most significant first. */
  function DigitsValue(s: string): nat
    requires AllDigits(s)
  {
    if s == [] then 0 else DigitsValue(s[..|s| - 1]) * 10 + DigitValue(s[|s| - 1])
  }

  /** The decimal text of a non-negative integer: at least one digit, and no
      leading zero except for zero itself. */
  function NatToString(n: nat): (s: string)
    ensures |s| >= 1 && AllDigits(s)
    ensures s[0] == '0' ==> n == 0 && s == "0"
  {
    if n < 10 then [DigitChar(n)] else NatToString(n / 10) + [DigitChar(n % 10)]
  }

  lemma {:induction false} NatToStringValue(n: nat)
    ensures DigitsValue(NatToString(n)) == n
  {
    if n >= 10 {
      var s := NatToString(n);
      assert s[..|s| - 1] == NatToString(n / 10);
      NatToStringValue(n / 10);
    }
  }

  /** The text of an integer as a template string shows it. */
  function IntToString(i: int): (s: string)
    ensures |s| >= 1 && (s[0] == '-' <==> i < 0)
    ensures i >= 0 ==> AllDigits(s)
    ensures i < 0 ==> AllDigits(s[1..])
  {
    if i < 0 then "-" + NatToString(-i) else NatToString(i)
  }

  /** Reads back what IntToString writes: an optional '-' and then digits. */
  function ParseInt(s: string): Option<int> {
    if |s| >= 2 && s[0] == '-' && AllDigits(s[1..]) then Some(0 - DigitsValue(s[1..]))
    else if |s| >= 1 && AllDigits(s) then Some(DigitsValue(s))
    else None
  }

  lemma IntToStringRoundTrip(i: int)
    ensures ParseInt(IntToString(i)) == Some(i)
  {
    var s := IntToString(i);
    if i < 0 {
      var digits := NatToString(-i);
      assert s[1..] == digits;
      NatToStringValue(-i);
      assert |s| >= 2 && s[0] == '-' && AllDigits(s[1..]);
    } else {
      NatToStringValue(i);
      assert s[0] != '-';
    }
  }

  lemma IntToStringInjective(i: int, j: int)
    ensures IntToString(i) == IntToString(j) <==> i == j
  {
    IntToStringRoundTrip(i);
    IntToStringRoundTrip(j);
  }

  /** The fractional part of a dollar amount with f cents: nothing for whole
      dollars, otherwise a point and the cents with a trailing zero dropped. */
  function FractionText(f: nat): string
    requires f < 100
  {
    if f == 0 then ""
    else if f % 10 == 0 then ['.', DigitChar(f / 10)]
    else ['.', DigitChar(f / 10), DigitChar(f % 10)]
  }

  /** The text of cents / 100, the amount a card displays for a payment. */
  function CentsToDollarText(cents: int): (s: string)
    ensures |s| >= 1 && (s[0] == '-' <==> cents < 0)
  {
    var magnitude := if cents < 0 then -cents else cents;
    (if cents < 0 then "-" else "") + NatToString(magnitude / 100) + FractionText(magnitude % 100)
  }

  /** Reads back an unsigned amount in dollars (one or two decimals allowed)
      as a number of cents. */
  function ParseUnsignedCents(s: string): Option<nat> {
    if |s| >= 3 && s[|s| - 2] == '.' && AllDigits(s[..|s| - 2]) && IsDigit(s[|s| - 1]) then
      Some(DigitsValue(s[..|s| - 2]) * 100 + DigitValue(s[|s| - 1]) * 10)
    else if |s| >= 4 && s[|s| - 3] == '.' && AllDigits(s[..|s| - 3]) && IsDigit(s[|s| - 2]) && IsDigit(s[|s| - 1]) then
      Some(DigitsValue(s[..|s| - 3]) * 100 + DigitValue(s[|s| - 2]) * 10 + DigitValue(s[|s| - 1]))
    else if |s| >= 1 && AllDigits(s) then
      Some(DigitsValue(s) * 100)
    else
      None
  }

  /** Reads back a possibly negative dollar amount as a number of cents. */
  function ParseDollarText(s: string): Option<int> {
    if |s| >= 1 && s[0] == '-' then
      match ParseUnsignedCents(s[1..])
      case Some(c) => Some(0 - c)
      case None => None
    else
      ParseUnsignedCents(s)
  }

  lemma UnsignedCentsRoundTrip(whole: nat, f: nat)
    requires f < 100
    ensures ParseUnsignedCents(NatToString(whole) + FractionText(f)) == Some(whole * 100 + f)
  {
    var w := NatToString(whole);
    var s := w + FractionText(f);
    NatToStringValue(whole);
    if f == 0 {
      assert s == w;
      assert |s| >= 3 ==> IsDigit(s[|s| - 2]);
      assert |s| >= 4 ==> IsDigit(s[|s| - 3]);
    } else if f % 10 == 0 {
      assert s[..|s| - 2] == w;
      assert s[|s| - 2] == '.';
    } else {
      assert s[..|s| - 3] == w;
      assert IsDigit(s[|s| - 2]);
      assert s[|s| - 3] == '.';
    }
  }

  lemma CentsRoundTrip(cents: int)
    ensures ParseDollarText(CentsToDollarText(cents)) == Some(cents)
  {
    var magnitude := if cents < 0 then -cents else cents;
    var whole, f := magnitude / 100, magnitude % 100;
    assert whole * 100 + f == magnitude;
    var body := NatToString(whole) + FractionText(f);
    UnsignedCentsRoundTrip(whole, f);
    assert ParseUnsignedCents(body) == Some(magnitude);
    var s := CentsToDollarText(cents);
    if cents < 0 {
      assert s == "-" + body;
      assert s[1..] == body;
    } else {
      assert s == body;
      assert IsDigit(body[0]);
    }
  }

  /** The displayed amount has a fraction exactly when the cents are not a
      whole number of dollars, and a fraction never ends in '0'. */
  lemma {:induction false} CentsTextCanonical(cents: int)
    ensures cents % 100 == 0 <==> '.' !in CentsToDollarText(cents)
    ensures cents % 100 != 0 ==> CentsToDollarText(cents)[|CentsToDollarText(cents)| - 1] != '0'
  {
    var magnitude := if cents < 0 then -cents else cents;
    var sign: string := if cents < 0 then "-" else "";
    var digits := NatToString(magnitude / 100);
    var f := magnitude % 100;
    var s := CentsToDollarText(cents);
    assert s == sign + digits + FractionText(f);
    assert magnitude % 100 == 0 <==> cents % 100 == 0;
    assert '.' !in sign + digits by {
      forall i | 0 <= i < |sign + digits|
        ensures (sign + digits)[i] != '.'
      {
        if i >= |sign| {
          assert (sign + digits)[i] == digits[i - |sign|];
          assert IsDigit(digits[i - |sign|]);
        }
      }
    }
    if f != 0 {
      assert s[|sign + digits|] == '.';
      assert s[|s| - 1] == if f % 10 == 0 then DigitChar(f / 10) else DigitChar(f % 10);
    } else {
      assert s == sign + digits;
    }
  }

  /** Paying a whole number of dollars as cents passes a multiple of 100,
      and dividing by 100 gives the dollars back. */
  lemma WholeDollarCents(dollars: int)
    ensures (dollars * 100) % 100 == 0 && (dollars * 100) / 100 == dollars
  {
  }

  /** An amount of whole dollars, paid in cents and displayed as cents / 100,
      shows as the plain integer text of the dollars. */
  lemma WholeDollarText(dollars: int)
    ensures CentsToDollarText(dollars * 100) == IntToString(dollars)
  {
    var cents := dollars * 100;
    var magnitude := if cents < 0 then -cents else cents;
    var d := if dollars < 0 then -dollars else dollars;
    assert magnitude == d * 100;
    assert magnitude / 100 == d && magnitude % 100 == 0;
  }
}
