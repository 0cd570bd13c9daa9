/**
  Int32.ToString() as IntDescriptionField uses it: the decimal digits of the
  value, most significant first, with a leading '-' for a negative value and
  no group separators.
 */
module Formatting {

  predicate IsDigit(c: char)
  {
    '0' <= c <= '9'
  }

  function DigitChar(d: nat): (c: char)
    requires d < 10
    ensures IsDigit(c) && c as int - '0' as int == d
  {
    ('0' as int + d) as char
  }

  function DigitValue(c: char): nat
    requires IsDigit(c)
  {
    c as int - '0' as int
  }

  /** The decimal digits of `n`, without leading zeros. */
  function NatToString(n: nat): (s: string)
    ensures |s| >= 1 && (s[0] == '0' <==> n == 0) && (n == 0 ==> |s| == 1)
    ensures forall i :: 0 <= i < |s| ==> IsDigit(s[i])
  {
    if n < 10 then [DigitChar(n)] else NatToString(n / 10) + [DigitChar(n % 10)]
  }

  /** The text of an integer: a '-' for a negative value, then the digits of its magnitude. */
  function IntToString(n: int): (s: string)
    ensures |s| >= 1 && (s[0] == '-' <==> n < 0)
    ensures forall i :: (if n < 0 then 1 else 0) <= i < |s| ==> IsDigit(s[i])
    ensures n < 0 ==> |s| >= 2
    ensures n != 0 ==> s[if n < 0 then 1 else 0] != '0'
    ensures IsCanonicalDecimal(s)
  {
    if n < 0 then "-" + NatToString(-n) else NatToString(n)
  }

  /** Reads a string of decimal digits back as a number. */
  function ParseNat(s: string): nat
    requires forall i :: 0 <= i < |s| ==> IsDigit(s[i])
  {
    if s == [] then 0 else 10 * ParseNat(s[..|s| - 1]) + DigitValue(s[|s| - 1])
  }

  /** The shape of an integer's text: an optional '-' and then digits. */
  predicate IsDecimal(s: string)
  {
    |s| >= 1 && forall i :: (if s[0] == '-' then 1 else 0) <= i < |s| ==> IsDigit(s[i])
  }

  /**
    The text Int32.ToString() gives: an optional '-' and at least one digit,
    with no leading zero except for "0" itself, and no "-0".
   */
  predicate IsCanonicalDecimal(s: string)
  {
    && IsDecimal(s)
    && var digits := if s[0] == '-' then s[1..] else s;
       && |digits| >= 1
       && (digits[0] == '0' ==> |digits| == 1 && s[0] != '-')
  }

  /** Reads the text of an integer back. */
  function ParseInt(s: string): int
    requires IsDecimal(s)
  {
    if s[0] == '-' then -(ParseNat(s[1..]) as int) else ParseNat(s)
  }

  lemma {:induction false} ParseNatToString(n: nat)
    ensures ParseNat(NatToString(n)) == n
  {
    if n >= 10 {
      var s := NatToString(n);
      assert s[..|s| - 1] == NatToString(n / 10);
      ParseNatToString(n / 10);
    }
  }

  /** The decimal text of an integer determines it. */
  lemma {:induction false} IntToStringRoundTrip(n: int)
    ensures ParseInt(IntToString(n)) == n
  {
    if n < 0 {
      assert IntToString(n)[1..] == NatToString(-n);
      ParseNatToString(-n);
    } else {
      ParseNatToString(n);
    }
  }

  /** The text of an integer holds no angle bracket, so escaping leaves it as it is. */
  lemma {:induction false} IntToStringHasNoBrackets(n: int)
    ensures '<' !in IntToString(n) && '>' !in IntToString(n)
  {
    var s := IntToString(n);
    forall i | 0 <= i < |s|
      ensures s[i] != '<' && s[i] != '>'
    {
      if i > 0 || n >= 0 {
        assert IsDigit(s[i]);
      }
    }
  }

  /** Every integer's decimal text reads back as that integer and holds no angle bracket. */
  lemma {:induction false} DecimalTextEverywhere()
    ensures forall n: int :: IsCanonicalDecimal(IntToString(n)) && ParseInt(IntToString(n)) == n
    ensures forall n: int :: '<' !in IntToString(n) && '>' !in IntToString(n)
  {
    forall n: int
      ensures IsCanonicalDecimal(IntToString(n)) && ParseInt(IntToString(n)) == n
      ensures '<' !in IntToString(n) && '>' !in IntToString(n)
    {
      IntToStringRoundTrip(n);
      IntToStringHasNoBrackets(n);
    }
  }

  /** Digits with no leading zero are the text of the number they denote. */
  lemma {:induction false} ParseNatCanonical(s: string)
    requires |s| >= 1 && forall i :: 0 <= i < |s| ==> IsDigit(s[i])
    requires s[0] == '0' ==> |s| == 1
    ensures NatToString(ParseNat(s)) == s
    decreases |s|
  {
    var front, last := s[..|s| - 1], s[|s| - 1];
    if |s| == 1 {
      assert front == [];
      assert NatToString(ParseNat(s)) == [DigitChar(DigitValue(last))];
    } else {
      assert front[0] == s[0];
      ParseNatCanonical(front);
      var m, n := ParseNat(front), ParseNat(s);
      assert m > 0;
      assert n == 10 * m + DigitValue(last);
      assert n / 10 == m && n % 10 == DigitValue(last);
      assert s == front + [last];
    }
  }

  /**
    A canonical decimal text is the text of the integer it denotes, so the
    integer determines its text.
   */
  lemma {:induction false} CanonicalDecimalUnique(s: string)
    requires IsCanonicalDecimal(s)
    ensures IntToString(ParseInt(s)) == s
  {
    if s[0] == '-' {
      var digits := s[1..];
      ParseNatCanonical(digits);
      assert ParseNat(digits) > 0;
      assert s == "-" + digits;
    } else {
      ParseNatCanonical(s);
    }
  }
}
