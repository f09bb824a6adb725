/**
 * Decimal text of integers: what `String(n)` and `JSON.stringify(n)` produce for a safe
 * integer `n` (magnitude below 2^53; larger numbers are not exact in JavaScript and from
 * 1e21 on are written with an exponent), and what `Number(raw)` and `JSON.parse(raw)`
 * read back from such text. Only integer text is modelled; every other string reads as
 * "not a number".
 */
module NumberText {
  import opened Wrappers

  predicate IsDigit(c: char) { '0' <= c <= '9' }

  function DigitChar(d: nat): (c: char)
    requires d < 10
    ensures IsDigit(c) && (c as int) - ('0' as int) == d
  {
    (('0' as int) + d) as char
  }

  function DigitValue(c: char): (d: nat)
    requires IsDigit(c)
    ensures d < 10 && DigitChar(d) == c
  {
    (c as int) - ('0' as int)
  }

  /** The shortest decimal text of `n`: no sign, no leading zero. */
  function NatText(n: nat): string
    decreases n
  {
    if n < 10 then [DigitChar(n)] else NatText(n / 10) + [DigitChar(n % 10)]
  }

  /** `String(n)` for a safe integer `n`. */
  function IntText(n: int): string
  {
    if n < 0 then "-" + NatText(-n) else NatText(n)
  }

  /** Digit text in JSON's integer form: at least one digit and no leading zero. */
  predicate IsNatText(s: string)
  {
    |s| > 0 && (forall i :: 0 <= i < |s| ==> IsDigit(s[i])) && (|s| > 1 ==> s[0] != '0')
  }

  function DigitsValue(s: string): nat
    requires forall i :: 0 <= i < |s| ==> IsDigit(s[i])
    decreases |s|
  {
    if s == [] then 0 else DigitsValue(s[..|s| - 1]) * 10 + DigitValue(s[|s| - 1])
  }

  /**
   * The integer that JSON integer text denotes (an optional minus sign and digits
   * without a leading zero), or None for any other string.
   */
  function ParseIntText(s: string): Option<int>
  {
    if IsNatText(s) then Some(DigitsValue(s))
    else if |s| > 1 && s[0] == '-' && IsNatText(s[1..]) then Some(0 - DigitsValue(s[1..]))
    else None
  }

  lemma {:induction false} NatTextRoundTrip(n: nat)
    ensures IsNatText(NatText(n)) && DigitsValue(NatText(n)) == n
    decreases n
  {
    if n >= 10 {
      NatTextRoundTrip(n / 10);
      var p := NatText(n / 10);
      var s := p + [DigitChar(n % 10)];
      assert s[..|s| - 1] == p;
      assert s[0] == p[0];
    }
  }

  lemma {:induction false} LeadingDigitPositive(s: string)
    requires IsNatText(s) && s[0] != '0'
    ensures DigitsValue(s) > 0
    decreases |s|
  {
    if |s| > 1 {
      var p := s[..|s| - 1];
      assert p[0] == s[0];
      LeadingDigitPositive(p);
    }
  }

  lemma {:induction false} DigitsTextRoundTrip(s: string)
    requires IsNatText(s)
    ensures NatText(DigitsValue(s)) == s
    decreases |s|
  {
    if |s| > 1 {
      var p := s[..|s| - 1];
      assert p[0] == s[0];
      LeadingDigitPositive(p);
      DigitsTextRoundTrip(p);
      var d := DigitValue(s[|s| - 1]);
      var n := DigitsValue(p) * 10 + d;
      assert n / 10 == DigitsValue(p) && n % 10 == d;
      assert s == p + [s[|s| - 1]];
    }
  }

  /** Reading back the text of an integer gives the integer. */
  lemma ParseIntTextOfIntText(n: int)
    ensures ParseIntText(IntText(n)) == Some(n)
  {
    if n < 0 {
      NatTextRoundTrip(-n);
      var s := IntText(n);
      assert s[1..] == NatText(-n);
      assert !IsNatText(s) by { assert !IsDigit(s[0]); }
    } else {
      NatTextRoundTrip(n);
    }
  }

  /**
   * Integer text read back and written again is the same text; "-0" is the one
   * integer text that reads as 0 and is written back as "0".
   */
  lemma IntTextOfParseIntText(s: string)
    requires ParseIntText(s).Some? && s != "-0"
    ensures IntText(ParseIntText(s).value) == s
  {
    if IsNatText(s) {
      DigitsTextRoundTrip(s);
    } else {
      var t := s[1..];
      assert s == "-" + t;
      assert t[0] != '0' by {
        if |t| == 1 { assert t == [t[0]] && t != "0"; }
      }
      LeadingDigitPositive(t);
      DigitsTextRoundTrip(t);
    }
  }

  /** Text that is the text of some integer reads as that integer. */
  lemma ParseIntTextOfAnyIntText(s: string)
    ensures forall n :: IntText(n) == s ==> ParseIntText(s) == Some(n)
  {
    forall n | IntText(n) == s
      ensures ParseIntText(s) == Some(n)
    {
      ParseIntTextOfIntText(n);
    }
  }

  /** "-0", the one integer text that is not the text of an integer, reads as 0. */
  lemma ParseNegativeZero()
    ensures ParseIntText("-0") == Some(0)
  {
    assert !IsNatText("-0") by { assert !IsDigit('-'); }
    assert "-0"[1..] == "0";
    assert DigitsValue("0") == 0 by { assert "0"[..0] == []; }
  }
}
