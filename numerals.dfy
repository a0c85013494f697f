/** Decimal digit strings: their value, Python's `str(n)` for integers and the
    matching `int(s)` parse. Shared by the amount parser and the order payload. */
module Numerals {
  import opened Base

  predicate IsDigit(c: char) {
    '0' <= c <= '9'
  }

  predicate AllDigits(s: string) {
    forall i :: 0 <= i < |s| ==> IsDigit(s[i])
  }

  function DigitValue(c: char): (d: nat)
    requires IsDigit(c)
    ensures d < 10
  {
    (c as int) - ('0' as int)
  }

  function DigitChar(d: nat): (c: char)
    requires d < 10
    ensures IsDigit(c) && DigitValue(c) == d
  {
    (('0' as int) + d) as char
  }

  function Pow10(k: nat): (p: nat)
    ensures p >= 1
  {
    if k == 0 then 1 else 10 * Pow10(k - 1)
  }

  lemma {:induction false} Pow10Add(a: nat, b: nat)
    ensures Pow10(a + b) == Pow10(a) * Pow10(b)
  {
    if b > 0 {
      Pow10Add(a, b - 1);
      calc {
        Pow10(a + b);
        10 * Pow10(a + b - 1);
        10 * (Pow10(a) * Pow10(b - 1));
        Pow10(a) * (10 * Pow10(b - 1));
      }
    }
  }

  /** The number a string of decimal digits denotes, most significant digit first
      (the empty string denotes 0). It is below 10 to the power of its length. */
  function DigitsValue(s: string): (n: nat)
    requires AllDigits(s)
    ensures n < Pow10(|s|)
  {
    if s == [] then 0
    else
      var init := s[..|s| - 1];
      assert AllDigits(init);
      var m := DigitsValue(init);
      assert m * 10 + DigitValue(s[|s| - 1]) < Pow10(|s|) by {
        assert m + 1 <= Pow10(|init|);
        assert (m + 1) * 10 <= Pow10(|init|) * 10;
      }
      m * 10 + DigitValue(s[|s| - 1])
  }

  /** Concatenating digit strings shifts the first by the length of the second. */
  lemma {:induction false} DigitsValueAppend(a: string, b: string)
    requires AllDigits(a) && AllDigits(b)
    ensures AllDigits(a + b)
    ensures DigitsValue(a + b) == DigitsValue(a) * Pow10(|b|) + DigitsValue(b)
  {
    assert AllDigits(a + b) by {
      forall i | 0 <= i < |a + b| ensures IsDigit((a + b)[i]) {
        if i < |a| { assert (a + b)[i] == a[i]; } else { assert (a + b)[i] == b[i - |a|]; }
      }
    }
    if b == [] {
      assert a + b == a;
    } else {
      var b', last := b[..|b| - 1], b[|b| - 1];
      assert AllDigits(b');
      assert (a + b)[..|a + b| - 1] == a + b';
      assert (a + b)[|a + b| - 1] == last;
      DigitsValueAppend(a, b');
      ShiftDigit(DigitsValue(a), DigitsValue(b'), Pow10(|b'|), DigitValue(last));
    }
  }

  lemma ShiftDigit(x: int, y: int, p: int, d: int)
    ensures (x * p + y) * 10 + d == x * (10 * p) + (y * 10 + d)
  {
  }

  /** Python's `str(n)` for a non-negative integer: the canonical decimal
      numeral, without leading zeros, that denotes n. */
  function NatToString(n: nat): (s: string)
    ensures |s| > 0 && AllDigits(s)
    ensures DigitsValue(s) == n
    ensures |s| > 1 ==> s[0] != '0'
  {
    if n < 10 then [DigitChar(n)]
    else
      var t := NatToString(n / 10);
      var s := t + [DigitChar(n % 10)];
      assert s[..|s| - 1] == t;
      assert AllDigits(s) by {
        forall i | 0 <= i < |s| ensures IsDigit(s[i]) {
          if i < |t| { assert s[i] == t[i]; }
        }
      }
      s
  }

  /** A digit string as `str` writes one: at least one digit and no leading zero. */
  predicate IsCanonicalDigits(d: string) {
    |d| > 0 && AllDigits(d) && (|d| > 1 ==> d[0] != '0')
  }

  /** The text `str` gives an integer: canonical digits, after a minus sign
      when negative; "-0" is not such a text. */
  predicate IsCanonicalInt(s: string) {
    if |s| > 0 && s[0] == '-' then IsCanonicalDigits(s[1..]) && s[1..] != "0"
    else IsCanonicalDigits(s)
  }

  /** Python's `str(n)` for any integer: a minus sign before negative values. */
  function IntToString(n: int): (s: string)
    ensures |s| > 0 && (s[0] == '-' <==> n < 0)
    ensures IsCanonicalInt(s)
    ensures ParseInt(s) == Some(n)
  {
    if n < 0 then
      var t := NatToString(-n);
      assert ("-" + t)[1..] == t;
      "-" + t
    else NatToString(n)
  }

  /** Python's `int(s)` restricted to an optional minus sign and decimal digits;
      `None` outside the optional-minus-and-digits form. */
  function ParseInt(s: string): (r: Option<int>)
    ensures r.Some? ==> |s| > 0 && (r.value < 0 ==> s[0] == '-')
    ensures |s| > 0 && AllDigits(s) ==> r == Some(DigitsValue(s))
    ensures |s| > 1 && s[0] == '-' && AllDigits(s[1..]) ==> r == Some(0 - DigitsValue(s[1..]))
  {
    if |s| > 0 && s[0] == '-' then
      if |s| > 1 && AllDigits(s[1..]) then Some(0 - DigitsValue(s[1..])) else None
    else if |s| > 0 && AllDigits(s) then Some(DigitsValue(s))
    else None
  }

  /** A digit string starting with a non-zero digit denotes a positive number. */
  lemma {:induction false} LeadingDigitPositive(d: string)
    requires |d| > 0 && AllDigits(d) && d[0] != '0'
    ensures DigitsValue(d) >= 1
  {
    if |d| > 1 {
      var init := d[..|d| - 1];
      assert init[0] == d[0] && AllDigits(init);
      LeadingDigitPositive(init);
    }
  }

  /** A canonical digit string is what `str` writes for its value. */
  lemma {:induction false} NatToStringOfDigits(d: string)
    requires IsCanonicalDigits(d)
    ensures NatToString(DigitsValue(d)) == d
  {
    var n := DigitsValue(d);
    var init, last := d[..|d| - 1], d[|d| - 1];
    assert AllDigits(init);
    assert n == DigitsValue(init) * 10 + DigitValue(last);
    if |d| == 1 {
      assert init == [];
      assert d == [last];
    } else {
      assert init[0] == d[0];
      LeadingDigitPositive(init);
      NatToStringOfDigits(init);
      assert n / 10 == DigitsValue(init) && n % 10 == DigitValue(last);
      assert d == init + [last];
    }
  }

  /** Every canonical integer text is `str` of the integer `int` reads from it:
      with the ensures of IntToString, the canonical texts are exactly the
      outputs of `str`, one per integer. */
  lemma CanonicalIntIsIntToString(s: string)
    requires IsCanonicalInt(s)
    ensures ParseInt(s).Some? && IntToString(ParseInt(s).value) == s
  {
    if |s| > 0 && s[0] == '-' {
      var d := s[1..];
      var v: int := DigitsValue(d);
      NatToStringOfDigits(d);
      assert v != 0;
      assert ParseInt(s) == Some(0 - v);
      assert IntToString(0 - v) == "-" + NatToString(v);
      assert s == "-" + d;
    } else {
      NatToStringOfDigits(s);
      assert ParseInt(s) == Some(DigitsValue(s));
    }
  }

  /** Two canonical numerals that differ denote different integers, so `str` loses nothing. */
  lemma IntToStringInjective(m: int, n: int)
    requires IntToString(m) == IntToString(n)
    ensures m == n
  {
    assert ParseInt(IntToString(m)) == Some(m);
  }
}
