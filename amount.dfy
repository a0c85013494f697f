/** `pln_to_grosze` (app/main.py): exact decimal parsing of an amount in złoty,
    quantized to two fractional digits with Python's default `Decimal` context
    (round half to even, 28 significant digits) and converted to grosze. */
module Amount {
  import opened Base
  import opened Numerals

  /** The error the handler raises for text that is not an amount. */
  const InvalidAmount := HttpError(400, "Invalid amount")

  /** Precision of the default decimal context: `quantize` refuses a
      coefficient with more digits than this. */
  const Precision: nat := 28

  datatype Sign = Unsigned | Plus | Minus

  /** A decimal numeral as `Decimal` reads it: a sign, the digits before the
      point and, when a point is written, the digits after it. */
  datatype Numeral = Numeral(sign: Sign, whole: string, fraction: Option<string>) {
    /** At least one digit, on either side of the point. */
    predicate WellFormed() {
      && AllDigits(whole)
      && (fraction.Some? ==> AllDigits(fraction.value))
      && (whole != [] || (fraction.Some? && fraction.value != []))
    }

    function FractionDigits(): string {
      fraction.GetOr("")
    }

    /** The numeral's value times 10^|FractionDigits()|, with its sign. */
    function Scaled(): int
      requires WellFormed()
    {
      DigitsValueAppend(whole, FractionDigits());
      var n: int := DigitsValue(whole + FractionDigits());
      if sign == Minus then -n else n
    }
  }

  function SignText(sign: Sign): string {
    match sign
    case Unsigned => ""
    case Plus => "+"
    case Minus => "-"
  }

  /** The text of a numeral. */
  function Render(n: Numeral): string {
    SignText(n.sign) + UnsignedText(n)
  }

  /** The text of a numeral after its sign. */
  function UnsignedText(n: Numeral): string {
    n.whole + (if n.fraction.Some? then "." + n.fraction.value else "")
  }

  /** Splits off a leading `+` or `-`. */
  function SplitSign(s: string): (r: (Sign, string))
    ensures SignText(r.0) + r.1 == s
    ensures r.0 == Unsigned ==> r.1 == s
  {
    if |s| > 0 && s[0] == '+' then (Plus, s[1..])
    else if |s| > 0 && s[0] == '-' then (Minus, s[1..])
    else (Unsigned, s)
  }

  /** Reads the unsigned part of an amount: digits with at most one point and
      at least one digit. */
  function ParseUnsigned(sign: Sign, body: string): (r: Option<Numeral>)
    ensures r.Some? ==> r.value.WellFormed() && r.value.sign == sign && Render(r.value) == SignText(sign) + body
  {
    match IndexOf(body, '.')
    case None =>
      if body != [] && AllDigits(body) then Some(Numeral(sign, body, None)) else None
    case Some(i) =>
      var whole, fraction := body[..i], body[i + 1..];
      assert body == whole + "." + fraction;
      if AllDigits(whole) && AllDigits(fraction) && (whole != [] || fraction != [])
      then Some(Numeral(sign, whole, Some(fraction)))
      else None
  }

  /** Reads an amount: optional sign, then digits with at most one point and at
      least one digit. Anything else (letters, spaces, exponents, a bare point,
      the empty text) is refused. */
  function ParseNumeral(s: string): (r: Option<Numeral>)
    ensures r.Some? ==> r.value.WellFormed() && Render(r.value) == s
  {
    var (sign, body) := SplitSign(s);
    ParseUnsigned(sign, body)
  }

  /** Every well-formed numeral is read back from its text: together with the
      ensures of ParseNumeral, the accepted texts are exactly the rendered numerals. */
  lemma ParseRender(n: Numeral)
    requires n.WellFormed()
    ensures ParseNumeral(Render(n)) == Some(n)
  {
    SplitSignRender(n);
    ParseUnsignedText(n);
  }

  /** The sign of a rendered numeral is split off again: the text after it
      starts with a digit or the point. */
  lemma SplitSignRender(n: Numeral)
    requires n.WellFormed()
    ensures SplitSign(Render(n)) == (n.sign, UnsignedText(n))
  {
    var s, body := Render(n), UnsignedText(n);
    assert body[0] != '+' && body[0] != '-' by {
      if n.whole != [] { assert body[0] == n.whole[0] && IsDigit(n.whole[0]); }
      else { assert body[0] == '.'; }
    }
    if n.sign != Unsigned {
      assert s[0] == SignText(n.sign)[0];
      assert s[1..] == body;
    } else {
      assert s == body;
    }
  }

  /** The unsigned text of a numeral is read back as that numeral. */
  lemma ParseUnsignedText(n: Numeral)
    requires n.WellFormed()
    ensures ParseUnsigned(n.sign, UnsignedText(n)) == Some(n)
  {
    var body := UnsignedText(n);
    assert '.' !in n.whole;
    match n.fraction
    case None =>
      assert body == n.whole;
    case Some(f) =>
      assert body[..|n.whole|] == n.whole;
      assert body[|n.whole|] == '.';
      assert IndexOf(body, '.') == Some(|n.whole|);
      assert body[|n.whole| + 1..] == f;
  }

  /** `x` is the nearest integer to num/den, ties going to the even neighbour. */
  ghost predicate IsHalfEvenRounding(x: int, num: int, den: nat) {
    && 2 * Dist(x * den, num) <= den
    && (2 * Dist(x * den, num) == den ==> x % 2 == 0)
  }

  function Dist(a: int, b: int): nat {
    if a < b then b - a else a - b
  }

  /** n/d rounded half to even. */
  function RoundHalfEven(n: nat, d: nat): (q: nat)
    requires d > 0
    ensures IsHalfEvenRounding(q, n, d)
  {
    var q0, rem := n / d, n % d;
    assert q0 * d + rem == n;
    assert (q0 + 1) * d == q0 * d + d;
    if 2 * rem < d then q0
    else if 2 * rem > d then q0 + 1
    else if q0 % 2 == 0 then q0
    else q0 + 1
  }

  /** Half-even rounding has one answer: any integer meeting the predicate is RoundHalfEven's. */
  lemma HalfEvenRoundingUnique(x: int, n: nat, d: nat)
    requires d > 0
    requires IsHalfEvenRounding(x, n, d)
    ensures x == RoundHalfEven(n, d)
  {
    var q := RoundHalfEven(n, d);
    // both lie within d/2 of n, so x*d and q*d are at most d apart
    assert x * d - q * d == (x - q) * d;
    NeighboursOnly(x - q, d);
    // one apart would put both exactly at the midpoint, and they cannot both be even
  }

  /** A multiple of d within d of zero is -d, 0 or d. */
  lemma NeighboursOnly(k: int, d: nat)
    requires d > 0
    requires Dist(k * d, 0) <= d
    ensures -1 <= k <= 1
  {
  }

  /** The grosze magnitude `quantize` produces: exact when there are at most two
      fractional digits, rounded half to even otherwise. */
  function Magnitude(n: Numeral): nat
    requires n.WellFormed()
  {
    var k := |n.FractionDigits()|;
    DigitsValueAppend(n.whole, n.FractionDigits());
    var digits := DigitsValue(n.whole + n.FractionDigits());
    if k <= 2 then digits * Pow10(2 - k) else RoundHalfEven(digits, Pow10(k - 2))
  }

  /** `pln_to_grosze`: the amount in grosze, or the 400 "Invalid amount" error
      when the text is not a numeral or its quantized coefficient has more than
      28 digits. */
  function PlnToGrosze(text: string): (r: Result<int, HttpError>)
    ensures r.Err? ==> r.error == InvalidAmount
    ensures r.Ok? ==> ParseNumeral(text).Some? && Dist(r.value, 0) < Pow10(Precision)
  {
    match ParseNumeral(text)
    case None => Err(InvalidAmount)
    case Some(n) =>
      if Magnitude(n) >= Pow10(Precision) then Err(InvalidAmount) else Ok(Grosze(n))
  }

  /** `int(dec * 100)` for the quantized value: the magnitude with the numeral's sign. */
  function Grosze(n: Numeral): int
    requires n.WellFormed()
  {
    var m := Magnitude(n);
    if n.sign == Minus then 0 - m else m
  }

  /** The unsigned conversion is 100 times the written magnitude rounded half
      to even, and exact when at most two fractional digits are written. */
  lemma {:induction false} MagnitudeRounds(n: Numeral)
    requires n.WellFormed()
    ensures var k := |n.FractionDigits()|;
            var digits := Dist(n.Scaled(), 0);
            && IsHalfEvenRounding(Magnitude(n), 100 * digits, Pow10(k))
            && (k <= 2 ==> Magnitude(n) * Pow10(k) == 100 * digits)
  {
    var k := |n.FractionDigits()|;
    DigitsValueAppend(n.whole, n.FractionDigits());
    var digits := DigitsValue(n.whole + n.FractionDigits());
    assert Dist(n.Scaled(), 0) == digits;
    var m := Magnitude(n);
    if k <= 2 {
      Pow10Add(2 - k, k);
      assert Pow10(2) == 100;
      assert m == digits * Pow10(2 - k);
      assert m * Pow10(k) == digits * (Pow10(2 - k) * Pow10(k));
      assert Dist(m * Pow10(k), 100 * digits) == 0;
    } else {
      var d := Pow10(k - 2);
      Pow10Add(2, k - 2);
      assert Pow10(2) == 100;
      assert Pow10(k) == 100 * d;
      ScaledRounding(m, digits, d);
    }
  }

  /** Rounding is symmetric: negating both sides keeps a half-even rounding. */
  lemma NegatedRounding(m: int, digits: int, den: nat)
    requires IsHalfEvenRounding(m, 100 * digits, den)
    ensures IsHalfEvenRounding(-m, 100 * -digits, den)
    ensures m * den == 100 * digits ==> (-m) * den == 100 * -digits
  {
    assert (-m) * den == -(m * den);
    assert Dist(-(m * den), -(100 * digits)) == Dist(m * den, 100 * digits);
    assert m % 2 == 0 ==> (-m) % 2 == 0;
  }

  /** With its sign, the conversion of a numeral is 100 times its value rounded
      half to even: writing v = Scaled()/10^k for the value, 2·|g − 100·v| ≤ 1
      with ties on even g; with at most two fractional digits it is exact. */
  lemma {:induction false} GroszeRoundsHundredfold(n: Numeral)
    requires n.WellFormed()
    ensures var k := |n.FractionDigits()|;
            && IsHalfEvenRounding(Grosze(n), 100 * n.Scaled(), Pow10(k))
            && (k <= 2 ==> Grosze(n) * Pow10(k) == 100 * n.Scaled())
  {
    var k := |n.FractionDigits()|;
    var m: int := Magnitude(n);
    var digits: int := Dist(n.Scaled(), 0);
    MagnitudeRounds(n);
    if n.sign == Minus {
      assert n.Scaled() == -digits && Grosze(n) == -m;
      NegatedRounding(m, digits, Pow10(k));
    } else {
      assert n.Scaled() == digits && Grosze(n) == m;
    }
  }

  /** What `pln_to_grosze` returns is 100 times the amount written, rounded half
      to even, exact for at most two fractional digits, and below 10^28 in size. */
  lemma PlnToGroszeRoundsHundredfold(text: string)
    requires PlnToGrosze(text).Ok?
    ensures ParseNumeral(text).Some?
    ensures var n := ParseNumeral(text).value;
            var k := |n.FractionDigits()|;
            var g := PlnToGrosze(text).value;
            && IsHalfEvenRounding(g, 100 * n.Scaled(), Pow10(k))
            && (k <= 2 ==> g * Pow10(k) == 100 * n.Scaled())
            && Dist(g, 0) < Pow10(Precision)
  {
    GroszeRoundsHundredfold(ParseNumeral(text).value);
  }

  /** Rounding digits/d and scaling by 100 is rounding 100·digits/(100·d). */
  lemma ScaledRounding(m: nat, digits: nat, d: nat)
    requires d > 0
    requires IsHalfEvenRounding(m, digits, d)
    ensures IsHalfEvenRounding(m, 100 * digits, 100 * d)
  {
    assert m * (100 * d) == 100 * (m * d);
    assert Dist(100 * (m * d), 100 * digits) == 100 * Dist(m * d, digits);
  }

  /** Every well-formed numeral whose rounded value fits the context is accepted:
      the 400 error is raised exactly for malformed text and oversized amounts. */
  lemma PlnToGroszeFailsOnlyWhenInvalid(text: string)
    ensures PlnToGrosze(text).Err? <==>
              ParseNumeral(text).None? || Magnitude(ParseNumeral(text).value) >= Pow10(Precision)
    ensures PlnToGrosze(text).Err? ==> PlnToGrosze(text).error == HttpError(400, "Invalid amount")
  {
  }

  /** A well-formed numeral whose quantized coefficient fits the context is
      accepted, and converted to its signed grosze. */
  lemma PlnToGroszeAcceptsNumerals(n: Numeral)
    requires n.WellFormed() && Magnitude(n) < Pow10(Precision)
    ensures PlnToGrosze(Render(n)) == Ok(Grosze(n))
  {
    ParseRender(n);
  }

  /** Amounts below 100 złoty fit the decimal context with room to spare. */
  lemma PrecisionRoom()
    ensures Pow10(Precision) >= 10000
  {
    Pow10Add(4, Precision - 4);
    assert Pow10(4) == 10000;
  }

  /** "12.34" is 1234 grosze. */
  lemma PlnToGroszeTwelveThirtyFour()
    ensures PlnToGrosze("12.34") == Ok(1234)
  {
    var n := Numeral(Unsigned, "12", Some("34"));
    assert Render(n) == "12.34";
    MagnitudeTwelveThirtyFour();
    PrecisionRoom();
    ConvertsTo(n, 1234);
  }

  /** "0.1" is 10 grosze: one fractional digit is scaled, not rounded. */
  lemma PlnToGroszeOneTenth()
    ensures PlnToGrosze("0.1") == Ok(10)
  {
    var n := Numeral(Unsigned, "0", Some("1"));
    assert Render(n) == "0.1";
    assert "01"[..1] == "0" && "0"[..0] == "";
    assert "0" + "1" == "01" && DigitsValue("01") == 1;
    PrecisionRoom();
    ConvertsTo(n, 10);
  }

  /** "-0.125" is a tie between -13 and -12 grosze and goes to the even one. */
  lemma PlnToGroszeTieToEven()
    ensures PlnToGrosze("-0.125") == Ok(-12)
  {
    var n := Numeral(Minus, "0", Some("125"));
    assert Render(n) == "-0.125";
    MagnitudeOneEighth();
    PrecisionRoom();
    ConvertsTo(n, -12);
  }

  lemma MagnitudeTwelveThirtyFour()
    ensures Magnitude(Numeral(Unsigned, "12", Some("34"))) == 1234
  {
    assert "1234"[..3] == "123" && "123"[..2] == "12" && "12"[..1] == "1" && "1"[..0] == "";
    assert "12" + "34" == "1234";
  }

  lemma MagnitudeOneEighth()
    ensures Magnitude(Numeral(Minus, "0", Some("125"))) == 12
  {
    assert "0125"[..3] == "012" && "012"[..2] == "01" && "01"[..1] == "0" && "0"[..0] == "";
    assert "0" + "125" == "0125" && DigitsValue("0125") == 125;
    assert Pow10(1) == 10;
  }

  /** PlnToGroszeAcceptsNumerals for a numeral whose grosze are already known. */
  lemma ConvertsTo(n: Numeral, g: int)
    requires n.WellFormed() && Magnitude(n) < Pow10(Precision) && Grosze(n) == g
    ensures PlnToGrosze(Render(n)) == Ok(g)
  {
    PlnToGroszeAcceptsNumerals(n);
  }

  /** Text that is not a number, and the empty text, are refused with 400. */
  lemma PlnToGroszeRefusesText()
    ensures PlnToGrosze("abc") == Err(InvalidAmount)
    ensures PlnToGrosze("") == Err(InvalidAmount)
  {
    assert !IsDigit('a');
  }
}
