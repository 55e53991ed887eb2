/** Decimal number tokens, the double conversions they go through, and integer formatting. */
module Numbers {
  import opened Options
  import opened Scanning

  const TWO53: int := 0x20_0000_0000_0000
  const TWO63: int := 0x8000_0000_0000_0000
  const TWO64: int := 0x1_0000_0000_0000_0000

  /** A C++ `double`: a real number, or an infinity or NaN. */
  datatype Double = Finite(value: real) | NonFinite

  /** `static_cast<std::int64_t>` of an integer: two's-complement wrap-around. The only out-of-range
      integer that `serialize_to` and `as_int64` can cast is 2^63 (a double), for which the C++ result
      is undefined; the wrapped value is what the x86-64 instruction returns. */
  function ToInt64(n: int): (r: int)
    ensures -TWO63 <= r < TWO63
    ensures -TWO63 <= n < TWO63 ==> r == n
  {
    (n + TWO63) % TWO64 - TWO63
  }

  // ---- digits ----

  predicate IsDigit(c: char) {
    '0' <= c <= '9'
  }

  predicate AllDigits(s: string) {
    All(s, IsDigit)
  }

  function DigitValue(c: char): nat {
    if IsDigit(c) then c as int - '0' as int else 0
  }

  function DigitsValue(s: string): nat {
    if s == "" then 0 else 10 * DigitsValue(s[..|s| - 1]) + DigitValue(s[|s| - 1])
  }

  function Decimal(n: nat): string {
    (if n < 10 then "" else Decimal(n / 10)) + [DigitChar(n % 10)]
  }

  function DigitChar(d: nat): (c: char)
    requires d < 10
    ensures IsDigit(c) && DigitValue(c) == d && (c == '0' <==> d == 0)
  {
    ('0' as int + d) as char
  }

  predicate IntegerPart(s: string) {
    s != "" && AllDigits(s) && (s[0] == '0' ==> |s| == 1)
  }

  /** `std::to_chars` on an integer: no leading zero, and reading the digits gives the number back. */
  lemma {:induction false} DecimalReadsBack(n: nat)
    ensures IntegerPart(Decimal(n)) && DigitsValue(Decimal(n)) == n
    ensures n > 0 ==> Decimal(n)[0] != '0'
  {
    var s, last := Decimal(n), DigitChar(n % 10);
    if n < 10 {
      assert s == [last] && s[..0] == "";
    } else {
      DecimalReadsBack(n / 10);
      assert s == Decimal(n / 10) + [last];
      assert s[..|s| - 1] == Decimal(n / 10);
      AllConcat(Decimal(n / 10), [last], IsDigit);
    }
  }

  // ---- number tokens: section 6 of RFC 8259 ----

  datatype Exponent = Exponent(marker: char, sign: string, digits: string) {
    predicate WF() {
      && (marker == 'e' || marker == 'E')
      && (sign == "" || sign == "+" || sign == "-")
      && digits != "" && AllDigits(digits)
    }

    function Text(): string {
      [marker] + sign + digits
    }

    function Value(): int {
      if sign == "-" then -(DigitsValue(digits) as int) else DigitsValue(digits)
    }
  }

  /** What follows the integer part of a number. */
  datatype Tail = Tail(frac: Option<string>, exp: Option<Exponent>) {
    predicate WF() {
      && (frac.Some? ==> frac.value != "" && AllDigits(frac.value))
      && (exp.Some? ==> exp.value.WF())
    }

    function Text(): string {
      FracText() + ExpText()
    }

    function FracText(): string {
      if frac.Some? then "." + frac.value else ""
    }

    function ExpText(): string {
      if exp.Some? then exp.value.Text() else ""
    }
  }

  datatype NumTok = NumTok(neg: bool, whole: string, tail: Tail) {
    predicate WF() {
      IntegerPart(whole) && tail.WF()
    }

    function Text(): string {
      Sign() + (whole + tail.Text())
    }

    function Sign(): string {
      if neg then "-" else ""
    }

    /** The number denoted, exactly: all digits as one integer, scaled by the exponent. */
    function Value(): real {
      var digits := tail.frac.GetOr("");
      var scale := (if tail.exp.Some? then tail.exp.value.Value() else 0) - |digits|;
      var magnitude := DigitsValue(whole + digits) as real * Pow10(scale);
      if neg then -magnitude else magnitude
    }
  }

  type Token = t: NumTok | t.WF() witness NumTok(false, "0", Tail(None, None))

  function Pow10(k: int): real
    decreases if k < 0 then -k else k
  {
    if k == 0 then 1.0 else if k > 0 then 10.0 * Pow10(k - 1) else Pow10(k + 1) / 10.0
  }

  function IntTok(n: int): NumTok {
    NumTok(n < 0, Decimal(if n < 0 then -n else n), Tail(None, None))
  }

  lemma {:induction false} IntTokValue(n: int)
    ensures IntTok(n).WF() && IntTok(n).Value() == n as real
  {
    var m := if n < 0 then -n else n;
    DecimalReadsBack(m);
    assert IntTok(n).whole + "" == Decimal(m);
  }

  // ---- the library's conversions between decimal text and doubles ----

  function Pow2(e: nat): nat {
    if e == 0 then 1 else 2 * Pow2(e - 1)
  }

  /** An integer of at most 53 significant bits, scaled by a power of two. */
  predicate Scaled(n: int, m: int, e: nat) {
    -TWO53 <= m <= TWO53 && e <= 10 && n == m * Pow2(e)
  }

  predicate InRange(d: real) {
    -TWO63 as real <= d <= TWO63 as real
  }

  /** The platform's conversions. `round` is what `std::from_chars` makes of the number that a decimal text
      denotes, None when it reports it out of range; `nearest` is what arithmetic, and the conversion of an
      integer, make of an exact result; `show` is the shortest decimal form that `std::to_chars` chooses
      for a double. */
  datatype Conversion = Conversion(round: real -> Option<Double>, nearest: real -> Double, show: real -> Token) {
    /** The real numbers that are doubles: those that are read as they are. */
    predicate IsDouble(d: real) {
      round(d) == Some(Finite(d))
    }

    /** What IEEE 754 says of doubles up to 2^63, ties going to the even one, and what the C++ standard
        promises of the two conversions. */
    ghost predicate Faithful() {
      && (forall n, m, e | Scaled(n, m, e) :: IsDouble(n as real))
      && (forall d | InRange(d) :: nearest(d).Finite? && IsDouble(nearest(d).value))
      && (forall d | IsDouble(d) :: nearest(d) == Finite(d))
      && (forall x, y | InRange(x) && InRange(y) && x <= y :: nearest(x).value <= nearest(y).value)
      && nearest((TWO53 + 1) as real) == Finite(TWO53 as real)
      && (forall d: real | IsDouble(d) && !PrintsAsInteger(d) ::
            round(show(d).Value()) == Some(Finite(d)))
    }

    /** The token `serialize_to` writes for a finite number. */
    function Format(d: real): Token {
      if PrintsAsInteger(d) then IntTokValue(ToInt64(d.Floor)); IntTok(ToInt64(d.Floor)) else show(d)
    }
  }

  /** The guard of the integer branch of `serialize_to`; its upper end is 2^63, not 2^63 - 1, since
      that is the value of `static_cast<double>` on the greatest 64-bit integer. */
  predicate PrintsAsInteger(d: real) {
    d.Floor as real == d && -TWO63 as real <= d <= TWO63 as real
  }

  /** What survives printing: every double except 2^63, whose integer cast overflows. */
  function Survivor(d: real): real {
    if d == TWO63 as real then -TWO63 as real else d
  }

  lemma {:induction false} ScaledIsDouble(conv: Conversion, n: int, m: int, e: nat)
    requires conv.Faithful() && Scaled(n, m, e)
    ensures conv.IsDouble(n as real)
  {
  }

  lemma {:induction false} IntegerIsDouble(conv: Conversion, n: int)
    requires conv.Faithful() && -TWO53 <= n <= TWO53
    ensures conv.IsDouble(n as real) && conv.nearest(n as real) == Finite(n as real)
  {
    ScaledIsDouble(conv, n, n, 0);
  }

  lemma {:induction false} TenBits()
    ensures Pow2(1) == 2 && Pow2(10) == 1024
  {
    assert Pow2(5) == 32;
  }

  lemma {:induction false} NearestOrder(conv: Conversion, x: real, y: real)
    requires conv.Faithful() && InRange(x) && InRange(y) && x <= y
    ensures conv.nearest(x).Finite? && conv.nearest(y).Finite?
    ensures conv.nearest(x).value <= conv.nearest(y).value
  {
  }

  lemma {:induction false} FormatReadsBack(conv: Conversion, d: real)
    requires conv.Faithful() && conv.IsDouble(d)
    ensures conv.round(conv.Format(d).Value()) == Some(Finite(Survivor(d)))
  {
    hide Conversion.Faithful;
    if PrintsAsInteger(d) {
      IntTokValue(ToInt64(d.Floor));
      TenBits();
      ScaledIsDouble(conv, -TWO63, -TWO53, 10);
      assert ToInt64(d.Floor) as real == Survivor(d);
    } else {
      ShownReadsBack(conv, d);
    }
  }

  lemma {:induction false} ShownReadsBack(conv: Conversion, d: real)
    requires conv.Faithful() && conv.IsDouble(d) && !PrintsAsInteger(d)
    ensures conv.round(conv.show(d).Value()) == Some(Finite(d))
  {
  }
}
