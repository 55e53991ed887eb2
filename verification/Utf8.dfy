/** The UTF-8 encoder of the JSON parser, against the byte syntax of section 4 of RFC 3629.
    A C++ `char` is modelled by the Dafny character whose code is the byte's value. */
module Utf8 {

  predicate Scalar(cp: nat) {
    cp < 0xD800 || 0xDFFF < cp <= 0x10FFFF
  }

  // The bit ranges combined by `|` in the original are disjoint, so `|` is `+`, `>> 6k` is
  // division by 64^k and `& 0x3F` is the remainder by 64.
  function Encode(cp: nat): string
    requires cp <= 0x10FFFF
  {
    if cp <= 0x7F then
      [cp as char]
    else if cp <= 0x7FF then
      [(0xC0 + cp / 64) as char, Continuation(cp)]
    else if cp <= 0xFFFF then
      [(0xE0 + cp / 4096) as char, Continuation(cp / 64), Continuation(cp)]
    else
      [(0xF0 + cp / 262144) as char, Continuation(cp / 4096), Continuation(cp / 64), Continuation(cp)]
  }

  function Continuation(bits: nat): char {
    (0x80 + bits % 64) as char
  }

  predicate Tail(c: char) {
    0x80 <= c as int <= 0xBF
  }

  predicate InRange(c: char, lo: int, hi: int) {
    lo <= c as int <= hi
  }

  /** One well-formed byte sequence: productions UTF8-1 to UTF8-4 of RFC 3629. */
  predicate WellFormed(s: string) {
    match |s|
    case 1 => InRange(s[0], 0, 0x7F)
    case 2 => InRange(s[0], 0xC2, 0xDF) && Tail(s[1])
    case 3 =>
      && Tail(s[2])
      && (|| (InRange(s[0], 0xE0, 0xE0) && InRange(s[1], 0xA0, 0xBF))
          || (InRange(s[0], 0xE1, 0xEC) && Tail(s[1]))
          || (InRange(s[0], 0xED, 0xED) && InRange(s[1], 0x80, 0x9F))
          || (InRange(s[0], 0xEE, 0xEF) && Tail(s[1])))
    case 4 =>
      && Tail(s[2]) && Tail(s[3])
      && (|| (InRange(s[0], 0xF0, 0xF0) && InRange(s[1], 0x90, 0xBF))
          || (InRange(s[0], 0xF1, 0xF3) && Tail(s[1]))
          || (InRange(s[0], 0xF4, 0xF4) && InRange(s[1], 0x80, 0x8F)))
    case _ => false
  }

  function Low6(c: char): int {
    c as int - 0x80
  }

  /** The number a well-formed sequence carries in its free bits (section 3 of RFC 3629). */
  function Decode(s: string): int
    requires WellFormed(s)
  {
    match |s|
    case 1 => s[0] as int
    case 2 => (s[0] as int - 0xC0) * 64 + Low6(s[1])
    case 3 => (s[0] as int - 0xE0) * 4096 + Low6(s[1]) * 64 + Low6(s[2])
    case _ => (s[0] as int - 0xF0) * 262144 + Low6(s[1]) * 4096 + Low6(s[2]) * 64 + Low6(s[3])
  }

  /** Every scalar value is encoded as one well-formed sequence, which decodes back to it. */
  lemma {:induction false} EncodeDecode(cp: nat)
    requires Scalar(cp)
    ensures WellFormed(Encode(cp)) && Decode(Encode(cp)) == cp
  {
    assert cp / 4096 == cp / 64 / 64;
    assert cp / 262144 == cp / 64 / 64 / 64;
  }

  /** The bits of a three-byte sequence, shifted. */
  lemma {:induction false} ThreeBytes(a: nat, b: nat, c: nat)
    requires b < 64 && c < 64
    ensures var cp := a * 4096 + b * 64 + c;
            cp / 4096 == a && cp / 64 % 64 == b && cp % 64 == c
  {
    var cp := a * 4096 + b * 64 + c;
    assert cp / 64 == a * 64 + b;
    assert cp / 4096 == cp / 64 / 64;
  }

  lemma {:induction false} FourBytes(a: nat, b: nat, c: nat, d: nat)
    requires b < 64 && c < 64 && d < 64
    ensures var cp := a * 262144 + b * 4096 + c * 64 + d;
            cp / 262144 == a && cp / 4096 % 64 == b && cp / 64 % 64 == c && cp % 64 == d
  {
    var cp := a * 262144 + b * 4096 + c * 64 + d;
    assert cp / 64 == a * 4096 + b * 64 + c;
    ThreeBytes(a, b, c);
    assert cp / 4096 == cp / 64 / 64 && cp / 262144 == cp / 64 / 4096;
  }

  lemma {:induction false} ThreeBack(s: string)
    requires |s| == 3 && WellFormed(s)
    ensures 0 <= Decode(s) && Scalar(Decode(s)) && Encode(Decode(s)) == s
  {
    ThreeBytes(s[0] as int - 0xE0, Low6(s[1]), Low6(s[2]));
  }

  lemma {:induction false} FourBack(s: string)
    requires |s| == 4 && WellFormed(s)
    ensures 0 <= Decode(s) && Scalar(Decode(s)) && Encode(Decode(s)) == s
  {
    FourBytes(s[0] as int - 0xF0, Low6(s[1]), Low6(s[2]), Low6(s[3]));
  }

  lemma {:induction false} ShortBack(s: string)
    requires |s| <= 2 && WellFormed(s)
    ensures 0 <= Decode(s) && Scalar(Decode(s)) && Encode(Decode(s)) == s
  {
  }

  /** Conversely each well-formed sequence is the encoding of exactly the scalar it decodes to, so the
      encoder is a bijection from scalar values to well-formed sequences. */
  lemma {:induction false} DecodeEncode(s: string)
    requires WellFormed(s)
    ensures 0 <= Decode(s) && Scalar(Decode(s)) && Encode(Decode(s)) == s
  {
    assert |s| <= 4;
    hide Decode, Encode, Scalar, WellFormed;
    if |s| == 3 {
      ThreeBack(s);
    } else if |s| == 4 {
      FourBack(s);
    } else {
      ShortBack(s);
    }
  }
}
