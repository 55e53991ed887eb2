/** Strings and number tokens: descent finds exactly the pieces and tokens whose text is there. */
module JsonLexing {
  import opened Options
  import opened Scanning
  import opened Numbers
  import opened JsonGrammar
  import opened JsonDescent
  import Utf8

  // ---- pieces ----

  lemma {:induction false} HexSound(text: string, pos: nat)
    ensures var r := FourHex(text, pos); r.Ok? ==> At(text, pos, r.value) && |r.value| == 4
  {
    if pos + 4 <= |text| {
      var hex := [text[pos], text[pos + 1], text[pos + 2], text[pos + 3]];
      assert text[pos..pos + 4] == hex;
      AtSlice(text, pos, hex);
    }
  }

  lemma {:induction false} HexComplete(text: string, pos: nat, hex: string)
    requires At(text, pos, hex) && Hex4(hex)
    ensures FourHex(text, pos) == Ok(hex, pos + 4)
  {
    AtSlice(text, pos, hex);
    assert hex == [text[pos], text[pos + 1], text[pos + 2], text[pos + 3]];
  }

  lemma {:induction false} EscapeAt(text: string, pos: nat)
    ensures At(text, pos, "\\u") <==> CharAt(text, pos, '\\') && CharAt(text, pos + 1, 'u')
  {
    assert "\\u"[1..] == "u" && "u"[1..] == "";
  }

  lemma {:induction false} UnitAt(text: string, pos: nat, hex: string)
    ensures At(text, pos, Unit(hex).Text()) <==> At(text, pos, "\\u") && At(text, pos + 2, hex)
  {
    AtConcat(text, pos, "\\u", hex);
  }

  lemma {:induction false} PairAt(text: string, pos: nat, hi: string, lo: string)
    requires |hi| == 4
    ensures At(text, pos, Pair(hi, lo).Text()) <==>
              && At(text, pos, "\\u") && At(text, pos + 2, hi)
              && At(text, pos + 6, "\\u") && At(text, pos + 8, lo)
  {
    AtConcat(text, pos, "\\u", hi + ("\\u" + lo));
    AtConcat(text, pos + 2, hi, "\\u" + lo);
    AtConcat(text, pos + 6, "\\u", lo);
  }

  /** What an accepted escape appends: one well-formed byte sequence, which decodes to the scalar value that the
      escape denotes. */
  lemma {:induction false} EscapeBytes(p: Piece)
    requires p.IsUnicode()
    ensures Utf8.WellFormed(p.Bytes()) && Utf8.Decode(p.Bytes()) == p.CodePoint()
  {
    hide Utf8.Encode, Utf8.Decode, Utf8.WellFormed, HexValue;
    Utf8.EncodeDecode(p.CodePoint());
  }

  lemma {:induction false} UnicodeSound(text: string, pos: nat)
    requires At(text, pos, "\\u")
    ensures var r := UnicodeEscape(text, pos + 2);
            r.Ok? ==> r.value.IsUnicode() && At(text, pos, r.value.Text()) && r.pos == pos + |r.value.Text()|
  {
    HexSound(text, pos + 2);
    match UnicodeEscape(text, pos + 2)
    case Ok(Unit(hex), _) =>
      UnitAt(text, pos, hex);
    case Ok(Pair(hi, lo), _) =>
      HexSound(text, pos + 8);
      PairAt(text, pos, hi, lo);
    case _ =>
  }

  lemma {:induction false} UnicodeComplete(text: string, pos: nat, p: Piece)
    requires p.IsUnicode() && At(text, pos, p.Text())
    ensures At(text, pos, "\\u")
    ensures UnicodeEscape(text, pos + 2) == Ok(p, pos + |p.Text()|)
  {
    match p
    case Unit(hex) =>
      UnitAt(text, pos, hex);
      HexComplete(text, pos + 2, hex);
    case Pair(hi, lo) =>
      PairAt(text, pos, hi, lo);
      HexComplete(text, pos + 2, hi);
      HexComplete(text, pos + 8, lo);
  }

  lemma {:induction false} PieceSound(text: string, pos: nat)
    requires pos < |text| && text[pos] != '"'
    ensures var r := OnePiece(text, pos);
            r.Ok? ==> At(text, pos, r.value.Text()) && r.pos == pos + |r.value.Text()|
  {
    EscapeAt(text, pos);
    if At(text, pos, "\\u") { UnicodeSound(text, pos); }
  }

  lemma {:induction false} PieceComplete(text: string, pos: nat, p: Piece)
    requires At(text, pos, p.Text())
    ensures pos < |text| && text[pos] != '"'
    ensures OnePiece(text, pos) == Ok(p, pos + |p.Text()|)
  {
    EscapeAt(text, pos);
    if p.IsUnicode() { UnicodeComplete(text, pos, p); }
  }

  lemma {:induction false} PiecesSound(text: string, pos: nat, used: nat, maxString: nat)
    requires pos <= |text| && used <= maxString
    ensures var r := Pieces(text, pos, used, maxString);
            r.Ok? ==>
              && At(text, pos, QuotedText(r.value)) && r.pos == pos + |QuotedText(r.value)|
              && used + |PiecesBytes(r.value)| <= maxString
    decreases |text| - pos
  {
    hide AnyPiece.Text, AnyPiece.Bytes, AnyPiece.WF, OnePiece;
    var r := Pieces(text, pos, used, maxString);
    if r.Ok? && text[pos] != '"' {
      PieceSound(text, pos);
      var p, q := OnePiece(text, pos).value, OnePiece(text, pos).pos;
      PiecesSound(text, q, used + |p.Bytes()|, maxString);
      var ps := Pieces(text, q, used + |p.Bytes()|, maxString).value;
      assert r.value == [p] + ps && r.value[1..] == ps;
      AtConcat(text, pos, p.Text(), QuotedText(ps));
    }
  }

  lemma {:induction false} PiecesStep(text: string, pos: nat, p: Piece, ps: seq<Piece>, end: nat, used: nat,
                                      maxString: nat)
    requires pos < |text| && text[pos] != '"' && OnePiece(text, pos).Ok? && OnePiece(text, pos).value == p
    requires used + |p.Bytes()| <= maxString
    requires Pieces(text, OnePiece(text, pos).pos, used + |p.Bytes()|, maxString) == Ok(ps, end)
    ensures Pieces(text, pos, used, maxString) == Ok([p] + ps, end)
  {
  }

  lemma {:induction false} PiecesComplete(text: string, pos: nat, ps: seq<Piece>, used: nat, maxString: nat)
    requires At(text, pos, QuotedText(ps))
    requires used + |PiecesBytes(ps)| <= maxString
    ensures Pieces(text, pos, used, maxString) == Ok(ps, pos + |QuotedText(ps)|)
    decreases |ps|
  {
    hide AnyPiece.Text, AnyPiece.Bytes, AnyPiece.WF, OnePiece;
    if ps == [] {
    } else {
      var p, rest, end := ps[0], ps[1..], pos + |QuotedText(ps)|;
      assert ps == [p] + rest;
      AtConcat(text, pos, p.Text(), QuotedText(rest));
      PieceComplete(text, pos, p);
      assert PiecesBytes(ps) == p.Bytes() + PiecesBytes(rest);
      PiecesComplete(text, pos + |p.Text()|, rest, used + |p.Bytes()|, maxString);
      PiecesStep(text, pos, p, rest, end, used, maxString);
    }
  }

  // ---- number tokens ----

  /** Nothing at `pos` could continue a number. */
  predicate Stop(text: string, pos: nat) {
    pos < |text| ==> !IsDigit(text[pos]) && text[pos] != '.' && text[pos] != 'e' && text[pos] != 'E'
  }

  lemma {:induction false} FractionSound(text: string, pos: nat)
    requires pos <= |text|
    ensures match Fraction(text, pos)
            case Ok(frac, end) =>
              var t := if frac.Some? then "." + frac.value else "";
              At(text, pos, t) && end == pos + |t|
            case Fail => true
  {
    match Fraction(text, pos)
    case Ok(Some(digits), _) =>
      RunIsThere(text, pos + 1, IsDigit);
      AtConcat(text, pos, ".", digits);
    case _ =>
  }

  lemma {:induction false} ExponentSound(text: string, pos: nat)
    requires pos <= |text|
    ensures match ExponentPart(text, pos)
            case Ok(exp, end) =>
              var t := if exp.Some? then exp.value.Text() else "";
              At(text, pos, t) && end == pos + |t|
            case Fail => true
  {
    match ExponentPart(text, pos)
    case Ok(Some(e), _) =>
      RunIsThere(text, pos + 1 + |e.sign|, IsDigit);
      ExponentAt(text, pos, e);
    case _ =>
  }

  lemma {:induction false} ExponentAt(text: string, pos: nat, e: Exponent)
    ensures At(text, pos, e.Text()) <==>
              CharAt(text, pos, e.marker) && At(text, pos + 1, e.sign) && At(text, pos + 1 + |e.sign|, e.digits)
  {
    AtConcat(text, pos, [e.marker] + e.sign, e.digits);
    AtConcat(text, pos, [e.marker], e.sign);
    AtBound(text, pos + 1, e.sign);
  }

  lemma {:induction false} WholeSound(text: string, pos: nat)
    requires pos <= |text|
    ensures At(text, pos, WholePart(text, pos))
  {
    RunIsThere(text, pos, IsDigit);
  }

  lemma {:induction false} TailSound(text: string, pos: nat)
    requires pos <= |text|
    ensures var r := NumberTail(text, pos);
            r.Ok? ==> At(text, pos, r.value.Text()) && r.pos == pos + |r.value.Text()|
  {
    var r := NumberTail(text, pos);
    if r.Ok? {
      FractionSound(text, pos);
      ExponentSound(text, Fraction(text, pos).pos);
      AtConcat(text, pos, r.value.FracText(), r.value.ExpText());
    }
  }

  lemma {:induction false} NumberSound(text: string, pos: nat)
    requires pos <= |text|
    ensures var r := NumberToken(text, pos);
            r.Ok? ==> At(text, pos, r.value.Text()) && r.pos == pos + |r.value.Text()|
  {
    hide Tail.Text, Tail.WF, WholePart, NumberTail, IntegerPart;
    var r := NumberToken(text, pos);
    if r.Ok? {
      var tok := r.value;
      var p := pos + |tok.Sign()|;
      WholeSound(text, p);
      TailSound(text, p + |tok.whole|);
      AtConcat(text, pos, tok.Sign(), tok.whole + tok.tail.Text());
      AtConcat(text, p, tok.whole, tok.tail.Text());
    }
  }

  /** A run of digits that something else follows is found in full. */
  lemma {:induction false} DigitsComplete(text: string, pos: nat, digits: string)
    requires At(text, pos, digits) && AllDigits(digits) && !KindAt(text, pos + |digits|, IsDigit)
    ensures pos <= |text| && Digits(text, pos) == digits
  {
    RunIs(text, pos, digits, IsDigit);
  }

  lemma {:induction false} ExponentComplete(text: string, pos: nat, e: Exponent)
    requires e.WF() && At(text, pos, e.Text()) && Stop(text, pos + |e.Text()|)
    ensures CharAt(text, pos, e.marker)
    ensures ExponentPart(text, pos) == Ok(Some(e), pos + |e.Text()|)
  {
    ExponentAt(text, pos, e);
    DigitsComplete(text, pos + 1 + |e.sign|, e.digits);
  }

  lemma {:induction false} FractionComplete(text: string, pos: nat, digits: string)
    requires digits != "" && AllDigits(digits) && At(text, pos, "." + digits)
    requires !KindAt(text, pos + 1 + |digits|, IsDigit)
    ensures CharAt(text, pos, '.')
    ensures Fraction(text, pos) == Ok(Some(digits), pos + 1 + |digits|)
  {
    AtConcat(text, pos, ".", digits);
    DigitsComplete(text, pos + 1, digits);
  }

  lemma {:induction false} WholeComplete(text: string, pos: nat, whole: string)
    requires IntegerPart(whole) && At(text, pos, whole) && !KindAt(text, pos + |whole|, IsDigit)
    ensures KindAt(text, pos, IsDigit)
    ensures WholePart(text, pos) == whole
  {
    DigitsComplete(text, pos, whole);
    if whole[0] == '0' { assert whole == "0"; }
  }

  lemma {:induction false} TailComplete(text: string, pos: nat, tail: Tail)
    requires tail.WF() && At(text, pos, tail.Text()) && Stop(text, pos + |tail.Text()|)
    ensures pos <= |text| && !KindAt(text, pos, IsDigit)
    ensures NumberTail(text, pos) == Ok(tail, pos + |tail.Text()|)
  {
    hide At;
    var p := pos + |tail.FracText()|;
    AtConcat(text, pos, tail.FracText(), tail.ExpText());
    AtBound(text, p, tail.ExpText());
    if tail.exp.Some? { ExponentComplete(text, p, tail.exp.value); }
    if tail.frac.Some? { FractionComplete(text, pos, tail.frac.value); }
  }

  lemma {:induction false} NumberComplete(text: string, pos: nat, tok: Token)
    requires At(text, pos, tok.Text()) && Stop(text, pos + |tok.Text()|)
    ensures CharAt(text, pos, '-') || KindAt(text, pos, IsDigit)
    ensures NumberToken(text, pos) == Ok(tok, pos + |tok.Text()|)
  {
    hide Tail.Text, Tail.WF, WholePart, NumberTail, IntegerPart;
    var p := pos + |tok.Sign()|;
    AtConcat(text, pos, tok.Sign(), tok.whole + tok.tail.Text());
    AtConcat(text, p, tok.whole, tok.tail.Text());
    TailComplete(text, p + |tok.whole|, tok.tail);
    WholeComplete(text, p, tok.whole);
  }

  /** The characters of a token, handed to `std::from_chars`, are read as the number it denotes. */
  lemma {:induction false} FromCharsReadsToken(conv: Conversion, tok: Token)
    ensures FromChars(conv, tok.Text()) == conv.round(tok.Value())
  {
    var s := tok.Text();
    AtSlice(s, 0, s);
    NumberComplete(s, 0, tok);
  }
}
