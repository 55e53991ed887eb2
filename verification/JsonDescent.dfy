/** Recursive descent over a text, as a function from a position to a derivation tree and the position
    after it. The parser class is proved against this function, and the function against the grammar. */
module JsonDescent {
  import opened Options
  import opened Scanning
  import opened Numbers
  import opened JsonGrammar

  datatype Parsed<+T> = Fail | Ok(value: T, pos: nat)

  // ---- strings ----

  function FourHex(text: string, pos: nat): Parsed<string> {
    if pos + 4 > |text| then Fail
    else
      var hex := [text[pos], text[pos + 1], text[pos + 2], text[pos + 3]];
      if Hex4(hex) then Ok(hex, pos + 4) else Fail
  }

  /** After `\u`. */
  function UnicodeEscape(text: string, pos: nat): (r: Parsed<Piece>)
    ensures r.Ok? ==> pos < r.pos <= |text|
  {
    match FourHex(text, pos)
    case Fail => Fail
    case Ok(hi, p) =>
      if HighSurrogate(HexValue(hi)) then
        if !At(text, p, "\\u") then Fail
        else
          match FourHex(text, p + 2)
          case Fail => Fail
          case Ok(lo, q) => if LowSurrogate(HexValue(lo)) then Ok(Pair(hi, lo), q) else Fail
      else if LowSurrogate(HexValue(hi)) then Fail
      else Ok(Unit(hi), p)
  }

  /** One character or escape of a string, which is not the closing quote. */
  function OnePiece(text: string, pos: nat): (r: Parsed<Piece>)
    requires pos < |text| && text[pos] != '"'
    ensures r.Ok? ==> pos < r.pos <= |text|
  {
    var c := text[pos];
    if c < ' ' then Fail
    else if c != '\\' then Ok(Raw(c), pos + 1)
    else if pos + 1 == |text| then Fail
    else if text[pos + 1] == 'u' then UnicodeEscape(text, pos + 2)
    else if Short(text[pos + 1]).WF() then Ok(Short(text[pos + 1]), pos + 2)
    else Fail
  }

  /** The rest of a string, of which `used` bytes are already decoded, up to its closing quote. */
  function Pieces(text: string, pos: nat, used: nat, maxString: nat): (r: Parsed<seq<Piece>>)
    requires pos <= |text|
    ensures r.Ok? ==> pos < r.pos <= |text|
    decreases |text| - pos
  {
    if pos == |text| then Fail
    else if text[pos] == '"' then Ok([], pos + 1)
    else
      match OnePiece(text, pos)
      case Fail => Fail
      case Ok(p, q) =>
        if used + |p.Bytes()| > maxString then Fail
        else
          match Pieces(text, q, used + |p.Bytes()|, maxString)
          case Fail => Fail
          case Ok(ps, end) => Ok([p] + ps, end)
  }

  /** A string whose opening quote is at `pos`. */
  function QuotedString(text: string, pos: nat, depth: nat, limits: Limits): (r: Parsed<seq<Piece>>)
    requires pos < |text|
    ensures r.Ok? ==> pos < r.pos <= |text|
  {
    if depth >= limits.maxDepth then Fail else Pieces(text, pos + 1, 0, limits.maxString)
  }

  // ---- numbers ----

  function Digits(text: string, pos: nat): (s: string)
    requires pos <= |text|
    ensures pos + |s| <= |text| && AllDigits(s) && (s == "" <==> !KindAt(text, pos, IsDigit))
  {
    RunIsThere(text, pos, IsDigit);
    Run(text, pos, IsDigit)
  }

  function Fraction(text: string, pos: nat): (r: Parsed<Option<string>>)
    requires pos <= |text|
    ensures r.Ok? ==> pos <= r.pos <= |text| && (r.value.Some? ==> r.value.value != "" && AllDigits(r.value.value))
  {
    if !CharAt(text, pos, '.') then Ok(None, pos)
    else
      var digits := Digits(text, pos + 1);
      if digits == "" then Fail else Ok(Some(digits), pos + 1 + |digits|)
  }

  function ExponentPart(text: string, pos: nat): (r: Parsed<Option<Exponent>>)
    requires pos <= |text|
    ensures r.Ok? ==> pos <= r.pos <= |text| && (r.value.Some? ==> r.value.value.WF())
  {
    if !CharAt(text, pos, 'e') && !CharAt(text, pos, 'E') then Ok(None, pos)
    else
      var sign := if CharAt(text, pos + 1, '+') then "+" else if CharAt(text, pos + 1, '-') then "-" else "";
      var p := pos + 1 + |sign|;
      var digits := Digits(text, p);
      if digits == "" then Fail else Ok(Some(Exponent(text[pos], sign, digits)), p + |digits|)
  }

  function WholePart(text: string, pos: nat): (s: string)
    requires pos <= |text|
    ensures pos + |s| <= |text| && (s != "" ==> IntegerPart(s))
    ensures s == "" <==> !KindAt(text, pos, IsDigit)
  {
    if CharAt(text, pos, '0') then "0" else Digits(text, pos)
  }

  function NumberTail(text: string, pos: nat): (r: Parsed<Tail>)
    requires pos <= |text|
    ensures r.Ok? ==> pos <= r.pos <= |text| && r.value.WF()
  {
    match Fraction(text, pos)
    case Fail => Fail
    case Ok(frac, p) =>
      match ExponentPart(text, p)
      case Fail => Fail
      case Ok(exp, end) => Ok(Tail(frac, exp), end)
  }

  function NumberToken(text: string, pos: nat): (r: Parsed<Token>)
    requires pos <= |text|
    ensures r.Ok? ==> pos < r.pos <= |text|
  {
    var neg := CharAt(text, pos, '-');
    var p := if neg then pos + 1 else pos;
    var whole := WholePart(text, p);
    if whole == "" then Fail
    else
      match NumberTail(text, p + |whole|)
      case Fail => Fail
      case Ok(tail, end) => Ok(NumTok(neg, whole, tail), end)
  }

  /** `std::from_chars` on a token's characters: None if they are not a number in full, or out of range. */
  function FromChars(conv: Conversion, s: string): Option<Double> {
    match NumberToken(s, 0)
    case Ok(tok, end) => if end == |s| then conv.round(tok.Value()) else None
    case Fail => None
  }

  // ---- values ----

  function Literal(text: string, pos: nat, lit: string, t: Tree): (r: Parsed<Tree>)
    requires lit != ""
    ensures r.Ok? ==> pos < r.pos <= |text|
  {
    AtBound(text, pos, lit);
    if At(text, pos, lit) then Ok(t, pos + |lit|) else Fail
  }

  function Blank(text: string, pos: nat): (s: Ws)
    requires pos <= |text|
    ensures pos + |s| <= |text|
  {
    RunIsThere(text, pos, IsWs);
    Run(text, pos, IsWs)
  }

  /** A value that starts at `pos`, with no white space before it. */
  function Node(text: string, pos: nat, depth: nat, st: Setting): (r: Parsed<Tree>)
    requires pos <= |text|
    ensures r.Ok? ==> pos < r.pos <= |text|
    decreases |text| - pos, 0
  {
    if pos == |text| then Fail
    else
      match text[pos]
      case '{' => ObjectNode(text, pos, depth, st)
      case '[' => ArrayNode(text, pos, depth, st)
      case '"' =>
        (match QuotedString(text, pos, depth, st.limits)
         case Ok(ps, end) => Ok(TString(ps), end)
         case Fail => Fail)
      case 't' => Literal(text, pos, "true", TBool(true))
      case 'f' => Literal(text, pos, "false", TBool(false))
      case 'n' => Literal(text, pos, "null", TNull)
      case c =>
        if c != '-' && !IsDigit(c) then Fail
        else
          match NumberToken(text, pos)
          case Ok(tok, end) => if NumberFits(tok, st) then Ok(TNumber(tok), end) else Fail
          case Fail => Fail
  }

  function ArrayNode(text: string, pos: nat, depth: nat, st: Setting): (r: Parsed<Tree>)
    requires pos < |text|
    ensures r.Ok? ==> pos < r.pos <= |text|
    decreases |text| - pos - 1, 4
  {
    var gap := Blank(text, pos + 1);
    var p := pos + 1 + |gap|;
    if depth >= st.limits.maxDepth then Fail
    else if CharAt(text, p, ']') then Ok(TEmptyArray(gap), p + 1)
    else
      match ElemList(text, pos + 1, depth + 1, st)
      case Ok(es, end) => Ok(TArray(es), end)
      case Fail => Fail
  }

  function ObjectNode(text: string, pos: nat, depth: nat, st: Setting): (r: Parsed<Tree>)
    requires pos < |text|
    ensures r.Ok? ==> pos < r.pos <= |text|
    decreases |text| - pos - 1, 4
  {
    var gap := Blank(text, pos + 1);
    var p := pos + 1 + |gap|;
    if depth >= st.limits.maxDepth then Fail
    else if CharAt(text, p, '}') then Ok(TEmptyObject(gap), p + 1)
    else
      match MembList(text, pos + 1, depth + 1, st)
      case Ok(ms, end) => Ok(TObject(ms), end)
      case Fail => Fail
  }

  /** A value with the white space on both its sides. */
  function Element(text: string, pos: nat, depth: nat, st: Setting): (r: Parsed<Elem>)
    requires pos <= |text|
    ensures r.Ok? ==> pos < r.pos <= |text|
    decreases |text| - pos, 1
  {
    var before := Blank(text, pos);
    match Node(text, pos + |before|, depth, st)
    case Fail => Fail
    case Ok(t, p) =>
      var after := Blank(text, p);
      Ok(Elem(before, t, after), p + |after|)
  }

  /** One or more elements and the closing bracket. */
  function ElemList(text: string, pos: nat, depth: nat, st: Setting): (r: Parsed<Elems>)
    requires pos <= |text|
    ensures r.Ok? ==> pos < r.pos <= |text|
    decreases |text| - pos, 2
  {
    match Element(text, pos, depth, st)
    case Fail => Fail
    case Ok(e, p) =>
      if CharAt(text, p, ']') then Ok(LastElem(e), p + 1)
      else if !CharAt(text, p, ',') then Fail
      else
        match ElemList(text, p + 1, depth, st)
        case Ok(es, end) => Ok(MoreElems(e, es), end)
        case Fail => Fail
  }

  function Member(text: string, pos: nat, depth: nat, st: Setting): (r: Parsed<Memb>)
    requires pos <= |text|
    ensures r.Ok? ==> pos < r.pos <= |text|
    decreases |text| - pos, 2
  {
    var before := Blank(text, pos);
    var p := pos + |before|;
    if !CharAt(text, p, '"') then Fail
    else
      match QuotedString(text, p, depth, st.limits)
      case Fail => Fail
      case Ok(key, q) =>
        var mid := Blank(text, q);
        if !CharAt(text, q + |mid|, ':') then Fail
        else
          match Element(text, q + |mid| + 1, depth, st)
          case Ok(e, end) => Ok(Memb(before, key, mid, e), end)
          case Fail => Fail
  }

  /** One or more members and the closing brace. */
  function MembList(text: string, pos: nat, depth: nat, st: Setting): (r: Parsed<Membs>)
    requires pos <= |text|
    ensures r.Ok? ==> pos < r.pos <= |text|
    decreases |text| - pos, 3
  {
    match Member(text, pos, depth, st)
    case Fail => Fail
    case Ok(m, p) =>
      if CharAt(text, p, '}') then Ok(LastMemb(m), p + 1)
      else if !CharAt(text, p, ',') then Fail
      else
        match MembList(text, p + 1, depth, st)
        case Ok(ms, end) => Ok(MoreMembs(m, ms), end)
        case Fail => Fail
  }

  /** A whole text. */
  function Document(text: string, st: Setting): Option<Elem> {
    match Element(text, 0, 0, st)
    case Ok(e, end) => if end == |text| then Some(e) else None
    case Fail => None
  }
}
