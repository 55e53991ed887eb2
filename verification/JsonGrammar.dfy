/** The grammar of sections 2 to 7 of RFC 8259 as derivation trees: the text a tree derives, when it is
    well formed, the value it denotes, and what the parser's limits demand of it. */
module JsonGrammar {
  import opened Options
  import opened Scanning
  import opened Numbers
  import opened JsonValue
  import Utf8

  datatype Limits = Limits(maxDepth: nat, maxBytes: nat, maxString: nat, rejectNonFinite: bool)

  /** What the parser is configured with: its limits and the platform's number conversions. */
  datatype Setting = Setting(limits: Limits, conv: Conversion)

  // ---- white space (section 2) ----

  predicate IsWs(c: char) {
    c == ' ' || c == '\t' || c == '\n' || c == '\r'
  }

  type Ws = s: string | All(s, IsWs)

  // ---- strings (section 7) ----

  predicate IsHex(c: char) {
    '0' <= c <= '9' || 'a' <= c <= 'f' || 'A' <= c <= 'F'
  }

  function HexDigit(c: char): (h: nat)
    ensures h < 16
  {
    if '0' <= c <= '9' then c as int - '0' as int
    else if 'a' <= c <= 'f' then c as int - 'a' as int + 10
    else if 'A' <= c <= 'F' then c as int - 'A' as int + 10
    else 0
  }

  /** The number that `n` hexadecimal digits from `pos` on write. */
  function HexPrefix(s: string, pos: nat, n: nat): nat
    requires pos + n <= |s|
  {
    if n == 0 then 0 else 16 * HexPrefix(s, pos, n - 1) + HexDigit(s[pos + n - 1])
  }

  function HexValue(s: string): nat {
    HexPrefix(s, 0, |s|)
  }

  predicate Hex4(s: string) {
    |s| == 4 && IsHex(s[0]) && IsHex(s[1]) && IsHex(s[2]) && IsHex(s[3])
  }

  predicate HighSurrogate(cp: nat) {
    0xD800 <= cp <= 0xDBFF
  }

  predicate LowSurrogate(cp: nat) {
    0xDC00 <= cp <= 0xDFFF
  }

  lemma {:induction false} HexPrefix4(s: string, pos: nat)
    requires pos + 4 <= |s|
    ensures HexPrefix(s, pos, 4) ==
              4096 * HexDigit(s[pos]) + 256 * HexDigit(s[pos + 1]) + 16 * HexDigit(s[pos + 2]) + HexDigit(s[pos + 3])
    ensures HexPrefix(s, pos, 4) <= 0xFFFF
  {
    assert HexPrefix(s, pos, 1) == HexDigit(s[pos]);
    assert HexPrefix(s, pos, 2) == 16 * HexPrefix(s, pos, 1) + HexDigit(s[pos + 1]);
    assert HexPrefix(s, pos, 3) == 16 * HexPrefix(s, pos, 2) + HexDigit(s[pos + 2]);
  }

  /** One character of a string: as is, a two-character escape, `\uXXXX`, or a surrogate pair. */
  datatype AnyPiece = Raw(c: char) | Short(e: char) | Unit(hex: string) | Pair(hi: string, lo: string) {
    predicate WF() {
      match this
      case Raw(c) => c >= ' ' && c != '"' && c != '\\'
      case Short(e) => IsShort(e)
      case Unit(hex) => Hex4(hex) && !HighSurrogate(HexValue(hex)) && !LowSurrogate(HexValue(hex))
      case Pair(hi, lo) => Hex4(hi) && Hex4(lo) && HighSurrogate(HexValue(hi)) && LowSurrogate(HexValue(lo))
    }

    function Text(): string {
      match this
      case Raw(c) => [c]
      case Short(e) => ['\\', e]
      case Unit(hex) => "\\u" + hex
      case Pair(hi, lo) => "\\u" + (hi + ("\\u" + lo))
    }

    predicate IsUnicode() {
      Unit? || Pair?
    }

    /** The Unicode scalar value that a `\u` escape denotes. */
    function CodePoint(): (cp: nat)
      requires WF() && IsUnicode()
      ensures Utf8.Scalar(cp) && (Pair? <==> cp > 0xFFFF)
    {
      match this
      case Unit(hex) => HexPrefix4(hex, 0); HexValue(hex)
      case Pair(hi, lo) => 0x10000 + (HexValue(hi) - 0xD800) * 0x400 + (HexValue(lo) - 0xDC00)
    }

    /** The bytes that the piece contributes to the string. */
    function Bytes(): string
      requires WF()
    {
      match this
      case Raw(c) => [c]
      case Short(e) => [ShortMeaning(e)]
      case _ => Utf8.Encode(CodePoint())
    }
  }

  type Piece = p: AnyPiece | p.WF() witness Raw('a')

  predicate IsShort(e: char) {
    e == '"' || e == '\\' || e == '/' || e == 'b' || e == 'f' || e == 'n' || e == 'r' || e == 't'
  }

  function ShortMeaning(e: char): char {
    match e
    case 'b' => '\U{08}'
    case 'f' => '\U{0C}'
    case 'n' => '\n'
    case 'r' => '\r'
    case 't' => '\t'
    case _ => e
  }

  /** A string's bytes; the string is empty or its first piece is followed by the others. */
  function PiecesBytes(ps: seq<Piece>): string {
    if ps == [] then "" else ps[0].Bytes() + PiecesBytes(ps[1..])
  }

  /** The text of a string after its opening quote. */
  function QuotedText(ps: seq<Piece>): string {
    if ps == [] then "\"" else ps[0].Text() + QuotedText(ps[1..])
  }

  // ---- values (sections 3 to 6) ----

  datatype Tree =
    | TNull
    | TBool(b: bool)
    | TNumber(tok: Token)
    | TString(pieces: seq<Piece>)
    | TEmptyArray(gap: Ws)
    | TArray(elems: Elems)
    | TEmptyObject(gap: Ws)
    | TObject(members: Membs)

  /** A value with the white space on both its sides. */
  datatype Elem = Elem(before: Ws, tree: Tree, after: Ws)

  /** The elements of an array that has some. */
  datatype Elems = LastElem(elem: Elem) | MoreElems(elem: Elem, rest: Elems)

  /** A member: white space, key, white space, colon, value. */
  datatype Memb = Memb(before: Ws, key: seq<Piece>, mid: Ws, elem: Elem)

  /** The members of an object that has some. */
  datatype Membs = LastMemb(memb: Memb) | MoreMembs(memb: Memb, rest: Membs)

  function Text(t: Tree): string {
    match t
    case TNull => "null"
    case TBool(b) => if b then "true" else "false"
    case TNumber(tok) => tok.Text()
    case TString(ps) => "\"" + QuotedText(ps)
    case TEmptyArray(gap) => "[" + (gap + "]")
    case TArray(es) => "[" + ElemsText(es)
    case TEmptyObject(gap) => "{" + (gap + "}")
    case TObject(ms) => "{" + MembsText(ms)
  }

  function ElemText(e: Elem): string {
    e.before + (Text(e.tree) + e.after)
  }

  /** The text of an array after its opening bracket. */
  function ElemsText(es: Elems): string {
    ElemText(es.elem) + (if es.LastElem? then "]" else "," + ElemsText(es.rest))
  }

  function MembText(m: Memb): string {
    m.before + ("\"" + (QuotedText(m.key) + (m.mid + (":" + ElemText(m.elem)))))
  }

  /** The text of an object after its opening brace. */
  function MembsText(ms: Membs): string {
    MembText(ms.memb) + (if ms.LastMemb? then "}" else "," + MembsText(ms.rest))
  }

  // ---- the value denoted ----

  function Denote(t: Tree, conv: Conversion): Json {
    match t
    case TNull => Null
    case TBool(b) => Bool(b)
    case TNumber(tok) => Number(conv.round(tok.Value()).GetOr(NonFinite))
    case TString(ps) => String(PiecesBytes(ps))
    case TEmptyArray(_) => Array([])
    case TArray(es) => Array(DenoteElems(es, conv))
    case TEmptyObject(_) => Object(map[])
    case TObject(ms) => Object(DenoteMembs(ms, conv))
  }

  function DenoteElems(es: Elems, conv: Conversion): seq<Json> {
    [Denote(es.elem.tree, conv)] + if es.LastElem? then [] else DenoteElems(es.rest, conv)
  }

  /** Later members overwrite earlier ones. */
  function DenoteMembs(ms: Membs, conv: Conversion): map<string, Json> {
    map[PiecesBytes(ms.memb.key) := Denote(ms.memb.elem.tree, conv)]
    + if ms.LastMemb? then map[] else DenoteMembs(ms.rest, conv)
  }

  // ---- what the limits demand ----

  predicate StringFits(ps: seq<Piece>, depth: nat, limits: Limits) {
    depth < limits.maxDepth && |PiecesBytes(ps)| <= limits.maxString
  }

  predicate NumberFits(tok: Token, st: Setting) {
    var d := st.conv.round(tok.Value());
    d.Some? && (st.limits.rejectNonFinite ==> d.value.Finite?)
  }

  /** Arrays and objects open a level; a string, key or not, is refused at the deepest level too. */
  predicate Fits(t: Tree, depth: nat, st: Setting) {
    match t
    case TNumber(tok) => NumberFits(tok, st)
    case TString(ps) => StringFits(ps, depth, st.limits)
    case TEmptyArray(_) => depth < st.limits.maxDepth
    case TArray(es) => depth < st.limits.maxDepth && ElemsFit(es, depth + 1, st)
    case TEmptyObject(_) => depth < st.limits.maxDepth
    case TObject(ms) => depth < st.limits.maxDepth && MembsFit(ms, depth + 1, st)
    case _ => true
  }

  predicate ElemsFit(es: Elems, depth: nat, st: Setting) {
    Fits(es.elem.tree, depth, st) && (es.MoreElems? ==> ElemsFit(es.rest, depth, st))
  }

  predicate MembsFit(ms: Membs, depth: nat, st: Setting) {
    && StringFits(ms.memb.key, depth, st.limits)
    && Fits(ms.memb.elem.tree, depth, st)
    && (ms.MoreMembs? ==> MembsFit(ms.rest, depth, st))
  }

  /** A JSON text: one value and the white space around it. */
  ghost predicate Derives(doc: Elem, text: string, st: Setting) {
    ElemText(doc) == text && Fits(doc.tree, 0, st)
  }
}
