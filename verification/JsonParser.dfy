/** The strict parser: a cursor, a depth counter and a failure flag, updated in place. */
module JsonParser {
  import opened Options
  import opened Scanning
  import opened Numbers
  import opened JsonValue
  import opened JsonGrammar
  import opened JsonDescent
  import opened JsonLexing
  import opened JsonParsing
  import Utf8

  // ---- what is left to parse, as values ----

  /** The bytes of the rest of a string of which `used` bytes are decoded. */
  function RestOfString(text: string, pos: nat, used: nat, maxString: nat): Parsed<string>
    requires pos <= |text|
  {
    match Pieces(text, pos, used, maxString)
    case Ok(ps, end) => Ok(PiecesBytes(ps), end)
    case Fail => Fail
  }

  function NodeValue(text: string, pos: nat, depth: nat, st: Setting): (r: Parsed<Json>)
    requires pos <= |text|
    ensures r.Ok? ==> pos < r.pos <= |text|
  {
    match Node(text, pos, depth, st)
    case Ok(t, end) => Ok(Denote(t, st.conv), end)
    case Fail => Fail
  }

  function StringValue(text: string, pos: nat, depth: nat, st: Setting): (r: Parsed<Json>)
    requires pos < |text|
    ensures r.Ok? ==> pos < r.pos <= |text|
  {
    match QuotedString(text, pos, depth, st.limits)
    case Ok(ps, end) => Ok(String(PiecesBytes(ps)), end)
    case Fail => Fail
  }

  function NumberValue(text: string, pos: nat, st: Setting): Parsed<Json>
    requires pos <= |text|
  {
    match NumberToken(text, pos)
    case Ok(tok, end) => if NumberFits(tok, st) then Ok(Denote(TNumber(tok), st.conv), end) else Fail
    case Fail => Fail
  }

  function LiteralValue(text: string, pos: nat, lit: string, v: Json): Parsed<Json> {
    if At(text, pos, lit) then Ok(v, pos + |lit|) else Fail
  }

  function RestOfArray(text: string, pos: nat, depth: nat, st: Setting): Parsed<seq<Json>>
    requires pos <= |text|
  {
    match ElemList(text, pos, depth, st)
    case Ok(es, end) => Ok(DenoteElems(es, st.conv), end)
    case Fail => Fail
  }

  function RestOfObject(text: string, pos: nat, depth: nat, st: Setting): Parsed<map<string, Json>>
    requires pos <= |text|
  {
    match MembList(text, pos, depth, st)
    case Ok(ms, end) => Ok(DenoteMembs(ms, st.conv), end)
    case Fail => Fail
  }

  function ArrayValue(text: string, pos: nat, depth: nat, st: Setting): Parsed<Json>
    requires pos < |text|
  {
    var p := pos + 1 + |Blank(text, pos + 1)|;
    if depth >= st.limits.maxDepth then Fail
    else if CharAt(text, p, ']') then Ok(Array([]), p + 1)
    else
      match RestOfArray(text, pos + 1, depth + 1, st)
      case Ok(vs, end) => Ok(Array(vs), end)
      case Fail => Fail
  }

  function ObjectValue(text: string, pos: nat, depth: nat, st: Setting): Parsed<Json>
    requires pos < |text|
  {
    var p := pos + 1 + |Blank(text, pos + 1)|;
    if depth >= st.limits.maxDepth then Fail
    else if CharAt(text, p, '}') then Ok(Object(map[]), p + 1)
    else
      match RestOfObject(text, pos + 1, depth + 1, st)
      case Ok(m, end) => Ok(Object(m), end)
      case Fail => Fail
  }

  lemma {:induction false} NodeValueByStart(text: string, pos: nat, depth: nat, st: Setting)
    requires pos < |text|
    ensures NodeValue(text, pos, depth, st) ==
              match text[pos]
              case '{' => ObjectValue(text, pos, depth, st)
              case '[' => ArrayValue(text, pos, depth, st)
              case '"' => StringValue(text, pos, depth, st)
              case 't' => LiteralValue(text, pos, "true", Bool(true))
              case 'f' => LiteralValue(text, pos, "false", Bool(false))
              case 'n' => LiteralValue(text, pos, "null", Null)
              case c => if c == '-' || IsDigit(c) then NumberValue(text, pos, st) else Fail
  {
    hide Blank, ElemList, MembList, DenoteElems, DenoteMembs, QuotedString, NumberToken, At, PiecesBytes,
         NumTok.Value;
    match text[pos]
    case '{' => assert Node(text, pos, depth, st) == ObjectNode(text, pos, depth, st);
    case '[' => assert Node(text, pos, depth, st) == ArrayNode(text, pos, depth, st);
    case _ =>
  }

  function After<T>(done: seq<T>, rest: Parsed<seq<T>>): Parsed<seq<T>> {
    match rest
    case Ok(more, end) => Ok(done + more, end)
    case Fail => Fail
  }

  lemma {:induction false} AfterNothing<T>(rest: Parsed<seq<T>>)
    ensures After([], rest) == rest
  {
    if rest.Ok? { assert [] + rest.value == rest.value; }
  }

  function Overwritten(done: map<string, Json>, rest: Parsed<map<string, Json>>): Parsed<map<string, Json>> {
    match rest
    case Ok(more, end) => Ok(done + more, end)
    case Fail => Fail
  }

  lemma {:induction false} OverwrittenNothing(rest: Parsed<map<string, Json>>)
    ensures Overwritten(map[], rest) == rest
  {
    if rest.Ok? { assert map[] + rest.value == rest.value; }
  }

  class Parser {
    const text: string
    const st: Setting
    var pos: nat
    var depth: nat
    var failed: bool

    ghost predicate Valid()
      reads this
    {
      pos <= |text| && depth <= st.limits.maxDepth
    }

    constructor (text: string, st: Setting)
      ensures this.text == text && this.st == st
      ensures Valid() && pos == 0 && depth == 0 && !failed
    {
      this.text, this.st := text, st;
      pos, depth, failed := 0, 0, false;
    }

    predicate AtEnd()
      reads this
    {
      pos >= |text|
    }

    function Peek(): char
      reads this
    {
      if pos < |text| then text[pos] else '\0'
    }

    method Get() returns (c: char)
      requires Valid()
      modifies this`pos
      ensures Valid() && c == old(Peek())
      ensures pos == if old(pos) < |text| then old(pos) + 1 else old(pos)
    {
      if pos < |text| {
        c := text[pos];
        pos := pos + 1;
      } else {
        c := '\0';
      }
    }

    method SkipWs()
      requires Valid()
      modifies this`pos
      ensures Valid() && pos == old(pos) + |Blank(text, old(pos))|
      ensures !KindAt(text, pos, IsWs)
    {
      while !AtEnd()
        invariant Valid()
        invariant pos + |Blank(text, pos)| == old(pos) + |Blank(text, old(pos))|
        decreases |text| - pos
      {
        if IsWs(text[pos]) { pos := pos + 1; } else { break; }
      }
    }

    method SkipDigits()
      requires Valid()
      modifies this`pos
      ensures Valid() && pos == old(pos) + |Digits(text, old(pos))|
    {
      while !AtEnd() && IsDigit(Peek())
        invariant Valid()
        invariant pos + |Digits(text, pos)| == old(pos) + |Digits(text, old(pos))|
        decreases |text| - pos
      {
        var _ := Get();
      }
    }

    method Fail() returns (ok: bool)
      modifies this`failed
      ensures failed && !ok
    {
      failed := true;
      ok := false;
    }

    /** The outcome of a parse from an old position: the value and the position after it, at the old
        depth; or failure. */
    twostate predicate Outcome<T>(ok: bool, out: T, expected: Parsed<T>)
      reads this
    {
      && Valid()
      && (ok <==> expected.Ok?)
      && (ok ==> out == expected.value && pos == expected.pos && depth == old(depth) && !failed)
      && (!ok ==> failed)
    }

    method ParseLiteral(lit: string, value: Json) returns (ok: bool, out: Json)
      requires Valid() && !failed
      modifies this
      ensures Outcome(ok, out, LiteralValue(text, old(pos), lit, value))
    {
      out := Null;
      AtSlice(text, pos, lit);
      var end := if pos + |lit| <= |text| then pos + |lit| else |text|;
      if text[pos..end] != lit {
        ok := Fail();
        return;
      }
      pos := pos + |lit|;
      out := value;
      ok := true;
    }

    method ReadHex4() returns (ok: bool, cp: nat)
      requires Valid() && !failed
      modifies this
      ensures Valid() && depth == old(depth)
      ensures match FourHex(text, old(pos))
              case Ok(hex, end) => ok && cp == HexValue(hex) <= 0xFFFF && pos == end && !failed
              case Fail => !ok && failed
    {
      hide HexDigit, IsHex;
      cp := 0;
      var i := 0;
      while i < 4
        invariant i <= 4 && pos == old(pos) + i <= |text| && !failed && depth == old(depth)
        invariant cp == HexPrefix(text, old(pos), i)
        invariant forall j | old(pos) <= j < pos :: IsHex(text[j])
      {
        if AtEnd() {
          ok := Fail();
          return;
        }
        var c := Get();
        if !IsHex(c) {
          assert i == 0 || i == 1 || i == 2 || i == 3;
          ok := Fail();
          return;
        }
        cp := 16 * cp + HexDigit(c);
        i := i + 1;
      }
      HexPrefix4(text, old(pos));
      HexPrefix4([text[old(pos)], text[old(pos) + 1], text[old(pos) + 2], text[old(pos) + 3]], 0);
      ok := true;
    }

    /** After `\u`: appends the UTF-8 encoding of the escaped character. */
    method ParseUnicodeEscape(str: string) returns (ok: bool, out: string)
      requires Valid() && !failed
      modifies this
      ensures Valid() && depth == old(depth)
      ensures match UnicodeEscape(text, old(pos))
              case Ok(p, end) =>
                && ok && out == str + p.Bytes() && pos == end && !failed
                && p.IsUnicode() && Utf8.WellFormed(p.Bytes()) && Utf8.Decode(p.Bytes()) == p.CodePoint()
              case Fail => !ok && failed
    {
      hide Utf8.Encode, Utf8.Decode, Utf8.WellFormed, FourHex, HexValue;
      ghost var escape := UnicodeEscape(text, pos);
      out := str;
      var cp;
      ok, cp := ReadHex4();
      if !ok { return; }
      if HighSurrogate(cp) {
        EscapeAt(text, pos);
        if pos + 1 >= |text| || text[pos] != '\\' || text[pos + 1] != 'u' {
          ok := Fail();
          return;
        }
        pos := pos + 2;
        var lo;
        ok, lo := ReadHex4();
        if !ok { return; }
        if !LowSurrogate(lo) {
          ok := Fail();
          return;
        }
        cp := 0x10000 + (cp - 0xD800) * 0x400 + (lo - 0xDC00);
      } else if LowSurrogate(cp) {
        ok := Fail();
        return;
      }
      out := str + Utf8.Encode(cp);
      EscapeBytes(escape.value);
    }

    /** One character of a string, escaped or not. */
    method ParseCharacter(str: string) returns (ok: bool, out: string)
      requires Valid() && !failed && pos < |text| && text[pos] != '"'
      modifies this
      ensures Valid() && depth == old(depth)
      ensures match OnePiece(text, old(pos))
              case Ok(p, end) => ok && out == str + p.Bytes() && pos == end && !failed
              case Fail => !ok && failed
    {
      hide UnicodeEscape, Utf8.Encode;
      out := str;
      ok := true;
      var c := Get();
      if c < ' ' {
        ok := Fail();
      } else if c == '\\' {
        if AtEnd() {
          ok := Fail();
          return;
        }
        var e := Get();
        if e == 'u' {
          ok, out := ParseUnicodeEscape(str);
        } else if IsShort(e) {
          out := str + [ShortMeaning(e)];
        } else {
          ok := Fail();
        }
      } else {
        out := str + [c];
      }
    }

    method ParseString() returns (ok: bool, out: Json)
      requires Valid() && !failed && CharAt(text, pos, '"')
      modifies this
      ensures Outcome(ok, out, StringValue(text, old(pos), old(depth), st))
    {
      hide OnePiece, Pieces, PiecesBytes, AnyPiece.Bytes;
      out := Null;
      if depth >= st.limits.maxDepth {
        ok := Fail();
        return;
      }
      var _ := Get();
      var str := "";
      ghost var start, max := pos, st.limits.maxString;
      AfterNothing(RestOfString(text, start, 0, max));
      while true
        invariant Valid() && !failed && depth == old(depth)
        invariant RestOfString(text, start, 0, max) == After(str, RestOfString(text, pos, |str|, max))
        decreases |text| - pos
      {
        StringStep(text, pos, str, max);
        if AtEnd() {
          ok := Fail();
          return;
        }
        if Peek() == '"' {
          var _ := Get();
          break;
        }
        ok, str := ParseCharacter(str);
        if !ok { return; }
        if |str| > st.limits.maxString {
          ok := Fail();
          return;
        }
      }
      out := String(str);
      ok := true;
    }

    method ScanFraction() returns (ok: bool)
      requires Valid() && !failed
      modifies this
      ensures Valid() && depth == old(depth)
      ensures match Fraction(text, old(pos))
              case Ok(_, end) => ok && pos == end && !failed
              case Fail => !ok && failed
    {
      hide Run;
      if !AtEnd() && Peek() == '.' {
        var _ := Get();
        if AtEnd() || !IsDigit(Peek()) {
          ok := Fail();
          return;
        }
        SkipDigits();
      }
      ok := true;
    }

    method ScanExponent() returns (ok: bool)
      requires Valid() && !failed
      modifies this
      ensures Valid() && depth == old(depth)
      ensures match ExponentPart(text, old(pos))
              case Ok(_, end) => ok && pos == end && !failed
              case Fail => !ok && failed
    {
      hide Run;
      if !AtEnd() && (Peek() == 'e' || Peek() == 'E') {
        var _ := Get();
        if !AtEnd() && (Peek() == '+' || Peek() == '-') { var _ := Get(); }
        if AtEnd() || !IsDigit(Peek()) {
          ok := Fail();
          return;
        }
        SkipDigits();
      }
      ok := true;
    }

    method ParseNumber() returns (ok: bool, out: Json)
      requires Valid() && !failed
      modifies this
      ensures Outcome(ok, out, NumberValue(text, old(pos), st))
    {
      hide Digits, Fraction, ExponentPart, FromChars, NumTok.Value, NumTok.WF;
      out := Null;
      var start := pos;
      if Peek() == '-' { var _ := Get(); }
      if AtEnd() {
        ok := Fail();
        return;
      }
      if Peek() == '0' {
        var _ := Get();
      } else if '1' <= Peek() <= '9' {
        SkipDigits();
      } else {
        ok := Fail();
        return;
      }
      ok := ScanFraction();
      if !ok { return; }
      ok := ScanExponent();
      if !ok { return; }
      TokenSlice(text, start, st.conv);
      var value := FromChars(st.conv, text[start..pos]);
      if value.None? {
        ok := Fail();
        return;
      }
      if value.value.NonFinite? && st.limits.rejectNonFinite {
        ok := Fail();
        return;
      }
      out := Number(value.value);
      ok := true;
    }

    method ParseValue() returns (ok: bool, out: Json)
      requires Valid()
      modifies this
      ensures old(failed) ==> !ok && failed
      ensures !old(failed) ==>
                Outcome(ok, out, NodeValue(text, old(pos) + |Blank(text, old(pos))|, old(depth), st))
      decreases |text| - pos, 1
    {
      hide Blank, ObjectValue, ArrayValue, StringValue, NumberValue, LiteralValue;
      ok, out := false, Null;
      if failed { return; }
      SkipWs();
      if AtEnd() {
        ok := Fail();
        return;
      }
      NodeValueByStart(text, pos, depth, st);
      var c := Peek();
      if c == '{' {
        ok, out := ParseObject();
      } else if c == '[' {
        ok, out := ParseArray();
      } else if c == '"' {
        ok, out := ParseString();
      } else if c == 't' {
        ok, out := ParseLiteral("true", Bool(true));
      } else if c == 'f' {
        ok, out := ParseLiteral("false", Bool(false));
      } else if c == 'n' {
        ok, out := ParseLiteral("null", Null);
      } else if c == '-' || '0' <= c <= '9' {
        ok, out := ParseNumber();
      } else {
        ok := Fail();
      }
    }

    method ParseArray() returns (ok: bool, out: Json)
      requires Valid() && !failed && CharAt(text, pos, '[')
      modifies this
      ensures Outcome(ok, out, ArrayValue(text, old(pos), old(depth), st))
      decreases |text| - pos, 0
    {
      hide Blank, NodeValue, StringValue, RestOfArray, RestOfObject;
      out := Null;
      if depth >= st.limits.maxDepth {
        ok := Fail();
        return;
      }
      depth := depth + 1;
      var _ := Get();
      var arr := [];
      ghost var start := pos;
      SkipWs();
      if Peek() == ']' {
        var _ := Get();
        depth := depth - 1;
        out := Array(arr);
        ok := true;
        return;
      }
      ArrayAfterBlank(text, start, depth, st);
      AfterNothing(RestOfArray(text, pos, depth, st));
      while true
        invariant Valid() && !failed && depth == old(depth) + 1 && pos > old(pos)
        invariant RestOfArray(text, start, depth, st) == After(arr, RestOfArray(text, pos, depth, st))
        decreases |text| - pos
      {
        ArrayStep(text, pos, arr, depth, st);
        var val;
        ok, val := ParseValue();
        if !ok { return; }
        arr := arr + [val];
        SkipWs();
        var e := Get();
        if e == ']' {
          depth := depth - 1;
          out := Array(arr);
          return;
        }
        if e != ',' {
          ok := Fail();
          return;
        }
      }
    }

    method ParseMember() returns (ok: bool, key: string, val: Json)
      requires Valid() && !failed
      modifies this
      ensures Outcome(ok, (key, val), MemberValue(text, old(pos), old(depth), st))
      decreases |text| - pos, 2
    {
      hide Blank, NodeValue, StringValue, MemberValue;
      MemberParts(text, pos, depth, st);
      key, val := "", Null;
      SkipWs();
      if Peek() != '"' {
        ok := Fail();
        return;
      }
      var k;
      ok, k := ParseString();
      if !ok { return; }
      SkipWs();
      if Peek() != ':' {
        ok := Fail();
        return;
      }
      var _ := Get();
      ok, val := ParseValue();
      if !ok { return; }
      key := k.AsString().GetOr("");
      SkipWs();
    }

    method ParseObject() returns (ok: bool, out: Json)
      requires Valid() && !failed && CharAt(text, pos, '{')
      modifies this
      ensures Outcome(ok, out, ObjectValue(text, old(pos), old(depth), st))
      decreases |text| - pos, 0
    {
      hide Blank, MemberValue, RestOfObject;
      out := Null;
      if depth >= st.limits.maxDepth {
        ok := Fail();
        return;
      }
      depth := depth + 1;
      var _ := Get();
      var obj: map<string, Json> := map[];
      ghost var start := pos;
      SkipWs();
      if Peek() == '}' {
        var _ := Get();
        depth := depth - 1;
        out := Object(obj);
        ok := true;
        return;
      }
      ObjectAfterBlank(text, start, depth, st);
      OverwrittenNothing(RestOfObject(text, pos, depth, st));
      while true
        invariant Valid() && !failed && depth == old(depth) + 1 && pos > old(pos)
        invariant RestOfObject(text, start, depth, st) == Overwritten(obj, RestOfObject(text, pos, depth, st))
        decreases |text| - pos
      {
        ObjectStep(text, pos, obj, depth, st);
        var key, val;
        ok, key, val := ParseMember();
        if !ok { return; }
        obj := obj[key := val];
        var e := Get();
        if e == '}' {
          depth := depth - 1;
          out := Object(obj);
          return;
        }
        if e != ',' {
          ok := Fail();
          return;
        }
      }
    }
  }

  // ---- one step of each loop ----

  lemma {:induction false} StringStep(text: string, pos: nat, str: string, maxString: nat)
    requires pos <= |text|
    ensures var rest := After(str, RestOfString(text, pos, |str|, maxString));
            if pos == |text| then rest == Fail
            else if text[pos] == '"' then rest == Ok(str, pos + 1)
            else
              match OnePiece(text, pos)
              case Ok(p, q) =>
                var str' := str + p.Bytes();
                rest == if |str'| > maxString then Fail else After(str', RestOfString(text, q, |str'|, maxString))
              case Fail => rest == Fail
  {
    hide OnePiece, AnyPiece.Bytes, AnyPiece.WF;
    if pos == |text| {
    } else if text[pos] == '"' {
      assert str + "" == str;
    } else {
      match OnePiece(text, pos)
      case Ok(p, q) =>
        match Pieces(text, q, |str| + |p.Bytes()|, maxString) {
          case Ok(ps, _) =>
            assert PiecesBytes([p] + ps) == p.Bytes() + PiecesBytes(ps) by { assert ([p] + ps)[1..] == ps; }
            assert str + (p.Bytes() + PiecesBytes(ps)) == (str + p.Bytes()) + PiecesBytes(ps);
          case Fail =>
        }
      case Fail =>
    }
  }

  /** The characters of a token are read by `std::from_chars` as the number it denotes. */
  lemma {:induction false} TokenSlice(text: string, pos: nat, conv: Conversion)
    requires pos <= |text|
    ensures match NumberToken(text, pos)
            case Ok(tok, end) => FromChars(conv, text[pos..end]) == conv.round(tok.Value())
            case Fail => true
  {
    hide NumberToken, NumTok.Value, NumTok.Text;
    match NumberToken(text, pos)
    case Ok(tok, end) =>
      NumberSound(text, pos);
      AtSlice(text, pos, tok.Text());
      FromCharsReadsToken(conv, tok);
    case Fail =>
  }

  lemma {:induction false} BlankAfterBlank(text: string, pos: nat)
    requires pos <= |text|
    ensures Blank(text, pos + |Blank(text, pos)|) == ""
  {
  }

  lemma {:induction false} ArrayAfterBlank(text: string, pos: nat, depth: nat, st: Setting)
    requires pos <= |text|
    ensures RestOfArray(text, pos, depth, st) == RestOfArray(text, pos + |Blank(text, pos)|, depth, st)
  {
    hide Blank, Node, Denote;
    BlankAfterBlank(text, pos);
    var p := pos + |Blank(text, pos)|;
    match Element(text, pos, depth, st)
    case Ok(e, end) => assert Element(text, p, depth, st) == Ok(Elem("", e.tree, e.after), end);
    case Fail => assert Element(text, p, depth, st) == Fail;
  }

  lemma {:induction false} ObjectAfterBlank(text: string, pos: nat, depth: nat, st: Setting)
    requires pos <= |text|
    ensures RestOfObject(text, pos, depth, st) == RestOfObject(text, pos + |Blank(text, pos)|, depth, st)
  {
    hide Blank, Element, QuotedString, Denote;
    BlankAfterBlank(text, pos);
    var p := pos + |Blank(text, pos)|;
    match Member(text, pos, depth, st)
    case Ok(m, end) => assert Member(text, p, depth, st) == Ok(Memb("", m.key, m.mid, m.elem), end);
    case Fail => assert Member(text, p, depth, st) == Fail;
  }

  /** The next element, the white space after it, and the character after that. */
  lemma {:induction false} ArrayStep(text: string, pos: nat, arr: seq<Json>, depth: nat, st: Setting)
    requires pos <= |text|
    ensures var rest := RestOfArray(text, pos, depth, st);
            match NodeValue(text, pos + |Blank(text, pos)|, depth, st)
            case Ok(v, q) =>
              var p := q + |Blank(text, q)|;
              After(arr, rest) ==
                (if CharAt(text, p, ']') then Ok(arr + [v], p + 1)
                 else if CharAt(text, p, ',') then After(arr + [v], RestOfArray(text, p + 1, depth, st))
                 else Fail)
            case Fail => rest == Fail
  {
    hide Node, Denote, Blank;
    assert Element(text, pos, depth, st) ==
      match Node(text, pos + |Blank(text, pos)|, depth, st)
      case Ok(t, q) => Ok(Elem(Blank(text, pos), t, Blank(text, q)), q + |Blank(text, q)|)
      case Fail => Fail;
    match ElemList(text, pos, depth, st)
    case Ok(MoreElems(e, es), _) =>
      var v, vs := Denote(e.tree, st.conv), DenoteElems(es, st.conv);
      assert arr + ([v] + vs) == (arr + [v]) + vs;
    case Ok(LastElem(e), _) =>
      assert DenoteElems(LastElem(e), st.conv) == [Denote(e.tree, st.conv)];
    case _ =>
  }

  /** A member's key and value, and the position after the white space that follows. */
  function MemberValue(text: string, pos: nat, depth: nat, st: Setting): (r: Parsed<(string, Json)>)
    requires pos <= |text|
    ensures r.Ok? ==> pos < r.pos <= |text|
  {
    match Member(text, pos, depth, st)
    case Ok(m, end) => Ok((PiecesBytes(m.key), Denote(m.elem.tree, st.conv)), end)
    case Fail => Fail
  }

  lemma {:induction false} MemberParts(text: string, pos: nat, depth: nat, st: Setting)
    requires pos <= |text|
    ensures var p := pos + |Blank(text, pos)|;
            var r := MemberValue(text, pos, depth, st);
            if !CharAt(text, p, '"') then r == Fail
            else
              match StringValue(text, p, depth, st)
              case Fail => r == Fail
              case Ok(key, q) =>
                var x := q + |Blank(text, q)|;
                if !CharAt(text, x, ':') then r == Fail
                else
                  match NodeValue(text, x + 1 + |Blank(text, x + 1)|, depth, st)
                  case Fail => r == Fail
                  case Ok(v, y) => key.String? && r == Ok((key.str, v), y + |Blank(text, y)|)
  {
    hide Node, Denote, Blank, QuotedString, PiecesBytes;
    var p := pos + |Blank(text, pos)|;
    if CharAt(text, p, '"') && QuotedString(text, p, depth, st.limits).Ok? {
      var q := QuotedString(text, p, depth, st.limits).pos;
      var x := q + |Blank(text, q)| + 1;
      if x <= |text| {
        assert Element(text, x, depth, st) ==
          match Node(text, x + |Blank(text, x)|, depth, st)
          case Ok(t, y) => Ok(Elem(Blank(text, x), t, Blank(text, y)), y + |Blank(text, y)|)
          case Fail => Fail;
      }
    }
  }

  lemma {:induction false} ObjectStep(text: string, pos: nat, obj: map<string, Json>, depth: nat, st: Setting)
    requires pos <= |text|
    ensures var rest := RestOfObject(text, pos, depth, st);
            match MemberValue(text, pos, depth, st)
            case Ok((k, v), p) =>
              Overwritten(obj, rest) ==
                (if CharAt(text, p, '}') then Ok(obj[k := v], p + 1)
                 else if CharAt(text, p, ',') then Overwritten(obj[k := v], RestOfObject(text, p + 1, depth, st))
                 else Fail)
            case Fail => rest == Fail
  {
    hide Member, Denote, PiecesBytes;
    match MembList(text, pos, depth, st)
    case Ok(MoreMembs(m, ms), _) =>
      var k, v, more := PiecesBytes(m.key), Denote(m.elem.tree, st.conv), DenoteMembs(ms, st.conv);
      assert obj + (map[k := v] + more) == obj[k := v] + more;
    case Ok(LastMemb(m), _) =>
      var k, v := PiecesBytes(m.key), Denote(m.elem.tree, st.conv);
      assert obj + (map[k := v] + map[]) == obj[k := v];
    case _ =>
  }

  /** `json_parse`. */
  method JsonParse(text: string, st: Setting) returns (r: Option<Json>)
    ensures r == ParseText(text, st)
  {
    if |text| > st.limits.maxBytes { return None; }
    var p := new Parser(text, st);
    var ok, root := p.ParseValue();
    if !ok { return None; }
    p.SkipWs();
    if !p.AtEnd() { return None; }
    return Some(root);
  }
}
