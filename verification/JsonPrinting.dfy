/** The canonical derivation that the serializer writes, and the text round trip. */
module JsonPrinting {
  import opened Options
  import opened Numbers
  import opened Ordering
  import opened JsonValue
  import opened JsonGrammar
  import opened JsonDescent
  import opened JsonParsing

  function LowerHex(d: nat): (c: char)
    requires d < 16
    ensures IsHex(c) && HexDigit(c) == d
  {
    if d < 10 then ('0' as int + d) as char else ('a' as int + d - 10) as char
  }

  /** How a character is written: control characters, quotes and backslashes are escaped. */
  function CanonPiece(c: char): (p: Piece)
    ensures p.Bytes() == [c]
  {
    match c
    case '"' => Short('"')
    case '\\' => Short('\\')
    case '\U{08}' => Short('b')
    case '\U{0C}' => Short('f')
    case '\n' => Short('n')
    case '\r' => Short('r')
    case '\t' => Short('t')
    case _ =>
      if c < ' ' then
        var hex := "00" + [LowerHex(c as int / 16), LowerHex(c as int % 16)];
        HexPrefix4(hex, 0);
        Unit(hex)
      else Raw(c)
  }

  function CanonPieces(s: string): (ps: seq<Piece>)
    ensures PiecesBytes(ps) == s
  {
    if s == "" then [] else [CanonPiece(s[0])] + CanonPieces(s[1..])
  }

  /** The derivation that the serializer writes: no white space, keys in order, minimal escapes. */
  ghost function Canon(v: Json, conv: Conversion): Tree
    decreases v, 1
  {
    match v
    case Null => TNull
    case Bool(b) => TBool(b)
    case Number(d) => if d.Finite? then TNumber(conv.Format(d.value)) else TNull
    case String(s) => TString(CanonPieces(s))
    case Array(items) => if items == [] then TEmptyArray("") else TArray(CanonElems(items, conv))
    case Object(members) =>
      if members == map[] then TEmptyObject("") else TObject(CanonMembs(v, SortedKeys(members.Keys), conv))
  }

  ghost function CanonElems(items: seq<Json>, conv: Conversion): Elems
    requires items != []
    decreases items
  {
    var e := Elem("", Canon(items[0], conv), "");
    if |items| == 1 then LastElem(e) else MoreElems(e, CanonElems(items[1..], conv))
  }

  ghost function CanonMembs(obj: Json, keys: seq<string>, conv: Conversion): Membs
    requires obj.Object? && keys != [] && forall k | k in keys :: k in obj.members
    decreases obj, 0, keys
  {
    var m := Memb("", CanonPieces(keys[0]), "", Elem("", Canon(obj.members[keys[0]], conv), ""));
    if |keys| == 1 then LastMemb(m) else MoreMembs(m, CanonMembs(obj, keys[1..], conv))
  }

  /** `json_serialize`: refused when a number is not finite. */
  ghost function Serialize(v: Json, conv: Conversion): Option<string> {
    if IsFinite(v) then Some(Text(Canon(v, conv))) else None
  }

  // ---- the canonical derivation denotes the value ----

  lemma {:induction false} CanonDenotes(v: Json, conv: Conversion)
    requires conv.Faithful() && Representable(v, conv)
    ensures Denote(Canon(v, conv), conv) == Surviving(v)
    decreases v, 1
  {
    hide CanonMembs, CanonElems, CanonPieces, DenoteMembs, DenoteElems, PiecesBytes, SortedKeys;
    hide NumTok.Value, Survivor, Conversion.Format, Conversion.Faithful;
    match v
    case Number(Finite(d)) => FormatReadsBack(conv, d);
    case Array(items) => if items != [] { CanonElemsDenote(items, conv); }
    case Object(members) =>
      if members != map[] {
        SortedKeysDistinct(members.Keys);
        CanonMembsDenote(v, SortedKeys(members.Keys), conv);
      }
    case _ =>
  }

  lemma {:induction false} SortedKeysDistinct(s: set<string>)
    ensures forall i, j | 0 <= i < j < |s| :: SortedKeys(s)[i] != SortedKeys(s)[j]
  {
    SortedKeysAscend(s);
    forall i, j | 0 <= i < j < |s| ensures SortedKeys(s)[i] != SortedKeys(s)[j] {
      BeforeTotal(SortedKeys(s)[i], SortedKeys(s)[j]);
    }
  }

  lemma {:induction false} CanonElemsDenote(items: seq<Json>, conv: Conversion)
    requires conv.Faithful() && items != [] && forall i | 0 <= i < |items| :: Representable(items[i], conv)
    ensures DenoteElems(CanonElems(items, conv), conv) == Surviving(Array(items)).items
    decreases items
  {
    CanonDenotes(items[0], conv);
    if |items| > 1 { CanonElemsDenote(items[1..], conv); }
  }

  lemma {:induction false} CanonMembsDenote(obj: Json, keys: seq<string>, conv: Conversion)
    requires conv.Faithful() && obj.Object? && keys != []
    requires forall k | k in keys :: k in obj.members && Representable(obj.members[k], conv)
    requires forall i, j | 0 <= i < j < |keys| :: keys[i] != keys[j]
    ensures var d := DenoteMembs(CanonMembs(obj, keys, conv), conv);
            forall k :: (k in d <==> k in keys) && (k in keys ==> d[k] == Surviving(obj.members[k]))
    decreases obj, 0, keys
  {
    hide Canon, Denote, PiecesBytes, CanonPieces, Conversion.Faithful, Representable, Surviving;
    CanonDenotes(obj.members[keys[0]], conv);
    if |keys| > 1 { CanonMembsDenote(obj, keys[1..], conv); }
  }

  // ---- what the limits demand of a value ----

  /** A string needs a level of its own, so an object with members needs at least two. */
  ghost predicate ValueFits(v: Json, depth: nat, limits: Limits) {
    match v
    case String(s) => depth < limits.maxDepth && |s| <= limits.maxString
    case Array(items) =>
      && depth < limits.maxDepth
      && forall i | 0 <= i < |items| :: ValueFits(items[i], depth + 1, limits)
    case Object(members) =>
      && depth < limits.maxDepth
      && forall k | k in members ::
           depth + 1 < limits.maxDepth && |k| <= limits.maxString && ValueFits(members[k], depth + 1, limits)
    case _ => true
  }

  lemma {:induction false} CanonFits(v: Json, depth: nat, st: Setting)
    requires st.conv.Faithful() && Representable(v, st.conv)
    ensures Fits(Canon(v, st.conv), depth, st) <==> ValueFits(v, depth, st.limits)
    decreases v, 1
  {
    hide CanonMembs, CanonElems, CanonPieces, ElemsFit, MembsFit, PiecesBytes, SortedKeys;
    hide NumTok.Value, Survivor, Conversion.Format;
    match v
    case Number(Finite(d)) => FormatReadsBack(st.conv, d);
    case Array(items) => if items != [] { CanonElemsFit(items, depth + 1, st); }
    case Object(members) =>
      if members != map[] {
        CanonMembsFit(v, SortedKeys(members.Keys), depth + 1, st);
      }
    case _ =>
  }

  lemma {:induction false} CanonElemsFit(items: seq<Json>, depth: nat, st: Setting)
    requires st.conv.Faithful() && items != [] && forall i | 0 <= i < |items| :: Representable(items[i], st.conv)
    ensures ElemsFit(CanonElems(items, st.conv), depth, st) <==>
              forall i | 0 <= i < |items| :: ValueFits(items[i], depth, st.limits)
    decreases items
  {
    CanonFits(items[0], depth, st);
    if |items| > 1 {
      CanonElemsFit(items[1..], depth, st);
      assert forall i | 1 <= i < |items| :: items[i] == items[1..][i - 1];
    }
  }

  ghost predicate KeysFit(obj: Json, keys: seq<string>, depth: nat, limits: Limits)
    requires obj.Object? && forall k | k in keys :: k in obj.members
  {
    forall k | k in keys ::
      depth < limits.maxDepth && |k| <= limits.maxString && ValueFits(obj.members[k], depth, limits)
  }

  lemma {:induction false} CanonMembsFit(obj: Json, keys: seq<string>, depth: nat, st: Setting)
    requires st.conv.Faithful() && Representable(obj, st.conv)
    requires obj.Object? && keys != [] && forall k | k in keys :: k in obj.members
    ensures MembsFit(CanonMembs(obj, keys, st.conv), depth, st) <==> KeysFit(obj, keys, depth, st.limits)
    decreases obj, 0, keys
  {
    CanonFits(obj.members[keys[0]], depth, st);
    if |keys| > 1 { CanonMembsFit(obj, keys[1..], depth, st); }
  }

  // ---- round trip ----

  /** Parsing what was serialized: it succeeds exactly when the value is within the limits, and then
      gives the value back with each number replaced by what survives printing. */
  lemma {:induction false} ParseSerialized(v: Json, st: Setting)
    requires st.conv.Faithful() && Representable(v, st.conv)
    ensures var text := Text(Canon(v, st.conv));
            ParseText(text, st) ==
              if |text| <= st.limits.maxBytes && ValueFits(v, 0, st.limits) then Some(Surviving(v)) else None
  {
    var doc := Elem("", Canon(v, st.conv), "");
    var text := Text(doc.tree);
    assert ElemText(doc) == text;
    CanonFits(v, 0, st);
    CanonDenotes(v, st.conv);
    DocumentIffDerives(text, doc, st);
    match Document(text, st)
    case Some(doc') =>
      DocumentIffDerives(text, doc', st);
      Unambiguous(doc, doc');
    case None =>
  }

  /** The text round trip holds exactly for the values within the limits in which no number is 2^63. */
  lemma {:induction false} RoundTripIff(v: Json, st: Setting)
    requires st.conv.Faithful() && Representable(v, st.conv)
    ensures var text := Text(Canon(v, st.conv));
            ParseText(text, st) == Some(v) <==>
              |text| <= st.limits.maxBytes && ValueFits(v, 0, st.limits) && NoOverflow(v)
  {
    ParseSerialized(v, st);
    SurvivesIff(v);
  }

  /** The number for which the round trip fails, on a platform where casts wrap. */
  lemma {:induction false} Two63DoesNotRoundTrip(st: Setting)
    requires st.conv.Faithful()
    ensures ParseText(Text(Canon(Number(Finite(TWO63 as real)), st.conv)), st) != Some(Number(Finite(TWO63 as real)))
  {
    TenBits();
    ScaledIsDouble(st.conv, TWO63, TWO53, 10);
    RoundTripIff(Number(Finite(TWO63 as real)), st);
  }
}
