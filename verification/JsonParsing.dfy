/** Descent accepts exactly the texts of the grammar, and finds their only derivation. */
module JsonParsing {
  import opened Options
  import opened Scanning
  import opened Numbers
  import opened JsonValue
  import opened JsonGrammar
  import opened JsonDescent
  import opened JsonLexing

  // ---- soundness: what descent finds is there, and within the limits ----

  lemma {:induction false} NodeSound(text: string, pos: nat, depth: nat, st: Setting)
    requires pos <= |text|
    ensures var r := Node(text, pos, depth, st);
            r.Ok? ==>
              At(text, pos, Text(r.value)) && r.pos == pos + |Text(r.value)| && Fits(r.value, depth, st)
    decreases |text| - pos, 0
  {
    hide NumberToken, Pieces, NumTok.Text, NumTok.WF, ArrayNode, ObjectNode, PiecesBytes, NumberFits;
    hide QuotedText;
    var r := Node(text, pos, depth, st);
    if r.Ok? {
      match text[pos]
      case '{' => ObjectSound(text, pos, depth, st);
      case '[' => ArraySound(text, pos, depth, st);
      case '"' =>
        PiecesSound(text, pos + 1, 0, st.limits.maxString);
        AtConcat(text, pos, "\"", QuotedText(r.value.pieces));
        CharIsAt(text, pos, '"');
      case 't' =>
      case 'f' =>
      case 'n' =>
      case _ => NumberSound(text, pos);
    }
  }

  lemma {:induction false} CharIsAt(text: string, pos: nat, c: char)
    ensures At(text, pos, [c]) <==> CharAt(text, pos, c)
  {
  }

  lemma {:induction false} BlankIsThere(text: string, pos: nat)
    requires pos <= |text|
    ensures At(text, pos, Blank(text, pos))
  {
    RunIsThere(text, pos, IsWs);
  }

  lemma {:induction false} ArraySound(text: string, pos: nat, depth: nat, st: Setting)
    requires CharAt(text, pos, '[')
    ensures var r := ArrayNode(text, pos, depth, st);
            r.Ok? ==>
              At(text, pos, Text(r.value)) && r.pos == pos + |Text(r.value)| && Fits(r.value, depth, st)
    decreases |text| - pos - 1, 4
  {
    hide Blank, At, ElemList;
    var r := ArrayNode(text, pos, depth, st);
    if r.Ok? {
      CharIsAt(text, pos, '[');
      var gap := Blank(text, pos + 1);
      if r.value.TEmptyArray? {
        BlankIsThere(text, pos + 1);
        CharIsAt(text, pos + 1 + |gap|, ']');
        AtConcat(text, pos + 1, gap, "]");
        AtConcat(text, pos, "[", gap + "]");
      } else {
        ElemListSound(text, pos + 1, depth + 1, st);
        AtConcat(text, pos, "[", ElemsText(r.value.elems));
      }
    }
  }

  lemma {:induction false} ObjectSound(text: string, pos: nat, depth: nat, st: Setting)
    requires CharAt(text, pos, '{')
    ensures var r := ObjectNode(text, pos, depth, st);
            r.Ok? ==>
              At(text, pos, Text(r.value)) && r.pos == pos + |Text(r.value)| && Fits(r.value, depth, st)
    decreases |text| - pos - 1, 4
  {
    hide Blank, At, MembList;
    var r := ObjectNode(text, pos, depth, st);
    if r.Ok? {
      CharIsAt(text, pos, '{');
      var gap := Blank(text, pos + 1);
      if r.value.TEmptyObject? {
        BlankIsThere(text, pos + 1);
        CharIsAt(text, pos + 1 + |gap|, '}');
        AtConcat(text, pos + 1, gap, "}");
        AtConcat(text, pos, "{", gap + "}");
      } else {
        MembListSound(text, pos + 1, depth + 1, st);
        AtConcat(text, pos, "{", MembsText(r.value.members));
      }
    }
  }

  lemma {:induction false} ElementSound(text: string, pos: nat, depth: nat, st: Setting)
    requires pos <= |text|
    ensures var r := Element(text, pos, depth, st);
            r.Ok? ==>
              At(text, pos, ElemText(r.value)) && r.pos == pos + |ElemText(r.value)| && Fits(r.value.tree, depth, st)
    decreases |text| - pos, 1
  {
    hide Blank, At, Node, Text, Fits;
    var r := Element(text, pos, depth, st);
    if r.Ok? {
      var Elem(before, t, after) := r.value;
      var p := pos + |before|;
      BlankIsThere(text, pos);
      NodeSound(text, p, depth, st);
      BlankIsThere(text, p + |Text(t)|);
      AtConcat(text, p, Text(t), after);
      AtConcat(text, pos, before, Text(t) + after);
    }
  }

  lemma {:induction false} ElemListSound(text: string, pos: nat, depth: nat, st: Setting)
    requires pos <= |text|
    ensures var r := ElemList(text, pos, depth, st);
            r.Ok? ==>
              At(text, pos, ElemsText(r.value)) && r.pos == pos + |ElemsText(r.value)| && ElemsFit(r.value, depth, st)
    decreases |text| - pos, 2
  {
    hide At, Element, ElemText, Fits;
    var r := ElemList(text, pos, depth, st);
    if r.Ok? {
      var e := r.value.elem;
      var p := pos + |ElemText(e)|;
      ElementSound(text, pos, depth, st);
      if r.value.LastElem? {
        CharIsAt(text, p, ']');
        AtConcat(text, pos, ElemText(e), "]");
      } else {
        CharIsAt(text, p, ',');
        ElemListSound(text, p + 1, depth, st);
        AtConcat(text, p, ",", ElemsText(r.value.rest));
        AtConcat(text, pos, ElemText(e), "," + ElemsText(r.value.rest));
      }
    }
  }

  lemma {:induction false} MemberSound(text: string, pos: nat, depth: nat, st: Setting)
    requires pos <= |text|
    ensures var r := Member(text, pos, depth, st);
            r.Ok? ==>
              && At(text, pos, MembText(r.value)) && r.pos == pos + |MembText(r.value)|
              && StringFits(r.value.key, depth, st.limits) && Fits(r.value.elem.tree, depth, st)
    decreases |text| - pos, 2
  {
    hide At, Element, ElemText, Fits, Blank, Pieces, QuotedText, PiecesBytes, MembText;
    var r := Member(text, pos, depth, st);
    if r.Ok? {
      var Memb(before, key, mid, e) := r.value;
      var p := pos + |before|;
      var q := p + 1 + |QuotedText(key)|;
      BlankIsThere(text, pos);
      PiecesSound(text, p + 1, 0, st.limits.maxString);
      BlankIsThere(text, q);
      ElementSound(text, q + |mid| + 1, depth, st);
      CharIsAt(text, p, '"');
      CharIsAt(text, q + |mid|, ':');
      MemberAt(text, pos, r.value);
    }
  }

  lemma {:induction false} MemberAt(text: string, pos: nat, m: Memb)
    ensures var p := pos + |m.before|;
            var q := p + 1 + |QuotedText(m.key)|;
            At(text, pos, MembText(m)) <==>
              && At(text, pos, m.before) && At(text, p, "\"") && At(text, p + 1, QuotedText(m.key))
              && At(text, q, m.mid) && At(text, q + |m.mid|, ":") && At(text, q + |m.mid| + 1, ElemText(m.elem))
    ensures |MembText(m)| == |m.before| + |QuotedText(m.key)| + |m.mid| + |ElemText(m.elem)| + 2
  {
    hide At, QuotedText, ElemText;
    var p := pos + |m.before|;
    var q := p + 1 + |QuotedText(m.key)|;
    var value := ":" + ElemText(m.elem);
    AtConcat(text, pos, m.before, "\"" + (QuotedText(m.key) + (m.mid + value)));
    AtConcat(text, p, "\"", QuotedText(m.key) + (m.mid + value));
    AtConcat(text, p + 1, QuotedText(m.key), m.mid + value);
    AtConcat(text, q, m.mid, value);
    AtConcat(text, q + |m.mid|, ":", ElemText(m.elem));
  }

  lemma {:induction false} MembListSound(text: string, pos: nat, depth: nat, st: Setting)
    requires pos <= |text|
    ensures var r := MembList(text, pos, depth, st);
            r.Ok? ==>
              At(text, pos, MembsText(r.value)) && r.pos == pos + |MembsText(r.value)| && MembsFit(r.value, depth, st)
    decreases |text| - pos, 3
  {
    hide At, Member, MembText, StringFits, Fits;
    var r := MembList(text, pos, depth, st);
    if r.Ok? {
      var m := r.value.memb;
      var p := pos + |MembText(m)|;
      MemberSound(text, pos, depth, st);
      if r.value.LastMemb? {
        CharIsAt(text, p, '}');
        AtConcat(text, pos, MembText(m), "}");
      } else {
        CharIsAt(text, p, ',');
        MembListSound(text, p + 1, depth, st);
        AtConcat(text, p, ",", MembsText(r.value.rest));
        AtConcat(text, pos, MembText(m), "," + MembsText(r.value.rest));
      }
    }
  }

  // ---- completeness: descent finds every derivation whose text is there ----

  /** What may follow a value: the end, a comma or a closing bracket. */
  predicate Closed(text: string, pos: nat) {
    pos < |text| ==> text[pos] == ',' || text[pos] == ']' || text[pos] == '}'
  }

  lemma {:induction false} BlankIs(text: string, pos: nat, ws: Ws)
    requires At(text, pos, ws) && !KindAt(text, pos + |ws|, IsWs)
    ensures pos <= |text| && Blank(text, pos) == ws
  {
    RunIs(text, pos, ws, IsWs);
  }

  /** The first character of a value is neither white space nor a closing bracket. */
  lemma {:induction false} ValueStart(text: string, pos: nat, t: Tree)
    requires At(text, pos, Text(t))
    ensures pos < |text| && !IsWs(text[pos]) && text[pos] != ']' && text[pos] != '}'
  {
    if t.TNumber? {
      AtConcat(text, pos, t.tok.Sign(), t.tok.whole + t.tok.tail.Text());
      AtConcat(text, pos + |t.tok.Sign()|, t.tok.whole, t.tok.tail.Text());
    }
  }

  lemma {:induction false} NodeComplete(text: string, pos: nat, t: Tree, depth: nat, st: Setting)
    requires At(text, pos, Text(t)) && Fits(t, depth, st) && Stop(text, pos + |Text(t)|)
    ensures pos <= |text| && Node(text, pos, depth, st) == Ok(t, pos + |Text(t)|)
    decreases t, 0
  {
    hide NumberToken, Pieces, NumTok.Text, NumTok.WF, PiecesBytes, NumberFits;
    hide QuotedText, ElemList, MembList, ElemsText, MembsText;
    match t
    case TNull =>
    case TBool(_) =>
    case TNumber(tok) => NumberComplete(text, pos, tok);
    case TString(ps) =>
      AtConcat(text, pos, "\"", QuotedText(ps));
      CharIsAt(text, pos, '"');
      PiecesComplete(text, pos + 1, ps, 0, st.limits.maxString);
    case TEmptyArray(gap) =>
      EmptyComplete(text, pos, '[', gap, ']');
    case TArray(es) =>
      AtConcat(text, pos, "[", ElemsText(es));
      CharIsAt(text, pos, '[');
      ElemListComplete(text, pos + 1, es, depth + 1, st);
    case TEmptyObject(gap) =>
      EmptyComplete(text, pos, '{', gap, '}');
    case TObject(ms) =>
      AtConcat(text, pos, "{", MembsText(ms));
      CharIsAt(text, pos, '{');
      MembListComplete(text, pos + 1, ms, depth + 1, st);
  }

  lemma {:induction false} EmptyComplete(text: string, pos: nat, open: char, gap: Ws, close: char)
    requires At(text, pos, [open] + (gap + [close])) && !IsWs(close)
    ensures CharAt(text, pos, open) && Blank(text, pos + 1) == gap && CharAt(text, pos + 1 + |gap|, close)
  {
    AtConcat(text, pos, [open], gap + [close]);
    AtConcat(text, pos + 1, gap, [close]);
    CharIsAt(text, pos, open);
    CharIsAt(text, pos + 1 + |gap|, close);
    BlankIs(text, pos + 1, gap);
  }

  lemma {:induction false} ElementComplete(text: string, pos: nat, e: Elem, depth: nat, st: Setting)
    requires At(text, pos, ElemText(e)) && Fits(e.tree, depth, st) && Closed(text, pos + |ElemText(e)|)
    ensures pos <= |text| && Element(text, pos, depth, st) == Ok(e, pos + |ElemText(e)|)
    ensures Blank(text, pos) == e.before && !CharAt(text, pos + |e.before|, ']')
    decreases e, 1
  {
    hide At, Blank, Node, Text, Fits;
    var p := pos + |e.before|;
    var q := p + |Text(e.tree)|;
    AtConcat(text, pos, e.before, Text(e.tree) + e.after);
    AtConcat(text, p, Text(e.tree), e.after);
    ValueStart(text, p, e.tree);
    BlankIs(text, pos, e.before);
    BlankIs(text, q, e.after);
    StopAfterBlank(text, q, e.after);
    NodeComplete(text, p, e.tree, depth, st);
  }

  lemma {:induction false} StopAfterBlank(text: string, pos: nat, ws: Ws)
    requires At(text, pos, ws) && Closed(text, pos + |ws|)
    ensures Stop(text, pos)
  {
  }

  lemma {:induction false} ElemListComplete(text: string, pos: nat, es: Elems, depth: nat, st: Setting)
    requires At(text, pos, ElemsText(es)) && ElemsFit(es, depth, st)
    ensures pos <= |text| && ElemList(text, pos, depth, st) == Ok(es, pos + |ElemsText(es)|)
    ensures !CharAt(text, pos + |Blank(text, pos)|, ']')
    decreases es, 2
  {
    hide At, Element, ElemText, Fits, Blank;
    var e := es.elem;
    var p := pos + |ElemText(e)|;
    if es.LastElem? {
      AtConcat(text, pos, ElemText(e), "]");
      CharIsAt(text, p, ']');
      ElementComplete(text, pos, e, depth, st);
    } else {
      AtConcat(text, pos, ElemText(e), "," + ElemsText(es.rest));
      AtConcat(text, p, ",", ElemsText(es.rest));
      CharIsAt(text, p, ',');
      ElementComplete(text, pos, e, depth, st);
      ElemListComplete(text, p + 1, es.rest, depth, st);
    }
  }

  lemma {:induction false} MemberComplete(text: string, pos: nat, m: Memb, depth: nat, st: Setting)
    requires At(text, pos, MembText(m)) && StringFits(m.key, depth, st.limits) && Fits(m.elem.tree, depth, st)
    requires Closed(text, pos + |MembText(m)|)
    ensures pos <= |text| && Member(text, pos, depth, st) == Ok(m, pos + |MembText(m)|)
    ensures Blank(text, pos) == m.before && CharAt(text, pos + |m.before|, '"')
    decreases m, 1
  {
    hide At, Element, ElemText, Fits, Blank, Pieces, QuotedText, PiecesBytes, MembText;
    var Memb(before, key, mid, e) := m;
    var p := pos + |before|;
    var q := p + 1 + |QuotedText(key)|;
    MemberAt(text, pos, m);
    CharIsAt(text, p, '"');
    CharIsAt(text, q + |mid|, ':');
    BlankIs(text, pos, before);
    PiecesComplete(text, p + 1, key, 0, st.limits.maxString);
    BlankIs(text, q, mid);
    ElementComplete(text, q + |mid| + 1, e, depth, st);
  }

  lemma {:induction false} MembListComplete(text: string, pos: nat, ms: Membs, depth: nat, st: Setting)
    requires At(text, pos, MembsText(ms)) && MembsFit(ms, depth, st)
    ensures pos <= |text| && MembList(text, pos, depth, st) == Ok(ms, pos + |MembsText(ms)|)
    ensures !CharAt(text, pos + |Blank(text, pos)|, '}')
    decreases ms, 2
  {
    hide At, Member, MembText, Fits, StringFits, Blank;
    var m := ms.memb;
    var p := pos + |MembText(m)|;
    if ms.LastMemb? {
      AtConcat(text, pos, MembText(m), "}");
      CharIsAt(text, p, '}');
      MemberComplete(text, pos, m, depth, st);
    } else {
      AtConcat(text, pos, MembText(m), "," + MembsText(ms.rest));
      AtConcat(text, p, ",", MembsText(ms.rest));
      CharIsAt(text, p, ',');
      MemberComplete(text, pos, m, depth, st);
      MembListComplete(text, p + 1, ms.rest, depth, st);
    }
  }

  // ---- whole texts ----

  /** `json_parse`: a text within the byte limit that is one value, or nothing. */
  function ParseText(text: string, st: Setting): Option<Json> {
    if |text| > st.limits.maxBytes then None
    else
      match Document(text, st)
      case Some(doc) => Some(Denote(doc.tree, st.conv))
      case None => None
  }

  lemma {:induction false} DocumentIffDerives(text: string, doc: Elem, st: Setting)
    ensures Document(text, st) == Some(doc) <==> Derives(doc, text, st)
  {
    hide Element, ElemText, Fits;
    if Document(text, st) == Some(doc) {
      ElementSound(text, 0, 0, st);
      AtSlice(text, 0, ElemText(doc));
    }
    if Derives(doc, text, st) {
      AtSlice(text, 0, text);
      ElementComplete(text, 0, doc, 0, st);
    }
  }

  /** A text is accepted with value `v` exactly when it is within the byte limit and has a derivation
      that is within the other limits and denotes `v`. */
  lemma {:induction false} AcceptsIffDerives(text: string, v: Json, st: Setting)
    ensures ParseText(text, st) == Some(v) <==>
              |text| <= st.limits.maxBytes && exists doc :: Derives(doc, text, st) && Denote(doc.tree, st.conv) == v
  {
    hide Derives, Document, Denote;
    if ParseText(text, st) == Some(v) {
      DocumentIffDerives(text, Document(text, st).value, st);
    }
    if doc :| Derives(doc, text, st) && Denote(doc.tree, st.conv) == v {
      DocumentIffDerives(text, doc, st);
    }
  }

  // ---- the grammar is unambiguous ----

  lemma {:induction false} BytesShorter(ps: seq<Piece>)
    ensures |PiecesBytes(ps)| < |QuotedText(ps)|
  {
    if ps == [] {
    } else {
      BytesShorter(ps[1..]);
      var p := ps[0];
      assert |p.Bytes()| <= |p.Text()|;
      assert |PiecesBytes(ps)| == |p.Bytes()| + |PiecesBytes(ps[1..])|;
      assert |QuotedText(ps)| == |p.Text()| + |QuotedText(ps[1..])|;
    }
  }

  /** Limits that no derivation of a text of `n` characters exceeds. */
  function Generous(n: nat): Setting {
    Setting(Limits(n, n, n, false),
            Conversion(d => Some(Finite(d)), d => Finite(d), d => IntTokValue(0); IntTok(0)))
  }

  lemma {:induction false} GenerousFits(t: Tree, depth: nat, n: nat)
    requires depth + |Text(t)| <= n
    ensures Fits(t, depth, Generous(n))
    decreases t
  {
    match t
    case TString(ps) => BytesShorter(ps);
    case TArray(es) => GenerousElems(es, depth + 1, n);
    case TObject(ms) => GenerousMembs(ms, depth + 1, n);
    case _ =>
  }

  lemma {:induction false} GenerousElems(es: Elems, depth: nat, n: nat)
    requires depth + |ElemsText(es)| <= n
    ensures ElemsFit(es, depth, Generous(n))
    decreases es
  {
    GenerousFits(es.elem.tree, depth, n);
    if es.MoreElems? { GenerousElems(es.rest, depth, n); }
  }

  lemma {:induction false} GenerousMembs(ms: Membs, depth: nat, n: nat)
    requires depth + |MembsText(ms)| <= n
    ensures MembsFit(ms, depth, Generous(n))
    decreases ms
  {
    BytesShorter(ms.memb.key);
    MemberAt("", 0, ms.memb);
    GenerousFits(ms.memb.elem.tree, depth, n);
    if ms.MoreMembs? { GenerousMembs(ms.rest, depth, n); }
  }

  /** A text has at most one derivation. */
  lemma {:induction false} Unambiguous(doc: Elem, doc': Elem)
    requires ElemText(doc) == ElemText(doc')
    ensures doc == doc'
  {
    var text := ElemText(doc);
    GenerousFits(doc.tree, 0, |text|);
    GenerousFits(doc'.tree, 0, |text|);
    DocumentIffDerives(text, doc, Generous(|text|));
    DocumentIffDerives(text, doc', Generous(|text|));
  }
}
