/** The serializer: appends to an output buffer and notes whether a number was not finite. */
module JsonWriter {
  import opened Options
  import opened Numbers
  import opened Ordering
  import opened JsonValue
  import opened JsonGrammar
  import opened JsonPrinting

  /** What is left to write of an array's elements from the `i`-th on, separators included. */
  ghost function RestOfItems(items: seq<Json>, i: nat, conv: Conversion): string
    requires i <= |items|
  {
    if i == |items| then "]"
    else (if i == 0 then "" else ",") + ElemsText(CanonElems(items[i..], conv))
  }

  ghost function RestOfMembers(obj: Json, todo: set<string>, first: bool, conv: Conversion): string
    requires obj.Object? && todo <= obj.members.Keys
  {
    if todo == {} then "}"
    else (if first then "" else ",") + MembsText(CanonMembs(obj, SortedKeys(todo), conv))
  }

  /** Writing `s` moves it from what is left to what is written. */
  lemma {:induction false} Moved(out: string, s: string, rest: string)
    ensures out + (s + rest) == (out + s) + rest
  {
  }

  lemma {:induction false} Alone(t: Tree)
    ensures ElemText(Elem("", t, "")) == Text(t)
  {
    hide Text;
    assert Text(t) + "" == Text(t) && "" + Text(t) == Text(t);
  }

  function Separator(first: bool): string {
    if first then "" else ","
  }

  lemma {:induction false} NextItem(items: seq<Json>, i: nat, conv: Conversion)
    requires i < |items|
    ensures RestOfItems(items, i, conv) ==
              Separator(i == 0) + (Text(Canon(items[i], conv)) + RestOfItems(items, i + 1, conv))
  {
    hide Canon, Text, ElemText;
    var t := Canon(items[i], conv);
    assert items[i..][0] == items[i] && items[i..][1..] == items[i + 1..];
    Alone(t);
    assert CanonElems(items[i..], conv).elem == Elem("", t, "");
    if i + 1 < |items| {
      assert CanonElems(items[i..], conv) == MoreElems(Elem("", t, ""), CanonElems(items[i + 1..], conv));
    }
    assert ElemsText(CanonElems(items[i..], conv)) == Text(t) + RestOfItems(items, i + 1, conv);
  }

  lemma {:induction false} NextMember(obj: Json, todo: set<string>, first: bool, conv: Conversion)
    requires obj.Object? && todo <= obj.members.Keys && todo != {}
    ensures var k := Least(todo);
            RestOfMembers(obj, todo, first, conv) ==
              Separator(first) + (("\"" + QuotedText(CanonPieces(k)))
                + (":" + (Text(Canon(obj.members[k], conv)) + RestOfMembers(obj, todo - {k}, false, conv))))
  {
    hide Canon, Text, CanonPieces, QuotedText, ElemText, MembText;
    var k := Least(todo);
    var t, rest := Canon(obj.members[k], conv), todo - {k};
    var m := Memb("", CanonPieces(k), "", Elem("", t, ""));
    var keys := SortedKeys(todo);
    assert keys == [k] + SortedKeys(rest);
    assert keys[1..] == SortedKeys(rest);
    assert CanonMembs(obj, keys, conv).memb == m;
    if rest != {} {
      assert CanonMembs(obj, keys, conv) == MoreMembs(m, CanonMembs(obj, SortedKeys(rest), conv));
    }
    assert MembsText(CanonMembs(obj, keys, conv)) == MembText(m) + RestOfMembers(obj, rest, false, conv);
    CanonMembText(k, t);
    Moved("\"" + QuotedText(CanonPieces(k)), ":" + Text(t), RestOfMembers(obj, rest, false, conv));
    Moved(":", Text(t), RestOfMembers(obj, rest, false, conv));
  }

  lemma {:induction false} CanonMembText(k: string, t: Tree)
    ensures MembText(Memb("", CanonPieces(k), "", Elem("", t, ""))) ==
              ("\"" + QuotedText(CanonPieces(k))) + (":" + Text(t))
  {
    hide Text, CanonPieces, QuotedText, ElemText;
    var key := QuotedText(CanonPieces(k));
    Alone(t);
    assert "" + (":" + Text(t)) == ":" + Text(t);
    assert "" + ("\"" + (key + (":" + Text(t)))) == "\"" + (key + (":" + Text(t)));
    Moved("\"", key, ":" + Text(t));
  }

  class Writer {
    const conv: Conversion
    var out: string
    var finiteOk: bool

    constructor (conv: Conversion)
      ensures this.conv == conv && out == "" && finiteOk
    {
      this.conv := conv;
      out, finiteOk := "", true;
    }

    method PushBack(c: char)
      modifies this`out
      ensures out == old(out) + [c]
    {
      out := out + [c];
    }

    method AppendEscape(c: char)
      requires c < ' ' || c == '"' || c == '\\'
      modifies this`out
      ensures out == old(out) + CanonPiece(c).Text()
    {
      match c
      case '"' => PushBack('\\'); PushBack('"');
      case '\\' => PushBack('\\'); PushBack('\\');
      case '\U{08}' => PushBack('\\'); PushBack('b');
      case '\U{0C}' => PushBack('\\'); PushBack('f');
      case '\n' => PushBack('\\'); PushBack('n');
      case '\r' => PushBack('\\'); PushBack('r');
      case '\t' => PushBack('\\'); PushBack('t');
      case _ => out := out + ("\\u" + ("00" + [LowerHex(c as int / 16), LowerHex(c as int % 16)]));
    }

    method WriteString(s: string)
      modifies this`out
      ensures out == old(out) + ("\"" + QuotedText(CanonPieces(s)))
    {
      hide CanonPiece, AnyPiece.Text;
      PushBack('"');
      ghost var whole := out + QuotedText(CanonPieces(s));
      Moved(old(out), "\"", QuotedText(CanonPieces(s)));
      assert s[0..] == s;
      for i := 0 to |s|
        invariant out + QuotedText(CanonPieces(s[i..])) == whole
      {
        var c := s[i];
        NextPiece(s, i);
        Moved(out, CanonPiece(c).Text(), QuotedText(CanonPieces(s[i + 1..])));
        CanonPieceText(c);
        if c < ' ' || c == '"' || c == '\\' {
          AppendEscape(c);
        } else {
          PushBack(c);
        }
      }
      PushBack('"');
    }

    /** Appends the canonical text of a value all of whose numbers are finite. */
    method SerializeTo(v: Json)
      modifies this
      ensures finiteOk == (old(finiteOk) && IsFinite(v))
      ensures IsFinite(v) ==> out == old(out) + Text(Canon(v, conv))
      decreases v, 1
    {
      match v
      case Null => out := out + "null";
      case Bool(b) => out := out + if b then "true" else "false";
      case Number(d) =>
        if d.NonFinite? {
          finiteOk := false;
        } else {
          out := out + conv.Format(d.value).Text();
        }
      case String(s) => WriteString(s);
      case Array(items) => WriteArray(items);
      case Object(members) => WriteObject(v);
    }

    method WriteArray(items: seq<Json>)
      modifies this
      ensures finiteOk == (old(finiteOk) && IsFinite(Array(items)))
      ensures IsFinite(Array(items)) ==> out == old(out) + Text(Canon(Array(items), conv))
      decreases Array(items), 0
    {
      hide Canon, Text, RestOfItems;
      ghost var whole := old(out) + ("[" + RestOfItems(items, 0, conv));
      Moved(out, "[", RestOfItems(items, 0, conv));
      PushBack('[');
      for i := 0 to |items|
        invariant finiteOk == (old(finiteOk) && forall j | 0 <= j < i :: IsFinite(items[j]))
        invariant (forall j | 0 <= j < i :: IsFinite(items[j])) ==> out + RestOfItems(items, i, conv) == whole
      {
        NextItem(items, i, conv);
        ghost var text, rest := Text(Canon(items[i], conv)), RestOfItems(items, i + 1, conv);
        Moved(out, Separator(i == 0), text + rest);
        if i > 0 { PushBack(','); } else { assert out + "" == out; }
        Moved(out, text, rest);
        SerializeTo(items[i]);
      }
      ArrayText(items, conv);
      PushBack(']');
    }

    method WriteObject(obj: Json)
      requires obj.Object?
      modifies this
      ensures finiteOk == (old(finiteOk) && IsFinite(obj))
      ensures IsFinite(obj) ==> out == old(out) + Text(Canon(obj, conv))
      decreases obj, 0
    {
      hide Canon, Text, RestOfMembers, CanonPieces, QuotedText, SortedKeys;
      var todo, first := obj.members.Keys, true;
      ghost var whole := old(out) + ("{" + RestOfMembers(obj, todo, true, conv));
      Moved(out, "{", RestOfMembers(obj, todo, true, conv));
      PushBack('{');
      while todo != {}
        invariant todo <= obj.members.Keys && (first ==> todo == obj.members.Keys)
        invariant finiteOk == (old(finiteOk) && FiniteExcept(obj, todo))
        invariant FiniteExcept(obj, todo) ==> out + RestOfMembers(obj, todo, first, conv) == whole
        decreases |todo|
      {
        LeastExists(todo);
        var k :| k in todo && forall x | x in todo :: x == k || Before(k, x);
        LeastUnique(k, Least(todo), todo);
        NextMember(obj, todo, first, conv);
        ghost var key, text := "\"" + QuotedText(CanonPieces(k)), Text(Canon(obj.members[k], conv));
        ghost var rest := RestOfMembers(obj, todo - {k}, false, conv);
        Moved(out, Separator(first), key + (":" + (text + rest)));
        if !first { PushBack(','); } else { assert out + "" == out; }
        first := false;
        Moved(out, key, ":" + (text + rest));
        WriteString(k);
        Moved(out, ":", text + rest);
        PushBack(':');
        Moved(out, text, rest);
        SerializeTo(obj.members[k]);
        todo := todo - {k};
      }
      ObjectText(obj, conv);
      PushBack('}');
    }
  }

  ghost predicate FiniteExcept(obj: Json, todo: set<string>)
    requires obj.Object?
  {
    forall k | k in obj.members && k !in todo :: IsFinite(obj.members[k])
  }

  lemma {:induction false} CanonPieceText(c: char)
    ensures !(c < ' ' || c == '"' || c == '\\') ==> CanonPiece(c).Text() == [c]
  {
  }

  lemma {:induction false} NextPiece(s: string, i: nat)
    requires i < |s|
    ensures QuotedText(CanonPieces(s[i..])) == CanonPiece(s[i]).Text() + QuotedText(CanonPieces(s[i + 1..]))
  {
    hide CanonPiece, AnyPiece.Text;
    assert s[i..][0] == s[i] && s[i..][1..] == s[i + 1..];
    assert CanonPieces(s[i..])[1..] == CanonPieces(s[i + 1..]);
  }

  lemma {:induction false} ArrayText(items: seq<Json>, conv: Conversion)
    ensures Text(Canon(Array(items), conv)) == "[" + RestOfItems(items, 0, conv)
    ensures RestOfItems(items, |items|, conv) == "]"
  {
    if items != [] { assert items[0..] == items; }
  }

  lemma {:induction false} ObjectText(obj: Json, conv: Conversion)
    requires obj.Object?
    ensures Text(Canon(obj, conv)) == "{" + RestOfMembers(obj, obj.members.Keys, true, conv)
    ensures forall first :: RestOfMembers(obj, {}, first, conv) == "}"
  {
    hide MembsText, CanonMembs, SortedKeys;
    if obj.members.Keys == {} { assert obj.members == map[]; }
  }

  /** `json_serialize`: the canonical text, unless a number is not finite. */
  method JsonSerialize(v: Json, conv: Conversion) returns (r: Option<string>)
    ensures r == Serialize(v, conv)
  {
    var w := new Writer(conv);
    w.SerializeTo(v);
    if !w.finiteOk { return None; }
    assert w.out == Text(Canon(v, conv));
    return Some(w.out);
  }
}
