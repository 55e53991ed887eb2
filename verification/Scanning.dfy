/** Pieces of text at a position, and runs of characters of one kind. */
module Scanning {

  predicate All(s: string, p: char -> bool) {
    s == "" || (p(s[0]) && All(s[1..], p))
  }

  lemma {:induction false} AllConcat(a: string, b: string, p: char -> bool)
    ensures All(a + b, p) <==> All(a, p) && All(b, p)
  {
    if a == "" {
      assert a + b == b;
    } else {
      assert (a + b)[1..] == a[1..] + b;
      AllConcat(a[1..], b, p);
    }
  }

  lemma {:induction false} AllIff(s: string, p: char -> bool)
    ensures All(s, p) <==> forall i | 0 <= i < |s| :: p(s[i])
  {
    if s == "" {
    } else {
      AllIff(s[1..], p);
      assert forall i | 1 <= i < |s| :: s[i] == s[1..][i - 1];
    }
  }

  /** The characters of `s` are those of the text from `pos` on. */
  predicate At(text: string, pos: nat, s: string)
    decreases |s|
  {
    if s == "" then pos <= |text| else pos < |text| && text[pos] == s[0] && At(text, pos + 1, s[1..])
  }

  lemma {:induction false} AtBound(text: string, pos: nat, s: string)
    ensures At(text, pos, s) ==> pos + |s| <= |text|
    decreases |s|
  {
    if s == "" {
    } else {
      AtBound(text, pos + 1, s[1..]);
    }
  }

  lemma {:induction false} AtConcat(text: string, pos: nat, a: string, b: string)
    ensures At(text, pos, a + b) <==> At(text, pos, a) && At(text, pos + |a|, b)
    decreases |a|
  {
    AtBound(text, pos + |a|, b);
    if a == "" {
      assert a + b == b;
    } else {
      assert (a + b)[1..] == a[1..] + b;
      AtConcat(text, pos + 1, a[1..], b);
    }
  }

  lemma {:induction false} AtSlice(text: string, pos: nat, s: string)
    ensures At(text, pos, s) <==> pos + |s| <= |text| && text[pos..pos + |s|] == s
    decreases |s|
  {
    if s == "" {
    } else {
      AtSlice(text, pos + 1, s[1..]);
      if pos + |s| <= |text| {
        assert text[pos..pos + |s|] == [text[pos]] + text[pos + 1..pos + |s|];
        assert s == [s[0]] + s[1..];
      }
    }
  }

  predicate CharAt(text: string, pos: nat, c: char) {
    pos < |text| && text[pos] == c
  }

  predicate KindAt(text: string, pos: nat, p: char -> bool) {
    pos < |text| && p(text[pos])
  }

  /** The longest run of characters of kind `p` from `pos` on. */
  function Run(text: string, pos: nat, p: char -> bool): (s: string)
    requires pos <= |text|
    ensures pos + |s| <= |text| && !KindAt(text, pos + |s|, p)
    decreases |text| - pos
  {
    if KindAt(text, pos, p) then [text[pos]] + Run(text, pos + 1, p) else ""
  }

  lemma {:induction false} RunIsThere(text: string, pos: nat, p: char -> bool)
    requires pos <= |text|
    ensures At(text, pos, Run(text, pos, p)) && All(Run(text, pos, p), p)
    decreases |text| - pos
  {
    if KindAt(text, pos, p) {
      RunIsThere(text, pos + 1, p);
      assert Run(text, pos, p)[1..] == Run(text, pos + 1, p);
    }
  }

  /** Characters of one kind, followed by something else, are the run. */
  lemma {:induction false} RunIs(text: string, pos: nat, s: string, p: char -> bool)
    requires At(text, pos, s) && All(s, p) && !KindAt(text, pos + |s|, p)
    ensures pos <= |text| && Run(text, pos, p) == s
    decreases |s|
  {
    if s == "" {
    } else {
      RunIs(text, pos + 1, s[1..], p);
      assert s == [s[0]] + s[1..];
    }
  }
}
