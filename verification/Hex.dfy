/** Domain identities as 32 hexadecimal digits. */
module Hex {
  import opened Options
  import opened Scanning
  import opened Numbers
  import opened JsonGrammar
  import opened JsonPrinting
  import opened Domain

  /** The last `k` hexadecimal digits of a number, in lower case. */
  function Digits(n: nat, k: nat): (s: string)
    ensures |s| == k
  {
    if k == 0 then "" else Digits(n / 16, k - 1) + [LowerHex(n % 16)]
  }

  function ToHex(id: DomainId): (s: string)
    ensures |s| == 32
  {
    Digits(id.high, 16) + Digits(id.low, 16)
  }

  function Pow16(k: nat): nat {
    if k == 0 then 1 else 16 * Pow16(k - 1)
  }

  lemma {:induction false} PrefixBound(s: string, k: nat)
    requires k <= |s|
    ensures HexPrefix(s, 0, k) < Pow16(k)
  {
    if k == 0 {
    } else {
      PrefixBound(s, k - 1);
    }
  }

  lemma {:induction false} SixteenDigits()
    ensures Pow16(16) == TWO64
  {
    assert Pow16(4) == 0x1_0000;
    assert Pow16(8) == 0x1_0000_0000;
    assert Pow16(12) == 0x1_0000_0000_0000;
  }

  function Chunk(s: string): Option<U64> {
    if |s| == 16 && All(s, IsHex) then
      PrefixBound(s, 16);
      SixteenDigits();
      Some(HexValue(s))
    else None
  }

  function FromHex(s: string): Option<DomainId> {
    if |s| != 32 then None
    else
      match (Chunk(s[..16]), Chunk(s[16..]))
      case (Some(hi), Some(lo)) => Some(DomainId(hi, lo))
      case _ => None
  }

  /** The loop of `parse16`: shifting in one nibble after the other. */
  method ParseChunk(s: string) returns (r: Option<U64>)
    ensures r == Chunk(s)
  {
    if |s| != 16 { return None; }
    SixteenDigits();
    var v: nat := 0;
    for i := 0 to 16
      invariant forall j | 0 <= j < i :: IsHex(s[j])
      invariant v == HexPrefix(s, 0, i) && v < TWO64
    {
      if !IsHex(s[i]) {
        AllIff(s, IsHex);
        return None;
      }
      PrefixBound(s, i);
      PrefixBound(s, i + 1);
      PowGrows(i + 1, 16);
      v := (16 * v + HexDigit(s[i])) % TWO64;
    }
    AllIff(s, IsHex);
    return Some(v);
  }

  lemma {:induction false} PowGrows(i: nat, j: nat)
    requires i <= j
    ensures Pow16(i) <= Pow16(j)
    decreases j
  {
    if i == j {
    } else {
      PowGrows(i, j - 1);
    }
  }

  method ParseHex(s: string) returns (r: Option<DomainId>)
    ensures r == FromHex(s)
  {
    if |s| != 32 { return None; }
    var hi := ParseChunk(s[..16]);
    var lo := ParseChunk(s[16..]);
    if hi.None? || lo.None? { return None; }
    return Some(DomainId(hi.value, lo.value));
  }

  lemma {:induction false} DigitsReadBack(n: nat, k: nat)
    requires n < Pow16(k)
    ensures All(Digits(n, k), IsHex) && HexPrefix(Digits(n, k), 0, k) == n
  {
    if k == 0 {
    } else {
      DigitsReadBack(n / 16, k - 1);
      var rest, d := Digits(n / 16, k - 1), LowerHex(n % 16);
      AllConcat(rest, [d], IsHex);
      SamePrefix(rest, Digits(n, k), k - 1);
    }
  }

  lemma {:induction false} SamePrefix(s: string, t: string, k: nat)
    requires k <= |s| && k <= |t| && forall i | 0 <= i < k :: s[i] == t[i]
    ensures HexPrefix(s, 0, k) == HexPrefix(t, 0, k)
  {
    if k == 0 {
    } else {
      SamePrefix(s, t, k - 1);
    }
  }

  /** Every identity survives being written and read. */
  lemma {:induction false} IdReadsBack(id: DomainId)
    ensures FromHex(ToHex(id)) == Some(id)
  {
    hide Digits, HexPrefix, Pow16;
    SixteenDigits();
    DigitsReadBack(id.high, 16);
    DigitsReadBack(id.low, 16);
    assert ToHex(id)[..16] == Digits(id.high, 16) && ToHex(id)[16..] == Digits(id.low, 16);
  }

  /** Exactly the texts of 32 hexadecimal digits, of either case, are read. */
  lemma {:induction false} FromHexIff(s: string)
    ensures FromHex(s).Some? <==> |s| == 32 && All(s, IsHex)
  {
    hide HexPrefix, IsHex;
    if |s| == 32 {
      assert s == s[..16] + s[16..];
      AllConcat(s[..16], s[16..], IsHex);
    }
  }
}
