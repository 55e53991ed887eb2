/** A small arithmetic that meets the assumptions on the platform's conversions: its doubles are the halves up
    to 2^53 and the even integers from there to 2^63, and it rounds down. */
module SmallDoubles {
  import opened Options
  import opened Numbers

  function Half(d: real): real {
    (2.0 * d).Floor as real / 2.0
  }

  function Even(d: real): real {
    2.0 * (d / 2.0).Floor as real
  }

  predicate Fine(d: real) {
    -TWO53 as real <= d <= TWO53 as real
  }

  function Down(d: real): Double {
    if !InRange(d) then NonFinite else if Fine(d) then Finite(Half(d)) else Finite(Even(d))
  }

  // ---- rounding down ----

  lemma {:induction false} FloorOrder(x: real, y: real)
    requires x <= y
    ensures x.Floor <= y.Floor
  {
  }

  lemma {:induction false} FloorOfInt(n: int)
    ensures (n as real).Floor == n
  {
  }

  lemma {:induction false} HalfOrder(x: real, y: real)
    requires x <= y
    ensures Half(x) <= Half(y) && Half(x) <= x
  {
    FloorOrder(2.0 * x, 2.0 * y);
  }

  lemma {:induction false} EvenOrder(x: real, y: real)
    requires x <= y
    ensures Even(x) <= Even(y) && Even(x) <= x
  {
    FloorOrder(x / 2.0, y / 2.0);
  }

  lemma {:induction false} IntegersAreKept(n: int)
    ensures Half(n as real) == n as real && Even((2 * n) as real) == (2 * n) as real
  {
    assert 2.0 * n as real == (2 * n) as real;
    FloorOfInt(2 * n);
    assert (2 * n) as real / 2.0 == n as real;
    FloorOfInt(n);
  }

  lemma {:induction false} KeptTwice(d: real)
    ensures Half(Half(d)) == Half(d) && Even(Even(d)) == Even(d) && Half(Even(d)) == Even(d)
  {
    var h, e := (2.0 * d).Floor, (d / 2.0).Floor;
    assert 2.0 * Half(d) == h as real;
    FloorOfInt(h);
    assert Even(d) == (2 * e) as real;
    IntegersAreKept(e);
    IntegersAreKept(2 * e);
  }

  /** The ends of the two ranges are doubles. */
  lemma {:induction false} Ends()
    ensures Half(TWO53 as real) == Even(TWO53 as real) == TWO53 as real
    ensures Half(-TWO53 as real) == Even(-TWO53 as real) == -TWO53 as real
    ensures Even(TWO63 as real) == TWO63 as real && Even(-TWO63 as real) == -TWO63 as real
  {
    IntegersAreKept(TWO53);
    IntegersAreKept(-TWO53);
    IntegersAreKept(TWO53 / 2);
    IntegersAreKept(-(TWO53 / 2));
    IntegersAreKept(TWO63 / 2);
    IntegersAreKept(-(TWO63 / 2));
  }

  lemma {:induction false} DownInRange(d: real)
    requires InRange(d)
    ensures Down(d).Finite? && InRange(Down(d).value)
    ensures Fine(d) ==> Fine(Down(d).value)
    ensures d < -TWO53 as real ==> Down(d).value < -TWO53 as real
    ensures d > TWO53 as real ==> Down(d).value >= TWO53 as real
  {
    hide Half, Even;
    Ends();
    HalfOrder(d, d);
    EvenOrder(d, d);
    if Fine(d) {
      HalfOrder(-TWO53 as real, d);
      HalfOrder(d, TWO53 as real);
    } else {
      EvenOrder(-TWO63 as real, d);
      EvenOrder(d, TWO63 as real);
      if d > TWO53 as real { EvenOrder(TWO53 as real, d); }
    }
  }

  lemma {:induction false} DownOrder(x: real, y: real)
    requires InRange(x) && InRange(y) && x <= y
    ensures Down(x).value <= Down(y).value
  {
    hide Half, Even;
    DownInRange(x);
    DownInRange(y);
    HalfOrder(x, y);
    EvenOrder(x, y);
  }

  lemma {:induction false} DownIsDouble(d: real)
    requires InRange(d)
    ensures Down(d).Finite? && Down(Down(d).value) == Down(d)
  {
    hide Half, Even;
    DownInRange(d);
    KeptTwice(d);
  }

  // ---- integers ----

  lemma {:induction false} PowersGrow(i: nat, j: nat)
    requires i <= j
    ensures Pow2(i) <= Pow2(j)
    decreases j
  {
    if i == j {
    } else {
      PowersGrow(i, j - 1);
    }
  }

  lemma {:induction false} MultipleBound(m: int, bound: nat, p: nat, q: nat)
    requires -(bound as int) <= m <= bound && p <= q
    ensures -((bound * q) as int) <= m * p <= bound * q
  {
    if m >= 0 {
      ProductOrder(m, bound, p, q);
    } else {
      ProductOrder(-m, bound, p, q);
      assert (-m) * p == -(m * p);
    }
  }

  lemma {:induction false} ProductOrder(a: nat, b: nat, p: nat, q: nat)
    requires a <= b && p <= q
    ensures 0 <= a * p <= b * q
  {
    assert b * q == a * p + a * (q - p) + (b - a) * q;
  }

  lemma {:induction false} ScaledIsKept(n: int, m: int, e: nat)
    requires Scaled(n, m, e)
    ensures Down(n as real) == Finite(n as real)
  {
    hide Half, Even;
    TenBits();
    PowersGrow(e, 10);
    MultipleBound(m, TWO53, Pow2(e), Pow2(10));
    IntegersAreKept(n);
    if e > 0 {
      var k := m * Pow2(e - 1);
      Doubled(m, Pow2(e - 1));
      IntegersAreKept(k);
    }
  }

  lemma {:induction false} Doubled(m: int, p: int)
    ensures m * (2 * p) == 2 * (m * p)
  {
  }

  // ---- printing halves ----

  function HalfToken(neg: bool, whole: nat): (t: Token)
    ensures t.Value() == if neg then -(whole as real + 0.5) else whole as real + 0.5
  {
    HalfTokenValue(neg, whole);
    NumTok(neg, Decimal(whole), Tail(Some("5"), None))
  }

  lemma {:induction false} HalfTokenValue(neg: bool, whole: nat)
    ensures var t := NumTok(neg, Decimal(whole), Tail(Some("5"), None));
            t.WF() && t.Value() == if neg then -(whole as real + 0.5) else whole as real + 0.5
  {
    DecimalReadsBack(whole);
    var digits := Decimal(whole) + "5";
    assert digits[..|digits| - 1] == Decimal(whole);
    assert DigitsValue(digits) == 10 * whole + 5;
    assert Pow10(-1) == Pow10(0) / 10.0;
    assert "5"[1..] == "";
  }

  function Show(d: real): Token {
    if d >= 0.0 then HalfToken(false, d.Floor) else HalfToken(true, (-d).Floor)
  }

  lemma {:induction false} FloorOfHalf(n: int)
    ensures (n as real + 0.5).Floor == n
  {
  }

  lemma {:induction false} HalfIsShown(d: real, k: int)
    requires d == k as real + 0.5
    ensures Show(d).Value() == d
  {
    hide NumTok.Value;
    FloorOfHalf(k);
    if k < 0 {
      var m := -k - 1;
      assert -d == m as real + 0.5;
      FloorOfHalf(m);
    }
  }

  lemma {:induction false} HalvesAreShown(d: real)
    requires Down(d) == Finite(d) && !PrintsAsInteger(d)
    ensures Show(d).Value() == d
  {
    hide Show, PrintsAsInteger, NumTok.Value;
    if Fine(d) {
      var h := (2.0 * d).Floor;
      assert 2.0 * d == h as real;
      NotTwice(d, h);
      HalfIsShown(d, (h - 1) / 2);
    } else {
      EvenIsInteger(d);
    }
  }

  lemma {:induction false} NotTwice(d: real, h: int)
    requires 2.0 * d == h as real && !PrintsAsInteger(d) && Fine(d)
    ensures h % 2 == 1
  {
    if h % 2 == 0 {
      assert d == (h / 2) as real;
      FloorOfInt(h / 2);
    }
  }

  lemma {:induction false} EvenIsInteger(d: real)
    requires InRange(d) && Even(d) == d
    ensures PrintsAsInteger(d)
  {
    var e := (d / 2.0).Floor;
    assert d == (2 * e) as real;
    FloorOfInt(2 * e);
  }

  // ---- the assumptions hold ----

  lemma {:induction false} Points()
    ensures Down((TWO53 + 1) as real) == Finite(TWO53 as real) && Down(0.5) == Finite(0.5)
  {
    var half := (TWO53 / 2) as real;
    assert (TWO53 + 1) as real / 2.0 == half + 0.5;
    assert (half + 0.5).Floor == TWO53 / 2;
    assert (2.0 * 0.5).Floor == 1;
  }

  /** Some conversions meet the assumptions, with doubles that are not integers among them. */
  lemma {:induction false} FaithfulExists() returns (conv: Conversion)
    ensures conv.Faithful() && conv.IsDouble(0.5)
  {
    conv := Conversion((d: real) => if InRange(d) then Some(Down(d)) else None, Down, Show);
    assert forall d :: conv.IsDouble(d) <==> Down(d) == Finite(d);
    hide Down, Show, Scaled;
    forall n, m, e | Scaled(n, m, e) ensures conv.IsDouble(n as real) {
      ScaledIsKept(n, m, e);
    }
    forall d | InRange(d) ensures conv.nearest(d).Finite? && conv.IsDouble(conv.nearest(d).value) {
      DownIsDouble(d);
    }
    forall x, y | InRange(x) && InRange(y) && x <= y ensures conv.nearest(x).value <= conv.nearest(y).value {
      DownOrder(x, y);
    }
    forall d | conv.IsDouble(d) && !PrintsAsInteger(d) ensures conv.round(conv.show(d).Value()) == Some(Finite(d)) {
      HalvesAreShown(d);
    }
    Points();
  }
}
