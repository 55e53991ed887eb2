/** What the least-squares slope is worth: inequalities over every window. */
module TrendFacts {
  import opened Trend

  // ---- Cauchy-Schwarz: the clamp of r2 never acts ----

  lemma {:induction false} SquaresOrder(p: real, q: real)
    requires p >= 0.0 && q * q <= p * p
    ensures q <= p
  {
    if q > p { SquareGrows(p, q); }
  }

  lemma {:induction false} SquareGrows(p: real, q: real)
    requires q > p >= 0.0
    ensures q * q > p * p
  {
    ProductPositive(q - p, q + p);
    assert (q - p) * (q + p) == q * q - p * p;
  }

  lemma {:induction false} ProductSign(a: real, b: real, product: real)
    requires a > 0.0 && b > 0.0 && product == a * b
    ensures product > 0.0
  {
  }

  lemma {:induction false} SquareSign(x: real, square: real)
    requires square == x * x
    ensures square >= 0.0 && (square == 0.0 <==> x == 0.0)
  {
    if x > 0.0 {
      ProductSign(x, x, square);
    } else if x < 0.0 {
      assert (-x) * (-x) == square;
      ProductSign(-x, -x, square);
    }
  }

  /** One more point keeps A^2 <= X Y. */
  lemma {:induction false} CauchyStep(A: real, X: real, Y: real, a: real, b: real)
    requires X >= 0.0 && Y >= 0.0 && A * A <= X * Y
    ensures (A + a * b) * (A + a * b) <= (X + a * a) * (Y + b * b)
  {
    var p, q := X * (b * b) + Y * (a * a), 2.0 * (A * (a * b));
    var xb, ya, ab := X * (b * b), Y * (a * a), a * b;
    assert xb >= 0.0 && ya >= 0.0;
    assert xb * ya == (X * Y) * (ab * ab);
    assert q * q == 4.0 * ((A * A) * (ab * ab));
    ScaleOrder(A * A, X * Y, ab * ab);
    assert (xb - ya) * (xb - ya) >= 0.0;
    assert p * p == (xb - ya) * (xb - ya) + 4.0 * (xb * ya);
    SquaresOrder(p, q);
    assert (A + ab) * (A + ab) == A * A + q + ab * ab;
    assert (X + a * a) * (Y + b * b) == X * Y + p + ab * ab;
  }

  lemma {:induction false} ScaleOrder(a: real, b: real, c: real)
    requires a <= b && c >= 0.0
    ensures a * c <= b * c
  {
  }

  lemma {:induction false} CauchySchwarz(s: seq<TrendSample>, k: nat, c: Centre)
    requires k <= |s|
    ensures Var(s, k, c) >= 0.0 && Varc(s, k, c) >= 0.0
    ensures Cov(s, k, c) * Cov(s, k, c) <= Var(s, k, c) * Varc(s, k, c)
  {
    hide Cov, Var, Varc, Centre.Dt, Centre.Dc;
    if k == 0 {
      NoMoments(s, c);
    } else {
      CauchySchwarz(s, k - 1, c);
      LastMoments(s, k, c);
      var a, b := c.Dt(s[k - 1]), c.Dc(s[k - 1]);
      NextMoments(Cov(s, k - 1, c), Var(s, k - 1, c), Varc(s, k - 1, c), a, b,
                  Cov(s, k, c), Var(s, k, c), Varc(s, k, c));
    }
  }

  lemma {:induction false} NoMoments(s: seq<TrendSample>, c: Centre)
    ensures Cov(s, 0, c) == 0.0 && Var(s, 0, c) == 0.0 && Varc(s, 0, c) == 0.0
  {
  }

  lemma {:induction false} LastMoments(s: seq<TrendSample>, k: nat, c: Centre)
    requires 0 < k <= |s|
    ensures var a, b := c.Dt(s[k - 1]), c.Dc(s[k - 1]);
            && Cov(s, k, c) == Cov(s, k - 1, c) + a * b
            && Var(s, k, c) == Var(s, k - 1, c) + a * a && Varc(s, k, c) == Varc(s, k - 1, c) + b * b
  {
    hide Centre.Dt, Centre.Dc;
  }

  lemma {:induction false} NextMoments(A: real, X: real, Y: real, a: real, b: real, A': real, X': real, Y': real)
    requires X >= 0.0 && Y >= 0.0 && A * A <= X * Y
    requires A' == A + a * b && X' == X + a * a && Y' == Y + b * b
    ensures X' >= 0.0 && Y' >= 0.0 && A' * A' <= X' * Y'
  {
    CauchyStep(A, X, Y, a, b);
    SquareSign(a, a * a);
    SquareSign(b, b * b);
  }

  /** In every window r2 is already within [0, 1], so the clamp changes nothing. */
  lemma {:induction false} R2InUnitInterval(s: seq<TrendSample>, c: Centre)
    requires Var(s, |s|, c) > 0.0
    ensures var r2 := R2(Cov(s, |s|, c), Var(s, |s|, c), Varc(s, |s|, c));
            0.0 <= r2 <= 1.0 && Clamp01(r2) == r2
  {
    hide Cov, Var, Varc;
    CauchySchwarz(s, |s|, c);
    var cov, variance, varc := Cov(s, |s|, c), Var(s, |s|, c), Varc(s, |s|, c);
    if varc > 0.0 {
      ProductPositive(variance, varc);
      SquareSign(cov, cov * cov);
      QuotientInUnit(cov * cov, variance * varc);
    }
  }

  lemma {:induction false} QuotientInUnit(a: real, b: real)
    requires 0.0 <= a <= b && b > 0.0
    ensures 0.0 <= a / b <= 1.0
  {
  }

  // ---- Chebyshev: growth in order is never reported as falling ----

  function SumDt(s: seq<TrendSample>, k: nat, c: Centre): real
    requires k <= |s|
  {
    if k == 0 then 0.0 else SumDt(s, k - 1, c) + c.Dt(s[k - 1])
  }

  lemma {:induction false} SumDtIs(s: seq<TrendSample>, k: nat, c: Centre)
    requires k <= |s|
    ensures SumDt(s, k, c) == SumT(s, k, c.t0) - k as real * c.mt
  {
    if k == 0 {
    } else {
      SumDtIs(s, k - 1, c);
      assert k as real * c.mt == (k - 1) as real * c.mt + c.mt;
    }
  }

  /** Deviations from the mean time sum to zero. */
  lemma {:induction false} DeviationsCancel(s: seq<TrendSample>)
    requires s != []
    ensures SumDt(s, |s|, CentreOf(s)) == 0.0
  {
    hide SumT;
    var c := CentreOf(s);
    SumDtIs(s, |s|, c);
    QuotientTimes(SumT(s, |s|, c.t0), |s| as real);
  }

  lemma {:induction false} QuotientTimes(a: real, b: real)
    requires b != 0.0
    ensures b * (a / b) == a
  {
  }

  /** Moving the centre of the committed values by `e` changes the covariance by `e` times the sum of
      the time deviations. */
  lemma {:induction false} CovShift(s: seq<TrendSample>, k: nat, c: Centre, mc: real)
    requires k <= |s|
    ensures Cov(s, k, c) == Cov(s, k, c.(mc := mc)) + (mc - c.mc) * SumDt(s, k, c)
  {
    if k == 0 {
    } else {
      CovShift(s, k - 1, c, mc);
      var x := s[k - 1];
      var dt, e, sum := c.Dt(x), mc - c.mc, SumDt(s, k - 1, c);
      assert c.Dc(x) == c.(mc := mc).Dc(x) + e;
      assert dt * c.Dc(x) == dt * c.(mc := mc).Dc(x) + e * dt;
      assert e * (sum + dt) == e * sum + e * dt;
    }
  }

  ghost predicate Growing(s: seq<TrendSample>) {
    forall i, j | 0 <= i <= j < |s| :: s[i].committed <= s[j].committed
  }

  /** The last sample not after the centre: a pivot at which time and committed deviations agree in sign. */
  lemma {:induction false} PivotExists(s: seq<TrendSample>, k: nat, c: Centre) returns (p: nat)
    requires k < |s| && Ordered(s) && c.Dt(s[0]) <= 0.0
    ensures p <= k && c.Dt(s[p]) <= 0.0 && forall i | p < i <= k :: c.Dt(s[i]) > 0.0
  {
    if c.Dt(s[k]) <= 0.0 {
      p := k;
    } else {
      p := PivotExists(s, k - 1, c);
    }
  }

  lemma {:induction false} CovNonNegative(s: seq<TrendSample>, k: nat, c: Centre, p: nat)
    requires k <= |s| && p < |s| && Ordered(s) && Growing(s)
    requires c.mc == s[p].committed as real
    requires c.Dt(s[p]) <= 0.0 && forall i | p < i < |s| :: c.Dt(s[i]) > 0.0
    ensures Cov(s, k, c) >= 0.0
  {
    if k == 0 {
    } else {
      CovNonNegative(s, k - 1, c, p);
      var dt, dc := c.Dt(s[k - 1]), c.Dc(s[k - 1]);
      if k - 1 <= p {
        assert s[k - 1].t <= s[p].t && s[k - 1].committed <= s[p].committed;
        assert dt <= 0.0 && dc <= 0.0;
        ProductNonNegative(-dt, -dc);
        assert (-dt) * (-dc) == dt * dc;
      } else {
        ProductNonNegative(dt, dc);
      }
    }
  }

  lemma {:induction false} ProductNonNegative(a: real, b: real)
    requires a >= 0.0 && b >= 0.0
    ensures a * b >= 0.0
  {
  }

  lemma {:induction false} SumTNonNegative(s: seq<TrendSample>, k: nat)
    requires k <= |s| && s != [] && Ordered(s)
    ensures SumT(s, k, s[0].t as real) >= 0.0
  {
    if k == 0 {
    } else {
      SumTNonNegative(s, k - 1);
    }
  }

  lemma {:induction false} CovOfGrowing(s: seq<TrendSample>)
    requires s != [] && Ordered(s) && Growing(s)
    ensures Cov(s, |s|, CentreOf(s)) >= 0.0
  {
    hide Cov, SumDt, SumT, SumC;
    var c := CentreOf(s);
    SumTNonNegative(s, |s|);
    QuotientNonNegative(SumT(s, |s|, c.t0), |s| as real);
    assert c.Dt(s[0]) <= 0.0;
    var p := PivotExists(s, |s| - 1, c);
    var c' := c.(mc := s[p].committed as real);
    assert c'.Dt(s[p]) <= 0.0;
    forall i | p < i < |s| ensures c'.Dt(s[i]) > 0.0 {
      assert c.Dt(s[i]) > 0.0;
    }
    CovNonNegative(s, |s|, c', p);
    DeviationsCancel(s);
    CovShift(s, |s|, c, s[p].committed as real);
  }

  lemma {:induction false} QuotientNonNegative(a: real, b: real)
    requires a >= 0.0 && b > 0.0
    ensures a / b >= 0.0
  {
  }

  /** Samples whose committed bytes do not fall over time are never estimated as Falling. */
  lemma {:induction false} GrowingIsNeverFalling(s: seq<TrendSample>, window: nat, sqrt: real -> real)
    requires Ordered(s) && Growing(s)
    ensures EstimateOf(s, window, sqrt).direction != Falling && EstimateOf(s, window, sqrt).rate >= 0.0
  {
    hide Cov, Var, Varc, R2, Confidence, Clamp01, CentreOf;
    if |s| >= 2 {
      CovOfGrowing(s);
      var c := CentreOf(s);
      if Var(s, |s|, c) > 0.0 {
        QuotientNonNegative(Cov(s, |s|, c), Var(s, |s|, c));
      }
    }
  }

  // ---- exactness on a line ----

  ghost predicate OnLine(s: seq<TrendSample>, a: real, b: real) {
    forall i | 0 <= i < |s| :: s[i].committed as real == a + b * (s[i].t as real)
  }

  lemma {:induction false} LineSums(s: seq<TrendSample>, k: nat, a: real, b: real, t0: real)
    requires k <= |s| && OnLine(s, a, b)
    ensures SumC(s, k) == k as real * (a + b * t0) + b * SumT(s, k, t0)
  {
    if k == 0 {
    } else {
      LineSums(s, k - 1, a, b, t0);
      var d, base := s[k - 1].t as real - t0, a + b * t0;
      assert s[k - 1].committed as real == base + b * d;
      assert k as real * base == (k - 1) as real * base + base;
      assert b * (SumT(s, k - 1, t0) + d) == b * SumT(s, k - 1, t0) + b * d;
    }
  }

  lemma {:induction false} LineMoments(s: seq<TrendSample>, k: nat, c: Centre, b: real)
    requires k <= |s| && forall i | 0 <= i < k :: c.Dc(s[i]) == b * c.Dt(s[i])
    ensures Cov(s, k, c) == b * Var(s, k, c)
    ensures Varc(s, k, c) == b * Cov(s, k, c)
  {
    hide Centre.Dt, Centre.Dc;
    if k == 0 {
    } else {
      LineMoments(s, k - 1, c, b);
      var dt, dc, v := c.Dt(s[k - 1]), c.Dc(s[k - 1]), Var(s, k - 1, c);
      assert dc == b * dt;
      assert dt * dc == b * (dt * dt);
      assert dc * dc == b * (dt * dc);
      assert b * (v + dt * dt) == b * v + b * (dt * dt);
      assert b * (Cov(s, k - 1, c) + dt * dc) == b * Cov(s, k - 1, c) + b * (dt * dc);
    }
  }

  lemma {:induction false} LineDeviations(s: seq<TrendSample>, a: real, b: real)
    requires s != [] && OnLine(s, a, b)
    ensures var c := CentreOf(s); forall i | 0 <= i < |s| :: c.Dc(s[i]) == b * c.Dt(s[i])
  {
    hide SumC, SumT;
    var c, n := CentreOf(s), |s| as real;
    var base, sum := a + b * c.t0, SumT(s, |s|, c.t0);
    LineSums(s, |s|, a, b, c.t0);
    MeanOfLine(n, base, b, sum);
    assert SumC(s, |s|) == n * base + b * sum;
    assert c.mc == (n * base + b * sum) / n && c.mt == sum / n;
    forall i | 0 <= i < |s| ensures c.Dc(s[i]) == b * c.Dt(s[i]) {
      var t := s[i].t as real;
      assert s[i].committed as real == a + b * t;
      assert b * ((t - c.t0) - c.mt) == b * t - b * c.t0 - b * c.mt;
    }
  }

  lemma {:induction false} MeanOfLine(n: real, base: real, b: real, sum: real)
    requires n != 0.0
    ensures (n * base + b * sum) / n == base + b * (sum / n)
  {
    var m := sum / n;
    QuotientTimes(sum, n);
    assert n * (base + b * m) == n * base + b * (n * m);
    QuotientUnique(n * base + b * sum, n, base + b * m);
  }

  lemma {:induction false} QuotientUnique(a: real, b: real, q: real)
    requires b != 0.0 && b * q == a
    ensures a / b == q
  {
  }

  /** Samples on a line of slope `b` bytes per millisecond, not all at one time, give a rate of exactly
      1000 b bytes per second, and a perfect fit unless the line is level. */
  lemma {:induction false} LineIsExact(s: seq<TrendSample>, a: real, b: real, window: nat, sqrt: real -> real)
    requires |s| >= 2 && OnLine(s, a, b) && Var(s, |s|, CentreOf(s)) > 0.0
    ensures EstimateOf(s, window, sqrt).rate == 1000.0 * b
    ensures var c := CentreOf(s);
            R2(Cov(s, |s|, c), Var(s, |s|, c), Varc(s, |s|, c)) == if b == 0.0 then 0.0 else 1.0
  {
    hide CentreOf, Cov, Var, Varc, Confidence, Clamp01, R2;
    var c := CentreOf(s);
    var v := Var(s, |s|, c);
    LineDeviations(s, a, b);
    LineMoments(s, |s|, c, b);
    QuotientUnique(b * v, v, b);
    PerfectFit(b, v, Cov(s, |s|, c), Varc(s, |s|, c));
  }

  lemma {:induction false} PerfectFit(b: real, v: real, cov: real, varc: real)
    requires v > 0.0 && cov == b * v && varc == b * cov
    ensures R2(cov, v, varc) == if b == 0.0 then 0.0 else 1.0
  {
    if b == 0.0 { assert varc == 0.0; return; }
    hide R2;
    var bb := b * b;
    SquareSign(b, bb);
    assert varc == bb * v;
    if b != 0.0 {
      ProductSign(bb, v, varc);
      assert cov * cov == v * varc;
      FullR2(cov, v, varc);
    }
  }

  lemma {:induction false} FullR2(cov: real, v: real, varc: real)
    requires v > 0.0 && varc > 0.0 && cov * cov == v * varc
    ensures R2(cov, v, varc) == 1.0
  {
    ProductPositive(v, varc);
    QuotientUnique(cov * cov, v * varc, 1.0);
  }

  // ---- when there is a slope at all ----

  lemma {:induction false} VarOfConstant(s: seq<TrendSample>, k: nat, c: Centre)
    requires k <= |s|
    ensures Var(s, k, c) >= 0.0
    ensures Var(s, k, c) == 0.0 <==> forall i | 0 <= i < k :: c.Dt(s[i]) == 0.0
  {
    hide Centre.Dt;
    if k == 0 {
    } else {
      VarOfConstant(s, k - 1, c);
      var dt := c.Dt(s[k - 1]);
      SquareSign(dt, dt * dt);
    }
  }

  /** A slope is estimated exactly when two samples differ in time. */
  lemma {:induction false} SlopeIffTimesDiffer(s: seq<TrendSample>)
    requires s != []
    ensures Var(s, |s|, CentreOf(s)) > 0.0 <==> exists i | 0 <= i < |s| :: s[i].t != s[0].t
  {
    hide SumC, SumT, Var;
    var c := CentreOf(s);
    VarOfConstant(s, |s|, c);
    if forall i | 0 <= i < |s| :: s[i].t == s[0].t {
      SumOfEqualTimes(s, |s|);
      assert c.mt == 0.0;
      assert forall i | 0 <= i < |s| :: c.Dt(s[i]) == 0.0;
    } else {
      var i :| 0 <= i < |s| && s[i].t != s[0].t;
      assert c.Dt(s[i]) != c.Dt(s[0]);
    }
  }

  lemma {:induction false} SumOfEqualTimes(s: seq<TrendSample>, k: nat)
    requires k <= |s| && s != [] && forall i | 0 <= i < |s| :: s[i].t == s[0].t
    ensures SumT(s, k, s[0].t as real) == 0.0
  {
    if k == 0 {
    } else {
      SumOfEqualTimes(s, k - 1);
    }
  }
}
