/** The least-squares rate is bounded by the samples: since times are whole milliseconds, no slope is steeper
    than the greatest committed value per millisecond. */
module TrendBound {
  import opened Trend
  import opened TrendFacts

  ghost predicate AtMost(s: seq<TrendSample>, bound: real) {
    forall i | 0 <= i < |s| :: s[i].committed as real <= bound
  }

  lemma {:induction false} ProductOrder(w: real, x: real, y: real, wx: real, wy: real)
    requires w >= 0.0 && x <= y && wx == w * x && wy == w * y
    ensures wx <= wy
  {
  }

  lemma {:induction false} ProductSigns(a: real, b: real, ab: real)
    requires ab == a * b && ((a >= 0.0 && b >= 0.0) || (a <= 0.0 && b <= 0.0))
    ensures ab >= 0.0
  {
  }

  lemma {:induction false} Distributes(w: real, x: real, y: real)
    ensures w * (x + y) == w * x + w * y
  {
  }

  /** One term: `x` is a whole number of milliseconds from a whole pivot that is `delta` before the mean. */
  lemma {:induction false} TermBound(x: int, delta: real, c: real, bound: real, dt: real, dtc: real, dtx: real)
    requires 0.0 <= delta < 1.0 && 0.0 <= c <= bound
    requires dt == x as real - delta && dtc == dt * c && dtx == dt * x as real
    ensures -(bound * (dtx - dt)) <= dtc <= bound * dtx
  {
    var boundDt := bound * dt;
    if x >= 1 {
      ProductOrder(dt, c, bound, dtc, boundDt);
      ProductSigns(dt, c, dtc);
      ProductOrder(dt, 1.0, x as real, dt, dtx);
      ProductOrder(bound, dt, dtx, boundDt, bound * dtx);
      ProductSigns(bound, dtx - dt, bound * (dtx - dt));
    } else {
      ProductOrder(-dt, c, bound, -dtc, -boundDt);
      ProductSigns(dt, x as real, dtx);
      ProductOrder(-dt, 0.0, c, 0.0, -dtc);
      ProductSigns(bound, dtx, bound * dtx);
      ProductOrder(bound, -dt, dtx - dt, -boundDt, bound * (dtx - dt));
    }
  }

  /** The bounds on the covariance, `sum` being the sum of the time deviations so far. */
  ghost predicate Bounded(cov: real, variance: real, sum: real, delta: real, bound: real) {
    -(bound * (variance + (delta - 1.0) * sum)) <= cov <= bound * (variance + delta * sum)
  }

  lemma {:induction false} NoneBounded(delta: real, bound: real)
    ensures Bounded(0.0, 0.0, 0.0, delta, bound)
  {
  }

  lemma {:induction false} NextBound(cov: real, variance: real, sum: real, delta: real, bound: real,
                                     dt: real, dtc: real, dtx: real, square: real)
    requires dtx == square + delta * dt
    requires -(bound * (dtx - dt)) <= dtc <= bound * dtx
    requires Bounded(cov, variance, sum, delta, bound)
    ensures Bounded(cov + dtc, variance + square, sum + dt, delta, bound)
  {
    var u, v := variance + delta * sum, variance + (delta - 1.0) * sum;
    Distributes(delta, sum, dt);
    Distributes(delta - 1.0, sum, dt);
    assert (delta - 1.0) * dt == delta * dt - dt;
    assert (variance + square) + delta * (sum + dt) == u + dtx;
    assert (variance + square) + (delta - 1.0) * (sum + dt) == v + (dtx - dt);
    Distributes(bound, u, dtx);
    Distributes(bound, v, dtx - dt);
  }

  ghost predicate OnGrid(s: seq<TrendSample>, c: Centre, pivot: int, delta: real) {
    forall i | 0 <= i < |s| :: c.Dt(s[i]) == (s[i].t - pivot) as real - delta
  }

  lemma {:induction false} NoDeviation(s: seq<TrendSample>, c: Centre)
    ensures SumDt(s, 0, c) == 0.0
  {
  }

  lemma {:induction false} LastDeviation(s: seq<TrendSample>, k: nat, c: Centre, pivot: int, delta: real)
    requires 0 < k <= |s| && OnGrid(s, c, pivot, delta)
    ensures SumDt(s, k, c) == SumDt(s, k - 1, c) + c.Dt(s[k - 1])
    ensures c.Dt(s[k - 1]) == (s[k - 1].t - pivot) as real - delta
  {
    hide Centre.Dt;
  }

  lemma {:induction false} GridProduct(x: int, delta: real, dt: real)
    requires dt == x as real - delta
    ensures dt * x as real == dt * dt + delta * dt
  {
    var r := x as real;
    assert r == dt + delta;
    Distributes(dt, dt, delta);
  }

  lemma {:induction false} StepBound(x: int, delta: real, bound: real, dt: real, committed: real,
                                     cov: real, variance: real, sum: real, cov': real, variance': real, sum': real)
    requires 0.0 <= delta < 1.0 && dt == x as real - delta && 0.0 <= committed <= bound
    requires cov' == cov + dt * committed && variance' == variance + dt * dt && sum' == sum + dt
    requires Bounded(cov, variance, sum, delta, bound)
    ensures Bounded(cov', variance', sum', delta, bound)
  {
    hide Bounded;
    var dtc, dtx, square := dt * committed, dt * x as real, dt * dt;
    GridProduct(x, delta, dt);
    TermBound(x, delta, committed, bound, dt, dtc, dtx);
    NextBound(cov, variance, sum, delta, bound, dt, dtc, dtx, square);
  }

  /** The last sample, by the names that the bounds use. */
  lemma {:induction false} LastTerm(s: seq<TrendSample>, k: nat, c: Centre, pivot: int, delta: real, bound: real)
    requires 0 < k <= |s| && c.mc == 0.0 && AtMost(s, bound) && OnGrid(s, c, pivot, delta)
    ensures var dt, committed := c.Dt(s[k - 1]), s[k - 1].committed as real;
            && Cov(s, k, c) == Cov(s, k - 1, c) + dt * committed && Var(s, k, c) == Var(s, k - 1, c) + dt * dt
            && SumDt(s, k, c) == SumDt(s, k - 1, c) + dt
            && dt == (s[k - 1].t - pivot) as real - delta && 0.0 <= committed <= bound
  {
    hide Cov, Var, SumDt, Centre.Dt, OnGrid;
    LastMoments(s, k, c);
    LastDeviation(s, k, c, pivot, delta);
    assert c.Dc(s[k - 1]) == s[k - 1].committed as real;
  }

  /** The covariance around a centre whose committed part is zero. */
  lemma {:induction false} CovBound(s: seq<TrendSample>, k: nat, c: Centre, pivot: int, delta: real, bound: real)
    requires k <= |s| && c.mc == 0.0 && AtMost(s, bound) && 0.0 <= delta < 1.0 && OnGrid(s, c, pivot, delta)
    ensures Bounded(Cov(s, k, c), Var(s, k, c), SumDt(s, k, c), delta, bound)
  {
    hide Cov, Var, SumDt, Centre.Dt, OnGrid, Bounded, AtMost;
    if k == 0 {
      NoMoments(s, c);
      NoDeviation(s, c);
      NoneBounded(delta, bound);
    } else {
      CovBound(s, k - 1, c, pivot, delta, bound);
      LastTerm(s, k, c, pivot, delta, bound);
      StepBound(s[k - 1].t - pivot, delta, bound, c.Dt(s[k - 1]), s[k - 1].committed as real,
                Cov(s, k - 1, c), Var(s, k - 1, c), SumDt(s, k - 1, c), Cov(s, k, c), Var(s, k, c), SumDt(s, k, c));
    }
  }

  /** Deviations in time do not depend on the committed part of the centre. */
  lemma {:induction false} TimePart(s: seq<TrendSample>, k: nat, c: Centre, mc: real)
    requires k <= |s|
    ensures Var(s, k, c.(mc := mc)) == Var(s, k, c) && SumDt(s, k, c.(mc := mc)) == SumDt(s, k, c)
  {
    if k == 0 {
    } else {
      TimePart(s, k - 1, c, mc);
    }
  }

  lemma {:induction false} WithoutSum(cov: real, variance: real, delta: real, bound: real)
    requires Bounded(cov, variance, 0.0, delta, bound)
    ensures -(bound * variance) <= cov <= bound * variance
  {
  }

  lemma {:induction false} CovAtMost(s: seq<TrendSample>, bound: real)
    requires s != [] && AtMost(s, bound)
    ensures var c := CentreOf(s); -(bound * Var(s, |s|, c)) <= Cov(s, |s|, c) <= bound * Var(s, |s|, c)
  {
    hide Cov, Var, SumDt, SumT, SumC, AtMost, Bounded;
    var c := CentreOf(s);
    var c' := c.(mc := 0.0);
    var whole := c.mt.Floor;
    var pivot, delta := s[0].t + whole, c.mt - whole as real;
    assert OnGrid(s, c', pivot, delta);
    CovBound(s, |s|, c', pivot, delta, bound);
    TimePart(s, |s|, c, 0.0);
    DeviationsCancel(s);
    CovShift(s, |s|, c, 0.0);
    WithoutSum(Cov(s, |s|, c), Var(s, |s|, c), delta, bound);
  }

  lemma {:induction false} QuotientAtMost(x: real, y: real, bound: real)
    requires y > 0.0 && -(bound * y) <= x <= bound * y
    ensures -bound <= x / y <= bound
  {
    var q := x / y;
    assert q * y == x;
    if q > bound { Strictly(y, bound, q); }
    if q < -bound { Strictly(y, q, -bound); }
  }

  lemma {:induction false} Strictly(w: real, x: real, y: real)
    requires w > 0.0 && x < y
    ensures x * w < y * w
  {
  }

  /** The rate in bytes per second is at most 1000 times the greatest committed value of the window. */
  lemma {:induction false} RateBound(s: seq<TrendSample>, window: nat, sqrt: real -> real, bound: real)
    requires AtMost(s, bound) && bound >= 0.0
    ensures -(1000.0 * bound) <= EstimateOf(s, window, sqrt).rate <= 1000.0 * bound
  {
    hide Cov, Var, Varc, R2, Confidence, Clamp01, CentreOf, AtMost;
    if |s| >= 2 {
      var c := CentreOf(s);
      CovAtMost(s, bound);
      if Var(s, |s|, c) > 0.0 { QuotientAtMost(Cov(s, |s|, c), Var(s, |s|, c), bound); }
    }
  }
}
