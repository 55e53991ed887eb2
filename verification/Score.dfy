/** The weighted pressure score of a domain. */
module Score {
  import opened Policy
  import opened Domain
  import opened Trend

  datatype PressureScore = PressureScore(
    value: real,
    utilizationComponent: real,
    freeDeficitComponent: real,
    reserveDeficitComponent: real,
    growthComponent: real,
    allocationFailureComponent: real,
    confidencePenalty: real,
    stalePenalty: real)

  function ConfidencePenalty(c: Confidence): real {
    match c
    case Authoritative => 0.0
    case HighConfidence => 0.15
    case MediumConfidence => 0.40
    case LowConfidence => 0.65
    case UnknownConfidence => 1.0
  }

  function ValidityPenalty(v: Validity): real {
    match v
    case Valid => 0.0
    case StaleData => 0.85
    case PartialData => 0.35
    case FailedData => 1.0
    case UnavailableData => 1.0
  }

  function Dot(ws: seq<real>, cs: seq<real>, k: nat): real
    requires k <= |ws| && k <= |cs|
  {
    if k == 0 then 0.0 else Dot(ws, cs, k - 1) + ws[k - 1] * cs[k - 1]
  }

  function Total(ws: seq<real>, k: nat): real
    requires k <= |ws|
  {
    if k == 0 then 0.0 else Total(ws, k - 1) + ws[k - 1]
  }

  function Weights(w: ScoreWeights): seq<real> {
    [w.utilization, w.freeDeficit, w.reserveDeficit, w.growthRate, w.allocationFailure,
     w.confidencePenalty, w.stalePenalty]
  }

  function Components(s: PressureScore): seq<real> {
    [s.utilizationComponent, s.freeDeficitComponent, s.reserveDeficitComponent, s.growthComponent,
     s.allocationFailureComponent, s.confidencePenalty, s.stalePenalty]
  }

  function Mean(sum: real, weight: real): real {
    if weight > 0.0 then Clamp01(sum / weight) else 0.0
  }

  /** The components, before they are weighed. The `governed` flag of the source changes nothing: its
      branch repeats the assignment above it. */
  function Raw(utilization: real, freeFraction: real, reserveDeficit: real, growthFactor: real,
               allocationFailures: int, confidence: Confidence, validity: Validity): PressureScore
  {
    var af := allocationFailures as real / 5.0;
    PressureScore(0.0, Clamp01(utilization), Clamp01(1.0 - freeFraction), Clamp01(reserveDeficit),
                  Clamp01(growthFactor), if af < 1.0 then af else 1.0,
                  ConfidencePenalty(confidence), ValidityPenalty(validity))
  }

  function Weighed(s: PressureScore, w: ScoreWeights): (r: PressureScore)
    ensures 0.0 <= r.value <= 1.0
  {
    s.(value := Mean(Dot(Weights(w), Components(s), 7), Total(Weights(w), 7)))
  }

  method ScoreDomain(utilization: real, freeFraction: real, reserveDeficit: real, growthFactor: real,
                     allocationFailures: int, confidence: Confidence, validity: Validity, w: ScoreWeights)
    returns (s: PressureScore)
    ensures s == Weighed(Raw(utilization, freeFraction, reserveDeficit, growthFactor, allocationFailures,
                             confidence, validity), w)
  {
    hide Clamp01;
    s := Raw(utilization, freeFraction, reserveDeficit, growthFactor, allocationFailures, confidence, validity);
    var comps, weights := Components(s), Weights(w);
    var num, den := 0.0, 0.0;
    for i := 0 to 7
      invariant num == Dot(weights, comps, i) && den == Total(weights, i)
    {
      num := num + weights[i] * comps[i];
      den := den + weights[i];
    }
    s := s.(value := Mean(num, den));
  }

  // ---- the score is a weighted mean ----

  ghost predicate Within(xs: seq<real>, lo: real, hi: real) {
    forall i | 0 <= i < |xs| :: lo <= xs[i] <= hi
  }

  lemma {:induction false} ScaleWithin(w: real, x: real, lo: real, hi: real)
    requires w >= 0.0 && lo <= x <= hi
    ensures w * lo <= w * x <= w * hi
  {
  }

  lemma {:induction false} Distributes(t: real, w: real, x: real)
    ensures (t + w) * x == t * x + w * x
  {
  }

  lemma {:induction false} OneMoreWithin(t: real, dot: real, w: real, x: real, lo: real, hi: real)
    requires w >= 0.0 && lo <= x <= hi && t * lo <= dot <= t * hi
    ensures (t + w) * lo <= dot + w * x <= (t + w) * hi
  {
    ScaleWithin(w, x, lo, hi);
    Distributes(t, w, lo);
    Distributes(t, w, hi);
  }

  lemma {:induction false} DotWithin(ws: seq<real>, cs: seq<real>, k: nat, lo: real, hi: real)
    requires k <= |ws| && k <= |cs| && Within(cs, lo, hi) && forall i | 0 <= i < |ws| :: ws[i] >= 0.0
    ensures Total(ws, k) * lo <= Dot(ws, cs, k) <= Total(ws, k) * hi && Total(ws, k) >= 0.0
  {
    if k == 0 {
    } else {
      DotWithin(ws, cs, k - 1, lo, hi);
      OneMoreWithin(Total(ws, k - 1), Dot(ws, cs, k - 1), ws[k - 1], cs[k - 1], lo, hi);
    }
  }

  lemma {:induction false} QuotientWithin(sum: real, t: real, lo: real, hi: real)
    requires t > 0.0 && t * lo <= sum <= t * hi
    ensures lo <= sum / t <= hi
  {
    var q := sum / t;
    assert t * q == sum;
    if q < lo { ScaleStrictly(t, q, lo); }
    if q > hi { ScaleStrictly(t, hi, q); }
  }

  lemma {:induction false} ScaleStrictly(t: real, a: real, b: real)
    requires t > 0.0 && a < b
    ensures t * a < t * b
  {
  }

  /** With non-negative weights of positive sum, a mean of values in a range within [0, 1] is in the
      range: the final clamp changes nothing. */
  lemma {:induction false} MeanWithin(ws: seq<real>, cs: seq<real>, lo: real, hi: real)
    requires |ws| == |cs| && Within(cs, lo, hi) && 0.0 <= lo && hi <= 1.0
    requires (forall i | 0 <= i < |ws| :: ws[i] >= 0.0) && Total(ws, |ws|) > 0.0
    ensures lo <= Mean(Dot(ws, cs, |ws|), Total(ws, |ws|)) <= hi
  {
    hide Dot, Total;
    DotWithin(ws, cs, |ws|, lo, hi);
    QuotientWithin(Dot(ws, cs, |ws|), Total(ws, |ws|), lo, hi);
  }

  // ---- the score is monotone ----

  ghost predicate NonNegative(ws: seq<real>) {
    forall i | 0 <= i < |ws| :: ws[i] >= 0.0
  }

  ghost predicate NoGreater(a: seq<real>, b: seq<real>) {
    |a| == |b| && forall i | 0 <= i < |a| :: a[i] <= b[i]
  }

  lemma {:induction false} ProductOrder(w: real, x: real, y: real)
    requires w >= 0.0 && x <= y
    ensures w * x <= w * y
  {
  }

  lemma {:induction false} DotOrder(ws: seq<real>, a: seq<real>, b: seq<real>, k: nat)
    requires k <= |ws| && |ws| == |a| && NonNegative(ws) && NoGreater(a, b)
    ensures Dot(ws, a, k) <= Dot(ws, b, k)
  {
    if k == 0 {
    } else {
      DotOrder(ws, a, b, k - 1);
      ProductOrder(ws[k - 1], a[k - 1], b[k - 1]);
    }
  }

  lemma {:induction false} QuotientOrder(x: real, y: real, t: real)
    requires t > 0.0 && x <= y
    ensures x / t <= y / t
  {
    var p, q := x / t, y / t;
    assert t * p == x && t * q == y;
    if q < p { ScaleStrictly(t, q, p); }
  }

  /** Under a valid policy's weights a domain that is worse in no component has no lower score for being worse
      in others. */
  lemma {:induction false} ScoreMonotone(a: PressureScore, b: PressureScore, w: ScoreWeights)
    requires NonNegative(Weights(w)) && NoGreater(Components(a), Components(b))
    ensures Weighed(a, w).value <= Weighed(b, w).value
  {
    hide Dot, Total;
    DotOrder(Weights(w), Components(a), Components(b), 7);
    if Total(Weights(w), 7) > 0.0 {
      QuotientOrder(Dot(Weights(w), Components(a), 7), Dot(Weights(w), Components(b), 7), Total(Weights(w), 7));
    }
  }
}
