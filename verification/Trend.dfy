/** The trend estimator: a bounded window of samples and a least-squares slope over it. */
module Trend {

  datatype TrendSample = TrendSample(t: nat, committed: nat)

  datatype TrendDirection = Flat | Rising | Falling | NoTrend

  datatype TrendEstimate = TrendEstimate(direction: TrendDirection, rate: real, confidence: real, samples: nat)

  // ---- the window ----

  function Cutoff(maxAge: nat, now: nat): nat {
    if maxAge > now then 0 else now - maxAge
  }

  function DropOld(s: seq<TrendSample>, cutoff: nat): seq<TrendSample> {
    if s == [] || s[0].t >= cutoff then s else DropOld(s[1..], cutoff)
  }

  function LastN<T>(s: seq<T>, n: nat): seq<T> {
    if |s| <= n then s else s[|s| - n..]
  }

  function Added(window: nat, maxAge: nat, s: seq<TrendSample>, x: TrendSample): seq<TrendSample> {
    LastN(DropOld(s, Cutoff(maxAge, x.t)) + [x], window)
  }

  /** The window after a history of samples. */
  function WindowOf(window: nat, maxAge: nat, h: seq<TrendSample>): seq<TrendSample> {
    if h == [] then [] else Added(window, maxAge, WindowOf(window, maxAge, h[..|h| - 1]), h[|h| - 1])
  }

  function Recent(h: seq<TrendSample>, cutoff: nat): seq<TrendSample> {
    if h == [] then []
    else Recent(h[..|h| - 1], cutoff) + if h[|h| - 1].t >= cutoff then [h[|h| - 1]] else []
  }

  ghost predicate Ordered(h: seq<TrendSample>) {
    forall i, j | 0 <= i <= j < |h| :: h[i].t <= h[j].t
  }

  /** The first index whose timestamp is at or after the cutoff. */
  function First(h: seq<TrendSample>, cutoff: nat): (k: nat)
    ensures k <= |h| && (forall i | 0 <= i < k :: h[i].t < cutoff) && (k < |h| ==> h[k].t >= cutoff)
  {
    if h == [] || h[0].t >= cutoff then 0 else 1 + First(h[1..], cutoff)
  }

  lemma {:induction false} FirstIs(h: seq<TrendSample>, cutoff: nat, k: nat)
    requires k <= |h| && (forall i | 0 <= i < k :: h[i].t < cutoff) && (k < |h| ==> h[k].t >= cutoff)
    ensures First(h, cutoff) == k
  {
  }

  function Max(a: int, b: int): int {
    if a >= b then a else b
  }

  lemma {:induction false} DropOldOfSuffix(h: seq<TrendSample>, m: nat, cutoff: nat)
    requires m <= |h| && Ordered(h)
    ensures DropOld(h[m..], cutoff) == h[Max(m, First(h, cutoff))..]
    decreases |h| - m
  {
    if m == |h| || h[m].t >= cutoff {
    } else {
      assert h[m..][1..] == h[m + 1..];
      DropOldOfSuffix(h, m + 1, cutoff);
    }
  }

  lemma {:induction false} LastNOfSuffix(h: seq<TrendSample>, m: nat, n: nat)
    requires m <= |h|
    ensures LastN(h[m..], n) == h[Max(m, |h| - n)..]
  {
    if |h| - m > n { assert h[m..][|h| - m - n..] == h[|h| - n..]; }
  }

  lemma {:induction false} SuffixPlusLast(h: seq<TrendSample>, m: nat)
    requires m < |h|
    ensures h[..|h| - 1][m..] + [h[|h| - 1]] == h[m..]
  {
  }

  lemma {:induction false} FirstOfPrefix(h: seq<TrendSample>, cutoff: nat)
    requires h != []
    ensures var n := |h| - 1;
            First(h[..n], cutoff) == if First(h, cutoff) <= n then First(h, cutoff) else n
  {
    var n := |h| - 1;
    FirstIs(h[..n], cutoff, if First(h, cutoff) <= n then First(h, cutoff) else n);
  }

  lemma {:induction false} RecentIsSuffix(h: seq<TrendSample>, cutoff: nat)
    requires Ordered(h)
    ensures Recent(h, cutoff) == h[First(h, cutoff)..]
  {
    hide First;
    if h == [] {
    } else {
      var n, k := |h| - 1, First(h, cutoff);
      RecentIsSuffix(h[..n], cutoff);
      FirstOfPrefix(h, cutoff);
      if k <= n {
        SuffixPlusLast(h, k);
      } else {
        assert h[..n][n..] == [] && h[k..] == [];
      }
    }
  }

  /** Where the window starts in the history. */
  function Start(window: nat, maxAge: nat, h: seq<TrendSample>): (k: nat)
    requires h != []
    ensures k <= |h|
  {
    Max(First(h, Cutoff(maxAge, h[|h| - 1].t)), |h| - window)
  }

  lemma {:induction false} WindowIsSuffix(window: nat, maxAge: nat, h: seq<TrendSample>)
    requires Ordered(h) && h != []
    ensures WindowOf(window, maxAge, h) == h[Start(window, maxAge, h)..]
    decreases |h|
  {
    hide DropOld, LastN, First, Cutoff, Max;
    var n := |h| - 1;
    var h', cutoff := h[..n], Cutoff(maxAge, h[n].t);
    if n == 0 {
      assert h'[0..] == [];
      WindowGrows(window, maxAge, h, 0);
    } else {
      WindowIsSuffix(window, maxAge, h');
      WindowGrows(window, maxAge, h, Start(window, maxAge, h'));
    }
  }

  /** Adding the last entry to the window of the entries before it. */
  lemma {:induction false} WindowGrows(window: nat, maxAge: nat, h: seq<TrendSample>, m: nat)
    requires Ordered(h) && h != []
    requires m == if |h| == 1 then 0 else Start(window, maxAge, h[..|h| - 1])
    ensures Added(window, maxAge, h[..|h| - 1][m..], h[|h| - 1]) == h[Start(window, maxAge, h)..]
  {
    hide DropOld, LastN, First, Cutoff;
    var n := |h| - 1;
    var h', cutoff := h[..n], Cutoff(maxAge, h[n].t);
    CutoffGrows(maxAge, h[n].t, h[n].t);
    FirstOfPrefix(h, cutoff);
    if n > 0 {
      CutoffGrows(maxAge, h'[n - 1].t, h[n].t);
      FirstGrows(h', Cutoff(maxAge, h'[n - 1].t), cutoff);
    }
    var from := Max(m, First(h', cutoff));
    DropOldOfSuffix(h', m, cutoff);
    SuffixPlusLast(h, from);
    LastNOfSuffix(h, from, window);
  }

  lemma {:induction false} CutoffGrows(maxAge: nat, now: nat, later: nat)
    requires now <= later
    ensures Cutoff(maxAge, now) <= Cutoff(maxAge, later) <= later
  {
  }

  lemma {:induction false} FirstGrows(h: seq<TrendSample>, cutoff: nat, cutoff': nat)
    requires Ordered(h) && cutoff <= cutoff'
    ensures First(h, cutoff) <= First(h, cutoff')
  {
  }

  /** After any sequence of samples in time order, the window holds the last `window` entries of the
      history filtered to timestamps at or after the latest cutoff. */
  lemma {:induction false} WindowAgrees(window: nat, maxAge: nat, h: seq<TrendSample>)
    requires Ordered(h) && h != []
    ensures WindowOf(window, maxAge, h) == LastN(Recent(h, Cutoff(maxAge, h[|h| - 1].t)), window)
  {
    hide WindowOf, Recent, LastN, First;
    var cutoff := Cutoff(maxAge, h[|h| - 1].t);
    WindowIsSuffix(window, maxAge, h);
    RecentIsSuffix(h, cutoff);
    LastNOfSuffix(h, First(h, cutoff), window);
  }

  // ---- least squares ----

  function Clamp01(x: real): real {
    if x < 0.0 then 0.0 else if x > 1.0 then 1.0 else x
  }

  /** The centre of a window: the first timestamp, the mean time since then and the mean committed. */
  datatype Centre = Centre(t0: real, mt: real, mc: real) {
    function Dt(x: TrendSample): real {
      (x.t as real - t0) - mt
    }

    function Dc(x: TrendSample): real {
      x.committed as real - mc
    }
  }

  function SumT(s: seq<TrendSample>, k: nat, t0: real): real
    requires k <= |s|
  {
    if k == 0 then 0.0 else SumT(s, k - 1, t0) + (s[k - 1].t as real - t0)
  }

  function SumC(s: seq<TrendSample>, k: nat): real
    requires k <= |s|
  {
    if k == 0 then 0.0 else SumC(s, k - 1) + s[k - 1].committed as real
  }

  function CentreOf(s: seq<TrendSample>): Centre
    requires s != []
  {
    var t0 := s[0].t as real;
    Centre(t0, SumT(s, |s|, t0) / |s| as real, SumC(s, |s|) / |s| as real)
  }

  function Cov(s: seq<TrendSample>, k: nat, c: Centre): real
    requires k <= |s|
  {
    if k == 0 then 0.0 else Cov(s, k - 1, c) + c.Dt(s[k - 1]) * c.Dc(s[k - 1])
  }

  function Var(s: seq<TrendSample>, k: nat, c: Centre): real
    requires k <= |s|
  {
    if k == 0 then 0.0 else Var(s, k - 1, c) + c.Dt(s[k - 1]) * c.Dt(s[k - 1])
  }

  function Varc(s: seq<TrendSample>, k: nat, c: Centre): real
    requires k <= |s|
  {
    if k == 0 then 0.0 else Varc(s, k - 1, c) + c.Dc(s[k - 1]) * c.Dc(s[k - 1])
  }

  function DirectionOf(rate: real): TrendDirection {
    if rate > 1.0 then Rising else if rate < -1.0 then Falling else Flat
  }

  /** The coefficient of determination, before the clamp. */
  function R2(cov: real, variance: real, varc: real): real
    requires variance > 0.0
  {
    if varc > 0.0 then
      ProductPositive(variance, varc);
      cov * cov / (variance * varc)
    else 0.0
  }

  lemma {:induction false} ProductPositive(a: real, b: real)
    requires a > 0.0 && b > 0.0
    ensures a * b > 0.0
  {
  }

  /** The fit's quality, scaled by how full the window is. */
  function Confidence(root: real, n: nat, window: nat): real {
    var spanFrac := n as real / Max(window, 1) as real;
    Clamp01(root * (if spanFrac < 1.0 then spanFrac else 1.0))
  }

  /** What `estimate` computes of a window; `sqrt` is the library's square root. */
  function EstimateOf(s: seq<TrendSample>, window: nat, sqrt: real -> real): TrendEstimate {
    if |s| < 2 then TrendEstimate(NoTrend, 0.0, 0.0, |s|)
    else
      var c := CentreOf(s);
      var cov, variance, varc := Cov(s, |s|, c), Var(s, |s|, c), Varc(s, |s|, c);
      if variance <= 0.0 then TrendEstimate(Flat, 0.0, 0.0, |s|)
      else
        var rate := cov / variance * 1000.0;
        var r2 := Clamp01(R2(cov, variance, varc));
        TrendEstimate(DirectionOf(rate), rate, Confidence(sqrt(r2), |s|, window), |s|)
  }

  class TrendEstimator {
    const windowSamples: nat
    const maxWindowAge: nat
    var samples: seq<TrendSample>

    constructor (windowSamples: nat, maxWindowAge: nat)
      ensures this.windowSamples == windowSamples && this.maxWindowAge == maxWindowAge && samples == []
    {
      this.windowSamples, this.maxWindowAge := windowSamples, maxWindowAge;
      samples := [];
    }

    method AddSample(committed: nat, timestamp: nat)
      modifies this
      ensures samples == Added(windowSamples, maxWindowAge, old(samples), TrendSample(timestamp, committed))
    {
      var cutoff := if maxWindowAge > timestamp then 0 else timestamp - maxWindowAge;
      while samples != [] && samples[0].t < cutoff
        invariant DropOld(samples, cutoff) == DropOld(old(samples), cutoff)
        decreases |samples|
      {
        samples := samples[1..];
      }
      samples := samples + [TrendSample(timestamp, committed)];
      ghost var all := samples;
      while |samples| > windowSamples
        invariant |samples| <= |all| && samples == all[|all| - |samples|..]
        invariant LastN(samples, windowSamples) == LastN(all, windowSamples)
        decreases |samples|
      {
        samples := samples[1..];
      }
    }

    method Reset()
      modifies this
      ensures samples == []
    {
      samples := [];
    }

    method Means() returns (c: Centre)
      requires samples != []
      ensures c == CentreOf(samples)
    {
      var t0, n := samples[0].t as real, |samples|;
      var mt, mc := 0.0, 0.0;
      for i := 0 to n
        invariant mt == SumT(samples, i, t0) && mc == SumC(samples, i)
      {
        mt := mt + (samples[i].t as real - t0);
        mc := mc + samples[i].committed as real;
      }
      c := Centre(t0, mt / n as real, mc / n as real);
    }

    method Moments(c: Centre) returns (cov: real, variance: real, varc: real)
      ensures cov == Cov(samples, |samples|, c)
      ensures variance == Var(samples, |samples|, c)
      ensures varc == Varc(samples, |samples|, c)
    {
      hide Centre.Dt, Centre.Dc;
      cov, variance, varc := 0.0, 0.0, 0.0;
      for i := 0 to |samples|
        invariant cov == Cov(samples, i, c) && variance == Var(samples, i, c) && varc == Varc(samples, i, c)
      {
        var dt, dc := c.Dt(samples[i]), c.Dc(samples[i]);
        cov, variance, varc := cov + dt * dc, variance + dt * dt, varc + dc * dc;
      }
    }

    method Estimate(sqrt: real -> real) returns (out: TrendEstimate)
      ensures out == EstimateOf(samples, windowSamples, sqrt)
    {
      hide CentreOf, Cov, Var, Varc, Clamp01, R2, Confidence;
      if |samples| < 2 { return TrendEstimate(NoTrend, 0.0, 0.0, |samples|); }
      var n := |samples|;
      var c := Means();
      var cov, variance, varc := Moments(c);
      if variance <= 0.0 { return TrendEstimate(Flat, 0.0, 0.0, n); }
      var slope := cov / variance;
      var rate := slope * 1000.0;
      var direction := if rate > 1.0 then Rising else if rate < -1.0 then Falling else Flat;
      var r2 := Clamp01(R2(cov, variance, varc));
      var confidence := Confidence(sqrt(r2), n, windowSamples);
      return TrendEstimate(direction, rate, confidence, n);
    }
  }
}
