/** Whole runs of classifier and debounce machine together: the raw level depends on the resolved level,
    and the resolved level on a debounced run of raw levels. */
module HysteresisRuns {
  import opened Policy
  import opened Classifier
  import opened Hysteresis

  datatype Sample = Sample(utilization: real, now: nat)

  /** The two parts of a policy that a run depends on. */
  datatype Rules = Rules(t: Thresholds, cfg: HysteresisConfig)

  function Step(r: Rules, s: Machine, x: Sample): Machine {
    Next(r.cfg, s, EvaluateLevel(x.utilization, s.level, r.t), x.now)
  }

  function RunFrom(r: Rules, s: Machine, xs: seq<Sample>): Machine {
    if xs == [] then s else Step(r, RunFrom(r, s, xs[..|xs| - 1]), xs[|xs| - 1])
  }

  /** Holds of a fresh machine and is kept by every step, so it holds in every reachable state. */
  predicate Sound(s: Machine) {
    && IsKnown(s.level)
    && s.pending != s.level
    && (s.pending == Unknown ==> s.pendingObs == 0)
  }

  lemma {:induction false} StepSound(r: Rules, s: Machine, x: Sample)
    requires Sound(s)
    ensures Sound(Step(r, s, x))
    ensures var l := Step(r, s, x).level; l == s.level || l == EvaluateLevel(x.utilization, s.level, r.t)
  {
  }

  lemma {:induction false} RunSound(r: Rules, s: Machine, xs: seq<Sample>)
    requires Sound(s)
    ensures Sound(RunFrom(r, s, xs))
  {
    if xs == [] {
    } else {
      RunSound(r, s, xs[..|xs| - 1]);
      StepSound(r, RunFrom(r, s, xs[..|xs| - 1]), xs[|xs| - 1]);
    }
  }

  // ---- monotone runs ----

  ghost predicate NonDecreasing(xs: seq<Sample>) {
    forall i, j | 0 <= i <= j < |xs| :: xs[i].utilization <= xs[j].utilization
  }

  lemma {:induction false} HeldByEnter(u: real, l: PressureLevel, t: Thresholds)
    requires IsKnown(l) && Ascending(t) && (UnderPressure(l) ==> u >= Enter(l, t))
    ensures var raw := EvaluateLevel(u, l, t);
            SeverityRank(raw) >= SeverityRank(l) && (UnderPressure(raw) ==> u >= Enter(raw, t))
  {
  }

  /** From a fresh domain, utilization that never falls never lowers the level, whatever the debounce
      does: at every moment the level is no lower than at any earlier one. */
  lemma {:induction false} RisingUtilizationNeverLowers(r: Rules, xs: seq<Sample>, k: nat)
    requires Ascending(r.t) && NonDecreasing(xs) && k <= |xs|
    ensures SeverityRank(RunFrom(r, FRESH, xs[..k]).level) <= SeverityRank(RunFrom(r, FRESH, xs).level)
    ensures var l := RunFrom(r, FRESH, xs).level;
            UnderPressure(l) ==> xs != [] && xs[|xs| - 1].utilization >= Enter(l, r.t)
    decreases |xs|
  {
    hide EvaluateLevel, Enter, Next, Ascending;
    if xs == [] {
    } else {
      var n := |xs| - 1;
      RunSound(r, FRESH, xs[..n]);
      RisingUtilizationNeverLowers(r, xs[..n], if k <= n then k else n);
      StepSound(r, RunFrom(r, FRESH, xs[..n]), xs[n]);
      HeldByEnter(xs[n].utilization, RunFrom(r, FRESH, xs[..n]).level, r.t);
      if k <= n {
        assert xs[..n][..k] == xs[..k];
      } else {
        assert xs[..k] == xs;
      }
    }
  }

  // ---- convergence under constant utilization ----

  /** The classifier's fixed point from a level, and the number of changes to get there. */
  function StepsToFix(u: real, l: PressureLevel, t: Thresholds): nat
    requires IsKnown(l)
    decreases SeverityRank(l)
  {
    var raw := EvaluateLevel(u, l, t);
    if raw == l then 0
    else if SeverityRank(raw) > SeverityRank(l) then 1
    else 1 + StepsToFix(u, raw, t)
  }

  function FixedLevel(u: real, l: PressureLevel, t: Thresholds): PressureLevel
    requires IsKnown(l)
    decreases SeverityRank(l)
  {
    var raw := EvaluateLevel(u, l, t);
    if SeverityRank(raw) >= SeverityRank(l) then raw else FixedLevel(u, raw, t)
  }

  lemma {:induction false} AboutFixedLevel(u: real, l: PressureLevel, t: Thresholds)
    requires IsKnown(l) && Ascending(t)
    ensures var f := FixedLevel(u, l, t); IsKnown(f) && EvaluateLevel(u, f, t) == f
    ensures StepsToFix(u, l, t) <= 4
    ensures SeverityRank(EvaluateLevel(u, l, t)) < SeverityRank(l) ==>
              StepsToFix(u, l, t) <= SeverityRank(l) && SeverityRank(FixedLevel(u, l, t)) < SeverityRank(l)
    decreases SeverityRank(l)
  {
    var raw := EvaluateLevel(u, l, t);
    if SeverityRank(raw) < SeverityRank(l) {
      AboutFixedLevel(u, raw, t);
      DropThenNoClimb(u, l, t);
    }
  }

  /** A utilization that drops a level does not climb from the level below. */
  lemma {:induction false} DropThenNoClimb(u: real, l: PressureLevel, t: Thresholds)
    requires IsKnown(l) && Ascending(t)
    ensures var raw := EvaluateLevel(u, l, t);
            SeverityRank(EvaluateLevel(u, raw, t)) <= SeverityRank(raw)
  {
  }

  ghost predicate Constant(xs: seq<Sample>, u: real) {
    forall i | 0 <= i < |xs| :: xs[i].utilization == u
  }

  /** How many steps of a run change the level. */
  function Changes(r: Rules, s: Machine, xs: seq<Sample>): nat {
    if xs == [] then 0
    else
      var n := |xs| - 1;
      Changes(r, s, xs[..n]) + if RunFrom(r, s, xs).level != RunFrom(r, s, xs[..n]).level then 1 else 0
  }

  /** Under constant utilization a run from any reachable state moves towards one fixed level only: each
      change is one of the steps to it, so there are at most four, and the level stays between the first
      level and the fixed one. */
  lemma {:induction false} ConstantUtilizationOneDirection(r: Rules, s: Machine, xs: seq<Sample>, u: real)
    requires Ascending(r.t) && Sound(s) && Constant(xs, u)
    ensures var l := RunFrom(r, s, xs).level;
            && IsKnown(l)
            && Changes(r, s, xs) + StepsToFix(u, l, r.t) == StepsToFix(u, s.level, r.t) <= 4
            && FixedLevel(u, l, r.t) == FixedLevel(u, s.level, r.t)
            && Between(s.level, l, FixedLevel(u, s.level, r.t))
    decreases |xs|
  {
    hide EvaluateLevel, Next;
    AboutFixedLevel(u, s.level, r.t);
    if xs == [] {
      FixIsReached(u, s.level, r.t);
    } else {
      var n := |xs| - 1;
      ConstantUtilizationOneDirection(r, s, xs[..n], u);
      var m := RunFrom(r, s, xs[..n]);
      RunSound(r, s, xs[..n]);
      StepSound(r, m, xs[n]);
      FixIsReached(u, m.level, r.t);
      AboutFixedLevel(u, m.level, r.t);
    }
  }

  predicate Between(a: PressureLevel, l: PressureLevel, b: PressureLevel) {
    || SeverityRank(a) <= SeverityRank(l) <= SeverityRank(b)
    || SeverityRank(a) >= SeverityRank(l) >= SeverityRank(b)
  }

  /** One change brings the fixed level one step nearer. */
  lemma {:induction false} FixIsReached(u: real, l: PressureLevel, t: Thresholds)
    requires IsKnown(l) && Ascending(t)
    ensures var raw := EvaluateLevel(u, l, t);
            && IsKnown(raw)
            && FixedLevel(u, raw, t) == FixedLevel(u, l, t)
            && (raw != l ==> StepsToFix(u, l, t) == 1 + StepsToFix(u, raw, t))
            && Between(l, raw, FixedLevel(u, l, t))
  {
    AboutFixedLevel(u, l, t);
  }

  predicate NoDelays(cfg: HysteresisConfig) {
    && cfg.minDwellDurationMs <= 0.0 && cfg.escalationDelayMs <= 0.0 && cfg.recoveryDelayMs <= 0.0
    && 1 <= cfg.minDwellObservations <= cfg.maxDebounceObservations
  }

  /** `n` dwell counts. */
  function Dwells(n: nat, d: nat): nat {
    if n == 0 then 0 else d + Dwells(n - 1, d)
  }

  lemma {:induction false} FourDwells(n: nat, d: nat)
    requires n <= 4
    ensures Dwells(n, d) <= 4 * d
  {
    assert Dwells(4, d) == d + Dwells(3, d) && Dwells(3, d) == d + Dwells(2, d);
    assert Dwells(2, d) == d + Dwells(1, d) && Dwells(1, d) == d;
  }

  /** Updates still needed at most: each step to the fixed level takes `minDwell` confirmations, less
      those already collected for the next one. */
  function Remaining(r: Rules, s: Machine, u: real): int
    requires IsKnown(s.level)
  {
    var d := r.cfg.minDwellObservations;
    var steps := StepsToFix(u, s.level, r.t);
    if steps == 0 then 0
    else if s.pending != EvaluateLevel(u, s.level, r.t) then Dwells(steps, d)
    else if s.pendingObs < d then Dwells(steps, d) - s.pendingObs
    else Dwells(steps - 1, d) + 1
  }

  lemma {:induction false} RemainingFalls(r: Rules, s: Machine, x: Sample)
    requires Ascending(r.t) && Sound(s) && NoDelays(r.cfg)
    ensures Sound(Step(r, s, x))
    ensures var before, after := Remaining(r, s, x.utilization), Remaining(r, Step(r, s, x), x.utilization);
            if before == 0 then after == 0 else 0 <= after < before
    ensures Remaining(r, s, x.utilization) >= 0
  {
    hide EvaluateLevel, Next;
    var u := x.utilization;
    StepSound(r, s, x);
    FixIsReached(u, s.level, r.t);
    if EvaluateLevel(u, s.level, r.t) != s.level { StepTowards(r, s, x); }
  }

  lemma {:induction false} RemainingBound(r: Rules, s: Machine, u: real)
    requires Ascending(r.t) && Sound(s) && NoDelays(r.cfg)
    ensures 0 <= Remaining(r, s, u) <= 4 * r.cfg.minDwellObservations
    ensures Remaining(r, s, u) == 0 <==> EvaluateLevel(u, s.level, r.t) == s.level
  {
    hide EvaluateLevel;
    AboutFixedLevel(u, s.level, r.t);
    FourDwells(StepsToFix(u, s.level, r.t), r.cfg.minDwellObservations);
  }

  /** Without delays an update either takes the change or adds a confirmation to it. */
  lemma {:induction false} StepTowards(r: Rules, s: Machine, x: Sample)
    requires Sound(s) && NoDelays(r.cfg)
    requires var raw := EvaluateLevel(x.utilization, s.level, r.t); IsKnown(raw) && raw != s.level
    ensures var raw, s', d := EvaluateLevel(x.utilization, s.level, r.t), Step(r, s, x), r.cfg.minDwellObservations;
            || (s'.level == raw && s'.pending == Unknown)
            || (&& s'.level == s.level && s'.pending == raw && s'.pendingObs < d
                && s'.pendingObs == if s.pending == raw then s.pendingObs + 1 else 1)
  {
    hide EvaluateLevel;
  }

  /** With no delays and a reachable dwell count, constant utilization settles on the classifier's fixed
      level within four dwell counts, from any reachable state, and stays there. */
  lemma {:induction false} ConstantUtilizationConverges(r: Rules, s: Machine, xs: seq<Sample>, u: real)
    requires Ascending(r.t) && Sound(s) && NoDelays(r.cfg) && Constant(xs, u)
    ensures Sound(RunFrom(r, s, xs))
    ensures 0 <= Remaining(r, RunFrom(r, s, xs), u)
    ensures Remaining(r, RunFrom(r, s, xs), u) <= if |xs| <= Remaining(r, s, u) then Remaining(r, s, u) - |xs| else 0
    ensures |xs| >= 4 * r.cfg.minDwellObservations ==>
              RunFrom(r, s, xs).level == FixedLevel(u, s.level, r.t)
    decreases |xs|
  {
    hide EvaluateLevel, Next, Remaining, FixedLevel, NoDelays;
    RunSound(r, s, xs);
    RemainingBound(r, s, u);
    if xs == [] {
    } else {
      var n := |xs| - 1;
      ConstantUtilizationConverges(r, s, xs[..n], u);
      RemainingFalls(r, RunFrom(r, s, xs[..n]), xs[n]);
    }
    RemainingBound(r, RunFrom(r, s, xs), u);
    ConstantUtilizationOneDirection(r, s, xs, u);
    FixedIsItself(u, RunFrom(r, s, xs).level, r.t);
  }

  lemma {:induction false} FixedIsItself(u: real, l: PressureLevel, t: Thresholds)
    requires IsKnown(l)
    ensures EvaluateLevel(u, l, t) == l ==> FixedLevel(u, l, t) == l
  {
  }
}
