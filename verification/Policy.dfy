/** Pressure levels, the policy and its validation. C++ doubles are modelled by real numbers. */
module Policy {
  import opened Options

  datatype PressureLevel = Normal | Elevated | High | Critical | Exhausted | Unknown

  function SeverityRank(v: PressureLevel): int {
    match v
    case Normal => 0
    case Elevated => 1
    case High => 2
    case Critical => 3
    case Exhausted => 4
    case Unknown => -1
  }

  predicate IsKnown(v: PressureLevel) {
    v != Unknown
  }

  datatype TierRole = Root | Accelerator | Staging | Buffer | Persistent | CustomRole

  datatype Thresholds = Thresholds(
    normalExit: real,
    elevatedEnter: real,
    elevatedExit: real,
    highEnter: real,
    highExit: real,
    criticalEnter: real,
    criticalExit: real,
    exhaustedEnter: real,
    exhaustedExit: real)

  datatype HysteresisConfig = HysteresisConfig(
    minDwellObservations: nat,
    minDwellDurationMs: real,
    escalationDelayMs: real,
    recoveryDelayMs: real,
    immediateEmergencyEscalation: bool,
    maxDebounceObservations: nat)

  datatype ScoreWeights = ScoreWeights(
    utilization: real,
    freeDeficit: real,
    reserveDeficit: real,
    growthRate: real,
    allocationFailure: real,
    fragmentation: real,
    reclaimableDeficit: real,
    confidencePenalty: real,
    stalePenalty: real)

  datatype PressurePolicy = PressurePolicy(
    version: nat,
    name: string,
    thresholds: Thresholds,
    hysteresis: HysteresisConfig,
    weights: ScoreWeights,
    roleWeight: map<TierRole, real>,
    maxQueuedEvents: nat)

  datatype PolicyProblem =
    | ThresholdOutOfRange
    | ThresholdsNotAscending
    | BadWeight
    | NoQueuedEvents
    | NoDwellObservations

  predicate In01(v: real) {
    0.0 <= v <= 1.0
  }

  function ValidatePolicy(p: PressurePolicy): Option<PolicyProblem> {
    var t, w := p.thresholds, p.weights;
    if !In01(t.normalExit) || !In01(t.elevatedExit) || !In01(t.elevatedEnter)
       || !In01(t.highExit) || !In01(t.highEnter) || !In01(t.criticalExit)
       || !In01(t.criticalEnter) || !In01(t.exhaustedExit) || !In01(t.exhaustedEnter)
    then Some(ThresholdOutOfRange)
    else if !(t.normalExit <= t.elevatedExit <= t.elevatedEnter <= t.highExit <= t.highEnter
              <= t.criticalExit <= t.criticalEnter <= t.exhaustedExit <= t.exhaustedEnter)
    then Some(ThresholdsNotAscending)
    else if w.utilization < 0.0 || w.freeDeficit < 0.0 || w.reserveDeficit < 0.0
            || w.growthRate < 0.0 || w.allocationFailure < 0.0 || w.fragmentation < 0.0
            || w.reclaimableDeficit < 0.0 || w.confidencePenalty < 0.0 || w.stalePenalty < 0.0
    then Some(BadWeight)
    else if p.maxQueuedEvents == 0 then Some(NoQueuedEvents)
    else if p.hysteresis.minDwellObservations == 0 then Some(NoDwellObservations)
    else None
  }

  /** The default policy (the response rules it carries are never consulted). */
  const DEFAULT_POLICY: PressurePolicy := PressurePolicy(
    1, "default",
    Thresholds(0.40, 0.60, 0.50, 0.85, 0.78, 0.92, 0.86, 0.985, 0.93),
    HysteresisConfig(2, 0.0, 0.0, 0.0, true, 4),
    ScoreWeights(1.0, 1.0, 1.0, 0.5, 2.0, 0.25, 0.5, 0.5, 0.75),
    map[], 4096)
}
