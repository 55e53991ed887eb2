/** The threshold classifier: climb by enter thresholds, drop one level by the exit threshold. */
module Classifier {
  import opened Policy

  function EvaluateLevel(u: real, current: PressureLevel, t: Thresholds): PressureLevel {
    match current
    case Unknown =>
      if u >= t.exhaustedEnter then Exhausted
      else if u >= t.criticalEnter then Critical
      else if u >= t.highEnter then High
      else if u >= t.elevatedEnter then Elevated
      else Normal
    case Normal =>
      if u >= t.exhaustedEnter then Exhausted
      else if u >= t.criticalEnter then Critical
      else if u >= t.highEnter then High
      else if u >= t.elevatedEnter then Elevated
      else Normal
    case Elevated =>
      if u >= t.exhaustedEnter then Exhausted
      else if u >= t.criticalEnter then Critical
      else if u >= t.highEnter then High
      else if u >= t.elevatedEnter then Elevated
      else if u <= t.normalExit then Normal
      else Elevated
    case High =>
      if u >= t.exhaustedEnter then Exhausted
      else if u >= t.criticalEnter then Critical
      else if u >= t.highEnter then High
      else if u <= t.highExit then Elevated
      else High
    case Critical =>
      if u >= t.exhaustedEnter then Exhausted
      else if u >= t.criticalEnter then Critical
      else if u <= t.criticalExit then High
      else Critical
    case Exhausted =>
      if u >= t.exhaustedEnter then Exhausted
      else if u <= t.exhaustedExit then Critical
      else Exhausted
  }

  // ---- the bands ----

  /** What `validate_policy` establishes of the thresholds. */
  predicate Ascending(t: Thresholds) {
    t.normalExit <= t.elevatedExit <= t.elevatedEnter <= t.highExit <= t.highEnter
    <= t.criticalExit <= t.criticalEnter <= t.exhaustedExit <= t.exhaustedEnter
  }

  predicate UnderPressure(l: PressureLevel) {
    SeverityRank(l) > 0
  }

  /** The utilization at which a level is entered. */
  function Enter(l: PressureLevel, t: Thresholds): real
    requires UnderPressure(l)
  {
    match l
    case Elevated => t.elevatedEnter
    case High => t.highEnter
    case Critical => t.criticalEnter
    case _ => t.exhaustedEnter
  }

  /** The utilization at which a level is left downwards: for Elevated it is `normal_exit`, not
      `elevated_exit`, which the classifier never reads. */
  function Exit(l: PressureLevel, t: Thresholds): real
    requires UnderPressure(l)
  {
    match l
    case Elevated => t.normalExit
    case High => t.highExit
    case Critical => t.criticalExit
    case _ => t.exhaustedExit
  }

  function Below(l: PressureLevel): PressureLevel
    requires UnderPressure(l)
  {
    match l
    case Elevated => Normal
    case High => Elevated
    case Critical => High
    case _ => Critical
  }

  /** The narrowest enter-minus-exit band. */
  function Band(t: Thresholds): real {
    Min(Min(Enter(Elevated, t) - Exit(Elevated, t), Enter(High, t) - Exit(High, t)),
        Min(Enter(Critical, t) - Exit(Critical, t), Enter(Exhausted, t) - Exit(Exhausted, t)))
  }

  function Min(a: real, b: real): real {
    if a <= b then a else b
  }

  /** A level is the classification of a utilization exactly when: going up, it is the highest level
      entered; otherwise it is one below the current level if that is left, else the current level. */
  ghost predicate Classifies(u: real, current: PressureLevel, t: Thresholds, r: PressureLevel) {
    var rank := if IsKnown(current) then SeverityRank(current) else 0;
    && IsKnown(r)
    && (SeverityRank(r) > rank ==> u >= Enter(r, t))
    && (forall l | UnderPressure(l) && u >= Enter(l, t) :: SeverityRank(l) <= SeverityRank(r))
    && (SeverityRank(r) < rank ==> r == Below(current) && u <= Exit(current, t))
    && (SeverityRank(r) == rank && UnderPressure(current) ==> u >= Enter(current, t) || u > Exit(current, t))
  }

  /** Under a valid policy the classification is the only level with these properties. */
  lemma {:induction false} ClassifiesIff(u: real, current: PressureLevel, t: Thresholds, r: PressureLevel)
    requires Ascending(t)
    ensures Classifies(u, current, t, r) <==> r == EvaluateLevel(u, current, t)
  {
    assert UnderPressure(Elevated) && UnderPressure(High) && UnderPressure(Critical) && UnderPressure(Exhausted);
    assert Enter(Elevated, t) <= Enter(High, t) <= Enter(Critical, t) <= Enter(Exhausted, t);
  }

  /** More utilization or a higher current level never gives a lower classification. */
  lemma {:induction false} EvaluateMonotone(u: real, u': real, l: PressureLevel, l': PressureLevel, t: Thresholds)
    requires Ascending(t) && u <= u' && IsKnown(l) && IsKnown(l') && SeverityRank(l) <= SeverityRank(l')
    ensures SeverityRank(EvaluateLevel(u, l, t)) <= SeverityRank(EvaluateLevel(u', l', t))
  {
  }
}
