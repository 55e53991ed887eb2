/** How often the level can turn around: each reversal costs the utilization a full hysteresis band. */
module FlapBound {
  import opened Policy
  import opened Classifier
  import opened Hysteresis
  import opened HysteresisRuns

  datatype Direction = None | Up | Down

  function DirectionOf(before: PressureLevel, after: PressureLevel): Direction {
    if SeverityRank(after) > SeverityRank(before) then Up
    else if SeverityRank(after) < SeverityRank(before) then Down
    else None
  }

  /** The latest committed change of a run: its direction and the utilization at that moment. */
  datatype Turn = Turn(direction: Direction, at: real)

  function LastChange(r: Rules, s: Machine, xs: seq<Sample>): Turn {
    if xs == [] then Turn(None, 0.0)
    else
      var n := |xs| - 1;
      var d := DirectionOf(RunFrom(r, s, xs[..n]).level, RunFrom(r, s, xs).level);
      if d == None then LastChange(r, s, xs[..n]) else Turn(d, xs[n].utilization)
  }

  /** The number of committed changes whose direction is opposite to that of the change before. */
  function Reversals(r: Rules, s: Machine, xs: seq<Sample>): nat {
    if xs == [] then 0
    else
      var n := |xs| - 1;
      var d := DirectionOf(RunFrom(r, s, xs[..n]).level, RunFrom(r, s, xs).level);
      var last := LastChange(r, s, xs[..n]).direction;
      Reversals(r, s, xs[..n]) + if d != None && last != None && d != last then 1 else 0
  }

  function Abs(x: real): real {
    if x < 0.0 then -x else x
  }

  /** Total variation of the utilization over a run. */
  function Variation(xs: seq<Sample>): real {
    if |xs| <= 1 then 0.0
    else
      var n := |xs| - 1;
      Variation(xs[..n]) + Abs(xs[n].utilization - xs[n - 1].utilization)
  }

  /** `n` bands, by repeated addition. */
  function Bands(n: nat, band: real): real {
    if n == 0 then 0.0 else band + Bands(n - 1, band)
  }

  /** What the latest change says of the level reached: a climb reached its enter threshold, and a drop
      was at or below the exit threshold of the level above. */
  predicate Explains(turn: Turn, l: PressureLevel, t: Thresholds) {
    match turn.direction
    case None => true
    case Up => UnderPressure(l) && turn.at >= Enter(l, t)
    case Down => l != Exhausted && IsKnown(l) && turn.at <= Exit(Above(l), t)
  }

  function Above(l: PressureLevel): (a: PressureLevel)
    requires l != Exhausted && IsKnown(l)
    ensures UnderPressure(a)
  {
    match l
    case Normal => Elevated
    case Elevated => High
    case High => Critical
    case _ => Exhausted
  }

  /** A classification that differs from the level explains itself, and if the last change was the other
      way the utilization has crossed a band since. */
  lemma {:induction false} ChangeExplained(u: real, l: PressureLevel, last: Turn, t: Thresholds)
    requires Ascending(t) && IsKnown(l) && Explains(last, l, t)
    ensures var raw := EvaluateLevel(u, l, t);
            var d := DirectionOf(l, raw);
            && (d != None ==> Explains(Turn(d, u), raw, t))
            && (d != None && last.direction != None && d != last.direction ==> Abs(u - last.at) >= Band(t))
  {
  }

  lemma {:induction false} FlapInvariant(r: Rules, s: Machine, xs: seq<Sample>)
    requires Ascending(r.t) && Sound(s)
    ensures var last := LastChange(r, s, xs);
            && Explains(last, RunFrom(r, s, xs).level, r.t)
            && (xs == [] ==> last.direction == None)
            && Bands(Reversals(r, s, xs), Band(r.t))
               + (if last.direction == None then 0.0 else Abs(xs[|xs| - 1].utilization - last.at))
               <= Variation(xs)
    decreases |xs|
  {
    hide EvaluateLevel, Next, Explains, Band, Ascending;
    if xs == [] {
      assert Explains(Turn(None, 0.0), s.level, r.t) by { NothingToExplain(s.level, r.t); }
    } else {
      var n := |xs| - 1;
      FlapInvariant(r, s, xs[..n]);
      RunSound(r, s, xs[..n]);
      var m := RunFrom(r, s, xs[..n]);
      StepSound(r, m, xs[n]);
      ChangeExplained(xs[n].utilization, m.level, LastChange(r, s, xs[..n]), r.t);
      if n > 0 { assert xs[..n][n - 1] == xs[n - 1]; }
    }
  }

  lemma {:induction false} NothingToExplain(l: PressureLevel, t: Thresholds)
    ensures Explains(Turn(None, 0.0), l, t)
  {
  }

  lemma {:induction false} BandsIsProduct(n: nat, band: real)
    ensures Bands(n, band) == n as real * band
  {
    if n == 0 {
    } else {
      BandsIsProduct(n - 1, band);
      assert n as real * band == (n - 1) as real * band + band;
    }
  }

  /** Over any run under one valid policy, from any reachable state: the number of reversals times the
      narrowest band is at most the total variation of the utilization. */
  lemma {:induction false} ReversalsCostVariation(r: Rules, s: Machine, xs: seq<Sample>)
    requires Ascending(r.t) && Sound(s)
    ensures Reversals(r, s, xs) as real * Band(r.t) <= Variation(xs)
  {
    hide Band, Variation, Reversals, Bands, LastChange, Explains;
    FlapInvariant(r, s, xs);
    BandsIsProduct(Reversals(r, s, xs), Band(r.t));
  }
}
