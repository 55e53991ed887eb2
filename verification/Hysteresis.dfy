/** The debounce machine, and its equivalence to a specification that looks only at the history. */
module Hysteresis {
  import opened Numbers
  import opened Policy

  /** What a `HysteresisState` object holds beside its configuration. */
  datatype Machine = Machine(level: PressureLevel, pending: PressureLevel, pendingObs: nat, pendingSince: nat)

  const FRESH: Machine := Machine(Normal, Unknown, 0, 0)

  /** The unsigned 64-bit subtraction of two timestamps. */
  function Elapsed(now: nat, since: nat): nat {
    (now - since) % TWO64
  }

  predicate Escalating(raw: PressureLevel, level: PressureLevel) {
    SeverityRank(raw) > SeverityRank(level)
  }

  predicate Emergency(cfg: HysteresisConfig, raw: PressureLevel, level: PressureLevel) {
    raw == Exhausted && cfg.immediateEmergencyEscalation && Escalating(raw, level)
  }

  /** The dwell time and the delay of the direction of change have passed. */
  predicate Waited(cfg: HysteresisConfig, raw: PressureLevel, level: PressureLevel, elapsed: nat) {
    var wait := if Escalating(raw, level) then cfg.escalationDelayMs else cfg.recoveryDelayMs;
    elapsed as real >= cfg.minDwellDurationMs && elapsed as real >= wait
  }

  function Cap(n: nat, max: nat): nat {
    if n > max then max else n
  }

  function Next(cfg: HysteresisConfig, s: Machine, raw: PressureLevel, now: nat): Machine {
    if raw == s.level then s.(pending := Unknown, pendingObs := 0)
    else if Emergency(cfg, raw, s.level) then s.(level := raw, pending := Unknown, pendingObs := 0)
    else
      var obs := Cap(if s.pending != raw then 1 else s.pendingObs + 1, cfg.maxDebounceObservations);
      var since := if s.pending != raw then now else s.pendingSince;
      if obs >= cfg.minDwellObservations && Waited(cfg, raw, s.level, Elapsed(now, since)) then
        Machine(raw, Unknown, 0, since)
      else
        Machine(s.level, raw, obs, since)
  }

  /** The same, in the terms that `update` computes. */
  lemma {:induction false} NextSteps(cfg: HysteresisConfig, s: Machine, raw: PressureLevel, now: nat)
    requires raw != s.level
    ensures var escalating := SeverityRank(raw) > SeverityRank(s.level);
            var since := if s.pending != raw then now else s.pendingSince;
            var obs := Cap(if s.pending != raw then 1 else s.pendingObs + 1, cfg.maxDebounceObservations);
            var elapsed := Elapsed(now, since) as real;
            var wait := if escalating then cfg.escalationDelayMs else cfg.recoveryDelayMs;
            Next(cfg, s, raw, now) ==
              if raw == Exhausted && cfg.immediateEmergencyEscalation && escalating then
                s.(level := raw, pending := Unknown, pendingObs := 0)
              else if obs >= cfg.minDwellObservations && elapsed >= cfg.minDwellDurationMs && elapsed >= wait then
                Machine(raw, Unknown, 0, since)
              else Machine(s.level, raw, obs, since)
  {
    hide SeverityRank, Elapsed, Cap;
  }

  /** The machine as the source writes it: fields updated in place. */
  class HysteresisState {
    const cfg: HysteresisConfig
    var level: PressureLevel
    var pending: PressureLevel
    var pendingObs: nat
    var pendingSince: nat

    function State(): Machine
      reads this
    {
      Machine(level, pending, pendingObs, pendingSince)
    }

    constructor (cfg: HysteresisConfig)
      ensures this.cfg == cfg && State() == FRESH
    {
      this.cfg := cfg;
      level, pending, pendingObs, pendingSince := Normal, Unknown, 0, 0;
    }

    method Update(raw: PressureLevel, now: nat) returns (resolved: PressureLevel)
      modifies this
      ensures State() == Next(cfg, old(State()), raw, now)
      ensures resolved == level
    {
      if raw == level {
        pending := Unknown;
        pendingObs := 0;
        return level;
      }
      hide Next, SeverityRank, Elapsed;
      NextSteps(cfg, State(), raw, now);
      var escalating := SeverityRank(raw) > SeverityRank(level);
      if raw == Exhausted && cfg.immediateEmergencyEscalation && escalating {
        level, pending, pendingObs := raw, Unknown, 0;
        return level;
      }
      if pending != raw {
        pending, pendingObs, pendingSince := raw, 1, now;
      } else {
        pendingObs := pendingObs + 1;
      }
      if pendingObs > cfg.maxDebounceObservations { pendingObs := cfg.maxDebounceObservations; }
      var obsOk := pendingObs >= cfg.minDwellObservations;
      var elapsed := Elapsed(now, pendingSince) as real;
      var timeOk := elapsed >= cfg.minDwellDurationMs;
      var wait := if escalating then cfg.escalationDelayMs else cfg.recoveryDelayMs;
      var delayOk := elapsed >= wait;
      if obsOk && timeOk && delayOk {
        level, pending, pendingObs := raw, Unknown, 0;
        return level;
      }
      return level;
    }

    method Reset()
      modifies this
      ensures State() == FRESH.(pendingSince := old(pendingSince))
    {
      level, pending, pendingObs := Normal, Unknown, 0;
    }
  }

  // ---- refinement of a specification over the history ----

  datatype Input = Input(raw: PressureLevel, now: nat)

  function Run(cfg: HysteresisConfig, h: seq<Input>): Machine {
    if h == [] then FRESH
    else
      var last := h[|h| - 1];
      Next(cfg, Run(cfg, h[..|h| - 1]), last.raw, last.now)
  }

  /** How many of the latest inputs repeat the last raw level. */
  function SuffixLength(h: seq<Input>): (k: nat)
    requires h != []
    ensures 1 <= k <= |h|
    ensures forall i | |h| - k <= i < |h| :: h[i].raw == h[|h| - 1].raw
    ensures k < |h| ==> h[|h| - k - 1].raw != h[|h| - 1].raw
  {
    var n := |h| - 1;
    if n > 0 && h[n - 1].raw == h[n].raw then 1 + SuffixLength(h[..n]) else 1
  }

  /** The level after a history, with no pending state: a change to the last raw level is taken at once
      in an emergency, and otherwise when the latest run of that raw level has enough observations and
      spans the dwell time and the delay of the direction of change. */
  function HistoryLevel(cfg: HysteresisConfig, h: seq<Input>): PressureLevel {
    if h == [] then Normal
    else
      var n := |h| - 1;
      var level, raw, k := HistoryLevel(cfg, h[..n]), h[n].raw, SuffixLength(h);
      if raw == level || Emergency(cfg, raw, level) then raw
      else if && k >= cfg.minDwellObservations
              && cfg.maxDebounceObservations >= cfg.minDwellObservations
              && Waited(cfg, raw, level, Elapsed(h[n].now, h[n + 1 - k].now))
      then raw
      else level
  }

  ghost predicate AllKnown(h: seq<Input>) {
    forall i | 0 <= i < |h| :: IsKnown(h[i].raw)
  }

  /** What the machine holds after a history: while a change is pending, the capped length and the start
      of the latest run of the pending level. */
  ghost predicate Tracks(cfg: HysteresisConfig, h: seq<Input>, s: Machine) {
    if h == [] then s == FRESH
    else
      var n := |h| - 1;
      if s.level == h[n].raw then s.pending == Unknown && s.pendingObs == 0
      else
        && s.pending == h[n].raw
        && s.pendingObs == Cap(SuffixLength(h), cfg.maxDebounceObservations)
        && s.pendingSince == h[n + 1 - SuffixLength(h)].now
  }

  /** The run of the last raw level goes on or starts anew, and so does the pending change. */
  lemma {:induction false} PendingIsRun(cfg: HysteresisConfig, h: seq<Input>, s: Machine)
    requires AllKnown(h) && h != [] && Tracks(cfg, h[..|h| - 1], s) && s.level != h[|h| - 1].raw
    ensures var last, k := h[|h| - 1], SuffixLength(h);
            && Cap(if s.pending != last.raw then 1 else s.pendingObs + 1, cfg.maxDebounceObservations)
               == Cap(k, cfg.maxDebounceObservations)
            && (if s.pending != last.raw then last.now else s.pendingSince) == h[|h| - k].now
  {
    var n, k := |h| - 1, SuffixLength(h);
    var h' := h[..n];
    if n > 0 && h'[n - 1].raw == h[n].raw {
      assert k == 1 + SuffixLength(h');
      assert h'[n - SuffixLength(h')] == h[n + 1 - k];
    }
  }

  lemma {:induction false} StepTracks(cfg: HysteresisConfig, h: seq<Input>, s: Machine)
    requires AllKnown(h) && h != [] && Tracks(cfg, h[..|h| - 1], s)
    ensures Tracks(cfg, h, Next(cfg, s, h[|h| - 1].raw, h[|h| - 1].now))
  {
    hide Waited, Emergency, Elapsed, SuffixLength;
    if s.level != h[|h| - 1].raw { PendingIsRun(cfg, h, s); }
  }

  lemma {:induction false} StepLevel(cfg: HysteresisConfig, h: seq<Input>, s: Machine)
    requires AllKnown(h) && h != [] && Tracks(cfg, h[..|h| - 1], s) && s.level == HistoryLevel(cfg, h[..|h| - 1])
    ensures Next(cfg, s, h[|h| - 1].raw, h[|h| - 1].now).level == HistoryLevel(cfg, h)
  {
    hide Waited, Emergency, Elapsed, SuffixLength;
    if s.level != h[|h| - 1].raw { PendingIsRun(cfg, h, s); }
  }

  /** The machine refines the history specification, on every configuration and input sequence. In
      particular, when `minDwell <= maxDebounce`, capping the counter makes no difference. */
  lemma {:induction false} RunRefinesHistory(cfg: HysteresisConfig, h: seq<Input>)
    requires AllKnown(h)
    ensures Run(cfg, h).level == HistoryLevel(cfg, h)
    ensures Tracks(cfg, h, Run(cfg, h))
    decreases |h|
  {
    hide Next;
    if h == [] {
    } else {
      var before := h[..|h| - 1];
      RunRefinesHistory(cfg, before);
      StepTracks(cfg, h, Run(cfg, before));
      StepLevel(cfg, h, Run(cfg, before));
    }
  }

  /** If more confirmations are required than the counter's cap, only an emergency changes the level. */
  lemma {:induction false} OnlyEmergenciesWhenCapIsTooLow(cfg: HysteresisConfig, h: seq<Input>)
    requires AllKnown(h) && h != [] && cfg.maxDebounceObservations < cfg.minDwellObservations
    ensures var before := Run(cfg, h[..|h| - 1]).level;
            Run(cfg, h).level == if Emergency(cfg, h[|h| - 1].raw, before) then h[|h| - 1].raw else before
  {
    RunRefinesHistory(cfg, h);
    RunRefinesHistory(cfg, h[..|h| - 1]);
  }
}
