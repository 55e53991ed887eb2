/** A reachable snapshot as it is stored, each computed real as the nearest double, survives being written to
    text and read from it: the runtime keeps every real in a range where the nearest double is not 2^63. */
module StoredSnapshots {
  import opened Options
  import opened Numbers
  import opened Policy
  import opened Trend
  import opened TrendFacts
  import opened TrendBound
  import opened Domain
  import opened Score
  import opened Refresh
  import opened RefreshFacts
  import opened Lifecycle
  import opened HysteresisRuns
  import opened Aggregation
  import opened Runs
  import opened RunFacts
  import opened JsonGrammar
  import opened Documents
  import opened SnapshotDocuments
  import opened EndToEnd

  /** The double that a computed real is stored as. */
  function Stored(r: real, conv: Conversion): real {
    if conv.nearest(r).Finite? then conv.nearest(r).value else r
  }

  function StoredState(d: DomainState, conv: Conversion): DomainState {
    d.(utilization := Stored(d.utilization, conv), score := Stored(d.score, conv),
       utilizationComponent := Stored(d.utilizationComponent, conv),
       freeDeficitComponent := Stored(d.freeDeficitComponent, conv),
       reserveDeficitComponent := Stored(d.reserveDeficitComponent, conv),
       growthComponent := Stored(d.growthComponent, conv),
       allocationFailureComponent := Stored(d.allocationFailureComponent, conv),
       stigma := Stored(d.stigma, conv),
       trendRate := Stored(d.trendRate, conv), trendConfidence := Stored(d.trendConfidence, conv))
  }

  function StoredSnapshot(s: Snapshot, conv: Conversion): Snapshot {
    s.(aggregateScore := Stored(s.aggregateScore, conv),
       domains := seq(|s.domains|, i requires 0 <= i < |s.domains| => StoredState(s.domains[i], conv)))
  }

  // ---- reals within range ----

  /** The greatest rate: 1000 times the greatest committed value. */
  const LIMIT: int := 1000 * TWO53

  predicate Modest(r: real) {
    -LIMIT as real <= r <= LIMIT as real
  }

  lemma {:induction false} LimitIsDouble(conv: Conversion)
    requires conv.Faithful()
    ensures InRange(LIMIT as real) && conv.nearest(LIMIT as real) == Finite(LIMIT as real)
  {
    TenBits();
    ScaledIsDouble(conv, LIMIT, 1000 * (TWO53 / 1024), 10);
  }

  /** What is stored for a real in range is a double, and prints as one. */
  lemma {:induction false} StoredIsPlain(r: real, conv: Conversion)
    requires conv.Faithful() && Modest(r)
    ensures PlainReal(Stored(r, conv), conv)
  {
    LimitIsDouble(conv);
    NearestOrder(conv, r, LIMIT as real);
  }

  ghost predicate ModestState(d: DomainState) {
    && Modest(d.utilization) && Modest(d.score) && Modest(d.utilizationComponent) && Modest(d.freeDeficitComponent)
    && Modest(d.reserveDeficitComponent) && Modest(d.growthComponent) && Modest(d.allocationFailureComponent)
    && Modest(d.stigma) && Modest(d.trendRate) && Modest(d.trendConfidence)
  }

  lemma {:induction false} StoredStateIsPlain(d: DomainState, conv: Conversion)
    requires conv.Faithful() && ModestState(d)
    ensures PlainState(StoredState(d, conv), conv)
  {
    hide PlainReal, Stored, Modest, Conversion.Faithful;
    forall r | Modest(r) ensures PlainReal(Stored(r, conv), conv) { StoredIsPlain(r, conv); }
  }

  ghost predicate ModestSnapshot(s: Snapshot) {
    Modest(s.aggregateScore) && forall d | d in s.domains :: ModestState(d)
  }

  lemma {:induction false} StoredIsPlainSnapshot(s: Snapshot, conv: Conversion)
    requires conv.Faithful() && ModestSnapshot(s)
    ensures PlainSnapshot(StoredSnapshot(s, conv), conv)
  {
    hide PlainReal, Modest, Conversion.Faithful, StoredState, PlainState, ModestState;
    StoredIsPlain(s.aggregateScore, conv);
    forall i | 0 <= i < |s.domains| ensures PlainState(StoredState(s.domains[i], conv), conv) {
      assert s.domains[i] in s.domains;
      StoredStateIsPlain(s.domains[i], conv);
    }
  }

  // ---- what a refresh publishes is within range ----

  /** What providers measure: committed bytes up to 2^53, and a 32-bit count of failures. */
  predicate Measured(o: DomainObservation) {
    Small(o.committed) && -TWO31 <= o.allocationFailures < TWO31
  }

  ghost predicate MeasuredFeed(feed: seq<Seen>) {
    forall i | 0 <= i < |feed| :: Measured(feed[i].obs)
  }

  ghost predicate MeasuredRun(ops: seq<Op>) {
    forall i | 0 <= i < |ops| && ops[i].Refresh? :: MeasuredFeed(Poll(ops[i].reports, |ops[i].reports|).feed)
  }

  ghost predicate ModestTrend(st: DomainRt) {
    AtMost(st.trend, TWO53 as real)
  }

  lemma {:induction false} DropKeeps(s: seq<TrendSample>, cutoff: nat, bound: real)
    requires AtMost(s, bound)
    ensures AtMost(DropOld(s, cutoff), bound)
    decreases |s|
  {
    if s == [] || s[0].t >= cutoff {
    } else {
      DropKeeps(s[1..], cutoff, bound);
    }
  }

  lemma {:induction false} AddedKeeps(window: nat, age: nat, s: seq<TrendSample>, x: TrendSample, bound: real)
    requires AtMost(s, bound) && x.committed as real <= bound
    ensures AtMost(Added(window, age, s, x), bound)
  {
    hide DropOld, Cutoff;
    DropKeeps(s, Cutoff(age, x.t), bound);
  }

  lemma {:induction false} AdvancedIsModest(env: Env, st: DomainRt, obs: DomainObservation)
    requires ModestTrend(st) && Measured(obs)
    ensures ModestTrend(Advanced(env, st, obs))
  {
    hide ResolvedMachine, AtMost, Added, Budget.UsableCapacity, GoverningBudget;
    AddedKeeps(TREND_WINDOW, TREND_AGE_MS, st.trend, TrendSample(env.now, obs.committed), TWO53 as real);
  }

  lemma {:induction false} ShareIsModest(committed: nat, usable: nat)
    requires Small(committed)
    ensures Modest(UtilizationFor(committed, usable))
  {
    if usable > 0 {
      var share := UtilizationFor(committed, usable);
      assert share * usable as real == committed as real;
      if share > TWO53 as real { TimesAtLeastOne(share, usable as real); }
      if share < 0.0 { TimesAtLeastOne(-share, usable as real); }
    }
  }

  lemma {:induction false} TimesAtLeastOne(x: real, n: real)
    requires x > 0.0 && n >= 1.0
    ensures x * n >= x
  {
  }

  lemma {:induction false} UnitIsModest(x: real)
    ensures Modest(Clamp01(x))
  {
  }

  lemma {:induction false} ScoreIsModest(env: Env, obs: DomainObservation, usable: nat, te: TrendEstimate)
    requires Measured(obs)
    ensures var sc := ScoreOf(env, obs, usable, te);
            && Modest(sc.value) && Modest(sc.utilizationComponent) && Modest(sc.freeDeficitComponent)
            && Modest(sc.reserveDeficitComponent) && Modest(sc.growthComponent)
            && Modest(sc.allocationFailureComponent) && Modest(sc.confidencePenalty + sc.stalePenalty)
  {
    hide Dot, Total, Weights, UtilizationFor, Mean, Clamp01;
    forall x ensures Modest(Clamp01(x)) { UnitIsModest(x); }
  }

  lemma {:induction false} EstimateIsModest(s: seq<TrendSample>, window: nat, sqrt: real -> real)
    requires AtMost(s, TWO53 as real)
    ensures Modest(EstimateOf(s, window, sqrt).rate) && Modest(EstimateOf(s, window, sqrt).confidence)
  {
    hide CentreOf, Cov, Var, Varc, R2, AtMost;
    RateBound(s, window, sqrt, TWO53 as real);
  }

  lemma {:induction false} PublishedIsModest(env: Env, st: DomainRt, provider: string, obs: DomainObservation)
    requires ModestTrend(st) && Measured(obs)
    ensures ModestState(Published(env, st, provider, obs))
  {
    hide ScoreOf, Usable, UtilizationFor, AvailableOf, Budget.ReserveBytes, EstimateOf, Advanced, Modest, Measured;
    var usable, after := Usable(env, obs), Advanced(env, st, obs);
    AdvancedIsModest(env, st, obs);
    EstimateIsModest(after.trend, TREND_WINDOW, env.sqrt);
    ScoreIsModest(env, obs, usable, EstimateOf(after.trend, TREND_WINDOW, env.sqrt));
    assert Modest(UtilizationFor(obs.committed, usable)) by { MeasuredShare(obs, usable); }
  }

  lemma {:induction false} MeasuredShare(obs: DomainObservation, usable: nat)
    requires Measured(obs)
    ensures Modest(UtilizationFor(obs.committed, usable))
  {
    ShareIsModest(obs.committed, usable);
  }

  lemma {:induction false} FinishedIsModest(env: Env, d: DomainState, host: HostTier)
    requires ModestState(d)
    ensures ModestState(Finished(env, d, host)) && ModestState(Finished(env, Kept(d, env.now), host))
  {
    hide Modest, Responses;
  }

  ghost predicate ModestStates(states: States) {
    forall id | id in states :: ModestTrend(states[id])
  }

  lemma {:induction false} StateForIsModest(env: Env, states: States, id: DomainId)
    requires ModestStates(states)
    ensures ModestTrend(StateFor(env, states, id))
  {
  }

  ghost predicate ModestRuntime(rt: Runtime) {
    ModestSnapshot(rt.snapshot) && ModestStates(rt.states)
  }

  lemma {:induction false} DraftDomainIsModest(rt: Runtime, env: Env, reports: seq<Report>, x: DomainState)
    requires Inv(rt) && DistinctFeed(Poll(reports, |reports|).feed) && MeasuredFeed(Poll(reports, |reports|).feed)
    requires ModestRuntime(rt) && x in DraftOf(rt, env, reports).domains
    ensures ModestState(x)
  {
    hide DistinctIds, DistinctFeed, DraftOf, Published, StateFor, Retains, ModestState, ModestStates, ModestTrend,
         Measured, Finished, Sound, Modest;
    DraftFeed(rt, env, reports);
    DraftDomain(rt, env, reports, x);
    var d := DraftOf(rt, env, reports);
    var feed, host := d.polled.feed, HostTierOf(d);
    if i :| 0 <= i < |feed| && x == Reported(env, rt.states, feed[i], host) {
      var st := StateFor(env, rt.states, feed[i].obs.id);
      StateForIsModest(env, rt.states, feed[i].obs.id);
      PublishedIsModest(env, st, feed[i].provider, feed[i].obs);
      FinishedIsModest(env, Published(env, st, feed[i].provider, feed[i].obs), host);
    } else {
      var p :| p in rt.snapshot.domains && Retains(p, ObservedIds(feed), d.polled.health)
               && x == Retained(env, p, host);
      FinishedIsModest(env, p, host);
    }
  }

  lemma {:induction false} DraftStateIsModest(rt: Runtime, env: Env, reports: seq<Report>, id: DomainId)
    requires Inv(rt) && DistinctFeed(Poll(reports, |reports|).feed) && MeasuredFeed(Poll(reports, |reports|).feed)
    requires ModestStates(rt.states) && id in DraftOf(rt, env, reports).retention.states
    ensures ModestTrend(DraftOf(rt, env, reports).retention.states[id])
  {
    hide DistinctIds, DistinctFeed, Reported, Retained, StateFor, Advanced, Sound, NotFresh, DraftOf, FindIn,
         RetainedIds, RemovedIds, ModestTrend, Measured;
    var d, prev := DraftOf(rt, env, reports), rt.snapshot.domains;
    DraftFeed(rt, env, reports);
    var feed := d.polled.feed;
    if id in ObservedIds(feed) {
      var i :| 0 <= i < |feed| && feed[i].obs.id == id;
      ObservedFate(rt, env, reports, i);
      StateForIsModest(env, rt.states, id);
      AdvancedIsModest(env, StateFor(env, rt.states, id), feed[i].obs);
    } else {
      DraftIds(rt, env, reports);
      assert id in IdSet(prev);
      var p :| p in prev && p.id == id;
      UnobservedFate(rt, env, reports, p);
    }
  }

  lemma {:induction false} AggregateIsModest(policy: PressurePolicy, ds: seq<DomainState>)
    ensures Modest(AggregateScore(policy, ds))
  {
    hide Dot, Total, RoleWeights, Scores;
  }

  lemma {:induction false} RefreshKeepsModest(rt: Runtime, env: Env, reports: seq<Report>)
    requires Inv(rt) && DistinctFeed(Poll(reports, |reports|).feed) && MeasuredFeed(Poll(reports, |reports|).feed)
    requires ModestRuntime(rt)
    ensures ModestRuntime(RefreshWith(rt, env, reports).rt)
  {
    hide Inv, DistinctFeed, MeasuredFeed, Poll, DraftOf, NotesOf, NextGeneration, AggregateLevel, AggregateScore,
         Trimmed, Numbered, ModestState, ModestTrend, Modest;
    var d := DraftOf(rt, env, reports);
    forall x | x in d.domains ensures ModestState(x) { DraftDomainIsModest(rt, env, reports, x); }
    forall id | id in d.retention.states ensures ModestTrend(d.retention.states[id]) {
      DraftStateIsModest(rt, env, reports, id);
    }
    AggregateIsModest(env.policy, d.domains);
  }

  lemma {:induction false} OthersKeepModest(rt: Runtime, lib: Library, op: Op)
    requires ModestRuntime(rt) && !op.Refresh?
    ensures ModestRuntime(Applied(rt, lib, op))
  {
    hide ValidatePolicy, ModestSnapshot, AtMost;
    OnlyRefreshPublishes(rt, lib, op);
  }

  lemma {:induction false} InitialIsModest()
    ensures ModestRuntime(INITIAL)
  {
  }

  lemma {:induction false} LastMeasured(ops: seq<Op>)
    requires MeasuredRun(ops) && ops != []
    ensures var op := ops[|ops| - 1]; op.Refresh? ==> MeasuredFeed(Poll(op.reports, |op.reports|).feed)
    ensures MeasuredRun(ops[..|ops| - 1])
  {
    hide MeasuredFeed, Poll;
  }

  /** As long as committed values are up to 2^53, every real published in a run is within 1000 * 2^53, the trend
      rate included. */
  lemma {:induction false} ReachableIsModest(lib: Library, ops: seq<Op>)
    requires NoDuplicates(ops) && MeasuredRun(ops)
    ensures ModestRuntime(RunOf(lib, ops))
  {
    hide Inv, RefreshWith, NoDuplicates, MeasuredRun, DistinctFeed, MeasuredFeed, Poll, ModestRuntime, ScoresWithin;
    if ops == [] {
      assert RunOf(lib, ops) == INITIAL;
      InitialIsModest();
    } else {
      var n := |ops| - 1;
      var before, op := RunOf(lib, ops[..n]), ops[n];
      PrefixDistinct(ops, n);
      LastDistinct(ops);
      LastMeasured(ops);
      ReachableIsModest(lib, ops[..n]);
      if op.Refresh? {
        ReachableInv(lib, ops[..n]);
        RefreshKeepsModest(before, EnvOf(before, lib, op.now), op.reports);
      } else {
        OthersKeepModest(before, lib, op);
      }
    }
  }

  // ---- the stored snapshot survives ----

  /** Nothing but the reals changes when a snapshot is stored. */
  lemma {:induction false} StoredSurvives(s: Snapshot, conv: Conversion)
    requires SmallSnapshot(s) && SmallStates(s.domains) && DistinctIds(s.domains)
    requires forall d | d in s.domains :: BudgetOk(d.budget)
    requires forall k | k in s.providerHealth :: s.providerHealth[k] != Partial
    ensures Survives(StoredSnapshot(s, conv))
  {
    hide SmallBudget, BudgetOk, Stored;
    var t := StoredSnapshot(s, conv);
    forall i | 0 <= i < |t.domains| ensures SmallAndValid(t.domains[i]) {
      assert s.domains[i] in s.domains;
    }
  }

  /** Any reachable snapshot with unsigned numbers up to 2^53 and no Partial provider survives as it is stored:
      that its ids are distinct, its budgets valid and its reals in range is the runtime's doing. */
  lemma {:induction false} ReachableSnapshotSurvivesText(lib: Library, ops: seq<Op>, st: Setting)
    requires NoDuplicates(ops) && MeasuredRun(ops) && st.conv.Faithful()
    requires var s := RunOf(lib, ops).snapshot;
             && SmallSnapshot(s) && SmallStates(s.domains)
             && (forall k | k in s.providerHealth :: s.providerHealth[k] != Partial)
             && WithinLimits(SnapshotToJson(StoredSnapshot(s, st.conv), st.conv), st)
    ensures var stored := StoredSnapshot(RunOf(lib, ops).snapshot, st.conv);
            RereadSnapshot(stored, st) == Some(stored)
  {
    hide RunOf, SnapshotToJson, RereadSnapshot, WithinLimits, Conversion.Faithful, PlainSnapshot, NoDuplicates,
         SmallStates, BudgetOk, SmallSnapshot, DistinctIds, StoredSnapshot, MeasuredRun, Survives, ModestSnapshot;
    var s := RunOf(lib, ops).snapshot;
    ReachableDistinct(lib, ops);
    ReachableBudgetsOk(lib, ops);
    ReachableIsModest(lib, ops);
    StoredSurvives(s, st.conv);
    StoredIsPlainSnapshot(s, st.conv);
    SnapshotSurvivesText(StoredSnapshot(s, st.conv), st);
  }
}
