/** One refresh as a function of the runtime's state and of what the providers report, phase by phase.
    A function with a count looks at that many entries from the front, as the source's loops do. */
module Refresh {
  import opened Options
  import opened Policy
  import opened Classifier
  import opened Hysteresis
  import opened Trend
  import opened Domain
  import opened Events
  import opened Score

  // ---- state and input ----

  /** What the runtime keeps per domain, its debounce machine and trend window included. */
  datatype DomainRt = DomainRt(
    domainType: DomainType,
    provider: string,
    nativeResourceId: string,
    budget: Budget,
    governed: bool,
    enteredLevelAtMs: nat,
    peakRank: nat,
    cfg: HysteresisConfig,
    machine: Machine,
    trend: seq<TrendSample>)

  const TREND_WINDOW: nat := 16
  const TREND_AGE_MS: nat := 60000

  function NewDomain(cfg: HysteresisConfig): DomainRt {
    DomainRt(UnknownDomain, "", "", DEFAULT_BUDGET, false, 0, 0, cfg, FRESH, [])
  }

  /** What polling one provider gives: a sample, or an exception. */
  datatype Outcome =
    | Sampled(status: ProviderStatus, error: string, observations: seq<DomainObservation>)
    | Threw(what: string)

  datatype Report = Report(name: string, outcome: Outcome)

  /** What a refresh is computed from beside the state: the policy, the budgets, the time, the library's
      square root, and the wording of explanations. */
  datatype Env = Env(
    policy: PressurePolicy,
    budgets: map<DomainId, Budget>,
    now: nat,
    sqrt: real -> real,
    explain: DomainState -> string)

  /** An event before it has its id and time. */
  datatype Note = Note(kind: EventType, generation: nat, domain: Option<DomainId>, severityRank: nat)

  function Numbered(base: nat, now: nat, notes: seq<Note>): (es: seq<PressureEvent>)
    ensures |es| == |notes|
  {
    seq(|notes|, i requires 0 <= i < |notes| =>
      PressureEvent(base + i + 1, notes[i].kind, notes[i].generation, now, notes[i].domain, notes[i].severityRank))
  }

  // ---- polling ----

  function StatusOf(o: Outcome): ProviderStatus {
    if o.Threw? then ProviderStatus.Failed else o.status
  }

  function ReportNotes(r: Report): seq<Note> {
    if r.outcome.Threw? then []
    else
      match r.outcome.status
      case Failed => [Note(ProviderFailed, 0, None, 0)]
      case Stale => [Note(ProviderStale, 0, None, 0)]
      case Unavailable => [Note(ProviderFailed, 0, None, 0)]
      case _ => []
  }

  function ReportWarnings(r: Report): seq<string> {
    if r.outcome.Threw? then [r.name + " threw: " + r.outcome.what]
    else
      match r.outcome.status
      case Failed => [r.name + " failed: " + r.outcome.error]
      case Stale => [r.name + " stale"]
      case _ => []
  }

  predicate MakesPartial(o: Outcome) {
    o.Threw? || o.status == Failed || o.status == Unavailable || o.status == Partial
  }

  predicate MakesStale(o: Outcome) {
    o.Sampled? && o.status == Stale
  }

  /** An observation with the name of the provider that made it. */
  datatype Seen = Seen(provider: string, obs: DomainObservation)

  function Tagged(name: string, obs: seq<DomainObservation>): (s: seq<Seen>)
    ensures |s| == |obs| && forall i | 0 <= i < |obs| :: s[i] == Seen(name, obs[i])
  {
    seq(|obs|, i requires 0 <= i < |obs| => Seen(name, obs[i]))
  }

  datatype Polled = Polled(
    health: map<string, ProviderStatus>,
    feed: seq<Seen>,
    notes: seq<Note>,
    warnings: seq<string>,
    partialData: bool,
    staleData: bool)

  const NOTHING_POLLED: Polled := Polled(map[], [], [], [], false, false)

  function PollOne(p: Polled, r: Report): Polled {
    Polled(
      p.health[r.name := StatusOf(r.outcome)],
      p.feed + (if r.outcome.Sampled? then Tagged(r.name, r.outcome.observations) else []),
      p.notes + ReportNotes(r),
      p.warnings + ReportWarnings(r),
      p.partialData || MakesPartial(r.outcome),
      p.staleData || MakesStale(r.outcome))
  }

  function Poll(reports: seq<Report>, k: nat): Polled
    requires k <= |reports|
  {
    if k == 0 then NOTHING_POLLED else PollOne(Poll(reports, k - 1), reports[k - 1])
  }

  // ---- observing one domain ----

  function UtilizationFor(committed: nat, usable: nat): real {
    if usable == 0 then 0.0 else committed as real / usable as real
  }

  function Rank0(l: PressureLevel): nat {
    if SeverityRank(l) < 0 then 0 else SeverityRank(l)
  }

  function GoverningBudget(env: Env, id: DomainId): Option<Budget> {
    if id in env.budgets && env.budgets[id].hardCapacity != 0 then Some(env.budgets[id]) else None
  }

  function Usable(env: Env, obs: DomainObservation): nat {
    match GoverningBudget(env, obs.id)
    case Some(b) => b.UsableCapacity()
    case None => obs.usableCapacity.GetOr(obs.totalCapacity)
  }

  /** The level that an observation resolves to, through the domain's debounce machine. */
  function ResolvedMachine(env: Env, st: DomainRt, obs: DomainObservation): Machine {
    var util := UtilizationFor(obs.committed, Usable(env, obs));
    Next(st.cfg, st.machine, EvaluateLevel(util, st.machine.level, env.policy.thresholds), env.now)
  }

  function NewTrend(env: Env, st: DomainRt, obs: DomainObservation): seq<TrendSample> {
    Added(TREND_WINDOW, TREND_AGE_MS, st.trend, TrendSample(env.now, obs.committed))
  }

  /** The domain's runtime state after an observation. */
  function Advanced(env: Env, st: DomainRt, obs: DomainObservation): DomainRt {
    var bud := GoverningBudget(env, obs.id);
    var m := ResolvedMachine(env, st, obs);
    DomainRt(
      if st.domainType == UnknownDomain then obs.domainType else st.domainType,
      if st.provider == "" then obs.provider else st.provider,
      if st.nativeResourceId == "" then obs.nativeResourceId else st.nativeResourceId,
      bud.GetOr(DEFAULT_BUDGET),
      bud.Some?,
      if m.level != st.machine.level then env.now else st.enteredLevelAtMs,
      Max(st.peakRank, Rank0(m.level)),
      st.cfg,
      m,
      NewTrend(env, st, obs))
  }

  function AvailableOf(usable: nat, committed: nat): nat {
    if usable > committed then usable - committed else 0
  }

  function ScoreOf(env: Env, obs: DomainObservation, usable: nat, te: TrendEstimate): PressureScore {
    var available := AvailableOf(usable, obs.committed);
    var freeFraction := if usable > 0 then available as real / usable as real else 0.0;
    var deficit :=
      if usable > 0 && obs.committed > usable then Clamp01((obs.committed - usable) as real / Max(usable, 1) as real)
      else 0.0;
    var growth :=
      if te.direction == Rising then te.confidence
      else if te.direction == Falling then 0.2 * te.confidence
      else 0.0;
    Weighed(Raw(UtilizationFor(obs.committed, usable), freeFraction, deficit, growth, obs.allocationFailures,
                obs.confidence, obs.validity), env.policy.weights)
  }

  /** The state published for an observed domain, before responses and explanation. */
  function Published(env: Env, st: DomainRt, provider: string, obs: DomainObservation): DomainState {
    var after := Advanced(env, st, obs);
    var usable := Usable(env, obs);
    var te := EstimateOf(after.trend, TREND_WINDOW, env.sqrt);
    var sc := ScoreOf(env, obs, usable, te);
    DomainState(
      obs.id, obs.domainType, provider, obs.nativeResourceId, after.budget, after.governed,
      if after.governed then after.budget.hardCapacity else obs.totalCapacity,
      usable,
      if after.governed then after.budget.ReserveBytes() else obs.reserved.GetOr(0),
      obs.committed, obs.resident, AvailableOf(usable, obs.committed), obs.reclaimable.GetOr(0),
      UtilizationFor(obs.committed, usable),
      after.machine.level, st.machine.level,
      after.machine.pending != Unknown, after.machine.pendingObs,
      sc.value, sc.utilizationComponent, sc.freeDeficitComponent, sc.reserveDeficitComponent,
      sc.growthComponent, sc.allocationFailureComponent, sc.confidencePenalty + sc.stalePenalty,
      te.direction, te.rate, te.confidence, te.samples,
      obs.confidence, obs.provenance, obs.validity, env.now, [], "",
      after.enteredLevelAtMs, after.peakRank)
  }

  type States = map<DomainId, DomainRt>

  function StateFor(env: Env, states: States, id: DomainId): DomainRt {
    if id in states then states[id] else NewDomain(env.policy.hysteresis)
  }

  datatype Observation = Observation(states: States, domains: seq<DomainState>)

  function ObserveOne(env: Env, o: Observation, x: Seen): Observation {
    var st := StateFor(env, o.states, x.obs.id);
    Observation(
      o.states[x.obs.id := Advanced(env, st, x.obs)],
      o.domains + [Published(env, st, x.provider, x.obs)])
  }

  function Observe(env: Env, states: States, feed: seq<Seen>, k: nat): (o: Observation)
    requires k <= |feed|
    ensures |o.domains| == k
  {
    if k == 0 then Observation(states, []) else ObserveOne(env, Observe(env, states, feed, k - 1), feed[k - 1])
  }

  function ObservedIds(feed: seq<Seen>): set<DomainId> {
    set x | x in feed :: x.obs.id
  }

  // ---- domains that were not observed ----

  predicate NotFresh(health: map<string, ProviderStatus>, provider: string) {
    provider !in health || health[provider] == Failed || health[provider] == Stale || health[provider] == Unavailable
  }

  predicate Retains(d: DomainState, observed: set<DomainId>, health: map<string, ProviderStatus>) {
    d.id !in observed && NotFresh(health, d.provider)
  }

  predicate Removes(d: DomainState, observed: set<DomainId>, health: map<string, ProviderStatus>) {
    d.id !in observed && !NotFresh(health, d.provider)
  }

  /** A retained domain keeps everything but its validity, confidence and time. */
  function Kept(d: DomainState, now: nat): DomainState {
    d.(validity := StaleData, confidence := LowConfidence, timestampMs := now)
  }

  datatype Retention = Retention(kept: seq<DomainState>, states: States, notes: seq<Note>)

  function RetainOne(r: Retention, d: DomainState, observed: set<DomainId>, health: map<string, ProviderStatus>,
                     now: nat): Retention
  {
    if Retains(d, observed, health) then
      r.(kept := r.kept + [Kept(d, now)], notes := r.notes + [Note(ProviderStale, 0, Some(d.id), 0)])
    else if Removes(d, observed, health) then
      r.(states := r.states - {d.id}, notes := r.notes + [Note(DomainRemoved, 0, Some(d.id), 0)])
    else r
  }

  function Retain(states: States, prev: seq<DomainState>, observed: set<DomainId>,
                  health: map<string, ProviderStatus>, now: nat, k: nat): Retention
    requires k <= |prev|
  {
    if k == 0 then Retention([], states, [])
    else RetainOne(Retain(states, prev, observed, health, now, k - 1), prev[k - 1], observed, health, now)
  }

  // ---- domains that are new ----

  function AddedNotes(prev: seq<DomainState>, ds: seq<DomainState>, k: nat): seq<Note>
    requires k <= |ds|
  {
    if k == 0 then []
    else
      AddedNotes(prev, ds, k - 1)
      + if FindIn(prev, ds[k - 1].id).None? then [Note(DomainAdded, 0, Some(ds[k - 1].id), 0)] else []
  }

  // ---- responses across tiers ----

  predicate IsAccelerator(t: DomainType) {
    t == AcceleratorMemory
  }

  predicate IsHostlike(t: DomainType) {
    t == HostMemory || t == PinnedHostMemory || t == SharedHostMemory || t == ProcessCommit || t == SystemCommit
  }

  function RoleFor(t: DomainType): TierRole {
    if IsAccelerator(t) then Accelerator
    else if t == HostMemory || t == SystemCommit || t == ProcessCommit then Root
    else if t == PinnedHostMemory || t == SharedHostMemory then Staging
    else if t == PersistentStorageCapacity || t == FileBackedMemory then Persistent
    else CustomRole
  }

  function InitialActions(l: PressureLevel): seq<ResponseAction> {
    match l
    case Normal => [NoAction]
    case Elevated => [Warn]
    case High => [Warn, RequestReclaim]
    case Critical => [RequestDemotion, RequestReclaim, ReduceAdmission, Throttle]
    case Exhausted => [EmergencyStopGrowth, RejectNewWork, RequestDemotion, RequestReclaim]
    case Unknown => [NoAction]
  }

  function Without(actions: seq<ResponseAction>, a: ResponseAction): seq<ResponseAction> {
    if actions == [] then []
    else (if actions[0] == a then [] else [actions[0]]) + Without(actions[1..], a)
  }

  datatype HostTier = HostTier(present: bool, severity: nat)

  function HostOf(ds: seq<DomainState>, k: nat): HostTier
    requires k <= |ds|
  {
    if k == 0 then HostTier(false, 0)
    else
      var h, d := HostOf(ds, k - 1), ds[k - 1];
      if IsHostlike(d.domainType) then HostTier(true, Max(h.severity, Rank0(d.level))) else h
  }

  function Responses(d: DomainState, host: HostTier): seq<ResponseAction> {
    if && IsAccelerator(d.domainType) && SeverityRank(d.level) >= SeverityRank(High)
       && (!host.present || host.severity >= SeverityRank(Critical))
    then Without(InitialActions(d.level), RequestDemotion)
    else InitialActions(d.level)
  }

  /** A domain with its responses and explanation: any earlier explanation is overwritten, the note on
      retained domains included. */
  function Finished(env: Env, d: DomainState, host: HostTier): DomainState {
    var d' := d.(responses := Responses(d, host));
    d'.(explanation := env.explain(d'))
  }

  function FinishedAll(env: Env, ds: seq<DomainState>, host: HostTier): (fs: seq<DomainState>)
    ensures |fs| == |ds| && forall i | 0 <= i < |ds| :: fs[i] == Finished(env, ds[i], host)
  {
    seq(|ds|, i requires 0 <= i < |ds| => Finished(env, ds[i], host))
  }

  // ---- aggregate ----

  function RoleWeight(policy: PressurePolicy, t: DomainType): real {
    if RoleFor(t) in policy.roleWeight then policy.roleWeight[RoleFor(t)] else 1.0
  }

  function MaxRank(ds: seq<DomainState>, k: nat): nat
    requires k <= |ds|
  {
    if k == 0 then 0 else Max(MaxRank(ds, k - 1), Rank0(ds[k - 1].level))
  }

  function RoleWeights(policy: PressurePolicy, ds: seq<DomainState>): (ws: seq<real>)
    ensures |ws| == |ds| && forall i | 0 <= i < |ds| :: ws[i] == RoleWeight(policy, ds[i].domainType)
  {
    seq(|ds|, i requires 0 <= i < |ds| => RoleWeight(policy, ds[i].domainType))
  }

  function Scores(ds: seq<DomainState>): (cs: seq<real>)
    ensures |cs| == |ds| && forall i | 0 <= i < |ds| :: cs[i] == ds[i].score
  {
    seq(|ds|, i requires 0 <= i < |ds| => ds[i].score)
  }

  function AggregateLevel(ds: seq<DomainState>): PressureLevel {
    var r := MaxRank(ds, |ds|);
    if ds == [] then Unknown
    else if r >= SeverityRank(Exhausted) then Exhausted
    else if r >= SeverityRank(Critical) then Critical
    else if r >= SeverityRank(High) then High
    else if r >= SeverityRank(Elevated) then Elevated
    else Normal
  }

  function AggregateScore(policy: PressurePolicy, ds: seq<DomainState>): real {
    var ws := RoleWeights(policy, ds);
    Mean(Dot(ws, Scores(ds), |ds|), Total(ws, |ds|))
  }

  // ---- difference of two snapshots ----

  datatype SnapshotDiff = SnapshotDiff(
    addedDomains: seq<DomainId>,
    removedDomains: seq<DomainId>,
    levelChanged: seq<DomainId>,
    budgetChanged: seq<DomainId>,
    reserveChanged: seq<DomainId>,
    aggregateChanged: bool,
    policyChanged: bool,
    providerHealthChanged: bool)
  {
    predicate Any() {
      || addedDomains != [] || removedDomains != [] || levelChanged != [] || budgetChanged != []
      || reserveChanged != [] || aggregateChanged || policyChanged || providerHealthChanged
    }
  }

  /** The ids of the first `k` domains that another list lacks. */
  function Missing(ds: seq<DomainState>, other: seq<DomainState>, k: nat): seq<DomainId>
    requires k <= |ds|
  {
    if k == 0 then []
    else Missing(ds, other, k - 1) + if FindIn(other, ds[k - 1].id).None? then [ds[k - 1].id] else []
  }

  predicate LevelDiffers(a: seq<DomainState>, d: DomainState) {
    var p := FindIn(a, d.id);
    p.Some? && p.value.level != d.level
  }

  predicate ReserveDiffers(a: seq<DomainState>, d: DomainState) {
    var p := FindIn(a, d.id);
    p.Some? && p.value.budget.ReserveBytes() != d.budget.ReserveBytes()
  }

  predicate BudgetDiffers(a: seq<DomainState>, d: DomainState) {
    var p := FindIn(a, d.id);
    p.Some? && (p.value.budget.hardCapacity != d.budget.hardCapacity
                || p.value.budget.ReserveBytes() != d.budget.ReserveBytes())
  }

  /** The ids of the first `k` domains with a property. */
  function Which(ds: seq<DomainState>, p: DomainState -> bool, k: nat): seq<DomainId>
    requires k <= |ds|
  {
    if k == 0 then [] else Which(ds, p, k - 1) + if p(ds[k - 1]) then [ds[k - 1].id] else []
  }

  function Diff(a: Snapshot, b: Snapshot): SnapshotDiff {
    SnapshotDiff(
      Missing(b.domains, a.domains, |b.domains|),
      Missing(a.domains, b.domains, |a.domains|),
      Which(b.domains, d => LevelDiffers(a.domains, d), |b.domains|),
      Which(b.domains, d => BudgetDiffers(a.domains, d), |b.domains|),
      Which(b.domains, d => ReserveDiffers(a.domains, d), |b.domains|),
      a.aggregateLevel != b.aggregateLevel || a.aggregateScore != b.aggregateScore,
      a.policyVersion != b.policyVersion,
      a.providerHealth != b.providerHealth)
  }

  // ---- level and response events ----

  function LevelNote(prev: seq<DomainState>, d: DomainState, generation: nat): seq<Note> {
    var p := FindIn(prev, d.id);
    if p.None? || p.value.level == d.level then []
    else if SeverityRank(d.level) > SeverityRank(p.value.level) then
      if SeverityRank(p.value.level) <= SeverityRank(Normal) then
        [Note(PressureEntered, generation, Some(d.id), Rank0(d.level))]
      else
        [Note(PressureEscalated, generation, Some(d.id), Rank0(d.level))]
    else if d.level == Normal then [Note(PressureRecovered, generation, Some(d.id), 0)]
    else [Note(PressureRelieved, generation, Some(d.id), Rank0(d.level))]
  }

  function LevelNotes(prev: seq<DomainState>, ds: seq<DomainState>, generation: nat, k: nat): seq<Note>
    requires k <= |ds|
  {
    if k == 0 then [] else LevelNotes(prev, ds, generation, k - 1) + LevelNote(prev, ds[k - 1], generation)
  }

  function ActionNote(d: DomainState, a: ResponseAction, generation: nat): seq<Note> {
    var sev := Rank0(d.level);
    match a
    case RequestReclaim => [Note(ReclaimRequested, generation, Some(d.id), sev)]
    case RequestDemotion => [Note(DemotionRequested, generation, Some(d.id), sev)]
    case ReduceAdmission => [Note(BackpressureIssued, generation, Some(d.id), sev)]
    case RejectNewWork => [Note(BackpressureIssued, generation, Some(d.id), sev)]
    case _ => []
  }

  function ActionNotes(d: DomainState, generation: nat, k: nat): seq<Note>
    requires k <= |d.responses|
  {
    if k == 0 then [] else ActionNotes(d, generation, k - 1) + ActionNote(d, d.responses[k - 1], generation)
  }

  function ResponseNotes(ds: seq<DomainState>, generation: nat, k: nat): seq<Note>
    requires k <= |ds|
  {
    if k == 0 then []
    else ResponseNotes(ds, generation, k - 1) + ActionNotes(ds[k - 1], generation, |ds[k - 1].responses|)
  }

  // ---- the whole refresh ----

  datatype Runtime = Runtime(
    policy: PressurePolicy,
    snapshot: Snapshot,
    budgets: map<DomainId, Budget>,
    states: States,
    history: seq<Snapshot>,
    historyLimit: nat,
    generation: nat,
    snapshotId: nat,
    eventId: nat)

  const INITIAL: Runtime := Runtime(DEFAULT_POLICY, EMPTY_SNAPSHOT, map[], map[], [], 64, 0, 0, 0)

  /** The parts of a refresh that do not depend on the generation. */
  datatype Draft = Draft(polled: Polled, observed: Observation, retention: Retention, domains: seq<DomainState>)

  function DraftOf(rt: Runtime, env: Env, reports: seq<Report>): Draft {
    var polled := Poll(reports, |reports|);
    var observed := Observe(env, rt.states, polled.feed, |polled.feed|);
    var retention := Retain(observed.states, rt.snapshot.domains, ObservedIds(polled.feed), polled.health, env.now,
                            |rt.snapshot.domains|);
    var all := observed.domains + retention.kept;
    Draft(polled, observed, retention, FinishedAll(env, all, HostOf(all, |all|)))
  }

  /** The snapshot before its generation and event count are known. */
  function Unstamped(rt: Runtime, env: Env, d: Draft): Snapshot {
    Snapshot(
      rt.snapshotId + 1, 0, env.now, d.domains, d.polled.health,
      AggregateLevel(d.domains), AggregateScore(env.policy, d.domains),
      "aggregate driven by max-severity domain",
      env.policy.version, env.policy.name, d.polled.warnings,
      d.polled.staleData || d.retention.kept != [],
      d.polled.partialData,
      if d.polled.partialData then MediumConfidence else HighConfidence,
      RuntimeRegistration, 0, 0)
  }

  function NextGeneration(rt: Runtime, s: Snapshot): nat {
    if Diff(rt.snapshot, s).Any() then rt.generation + 1 else rt.generation
  }

  /** Everything a refresh reports, in order. */
  function NotesOf(rt: Runtime, d: Draft, generation: nat): seq<Note> {
    var ds, prev := d.domains, rt.snapshot.domains;
    d.polled.notes + d.retention.notes + AddedNotes(prev, ds, |ds|)
    + (if generation > rt.generation then [Note(GenerationChanged, generation, None, 0)] else [])
    + LevelNotes(prev, ds, generation, |ds|) + ResponseNotes(ds, generation, |ds|)
  }

  function Trimmed(history: seq<Snapshot>, limit: nat): seq<Snapshot> {
    LastN(history, limit)
  }

  datatype Refreshed = Refreshed(rt: Runtime, snapshot: Snapshot, events: seq<PressureEvent>)

  function RefreshWith(rt: Runtime, env: Env, reports: seq<Report>): Refreshed {
    var d := DraftOf(rt, env, reports);
    var unstamped := Unstamped(rt, env, d);
    var generation := NextGeneration(rt, unstamped);
    var notes := NotesOf(rt, d, generation);
    var snap := unstamped.(generation := generation, eventCount := |notes|);
    Refreshed(
      rt.(snapshot := snap, states := d.retention.states, generation := generation,
          history := Trimmed(rt.history + [snap], rt.historyLimit),
          snapshotId := rt.snapshotId + 1, eventId := rt.eventId + |notes|),
      snap,
      Numbered(rt.eventId, env.now, notes))
  }
}
