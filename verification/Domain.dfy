/** Domains: identities, budgets, observations, interpreted states and snapshots. */
module Domain {
  import opened Options
  import opened Numbers
  import opened Policy
  import opened Trend

  type U64 = n: int | 0 <= n < TWO64

  datatype DomainId = DomainId(high: U64, low: U64)

  datatype DomainType =
    | HostMemory | PinnedHostMemory | AcceleratorMemory | SharedHostMemory | FileBackedMemory
    | PersistentStorageCapacity | ProcessCommit | SystemCommit | CustomDomain | UnknownDomain

  datatype Confidence = Authoritative | HighConfidence | MediumConfidence | LowConfidence | UnknownConfidence

  datatype Provenance =
    | WindowsGlobalMemoryStatusEx | WindowsPerformanceInfo | WindowsProcessMemoryInfo | WindowsProcessQuery
    | CudaDriverApi | Filesystem | RuntimeRegistration | ConfiguredPolicy | SyntheticInput | ImportedSnapshot
    | InferredMetric | AllocationProbe | CudaRuntimeApi | UnknownProvenance

  datatype Validity = Valid | StaleData | PartialData | FailedData | UnavailableData

  datatype ProviderStatus = Healthy | Stale | Failed | Unavailable | Partial

  datatype ResponseAction =
    | NoAction | Warn | Throttle | Defer | RejectNewWork | RequestReclaim | RequestDemotion | RequestPersistence
    | RequestCompaction | ReduceAdmission | ReserveCapacity | EmergencyStopGrowth | CustomAction

  datatype ReserveKind =
    | EmergencyReserve | Migration | Checkpoint | TransferStaging | Recovery | Fragmentation | System
    | Application | CustomReserve

  // ---- budgets ----

  datatype Reserve = Reserve(kind: ReserveKind, name: string, bytes: nat)

  datatype Budget = Budget(
    hardCapacity: nat,
    softCapacity: Option<nat>,
    reserves: seq<Reserve>,
    emergencyReserveBytes: nat,
    minimumFreeReserve: nat,
    reclaimTarget: nat,
    demotionTarget: nat,
    admissionHeadroom: nat,
    owner: string,
    version: nat)
  {
    /** An unsigned 64-bit sum: it wraps around. */
    function ReserveBytes(): nat {
      (emergencyReserveBytes + ReserveSum(reserves)) % TWO64
    }

    function UsableCapacity(): nat {
      if hardCapacity >= ReserveBytes() then hardCapacity - ReserveBytes() else 0
    }
  }

  function ReserveSum(rs: seq<Reserve>): nat {
    if rs == [] then 0 else rs[0].bytes + ReserveSum(rs[1..])
  }

  /** No governed capacity: the provider's capacity is used. */
  const DEFAULT_BUDGET: Budget := Budget(0, None, [], 0, 0, 0, 0, 0, "", 0)

  /** `validate_budget` reports a problem in words; here only whether it does. */
  predicate BudgetOk(b: Budget) {
    if b.hardCapacity == 0 then b.softCapacity.GetOr(0) == 0
    else
      && b.softCapacity.GetOr(0) <= b.hardCapacity
      && b.ReserveBytes() <= b.hardCapacity
      && b.emergencyReserveBytes <= b.hardCapacity
      && b.minimumFreeReserve <= b.hardCapacity
      && b.reclaimTarget <= b.hardCapacity
      && b.demotionTarget <= b.hardCapacity
      && b.admissionHeadroom <= b.hardCapacity
  }

  // ---- observations and states ----

  datatype DomainObservation = DomainObservation(
    id: DomainId,
    domainType: DomainType,
    provider: string,
    nativeResourceId: string,
    totalCapacity: nat,
    committed: nat,
    resident: nat,
    reclaimable: Option<nat>,
    unavailable: nat,
    available: nat,
    usableCapacity: Option<nat>,
    reserved: Option<nat>,
    confidence: Confidence,
    provenance: Provenance,
    validity: Validity,
    observedAtMs: nat,
    allocationFailures: int,
    growthBytesPerS: real,
    detail: string)

  datatype DomainState = DomainState(
    id: DomainId,
    domainType: DomainType,
    provider: string,
    nativeResourceId: string,
    budget: Budget,
    governed: bool,
    totalCapacity: nat,
    usableCapacity: nat,
    reservedBytes: nat,
    committed: nat,
    resident: nat,
    available: nat,
    reclaimable: nat,
    utilization: real,
    level: PressureLevel,
    previousLevel: PressureLevel,
    inHysteresisHold: bool,
    levelHoldObservations: nat,
    score: real,
    utilizationComponent: real,
    freeDeficitComponent: real,
    reserveDeficitComponent: real,
    growthComponent: real,
    allocationFailureComponent: real,
    stigma: real,
    trend: TrendDirection,
    trendRate: real,
    trendConfidence: real,
    trendWindowSamples: nat,
    confidence: Confidence,
    provenance: Provenance,
    validity: Validity,
    timestampMs: nat,
    responses: seq<ResponseAction>,
    explanation: string,
    enteredLevelAtMs: nat,
    peakLevel: nat)

  datatype Snapshot = Snapshot(
    id: nat,
    generation: nat,
    timestampMs: nat,
    domains: seq<DomainState>,
    providerHealth: map<string, ProviderStatus>,
    aggregateLevel: PressureLevel,
    aggregateScore: real,
    aggregateExplanation: string,
    policyVersion: nat,
    policyName: string,
    warnings: seq<string>,
    staleData: bool,
    partialData: bool,
    confidence: Confidence,
    provenance: Provenance,
    eventCount: nat,
    eventsDropped: nat)

  /** The first state with an id. */
  function FindIn(ds: seq<DomainState>, id: DomainId): (r: Option<DomainState>)
    ensures r.Some? ==> r.value in ds && r.value.id == id
    ensures r.None? ==> forall d | d in ds :: d.id != id
  {
    if ds == [] then None
    else if ds[0].id == id then Some(ds[0])
    else FindIn(ds[1..], id)
  }

  const EMPTY_SNAPSHOT: Snapshot := Snapshot(
    0, 0, 0, [], map[], Unknown, 0.0, "", 0, "", [], false, false, UnknownConfidence, UnknownProvenance, 0, 0)
}
