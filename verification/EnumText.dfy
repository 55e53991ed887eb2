/** The texts of the enumerations, both ways. */
module EnumText {
  import opened Options
  import opened Policy
  import opened Domain
  import opened Trend

  function LevelText(v: PressureLevel): string {
    match v
    case Normal => "NORMAL"
    case Elevated => "ELEVATED"
    case High => "HIGH"
    case Critical => "CRITICAL"
    case Exhausted => "EXHAUSTED"
    case Unknown => "UNKNOWN"
  }

  function LevelOf(s: string): Option<PressureLevel> {
    if s == "NORMAL" then Some(Normal)
    else if s == "ELEVATED" then Some(Elevated)
    else if s == "HIGH" then Some(High)
    else if s == "CRITICAL" then Some(Critical)
    else if s == "EXHAUSTED" then Some(Exhausted)
    else if s == "UNKNOWN" then Some(Unknown)
    else None
  }

  lemma {:induction false} LevelReadsBack(v: PressureLevel)
    ensures LevelOf(LevelText(v)) == Some(v)
  {
  }

  function TypeText(v: DomainType): string {
    match v
    case HostMemory => "HOST_MEMORY"
    case PinnedHostMemory => "PINNED_HOST_MEMORY"
    case AcceleratorMemory => "ACCELERATOR_MEMORY"
    case SharedHostMemory => "SHARED_HOST_MEMORY"
    case FileBackedMemory => "FILE_BACKED_MEMORY"
    case PersistentStorageCapacity => "PERSISTENT_STORAGE_CAPACITY"
    case ProcessCommit => "PROCESS_COMMIT"
    case SystemCommit => "SYSTEM_COMMIT"
    case CustomDomain => "CUSTOM"
    case UnknownDomain => "UNKNOWN"
  }

  function TypeOf(s: string): Option<DomainType> {
    if s == "HOST_MEMORY" then Some(HostMemory)
    else if s == "PINNED_HOST_MEMORY" then Some(PinnedHostMemory)
    else if s == "ACCELERATOR_MEMORY" then Some(AcceleratorMemory)
    else if s == "SHARED_HOST_MEMORY" then Some(SharedHostMemory)
    else if s == "FILE_BACKED_MEMORY" then Some(FileBackedMemory)
    else if s == "PERSISTENT_STORAGE_CAPACITY" then Some(PersistentStorageCapacity)
    else if s == "PROCESS_COMMIT" then Some(ProcessCommit)
    else if s == "SYSTEM_COMMIT" then Some(SystemCommit)
    else if s == "CUSTOM" then Some(CustomDomain)
    else if s == "UNKNOWN" then Some(UnknownDomain)
    else None
  }

  lemma {:induction false} TypeReadsBack(v: DomainType)
    ensures TypeOf(TypeText(v)) == Some(v)
  {
  }

  function ConfidenceText(v: Confidence): string {
    match v
    case Authoritative => "AUTHORITATIVE"
    case HighConfidence => "HIGH"
    case MediumConfidence => "MEDIUM"
    case LowConfidence => "LOW"
    case UnknownConfidence => "UNKNOWN"
  }

  function ConfidenceOf(s: string): Option<Confidence> {
    if s == "AUTHORITATIVE" then Some(Authoritative)
    else if s == "HIGH" then Some(HighConfidence)
    else if s == "MEDIUM" then Some(MediumConfidence)
    else if s == "LOW" then Some(LowConfidence)
    else if s == "UNKNOWN" then Some(UnknownConfidence)
    else None
  }

  lemma {:induction false} ConfidenceReadsBack(v: Confidence)
    ensures ConfidenceOf(ConfidenceText(v)) == Some(v)
  {
  }

  function ProvenanceText(v: Provenance): string {
    match v
    case WindowsGlobalMemoryStatusEx => "WINDOWS_GLOBAL_MEMORY_STATUS_EX"
    case WindowsPerformanceInfo => "WINDOWS_PERFORMANCE_INFO"
    case WindowsProcessMemoryInfo => "WINDOWS_PROCESS_MEMORY_INFO"
    case WindowsProcessQuery => "WINDOWS_PROCESS_QUERY"
    case CudaDriverApi => "CUDA_DRIVER_API"
    case Filesystem => "FILESYSTEM"
    case RuntimeRegistration => "RUNTIME_REGISTRATION"
    case ConfiguredPolicy => "CONFIGURED_POLICY"
    case SyntheticInput => "SYNTHETIC_INPUT"
    case ImportedSnapshot => "IMPORTED_SNAPSHOT"
    case InferredMetric => "INFERRED_METRIC"
    case AllocationProbe => "ALLOCATION_PROBE"
    case CudaRuntimeApi => "CUDA_RUNTIME_API"
    case UnknownProvenance => "UNKNOWN"
  }

  function ProvenanceOf(s: string): Option<Provenance> {
    if s == "WINDOWS_GLOBAL_MEMORY_STATUS_EX" then Some(WindowsGlobalMemoryStatusEx)
    else if s == "WINDOWS_PERFORMANCE_INFO" then Some(WindowsPerformanceInfo)
    else if s == "WINDOWS_PROCESS_MEMORY_INFO" then Some(WindowsProcessMemoryInfo)
    else if s == "WINDOWS_PROCESS_QUERY" then Some(WindowsProcessQuery)
    else if s == "CUDA_DRIVER_API" then Some(CudaDriverApi)
    else if s == "FILESYSTEM" then Some(Filesystem)
    else if s == "RUNTIME_REGISTRATION" then Some(RuntimeRegistration)
    else if s == "CONFIGURED_POLICY" then Some(ConfiguredPolicy)
    else if s == "SYNTHETIC_INPUT" then Some(SyntheticInput)
    else if s == "IMPORTED_SNAPSHOT" then Some(ImportedSnapshot)
    else if s == "INFERRED_METRIC" then Some(InferredMetric)
    else if s == "ALLOCATION_PROBE" then Some(AllocationProbe)
    else if s == "CUDA_RUNTIME_API" then Some(CudaRuntimeApi)
    else if s == "UNKNOWN" then Some(UnknownProvenance)
    else None
  }

  lemma {:induction false} ProvenanceReadsBack(v: Provenance)
    ensures ProvenanceOf(ProvenanceText(v)) == Some(v)
  {
  }

  function ValidityText(v: Validity): string {
    match v
    case Valid => "VALID"
    case StaleData => "STALE"
    case PartialData => "PARTIAL"
    case FailedData => "FAILED"
    case UnavailableData => "UNAVAILABLE"
  }

  function ValidityOf(s: string): Option<Validity> {
    if s == "VALID" then Some(Valid)
    else if s == "STALE" then Some(StaleData)
    else if s == "PARTIAL" then Some(PartialData)
    else if s == "FAILED" then Some(FailedData)
    else if s == "UNAVAILABLE" then Some(UnavailableData)
    else None
  }

  lemma {:induction false} ValidityReadsBack(v: Validity)
    ensures ValidityOf(ValidityText(v)) == Some(v)
  {
  }

  function TrendText(v: TrendDirection): string {
    match v
    case Flat => "FLAT"
    case Rising => "RISING"
    case Falling => "FALLING"
    case NoTrend => "UNKNOWN"
  }

  function TrendOf(s: string): Option<TrendDirection> {
    if s == "FLAT" then Some(Flat)
    else if s == "RISING" then Some(Rising)
    else if s == "FALLING" then Some(Falling)
    else if s == "UNKNOWN" then Some(NoTrend)
    else None
  }

  lemma {:induction false} TrendReadsBack(v: TrendDirection)
    ensures TrendOf(TrendText(v)) == Some(v)
  {
  }

  function ActionText(v: ResponseAction): string {
    match v
    case NoAction => "NONE"
    case Warn => "WARN"
    case Throttle => "THROTTLE"
    case Defer => "DEFER"
    case RejectNewWork => "REJECT_NEW_WORK"
    case RequestReclaim => "REQUEST_RECLAIM"
    case RequestDemotion => "REQUEST_DEMOTION"
    case RequestPersistence => "REQUEST_PERSISTENCE"
    case RequestCompaction => "REQUEST_COMPACTION"
    case ReduceAdmission => "REDUCE_ADMISSION"
    case ReserveCapacity => "RESERVE_CAPACITY"
    case EmergencyStopGrowth => "EMERGENCY_STOP_GROWTH"
    case CustomAction => "CUSTOM"
  }

  function ActionOf(s: string): Option<ResponseAction> {
    if s == "NONE" then Some(NoAction)
    else if s == "WARN" then Some(Warn)
    else if s == "THROTTLE" then Some(Throttle)
    else if s == "DEFER" then Some(Defer)
    else if s == "REJECT_NEW_WORK" then Some(RejectNewWork)
    else if s == "REQUEST_RECLAIM" then Some(RequestReclaim)
    else if s == "REQUEST_DEMOTION" then Some(RequestDemotion)
    else if s == "REQUEST_PERSISTENCE" then Some(RequestPersistence)
    else if s == "REQUEST_COMPACTION" then Some(RequestCompaction)
    else if s == "REDUCE_ADMISSION" then Some(ReduceAdmission)
    else if s == "RESERVE_CAPACITY" then Some(ReserveCapacity)
    else if s == "EMERGENCY_STOP_GROWTH" then Some(EmergencyStopGrowth)
    else if s == "CUSTOM" then Some(CustomAction)
    else None
  }

  lemma {:induction false} ActionReadsBack(v: ResponseAction)
    ensures ActionOf(ActionText(v)) == Some(v)
  {
  }

  function KindText(v: ReserveKind): string {
    match v
    case EmergencyReserve => "EMERGENCY"
    case Migration => "MIGRATION"
    case Checkpoint => "CHECKPOINT"
    case TransferStaging => "TRANSFER_STAGING"
    case Recovery => "RECOVERY"
    case Fragmentation => "FRAGMENTATION"
    case System => "SYSTEM"
    case Application => "APPLICATION"
    case CustomReserve => "CUSTOM"
  }

  function KindOf(s: string): Option<ReserveKind> {
    if s == "EMERGENCY" then Some(EmergencyReserve)
    else if s == "MIGRATION" then Some(Migration)
    else if s == "CHECKPOINT" then Some(Checkpoint)
    else if s == "TRANSFER_STAGING" then Some(TransferStaging)
    else if s == "RECOVERY" then Some(Recovery)
    else if s == "FRAGMENTATION" then Some(Fragmentation)
    else if s == "SYSTEM" then Some(System)
    else if s == "APPLICATION" then Some(Application)
    else if s == "CUSTOM" then Some(CustomReserve)
    else None
  }

  lemma {:induction false} KindReadsBack(v: ReserveKind)
    ensures KindOf(KindText(v)) == Some(v)
  {
  }

  /** The source has no text for Partial, which is written as UNAVAILABLE. */
  function StatusText(v: ProviderStatus): string {
    match v
    case Healthy => "HEALTHY"
    case Stale => "STALE"
    case Failed => "FAILED"
    case Unavailable => "UNAVAILABLE"
    case Partial => "UNAVAILABLE"
  }

  function StatusFrom(s: string): Option<ProviderStatus> {
    if s == "HEALTHY" then Some(Healthy)
    else if s == "STALE" then Some(Stale)
    else if s == "FAILED" then Some(Failed)
    else if s == "UNAVAILABLE" then Some(Unavailable)
    else if s == "PARTIAL" then Some(Partial)
    else None
  }

  /** A provider's status is read back exactly when it is not Partial. */
  lemma {:induction false} StatusReadsBackIff(v: ProviderStatus)
    ensures StatusFrom(StatusText(v)) == Some(v) <==> v != Partial
  {
  }
}
