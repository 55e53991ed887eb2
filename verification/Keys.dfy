/** The member names of the JSON documents. */
module Keys {
  datatype Key =
    | Version | HardCapacity | SoftCapacity | EmergencyReserveBytes | MinimumFreeReserve | ReclaimTarget
    | DemotionTarget | AdmissionHeadroom | Owner | Reserves | Kind | Name | Bytes | Id | Type | Provider
    | NativeResourceId | TotalCapacity | Committed | Resident | Reclaimable | Unavailable | Available
    | UsableCapacity | Reserved | Confidence | Provenance | Validity | ObservedAtMs | AllocationFailures
    | GrowthBytesPerS | Detail | Budget | Governed | ReservedBytes | Utilization | Level | PreviousLevel
    | InHysteresisHold | LevelHoldObservations | Score | UtilizationComponent | FreeDeficitComponent
    | ReserveDeficitComponent | GrowthComponent | AllocationFailureComponent | Stigma | Trend | TrendRate
    | TrendConfidence | TrendWindowSamples | TimestampMs | Explanation | EnteredLevelAtMs | PeakLevel
    | Responses | Schema | Generation | PolicyVersion | PolicyName | AggregateLevel | AggregateScore
    | AggregateExplanation | StaleData | PartialData | Warnings | ProviderHealth | Domains | Events | Count
    | Dropped | Frames | Observations

  function MemberName(k: Key): string {
    match k
    case Version => "version"
    case HardCapacity => "hard_capacity"
    case SoftCapacity => "soft_capacity"
    case EmergencyReserveBytes => "emergency_reserve_bytes"
    case MinimumFreeReserve => "minimum_free_reserve"
    case ReclaimTarget => "reclaim_target"
    case DemotionTarget => "demotion_target"
    case AdmissionHeadroom => "admission_headroom"
    case Owner => "owner"
    case Reserves => "reserves"
    case Kind => "kind"
    case Name => "name"
    case Bytes => "bytes"
    case Id => "id"
    case Type => "type"
    case Provider => "provider"
    case NativeResourceId => "native_resource_id"
    case TotalCapacity => "total_capacity"
    case Committed => "committed"
    case Resident => "resident"
    case Reclaimable => "reclaimable"
    case Unavailable => "unavailable"
    case Available => "available"
    case UsableCapacity => "usable_capacity"
    case Reserved => "reserved"
    case Confidence => "confidence"
    case Provenance => "provenance"
    case Validity => "validity"
    case ObservedAtMs => "observed_at_ms"
    case AllocationFailures => "allocation_failures"
    case GrowthBytesPerS => "growth_bytes_per_s"
    case Detail => "detail"
    case Budget => "budget"
    case Governed => "governed"
    case ReservedBytes => "reserved_bytes"
    case Utilization => "utilization"
    case Level => "level"
    case PreviousLevel => "previous_level"
    case InHysteresisHold => "in_hysteresis_hold"
    case LevelHoldObservations => "level_hold_observations"
    case Score => "score"
    case UtilizationComponent => "utilization_component"
    case FreeDeficitComponent => "free_deficit_component"
    case ReserveDeficitComponent => "reserve_deficit_component"
    case GrowthComponent => "growth_component"
    case AllocationFailureComponent => "allocation_failure_component"
    case Stigma => "stigma"
    case Trend => "trend"
    case TrendRate => "trend_rate"
    case TrendConfidence => "trend_confidence"
    case TrendWindowSamples => "trend_window_samples"
    case TimestampMs => "timestamp_ms"
    case Explanation => "explanation"
    case EnteredLevelAtMs => "entered_level_at_ms"
    case PeakLevel => "peak_level"
    case Responses => "responses"
    case Schema => "schema"
    case Generation => "generation"
    case PolicyVersion => "policy_version"
    case PolicyName => "policy_name"
    case AggregateLevel => "aggregate_level"
    case AggregateScore => "aggregate_score"
    case AggregateExplanation => "aggregate_explanation"
    case StaleData => "stale_data"
    case PartialData => "partial_data"
    case Warnings => "warnings"
    case ProviderHealth => "provider_health"
    case Domains => "domains"
    case Events => "events"
    case Count => "count"
    case Dropped => "dropped"
    case Frames => "frames"
    case Observations => "observations"
  }

  /** A left inverse of `MemberName`, found by length and one or two characters. */
  function KeyOf(s: string): Key {
    if |s| == 2 then Id
    else if |s| == 4 then if s[0] == 'k' then Kind else if s[0] == 'n' then Name else Type
    else if |s| == 5 then if s[0] == 'o' then Owner else if s[0] == 'b' then Bytes else if s[0] == 'l' then
      Level else if s[0] == 's' then Score else if s[0] == 't' then Trend else Count
    else if |s| == 6 then if s[1] == 'e' then Detail else if s[1] == 'u' then Budget else if s[1] == 't'
      then Stigma else if s[1] == 'c' then Schema else if s[1] == 'v' then Events else Frames
    else if |s| == 7 then if s[1] == 'e' then Version else if s[1] == 'o' then Domains else Dropped
    else if |s| == 8 then if s[0] == 'r' then (if s[7] == 's' then Reserves else if s[7] == 't' then
      Resident else Reserved) else if s[0] == 'p' then Provider else if s[0] == 'v' then Validity else if s[0]
      == 'g' then Governed else Warnings
    else if |s| == 9 then if s[0] == 'c' then Committed else if s[0] == 'a' then Available else Responses
    else if |s| == 10 then if s[3] == 'f' then Confidence else if s[3] == 'v' then Provenance else if s[3]
      == 'n' then TrendRate else if s[3] == 'k' then PeakLevel else if s[3] == 'e' then Generation else
      StaleData
    else if |s| == 11 then if s[1] == 'e' then Reclaimable else if s[1] == 'n' then Unavailable else if s[1]
      == 't' then Utilization else if s[1] == 'x' then Explanation else PolicyName
    else if |s| == 12 then if s[0] == 't' then TimestampMs else if s[0] == 'p' then PartialData else
      Observations
    else if |s| == 13 then if s[0] == 'h' then HardCapacity else SoftCapacity
    else if |s| == 14 then if s[10] == 'r' then ReclaimTarget else if s[10] == 'c' then TotalCapacity else
      if s[10] == 't' then ObservedAtMs else if s[10] == 'y' then ReservedBytes else if s[10] == 'e' then
      PreviousLevel else PolicyVersion
    else if |s| == 15 then if s[12] == 'g' then DemotionTarget else if s[12] == 'i' then UsableCapacity else
      if s[12] == 'v' then AggregateLevel else if s[12] == 'o' then AggregateScore else ProviderHealth
    else if |s| == 16 then if s[0] == 'g' then GrowthComponent else TrendConfidence
    else if |s| == 18 then if s[0] == 'a' then AdmissionHeadroom else if s[0] == 'n' then NativeResourceId
      else if s[0] == 'g' then GrowthBytesPerS else InHysteresisHold
    else if |s| == 19 then if s[0] == 'a' then AllocationFailures else EnteredLevelAtMs
    else if |s| == 20 then if s[0] == 'm' then MinimumFreeReserve else TrendWindowSamples
    else if |s| == 21 then if s[0] == 'u' then UtilizationComponent else AggregateExplanation
    else if |s| == 22 then FreeDeficitComponent
    else if |s| == 23 then if s[0] == 'e' then EmergencyReserveBytes else LevelHoldObservations
    else if |s| == 25 then ReserveDeficitComponent
    else if |s| == 28 then AllocationFailureComponent
    else Id
  }

  lemma {:induction false} Inverse1()
    ensures forall k | k in {Version, HardCapacity, SoftCapacity, EmergencyReserveBytes, MinimumFreeReserve,
                          ReclaimTarget} ::
              KeyOf(MemberName(k)) == k
  {
  }

  lemma {:induction false} Inverse2()
    ensures forall k | k in {DemotionTarget, AdmissionHeadroom, Owner, Reserves, Kind, Name} ::
              KeyOf(MemberName(k)) == k
  {
  }

  lemma {:induction false} Inverse3()
    ensures forall k | k in {Bytes, Id, Type, Provider, NativeResourceId, TotalCapacity} ::
              KeyOf(MemberName(k)) == k
  {
  }

  lemma {:induction false} Inverse4()
    ensures forall k | k in {Committed, Resident, Reclaimable, Unavailable, Available, UsableCapacity} ::
              KeyOf(MemberName(k)) == k
  {
  }

  lemma {:induction false} Inverse5()
    ensures forall k | k in {Reserved, Confidence, Provenance, Validity, ObservedAtMs, AllocationFailures} ::
              KeyOf(MemberName(k)) == k
  {
  }

  lemma {:induction false} Inverse6()
    ensures forall k | k in {GrowthBytesPerS, Detail, Budget, Governed, ReservedBytes, Utilization} ::
              KeyOf(MemberName(k)) == k
  {
  }

  lemma {:induction false} Inverse7()
    ensures forall k | k in {Level, PreviousLevel, InHysteresisHold, LevelHoldObservations, Score,
                          UtilizationComponent} ::
              KeyOf(MemberName(k)) == k
  {
  }

  lemma {:induction false} Inverse8()
    ensures forall k | k in {FreeDeficitComponent, ReserveDeficitComponent, GrowthComponent,
                          AllocationFailureComponent, Stigma, Trend} ::
              KeyOf(MemberName(k)) == k
  {
  }

  lemma {:induction false} Inverse9()
    ensures forall k | k in {TrendRate, TrendConfidence, TrendWindowSamples, TimestampMs, Explanation,
                          EnteredLevelAtMs} ::
              KeyOf(MemberName(k)) == k
  {
  }

  lemma {:induction false} Inverse10()
    ensures forall k | k in {PeakLevel, Responses, Schema, Generation, PolicyVersion, PolicyName} ::
              KeyOf(MemberName(k)) == k
  {
  }

  lemma {:induction false} Inverse11()
    ensures forall k | k in {AggregateLevel, AggregateScore, AggregateExplanation, StaleData, PartialData,
                          Warnings} ::
              KeyOf(MemberName(k)) == k
  {
  }

  lemma {:induction false} Inverse12()
    ensures forall k | k in {ProviderHealth, Domains, Events, Count, Dropped, Frames} ::
              KeyOf(MemberName(k)) == k
  {
  }

  lemma {:induction false} Inverse13()
    ensures forall k | k in {Observations} ::
              KeyOf(MemberName(k)) == k
  {
  }

  lemma {:induction false} HasInverse(k: Key)
    ensures KeyOf(MemberName(k)) == k
  {
    hide MemberName, KeyOf;
    Inverse1(); Inverse2(); Inverse3(); Inverse4(); Inverse5(); Inverse6(); Inverse7();
    Inverse8(); Inverse9(); Inverse10(); Inverse11(); Inverse12(); Inverse13();
  }

  /** Different members have different names. */
  lemma {:induction false} NamesDiffer()
    ensures forall k, k' :: MemberName(k) == MemberName(k') ==> k == k'
  {
    forall k, k' | MemberName(k) == MemberName(k') ensures k == k' {
      hide MemberName, KeyOf;
      HasInverse(k);
      HasInverse(k');
    }
  }
}
