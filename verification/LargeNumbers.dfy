/** What becomes of numbers above 2^53: which documents are refused for them, and what the others are read as. */
module LargeNumbers {
  import opened Options
  import opened Numbers
  import opened Policy
  import opened Trend
  import opened Domain
  import opened JsonValue
  import opened EnumText
  import opened Hex
  import opened Documents
  import opened SnapshotDocuments
  import opened TraceDocuments
  import opened RefreshFacts
  import Keys

  predicate Is64(n: nat) {
    n < TWO64
  }

  predicate Is64IfAny(n: Option<nat>) {
    n.Some? ==> Is64(n.value)
  }

  /** A number the writer gave that the reader refuses. */
  predicate TooLarge(n: nat) {
    n > TWO53 + 1
  }

  predicate TooLargeIfAny(n: Option<nat>) {
    n.Some? && TooLarge(n.value)
  }

  /** A refused number becomes 0 where the reader has a default. */
  function Defaulted(n: nat): nat {
    AsRead(n).GetOr(0)
  }

  function OptionalAsRead(n: Option<nat>): Option<nat> {
    if n.Some? then AsRead(n.value) else None
  }

  // ---- single members ----

  lemma {:induction false} UintReadAs(m: Members, k: Keys.Key, n: nat, conv: Conversion)
    requires conv.Faithful() && Is64(n) && k in m && m[k] == OfUint(n, conv)
    ensures UintAt(Record(m), k) == Defaulted(n)
    ensures RequiredUint(Record(m), k) == AsRead(n)
  {
    hide Record, At, OfUint, Json.AsUint64, AsRead;
    RecordAt(m, k);
    UintIsReadAs(n, conv);
  }

  lemma {:induction false} OptionalReadAs(m: Members, k: Keys.Key, n: Option<nat>, conv: Conversion)
    requires conv.Faithful() && Is64IfAny(n) && (k in m <==> n.Some?) && (n.Some? ==> m[k] == OfUint(n.value, conv))
    ensures (match At(Record(m), k) { case Some(v) => v.AsUint64() case None => None }) == OptionalAsRead(n)
    ensures OptionalUint(Record(m), k) == if TooLargeIfAny(n) then None else Some(OptionalAsRead(n))
  {
    hide Record, At, OfUint, Json.AsUint64;
    RecordAt(m, k);
    if n.Some? { UintIsReadAs(n.value, conv); }
  }

  // ---- budgets ----

  predicate Is64Budget(b: Budget) {
    && Is64(b.hardCapacity) && Is64IfAny(b.softCapacity)
       && (forall i | 0 <= i < |b.reserves| :: Is64(b.reserves[i].bytes))
    && Is64(b.emergencyReserveBytes) && Is64(b.minimumFreeReserve)
    && Is64(b.reclaimTarget) && Is64(b.demotionTarget) && Is64(b.admissionHeadroom) && Is64(b.version)
  }

  function ReservesAsRead(rs: seq<Reserve>): (out: seq<Reserve>)
    ensures |out| == |rs| && forall i | 0 <= i < |rs| :: out[i] == rs[i].(bytes := Defaulted(rs[i].bytes))
  {
    seq(|rs|, i requires 0 <= i < |rs| => rs[i].(bytes := Defaulted(rs[i].bytes)))
  }

  function BudgetAsRead(b: Budget): Budget {
    Budget(
      Defaulted(b.hardCapacity), OptionalAsRead(b.softCapacity), ReservesAsRead(b.reserves),
      Defaulted(b.emergencyReserveBytes), Defaulted(b.minimumFreeReserve), Defaulted(b.reclaimTarget),
      Defaulted(b.demotionTarget), Defaulted(b.admissionHeadroom), b.owner, Defaulted(b.version))
  }

  lemma {:induction false} ReserveReadAs(r: Reserve, conv: Conversion)
    requires conv.Faithful() && Is64(r.bytes)
    ensures ReserveFromJson(ReserveToJson(r, conv)) == r.(bytes := Defaulted(r.bytes))
  {
    hide KindOf, KindText, Record, At, TextAt, UintAt, OfUint, AsRead;
    var m := ReserveRecord(r, conv);
    TextRead(m, Keys.Kind, KindText(r.kind));
    TextRead(m, Keys.Name, r.name);
    KindReadsBack(r.kind);
    UintReadAs(m, Keys.Bytes, r.bytes, conv);
  }

  lemma {:induction false} ReservesReadAs(rs: seq<Reserve>, conv: Conversion)
    requires conv.Faithful() && forall i | 0 <= i < |rs| :: Is64(rs[i].bytes)
    ensures ReservesFromJson(ReservesToJson(rs, conv)) == ReservesAsRead(rs)
  {
    hide ReserveFromJson, ReserveToJson, Defaulted;
    forall i | 0 <= i < |rs|
      ensures ReserveFromJson(ReserveToJson(rs[i], conv)) == rs[i].(bytes := Defaulted(rs[i].bytes)) {
      ReserveReadAs(rs[i], conv);
    }
  }

  lemma {:induction false} BudgetMembersReadAs(b: Budget, conv: Conversion)
    requires conv.Faithful() && Is64Budget(b)
    ensures BudgetMembers(BudgetToJson(b, conv), Defaulted(b.hardCapacity)) == BudgetAsRead(b)
  {
    hide Record, At, OfUint, UintAt, TextAt, ItemsAt, RequiredUint, Defaulted, OptionalAsRead, ReservesAsRead, Is64;
    var m := BudgetRecord(b, conv);
    OptionalReadAs(m, Keys.SoftCapacity, b.softCapacity, conv);
    ItemsRead(m, Keys.Reserves, ReservesToJson(b.reserves, conv));
    ReservesReadAs(b.reserves, conv);
    UintReadAs(m, Keys.EmergencyReserveBytes, b.emergencyReserveBytes, conv);
    UintReadAs(m, Keys.MinimumFreeReserve, b.minimumFreeReserve, conv);
    UintReadAs(m, Keys.ReclaimTarget, b.reclaimTarget, conv);
    UintReadAs(m, Keys.DemotionTarget, b.demotionTarget, conv);
    UintReadAs(m, Keys.AdmissionHeadroom, b.admissionHeadroom, conv);
    TextRead(m, Keys.Owner, b.owner);
    UintReadAs(m, Keys.Version, b.version, conv);
  }

  /** A written budget is refused exactly when its hard capacity is too large, or it is invalid after its other
      large numbers became 0 and a large soft capacity disappeared; otherwise that is what it is read as. */
  lemma {:induction false} BudgetIsReadAs(b: Budget, conv: Conversion)
    requires conv.Faithful() && Is64Budget(b)
    ensures BudgetFromJson(BudgetToJson(b, conv))
            == if TooLarge(b.hardCapacity) || !BudgetOk(BudgetAsRead(b)) then None else Some(BudgetAsRead(b))
  {
    hide Record, At, OfUint, BudgetMembers, BudgetOk, Json.AsUint64, BudgetAsRead;
    var m := BudgetRecord(b, conv);
    RecordAt(m, Keys.HardCapacity);
    assert m[Keys.HardCapacity] == OfUint(b.hardCapacity, conv);
    UintIsReadAs(b.hardCapacity, conv);
    BudgetMembersReadAs(b, conv);
  }

  // ---- observations ----

  predicate Is64Observation(o: DomainObservation) {
    && Is64(o.totalCapacity) && Is64(o.committed) && Is64(o.resident) && Is64(o.unavailable)
    && Is64(o.available) && Is64(o.observedAtMs)
    && Is64IfAny(o.reclaimable) && Is64IfAny(o.usableCapacity) && Is64IfAny(o.reserved)
  }

  /** One of the numbers that an observation is read without a default for is too large. */
  predicate HasTooLarge(o: DomainObservation) {
    || TooLarge(o.totalCapacity) || TooLarge(o.committed) || TooLarge(o.resident) || TooLarge(o.unavailable)
    || TooLarge(o.available) || TooLarge(o.observedAtMs)
    || TooLargeIfAny(o.reclaimable) || TooLargeIfAny(o.usableCapacity) || TooLargeIfAny(o.reserved)
  }

  /** A written observation is refused exactly when one of its numbers is too large. */
  lemma {:induction false} ObservationRefusedIff(o: DomainObservation, conv: Conversion)
    requires conv.Faithful() && Is64Observation(o)
    ensures ObservationFromJson(ObservationToJson(o, conv)).None? <==> HasTooLarge(o)
  {
    hide Record, OfUint, OfInt, OfReal, ToHex, RequiredUint, OptionalUint, IdAt, UintAt, TextAt, RealAt, Int32At,
         TypeAt, ConfidenceAt, ProvenanceAt, ValidityAt, TypeText, ConfidenceText, ProvenanceText, ValidityText, At,
         Is64, Conversion.Faithful;
    var m := ObservationRecord(o, conv);
    ObservationIdRead(o, conv);
    UintReadAs(m, Keys.TotalCapacity, o.totalCapacity, conv);
    UintReadAs(m, Keys.Committed, o.committed, conv);
    UintReadAs(m, Keys.Resident, o.resident, conv);
    UintReadAs(m, Keys.Unavailable, o.unavailable, conv);
    UintReadAs(m, Keys.Available, o.available, conv);
    UintReadAs(m, Keys.ObservedAtMs, o.observedAtMs, conv);
    OptionalReadAs(m, Keys.Reclaimable, o.reclaimable, conv);
    OptionalReadAs(m, Keys.UsableCapacity, o.usableCapacity, conv);
    OptionalReadAs(m, Keys.Reserved, o.reserved, conv);
  }

  // ---- domain states ----

  predicate Is64State(d: DomainState) {
    && Is64(d.totalCapacity) && Is64(d.usableCapacity) && Is64(d.reservedBytes) && Is64(d.committed)
    && Is64(d.resident) && Is64(d.available) && Is64(d.reclaimable) && Is64(d.levelHoldObservations)
    && Is64(d.trendWindowSamples) && Is64(d.timestampMs) && Is64(d.enteredLevelAtMs) && Is64(d.peakLevel)
    && Is64Budget(d.budget)
  }

  /** A refused budget becomes the default one. */
  function StateAsRead(d: DomainState): DomainState {
    var b := if TooLarge(d.budget.hardCapacity) || !BudgetOk(BudgetAsRead(d.budget)) then DEFAULT_BUDGET
        else BudgetAsRead(d.budget);
    d.(budget := b,
       totalCapacity := Defaulted(d.totalCapacity), usableCapacity := Defaulted(d.usableCapacity),
       reservedBytes := Defaulted(d.reservedBytes), committed := Defaulted(d.committed),
       resident := Defaulted(d.resident), available := Defaulted(d.available),
       reclaimable := Defaulted(d.reclaimable), levelHoldObservations := Defaulted(d.levelHoldObservations),
       trendWindowSamples := Defaulted(d.trendWindowSamples), timestampMs := Defaulted(d.timestampMs),
       enteredLevelAtMs := Defaulted(d.enteredLevelAtMs), peakLevel := Defaulted(d.peakLevel))
  }

  ghost predicate NumbersReadAs(j: Json, d: DomainState) {
    && UintAt(j, Keys.TotalCapacity) == Defaulted(d.totalCapacity)
    && UintAt(j, Keys.UsableCapacity) == Defaulted(d.usableCapacity)
    && UintAt(j, Keys.ReservedBytes) == Defaulted(d.reservedBytes) && UintAt(j, Keys.Committed)
       == Defaulted(d.committed)
    && UintAt(j, Keys.Resident) == Defaulted(d.resident) && UintAt(j, Keys.Available) == Defaulted(d.available)
    && UintAt(j, Keys.Reclaimable) == Defaulted(d.reclaimable)
    && UintAt(j, Keys.LevelHoldObservations) == Defaulted(d.levelHoldObservations)
    && UintAt(j, Keys.TrendWindowSamples) == Defaulted(d.trendWindowSamples)
    && UintAt(j, Keys.TimestampMs) == Defaulted(d.timestampMs)
    && UintAt(j, Keys.EnteredLevelAtMs) == Defaulted(d.enteredLevelAtMs)
    && UintAt(j, Keys.PeakLevel) == Defaulted(d.peakLevel)
  }

  lemma {:induction false} StateNumbersReadAs(d: DomainState, conv: Conversion)
    requires conv.Faithful() && Is64State(d)
    ensures NumbersReadAs(StateToJson(d, conv), d)
  {
    hide Record, UintAt, RequiredUint, OfReal, OfUint, ToHex, BudgetToJson, TypeText, ConfidenceText,
         ProvenanceText, ValidityText, LevelText, TrendText, ActionsToJson, Is64, Is64Budget, AsRead, Defaulted,
         Conversion.Faithful;
    var m := StateRecord(d, conv);
    UintReadAs(m, Keys.TotalCapacity, d.totalCapacity, conv);
    UintReadAs(m, Keys.UsableCapacity, d.usableCapacity, conv);
    UintReadAs(m, Keys.ReservedBytes, d.reservedBytes, conv);
    UintReadAs(m, Keys.Committed, d.committed, conv);
    UintReadAs(m, Keys.Resident, d.resident, conv);
    UintReadAs(m, Keys.Available, d.available, conv);
    UintReadAs(m, Keys.Reclaimable, d.reclaimable, conv);
    UintReadAs(m, Keys.LevelHoldObservations, d.levelHoldObservations, conv);
    UintReadAs(m, Keys.TrendWindowSamples, d.trendWindowSamples, conv);
    UintReadAs(m, Keys.TimestampMs, d.timestampMs, conv);
    UintReadAs(m, Keys.EnteredLevelAtMs, d.enteredLevelAtMs, conv);
    UintReadAs(m, Keys.PeakLevel, d.peakLevel, conv);
  }

  lemma {:induction false} BudgetMemberReadAs(m: Members, b: Budget, conv: Conversion)
    requires conv.Faithful() && Is64Budget(b) && Keys.Budget in m && m[Keys.Budget] == BudgetToJson(b, conv)
    ensures BudgetAt(Record(m), Keys.Budget)
            == if TooLarge(b.hardCapacity) || !BudgetOk(BudgetAsRead(b)) then DEFAULT_BUDGET else BudgetAsRead(b)
  {
    hide Record, At, BudgetToJson, BudgetFromJson, BudgetOk, BudgetAsRead, Is64Budget;
    RecordAt(m, Keys.Budget);
    BudgetIsReadAs(b, conv);
  }

  /** A written domain state is never refused on account of a number: large ones are read as 0. */
  lemma {:induction false} StateIsReadAs(d: DomainState, conv: Conversion)
    requires conv.Faithful() && Is64State(d)
    ensures StateFromJson(StateToJson(d, conv)) == Some(StateAsRead(d))
  {
    hide Record, At, UintAt, RealAt, TextAt, BoolAt, BudgetAt, ItemsAt, IdAt, TypeAt, LevelAt, TrendAt,
         ConfidenceAt, ProvenanceAt, ValidityAt, OfReal, OfUint, ToHex, BudgetToJson, TypeText, ConfidenceText,
         ProvenanceText, ValidityText, LevelText, TrendText, ActionsToJson, ActionsFromJson, BudgetOk, BudgetAsRead,
         Is64, Is64Budget, Defaulted;
    var m := StateRecord(d, conv);
    IdRead(m, d.id);
    StateKinds(d, conv);
    StateLevels(d, conv);
    StateTexts(d, conv);
    StateReals(d, conv);
    StateNumbersReadAs(d, conv);
    BudgetMemberReadAs(m, d.budget, conv);
    ItemsRead(m, Keys.Responses, ActionsToJson(d.responses));
    ActionsReadBack(d.responses, |d.responses|);
    ActionsLength(d.responses);
  }

  /** For instance a capacity of 2^54 bytes is not refused but read as none. */
  lemma {:induction false} LargeCapacityIsReadAsNone(d: DomainState, conv: Conversion)
    requires conv.Faithful() && Is64State(d) && d.totalCapacity == 2 * TWO53
    ensures var r := StateFromJson(StateToJson(d, conv)); r.Some? && r.value.totalCapacity == 0
  {
    hide BudgetAsRead, BudgetOk, StateFromJson, StateToJson;
    StateIsReadAs(d, conv);
  }

  // ---- snapshots and traces ----

  lemma {:induction false} StatesRefusedIff(ds: seq<DomainState>, k: nat, conv: Conversion)
    requires k <= |ds|
    ensures StatesFromJson(StatesToJson(ds, conv), k).None? <==> !DistinctIds(ds[..k])
    ensures var r := StatesFromJson(StatesToJson(ds, conv), k);
            r.Some? ==> |r.value| == k && forall i | 0 <= i < k :: r.value[i].id == ds[i].id
  {
    hide DistinctIds, StateToJson, StateFromJson, FindIn;
    if k == 0 {
      NoneRepeated(ds);
    } else {
      StatesRefusedIff(ds, k - 1, conv);
      StateIdSurvives(ds[k - 1], conv);
      DistinctExtends(ds, k);
      var before := StatesFromJson(StatesToJson(ds, conv), k - 1);
      if before.Some? { SameIdsFound(before.value, ds[..k - 1], ds[k - 1].id); }
    }
  }

  lemma {:induction false} SameIdsFound(a: seq<DomainState>, b: seq<DomainState>, id: DomainId)
    requires |a| == |b| && forall i | 0 <= i < |a| :: a[i].id == b[i].id
    ensures FindIn(a, id).Some? <==> FindIn(b, id).Some?
    decreases |a|
  {
    if a == [] {
    } else {
      SameIdsFound(a[1..], b[1..], id);
    }
  }

  /** A written snapshot is refused exactly when two of its domains share an id, whatever its numbers. */
  lemma {:induction false} SnapshotRefusedIff(s: Snapshot, conv: Conversion)
    requires conv.Faithful()
    ensures SnapshotFromJson(SnapshotToJson(s, conv)).None? <==> !DistinctIds(s.domains)
  {
    hide SnapshotToJson, SnapshotMembers, StatesFromJson, StatesToJson, ItemsAt, HasSchema, DistinctIds;
    SnapshotWords(s, conv);
    SnapshotNumbersIff(s, conv);
    StatesRefusedIff(s.domains, |s.domains|, conv);
    StatesLength(s.domains, conv);
  }

  ghost predicate Is64Frames(fs: seq<TraceFrame>) {
    forall f | f in fs :: forall o | o in f.observations :: Is64Observation(o)
  }

  predicate AnyTooLarge(os: seq<DomainObservation>, k: nat)
    requires k <= |os|
  {
    exists i :: 0 <= i < k && HasTooLarge(os[i])
  }

  lemma {:induction false} ObservationsRefusedIff(os: seq<DomainObservation>, k: nat, conv: Conversion)
    requires conv.Faithful() && k <= |os| && forall o | o in os :: Is64Observation(o)
    ensures ObservationsFromJson(ObservationsToJson(os, conv), k).None? <==> AnyTooLarge(os, k)
  {
    hide ObservationToJson, ObservationFromJson, HasTooLarge, Is64Observation;
    if k == 0 {
    } else {
      ObservationsRefusedIff(os, k - 1, conv);
      assert os[k - 1] in os;
      ObservationRefusedIff(os[k - 1], conv);
    }
  }

  lemma {:induction false} FrameRefusedIff(f: TraceFrame, conv: Conversion)
    requires conv.Faithful() && forall o | o in f.observations :: Is64Observation(o)
    ensures FrameFromJson(Record(FrameRecord(f, conv))).None? <==> AnyTooLarge(f.observations, |f.observations|)
  {
    hide Record, At, ItemsAt, UintAt, HealthAt, OfUint, HealthToJson, ObservationsToJson, ObservationsFromJson,
         AnyTooLarge;
    ItemsRead(FrameRecord(f, conv), Keys.Observations, ObservationsToJson(f.observations, conv));
    ObservationsRefusedIff(f.observations, |f.observations|, conv);
    ObservationsLength(f.observations, conv);
  }

  predicate AnyFrameTooLarge(fs: seq<TraceFrame>, k: nat)
    requires k <= |fs|
  {
    exists i :: 0 <= i < k && AnyTooLarge(fs[i].observations, |fs[i].observations|)
  }

  lemma {:induction false} FramesRefusedIff(fs: seq<TraceFrame>, k: nat, conv: Conversion)
    requires conv.Faithful() && k <= |fs| && Is64Frames(fs)
    ensures FramesFromJson(FramesToJson(fs, conv), k).None? <==> AnyFrameTooLarge(fs, k)
  {
    hide Record, FrameRecord, FrameFromJson, AnyTooLarge, Is64Observation;
    if k == 0 {
    } else {
      FramesRefusedIff(fs, k - 1, conv);
      assert fs[k - 1] in fs;
      FrameRefusedIff(fs[k - 1], conv);
    }
  }

  /** A written trace is refused exactly when one of its observations is. */
  lemma {:induction false} TraceRefusedIff(t: PressureTrace, conv: Conversion)
    requires conv.Faithful() && Is64Frames(t.frames)
    ensures TraceFromJson(TraceToJson(t, conv)).None? <==> AnyFrameTooLarge(t.frames, |t.frames|)
  {
    hide Record, At, OfUint, OfInt, FramesToJson, FramesFromJson, HasSchema, VersionAt, AnyFrameTooLarge, Is64Frames;
    var m := TraceRecord(t, conv);
    SchemaRead(m, conv);
    RecordAt(m, Keys.Frames);
    FramesRefusedIff(t.frames, |t.frames|, conv);
    FramesLength(t.frames, conv);
  }
}
