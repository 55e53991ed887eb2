/** Budgets, observations, domain states, snapshots and traces as JSON documents, and back. */
module Documents {
  import opened Options
  import opened Numbers
  import opened Policy
  import opened Trend
  import opened Domain
  import opened JsonValue
  import opened EnumText
  import opened Hex
  import Keys

  // ---- members ----

  type Members = map<Keys.Key, Json>

  /** An object with the given members. */
  function Record(m: Members): Json {
    Keys.NamesDiffer();
    Object(map k | k in m :: Keys.MemberName(k) := m[k])
  }

  function At(j: Json, k: Keys.Key): Option<Json> {
    j.Find(Keys.MemberName(k))
  }

  lemma {:induction false} RecordAt(m: Members, k: Keys.Key)
    ensures At(Record(m), k) == if k in m then Some(m[k]) else None
  {
    hide Keys.MemberName;
    Keys.NamesDiffer();
  }

  /** `Json(std::int64_t)`: the nearest double. */
  function OfInt(n: int, conv: Conversion): Json {
    Number(conv.nearest(n as real))
  }

  /** An unsigned number goes through `static_cast<std::int64_t>`. */
  function OfUint(n: nat, conv: Conversion): Json {
    OfInt(ToInt64(n), conv)
  }

  function OfReal(r: real): Json {
    Number(Finite(r))
  }

  function UintAt(j: Json, k: Keys.Key): nat {
    match At(j, k)
    case Some(v) => v.AsUint64().GetOr(0)
    case None => 0
  }

  function TextAt(j: Json, k: Keys.Key): string {
    match At(j, k)
    case Some(v) => v.AsString().GetOr("")
    case None => ""
  }

  function BoolAt(j: Json, k: Keys.Key): bool {
    match At(j, k)
    case Some(v) => v.AsBool().GetOr(false)
    case None => false
  }

  /** Readers are modelled on finite numbers: the parser lets no other through by default. */
  function RealAt(j: Json, k: Keys.Key): real {
    match At(j, k)
    case Some(v) => if v.Number? && v.num.Finite? then v.num.value else 0.0
    case None => 0.0
  }

  function ItemsAt(j: Json, k: Keys.Key): seq<Json> {
    match At(j, k)
    case Some(Array(items)) => items
    case _ => []
  }

  /** Unsigned numbers survive exactly up to 2^53. */
  lemma {:induction false} UintReadsBackIff(n: nat, conv: Conversion)
    requires conv.Faithful()
    ensures OfUint(n, conv).AsUint64() == Some(n) <==> n <= TWO53
    ensures OfUint(n, conv).AsUint64().GetOr(0) == n <==> n <= TWO53
  {
    if n <= TWO53 {
      assert ToInt64(n) == n;
      IntegerIsDouble(conv, n);
    }
  }

  /** What an unsigned number is read as: itself up to 2^53, and nothing beyond, but for one number in between
      that rounds to 2^53. */
  function AsRead(n: nat): Option<nat> {
    if n <= TWO53 then Some(n) else if n == TWO53 + 1 then Some(TWO53) else None
  }

  /** Any 64-bit number is read so; it is refused exactly when it is greater than 2^53 + 1. */
  lemma {:induction false} UintIsReadAs(n: nat, conv: Conversion)
    requires conv.Faithful() && n < TWO64
    ensures OfUint(n, conv).AsUint64() == AsRead(n)
    ensures OfUint(n, conv).AsUint64().None? <==> n > TWO53 + 1
  {
    hide Conversion.Faithful;
    if n <= TWO53 {
      IntegerIsDouble(conv, n);
    } else if n == TWO53 + 1 {
      AboveTwo53MayBeMisread(conv);
    } else if n < TWO63 {
      LargeStaysLarge(n, conv);
    } else {
      WrappedStaysNegative(n - TWO64, conv);
    }
  }

  lemma {:induction false} LargeStaysLarge(n: nat, conv: Conversion)
    requires conv.Faithful() && TWO53 + 2 <= n < TWO63
    ensures conv.nearest(n as real).Finite? && conv.nearest(n as real).value >= (TWO53 + 2) as real
  {
    TenBits();
    ScaledIsDouble(conv, TWO53 + 2, TWO53 / 2 + 1, 1);
    NearestOrder(conv, (TWO53 + 2) as real, n as real);
  }

  lemma {:induction false} WrappedStaysNegative(n: int, conv: Conversion)
    requires conv.Faithful() && -TWO63 <= n < 0
    ensures conv.nearest(n as real).Finite? && conv.nearest(n as real).value <= -1.0
  {
    IntegerIsDouble(conv, -1);
    NearestOrder(conv, n as real, -1.0);
  }

  /** A number above 2^53 need not be refused. */
  lemma {:induction false} AboveTwo53MayBeMisread(conv: Conversion)
    requires conv.Faithful()
    ensures OfUint(TWO53 + 1, conv).AsUint64() == Some(TWO53)
  {
    assert ToInt64(TWO53 + 1) == TWO53 + 1;
  }

  lemma {:induction false} LastIff<T>(a: seq<T>, x: T, b: seq<T>, y: T)
    ensures a + [x] == b + [y] <==> a == b && x == y
  {
    if a + [x] == b + [y] {
      assert |a| == |b|;
      assert a == (a + [x])[..|a|] && b == (b + [y])[..|b|];
      assert x == (a + [x])[|a|] && y == (b + [y])[|b|];
    }
  }

  // ---- budgets ----

  function ReserveToJson(r: Reserve, conv: Conversion): Json {
    Record(ReserveRecord(r, conv))
  }

  function ReserveRecord(r: Reserve, conv: Conversion): Members {
    map[Keys.Kind := String(KindText(r.kind)), Keys.Name := String(r.name), Keys.Bytes := OfUint(r.bytes, conv)]
  }

  function BudgetToJson(b: Budget, conv: Conversion): Json {
    Record(BudgetRecord(b, conv))
  }

  function BudgetRecord(b: Budget, conv: Conversion): Members {
    var m := map[Keys.Version := OfUint(b.version, conv), Keys.HardCapacity := OfUint(b.hardCapacity, conv)];
    var m := if b.softCapacity.Some? then m[Keys.SoftCapacity := OfUint(b.softCapacity.value, conv)] else m;
    var m := m[Keys.EmergencyReserveBytes := OfUint(b.emergencyReserveBytes, conv)];
    var m := m[Keys.MinimumFreeReserve := OfUint(b.minimumFreeReserve, conv)];
    var m := m[Keys.ReclaimTarget := OfUint(b.reclaimTarget, conv)];
    var m := m[Keys.DemotionTarget := OfUint(b.demotionTarget, conv)];
    var m := m[Keys.AdmissionHeadroom := OfUint(b.admissionHeadroom, conv)];
    var m := m[Keys.Owner := String(b.owner)];
    m[Keys.Reserves := Array(ReservesToJson(b.reserves, conv))]
  }

  function ReservesToJson(rs: seq<Reserve>, conv: Conversion): (js: seq<Json>)
    ensures |js| == |rs| && forall i | 0 <= i < |rs| :: js[i] == ReserveToJson(rs[i], conv)
  {
    seq(|rs|, i requires 0 <= i < |rs| => ReserveToJson(rs[i], conv))
  }

  function ReserveFromJson(j: Json): Reserve {
    Reserve(KindOf(TextAt(j, Keys.Kind)).GetOr(CustomReserve), TextAt(j, Keys.Name), UintAt(j, Keys.Bytes))
  }

  function ReservesFromJson(js: seq<Json>): (rs: seq<Reserve>)
    ensures |rs| == |js| && forall i | 0 <= i < |js| :: rs[i] == ReserveFromJson(js[i])
  {
    seq(|js|, i requires 0 <= i < |js| => ReserveFromJson(js[i]))
  }

  /** The members of a budget, before it is validated. */
  function BudgetMembers(j: Json, hardCapacity: nat): Budget {
    Budget(
      hardCapacity,
      match At(j, Keys.SoftCapacity) { case Some(v) => v.AsUint64() case None => None },
      ReservesFromJson(ItemsAt(j, Keys.Reserves)),
      UintAt(j, Keys.EmergencyReserveBytes),
      UintAt(j, Keys.MinimumFreeReserve),
      UintAt(j, Keys.ReclaimTarget),
      UintAt(j, Keys.DemotionTarget),
      UintAt(j, Keys.AdmissionHeadroom),
      TextAt(j, Keys.Owner),
      UintAt(j, Keys.Version))
  }

  function BudgetFromJson(j: Json): Option<Budget> {
    match At(j, Keys.HardCapacity)
    case None => None
    case Some(v) =>
      match v.AsUint64()
      case None => None
      case Some(hard) =>
        var b := BudgetMembers(j, hard);
        if BudgetOk(b) then Some(b) else None
  }

  predicate Small(n: nat) {
    n <= TWO53
  }

  predicate SmallIfAny(n: Option<nat>) {
    n.Some? ==> Small(n.value)
  }

  predicate SmallReserves(rs: seq<Reserve>) {
    forall i | 0 <= i < |rs| :: Small(rs[i].bytes)
  }

  predicate SmallBudget(b: Budget) {
    && Small(b.hardCapacity) && SmallIfAny(b.softCapacity) && SmallReserves(b.reserves)
    && Small(b.emergencyReserveBytes) && Small(b.minimumFreeReserve)
    && Small(b.reclaimTarget) && Small(b.demotionTarget) && Small(b.admissionHeadroom)
    && Small(b.version)
  }

  lemma {:induction false} ReserveReadsBackIff(r: Reserve, conv: Conversion)
    requires conv.Faithful()
    ensures ReserveFromJson(ReserveToJson(r, conv)) == r <==> Small(r.bytes)
  {
    hide KindOf, KindText, Record, At;
    var m := ReserveRecord(r, conv);
    RecordAt(m, Keys.Kind);
    RecordAt(m, Keys.Name);
    RecordAt(m, Keys.Bytes);
    KindReadsBack(r.kind);
    UintReadsBackIff(r.bytes, conv);
  }

  lemma {:induction false} ReservesReadBackIff(rs: seq<Reserve>, conv: Conversion)
    requires conv.Faithful()
    ensures ReservesFromJson(ReservesToJson(rs, conv)) == rs <==> SmallReserves(rs)
  {
    hide ReserveFromJson, ReserveToJson;
    var back := ReservesFromJson(ReservesToJson(rs, conv));
    forall i | 0 <= i < |rs| ensures back[i] == rs[i] <==> Small(rs[i].bytes) {
      ReserveReadsBackIff(rs[i], conv);
    }
  }

  // ---- reading single members back ----

  lemma {:induction false} UintRead(m: Members, k: Keys.Key, n: nat, conv: Conversion)
    requires conv.Faithful() && k in m && m[k] == OfUint(n, conv)
    ensures UintAt(Record(m), k) == n <==> Small(n)
  {
    hide Record, At, OfUint, Json.AsUint64;
    RecordAt(m, k);
    UintReadsBackIff(n, conv);
  }

  lemma {:induction false} TextRead(m: Members, k: Keys.Key, s: string)
    requires k in m && m[k] == String(s)
    ensures TextAt(Record(m), k) == s
  {
    hide Record, At;
    RecordAt(m, k);
  }

  lemma {:induction false} ItemsRead(m: Members, k: Keys.Key, items: seq<Json>)
    requires k in m && m[k] == Array(items)
    ensures ItemsAt(Record(m), k) == items
  {
    hide Record, At;
    RecordAt(m, k);
  }

  lemma {:induction false} OptionalRead(m: Members, k: Keys.Key, n: Option<nat>, conv: Conversion)
    requires conv.Faithful() && (k in m <==> n.Some?) && (n.Some? ==> m[k] == OfUint(n.value, conv))
    ensures (match At(Record(m), k) { case Some(v) => v.AsUint64() case None => None }) == n <==> SmallIfAny(n)
  {
    hide Record, At, OfUint, Json.AsUint64;
    RecordAt(m, k);
    if n.Some? { UintReadsBackIff(n.value, conv); }
  }

  // ---- budgets survive ----

  lemma {:induction false} BudgetMembersReadBackIff(b: Budget, conv: Conversion)
    requires conv.Faithful()
    ensures BudgetMembers(BudgetToJson(b, conv), b.hardCapacity) == b <==> SmallBudget(b.(hardCapacity := 0))
  {
    hide Record, At, OfUint, UintAt, TextAt, ItemsAt, SmallReserves;
    var m := BudgetRecord(b, conv);
    OptionalRead(m, Keys.SoftCapacity, b.softCapacity, conv);
    ItemsRead(m, Keys.Reserves, ReservesToJson(b.reserves, conv));
    ReservesReadBackIff(b.reserves, conv);
    UintRead(m, Keys.EmergencyReserveBytes, b.emergencyReserveBytes, conv);
    UintRead(m, Keys.MinimumFreeReserve, b.minimumFreeReserve, conv);
    UintRead(m, Keys.ReclaimTarget, b.reclaimTarget, conv);
    UintRead(m, Keys.DemotionTarget, b.demotionTarget, conv);
    UintRead(m, Keys.AdmissionHeadroom, b.admissionHeadroom, conv);
    TextRead(m, Keys.Owner, b.owner);
    UintRead(m, Keys.Version, b.version, conv);
  }

  /** A budget survives exactly when it is valid and no number in it exceeds 2^53. */
  lemma {:induction false} BudgetReadsBackIff(b: Budget, conv: Conversion)
    requires conv.Faithful()
    ensures BudgetFromJson(BudgetToJson(b, conv)) == Some(b) <==> SmallBudget(b) && BudgetOk(b)
  {
    hide Record, At, OfUint, BudgetMembers, BudgetOk, SmallReserves, Json.AsUint64;
    var m := BudgetRecord(b, conv);
    RecordAt(m, Keys.HardCapacity);
    assert m[Keys.HardCapacity] == OfUint(b.hardCapacity, conv);
    UintReadsBackIff(b.hardCapacity, conv);
    BudgetMembersReadBackIff(b, conv);
    HardCapacityRead(BudgetToJson(b, conv));
  }

  lemma {:induction false} HardCapacityRead(j: Json)
    ensures var b := BudgetFromJson(j);
            b.Some? ==>
              At(j, Keys.HardCapacity).Some?
              && At(j, Keys.HardCapacity).value.AsUint64() == Some(b.value.hardCapacity)
  {
    hide At, BudgetOk, Json.AsUint64;
  }

  // ---- observations ----

  function IdAt(j: Json, k: Keys.Key): Option<DomainId> {
    match At(j, k)
    case Some(String(s)) => FromHex(s)
    case _ => None
  }

  /** A number that may be missing but not malformed. */
  function RequiredUint(j: Json, k: Keys.Key): Option<nat> {
    match At(j, k)
    case Some(v) => v.AsUint64()
    case None => Some(0)
  }

  function OptionalUint(j: Json, k: Keys.Key): Option<Option<nat>> {
    match At(j, k)
    case Some(v) => (match v.AsUint64() { case Some(n) => Some(Some(n)) case None => None })
    case None => Some(None)
  }

  const TWO31: int := 0x8000_0000
  const TWO32: int := 0x1_0000_0000

  /** `static_cast<int>` of a 64-bit integer. */
  function ToInt32(n: int): (r: int)
    ensures -TWO31 <= r < TWO31 && (-TWO31 <= n < TWO31 ==> r == n)
  {
    (n + TWO31) % TWO32 - TWO31
  }

  function Int32At(j: Json, k: Keys.Key): int {
    match At(j, k)
    case Some(v) => ToInt32(v.AsInt64().GetOr(0))
    case None => 0
  }

  function ObservationRecord(o: DomainObservation, conv: Conversion): Members {
    var m := map[Keys.Id := String(ToHex(o.id)), Keys.Type := String(TypeText(o.domainType))];
    var m := m[Keys.Provider := String(o.provider)];
    var m := m[Keys.NativeResourceId := String(o.nativeResourceId)];
    var m := m[Keys.TotalCapacity := OfUint(o.totalCapacity, conv)];
    var m := m[Keys.Committed := OfUint(o.committed, conv)];
    var m := m[Keys.Resident := OfUint(o.resident, conv)];
    var m := if o.reclaimable.Some? then m[Keys.Reclaimable := OfUint(o.reclaimable.value, conv)] else m;
    var m := m[Keys.Unavailable := OfUint(o.unavailable, conv)];
    var m := m[Keys.Available := OfUint(o.available, conv)];
    var m := if o.usableCapacity.Some? then m[Keys.UsableCapacity := OfUint(o.usableCapacity.value, conv)] else m;
    var m := if o.reserved.Some? then m[Keys.Reserved := OfUint(o.reserved.value, conv)] else m;
    var m := m[Keys.Confidence := String(ConfidenceText(o.confidence))];
    var m := m[Keys.Provenance := String(ProvenanceText(o.provenance))];
    var m := m[Keys.Validity := String(ValidityText(o.validity))];
    var m := m[Keys.ObservedAtMs := OfUint(o.observedAtMs, conv)];
    var m := m[Keys.AllocationFailures := OfInt(o.allocationFailures, conv)];
    var m := m[Keys.GrowthBytesPerS := OfReal(o.growthBytesPerS)];
    m[Keys.Detail := String(o.detail)]
  }

  function ObservationToJson(o: DomainObservation, conv: Conversion): Json {
    Record(ObservationRecord(o, conv))
  }

  function TypeAt(j: Json, k: Keys.Key): DomainType {
    TypeOf(TextAt(j, k)).GetOr(UnknownDomain)
  }

  function ConfidenceAt(j: Json, k: Keys.Key): Confidence {
    ConfidenceOf(TextAt(j, k)).GetOr(UnknownConfidence)
  }

  function ProvenanceAt(j: Json, k: Keys.Key): Provenance {
    ProvenanceOf(TextAt(j, k)).GetOr(UnknownProvenance)
  }

  function ValidityAt(j: Json, k: Keys.Key): Validity {
    ValidityOf(TextAt(j, k)).GetOr(Valid)
  }

  function ObservationFromJson(j: Json): Option<DomainObservation> {
    var id := IdAt(j, Keys.Id);
    var total, committed := RequiredUint(j, Keys.TotalCapacity), RequiredUint(j, Keys.Committed);
    var resident, unavailable := RequiredUint(j, Keys.Resident), RequiredUint(j, Keys.Unavailable);
    var available, at := RequiredUint(j, Keys.Available), RequiredUint(j, Keys.ObservedAtMs);
    var reclaimable, usable := OptionalUint(j, Keys.Reclaimable), OptionalUint(j, Keys.UsableCapacity);
    var reserved := OptionalUint(j, Keys.Reserved);
    if id.None? || total.None? || committed.None? || resident.None? || unavailable.None? || available.None? || at.None?
       || reclaimable.None? || usable.None? || reserved.None?
    then None
    else
      Some(DomainObservation(
        id.value, TypeAt(j, Keys.Type), TextAt(j, Keys.Provider), TextAt(j, Keys.NativeResourceId),
        total.value, committed.value, resident.value, reclaimable.value, unavailable.value, available.value,
        usable.value, reserved.value,
        ConfidenceAt(j, Keys.Confidence), ProvenanceAt(j, Keys.Provenance), ValidityAt(j, Keys.Validity),
        at.value, Int32At(j, Keys.AllocationFailures), RealAt(j, Keys.GrowthBytesPerS), TextAt(j, Keys.Detail)))
  }

  predicate SmallObservation(o: DomainObservation) {
    && Small(o.totalCapacity) && Small(o.committed) && Small(o.resident) && Small(o.unavailable)
    && Small(o.available) && Small(o.observedAtMs)
    && SmallIfAny(o.reclaimable) && SmallIfAny(o.usableCapacity) && SmallIfAny(o.reserved)
    && -TWO31 <= o.allocationFailures < TWO31
  }

  lemma {:induction false} IdRead(m: Members, id: DomainId)
    requires Keys.Id in m && m[Keys.Id] == String(ToHex(id))
    ensures IdAt(Record(m), Keys.Id) == Some(id)
  {
    hide Record, At, ToHex, FromHex;
    RecordAt(m, Keys.Id);
    IdReadsBack(id);
  }

  lemma {:induction false} RequiredRead(m: Members, k: Keys.Key, n: nat, conv: Conversion)
    requires conv.Faithful() && k in m && m[k] == OfUint(n, conv)
    ensures RequiredUint(Record(m), k) == Some(n) <==> Small(n)
  {
    hide Record, At, OfUint, Json.AsUint64;
    RecordAt(m, k);
    UintReadsBackIff(n, conv);
  }

  lemma {:induction false} OptionalUintRead(m: Members, k: Keys.Key, n: Option<nat>, conv: Conversion)
    requires conv.Faithful() && (k in m <==> n.Some?) && (n.Some? ==> m[k] == OfUint(n.value, conv))
    ensures OptionalUint(Record(m), k) == Some(n) <==> SmallIfAny(n)
  {
    hide Record, At, OfUint, Json.AsUint64;
    RecordAt(m, k);
    if n.Some? { UintReadsBackIff(n.value, conv); }
  }

  lemma {:induction false} Int32Read(m: Members, k: Keys.Key, n: int, conv: Conversion)
    requires conv.Faithful() && k in m && m[k] == OfInt(n, conv)
    ensures Int32At(Record(m), k) == n <==> -TWO31 <= n < TWO31
  {
    hide Record, At, ToInt32;
    RecordAt(m, k);
    if -TWO31 <= n < TWO31 { SmallIntReadsBack(n, conv); }
  }

  lemma {:induction false} SmallIntReadsBack(n: int, conv: Conversion)
    requires conv.Faithful() && -TWO53 <= n <= TWO53
    ensures OfInt(n, conv).AsInt64() == Some(n)
  {
    hide ToInt64;
    IntegerIsDouble(conv, n);
  }

  lemma {:induction false} RealRead(m: Members, k: Keys.Key, r: real)
    requires k in m && m[k] == OfReal(r)
    ensures RealAt(Record(m), k) == r
  {
    hide Record, At;
    RecordAt(m, k);
  }

  lemma {:induction false} VocabularyRead(o: DomainObservation, conv: Conversion)
    ensures var j := ObservationToJson(o, conv);
            && TypeAt(j, Keys.Type) == o.domainType && ConfidenceAt(j, Keys.Confidence) == o.confidence
            && ProvenanceAt(j, Keys.Provenance) == o.provenance && ValidityAt(j, Keys.Validity) == o.validity
            && TextAt(j, Keys.Provider) == o.provider && TextAt(j, Keys.NativeResourceId) == o.nativeResourceId
            && TextAt(j, Keys.Detail) == o.detail && RealAt(j, Keys.GrowthBytesPerS) == o.growthBytesPerS
  {
    hide Record, TextAt, RealAt, OfUint, OfInt, ToHex, TypeText, TypeOf, ConfidenceText, ConfidenceOf,
         ProvenanceText, ProvenanceOf, ValidityText, ValidityOf;
    var m := ObservationRecord(o, conv);
    TextRead(m, Keys.Type, TypeText(o.domainType));
    TypeReadsBack(o.domainType);
    TextRead(m, Keys.Confidence, ConfidenceText(o.confidence));
    ConfidenceReadsBack(o.confidence);
    TextRead(m, Keys.Provenance, ProvenanceText(o.provenance));
    ProvenanceReadsBack(o.provenance);
    TextRead(m, Keys.Validity, ValidityText(o.validity));
    ValidityReadsBack(o.validity);
    TextRead(m, Keys.Provider, o.provider);
    TextRead(m, Keys.NativeResourceId, o.nativeResourceId);
    TextRead(m, Keys.Detail, o.detail);
    RealRead(m, Keys.GrowthBytesPerS, o.growthBytesPerS);
  }

  /** The numbers of an observation are read as they are. */
  ghost predicate SameObservationNumbers(j: Json, o: DomainObservation) {
    && RequiredUint(j, Keys.TotalCapacity) == Some(o.totalCapacity)
    && RequiredUint(j, Keys.Committed) == Some(o.committed)
    && RequiredUint(j, Keys.Resident) == Some(o.resident)
    && RequiredUint(j, Keys.Unavailable) == Some(o.unavailable)
    && RequiredUint(j, Keys.Available) == Some(o.available)
    && RequiredUint(j, Keys.ObservedAtMs) == Some(o.observedAtMs)
    && OptionalUint(j, Keys.Reclaimable) == Some(o.reclaimable)
    && OptionalUint(j, Keys.UsableCapacity) == Some(o.usableCapacity)
    && OptionalUint(j, Keys.Reserved) == Some(o.reserved)
    && Int32At(j, Keys.AllocationFailures) == o.allocationFailures
  }

  lemma {:induction false} ObservationNumbersIff(o: DomainObservation, conv: Conversion)
    requires conv.Faithful()
    ensures SameObservationNumbers(ObservationToJson(o, conv), o) <==> SmallObservation(o)
  {
    hide Record, OfUint, OfInt, OfReal, ToHex, RequiredUint, OptionalUint, Int32At, TypeText, ConfidenceText,
         ProvenanceText, ValidityText, Small, SmallIfAny;
    var m := ObservationRecord(o, conv);
    RequiredRead(m, Keys.TotalCapacity, o.totalCapacity, conv);
    RequiredRead(m, Keys.Committed, o.committed, conv);
    RequiredRead(m, Keys.Resident, o.resident, conv);
    RequiredRead(m, Keys.Unavailable, o.unavailable, conv);
    RequiredRead(m, Keys.Available, o.available, conv);
    RequiredRead(m, Keys.ObservedAtMs, o.observedAtMs, conv);
    OptionalUintRead(m, Keys.Reclaimable, o.reclaimable, conv);
    OptionalUintRead(m, Keys.UsableCapacity, o.usableCapacity, conv);
    OptionalUintRead(m, Keys.Reserved, o.reserved, conv);
    Int32Read(m, Keys.AllocationFailures, o.allocationFailures, conv);
  }

  lemma {:induction false} ObservationIdRead(o: DomainObservation, conv: Conversion)
    ensures IdAt(ObservationToJson(o, conv), Keys.Id) == Some(o.id)
  {
    hide Record, OfUint, OfInt, OfReal, ToHex, IdAt, TypeText, ConfidenceText, ProvenanceText, ValidityText;
    IdRead(ObservationRecord(o, conv), o.id);
  }

  /** An observation survives exactly when its unsigned numbers are at most 2^53 and its failure count is a
      32-bit integer. */
  lemma {:induction false} ObservationReadsBackIff(o: DomainObservation, conv: Conversion)
    requires conv.Faithful()
    ensures ObservationFromJson(ObservationToJson(o, conv)) == Some(o) <==> SmallObservation(o)
  {
    hide ObservationToJson, TextAt, RealAt, RequiredUint, OptionalUint, Int32At, IdAt, TypeAt, ConfidenceAt,
         ProvenanceAt, ValidityAt, SmallObservation;
    VocabularyRead(o, conv);
    ObservationIdRead(o, conv);
    ObservationNumbersIff(o, conv);
  }
}
