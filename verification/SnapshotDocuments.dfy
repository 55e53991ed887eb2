/** Domain states and snapshots as JSON documents, and back. */
module SnapshotDocuments {
  import opened Options
  import opened Numbers
  import opened Policy
  import opened Trend
  import opened Domain
  import opened JsonValue
  import opened EnumText
  import opened Hex
  import opened Documents
  import opened RefreshFacts
  import Keys

  const SCHEMA: int := 1

  // ---- domain states ----

  function ActionsToJson(actions: seq<ResponseAction>): (js: seq<Json>)
    ensures |js| == |actions| && forall i | 0 <= i < |js| :: js[i] == String(ActionText(actions[i]))
  {
    seq(|actions|, i requires 0 <= i < |actions| => String(ActionText(actions[i])))
  }

  /** Unknown actions are skipped. */
  function ActionsFromJson(js: seq<Json>, k: nat): seq<ResponseAction>
    requires k <= |js|
  {
    if k == 0 then []
    else
      ActionsFromJson(js, k - 1)
      + match ActionOf(js[k - 1].AsString().GetOr("")) { case Some(a) => [a] case None => [] }
  }

  function StateRecord(d: DomainState, conv: Conversion): Members {
    var m := map[Keys.Id := String(ToHex(d.id)), Keys.Type := String(TypeText(d.domainType))];
    var m := m[Keys.Provider := String(d.provider)];
    var m := m[Keys.NativeResourceId := String(d.nativeResourceId)];
    var m := m[Keys.Budget := BudgetToJson(d.budget, conv)];
    var m := m[Keys.Governed := Bool(d.governed)];
    var m := m[Keys.TotalCapacity := OfUint(d.totalCapacity, conv)];
    var m := m[Keys.UsableCapacity := OfUint(d.usableCapacity, conv)];
    var m := m[Keys.ReservedBytes := OfUint(d.reservedBytes, conv)];
    var m := m[Keys.Committed := OfUint(d.committed, conv)];
    var m := m[Keys.Resident := OfUint(d.resident, conv)];
    var m := m[Keys.Available := OfUint(d.available, conv)];
    var m := m[Keys.Reclaimable := OfUint(d.reclaimable, conv)];
    var m := m[Keys.Utilization := OfReal(d.utilization)];
    var m := m[Keys.Level := String(LevelText(d.level))];
    var m := m[Keys.PreviousLevel := String(LevelText(d.previousLevel))];
    var m := m[Keys.InHysteresisHold := Bool(d.inHysteresisHold)];
    var m := m[Keys.LevelHoldObservations := OfUint(d.levelHoldObservations, conv)];
    var m := m[Keys.Score := OfReal(d.score)];
    var m := m[Keys.UtilizationComponent := OfReal(d.utilizationComponent)];
    var m := m[Keys.FreeDeficitComponent := OfReal(d.freeDeficitComponent)];
    var m := m[Keys.ReserveDeficitComponent := OfReal(d.reserveDeficitComponent)];
    var m := m[Keys.GrowthComponent := OfReal(d.growthComponent)];
    var m := m[Keys.AllocationFailureComponent := OfReal(d.allocationFailureComponent)];
    var m := m[Keys.Stigma := OfReal(d.stigma)];
    var m := m[Keys.Trend := String(TrendText(d.trend))];
    var m := m[Keys.TrendRate := OfReal(d.trendRate)];
    var m := m[Keys.TrendConfidence := OfReal(d.trendConfidence)];
    var m := m[Keys.TrendWindowSamples := OfUint(d.trendWindowSamples, conv)];
    var m := m[Keys.Confidence := String(ConfidenceText(d.confidence))];
    var m := m[Keys.Provenance := String(ProvenanceText(d.provenance))];
    var m := m[Keys.Validity := String(ValidityText(d.validity))];
    var m := m[Keys.TimestampMs := OfUint(d.timestampMs, conv)];
    var m := m[Keys.Explanation := String(d.explanation)];
    var m := m[Keys.EnteredLevelAtMs := OfUint(d.enteredLevelAtMs, conv)];
    var m := m[Keys.PeakLevel := OfUint(d.peakLevel, conv)];
    m[Keys.Responses := Array(ActionsToJson(d.responses))]
  }

  function StateToJson(d: DomainState, conv: Conversion): Json {
    Record(StateRecord(d, conv))
  }

  function LevelAt(j: Json, k: Keys.Key): PressureLevel {
    LevelOf(TextAt(j, k)).GetOr(Unknown)
  }

  function TrendAt(j: Json, k: Keys.Key): TrendDirection {
    TrendOf(TextAt(j, k)).GetOr(NoTrend)
  }

  /** A budget that does not read is replaced by the default one. */
  function BudgetAt(j: Json, k: Keys.Key): Budget {
    match At(j, k)
    case Some(v) => BudgetFromJson(v).GetOr(DEFAULT_BUDGET)
    case None => DEFAULT_BUDGET
  }

  function StateMembers(j: Json, id: DomainId): DomainState {
    var actions := ItemsAt(j, Keys.Responses);
    DomainState(
      id, TypeAt(j, Keys.Type), TextAt(j, Keys.Provider), TextAt(j, Keys.NativeResourceId),
      BudgetAt(j, Keys.Budget), BoolAt(j, Keys.Governed),
      UintAt(j, Keys.TotalCapacity), UintAt(j, Keys.UsableCapacity), UintAt(j, Keys.ReservedBytes),
      UintAt(j, Keys.Committed), UintAt(j, Keys.Resident), UintAt(j, Keys.Available), UintAt(j, Keys.Reclaimable),
      RealAt(j, Keys.Utilization),
      LevelAt(j, Keys.Level), LevelAt(j, Keys.PreviousLevel),
      BoolAt(j, Keys.InHysteresisHold), UintAt(j, Keys.LevelHoldObservations),
      RealAt(j, Keys.Score), RealAt(j, Keys.UtilizationComponent), RealAt(j, Keys.FreeDeficitComponent),
      RealAt(j, Keys.ReserveDeficitComponent), RealAt(j, Keys.GrowthComponent),
      RealAt(j, Keys.AllocationFailureComponent), RealAt(j, Keys.Stigma),
      TrendAt(j, Keys.Trend), RealAt(j, Keys.TrendRate), RealAt(j, Keys.TrendConfidence),
      UintAt(j, Keys.TrendWindowSamples),
      ConfidenceAt(j, Keys.Confidence), ProvenanceAt(j, Keys.Provenance), ValidityAt(j, Keys.Validity),
      UintAt(j, Keys.TimestampMs), ActionsFromJson(actions, |actions|), TextAt(j, Keys.Explanation),
      UintAt(j, Keys.EnteredLevelAtMs), UintAt(j, Keys.PeakLevel))
  }

  function StateFromJson(j: Json): Option<DomainState> {
    match IdAt(j, Keys.Id)
    case Some(id) => Some(StateMembers(j, id))
    case None => None
  }

  predicate SmallState(d: DomainState) {
    && Small(d.totalCapacity) && Small(d.usableCapacity) && Small(d.reservedBytes) && Small(d.committed)
    && Small(d.resident) && Small(d.available) && Small(d.reclaimable) && Small(d.levelHoldObservations)
    && Small(d.trendWindowSamples) && Small(d.timestampMs) && Small(d.enteredLevelAtMs) && Small(d.peakLevel)
  }

  lemma {:induction false} BoolRead(m: Members, k: Keys.Key, b: bool)
    requires k in m && m[k] == Bool(b)
    ensures BoolAt(Record(m), k) == b
  {
    hide Record, At;
    RecordAt(m, k);
  }

  lemma {:induction false} BudgetRead(m: Members, b: Budget, conv: Conversion)
    requires conv.Faithful() && Keys.Budget in m && m[Keys.Budget] == BudgetToJson(b, conv)
    ensures BudgetAt(Record(m), Keys.Budget) == b <==> SmallBudget(b) && BudgetOk(b)
  {
    hide Record, At, BudgetToJson, BudgetFromJson, SmallBudget, BudgetOk;
    RecordAt(m, Keys.Budget);
    BudgetReadsBackIff(b, conv);
    DefaultIsFine();
  }

  lemma {:induction false} DefaultIsFine()
    ensures SmallBudget(DEFAULT_BUDGET) && BudgetOk(DEFAULT_BUDGET)
  {
  }

  lemma {:induction false} ActionsReadBack(actions: seq<ResponseAction>, k: nat)
    requires k <= |actions|
    ensures ActionsFromJson(ActionsToJson(actions), k) == actions[..k]
  {
    hide ActionText, ActionOf;
    if k == 0 {
    } else {
      ActionsReadBack(actions, k - 1);
      ActionReadsBack(actions[k - 1]);
    }
  }

  lemma {:induction false} StateKinds(d: DomainState, conv: Conversion)
    ensures var j := StateToJson(d, conv);
            && TypeAt(j, Keys.Type) == d.domainType && ConfidenceAt(j, Keys.Confidence) == d.confidence
            && ProvenanceAt(j, Keys.Provenance) == d.provenance && ValidityAt(j, Keys.Validity) == d.validity
  {
    hide Record, TextAt, OfReal, OfUint, ToHex, BudgetToJson, TypeText, TypeOf, ConfidenceText, ConfidenceOf,
         ProvenanceText, ProvenanceOf, ValidityText, ValidityOf, LevelText, TrendText, ActionsToJson;
    var m := StateRecord(d, conv);
    TextRead(m, Keys.Type, TypeText(d.domainType));
    TypeReadsBack(d.domainType);
    TextRead(m, Keys.Confidence, ConfidenceText(d.confidence));
    ConfidenceReadsBack(d.confidence);
    TextRead(m, Keys.Provenance, ProvenanceText(d.provenance));
    ProvenanceReadsBack(d.provenance);
    TextRead(m, Keys.Validity, ValidityText(d.validity));
    ValidityReadsBack(d.validity);
  }

  lemma {:induction false} StateLevels(d: DomainState, conv: Conversion)
    ensures var j := StateToJson(d, conv);
            && LevelAt(j, Keys.Level) == d.level && LevelAt(j, Keys.PreviousLevel) == d.previousLevel
            && TrendAt(j, Keys.Trend) == d.trend
            && BoolAt(j, Keys.Governed) == d.governed && BoolAt(j, Keys.InHysteresisHold) == d.inHysteresisHold
  {
    hide Record, TextAt, BoolAt, OfReal, OfUint, ToHex, BudgetToJson, TypeText, ConfidenceText, ProvenanceText,
         ValidityText, LevelText, LevelOf, TrendText, TrendOf, ActionsToJson;
    var m := StateRecord(d, conv);
    TextRead(m, Keys.Level, LevelText(d.level));
    LevelReadsBack(d.level);
    TextRead(m, Keys.PreviousLevel, LevelText(d.previousLevel));
    LevelReadsBack(d.previousLevel);
    TextRead(m, Keys.Trend, TrendText(d.trend));
    TrendReadsBack(d.trend);
    BoolRead(m, Keys.Governed, d.governed);
    BoolRead(m, Keys.InHysteresisHold, d.inHysteresisHold);
  }

  lemma {:induction false} StateTexts(d: DomainState, conv: Conversion)
    ensures var j := StateToJson(d, conv);
            && TextAt(j, Keys.Provider) == d.provider && TextAt(j, Keys.NativeResourceId) == d.nativeResourceId
            && TextAt(j, Keys.Explanation) == d.explanation
  {
    hide Record, TextAt, OfReal, OfUint, ToHex, BudgetToJson, TypeText, ConfidenceText, ProvenanceText,
         ValidityText, LevelText, TrendText, ActionsToJson;
    var m := StateRecord(d, conv);
    TextRead(m, Keys.Provider, d.provider);
    TextRead(m, Keys.NativeResourceId, d.nativeResourceId);
    TextRead(m, Keys.Explanation, d.explanation);
  }

  lemma {:induction false} StateReals(d: DomainState, conv: Conversion)
    ensures var j := StateToJson(d, conv);
            && RealAt(j, Keys.Utilization) == d.utilization && RealAt(j, Keys.Score) == d.score
            && RealAt(j, Keys.UtilizationComponent) == d.utilizationComponent
            && RealAt(j, Keys.FreeDeficitComponent) == d.freeDeficitComponent
            && RealAt(j, Keys.ReserveDeficitComponent) == d.reserveDeficitComponent
            && RealAt(j, Keys.GrowthComponent) == d.growthComponent
            && RealAt(j, Keys.AllocationFailureComponent) == d.allocationFailureComponent
            && RealAt(j, Keys.Stigma) == d.stigma && RealAt(j, Keys.TrendRate) == d.trendRate
            && RealAt(j, Keys.TrendConfidence) == d.trendConfidence
  {
    hide Record, RealAt, OfReal, OfUint, ToHex, BudgetToJson, TypeText, ConfidenceText, ProvenanceText,
         ValidityText, LevelText, TrendText, ActionsToJson;
    var m := StateRecord(d, conv);
    RealRead(m, Keys.Utilization, d.utilization);
    RealRead(m, Keys.Score, d.score);
    RealRead(m, Keys.UtilizationComponent, d.utilizationComponent);
    RealRead(m, Keys.FreeDeficitComponent, d.freeDeficitComponent);
    RealRead(m, Keys.ReserveDeficitComponent, d.reserveDeficitComponent);
    RealRead(m, Keys.GrowthComponent, d.growthComponent);
    RealRead(m, Keys.AllocationFailureComponent, d.allocationFailureComponent);
    RealRead(m, Keys.Stigma, d.stigma);
    RealRead(m, Keys.TrendRate, d.trendRate);
    RealRead(m, Keys.TrendConfidence, d.trendConfidence);
  }

  ghost predicate SameNumbers(j: Json, d: DomainState) {
    && UintAt(j, Keys.TotalCapacity) == d.totalCapacity && UintAt(j, Keys.UsableCapacity) == d.usableCapacity
    && UintAt(j, Keys.ReservedBytes) == d.reservedBytes && UintAt(j, Keys.Committed) == d.committed
    && UintAt(j, Keys.Resident) == d.resident && UintAt(j, Keys.Available) == d.available
    && UintAt(j, Keys.Reclaimable) == d.reclaimable
    && UintAt(j, Keys.LevelHoldObservations) == d.levelHoldObservations
    && UintAt(j, Keys.TrendWindowSamples) == d.trendWindowSamples && UintAt(j, Keys.TimestampMs) == d.timestampMs
    && UintAt(j, Keys.EnteredLevelAtMs) == d.enteredLevelAtMs && UintAt(j, Keys.PeakLevel) == d.peakLevel
  }

  lemma {:induction false} StateNumbersIff(d: DomainState, conv: Conversion)
    requires conv.Faithful()
    ensures SameNumbers(StateToJson(d, conv), d) <==> SmallState(d)
  {
    hide Small, Record, UintAt, OfReal, OfUint, Conversion.Faithful, ToHex, BudgetToJson, TypeText, ConfidenceText,
         ProvenanceText, ValidityText, LevelText, TrendText, ActionsToJson;
    var m := StateRecord(d, conv);
    UintRead(m, Keys.TotalCapacity, d.totalCapacity, conv);
    UintRead(m, Keys.UsableCapacity, d.usableCapacity, conv);
    UintRead(m, Keys.ReservedBytes, d.reservedBytes, conv);
    UintRead(m, Keys.Committed, d.committed, conv);
    UintRead(m, Keys.Resident, d.resident, conv);
    UintRead(m, Keys.Available, d.available, conv);
    UintRead(m, Keys.Reclaimable, d.reclaimable, conv);
    UintRead(m, Keys.LevelHoldObservations, d.levelHoldObservations, conv);
    UintRead(m, Keys.TrendWindowSamples, d.trendWindowSamples, conv);
    UintRead(m, Keys.TimestampMs, d.timestampMs, conv);
    UintRead(m, Keys.EnteredLevelAtMs, d.enteredLevelAtMs, conv);
    UintRead(m, Keys.PeakLevel, d.peakLevel, conv);
  }

  predicate SmallAndValid(d: DomainState) {
    SmallState(d) && SmallBudget(d.budget) && BudgetOk(d.budget)
  }

  /** A domain state survives exactly when its budget is valid and no unsigned number in it, the budget
      included, exceeds 2^53. */
  lemma {:induction false} StateReadsBackIff(d: DomainState, conv: Conversion)
    requires conv.Faithful()
    ensures StateFromJson(StateToJson(d, conv)) == Some(d) <==> SmallAndValid(d)
  {
    hide Record, At, UintAt, RealAt, TextAt, BoolAt, BudgetAt, ItemsAt, IdAt, TypeAt, LevelAt, TrendAt,
         ConfidenceAt, ProvenanceAt, ValidityAt, OfReal, OfUint, ToHex, BudgetToJson, TypeText, ConfidenceText,
         ProvenanceText, ValidityText, LevelText, TrendText, ActionsToJson, ActionsFromJson, SmallState,
         SmallBudget, BudgetOk;
    var m := StateRecord(d, conv);
    IdRead(m, d.id);
    StateKinds(d, conv);
    StateLevels(d, conv);
    StateTexts(d, conv);
    StateReals(d, conv);
    StateNumbersIff(d, conv);
    BudgetRead(m, d.budget, conv);
    ItemsRead(m, Keys.Responses, ActionsToJson(d.responses));
    ActionsReadBack(d.responses, |d.responses|);
    ActionsLength(d.responses);
  }

  lemma {:induction false} ActionsLength(actions: seq<ResponseAction>)
    ensures |ActionsToJson(actions)| == |actions| && actions[..|actions|] == actions
  {
  }

  // ---- snapshots ----

  function StatesToJson(ds: seq<DomainState>, conv: Conversion): (js: seq<Json>)
    ensures |js| == |ds| && forall i | 0 <= i < |js| :: js[i] == StateToJson(ds[i], conv)
  {
    seq(|ds|, i requires 0 <= i < |ds| => StateToJson(ds[i], conv))
  }

  /** Reading stops at a malformed state and at an id that was seen before. */
  function StatesFromJson(js: seq<Json>, k: nat): Option<seq<DomainState>>
    requires k <= |js|
  {
    if k == 0 then Some([])
    else
      var before := StatesFromJson(js, k - 1);
      if before.None? then None else WithState(before.value, StateFromJson(js[k - 1]))
  }

  function WithState(ds: seq<DomainState>, d: Option<DomainState>): Option<seq<DomainState>> {
    if d.None? || FindIn(ds, d.value.id).Some? then None else Some(ds + [d.value])
  }

  lemma {:induction false} StatesRead(js: seq<Json>, k: nat)
    requires k <= |js| && StatesFromJson(js, k).Some?
    ensures |StatesFromJson(js, k).value| == k
  {
    hide StateFromJson, FindIn;
    if k == 0 {
    } else {
      StatesRead(js, k - 1);
    }
  }

  function WarningsToJson(ws: seq<string>): (js: seq<Json>)
    ensures |js| == |ws| && forall i | 0 <= i < |js| :: js[i] == String(ws[i])
  {
    seq(|ws|, i requires 0 <= i < |ws| => String(ws[i]))
  }

  function WarningsFromJson(js: seq<Json>): (ws: seq<string>)
    ensures |ws| == |js| && forall i | 0 <= i < |js| :: ws[i] == js[i].AsString().GetOr("")
  {
    seq(|js|, i requires 0 <= i < |js| => js[i].AsString().GetOr(""))
  }

  function HealthToJson(h: map<string, ProviderStatus>): Json {
    Object(map k | k in h :: String(StatusText(h[k])))
  }

  function HealthFromJson(j: Json): map<string, ProviderStatus> {
    if j.Object? then map k | k in j.members :: StatusFrom(j.members[k].AsString().GetOr("")).GetOr(Unavailable)
    else map[]
  }

  function HealthAt(j: Json, k: Keys.Key): map<string, ProviderStatus> {
    match At(j, k)
    case Some(v) => HealthFromJson(v)
    case None => map[]
  }

  /** A counter of the event summary is a 32-bit number. */
  function CountAt(j: Json, k: Keys.Key): nat {
    match At(j, Keys.Events)
    case Some(v) => UintAt(v, k) % TWO32
    case None => 0
  }

  function EventSummary(s: Snapshot, conv: Conversion): Members {
    map[Keys.Count := OfUint(s.eventCount, conv), Keys.Dropped := OfUint(s.eventsDropped, conv)]
  }

  function SnapshotRecord(s: Snapshot, conv: Conversion): Members {
    var m := map[Keys.Schema := OfInt(SCHEMA, conv), Keys.Id := OfUint(s.id, conv)];
    var m := m[Keys.Generation := OfUint(s.generation, conv)];
    var m := m[Keys.TimestampMs := OfUint(s.timestampMs, conv)];
    var m := m[Keys.PolicyVersion := OfUint(s.policyVersion, conv)];
    var m := m[Keys.PolicyName := String(s.policyName)];
    var m := m[Keys.AggregateLevel := String(LevelText(s.aggregateLevel))];
    var m := m[Keys.AggregateScore := OfReal(s.aggregateScore)];
    var m := m[Keys.AggregateExplanation := String(s.aggregateExplanation)];
    var m := m[Keys.StaleData := Bool(s.staleData)];
    var m := m[Keys.PartialData := Bool(s.partialData)];
    var m := m[Keys.Confidence := String(ConfidenceText(s.confidence))];
    var m := m[Keys.Provenance := String(ProvenanceText(s.provenance))];
    var m := m[Keys.Warnings := Array(WarningsToJson(s.warnings))];
    var m := m[Keys.ProviderHealth := HealthToJson(s.providerHealth)];
    var m := m[Keys.Domains := Array(StatesToJson(s.domains, conv))];
    m[Keys.Events := Record(EventSummary(s, conv))]
  }

  function SnapshotToJson(s: Snapshot, conv: Conversion): Json {
    Record(SnapshotRecord(s, conv))
  }

  predicate HasSchema(j: Json) {
    match At(j, Keys.Schema)
    case Some(v) => v.AsInt64().GetOr(-1) == SCHEMA
    case None => false
  }

  function SnapshotMembers(j: Json, ds: seq<DomainState>): Snapshot {
    Snapshot(
      UintAt(j, Keys.Id), UintAt(j, Keys.Generation), UintAt(j, Keys.TimestampMs), ds, HealthAt(j, Keys.ProviderHealth),
      LevelAt(j, Keys.AggregateLevel), RealAt(j, Keys.AggregateScore), TextAt(j, Keys.AggregateExplanation),
      UintAt(j, Keys.PolicyVersion), TextAt(j, Keys.PolicyName), WarningsFromJson(ItemsAt(j, Keys.Warnings)),
      BoolAt(j, Keys.StaleData), BoolAt(j, Keys.PartialData), ConfidenceAt(j, Keys.Confidence),
      ProvenanceAt(j, Keys.Provenance), CountAt(j, Keys.Count), CountAt(j, Keys.Dropped))
  }

  function SnapshotFromJson(j: Json): Option<Snapshot> {
    var items := ItemsAt(j, Keys.Domains);
    if !HasSchema(j) then None
    else
      match StatesFromJson(items, |items|)
      case Some(ds) => Some(SnapshotMembers(j, ds))
      case None => None
  }

  predicate SmallSnapshot(s: Snapshot) {
    && Small(s.id) && Small(s.generation) && Small(s.timestampMs) && Small(s.policyVersion)
    && s.eventCount < TWO32 && s.eventsDropped < TWO32
  }

  lemma {:induction false} HealthReadsBackIff(h: map<string, ProviderStatus>)
    ensures HealthFromJson(HealthToJson(h)) == h <==> forall k | k in h :: h[k] != Partial
  {
    hide StatusText, StatusFrom;
    var back := HealthFromJson(HealthToJson(h));
    forall k | k in h ensures back[k] == h[k] <==> h[k] != Partial {
      StatusReadsBackIff(h[k]);
      StatusWritten(h[k]);
    }
  }

  lemma {:induction false} StatusWritten(v: ProviderStatus)
    ensures StatusFrom(StatusText(v)).Some?
  {
  }

  lemma {:induction false} HealthRead(m: Members, h: map<string, ProviderStatus>)
    requires Keys.ProviderHealth in m && m[Keys.ProviderHealth] == HealthToJson(h)
    ensures HealthAt(Record(m), Keys.ProviderHealth) == h <==> forall k | k in h :: h[k] != Partial
  {
    hide Record, At, HealthFromJson, HealthToJson;
    RecordAt(m, Keys.ProviderHealth);
    HealthReadsBackIff(h);
  }

  lemma {:induction false} CountRead(m: Members, s: Snapshot, k: Keys.Key, n: nat, conv: Conversion)
    requires conv.Faithful() && Keys.Events in m && m[Keys.Events] == Record(EventSummary(s, conv))
    requires k in EventSummary(s, conv) && EventSummary(s, conv)[k] == OfUint(n, conv)
    ensures CountAt(Record(m), k) == n <==> n < TWO32
  {
    hide Record, At, OfUint, UintAt;
    RecordAt(m, Keys.Events);
    UintRead(EventSummary(s, conv), k, n, conv);
  }

  lemma {:induction false} SchemaRead(m: Members, conv: Conversion)
    requires conv.Faithful() && Keys.Schema in m && m[Keys.Schema] == OfInt(SCHEMA, conv)
    ensures HasSchema(Record(m))
  {
    hide Record, At, OfInt, Json.AsInt64;
    RecordAt(m, Keys.Schema);
    SmallIntReadsBack(SCHEMA, conv);
  }

  lemma {:induction false} WarningsReadBack(ws: seq<string>)
    ensures WarningsFromJson(WarningsToJson(ws)) == ws
  {
  }

  /** A domain's id always survives. */
  lemma {:induction false} StateIdSurvives(d: DomainState, conv: Conversion)
    ensures var r := StateFromJson(StateToJson(d, conv)); r.Some? && r.value.id == d.id
  {
    hide Record, At, IdAt, ToHex;
    IdFirst(d, conv);
    IdRead(StateRecord(d, conv), d.id);
  }

  lemma {:induction false} IdFirst(d: DomainState, conv: Conversion)
    ensures Keys.Id in StateRecord(d, conv) && StateRecord(d, conv)[Keys.Id] == String(ToHex(d.id))
  {
    hide OfReal, OfUint, ToHex, BudgetToJson, TypeText, ConfidenceText, ProvenanceText, ValidityText, LevelText,
         TrendText, ActionsToJson;
  }

  lemma {:induction false} DistinctExtends(ds: seq<DomainState>, k: nat)
    requires 0 < k <= |ds|
    ensures DistinctIds(ds[..k]) <==> DistinctIds(ds[..k - 1]) && FindIn(ds[..k - 1], ds[k - 1].id).None?
  {
    var f := FindIn(ds[..k - 1], ds[k - 1].id);
    if f.Some? {
      var i :| 0 <= i < k - 1 && ds[..k - 1][i] == f.value;
      assert ds[..k][i].id == ds[..k][k - 1].id;
    } else {
      assert forall i | 0 <= i < k - 1 :: ds[..k][i] in ds[..k - 1];
    }
    if DistinctIds(ds[..k]) {
      assert forall i | 0 <= i < k - 1 :: ds[..k - 1][i] == ds[..k][i];
    }
    if DistinctIds(ds[..k - 1]) && f.None? {
      forall i, j | 0 <= i < j < k ensures ds[..k][i].id != ds[..k][j].id {
        if j < k - 1 { assert ds[..k - 1][i].id != ds[..k - 1][j].id; }
      }
    }
  }

  ghost predicate AllSmallAndValid(ds: seq<DomainState>, k: nat)
    requires k <= |ds|
  {
    forall i | 0 <= i < k :: SmallAndValid(ds[i])
  }

  lemma {:induction false} StatesReadBackIff(ds: seq<DomainState>, k: nat, conv: Conversion)
    requires conv.Faithful() && k <= |ds|
    ensures StatesFromJson(StatesToJson(ds, conv), k) == Some(ds[..k]) <==>
              AllSmallAndValid(ds, k) && DistinctIds(ds[..k])
  {
    hide DistinctIds, StateToJson, StateFromJson, SmallAndValid, FindIn;
    if k == 0 {
      NoneRepeated(ds);
    } else {
      StatesReadBackIff(ds, k - 1, conv);
      StateIdSurvives(ds[k - 1], conv);
      StateReadsBackIff(ds[k - 1], conv);
      DistinctExtends(ds, k);
      var before := StatesFromJson(StatesToJson(ds, conv), k - 1);
      assert ds[..k] == ds[..k - 1] + [ds[k - 1]];
      if before.Some? {
        StatesRead(StatesToJson(ds, conv), k - 1);
        var d := StateFromJson(StatesToJson(ds, conv)[k - 1]).value;
        assert before.value + [d] == ds[..k] <==> before.value == ds[..k - 1] && d == ds[k - 1] by {
          LastIff(before.value, d, ds[..k - 1], ds[k - 1]);
        }
      }
    }
  }

  lemma {:induction false} NoneRepeated(ds: seq<DomainState>)
    ensures DistinctIds(ds[..0])
  {
  }

  lemma {:induction false} SnapshotWords(s: Snapshot, conv: Conversion)
    ensures var j := SnapshotToJson(s, conv);
            && LevelAt(j, Keys.AggregateLevel) == s.aggregateLevel && RealAt(j, Keys.AggregateScore) == s.aggregateScore
            && TextAt(j, Keys.AggregateExplanation) == s.aggregateExplanation
            && TextAt(j, Keys.PolicyName) == s.policyName
            && WarningsFromJson(ItemsAt(j, Keys.Warnings)) == s.warnings
            && BoolAt(j, Keys.StaleData) == s.staleData && BoolAt(j, Keys.PartialData) == s.partialData
            && ConfidenceAt(j, Keys.Confidence) == s.confidence && ProvenanceAt(j, Keys.Provenance) == s.provenance
            && ItemsAt(j, Keys.Domains) == StatesToJson(s.domains, conv)
  {
    hide Record, TextAt, RealAt, BoolAt, ItemsAt, OfReal, OfUint, OfInt, ConfidenceText, ConfidenceOf,
         ProvenanceText, ProvenanceOf, LevelText, LevelOf, WarningsToJson, WarningsFromJson, HealthToJson,
         StatesToJson, EventSummary;
    var m := SnapshotRecord(s, conv);
    TextRead(m, Keys.AggregateLevel, LevelText(s.aggregateLevel));
    LevelReadsBack(s.aggregateLevel);
    RealRead(m, Keys.AggregateScore, s.aggregateScore);
    TextRead(m, Keys.AggregateExplanation, s.aggregateExplanation);
    TextRead(m, Keys.PolicyName, s.policyName);
    ItemsRead(m, Keys.Warnings, WarningsToJson(s.warnings));
    WarningsReadBack(s.warnings);
    BoolRead(m, Keys.StaleData, s.staleData);
    BoolRead(m, Keys.PartialData, s.partialData);
    TextRead(m, Keys.Confidence, ConfidenceText(s.confidence));
    ConfidenceReadsBack(s.confidence);
    TextRead(m, Keys.Provenance, ProvenanceText(s.provenance));
    ProvenanceReadsBack(s.provenance);
    ItemsRead(m, Keys.Domains, StatesToJson(s.domains, conv));
  }

  ghost predicate SameCounters(j: Json, s: Snapshot) {
    && UintAt(j, Keys.Id) == s.id && UintAt(j, Keys.Generation) == s.generation
    && UintAt(j, Keys.TimestampMs) == s.timestampMs && UintAt(j, Keys.PolicyVersion) == s.policyVersion
    && CountAt(j, Keys.Count) == s.eventCount && CountAt(j, Keys.Dropped) == s.eventsDropped
  }

  lemma {:induction false} SnapshotNumbersIff(s: Snapshot, conv: Conversion)
    requires conv.Faithful()
    ensures HasSchema(SnapshotToJson(s, conv))
    ensures SameCounters(SnapshotToJson(s, conv), s) <==> SmallSnapshot(s)
  {
    hide Record, UintAt, CountAt, OfReal, OfUint, OfInt, ConfidenceText, ProvenanceText, LevelText, WarningsToJson,
         HealthToJson, StatesToJson, HasSchema;
    var m := SnapshotRecord(s, conv);
    SchemaRead(m, conv);
    UintRead(m, Keys.Id, s.id, conv);
    UintRead(m, Keys.Generation, s.generation, conv);
    UintRead(m, Keys.TimestampMs, s.timestampMs, conv);
    UintRead(m, Keys.PolicyVersion, s.policyVersion, conv);
    CountRead(m, s, Keys.Count, s.eventCount, conv);
    CountRead(m, s, Keys.Dropped, s.eventsDropped, conv);
  }

  /** What a snapshot must meet to survive. */
  ghost predicate Survives(s: Snapshot) {
    && SmallSnapshot(s) && AllSmallAndValid(s.domains, |s.domains|) && DistinctIds(s.domains)
    && forall k | k in s.providerHealth :: s.providerHealth[k] != Partial
  }

  /** A snapshot survives exactly when its domain ids are distinct, its domains survive, its unsigned numbers
      are at most 2^53, its event counters fit in 32 bits and no provider is Partial. */
  lemma {:induction false} SnapshotReadsBackIff(s: Snapshot, conv: Conversion)
    requires conv.Faithful()
    ensures SnapshotFromJson(SnapshotToJson(s, conv)) == Some(s) <==> Survives(s)
  {
    hide Record, At, UintAt, RealAt, TextAt, BoolAt, ItemsAt, LevelAt, ConfidenceAt, ProvenanceAt, HealthAt,
         CountAt, HasSchema, OfReal, OfUint, OfInt, ConfidenceText, ProvenanceText, LevelText, WarningsToJson,
         WarningsFromJson, HealthToJson, StatesToJson, StatesFromJson, EventSummary, SmallSnapshot,
         AllSmallAndValid, DistinctIds;
    SnapshotWords(s, conv);
    SnapshotNumbersIff(s, conv);
    HealthRead(SnapshotRecord(s, conv), s.providerHealth);
    StatesReadBackIff(s.domains, |s.domains|, conv);
    StatesLength(s.domains, conv);
  }

  lemma {:induction false} StatesLength(ds: seq<DomainState>, conv: Conversion)
    ensures |StatesToJson(ds, conv)| == |ds| && ds[..|ds|] == ds
  {
  }

  /** A document in which two domains share an id is never read. */
  lemma {:induction false} ReadStatesAreDistinct(js: seq<Json>, k: nat)
    requires k <= |js| && StatesFromJson(js, k).Some?
    ensures DistinctIds(StatesFromJson(js, k).value)
  {
    hide StateFromJson, DistinctIds;
    if k == 0 {
      NoneRepeated([]);
    } else {
      ReadStatesAreDistinct(js, k - 1);
      StatesRead(js, k);
      StatesRead(js, k - 1);
      var ds := StatesFromJson(js, k).value;
      assert ds[..k] == ds && ds[..k - 1] == StatesFromJson(js, k - 1).value;
      DistinctExtends(ds, k);
    }
  }
}
