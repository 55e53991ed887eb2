/** The converters as the source writes them: objects filled member by member, arrays in loops. */
module DocumentMethods {
  import opened Options
  import opened Numbers
  import opened Policy
  import opened Domain
  import opened JsonValue
  import opened EnumText
  import opened Hex
  import opened Documents
  import opened SnapshotDocuments
  import opened TraceDocuments
  import Keys

  // ---- writing ----

  method WriteBudget(b: Budget, conv: Conversion) returns (j: Json)
    ensures j == BudgetToJson(b, conv)
    ensures conv.Faithful() ==> (BudgetFromJson(j) == Some(b) <==> SmallBudget(b) && BudgetOk(b))
  {
    hide OfUint, KindText, Record, SmallBudget, BudgetOk, BudgetFromJson, Conversion.Faithful;
    var r: Members := map[Keys.Version := OfUint(b.version, conv), Keys.HardCapacity := OfUint(b.hardCapacity, conv)];
    if b.softCapacity.Some? { r := r[Keys.SoftCapacity := OfUint(b.softCapacity.value, conv)]; }
    r := r[Keys.EmergencyReserveBytes := OfUint(b.emergencyReserveBytes, conv)];
    r := r[Keys.MinimumFreeReserve := OfUint(b.minimumFreeReserve, conv)];
    r := r[Keys.ReclaimTarget := OfUint(b.reclaimTarget, conv)];
    r := r[Keys.DemotionTarget := OfUint(b.demotionTarget, conv)];
    r := r[Keys.AdmissionHeadroom := OfUint(b.admissionHeadroom, conv)];
    r := r[Keys.Owner := String(b.owner)];
    var items: seq<Json> := [];
    for i := 0 to |b.reserves|
      invariant items == ReservesToJson(b.reserves, conv)[..i]
    {
      var rv := b.reserves[i];
      var rr: Members := map[Keys.Kind := String(KindText(rv.kind)), Keys.Name := String(rv.name)];
      rr := rr[Keys.Bytes := OfUint(rv.bytes, conv)];
      items := items + [Record(rr)];
    }
    assert items == ReservesToJson(b.reserves, conv);
    r := r[Keys.Reserves := Array(items)];
    j := Record(r);
    if conv.Faithful() { BudgetReadsBackIff(b, conv); }
  }

  method WriteObservation(o: DomainObservation, conv: Conversion) returns (j: Json)
    ensures j == ObservationToJson(o, conv)
    ensures conv.Faithful() ==> (ObservationFromJson(j) == Some(o) <==> SmallObservation(o))
  {
    hide OfUint, OfInt, OfReal, ToHex, TypeText, ConfidenceText, ProvenanceText, ValidityText, Record,
         SmallObservation, ObservationFromJson, Conversion.Faithful;
    var r: Members := map[Keys.Id := String(ToHex(o.id)), Keys.Type := String(TypeText(o.domainType))];
    r := r[Keys.Provider := String(o.provider)];
    r := r[Keys.NativeResourceId := String(o.nativeResourceId)];
    r := r[Keys.TotalCapacity := OfUint(o.totalCapacity, conv)];
    r := r[Keys.Committed := OfUint(o.committed, conv)];
    r := r[Keys.Resident := OfUint(o.resident, conv)];
    if o.reclaimable.Some? { r := r[Keys.Reclaimable := OfUint(o.reclaimable.value, conv)]; }
    r := r[Keys.Unavailable := OfUint(o.unavailable, conv)];
    r := r[Keys.Available := OfUint(o.available, conv)];
    if o.usableCapacity.Some? { r := r[Keys.UsableCapacity := OfUint(o.usableCapacity.value, conv)]; }
    if o.reserved.Some? { r := r[Keys.Reserved := OfUint(o.reserved.value, conv)]; }
    r := r[Keys.Confidence := String(ConfidenceText(o.confidence))];
    r := r[Keys.Provenance := String(ProvenanceText(o.provenance))];
    r := r[Keys.Validity := String(ValidityText(o.validity))];
    r := r[Keys.ObservedAtMs := OfUint(o.observedAtMs, conv)];
    r := r[Keys.AllocationFailures := OfInt(o.allocationFailures, conv)];
    r := r[Keys.GrowthBytesPerS := OfReal(o.growthBytesPerS)];
    r := r[Keys.Detail := String(o.detail)];
    j := Record(r);
    if conv.Faithful() { ObservationReadsBackIff(o, conv); }
  }

  method WriteState(d: DomainState, conv: Conversion) returns (j: Json)
    ensures j == StateToJson(d, conv)
    ensures conv.Faithful() ==> (StateFromJson(j) == Some(d) <==> SmallAndValid(d))
  {
    hide OfUint, OfReal, ToHex, TypeText, ConfidenceText, ProvenanceText, ValidityText, LevelText, TrendText,
         ActionText, BudgetToJson, Record, SmallAndValid, StateFromJson, Conversion.Faithful;
    var budget := WriteBudget(d.budget, conv);
    var r: Members := map[Keys.Id := String(ToHex(d.id)), Keys.Type := String(TypeText(d.domainType))];
    r := r[Keys.Provider := String(d.provider)];
    r := r[Keys.NativeResourceId := String(d.nativeResourceId)];
    r := r[Keys.Budget := budget];
    r := r[Keys.Governed := Bool(d.governed)];
    r := r[Keys.TotalCapacity := OfUint(d.totalCapacity, conv)];
    r := r[Keys.UsableCapacity := OfUint(d.usableCapacity, conv)];
    r := r[Keys.ReservedBytes := OfUint(d.reservedBytes, conv)];
    r := r[Keys.Committed := OfUint(d.committed, conv)];
    r := r[Keys.Resident := OfUint(d.resident, conv)];
    r := r[Keys.Available := OfUint(d.available, conv)];
    r := r[Keys.Reclaimable := OfUint(d.reclaimable, conv)];
    r := r[Keys.Utilization := OfReal(d.utilization)];
    r := r[Keys.Level := String(LevelText(d.level))];
    r := r[Keys.PreviousLevel := String(LevelText(d.previousLevel))];
    r := r[Keys.InHysteresisHold := Bool(d.inHysteresisHold)];
    r := r[Keys.LevelHoldObservations := OfUint(d.levelHoldObservations, conv)];
    r := r[Keys.Score := OfReal(d.score)];
    r := r[Keys.UtilizationComponent := OfReal(d.utilizationComponent)];
    r := r[Keys.FreeDeficitComponent := OfReal(d.freeDeficitComponent)];
    r := r[Keys.ReserveDeficitComponent := OfReal(d.reserveDeficitComponent)];
    r := r[Keys.GrowthComponent := OfReal(d.growthComponent)];
    r := r[Keys.AllocationFailureComponent := OfReal(d.allocationFailureComponent)];
    r := r[Keys.Stigma := OfReal(d.stigma)];
    r := r[Keys.Trend := String(TrendText(d.trend))];
    r := r[Keys.TrendRate := OfReal(d.trendRate)];
    r := r[Keys.TrendConfidence := OfReal(d.trendConfidence)];
    r := r[Keys.TrendWindowSamples := OfUint(d.trendWindowSamples, conv)];
    r := r[Keys.Confidence := String(ConfidenceText(d.confidence))];
    r := r[Keys.Provenance := String(ProvenanceText(d.provenance))];
    r := r[Keys.Validity := String(ValidityText(d.validity))];
    r := r[Keys.TimestampMs := OfUint(d.timestampMs, conv)];
    r := r[Keys.Explanation := String(d.explanation)];
    r := r[Keys.EnteredLevelAtMs := OfUint(d.enteredLevelAtMs, conv)];
    r := r[Keys.PeakLevel := OfUint(d.peakLevel, conv)];
    var items: seq<Json> := [];
    for i := 0 to |d.responses|
      invariant items == ActionsToJson(d.responses)[..i]
    {
      items := items + [String(ActionText(d.responses[i]))];
    }
    assert items == ActionsToJson(d.responses);
    r := r[Keys.Responses := Array(items)];
    j := Record(r);
    if conv.Faithful() { StateReadsBackIff(d, conv); }
  }

  method WriteHealth(h: map<string, ProviderStatus>) returns (j: Json)
    ensures j == HealthToJson(h)
  {
    hide StatusText;
    var members: map<string, Json> := map[];
    var todo := h.Keys;
    while todo != {}
      invariant todo <= h.Keys && members.Keys == h.Keys - todo
      invariant forall k | k in members :: members[k] == String(StatusText(h[k]))
      decreases |todo|
    {
      var k :| k in todo;
      members := members[k := String(StatusText(h[k]))];
      todo := todo - {k};
    }
    j := Object(members);
  }

  method WriteSnapshot(s: Snapshot, conv: Conversion) returns (j: Json)
    ensures j == SnapshotToJson(s, conv)
    ensures conv.Faithful() ==> (SnapshotFromJson(j) == Some(s) <==> Survives(s))
  {
    hide OfUint, OfInt, OfReal, ConfidenceText, ProvenanceText, LevelText, HealthToJson, StateToJson, Record,
         Survives, SnapshotFromJson, StateFromJson, SmallAndValid, Conversion.Faithful;
    var r: Members := map[Keys.Schema := OfInt(SCHEMA, conv), Keys.Id := OfUint(s.id, conv)];
    r := r[Keys.Generation := OfUint(s.generation, conv)];
    r := r[Keys.TimestampMs := OfUint(s.timestampMs, conv)];
    r := r[Keys.PolicyVersion := OfUint(s.policyVersion, conv)];
    r := r[Keys.PolicyName := String(s.policyName)];
    r := r[Keys.AggregateLevel := String(LevelText(s.aggregateLevel))];
    r := r[Keys.AggregateScore := OfReal(s.aggregateScore)];
    r := r[Keys.AggregateExplanation := String(s.aggregateExplanation)];
    r := r[Keys.StaleData := Bool(s.staleData)];
    r := r[Keys.PartialData := Bool(s.partialData)];
    r := r[Keys.Confidence := String(ConfidenceText(s.confidence))];
    r := r[Keys.Provenance := String(ProvenanceText(s.provenance))];
    var warnings: seq<Json> := [];
    for i := 0 to |s.warnings|
      invariant warnings == WarningsToJson(s.warnings)[..i]
    {
      warnings := warnings + [String(s.warnings[i])];
    }
    assert warnings == WarningsToJson(s.warnings);
    r := r[Keys.Warnings := Array(warnings)];
    var health := WriteHealth(s.providerHealth);
    r := r[Keys.ProviderHealth := health];
    var domains: seq<Json> := [];
    for i := 0 to |s.domains|
      invariant domains == StatesToJson(s.domains, conv)[..i]
    {
      var d := WriteState(s.domains[i], conv);
      domains := domains + [d];
    }
    assert domains == StatesToJson(s.domains, conv);
    r := r[Keys.Domains := Array(domains)];
    var ev: Members := map[Keys.Count := OfUint(s.eventCount, conv)];
    ev := ev[Keys.Dropped := OfUint(s.eventsDropped, conv)];
    r := r[Keys.Events := Record(ev)];
    j := Record(r);
    if conv.Faithful() { SnapshotReadsBackIff(s, conv); }
  }

  method WriteTrace(t: PressureTrace, conv: Conversion) returns (j: Json)
    ensures j == TraceToJson(t, conv)
    ensures conv.Faithful() ==>
              (TraceFromJson(j) == Some(t) <==> Small(t.policyVersion) && FramesSurvive(t.frames, |t.frames|))
  {
    hide OfUint, OfInt, ObservationToJson, HealthToJson, Record, TraceFromJson, FramesSurvive, ObservationFromJson,
         SmallObservation, Conversion.Faithful;
    var frames: seq<Json> := [];
    for i := 0 to |t.frames|
      invariant frames == FramesToJson(t.frames, conv)[..i]
    {
      var f := t.frames[i];
      var obs: seq<Json> := [];
      for k := 0 to |f.observations|
        invariant obs == ObservationsToJson(f.observations, conv)[..k]
      {
        var o := WriteObservation(f.observations[k], conv);
        obs := obs + [o];
      }
      assert obs == ObservationsToJson(f.observations, conv);
      var health := WriteHealth(f.providerHealth);
      var ff: Members := map[Keys.TimestampMs := OfUint(f.timestampMs, conv), Keys.Observations := Array(obs)];
      ff := ff[Keys.ProviderHealth := health];
      frames := frames + [Record(ff)];
    }
    var r: Members := map[Keys.Schema := OfInt(SCHEMA, conv), Keys.PolicyVersion := OfUint(t.policyVersion, conv)];
    assert frames == FramesToJson(t.frames, conv);
    r := r[Keys.Frames := Array(frames)];
    j := Record(r);
    if conv.Faithful() { TraceReadsBackIff(t, conv); }
  }

  // ---- reading ----

  method ReadUint(j: Json, k: Keys.Key) returns (n: nat)
    ensures n == UintAt(j, k)
  {
    hide At;
    n := 0;
    var v := At(j, k);
    if v.Some? { n := v.value.AsUint64().GetOr(0); }
  }

  method ReadText(j: Json, k: Keys.Key) returns (s: string)
    ensures s == TextAt(j, k)
  {
    hide At;
    s := "";
    var v := At(j, k);
    if v.Some? { s := v.value.AsString().GetOr(""); }
  }

  method ReadBool(j: Json, k: Keys.Key) returns (b: bool)
    ensures b == BoolAt(j, k)
  {
    hide At;
    b := false;
    var v := At(j, k);
    if v.Some? { b := v.value.AsBool().GetOr(false); }
  }

  method ReadReal(j: Json, k: Keys.Key) returns (r: real)
    ensures r == RealAt(j, k)
  {
    hide At;
    r := 0.0;
    var v := At(j, k);
    if v.Some? {
      var n := v.value;
      if n.Number? && n.num.Finite? { r := n.num.value; }
    }
  }

  method ReadReserve(j: Json) returns (r: Reserve)
    ensures r == ReserveFromJson(j)
  {
    hide KindOf, At;
    r := Reserve(CustomReserve, "", 0);
    var kind := ReadText(j, Keys.Kind);
    var parsed := KindOf(kind);
    if parsed.Some? { r := r.(kind := parsed.value); }
    var name := ReadText(j, Keys.Name);
    var bytes := ReadUint(j, Keys.Bytes);
    r := r.(name := name, bytes := bytes);
  }

  method ReadBudget(j: Json) returns (r: Option<Budget>)
    ensures r == BudgetFromJson(j)
  {
    hide BudgetOk, At, TextAt, UintAt, Json.AsUint64;
    var h := At(j, Keys.HardCapacity);
    if h.None? { return None; }
    var hard := h.value.AsUint64();
    if hard.None? { return None; }
    var soft: Option<nat> := None;
    var v := At(j, Keys.SoftCapacity);
    if v.Some? { soft := v.value.AsUint64(); }
    var emergency := ReadUint(j, Keys.EmergencyReserveBytes);
    var free := ReadUint(j, Keys.MinimumFreeReserve);
    var reclaim := ReadUint(j, Keys.ReclaimTarget);
    var demotion := ReadUint(j, Keys.DemotionTarget);
    var headroom := ReadUint(j, Keys.AdmissionHeadroom);
    var owner := ReadText(j, Keys.Owner);
    var version := ReadUint(j, Keys.Version);
    var reserves := [];
    var items := ItemsAt(j, Keys.Reserves);
    for i := 0 to |items|
      invariant reserves == ReservesFromJson(items)[..i]
    {
      var rv := ReadReserve(items[i]);
      reserves := reserves + [rv];
    }
    assert reserves == ReservesFromJson(items);
    var b := Budget(hard.value, soft, reserves, emergency, free, reclaim, demotion, headroom, owner, version);
    assert b == BudgetMembers(j, hard.value);
    if !BudgetOk(b) { return None; }
    return Some(b);
  }

  /** A missing member leaves the field at 0; a malformed one refuses the document. */
  method RequireUint(j: Json, k: Keys.Key) returns (n: Option<nat>)
    ensures n == RequiredUint(j, k)
  {
    hide At, Json.AsUint64;
    var v := At(j, k);
    if v.None? { return Some(0); }
    return v.value.AsUint64();
  }

  method ReadOptional(j: Json, k: Keys.Key) returns (n: Option<Option<nat>>)
    ensures n == OptionalUint(j, k)
  {
    hide At, Json.AsUint64;
    var v := At(j, k);
    if v.None? { return Some(None); }
    var u := v.value.AsUint64();
    if u.None? { return None; }
    return Some(u);
  }

  method ReadObservation(j: Json) returns (r: Option<DomainObservation>)
    ensures r == ObservationFromJson(j)
  {
    hide At, IdAt, TextAt, RealAt, Int32At, RequiredUint, OptionalUint, TypeAt, ConfidenceAt, ProvenanceAt,
         ValidityAt;
    var id := IdAt(j, Keys.Id);
    if id.None? { return None; }
    var provider := ReadText(j, Keys.Provider);
    var resource := ReadText(j, Keys.NativeResourceId);
    var total := RequireUint(j, Keys.TotalCapacity);
    if total.None? { return None; }
    var committed := RequireUint(j, Keys.Committed);
    if committed.None? { return None; }
    var resident := RequireUint(j, Keys.Resident);
    if resident.None? { return None; }
    var unavailable := RequireUint(j, Keys.Unavailable);
    if unavailable.None? { return None; }
    var available := RequireUint(j, Keys.Available);
    if available.None? { return None; }
    var observedAt := RequireUint(j, Keys.ObservedAtMs);
    if observedAt.None? { return None; }
    var reclaimable := ReadOptional(j, Keys.Reclaimable);
    if reclaimable.None? { return None; }
    var usable := ReadOptional(j, Keys.UsableCapacity);
    if usable.None? { return None; }
    var reserved := ReadOptional(j, Keys.Reserved);
    if reserved.None? { return None; }
    var growth := ReadReal(j, Keys.GrowthBytesPerS);
    var detail := ReadText(j, Keys.Detail);
    return Some(DomainObservation(
      id.value, TypeAt(j, Keys.Type), provider, resource, total.value, committed.value, resident.value,
      reclaimable.value,
      unavailable.value, available.value, usable.value, reserved.value, ConfidenceAt(j, Keys.Confidence),
      ProvenanceAt(j, Keys.Provenance), ValidityAt(j, Keys.Validity), observedAt.value,
      Int32At(j, Keys.AllocationFailures), growth, detail));
  }

  method ReadActions(items: seq<Json>) returns (actions: seq<ResponseAction>)
    ensures actions == ActionsFromJson(items, |items|)
  {
    hide ActionOf;
    actions := [];
    for i := 0 to |items|
      invariant actions == ActionsFromJson(items, i)
    {
      var parsed := ActionOf(items[i].AsString().GetOr(""));
      if parsed.Some? {
        actions := actions + [parsed.value];
      } else {
        assert actions + [] == actions;
      }
    }
  }

  /** The member is missing or is not an unsigned number. */
  ghost predicate NoUint(j: Json, k: Keys.Key) {
    At(j, k).None? || At(j, k).value.AsUint64().None?
  }

  /** What a domain state is given for members that are missing or malformed. */
  ghost predicate Defaults(j: Json, d: DomainState) {
    && (NoUint(j, Keys.TotalCapacity) ==> d.totalCapacity == 0)
    && (NoUint(j, Keys.UsableCapacity) ==> d.usableCapacity == 0)
    && (NoUint(j, Keys.ReservedBytes) ==> d.reservedBytes == 0) && (NoUint(j, Keys.Committed) ==> d.committed == 0)
    && (NoUint(j, Keys.Resident) ==> d.resident == 0) && (NoUint(j, Keys.Available) ==> d.available == 0)
    && (NoUint(j, Keys.Reclaimable) ==> d.reclaimable == 0)
    && (NoUint(j, Keys.LevelHoldObservations) ==> d.levelHoldObservations == 0)
    && (NoUint(j, Keys.TrendWindowSamples) ==> d.trendWindowSamples == 0)
    && (NoUint(j, Keys.TimestampMs) ==> d.timestampMs == 0)
    && (NoUint(j, Keys.EnteredLevelAtMs) ==> d.enteredLevelAtMs == 0)
    && (NoUint(j, Keys.PeakLevel) ==> d.peakLevel == 0)
    && (At(j, Keys.Budget).None? || BudgetFromJson(At(j, Keys.Budget).value).None? ==> d.budget == DEFAULT_BUDGET)
  }

  lemma {:induction false} StateDefaults(j: Json, id: DomainId)
    ensures Defaults(j, StateMembers(j, id))
  {
    hide At, TextAt, RealAt, BoolAt, ItemsAt, TypeAt, LevelAt, TrendAt, ConfidenceAt, ProvenanceAt, ValidityAt,
         BudgetFromJson, ActionsFromJson;
  }

  lemma {:induction false} StateHasId(j: Json, d: DomainState)
    requires StateFromJson(j) == Some(d)
    ensures IdAt(j, Keys.Id) == Some(d.id) && d == StateMembers(j, d.id)
  {
    hide IdAt, At, TextAt, RealAt, BoolAt, UintAt, ItemsAt, TypeAt, LevelAt, TrendAt, ConfidenceAt, ProvenanceAt,
         ValidityAt, BudgetAt, ActionsFromJson;
  }

  /** The written form of a domain state is always read, and as itself exactly when it is in range. */
  lemma {:induction false} StateOfWritten(j: Json, d: DomainState, conv: Conversion)
    requires conv.Faithful() && j == StateToJson(d, conv)
    ensures StateFromJson(j).Some? && (StateFromJson(j) == Some(d) <==> SmallAndValid(d))
  {
    hide Conversion.Faithful, SmallAndValid, Record, ToHex, StateMembers;
    StateReadsBackIff(d, conv);
    StateIdSurvives(d, conv);
  }

  method ReadState(j: Json) returns (r: Option<DomainState>)
    ensures r == StateFromJson(j)
    ensures r.None? <==> IdAt(j, Keys.Id).None?
    ensures r.Some? ==> Some(r.value.id) == IdAt(j, Keys.Id) && Defaults(j, r.value)
    ensures forall d, conv: Conversion | conv.Faithful() && j == StateToJson(d, conv) ::
              r.Some? && (r == Some(d) <==> SmallAndValid(d))
  {
    hide Conversion.Faithful, SmallAndValid, IdAt, Defaults, StateMembers, StateToJson;
    forall d, conv: Conversion | conv.Faithful() && j == StateToJson(d, conv)
      ensures StateFromJson(j).Some? && (StateFromJson(j) == Some(d) <==> SmallAndValid(d)) {
      StateOfWritten(j, d, conv);
    }
    r := ReadMembers(j);
    if r.Some? {
      StateHasId(j, r.value);
      StateDefaults(j, r.value.id);
    }
  }

  method ReadMembers(j: Json) returns (r: Option<DomainState>)
    ensures r == StateFromJson(j)
  {
    hide At, IdAt, TextAt, RealAt, BoolAt, UintAt, ItemsAt, TypeAt, LevelAt, TrendAt, ConfidenceAt, ProvenanceAt,
         ValidityAt, BudgetFromJson, ActionsFromJson;
    var id := IdAt(j, Keys.Id);
    if id.None? { return None; }
    var budget := DEFAULT_BUDGET;
    var v := At(j, Keys.Budget);
    if v.Some? {
      var b := ReadBudget(v.value);
      budget := b.GetOr(DEFAULT_BUDGET);
    }
    var provider := ReadText(j, Keys.Provider);
    var resource := ReadText(j, Keys.NativeResourceId);
    var governed := ReadBool(j, Keys.Governed);
    var total := ReadUint(j, Keys.TotalCapacity);
    var usable := ReadUint(j, Keys.UsableCapacity);
    var reserved := ReadUint(j, Keys.ReservedBytes);
    var committed := ReadUint(j, Keys.Committed);
    var resident := ReadUint(j, Keys.Resident);
    var available := ReadUint(j, Keys.Available);
    var reclaimable := ReadUint(j, Keys.Reclaimable);
    var utilization := ReadReal(j, Keys.Utilization);
    var inHold := ReadBool(j, Keys.InHysteresisHold);
    var hold := ReadUint(j, Keys.LevelHoldObservations);
    var score := ReadReal(j, Keys.Score);
    var utilizationPart := ReadReal(j, Keys.UtilizationComponent);
    var freePart := ReadReal(j, Keys.FreeDeficitComponent);
    var reservePart := ReadReal(j, Keys.ReserveDeficitComponent);
    var growthPart := ReadReal(j, Keys.GrowthComponent);
    var failurePart := ReadReal(j, Keys.AllocationFailureComponent);
    var stigma := ReadReal(j, Keys.Stigma);
    var rate := ReadReal(j, Keys.TrendRate);
    var trendConfidence := ReadReal(j, Keys.TrendConfidence);
    var samples := ReadUint(j, Keys.TrendWindowSamples);
    var at := ReadUint(j, Keys.TimestampMs);
    var explanation := ReadText(j, Keys.Explanation);
    var entered := ReadUint(j, Keys.EnteredLevelAtMs);
    var peak := ReadUint(j, Keys.PeakLevel);
    var actions := ReadActions(ItemsAt(j, Keys.Responses));
    return Some(DomainState(
      id.value, TypeAt(j, Keys.Type), provider, resource, budget, governed, total, usable, reserved, committed,
      resident,
      available, reclaimable, utilization, LevelAt(j, Keys.Level), LevelAt(j, Keys.PreviousLevel), inHold, hold, score,
      utilizationPart, freePart, reservePart, growthPart, failurePart, stigma, TrendAt(j, Keys.Trend), rate,
      trendConfidence,
      samples, ConfidenceAt(j, Keys.Confidence), ProvenanceAt(j, Keys.Provenance), ValidityAt(j, Keys.Validity), at,
      actions,
      explanation, entered, peak));
  }

  /** The reader keeps the ids it has seen, and refuses a repeated one. */
  method ReadStates(items: seq<Json>) returns (r: Option<seq<DomainState>>)
    ensures r == StatesFromJson(items, |items|)
  {
    hide StateFromJson, Defaults, IdAt, StateToJson, SmallAndValid, Conversion.Faithful;
    var domains: seq<DomainState>, seen: seq<DomainId> := [], [];
    for i := 0 to |items|
      invariant StatesFromJson(items, i) == Some(domains)
      invariant |seen| == |domains| && forall n | 0 <= n < |seen| :: seen[n] == domains[n].id
    {
      var d := ReadState(items[i]);
      if d.None? {
        StatesStayUnread(items, i + 1, |items|);
        return None;
      }
      for n := 0 to |seen|
        invariant forall m | 0 <= m < n :: seen[m] != d.value.id
      {
        if seen[n] == d.value.id {
          assert domains[n] in domains;
          StatesStayUnread(items, i + 1, |items|);
          return None;
        }
      }
      seen := seen + [d.value.id];
      domains := domains + [d.value];
    }
    return Some(domains);
  }

  lemma {:induction false} StatesStayUnread(items: seq<Json>, k: nat, n: nat)
    requires k <= n <= |items| && StatesFromJson(items, k).None?
    ensures StatesFromJson(items, n).None?
  {
    hide StateFromJson, WithState;
    if k == n {
    } else {
      StatesStayUnread(items, k, n - 1);
    }
  }

  method ReadHealth(j: Json) returns (h: map<string, ProviderStatus>)
    ensures h == HealthFromJson(j)
  {
    hide StatusFrom, Json.AsString;
    h := map[];
    if !j.Object? { return; }
    var todo := j.members.Keys;
    while todo != {}
      invariant todo <= j.members.Keys && h.Keys == j.members.Keys - todo
      invariant forall k | k in h :: h[k] == StatusFrom(j.members[k].AsString().GetOr("")).GetOr(Unavailable)
      decreases |todo|
    {
      var k :| k in todo;
      h := h[k := StatusFrom(j.members[k].AsString().GetOr("")).GetOr(Unavailable)];
      todo := todo - {k};
    }
  }

  method ReadHealthMember(j: Json) returns (h: map<string, ProviderStatus>)
    ensures h == HealthAt(j, Keys.ProviderHealth)
  {
    hide At, HealthFromJson;
    h := map[];
    var v := At(j, Keys.ProviderHealth);
    if v.Some? { h := ReadHealth(v.value); }
  }

  method ReadSnapshot(j: Json) returns (r: Option<Snapshot>)
    ensures r == SnapshotFromJson(j)
  {
    hide At, HasSchema, TextAt, RealAt, BoolAt, UintAt, ItemsAt, LevelAt, ConfidenceAt, ProvenanceAt, HealthAt,
         StatesFromJson;
    if !HasSchema(j) { return None; }
    var id := ReadUint(j, Keys.Id);
    var generation := ReadUint(j, Keys.Generation);
    var at := ReadUint(j, Keys.TimestampMs);
    var version := ReadUint(j, Keys.PolicyVersion);
    var policyName := ReadText(j, Keys.PolicyName);
    var score := ReadReal(j, Keys.AggregateScore);
    var explanation := ReadText(j, Keys.AggregateExplanation);
    var staleData := ReadBool(j, Keys.StaleData);
    var partialData := ReadBool(j, Keys.PartialData);
    var warnings := [];
    var items := ItemsAt(j, Keys.Warnings);
    for i := 0 to |items|
      invariant warnings == WarningsFromJson(items)[..i]
    {
      warnings := warnings + [items[i].AsString().GetOr("")];
    }
    assert warnings == WarningsFromJson(items);
    var health := ReadHealthMember(j);
    var domains := ReadStates(ItemsAt(j, Keys.Domains));
    if domains.None? { return None; }
    var count: nat, dropped: nat := 0, 0;
    var v := At(j, Keys.Events);
    if v.Some? {
      count := ReadUint(v.value, Keys.Count);
      dropped := ReadUint(v.value, Keys.Dropped);
      count, dropped := count % TWO32, dropped % TWO32;
    }
    return Some(Snapshot(
      id, generation, at, domains.value, health, LevelAt(j, Keys.AggregateLevel), score, explanation, version,
      policyName,
      warnings, staleData, partialData, ConfidenceAt(j, Keys.Confidence), ProvenanceAt(j, Keys.Provenance), count,
      dropped));
  }

  lemma {:induction false} ObservationsStayUnread(items: seq<Json>, k: nat, n: nat)
    requires k <= n <= |items| && ObservationsFromJson(items, k).None?
    ensures ObservationsFromJson(items, n).None?
  {
    hide ObservationFromJson;
    if k == n {
    } else {
      ObservationsStayUnread(items, k, n - 1);
    }
  }

  lemma {:induction false} FramesStayUnread(items: seq<Json>, k: nat, n: nat)
    requires k <= n <= |items| && FramesFromJson(items, k).None?
    ensures FramesFromJson(items, n).None?
  {
    hide FrameFromJson;
    if k == n {
    } else {
      FramesStayUnread(items, k, n - 1);
    }
  }

  method ReadFrame(j: Json) returns (r: Option<TraceFrame>)
    ensures r == FrameFromJson(j)
  {
    hide At, UintAt, ItemsAt, HealthAt, ObservationFromJson;
    var at := ReadUint(j, Keys.TimestampMs);
    var observations: seq<DomainObservation> := [];
    var items := ItemsAt(j, Keys.Observations);
    for i := 0 to |items|
      invariant ObservationsFromJson(items, i) == Some(observations)
    {
      var o := ReadObservation(items[i]);
      if o.None? {
        ObservationsStayUnread(items, i + 1, |items|);
        return None;
      }
      observations := observations + [o.value];
    }
    var health := ReadHealthMember(j);
    return Some(TraceFrame(at, observations, health));
  }

  method ReadTrace(j: Json) returns (r: Option<PressureTrace>)
    ensures r == TraceFromJson(j)
  {
    hide At, HasSchema, FrameFromJson, VersionAt;
    if !HasSchema(j) { return None; }
    var f := At(j, Keys.Frames);
    if f.None? || !f.value.Array? { return None; }
    var items := f.value.items;
    var frames: seq<TraceFrame> := [];
    for i := 0 to |items|
      invariant FramesFromJson(items, i) == Some(frames)
    {
      var fr := ReadFrame(items[i]);
      if fr.None? {
        FramesStayUnread(items, i + 1, |items|);
        return None;
      }
      frames := frames + [fr.value];
    }
    return Some(PressureTrace(VersionAt(j), frames));
  }
}
