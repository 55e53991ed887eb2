/** From objects to JSON to text and back to objects. */
module EndToEnd {
  import opened Options
  import opened Numbers
  import opened Policy
  import opened Domain
  import opened JsonValue
  import opened JsonGrammar
  import opened JsonParsing
  import opened JsonPrinting
  import opened EnumText
  import opened Hex
  import opened Documents
  import opened SnapshotDocuments
  import opened TraceDocuments
  import opened RefreshFacts
  import opened Runs
  import opened RunFacts
  import Keys

  /** A value whose numbers are doubles that survive printing. */
  ghost predicate Plain(v: Json, conv: Conversion) {
    Representable(v, conv) && NoOverflow(v)
  }

  ghost predicate PlainMembers(m: Members, conv: Conversion) {
    forall k | k in m :: Plain(m[k], conv)
  }

  predicate PlainReal(r: real, conv: Conversion) {
    conv.IsDouble(r) && r != TWO63 as real
  }

  lemma {:induction false} RecordIsPlain(m: Members, conv: Conversion)
    requires PlainMembers(m, conv)
    ensures Plain(Record(m), conv)
  {
    hide Keys.MemberName;
    Keys.NamesDiffer();
    var v := Record(m);
    forall s | s in v.members ensures Plain(v.members[s], conv) {
      var k :| k in m && Keys.MemberName(k) == s;
      assert v.members[s] == m[k];
    }
  }

  lemma {:induction false} ArrayIsPlain(items: seq<Json>, conv: Conversion)
    requires forall i | 0 <= i < |items| :: Plain(items[i], conv)
    ensures Plain(Array(items), conv)
  {
  }

  lemma {:induction false} TextIsPlain(s: string, conv: Conversion)
    ensures Plain(String(s), conv)
  {
  }

  lemma {:induction false} BoolIsPlain(b: bool, conv: Conversion)
    ensures Plain(Bool(b), conv)
  {
  }

  lemma {:induction false} IntIsPlain(n: int, conv: Conversion)
    requires conv.Faithful() && -TWO53 <= n <= TWO53
    ensures Plain(OfInt(n, conv), conv)
  {
    IntegerIsDouble(conv, n);
  }

  lemma {:induction false} UintIsPlain(n: nat, conv: Conversion)
    requires conv.Faithful() && Small(n)
    ensures Plain(OfUint(n, conv), conv)
  {
    assert ToInt64(n) == n;
    IntIsPlain(n, conv);
  }

  lemma {:induction false} RealIsPlain(r: real, conv: Conversion)
    requires PlainReal(r, conv)
    ensures Plain(OfReal(r), conv)
  {
  }

  // ---- each kind of document ----

  lemma {:induction false} ReserveIsPlain(r: Reserve, conv: Conversion)
    requires conv.Faithful() && Small(r.bytes)
    ensures Plain(ReserveToJson(r, conv), conv)
  {
    hide Record, Plain, OfUint, KindText;
    TextIsPlain(KindText(r.kind), conv);
    TextIsPlain(r.name, conv);
    UintIsPlain(r.bytes, conv);
    RecordIsPlain(ReserveRecord(r, conv), conv);
  }

  lemma {:induction false} BudgetIsPlain(b: Budget, conv: Conversion)
    requires conv.Faithful() && SmallBudget(b)
    ensures Plain(BudgetToJson(b, conv), conv)
  {
    hide Record, Plain, OfUint, ReserveToJson;
    UintIsPlain(b.version, conv);
    UintIsPlain(b.hardCapacity, conv);
    if b.softCapacity.Some? { UintIsPlain(b.softCapacity.value, conv); }
    UintIsPlain(b.emergencyReserveBytes, conv);
    UintIsPlain(b.minimumFreeReserve, conv);
    UintIsPlain(b.reclaimTarget, conv);
    UintIsPlain(b.demotionTarget, conv);
    UintIsPlain(b.admissionHeadroom, conv);
    TextIsPlain(b.owner, conv);
    forall i | 0 <= i < |b.reserves| ensures Plain(ReservesToJson(b.reserves, conv)[i], conv) {
      ReserveIsPlain(b.reserves[i], conv);
    }
    ArrayIsPlain(ReservesToJson(b.reserves, conv), conv);
    RecordIsPlain(BudgetRecord(b, conv), conv);
  }

  lemma {:induction false} ObservationIsPlain(o: DomainObservation, conv: Conversion)
    requires conv.Faithful() && SmallObservation(o) && PlainReal(o.growthBytesPerS, conv)
    ensures Plain(ObservationToJson(o, conv), conv)
  {
    hide Record, Plain, OfUint, OfInt, OfReal, PlainReal, ToHex, TypeText, ConfidenceText, ProvenanceText,
         ValidityText;
    forall s: string ensures Plain(String(s), conv) { TextIsPlain(s, conv); }
    UintIsPlain(o.totalCapacity, conv);
    UintIsPlain(o.committed, conv);
    UintIsPlain(o.resident, conv);
    UintIsPlain(o.unavailable, conv);
    UintIsPlain(o.available, conv);
    UintIsPlain(o.observedAtMs, conv);
    if o.reclaimable.Some? { UintIsPlain(o.reclaimable.value, conv); }
    if o.usableCapacity.Some? { UintIsPlain(o.usableCapacity.value, conv); }
    if o.reserved.Some? { UintIsPlain(o.reserved.value, conv); }
    IntIsPlain(o.allocationFailures, conv);
    RealIsPlain(o.growthBytesPerS, conv);
    RecordIsPlain(ObservationRecord(o, conv), conv);
  }

  ghost predicate PlainState(d: DomainState, conv: Conversion) {
    && PlainReal(d.utilization, conv) && PlainReal(d.score, conv) && PlainReal(d.utilizationComponent, conv)
    && PlainReal(d.freeDeficitComponent, conv) && PlainReal(d.reserveDeficitComponent, conv)
    && PlainReal(d.growthComponent, conv) && PlainReal(d.allocationFailureComponent, conv) && PlainReal(d.stigma, conv)
    && PlainReal(d.trendRate, conv) && PlainReal(d.trendConfidence, conv)
  }

  lemma {:induction false} StateIsPlain(d: DomainState, conv: Conversion)
    requires conv.Faithful() && SmallState(d) && SmallBudget(d.budget) && PlainState(d, conv)
    ensures Plain(StateToJson(d, conv), conv)
  {
    hide Record, Plain, OfUint, OfInt, OfReal, PlainReal, ToHex, TypeText, ConfidenceText, ProvenanceText,
         ValidityText, LevelText, TrendText, BudgetToJson, SmallBudget, ActionText;
    forall s: string ensures Plain(String(s), conv) { TextIsPlain(s, conv); }
    forall b: bool ensures Plain(Bool(b), conv) { BoolIsPlain(b, conv); }
    forall n: nat | Small(n) ensures Plain(OfUint(n, conv), conv) { UintIsPlain(n, conv); }
    forall r: real | PlainReal(r, conv) ensures Plain(OfReal(r), conv) { RealIsPlain(r, conv); }
    BudgetIsPlain(d.budget, conv);
    ArrayIsPlain(ActionsToJson(d.responses), conv);
    RecordIsPlain(StateRecord(d, conv), conv);
  }

  lemma {:induction false} HealthIsPlain(h: map<string, ProviderStatus>, conv: Conversion)
    ensures Plain(HealthToJson(h), conv)
  {
    hide StatusText;
    var j := HealthToJson(h);
    forall k | k in j.members ensures Plain(j.members[k], conv) {
      TextIsPlain(StatusText(h[k]), conv);
    }
  }

  ghost predicate PlainSnapshot(s: Snapshot, conv: Conversion) {
    PlainReal(s.aggregateScore, conv) && forall i | 0 <= i < |s.domains| :: PlainState(s.domains[i], conv)
  }

  lemma {:induction false} SnapshotIsPlain(s: Snapshot, conv: Conversion)
    requires conv.Faithful() && Survives(s) && PlainSnapshot(s, conv)
    ensures Plain(SnapshotToJson(s, conv), conv)
  {
    hide Record, Plain, OfUint, OfInt, OfReal, PlainReal, PlainState, ConfidenceText, ProvenanceText, LevelText,
         HealthToJson, StateToJson, SmallState, SmallBudget, BudgetOk;
    forall t: string ensures Plain(String(t), conv) { TextIsPlain(t, conv); }
    forall b: bool ensures Plain(Bool(b), conv) { BoolIsPlain(b, conv); }
    forall n: nat | Small(n) ensures Plain(OfUint(n, conv), conv) { UintIsPlain(n, conv); }
    IntIsPlain(SCHEMA, conv);
    RealIsPlain(s.aggregateScore, conv);
    ArrayIsPlain(WarningsToJson(s.warnings), conv);
    HealthIsPlain(s.providerHealth, conv);
    forall i | 0 <= i < |s.domains| ensures Plain(StatesToJson(s.domains, conv)[i], conv) {
      StateIsPlain(s.domains[i], conv);
    }
    ArrayIsPlain(StatesToJson(s.domains, conv), conv);
    RecordIsPlain(EventSummary(s, conv), conv);
    RecordIsPlain(SnapshotRecord(s, conv), conv);
  }

  ghost predicate PlainObservations(os: seq<DomainObservation>, conv: Conversion) {
    forall i | 0 <= i < |os| :: PlainReal(os[i].growthBytesPerS, conv)
  }

  lemma {:induction false} FrameIsPlain(f: TraceFrame, conv: Conversion)
    requires conv.Faithful() && FrameSurvives(f) && PlainObservations(f.observations, conv)
    ensures Plain(Record(FrameRecord(f, conv)), conv)
  {
    hide Record, Plain, OfUint, PlainReal, ObservationToJson, SmallObservation, HealthToJson;
    UintIsPlain(f.timestampMs, conv);
    forall i | 0 <= i < |f.observations| ensures Plain(ObservationsToJson(f.observations, conv)[i], conv) {
      ObservationIsPlain(f.observations[i], conv);
    }
    ArrayIsPlain(ObservationsToJson(f.observations, conv), conv);
    HealthIsPlain(f.providerHealth, conv);
    RecordIsPlain(FrameRecord(f, conv), conv);
  }

  ghost predicate PlainTrace(t: PressureTrace, conv: Conversion) {
    forall i | 0 <= i < |t.frames| :: PlainObservations(t.frames[i].observations, conv)
  }

  lemma {:induction false} TraceIsPlain(t: PressureTrace, conv: Conversion)
    requires conv.Faithful() && Small(t.policyVersion) && FramesSurvive(t.frames, |t.frames|) && PlainTrace(t, conv)
    ensures Plain(TraceToJson(t, conv), conv)
  {
    hide Record, FrameRecord, Plain, OfUint, OfInt, FrameSurvives, PlainObservations;
    IntIsPlain(SCHEMA, conv);
    UintIsPlain(t.policyVersion, conv);
    forall i | 0 <= i < |t.frames| ensures Plain(FramesToJson(t.frames, conv)[i], conv) {
      FrameIsPlain(t.frames[i], conv);
    }
    ArrayIsPlain(FramesToJson(t.frames, conv), conv);
    RecordIsPlain(TraceRecord(t, conv), conv);
  }

  // ---- through text ----

  lemma {:induction false} RepresentableIsFinite(v: Json, conv: Conversion)
    requires Representable(v, conv)
    ensures IsFinite(v)
  {
    match v
    case Array(items) =>
      forall i | 0 <= i < |items| ensures IsFinite(items[i]) { RepresentableIsFinite(items[i], conv); }
    case Object(members) =>
      forall k | k in members ensures IsFinite(members[k]) { RepresentableIsFinite(members[k], conv); }
    case _ =>
  }

  /** The document read back from the text that a document is written as. */
  ghost function Reread(j: Json, st: Setting): Option<Json> {
    match Serialize(j, st.conv)
    case Some(text) => ParseText(text, st)
    case None => None
  }

  /** A document is within the parser's limits when its nesting and strings are, and its text is not too long. */
  ghost predicate WithinLimits(j: Json, st: Setting) {
    ValueFits(j, 0, st.limits) && |Text(Canon(j, st.conv))| <= st.limits.maxBytes
  }

  lemma {:induction false} PlainRereads(j: Json, st: Setting)
    requires st.conv.Faithful() && Plain(j, st.conv) && WithinLimits(j, st)
    ensures Reread(j, st) == Some(j)
  {
    hide ValueFits, Canon, ParseText, NoOverflow, IsFinite, Representable, Text;
    RoundTripIff(j, st);
    RepresentableIsFinite(j, st.conv);
  }

  ghost function RereadBudget(b: Budget, st: Setting): Option<Budget> {
    match Reread(BudgetToJson(b, st.conv), st)
    case Some(j) => BudgetFromJson(j)
    case None => None
  }

  /** A valid budget with numbers up to 2^53 survives being written to text and read from it. */
  lemma {:induction false} BudgetSurvivesText(b: Budget, st: Setting)
    requires st.conv.Faithful() && SmallBudget(b) && BudgetOk(b) && WithinLimits(BudgetToJson(b, st.conv), st)
    ensures RereadBudget(b, st) == Some(b)
  {
    hide BudgetToJson, BudgetFromJson, Plain, WithinLimits, SmallBudget, BudgetOk, Reread, Conversion.Faithful;
    BudgetIsPlain(b, st.conv);
    PlainRereads(BudgetToJson(b, st.conv), st);
    BudgetReadsBackIff(b, st.conv);
  }

  ghost function RereadObservation(o: DomainObservation, st: Setting): Option<DomainObservation> {
    match Reread(ObservationToJson(o, st.conv), st)
    case Some(j) => ObservationFromJson(j)
    case None => None
  }

  lemma {:induction false} ObservationSurvivesText(o: DomainObservation, st: Setting)
    requires st.conv.Faithful() && SmallObservation(o) && PlainReal(o.growthBytesPerS, st.conv)
    requires WithinLimits(ObservationToJson(o, st.conv), st)
    ensures RereadObservation(o, st) == Some(o)
  {
    hide ObservationToJson, ObservationFromJson, Plain, WithinLimits, SmallObservation, Reread, Conversion.Faithful,
         PlainReal;
    ObservationIsPlain(o, st.conv);
    PlainRereads(ObservationToJson(o, st.conv), st);
    ObservationReadsBackIff(o, st.conv);
  }

  ghost function RereadSnapshot(s: Snapshot, st: Setting): Option<Snapshot> {
    match Reread(SnapshotToJson(s, st.conv), st)
    case Some(j) => SnapshotFromJson(j)
    case None => None
  }

  lemma {:induction false} SnapshotSurvivesText(s: Snapshot, st: Setting)
    requires st.conv.Faithful() && Survives(s) && PlainSnapshot(s, st.conv)
    requires WithinLimits(SnapshotToJson(s, st.conv), st)
    ensures RereadSnapshot(s, st) == Some(s)
  {
    hide SnapshotToJson, SnapshotFromJson, Plain, WithinLimits, Survives, Reread, Conversion.Faithful, PlainSnapshot;
    SnapshotIsPlain(s, st.conv);
    PlainRereads(SnapshotToJson(s, st.conv), st);
    SnapshotReadsBackIff(s, st.conv);
  }

  ghost function RereadTrace(t: PressureTrace, st: Setting): Option<PressureTrace> {
    match Reread(TraceToJson(t, st.conv), st)
    case Some(j) => TraceFromJson(j)
    case None => None
  }

  lemma {:induction false} TraceSurvivesText(t: PressureTrace, st: Setting)
    requires st.conv.Faithful() && PlainTrace(t, st.conv)
    requires Small(t.policyVersion) && FramesSurvive(t.frames, |t.frames|)
    requires WithinLimits(TraceToJson(t, st.conv), st)
    ensures RereadTrace(t, st) == Some(t)
  {
    hide TraceToJson, TraceFromJson, Plain, WithinLimits, FramesSurvive, Reread, Conversion.Faithful, PlainTrace;
    TraceIsPlain(t, st.conv);
    PlainRereads(TraceToJson(t, st.conv), st);
    TraceReadsBackIff(t, st.conv);
  }

  // ---- snapshots of the runtime ----

  ghost predicate SmallStates(ds: seq<DomainState>) {
    forall d | d in ds :: SmallState(d) && SmallBudget(d.budget)
  }
}
