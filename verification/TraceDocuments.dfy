/** Recorded traces as JSON documents, and back. */
module TraceDocuments {
  import opened Options
  import opened Numbers
  import opened Domain
  import opened JsonValue
  import opened Documents
  import opened SnapshotDocuments
  import Keys

  datatype TraceFrame = TraceFrame(
    timestampMs: nat,
    observations: seq<DomainObservation>,
    providerHealth: map<string, ProviderStatus>)

  datatype PressureTrace = PressureTrace(policyVersion: nat, frames: seq<TraceFrame>)

  function ObservationsToJson(os: seq<DomainObservation>, conv: Conversion): (js: seq<Json>)
    ensures |js| == |os| && forall i | 0 <= i < |js| :: js[i] == ObservationToJson(os[i], conv)
  {
    seq(|os|, i requires 0 <= i < |os| => ObservationToJson(os[i], conv))
  }

  function ObservationsFromJson(js: seq<Json>, k: nat): Option<seq<DomainObservation>>
    requires k <= |js|
  {
    if k == 0 then Some([])
    else
      match (ObservationsFromJson(js, k - 1), ObservationFromJson(js[k - 1]))
      case (Some(os), Some(o)) => Some(os + [o])
      case _ => None
  }

  function FrameRecord(f: TraceFrame, conv: Conversion): Members {
    map[Keys.TimestampMs := OfUint(f.timestampMs, conv),
        Keys.Observations := Array(ObservationsToJson(f.observations, conv)),
        Keys.ProviderHealth := HealthToJson(f.providerHealth)]
  }

  function FrameFromJson(j: Json): Option<TraceFrame> {
    var items := ItemsAt(j, Keys.Observations);
    match ObservationsFromJson(items, |items|)
    case Some(os) => Some(TraceFrame(UintAt(j, Keys.TimestampMs), os, HealthAt(j, Keys.ProviderHealth)))
    case None => None
  }

  function FramesToJson(fs: seq<TraceFrame>, conv: Conversion): (js: seq<Json>)
    ensures |js| == |fs| && forall i | 0 <= i < |js| :: js[i] == Record(FrameRecord(fs[i], conv))
  {
    seq(|fs|, i requires 0 <= i < |fs| => Record(FrameRecord(fs[i], conv)))
  }

  function FramesFromJson(js: seq<Json>, k: nat): Option<seq<TraceFrame>>
    requires k <= |js|
  {
    if k == 0 then Some([])
    else
      match (FramesFromJson(js, k - 1), FrameFromJson(js[k - 1]))
      case (Some(fs), Some(f)) => Some(fs + [f])
      case _ => None
  }

  function TraceRecord(t: PressureTrace, conv: Conversion): Members {
    map[Keys.Schema := OfInt(SCHEMA, conv),
        Keys.PolicyVersion := OfUint(t.policyVersion, conv),
        Keys.Frames := Array(FramesToJson(t.frames, conv))]
  }

  function TraceToJson(t: PressureTrace, conv: Conversion): Json {
    Record(TraceRecord(t, conv))
  }

  /** The version of a trace defaults to 1. */
  function VersionAt(j: Json): nat {
    match At(j, Keys.PolicyVersion)
    case Some(v) => v.AsUint64().GetOr(1)
    case None => 1
  }

  function TraceFromJson(j: Json): Option<PressureTrace> {
    if !HasSchema(j) then None
    else
      match At(j, Keys.Frames)
      case Some(Array(items)) =>
        (match FramesFromJson(items, |items|)
         case Some(fs) => Some(PressureTrace(VersionAt(j), fs))
         case None => None)
      case _ => None
  }

  ghost predicate SmallObservations(os: seq<DomainObservation>, k: nat)
    requires k <= |os|
  {
    forall i | 0 <= i < k :: SmallObservation(os[i])
  }

  ghost predicate FrameSurvives(f: TraceFrame) {
    && Small(f.timestampMs) && SmallObservations(f.observations, |f.observations|)
    && forall k | k in f.providerHealth :: f.providerHealth[k] != ProviderStatus.Partial
  }

  ghost predicate FramesSurvive(fs: seq<TraceFrame>, k: nat)
    requires k <= |fs|
  {
    forall i | 0 <= i < k :: FrameSurvives(fs[i])
  }

  lemma {:induction false} ObservationsReadBackIff(os: seq<DomainObservation>, k: nat, conv: Conversion)
    requires conv.Faithful() && k <= |os|
    ensures ObservationsFromJson(ObservationsToJson(os, conv), k) == Some(os[..k]) <==> SmallObservations(os, k)
  {
    hide ObservationToJson, ObservationFromJson, SmallObservation;
    if k == 0 {
    } else {
      ObservationsReadBackIff(os, k - 1, conv);
      ObservationReadsBackIff(os[k - 1], conv);
      assert os[..k] == os[..k - 1] + [os[k - 1]];
      var js := ObservationsToJson(os, conv);
      var before, o := ObservationsFromJson(js, k - 1), ObservationFromJson(js[k - 1]);
      if before.Some? && o.Some? { LastIff(before.value, o.value, os[..k - 1], os[k - 1]); }
    }
  }

  lemma {:induction false} FrameReadsBackIff(f: TraceFrame, conv: Conversion)
    requires conv.Faithful()
    ensures FrameFromJson(Record(FrameRecord(f, conv))) == Some(f) <==> FrameSurvives(f)
  {
    hide Record, At, ItemsAt, UintAt, HealthAt, OfUint, HealthToJson, ObservationsToJson, ObservationsFromJson,
         SmallObservations;
    var m := FrameRecord(f, conv);
    UintRead(m, Keys.TimestampMs, f.timestampMs, conv);
    ItemsRead(m, Keys.Observations, ObservationsToJson(f.observations, conv));
    HealthRead(m, f.providerHealth);
    ObservationsReadBackIff(f.observations, |f.observations|, conv);
    ObservationsLength(f.observations, conv);
  }

  lemma {:induction false} ObservationsLength(os: seq<DomainObservation>, conv: Conversion)
    ensures |ObservationsToJson(os, conv)| == |os| && os[..|os|] == os
  {
  }

  lemma {:induction false} FramesReadBackIff(fs: seq<TraceFrame>, k: nat, conv: Conversion)
    requires conv.Faithful() && k <= |fs|
    ensures FramesFromJson(FramesToJson(fs, conv), k) == Some(fs[..k]) <==> FramesSurvive(fs, k)
  {
    hide Record, FrameRecord, FrameFromJson, FrameSurvives;
    if k == 0 {
    } else {
      FramesReadBackIff(fs, k - 1, conv);
      FrameReadsBackIff(fs[k - 1], conv);
      assert fs[..k] == fs[..k - 1] + [fs[k - 1]];
      var js := FramesToJson(fs, conv);
      var before, f := FramesFromJson(js, k - 1), FrameFromJson(js[k - 1]);
      if before.Some? && f.Some? { LastIff(before.value, f.value, fs[..k - 1], fs[k - 1]); }
    }
  }

  lemma {:induction false} VersionRead(m: Members, n: nat, conv: Conversion)
    requires conv.Faithful() && Keys.PolicyVersion in m && m[Keys.PolicyVersion] == OfUint(n, conv)
    ensures VersionAt(Record(m)) == n <==> Small(n)
  {
    hide Record, At, OfUint;
    RecordAt(m, Keys.PolicyVersion);
    UintReadsBackIff(n, conv);
  }

  /** A trace survives exactly when its frames do and its unsigned numbers are at most 2^53. */
  lemma {:induction false} TraceReadsBackIff(t: PressureTrace, conv: Conversion)
    requires conv.Faithful()
    ensures TraceFromJson(TraceToJson(t, conv)) == Some(t) <==>
              Small(t.policyVersion) && FramesSurvive(t.frames, |t.frames|)
  {
    hide Record, At, OfUint, OfInt, FramesToJson, FramesFromJson, HasSchema, VersionAt, FramesSurvive;
    var m := TraceRecord(t, conv);
    SchemaRead(m, conv);
    VersionRead(m, t.policyVersion, conv);
    RecordAt(m, Keys.Frames);
    FramesReadBackIff(t.frames, |t.frames|, conv);
    FramesLength(t.frames, conv);
  }

  lemma {:induction false} FramesLength(fs: seq<TraceFrame>, conv: Conversion)
    ensures |FramesToJson(fs, conv)| == |fs| && fs[..|fs|] == fs
  {
  }
}
