/** The event stream tells the whole story: replaying it gives the current domains and their levels. */
module EventSourcing {
  import opened Options
  import opened Policy
  import opened HysteresisRuns
  import opened Domain
  import opened Events
  import opened Refresh
  import opened RefreshFacts
  import opened Lifecycle

  /** What a subscriber believes: the severity rank of each domain it knows of. */
  type View = map<DomainId, nat>

  /** Whether an event makes sense to a subscriber that holds a view: only unknown domains are added and
      only known ones removed; pressure is entered from rank 0, escalates and is relieved between positive
      ranks, and recovers to rank 0. */
  predicate Legal(v: View, n: Note) {
    match n.domain
    case None => !n.kind.DomainAdded? && !n.kind.DomainRemoved?
    case Some(id) =>
      match n.kind
      case DomainAdded => id !in v
      case DomainRemoved => id in v
      case PressureEntered => id in v && 0 == v[id] < n.severityRank
      case PressureEscalated => id in v && 0 < v[id] < n.severityRank
      case PressureRelieved => id in v && 0 < n.severityRank < v[id]
      case PressureRecovered => id in v && 0 == n.severityRank < v[id]
      case _ => true
  }

  predicate TellsLevel(kind: EventType) {
    kind.PressureEntered? || kind.PressureEscalated? || kind.PressureRelieved? || kind.PressureRecovered?
  }

  /** The view after an event. A subscriber that is told of a new domain looks up its first level in the
      snapshot. */
  function Told(v: View, n: Note, ds: seq<DomainState>): View {
    match n.domain
    case None => v
    case Some(id) =>
      if n.kind.DomainAdded? then
        (match FindIn(ds, id)
         case Some(d) => v[id := Rank0(d.level)]
         case None => v)
      else if n.kind.DomainRemoved? then v - {id}
      else if TellsLevel(n.kind) then v[id := n.severityRank]
      else v
  }

  /** The view after a refresh's events, if every one of them makes sense when it comes. */
  function Replay(v: View, notes: seq<Note>, ds: seq<DomainState>): Option<View> {
    if notes == [] then Some(v)
    else
      var n := |notes| - 1;
      match Replay(v, notes[..n], ds)
      case Some(v') => if Legal(v', notes[n]) then Some(Told(v', notes[n], ds)) else None
      case None => None
  }

  lemma {:induction false} ReplayConcat(v: View, a: seq<Note>, b: seq<Note>, ds: seq<DomainState>)
    requires Replay(v, a, ds).Some?
    ensures Replay(v, a + b, ds) == Replay(Replay(v, a, ds).value, b, ds)
    decreases |b|
  {
    hide Legal, Told;
    if b == [] {
      assert a + b == a;
    } else {
      ReplayConcat(v, a, b[..|b| - 1], ds);
      assert (a + b)[..|a + b| - 1] == a + b[..|b| - 1];
    }
  }

  lemma {:induction false} ReplayOne(v: View, n: Note, ds: seq<DomainState>)
    ensures Replay(v, [n], ds) == if Legal(v, n) then Some(Told(v, n, ds)) else None
  {
    hide Legal, Told;
    assert [n][..0] == [];
    assert Replay(v, [], ds) == Some(v);
  }

  // ---- events that say nothing about which domains there are and their levels ----

  predicate Silent(n: Note) {
    !n.kind.DomainAdded? && !n.kind.DomainRemoved? && !TellsLevel(n.kind)
  }

  predicate AllSilent(notes: seq<Note>) {
    forall i | 0 <= i < |notes| :: Silent(notes[i])
  }

  lemma {:induction false} ReplaySilent(v: View, notes: seq<Note>, ds: seq<DomainState>)
    requires AllSilent(notes)
    ensures Replay(v, notes, ds) == Some(v)
  {
    if notes == [] {
    } else {
      ReplaySilent(v, notes[..|notes| - 1], ds);
    }
  }

  lemma {:induction false} PollIsSilent(reports: seq<Report>, k: nat)
    requires k <= |reports|
    ensures AllSilent(Poll(reports, k).notes)
  {
    if k == 0 {
    } else {
      PollIsSilent(reports, k - 1);
      assert AllSilent(ReportNotes(reports[k - 1]));
    }
  }

  lemma {:induction false} ActionsAreSilent(d: DomainState, generation: nat, k: nat)
    requires k <= |d.responses|
    ensures AllSilent(ActionNotes(d, generation, k))
  {
    if k == 0 {
    } else {
      ActionsAreSilent(d, generation, k - 1);
      assert AllSilent(ActionNote(d, d.responses[k - 1], generation));
    }
  }

  lemma {:induction false} ResponsesAreSilent(ds: seq<DomainState>, generation: nat, k: nat)
    requires k <= |ds|
    ensures AllSilent(ResponseNotes(ds, generation, k))
  {
    if k == 0 {
    } else {
      ResponsesAreSilent(ds, generation, k - 1);
      ActionsAreSilent(ds[k - 1], generation, |ds[k - 1].responses|);
    }
  }

  // ---- the phases that speak ----

  /** The view is exactly the published domains and their severity ranks. */
  ghost predicate Mirrors(v: View, ds: seq<DomainState>) {
    v.Keys == IdSet(ds) && forall d | d in ds :: v[d.id] == Rank0(d.level)
  }

  lemma {:induction false} ReplayRetention(v: View, states: States, prev: seq<DomainState>, observed: set<DomainId>,
                                           health: map<string, ProviderStatus>, now: nat, k: nat, ds: seq<DomainState>)
    requires k <= |prev| && DistinctIds(prev) && IdSet(prev) <= v.Keys
    ensures Replay(v, Retain(states, prev, observed, health, now, k).notes, ds)
            == Some(v - RemovedIds(prev, observed, health, k))
  {
    hide NotFresh, DistinctIds, Kept, Replay;
    if k == 0 {
      ReplaySilent(v, [], ds);
      assert v - {} == v;
    } else {
      ReplayRetention(v, states, prev, observed, health, now, k - 1, ds);
      var d, before := prev[k - 1], Retain(states, prev, observed, health, now, k - 1).notes;
      DistinctPrefix(prev, k);
      FateIff(prev, observed, health, k - 1, d);
      assert d in prev && d.id in IdSet(prev);
      var n := Note(if Retains(d, observed, health) then ProviderStale else DomainRemoved, 0, Some(d.id), 0);
      var gone := RemovedIds(prev, observed, health, k - 1);
      ReplayConcat(v, before, [n], ds);
      ReplayOne(v - gone, n, ds);
      assert v - gone - {d.id} == v - (gone + {d.id}) && gone + {} == gone;
    }
  }

  /** The ids of the first `k` domains. */
  function IdsOf(ds: seq<DomainState>, k: nat): set<DomainId>
    requires k <= |ds|
  {
    if k == 0 then {} else IdsOf(ds, k - 1) + {ds[k - 1].id}
  }

  lemma {:induction false} IdsOfIff(ds: seq<DomainState>, k: nat, id: DomainId)
    requires k <= |ds|
    ensures id in IdsOf(ds, k) <==> exists i :: 0 <= i < k && ds[i].id == id
  {
    if k == 0 {
    } else {
      IdsOfIff(ds, k - 1, id);
      assert ds[k - 1].id == id ==> exists i :: 0 <= i < k && ds[i].id == id;
    }
  }

  lemma {:induction false} IdsOfAll(ds: seq<DomainState>)
    ensures IdsOf(ds, |ds|) == IdSet(ds)
  {
    forall id ensures id in IdsOf(ds, |ds|) <==> id in IdSet(ds) {
      IdsOfIff(ds, |ds|, id);
      if id in IdsOf(ds, |ds|) {
        var i :| 0 <= i < |ds| && ds[i].id == id;
        assert ds[i] in ds;
      }
    }
  }

  /** After the first `k` additions: the ids that survived and the new ones among the first `k`, where each
      new one has its level in the snapshot. */
  ghost predicate Grown(v: View, kept: View, prev: seq<DomainState>, ds: seq<DomainState>, k: nat)
    requires k <= |ds|
  {
    && v.Keys == kept.Keys + (IdsOf(ds, k) - IdSet(prev))
    && forall id | id in v :: v[id] == (if id in kept then kept[id] else LevelIn(ds, id))
  }

  function LevelIn(ds: seq<DomainState>, id: DomainId): nat {
    match FindIn(ds, id)
    case Some(d) => Rank0(d.level)
    case None => 0
  }

  lemma {:induction false} ReplayAdded(kept: View, prev: seq<DomainState>, ds: seq<DomainState>, k: nat)
    requires k <= |ds| && DistinctIds(ds) && kept.Keys <= IdSet(prev)
    ensures var r := Replay(kept, AddedNotes(prev, ds, k), ds); r.Some? && Grown(r.value, kept, prev, ds, k)
  {
    hide Replay, DistinctIds, IdSet, FindIn;
    if k == 0 {
      ReplaySilent(kept, [], ds);
    } else {
      ReplayAdded(kept, prev, ds, k - 1);
      var d, before := ds[k - 1], AddedNotes(prev, ds, k - 1);
      var v := Replay(kept, before, ds).value;
      FindAbsent(prev, d.id);
      NewId(ds, k);
      FindInDistinct(ds, d);
      if d.id in IdSet(prev) {
        assert before + [] == before;
      } else {
        var n := Note(DomainAdded, 0, Some(d.id), 0);
        ReplayConcat(kept, before, [n], ds);
        ReplayOne(v, n, ds);
      }
    }
  }

  lemma {:induction false} NewId(ds: seq<DomainState>, k: nat)
    requires 0 < k <= |ds| && DistinctIds(ds)
    ensures ds[k - 1].id !in IdsOf(ds, k - 1)
  {
    IdsOfIff(ds, k - 1, ds[k - 1].id);
  }

  /** After the level events of the first `k` domains: those are up to date, the others as before. */
  ghost predicate Updated(v: View, base: View, ds: seq<DomainState>, k: nat)
    requires k <= |ds|
  {
    && v.Keys == base.Keys
    && forall id | id in v :: v[id] == (if id in IdsOf(ds, k) then LevelIn(ds, id) else base[id])
  }

  /** Before the level events: each domain has its previous level, or its first one if it is new. */
  ghost predicate AsBefore(v: View, prev: seq<DomainState>, ds: seq<DomainState>) {
    && v.Keys == IdSet(ds)
    && forall d | d in ds :: v[d.id] == (if FindIn(prev, d.id).Some? then LevelIn(prev, d.id) else Rank0(d.level))
  }

  ghost predicate LevelsKnown(ds: seq<DomainState>) {
    forall d | d in ds :: IsKnown(d.level)
  }

  lemma {:induction false} LevelNoteEffect(v: View, prev: seq<DomainState>, d: DomainState, generation: nat,
                                           ds: seq<DomainState>)
    requires LevelsKnown(prev) && IsKnown(d.level) && d.id in v
    requires v[d.id] == if FindIn(prev, d.id).Some? then LevelIn(prev, d.id) else Rank0(d.level)
    ensures Replay(v, LevelNote(prev, d, generation), ds) == Some(v[d.id := Rank0(d.level)])
  {
    hide Replay;
    var notes := LevelNote(prev, d, generation);
    if notes == [] {
      ReplaySilent(v, [], ds);
      SameRank(prev, d);
      assert v == v[d.id := Rank0(d.level)];
    } else {
      assert notes == [notes[0]];
      ReplayOne(v, notes[0], ds);
    }
  }

  lemma {:induction false} SameRank(prev: seq<DomainState>, d: DomainState)
    requires LevelNote(prev, d, 0) == []
    ensures FindIn(prev, d.id).Some? ==> LevelIn(prev, d.id) == Rank0(d.level)
  {
  }

  lemma {:induction false} ReplayLevels(base: View, prev: seq<DomainState>, ds: seq<DomainState>, generation: nat,
                                        k: nat)
    requires k <= |ds| && DistinctIds(ds) && LevelsKnown(prev) && LevelsKnown(ds) && AsBefore(base, prev, ds)
    ensures var r := Replay(base, LevelNotes(prev, ds, generation, k), ds); r.Some? && Updated(r.value, base, ds, k)
  {
    hide Replay, DistinctIds, IdSet, FindIn, LevelNote, Rank0, IsKnown;
    if k == 0 {
      ReplaySilent(base, [], ds);
    } else {
      ReplayLevels(base, prev, ds, generation, k - 1);
      var d, before := ds[k - 1], LevelNotes(prev, ds, generation, k - 1);
      var v := Replay(base, before, ds).value;
      assert d in ds;
      InIdSet(ds, d);
      NewId(ds, k);
      FindInDistinct(ds, d);
      LevelNoteEffect(v, prev, d, generation, ds);
      ReplayConcat(base, before, LevelNote(prev, d, generation), ds);
    }
  }

  lemma {:induction false} InIdSet(ds: seq<DomainState>, d: DomainState)
    requires d in ds
    ensures d.id in IdSet(ds)
  {
  }

  // ---- one refresh ----

  function NoteOf(e: PressureEvent): Note {
    Note(e.kind, e.generation, e.domain, e.severityRank)
  }

  function NotesIn(es: seq<PressureEvent>): (notes: seq<Note>)
    ensures |notes| == |es| && forall i | 0 <= i < |es| :: notes[i] == NoteOf(es[i])
  {
    seq(|es|, i requires 0 <= i < |es| => NoteOf(es[i]))
  }

  lemma {:induction false} AfterRetention(v: View, rt: Runtime, env: Env, reports: seq<Report>)
    requires Inv(rt) && Proper(rt, env, reports) && Mirrors(v, rt.snapshot.domains)
    ensures var d, prev := DraftOf(rt, env, reports), rt.snapshot.domains;
            var removed := RemovedIds(prev, ObservedIds(d.polled.feed), d.polled.health, |prev|);
            && Replay(v, d.polled.notes + d.retention.notes, d.domains) == Some(v - removed)
            && forall id :: id in IdSet(d.domains) <==> id in (v - removed).Keys + (IdSet(d.domains) - IdSet(prev))
  {
    hide Replay, DistinctIds, IdSet, DraftOf, RemovedIds, RetainedIds, AllSilent, DistinctFeed, Poll, Sound, Retain;
    var d, prev := DraftOf(rt, env, reports), rt.snapshot.domains;
    var observed, health := ObservedIds(d.polled.feed), d.polled.health;
    var removed := RemovedIds(prev, observed, health, |prev|);
    DraftFeed(rt, env, reports);
    DraftRetention(rt, env, reports);
    PollIsSilent(reports, |reports|);
    ReplaySilent(v, d.polled.notes, d.domains);
    ReplayRetention(v, d.observed.states, prev, observed, health, env.now, |prev|, d.domains);
    ReplayConcat(v, d.polled.notes, d.retention.notes, d.domains);
    DraftIds(rt, env, reports);
    forall id ensures id in IdSet(d.domains)
                      <==> id in (v - removed).Keys + (IdSet(d.domains) - IdSet(prev)) {
      Partition(prev, observed, health, id);
    }
  }

  lemma {:induction false} DraftRetention(rt: Runtime, env: Env, reports: seq<Report>)
    ensures var d, prev := DraftOf(rt, env, reports), rt.snapshot.domains;
            d.retention == Retain(d.observed.states, prev, ObservedIds(d.polled.feed), d.polled.health, env.now, |prev|)
  {
    hide Retain, Observe, Poll, FinishedAll, HostOf;
  }

  lemma {:induction false} GrownIsAsBefore(v: View, kept: View, prev: seq<DomainState>, ds: seq<DomainState>)
    requires DistinctIds(ds) && DistinctIds(prev) && Grown(v, kept, prev, ds, |ds|)
    requires kept.Keys <= IdSet(prev) && forall p | p in prev && p.id in kept :: kept[p.id] == Rank0(p.level)
    requires forall id :: id in IdSet(ds) <==> id in kept.Keys + (IdSet(ds) - IdSet(prev))
    ensures AsBefore(v, prev, ds)
  {
    hide DistinctIds, IdSet, FindIn, Rank0;
    IdsOfAll(ds);
    forall d | d in ds
      ensures d.id in v && v[d.id] == (if FindIn(prev, d.id).Some? then LevelIn(prev, d.id) else Rank0(d.level))
    {
      InIdSet(ds, d);
      FindAbsent(prev, d.id);
      FindInDistinct(ds, d);
    }
  }

  lemma {:induction false} UpdatedMirrors(v: View, base: View, ds: seq<DomainState>)
    requires DistinctIds(ds) && base.Keys == IdSet(ds) && Updated(v, base, ds, |ds|)
    ensures Mirrors(v, ds)
  {
    hide DistinctIds, IdSet, FindIn, Rank0;
    IdsOfAll(ds);
    forall d | d in ds ensures d.id in v && v[d.id] == Rank0(d.level) {
      InIdSet(ds, d);
      FindInDistinct(ds, d);
    }
  }

  lemma {:induction false} ReplayNotes(v: View, prev: seq<DomainState>, ds: seq<DomainState>, rt: Runtime, d: Draft,
                                       generation: nat,
                    kept: View)
    requires prev == rt.snapshot.domains && ds == d.domains
    requires DistinctIds(ds) && DistinctIds(prev) && LevelsKnown(prev) && LevelsKnown(ds)
    requires Replay(v, d.polled.notes + d.retention.notes, ds) == Some(kept)
    requires kept.Keys <= IdSet(prev) && forall p | p in prev && p.id in kept :: kept[p.id] == Rank0(p.level)
    requires forall id :: id in IdSet(ds) <==> id in kept.Keys + (IdSet(ds) - IdSet(prev))
    ensures var r := Replay(v, NotesOf(rt, d, generation), ds); r.Some? && Mirrors(r.value, ds)
  {
    hide Replay, DistinctIds, IdSet, Rank0, LevelsKnown, Grown, AsBefore, Updated, Mirrors, AddedNotes, LevelNotes,
         ResponseNotes, AllSilent;
    var first := d.polled.notes + d.retention.notes;
    var added := AddedNotes(prev, ds, |ds|);
    ReplayAdded(kept, prev, ds, |ds|);
    var v2 := Replay(kept, added, ds).value;
    ReplayConcat(v, first, added, ds);
    GrownIsAsBefore(v2, kept, prev, ds);
    var gen := if generation > rt.generation then [Note(GenerationChanged, generation, None, 0)] else [];
    assert AllSilent(gen) by { GenIsSilent(generation); }
    ReplaySilent(v2, gen, ds);
    ReplayConcat(v, first + added, gen, ds);
    var levels := LevelNotes(prev, ds, generation, |ds|);
    ReplayLevels(v2, prev, ds, generation, |ds|);
    var v3 := Replay(v2, levels, ds).value;
    ReplayConcat(v, first + added + gen, levels, ds);
    AsBeforeKeys(v2, prev, ds);
    UpdatedMirrors(v3, v2, ds);
    var responses := ResponseNotes(ds, generation, |ds|);
    ResponsesAreSilent(ds, generation, |ds|);
    ReplaySilent(v3, responses, ds);
    ReplayConcat(v, first + added + gen + levels, responses, ds);
  }

  lemma {:induction false} AsBeforeKeys(v: View, prev: seq<DomainState>, ds: seq<DomainState>)
    requires AsBefore(v, prev, ds)
    ensures v.Keys == IdSet(ds)
  {
  }

  lemma {:induction false} GenIsSilent(generation: nat)
    ensures AllSilent([Note(GenerationChanged, generation, None, 0)]) && AllSilent([])
  {
  }

  /** Whoever mirrors the snapshot before a refresh and follows its events, each of which makes sense when
      it comes, mirrors the snapshot after it. */
  lemma {:induction false} RefreshReplays(v: View, rt: Runtime, env: Env, reports: seq<Report>)
    requires Inv(rt) && Proper(rt, env, reports) && Mirrors(v, rt.snapshot.domains)
    ensures var after := RefreshWith(rt, env, reports);
            var r := Replay(v, NotesIn(after.events), after.snapshot.domains);
            r.Some? && Mirrors(r.value, after.snapshot.domains)
  {
    hide Replay, DistinctIds, IdSet, DraftOf, RemovedIds, Sound, NotesOf, AggregateLevel, AggregateScore,
         NextGeneration, Trimmed, Proper;
    var d, prev, after := DraftOf(rt, env, reports), rt.snapshot.domains, RefreshWith(rt, env, reports);
    var removed := RemovedIds(prev, ObservedIds(d.polled.feed), d.polled.health, |prev|);
    var generation := after.snapshot.generation;
    AfterRetention(v, rt, env, reports);
    RefreshKeepsInv(rt, env, reports);
    ReplayNotes(v, prev, d.domains, rt, d, generation, v - removed);
    assert NotesIn(after.events) == NotesOf(rt, d, generation);
  }

  // ---- removals ----

  predicate NoRemoval(notes: seq<Note>) {
    forall i | 0 <= i < |notes| :: !notes[i].kind.DomainRemoved?
  }

  lemma {:induction false} AdditionsRemoveNothing(prev: seq<DomainState>, ds: seq<DomainState>, k: nat)
    requires k <= |ds|
    ensures NoRemoval(AddedNotes(prev, ds, k))
  {
    if k == 0 {
    } else {
      AdditionsRemoveNothing(prev, ds, k - 1);
    }
  }

  lemma {:induction false} LevelsRemoveNothing(prev: seq<DomainState>, ds: seq<DomainState>, generation: nat, k: nat)
    requires k <= |ds|
    ensures NoRemoval(LevelNotes(prev, ds, generation, k))
  {
    if k == 0 {
    } else {
      LevelsRemoveNothing(prev, ds, generation, k - 1);
      assert NoRemoval(LevelNote(prev, ds[k - 1], generation));
    }
  }

  lemma {:induction false} NoRemovalCount(a: seq<Note>, b: seq<Note>, id: DomainId)
    requires NoRemoval(b)
    ensures Count(a + b, DomainRemoved, id) == Count(a, DomainRemoved, id)
    ensures NoRemoval(a) ==> Count(a, DomainRemoved, id) == 0
  {
    CountConcat(a, b, DomainRemoved, id);
    CountZero(b, DomainRemoved, id);
    if NoRemoval(a) { CountZero(a, DomainRemoved, id); }
  }

  lemma {:induction false} SilentRemovesNothing(notes: seq<Note>)
    requires AllSilent(notes)
    ensures NoRemoval(notes)
  {
  }

  lemma {:induction false} RemovalsInNotes(rt: Runtime, d: Draft, generation: nat, id: DomainId)
    requires AllSilent(d.polled.notes)
    ensures Count(NotesOf(rt, d, generation), DomainRemoved, id) == Count(d.retention.notes, DomainRemoved, id)
  {
    hide Count, AllSilent, NoRemoval, AddedNotes, LevelNotes, ResponseNotes;
    var prev, ds := rt.snapshot.domains, d.domains;
    var added, levels, responses :=
      AddedNotes(prev, ds, |ds|), LevelNotes(prev, ds, generation, |ds|), ResponseNotes(ds, generation, |ds|);
    var gen := if generation > rt.generation then [Note(GenerationChanged, generation, None, 0)] else [];
    SilentRemovesNothing(d.polled.notes);
    AdditionsRemoveNothing(prev, ds, |ds|);
    GenIsSilent(generation);
    SilentRemovesNothing(gen);
    LevelsRemoveNothing(prev, ds, generation, |ds|);
    ResponsesAreSilent(ds, generation, |ds|);
    SilentRemovesNothing(responses);
    CountConcat(d.polled.notes, d.retention.notes, DomainRemoved, id);
    NoRemovalCount(d.polled.notes, d.polled.notes, id);
    NoRemovalCount(d.polled.notes + d.retention.notes, added, id);
    NoRemovalCount(d.polled.notes + d.retention.notes + added, gen, id);
    NoRemovalCount(d.polled.notes + d.retention.notes + added + gen, levels, id);
    NoRemovalCount(d.polled.notes + d.retention.notes + added + gen + levels, responses, id);
  }

  /** A refresh announces the removal of a domain exactly once if it was published and its state is gone, and
      otherwise not at all. */
  lemma {:induction false} OneRemovalEvent(rt: Runtime, env: Env, reports: seq<Report>, id: DomainId)
    requires Inv(rt) && Proper(rt, env, reports)
    ensures var after := RefreshWith(rt, env, reports);
            Count(NotesIn(after.events), DomainRemoved, id)
            == if id in IdSet(rt.snapshot.domains) && id !in after.rt.states then 1 else 0
  {
    hide DistinctIds, IdSet, DraftOf, RemovedIds, RetainedIds, Sound, NotesOf, AggregateLevel, AggregateScore,
         NextGeneration, Trimmed, DistinctFeed, Poll, AllSilent, Count, Retain, ObservedIds;
    var d, prev, after := DraftOf(rt, env, reports), rt.snapshot.domains, RefreshWith(rt, env, reports);
    var observed, health := ObservedIds(d.polled.feed), d.polled.health;
    DraftFeed(rt, env, reports);
    DraftRetention(rt, env, reports);
    PollIsSilent(reports, |reports|);
    RemovalsInNotes(rt, d, after.snapshot.generation, id);
    assert NotesIn(after.events) == NotesOf(rt, d, after.snapshot.generation);
    RemovalCount(d.observed.states, prev, observed, health, env.now, |prev|, id);
    DraftIds(rt, env, reports);
    Partition(prev, observed, health, id);
  }
}
