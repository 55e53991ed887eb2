/** Whole runs and the replays of their traces: what a replay reproduces, and exactly when. */
module ReplayRuns {
  import opened Options
  import opened Numbers
  import opened Policy
  import opened Domain
  import opened Events
  import opened Refresh
  import opened RefreshFacts
  import opened Lifecycle
  import opened Aggregation
  import opened Score
  import opened ReportOrder
  import opened Runs
  import opened RunFacts
  import opened JsonGrammar
  import opened Documents
  import opened TraceDocuments
  import opened EndToEnd
  import opened TraceReplay

  // ---- a run and the run that replays it ----

  function Replay(op: Op): Op {
    match op
    case Refresh(now, reports) => Op.Refresh(now, Played(Recorded(reports, |reports|)))
    case _ => op
  }

  /** The same configuration changes; and at each refresh the same observations at the same time, from the trace
      provider alone. */
  ghost predicate Plays(as': seq<Op>, bs: seq<Op>) {
    |as'| == |bs| && forall i | 0 <= i < |as'| :: bs[i] == Replay(as'[i])
  }

  function FrameOf(op: Op): TraceFrame
    requires op.Refresh?
  {
    TraceFrame(op.now, Recorded(op.reports, |op.reports|), Poll(op.reports, |op.reports|).health)
  }

  /** The frames recorded in the first `k` operations. */
  function Frames(ops: seq<Op>, k: nat): seq<TraceFrame>
    requires k <= |ops|
  {
    if k == 0 then [] else Frames(ops, k - 1) + if ops[k - 1].Refresh? then [FrameOf(ops[k - 1])] else []
  }

  function Recording(ops: seq<Op>, version: nat): PressureTrace {
    PressureTrace(version, Frames(ops, |ops|))
  }

  /** How many of the first `k` operations are refreshes. */
  function Refreshes(ops: seq<Op>, k: nat): nat
    requires k <= |ops|
  {
    if k == 0 then 0 else Refreshes(ops, k - 1) + if ops[k - 1].Refresh? then 1 else 0
  }

  function TimeAt(t: PressureTrace, i: nat): nat {
    if i < |t.frames| then t.frames[i].timestampMs else 0
  }

  /** A run with its configuration changes as they are and its refreshes played from a trace: one refresh per
      frame, at the frame's time, with the trace provider alone. */
  function Replayed(ops: seq<Op>, t: PressureTrace): seq<Op> {
    seq(|ops|, i requires 0 <= i < |ops| =>
      var n := Refreshes(ops, i);
      if ops[i].Refresh? then Op.Refresh(TimeAt(t, n), [Report(TRACE, SampleAt(t, n))]) else ops[i])
  }

  lemma {:induction false} FrameAt(ops: seq<Op>, k: nat, i: nat)
    requires i < k <= |ops|
    ensures |Frames(ops, k)| == Refreshes(ops, k)
    ensures ops[i].Refresh? ==>
              Refreshes(ops, i) < |Frames(ops, k)| && Frames(ops, k)[Refreshes(ops, i)] == FrameOf(ops[i])
    decreases k
  {
    hide FrameOf;
    FramesCount(ops, k - 1);
    if i == k - 1 {
    } else {
      FrameAt(ops, k - 1, i);
    }
  }

  lemma {:induction false} FramesCount(ops: seq<Op>, k: nat)
    requires k <= |ops|
    ensures |Frames(ops, k)| == Refreshes(ops, k)
  {
    if k == 0 {
    } else {
      FramesCount(ops, k - 1);
    }
  }

  lemma {:induction false} ReplayedPlays(ops: seq<Op>, version: nat)
    ensures Plays(ops, Replayed(ops, Recording(ops, version)))
  {
    hide Recorded, Poll, Frames, Refreshes;
    var t := Recording(ops, version);
    forall i | 0 <= i < |ops| ensures Replayed(ops, t)[i] == Replay(ops[i]) {
      FrameAt(ops, |ops|, i);
    }
  }

  // ---- one refresh ----

  /** A refresh retains a published domain: it does not observe it, and its provider is not fresh. */
  ghost predicate RetainsAny(rt: Runtime, reports: seq<Report>) {
    var polled := Poll(reports, |reports|);
    exists p :: p in rt.snapshot.domains && Retains(p, ObservedIds(polled.feed), polled.health)
  }

  ghost predicate SameSnapshot(s: Snapshot, t: Snapshot) {
    && SameButName(s.domains, t.domains) && FromProviders(t.domains, {TRACE})
    && s.aggregateLevel == t.aggregateLevel && s.aggregateScore == t.aggregateScore
    && s.policyVersion == t.policyVersion
  }

  /** A runtime and one that replays its trace: they may differ in the provider's name and health, the wording of
      explanations, the warnings, the generation and the events. */
  ghost predicate SameContent(a: Runtime, b: Runtime) {
    && a.policy == b.policy && a.budgets == b.budgets && a.states == b.states && a.snapshotId == b.snapshotId
    && SameSnapshot(a.snapshot, b.snapshot)
    && b.snapshot.providerHealth == if b.snapshotId == 0 then map[] else TRACE_HEALTH
  }

  lemma {:induction false} SameEnv(a: Runtime, b: Runtime, lib: Library, now: nat)
    requires SameContent(a, b)
    ensures EnvOf(a, lib, now) == EnvOf(b, lib, now)
  {
  }

  lemma {:induction false} FeedLength(feed: seq<Seen>, obs: seq<DomainObservation>, names: set<string>)
    requires FeedsFrom(feed, obs, names)
    ensures |feed| == |obs|
  {
  }

  lemma {:induction false} SameLength(a: seq<DomainState>, b: seq<DomainState>)
    requires SameButName(a, b)
    ensures |a| == |b|
  {
  }

  lemma {:induction false} NoneRetainedHere(rt: Runtime, reports: seq<Report>)
    requires !RetainsAny(rt, reports)
    ensures var polled := Poll(reports, |reports|);
            NoneRetained(rt.snapshot.domains, ObservedIds(polled.feed), polled.health)
  {
    hide Retains, Poll, ObservedIds;
    var ds := rt.snapshot.domains;
    forall i | 0 <= i < |ds|
      ensures !Retains(ds[i], ObservedIds(Poll(reports, |reports|).feed), Poll(reports, |reports|).health) {
      assert ds[i] in ds;
    }
  }

  /** What the refreshes of the two runtimes make of the same observations, when the first retains nothing. */
  ghost predicate SameDraft(d: Draft, e: Draft) {
    && d.retention.states == e.retention.states && d.retention.notes == e.retention.notes
    && SameButName(d.domains, e.domains) && FromProviders(e.domains, {TRACE})
    && e.polled.notes == [] && e.polled.health == TRACE_HEALTH
  }

  lemma {:induction false} DraftSame(a: Runtime, b: Runtime, env: Env, reports: seq<Report>)
    requires SameContent(a, b) && !RetainsAny(a, reports)
    ensures SameDraft(DraftOf(a, env, reports), DraftOf(b, env, Played(Recorded(reports, |reports|))))
    ensures FromProviders(DraftOf(a, env, reports).domains, Names(reports, |reports|))
  {
    hide Poll, Observe, Retain, FinishedAll, HostOf, SameButName, FromProviders, FeedsFrom, FeedIds, ObservedIds,
         Recorded, Names, NoneRetained, RetainsAny, Played;
    var obs, names := Recorded(reports, |reports|), Names(reports, |reports|);
    var d, e := DraftOf(a, env, reports), DraftOf(b, env, Played(obs));
    PlayedLength(obs);
    PlayedPoll(obs);
    PollFeeds(reports, |reports|);
    FeedLength(d.polled.feed, obs, names);
    FeedLength(e.polled.feed, obs, {TRACE});
    ObserveSame(env, a.states, d.polled.feed, e.polled.feed, obs, names, {TRACE}, |obs|);
    ObservedIsFeedIds(d.polled.feed);
    ObservedIsFeedIds(e.polled.feed);
    SameLength(a.snapshot.domains, b.snapshot.domains);
    NoneRetainedHere(a, reports);
    TraceRetainsNothing(b.snapshot.domains, ObservedIds(e.polled.feed));
    RetainSame(d.observed.states, a.snapshot.domains, b.snapshot.domains, ObservedIds(d.polled.feed),
               d.polled.health, TRACE_HEALTH, env.now, |a.snapshot.domains|);
    assert d.observed.domains + [] == d.observed.domains && e.observed.domains + [] == e.observed.domains;
    SameLength(d.observed.domains, e.observed.domains);
    HostSame(d.observed.domains, e.observed.domains, |d.observed.domains|);
    FinishedSameButName(env, d.observed.domains, e.observed.domains,
                        HostOf(d.observed.domains, |d.observed.domains|), names, {TRACE});
  }

  lemma {:induction false} PlayedLength(obs: seq<DomainObservation>)
    ensures |Played(obs)| == 1
  {
  }

  lemma {:induction false} SnapshotSame(a: Runtime, b: Runtime, env: Env, d: Draft, e: Draft)
    requires SameDraft(d, e)
    ensures SameSnapshot(Unstamped(a, env, d), Unstamped(b, env, e))
  {
    hide SameButName, FromProviders, AggregateLevel, AggregateScore;
    AggregateSame(env.policy, d.domains, e.domains);
  }

  /** Replaying a refresh that retains nothing gives the same states, domains and aggregate. */
  lemma {:induction false} RefreshSame(a: Runtime, b: Runtime, env: Env, reports: seq<Report>)
    requires SameContent(a, b) && !RetainsAny(a, reports)
    ensures SameContent(RefreshWith(a, env, reports).rt,
                        RefreshWith(b, env, Played(Recorded(reports, |reports|))).rt)
  {
    hide DraftOf, NotesOf, NextGeneration, AggregateLevel, AggregateScore, Trimmed, Numbered, SameButName,
         FromProviders, RetainsAny, Played, Recorded;
    var d, e := DraftOf(a, env, reports), DraftOf(b, env, Played(Recorded(reports, |reports|)));
    DraftSame(a, b, env, reports);
    SnapshotSame(a, b, env, d, e);
  }

  // ---- the generation and the events of one refresh ----

  /** Two snapshots differ otherwise than in the providers' health. */
  ghost predicate Differs(s: Snapshot, t: Snapshot) {
    Diff(s, t).(providerHealthChanged := false).Any()
  }

  lemma {:induction false} SameAt(a: seq<DomainState>, b: seq<DomainState>, i: nat)
    requires SameButName(a, b) && i < |a|
    ensures i < |b| && Unnamed(a[i]) == Unnamed(b[i])
  {
  }

  lemma {:induction false} DiffersTogether(s: Snapshot, t: Snapshot, u: Snapshot, v: Snapshot)
    requires SameSnapshot(s, t) && SameSnapshot(u, v)
    ensures Differs(s, u) <==> Differs(t, v)
  {
    hide SameButName, FromProviders, Missing, Which, LevelDiffers, BudgetDiffers, ReserveDiffers, AddedNotes;
    var a, b, c, d := s.domains, t.domains, u.domains, v.domains;
    SameLength(a, b);
    SameLength(c, d);
    MissingSame(c, d, a, b, |c|);
    MissingSame(a, b, c, d, |a|);
    forall i | 0 <= i < |c|
      ensures LevelDiffers(a, c[i]) == LevelDiffers(b, d[i]) && BudgetDiffers(a, c[i]) == BudgetDiffers(b, d[i])
              && ReserveDiffers(a, c[i]) == ReserveDiffers(b, d[i]) {
      SameAt(c, d, i);
      DiffersSame(a, b, c[i], d[i]);
    }
    WhichSame(c, d, x => LevelDiffers(a, x), x => LevelDiffers(b, x), |c|);
    WhichSame(c, d, x => BudgetDiffers(a, x), x => BudgetDiffers(b, x), |c|);
    WhichSame(c, d, x => ReserveDiffers(a, x), x => ReserveDiffers(b, x), |c|);
  }

  lemma {:induction false} AnyOrHealth(s: Snapshot, t: Snapshot)
    ensures Diff(s, t).Any() <==> Differs(s, t) || s.providerHealth != t.providerHealth
  {
    hide Missing, Which;
  }

  /** A refresh tells what its replay can tell: no provider failed or went stale, and the health of the providers
      changes only at the first refresh, unless something else changes as well. */
  ghost predicate Replayable(rt: Runtime, env: Env, reports: seq<Report>) {
    var d := DraftOf(rt, env, reports);
    && d.polled.notes == []
    && (|| Differs(rt.snapshot, Unstamped(rt, env, d))
        || (d.polled.health != rt.snapshot.providerHealth <==> rt.snapshotId == 0))
  }

  lemma {:induction false} GenerationSameIff(a: Runtime, b: Runtime, env: Env, d: Draft, e: Draft)
    requires SameContent(a, b) && SameDraft(d, e) && a.generation == b.generation
    ensures NextGeneration(a, Unstamped(a, env, d)) == NextGeneration(b, Unstamped(b, env, e)) <==>
              || Differs(a.snapshot, Unstamped(a, env, d))
              || (d.polled.health != a.snapshot.providerHealth <==> a.snapshotId == 0)
  {
    hide Differs, Diff, SnapshotDiff.Any, SameSnapshot, AggregateLevel, AggregateScore, SameButName, FromProviders;
    var u, v := Unstamped(a, env, d), Unstamped(b, env, e);
    SnapshotSame(a, b, env, d, e);
    DiffersTogether(a.snapshot, b.snapshot, u, v);
    AnyOrHealth(a.snapshot, u);
    AnyOrHealth(b.snapshot, v);
    assert TRACE in TRACE_HEALTH;
  }

  lemma {:induction false} NotesSame(a: Runtime, b: Runtime, d: Draft, e: Draft, generation: nat)
    requires SameContent(a, b) && SameDraft(d, e) && a.generation == b.generation
    ensures NotesOf(a, d, generation) == d.polled.notes + NotesOf(b, e, generation)
  {
    hide SameButName, FromProviders, AddedNotes, LevelNotes, ResponseNotes, Missing;
    var c, f := a.snapshot.domains, b.snapshot.domains;
    SameLength(d.domains, e.domains);
    MissingSame(d.domains, e.domains, c, f, |d.domains|);
    LevelNotesSame(d.domains, e.domains, c, f, generation, |d.domains|);
    ResponseNotesSame(d.domains, e.domains, generation, |d.domains|);
  }

  lemma {:induction false} NumberedSameIff(base: nat, now: nat, extra: seq<Note>, notes: seq<Note>)
    ensures Numbered(base, now, extra + notes) == Numbered(base, now, notes) <==> extra == []
  {
    if extra == [] { assert extra + notes == notes; }
  }

  /** Of a refresh that retains nothing, the replay has the same generation and events exactly when the refresh is
      replayable. */
  lemma {:induction false} EventsSameIff(a: Runtime, b: Runtime, env: Env, reports: seq<Report>)
    requires SameContent(a, b) && !RetainsAny(a, reports) && a.generation == b.generation && a.eventId == b.eventId
    ensures var x, y := RefreshWith(a, env, reports), RefreshWith(b, env, Played(Recorded(reports, |reports|)));
            x.rt.generation == y.rt.generation && x.events == y.events <==> Replayable(a, env, reports)
  {
    hide DraftOf, NotesOf, NextGeneration, Unstamped, Trimmed, Numbered, SameContent, SameDraft, RetainsAny, Played,
         Recorded, Differs;
    var d, e := DraftOf(a, env, reports), DraftOf(b, env, Played(Recorded(reports, |reports|)));
    DraftSame(a, b, env, reports);
    GenerationSameIff(a, b, env, d, e);
    var generation := NextGeneration(b, Unstamped(b, env, e));
    NotesSame(a, b, d, e, generation);
    NumberedSameIff(a.eventId, env.now, d.polled.notes, NotesOf(b, e, generation));
  }

  // ---- whole runs ----

  ghost predicate NeverRetains(lib: Library, ops: seq<Op>) {
    forall k | 0 <= k < |ops| && ops[k].Refresh? :: !RetainsAny(RunOf(lib, ops[..k]), ops[k].reports)
  }

  ghost predicate AllReplayable(lib: Library, ops: seq<Op>) {
    forall k | 0 <= k < |ops| && ops[k].Refresh? ::
      var rt := RunOf(lib, ops[..k]);
      Replayable(rt, EnvOf(rt, lib, ops[k].now), ops[k].reports)
  }

  lemma {:induction false} PrefixRetains(lib: Library, ops: seq<Op>, n: nat)
    requires n <= |ops| && NeverRetains(lib, ops)
    ensures NeverRetains(lib, ops[..n])
  {
    hide RetainsAny, RunOf;
    forall k | 0 <= k < n && ops[k].Refresh? ensures !RetainsAny(RunOf(lib, ops[..n][..k]), ops[k].reports) {
      assert ops[..n][..k] == ops[..k];
    }
  }

  lemma {:induction false} PrefixReplayable(lib: Library, ops: seq<Op>, n: nat)
    requires n <= |ops| && AllReplayable(lib, ops)
    ensures AllReplayable(lib, ops[..n])
  {
    hide Replayable, RunOf, EnvOf;
    forall k | 0 <= k < n && ops[k].Refresh?
      ensures var rt := RunOf(lib, ops[..n][..k]); Replayable(rt, EnvOf(rt, lib, ops[k].now), ops[k].reports) {
      assert ops[..n][..k] == ops[..k];
    }
  }

  lemma {:induction false} LastStep(lib: Library, ops: seq<Op>)
    requires ops != []
    ensures var n := |ops| - 1;
            && RunOf(lib, ops) == Applied(RunOf(lib, ops[..n]), lib, ops[n])
            && Stream(lib, ops) == Stream(lib, ops[..n]) + EventsOf(RunOf(lib, ops[..n]), lib, ops[n])
  {
    hide Applied, EventsOf;
  }

  lemma {:induction false} OthersSame(a: Runtime, b: Runtime, lib: Library, op: Op)
    requires SameContent(a, b) && !op.Refresh?
    ensures SameContent(Applied(a, lib, op), Applied(b, lib, op))
  {
    hide SameSnapshot, ValidatePolicy, Reset, BudgetOk;
    OnlyRefreshPublishes(a, lib, op);
    OnlyRefreshPublishes(b, lib, op);
  }

  lemma {:induction false} StepSame(a: Runtime, b: Runtime, lib: Library, op: Op)
    requires SameContent(a, b) && (op.Refresh? ==> !RetainsAny(a, op.reports))
    ensures SameContent(Applied(a, lib, op), Applied(b, lib, Replay(op)))
  {
    hide SameContent, RefreshWith, RetainsAny, WithPolicy, WithBudget, Played, Recorded;
    if op.Refresh? {
      SameEnv(a, b, lib, op.now);
      RefreshSame(a, b, EnvOf(a, lib, op.now), op.reports);
    } else {
      OthersSame(a, b, lib, op);
    }
  }

  lemma {:induction false} InitialSame()
    ensures SameContent(INITIAL, INITIAL)
  {
  }

  lemma {:induction false} RunSame(lib: Library, as': seq<Op>, bs: seq<Op>)
    requires Plays(as', bs) && NeverRetains(lib, as')
    ensures SameContent(RunOf(lib, as'), RunOf(lib, bs))
    decreases |as'|
  {
    hide SameContent, Applied, RetainsAny, Replay, EventsOf;
    if as' == [] {
      assert RunOf(lib, as') == INITIAL && RunOf(lib, bs) == INITIAL;
      InitialSame();
    } else {
      var n := |as'| - 1;
      PrefixRetains(lib, as', n);
      RunSame(lib, as'[..n], bs[..n]);
      assert as'[n].Refresh? ==> !RetainsAny(RunOf(lib, as'[..n]), as'[n].reports);
      StepSame(RunOf(lib, as'[..n]), RunOf(lib, bs[..n]), lib, as'[n]);
      LastStep(lib, as');
      LastStep(lib, bs);
    }
  }

  // ---- the same domains exactly when nothing is retained ----

  ghost predicate SameDomains(lib: Library, as': seq<Op>, bs: seq<Op>)
    requires |as'| == |bs|
  {
    SameButName(RunOf(lib, as').snapshot.domains, RunOf(lib, bs).snapshot.domains)
  }

  ghost predicate SameDomainsAlong(lib: Library, as': seq<Op>, bs: seq<Op>)
    requires |as'| == |bs|
  {
    forall k | 0 <= k <= |as'| :: SameDomains(lib, as'[..k], bs[..k])
  }

  lemma {:induction false} PrefixSame(lib: Library, as': seq<Op>, bs: seq<Op>, n: nat)
    requires n <= |as'| == |bs| && SameDomainsAlong(lib, as', bs)
    ensures SameDomainsAlong(lib, as'[..n], bs[..n])
  {
    hide SameDomains;
    forall k | 0 <= k <= n ensures SameDomains(lib, as'[..n][..k], bs[..n][..k]) {
      assert as'[..n][..k] == as'[..k] && bs[..n][..k] == bs[..k];
    }
  }

  lemma {:induction false} PlayedDistinct(as': seq<Op>, bs: seq<Op>)
    requires Plays(as', bs) && NoDuplicates(as')
    ensures NoDuplicates(bs)
  {
    hide Poll, Recorded, Played, DistinctFeed;
    forall i | 0 <= i < |bs| && bs[i].Refresh? ensures DistinctFeed(Poll(bs[i].reports, |bs[i].reports|).feed) {
      assert as'[i].Refresh?;
      PlayedFeedDistinct(as'[i].reports);
    }
  }

  lemma {:induction false} PlayedFeedDistinct(reports: seq<Report>)
    requires DistinctFeed(Poll(reports, |reports|).feed)
    ensures var played := Played(Recorded(reports, |reports|)); DistinctFeed(Poll(played, |played|).feed)
  {
    hide Poll, Recorded, DistinctFeed, FeedsFrom, Names;
    var obs := Recorded(reports, |reports|);
    PlayedPoll(obs);
    PollFeeds(reports, |reports|);
    SameDistinct(Poll(reports, |reports|).feed, Poll(Played(obs), 1).feed, obs, Names(reports, |reports|), {TRACE});
  }

  lemma {:induction false} RefreshedDomains(rt: Runtime, env: Env, reports: seq<Report>)
    ensures RefreshWith(rt, env, reports).rt.snapshot.domains == DraftOf(rt, env, reports).domains
  {
    hide DraftOf, NotesOf, NextGeneration, AggregateLevel, AggregateScore, Trimmed, Numbered;
  }

  /** A refresh that retains a domain tells the two runs apart: the replay drops it. */
  lemma {:induction false} RetainingShows(a: Runtime, b: Runtime, env: Env, reports: seq<Report>)
    requires Inv(a) && Inv(b) && DistinctFeed(Poll(reports, |reports|).feed)
    requires SameContent(a, b) && RetainsAny(a, reports)
    ensures !SameButName(RefreshWith(a, env, reports).rt.snapshot.domains,
                         RefreshWith(b, env, Played(Recorded(reports, |reports|))).rt.snapshot.domains)
  {
    hide Inv, DistinctFeed, Poll, ObservedIds, NotFresh, FindIn, DraftOf, Recorded, Played, RefreshWith, Unnamed;
    var polled := Poll(reports, |reports|);
    var p :| p in a.snapshot.domains && Retains(p, ObservedIds(polled.feed), polled.health);
    var i :| 0 <= i < |a.snapshot.domains| && a.snapshot.domains[i] == p;
    var q := b.snapshot.domains[i];
    UnnamedId(p, q);
    ReplayDropsRetained(a, b, env, reports, p, q);
    RefreshedDomains(a, env, reports);
    RefreshedDomains(b, env, Played(Recorded(reports, |reports|)));
    var c, d := DraftOf(a, env, reports).domains, DraftOf(b, env, Played(Recorded(reports, |reports|))).domains;
    if SameButName(c, d) { FindSame(c, d, p.id); }
  }

  lemma {:induction false} SameDomainsRetainNothing(lib: Library, as': seq<Op>, bs: seq<Op>)
    requires Plays(as', bs) && NoDuplicates(as') && SameDomainsAlong(lib, as', bs)
    ensures NeverRetains(lib, as')
    decreases |as'|
  {
    hide Applied, RetainsAny, Inv, SameContent, NoDuplicates, SameButName, RunOf, DistinctFeed, Poll, Played,
         Recorded;
    if as' == [] {
    } else {
      var n := |as'| - 1;
      PrefixSame(lib, as', bs, n);
      PrefixDistinct(as', n);
      SameDomainsRetainNothing(lib, as'[..n], bs[..n]);
      assert as'[..|as'|] == as' && bs[..|as'|] == bs;
      assert SameDomains(lib, as'[..|as'|], bs[..|as'|]);
      if as'[n].Refresh? { LastRetainsNothing(lib, as', bs, n); }
      forall k | 0 <= k < |as'| && as'[k].Refresh? ensures !RetainsAny(RunOf(lib, as'[..k]), as'[k].reports) {
        if k < n { assert as'[..n][..k] == as'[..k]; }
      }
    }
  }

  lemma {:induction false} LastRetainsNothing(lib: Library, as': seq<Op>, bs: seq<Op>, n: nat)
    requires |as'| == |bs| == n + 1 && as'[n].Refresh?
    requires SameDomains(lib, as', bs) && NeverRetains(lib, as'[..n])
    requires Plays(as', bs)
    requires NoDuplicates(as')
    ensures !RetainsAny(RunOf(lib, as'[..n]), as'[n].reports)
  {
    hide RefreshWith, RetainsAny, Inv, SameContent, NoDuplicates, NeverRetains, SameButName, RunOf, DistinctFeed,
         Poll, Played, Recorded, EventsOf, ScoresWithin;
    var a, b, op := RunOf(lib, as'[..n]), RunOf(lib, bs[..n]), as'[n];
    PrefixDistinct(as', n);
    LastDistinct(as');
    PlayedDistinct(as', bs);
    PrefixDistinct(bs, n);
    RunSame(lib, as'[..n], bs[..n]);
    ReachableInv(lib, as'[..n]);
    ReachableInv(lib, bs[..n]);
    SameEnv(a, b, lib, op.now);
    LastStep(lib, as');
    LastStep(lib, bs);
    if RetainsAny(a, op.reports) { RetainingShows(a, b, EnvOf(a, lib, op.now), op.reports); }
  }

  /** A replay publishes the same domains as its run at every step, but for provider names and explanations, if
      and only if no refresh of the run retains a domain, whatever the providers' names and status; and then it
      has the same per-domain states, aggregate and policy as well. */
  lemma {:induction false} ReplayContentIff(lib: Library, ops: seq<Op>, version: nat)
    requires NoDuplicates(ops)
    ensures var replay := Replayed(ops, Recording(ops, version));
            && (SameDomainsAlong(lib, ops, replay) <==> NeverRetains(lib, ops))
            && (NeverRetains(lib, ops) ==>
                  forall k | 0 <= k <= |ops| :: SameContent(RunOf(lib, ops[..k]), RunOf(lib, replay[..k])))
  {
    hide SameContent, RunOf, NoDuplicates, NeverRetains, Recording;
    var replay := Replayed(ops, Recording(ops, version));
    ReplayedPlays(ops, version);
    if NeverRetains(lib, ops) {
      forall k | 0 <= k <= |ops|
        ensures SameContent(RunOf(lib, ops[..k]), RunOf(lib, replay[..k])) && SameDomains(lib, ops[..k], replay[..k]) {
        PrefixRetains(lib, ops, k);
        PrefixPlays(ops, replay, k);
        RunSame(lib, ops[..k], replay[..k]);
        ContentHasDomains(lib, ops[..k], replay[..k]);
      }
    }
    if SameDomainsAlong(lib, ops, replay) { SameDomainsRetainNothing(lib, ops, replay); }
  }

  lemma {:induction false} PrefixPlays(as': seq<Op>, bs: seq<Op>, k: nat)
    requires Plays(as', bs) && k <= |as'|
    ensures Plays(as'[..k], bs[..k])
  {
    hide Replay;
  }

  lemma {:induction false} ContentHasDomains(lib: Library, as': seq<Op>, bs: seq<Op>)
    requires |as'| == |bs| && SameContent(RunOf(lib, as'), RunOf(lib, bs))
    ensures SameDomains(lib, as', bs)
  {
    hide RunOf, SameButName;
  }

  /** One domain is observed; then its provider throws. */
  function FailingRun(obs: DomainObservation): seq<Op> {
    [Op.Refresh(0, [Report("p", Sampled(Healthy, "", [obs]))]), Op.Refresh(1, [Report("p", Threw(""))])]
  }

  lemma {:induction false} FailingPolls(obs: DomainObservation)
    ensures var ops := FailingRun(obs);
            var first, second := Poll(ops[0].reports, 1), Poll(ops[1].reports, 1);
            first.feed == [Seen("p", obs)] && second.feed == [] && second.health == map["p" := ProviderStatus.Failed]
  {
    var ops := FailingRun(obs);
    assert Poll(ops[0].reports, 1) == PollOne(NOTHING_POLLED, ops[0].reports[0]);
    assert Poll(ops[1].reports, 1) == PollOne(NOTHING_POLLED, ops[1].reports[0]);
    assert Tagged("p", [obs]) == [Seen("p", obs)];
  }

  lemma {:induction false} ReportedProvider(env: Env, states: States, x: Seen, host: HostTier)
    ensures Reported(env, states, x, host).id == x.obs.id && Reported(env, states, x, host).provider == x.provider
  {
    hide Published, StateFor;
    PublishedFacts(env, StateFor(env, states, x.obs.id), x.provider, x.obs);
  }

  lemma {:induction false} FailingRunRetains(lib: Library, obs: DomainObservation)
    ensures var ops := FailingRun(obs);
            NoDuplicates(ops) && RetainsAny(RunOf(lib, ops[..1]), ops[1].reports)
  {
    hide Poll, DraftOf, Reported, RefreshWith, FindIn, Advanced, StateFor, Inv;
    var ops := FailingRun(obs);
    FailingPolls(obs);
    var reports, env := ops[0].reports, EnvOf(INITIAL, lib, 0);
    assert ops[..1][..0] == [];
    assert RunOf(lib, ops[..1]) == RefreshWith(INITIAL, env, reports).rt;
    ObservedFate(INITIAL, env, reports, 0);
    var d := DraftOf(INITIAL, env, reports);
    DraftFeed(INITIAL, env, reports);
    RefreshedDomains(INITIAL, env, reports);
    ReportedProvider(env, INITIAL.states, d.polled.feed[0], HostTierOf(d));
    assert Reported(env, INITIAL.states, d.polled.feed[0], HostTierOf(d)) in d.domains;
  }

  /** A trace does not reproduce every run: when a provider fails, its domains are retained, and the replay drops
      them. */
  lemma {:induction false} FailureIsNotReproduced(lib: Library, obs: DomainObservation, version: nat)
    ensures var ops := FailingRun(obs); !SameDomainsAlong(lib, ops, Replayed(ops, Recording(ops, version)))
  {
    hide RunOf, RetainsAny, NoDuplicates, SameDomainsAlong, Recording, SameContent;
    var ops := FailingRun(obs);
    FailingRunRetains(lib, obs);
    ReplayContentIff(lib, ops, version);
  }

  // ---- the same generation and events ----

  ghost predicate SameTale(lib: Library, as': seq<Op>, bs: seq<Op>) {
    RunOf(lib, as').generation == RunOf(lib, bs).generation && Stream(lib, as') == Stream(lib, bs)
  }

  ghost predicate SameTaleAlong(lib: Library, as': seq<Op>, bs: seq<Op>)
    requires |as'| == |bs|
  {
    forall k | 0 <= k <= |as'| :: SameTale(lib, as'[..k], bs[..k])
  }

  lemma {:induction false} TaleStep(lib: Library, as': seq<Op>, bs: seq<Op>)
    requires Plays(as', bs) && as' != []
    requires var n := |as'| - 1;
             SameContent(RunOf(lib, as'[..n]), RunOf(lib, bs[..n])) && SameTale(lib, as'[..n], bs[..n])
             && (as'[n].Refresh? ==> !RetainsAny(RunOf(lib, as'[..n]), as'[n].reports))
    ensures var n := |as'| - 1;
            var rt := RunOf(lib, as'[..n]);
            SameTale(lib, as', bs) <==>
              (as'[n].Refresh? ==> Replayable(rt, EnvOf(rt, lib, as'[n].now), as'[n].reports))
  {
    hide SameContent, RetainsAny, RefreshWith, WithPolicy, WithBudget, Played, Recorded, Stream, RunOf, Replayable;
    var n := |as'| - 1;
    var a, b, op := RunOf(lib, as'[..n]), RunOf(lib, bs[..n]), as'[n];
    LastStep(lib, as');
    LastStep(lib, bs);
    EventIdsAreGapFree(lib, as'[..n]);
    EventIdsAreGapFree(lib, bs[..n]);
    if op.Refresh? {
      SameEnv(a, b, lib, op.now);
      EventsSameIff(a, b, EnvOf(a, lib, op.now), op.reports);
      SameSuffix(Stream(lib, as'[..n]), EventsOf(a, lib, op), EventsOf(b, lib, bs[n]));
    } else {
      OnlyRefreshPublishes(a, lib, op);
      OnlyRefreshPublishes(b, lib, op);
    }
  }

  lemma {:induction false} SameSuffix<T>(s: seq<T>, t: seq<T>, u: seq<T>)
    ensures s + t == s + u <==> t == u
  {
    if s + t == s + u { assert t == (s + t)[|s|..] && u == (s + u)[|s|..]; }
  }

  lemma {:induction false} ReplayableTale(lib: Library, as': seq<Op>, bs: seq<Op>)
    requires Plays(as', bs) && NeverRetains(lib, as') && AllReplayable(lib, as')
    ensures SameTale(lib, as', bs)
    decreases |as'|
  {
    hide SameContent, RetainsAny, Replayable, Stream, RunOf, SameTale, EnvOf;
    if as' == [] {
      NothingTold(lib);
    } else {
      var n := |as'| - 1;
      PrefixRetains(lib, as', n);
      PrefixReplayable(lib, as', n);
      PrefixPlays(as', bs, n);
      ReplayableTale(lib, as'[..n], bs[..n]);
      RunSame(lib, as'[..n], bs[..n]);
      TaleStep(lib, as', bs);
    }
  }

  lemma {:induction false} NothingTold(lib: Library)
    ensures SameTale(lib, [], [])
  {
  }

  lemma {:induction false} TaleReplayable(lib: Library, as': seq<Op>, bs: seq<Op>, k: nat)
    requires Plays(as', bs) && NeverRetains(lib, as') && SameTaleAlong(lib, as', bs)
    requires k < |as'| && as'[k].Refresh?
    ensures var rt := RunOf(lib, as'[..k]); Replayable(rt, EnvOf(rt, lib, as'[k].now), as'[k].reports)
  {
    hide SameContent, RetainsAny, Replayable, Stream, RunOf, SameTale, EnvOf;
    var cs, ds := as'[..k + 1], bs[..k + 1];
    assert cs[..k] == as'[..k] && ds[..k] == bs[..k];
    PrefixPlays(as', bs, k + 1);
    PrefixPlays(as', bs, k);
    PrefixRetains(lib, as', k);
    RunSame(lib, as'[..k], bs[..k]);
    assert SameTale(lib, as'[..k], bs[..k]) && SameTale(lib, cs, ds);
    TaleStep(lib, cs, ds);
  }

  /** A replay has the same domains, generation and events as its run at every step if and only if no refresh of
      the run retains a domain and every one is replayable. */
  lemma {:induction false} ReplayExactIff(lib: Library, ops: seq<Op>, version: nat)
    requires NoDuplicates(ops)
    ensures var replay := Replayed(ops, Recording(ops, version));
            SameDomainsAlong(lib, ops, replay) && SameTaleAlong(lib, ops, replay) <==>
              NeverRetains(lib, ops) && AllReplayable(lib, ops)
  {
    hide SameDomainsAlong, SameTale, RunOf, Replayable, EnvOf, NeverRetains, NoDuplicates, Recording, Plays;
    var replay := Replayed(ops, Recording(ops, version));
    ReplayedPlays(ops, version);
    ReplayContentIff(lib, ops, version);
    if NeverRetains(lib, ops) && AllReplayable(lib, ops) {
      forall k | 0 <= k <= |ops| ensures SameTale(lib, ops[..k], replay[..k]) {
        PrefixRetains(lib, ops, k);
        PrefixReplayable(lib, ops, k);
        PrefixPlays(ops, replay, k);
        ReplayableTale(lib, ops[..k], replay[..k]);
      }
    }
    if NeverRetains(lib, ops) && SameTaleAlong(lib, ops, replay) {
      forall k | 0 <= k < |ops| && ops[k].Refresh?
        ensures var rt := RunOf(lib, ops[..k]); Replayable(rt, EnvOf(rt, lib, ops[k].now), ops[k].reports) {
        TaleReplayable(lib, ops, replay, k);
      }
    }
  }

  // ---- runs with steady providers ----

  predicate IsFresh(r: Report) {
    r.outcome.Sampled? && (r.outcome.status == Healthy || r.outcome.status == Partial)
  }

  ghost predicate AllFresh(reports: seq<Report>) {
    forall i | 0 <= i < |reports| :: IsFresh(reports[i])
  }

  ghost predicate IsSteady(reports: seq<Report>, health: map<string, ProviderStatus>) {
    AllFresh(reports) && Poll(reports, |reports|).health == health
  }

  /** At every refresh the same providers report, each with the same status, Healthy or Partial. */
  ghost predicate SteadyRun(ops: seq<Op>, health: map<string, ProviderStatus>) {
    forall i | 0 <= i < |ops| && ops[i].Refresh? :: IsSteady(ops[i].reports, health)
  }

  lemma {:induction false} FreshPoll(reports: seq<Report>, k: nat)
    requires k <= |reports| && AllFresh(reports)
    ensures Poll(reports, k).notes == [] && Poll(reports, k).health.Keys == Names(reports, k)
    ensures forall n | n in Poll(reports, k).health :: !NotFresh(Poll(reports, k).health, n)
  {
    hide Tagged, ReportWarnings, MakesPartial, MakesStale;
    if k == 0 {
    } else {
      FreshPoll(reports, k - 1);
      FreshReport(reports[k - 1]);
    }
  }

  lemma {:induction false} FreshReport(r: Report)
    requires IsFresh(r)
    ensures ReportNotes(r) == []
  {
  }

  /** In a steady run all domains come from the providers that report, and their health is known. */
  ghost predicate Steady(rt: Runtime, health: map<string, ProviderStatus>) {
    && FromProviders(rt.snapshot.domains, health.Keys)
    && rt.snapshot.providerHealth == if rt.snapshotId == 0 then map[] else health
  }

  lemma {:induction false} SteadyRetainsNothing(rt: Runtime, reports: seq<Report>, health: map<string, ProviderStatus>)
    requires Steady(rt, health) && IsSteady(reports, health)
    ensures !RetainsAny(rt, reports)
  {
    hide NotFresh, ObservedIds, Poll, AllFresh;
    FreshPoll(reports, |reports|);
  }

  lemma {:induction false} SteadyIsReplayable(rt: Runtime, env: Env, reports: seq<Report>,
                                              health: map<string, ProviderStatus>)
    requires Steady(rt, health) && IsSteady(reports, health) && health != map[]
    ensures Replayable(rt, env, reports)
  {
    hide Poll, AllFresh, Differs, Unstamped, Observe, Retain, FinishedAll, HostOf, FromProviders;
    FreshPoll(reports, |reports|);
  }

  lemma {:induction false} RefreshKeepsSteady(a: Runtime, b: Runtime, env: Env, reports: seq<Report>,
                                              health: map<string, ProviderStatus>)
    requires SameContent(a, b) && Steady(a, health) && IsSteady(reports, health)
    ensures Steady(RefreshWith(a, env, reports).rt, health)
  {
    hide DraftOf, NotesOf, NextGeneration, AggregateLevel, AggregateScore, Trimmed, Numbered, FromProviders,
         AllFresh, RetainsAny, Played, Recorded, SameContent, SameDraft, Poll, Names;
    SteadyRetainsNothing(a, reports, health);
    DraftSame(a, b, env, reports);
    FreshPoll(reports, |reports|);
    DraftFeed(a, env, reports);
  }

  lemma {:induction false} SteadyStep(a: Runtime, b: Runtime, lib: Library, op: Op, health: map<string, ProviderStatus>)
    requires SameContent(a, b) && Steady(a, health) && (op.Refresh? ==> IsSteady(op.reports, health))
    ensures Steady(Applied(a, lib, op), health)
  {
    hide SameContent, FromProviders, RefreshWith, WithPolicy, WithBudget, IsSteady;
    if op.Refresh? {
      RefreshKeepsSteady(a, b, EnvOf(a, lib, op.now), op.reports, health);
    } else {
      OnlyRefreshPublishes(a, lib, op);
    }
  }

  lemma {:induction false} InitialSteady(health: map<string, ProviderStatus>)
    ensures Steady(INITIAL, health)
  {
  }

  lemma {:induction false} SteadyFacts(lib: Library, as': seq<Op>, bs: seq<Op>, health: map<string, ProviderStatus>)
    requires Plays(as', bs) && SteadyRun(as', health)
    ensures NeverRetains(lib, as') && Steady(RunOf(lib, as'), health)
    decreases |as'|
  {
    hide SameContent, Steady, RetainsAny, IsSteady, Applied, EventsOf, Replay;
    if as' == [] {
      assert RunOf(lib, as') == INITIAL;
      InitialSteady(health);
    } else {
      var n := |as'| - 1;
      SteadyFacts(lib, as'[..n], bs[..n], health);
      var a, b, op := RunOf(lib, as'[..n]), RunOf(lib, bs[..n]), as'[n];
      RunSame(lib, as'[..n], bs[..n]);
      SteadyStep(a, b, lib, op, health);
      LastStep(lib, as');
      if op.Refresh? { SteadyRetainsNothing(a, op.reports, health); }
      forall k | 0 <= k < |as'| && as'[k].Refresh? ensures !RetainsAny(RunOf(lib, as'[..k]), as'[k].reports) {
        if k < n { assert as'[..n][..k] == as'[..k]; }
      }
    }
  }

  lemma {:induction false} SteadyRunIsReplayable(lib: Library, as': seq<Op>, bs: seq<Op>,
                                                 health: map<string, ProviderStatus>)
    requires Plays(as', bs) && SteadyRun(as', health) && health != map[]
    ensures AllReplayable(lib, as')
  {
    hide Steady, IsSteady, EnvOf, Replayable, RunOf, Replay;
    forall k | 0 <= k < |as'| && as'[k].Refresh?
      ensures var rt := RunOf(lib, as'[..k]); Replayable(rt, EnvOf(rt, lib, as'[k].now), as'[k].reports) {
      SteadyFacts(lib, as'[..k], bs[..k], health);
      var rt := RunOf(lib, as'[..k]);
      SteadyIsReplayable(rt, EnvOf(rt, lib, as'[k].now), as'[k].reports, health);
    }
  }

  /** Replaying the trace of a run on a fresh runtime with the same configuration changes reproduces the run: the
      same per-domain states, the same published domains but for the provider's name and the explanation, the
      same aggregate and generation, and the same events, as long as the same providers report at every refresh,
      each with the same status, Healthy or Partial. */
  lemma {:induction false} ReplayReproduces(lib: Library, ops: seq<Op>, health: map<string, ProviderStatus>,
                                            version: nat)
    requires SteadyRun(ops, health) && health != map[]
    ensures var replay := Replayed(ops, Recording(ops, version));
            SameContent(RunOf(lib, ops), RunOf(lib, replay)) && SameTale(lib, ops, replay)
  {
    hide SameContent, SameTale, RunOf, SteadyRun, Plays, NeverRetains, AllReplayable;
    var replay := Replayed(ops, Recording(ops, version));
    ReplayedPlays(ops, version);
    SteadyFacts(lib, ops, replay, health);
    SteadyRunIsReplayable(lib, ops, replay, health);
    RunSame(lib, ops, replay);
    ReplayableTale(lib, ops, replay);
  }

  /** The same for the trace that comes back from the text it was written as. */
  lemma {:induction false} ReplayFromText(lib: Library, ops: seq<Op>, health: map<string, ProviderStatus>, version: nat,
                                          st: Setting)
    requires SteadyRun(ops, health) && health != map[] && st.conv.Faithful()
    requires var t := Recording(ops, version);
             && Small(version) && FramesSurvive(t.frames, |t.frames|) && PlainTrace(t, st.conv)
             && WithinLimits(TraceToJson(t, st.conv), st)
    ensures var t := RereadTrace(Recording(ops, version), st);
            && t.Some?
            && SameContent(RunOf(lib, ops), RunOf(lib, Replayed(ops, t.value)))
            && SameTale(lib, ops, Replayed(ops, t.value))
  {
    hide SameContent, SameTale, RunOf, SteadyRun, FramesSurvive, PlainTrace, WithinLimits, RereadTrace,
         Conversion.Faithful, Frames;
    TraceSurvivesText(Recording(ops, version), st);
    ReplayReproduces(lib, ops, health, version);
  }
}
