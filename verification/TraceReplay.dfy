/** Replaying a recorded trace on a fresh runtime: what of the run it was recorded from is reproduced, and when. */
module TraceReplay {
  import opened Options
  import opened Numbers
  import opened Policy
  import opened Domain
  import opened Events
  import opened Refresh
  import opened RefreshFacts
  import opened Lifecycle
  import opened Score
  import opened ReportOrder
  import opened Runs
  import opened RunFacts
  import opened TraceDocuments

  // ---- the trace provider ----

  const TRACE: string := "trace"

  /** What the provider gives when `i` frames have been used up. */
  function SampleAt(t: PressureTrace, i: nat): Outcome {
    Sampled(Healthy, "", if i < |t.frames| then t.frames[i].observations else [])
  }

  class TraceProvider {
    const trace: PressureTrace
    var index: nat

    constructor (trace: PressureTrace)
      ensures this.trace == trace && index == 0
    {
      this.trace := trace;
      index := 0;
    }

    method Sample() returns (o: Outcome)
      modifies this
      ensures o == SampleAt(trace, old(index))
      ensures index == old(index) + if old(index) < |trace.frames| then 1 else 0
    {
      if index >= |trace.frames| { return Sampled(Healthy, "", []); }
      o := Sampled(Healthy, "", trace.frames[index].observations);
      index := index + 1;
    }
  }

  // ---- recording ----

  /** All observations of the first `k` reports, in order. */
  function Recorded(reports: seq<Report>, k: nat): seq<DomainObservation>
    requires k <= |reports|
  {
    if k == 0 then [] else Recorded(reports, k - 1) + ObservationsOf(reports[k - 1])
  }

  function Names(reports: seq<Report>, k: nat): set<string>
    requires k <= |reports|
  {
    if k == 0 then {} else Names(reports, k - 1) + {reports[k - 1].name}
  }

  function Played(obs: seq<DomainObservation>): seq<Report> {
    [Report(TRACE, Sampled(Healthy, "", obs))]
  }

  ghost predicate FeedsFrom(feed: seq<Seen>, obs: seq<DomainObservation>, names: set<string>) {
    |feed| == |obs| && forall i | 0 <= i < |feed| :: feed[i].obs == obs[i] && feed[i].provider in names
  }

  lemma {:induction false} PollFeeds(reports: seq<Report>, k: nat)
    requires k <= |reports|
    ensures FeedsFrom(Poll(reports, k).feed, Recorded(reports, k), Names(reports, k))
  {
    hide ReportWarnings, ReportNotes, StatusOf, MakesPartial, MakesStale;
    if k == 0 {
    } else {
      PollFeeds(reports, k - 1);
    }
  }

  const TRACE_HEALTH: map<string, ProviderStatus> := map[TRACE := Healthy]

  lemma {:induction false} OnePoll(r: Report)
    ensures Poll([r], 1) == PollOne(NOTHING_POLLED, r) && Recorded([r], 1) == ObservationsOf(r)
  {
    hide PollOne, ObservationsOf;
    assert Poll([r], 0) == NOTHING_POLLED;
    assert Recorded([r], 1) == Recorded([r], 0) + ObservationsOf(r);
  }

  /** The trace provider is healthy, and gives the recorded observations in their order. */
  lemma {:induction false} PlayedPoll(obs: seq<DomainObservation>)
    ensures var polled := Poll(Played(obs), 1);
            polled.health == TRACE_HEALTH && polled.notes == [] && FeedsFrom(polled.feed, obs, {TRACE})
    ensures Recorded(Played(obs), 1) == obs
  {
    hide Poll, Recorded;
    OnePoll(Played(obs)[0]);
  }

  // ---- states that differ in the provider's name only ----

  function Unnamed(d: DomainState): DomainState {
    d.(provider := "", explanation := "")
  }

  ghost predicate SameButName(a: seq<DomainState>, b: seq<DomainState>) {
    |a| == |b| && forall i | 0 <= i < |a| :: Unnamed(a[i]) == Unnamed(b[i])
  }

  ghost predicate FromProviders(ds: seq<DomainState>, names: set<string>) {
    forall i | 0 <= i < |ds| :: ds[i].provider in names
  }

  lemma {:induction false} PublishedUnnamed(env: Env, st: DomainRt, p: string, q: string, obs: DomainObservation)
    ensures Unnamed(Published(env, st, p, obs)) == Unnamed(Published(env, st, q, obs))
    ensures Published(env, st, p, obs).provider == p
  {
    hide ScoreOf, Advanced, Usable, UtilizationFor, AvailableOf, Budget.ReserveBytes;
  }

  lemma {:induction false} FeedAt(feed: seq<Seen>, obs: seq<DomainObservation>, names: set<string>, i: nat)
    requires FeedsFrom(feed, obs, names) && i < |obs|
    ensures i < |feed| && feed[i].obs == obs[i] && feed[i].provider in names
  {
  }

  lemma {:induction false} ObserveSame(env: Env, states: States, a: seq<Seen>, b: seq<Seen>,
                                       obs: seq<DomainObservation>,
                                       m: set<string>, n: set<string>, k: nat)
    requires FeedsFrom(a, obs, m) && FeedsFrom(b, obs, n) && k <= |obs| == |a| == |b|
    ensures var o, p := Observe(env, states, a, k), Observe(env, states, b, k);
            && o.states == p.states && SameButName(o.domains, p.domains)
            && FromProviders(o.domains, m) && FromProviders(p.domains, n)
    ensures FeedIds(a, k) == FeedIds(b, k)
  {
    hide Published, Advanced, StateFor, Unnamed, SameButName, FromProviders, FeedsFrom;
    if k == 0 {
      NothingSame(m, n);
    } else {
      FeedAt(a, obs, m, k - 1);
      FeedAt(b, obs, n, k - 1);
      ObserveSame(env, states, a, b, obs, m, n, k - 1);
      var before := Observe(env, states, a, k - 1).states;
      var st := StateFor(env, before, obs[k - 1].id);
      PublishedUnnamed(env, st, a[k - 1].provider, b[k - 1].provider, obs[k - 1]);
      PublishedUnnamed(env, st, b[k - 1].provider, a[k - 1].provider, obs[k - 1]);
      OneMore(Observe(env, states, a, k - 1).domains, Observe(env, states, b, k - 1).domains,
              Published(env, st, a[k - 1].provider, obs[k - 1]), Published(env, st, b[k - 1].provider, obs[k - 1]),
              m, n);
    }
  }

  lemma {:induction false} NothingSame(m: set<string>, n: set<string>)
    ensures SameButName([], []) && FromProviders([], m) && FromProviders([], n)
  {
  }

  lemma {:induction false} OneMore(a: seq<DomainState>, b: seq<DomainState>, x: DomainState, y: DomainState,
                                   m: set<string>, n: set<string>)
    requires SameButName(a, b) && FromProviders(a, m) && FromProviders(b, n)
    requires Unnamed(x) == Unnamed(y) && x.provider in m && y.provider in n
    ensures SameButName(a + [x], b + [y]) && FromProviders(a + [x], m) && FromProviders(b + [y], n)
  {
    hide Unnamed;
  }

  lemma {:induction false} UnnamedId(a: DomainState, b: DomainState)
    requires Unnamed(a) == Unnamed(b)
    ensures a.id == b.id && a.level == b.level && a.domainType == b.domainType && a.score == b.score
    ensures a.budget == b.budget && a.responses == b.responses
  {
    assert Unnamed(a).id == a.id && Unnamed(b).id == b.id;
    assert Unnamed(a).level == a.level && Unnamed(b).level == b.level;
    assert Unnamed(a).domainType == a.domainType && Unnamed(b).domainType == b.domainType;
    assert Unnamed(a).score == a.score && Unnamed(b).score == b.score;
    assert Unnamed(a).budget == a.budget && Unnamed(b).budget == b.budget;
    assert Unnamed(a).responses == a.responses && Unnamed(b).responses == b.responses;
  }

  ghost predicate NoneRetained(ds: seq<DomainState>, observed: set<DomainId>, health: map<string, ProviderStatus>) {
    forall i | 0 <= i < |ds| :: !Retains(ds[i], observed, health)
  }

  lemma {:induction false} TraceRetainsNothing(ds: seq<DomainState>, observed: set<DomainId>)
    requires FromProviders(ds, {TRACE})
    ensures NoneRetained(ds, observed, TRACE_HEALTH)
  {
  }

  /** When nothing is retained, what is not observed is removed. */
  lemma {:induction false} RetainSame(states: States, a: seq<DomainState>, b: seq<DomainState>, observed: set<DomainId>,
                                      g: map<string, ProviderStatus>, h: map<string, ProviderStatus>, now: nat, k: nat)
    requires SameButName(a, b) && NoneRetained(a, observed, g) && NoneRetained(b, observed, h) && k <= |a|
    ensures var r, s := Retain(states, a, observed, g, now, k), Retain(states, b, observed, h, now, k);
            r == s && r.kept == []
  {
    hide Unnamed, Kept, NotFresh;
    if k == 0 {
    } else {
      RetainSame(states, a, b, observed, g, h, now, k - 1);
      UnnamedId(a[k - 1], b[k - 1]);
    }
  }

  lemma {:induction false} HostSame(a: seq<DomainState>, b: seq<DomainState>, k: nat)
    requires SameButName(a, b) && k <= |a|
    ensures HostOf(a, k) == HostOf(b, k) && MaxRank(a, k) == MaxRank(b, k)
  {
    hide Unnamed, IsHostlike, Rank0;
    if k == 0 {
    } else {
      HostSame(a, b, k - 1);
      UnnamedId(a[k - 1], b[k - 1]);
    }
  }

  lemma {:induction false} FinishedUnnamed(env: Env, a: DomainState, b: DomainState, host: HostTier)
    requires Unnamed(a) == Unnamed(b)
    ensures Unnamed(Finished(env, a, host)) == Unnamed(Finished(env, b, host))
    ensures Finished(env, a, host).provider == a.provider
  {
    hide Responses;
    UnnamedId(a, b);
    SameResponses(a, b, host);
    assert Unnamed(Finished(env, a, host)) == Unnamed(a).(responses := Responses(a, host));
    assert Unnamed(Finished(env, b, host)) == Unnamed(b).(responses := Responses(b, host));
  }

  lemma {:induction false} SameResponses(a: DomainState, b: DomainState, host: HostTier)
    requires a.domainType == b.domainType && a.level == b.level
    ensures Responses(a, host) == Responses(b, host)
  {
  }

  lemma {:induction false} FinishedSameButName(env: Env, a: seq<DomainState>, b: seq<DomainState>, host: HostTier,
                                               m: set<string>, n: set<string>)
    requires SameButName(a, b) && FromProviders(a, m) && FromProviders(b, n)
    ensures SameButName(FinishedAll(env, a, host), FinishedAll(env, b, host))
    ensures FromProviders(FinishedAll(env, a, host), m) && FromProviders(FinishedAll(env, b, host), n)
  {
    hide Unnamed, Finished;
    forall i | 0 <= i < |a| ensures Unnamed(Finished(env, a[i], host)) == Unnamed(Finished(env, b[i], host)) {
      FinishedUnnamed(env, a[i], b[i], host);
    }
    forall i | 0 <= i < |a|
      ensures FinishedAll(env, a, host)[i].provider in m && FinishedAll(env, b, host)[i].provider in n {
      FinishedUnnamed(env, a[i], b[i], host);
      FinishedUnnamed(env, b[i], a[i], host);
    }
  }

  lemma {:induction false} AggregateSame(policy: PressurePolicy, a: seq<DomainState>, b: seq<DomainState>)
    requires SameButName(a, b)
    ensures AggregateLevel(a) == AggregateLevel(b) && AggregateScore(policy, a) == AggregateScore(policy, b)
  {
    hide Unnamed, RoleWeight, Dot, Total, MaxRank, HostOf;
    HostSame(a, b, |a|);
    forall i | 0 <= i < |a| ensures a[i].score == b[i].score && a[i].domainType == b[i].domainType {
      UnnamedId(a[i], b[i]);
    }
    assert RoleWeights(policy, a) == RoleWeights(policy, b);
    assert Scores(a) == Scores(b);
  }

  // ---- differences and events ----

  lemma {:induction false} FindSame(a: seq<DomainState>, b: seq<DomainState>, id: DomainId)
    requires SameButName(a, b)
    ensures var f, g := FindIn(a, id), FindIn(b, id);
            (f.Some? <==> g.Some?) && (f.Some? ==> Unnamed(f.value) == Unnamed(g.value))
    decreases |a|
  {
    hide Unnamed;
    if a == [] {
    } else {
      UnnamedId(a[0], b[0]);
      FindSame(a[1..], b[1..], id);
    }
  }

  lemma {:induction false} MissingSame(a: seq<DomainState>, b: seq<DomainState>, c: seq<DomainState>,
                                       d: seq<DomainState>, k: nat)
    requires SameButName(a, b) && SameButName(c, d) && k <= |a|
    ensures Missing(a, c, k) == Missing(b, d, k) && AddedNotes(c, a, k) == AddedNotes(d, b, k)
  {
    hide Unnamed, FindIn;
    if k == 0 {
    } else {
      MissingSame(a, b, c, d, k - 1);
      UnnamedId(a[k - 1], b[k - 1]);
      FindSame(c, d, a[k - 1].id);
    }
  }

  lemma {:induction false} DiffersSame(a: seq<DomainState>, b: seq<DomainState>, x: DomainState, y: DomainState)
    requires SameButName(a, b) && Unnamed(x) == Unnamed(y)
    ensures LevelDiffers(a, x) == LevelDiffers(b, y) && BudgetDiffers(a, x) == BudgetDiffers(b, y)
    ensures ReserveDiffers(a, x) == ReserveDiffers(b, y)
    ensures forall g :: LevelNote(a, x, g) == LevelNote(b, y, g)
  {
    hide Unnamed, FindIn, Budget.ReserveBytes;
    UnnamedId(x, y);
    FindSame(a, b, x.id);
    if FindIn(a, x.id).Some? { UnnamedId(FindIn(a, x.id).value, FindIn(b, x.id).value); }
  }

  lemma {:induction false} WhichSame(ds: seq<DomainState>, es: seq<DomainState>, p: DomainState -> bool,
                                     q: DomainState -> bool,
                                     k: nat)
    requires SameButName(ds, es) && k <= |ds| && forall i | 0 <= i < |ds| :: p(ds[i]) == q(es[i])
    ensures Which(ds, p, k) == Which(es, q, k)
  {
    hide Unnamed;
    if k == 0 {
    } else {
      WhichSame(ds, es, p, q, k - 1);
      UnnamedId(ds[k - 1], es[k - 1]);
    }
  }

  lemma {:induction false} LevelNotesSame(a: seq<DomainState>, b: seq<DomainState>, c: seq<DomainState>,
                                          d: seq<DomainState>,
                                          generation: nat, k: nat)
    requires SameButName(a, b) && SameButName(c, d) && k <= |a|
    ensures LevelNotes(c, a, generation, k) == LevelNotes(d, b, generation, k)
  {
    hide Unnamed, LevelNote;
    if k == 0 {
    } else {
      LevelNotesSame(a, b, c, d, generation, k - 1);
      DiffersSame(c, d, a[k - 1], b[k - 1]);
    }
  }

  lemma {:induction false} ActionNotesSame(x: DomainState, y: DomainState, generation: nat, k: nat)
    requires Unnamed(x) == Unnamed(y) && k <= |x.responses| && x.responses == y.responses
    ensures ActionNotes(x, generation, k) == ActionNotes(y, generation, k)
  {
    hide Unnamed;
    UnnamedId(x, y);
    if k == 0 {
    } else {
      ActionNotesSame(x, y, generation, k - 1);
    }
  }

  lemma {:induction false} ResponseNotesSame(a: seq<DomainState>, b: seq<DomainState>, generation: nat, k: nat)
    requires SameButName(a, b) && k <= |a|
    ensures ResponseNotes(a, generation, k) == ResponseNotes(b, generation, k)
  {
    hide Unnamed, ActionNotes;
    if k == 0 {
    } else {
      ResponseNotesSame(a, b, generation, k - 1);
      UnnamedId(a[k - 1], b[k - 1]);
      ActionNotesSame(a[k - 1], b[k - 1], generation, |a[k - 1].responses|);
    }
  }

  // ---- the fate of a domain that a refresh does not observe ----

  lemma {:induction false} SameDistinct(a: seq<Seen>, b: seq<Seen>, obs: seq<DomainObservation>, m: set<string>,
                                        n: set<string>)
    requires FeedsFrom(a, obs, m) && FeedsFrom(b, obs, n)
    ensures DistinctFeed(a) ==> DistinctFeed(b)
    ensures ObservedIds(a) == ObservedIds(b)
  {
    ObservedWithin(a, b, obs, m, n);
    ObservedWithin(b, a, obs, n, m);
  }

  lemma {:induction false} ObservedWithin(a: seq<Seen>, b: seq<Seen>, obs: seq<DomainObservation>, m: set<string>,
                                          n: set<string>)
    requires FeedsFrom(a, obs, m) && FeedsFrom(b, obs, n)
    ensures ObservedIds(a) <= ObservedIds(b)
  {
    forall id | id in ObservedIds(a) ensures id in ObservedIds(b) {
      var i :| 0 <= i < |a| && a[i].obs.id == id;
      assert b[i] in b && b[i].obs.id == id;
    }
  }

  lemma {:induction false} Fate(rt: Runtime, env: Env, reports: seq<Report>, p: DomainState)
    requires Inv(rt) && DistinctFeed(Poll(reports, |reports|).feed) && p in rt.snapshot.domains
    ensures var polled := Poll(reports, |reports|);
            FindIn(DraftOf(rt, env, reports).domains, p.id).Some? <==>
              p.id in ObservedIds(polled.feed) || NotFresh(polled.health, p.provider)
  {
    hide Inv, DistinctFeed, Poll, NotFresh, FindIn, Reported, Retained, DraftOf, StateFor, Advanced, DistinctIds;
    DraftFeed(rt, env, reports);
    var feed := Poll(reports, |reports|).feed;
    if p.id in ObservedIds(feed) {
      var i :| 0 <= i < |feed| && feed[i].obs.id == p.id;
      InvDistinct(rt);
      ObservedFate(rt, env, reports, i);
    } else {
      UnobservedFate(rt, env, reports, p);
    }
  }

  lemma {:induction false} InvDistinct(rt: Runtime)
    requires Inv(rt)
    ensures DistinctIds(rt.snapshot.domains)
  {
  }

  lemma {:induction false} TraceIsFresh()
    ensures !NotFresh(TRACE_HEALTH, TRACE)
  {
  }

  /** A trace does not record that a provider failed, so a run and its replay come to publish different domains
      exactly when a refresh retains one: the replay drops it. */
  lemma {:induction false} ReplayDropsRetained(a: Runtime, b: Runtime, env: Env, reports: seq<Report>, p: DomainState,
                                               q: DomainState)
    requires Inv(a) && Inv(b) && DistinctFeed(Poll(reports, |reports|).feed)
    requires p in a.snapshot.domains && q in b.snapshot.domains && p.id == q.id && q.provider == TRACE
    ensures var polled := Poll(reports, |reports|);
            var run := FindIn(DraftOf(a, env, reports).domains, p.id);
            var replay := FindIn(DraftOf(b, env, Played(Recorded(reports, |reports|))).domains, p.id);
            && (replay.Some? ==> run.Some?)
            && (run.Some? && replay.None? <==> p.id !in ObservedIds(polled.feed) && NotFresh(polled.health, p.provider))
  {
    hide Inv, DistinctFeed, Poll, NotFresh, FindIn, DraftOf, ObservedIds, Recorded, FeedsFrom, Names;
    var obs := Recorded(reports, |reports|);
    var played := Played(obs);
    PlayedPoll(obs);
    PollFeeds(reports, |reports|);
    SameDistinct(Poll(reports, |reports|).feed, Poll(played, 1).feed, obs, Names(reports, |reports|), {TRACE});
    TraceIsFresh();
    Fate(a, env, reports, p);
    Fate(b, env, played, q);
  }
}
