/** The outcome of a run does not depend on the order in which the unordered provider table is visited. */
module OrderIndependence {
  import opened Options
  import opened Policy
  import opened Domain
  import opened Refresh
  import opened RefreshFacts
  import opened Lifecycle
  import opened Generations
  import opened Aggregation
  import opened Score
  import opened ReportOrder
  import opened Runs

  /** The same states, in possibly different orders. */
  ghost predicate SameDomains(a: seq<DomainState>, b: seq<DomainState>) {
    DistinctIds(a) && DistinctIds(b) && SameElements(a, b)
  }

  lemma {:induction false} SameIds(a: seq<DomainState>, b: seq<DomainState>)
    requires SameElements(a, b)
    ensures IdSet(a) == IdSet(b)
  {
  }

  // ---- observing and retaining ----

  lemma {:induction false} SameObservedIds(a: seq<Seen>, b: seq<Seen>)
    requires SameElements(a, b)
    ensures ObservedIds(a) == ObservedIds(b)
  {
  }

  lemma {:induction false} ObservedWithin(env: Env, states: States, a: seq<Seen>, b: seq<Seen>,
                                          ds: seq<DomainState>, es: seq<DomainState>)
    requires SameElements(a, b)
    requires ObservesDomains(env, states, a, |a|, ds) && ObservesDomains(env, states, b, |b|, es)
    ensures forall d | d in ds :: d in es
  {
    hide Published, StateFor;
    forall d | d in ds ensures d in es {
      var i :| 0 <= i < |ds| && ds[i] == d;
      assert a[i] in b;
      var j :| 0 <= j < |b| && b[j] == a[i];
      assert es[j] == d;
    }
  }

  lemma {:induction false} SameStates(env: Env, states: States, a: seq<Seen>, b: seq<Seen>, s: States, t: States)
    requires SameElements(a, b)
    requires ObservesStates(env, states, a, |a|, s) && ObservesStates(env, states, b, |b|, t)
    ensures s == t
  {
    hide Advanced, StateFor;
    ObservedIsFeedIds(a);
    ObservedIsFeedIds(b);
    SameObservedIds(a, b);
    forall id | id in s ensures t[id] == s[id] {
      if id in ObservedIds(a) {
        var i :| 0 <= i < |a| && a[i].obs.id == id;
        assert a[i] in b;
        var j :| 0 <= j < |b| && b[j] == a[i];
      }
    }
  }

  lemma {:induction false} SameObservation(env: Env, states: States, a: seq<Seen>, b: seq<Seen>)
    requires SameElements(a, b) && DistinctFeed(a) && DistinctFeed(b)
    ensures var o, p := Observe(env, states, a, |a|), Observe(env, states, b, |b|);
            SameDomains(o.domains, p.domains) && o.states == p.states
  {
    hide Published, Advanced, StateFor, Observe, DistinctFeed, DistinctIds, ObservesDomains, ObservesStates;
    var o, p := Observe(env, states, a, |a|), Observe(env, states, b, |b|);
    ObservePointwise(env, states, a, |a|);
    ObservePointwise(env, states, b, |b|);
    FeedDomains(env, states, a, o.domains);
    FeedDomains(env, states, b, p.domains);
    ObservedWithin(env, states, a, b, o.domains, p.domains);
    ObservedWithin(env, states, b, a, p.domains, o.domains);
    SameStates(env, states, a, b, o.states, p.states);
  }

  lemma {:induction false} KeptWithin(a: seq<DomainState>, b: seq<DomainState>, observed: set<DomainId>,
                                      health: map<string, ProviderStatus>,
                   now: nat, ks: seq<DomainState>, ls: seq<DomainState>)
    requires SameElements(a, b)
    requires KeepsDomains(a, observed, health, now, |a|, ks) && KeepsDomains(b, observed, health, now, |b|, ls)
    ensures forall d | d in ks :: d in ls
  {
    hide Retains, DistinctIds, IdSet, Kept;
    forall d | d in ks ensures d in ls {
      KeptFrom(a, observed, health, now, ks, d);
      var p :| p in a && Retains(p, observed, health) && d == Kept(p, now);
      assert p in b;
      var j :| 0 <= j < |b| && b[j] == p;
    }
  }

  lemma {:induction false} RemovedWithin(a: seq<DomainState>, b: seq<DomainState>, observed: set<DomainId>,
                      health: map<string, ProviderStatus>)
    requires SameDomains(a, b)
    ensures RemovedIds(a, observed, health, |a|) <= RemovedIds(b, observed, health, |b|)
  {
    hide Removes, Retains, DistinctIds;
    forall id | id in RemovedIds(a, observed, health, |a|) ensures id in RemovedIds(b, observed, health, |b|) {
      FateOf(a, observed, health, |a|, id);
      var d :| d in a && d.id == id && Removes(d, observed, health);
      assert d in b && b[..|b|] == b;
      FateIff(b, observed, health, |b|, d);
    }
  }

  lemma {:induction false} SameRetention(states: States, a: seq<DomainState>, b: seq<DomainState>,
                                         observed: set<DomainId>,
                      health: map<string, ProviderStatus>, now: nat)
    requires SameDomains(a, b)
    ensures var r, s := Retain(states, a, observed, health, now, |a|), Retain(states, b, observed, health, now, |b|);
            SameDomains(r.kept, s.kept) && r.states == s.states
  {
    hide Retain, DistinctIds, RemovedIds, RetainedIds, IdSet;
    var r, s := Retain(states, a, observed, health, now, |a|), Retain(states, b, observed, health, now, |b|);
    RetainPointwise(states, a, observed, health, now, |a|);
    RetainPointwise(states, b, observed, health, now, |b|);
    KeptWithin(a, b, observed, health, now, r.kept, s.kept);
    KeptWithin(b, a, observed, health, now, s.kept, r.kept);
    RemovedWithin(a, b, observed, health);
    RemovedWithin(b, a, observed, health);
  }

  // ---- the published domains ----

  lemma {:induction false} SameHost(a: seq<DomainState>, b: seq<DomainState>)
    requires SameElements(a, b)
    ensures HostCanTakeMore(a) <==> HostCanTakeMore(b)
  {
    hide IsHostlike, SeverityRank;
    if HostPresent(a) {
      var h :| h in a && IsHostlike(h.domainType);
      assert h in b;
    }
    if HostPresent(b) {
      var h :| h in b && IsHostlike(h.domainType);
      assert h in a;
    }
  }

  lemma {:induction false} FinishedByHost(env: Env, d: DomainState, g: HostTier, h: HostTier)
    requires g.present && g.severity < 3 <==> h.present && h.severity < 3
    ensures Finished(env, d, g) == Finished(env, d, h)
  {
    hide InitialActions, Without;
  }

  lemma {:induction false} FinishedWithin(env: Env, a: seq<DomainState>, b: seq<DomainState>, g: HostTier, h: HostTier)
    requires SameElements(a, b)
    requires g.present && g.severity < 3 <==> h.present && h.severity < 3
    ensures forall x | x in FinishedAll(env, a, g) :: x in FinishedAll(env, b, h)
  {
    hide Finished, FinishedAll;
    forall x | x in FinishedAll(env, a, g) ensures x in FinishedAll(env, b, h) {
      FinishedMember(env, a, g, x);
      var y :| y in a && x == Finished(env, y, g);
      FinishedByHost(env, y, g, h);
      FinishedMember(env, b, h, y);
    }
  }

  /** Runtimes that agree on everything but the order of the published domains, the warnings, the event stream
      and the history. */
  ghost predicate Alike(a: Runtime, b: Runtime) {
    && a.policy == b.policy && a.budgets == b.budgets && a.states == b.states
    && a.generation == b.generation && a.snapshotId == b.snapshotId && a.historyLimit == b.historyLimit
    && AlikeSnapshots(a.snapshot, b.snapshot)
  }

  ghost predicate AlikeSnapshots(s: Snapshot, t: Snapshot) {
    && SameDomains(s.domains, t.domains)
    && s.id == t.id && s.generation == t.generation && s.timestampMs == t.timestampMs
    && s.providerHealth == t.providerHealth
    && s.aggregateLevel == t.aggregateLevel && s.aggregateScore == t.aggregateScore
    && s.policyVersion == t.policyVersion && s.policyName == t.policyName
    && s.staleData == t.staleData && s.partialData == t.partialData && s.confidence == t.confidence
  }

  lemma {:induction false} ConcatSame(a: seq<DomainState>, b: seq<DomainState>, c: seq<DomainState>,
                                      d: seq<DomainState>)
    requires SameElements(a, b) && SameElements(c, d)
    ensures SameElements(a + c, b + d)
  {
  }

  lemma {:induction false} SameDraft(a: Runtime, b: Runtime, env: Env, rs: seq<Report>, ss: seq<Report>)
    requires Alike(a, b) && Permuted(rs, ss)
    ensures var d, e := DraftOf(a, env, rs), DraftOf(b, env, ss);
            && SameDomains(d.domains, e.domains) && d.retention.states == e.retention.states
            && d.polled.health == e.polled.health
            && d.polled.partialData == e.polled.partialData && d.polled.staleData == e.polled.staleData
            && (d.retention.kept == [] <==> e.retention.kept == [])
  {
    hide DistinctIds, SameElements, Poll, Observe, Retain, FinishedAll, HostOf, DistinctFeed, Disjoint,
         HostCanTakeMore, IdSet, ObservedIds, RemovedIds, RetainedIds;
    var d, e := DraftOf(a, env, rs), DraftOf(b, env, ss);
    PermutedSame(rs, ss);
    assert Disjoint(rs);
    SameHealth(rs, ss);
    SameFeed(rs, ss);
    FeedIsDistinct(rs, |rs|);
    FeedIsDistinct(ss, |ss|);
    SameObservation(env, a.states, d.polled.feed, e.polled.feed);
    SameObservedIds(d.polled.feed, e.polled.feed);
    SameRetention(d.observed.states, a.snapshot.domains, b.snapshot.domains, ObservedIds(d.polled.feed),
                  d.polled.health, env.now);
    EmptySame(d.retention.kept, e.retention.kept);
    var all, all' := d.observed.domains + d.retention.kept, e.observed.domains + e.retention.kept;
    ConcatSame(d.observed.domains, e.observed.domains, d.retention.kept, e.retention.kept);
    SameHost(all, all');
    HostTierIff(all);
    HostTierIff(all');
    FinishedWithin(env, all, all', HostTierOf(d), HostTierOf(e));
    SameSymmetric(all, all');
    FinishedWithin(env, all', all, HostTierOf(e), HostTierOf(d));
    SameBothWays(d.domains, e.domains);
    DraftIds(a, env, rs);
    DraftIds(b, env, ss);
  }

  lemma {:induction false} SameSymmetric(a: seq<DomainState>, b: seq<DomainState>)
    requires SameElements(a, b)
    ensures SameElements(b, a)
  {
  }

  lemma {:induction false} SameBothWays(a: seq<DomainState>, b: seq<DomainState>)
    requires (forall x | x in a :: x in b) && (forall x | x in b :: x in a)
    ensures SameElements(a, b)
  {
  }

  lemma {:induction false} EmptySame(a: seq<DomainState>, b: seq<DomainState>)
    requires SameElements(a, b)
    ensures a == [] <==> b == []
  {
    if a != [] { assert a[0] in b; }
    if b != [] { assert b[0] in a; }
  }

  // ---- sums over the domains ----

  function SumOf(f: DomainState -> real, ds: seq<DomainState>, k: nat): real
    requires k <= |ds|
  {
    if k == 0 then 0.0 else SumOf(f, ds, k - 1) + f(ds[k - 1])
  }

  lemma {:induction false} SumOfPrefix(f: DomainState -> real, a: seq<DomainState>, b: seq<DomainState>, k: nat)
    requires k <= |a| && k <= |b| && a[..k] == b[..k]
    ensures SumOf(f, a, k) == SumOf(f, b, k)
  {
    if k == 0 {
    } else {
      assert a[..k][..k - 1] == a[..k - 1] && b[..k][..k - 1] == b[..k - 1];
      assert a[..k][k - 1] == b[..k][k - 1];
      SumOfPrefix(f, a, b, k - 1);
    }
  }

  function WithoutAt(ds: seq<DomainState>, j: nat): seq<DomainState>
    requires j < |ds|
  {
    ds[..j] + ds[j + 1..]
  }

  lemma {:induction false} SumWithoutAt(f: DomainState -> real, ds: seq<DomainState>, j: nat)
    requires j < |ds|
    ensures SumOf(f, ds, |ds|) == SumOf(f, WithoutAt(ds, j), |ds| - 1) + f(ds[j])
    decreases |ds|
  {
    var n := |ds| - 1;
    if j == n {
      SumOfPrefix(f, ds, WithoutAt(ds, j), n);
    } else {
      var shorter := ds[..n];
      SumWithoutAt(f, shorter, j);
      SumOfPrefix(f, ds, shorter, n);
      assert WithoutAt(ds, j)[..n - 1] == WithoutAt(shorter, j)[..n - 1];
      SumOfPrefix(f, WithoutAt(ds, j), WithoutAt(shorter, j), n - 1);
    }
  }

  lemma {:induction false} SameWithoutLast(a: seq<DomainState>, b: seq<DomainState>, j: nat)
    requires SameDomains(a, b) && a != [] && j < |b| && b[j] == a[|a| - 1]
    ensures SameDomains(a[..|a| - 1], WithoutAt(b, j))
  {
    var a', b', x := a[..|a| - 1], WithoutAt(b, j), b[j];
    assert forall i | 0 <= i < |b'| :: b'[i] == b[if i < j then i else i + 1];
    forall d | d in a' ensures d in b' {
      assert d in a && d in b;
      var i :| 0 <= i < |b| && b[i] == d;
      assert i != j;
      assert b'[if i < j then i else i - 1] == d;
    }
    forall d | d in b' ensures d in a' {
      var i :| 0 <= i < |b'| && b'[i] == d;
      assert d in b && d in a;
    }
  }

  lemma {:induction false} SumPermuted(f: DomainState -> real, a: seq<DomainState>, b: seq<DomainState>)
    requires SameDomains(a, b)
    ensures SumOf(f, a, |a|) == SumOf(f, b, |b|)
    decreases |a|
  {
    if a == [] {
      EmptySame(a, b);
    } else {
      hide SameDomains;
      var n := |a| - 1;
      assert a[n] in b by { LastShared(a, b); }
      var j :| 0 <= j < |b| && b[j] == a[n];
      SameWithoutLast(a, b, j);
      SumPermuted(f, a[..n], WithoutAt(b, j));
      SumOfPrefix(f, a, a[..n], n);
      SumWithoutAt(f, b, j);
    }
  }

  lemma {:induction false} LastShared(a: seq<DomainState>, b: seq<DomainState>)
    requires SameDomains(a, b) && a != []
    ensures a[|a| - 1] in b
  {
  }

  lemma {:induction false} SumsOf(policy: PressurePolicy, ds: seq<DomainState>, k: nat)
    requires k <= |ds|
    ensures Total(RoleWeights(policy, ds), k) == SumOf((d: DomainState) => RoleWeight(policy, d.domainType), ds, k)
    ensures Dot(RoleWeights(policy, ds), Scores(ds), k)
            == SumOf((d: DomainState) => RoleWeight(policy, d.domainType) * d.score, ds, k)
  {
    hide RoleWeight;
    if k == 0 {
    } else {
      SumsOf(policy, ds, k - 1);
    }
  }

  lemma {:induction false} SameAggregate(policy: PressurePolicy, a: seq<DomainState>, b: seq<DomainState>)
    requires SameDomains(a, b)
    ensures AggregateLevel(a) == AggregateLevel(b) && AggregateScore(policy, a) == AggregateScore(policy, b)
  {
    hide RoleWeight, Total, Dot, SumOf, MaxRank, Mean;
    SumsOf(policy, a, |a|);
    SumsOf(policy, b, |b|);
    SumPermuted((d: DomainState) => RoleWeight(policy, d.domainType), a, b);
    SumPermuted((d: DomainState) => RoleWeight(policy, d.domainType) * d.score, a, b);
    EmptySame(a, b);
    MaxWithin(a, b);
    MaxWithin(b, a);
  }

  lemma {:induction false} MaxWithin(a: seq<DomainState>, b: seq<DomainState>)
    requires SameElements(a, b)
    ensures MaxRank(a, |a|) <= MaxRank(b, |b|)
  {
    hide Rank0;
    MaxRankIsMax(a, |a|);
    MaxRankIsMax(b, |b|);
    if a != [] {
      var i :| 0 <= i < |a| && Rank0(a[i].level) == MaxRank(a, |a|);
      assert a[i] in b;
      var j :| 0 <= j < |b| && b[j] == a[i];
    }
  }

  // ---- whole refreshes and runs ----

  lemma {:induction false} AgreeByMembership(a: Snapshot, b: Snapshot, c: Snapshot, d: Snapshot)
    requires AlikeSnapshots(a, b) && SameElements(c.domains, d.domains)
    requires c.providerHealth == d.providerHealth && c.aggregateLevel == d.aggregateLevel
    requires c.aggregateScore == d.aggregateScore && c.policyVersion == d.policyVersion
    ensures Agree(a, c) <==> Agree(b, d)
  {
    hide SameStanding, DistinctIds;
    SameIds(a.domains, b.domains);
    SameIds(c.domains, d.domains);
  }

  lemma {:induction false} SameRefresh(a: Runtime, b: Runtime, env: Env, rs: seq<Report>, ss: seq<Report>)
    requires Alike(a, b) && Permuted(rs, ss)
    ensures Alike(RefreshWith(a, env, rs).rt, RefreshWith(b, env, ss).rt)
  {
    hide DraftOf, NotesOf, AggregateLevel, AggregateScore, Trimmed, DistinctIds, SameElements, Agree, Diff,
         SnapshotDiff.Any, Numbered;
    SameDraft(a, b, env, rs, ss);
    var d, e := DraftOf(a, env, rs), DraftOf(b, env, ss);
    SameAggregate(env.policy, d.domains, e.domains);
    var u, v := Unstamped(a, env, d), Unstamped(b, env, e);
    AnyIff(a.snapshot, u);
    AnyIff(b.snapshot, v);
    AgreeByMembership(a.snapshot, b.snapshot, u, v);
  }

  /** Runs that differ only in the order in which each refresh visits the providers. */
  ghost predicate SameButOrder(a: Op, b: Op) {
    if a.Refresh? && b.Refresh? then a.now == b.now && Permuted(a.reports, b.reports) else a == b
  }

  ghost predicate SameRuns(as': seq<Op>, bs: seq<Op>) {
    |as'| == |bs| && forall i | 0 <= i < |as'| :: SameButOrder(as'[i], bs[i])
  }

  lemma {:induction false} SameStep(a: Runtime, b: Runtime, lib: Library, x: Op, y: Op)
    requires Alike(a, b) && SameButOrder(x, y)
    ensures Alike(Applied(a, lib, x), Applied(b, lib, y))
  {
    hide RefreshWith, SameDomains, Permuted, ValidatePolicy, BudgetOk;
    if x.Refresh? {
      SameRefresh(a, b, EnvOf(a, lib, x.now), x.reports, y.reports);
    }
  }

  /** Permuting the providers at every refresh of a run leaves the same per-domain states, aggregate level and
      score, health, staleness, generation and policy, and the same published domains up to permutation. */
  lemma {:induction false} OrderDoesNotMatter(lib: Library, as': seq<Op>, bs: seq<Op>)
    requires SameRuns(as', bs)
    ensures Alike(RunOf(lib, as'), RunOf(lib, bs))
    ensures multiset(RunOf(lib, as').snapshot.domains) == multiset(RunOf(lib, bs).snapshot.domains)
    decreases |as'|
  {
    hide Alike, Applied, SameButOrder;
    if as' == [] {
      assert RunOf(lib, as') == INITIAL && RunOf(lib, bs) == INITIAL;
      InitialAlike();
    } else {
      var n := |as'| - 1;
      OrderDoesNotMatter(lib, as'[..n], bs[..n]);
      SameStep(RunOf(lib, as'[..n]), RunOf(lib, bs[..n]), lib, as'[n], bs[n]);
    }
    AlikeMultisets(RunOf(lib, as'), RunOf(lib, bs));
  }

  lemma {:induction false} InitialAlike()
    ensures Alike(INITIAL, INITIAL)
  {
  }

  lemma {:induction false} AlikeMultisets(a: Runtime, b: Runtime)
    requires Alike(a, b)
    ensures multiset(a.snapshot.domains) == multiset(b.snapshot.domains)
  {
    SameMultisets(a.snapshot.domains, b.snapshot.domains);
  }

  lemma {:induction false} SameMultisets(a: seq<DomainState>, b: seq<DomainState>)
    requires SameDomains(a, b)
    ensures multiset(a) == multiset(b)
    decreases |a|
  {
    if a == [] {
      EmptySame(a, b);
    } else {
      hide SameDomains, WithoutAt;
      var n := |a| - 1;
      assert a[n] in b by { LastShared(a, b); }
      var j :| 0 <= j < |b| && b[j] == a[n];
      SameWithoutLast(a, b, j);
      SameMultisets(a[..n], WithoutAt(b, j));
      MultisetWithoutAt(a, n);
      MultisetWithoutAt(b, j);
      assert WithoutAt(a, n) == a[..n] by { WithoutLast(a); }
    }
  }

  lemma {:induction false} WithoutLast(ds: seq<DomainState>)
    requires ds != []
    ensures WithoutAt(ds, |ds| - 1) == ds[..|ds| - 1]
  {
  }

  lemma {:induction false} MultisetWithoutAt(ds: seq<DomainState>, j: nat)
    requires j < |ds|
    ensures multiset(ds) == multiset(WithoutAt(ds, j)) + multiset{ds[j]}
  {
    assert ds == ds[..j] + [ds[j]] + ds[j + 1..];
  }
}
