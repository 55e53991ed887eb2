/** What a refresh does to each domain: the lifecycle invariant. */
module RefreshFacts {
  import opened Options
  import opened Policy
  import opened Classifier
  import opened Hysteresis
  import opened HysteresisRuns
  import opened Domain
  import opened Events
  import opened Refresh

  ghost predicate DistinctIds(ds: seq<DomainState>) {
    forall i, j | 0 <= i < j < |ds| :: ds[i].id != ds[j].id
  }

  /** No domain is observed twice in one refresh. */
  ghost predicate DistinctFeed(feed: seq<Seen>) {
    forall i, j | 0 <= i < j < |feed| :: feed[i].obs.id != feed[j].obs.id
  }

  function IdSet(ds: seq<DomainState>): set<DomainId> {
    set d | d in ds :: d.id
  }

  lemma {:induction false} FindInDistinct(ds: seq<DomainState>, d: DomainState)
    requires DistinctIds(ds) && d in ds
    ensures FindIn(ds, d.id) == Some(d)
  {
    var f := FindIn(ds, d.id);
    var i :| 0 <= i < |ds| && ds[i] == d;
    var j :| 0 <= j < |ds| && ds[j] == f.value;
    assert !(i < j) && !(j < i);
  }

  /** Every reachable state: published ids are distinct and are those with a runtime state; levels are
      known; and each debounce machine is sound and runs under the current policy. */
  ghost predicate Inv(rt: Runtime) {
    && DistinctIds(rt.snapshot.domains)
    && IdSet(rt.snapshot.domains) == rt.states.Keys
    && (forall d | d in rt.snapshot.domains :: IsKnown(d.level))
    && forall id | id in rt.states :: Sound(rt.states[id].machine) && rt.states[id].cfg == rt.policy.hysteresis
  }

  // ---- observed domains ----

  function FeedIds(feed: seq<Seen>, k: nat): set<DomainId>
    requires k <= |feed|
  {
    if k == 0 then {} else FeedIds(feed, k - 1) + {feed[k - 1].obs.id}
  }

  lemma {:induction false} FeedIdsIff(feed: seq<Seen>, k: nat, id: DomainId)
    requires k <= |feed|
    ensures id in FeedIds(feed, k) <==> exists i :: 0 <= i < k && feed[i].obs.id == id
  {
    if k == 0 {
    } else {
      FeedIdsIff(feed, k - 1, id);
      assert feed[k - 1].obs.id == id ==> exists i :: 0 <= i < k && feed[i].obs.id == id;
    }
  }

  /** With distinct ids each observation meets the state from before the refresh. */
  ghost predicate ObservesDomains(env: Env, states: States, feed: seq<Seen>, k: nat, ds: seq<DomainState>)
    requires k <= |feed|
  {
    |ds| == k && forall i | 0 <= i < k ::
      ds[i] == Published(env, StateFor(env, states, feed[i].obs.id), feed[i].provider, feed[i].obs)
  }

  ghost predicate ObservesStates(env: Env, states: States, feed: seq<Seen>, k: nat, after: States)
    requires k <= |feed|
  {
    && after.Keys == states.Keys + FeedIds(feed, k)
    && (forall i | 0 <= i < k ::
          feed[i].obs.id in after
          && after[feed[i].obs.id] == Advanced(env, StateFor(env, states, feed[i].obs.id), feed[i].obs))
    && (forall id | id in states && id !in FeedIds(feed, k) :: after[id] == states[id])
  }

  lemma {:induction false} ObservePointwise(env: Env, states: States, feed: seq<Seen>, k: nat)
    requires k <= |feed| && DistinctFeed(feed)
    ensures ObservesDomains(env, states, feed, k, Observe(env, states, feed, k).domains)
    ensures ObservesStates(env, states, feed, k, Observe(env, states, feed, k).states)
  {
    hide Published, Advanced, DistinctFeed, ObservesStates, ObservesDomains, StateFor;
    if k == 0 {
      ObserveNothing(env, states, feed);
    } else {
      ObservePointwise(env, states, feed, k - 1);
      var before, x := Observe(env, states, feed, k - 1), feed[k - 1];
      ObserveStateFor(env, states, feed, k, before.states);
      ObserveStates(env, states, feed, k, before.states);
      ObserveDomains(env, states, feed, k, before.domains);
    }
  }

  lemma {:induction false} ObserveNothing(env: Env, states: States, feed: seq<Seen>)
    ensures ObservesDomains(env, states, feed, 0, [])
    ensures ObservesStates(env, states, feed, 0, states)
  {
    hide Published, Advanced, StateFor;
  }

  lemma {:induction false} ObserveStateFor(env: Env, states: States, feed: seq<Seen>, k: nat, before: States)
    requires 0 < k <= |feed| && DistinctFeed(feed) && ObservesStates(env, states, feed, k - 1, before)
    ensures StateFor(env, before, feed[k - 1].obs.id) == StateFor(env, states, feed[k - 1].obs.id)
  {
    hide Advanced;
    FeedIdsIff(feed, k - 1, feed[k - 1].obs.id);
  }

  lemma {:induction false} ObserveDomains(env: Env, states: States, feed: seq<Seen>, k: nat, ds: seq<DomainState>)
    requires 0 < k <= |feed| && ObservesDomains(env, states, feed, k - 1, ds)
    ensures var x := feed[k - 1];
            ObservesDomains(env, states, feed, k,
                            ds + [Published(env, StateFor(env, states, x.obs.id), x.provider, x.obs)])
  {
    hide Published, StateFor;
  }

  lemma {:induction false} ObserveStates(env: Env, states: States, feed: seq<Seen>, k: nat, before: States)
    requires 0 < k <= |feed| && DistinctFeed(feed) && ObservesStates(env, states, feed, k - 1, before)
    ensures var x := feed[k - 1];
            ObservesStates(env, states, feed, k,
                           before[x.obs.id := Advanced(env, StateFor(env, states, x.obs.id), x.obs)])
  {
    hide Advanced, StateFor;
  }

  lemma {:induction false} PublishedFacts(env: Env, st: DomainRt, provider: string, obs: DomainObservation)
    ensures var d := Published(env, st, provider, obs);
            && d.id == obs.id && d.provider == provider && d.domainType == obs.domainType
            && d.level == Advanced(env, st, obs).machine.level
            && 0.0 <= d.score <= 1.0
    ensures Advanced(env, st, obs).cfg == st.cfg
    ensures Sound(st.machine) ==> Sound(Advanced(env, st, obs).machine)
  {
    var util := UtilizationFor(obs.committed, Usable(env, obs));
    if Sound(st.machine) {
      StepSound(Rules(env.policy.thresholds, st.cfg), st.machine, Sample(util, env.now));
    }
  }

  // ---- domains that were not observed ----

  function RemovedIds(prev: seq<DomainState>, observed: set<DomainId>, health: map<string, ProviderStatus>,
                      k: nat): set<DomainId>
    requires k <= |prev|
  {
    if k == 0 then {}
    else
      RemovedIds(prev, observed, health, k - 1)
      + if Removes(prev[k - 1], observed, health) then {prev[k - 1].id} else {}
  }

  function RetainedIds(prev: seq<DomainState>, observed: set<DomainId>, health: map<string, ProviderStatus>,
                       k: nat): set<DomainId>
    requires k <= |prev|
  {
    if k == 0 then {}
    else
      RetainedIds(prev, observed, health, k - 1)
      + if Retains(prev[k - 1], observed, health) then {prev[k - 1].id} else {}
  }

  lemma {:induction false} FateIff(prev: seq<DomainState>, observed: set<DomainId>,
                                   health: map<string, ProviderStatus>, k: nat, d: DomainState)
    requires k <= |prev| && DistinctIds(prev) && d in prev
    ensures d in prev[..k] ==>
              && (d.id in RemovedIds(prev, observed, health, k) <==> Removes(d, observed, health))
              && (d.id in RetainedIds(prev, observed, health, k) <==> Retains(d, observed, health))
    ensures d !in prev[..k] ==>
              d.id !in RemovedIds(prev, observed, health, k) && d.id !in RetainedIds(prev, observed, health, k)
  {
    hide Retains, Removes, DistinctIds, FindIn;
    if k == 0 {
    } else {
      FateIff(prev, observed, health, k - 1, d);
      assert prev[..k] == prev[..k - 1] + [prev[k - 1]];
      FindInDistinct(prev, d);
      FindInDistinct(prev, prev[k - 1]);
      DistinctPrefix(prev, k);
    }
  }

  lemma {:induction false} DistinctPrefix(ds: seq<DomainState>, k: nat)
    requires 0 < k <= |ds| && DistinctIds(ds)
    ensures ds[k - 1] !in ds[..k - 1]
  {
  }

  ghost predicate KeepsDomains(prev: seq<DomainState>, observed: set<DomainId>,
                               health: map<string, ProviderStatus>, now: nat, k: nat, kept: seq<DomainState>)
    requires k <= |prev|
  {
    && DistinctIds(kept)
    && IdSet(kept) == RetainedIds(prev, observed, health, k)
    && forall i | 0 <= i < k && Retains(prev[i], observed, health) :: Kept(prev[i], now) in kept
  }

  lemma {:induction false} RetainPointwise(states: States, prev: seq<DomainState>, observed: set<DomainId>,
                                           health: map<string, ProviderStatus>, now: nat, k: nat)
    requires k <= |prev| && DistinctIds(prev)
    ensures var r := Retain(states, prev, observed, health, now, k);
            && KeepsDomains(prev, observed, health, now, k, r.kept)
            && r.states == states - RemovedIds(prev, observed, health, k)
  {
    hide NotFresh, DistinctIds, Kept, KeepsDomains, IdSet;
    if k == 0 {
      RetainNothing(states, prev, observed, health, now);
    } else {
      RetainPointwise(states, prev, observed, health, now, k - 1);
      var d, before := prev[k - 1], Retain(states, prev, observed, health, now, k - 1);
      FateIff(prev, observed, health, k - 1, d);
      DistinctPrefix(prev, k);
      KeepOne(prev, observed, health, now, k, before.kept);
      assert before.kept + [] == before.kept;
    }
  }

  lemma {:induction false} RetainNothing(states: States, prev: seq<DomainState>, observed: set<DomainId>,
                      health: map<string, ProviderStatus>, now: nat)
    ensures KeepsDomains(prev, observed, health, now, 0, [])
    ensures states == states - RemovedIds(prev, observed, health, 0)
  {
  }

  lemma {:induction false} KeepOne(prev: seq<DomainState>, observed: set<DomainId>,
                                   health: map<string, ProviderStatus>, now: nat,
                k: nat, kept: seq<DomainState>)
    requires 0 < k <= |prev| && KeepsDomains(prev, observed, health, now, k - 1, kept)
    requires prev[k - 1].id !in RetainedIds(prev, observed, health, k - 1)
    ensures KeepsDomains(prev, observed, health, now, k,
                         kept + if Retains(prev[k - 1], observed, health) then [Kept(prev[k - 1], now)] else [])
  {
    hide NotFresh;
    var kept' := kept + [Kept(prev[k - 1], now)];
    assert IdSet(kept') == IdSet(kept) + {prev[k - 1].id} by { IdSetPlus(kept, Kept(prev[k - 1], now)); }
    assert kept + [] == kept;
  }

  lemma {:induction false} IdSetPlus(ds: seq<DomainState>, d: DomainState)
    ensures IdSet(ds + [d]) == IdSet(ds) + {d.id}
  {
    assert forall x :: x in ds + [d] <==> x in ds || x == d;
    assert d in ds + [d];
  }

  // ---- events about single domains ----

  function Count(notes: seq<Note>, kind: EventType, id: DomainId): nat {
    if notes == [] then 0
    else
      var n := notes[|notes| - 1];
      Count(notes[..|notes| - 1], kind, id) + if n.kind == kind && n.domain == Some(id) then 1 else 0
  }

  lemma {:induction false} CountConcat(a: seq<Note>, b: seq<Note>, kind: EventType, id: DomainId)
    ensures Count(a + b, kind, id) == Count(a, kind, id) + Count(b, kind, id)
    decreases |b|
  {
    if b == [] {
      assert a + b == a;
    } else {
      CountConcat(a, b[..|b| - 1], kind, id);
      assert (a + b)[..|a + b| - 1] == a + b[..|b| - 1];
    }
  }

  lemma {:induction false} CountZero(notes: seq<Note>, kind: EventType, id: DomainId)
    requires forall n | n in notes :: n.kind != kind || n.domain != Some(id)
    ensures Count(notes, kind, id) == 0
  {
    if notes == [] {
    } else {
      CountZero(notes[..|notes| - 1], kind, id);
    }
  }

  /** A retention emits one removal per removed domain, and no removal otherwise. */
  lemma {:induction false} RemovalCount(states: States, prev: seq<DomainState>, observed: set<DomainId>,
                                        health: map<string, ProviderStatus>, now: nat, k: nat, id: DomainId)
    requires k <= |prev| && DistinctIds(prev)
    ensures Count(Retain(states, prev, observed, health, now, k).notes, DomainRemoved, id) ==
              if id in RemovedIds(prev, observed, health, k) then 1 else 0
  {
    hide NotFresh, DistinctIds, Count, Kept;
    if k == 0 {
      CountZero([], DomainRemoved, id);
    } else {
      RemovalCount(states, prev, observed, health, now, k - 1, id);
      var d := prev[k - 1];
      DistinctPrefix(prev, k);
      FateIff(prev, observed, health, k - 1, d);
      var before := Retain(states, prev, observed, health, now, k - 1).notes;
      var n := Note(if Retains(d, observed, health) then ProviderStale else DomainRemoved, 0, Some(d.id), 0);
      CountConcat(before, [n], DomainRemoved, id);
      CountOne(n, DomainRemoved, id);
    }
  }

  lemma {:induction false} CountOne(n: Note, kind: EventType, id: DomainId)
    ensures Count([n], kind, id) == if n.kind == kind && n.domain == Some(id) then 1 else 0
  {
    assert [n][..0] == [];
  }

  // ---- the published domains ----

  lemma {:induction false} ObservedIsFeedIds(feed: seq<Seen>)
    ensures ObservedIds(feed) == FeedIds(feed, |feed|)
  {
    forall id ensures id in ObservedIds(feed) <==> id in FeedIds(feed, |feed|) {
      FeedIdsIff(feed, |feed|, id);
      if id in FeedIds(feed, |feed|) {
        var i :| 0 <= i < |feed| && feed[i].obs.id == id;
        assert feed[i] in feed;
      }
    }
  }

  /** Where a retained or removed id comes from. */
  lemma {:induction false} FateOf(prev: seq<DomainState>, observed: set<DomainId>, health: map<string, ProviderStatus>,
                                  k: nat, id: DomainId)
    requires k <= |prev|
    ensures id in RetainedIds(prev, observed, health, k) ==>
              exists d :: d in prev && d.id == id && Retains(d, observed, health)
    ensures id in RemovedIds(prev, observed, health, k) ==>
              exists d :: d in prev && d.id == id && Removes(d, observed, health)
  {
    hide Retains, Removes;
    if k == 0 {
    } else {
      FateOf(prev, observed, health, k - 1, id);
      assert prev[k - 1] in prev;
    }
  }

  /** A kept state is the previous one with its data marked stale. */
  lemma {:induction false} KeptFrom(prev: seq<DomainState>, observed: set<DomainId>,
                                    health: map<string, ProviderStatus>, now: nat,
                 kept: seq<DomainState>, x: DomainState)
    requires KeepsDomains(prev, observed, health, now, |prev|, kept) && x in kept
    ensures exists d :: d in prev && Retains(d, observed, health) && x == Kept(d, now)
  {
    hide Retains, DistinctIds;
    assert x.id in IdSet(kept);
    FateOf(prev, observed, health, |prev|, x.id);
    var d :| d in prev && d.id == x.id && Retains(d, observed, health);
    var i :| 0 <= i < |prev| && prev[i] == d;
    assert Kept(prev[i], now) in kept;
    FindInDistinct(kept, x);
    FindInDistinct(kept, Kept(d, now));
  }

  lemma {:induction false} DistinctConcat(a: seq<DomainState>, b: seq<DomainState>)
    requires DistinctIds(a) && DistinctIds(b) && IdSet(a) !! IdSet(b)
    ensures DistinctIds(a + b) && IdSet(a + b) == IdSet(a) + IdSet(b)
  {
    var ab := a + b;
    assert forall x :: x in ab <==> x in a || x in b;
    forall i, j | 0 <= i < j < |ab| ensures ab[i].id != ab[j].id {
      if i < |a| <= j {
        assert ab[i].id in IdSet(a) && ab[j].id in IdSet(b);
      }
    }
  }

  lemma {:induction false} FinishedSame(env: Env, ds: seq<DomainState>, host: HostTier)
    ensures var fs := FinishedAll(env, ds, host); DistinctIds(ds) ==> DistinctIds(fs)
    ensures IdSet(FinishedAll(env, ds, host)) == IdSet(ds)
  {
    var fs := FinishedAll(env, ds, host);
    forall id ensures id in IdSet(fs) <==> id in IdSet(ds) {
      if id in IdSet(fs) {
        var i :| 0 <= i < |fs| && fs[i].id == id;
        assert ds[i].id == id && ds[i] in ds;
      }
      if id in IdSet(ds) {
        var i :| 0 <= i < |ds| && ds[i].id == id;
        assert fs[i].id == id && fs[i] in fs;
      }
    }
  }

  lemma {:induction false} FeedDomains(env: Env, states: States, feed: seq<Seen>, ds: seq<DomainState>)
    requires DistinctFeed(feed) && ObservesDomains(env, states, feed, |feed|, ds)
    ensures DistinctIds(ds) && IdSet(ds) == FeedIds(feed, |feed|)
  {
    hide Published, StateFor;
    forall i | 0 <= i < |ds| ensures ds[i].id == feed[i].obs.id {
      PublishedFacts(env, StateFor(env, states, feed[i].obs.id), feed[i].provider, feed[i].obs);
    }
    forall id ensures id in IdSet(ds) <==> id in FeedIds(feed, |feed|) {
      FeedIdsIff(feed, |feed|, id);
      if id in FeedIds(feed, |feed|) {
        var i :| 0 <= i < |feed| && feed[i].obs.id == id;
        assert ds[i] in ds;
      }
    }
  }
}
