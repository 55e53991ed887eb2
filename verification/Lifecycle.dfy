/** The lifecycle invariant: published ids are distinct and are exactly those with a runtime state, and a
    refresh re-observes, retains or removes each domain it had. */
module Lifecycle {
  import opened Options
  import opened Policy
  import opened Hysteresis
  import opened HysteresisRuns
  import opened Domain
  import opened Events
  import opened Refresh
  import opened RefreshFacts

  /** Every domain that was published is exactly one of observed, retained and removed. */
  lemma {:induction false} Partition(prev: seq<DomainState>, observed: set<DomainId>,
                                     health: map<string, ProviderStatus>, id: DomainId)
    requires DistinctIds(prev)
    ensures var retained := RetainedIds(prev, observed, health, |prev|);
            var removed := RemovedIds(prev, observed, health, |prev|);
            && (id in IdSet(prev) <==> id in IdSet(prev) * observed || id in retained || id in removed)
            && !(id in observed && id in retained) && !(id in observed && id in removed)
            && !(id in retained && id in removed)
  {
    hide NotFresh, DistinctIds;
    FateOf(prev, observed, health, |prev|, id);
    if id in IdSet(prev) {
      var d :| d in prev && d.id == id;
      assert prev[..|prev|] == prev;
      FateIff(prev, observed, health, |prev|, d);
    }
  }

  lemma {:induction false} DraftIds(rt: Runtime, env: Env, reports: seq<Report>)
    requires DistinctIds(rt.snapshot.domains) && DistinctFeed(Poll(reports, |reports|).feed)
    ensures var d, prev := DraftOf(rt, env, reports), rt.snapshot.domains;
            var observed := ObservedIds(d.polled.feed);
            && DistinctIds(d.domains)
            && IdSet(d.domains) == observed + RetainedIds(prev, observed, d.polled.health, |prev|)
            && d.retention.states.Keys
               == rt.states.Keys + observed - RemovedIds(prev, observed, d.polled.health, |prev|)
  {
    hide DistinctIds, DistinctFeed, IdSet, Poll, Observe, Retain, FeedIds, FinishedAll, HostOf, RetainedIds,
         RemovedIds;
    var d, prev := DraftOf(rt, env, reports), rt.snapshot.domains;
    var feed, health, observed := d.polled.feed, d.polled.health, ObservedIds(d.polled.feed);
    ObservedIsFeedIds(feed);
    ObservePointwise(env, rt.states, feed, |feed|);
    FeedDomains(env, rt.states, feed, d.observed.domains);
    RetainPointwise(d.observed.states, prev, observed, health, env.now, |prev|);
    forall id ensures !(id in observed && id in RetainedIds(prev, observed, health, |prev|)) {
      Partition(prev, observed, health, id);
    }
    DistinctConcat(d.observed.domains, d.retention.kept);
    var all := d.observed.domains + d.retention.kept;
    FinishedSame(env, all, HostOf(all, |all|));
  }

  /** The state published for an entry of the feed. */
  function Reported(env: Env, states: States, x: Seen, host: HostTier): DomainState {
    Finished(env, Published(env, StateFor(env, states, x.obs.id), x.provider, x.obs), host)
  }

  function Retained(env: Env, p: DomainState, host: HostTier): DomainState {
    Finished(env, Kept(p, env.now), host)
  }

  function HostTierOf(d: Draft): HostTier {
    var all := d.observed.domains + d.retention.kept;
    HostOf(all, |all|)
  }

  lemma {:induction false} FinishedMember(env: Env, ds: seq<DomainState>, host: HostTier, x: DomainState)
    ensures x in ds ==> Finished(env, x, host) in FinishedAll(env, ds, host)
    ensures x in FinishedAll(env, ds, host) ==> exists y :: y in ds && x == Finished(env, y, host)
  {
    hide Finished;
    var fs := FinishedAll(env, ds, host);
    if x in ds {
      var i :| 0 <= i < |ds| && ds[i] == x;
      assert fs[i] in fs;
    }
    if x in fs {
      var i :| 0 <= i < |fs| && fs[i] == x;
      assert ds[i] in ds;
    }
  }

  /** Every published state is that of an observation or a retained one. */
  lemma {:induction false} DraftDomain(rt: Runtime, env: Env, reports: seq<Report>, x: DomainState)
    requires DistinctIds(rt.snapshot.domains) && DistinctFeed(Poll(reports, |reports|).feed)
    requires x in DraftOf(rt, env, reports).domains
    ensures var d := DraftOf(rt, env, reports);
            || (exists i :: 0 <= i < |d.polled.feed| && x == Reported(env, rt.states, d.polled.feed[i], HostTierOf(d)))
            || (exists p :: p in rt.snapshot.domains && Retains(p, ObservedIds(d.polled.feed), d.polled.health)
                            && x == Retained(env, p, HostTierOf(d)))
  {
    hide DistinctIds, DistinctFeed, Poll, Observe, Retain, FinishedAll, HostOf, Retains, Finished, Published, Kept,
         StateFor;
    var d, prev := DraftOf(rt, env, reports), rt.snapshot.domains;
    var feed, health, observed := d.polled.feed, d.polled.health, ObservedIds(d.polled.feed);
    ObservePointwise(env, rt.states, feed, |feed|);
    RetainPointwise(d.observed.states, prev, observed, health, env.now, |prev|);
    var all := d.observed.domains + d.retention.kept;
    FinishedMember(env, all, HostTierOf(d), x);
    var y :| y in all && x == Finished(env, y, HostTierOf(d));
    if y in d.observed.domains {
      var i :| 0 <= i < |feed| && y == d.observed.domains[i];
      assert x == Reported(env, rt.states, feed[i], HostTierOf(d));
    } else {
      KeptFrom(prev, observed, health, env.now, d.retention.kept, y);
      var p :| p in prev && Retains(p, observed, health) && y == Kept(p, env.now);
      assert x == Retained(env, p, HostTierOf(d));
    }
  }

  /** An observation advances the state from before the refresh, and the advanced state is published. */
  lemma {:induction false} ObservedFate(rt: Runtime, env: Env, reports: seq<Report>, i: nat)
    requires DistinctIds(rt.snapshot.domains) && DistinctFeed(Poll(reports, |reports|).feed)
    requires i < |Poll(reports, |reports|).feed|
    ensures var d := DraftOf(rt, env, reports);
            var x := d.polled.feed[i];
            && x.obs.id in d.retention.states
            && d.retention.states[x.obs.id] == Advanced(env, StateFor(env, rt.states, x.obs.id), x.obs)
            && FindIn(d.domains, x.obs.id) == Some(Reported(env, rt.states, x, HostTierOf(d)))
  {
    hide DistinctIds, DistinctFeed, Poll, Observe, Retain, FinishedAll, HostOf, Finished, Published, Advanced,
         StateFor, FindIn, Retains, Removes;
    var d, prev := DraftOf(rt, env, reports), rt.snapshot.domains;
    var feed, health, observed := d.polled.feed, d.polled.health, ObservedIds(d.polled.feed);
    var x := feed[i];
    ObservePointwise(env, rt.states, feed, |feed|);
    RetainPointwise(d.observed.states, prev, observed, health, env.now, |prev|);
    assert x in feed;
    Partition(prev, observed, health, x.obs.id);
    ReportedId(env, rt.states, x, HostTierOf(d));
    var all := d.observed.domains + d.retention.kept;
    assert d.observed.domains[i] in all;
    FinishedMember(env, all, HostTierOf(d), d.observed.domains[i]);
    DraftIds(rt, env, reports);
    FindInDistinct(d.domains, Reported(env, rt.states, x, HostTierOf(d)));
  }

  lemma {:induction false} ReportedId(env: Env, states: States, x: Seen, host: HostTier)
    ensures Reported(env, states, x, host).id == x.obs.id
    ensures Reported(env, states, x, host).level == Advanced(env, StateFor(env, states, x.obs.id), x.obs).machine.level
  {
    hide Published, Advanced, StateFor;
    PublishedFacts(env, StateFor(env, states, x.obs.id), x.provider, x.obs);
  }

  /** A domain that was not observed is retained with its state untouched if its provider is not fresh, and
      otherwise removed with its state. */
  lemma {:induction false} UnobservedFate(rt: Runtime, env: Env, reports: seq<Report>, p: DomainState)
    requires Inv(rt) && DistinctFeed(Poll(reports, |reports|).feed)
    requires p in rt.snapshot.domains && p.id !in ObservedIds(Poll(reports, |reports|).feed)
    ensures var d := DraftOf(rt, env, reports);
            if NotFresh(d.polled.health, p.provider) then
              && p.id in d.retention.states && d.retention.states[p.id] == rt.states[p.id]
              && FindIn(d.domains, p.id) == Some(Retained(env, p, HostTierOf(d)))
            else p.id !in d.retention.states && FindIn(d.domains, p.id) == None
  {
    hide DistinctIds, DistinctFeed, Poll, Observe, Retain, FinishedAll, HostOf, Finished, FindIn, NotFresh, Sound,
         ObservedIds, FeedIds;
    var d, prev := DraftOf(rt, env, reports), rt.snapshot.domains;
    var feed, health, observed := d.polled.feed, d.polled.health, ObservedIds(d.polled.feed);
    ObservePointwise(env, rt.states, feed, |feed|);
    ObservedIsFeedIds(feed);
    RetainPointwise(d.observed.states, prev, observed, health, env.now, |prev|);
    assert prev[..|prev|] == prev;
    FateIff(prev, observed, health, |prev|, p);
    assert p.id in IdSet(prev);
    DraftIds(rt, env, reports);
    if NotFresh(health, p.provider) {
      var j :| 0 <= j < |prev| && prev[j] == p;
      assert Retains(prev[j], observed, health);
      var all := d.observed.domains + d.retention.kept;
      assert Kept(p, env.now) in d.retention.kept;
      FinishedMember(env, all, HostTierOf(d), Kept(p, env.now));
      RetainedSame(env, p, HostTierOf(d));
      FindInDistinct(d.domains, Retained(env, p, HostTierOf(d)));
    } else {
      FindAbsent(d.domains, p.id);
    }
  }

  lemma {:induction false} RetainedSame(env: Env, p: DomainState, host: HostTier)
    ensures var r := Retained(env, p, host);
            r.id == p.id && r.level == p.level && r.provider == p.provider && r.domainType == p.domainType
            && r.score == p.score && r.budget == p.budget && r.validity == StaleData && r.confidence == LowConfidence
  {
  }

  lemma {:induction false} FindAbsent(ds: seq<DomainState>, id: DomainId)
    ensures FindIn(ds, id).None? <==> id !in IdSet(ds)
  {
    var f := FindIn(ds, id);
    if f.Some? { assert f.value in ds; }
  }

  // ---- the invariant ----

  /** The published level of each domain is its debounce machine's. Replacing the policy breaks this until
      the domain is observed again, for it resets the machines and leaves the snapshot alone. */
  ghost predicate Synced(rt: Runtime) {
    forall d | d in rt.snapshot.domains :: d.id in rt.states && rt.states[d.id].machine.level == d.level
  }

  /** A refresh under the runtime's own policy in which no domain is observed twice. */
  ghost predicate Proper(rt: Runtime, env: Env, reports: seq<Report>) {
    env.policy == rt.policy && DistinctFeed(Poll(reports, |reports|).feed)
  }

  lemma {:induction false} StateForSound(rt: Runtime, env: Env, id: DomainId)
    requires Inv(rt) && env.policy == rt.policy
    ensures var st := StateFor(env, rt.states, id); Sound(st.machine) && st.cfg == rt.policy.hysteresis
  {
  }

  lemma {:induction false} DraftLevels(rt: Runtime, env: Env, reports: seq<Report>, x: DomainState)
    requires Inv(rt) && Proper(rt, env, reports) && x in DraftOf(rt, env, reports).domains
    ensures IsKnown(x.level)
    ensures Synced(rt) ==>
              x.id in DraftOf(rt, env, reports).retention.states
              && DraftOf(rt, env, reports).retention.states[x.id].machine.level == x.level
  {
    hide DistinctIds, DistinctFeed, Reported, Retained, StateFor, Advanced, Sound, NotFresh, DraftOf, FindIn;
    DraftDomain(rt, env, reports, x);
    var d := DraftOf(rt, env, reports);
    var feed, host := d.polled.feed, HostTierOf(d);
    if i :| 0 <= i < |feed| && x == Reported(env, rt.states, feed[i], host) {
      ReportedId(env, rt.states, feed[i], host);
      DraftFeed(rt, env, reports);
      ObservedFate(rt, env, reports, i);
      var st := StateFor(env, rt.states, feed[i].obs.id);
      StateForSound(rt, env, feed[i].obs.id);
      PublishedFacts(env, st, feed[i].provider, feed[i].obs);
      SoundIsKnown(Advanced(env, st, feed[i].obs).machine);
    } else {
      var p :| p in rt.snapshot.domains && Retains(p, ObservedIds(feed), d.polled.health)
               && x == Retained(env, p, host);
      RetainedSame(env, p, host);
      DraftFeed(rt, env, reports);
      UnobservedFate(rt, env, reports, p);
    }
  }

  lemma {:induction false} DraftFeed(rt: Runtime, env: Env, reports: seq<Report>)
    ensures DraftOf(rt, env, reports).polled == Poll(reports, |reports|)
  {
  }

  lemma {:induction false} SoundIsKnown(m: Machine)
    requires Sound(m)
    ensures IsKnown(m.level)
  {
  }

  lemma {:induction false} DraftStates(rt: Runtime, env: Env, reports: seq<Report>, id: DomainId)
    requires Inv(rt) && Proper(rt, env, reports) && id in DraftOf(rt, env, reports).retention.states
    ensures var st := DraftOf(rt, env, reports).retention.states[id];
            Sound(st.machine) && st.cfg == rt.policy.hysteresis
  {
    hide DistinctIds, DistinctFeed, Reported, Retained, StateFor, Advanced, Sound, NotFresh, DraftOf, FindIn,
         RetainedIds, RemovedIds;
    var d, prev := DraftOf(rt, env, reports), rt.snapshot.domains;
    DraftFeed(rt, env, reports);
    var feed := d.polled.feed;
    if id in ObservedIds(feed) {
      var i :| 0 <= i < |feed| && feed[i].obs.id == id;
      ObservedFate(rt, env, reports, i);
      var st := StateFor(env, rt.states, id);
      StateForSound(rt, env, id);
      PublishedFacts(env, st, feed[i].provider, feed[i].obs);
    } else {
      DraftIds(rt, env, reports);
      assert id in IdSet(prev);
      var p :| p in prev && p.id == id;
      UnobservedFate(rt, env, reports, p);
    }
  }

  /** The invariant holds initially and is kept by every refresh; so is agreement of the published levels
      with the debounce machines. */
  lemma {:induction false} RefreshKeepsInv(rt: Runtime, env: Env, reports: seq<Report>)
    requires Inv(rt) && Proper(rt, env, reports)
    ensures Inv(RefreshWith(rt, env, reports).rt)
    ensures Synced(rt) ==> Synced(RefreshWith(rt, env, reports).rt)
  {
    hide DistinctIds, DistinctFeed, Sound, DraftOf, RetainedIds, RemovedIds, NotesOf, NextGeneration,
         AggregateLevel, AggregateScore, Trimmed, Numbered, IdSet;
    var d, prev, after := DraftOf(rt, env, reports), rt.snapshot.domains, RefreshWith(rt, env, reports).rt;
    DraftFeed(rt, env, reports);
    DraftIds(rt, env, reports);
    forall id ensures id in IdSet(d.domains) <==> id in d.retention.states {
      Partition(prev, ObservedIds(d.polled.feed), d.polled.health, id);
    }
    forall x | x in d.domains
      ensures IsKnown(x.level)
      ensures Synced(rt) ==> x.id in d.retention.states && d.retention.states[x.id].machine.level == x.level
    {
      DraftLevels(rt, env, reports, x);
    }
    forall id | id in d.retention.states
      ensures Sound(d.retention.states[id].machine) && d.retention.states[id].cfg == rt.policy.hysteresis
    {
      DraftStates(rt, env, reports, id);
    }
  }

  lemma {:induction false} InitialInv()
    ensures Inv(INITIAL) && Synced(INITIAL)
  {
  }
}
