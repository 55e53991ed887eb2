/** Safety across tiers, and the aggregate as a maximum and as a mean, in every published snapshot. */
module Aggregation {
  import opened Options
  import opened Policy
  import opened Domain
  import opened Refresh
  import opened RefreshFacts
  import opened Lifecycle
  import opened Score

  // ---- cross-tier safety ----

  ghost predicate HostPresent(ds: seq<DomainState>) {
    exists h :: h in ds && IsHostlike(h.domainType)
  }

  /** A host tier exists and every part of it is below Critical. */
  ghost predicate HostCanTakeMore(ds: seq<DomainState>) {
    HostPresent(ds) && forall h | h in ds && IsHostlike(h.domainType) :: SeverityRank(h.level) < SeverityRank(Critical)
  }

  predicate HostBelow(ds: seq<DomainState>, k: nat, rank: nat)
    requires k <= |ds|
  {
    forall i | 0 <= i < k && IsHostlike(ds[i].domainType) :: Rank0(ds[i].level) < rank
  }

  lemma {:induction false} HostOfIff(ds: seq<DomainState>, k: nat, rank: nat)
    requires k <= |ds| && rank > 0
    ensures HostOf(ds, k).present <==> exists i :: 0 <= i < k && IsHostlike(ds[i].domainType)
    ensures HostOf(ds, k).severity < rank <==> HostBelow(ds, k, rank)
  {
    hide IsHostlike, Rank0;
    if k == 0 {
    } else {
      HostOfIff(ds, k - 1, rank);
      assert IsHostlike(ds[k - 1].domainType) ==> exists i :: 0 <= i < k && IsHostlike(ds[i].domainType);
    }
  }

  lemma {:induction false} HostTierIff(ds: seq<DomainState>)
    ensures var h := HostOf(ds, |ds|);
            h.present && h.severity < SeverityRank(Critical) <==> HostCanTakeMore(ds)
  {
    hide IsHostlike;
    HostOfIff(ds, |ds|, 3);
    if HostOf(ds, |ds|).present {
      var i :| 0 <= i < |ds| && IsHostlike(ds[i].domainType);
      assert ds[i] in ds;
    }
    if HostCanTakeMore(ds) {
      var h :| h in ds && IsHostlike(h.domainType);
      var i :| 0 <= i < |ds| && ds[i] == h;
      forall j | 0 <= j < |ds| && IsHostlike(ds[j].domainType) ensures Rank0(ds[j].level) < 3 {
        assert ds[j] in ds;
      }
    }
  }

  lemma {:induction false} WithoutIff(actions: seq<ResponseAction>, a: ResponseAction, b: ResponseAction)
    ensures b in Without(actions, a) <==> b in actions && b != a
  {
    if actions == [] {
    } else {
      WithoutIff(actions[1..], a, b);
    }
  }

  lemma {:induction false} ResponsesIff(d: DomainState, host: HostTier, a: ResponseAction)
    ensures a in Responses(d, host) <==>
              a in InitialActions(d.level)
              && (a == RequestDemotion && IsAccelerator(d.domainType) ==>
                    host.present && host.severity < SeverityRank(Critical))
  {
    hide Without, IsAccelerator;
    WithoutIff(InitialActions(d.level), RequestDemotion, a);
  }

  ghost predicate SameTiers(a: seq<DomainState>, b: seq<DomainState>) {
    |a| == |b| && forall i | 0 <= i < |a| :: a[i].domainType == b[i].domainType && a[i].level == b[i].level
  }

  lemma {:induction false} SameTiersSameHost(a: seq<DomainState>, b: seq<DomainState>)
    requires SameTiers(a, b) && HostCanTakeMore(a)
    ensures HostCanTakeMore(b)
  {
    hide IsHostlike, SeverityRank;
    var h :| h in a && IsHostlike(h.domainType);
    var i :| 0 <= i < |a| && a[i] == h;
    assert b[i] in b;
    forall h | h in b && IsHostlike(h.domainType) ensures SeverityRank(h.level) < SeverityRank(Critical) {
      var j :| 0 <= j < |b| && b[j] == h;
      assert a[j] in a;
    }
  }

  lemma {:induction false} FinishedTier(env: Env, d: DomainState, host: HostTier)
    ensures Finished(env, d, host).domainType == d.domainType && Finished(env, d, host).level == d.level
  {
  }

  /** Finishing the domains keeps what the host tier is judged by. */
  lemma {:induction false} HostUnchanged(env: Env, ds: seq<DomainState>, host: HostTier)
    ensures HostCanTakeMore(FinishedAll(env, ds, host)) <==> HostCanTakeMore(ds)
  {
    hide HostCanTakeMore, Finished;
    var fs := FinishedAll(env, ds, host);
    forall i | 0 <= i < |ds| ensures fs[i].domainType == ds[i].domainType && fs[i].level == ds[i].level {
      FinishedTier(env, ds[i], host);
    }
    if HostCanTakeMore(ds) { SameTiersSameHost(ds, fs); }
    if HostCanTakeMore(fs) { SameTiersSameHost(fs, ds); }
  }

  /** In every published snapshot, retained domains included, a domain's responses are those of its level,
      except that an accelerator is asked to demote only if a host tier exists and all of it is below
      Critical. */
  lemma {:induction false} CrossTierSafety(rt: Runtime, env: Env, reports: seq<Report>, x: DomainState,
                                           a: ResponseAction)
    requires x in RefreshWith(rt, env, reports).snapshot.domains
    ensures a in x.responses <==>
              a in InitialActions(x.level)
              && (a == RequestDemotion && IsAccelerator(x.domainType) ==>
                    HostCanTakeMore(RefreshWith(rt, env, reports).snapshot.domains))
  {
    hide Observe, Retain, Poll, HostOf, Responses, IsAccelerator, InitialActions, HostCanTakeMore, AggregateLevel,
         AggregateScore, NotesOf, NextGeneration, Trimmed, Numbered;
    var d := DraftOf(rt, env, reports);
    var all := d.observed.domains + d.retention.kept;
    var host := HostTierOf(d);
    FinishedMember(env, all, host, x);
    var y :| y in all && x == Finished(env, y, host);
    HostTierIff(all);
    HostUnchanged(env, all, host);
    ResponsesIff(y, host, a);
  }

  // ---- the aggregate level ----

  lemma {:induction false} MaxRankIsMax(ds: seq<DomainState>, k: nat)
    requires k <= |ds|
    ensures forall i | 0 <= i < k :: Rank0(ds[i].level) <= MaxRank(ds, k)
    ensures k > 0 ==> exists i :: 0 <= i < k && Rank0(ds[i].level) == MaxRank(ds, k)
  {
    hide Rank0;
    if k == 0 {
    } else {
      MaxRankIsMax(ds, k - 1);
      assert 0 <= k - 1 < k;
      if MaxRank(ds, k) == MaxRank(ds, k - 1) && k > 1 {
        var i :| 0 <= i < k - 1 && Rank0(ds[i].level) == MaxRank(ds, k - 1);
        assert 0 <= i < k;
      }
    }
  }

  /** The aggregate level is Unknown when nothing is published, and otherwise the most severe level. */
  lemma {:induction false} AggregateIsMostSevere(ds: seq<DomainState>)
    requires forall d | d in ds :: IsKnown(d.level)
    ensures ds == [] <==> AggregateLevel(ds) == Unknown
    ensures forall d | d in ds :: SeverityRank(d.level) <= SeverityRank(AggregateLevel(ds))
    ensures ds != [] ==> exists d :: d in ds && d.level == AggregateLevel(ds)
  {
    MaxRankIsMax(ds, |ds|);
    if ds != [] {
      var i :| 0 <= i < |ds| && Rank0(ds[i].level) == MaxRank(ds, |ds|);
      assert ds[i] in ds;
      KnownByRank(ds[i].level, AggregateLevel(ds));
    }
    forall d | d in ds ensures SeverityRank(d.level) <= SeverityRank(AggregateLevel(ds)) {
      var i :| 0 <= i < |ds| && ds[i] == d;
      assert Rank0(ds[i].level) <= MaxRank(ds, |ds|);
    }
  }

  lemma {:induction false} KnownByRank(a: PressureLevel, b: PressureLevel)
    requires SeverityRank(a) == SeverityRank(b)
    ensures a == b
  {
  }

  // ---- the aggregate score ----

  ghost predicate ScoresWithin(ds: seq<DomainState>, lo: real, hi: real) {
    forall d | d in ds :: lo <= d.score <= hi
  }

  lemma {:induction false} ExtremeScores(ds: seq<DomainState>, k: nat) returns (lo: nat, hi: nat)
    requires 0 < k <= |ds|
    ensures lo < k && hi < k && forall i | 0 <= i < k :: ds[lo].score <= ds[i].score <= ds[hi].score
  {
    if k == 1 {
      lo, hi := 0, 0;
    } else {
      lo, hi := ExtremeScores(ds, k - 1);
      if ds[k - 1].score < ds[lo].score { lo := k - 1; }
      if ds[k - 1].score > ds[hi].score { hi := k - 1; }
    }
  }

  /** With role weights that are non-negative and have a positive sum (which `validate_policy` does not
      check), the aggregate score lies between the least and the greatest score of a domain. */
  lemma {:induction false} AggregateBetweenScores(policy: PressurePolicy, ds: seq<DomainState>)
    requires ScoresWithin(ds, 0.0, 1.0)
    requires var ws := RoleWeights(policy, ds);
             (forall i | 0 <= i < |ws| :: ws[i] >= 0.0) && Total(ws, |ws|) > 0.0
    ensures exists x, y :: x in ds && y in ds && x.score <= AggregateScore(policy, ds) <= y.score
  {
    hide Total, Mean, RoleWeight, Dot;
    var ws, cs := RoleWeights(policy, ds), Scores(ds);
    SomeWeight(ws);
    var lo, hi := ExtremeScores(ds, |ds|);
    assert ds[lo] in ds && ds[hi] in ds;
    MeanWithin(ws, cs, ds[lo].score, ds[hi].score);
  }

  lemma {:induction false} SomeWeight(ws: seq<real>)
    requires Total(ws, |ws|) > 0.0
    ensures ws != []
  {
  }

  /** Scores stay between 0 and 1. */
  lemma {:induction false} RefreshKeepsScores(rt: Runtime, env: Env, reports: seq<Report>)
    requires DistinctIds(rt.snapshot.domains) && DistinctFeed(Poll(reports, |reports|).feed)
    requires ScoresWithin(rt.snapshot.domains, 0.0, 1.0)
    ensures ScoresWithin(RefreshWith(rt, env, reports).snapshot.domains, 0.0, 1.0)
  {
    hide DistinctIds, DistinctFeed, DraftOf, NotesOf, AggregateLevel, AggregateScore, NextGeneration, Trimmed,
         Numbered, Published, StateFor, Retains;
    var d := DraftOf(rt, env, reports);
    forall x | x in d.domains ensures 0.0 <= x.score <= 1.0 {
      DraftDomain(rt, env, reports, x);
      if i :| 0 <= i < |d.polled.feed| && x == Reported(env, rt.states, d.polled.feed[i], HostTierOf(d)) {
        var seen := d.polled.feed[i];
        PublishedFacts(env, StateFor(env, rt.states, seen.obs.id), seen.provider, seen.obs);
      }
    }
  }
}
