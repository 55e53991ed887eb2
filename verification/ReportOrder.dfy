/** Polling disjoint providers in another order gives the same health and the same observations. */
module ReportOrder {
  import opened Options
  import opened Policy
  import opened Domain
  import opened Refresh
  import opened RefreshFacts

  ghost predicate SameElements<T>(a: seq<T>, b: seq<T>) {
    (forall x | x in a :: x in b) && (forall x | x in b :: x in a)
  }

  // ---- the reports of one refresh ----

  function ObservationsOf(r: Report): seq<DomainObservation> {
    if r.outcome.Sampled? then r.outcome.observations else []
  }

  ghost predicate DistinctObservations(obs: seq<DomainObservation>) {
    forall i, j | 0 <= i < j < |obs| :: obs[i].id != obs[j].id
  }

  /** Providers have different names, and no domain is observed twice, within or across providers. */
  ghost predicate Disjoint(reports: seq<Report>) {
    && (forall i, j | 0 <= i < j < |reports| :: reports[i].name != reports[j].name)
    && (forall r | r in reports :: DistinctObservations(ObservationsOf(r)))
    && (forall r, s | r in reports && s in reports && r.name != s.name :: Apart(r, s))
  }

  ghost predicate Apart(r: Report, s: Report) {
    forall x, y | x in ObservationsOf(r) && y in ObservationsOf(s) :: x.id != y.id
  }

  /** A permutation of reports that are disjoint. */
  ghost predicate Permuted(a: seq<Report>, b: seq<Report>) {
    multiset(a) == multiset(b) && Disjoint(a)
  }

  lemma {:induction false} PermutedSame(a: seq<Report>, b: seq<Report>)
    requires Permuted(a, b)
    ensures SameElements(a, b) && Disjoint(b)
  {
    forall x | x in a ensures x in b { assert x in multiset(a); }
    forall x | x in b ensures x in a { assert x in multiset(b); }
    forall i, j | 0 <= i < j < |b| ensures b[i].name != b[j].name {
      if b[i].name == b[j].name {
        OneByName(a, b[i], b[j]);
        TwiceInMultiset(b, i, j);
        OnceInMultiset(a, b[i]);
      }
    }
  }

  lemma {:induction false} OneByName(a: seq<Report>, x: Report, y: Report)
    requires Disjoint(a) && x in a && y in a && x.name == y.name
    ensures x == y
  {
    var i :| 0 <= i < |a| && a[i] == x;
    var j :| 0 <= j < |a| && a[j] == y;
    assert !(i < j) && !(j < i);
  }

  lemma {:induction false} TwiceInMultiset(b: seq<Report>, i: nat, j: nat)
    requires i < j < |b| && b[i] == b[j]
    ensures multiset(b)[b[i]] >= 2
  {
    assert b == b[..j] + [b[j]] + b[j + 1..];
    assert b[..j][i] == b[i] && b[i] in multiset(b[..j]);
  }

  lemma {:induction false} OnceInMultiset(a: seq<Report>, x: Report)
    requires Disjoint(a) && x in a
    ensures multiset(a)[x] == 1
  {
    var i :| 0 <= i < |a| && a[i] == x;
    assert a == a[..i] + [x] + a[i + 1..];
    assert x !in a[..i] && x !in a[i + 1..];
    assert x !in multiset(a[..i]) && x !in multiset(a[i + 1..]);
  }

  // ---- polling ----

  lemma {:induction false} PolledStatus(reports: seq<Report>, k: nat, i: nat)
    requires i < k <= |reports| && forall j, l | 0 <= j < l < |reports| :: reports[j].name != reports[l].name
    ensures reports[i].name in Poll(reports, k).health
    ensures Poll(reports, k).health[reports[i].name] == StatusOf(reports[i].outcome)
  {
    hide StatusOf, MakesPartial, MakesStale, ReportNotes, ReportWarnings, Tagged;
    if i == k - 1 {
    } else {
      PolledStatus(reports, k - 1, i);
    }
  }

  lemma {:induction false} PolledName(reports: seq<Report>, k: nat, name: string)
    requires k <= |reports| && name in Poll(reports, k).health
    ensures exists i :: 0 <= i < k && reports[i].name == name
  {
    hide StatusOf, MakesPartial, MakesStale, ReportNotes, ReportWarnings, Tagged;
    if reports[k - 1].name == name {
    } else {
      PolledName(reports, k - 1, name);
    }
  }

  lemma {:induction false} PolledPartial(reports: seq<Report>, k: nat)
    requires k <= |reports|
    ensures Poll(reports, k).partialData <==> exists i :: 0 <= i < k && MakesPartial(reports[i].outcome)
  {
    hide StatusOf, MakesPartial, MakesStale, ReportNotes, ReportWarnings, Tagged;
    if k == 0 {
    } else {
      PolledPartial(reports, k - 1);
    }
  }

  lemma {:induction false} PolledStale(reports: seq<Report>, k: nat)
    requires k <= |reports|
    ensures Poll(reports, k).staleData <==> exists i :: 0 <= i < k && MakesStale(reports[i].outcome)
  {
    hide StatusOf, MakesPartial, MakesStale, ReportNotes, ReportWarnings, Tagged;
    if k == 0 {
    } else {
      PolledStale(reports, k - 1);
    }
  }

  lemma {:induction false} SameHealth(a: seq<Report>, b: seq<Report>)
    requires Disjoint(a) && Disjoint(b) && SameElements(a, b)
    ensures Poll(a, |a|).health == Poll(b, |b|).health
    ensures Poll(a, |a|).partialData == Poll(b, |b|).partialData
    ensures Poll(a, |a|).staleData == Poll(b, |b|).staleData
  {
    hide Poll, StatusOf, MakesPartial, MakesStale, Disjoint;
    HealthWithin(a, b);
    HealthWithin(b, a);
  }

  lemma {:induction false} HealthWithin(a: seq<Report>, b: seq<Report>)
    requires Disjoint(a) && Disjoint(b) && SameElements(a, b)
    ensures var p, q := Poll(a, |a|), Poll(b, |b|);
            && (forall n | n in p.health :: n in q.health && q.health[n] == p.health[n])
            && (p.partialData ==> q.partialData) && (p.staleData ==> q.staleData)
  {
    hide Poll, StatusOf, MakesPartial, MakesStale, DistinctObservations, Apart;
    var p, q := Poll(a, |a|), Poll(b, |b|);
    forall n | n in p.health ensures n in q.health && q.health[n] == p.health[n] {
      PolledName(a, |a|, n);
      var i :| 0 <= i < |a| && a[i].name == n;
      PolledStatus(a, |a|, i);
      assert a[i] in b;
      var j :| 0 <= j < |b| && b[j] == a[i];
      PolledStatus(b, |b|, j);
    }
    PolledPartial(a, |a|);
    PolledPartial(b, |b|);
    PolledStale(a, |a|);
    PolledStale(b, |b|);
    if p.partialData {
      var i :| 0 <= i < |a| && MakesPartial(a[i].outcome);
      assert a[i] in b;
    }
    if p.staleData {
      var i :| 0 <= i < |a| && MakesStale(a[i].outcome);
      assert a[i] in b;
    }
  }

  /** What is fed to the domains, by membership. */
  ghost predicate SeenIn(x: Seen, reports: seq<Report>) {
    exists r :: r in reports && r.name == x.provider && x.obs in ObservationsOf(r)
  }

  lemma {:induction false} FeedIff(reports: seq<Report>, k: nat, x: Seen)
    requires k <= |reports|
    ensures x in Poll(reports, k).feed <==> SeenIn(x, reports[..k])
  {
    hide ReportNotes, ReportWarnings, StatusOf, MakesPartial, MakesStale;
    if k == 0 {
    } else {
      FeedIff(reports, k - 1, x);
      var r := reports[k - 1];
      assert reports[..k] == reports[..k - 1] + [r];
      TaggedIff(r.name, ObservationsOf(r), x);
      SeenSplit(x, reports[..k - 1], r);
    }
  }

  lemma {:induction false} SeenSplit(x: Seen, rs: seq<Report>, r: Report)
    ensures SeenIn(x, rs + [r]) <==> SeenIn(x, rs) || (r.name == x.provider && x.obs in ObservationsOf(r))
  {
    hide ObservationsOf;
    if r.name == x.provider && x.obs in ObservationsOf(r) {
      assert r in rs + [r];
    }
    if SeenIn(x, rs) {
      var q :| q in rs && q.name == x.provider && x.obs in ObservationsOf(q);
      assert q in rs + [r];
    }
  }

  lemma {:induction false} TaggedIff(name: string, obs: seq<DomainObservation>, x: Seen)
    ensures x in Tagged(name, obs) <==> x.provider == name && x.obs in obs
  {
    if x.provider == name && x.obs in obs {
      var i :| 0 <= i < |obs| && obs[i] == x.obs;
      assert Tagged(name, obs)[i] == x;
    }
  }

  lemma {:induction false} FeedIsDistinct(reports: seq<Report>, k: nat)
    requires k <= |reports| && Disjoint(reports)
    ensures DistinctFeed(Poll(reports, k).feed)
  {
    hide Poll, Disjoint, ObservationsOf, DistinctFeed, DistinctObservations, SeenIn;
    if k == 0 {
      NothingFed(reports);
    } else {
      FeedIsDistinct(reports, k - 1);
      var before, r := Poll(reports, k - 1).feed, reports[k - 1];
      forall x | x in before ensures forall y | y in ObservationsOf(r) :: x.obs.id != y.id {
        FeedIff(reports, k - 1, x);
        EarlierApart(reports, k, x);
      }
      assert r in reports && DistinctObservations(ObservationsOf(r)) by { DisjointAt(reports, k - 1); }
      FeedPlus(before, r.name, ObservationsOf(r));
      assert Poll(reports, k).feed == before + Tagged(r.name, ObservationsOf(r)) by { FeedStep(reports, k); }
    }
  }

  lemma {:induction false} NothingFed(reports: seq<Report>)
    ensures DistinctFeed(Poll(reports, 0).feed)
  {
  }

  lemma {:induction false} FeedStep(reports: seq<Report>, k: nat)
    requires 0 < k <= |reports|
    ensures var r := reports[k - 1];
            Poll(reports, k).feed == Poll(reports, k - 1).feed + Tagged(r.name, ObservationsOf(r))
  {
    assert Tagged(reports[k - 1].name, []) == [];
  }

  lemma {:induction false} DisjointAt(reports: seq<Report>, i: nat)
    requires i < |reports| && Disjoint(reports)
    ensures DistinctObservations(ObservationsOf(reports[i]))
  {
    assert reports[i] in reports;
  }

  lemma {:induction false} EarlierApart(reports: seq<Report>, k: nat, x: Seen)
    requires 0 < k <= |reports| && Disjoint(reports) && SeenIn(x, reports[..k - 1])
    ensures forall y | y in ObservationsOf(reports[k - 1]) :: x.obs.id != y.id
  {
    hide ObservationsOf, DistinctObservations;
    var q :| q in reports[..k - 1] && q.name == x.provider && x.obs in ObservationsOf(q);
    var i :| 0 <= i < k - 1 && reports[i] == q;
    assert reports[i] in reports && reports[k - 1] in reports && Apart(q, reports[k - 1]);
  }

  lemma {:induction false} FeedPlus(before: seq<Seen>, name: string, obs: seq<DomainObservation>)
    requires DistinctFeed(before) && DistinctObservations(obs)
    requires forall x | x in before :: forall y | y in obs :: x.obs.id != y.id
    ensures DistinctFeed(before + Tagged(name, obs))
  {
    var feed := before + Tagged(name, obs);
    forall i, j | 0 <= i < j < |feed| ensures feed[i].obs.id != feed[j].obs.id {
      if i < |before| <= j {
        assert before[i] in before && obs[j - |before|] in obs;
      }
    }
  }

  lemma {:induction false} SameFeed(a: seq<Report>, b: seq<Report>)
    requires SameElements(a, b)
    ensures SameElements(Poll(a, |a|).feed, Poll(b, |b|).feed)
  {
    hide Poll;
    assert a[..|a|] == a && b[..|b|] == b;
    forall x: Seen ensures x in Poll(a, |a|).feed <==> x in Poll(b, |b|).feed {
      FeedIff(a, |a|, x);
      FeedIff(b, |b|, x);
    }
  }
}
