/** The generation is a faithful version stamp: an empty difference is an equivalence on snapshots. */
module Generations {
  import opened Options
  import opened Policy
  import opened Domain
  import opened Refresh
  import opened RefreshFacts
  import opened Lifecycle

  /** Two snapshots agree on everything that the generation stands for. */
  ghost predicate Agree(a: Snapshot, b: Snapshot) {
    && IdSet(a.domains) == IdSet(b.domains)
    && (forall x, y | x in a.domains && y in b.domains && x.id == y.id :: SameStanding(x, y))
    && a.aggregateLevel == b.aggregateLevel && a.aggregateScore == b.aggregateScore
    && a.policyVersion == b.policyVersion
    && a.providerHealth == b.providerHealth
  }

  predicate SameStanding(x: DomainState, y: DomainState) {
    && x.level == y.level
    && x.budget.hardCapacity == y.budget.hardCapacity
    && x.budget.ReserveBytes() == y.budget.ReserveBytes()
  }

  lemma {:induction false} MissingIff(ds: seq<DomainState>, other: seq<DomainState>, k: nat)
    requires k <= |ds|
    ensures Missing(ds, other, k) == [] <==> forall i | 0 <= i < k :: ds[i].id in IdSet(other)
  {
    if k == 0 {
    } else {
      MissingIff(ds, other, k - 1);
      FindAbsent(other, ds[k - 1].id);
    }
  }

  lemma {:induction false} WhichIff(ds: seq<DomainState>, p: DomainState -> bool, k: nat)
    requires k <= |ds|
    ensures Which(ds, p, k) == [] <==> forall i | 0 <= i < k :: !p(ds[i])
  {
    if k == 0 {
    } else {
      WhichIff(ds, p, k - 1);
    }
  }

  lemma {:induction false} SubsetIff(ds: seq<DomainState>, other: seq<DomainState>)
    ensures (forall i | 0 <= i < |ds| :: ds[i].id in IdSet(other)) <==> IdSet(ds) <= IdSet(other)
  {
    if forall i | 0 <= i < |ds| :: ds[i].id in IdSet(other) {
      forall id | id in IdSet(ds) ensures id in IdSet(other) {
        var i :| 0 <= i < |ds| && ds[i].id == id;
      }
    }
    if IdSet(ds) <= IdSet(other) {
      forall i | 0 <= i < |ds| ensures ds[i].id in IdSet(other) {
        assert ds[i] in ds;
      }
    }
  }

  predicate Differs(a: seq<DomainState>, d: DomainState) {
    LevelDiffers(a, d) || BudgetDiffers(a, d) || ReserveDiffers(a, d)
  }

  lemma {:induction false} DiffersIff(a: seq<DomainState>, y: DomainState)
    requires DistinctIds(a)
    ensures !Differs(a, y) <==> forall x | x in a && x.id == y.id :: SameStanding(x, y)
  {
    hide DistinctIds, Budget.ReserveBytes;
    forall x | x in a && x.id == y.id ensures FindIn(a, y.id) == Some(x) {
      FindInDistinct(a, x);
    }
  }

  /** The difference of two snapshots is empty exactly when they agree. */
  lemma {:induction false} AnyIff(a: Snapshot, b: Snapshot)
    requires DistinctIds(a.domains) && DistinctIds(b.domains)
    ensures Diff(a, b).Any() <==> !Agree(a, b)
  {
    hide DistinctIds, SameStanding, LevelDiffers, BudgetDiffers, ReserveDiffers, IdSet, Missing, Which;
    var as', bs := a.domains, b.domains;
    MissingIff(bs, as', |bs|);
    MissingIff(as', bs, |as'|);
    SubsetIff(as', bs);
    SubsetIff(bs, as');
    WhichIff(bs, d => LevelDiffers(as', d), |bs|);
    WhichIff(bs, d => BudgetDiffers(as', d), |bs|);
    WhichIff(bs, d => ReserveDiffers(as', d), |bs|);
    forall y | y in bs ensures !Differs(as', y) <==> forall x | x in as' && x.id == y.id :: SameStanding(x, y) {
      DiffersIff(as', y);
    }
    if forall i | 0 <= i < |bs| :: !Differs(as', bs[i]) {
      forall x, y | x in as' && y in bs && x.id == y.id ensures SameStanding(x, y) {
        assert !Differs(as', y);
      }
    } else {
      var i :| 0 <= i < |bs| && Differs(as', bs[i]);
      assert bs[i] in bs;
    }
  }

  lemma {:induction false} AgreeReflexive(a: Snapshot)
    requires DistinctIds(a.domains)
    ensures Agree(a, a)
  {
    hide SameStanding, DistinctIds;
    forall x, y | x in a.domains && y in a.domains && x.id == y.id ensures SameStanding(x, y) {
      FindInDistinct(a.domains, x);
      FindInDistinct(a.domains, y);
      Same(x);
    }
  }

  lemma {:induction false} Same(x: DomainState)
    ensures SameStanding(x, x)
  {
  }

  lemma {:induction false} AgreeTransitive(a: Snapshot, b: Snapshot, c: Snapshot)
    requires Agree(a, b) && Agree(b, c)
    ensures Agree(a, c)
  {
    hide SameStanding;
    forall x, z | x in a.domains && z in c.domains && x.id == z.id ensures SameStanding(x, z) {
      assert x.id in IdSet(a.domains);
      var y :| y in b.domains && y.id == x.id;
      assert SameStanding(x, y) && SameStanding(y, z);
      StandingTransitive(x, y, z);
    }
  }

  lemma {:induction false} StandingTransitive(x: DomainState, y: DomainState, z: DomainState)
    requires SameStanding(x, y) && SameStanding(y, z)
    ensures SameStanding(x, z)
  {
  }

  lemma {:induction false} AgreeSymmetric(a: Snapshot, b: Snapshot)
    requires Agree(a, b)
    ensures Agree(b, a)
  {
  }

  lemma {:induction false} AgreeIgnoresStamp(a: Snapshot, b: Snapshot, generation: nat, count: nat)
    ensures Agree(a, b.(generation := generation, eventCount := count)) <==> Agree(a, b)
  {
    hide SameStanding, IdSet;
  }

  /** A refresh raises the generation by one exactly when its snapshot disagrees with the one before, and
      otherwise leaves it. */
  lemma {:induction false} GenerationStepIff(rt: Runtime, env: Env, reports: seq<Report>)
    requires Inv(rt) && Proper(rt, env, reports)
    ensures var after := RefreshWith(rt, env, reports);
            && after.rt.snapshot == after.snapshot && after.rt.generation == after.snapshot.generation
            && after.snapshot.generation == rt.generation + if Agree(rt.snapshot, after.snapshot) then 0 else 1
  {
    hide DistinctIds, DraftOf, NotesOf, AggregateLevel, AggregateScore, Trimmed, Proper, Agree, Diff,
         SnapshotDiff.Any;
    var d, after := DraftOf(rt, env, reports), RefreshWith(rt, env, reports);
    var u := Unstamped(rt, env, d);
    RefreshKeepsInv(rt, env, reports);
    assert DistinctIds(u.domains);
    AnyIff(rt.snapshot, u);
    AgreeIgnoresStamp(rt.snapshot, u, after.snapshot.generation, after.snapshot.eventCount);
  }

  // ---- what the difference lists ----

  lemma {:induction false} MissingMembers(ds: seq<DomainState>, other: seq<DomainState>, k: nat, id: DomainId)
    requires k <= |ds|
    ensures id in Missing(ds, other, k) <==> (exists i :: 0 <= i < k && ds[i].id == id) && id !in IdSet(other)
  {
    hide IdSet;
    if k == 0 {
    } else {
      MissingMembers(ds, other, k - 1, id);
      FindAbsent(other, ds[k - 1].id);
      assert ds[k - 1].id == id ==> exists i :: 0 <= i < k && ds[i].id == id;
    }
  }

  lemma {:induction false} WhichMembers(ds: seq<DomainState>, p: DomainState -> bool, k: nat, id: DomainId)
    requires k <= |ds|
    ensures id in Which(ds, p, k) <==> exists i :: 0 <= i < k && ds[i].id == id && p(ds[i])
  {
    if k == 0 {
    } else {
      WhichMembers(ds, p, k - 1, id);
      assert ds[k - 1].id == id && p(ds[k - 1]) ==> exists i :: 0 <= i < k && ds[i].id == id && p(ds[i]);
    }
  }

  lemma {:induction false} InIdSetIff(ds: seq<DomainState>, id: DomainId)
    ensures id in IdSet(ds) <==> exists i :: 0 <= i < |ds| && ds[i].id == id
  {
    if id in IdSet(ds) {
      var d :| d in ds && d.id == id;
    }
    if i :| 0 <= i < |ds| && ds[i].id == id {
      assert ds[i] in ds;
    }
  }

  /** The added and removed domains are the differences of the id sets, and a domain of both snapshots is
      listed as changed exactly when its level differs. */
  lemma {:induction false} DiffMembers(a: Snapshot, b: Snapshot, id: DomainId)
    requires DistinctIds(a.domains) && DistinctIds(b.domains)
    ensures var d := Diff(a, b);
            && (id in d.addedDomains <==> id in IdSet(b.domains) && id !in IdSet(a.domains))
            && (id in d.removedDomains <==> id in IdSet(a.domains) && id !in IdSet(b.domains))
            && (id in d.levelChanged <==>
                  exists x, y :: x in a.domains && y in b.domains && x.id == id && y.id == id && x.level != y.level)
  {
    hide IdSet, Missing, Which, DistinctIds, FindIn;
    var as', bs := a.domains, b.domains;
    MissingMembers(bs, as', |bs|, id);
    MissingMembers(as', bs, |as'|, id);
    InIdSetIff(as', id);
    InIdSetIff(bs, id);
    WhichMembers(bs, d => LevelDiffers(as', d), |bs|, id);
    if i :| 0 <= i < |bs| && bs[i].id == id && LevelDiffers(as', bs[i]) {
      assert bs[i] in bs;
    }
    if x, y :| x in as' && y in bs && x.id == id && y.id == id && x.level != y.level {
      FindInDistinct(as', x);
      var i :| 0 <= i < |bs| && bs[i] == y;
      assert LevelDiffers(as', bs[i]);
    }
  }
}
