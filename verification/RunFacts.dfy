/** What holds over whole runs of the runtime: the generation stamp, the event stream and the history. */
module RunFacts {
  import opened Options
  import opened Policy
  import opened Domain
  import opened Events
  import opened Refresh
  import opened RefreshFacts
  import opened Lifecycle
  import opened EventSourcing
  import opened Generations
  import opened Aggregation
  import opened Score
  import opened Runs
  import opened Trend

  // ---- the generation ----

  lemma {:induction false} StampStep(rt: Runtime, lib: Library, op: Op)
    requires Inv(rt) && rt.generation == rt.snapshot.generation
    requires op.Refresh? ==> DistinctFeed(Poll(op.reports, |op.reports|).feed)
    ensures var after := Applied(rt, lib, op);
            && after.generation == after.snapshot.generation
            && after.generation == rt.generation + if Agree(rt.snapshot, after.snapshot) then 0 else 1
  {
    hide Agree, RefreshWith, DistinctFeed, Poll, WithPolicy;
    if op.Refresh? {
      GenerationStepIff(rt, EnvOf(rt, lib, op.now), op.reports);
    } else {
      assert Applied(rt, lib, op).snapshot == rt.snapshot && Applied(rt, lib, op).generation == rt.generation by {
        OnlyRefreshPublishes(rt, lib, op);
      }
      AgreeReflexive(rt.snapshot);
    }
  }

  lemma {:induction false} OnlyRefreshPublishes(rt: Runtime, lib: Library, op: Op)
    requires !op.Refresh?
    ensures var after := Applied(rt, lib, op);
            && after.snapshot == rt.snapshot && after.generation == rt.generation && after.history == rt.history
            && after.snapshotId == rt.snapshotId && after.eventId == rt.eventId
  {
    hide Reset, ValidatePolicy;
  }

  lemma {:induction false} PrefixDistinct(ops: seq<Op>, k: nat)
    requires NoDuplicates(ops) && k <= |ops|
    ensures NoDuplicates(ops[..k])
  {
    hide DistinctFeed, Poll;
  }

  lemma {:induction false} StampIsRuntimes(lib: Library, ops: seq<Op>)
    requires NoDuplicates(ops)
    ensures RunOf(lib, ops).generation == RunOf(lib, ops).snapshot.generation
  {
    hide Inv, Applied, NoDuplicates;
    if ops != [] {
      var n := |ops| - 1;
      PrefixDistinct(ops, n);
      StampIsRuntimes(lib, ops[..n]);
      ReachableInv(lib, ops[..n]);
      LastDistinct(ops);
      StampStep(RunOf(lib, ops[..n]), lib, ops[n]);
    } else {
      assert RunOf(lib, ops) == INITIAL;
    }
  }

  lemma {:induction false} LastDistinct(ops: seq<Op>)
    requires NoDuplicates(ops) && ops != []
    ensures var op := ops[|ops| - 1]; op.Refresh? ==> DistinctFeed(Poll(op.reports, |op.reports|).feed)
  {
  }

  /** The generation never decreases over a run, and two snapshots of a run with the same generation agree on
      the domains' ids, levels, hard capacities and reserve totals, the aggregate, the policy version and the
      providers' health. */
  lemma {:induction false} GenerationIsFaithful(lib: Library, ops: seq<Op>, k: nat)
    requires NoDuplicates(ops) && k <= |ops|
    ensures var a, b := RunOf(lib, ops[..k]).snapshot, RunOf(lib, ops).snapshot;
            a.generation <= b.generation && (a.generation == b.generation ==> Agree(a, b))
    decreases |ops|
  {
    hide Inv, Applied, NoDuplicates, Agree, DistinctIds;
    var n := |ops| - 1;
    if k == |ops| {
      assert ops[..k] == ops;
      ReachableDistinct(lib, ops);
      AgreeReflexive(RunOf(lib, ops).snapshot);
    } else {
      PrefixDistinct(ops, n);
      assert ops[..n][..k] == ops[..k];
      GenerationIsFaithful(lib, ops[..n], k);
      var a, b, c := RunOf(lib, ops[..k]).snapshot, RunOf(lib, ops[..n]).snapshot, RunOf(lib, ops).snapshot;
      ReachableInv(lib, ops[..n]);
      StampIsRuntimes(lib, ops[..n]);
      LastDistinct(ops);
      StampStep(RunOf(lib, ops[..n]), lib, ops[n]);
      if a.generation == c.generation { AgreeTransitive(a, b, c); }
    }
  }

  lemma {:induction false} ReachableDistinct(lib: Library, ops: seq<Op>)
    requires NoDuplicates(ops)
    ensures DistinctIds(RunOf(lib, ops).snapshot.domains)
  {
    ReachableInv(lib, ops);
  }

  /** Each operation raises the generation by one exactly when the published snapshot comes to disagree with
      the one before. */
  lemma {:induction false} GenerationStep(lib: Library, ops: seq<Op>)
    requires NoDuplicates(ops) && ops != []
    ensures var a, b := RunOf(lib, ops[..|ops| - 1]).snapshot, RunOf(lib, ops).snapshot;
            b.generation == a.generation + if Agree(a, b) then 0 else 1
  {
    hide Inv, Applied, NoDuplicates, Agree;
    var n := |ops| - 1;
    PrefixDistinct(ops, n);
    ReachableInv(lib, ops[..n]);
    StampIsRuntimes(lib, ops[..n]);
    LastDistinct(ops);
    StampStep(RunOf(lib, ops[..n]), lib, ops[n]);
  }

  // ---- the event stream ----

  function EventsOf(rt: Runtime, lib: Library, op: Op): seq<PressureEvent> {
    match op
    case Refresh(now, reports) => RefreshWith(rt, EnvOf(rt, lib, now), reports).events
    case _ => []
  }

  /** Everything dispatched in a run, in order. */
  function Stream(lib: Library, ops: seq<Op>): seq<PressureEvent> {
    if ops == [] then []
    else Stream(lib, ops[..|ops| - 1]) + EventsOf(RunOf(lib, ops[..|ops| - 1]), lib, ops[|ops| - 1])
  }

  /** The event counts of all published snapshots. */
  function TotalCount(lib: Library, ops: seq<Op>): nat {
    if ops == [] then 0
    else
      TotalCount(lib, ops[..|ops| - 1])
      + if ops[|ops| - 1].Refresh? then RunOf(lib, ops).snapshot.eventCount else 0
  }

  lemma {:induction false} EventsOfStep(rt: Runtime, lib: Library, op: Op)
    ensures var after, es := Applied(rt, lib, op), EventsOf(rt, lib, op);
            && after.eventId == rt.eventId + |es|
            && (forall i | 0 <= i < |es| :: es[i].id == rt.eventId + i + 1)
            && (if op.Refresh? then after.snapshot.eventCount == |es| else |es| == 0)
  {
    hide RefreshWith, WithPolicy, WithBudget;
    if op.Refresh? {
      SnapshotOfRefresh(rt, EnvOf(rt, lib, op.now), op.reports);
    } else {
      OnlyRefreshPublishes(rt, lib, op);
    }
  }

  /** Event ids are gap-free over a run: the i-th event dispatched has id i. So the event counts of the
      published snapshots sum to the id of the last event. */
  lemma {:induction false} EventIdsAreGapFree(lib: Library, ops: seq<Op>)
    ensures forall i | 0 <= i < |Stream(lib, ops)| :: Stream(lib, ops)[i].id == i + 1
    ensures |Stream(lib, ops)| == RunOf(lib, ops).eventId == TotalCount(lib, ops)
  {
    hide Applied, EventsOf;
    if ops == [] {
      assert RunOf(lib, ops) == INITIAL;
    } else {
      EventIdsAreGapFree(lib, ops[..|ops| - 1]);
      EventsOfStep(RunOf(lib, ops[..|ops| - 1]), lib, ops[|ops| - 1]);
    }
  }

  /** What a subscriber that knows nothing at first comes to believe by following a run, if every event makes
      sense to it. */
  function Believed(lib: Library, ops: seq<Op>): Option<View> {
    if ops == [] then Some(map[])
    else
      var n := |ops| - 1;
      match Believed(lib, ops[..n])
      case None => None
      case Some(v) =>
        var before := RunOf(lib, ops[..n]);
        Replay(v, NotesIn(EventsOf(before, lib, ops[n])), Applied(before, lib, ops[n]).snapshot.domains)
  }

  /** Over any run, every event makes sense when it comes, and following the events gives exactly the domains
      of the current snapshot and their severity ranks. */
  lemma {:induction false} EventsTellTheState(lib: Library, ops: seq<Op>)
    requires NoDuplicates(ops)
    ensures Believed(lib, ops).Some? && Mirrors(Believed(lib, ops).value, RunOf(lib, ops).snapshot.domains)
  {
    hide Inv, Applied, NoDuplicates, Mirrors, Replay, EventsOf;
    if ops == [] {
      NothingMirrored();
    } else {
      var n := |ops| - 1;
      PrefixDistinct(ops, n);
      EventsTellTheState(lib, ops[..n]);
      ReachableInv(lib, ops[..n]);
      LastDistinct(ops);
      StepReplays(Believed(lib, ops[..n]).value, RunOf(lib, ops[..n]), lib, ops[n]);
    }
  }

  lemma {:induction false} NothingMirrored()
    ensures Mirrors(map[], INITIAL.snapshot.domains)
  {
  }

  lemma {:induction false} StepReplays(v: View, rt: Runtime, lib: Library, op: Op)
    requires Inv(rt) && Mirrors(v, rt.snapshot.domains)
    requires op.Refresh? ==> DistinctFeed(Poll(op.reports, |op.reports|).feed)
    ensures var r := Replay(v, NotesIn(EventsOf(rt, lib, op)), Applied(rt, lib, op).snapshot.domains);
            r.Some? && Mirrors(r.value, Applied(rt, lib, op).snapshot.domains)
  {
    hide RefreshWith, WithPolicy, WithBudget, DistinctFeed, Poll, Inv, Mirrors, Replay;
    if op.Refresh? {
      RefreshReplays(v, rt, EnvOf(rt, lib, op.now), op.reports);
      SnapshotOfRefresh(rt, EnvOf(rt, lib, op.now), op.reports);
    } else {
      OnlyRefreshPublishes(rt, lib, op);
      assert NotesIn(EventsOf(rt, lib, op)) == [];
      ReplaySilent(v, [], rt.snapshot.domains);
    }
  }

  // ---- episodes of pressure ----

  /** The language of a domain's level events: from outside pressure (Entered (Escalated | Relieved)* Recovered)*,
      possibly stopping inside an episode. The result tells whether the events end inside one. */
  function Episodes(notes: seq<Note>, id: DomainId, inside: bool): Option<bool> {
    if notes == [] then Some(inside)
    else
      var n := notes[|notes| - 1];
      match Episodes(notes[..|notes| - 1], id, inside)
      case None => None
      case Some(b) =>
        if n.domain != Some(id) || !TellsLevel(n.kind) then Some(b)
        else if n.kind.PressureEntered? then (if b then None else Some(true))
        else if n.kind.PressureRecovered? then (if b then Some(false) else None)
        else (if b then Some(b) else None)
  }

  ghost predicate Stays(notes: seq<Note>, id: DomainId) {
    forall i | 0 <= i < |notes| && notes[i].domain == Some(id) ::
      !notes[i].kind.DomainAdded? && !notes[i].kind.DomainRemoved?
  }

  lemma {:induction false} EpisodesConcat(a: seq<Note>, b: seq<Note>, id: DomainId, inside: bool)
    requires Episodes(a, id, inside).Some?
    ensures Episodes(a + b, id, inside) == Episodes(b, id, Episodes(a, id, inside).value)
    decreases |b|
  {
    if b == [] {
      assert a + b == a;
    } else {
      EpisodesConcat(a, b[..|b| - 1], id, inside);
      assert (a + b)[..|a + b| - 1] == a + b[..|b| - 1];
    }
  }

  lemma {:induction false} ReplayAlternates(v: View, notes: seq<Note>, ds: seq<DomainState>, id: DomainId)
    requires Replay(v, notes, ds).Some? && id in v && Stays(notes, id)
    ensures var after := Replay(v, notes, ds).value;
            id in after && Episodes(notes, id, v[id] > 0) == Some(after[id] > 0)
  {
    if notes == [] {
    } else {
      ReplayAlternates(v, notes[..|notes| - 1], ds, id);
    }
  }

  /** The events of a run after its first `k` operations. */
  function StreamSince(lib: Library, ops: seq<Op>, k: nat): seq<PressureEvent>
    requires k <= |ops|
    decreases |ops|
  {
    if k == |ops| then []
    else
      var n := |ops| - 1;
      StreamSince(lib, ops[..n], k) + EventsOf(RunOf(lib, ops[..n]), lib, ops[n])
  }

  /** While a domain stays, its level events over the run are whole episodes of pressure, one after the other:
      it enters pressure before anything else, escalates and is relieved only inside an episode, and enters
      again only after it recovered. It is inside one exactly when its published level is above Normal. */
  lemma {:induction false} EpisodesAlternate(lib: Library, ops: seq<Op>, k: nat, id: DomainId)
    requires NoDuplicates(ops) && k <= |ops| && Stays(NotesIn(StreamSince(lib, ops, k)), id)
    requires Believed(lib, ops[..k]).Some? && id in Believed(lib, ops[..k]).value
    ensures var first, last := Believed(lib, ops[..k]).value, Believed(lib, ops);
            && last.Some? && id in last.value
            && Episodes(NotesIn(StreamSince(lib, ops, k)), id, first[id] > 0) == Some(last.value[id] > 0)
    decreases |ops|
  {
    hide Inv, Applied, NoDuplicates, Mirrors, Replay, EventsOf, TellsLevel;
    if k == |ops| {
      assert ops[..k] == ops;
    } else {
      var n := |ops| - 1;
      assert ops[..n][..k] == ops[..k];
      PrefixDistinct(ops, n);
      var before, es := StreamSince(lib, ops[..n], k), EventsOf(RunOf(lib, ops[..n]), lib, ops[n]);
      NotesInConcat(before, es, id);
      EpisodesAlternate(lib, ops[..n], k, id);
      EventsTellTheState(lib, ops);
      var v := Believed(lib, ops[..n]).value;
      ReplayAlternates(v, NotesIn(es), Applied(RunOf(lib, ops[..n]), lib, ops[n]).snapshot.domains, id);
      EpisodesConcat(NotesIn(before), NotesIn(es), id, Believed(lib, ops[..k]).value[id] > 0);
    }
  }

  lemma {:induction false} NotesInConcat(a: seq<PressureEvent>, b: seq<PressureEvent>, id: DomainId)
    ensures NotesIn(a + b) == NotesIn(a) + NotesIn(b)
    ensures Stays(NotesIn(a + b), id) ==> Stays(NotesIn(a), id) && Stays(NotesIn(b), id)
  {
    assert NotesIn(a + b) == NotesIn(a) + NotesIn(b);
    if Stays(NotesIn(a + b), id) {
      forall i | 0 <= i < |b| && NotesIn(b)[i].domain == Some(id)
        ensures !NotesIn(b)[i].kind.DomainAdded? && !NotesIn(b)[i].kind.DomainRemoved? {
        assert NotesIn(a + b)[|a| + i] == NotesIn(b)[i];
      }
      forall i | 0 <= i < |a| && NotesIn(a)[i].domain == Some(id)
        ensures !NotesIn(a)[i].kind.DomainAdded? && !NotesIn(a)[i].kind.DomainRemoved? {
        assert NotesIn(a + b)[i] == NotesIn(a)[i];
      }
    }
  }

  // ---- safety and aggregation in every reachable snapshot ----

  /** In every reachable snapshot a domain's responses are those of its level, except that an accelerator is
      asked to demote only if a host tier exists and all of it is below Critical. */
  lemma {:induction false} ReachableCrossTierSafety(lib: Library, ops: seq<Op>, x: DomainState, a: ResponseAction)
    requires x in RunOf(lib, ops).snapshot.domains
    ensures a in x.responses <==>
              a in InitialActions(x.level)
              && (a == RequestDemotion && IsAccelerator(x.domainType) ==>
                    HostCanTakeMore(RunOf(lib, ops).snapshot.domains))
  {
    hide InitialActions, IsAccelerator, HostCanTakeMore, RefreshWith, WithPolicy, WithBudget;
    if ops == [] {
    } else {
      var before, op := RunOf(lib, ops[..|ops| - 1]), ops[|ops| - 1];
      if op.Refresh? {
        SnapshotOfRefresh(before, EnvOf(before, lib, op.now), op.reports);
        CrossTierSafety(before, EnvOf(before, lib, op.now), op.reports, x, a);
      } else {
        OnlyRefreshPublishes(before, lib, op);
        ReachableCrossTierSafety(lib, ops[..|ops| - 1], x, a);
      }
    }
  }

  /** So in every reachable snapshot an accelerator is asked to demote exactly when it is Critical or Exhausted
      and a host tier exists, all of it below Critical. */
  lemma {:induction false} ReachableDemotionIff(lib: Library, ops: seq<Op>, x: DomainState)
    requires x in RunOf(lib, ops).snapshot.domains && IsAccelerator(x.domainType)
    ensures RequestDemotion in x.responses <==>
              && (x.level == Critical || x.level == Exhausted)
              && HostCanTakeMore(RunOf(lib, ops).snapshot.domains)
  {
    hide RunOf, HostCanTakeMore;
    ReachableCrossTierSafety(lib, ops, x, RequestDemotion);
  }

  ghost predicate BudgetsOk(rt: Runtime) {
    && (forall id | id in rt.budgets :: BudgetOk(rt.budgets[id]))
    && forall d | d in rt.snapshot.domains :: BudgetOk(d.budget)
  }

  lemma {:induction false} PublishedBudgetOk(env: Env, st: DomainRt, provider: string, obs: DomainObservation)
    requires forall id | id in env.budgets :: BudgetOk(env.budgets[id])
    ensures BudgetOk(Published(env, st, provider, obs).budget)
  {
    hide ScoreOf, ResolvedMachine, NewTrend, EstimateOf, UtilizationFor, Usable;
  }

  lemma {:induction false} RefreshKeepsBudgetsOk(rt: Runtime, env: Env, reports: seq<Report>)
    requires DistinctIds(rt.snapshot.domains) && DistinctFeed(Poll(reports, |reports|).feed)
    requires BudgetsOk(rt) && env.budgets == rt.budgets
    ensures BudgetsOk(RefreshWith(rt, env, reports).rt)
  {
    hide DistinctIds, DistinctFeed, DraftOf, NotesOf, AggregateLevel, AggregateScore, NextGeneration, Trimmed,
         Numbered, Published, StateFor, Retains, BudgetOk;
    var d := DraftOf(rt, env, reports);
    forall x | x in d.domains ensures BudgetOk(x.budget) {
      DraftDomain(rt, env, reports, x);
      if i :| 0 <= i < |d.polled.feed| && x == Reported(env, rt.states, d.polled.feed[i], HostTierOf(d)) {
        var seen := d.polled.feed[i];
        PublishedBudgetOk(env, StateFor(env, rt.states, seen.obs.id), seen.provider, seen.obs);
      }
    }
  }

  /** Only valid budgets are ever attached or published. */
  lemma {:induction false} ReachableBudgetsOk(lib: Library, ops: seq<Op>)
    requires NoDuplicates(ops)
    ensures BudgetsOk(RunOf(lib, ops))
  {
    hide RefreshWith, WithPolicy, BudgetOk, DistinctIds, DistinctFeed, Poll;
    if ops == [] {
      assert RunOf(lib, ops) == INITIAL;
    } else {
      var before, op := RunOf(lib, ops[..|ops| - 1]), ops[|ops| - 1];
      ReachableBudgetsOk(lib, ops[..|ops| - 1]);
      if op.Refresh? {
        ReachableDistinct(lib, ops[..|ops| - 1]);
        RefreshKeepsBudgetsOk(before, EnvOf(before, lib, op.now), op.reports);
      } else {
        OnlyRefreshPublishes(before, lib, op);
        if op.SetPolicy? { PolicyKeepsBudgets(before, op.policy); }
      }
    }
  }

  lemma {:induction false} PolicyKeepsBudgets(rt: Runtime, p: PressurePolicy)
    ensures WithPolicy(rt, p).budgets == rt.budgets
  {
  }

  lemma {:induction false} ReachableAggregate(lib: Library, ops: seq<Op>)
    ensures RunOf(lib, ops).snapshot.aggregateLevel == AggregateLevel(RunOf(lib, ops).snapshot.domains)
  {
    hide RefreshWith, WithPolicy, WithBudget, AggregateLevel;
    if ops == [] {
      assert RunOf(lib, ops) == INITIAL;
      NothingAggregated();
    } else {
      var before, op := RunOf(lib, ops[..|ops| - 1]), ops[|ops| - 1];
      if op.Refresh? {
        SnapshotOfRefresh(before, EnvOf(before, lib, op.now), op.reports);
        AggregateOfRefresh(before, EnvOf(before, lib, op.now), op.reports);
      } else {
        OnlyRefreshPublishes(before, lib, op);
        ReachableAggregate(lib, ops[..|ops| - 1]);
      }
    }
  }

  lemma {:induction false} NothingAggregated()
    ensures AggregateLevel([]) == Unknown
  {
  }

  lemma {:induction false} AggregateOfRefresh(rt: Runtime, env: Env, reports: seq<Report>)
    ensures var s := RefreshWith(rt, env, reports).snapshot;
            s.aggregateLevel == AggregateLevel(s.domains) && s.aggregateScore == AggregateScore(env.policy, s.domains)
  {
    hide DraftOf, NotesOf, NextGeneration, Trimmed, AggregateLevel, AggregateScore, Numbered;
  }

  /** In every reachable snapshot the aggregate level is exactly the most severe level published, and Unknown
      when nothing is. */
  lemma {:induction false} ReachableAggregateIsMostSevere(lib: Library, ops: seq<Op>)
    requires NoDuplicates(ops)
    ensures var s := RunOf(lib, ops).snapshot;
            && (s.domains == [] <==> s.aggregateLevel == Unknown)
            && (forall d | d in s.domains :: SeverityRank(d.level) <= SeverityRank(s.aggregateLevel))
            && (s.domains != [] ==> exists d :: d in s.domains && d.level == s.aggregateLevel)
  {
    hide AggregateLevel, RunOf, NoDuplicates, DistinctIds, IdSet, ScoresWithin;
    ReachableInv(lib, ops);
    ReachableAggregate(lib, ops);
    AggregateIsMostSevere(RunOf(lib, ops).snapshot.domains);
  }

  /** A refresh after any run, under a policy whose role weights are non-negative with a positive sum over the
      published domains, gives an aggregate score between the least and the greatest published score. */
  lemma {:induction false} ReachableAggregateScore(lib: Library, ops: seq<Op>, now: nat, reports: seq<Report>)
    requires NoDuplicates(ops) && DistinctFeed(Poll(reports, |reports|).feed)
    requires var rt := RunOf(lib, ops);
             var ws := RoleWeights(rt.policy, RefreshWith(rt, EnvOf(rt, lib, now), reports).snapshot.domains);
             (forall i | 0 <= i < |ws| :: ws[i] >= 0.0) && Total(ws, |ws|) > 0.0
    ensures var rt := RunOf(lib, ops);
            var s := RefreshWith(rt, EnvOf(rt, lib, now), reports).snapshot;
            exists x, y :: x in s.domains && y in s.domains && x.score <= s.aggregateScore <= y.score
  {
    hide AggregateScore, RunOf, NoDuplicates, DistinctIds, IdSet, ScoresWithin, RefreshWith, RoleWeights, Total,
         DistinctFeed, Poll;
    var rt := RunOf(lib, ops);
    var env := EnvOf(rt, lib, now);
    ReachableInv(lib, ops);
    RefreshKeepsScores(rt, env, reports);
    AggregateOfRefresh(rt, env, reports);
    AggregateBetweenScores(rt.policy, RefreshWith(rt, env, reports).snapshot.domains);
  }

  // ---- the history ----

  /** Everything published in a run, in order. */
  function PublishedBy(lib: Library, ops: seq<Op>): seq<Snapshot> {
    if ops == [] then []
    else
      PublishedBy(lib, ops[..|ops| - 1]) + if ops[|ops| - 1].Refresh? then [RunOf(lib, ops).snapshot] else []
  }

  /** How many snapshots the history holds: one more after each refresh, up to the limit at that time. */
  function HistoryLength(lib: Library, ops: seq<Op>): nat {
    if ops == [] then 0
    else
      var n := |ops| - 1;
      var before := HistoryLength(lib, ops[..n]);
      if ops[n].Refresh? then Least(before + 1, RunOf(lib, ops[..n]).historyLimit) else before
  }

  function Least(a: nat, b: nat): nat {
    if a <= b then a else b
  }

  lemma {:induction false} LastOfLast<T>(all: seq<T>, n: nat, x: T, limit: nat)
    requires n <= |all|
    ensures LastN(LastN(all, n) + [x], limit) == LastN(all + [x], Least(n + 1, limit))
  {
  }

  lemma {:induction false} HistoryIsSuffix(lib: Library, ops: seq<Op>)
    ensures var all, rt := PublishedBy(lib, ops), RunOf(lib, ops);
            && HistoryLength(lib, ops) <= |all|
            && rt.history == LastN(all, HistoryLength(lib, ops))
            && rt.snapshotId == |all|
            && forall i | 0 <= i < |all| :: all[i].id == i + 1
  {
    hide RefreshWith, WithPolicy, WithBudget, LastN;
    if ops == [] {
      assert RunOf(lib, ops) == INITIAL && INITIAL.history == LastN([], 0) by { NoneLast(); }
    } else {
      var n := |ops| - 1;
      HistoryIsSuffix(lib, ops[..n]);
      var before := RunOf(lib, ops[..n]);
      if ops[n].Refresh? {
        SnapshotOfRefresh(before, EnvOf(before, lib, ops[n].now), ops[n].reports);
        LastOfLast(PublishedBy(lib, ops[..n]), HistoryLength(lib, ops[..n]), RunOf(lib, ops).snapshot,
                   before.historyLimit);
      } else {
        OnlyRefreshPublishes(before, lib, ops[n]);
        assert PublishedBy(lib, ops) == PublishedBy(lib, ops[..n]);
      }
    }
  }

  lemma {:induction false} NoneLast()
    ensures LastN<Snapshot>([], 0) == []
  {
  }

  function FindSnapshot(history: seq<Snapshot>, id: nat): Option<Snapshot> {
    if history == [] then None
    else if history[0].id == id then Some(history[0])
    else FindSnapshot(history[1..], id)
  }

  lemma {:induction false} FindById(history: seq<Snapshot>, first: nat, id: nat)
    requires forall i | 0 <= i < |history| :: history[i].id == first + i
    ensures FindSnapshot(history, id) ==
              if first <= id < first + |history| then Some(history[id - first]) else None
  {
    if history == [] || history[0].id == id {
    } else {
      FindById(history[1..], first + 1, id);
    }
  }

  /** Looking up a snapshot by id finds the one that the id-th refresh of the run published, if it is among
      the latest that the history holds, and nothing otherwise. */
  lemma {:induction false} SnapshotById(lib: Library, ops: seq<Op>, id: nat)
    ensures var all, n := PublishedBy(lib, ops), HistoryLength(lib, ops);
            FindSnapshot(RunOf(lib, ops).history, id) ==
              if |all| - n < id <= |all| && id > 0 then Some(all[id - 1]) else None
  {
    hide RunOf, PublishedBy, HistoryLength;
    HistoryIsSuffix(lib, ops);
    var all, n := PublishedBy(lib, ops), HistoryLength(lib, ops);
    FindById(RunOf(lib, ops).history, |all| - n + 1, id);
  }
}
