/** Whole runs of the runtime: any interleaving of refreshes and configuration changes. */
module Runs {
  import opened Options
  import opened Policy
  import opened Hysteresis
  import opened HysteresisRuns
  import opened Domain
  import opened Events
  import opened Refresh
  import opened RefreshFacts
  import opened Lifecycle
  import opened EventSourcing
  import opened Generations
  import opened Aggregation
  import opened Trend

  /** The library code a refresh calls: the square root, and the wording of explanations. */
  datatype Library = Library(sqrt: real -> real, explain: DomainState -> string)

  datatype Op =
    | Refresh(now: nat, reports: seq<Report>)
    | SetPolicy(policy: PressurePolicy)
    | SetBudget(id: DomainId, budget: Budget)
    | ClearBudget(id: DomainId)
    | SetHistoryLimit(limit: nat)

  function EnvOf(rt: Runtime, lib: Library, now: nat): Env {
    Env(rt.policy, rt.budgets, now, lib.sqrt, lib.explain)
  }

  /** A domain's debounce machine starts over; nothing else of its state changes. */
  function Restarted(st: DomainRt, cfg: HysteresisConfig): DomainRt {
    st.(cfg := cfg, machine := FRESH)
  }

  function Reset(states: States, cfg: HysteresisConfig): States {
    map id | id in states :: Restarted(states[id], cfg)
  }

  function WithPolicy(rt: Runtime, p: PressurePolicy): Runtime {
    if ValidatePolicy(p).Some? then rt else rt.(policy := p, states := Reset(rt.states, p.hysteresis))
  }

  function WithBudget(rt: Runtime, id: DomainId, b: Budget): Runtime {
    if BudgetOk(b) then rt.(budgets := rt.budgets[id := b]) else rt
  }

  function Applied(rt: Runtime, lib: Library, op: Op): Runtime {
    match op
    case Refresh(now, reports) => RefreshWith(rt, EnvOf(rt, lib, now), reports).rt
    case SetPolicy(p) => WithPolicy(rt, p)
    case SetBudget(id, b) => WithBudget(rt, id, b)
    case ClearBudget(id) => rt.(budgets := rt.budgets - {id})
    case SetHistoryLimit(n) => rt.(historyLimit := n)
  }

  function RunOf(lib: Library, ops: seq<Op>): Runtime {
    if ops == [] then INITIAL else Applied(RunOf(lib, ops[..|ops| - 1]), lib, ops[|ops| - 1])
  }

  /** No refresh of the run observes a domain twice. */
  ghost predicate NoDuplicates(ops: seq<Op>) {
    forall i | 0 <= i < |ops| && ops[i].Refresh? :: DistinctFeed(Poll(ops[i].reports, |ops[i].reports|).feed)
  }

  // ---- the lifecycle invariant in every reachable state ----

  lemma {:induction false} PolicyKeepsInv(rt: Runtime, p: PressurePolicy)
    requires Inv(rt)
    ensures Inv(WithPolicy(rt, p))
  {
  }

  /** In every reachable state, published ids are distinct and are exactly those with a runtime state, levels
      are known, the debounce machines are sound and run under the current policy, and scores are in [0, 1]. */
  lemma {:induction false} ReachableInv(lib: Library, ops: seq<Op>)
    requires NoDuplicates(ops)
    ensures Inv(RunOf(lib, ops)) && ScoresWithin(RunOf(lib, ops).snapshot.domains, 0.0, 1.0)
  {
    hide Inv, ScoresWithin, RefreshWith, WithPolicy, DistinctFeed, Poll;
    if ops == [] {
      InitialOk();
    } else {
      var before, op := RunOf(lib, ops[..|ops| - 1]), ops[|ops| - 1];
      ReachableInv(lib, ops[..|ops| - 1]);
      StepKeepsInv(before, lib, op);
    }
  }

  lemma {:induction false} InitialOk()
    ensures Inv(INITIAL) && ScoresWithin(INITIAL.snapshot.domains, 0.0, 1.0)
  {
    InitialInv();
  }

  lemma {:induction false} StepKeepsInv(rt: Runtime, lib: Library, op: Op)
    requires Inv(rt) && ScoresWithin(rt.snapshot.domains, 0.0, 1.0)
    requires op.Refresh? ==> DistinctFeed(Poll(op.reports, |op.reports|).feed)
    ensures Inv(Applied(rt, lib, op)) && ScoresWithin(Applied(rt, lib, op).snapshot.domains, 0.0, 1.0)
  {
    hide ScoresWithin, DistinctFeed, Poll, DistinctIds, IdSet, Sound, RefreshWith, Reset;
    match op
    case Refresh(now, reports) =>
      RefreshKeepsInv(rt, EnvOf(rt, lib, now), reports);
      RefreshKeepsScores(rt, EnvOf(rt, lib, now), reports);
      SnapshotOfRefresh(rt, EnvOf(rt, lib, now), reports);
    case SetPolicy(p) => PolicyKeepsInv(rt, p);
    case _ =>
  }

  lemma {:induction false} SnapshotOfRefresh(rt: Runtime, env: Env, reports: seq<Report>)
    ensures var after := RefreshWith(rt, env, reports);
            && after.rt.snapshot == after.snapshot
            && after.rt.snapshotId == rt.snapshotId + 1 && after.snapshot.id == rt.snapshotId + 1
            && after.rt.history == Trimmed(rt.history + [after.snapshot], rt.historyLimit)
            && after.rt.historyLimit == rt.historyLimit
            && after.rt.eventId == rt.eventId + |after.events| && after.snapshot.eventCount == |after.events|
            && forall i | 0 <= i < |after.events| :: after.events[i].id == rt.eventId + i + 1
  {
    hide DraftOf, NotesOf, NextGeneration, Trimmed, AggregateLevel, AggregateScore;
  }

  /** While the policy is not replaced, every published level is the level of the domain's debounce machine. */
  lemma {:induction false} ReachableSynced(lib: Library, ops: seq<Op>)
    requires NoDuplicates(ops) && forall i | 0 <= i < |ops| :: !ops[i].SetPolicy?
    ensures Synced(RunOf(lib, ops))
  {
    hide Synced, RefreshWith, DistinctFeed, Poll, Inv;
    if ops == [] {
      InitialInv();
    } else {
      var before, op := RunOf(lib, ops[..|ops| - 1]), ops[|ops| - 1];
      ReachableSynced(lib, ops[..|ops| - 1]);
      ReachableInv(lib, ops[..|ops| - 1]);
      if op.Refresh? {
        RefreshKeepsInv(before, EnvOf(before, lib, op.now), op.reports);
      } else {
        SyncedSame(before, Applied(before, lib, op));
      }
    }
  }

  lemma {:induction false} SyncedSame(a: Runtime, b: Runtime)
    requires Synced(a) && a.snapshot == b.snapshot && a.states == b.states
    ensures Synced(b)
  {
  }
}
