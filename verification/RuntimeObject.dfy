/** The runtime as the source writes it: an object whose fields a refresh updates phase by phase. */
module RuntimeObject {
  import opened Options
  import opened Policy
  import opened Classifier
  import opened Hysteresis
  import opened Trend
  import opened Domain
  import opened Events
  import opened Score
  import opened Refresh
  import opened RefreshFacts
  import opened Runs
  import opened RunFacts

  /** `diff_snapshots`. */
  method DiffSnapshots(a: Snapshot, b: Snapshot) returns (d: SnapshotDiff)
    ensures d == Diff(a, b)
  {
    hide LevelDiffers, BudgetDiffers, ReserveDiffers, FindIn;
    var removed, added, levels, budgets, reserves := [], [], [], [], [];
    for i := 0 to |a.domains|
      invariant removed == Missing(a.domains, b.domains, i)
    {
      var s := a.domains[i];
      if FindIn(b.domains, s.id).None? { removed := removed + [s.id]; }
    }
    for i := 0 to |b.domains|
      invariant added == Missing(b.domains, a.domains, i)
    {
      var s := b.domains[i];
      if FindIn(a.domains, s.id).None? { added := added + [s.id]; }
    }
    for i := 0 to |b.domains|
      invariant levels == Which(b.domains, d => LevelDiffers(a.domains, d), i)
      invariant budgets == Which(b.domains, d => BudgetDiffers(a.domains, d), i)
      invariant reserves == Which(b.domains, d => ReserveDiffers(a.domains, d), i)
    {
      var s := b.domains[i];
      if LevelDiffers(a.domains, s) { levels := levels + [s.id]; }
      if BudgetDiffers(a.domains, s) { budgets := budgets + [s.id]; }
      if ReserveDiffers(a.domains, s) { reserves := reserves + [s.id]; }
    }
    d := SnapshotDiff(added, removed, levels, budgets, reserves,
                      a.aggregateLevel != b.aggregateLevel || a.aggregateScore != b.aggregateScore,
                      a.policyVersion != b.policyVersion,
                      a.providerHealth != b.providerHealth);
  }

  /** The host tier: its presence and its greatest severity. */
  method HostSeverity(ds: seq<DomainState>) returns (h: HostTier)
    ensures h == HostOf(ds, |ds|)
  {
    var present, severity: nat := false, 0;
    for i := 0 to |ds|
      invariant HostTier(present, severity) == HostOf(ds, i)
    {
      if IsHostlike(ds[i].domainType) {
        present := true;
        severity := Max(severity, Rank0(ds[i].level));
      }
    }
    h := HostTier(present, severity);
  }

  method Respond(env: Env, ds: seq<DomainState>) returns (out: seq<DomainState>)
    ensures out == FinishedAll(env, ds, HostOf(ds, |ds|))
  {
    hide Without, InitialActions, HostOf, IsAccelerator;
    var host := HostSeverity(ds);
    out := ds;
    for i := 0 to |ds|
      invariant |out| == |ds|
      invariant forall j | 0 <= j < i :: out[j] == Finished(env, ds[j], host)
      invariant forall j | i <= j < |ds| :: out[j] == ds[j]
    {
      var d := ds[i];
      var responses := InitialActions(d.level);
      if IsAccelerator(d.domainType) && SeverityRank(d.level) >= SeverityRank(High) {
        if !host.present || host.severity >= SeverityRank(Critical) {
          responses := Without(responses, RequestDemotion);
        }
      }
      d := d.(responses := responses);
      d := d.(explanation := env.explain(d));
      out := out[i := d];
    }
  }

  method Aggregate(policy: PressurePolicy, ds: seq<DomainState>) returns (level: PressureLevel, score: real)
    ensures level == AggregateLevel(ds) && score == AggregateScore(policy, ds)
  {
    hide RoleWeight, Mean;
    var severity: nat, sum, weights := 0, 0.0, 0.0;
    ghost var ws := RoleWeights(policy, ds);
    for i := 0 to |ds|
      invariant severity == MaxRank(ds, i)
      invariant sum == Dot(ws, Scores(ds), i) && weights == Total(ws, i)
    {
      var d := ds[i];
      severity := Max(severity, Rank0(d.level));
      var w := RoleWeight(policy, d.domainType);
      sum := sum + d.score * w;
      weights := weights + w;
    }
    level :=
      if ds == [] then Unknown
      else if severity >= SeverityRank(Exhausted) then Exhausted
      else if severity >= SeverityRank(Critical) then Critical
      else if severity >= SeverityRank(High) then High
      else if severity >= SeverityRank(Elevated) then Elevated
      else Normal;
    score := Mean(sum, weights);
  }

  /** A domain's runtime state after an observation. */
  method Advance(env: Env, before: DomainRt, obs: DomainObservation) returns (st: DomainRt)
    ensures st == Advanced(env, before, obs)
  {
    hide EvaluateLevel, Next, Budget.UsableCapacity, Added, UtilizationFor, Rank0;
    st := before;
    if st.domainType == UnknownDomain { st := st.(domainType := obs.domainType); }
    if st.provider == "" { st := st.(provider := obs.provider); }
    if st.nativeResourceId == "" { st := st.(nativeResourceId := obs.nativeResourceId); }
    var governed := obs.id in env.budgets && env.budgets[obs.id].hardCapacity != 0;
    var bud := if governed then env.budgets[obs.id] else DEFAULT_BUDGET;
    st := st.(budget := bud, governed := governed);
    var usable := if governed then bud.UsableCapacity() else obs.usableCapacity.GetOr(obs.totalCapacity);
    var util := UtilizationFor(obs.committed, usable);
    st := st.(trend := Added(TREND_WINDOW, TREND_AGE_MS, st.trend, TrendSample(env.now, obs.committed)));
    var prev := st.machine.level;
    var raw := EvaluateLevel(util, prev, env.policy.thresholds);
    st := st.(machine := Next(st.cfg, st.machine, raw, env.now));
    var resolved := st.machine.level;
    if resolved != prev { st := st.(enteredLevelAtMs := env.now); }
    st := st.(peakRank := Max(st.peakRank, Rank0(resolved)));
  }

  method Rate(env: Env, obs: DomainObservation, usable: nat, te: TrendEstimate) returns (sc: PressureScore)
    ensures sc == ScoreOf(env, obs, usable, te)
  {
    hide Raw, Weighed, Clamp01;
    var available := if usable > obs.committed then usable - obs.committed else 0;
    var freeFraction := if usable > 0 then available as real / usable as real else 0.0;
    var deficit := 0.0;
    if usable > 0 && obs.committed > usable {
      deficit := Clamp01((obs.committed - usable) as real / Max(usable, 1) as real);
    }
    var growth := 0.0;
    if te.direction == Rising {
      growth := te.confidence;
    } else if te.direction == Falling {
      growth := 0.2 * te.confidence;
    }
    sc := ScoreDomain(UtilizationFor(obs.committed, usable), freeFraction, deficit, growth, obs.allocationFailures,
                      obs.confidence, obs.validity, env.policy.weights);
  }

  /** The state to publish, from the domain's runtime state before and after the observation. */
  method Publish(env: Env, before: DomainRt, st: DomainRt, x: Seen) returns (d: DomainState)
    requires st == Advanced(env, before, x.obs)
    ensures d == Published(env, before, x.provider, x.obs)
  {
    hide ScoreOf, EstimateOf, Budget.ReserveBytes, ResolvedMachine, NewTrend, UtilizationFor;
    var obs := x.obs;
    var usable := Usable(env, obs);
    var te := EstimateOf(st.trend, TREND_WINDOW, env.sqrt);
    var sc := Rate(env, obs, usable, te);
    d := DomainState(
      obs.id, obs.domainType, x.provider, obs.nativeResourceId, st.budget, st.governed,
      if st.governed then st.budget.hardCapacity else obs.totalCapacity, usable,
      if st.governed then st.budget.ReserveBytes() else obs.reserved.GetOr(0),
      obs.committed, obs.resident, if usable > obs.committed then usable - obs.committed else 0,
      obs.reclaimable.GetOr(0), UtilizationFor(obs.committed, usable),
      st.machine.level, before.machine.level, st.machine.pending != Unknown, st.machine.pendingObs,
      sc.value, sc.utilizationComponent, sc.freeDeficitComponent, sc.reserveDeficitComponent,
      sc.growthComponent, sc.allocationFailureComponent, sc.confidencePenalty + sc.stalePenalty,
      te.direction, te.rate, te.confidence, te.samples,
      obs.confidence, obs.provenance, obs.validity, env.now, [], "", st.enteredLevelAtMs, st.peakRank);
  }

  lemma {:induction false} NumberedPlus(base: nat, now: nat, notes: seq<Note>, n: Note)
    ensures Numbered(base, now, notes + [n])
            == Numbered(base, now, notes)
               + [PressureEvent(base + |notes| + 1, n.kind, n.generation, now, n.domain, n.severityRank)]
  {
  }

  class PressureRuntime {
    const lib: Library
    var policy: PressurePolicy
    var snapshot: Snapshot
    var budgets: map<DomainId, Budget>
    var states: States
    var history: seq<Snapshot>
    var historyLimit: nat
    var generation: nat
    var snapshotId: nat
    var eventId: nat
    var subscriptions: seq<Subscription>

    ghost function State(): Runtime
      reads this
    {
      Runtime(policy, snapshot, budgets, states, history, historyLimit, generation, snapshotId, eventId)
    }

    ghost predicate Valid()
      reads this, subscriptions
    {
      && (forall i | 0 <= i < |subscriptions| :: subscriptions[i].Valid())
      && (forall i, j | 0 <= i < j < |subscriptions| :: subscriptions[i] != subscriptions[j])
    }

    constructor (lib: Library)
      ensures Valid() && this.lib == lib && State() == INITIAL && subscriptions == []
    {
      this.lib := lib;
      policy, snapshot, budgets, states, history := DEFAULT_POLICY, EMPTY_SNAPSHOT, map[], map[], [];
      historyLimit, generation, snapshotId, eventId := 64, 0, 0, 0;
      subscriptions := [];
    }

    // ---- configuration ----

    method ReplacePolicy(p: PressurePolicy) returns (problem: Option<PolicyProblem>)
      requires Valid()
      modifies this`policy, this`states
      ensures Valid() && problem == ValidatePolicy(p)
      ensures State() == WithPolicy(old(State()), p)
    {
      hide ValidatePolicy, Restarted;
      problem := ValidatePolicy(p);
      if problem.Some? { return; }
      var todo := states.Keys;
      while todo != {}
        invariant todo <= states.Keys == old(states).Keys
        invariant forall id | id in states ::
          states[id] == if id in todo then old(states)[id] else Restarted(old(states)[id], p.hysteresis)
        decreases |todo|
      {
        var id :| id in todo;
        states := states[id := Restarted(states[id], p.hysteresis)];
        todo := todo - {id};
      }
      assert states == Reset(old(states), p.hysteresis);
      policy := p;
    }

    method AttachBudget(id: DomainId, b: Budget) returns (ok: bool)
      requires Valid()
      modifies this`budgets
      ensures Valid() && ok == BudgetOk(b)
      ensures State() == WithBudget(old(State()), id, b)
    {
      hide BudgetOk;
      if !BudgetOk(b) { return false; }
      budgets := budgets[id := b];
      return true;
    }

    method DetachBudget(id: DomainId)
      requires Valid()
      modifies this`budgets
      ensures Valid()
      ensures State() == old(State()).(budgets := old(budgets) - {id})
    {
      budgets := budgets - {id};
    }

    method LimitHistory(n: nat)
      requires Valid()
      modifies this`historyLimit
      ensures Valid()
      ensures State() == old(State()).(historyLimit := n)
    {
      historyLimit := n;
    }

    /** Subscriptions queue up to 256 events and drop the oldest. */
    method Subscribe(filter: Filter) returns (s: Subscription)
      requires Valid()
      modifies this`subscriptions
      ensures Valid() && fresh(s) && s.setup == Setup(filter, 256, DropOldest) && s.State() == EMPTY_QUEUE
      ensures subscriptions == old(subscriptions) + [s] && State() == old(State())
    {
      s := new Subscription(Setup(filter, 256, DropOldest));
      subscriptions := subscriptions + [s];
    }

    method FindById(id: nat) returns (s: Option<Snapshot>)
      ensures s == FindSnapshot(history, id)
    {
      var i := 0;
      while i < |history|
        invariant i <= |history| && FindSnapshot(history, id) == FindSnapshot(history[i..], id)
      {
        if history[i].id == id { return Some(history[i]); }
        assert history[i..][1..] == history[i + 1..];
        i := i + 1;
      }
      return None;
    }

    // ---- events ----

    /** The events pending since the event counter stood at `base` carry the notes. */
    ghost predicate Emitted(base: nat, now: nat, notes: seq<Note>, pending: seq<PressureEvent>)
      reads this`eventId
    {
      pending == Numbered(base, now, notes) && eventId == base + |notes|
    }

    method Emit(pending: seq<PressureEvent>, now: nat, n: Note, ghost base: nat, ghost notes: seq<Note>)
      returns (out: seq<PressureEvent>)
      requires Emitted(base, now, notes, pending)
      modifies this`eventId
      ensures Emitted(base, now, notes + [n], out)
    {
      NumberedPlus(base, now, notes, n);
      eventId := eventId + 1;
      out := pending + [PressureEvent(eventId, n.kind, n.generation, now, n.domain, n.severityRank)];
    }

    // ---- the phases of a refresh ----

    method PollProvider(now: nat, r: Report, p: Polled, pending: seq<PressureEvent>, ghost base: nat)
      returns (q: Polled, out: seq<PressureEvent>)
      requires Emitted(base, now, p.notes, pending)
      modifies this`eventId
      ensures q == PollOne(p, r) && Emitted(base, now, q.notes, out)
    {
      hide Tagged, Emitted;
      q, out := p, pending;
      assert p.notes + [] == p.notes && p.warnings + [] == p.warnings && p.feed + [] == p.feed;
      match r.outcome
      case Sampled(status, error, observations) =>
        if status == ProviderStatus.Failed {
          var n := Note(ProviderFailed, 0, None, 0);
          out := Emit(out, now, n, base, p.notes);
          q := q.(notes := q.notes + [n], warnings := q.warnings + [r.name + " failed: " + error], partialData := true);
        } else if status == ProviderStatus.Stale {
          var n := Note(ProviderStale, 0, None, 0);
          out := Emit(out, now, n, base, p.notes);
          q := q.(notes := q.notes + [n], warnings := q.warnings + [r.name + " stale"], staleData := true);
        } else if status == ProviderStatus.Unavailable {
          var n := Note(ProviderFailed, 0, None, 0);
          out := Emit(out, now, n, base, p.notes);
          q := q.(notes := q.notes + [n], partialData := true);
        } else if status == ProviderStatus.Partial {
          q := q.(partialData := true);
        }
        q := q.(health := q.health[r.name := status], feed := q.feed + Tagged(r.name, observations));
      case Threw(what) =>
        q := q.(health := q.health[r.name := ProviderStatus.Failed],
                warnings := q.warnings + [r.name + " threw: " + what], partialData := true);
    }

    method PollProviders(now: nat, reports: seq<Report>) returns (p: Polled, pending: seq<PressureEvent>)
      modifies this`eventId
      ensures p == Poll(reports, |reports|) && Emitted(old(eventId), now, p.notes, pending)
    {
      hide PollOne;
      p, pending := NOTHING_POLLED, [];
      NothingNumbered(eventId, now);
      for i := 0 to |reports|
        invariant p == Poll(reports, i) && Emitted(old(eventId), now, p.notes, pending)
      {
        hide Emitted;
        p, pending := PollProvider(now, reports[i], p, pending, old(eventId));
      }
    }

    /** One observation: its domain's runtime state advances, and the state to publish is built. */
    method ObserveDomain(now: nat, x: Seen) returns (d: DomainState)
      modifies this`states
      ensures var env := EnvOf(State(), lib, now);
              var st := StateFor(env, old(states), x.obs.id);
              states == old(states)[x.obs.id := Advanced(env, st, x.obs)] && d == Published(env, st, x.provider, x.obs)
    {
      hide Advanced, Published;
      var env := Env(policy, budgets, now, lib.sqrt, lib.explain);
      if x.obs.id !in states { states := states[x.obs.id := NewDomain(policy.hysteresis)]; }
      var st := states[x.obs.id];
      assert st == StateFor(env, old(states), x.obs.id);
      var after := Advance(env, st, x.obs);
      states := states[x.obs.id := after];
      d := Publish(env, st, after, x);
    }

    method ObserveAll(now: nat, feed: seq<Seen>) returns (domains: seq<DomainState>, observed: set<DomainId>)
      modifies this`states
      ensures Observation(states, domains) == Observe(EnvOf(old(State()), lib, now), old(states), feed, |feed|)
      ensures observed == ObservedIds(feed)
    {
      hide Published, Advanced, StateFor;
      domains, observed := [], {};
      for i := 0 to |feed|
        invariant Observation(states, domains) == Observe(EnvOf(old(State()), lib, now), old(states), feed, i)
        invariant observed == FeedIds(feed, i)
      {
        observed := observed + {feed[i].obs.id};
        var d := ObserveDomain(now, feed[i]);
        domains := domains + [d];
      }
      ObservedIsFeedIds(feed);
    }

    method RetainAll(now: nat, observed: set<DomainId>, health: map<string, ProviderStatus>,
                     pending: seq<PressureEvent>, ghost base: nat, ghost notes: seq<Note>)
      returns (kept: seq<DomainState>, out: seq<PressureEvent>, ghost more: seq<Note>)
      requires Emitted(base, now, notes, pending)
      modifies this`states, this`eventId
      ensures Retention(kept, states, more)
              == Retain(old(states), snapshot.domains, observed, health, now, |snapshot.domains|)
      ensures Emitted(base, now, notes + more, out)
    {
      hide Emitted, Kept;
      kept, out, more := [], pending, [];
      assert notes + [] == notes;
      for i := 0 to |snapshot.domains|
        invariant Retention(kept, states, more) == Retain(old(states), snapshot.domains, observed, health, now, i)
        invariant Emitted(base, now, notes + more, out)
      {
        var pd := snapshot.domains[i];
        if pd.id in observed { continue; }
        var status := if pd.provider in health then health[pd.provider] else Unavailable;
        var n := Note(if status == ProviderStatus.Failed || status == ProviderStatus.Stale || status == Unavailable
                      then ProviderStale else DomainRemoved, 0, Some(pd.id), 0);
        out := Emit(out, now, n, base, notes + more);
        assert notes + more + [n] == notes + (more + [n]);
        more := more + [n];
        if n.kind == ProviderStale {
          kept := kept + [Kept(pd, now)];
        } else {
          states := states - {pd.id};
        }
      }
    }

    method AnnounceAdded(now: nat, ds: seq<DomainState>, pending: seq<PressureEvent>, ghost base: nat,
                         ghost notes: seq<Note>)
      returns (out: seq<PressureEvent>)
      requires Emitted(base, now, notes, pending)
      modifies this`eventId
      ensures Emitted(base, now, notes + AddedNotes(snapshot.domains, ds, |ds|), out)
    {
      hide Emitted, FindIn;
      out := pending;
      assert notes + [] == notes;
      for i := 0 to |ds|
        invariant Emitted(base, now, notes + AddedNotes(snapshot.domains, ds, i), out)
      {
        ghost var more := AddedNotes(snapshot.domains, ds, i);
        if FindIn(snapshot.domains, ds[i].id).None? {
          var n := Note(DomainAdded, 0, Some(ds[i].id), 0);
          out := Emit(out, now, n, base, notes + more);
          assert notes + more + [n] == notes + (more + [n]);
        } else {
          assert more + [] == more;
        }
      }
    }

    method AnnounceLevels(now: nat, prev: seq<DomainState>, ds: seq<DomainState>, pending: seq<PressureEvent>,
                          ghost base: nat, ghost notes: seq<Note>)
      returns (out: seq<PressureEvent>)
      requires Emitted(base, now, notes, pending)
      modifies this`eventId
      ensures Emitted(base, now, notes + LevelNotes(prev, ds, generation, |ds|), out)
    {
      hide Emitted, FindIn;
      out := pending;
      assert notes + [] == notes;
      for i := 0 to |ds|
        invariant Emitted(base, now, notes + LevelNotes(prev, ds, generation, i), out)
      {
        ghost var more := LevelNotes(prev, ds, generation, i);
        var d, p := ds[i], FindIn(prev, ds[i].id);
        if p.None? || d.level == p.value.level {
          assert more + [] == more;
          continue;
        }
        var kind, rank := PressureRelieved, Rank0(d.level);
        if SeverityRank(d.level) > SeverityRank(p.value.level) {
          kind := if SeverityRank(p.value.level) <= SeverityRank(Normal) then PressureEntered else PressureEscalated;
        } else if d.level == Normal {
          kind := PressureRecovered;
        }
        var n := Note(kind, generation, Some(d.id), rank);
        out := Emit(out, now, n, base, notes + more);
        assert notes + more + [n] == notes + (more + [n]);
        assert LevelNote(prev, d, generation) == [n];
      }
    }

    method AnnounceActions(now: nat, d: DomainState, pending: seq<PressureEvent>, ghost base: nat,
                           ghost notes: seq<Note>)
      returns (out: seq<PressureEvent>)
      requires Emitted(base, now, notes, pending)
      modifies this`eventId
      ensures Emitted(base, now, notes + ActionNotes(d, generation, |d.responses|), out)
    {
      hide Emitted, Rank0;
      out := pending;
      assert notes + [] == notes;
      for i := 0 to |d.responses|
        invariant Emitted(base, now, notes + ActionNotes(d, generation, i), out)
      {
        ghost var more := ActionNotes(d, generation, i);
        var a := d.responses[i];
        if a == RequestReclaim || a == RequestDemotion || a == ReduceAdmission || a == RejectNewWork {
          var kind :=
            if a == RequestReclaim then ReclaimRequested
            else if a == RequestDemotion then DemotionRequested
            else BackpressureIssued;
          var n := Note(kind, generation, Some(d.id), Rank0(d.level));
          out := Emit(out, now, n, base, notes + more);
          assert notes + more + [n] == notes + (more + [n]);
          assert ActionNote(d, a, generation) == [n];
        } else {
          assert more + [] == more;
        }
      }
    }

    method AnnounceResponses(now: nat, ds: seq<DomainState>, pending: seq<PressureEvent>, ghost base: nat,
                             ghost notes: seq<Note>)
      returns (out: seq<PressureEvent>)
      requires Emitted(base, now, notes, pending)
      modifies this`eventId
      ensures Emitted(base, now, notes + ResponseNotes(ds, generation, |ds|), out)
    {
      hide Emitted, ActionNotes;
      out := pending;
      assert notes + [] == notes;
      for i := 0 to |ds|
        invariant Emitted(base, now, notes + ResponseNotes(ds, generation, i), out)
      {
        ghost var more := ResponseNotes(ds, generation, i);
        out := AnnounceActions(now, ds[i], out, base, notes + more);
        ghost var actions := ActionNotes(ds[i], generation, |ds[i].responses|);
        assert notes + more + actions == notes + (more + actions);
      }
    }

    // ---- dispatch ----

    method PushToAll(e: PressureEvent)
      requires Valid()
      modifies subscriptions
      ensures Valid()
      ensures forall i | 0 <= i < |subscriptions| ::
        subscriptions[i].State() == Pushed(subscriptions[i].setup, old(subscriptions[i].State()), e)
    {
      hide Pushed, Accepts;
      for i := 0 to |subscriptions|
        invariant Valid()
        invariant forall j | 0 <= j < i ::
          subscriptions[j].State() == Pushed(subscriptions[j].setup, old(subscriptions[j].State()), e)
        invariant forall j | i <= j < |subscriptions| :: subscriptions[j].State() == old(subscriptions[j].State())
      {
        if subscriptions[i].closed {
          ClosedIgnores(subscriptions[i].setup, subscriptions[i].State(), e);
        } else {
          var _ := subscriptions[i].Push(e);
        }
      }
    }

    method Dispatch(events: seq<PressureEvent>)
      requires Valid()
      modifies subscriptions
      ensures Valid()
      ensures forall i | 0 <= i < |subscriptions| ::
        subscriptions[i].State() == PushedAll(subscriptions[i].setup, old(subscriptions[i].State()), events)
    {
      hide Pushed;
      for k := 0 to |events|
        invariant Valid()
        invariant forall i | 0 <= i < |subscriptions| ::
          subscriptions[i].State() == PushedAll(subscriptions[i].setup, old(subscriptions[i].State()), events[..k])
      {
        PushToAll(events[k]);
        assert events[..k + 1][..k] == events[..k];
      }
      assert events[..|events|] == events;
    }

    method Remember(s: Snapshot)
      modifies this`history
      ensures history == Trimmed(old(history) + [s], historyLimit)
    {
      history := history + [s];
      ghost var all := history;
      ghost var dropped := 0;
      while |history| > historyLimit
        invariant dropped <= |all| && history == all[dropped..] && |history| >= Least(|all|, historyLimit)
      {
        history := history[1..];
        dropped := dropped + 1;
      }
    }

    // ---- the whole refresh ----

    /** Everything up to the snapshot that still lacks its generation. */
    method Draw(now: nat, reports: seq<Report>)
      returns (s: Snapshot, pending: seq<PressureEvent>, ghost draft: Draft)
      modifies this`states, this`snapshotId, this`eventId
      ensures var env := EnvOf(old(State()), lib, now);
              && draft == DraftOf(old(State()), env, reports) && s == Unstamped(old(State()), env, draft)
              && states == draft.retention.states && snapshotId == old(snapshotId) + 1
      ensures Emitted(old(eventId), now,
                      draft.polled.notes + draft.retention.notes
                      + AddedNotes(snapshot.domains, draft.domains, |draft.domains|), pending)
    {
      hide Poll, Observe, Retain, FinishedAll, HostOf, AddedNotes, AggregateLevel, AggregateScore, Emitted,
           ObservedIds;
      var env := Env(policy, budgets, now, lib.sqrt, lib.explain);
      snapshotId := snapshotId + 1;
      var p;
      p, pending := PollProviders(now, reports);
      var domains, observed := ObserveAll(now, p.feed);
      ghost var observation := Observation(states, domains);
      var kept;
      ghost var retained;
      kept, pending, retained := RetainAll(now, observed, p.health, pending, old(eventId), p.notes);
      domains := Respond(env, domains + kept);
      pending := AnnounceAdded(now, domains, pending, old(eventId), p.notes + retained);
      var level, score := Aggregate(policy, domains);
      s := Snapshot(
        snapshotId, 0, now, domains, p.health, level, score, "aggregate driven by max-severity domain",
        policy.version, policy.name, p.warnings, p.staleData || kept != [], p.partialData,
        if p.partialData then MediumConfidence else HighConfidence, RuntimeRegistration, 0, 0);
      draft := Draft(p, observation, Retention(kept, states, retained), domains);
    }

    /** The generation, and the events that carry it. */
    method Stamp(now: nat, s: Snapshot, pending: seq<PressureEvent>, ghost base: nat, ghost notes: seq<Note>)
      returns (out: seq<PressureEvent>, ghost more: seq<Note>)
      requires Emitted(base, now, notes, pending)
      modifies this`generation, this`eventId
      ensures generation == if Diff(snapshot, s).Any() then old(generation) + 1 else old(generation)
      ensures more == notes
                      + (if generation > old(generation) then [Note(GenerationChanged, generation, None, 0)] else [])
                      + LevelNotes(snapshot.domains, s.domains, generation, |s.domains|)
                      + ResponseNotes(s.domains, generation, |s.domains|)
      ensures Emitted(base, now, more, out)
    {
      hide LevelNotes, ResponseNotes, Diff, SnapshotDiff.Any, Emitted;
      var diff := DiffSnapshots(snapshot, s);
      out, more := pending, notes;
      if diff.Any() {
        generation := generation + 1;
        var n := Note(GenerationChanged, generation, None, 0);
        out := Emit(out, now, n, base, more);
        more := more + [n];
      } else {
        assert notes + [] == notes;
      }
      out := AnnounceLevels(now, snapshot.domains, s.domains, out, base, more);
      more := more + LevelNotes(snapshot.domains, s.domains, generation, |s.domains|);
      out := AnnounceResponses(now, s.domains, out, base, more);
      more := more + ResponseNotes(s.domains, generation, |s.domains|);
    }

    /** A refresh does to the fields exactly what `RefreshWith` does to their values, and every subscription is
        offered the events in order. */
    method Refresh(now: nat, reports: seq<Report>) returns (s: Snapshot)
      requires Valid()
      modifies this`snapshot, this`states, this`history, this`generation, this`snapshotId, this`eventId, subscriptions
      ensures Valid()
      ensures var r := RefreshWith(old(State()), EnvOf(old(State()), lib, now), reports);
              && State() == r.rt && s == r.snapshot
              && forall i | 0 <= i < |subscriptions| ::
                   subscriptions[i].State()
                   == PushedAll(subscriptions[i].setup, old(subscriptions[i].State()), r.events)
    {
      hide DraftOf, AddedNotes, LevelNotes, ResponseNotes, AggregateLevel, AggregateScore, Diff, SnapshotDiff.Any,
           Trimmed, PushedAll, Emitted, Numbered;
      var pending;
      ghost var draft, notes;
      s, pending, draft := Draw(now, reports);
      notes := draft.polled.notes + draft.retention.notes
               + AddedNotes(snapshot.domains, draft.domains, |draft.domains|);
      pending, notes := Stamp(now, s, pending, old(eventId), notes);
      EmittedCount(old(eventId), now, notes, pending);
      s := s.(generation := generation, eventCount := |pending|);
      snapshot := s;
      Remember(s);
      Dispatch(pending);
    }

    lemma {:induction false} EmittedCount(base: nat, now: nat, notes: seq<Note>, pending: seq<PressureEvent>)
      requires Emitted(base, now, notes, pending)
      ensures |pending| == |notes| && pending == Numbered(base, now, notes) && eventId == base + |notes|
    {
    }
  }

  // ---- runs of the object ----

  method Perform(rt: PressureRuntime, op: Op)
    requires rt.Valid()
    modifies rt, rt.subscriptions
    ensures rt.Valid() && rt.subscriptions == old(rt.subscriptions)
    ensures rt.State() == Applied(old(rt.State()), rt.lib, op)
    ensures forall i | 0 <= i < |rt.subscriptions| ::
              rt.subscriptions[i].State() == PushedAll(rt.subscriptions[i].setup, old(rt.subscriptions[i].State()),
                                                       EventsOf(old(rt.State()), rt.lib, op))
  {
    hide RefreshWith, WithPolicy, WithBudget, Pushed;
    match op
    case Refresh(now, reports) => var _ := rt.Refresh(now, reports);
    case SetPolicy(p) => var _ := rt.ReplacePolicy(p);
    case SetBudget(id, b) => var _ := rt.AttachBudget(id, b);
    case ClearBudget(id) => rt.DetachBudget(id);
    case SetHistoryLimit(n) => rt.LimitHistory(n);
  }

  lemma {:induction false} ClosedIgnores(c: Setup, q: QueueState, e: PressureEvent)
    requires c.Usable() && q.closed
    ensures Pushed(c, q, e) == q
  {
  }

  lemma {:induction false} NothingNumbered(base: nat, now: nat)
    ensures Numbered(base, now, []) == []
  {
  }
}
