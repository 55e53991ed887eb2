/** What budgets and observations mean for the capacity a domain publishes. */
module Budgets {
  import opened Options
  import opened Numbers
  import opened Policy
  import opened Trend
  import opened Score
  import opened Domain
  import opened Refresh

  /** The loop of `reserve_bytes`: unsigned additions, each of which may wrap around. */
  method SumReserves(b: Budget) returns (total: nat)
    ensures total == b.ReserveBytes()
  {
    total := b.emergencyReserveBytes % TWO64;
    for i := 0 to |b.reserves|
      invariant total == (b.emergencyReserveBytes + SumUpTo(b.reserves, i)) % TWO64
    {
      WrapStep(b.emergencyReserveBytes + SumUpTo(b.reserves, i), b.reserves[i].bytes);
      total := (total + b.reserves[i].bytes) % TWO64;
    }
    SumUpToAll(b.reserves);
  }

  function SumUpTo(rs: seq<Reserve>, k: nat): nat
    requires k <= |rs|
  {
    if k == 0 then 0 else SumUpTo(rs, k - 1) + rs[k - 1].bytes
  }

  lemma {:induction false} WrapStep(a: nat, b: nat)
    ensures (a % TWO64 + b) % TWO64 == (a + b) % TWO64
  {
    var q := a / TWO64;
    assert a == q * TWO64 + a % TWO64;
    assert a + b == q * TWO64 + (a % TWO64 + b);
  }

  lemma {:induction false} SumShift(rs: seq<Reserve>, k: nat)
    requires rs != [] && 0 < k <= |rs|
    ensures SumUpTo(rs, k) == rs[0].bytes + SumUpTo(rs[1..], k - 1)
  {
    if k == 1 {
    } else {
      SumShift(rs, k - 1);
      assert rs[1..][k - 2] == rs[k - 1];
    }
  }

  lemma {:induction false} SumUpToAll(rs: seq<Reserve>)
    ensures SumUpTo(rs, |rs|) == ReserveSum(rs)
  {
    if rs == [] {
    } else {
      SumUpToAll(rs[1..]);
      SumShift(rs, |rs|);
    }
  }

  /** The reserves of a budget, without the wrap-around. */
  function TrueReserves(b: Budget): nat {
    b.emergencyReserveBytes + ReserveSum(b.reserves)
  }

  /** A valid budget splits its hard capacity exactly into what is usable and what is reserved if and only if
      the true sum of its reserves fits in 64 bits; and only then do its reserves fit in its hard capacity. */
  lemma {:induction false} ReservesAndUsableAreHard(b: Budget)
    requires BudgetOk(b) && 0 < b.hardCapacity < TWO64
    ensures b.UsableCapacity() + TrueReserves(b) == b.hardCapacity <==> TrueReserves(b) < TWO64
    ensures TrueReserves(b) <= b.hardCapacity <==> TrueReserves(b) < TWO64
  {
    var total := TrueReserves(b);
    assert b.ReserveBytes() == total % TWO64;
    if total < TWO64 { assert total % TWO64 == total; }
  }

  /** A sum that wraps around can pass for small reserves. */
  lemma {:induction false} WrappedReservesPass()
    ensures var rs := [Reserve(System, "", TWO64 - 1), Reserve(System, "", 2)];
            var b := DEFAULT_BUDGET.(hardCapacity := 100, reserves := rs);
            BudgetOk(b) && b.UsableCapacity() == 99
  {
    var rs := [Reserve(System, "", TWO64 - 1), Reserve(System, "", 2)];
    assert rs[1..] == [Reserve(System, "", 2)] && rs[1..][1..] == [];
    assert ReserveSum(rs[1..]) == 2 + ReserveSum(rs[1..][1..]);
    assert ReserveSum(rs) == TWO64 + 1;
  }

  /** What a published state says about capacity: what is available and what of the usable capacity is
      committed make up the usable capacity; utilization is the committed share of it, above 1 exactly when
      it is exceeded; a governed domain reports its budget's capacity and no other. */
  lemma {:induction false} PublishedCapacity(env: Env, st: DomainRt, provider: string, obs: DomainObservation)
    ensures var d := Published(env, st, provider, obs);
            && d.committed == obs.committed
            && d.available + (if d.committed <= d.usableCapacity then d.committed else d.usableCapacity)
               == d.usableCapacity
            && (d.usableCapacity > 0 ==> d.utilization * d.usableCapacity as real == d.committed as real)
            && (d.usableCapacity == 0 ==> d.utilization == 0.0)
            && (d.governed <==> d.id in env.budgets && env.budgets[d.id].hardCapacity > 0)
            && (d.governed ==> d.budget == env.budgets[d.id] && d.totalCapacity == d.budget.hardCapacity
                               && d.usableCapacity == d.budget.UsableCapacity())
            && (!d.governed ==> d.budget == DEFAULT_BUDGET && d.totalCapacity == obs.totalCapacity
                                && d.usableCapacity == obs.usableCapacity.GetOr(obs.totalCapacity))
  {
    hide ScoreOf, ResolvedMachine, NewTrend, EstimateOf, Budget.UsableCapacity, Budget.ReserveBytes;
    var usable := Usable(env, obs);
    if usable > 0 { QuotientTimesDivisor(obs.committed as real, usable as real); }
  }

  lemma {:induction false} QuotientTimesDivisor(a: real, b: real)
    requires b != 0.0
    ensures a / b * b == a
  {
  }

  /** What a published state says about the change of level: the level before, when the current one was
      entered, and the most severe rank so far, which is never reset. */
  lemma {:induction false} PublishedHistory(env: Env, st: DomainRt, provider: string, obs: DomainObservation)
    ensures var d, after := Published(env, st, provider, obs), Advanced(env, st, obs);
            && d.previousLevel == st.machine.level && d.level == after.machine.level
            && (d.level != d.previousLevel ==> d.enteredLevelAtMs == env.now && !d.inHysteresisHold)
            && (d.level == d.previousLevel ==> d.enteredLevelAtMs == st.enteredLevelAtMs)
            && d.peakLevel >= st.peakRank && d.peakLevel >= Rank0(d.level)
            && (d.peakLevel == st.peakRank || d.peakLevel == Rank0(d.level))
            && after.peakRank == d.peakLevel && after.enteredLevelAtMs == d.enteredLevelAtMs
  {
    hide ScoreOf, NewTrend, EstimateOf, Usable, UtilizationFor, Budget.ReserveBytes;
  }

  /** What a published state carries over from the observation and its provider. */
  lemma {:induction false} PublishedObservation(env: Env, st: DomainRt, provider: string, obs: DomainObservation)
    ensures var d := Published(env, st, provider, obs);
            && d.id == obs.id && d.domainType == obs.domainType && d.nativeResourceId == obs.nativeResourceId
            && d.provider == provider && d.timestampMs == env.now
            && d.resident == obs.resident && d.reclaimable == obs.reclaimable.GetOr(0)
            && d.confidence == obs.confidence && d.provenance == obs.provenance && d.validity == obs.validity
            && d.trendWindowSamples <= TREND_WINDOW
            && 0.0 <= d.trendConfidence <= 1.0 && 0.0 <= d.score <= 1.0
  {
    hide ResolvedMachine, Usable, UtilizationFor, Budget.ReserveBytes, Budget.UsableCapacity, Raw, CentreOf, Cov,
         Var, Varc, R2, DropOld;
  }
}
