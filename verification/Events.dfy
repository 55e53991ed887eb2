/** Pressure events and the bounded subscription queue. */
module Events {
  import opened Options
  import opened Policy
  import opened Domain

  datatype EventType =
    | DomainAdded | DomainRemoved | PressureEntered | PressureEscalated | PressureRelieved | PressureRecovered
    | BudgetChanged | ReserveChanged | ProviderStale | ProviderFailed | ProviderRecovered | BackpressureIssued
    | ReclaimRequested | DemotionRequested | PolicyChanged | GenerationChanged | CustomEvent

  datatype PressureEvent = PressureEvent(
    id: nat,
    kind: EventType,
    generation: nat,
    timestampMs: nat,
    domain: Option<DomainId>,
    severityRank: nat)

  /** The filter's `domain_types` are stored by the source but never consulted. */
  datatype Filter = Filter(domains: seq<DomainId>, severities: seq<PressureLevel>, eventTypes: seq<EventType>)

  predicate Matches(f: Filter, e: PressureEvent) {
    && (f.domains != [] ==> e.domain.Some? && e.domain.value in f.domains)
    && (f.eventTypes != [] ==> e.kind in f.eventTypes)
    && (f.severities != [] ==> exists l | l in f.severities :: SeverityRank(l) == e.severityRank)
  }

  datatype Overflow = DropNewest | DropOldest | Reject

  /** How a subscription is set up. Making room in an empty queue is undefined in the source, so
      dropping the oldest event needs room for one. */
  datatype Setup = Setup(filter: Filter, maxQueue: nat, overflow: Overflow) {
    predicate Usable() {
      overflow == DropOldest ==> maxQueue >= 1
    }
  }

  datatype QueueState = QueueState(
    queue: seq<PressureEvent>,
    closed: bool,
    delivered: nat,
    dropped: nat,
    rejected: nat)

  const EMPTY_QUEUE: QueueState := QueueState([], false, 0, 0, 0)

  predicate Accepts(c: Setup, q: QueueState, e: PressureEvent) {
    Matches(c.filter, e) && !q.closed && (|q.queue| < c.maxQueue || c.overflow == DropOldest)
  }

  function Pushed(c: Setup, q: QueueState, e: PressureEvent): QueueState
    requires c.Usable()
  {
    if !Matches(c.filter, e) || q.closed then q
    else if |q.queue| < c.maxQueue then q.(queue := q.queue + [e], delivered := q.delivered + 1)
    else
      match c.overflow
      case Reject => q.(rejected := q.rejected + 1)
      case DropNewest => q.(dropped := q.dropped + 1)
      case DropOldest =>
        q.(queue := q.queue[1..] + [e], delivered := q.delivered + 1, dropped := q.dropped + 1)
  }

  function PushedAll(c: Setup, q: QueueState, es: seq<PressureEvent>): QueueState
    requires c.Usable()
  {
    if es == [] then q else Pushed(c, PushedAll(c, q, es[..|es| - 1]), es[|es| - 1])
  }

  class Subscription {
    const setup: Setup
    var queue: seq<PressureEvent>
    var closed: bool
    var delivered: nat
    var dropped: nat
    var rejected: nat

    function State(): QueueState
      reads this
    {
      QueueState(queue, closed, delivered, dropped, rejected)
    }

    ghost predicate Valid()
      reads this
    {
      setup.Usable() && |queue| <= setup.maxQueue
    }

    constructor (setup: Setup)
      requires setup.Usable()
      ensures Valid() && this.setup == setup && State() == EMPTY_QUEUE
    {
      this.setup := setup;
      queue, closed, delivered, dropped, rejected := [], false, 0, 0, 0;
    }

    method Push(e: PressureEvent) returns (ok: bool)
      requires Valid()
      modifies this
      ensures Valid()
      ensures ok == Accepts(setup, old(State()), e)
      ensures State() == Pushed(setup, old(State()), e)
    {
      if !Matches(setup.filter, e) { return false; }
      if closed { return false; }
      if |queue| >= setup.maxQueue {
        if setup.overflow == Reject {
          rejected := rejected + 1;
          return false;
        }
        if setup.overflow == DropNewest {
          dropped := dropped + 1;
          return false;
        }
        queue := queue[1..];
        dropped := dropped + 1;
      }
      queue := queue + [e];
      delivered := delivered + 1;
      return true;
    }

    method TryPop() returns (out: Option<PressureEvent>)
      requires Valid()
      modifies this
      ensures Valid()
      ensures out == if old(queue) == [] then None else Some(old(queue)[0])
      ensures State() == old(State()).(queue := if old(queue) == [] then [] else old(queue)[1..])
    {
      if queue == [] { return None; }
      out := Some(queue[0]);
      queue := queue[1..];
    }

    method Close()
      requires Valid()
      modifies this
      ensures Valid() && State() == old(State()).(closed := true)
    {
      closed := true;
    }

    method Clear()
      requires Valid()
      modifies this
      ensures Valid() && State() == old(State()).(queue := [])
    {
      queue := [];
    }
  }

  // ---- whole runs ----

  datatype QueueOp = Offer(e: PressureEvent) | Pop | Clear | Close

  /** A queue with what has become of the events offered to it: those accepted and those popped, in
      order, how many were cleared, and how many matching ones were offered while it was open. */
  datatype Ledger = Ledger(
    q: QueueState,
    accepted: seq<PressureEvent>,
    popped: seq<PressureEvent>,
    cleared: nat,
    offered: nat)

  function Apply(c: Setup, l: Ledger, op: QueueOp): Ledger
    requires c.Usable()
  {
    match op
    case Offer(e) =>
      l.(q := Pushed(c, l.q, e),
         accepted := l.accepted + if Accepts(c, l.q, e) then [e] else [],
         offered := l.offered + if Matches(c.filter, e) && !l.q.closed then 1 else 0)
    case Pop =>
      if l.q.queue == [] then l
      else l.(q := l.q.(queue := l.q.queue[1..]), popped := l.popped + [l.q.queue[0]])
    case Clear => l.(q := l.q.(queue := []), cleared := l.cleared + |l.q.queue|)
    case Close => l.(q := l.q.(closed := true))
  }

  function RunQueue(c: Setup, ops: seq<QueueOp>): Ledger
    requires c.Usable()
  {
    if ops == [] then Ledger(EMPTY_QUEUE, [], [], 0, 0)
    else Apply(c, RunQueue(c, ops[..|ops| - 1]), ops[|ops| - 1])
  }

  /** Each accepted event has been popped, cleared or dropped as the oldest, or is pending; each matching offer to
      an open queue was accepted, dropped as the newest, or rejected. */
  ghost predicate Balanced(c: Setup, l: Ledger) {
    && |l.q.queue| <= c.maxQueue
    && l.q.delivered == |l.accepted|
    && |l.accepted| == |l.popped| + l.cleared + |l.q.queue| + (if c.overflow == DropOldest then l.q.dropped else 0)
    && l.offered == |l.accepted| + (if c.overflow == DropOldest then 0 else l.q.dropped) + l.q.rejected
    && (c.overflow == Reject ==> l.q.dropped == 0) && (c.overflow != Reject ==> l.q.rejected == 0)
  }

  lemma {:induction false} ApplyKeepsBalance(c: Setup, l: Ledger, op: QueueOp)
    requires c.Usable() && Balanced(c, l)
    ensures Balanced(c, Apply(c, l, op))
  {
    hide Matches;
  }

  /** Events are neither lost nor invented, whatever the interleaving of offers, pops, clears and closing. */
  lemma {:induction false} Conservation(c: Setup, ops: seq<QueueOp>)
    requires c.Usable()
    ensures Balanced(c, RunQueue(c, ops))
  {
    hide Apply, Balanced;
    if ops == [] {
      NothingBalanced(c);
    } else {
      Conservation(c, ops[..|ops| - 1]);
      ApplyKeepsBalance(c, RunQueue(c, ops[..|ops| - 1]), ops[|ops| - 1]);
    }
  }

  lemma {:induction false} NothingBalanced(c: Setup)
    ensures Balanced(c, Ledger(EMPTY_QUEUE, [], [], 0, 0))
  {
  }

  predicate IsSuffix(s: seq<PressureEvent>, all: seq<PressureEvent>) {
    |s| <= |all| && s == all[|all| - |s|..]
  }

  lemma {:induction false} SuffixSteps(s: seq<PressureEvent>, all: seq<PressureEvent>)
    requires IsSuffix(s, all)
    ensures IsSuffix([], all) && (s != [] ==> IsSuffix(s[1..], all))
    ensures forall e :: IsSuffix(s + [e], all + [e])
  {
    if s != [] { assert s[1..] == all[|all| - |s| + 1..]; }
    forall e ensures IsSuffix(s + [e], all + [e]) {
      assert (all + [e])[|all| - |s|..] == all[|all| - |s|..] + [e];
    }
  }

  /** The queue always holds the latest accepted events, in order. */
  lemma {:induction false} QueueIsSuffix(c: Setup, ops: seq<QueueOp>)
    requires c.Usable()
    ensures IsSuffix(RunQueue(c, ops).q.queue, RunQueue(c, ops).accepted)
  {
    if ops == [] {
    } else {
      hide Matches, IsSuffix;
      QueueIsSuffix(c, ops[..|ops| - 1]);
      var l := RunQueue(c, ops[..|ops| - 1]);
      SuffixSteps(l.q.queue, l.accepted);
      if l.q.queue != [] { SuffixSteps(l.q.queue[1..], l.accepted); }
      assert l.accepted + [] == l.accepted;
    }
  }

  function Offers(ops: seq<QueueOp>): seq<PressureEvent> {
    if ops == [] then []
    else
      var op := ops[|ops| - 1];
      Offers(ops[..|ops| - 1]) + if op.Offer? then [op.e] else []
  }

  ghost predicate IdsIncrease(es: seq<PressureEvent>) {
    forall i, j | 0 <= i < j < |es| :: es[i].id < es[j].id
  }

  /** If events are offered in increasing id order, a subscriber sees them so: what it has popped,
      followed by what is pending, has strictly increasing ids. */
  lemma {:induction false} SubscriberSeesIncreasingIds(c: Setup, ops: seq<QueueOp>)
    requires c.Usable() && IdsIncrease(Offers(ops))
    ensures IdsIncrease(RunQueue(c, ops).popped + RunQueue(c, ops).q.queue)
    ensures forall x | x in RunQueue(c, ops).popped + RunQueue(c, ops).q.queue :: x in Offers(ops)
  {
    hide Matches;
    if ops == [] {
    } else {
      var before, op := ops[..|ops| - 1], ops[|ops| - 1];
      assert IdsIncrease(Offers(before)) by {
        assert forall i | 0 <= i < |Offers(before)| :: Offers(before)[i] == Offers(ops)[i];
      }
      SubscriberSeesIncreasingIds(c, before);
      var l := RunQueue(c, before);
      var seen := l.popped + l.q.queue;
      match op
      case Offer(e) =>
        NewIdIsGreatest(Offers(before), e);
        if c.overflow == DropOldest && Accepts(c, l.q, e) && |l.q.queue| >= c.maxQueue {
          WithoutOldest(l.popped, l.q.queue, e);
        } else {
          assert l.popped + (l.q.queue + [e]) == seen + [e];
        }
      case Pop =>
        if l.q.queue != [] {
          assert (l.popped + [l.q.queue[0]]) + l.q.queue[1..] == seen;
        }
      case Clear =>
        assert l.popped + [] == seen[..|l.popped|];
      case Close =>
    }
  }

  lemma {:induction false} NewIdIsGreatest(es: seq<PressureEvent>, e: PressureEvent)
    requires IdsIncrease(es + [e])
    ensures forall x | x in es :: x.id < e.id
  {
    forall x | x in es ensures x.id < e.id {
      var i :| 0 <= i < |es| && es[i] == x;
      assert (es + [e])[i] == x && (es + [e])[|es|] == e;
    }
  }

  lemma {:induction false} WithoutOldest(popped: seq<PressureEvent>, queue: seq<PressureEvent>, e: PressureEvent)
    requires queue != [] && IdsIncrease(popped + queue) && forall x | x in popped + queue :: x.id < e.id
    ensures IdsIncrease(popped + (queue[1..] + [e]))
    ensures forall x | x in popped + (queue[1..] + [e]) :: x in popped + queue || x == e
  {
    var old', new' := popped + queue, popped + (queue[1..] + [e]);
    forall i, j | 0 <= i < j < |new'| ensures new'[i].id < new'[j].id {
      assert forall k | 0 <= k < |popped| :: new'[k] == old'[k];
      assert forall k | |popped| <= k < |new'| - 1 :: new'[k] == old'[k + 1];
    }
  }
}
