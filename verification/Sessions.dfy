/** The runtime object with its subscribers: any interleaving of refreshes, configuration changes, new
    subscriptions, and pops, clears and closings of the queues. */
module Sessions {
  import opened Options
  import opened Domain
  import opened Events
  import opened Refresh
  import opened Runs
  import opened RunFacts
  import opened RuntimeObject

  datatype Action =
    | Operate(op: Op)
    | Subscribe(filter: Filter)
    | Touch(i: nat, use: Use)

  /** What a subscriber does to its queue. */
  datatype Use = TakeOne | Empty | End

  function QueueOpOf(u: Use): QueueOp {
    match u
    case TakeOne => Pop
    case Empty => Clear
    case End => Close
  }

  /** A subscription: its setup, how many events had been dispatched before it was made, and everything that has
      been done to its queue since. */
  datatype Listener = Listener(setup: Setup, from: nat, ops: seq<QueueOp>)

  /** The operations performed so far, and the subscriptions in the order they were made. */
  datatype Session = Session(ops: seq<Op>, listeners: seq<Listener>)

  function Offered(es: seq<PressureEvent>): (ops: seq<QueueOp>)
    ensures |ops| == |es|
  {
    seq(|es|, i requires 0 <= i < |es| => Offer(es[i]))
  }

  function Told(l: Listener, es: seq<PressureEvent>): Listener {
    l.(ops := l.ops + Offered(es))
  }

  function Acted(lib: Library, s: Session, a: Action): Session {
    match a
    case Operate(op) =>
      var es := EventsOf(RunOf(lib, s.ops), lib, op);
      Session(s.ops + [op], seq(|s.listeners|, i requires 0 <= i < |s.listeners| => Told(s.listeners[i], es)))
    case Subscribe(f) =>
      s.(listeners := s.listeners + [Listener(Setup(f, 256, DropOldest), |Stream(lib, s.ops)|, [])])
    case Touch(i, u) =>
      if i >= |s.listeners| then s
      else s.(listeners := s.listeners[i := s.listeners[i].(ops := s.listeners[i].ops + [QueueOpOf(u)])])
  }

  function SessionOf(lib: Library, actions: seq<Action>): Session {
    if actions == [] then Session([], [])
    else Acted(lib, SessionOf(lib, actions[..|actions| - 1]), actions[|actions| - 1])
  }

  // ---- what a subscription is offered ----

  ghost predicate Follows(lib: Library, ops: seq<Op>, l: Listener) {
    && l.setup == Setup(l.setup.filter, 256, DropOldest)
    && l.from <= |Stream(lib, ops)| && Offers(l.ops) == Stream(lib, ops)[l.from..]
  }

  lemma {:induction false} OffersConcat(a: seq<QueueOp>, es: seq<PressureEvent>)
    ensures Offers(a + Offered(es)) == Offers(a) + es
    decreases |es|
  {
    if es == [] {
      assert a + Offered(es) == a;
    } else {
      var n := |es| - 1;
      OffersConcat(a, es[..n]);
      var all := a + Offered(es);
      assert all[..|all| - 1] == a + Offered(es[..n]) && all[|all| - 1] == Offer(es[n]);
      assert es == es[..n] + [es[n]];
    }
  }

  lemma {:induction false} OffersOne(a: seq<QueueOp>, op: QueueOp)
    requires !op.Offer?
    ensures Offers(a + [op]) == Offers(a)
  {
    assert (a + [op])[..|a|] == a;
  }

  lemma {:induction false} StreamGrows(lib: Library, ops: seq<Op>, op: Op)
    ensures Stream(lib, ops + [op]) == Stream(lib, ops) + EventsOf(RunOf(lib, ops), lib, op)
    ensures RunOf(lib, ops + [op]) == Applied(RunOf(lib, ops), lib, op)
  {
    hide EventsOf, Applied;
    assert (ops + [op])[..|ops|] == ops;
  }

  lemma {:induction false} TailGrows<T>(s: seq<T>, t: seq<T>, from: nat)
    requires from <= |s|
    ensures (s + t)[from..] == s[from..] + t
  {
  }

  /** Each subscription has been offered exactly the events dispatched since it was made, in order. */
  lemma {:induction false} ListenersFollow(lib: Library, actions: seq<Action>, i: nat)
    requires i < |SessionOf(lib, actions).listeners|
    ensures var s := SessionOf(lib, actions); Follows(lib, s.ops, s.listeners[i])
  {
    hide EventsOf, Offers, Stream, RunOf, Offered;
    var n := |actions| - 1;
    var s, a := SessionOf(lib, actions[..n]), actions[n];
    if i < |s.listeners| { ListenersFollow(lib, actions[..n], i); }
    match a
    case Operate(op) =>
      var es := EventsOf(RunOf(lib, s.ops), lib, op);
      OffersConcat(s.listeners[i].ops, es);
      StreamGrows(lib, s.ops, op);
      TailGrows(Stream(lib, s.ops), es, s.listeners[i].from);
    case Subscribe(_) =>
      if i == |s.listeners| { NothingOffered(Stream(lib, s.ops)); }
    case Touch(k, u) =>
      if i == k { OffersOne(s.listeners[i].ops, QueueOpOf(u)); }
  }

  lemma {:induction false} NothingOffered(all: seq<PressureEvent>)
    ensures Offers([]) == [] && all[|all|..] == []
  {
  }

  // ---- what a subscriber sees ----

  /** What a subscriber has popped, followed by what is pending for it. */
  function Seen(l: Listener): seq<PressureEvent>
    requires l.setup.Usable()
  {
    RunQueue(l.setup, l.ops).popped + RunQueue(l.setup, l.ops).q.queue
  }

  /** In any session each subscriber sees events with increasing ids, all of them dispatched since it subscribed. */
  lemma {:induction false} SubscribersSeeIncreasingIds(lib: Library, actions: seq<Action>, i: nat)
    requires i < |SessionOf(lib, actions).listeners|
    ensures var s := SessionOf(lib, actions);
            var l := s.listeners[i];
            && l.setup.Usable() && l.from <= |Stream(lib, s.ops)| && IdsIncrease(Seen(l))
            && forall e | e in Seen(l) :: e in Stream(lib, s.ops)[l.from..]
  {
    hide SessionOf, Stream, Offers, RunQueue, RunOf;
    var s := SessionOf(lib, actions);
    var l := s.listeners[i];
    ListenersFollow(lib, actions, i);
    EventIdsAreGapFree(lib, s.ops);
    TailIncreases(Stream(lib, s.ops), l.from);
    SubscriberSeesIncreasingIds(l.setup, l.ops);
  }

  lemma {:induction false} TailIncreases(all: seq<PressureEvent>, from: nat)
    requires from <= |all| && forall i | 0 <= i < |all| :: all[i].id == i + 1
    ensures IdsIncrease(all[from..])
  {
  }

  function Matching(f: Filter, es: seq<PressureEvent>): seq<PressureEvent> {
    if es == [] then []
    else Matching(f, es[..|es| - 1]) + if Matches(f, es[|es| - 1]) then [es[|es| - 1]] else []
  }

  predicate OnlyPops(ops: seq<QueueOp>) {
    forall i | 0 <= i < |ops| :: ops[i].Offer? || ops[i].Pop?
  }

  /** A queue that is only popped, and from which nothing was dropped, loses no matching event. */
  lemma {:induction false} NothingLost(c: Setup, ops: seq<QueueOp>)
    requires c.Usable() && c.overflow == DropOldest && OnlyPops(ops) && RunQueue(c, ops).q.dropped == 0
    ensures RunQueue(c, ops).popped + RunQueue(c, ops).q.queue == Matching(c.filter, Offers(ops))
    ensures !RunQueue(c, ops).q.closed
  {
    hide Matches;
    if ops == [] {
    } else {
      var n := |ops| - 1;
      DroppedGrows(c, ops);
      NothingLost(c, ops[..n]);
      var l, op := RunQueue(c, ops[..n]), ops[n];
      if op.Offer? {
        assert (l.popped + l.q.queue) + [op.e] == l.popped + (l.q.queue + [op.e]);
        assert (Offers(ops[..n]) + [op.e])[..|Offers(ops[..n])|] == Offers(ops[..n]);
      } else {
        assert Offers(ops[..n]) + [] == Offers(ops[..n]);
        if l.q.queue != [] { assert l.popped + l.q.queue == (l.popped + [l.q.queue[0]]) + l.q.queue[1..]; }
      }
    }
  }

  lemma {:induction false} DroppedGrows(c: Setup, ops: seq<QueueOp>)
    requires c.Usable() && ops != []
    ensures RunQueue(c, ops[..|ops| - 1]).q.dropped <= RunQueue(c, ops).q.dropped
  {
    hide Matches;
  }

  /** A subscriber that only pops, and whose queue has not overflowed, sees exactly the events dispatched since it
      subscribed that match its filter, in order. */
  lemma {:induction false} SubscribersMissNothing(lib: Library, actions: seq<Action>, i: nat)
    requires i < |SessionOf(lib, actions).listeners|
    requires var l := SessionOf(lib, actions).listeners[i];
             OnlyPops(l.ops) && l.setup.Usable() && RunQueue(l.setup, l.ops).q.dropped == 0
    ensures var s := SessionOf(lib, actions);
            var l := s.listeners[i];
            l.from <= |Stream(lib, s.ops)| && Seen(l) == Matching(l.setup.filter, Stream(lib, s.ops)[l.from..])
  {
    hide SessionOf, Stream, Offers, RunQueue, RunOf, Matching, OnlyPops;
    ListenersFollow(lib, actions, i);
    var l := SessionOf(lib, actions).listeners[i];
    NothingLost(l.setup, l.ops);
  }

  // ---- the object ----

  lemma {:induction false} OffersPush(c: Setup, a: seq<QueueOp>, es: seq<PressureEvent>)
    requires c.Usable()
    ensures RunQueue(c, a + Offered(es)).q == PushedAll(c, RunQueue(c, a).q, es)
    ensures RunQueue(c, a + Offered(es)).popped == RunQueue(c, a).popped
    decreases |es|
  {
    hide Pushed, Accepts, Matches;
    if es == [] {
      assert a + Offered(es) == a;
    } else {
      var n := |es| - 1;
      OffersPush(c, a, es[..n]);
      assert (a + Offered(es))[..|a| + n] == a + Offered(es[..n]);
    }
  }

  lemma {:induction false} UseStep(c: Setup, a: seq<QueueOp>, op: QueueOp)
    requires c.Usable()
    ensures RunQueue(c, a + [op]) == Apply(c, RunQueue(c, a), op)
  {
    hide Apply;
    assert (a + [op])[..|a|] == a;
  }

  /** A subscription object is where its listener's history leads; `got` is what was popped from it. */
  ghost predicate Hears(sub: Subscription, l: Listener, got: seq<PressureEvent>)
    reads sub
  {
    && sub.setup == l.setup && l.setup.Usable()
    && sub.State() == RunQueue(l.setup, l.ops).q && got == RunQueue(l.setup, l.ops).popped
  }

  ghost predicate Serves(rt: PressureRuntime, s: Session, got: seq<seq<PressureEvent>>)
    reads rt, rt.subscriptions
  {
    && rt.Valid() && rt.State() == RunOf(rt.lib, s.ops) && |rt.subscriptions| == |s.listeners| == |got|
    && forall i | 0 <= i < |got| :: Hears(rt.subscriptions[i], s.listeners[i], got[i])
  }

  lemma {:induction false} HearsMore(sub: Subscription, l: Listener, got: seq<PressureEvent>, before: QueueState,
                                     es: seq<PressureEvent>)
    requires sub.setup == l.setup && l.setup.Usable()
    requires before == RunQueue(l.setup, l.ops).q && got == RunQueue(l.setup, l.ops).popped
    requires sub.State() == PushedAll(l.setup, before, es)
    ensures Hears(sub, Told(l, es), got)
  {
    hide RunQueue, PushedAll, Offered;
    OffersPush(l.setup, l.ops, es);
  }

  method DoOperate(rt: PressureRuntime, ghost s: Session, got: seq<seq<PressureEvent>>, op: Op)
    requires Serves(rt, s, got)
    modifies rt, rt.subscriptions
    ensures rt.subscriptions == old(rt.subscriptions)
    ensures Serves(rt, Acted(rt.lib, s, Operate(op)), got)
  {
    hide RunOf, RunQueue, PushedAll, EventsOf, Applied, Stream, Told;
    ghost var es := EventsOf(RunOf(rt.lib, s.ops), rt.lib, op);
    StreamGrows(rt.lib, s.ops, op);
    Perform(rt, op);
    ghost var s' := Acted(rt.lib, s, Operate(op));
    forall i | 0 <= i < |got| ensures Hears(rt.subscriptions[i], s'.listeners[i], got[i]) {
      assert old(Hears(rt.subscriptions[i], s.listeners[i], got[i]));
      HearsMore(rt.subscriptions[i], s.listeners[i], got[i], old(rt.subscriptions[i].State()), es);
    }
  }

  method DoSubscribe(rt: PressureRuntime, ghost s: Session, got: seq<seq<PressureEvent>>, f: Filter)
    returns (got': seq<seq<PressureEvent>>)
    requires Serves(rt, s, got)
    modifies rt`subscriptions
    ensures |rt.subscriptions| == |old(rt.subscriptions)| + 1 && fresh(rt.subscriptions[|old(rt.subscriptions)|])
    ensures forall k | 0 <= k < |old(rt.subscriptions)| :: rt.subscriptions[k] == old(rt.subscriptions)[k]
    ensures Serves(rt, Acted(rt.lib, s, Subscribe(f)), got')
  {
    hide RunOf, Stream;
    var sub := rt.Subscribe(f);
    got' := got + [[]];
    ghost var s' := Acted(rt.lib, s, Subscribe(f));
    forall i | 0 <= i < |got'| ensures Hears(rt.subscriptions[i], s'.listeners[i], got'[i]) {
      if i < |got| { assert old(Hears(rt.subscriptions[i], s.listeners[i], got[i])); }
    }
  }

  method UseQueue(sub: Subscription, u: Use) returns (out: Option<PressureEvent>)
    requires sub.Valid()
    modifies sub
    ensures sub.Valid()
    ensures out == if u == TakeOne && old(sub.queue) != [] then Some(old(sub.queue)[0]) else None
    ensures forall l: Ledger | l.q == old(sub.State()) ::
              var l' := Apply(sub.setup, l, QueueOpOf(u));
              sub.State() == l'.q && l'.popped == l.popped + if out.Some? then [out.value] else []
  {
    out := None;
    match u
    case TakeOne => out := sub.TryPop();
    case Empty => sub.Clear();
    case End => sub.Close();
  }

  method DoTouch(rt: PressureRuntime, ghost s: Session, got: seq<seq<PressureEvent>>, i: nat, u: Use)
    returns (got': seq<seq<PressureEvent>>)
    requires Serves(rt, s, got)
    modifies rt.subscriptions
    ensures rt.subscriptions == old(rt.subscriptions)
    ensures Serves(rt, Acted(rt.lib, s, Touch(i, u)), got')
  {
    hide RunOf, RunQueue, Apply;
    got' := got;
    if i >= |rt.subscriptions| { return; }
    assert old(Hears(rt.subscriptions[i], s.listeners[i], got[i]));
    ghost var l := s.listeners[i];
    UseStep(l.setup, l.ops, QueueOpOf(u));
    var out := UseQueue(rt.subscriptions[i], u);
    if out.Some? {
      got' := got[i := got[i] + [out.value]];
    } else {
      assert got[i] + [] == got[i];
    }
    ghost var s' := Acted(rt.lib, s, Touch(i, u));
    forall k | 0 <= k < |got'| ensures Hears(rt.subscriptions[k], s'.listeners[k], got'[k]) {
      assert old(Hears(rt.subscriptions[k], s.listeners[k], got[k]));
    }
  }

  /** A fresh object on which a session is performed ends in the state of its run, so what is proved of runs is
      proved of the object; each subscription holds, and its subscriber got, what the session says, with increasing
      ids. */
  method Drive(lib: Library, actions: seq<Action>) returns (rt: PressureRuntime, got: seq<seq<PressureEvent>>)
    ensures fresh(rt) && rt.Valid() && rt.State() == RunOf(lib, SessionOf(lib, actions).ops)
    ensures rt.lib == lib && Serves(rt, SessionOf(lib, actions), got)
    ensures forall i | 0 <= i < |got| :: IdsIncrease(got[i] + rt.subscriptions[i].queue)
  {
    hide Acted, Hears, RunOf;
    rt := new PressureRuntime(lib);
    got := [];
    NothingServed(rt);
    for n := 0 to |actions|
      invariant fresh(rt) && rt.lib == lib && forall k | 0 <= k < |rt.subscriptions| :: fresh(rt.subscriptions[k])
      invariant Serves(rt, SessionOf(lib, actions[..n]), got)
    {
      ghost var s := SessionOf(lib, actions[..n]);
      assert actions[..n + 1][..n] == actions[..n];
      match actions[n]
      case Operate(op) => DoOperate(rt, s, got, op);
      case Subscribe(f) => got := DoSubscribe(rt, s, got, f);
      case Touch(i, u) => got := DoTouch(rt, s, got, i, u);
    }
    assert actions[..|actions|] == actions;
    forall i | 0 <= i < |got| ensures IdsIncrease(got[i] + rt.subscriptions[i].queue) {
      SeesIncreasing(rt, lib, actions, got, i);
    }
  }

  lemma {:induction false} NothingServed(rt: PressureRuntime)
    requires rt.Valid() && rt.State() == INITIAL && rt.subscriptions == []
    ensures Serves(rt, SessionOf(rt.lib, []), [])
  {
  }

  lemma {:induction false} SeesIncreasing(rt: PressureRuntime, lib: Library, actions: seq<Action>,
                                          got: seq<seq<PressureEvent>>, i: nat)
    requires rt.lib == lib && Serves(rt, SessionOf(lib, actions), got) && i < |got|
    ensures IdsIncrease(got[i] + rt.subscriptions[i].queue)
  {
    hide RunQueue, RunOf, SessionOf, IdsIncrease;
    SubscribersSeeIncreasingIds(lib, actions, i);
    assert Hears(rt.subscriptions[i], SessionOf(lib, actions).listeners[i], got[i]);
  }
}
