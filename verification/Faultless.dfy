/** Runs in which nothing fails: every call delivered at once, the cache perfect, only stock and limit
    saying no. What cannot go wrong then. */
module Faultless {
  import opened Items
  import opened History
  import opened Protocol
  import opened Invariants
  import opened Safety
  import opened OneSaga
  import opened Atomicity
  import opened Requests
  import opened Demands
  import MapSums
  import Overselling
  import Inventory
  import Orders
  import Payment

  // The stock is what the holders leave

  ghost predicate IsHolder(w: World, h: string) {
    && h in w.threads && w.threads[h].order.id in w.inventory.reservations
    && w.threads[h].order.id in w.creators && w.creators[w.threads[h].order.id] == h
  }

  /** The threads that made the orders for which goods are reserved. */
  ghost function Holders(w: World): (hs: set<string>)
    ensures hs <= Asked(w).Keys
  {
    set h | h in w.threads && IsHolder(w, h)
  }

  /** What a reservation holds is what the thread that made its order asked for. */
  lemma HolderOf(w: World, o: string)
    requires BooksOk(w) && CreatorsOk(w) && o in w.inventory.reservations
    ensures o in w.creators && w.creators[o] in w.threads && IsHolder(w, w.creators[o])
    ensures w.threads[w.creators[o]].order.id == o
    ensures w.inventory.reservations[o].lines == Asked(w)[w.creators[o]].Lines()
    ensures w.inventory.reservations[o].key == w.threads[w.creators[o]].key
  {
    hide EventsOk, Narrow, StockLines;
    assert MadeOrder(w.threads[w.creators[o]], o, w.orders[o]);
  }

  lemma HeldIsDemanded(w: World, p: string)
    requires BooksOk(w) && CreatorsOk(w)
    ensures Inventory.Held(w.inventory.reservations, p) == Demand(Asked(w), Holders(w), p)
  {
    hide BooksOk, CreatorsOk, Request.Lines, Quantity;
    var res := w.inventory.reservations;
    var held := map o | o in res :: Quantity(res[o].lines, p);
    var demanded := map h | h in Holders(w) :: Quantity(Asked(w)[h].Lines(), p);
    forall o | o in res
      ensures o in w.creators && IsHolder(w, w.creators[o]) && w.threads[w.creators[o]].order.id == o
      ensures res[o].lines == Asked(w)[w.creators[o]].Lines()
    {
      HolderOf(w, o);
    }
    var maker := map o | o in res :: w.creators[o];
    forall h | h in demanded
      ensures exists o :: o in held && maker[o] == h
    {
      assert w.threads[h].order.id in held;
    }
    MapSums.SumRenamed(held, demanded, maker);
  }

  lemma StockIsLeft(w: World, initial: map<string, int>)
    requires BooksOk(w) && CreatorsOk(w) && Inventory.Conserved(w.inventory, initial)
    requires forall p :: Inventory.Level(w.inventory.stock, p)
                      == Inventory.Level(initial, p) - Inventory.Held(w.inventory.reservations, p)
    ensures w.inventory.stock == Left(Asked(w), Holders(w), initial)
  {
    hide BooksOk, CreatorsOk, Inventory.Held, Demand, Holders;
    forall p | p in initial
      ensures w.inventory.stock[p] == initial[p] - Demand(Asked(w), Holders(w), p)
    {
      HeldIsDemanded(w, p);
      assert Inventory.Level(w.inventory.stock, p) == w.inventory.stock[p];
    }
  }

  // Every call is answered

  predicate Replied(c: Call) {
    c.Unsent? || c.Answered?
  }

  predicate Plain(t: Thread) {
    && Replied(t.create) && Replied(t.reserve) && Replied(t.charge) && Replied(t.confirm)
    && Replied(t.refund) && Replied(t.release) && Replied(t.cancel)
  }

  predicate Declined(c: Call) {
    c.Answered? && !c.ok
  }

  /** A thread in which nothing was declined but, perhaps, goods. */
  predicate Solvent(t: Thread) {
    t.HasSaga() && t.order.total <= Payment.LIMIT ==> !Declined(t.charge)
  }

  lemma ProceedStaysPlain(w: World, t: Thread, l: Luck)
    requires Plain(t) && l.out.Delivered? && (t.HasSaga() ==> t.order.id in w.orders)
    ensures Plain(Proceed(w, t, l).thread)
  {
    hide CreateFor, ReserveFor, Payment.Charge, Payment.Refund, Inventory.Release;
    match t.phase
    case Confirm => {}
    case Cancel => {}
    case _ => {}
  }

  /** Within the limit a charge is not declined. */
  lemma ProceedStaysSolvent(w: World, t: Thread, l: Luck)
    requires CallsFit(t) && Solvent(t) && l.out.Delivered?
    ensures Solvent(Proceed(w, t, l).thread)
  {
    hide CreateFor, ReserveFor;
    if !t.HasSaga() {
      CreationKeepsCalls(w, t, l);
      hide Proceed;
    } else if !t.phase.ChargeProbe? && !t.phase.ChargeLock? {
      ChargeKept(w, t, l);
      hide Proceed;
    }
    hide PhaseFits;
  }

  lemma ChargeKept(w: World, t: Thread, l: Luck)
    requires t.HasSaga() && !t.phase.ChargeProbe? && !t.phase.ChargeLock?
    ensures var t' := Proceed(w, t, l).thread; t'.charge == t.charge && t'.order == t.order
  {
    hide CreateFor, ReserveFor, Reply, NoReply, Payment.Charge, Payment.Refund, Inventory.Release, Orders.UpdateStatus;
  }

  /** What that leaves of the phases of an affordable order's sagas. */
  lemma SolventPhases(t: Thread)
    requires CallsFit(t) && Plain(t) && Solvent(t) && t.HasSaga() && t.order.total <= Payment.LIMIT
    ensures !t.phase.RefundProbe? && !t.phase.RefundLock? && !t.phase.ReleaseProbe? && !t.phase.ReleaseLock?
    ensures t.phase.Cancel? || t.phase.Compensated? <==> Declined(t.reserve)
    ensures t.phase.Completed? ==> t.reserve.Succeeded() && t.charge.Succeeded() && t.confirm.TookEffect()
  {
  }

  /** Only a Reserve that finds neither key nor stock is declined. */
  lemma WhyDeclined(w: World, t: Thread, l: Luck)
    requires CallsFit(t) && l.out.Delivered?
    ensures var d := Proceed(w, t, l);
            Declined(d.thread.reserve) && !Declined(t.reserve) ==>
              && t.HasSaga() && d.effect.Nothing? && d.thread.order == t.order
              && (t.key != "" ==> !Inventory.KeyInUse(w.inventory.reservations, t.key))
              && !Inventory.CanReserve(w.inventory.stock, StockLines(t.order.items))
    ensures var d := Proceed(w, t, l);
            Declined(t.reserve) ==> d.thread.reserve == t.reserve && d.thread.order == t.order && d.thread.HasSaga()
  {
    hide CreateFor, Inventory.CanReserve, StockLines;
    if t.phase.ReserveProbe? || t.phase.ReserveLock? {
    } else if t.HasSaga() {
      PastReserve(w, t, l);
      ProceedKeepsSaga(w, t, l);
      hide Proceed;
    } else {
      CreationKeepsCalls(w, t, l);
      hide Proceed;
    }
  }

  // The invariant of a run without faults whose requests carry no risk

  ghost predicate AllPlain(w: World) {
    forall id :: id in w.threads ==> Plain(w.threads[id]) && Solvent(w.threads[id])
  }

  predicate Cheap(w: World, o: string) {
    o in w.orders && w.orders[o].total <= Payment.LIMIT
  }

  /** Nothing taken for an affordable order is ever given back. */
  ghost predicate NothingReturned(w: World) {
    forall r, o :: Cheap(w, o) ==> !EverReturned(w.history, r, o)
  }

  ghost predicate DeclinedFor(w: World, id: string, o: string) {
    id in w.threads && w.threads[id].HasSaga() && w.threads[id].order.id == o && Declined(w.threads[id].reserve)
  }

  /** Only declined goods cancel an affordable order. */
  ghost predicate CancelsExplained(w: World) {
    forall o :: Cheap(w, o) && EverCancelled(w.history, o) ==> exists id :: DeclinedFor(w, id, o)
  }

  /** Some requests squeezed this one out of the stock, and the affordable ones among them still hold theirs. */
  ghost predicate Evidence(w: World, initial: map<string, int>, id: string, hs: set<string>)
    requires id in w.threads
  {
    && hs <= Asked(w).Keys
    && Squeezes(Asked(w), hs, initial, w.threads[id].key, StockLines(w.threads[id].order.items))
    && Affordables(Asked(w), hs) <= Holders(w)
  }

  ghost predicate DeclineExplained(w: World, initial: map<string, int>, id: string) {
    id in w.threads && w.threads[id].key != "" && DeclinedFor(w, id, w.threads[id].order.id)
    && Cheap(w, w.threads[id].order.id) ==>
      !EverTaken(w.history, Goods, w.threads[id].order.id) && exists hs :: Evidence(w, initial, id, hs)
  }

  ghost predicate Calm(w: World, initial: map<string, int>) {
    && AllPlain(w) && NothingReturned(w) && CancelsExplained(w)
    && (forall id :: DeclineExplained(w, initial, id))
  }

  // Moves keep it

  /** A flawless move of a thread: what the parts of the invariant need to know of it. */
  ghost predicate Smoothly(w: World, id: string, l: Luck, initial: map<string, int>) {
    Plainly(w, id, l, initial) && Calm(w, initial)
  }

  ghost predicate Plainly(w: World, id: string, l: Luck, initial: map<string, int>) {
    && Enabled(w, Move(id, l)) && FlawlessAction(Move(id, l))
    && Inv(w, initial) && AllPlain(w)
  }

  lemma TotalsAgree(w: World, id: string)
    requires SagasOk(w) && id in w.threads && w.threads[id].HasSaga()
    ensures var t := w.threads[id];
            && t.order.id in w.orders && w.orders[t.order.id].total == t.order.total
            && w.orders[t.order.id].items == t.order.items && w.orders[t.order.id].key == t.key
  {
    assert SagaFits(w.threads[id], w.orders);
  }

  lemma MoveKeepsPlain(w: World, id: string, l: Luck, initial: map<string, int>)
    requires Plainly(w, id, l, initial)
    ensures AllPlain(MoveThread(w, id, l))
  {
    hide Proceed, Perform, Plain, Solvent, OrdersOk, SagasOk, CreatorsOk, CallsFit, BooksOk, NoOverwrite, BackedOk;
    hide StatusesOk;
    hide Inventory.Conserved;
    var t := w.threads[id];
    assert CallsFit(t) && Plain(t) && Solvent(t);
    if t.HasSaga() { TotalsAgree(w, id); }
    ProceedStaysPlain(w, t, l);
    ProceedStaysSolvent(w, t, l);
    PerformKeepsThreads(w, id, Decide(w, t, l).effect, l);
  }

  /** An affordable order's saga gives nothing back. */
  lemma NoReturns(w: World, id: string, l: Luck, initial: map<string, int>)
    requires Plainly(w, id, l, initial)
    ensures var t := w.threads[id];
            var e := Decide(w, t, l).effect;
            && Allowed(w, t, e, l)
            && (e.ReturnStock? || e.ReturnMoney? ==> t.order.id in w.orders && !Cheap(w, t.order.id))
            && (e == WriteStatus(Orders.CANCELLED) && Cheap(w, t.order.id) ==> DeclinedFor(w, id, t.order.id))
  {
    hide Decide, OrdersOk, SagasOk, CreatorsOk, CallsFit, BooksOk, NoOverwrite, BackedOk, StatusesOk, Solvent;
    hide Inventory.Conserved;
    var t := w.threads[id];
    assert CallsFit(t) && Plain(t) && Solvent(t);
    Guards(w, id, l);
    AllowedFits(w, id, Decide(w, t, l).effect, l);
    if t.HasSaga() {
      TotalsAgree(w, id);
      if t.order.total <= Payment.LIMIT { SolventPhases(t); }
    }
  }

  lemma StepKeepsPlain(w: World, a: Action, initial: map<string, int>)
    requires Enabled(w, a) && FlawlessAction(a) && Inv(w, initial) && AllPlain(w)
    ensures AllPlain(Apply(w, a))
  {
    hide MoveThread, Inv, Plain, Solvent;
    match a
    case Submit(id, key, customer, items) => { NewIsPlain(NewThread(key, customer, items)); }
    case Move(id, l) => { MoveKeepsPlain(w, id, l, initial); }
    case Forget(_) => {}
  }

  lemma NewIsPlain(t: Thread)
    requires t == NewThread(t.key, t.customer, t.items)
    ensures Plain(t) && Solvent(t)
  {
  }

  lemma {:induction false} RunStaysPlain(worlds: seq<World>, actions: seq<Action>, initial: map<string, int>, i: nat)
    requires IsRun(worlds, actions, initial) && i < |worlds| && Flawless(actions)
    ensures AllPlain(worlds[i])
  {
    hide Inv, AllPlain, Apply, Enabled, FlawlessAction;
    if i == 0 {
      assert Init(worlds[0], initial);
      PlainAtFirst(worlds[0], initial);
    } else {
      hide Init;
      var w, a := worlds[i - 1], actions[i - 1];
      assert Follows(w, a, worlds[i]) && a in actions;
      RunStaysPlain(worlds, actions, initial, i - 1);
      RunKeepsInv(worlds, actions, initial, i - 1);
      StepKeepsPlain(w, a, initial);
    }
  }

  lemma PlainAtFirst(w: World, initial: map<string, int>)
    requires Init(w, initial)
    ensures AllPlain(w)
  {
  }

  lemma MoveReturnsNothing(w: World, id: string, l: Luck, initial: map<string, int>)
    requires Plainly(w, id, l, initial) && NothingReturned(w)
    ensures NothingReturned(MoveThread(w, id, l))
  {
    hide Decide, Perform, StoreOk, CreateCacheOk, SagasOk, CreatorsOk, CallsOk, NoOverwrite, BackedOk, StatusesOk;
    hide Inventory.Conserved, AllPlain, Allowed;
    var e := Decide(w, w.threads[id], l).effect;
    var w' := Perform(w, id, e, l);
    NoReturns(w, id, l, initial);
    PerformTouches(w, id, e, l);
    PerformKeepsOrders(w, id, e, l);
    forall r, o | Cheap(w', o)
      ensures !EverReturned(w'.history, r, o)
    {
      if o in w.orders {
        assert w'.orders[o].(status := w.orders[o].status) == w.orders[o];
      } else {
        NeverReturnedFor(w.history, w.orders, r, o);
      }
    }
  }

  lemma {:induction false} NeverReturnedFor(h: History, orders: map<string, Orders.Order>, r: Resource, o: string)
    requires EventsOk(h, orders) && o !in orders
    ensures !EverReturned(h, r, o)
  {
    if h.Then? { NeverReturnedFor(h.before, orders, r, o); }
  }

  lemma StepReturnsNothing(w: World, a: Action, initial: map<string, int>)
    requires Enabled(w, a) && FlawlessAction(a) && Inv(w, initial) && AllPlain(w) && NothingReturned(w)
    ensures NothingReturned(Apply(w, a))
  {
    hide MoveThread, Inv, AllPlain;
    if a.Move? { MoveReturnsNothing(w, a.thread, a.luck, initial); }
  }

  /** In a run without faults, whatever its requests, nothing affordable is given back. */
  lemma {:induction false} RunReturnsNothing(worlds: seq<World>, actions: seq<Action>, initial: map<string, int>,
                                             i: nat)
    requires IsRun(worlds, actions, initial) && i < |worlds| && Flawless(actions)
    ensures NothingReturned(worlds[i])
  {
    hide Inv, AllPlain, NothingReturned, Apply, Enabled, FlawlessAction;
    if i == 0 {
      assert Init(worlds[0], initial);
      NothingAtFirst(worlds[0], initial);
    } else {
      hide Init;
      var w, a := worlds[i - 1], actions[i - 1];
      assert Follows(w, a, worlds[i]) && a in actions;
      RunReturnsNothing(worlds, actions, initial, i - 1);
      RunStaysPlain(worlds, actions, initial, i - 1);
      RunKeepsInv(worlds, actions, initial, i - 1);
      StepReturnsNothing(w, a, initial);
    }
  }

  lemma NothingAtFirst(w: World, initial: map<string, int>)
    requires Init(w, initial)
    ensures NothingReturned(w)
  {
  }

  lemma PerformCancels(w: World, id: string, e: Effect, l: Luck)
    requires id in w.threads && Allowed(w, w.threads[id], e, l)
    ensures forall o :: EverCancelled(Perform(w, id, e, l).history, o)
                   <==> || EverCancelled(w.history, o)
                        || (e == WriteStatus(Orders.CANCELLED) && o == w.threads[id].order.id)
  {
    hide ReserveFor, CreateFor;
  }

  /** Declined once, declined for good. */
  lemma DeclinedStays(w: World, id: string, l: Luck, initial: map<string, int>, x: string, o: string)
    requires Smoothly(w, id, l, initial) && DeclinedFor(w, x, o)
    ensures DeclinedFor(MoveThread(w, id, l), x, o)
  {
    hide Proceed, Perform, Inv, Calm, CallsFit;
    assert CallsFit(w.threads[id]) by { InvCalls(w, id, initial); }
    WhyDeclined(w, w.threads[id], l);
    PerformKeepsThreads(w, id, Decide(w, w.threads[id], l).effect, l);
  }

  lemma InvCalls(w: World, id: string, initial: map<string, int>)
    requires Inv(w, initial) && id in w.threads
    ensures CallsFit(w.threads[id])
  {
  }

  lemma MoveExplainsCancels(w: World, id: string, l: Luck, initial: map<string, int>)
    requires Smoothly(w, id, l, initial)
    ensures CancelsExplained(MoveThread(w, id, l))
  {
    hide Decide, Perform, StoreOk, CreateCacheOk, SagasOk, CreatorsOk, CallsOk, NoOverwrite, BackedOk, StatusesOk;
    hide Inventory.Conserved, AllPlain, NothingReturned, DeclineExplained, DeclinedFor;
    var t := w.threads[id];
    var e := Decide(w, t, l).effect;
    var w' := Perform(w, id, e, l);
    NoReturns(w, id, l, initial);
    PerformCancels(w, id, e, l);
    PerformKeepsOrders(w, id, e, l);
    forall o | Cheap(w', o) && EverCancelled(w'.history, o)
      ensures exists x :: DeclinedFor(MoveThread(w, id, l), x, o)
    {
      if o !in w.orders { NoStatusYet(w.history, w.orders, o); }
      assert o in w.orders;
      assert w'.orders[o].(status := w.orders[o].status) == w.orders[o];
      var x :| DeclinedFor(w, x, o);
      DeclinedStays(w, id, l, initial, x, o);
    }
  }

  /** The request set only grows, and its demands with it. */
  lemma EvidenceCarries(w: World, w': World, initial: map<string, int>, x: string, hs: set<string>)
    requires x in w.threads && Evidence(w, initial, x, hs)
    requires Overselling.RequestsKept(w, w') && x in w'.threads
    requires w'.threads[x].key == w.threads[x].key && w'.threads[x].order == w.threads[x].order
    requires Affordables(Asked(w), hs) <= Holders(w')
    ensures Evidence(w', initial, x, hs)
  {
    hide Demand, Inventory.CanReserve, Affordable, Request.Lines, Holders;
    forall h | h in w.threads
      ensures h in Asked(w') && Asked(w')[h] == Asked(w)[h]
    {
      assert Overselling.SameRequest(w.threads[h], w'.threads[h]);
    }
    forall p | p in initial
      ensures Demand(Asked(w'), hs, p) == Demand(Asked(w), hs, p)
    {
      SameDemand(Asked(w), Asked(w'), hs, p);
    }
    assert Left(Asked(w'), hs, initial) == Left(Asked(w), hs, initial);
    assert Affordables(Asked(w'), hs) == Affordables(Asked(w), hs);
  }

  lemma HolderIsCheap(w: World, h: string)
    requires StoreOk(w.orders) && CreatorsOk(w) && BooksOk(w) && IsHolder(w, h) && Affordable(Asked(w)[h])
    ensures Cheap(w, w.threads[h].order.id)
  {
    hide EventsOk, Narrow, Total;
    var o := w.threads[h].order.id;
    assert o in w.orders && MadeOrder(w.threads[h], o, w.orders[o]);
    OrderTotal(w, o);
  }

  /** An affordable holder keeps holding. */
  lemma HolderStays(w: World, id: string, l: Luck, initial: map<string, int>, h: string)
    requires Smoothly(w, id, l, initial) && h in Holders(w) && Affordable(Asked(w)[h])
    ensures h in Holders(MoveThread(w, id, l))
  {
    hide Decide, Perform, StoreOk, CreateCacheOk, SagasOk, CallsFit, CreatorsOk, BooksOk, NoOverwrite, BackedOk;
    hide StatusesOk;
    hide Inventory.Conserved, AllPlain, NothingReturned, CancelsExplained, DeclineExplained, Allowed, Affordable;
    var t := w.threads[id];
    var e := Decide(w, t, l).effect;
    var o := w.threads[h].order.id;
    assert CallsFit(t);
    NoReturns(w, id, l, initial);
    HolderIsCheap(w, h);
    ReservationStays(w, id, e, l, o);
    MoveShape(w, id, l);
    MadeStays(w, id, l, o);
  }

  lemma OrderTotal(w: World, o: string)
    requires StoreOk(w.orders) && o in w.orders
    ensures w.orders[o].total == Total(w.orders[o].items)
  {
  }

  lemma ReservationStays(w: World, id: string, e: Effect, l: Luck, o: string)
    requires id in w.threads && o in w.inventory.reservations && (e.ReturnStock? ==> o != w.threads[id].order.id)
    ensures o in Perform(w, id, e, l).inventory.reservations
  {
    hide CreateFor;
  }

  /** A thread that has made an order is not given another. */
  lemma MadeStays(w: World, id: string, l: Luck, o: string)
    requires Enabled(w, Move(id, l)) && CallsOk(w) && CreatorsOk(w) && o in w.orders
    ensures var h, w' := w.creators[o], MoveThread(w, id, l); h in w'.threads && w'.threads[h].order.id == o
  {
    hide Decide, Perform, CallsFit, Narrow;
    var h := w.creators[o];
    assert MadeOrder(w.threads[h], o, w.orders[o]) && CallsFit(w.threads[id]);
    PerformKeepsThreads(w, id, Decide(w, w.threads[id], l).effect, l);
    if h == id {
      DecisionKeepsMaker(w, id, l, o, w.orders[o]);
    }
  }

  /** What a holder asked for fits the stock, under a key in use; a key has one holder. */
  lemma HolderFits(w: World, initial: map<string, int>, h: string)
    requires CreatorsOk(w) && BooksOk(w) && TakenFit(w, initial) && IsHolder(w, h)
    ensures var o := w.threads[h].order.id;
            && o in w.orders && w.orders[o].key == w.threads[h].key
            && w.inventory.reservations[o].key == w.threads[h].key
    ensures h in Asked(w) && Inventory.CanReserve(initial, Asked(w)[h].Lines())
  {
    hide EventsOk, Inventory.CanReserve, Narrow, StockLines;
    var o := w.threads[h].order.id;
    HolderOf(w, o);
    HoldsWasTaken(w.history, Goods, o);
    assert Inventory.CanReserve(initial, StockLines(w.orders[o].items));
  }

  /** The moment a request is declined, those who hold goods are the evidence. */
  lemma EvidenceAtHand(w: World, initial: map<string, int>, x: string)
    requires Inv(w, initial) && TakenFit(w, initial) && x in w.threads && w.threads[x].key != ""
    requires forall p :: 0 <= Inventory.Level(w.inventory.stock, p)
                         == Inventory.Level(initial, p) - Inventory.Held(w.inventory.reservations, p)
    requires !Inventory.KeyInUse(w.inventory.reservations, w.threads[x].key)
    requires !Inventory.CanReserve(w.inventory.stock, StockLines(w.threads[x].order.items))
    ensures Evidence(w, initial, x, Holders(w))
  {
    hide CreateCacheOk, SagasOk, CallsOk, NoOverwrite, BackedOk, StatusesOk, CreatorsOk, BooksOk, Inventory.Held;
    hide Demand;
    hide Inventory.CanReserve, Narrow, StockLines, Affordable, Request.Lines, TakenFit;
    var hs := Holders(w);
    StockIsLeft(w, initial);
    forall h | h in hs
      ensures w.threads[h].key != w.threads[x].key && Inventory.CanReserve(initial, Asked(w)[h].Lines())
      ensures w.threads[h].order.id in w.orders && w.orders[w.threads[h].order.id].key == w.threads[h].key
    {
      HolderFits(w, initial, h);
    }
    forall h, h' | h in hs && h' in hs && w.threads[h].key == w.threads[h'].key != ""
      ensures h == h'
    {
      assert w.threads[h].order.id == w.threads[h'].order.id;
    }
    forall p | p in initial
      ensures Demand(Asked(w), hs, p) <= initial[p]
    {
      HeldIsDemanded(w, p);
    }
  }

  /** The facts about the stock that a risk is judged by. */
  ghost predicate Judged(w: World, initial: map<string, int>) {
    && AllSane(Asked(w)) && TakenFit(w, initial)
    && forall p :: 0 <= Inventory.Level(w.inventory.stock, p)
                   == Inventory.Level(initial, p) - Inventory.Held(w.inventory.reservations, p)
  }

  lemma JudgedParts(w: World, initial: map<string, int>)
    requires Judged(w, initial)
    ensures AllSane(Asked(w)) && TakenFit(w, initial)
    ensures forall p :: 0 <= Inventory.Level(w.inventory.stock, p)
                        == Inventory.Level(initial, p) - Inventory.Held(w.inventory.reservations, p)
  {
  }

  /** If goods are taken for an affordable order after one of its sagas was declined, the requests carried
      the risk of it. */
  lemma TakingAfterDecline(w: World, id: string, l: Luck, initial: map<string, int>, x: string, hs: set<string>)
    requires Enabled(w, Move(id, l)) && Inv(w, initial) && Judged(w, initial)
    requires Decide(w, w.threads[id], l).effect.TakeStock?
    requires x in w.threads && DeclinedFor(w, x, w.threads[id].order.id) && w.threads[x].key != ""
    requires Cheap(w, w.threads[id].order.id) && Evidence(w, initial, x, hs)
    ensures FaultlessRisk(Asked(w), initial)
  {
    hide Decide, CreateCacheOk, CallsFit, BooksOk, NoOverwrite, BackedOk, StatusesOk, Inventory.Conserved, TakenFit;
    hide Judged;
    hide Inventory.CanReserve, Inventory.Held, Inventory.Level, Narrow, StockLines, Total, FaultlessRisk, Affordables;
    var t, o := w.threads[id], w.threads[id].order.id;
    JudgedParts(w, initial);
    TakesAreNew(w, id, l);
    AllowedFits(w, id, TakeStock, l);
    TotalsAgree(w, x);
    TotalsAgree(w, id);
    TakerNotDeclined(w, id, l);
    var maker := w.creators[o];
    assert MadeOrder(w.threads[maker], o, w.orders[o]);
    StockNowServes(w, id, l, initial, hs);
    RiskyNow(w, maker, if maker == id then x else id, initial, hs, StockLines(t.order.items));
  }

  lemma EvidenceOf(w: World, initial: map<string, int>, x: string) returns (hs: set<string>)
    requires Calm(w, initial) && x in w.threads && w.threads[x].key != ""
    requires DeclinedFor(w, x, w.threads[x].order.id) && Cheap(w, w.threads[x].order.id)
    ensures Evidence(w, initial, x, hs) && !EverTaken(w.history, Goods, w.threads[x].order.id)
  {
    hide Evidence;
    assert DeclineExplained(w, initial, x);
    hs :| Evidence(w, initial, x, hs);
  }

  /** A thread that takes goods has not been declined. */
  lemma TakerNotDeclined(w: World, id: string, l: Luck)
    requires id in w.threads && Allowed(w, w.threads[id], TakeStock, l) && CallsOk(w)
    ensures !Declined(w.threads[id].reserve)
  {
    assert CallsFit(w.threads[id]);
  }

  lemma StockNowServes(w: World, id: string, l: Luck, initial: map<string, int>, hs: set<string>)
    requires id in w.threads && Allowed(w, w.threads[id], TakeStock, l) && AllSane(Asked(w))
    requires BooksOk(w) && CreatorsOk(w) && Inventory.Conserved(w.inventory, initial)
    requires forall p :: 0 <= Inventory.Level(w.inventory.stock, p)
                         == Inventory.Level(initial, p) - Inventory.Held(w.inventory.reservations, p)
    requires hs <= Asked(w).Keys
    requires Affordables(Asked(w), hs) <= Holders(w)
    ensures Relieved(Asked(w), hs, initial, StockLines(w.threads[id].order.items))
  {
    hide BooksOk, CreatorsOk, AllSane, Demand, Affordables, Holders, StockLines, Inventory.Held;
    StockIsLeft(w, initial);
    LeftOfPart(Asked(w), Holders(w), Affordables(Asked(w), hs), initial, StockLines(w.threads[id].order.items));
  }

  lemma RiskyNow(w: World, maker: string, other: string, initial: map<string, int>, hs: set<string>,
                 lines: seq<StockLine>)
    requires maker in w.threads && other in w.threads && maker != other
    requires w.threads[maker].key == w.threads[other].key != "" && Asked(w)[maker].Lines() == lines
    requires Affordable(Asked(w)[maker]) && AllSane(Asked(w)) && hs <= Asked(w).Keys
    requires Squeezes(Asked(w), hs, initial, w.threads[maker].key, lines) && Relieved(Asked(w), hs, initial, lines)
    ensures FaultlessRisk(Asked(w), initial)
  {
    hide Inventory.CanReserve, Demand, Affordable, AllSane, Request.Lines;
    var left := Left(Asked(w), Affordables(Asked(w), hs), initial);
    forall p ensures Inventory.Level(left, p) <= Inventory.Level(initial, p) {
      DemandOfPart(Asked(w), hs, Affordables(Asked(w), hs), p);
    }
    LessStockLessServed(left, initial, lines);
    assert SqueezedPair(Asked(w), initial, maker, other, hs);
  }

  lemma MoveKeepsRequests(w: World, id: string, l: Luck)
    requires Enabled(w, Move(id, l))
    ensures Overselling.RequestsKept(w, MoveThread(w, id, l)) && MoveThread(w, id, l).threads.Keys == w.threads.Keys
  {
    hide Decide, Perform;
    Overselling.StepKeepsRequests(w, Move(id, l));
    PerformKeepsThreads(w, id, Decide(w, w.threads[id], l).effect, l);
  }

  lemma HoldersStay(w: World, id: string, l: Luck, initial: map<string, int>, hs: set<string>)
    requires Smoothly(w, id, l, initial) && hs <= Asked(w).Keys && Affordables(Asked(w), hs) <= Holders(w)
    ensures Affordables(Asked(w), hs) <= Holders(MoveThread(w, id, l))
  {
    hide Inv, Calm, MoveThread, Holders, Affordable;
    forall h | h in Affordables(Asked(w), hs)
      ensures h in Holders(MoveThread(w, id, l))
    {
      HolderStays(w, id, l, initial, h);
    }
  }

  /** A thread newly declined: the evidence is at hand, and it carries over the move. */
  lemma NewDeclineExplained(w: World, id: string, l: Luck, initial: map<string, int>)
    requires Smoothly(w, id, l, initial) && Judged(w, initial) && w.threads[id].key != ""
    requires !Declined(w.threads[id].reserve) && Declined(MoveThread(w, id, l).threads[id].reserve)
    requires Cheap(w, w.threads[id].order.id)
    ensures DeclineExplained(MoveThread(w, id, l), initial, id)
  {
    hide Proceed, Perform, StoreOk, CreateCacheOk, SagasOk, CallsFit, NoOverwrite, BackedOk, StatusesOk, EventsOk;
    hide Inventory.Conserved, AllPlain, CancelsExplained, Evidence, Judged, Narrow, StockLines, Inventory.CanReserve;
    hide CreatorsOk;
    var t := w.threads[id];
    var d := Decide(w, t, l);
    var w' := MoveThread(w, id, l);
    assert CallsFit(t);
    WhyDeclined(w, t, l);
    PerformShape(w, id, Nothing, l);
    assert Perform(w, id, Nothing, l) == w;
    assert w' == Put(w, id, d.thread);
    JudgedParts(w, initial);
    TotalsAgree(w, id);
    EvidenceAtHand(w, initial, id);
    NotTakenYet(w, initial, id);
    MoveKeepsRequests(w, id, l);
    EvidenceCarriesOver(w, id, l, initial, id, Holders(w));
  }

  /** If the key of an affordable order is not in use, its goods have never been taken. */
  lemma NotTakenYet(w: World, initial: map<string, int>, id: string)
    requires Inv(w, initial) && NothingReturned(w) && id in w.threads && w.threads[id].HasSaga()
    requires Cheap(w, w.threads[id].order.id) && w.threads[id].key != ""
    requires !Inventory.KeyInUse(w.inventory.reservations, w.threads[id].key)
    ensures !EverTaken(w.history, Goods, w.threads[id].order.id)
  {
    hide OrdersOk, CreatorsOk, CallsOk, NoOverwrite, BackedOk, StatusesOk, EventsOk, Inventory.Conserved;
    var o := w.threads[id].order.id;
    TotalsAgree(w, id);
    if EverTaken(w.history, Goods, o) {
      AlternationBalances(w.history, Goods, o);
    }
  }

  lemma EvidenceCarriesOver(w: World, id: string, l: Luck, initial: map<string, int>, x: string, hs: set<string>)
    requires Smoothly(w, id, l, initial) && x in w.threads && Evidence(w, initial, x, hs)
    requires var w' := MoveThread(w, id, l); x in w'.threads && w'.threads[x].order == w.threads[x].order
    ensures Evidence(MoveThread(w, id, l), initial, x, hs)
  {
    hide MoveThread, Inv, Calm, Squeezes, Affordables, Holders;
    MoveKeepsRequests(w, id, l);
    assert Overselling.SameRequest(w.threads[x], MoveThread(w, id, l).threads[x]);
    HoldersStay(w, id, l, initial, hs);
    EvidenceCarries(w, MoveThread(w, id, l), initial, x, hs);
  }

  /** A thread declined earlier. */
  lemma OldDeclineExplained(w: World, id: string, l: Luck, initial: map<string, int>, x: string)
    requires Smoothly(w, id, l, initial) && Judged(w, initial) && x in w.threads && w.threads[x].key != ""
    requires w.threads[x].HasSaga() && Declined(w.threads[x].reserve) && Cheap(w, w.threads[x].order.id)
    requires !FaultlessRisk(Asked(w), initial)
    ensures DeclineExplained(MoveThread(w, id, l), initial, x)
  {
    hide FaultlessRisk, Decide, Perform, Inv, AllPlain, NothingReturned, CancelsExplained, Evidence, Judged;
    var t := w.threads[id];
    var o := w.threads[x].order.id;
    var e := Decide(w, t, l).effect;
    assert DeclinedFor(w, x, o);
    DeclinedStays(w, id, l, initial, x, o);
    OrderStays(w, id, l, initial, x);
    PerformTouches(w, id, e, l);
    var hs := EvidenceOf(w, initial, x);
    if e.TakeStock? && t.order.id == o {
      TakingAfterDecline(w, id, l, initial, x, hs);
    }
    EvidenceCarriesOver(w, id, l, initial, x, hs);
  }

  lemma OrderStays(w: World, id: string, l: Luck, initial: map<string, int>, x: string)
    requires Enabled(w, Move(id, l)) && Inv(w, initial) && x in w.threads && w.threads[x].HasSaga()
    ensures x in MoveThread(w, id, l).threads && MoveThread(w, id, l).threads[x].order == w.threads[x].order
    ensures MoveThread(w, id, l).threads[x].HasSaga()
  {
    hide Decide, Perform, Inv, CallsFit;
    InvCalls(w, id, initial);
    Guards(w, id, l);
    PerformKeepsThreads(w, id, Decide(w, w.threads[id], l).effect, l);
    hide Allowed;
  }

  lemma CheapEarlier(w: World, id: string, l: Luck, initial: map<string, int>, o: string)
    requires Enabled(w, Move(id, l)) && Inv(w, initial) && o in w.orders && Cheap(MoveThread(w, id, l), o)
    ensures Cheap(w, o)
  {
    hide Decide, Perform, CreateCacheOk, StoreOk, SagasOk, CreatorsOk, CallsFit, BooksOk, NoOverwrite, BackedOk;
    hide StatusesOk;
    assert CallsFit(w.threads[id]);
    var e := Decide(w, w.threads[id], l).effect;
    Guards(w, id, l);
    PerformKeepsOrders(w, id, e, l);
    assert Perform(w, id, e, l).orders[o].(status := w.orders[o].status) == w.orders[o];
    hide Allowed;
  }

  lemma MoveExplainsDeclines(w: World, id: string, l: Luck, initial: map<string, int>, x: string)
    requires Smoothly(w, id, l, initial) && Judged(w, initial)
    requires !FaultlessRisk(Asked(w), initial)
    ensures DeclineExplained(MoveThread(w, id, l), initial, x)
  {
    hide FaultlessRisk, MoveThread, Calm, Judged, Inv, Evidence;
    var w' := MoveThread(w, id, l);
    MoveKeepsRequests(w, id, l);
    if x in w'.threads && w'.threads[x].key != "" && DeclinedFor(w', x, w'.threads[x].order.id)
       && Cheap(w', w'.threads[x].order.id) {
      var t' := w'.threads[x];
      assert Overselling.SameRequest(w.threads[x], t');
      DeclinedHadSaga(w, id, l, initial, x);
      OrderStays(w, id, l, initial, x);
      CheapEarlier(w, id, l, initial, t'.order.id);
      if Declined(w.threads[x].reserve) {
        OldDeclineExplained(w, id, l, initial, x);
      } else {
        NewDeclineExplained(w, id, l, initial);
      }
    }
  }

  lemma DeclinedHadSaga(w: World, id: string, l: Luck, initial: map<string, int>, x: string)
    requires Smoothly(w, id, l, initial) && x in w.threads && x in MoveThread(w, id, l).threads
    requires Declined(MoveThread(w, id, l).threads[x].reserve)
    ensures w.threads[x].HasSaga() && w.threads[x].order.id in w.orders
    ensures !Declined(w.threads[x].reserve) ==> x == id
  {
    hide Proceed, Perform, OrdersOk, CreatorsOk, PhaseFits, BooksOk, NoOverwrite, BackedOk, StatusesOk, Calm;
    hide Inventory.Conserved;
    var t := w.threads[id];
    assert CallsFit(t) && CallsFit(w.threads[x]);
    WhyDeclined(w, t, l);
    PerformKeepsThreads(w, id, Decide(w, t, l).effect, l);
    DeclinedHasSaga(w.threads[x]);
    if w.threads[x].HasSaga() { assert SagaFits(w.threads[x], w.orders); }
  }

  lemma DeclinedHasSaga(t: Thread)
    requires CallsFit(t)
    ensures Declined(t.reserve) ==> t.HasSaga()
  {
  }

  // Runs keep it

  lemma MoveKeepsCalm(w: World, id: string, l: Luck, initial: map<string, int>)
    requires Smoothly(w, id, l, initial) && Judged(w, initial)
    requires !FaultlessRisk(Asked(w), initial)
    ensures Calm(MoveThread(w, id, l), initial)
  {
    hide FaultlessRisk, MoveThread, Inv, Judged, AllPlain, NothingReturned, CancelsExplained, DeclineExplained;
    MoveKeepsPlain(w, id, l, initial);
    MoveReturnsNothing(w, id, l, initial);
    MoveExplainsCancels(w, id, l, initial);
    forall x
      ensures DeclineExplained(MoveThread(w, id, l), initial, x)
    {
      MoveExplainsDeclines(w, id, l, initial, x);
    }
  }

  lemma SubmitKeepsCalm(w: World, id: string, t: Thread, initial: map<string, int>)
    requires Calm(w, initial) && id !in w.threads && t == NewThread(t.key, t.customer, t.items)
    ensures Calm(Put(w, id, t), initial)
  {
    hide Evidence, Solvent;
    var w' := Put(w, id, t);
    NewIsPlain(t);
    forall o | Cheap(w', o) && EverCancelled(w'.history, o)
      ensures exists x :: DeclinedFor(w', x, o)
    {
      assert Cheap(w, o);
      var x :| DeclinedFor(w, x, o);
      assert DeclinedFor(w', x, o);
    }
    forall x
      ensures DeclineExplained(w', initial, x)
    {
      assert DeclineExplained(w, initial, x);
      if hs :| x in w.threads && Evidence(w, initial, x, hs) {
        HoldersAfterSubmit(w, id, t, initial, x, hs);
        EvidenceCarries(w, w', initial, x, hs);
      }
    }
  }

  lemma HoldersAfterSubmit(w: World, id: string, t: Thread, initial: map<string, int>, x: string, hs: set<string>)
    requires id !in w.threads && x in w.threads && Evidence(w, initial, x, hs)
    ensures hs <= Asked(w).Keys && Affordables(Asked(w), hs) <= Holders(Put(w, id, t))
  {
    hide Squeezes, Affordables;
    assert Holders(w) <= Holders(Put(w, id, t));
  }

  lemma StepKeepsCalm(w: World, a: Action, initial: map<string, int>)
    requires Enabled(w, a) && FlawlessAction(a) && Inv(w, initial) && Calm(w, initial) && Judged(w, initial)
    requires !FaultlessRisk(Asked(w), initial)
    ensures Calm(Apply(w, a), initial)
  {
    hide FaultlessRisk, MoveThread, Inv, Judged, AllPlain, NothingReturned, CancelsExplained, DeclineExplained;
    match a
    case Submit(id, key, customer, items) => { SubmitKeepsCalm(w, id, NewThread(key, customer, items), initial); }
    case Move(id, l) => { MoveKeepsCalm(w, id, l, initial); }
    case Forget(_) => {}
  }

  lemma AskedGrows(w: World, w': World)
    requires Overselling.RequestsKept(w, w')
    ensures Asked(w).Keys <= Asked(w').Keys && forall q :: q in Asked(w) ==> Asked(w')[q] == Asked(w)[q]
  {
    forall q | q in Asked(w) ensures q in Asked(w') && Asked(w')[q] == Asked(w)[q] {
      assert Overselling.SameRequest(w.threads[q], w'.threads[q]);
    }
  }

  lemma JudgedEarlier(w: World, w': World, initial: map<string, int>)
    requires Overselling.RequestsKept(w, w') && AllSane(Asked(w')) && !FaultlessRisk(Asked(w'), initial)
    ensures AllSane(Asked(w)) && !FaultlessRisk(Asked(w), initial)
  {
    hide FaultlessRisk, Request.Sane;
    AskedGrows(w, w');
    RiskGrows(Asked(w), Asked(w'), initial);
  }

  lemma RunIsJudged(worlds: seq<World>, actions: seq<Action>, initial: map<string, int>, i: nat)
    requires IsRun(worlds, actions, initial) && i < |worlds| && Overselling.SaneStart(initial)
    requires AllSane(Asked(worlds[i])) && !FaultlessRisk(Asked(worlds[i]), initial)
    ensures Judged(worlds[i], initial)
  {
    hide IsRun, FaultlessRisk, AllSane, Overselling.SaneRequests, TakenFit, Overselling.SaneStart, Inventory.Held;
    hide Inventory.Level;
    AskedIsSane(worlds[i]);
    RunTakesWhatFits(worlds, actions, initial, i);
    forall p ensures 0 <= Inventory.Level(worlds[i].inventory.stock, p)
                          == Inventory.Level(initial, p) - Inventory.Held(worlds[i].inventory.reservations, p)
    {
      Overselling.NeverOversold(worlds, actions, initial, i, p);
    }
  }

  lemma CalmAtFirst(w: World, initial: map<string, int>)
    requires Init(w, initial)
    ensures Calm(w, initial)
  {
  }

  lemma {:induction false} RunStaysCalm(worlds: seq<World>, actions: seq<Action>, initial: map<string, int>, i: nat)
    requires IsRun(worlds, actions, initial) && i < |worlds| && Flawless(actions) && Overselling.SaneStart(initial)
    requires AllSane(Asked(worlds[i])) && !FaultlessRisk(Asked(worlds[i]), initial)
    ensures Calm(worlds[i], initial)
  {
    hide Inv, Calm, Apply, Enabled, FlawlessAction, FaultlessRisk, AllSane, Overselling.SaneStart, Judged;
    hide Overselling.RequestsKept;
    if i == 0 {
      CalmAtFirst(worlds[0], initial);
    } else {
      hide Init;
      var w, a := worlds[i - 1], actions[i - 1];
      assert Follows(w, a, worlds[i]) && a in actions;
      Overselling.StepKeepsRequests(w, a);
      JudgedEarlier(w, worlds[i], initial);
      RunStaysCalm(worlds, actions, initial, i - 1);
      RunKeepsInv(worlds, actions, initial, i - 1);
      RunIsJudged(worlds, actions, initial, i - 1);
      StepKeepsCalm(w, a, initial);
    }
  }

  // What a calm world looks like at rest

  lemma PlainIsClean(t: Thread)
    requires Plain(t)
    ensures Clean(t) && t.confirm != Landed(true)
  {
  }

  lemma {:induction false} ConfirmedAtLast(h: History, o: string)
    requires EverConfirmed(h, o) && !EverCancelled(h, o)
    ensures StatusOf(h, o).CONFIRMED?
  {
    if h.last != Confirmed(o) { ConfirmedAtLast(h.before, o); }
  }

  /** An affordable order whose goods were ever taken, once all is at rest, has them and is paid and confirmed. */
  lemma TakenIsWhole(w: World, initial: map<string, int>, o: string)
    requires Inv(w, initial) && Calm(w, initial) && Quiescent(w)
    requires Cheap(w, o) && w.orders[o].key != "" && EverTaken(w.history, Goods, o)
    ensures Atomic(w, o)
  {
    hide CreateCacheOk, StoreOk, NoOverwrite, EventsOk, CachesBacked, Inventory.Conserved, PhaseFits, Narrow, Evidence;
    hide Solvent;
    var id := w.creators[o];
    var t := w.threads[id];
    assert MadeOrder(t, o, w.orders[o]) && CallsFit(t) && AtRest(t) && Plain(t) && Solvent(t);
    assert RepliesBacked(t, w.history) && StatusRecorded(t, w.history);
    MakerWithSaga(t);
    TotalsAgree(w, id);
    SolventPhases(t);
    if Declined(t.reserve) {
      var hs := EvidenceOf(w, initial, id);
    }
    if EverCancelled(w.history, o) {
      var x :| DeclinedFor(w, x, o);
      TotalsAgree(w, x);
      var hs := EvidenceOf(w, initial, x);
    }
    AlternationBalances(w.history, Goods, o);
    AlternationBalances(w.history, Money, o);
    ConfirmedAtLast(w.history, o);
  }

  lemma MakerWithSaga(t: Thread)
    requires CallsFit(t) && Plain(t) && t.create.TookEffect() && !t.phase.CreateProbe? && !t.phase.CreateLock?
    ensures t.HasSaga()
  {
  }

  /** The taken order of a shared key, if it is not affordable, is itself a risk. */
  lemma SharedTakenIsCheap(w: World, initial: map<string, int>, o: string)
    requires Inv(w, initial) && TakenFit(w, initial) && !FaultlessRisk(Asked(w), initial)
    requires o in w.orders && !Sole(w, w.orders[o].key) && EverTaken(w.history, Goods, o)
    ensures Cheap(w, o) && w.orders[o].key != ""
  {
    hide CreateCacheOk, SagasOk, CallsOk, BooksOk, NoOverwrite, BackedOk, StatusesOk, Inventory.Conserved, Narrow;
    hide StockLines, Total;
    hide Inventory.CanReserve, SqueezedPair;
    var maker := w.creators[o];
    assert MadeOrder(w.threads[maker], o, w.orders[o]);
    var key := w.orders[o].key;
    var a, b :| a in w.threads && b in w.threads && w.threads[a].key == key && w.threads[b].key == key && a != b;
    var other := if maker == a then b else a;
    assert Asked(w)[maker].Lines() == StockLines(w.orders[o].items);
    assert Affordable(Asked(w)[maker]) <==> Cheap(w, o);
    assert !OverLimitPair(Asked(w), initial, maker, other);
  }

  /** Every run without faults of requests without the risk ends with every order all or nothing, and
      the books to match. */
  lemma FaultlessIsAtomic(worlds: seq<World>, actions: seq<Action>, initial: map<string, int>, i: nat)
    requires IsRun(worlds, actions, initial) && i < |worlds| && Flawless(actions) && Overselling.SaneStart(initial)
    requires AllSane(Asked(worlds[i])) && !FaultlessRisk(Asked(worlds[i]), initial) && Quiescent(worlds[i])
    ensures AllClean(worlds[i]) && AllAtomic(worlds[i]) && SettledBooks(worlds[i], initial)
  {
    hide IsRun, Flawless, OrdersOk, SagasOk, CreatorsOk, CallsOk, BooksOk, NoOverwrite, BackedOk, StatusesOk;
    hide Inventory.Conserved;
    hide Sole, FaultlessRisk, AllSane, Quiescent, NothingReturned, CancelsExplained, DeclineExplained, Plain, Clean;
    hide Atomic;
    hide SettledBooks, TakenFit, Overselling.SaneStart;
    var w := worlds[i];
    RunKeepsInv(worlds, actions, initial, i);
    RunStaysCalm(worlds, actions, initial, i);
    RunIsJudged(worlds, actions, initial, i);
    forall id | id in w.threads
      ensures Clean(w.threads[id]) && w.threads[id].confirm != Landed(true)
    {
      PlainIsClean(w.threads[id]);
    }
    forall o | o in w.orders
      ensures Atomic(w, o)
    {
      if Sole(w, w.orders[o].key) {
        CleanOrderIsAtomic(worlds, actions, initial, i, o);
      } else if !EverTaken(w.history, Goods, o) {
        UntakenIsAtomic(w, initial, o);
      } else {
        SharedTakenIsCheap(w, initial, o);
        TakenIsWhole(w, initial, o);
      }
    }
    AtomicBooks(w, initial);
  }
}
