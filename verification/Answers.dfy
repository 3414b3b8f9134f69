/** What is stored of a request, and what a repeated one is answered. */
module Answers {
  import opened Options
  import opened Items
  import opened History
  import opened Protocol
  import opened Invariants
  import opened Safety
  import Inventory
  import Orders
  import Overselling

  /** Every order is what the thread that made it asked for, up to its status. */
  ghost predicate AsAsked(w: World) {
    forall o :: o in w.orders ==>
      && o in w.creators && w.creators[o] in w.threads
      && w.orders[o].(status := Orders.PENDING) == OrderOf(w.threads[w.creators[o]])
  }

  ghost predicate AllValid(w: World) {
    forall id :: id in w.threads ==> ValidRequest(w.threads[id].customer, w.threads[id].items)
  }

  /** The cache remembers orders as they were created. */
  ghost predicate CachedPending(w: World) {
    forall k :: k in w.caches.create ==> w.caches.create[k].status == Orders.PENDING
  }

  ghost predicate Stored(w: World) {
    AsAsked(w) && AllValid(w) && CachedPending(w)
  }

  lemma SameOrder(t: Thread, t': Thread)
    requires Overselling.SameRequest(t, t')
    ensures OrderOf(t') == OrderOf(t)
  {
  }

  lemma MoveStoresAsAsked(w: World, id: string, l: Luck)
    requires Enabled(w, Move(id, l)) && OrdersOk(w) && CallsOk(w) && AsAsked(w)
    ensures AsAsked(MoveThread(w, id, l))
  {
    hide Decide, Perform, CallsFit, OrdersOk, OrderOf;
    var t := w.threads[id];
    var e := Decide(w, t, l).effect;
    var w' := MoveThread(w, id, l);
    assert CallsFit(t);
    Guards(w, id, l);
    PerformShape(w, id, e, l);
    PerformKeepsThreads(w, id, e, l);
    if !e.MakeOrder? { StatusesOnly(w, id, e, l); }
    Overselling.StepKeepsRequests(w, Move(id, l));
    forall o | o in w'.orders
      ensures o in w'.creators && w'.creators[o] in w'.threads
      ensures w'.orders[o].(status := Orders.PENDING) == OrderOf(w'.threads[w'.creators[o]])
    {
      var maker := w'.creators[o];
      SameOrder(w.threads[maker], w'.threads[maker]);
      if e.MakeOrder? && o == l.uuid { NewOrderIsPending(t); }
    }
    hide Allowed;
  }

  lemma NewOrderIsPending(t: Thread)
    ensures OrderOf(t).(status := Orders.PENDING) == OrderOf(t) && OrderOf(t).status == Orders.PENDING
  {
  }

  lemma StatusesOnly(w: World, id: string, e: Effect, l: Luck)
    requires id in w.threads && Allowed(w, w.threads[id], e, l) && !e.MakeOrder?
    ensures var w' := Perform(w, id, e, l);
            w'.orders.Keys == w.orders.Keys
            && forall o :: o in w.orders ==> w'.orders[o].(status := w.orders[o].status) == w.orders[o]
  {
    hide ReserveFor;
  }

  lemma MoveCachesPending(w: World, id: string, l: Luck)
    requires Enabled(w, Move(id, l)) && CallsOk(w) && CachedPending(w)
    ensures CachedPending(MoveThread(w, id, l))
  {
    hide Decide, Perform, CallsFit, Allowed;
    var t := w.threads[id];
    assert CallsFit(t);
    Guards(w, id, l);
    PerformCachesPending(w, id, Decide(w, t, l).effect, l);
  }

  lemma PerformCachesPending(w: World, id: string, e: Effect, l: Luck)
    requires id in w.threads && CachedPending(w) && Allowed(w, w.threads[id], e, l)
    ensures CachedPending(Perform(w, id, e, l))
  {
    hide Orders.Create, ReserveFor, Narrow, StockLines;
    if e.MakeOrder? { var o := MakeOrderShape(w, w.threads[id], l); }
  }

  lemma StepStores(w: World, a: Action, initial: map<string, int>)
    requires Enabled(w, a) && Inv(w, initial) && Stored(w)
    ensures Stored(Apply(w, a))
  {
    hide MoveThread, StoreOk, CreateCacheOk, SagasOk, CreatorsOk, CallsFit, BooksOk, NoOverwrite, BackedOk, StatusesOk;
    hide Inventory.Conserved, OrderOf, ValidRequest;
    Overselling.StepKeepsRequests(w, a);
    match a
    case Submit(id, key, customer, items) => {}
    case Move(id, l) => {
      MoveStoresAsAsked(w, id, l);
      MoveCachesPending(w, id, l);
      MoveKeepsThreads(w, id, l);
      ValidStays(w, MoveThread(w, id, l));
    }
    case Forget(gone) => {}
  }

  lemma MoveKeepsThreads(w: World, id: string, l: Luck)
    requires Enabled(w, Move(id, l))
    ensures MoveThread(w, id, l).threads.Keys == w.threads.Keys
  {
    hide Decide, Perform;
    PerformKeepsThreads(w, id, Decide(w, w.threads[id], l).effect, l);
  }

  lemma ValidStays(w: World, w': World)
    requires AllValid(w) && Overselling.RequestsKept(w, w') && w'.threads.Keys == w.threads.Keys
    ensures AllValid(w')
  {
    hide ValidRequest;
    forall id | id in w'.threads ensures ValidRequest(w'.threads[id].customer, w'.threads[id].items) {
      assert Overselling.SameRequest(w.threads[id], w'.threads[id]);
    }
  }

  /** In every world of every run each order is what its maker asked for, every request has passed the
      gateway's checks, and cached orders are pending. */
  lemma {:induction false} RunStores(worlds: seq<World>, actions: seq<Action>, initial: map<string, int>, i: nat)
    requires IsRun(worlds, actions, initial) && i < |worlds|
    ensures Stored(worlds[i])
  {
    hide Inv, Apply, Enabled, AsAsked, AllValid, CachedPending;
    if i == 0 {
      assert Init(worlds[0], initial);
      StoredAtFirst(worlds[0], initial);
    } else {
      hide Init;
      var w, a := worlds[i - 1], actions[i - 1];
      assert Follows(w, a, worlds[i]);
      RunStores(worlds, actions, initial, i - 1);
      RunKeepsInv(worlds, actions, initial, i - 1);
      StepStores(w, a, initial);
    }
  }

  lemma StoredAtFirst(w: World, initial: map<string, int>)
    requires Init(w, initial)
    ensures Stored(w)
  {
  }

  // Prices

  /** Whatever the network does, every stored line names a product and has a price above zero, and every
      order has a customer. */
  lemma StoredPricesArePositive(worlds: seq<World>, actions: seq<Action>, initial: map<string, int>, i: nat, o: string)
    requires IsRun(worlds, actions, initial) && i < |worlds| && o in worlds[i].orders
    ensures var order := worlds[i].orders[o];
            && order.customer != "" && order.items != []
            && forall k :: 0 <= k < |order.items| ==> order.items[k].product != "" && order.items[k].price > 0.0
  {
    hide IsRun;
    RunStores(worlds, actions, initial, i);
    MakersOrder(worlds[i], o);
  }

  lemma MakersOrder(w: World, o: string)
    requires Stored(w) && o in w.orders
    ensures o in w.creators && w.creators[o] in w.threads
    ensures var t := w.threads[w.creators[o]];
            && ValidRequest(t.customer, t.items) && w.orders[o].customer == t.customer
            && w.orders[o].items == Narrow(t.items) && w.orders[o].total == Total(Narrow(t.items))
            && w.orders[o].key == t.key
  {
    hide ValidRequest, Narrow, Total;
  }

  /** Quantities that 32 bits can hold: the gateway does not check that. */
  ghost predicate AllFit(w: World) {
    forall id, k :: id in w.threads && 0 <= k < |w.threads[id].items| ==> w.threads[id].items[k].quantity < TWO_31
  }

  /** And then every stored total, and every payment on record, is above zero. */
  lemma AmountsArePositive(worlds: seq<World>, actions: seq<Action>, initial: map<string, int>, i: nat, o: string)
    requires IsRun(worlds, actions, initial) && i < |worlds| && AllFit(worlds[i])
    ensures o in worlds[i].orders ==> worlds[i].orders[o].total > 0.0
    ensures o in worlds[i].payments ==> worlds[i].payments[o] > 0.0
  {
    hide IsRun, OrdersOk, SagasOk, CreatorsOk, CallsOk, NoOverwrite, BackedOk, StatusesOk, Inventory.Conserved;
    hide EventsOk, Narrow, Total, Stored;
    RunStores(worlds, actions, initial, i);
    RunKeepsInv(worlds, actions, initial, i);
    if o in worlds[i].orders {
      MakersOrder(worlds[i], o);
      var items := worlds[i].threads[worlds[i].creators[o]].items;
      NarrowOnce(items);
      ValidIsPositive(items);
    }
  }

  // Answers

  /** A creation that the locked section answers carries the order as it stands at that moment: its
      customer, lines and total, and the last status written for it. */
  lemma AnswerTellsStatus(worlds: seq<World>, actions: seq<Action>, initial: map<string, int>, i: nat)
    requires IsRun(worlds, actions, initial) && i < |actions| && actions[i].Move? && actions[i].luck.late.None?
    requires actions[i].thread in worlds[i].threads && worlds[i].threads[actions[i].thread].phase.CreateLock?
    requires actions[i].thread in worlds[i + 1].threads && worlds[i + 1].threads[actions[i].thread].create.Answered?
    ensures var w', t' := worlds[i + 1], worlds[i + 1].threads[actions[i].thread];
            var o := t'.order.id;
            && o in w'.orders && w'.orders[o].key == t'.key
            && t'.order == Orders.Info(o, w'.orders[o].customer, w'.orders[o].items, w'.orders[o].total,
                                       StatusOf(w'.history, o))
  {
    hide Init, StoreOk, CreateCacheOk, CreatorsOk, CallsOk, BooksOk, NoOverwrite, BackedOk, Inventory.Conserved;
    hide MoveThread, StatusOf;
    var w, w', a := worlds[i], worlds[i + 1], actions[i];
    RunKeepsInv(worlds, actions, initial, i);
    RunKeepsInv(worlds, actions, initial, i + 1);
    assert Follows(w, a, w');
    LockedCreation(w, a.thread, a.luck);
    assert SagaFits(w'.threads[a.thread], w'.orders);
  }

  lemma LockedCreation(w: World, id: string, l: Luck)
    requires Enabled(w, Move(id, l)) && OrdersOk(w) && w.threads[id].phase.CreateLock? && l.late.None?
    ensures var w' := MoveThread(w, id, l);
            && id in w'.threads && w'.threads[id].key == w.threads[id].key
            && (w'.threads[id].create.Answered? ==>
                  && w'.threads[id].HasSaga() && w'.threads[id].order.id in w'.orders
                  && w'.threads[id].order.status == w'.orders[w'.threads[id].order.id].status)
  {
    hide Narrow, Total;
  }

  /** One that the cache answers says PENDING, whatever the order's status is by then. */
  lemma CachedAnswerIsPending(worlds: seq<World>, actions: seq<Action>, initial: map<string, int>, i: nat)
    requires IsRun(worlds, actions, initial) && i < |actions| && actions[i].Move? && actions[i].luck.late.None?
    requires actions[i].thread in worlds[i].threads && worlds[i].threads[actions[i].thread].phase.CreateProbe?
    requires actions[i].thread in worlds[i + 1].threads && worlds[i + 1].threads[actions[i].thread].create.Answered?
    ensures var w', t' := worlds[i + 1], worlds[i + 1].threads[actions[i].thread];
            var o := t'.order.id;
            && o in w'.orders && w'.orders[o].key == t'.key
            && t'.order == Orders.Info(o, w'.orders[o].customer, w'.orders[o].items, w'.orders[o].total, Orders.PENDING)
  {
    hide Init, StoreOk, CreateCacheOk, CreatorsOk, CallsFit, BooksOk, NoOverwrite, BackedOk, Inventory.Conserved;
    hide MoveThread, StatusesOk, AsAsked, AllValid, CachedPending;
    var w, w', a := worlds[i], worlds[i + 1], actions[i];
    RunStores(worlds, actions, initial, i);
    RunKeepsInv(worlds, actions, initial, i);
    assert CallsFit(w.threads[a.thread]);
    RunKeepsInv(worlds, actions, initial, i + 1);
    assert Follows(w, a, w');
    ProbedCreation(w, a.thread, a.luck);
    assert SagaFits(w'.threads[a.thread], w'.orders);
  }

  lemma ProbedCreation(w: World, id: string, l: Luck)
    requires Enabled(w, Move(id, l)) && CachedPending(w) && w.threads[id].phase.CreateProbe? && l.late.None?
    requires CallsFit(w.threads[id])
    ensures var w' := MoveThread(w, id, l);
            && id in w'.threads && w'.threads[id].key == w.threads[id].key
            && (w'.threads[id].create.Answered? ==>
                  w'.threads[id].HasSaga() && w'.threads[id].order.status == Orders.PENDING)
  {
  }
}
