/** What finished sagas leave behind, exactly, when an order has one saga. */
module Atomicity {
  import opened Items
  import opened History
  import opened Protocol
  import opened Invariants
  import opened Safety
  import opened OneSaga
  import Overselling
  import Inventory
  import Orders

  /** The accounts of a saga's own order, in any reachable world. */
  lemma OwnAccount(worlds: seq<World>, actions: seq<Action>, initial: map<string, int>, i: nat, id: string)
    requires IsRun(worlds, actions, initial) && i < |worlds|
    requires id in worlds[i].threads && Sole(worlds[i], worlds[i].threads[id].key)
    ensures var t := worlds[i].threads[id];
            && CallsFit(t) && Honest(t)
            && (t.HasSaga() ==> Accounts(t, t.order.id, worlds[i]))
  {
    hide IsRun, CallsFit, Honest, Accounts, Creators, StoreOk, Books, BackedOk, StatusesOk, Sole, Inventory.Conserved;
    var w := worlds[i];
    RunKeepsInv(worlds, actions, initial, i);
    RunKeepsLedger(worlds, actions, initial, i);
    assert CallsFit(w.threads[id]);
    if w.threads[id].HasSaga() {
      SoleSaga(w, id);
      assert SagaFits(w.threads[id], w.orders) && AccountedFor(w, w.threads[id].order.id);
    }
  }

  /** The residue of a failed saga whose key no other request carries, with late calls in flight or
      landed: goods stay reserved exactly when the Reserve took effect though its caller was told of an
      error, or the Release has had no effect; money likewise; and the order is cancelled unless the
      cancellation has had no effect or a late Confirm came after it. */
  lemma FaultResidue(worlds: seq<World>, actions: seq<Action>, initial: map<string, int>, i: nat, id: string)
    requires IsRun(worlds, actions, initial) && i < |worlds|
    requires id in worlds[i].threads && Sole(worlds[i], worlds[i].threads[id].key)
    requires worlds[i].threads[id].phase.Compensated?
    ensures var w := worlds[i];
            var t := w.threads[id];
            var o := t.order.id;
            && o in w.orders
            && (o in w.inventory.reservations <==> t.reserve.Belied() || t.release.Missed())
            && (o in w.payments <==> t.charge.Belied() || t.refund.Missed())
            && (w.orders[o].status.CANCELLED? <==> !t.cancel.Missed() && !Overruled(w.history, o))
            && (w.orders[o].status.CONFIRMED? <==> t.confirm.Belied() && (t.cancel.Missed() || Overruled(w.history, o)))
            && (Overruled(w.history, o) ==> t.confirm == Landed(true))
  {
    hide IsRun, Sole;
    OwnAccount(worlds, actions, initial, i, id);
    Residue(worlds[i], worlds[i].threads[id], worlds[i].threads[id].order.id);
  }

  lemma Residue(w: World, t: Thread, o: string)
    requires CallsFit(t) && Honest(t) && Accounts(t, o, w) && t.phase.Compensated?
    ensures o in w.inventory.reservations <==> t.reserve.Belied() || t.release.Missed()
    ensures o in w.payments <==> t.charge.Belied() || t.refund.Missed()
    ensures w.orders[o].status.CANCELLED? <==> !t.cancel.Missed() && !Overruled(w.history, o)
    ensures w.orders[o].status.CONFIRMED? <==> t.confirm.Belied() && (t.cancel.Missed() || Overruled(w.history, o))
    ensures Overruled(w.history, o) ==> t.confirm == Landed(true)
  {
  }

  lemma CompletedIsConfirmed(worlds: seq<World>, actions: seq<Action>, initial: map<string, int>, i: nat, id: string)
    requires IsRun(worlds, actions, initial) && i < |worlds|
    requires id in worlds[i].threads && Sole(worlds[i], worlds[i].threads[id].key)
    requires worlds[i].threads[id].phase.Completed?
    ensures var w := worlds[i];
            var o := w.threads[id].order.id;
            o in w.orders && w.orders[o].status.CONFIRMED? && o in w.inventory.reservations && o in w.payments
  {
    hide IsRun, Sole;
    OwnAccount(worlds, actions, initial, i, id);
  }

  /** All of it or nothing of it. */
  ghost predicate Atomic(w: World, o: string)
    requires o in w.orders
  {
    || (w.orders[o].status.CONFIRMED? && o in w.inventory.reservations && o in w.payments)
    || (w.orders[o].status.CANCELLED? && o !in w.inventory.reservations && o !in w.payments)
  }

  /** No forward call took effect though its caller was told of an error, and no undoing call ended in an
      error without effect. The Confirm may fail either way, and replies to undoing calls may be lost. */
  predicate Clean(t: Thread) {
    && !t.create.Belied() && !t.reserve.Belied() && !t.charge.Belied()
    && !t.refund.Missed() && !t.release.Missed() && !t.cancel.Missed()
  }

  /** The one accident that still ends well: everything was done, the Confirm without its caller
      knowing, then nothing was undone, and the Confirm had the last word. */
  predicate UndoneInVain(t: Thread, overruled: bool) {
    t.confirm.Belied() && t.refund.Missed() && t.release.Missed() && (t.cancel.Missed() || overruled)
  }

  lemma AtomicThread(w: World, t: Thread, o: string)
    requires CallsFit(t) && Honest(t) && Accounts(t, o, w) && AtRest(t)
    requires t.phase.NotStarted? ==> t.create.TookEffect()
    ensures Atomic(w, o) <==> (Clean(t) && !Overruled(w.history, o)) || UndoneInVain(t, Overruled(w.history, o))
  {
    if t.phase.Compensated? {
      Residue(w, t, o);
      hide Accounts, Honest;
    }
  }

  /** An order whose key no other request carries, once its thread is at rest, is all-or-nothing
      exactly when that thread's calls were clean and no late Confirm overruled the cancellation, or
      everything was undone in vain. What other requests do does not matter. */
  lemma AtomicExactly(worlds: seq<World>, actions: seq<Action>, initial: map<string, int>, i: nat, o: string)
    requires IsRun(worlds, actions, initial) && i < |worlds|
    requires o in worlds[i].orders && Sole(worlds[i], worlds[i].orders[o].key)
    requires o in worlds[i].creators && worlds[i].creators[o] in worlds[i].threads
    requires AtRest(worlds[i].threads[worlds[i].creators[o]])
    ensures var w := worlds[i];
            var t := w.threads[w.creators[o]];
            && MadeOrder(t, o, w.orders[o])
            && (Atomic(w, o) <==> (Clean(t) && !Overruled(w.history, o)) || UndoneInVain(t, Overruled(w.history, o)))
            && (Overruled(w.history, o) ==> t.confirm == Landed(true))
  {
    hide IsRun, CallsFit, Honest, Accounts, StoreOk, Books, BackedOk, StatusesOk, Sole, Atomic, AtRest,
         Inventory.Conserved, MadeOrder;
    var w := worlds[i];
    RunKeepsInv(worlds, actions, initial, i);
    RunKeepsLedger(worlds, actions, initial, i);
    assert AccountedFor(w, o);
    var t := w.threads[w.creators[o]];
    assert MadeOrder(t, o, w.orders[o]) && CallsFit(t);
    assert Honest(t) by { MakersKey(w, o); }
    assert t.create.TookEffect() && (Overruled(w.history, o) ==> t.confirm == Landed(true)) by { MakerTold(w, t, o); }
    AtomicThread(w, t, o);
  }

  lemma MakerTold(w: World, t: Thread, o: string)
    requires o in w.orders && MadeOrder(t, o, w.orders[o]) && Accounts(t, o, w)
    ensures t.create.TookEffect() && (Overruled(w.history, o) ==> t.confirm == Landed(true))
  {
  }

  /** All calls were clean, and no Confirm took effect late. */
  ghost predicate AllClean(w: World) {
    forall id :: id in w.threads ==> Clean(w.threads[id]) && w.threads[id].confirm != Landed(true)
  }

  /** One saga for each order: idempotency keys absent or distinct. */
  ghost predicate DistinctKeys(w: World) {
    forall id :: id in w.threads ==> Sole(w, w.threads[id].key)
  }

  lemma CleanOrderIsAtomic(worlds: seq<World>, actions: seq<Action>, initial: map<string, int>, i: nat, o: string)
    requires IsRun(worlds, actions, initial) && i < |worlds|
    requires Quiescent(worlds[i]) && AllClean(worlds[i])
    requires o in worlds[i].orders && Sole(worlds[i], worlds[i].orders[o].key)
    ensures Atomic(worlds[i], o)
  {
    hide IsRun, CallsFit, Atomic, StoreOk, Books, BackedOk, StatusesOk, Sole, MadeOrder, Inventory.Conserved, AtRest;
    hide Clean;
    RunKeepsInv(worlds, actions, initial, i);
    AtomicExactly(worlds, actions, initial, i, o);
  }

  /** At rest after clean calls, the live reservations are those of the confirmed orders and the
      payments are their totals; what is missing from the stock is what confirmed orders hold. */
  lemma GlobalAtomicity(worlds: seq<World>, actions: seq<Action>, initial: map<string, int>, i: nat)
    requires IsRun(worlds, actions, initial) && i < |worlds|
    requires DistinctKeys(worlds[i]) && Quiescent(worlds[i]) && AllClean(worlds[i])
    ensures AllAtomic(worlds[i]) && SettledBooks(worlds[i], initial)
  {
    hide IsRun, Quiescent, AllClean, Atomic, OrdersOk, SagasOk, CallsOk, BooksOk, NoOverwrite, BackedOk, StatusesOk,
         Sole, Inventory.Conserved, SettledBooks;
    var w := worlds[i];
    RunKeepsInv(worlds, actions, initial, i);
    forall o | o in w.orders
      ensures Atomic(w, o)
    {
      MakersKey(w, o);
      CleanOrderIsAtomic(worlds, actions, initial, i, o);
    }
    AtomicBooks(w, initial);
    hide CreatorsOk;
  }

  ghost predicate AllAtomic(w: World) {
    forall o :: o in w.orders ==> Atomic(w, o)
  }

  /** The services' books hold the confirmed orders and nothing else. */
  ghost predicate SettledBooks(w: World, initial: map<string, int>) {
    && w.inventory.reservations == ConfirmedGoods(w.orders)
    && w.payments == ConfirmedTotals(w.orders)
    && (forall p :: Inventory.Level(w.inventory.stock, p)
                 == Wrap32(Inventory.Level(initial, p) - Inventory.Held(ConfirmedGoods(w.orders), p)))
  }

  /** With sane requests as well, the arithmetic is exact: initial stock less the confirmed goods. */
  lemma GlobalStock(worlds: seq<World>, actions: seq<Action>, initial: map<string, int>, i: nat, p: string)
    requires IsRun(worlds, actions, initial) && i < |worlds|
    requires DistinctKeys(worlds[i]) && Quiescent(worlds[i]) && AllClean(worlds[i])
    requires Overselling.SaneStart(initial) && Overselling.SaneRequests(worlds[i])
    ensures var w := worlds[i];
            && Inventory.Level(w.inventory.stock, p)
               == Inventory.Level(initial, p) - Inventory.Held(ConfirmedGoods(w.orders), p)
            && 0 <= Inventory.Level(w.inventory.stock, p)
  {
    hide IsRun, AllAtomic, AllClean, Quiescent, DistinctKeys, Wrap32, Inventory.Held;
    GlobalAtomicity(worlds, actions, initial, i);
    Overselling.NeverOversold(worlds, actions, initial, i, p);
  }

  function ConfirmedGoods(orders: map<string, Orders.Order>): map<string, Inventory.Reservation> {
    map o | o in orders && orders[o].status.CONFIRMED?
      :: Inventory.Reservation(orders[o].key, StockLines(orders[o].items))
  }

  function ConfirmedTotals(orders: map<string, Orders.Order>): map<string, real> {
    map o | o in orders && orders[o].status.CONFIRMED? :: orders[o].total
  }

  lemma AtomicBooks(w: World, initial: map<string, int>)
    requires BooksOk(w) && AllAtomic(w) && Inventory.Conserved(w.inventory, initial)
    ensures SettledBooks(w, initial)
  {
    hide Wrap32, Inventory.Held, EventsOk, StockLines;
    hide Atomic;
    forall o
      ensures o in w.inventory.reservations <==> o in ConfirmedGoods(w.orders)
      ensures o in w.payments <==> o in ConfirmedTotals(w.orders)
    {
      if o in w.orders { AtomicParts(w, o); }
    }
    assert w.inventory.reservations == ConfirmedGoods(w.orders);
  }

  lemma AtomicParts(w: World, o: string)
    requires o in w.orders && Atomic(w, o)
    ensures o in w.inventory.reservations <==> w.orders[o].status.CONFIRMED?
    ensures o in w.payments <==> w.orders[o].status.CONFIRMED?
  {
  }

}
