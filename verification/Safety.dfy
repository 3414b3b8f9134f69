/** The invariant of every run, and what follows from it in every reachable world: duplicate
    submissions, lost requests, lost replies and forgotten cache entries included. */
module Safety {
  import opened Items
  import opened History
  import opened Protocol
  import opened Invariants
  import Inventory
  import Payment
  import Orders

  ghost predicate Inv(w: World, initial: map<string, int>) {
    && OrdersOk(w) && SagasOk(w) && CreatorsOk(w) && CallsOk(w)
    && BooksOk(w) && NoOverwrite(w) && BackedOk(w) && StatusesOk(w)
    && Inventory.Conserved(w.inventory, initial)
  }

  lemma InitEstablishes(w: World, initial: map<string, int>)
    requires Init(w, initial)
    ensures Inv(w, initial)
  {
    forall p ensures Inventory.Held(map[], p) == 0 {
      Inventory.NothingHeld(p);
    }
  }

  /** When a Reserve writes, in time or late, its order holds nothing yet. */
  lemma TakesAreNew(w: World, id: string, l: Luck)
    requires Enabled(w, Move(id, l)) && OrdersOk(w) && SagasOk(w) && CallsOk(w) && BooksOk(w) && NoOverwrite(w)
    ensures var t := w.threads[id];
            var e := Decide(w, t, l).effect;
            && Allowed(w, t, e, l)
            && (!e.Nothing? && !e.MakeOrder? ==> SagaFits(t, w.orders))
            && (e.TakeStock? ==> t.order.id !in w.inventory.reservations)
  {
    hide Decide, Books, CallsFit;
    var t := w.threads[id];
    var e := Decide(w, t, l).effect;
    Guards(w, id, l);
    AllowedFits(w, id, e, l);
    assert Unheld(t, w.inventory.reservations);
    if e.TakeStock? {
      NotYetHeld(w, t);
    }
  }

  lemma MoveConserves(w: World, id: string, l: Luck, initial: map<string, int>)
    requires Enabled(w, Move(id, l)) && Inv(w, initial)
    ensures Inventory.Conserved(MoveThread(w, id, l).inventory, initial)
  {
    hide Decide, Inventory.Conserved, OrdersOk, SagasOk, CreatorsOk, CallsOk, BooksOk, NoOverwrite, BackedOk;
    var t := w.threads[id];
    TakesAreNew(w, id, l);
    if Decide(w, t, l).effect.TakeStock? {
      Inventory.ReserveConserves(w.inventory, t.order.id, t.key, StockLines(t.order.items), initial);
    }
    Inventory.ReleaseConserves(w.inventory, t.order.id, initial);
  }

  lemma MoveKeepsBooks(w: World, id: string, l: Luck)
    requires Enabled(w, Move(id, l)) && OrdersOk(w) && SagasOk(w) && CallsOk(w) && BooksOk(w) && NoOverwrite(w)
    ensures BooksOk(MoveThread(w, id, l))
  {
    hide Decide, Perform, Books, CallsFit;
    TakesAreNew(w, id, l);
    PerformKeepsBooks(w, id, Decide(w, w.threads[id], l).effect, l);
  }

  lemma MoveKeepsInv(w: World, id: string, l: Luck, initial: map<string, int>)
    requires Enabled(w, Move(id, l)) && Inv(w, initial)
    ensures Inv(MoveThread(w, id, l), initial)
  {
    hide MoveThread, Decide, OrdersOk, SagasOk, CreatorsOk, CallsFit, BooksOk, NoOverwrite, BackedOk, StatusesOk,
         Inventory.Conserved;
    assert CallsFit(w.threads[id]);
    MoveKeepsSagas(w, id, l);
    MoveKeepsCreators(w, id, l);
    MoveKeepsCalls(w, id, l);
    MoveKeepsBooks(w, id, l);
    MoveKeepsUnheld(w, id, l);
    MoveKeepsBacked(w, id, l);
    MoveKeepsStatuses(w, id, l);
    MoveConserves(w, id, l, initial);
  }

  lemma SubmitKeepsInv(w: World, id: string, t: Thread, initial: map<string, int>)
    requires Inv(w, initial) && id !in w.threads && t == NewThread(t.key, t.customer, t.items)
    ensures Inv(Put(w, id, t), initial)
  {
    hide StoreOk, CreateCacheOk, Books, CachesBacked, StatusOf, Inventory.Conserved, CallsFit, Creators;
    NewThreadFits(t);
    NewThreadIsNoCreator(w.creators, w.orders, w.threads, id, t);
  }

  lemma NewThreadFits(t: Thread)
    requires t == NewThread(t.key, t.customer, t.items)
    ensures CallsFit(t)
  {
  }

  lemma NewThreadIsNoCreator(creators: map<string, string>, orders: map<string, Orders.Order>,
                             threads: map<string, Thread>,
                             id: string, t: Thread)
    requires Creators(creators, orders, threads) && id !in threads && t == NewThread(t.key, t.customer, t.items)
    ensures Creators(creators, orders, threads[id := t])
  {
    hide MadeOrder;
  }

  lemma ForgetKeepsInv(w: World, gone: Caches, initial: map<string, int>)
    requires Inv(w, initial)
    ensures Inv(Apply(w, Forget(gone)), initial)
  {
    hide StoreOk, Books, StatusOf, Inventory.Conserved, CallsFit, SagaFits, Creators, Unheld, RepliesBacked;
  }

  lemma StepKeepsInv(w: World, a: Action, initial: map<string, int>)
    requires Enabled(w, a) && Inv(w, initial)
    ensures Inv(Apply(w, a), initial)
  {
    hide Inv, MoveThread;
    match a
    case Submit(id, key, customer, items) => { SubmitKeepsInv(w, id, NewThread(key, customer, items), initial); }
    case Move(id, l) => { MoveKeepsInv(w, id, l, initial); }
    case Forget(gone) => { ForgetKeepsInv(w, gone, initial); }
  }

  lemma {:induction false} RunKeepsInv(worlds: seq<World>, actions: seq<Action>, initial: map<string, int>, i: nat)
    requires IsRun(worlds, actions, initial) && i < |worlds|
    ensures Inv(worlds[i], initial)
  {
    if i == 0 {
      InitEstablishes(worlds[0], initial);
    } else {
      RunKeepsInv(worlds, actions, initial, i - 1);
      assert Follows(worlds[i - 1], actions[i - 1], worlds[i]);
      StepKeepsInv(worlds[i - 1], actions[i - 1], initial);
    }
    hide Inv, Apply;
  }

  // What every reachable world satisfies

  /** Stock plus all live reservations is the initial stock, in int32 arithmetic and for any quantities. */
  lemma StockIsConserved(worlds: seq<World>, actions: seq<Action>, initial: map<string, int>, i: nat, p: string)
    requires IsRun(worlds, actions, initial) && i < |worlds|
    ensures var inv := worlds[i].inventory;
            Inventory.Level(inv.stock, p) == Wrap32(Inventory.Level(initial, p) - Inventory.Held(inv.reservations, p))
  {
    hide IsRun, OrdersOk, SagasOk, CreatorsOk, CallsOk, BooksOk, NoOverwrite, BackedOk, StatusesOk, Wrap32;
    RunKeepsInv(worlds, actions, initial, i);
  }

  /** Effective takes and returns alternate; their difference is 0 or 1 and is membership in the map. */
  lemma EffectsAlternate(worlds: seq<World>, actions: seq<Action>, initial: map<string, int>, i: nat, o: string)
    requires IsRun(worlds, actions, initial) && i < |worlds|
    ensures var w := worlds[i];
            && Alternates(w.history, Goods, o) && Alternates(w.history, Money, o)
            && Takings(w.history, Goods, o) - Returnings(w.history, Goods, o)
               == (if o in w.inventory.reservations then 1 else 0)
            && Takings(w.history, Money, o) - Returnings(w.history, Money, o)
               == (if o in w.payments then 1 else 0)
  {
    RunKeepsInv(worlds, actions, initial, i);
    AlternationBalances(worlds[i].history, Goods, o);
    AlternationBalances(worlds[i].history, Money, o);
  }

  /** Until something is given back, any number of sagas on one order take goods and money once, and
      every saga that was told yes has them behind it, whoever gave the answer. */
  lemma ExactlyOnce(worlds: seq<World>, actions: seq<Action>, initial: map<string, int>, i: nat, id: string)
    requires IsRun(worlds, actions, initial) && i < |worlds| && id in worlds[i].threads
    ensures var w := worlds[i];
            var t := w.threads[id];
            var o := t.order.id;
            && (!EverReturned(w.history, Goods, o) ==> Takings(w.history, Goods, o) <= 1
                                                       && (t.reserve.Succeeded() ==> o in w.inventory.reservations))
            && (!EverReturned(w.history, Money, o) ==> Takings(w.history, Money, o) <= 1
                                                       && (t.charge.Succeeded() ==> o in w.payments))
  {
    var w := worlds[i];
    RunKeepsInv(worlds, actions, initial, i);
    assert RepliesBacked(w.threads[id], w.history);
    AlternationBalances(w.history, Goods, w.threads[id].order.id);
    AlternationBalances(w.history, Money, w.threads[id].order.id);
  }

  /** One order for each key: all sagas of a key got the same order, whatever raced with what. */
  lemma KeysBindOneOrder(worlds: seq<World>, actions: seq<Action>, initial: map<string, int>, i: nat, id: string,
                         id': string)
    requires IsRun(worlds, actions, initial) && i < |worlds|
    requires id in worlds[i].threads && id' in worlds[i].threads
    requires worlds[i].threads[id].HasSaga() && worlds[i].threads[id'].HasSaga()
    ensures Orders.UniqueKeys(worlds[i].orders)
    ensures var t, t' := worlds[i].threads[id], worlds[i].threads[id'];
            && (t.key == t'.key != "" ==> t.order.(status := t'.order.status) == t'.order)
            && (id != id' && t.order.id == t'.order.id ==> t.key == t'.key != "")
  {
    var w := worlds[i];
    RunKeepsInv(worlds, actions, initial, i);
    assert SagaFits(w.threads[id], w.orders) && SagaFits(w.threads[id'], w.orders);
    assert KeylessOwns(w.threads[id], id, w.creators) && KeylessOwns(w.threads[id'], id', w.creators);
  }

  /** A confirmed order was reserved and charged before it was confirmed. */
  lemma ConfirmedWasBacked(worlds: seq<World>, actions: seq<Action>, initial: map<string, int>, i: nat, o: string)
    requires IsRun(worlds, actions, initial) && i < |worlds| && o in worlds[i].orders
    requires worlds[i].orders[o].status.CONFIRMED?
    ensures exists before: History :: Precedes(before, Confirmed(o), worlds[i].history)
                                   && EverTaken(before, Goods, o) && EverTaken(before, Money, o)
  {
    RunKeepsInv(worlds, actions, initial, i);
    ConfirmedWasWritten(worlds[i].history, o);
    var before := BackingOfConfirmation(worlds[i].history, o);
  }

  lemma {:induction false} ConfirmedWasWritten(h: History, o: string)
    ensures StatusOf(h, o).CONFIRMED? ==> EverConfirmed(h, o)
    ensures StatusOf(h, o).CANCELLED? ==> EverCancelled(h, o)
    ensures EverCancelled(h, o) && !EverConfirmed(h, o) ==> StatusOf(h, o).CANCELLED?
  {
    if h.Then? { ConfirmedWasWritten(h.before, o); }
  }

  /** before is what had happened when e happened. */
  ghost predicate Precedes(before: History, e: Event, h: History) {
    h.Then? && ((h.before == before && h.last == e) || Precedes(before, e, h.before))
  }

  lemma {:induction false} BackingOfConfirmation(h: History, o: string) returns (before: History)
    requires InSagaOrder(h) && EverConfirmed(h, o)
    ensures Precedes(before, Confirmed(o), h) && EverTaken(before, Goods, o) && EverTaken(before, Money, o)
  {
    if h.last == Confirmed(o) {
      before := h.before;
    } else {
      before := BackingOfConfirmation(h.before, o);
    }
  }

  /** An order over the limit is never paid, never cached as paid, and never confirmed. */
  lemma OverLimitNeverPaid(worlds: seq<World>, actions: seq<Action>, initial: map<string, int>, i: nat, o: string)
    requires IsRun(worlds, actions, initial) && i < |worlds| && o in worlds[i].orders
    requires worlds[i].orders[o].total > Payment.LIMIT
    ensures var w := worlds[i];
            && o !in w.payments && o !in w.caches.charge && !EverTaken(w.history, Money, o)
            && !w.orders[o].status.CONFIRMED? && !EverConfirmed(w.history, o)
  {
    var w := worlds[i];
    RunKeepsInv(worlds, actions, initial, i);
    if EverTaken(w.history, Money, o) {
      TakenIsStored(w.history, w.orders, Money, o);
    }
    ConfirmedWasWritten(w.history, o);
    if EverConfirmed(w.history, o) {
      var before := BackingOfConfirmation(w.history, o);
      TakenEarlier(before, Confirmed(o), w.history, Money, o);
    }
    if o in w.payments {
      HoldsWasTaken(w.history, Money, o);
    }
  }

  lemma {:induction false} TakenEarlier(before: History, e: Event, h: History, r: Resource, o: string)
    requires Precedes(before, e, h) && EverTaken(before, r, o)
    ensures EverTaken(h, r, o)
  {
    if Precedes(before, e, h.before) { TakenEarlier(before, e, h.before, r, o); }
  }

  ghost predicate Recorded(h: History, e: Event) {
    h.Then? && (h.last == e || Recorded(h.before, e))
  }

  lemma {:induction false} RecordedFits(h: History, orders: map<string, Orders.Order>, e: Event)
    requires EventsOk(h, orders) && Recorded(h, e)
    ensures e.order in orders
    ensures e.Reserved? ==> e.lines == StockLines(orders[e.order].items)
    ensures e.Charged? ==> e.amount == orders[e.order].total
  {
    if h.last != e { RecordedFits(h.before, orders, e); }
  }

  /** By h the order's goods had been reserved, and amount is what exactly those goods are worth. */
  ghost predicate WorthItsGoods(h: History, o: string, amount: real, items: seq<Item>) {
    exists lines :: Recorded(h, Reserved(o, lines)) && |lines| == |items| && amount == Worth(lines, items)
  }

  lemma {:induction false} TakenWasRecorded(h: History, orders: map<string, Orders.Order>, o: string)
    requires EventsOk(h, orders) && EverTaken(h, Goods, o)
    ensures o in orders && Recorded(h, Reserved(o, StockLines(orders[o].items)))
  {
    if !Takes(h.last, Goods, o) {
      TakenWasRecorded(h.before, orders, o);
    }
  }

  /** The total of an order whose goods were ever reserved. */
  lemma TotalIsWorth(h: History, orders: map<string, Orders.Order>, o: string)
    requires EventsOk(h, orders) && StoreOk(orders) && EverTaken(h, Goods, o)
    ensures o in orders && WorthItsGoods(h, o, orders[o].total, orders[o].items)
  {
    TakenWasRecorded(h, orders, o);
    GoodsAreWorthTheTotal(orders[o].items);
    assert Recorded(h, Reserved(o, StockLines(orders[o].items)));
  }

  lemma {:induction false} ChargedForGoods(h: History, orders: map<string, Orders.Order>, before: History, o: string,
      amount: real)
    requires EventsOk(h, orders) && StoreOk(orders) && InSagaOrder(h) && Precedes(before, Charged(o, amount), h)
    ensures o in orders && WorthItsGoods(before, o, amount, orders[o].items)
  {
    if h.before == before && h.last == Charged(o, amount) {
      TotalIsWorth(before, orders, o);
    } else {
      ChargedForGoods(h.before, orders, before, o, amount);
    }
  }

  lemma {:induction false} MoneyAfterGoods(h: History, o: string)
    requires InSagaOrder(h) && EverTaken(h, Money, o)
    ensures EverTaken(h, Goods, o)
  {
    if !Takes(h.last, Money, o) {
      MoneyAfterGoods(h.before, o);
    }
  }

  /** Money is never taken but for goods: every charge ever made for an order came after a reservation
      of it and is the value of exactly the goods reserved, and so is the payment now on record. And all
      reservations of an order, past and present, are of the same goods. */
  lemma MoneyAgreesWithGoods(worlds: seq<World>, actions: seq<Action>, initial: map<string, int>, i: nat,
                             o: string, before: History, amount: real, lines: seq<StockLine>)
    requires IsRun(worlds, actions, initial) && i < |worlds|
    ensures var w := worlds[i];
            && (Precedes(before, Charged(o, amount), w.history) ==>
                  o in w.orders && WorthItsGoods(before, o, amount, w.orders[o].items))
            && (o in w.payments ==> o in w.orders && WorthItsGoods(w.history, o, w.payments[o], w.orders[o].items))
            && (Recorded(w.history, Reserved(o, lines)) ==>
                  && o in w.orders && lines == StockLines(w.orders[o].items)
                  && (o in w.inventory.reservations ==> w.inventory.reservations[o].lines == lines))
  {
    hide IsRun, WorthItsGoods, CallsFit, CachesBacked, SagasOk, Creators, NoOverwrite, StatusesOk, Inventory.Conserved;
    var w := worlds[i];
    RunKeepsInv(worlds, actions, initial, i);
    if Precedes(before, Charged(o, amount), w.history) {
      ChargedForGoods(w.history, w.orders, before, o, amount);
    }
    if o in w.payments {
      HoldsWasTaken(w.history, Money, o);
      MoneyAfterGoods(w.history, o);
      TotalIsWorth(w.history, w.orders, o);
    }
    if Recorded(w.history, Reserved(o, lines)) {
      RecordedFits(w.history, w.orders, Reserved(o, lines));
    }
  }
}
