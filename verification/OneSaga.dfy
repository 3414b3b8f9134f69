/** Orders with one saga: without a key, or with a key that no other request carries. What the saga
    leaves behind is then read off from what its calls came to, exactly: reservation, payment, status and
    cache entries are told by its calls at every moment, late ones included, and every reply that arrives
    says truly whether its call had its effect. */
module OneSaga {
  import opened Options
  import opened Items
  import opened History
  import opened Protocol
  import opened Invariants
  import opened Safety
  import Overselling
  import Inventory
  import Orders
  import Payment

  /** No two requests carry this key. */
  ghost predicate Sole(w: World, key: string) {
    key == ""
    || forall a, b :: a in w.threads && b in w.threads && w.threads[a].key == key && w.threads[b].key == key ==> a == b
  }

  function StatusAfter(t: Thread, overruled: bool): Orders.Status {
    if overruled then Orders.CONFIRMED
    else if t.cancel.TookEffect() then Orders.CANCELLED
    else if t.confirm.TookEffect() then Orders.CONFIRMED
    else Orders.PENDING
  }

  /** A reply that arrives says truly whether the call had its effect. */
  ghost predicate Honest(t: Thread) {
    && (t.reserve.Answered? ==> t.reserve.ok == t.reserve.effect)
    && (t.charge.Answered? ==> t.charge.ok == t.charge.effect)
    && (t.refund.Answered? ==> t.refund.effect)
    && (t.release.Answered? ==> t.release.effect)
  }

  /** The services' records of an order, told by the calls of its one saga. */
  ghost predicate Accounts(t: Thread, o: string, w: World) {
    && o in w.orders
    && (o in w.inventory.reservations <==> t.reserve.TookEffect() && !t.release.TookEffect())
    && (o in w.payments <==> t.charge.TookEffect() && !t.refund.TookEffect())
    && (o in w.caches.charge ==> t.charge.TookEffect())
    && (o in w.caches.refund ==> t.refund.TookEffect())
    && (o in w.caches.release ==> t.release.TookEffect())
    && (w.orders[o].key in w.caches.reserve ==> t.reserve.TookEffect())
    && StatusTold(t, o, w.orders[o].status, w.history)
  }

  /** Only a Confirm that landed late can come after the cancellation. */
  ghost predicate StatusTold(t: Thread, o: string, status: Orders.Status, h: History) {
    && status == StatusAfter(t, Overruled(h, o))
    && (EverConfirmed(h, o) <==> t.confirm.TookEffect())
    && (EverCancelled(h, o) <==> t.cancel.TookEffect())
    && (Overruled(h, o) ==> t.confirm == Landed(true) && t.cancel.TookEffect())
  }

  ghost predicate Ledger(w: World) {
    && (forall o :: o in w.orders && Sole(w, w.orders[o].key) ==> AccountedFor(w, o))
    && (forall id :: id in w.threads && Sole(w, w.threads[id].key) ==> Honest(w.threads[id]))
  }

  ghost predicate AccountedFor(w: World, o: string) {
    o in w.creators && w.creators[o] in w.threads && Accounts(w.threads[w.creators[o]], o, w)
  }

  /** If no other request has its key, the saga on an order is the thread that made the order. */
  lemma SoleSaga(w: World, id: string)
    requires SagasOk(w) && CreatorsOk(w)
    requires id in w.threads && w.threads[id].HasSaga() && Sole(w, w.threads[id].key)
    ensures var o := w.threads[id].order.id;
            o in w.creators && w.creators[o] == id
  {
    var t := w.threads[id];
    assert SagaFits(t, w.orders) && KeylessOwns(t, id, w.creators);
    assert MadeOrder(w.threads[w.creators[t.order.id]], t.order.id, w.orders[t.order.id]);
    hide Narrow;
  }

  /** What the saga's own Reserve can find: nothing, if it has not reserved yet. */
  lemma OwnKeyOnly(w: World, t: Thread)
    requires OrdersOk(w) && BooksOk(w) && SagaFits(t, w.orders)
    ensures t.key != "" && Inventory.KeyInUse(w.inventory.reservations, t.key)
         ==> t.order.id in w.inventory.reservations
  {
    if t.key != "" && Inventory.KeyInUse(w.inventory.reservations, t.key) {
      var o :| o in w.inventory.reservations && w.inventory.reservations[o].key == t.key;
      assert o == t.order.id;
    }
  }

  /** The facts about one saga that its next move depends on. */
  ghost predicate Ready(w: World, id: string, l: Luck) {
    && Enabled(w, Move(id, l))
    && var t := w.threads[id];
       && t.HasSaga() && CallsFit(t) && Honest(t) && Accounts(t, t.order.id, w)
       && w.orders[t.order.id].key == t.key
       && (t.key != "" && Inventory.KeyInUse(w.inventory.reservations, t.key) ==>
             t.order.id in w.inventory.reservations)
  }

  ghost predicate Accounted(w: World, id: string, l: Luck)
    requires id in w.threads
  {
    var d := Decide(w, w.threads[id], l);
    Honest(d.thread) && Accounts(d.thread, w.threads[id].order.id, Perform(w, id, d.effect, l))
  }

  lemma ReserveMoveAccounted(w: World, id: string, l: Luck)
    requires Ready(w, id, l) && l.late.None? && (w.threads[id].phase.ReserveProbe? || w.threads[id].phase.ReserveLock?)
    ensures Accounted(w, id, l)
  {
    hide CreateFor, Inventory.CanReserve, Inventory.Deduct;
  }

  lemma ChargeMoveAccounted(w: World, id: string, l: Luck)
    requires Ready(w, id, l) && l.late.None? && (w.threads[id].phase.ChargeProbe? || w.threads[id].phase.ChargeLock?)
    ensures Accounted(w, id, l)
  {
    hide CreateFor, ReserveFor;
  }

  lemma ConfirmMoveAccounted(w: World, id: string, l: Luck)
    requires Ready(w, id, l) && l.late.None? && w.threads[id].phase.Confirm?
    ensures Accounted(w, id, l)
  {
  }

  lemma CancelMoveAccounted(w: World, id: string, l: Luck)
    requires Ready(w, id, l) && l.late.None? && w.threads[id].phase.Cancel?
    ensures Accounted(w, id, l)
  {
    hide Proceed, PhaseFits;
    var t := w.threads[id];
    ForwardFirst(t);
    CancelMove(w, t, l);
    hide ReserveFor, CreateFor;
  }

  lemma CancelMove(w: World, t: Thread, l: Luck)
    requires t.phase.Cancel? && t.order.id in w.orders
    ensures var d := Proceed(w, t, l);
            && d.thread == AfterCancel(t, d.thread.cancel)
            && d.effect == (if d.thread.cancel.TookEffect() then WriteStatus(Orders.CANCELLED) else Nothing)
  {
  }

  lemma RefundMoveAccounted(w: World, id: string, l: Luck)
    requires Ready(w, id, l) && l.late.None? && (w.threads[id].phase.RefundProbe? || w.threads[id].phase.RefundLock?)
    ensures Accounted(w, id, l)
  {
    hide CreateFor, ReserveFor;
  }

  lemma ReleaseMoveAccounted(w: World, id: string, l: Luck)
    requires Ready(w, id, l) && l.late.None? && (w.threads[id].phase.ReleaseProbe? || w.threads[id].phase.ReleaseLock?)
    ensures Accounted(w, id, l)
  {
    hide CreateFor, ReserveFor, Inventory.Restore, Payment.Charge, Payment.Refund, Orders.UpdateStatus;
  }

  lemma LateReserveAccounted(w: World, id: string, l: Luck)
    requires Ready(w, id, l) && l.late == Some(Reserving)
    ensures Accounted(w, id, l)
  {
    hide Land, PhaseFits, Inventory.CanReserve, Inventory.Deduct;
    ForwardFirst(w.threads[id]);
    LateReserve(w, w.threads[id], l);
  }

  lemma LateReserve(w: World, t: Thread, l: Luck)
    ensures var d := Land(w, t, Reserving, l);
            && d.thread == t.(reserve := Landed(d.effect.TakeStock?)) && (d.effect.TakeStock? || d.effect.Nothing?)
            && (d.effect.TakeStock? ==> ReserveFor(w, t).effect)
  {
    hide ReserveFor;
  }

  lemma LateCharge(w: World, t: Thread, l: Luck)
    ensures var d := Land(w, t, Charging, l);
            && d.thread == t.(charge := Landed(d.effect.TakeMoney?)) && (d.effect.TakeMoney? || d.effect.Nothing?)
            && (d.effect.TakeMoney? ==> Payment.Charge(w.payments, t.order.id, t.order.total).effect)
  {
  }

  lemma LateReleaseAccounted(w: World, id: string, l: Luck)
    requires Ready(w, id, l) && l.late == Some(Releasing)
    ensures Accounted(w, id, l)
  {
    hide PhaseFits, CreateFor, ReserveFor, Inventory.Restore;
  }

  lemma LateChargeAccounted(w: World, id: string, l: Luck)
    requires Ready(w, id, l) && l.late == Some(Charging)
    ensures Accounted(w, id, l)
  {
    hide Land, PhaseFits;
    ForwardFirst(w.threads[id]);
    LateCharge(w, w.threads[id], l);
  }

  lemma LateRefundAccounted(w: World, id: string, l: Luck)
    requires Ready(w, id, l) && l.late == Some(Refunding)
    ensures Accounted(w, id, l)
  {
    hide PhaseFits, CreateFor, ReserveFor;
  }

  lemma LateConfirmAccounted(w: World, id: string, l: Luck)
    requires Ready(w, id, l) && l.late == Some(Confirming)
    ensures Accounted(w, id, l)
  {
    hide PhaseFits, CreateFor, ReserveFor, Payment.Charge, Inventory.Release;
  }

  lemma LateCancelAccounted(w: World, id: string, l: Luck)
    requires Ready(w, id, l) && l.late == Some(Cancelling)
    ensures Accounted(w, id, l)
  {
    hide PhaseFits, CreateFor, ReserveFor, Payment.Charge, Inventory.Release;
  }

  /** A call that never succeeded is not undone, and one that is undone was answered yes. */
  lemma ForwardFirst(t: Thread)
    requires CallsFit(t)
    ensures !t.reserve.Succeeded() ==> t.release.Unsent?
    ensures !t.charge.Succeeded() ==> t.refund.Unsent?
    ensures t.phase.Cancel? ==> t.cancel.Unsent?
  {
  }

  /** A write for one order leaves the accounts of every other order alone. */
  lemma OthersAccounted(w: World, id: string, e: Effect, l: Luck, other: Thread, o: string)
    requires id in w.threads && Allowed(w, w.threads[id], e, l) && StoreOk(w.orders) && l.uuid !in w.orders
    requires !e.Nothing? && !e.MakeOrder? ==> SagaFits(w.threads[id], w.orders) && o != w.threads[id].order.id
    requires Accounts(other, o, w)
    ensures Accounts(other, o, Perform(w, id, e, l))
  {
    hide Perform, Allowed, StoreOk, SagaFits, Overruled, EverConfirmed, EverCancelled;
    OtherMapsKept(w, id, e, l, o);
  }

  lemma OtherMapsKept(w: World, id: string, e: Effect, l: Luck, o: string)
    requires id in w.threads && Allowed(w, w.threads[id], e, l) && StoreOk(w.orders) && l.uuid !in w.orders
    requires o in w.orders
    requires !e.Nothing? && !e.MakeOrder? ==> SagaFits(w.threads[id], w.orders) && o != w.threads[id].order.id
    ensures var w' := Perform(w, id, e, l);
            && o in w'.orders && w'.orders[o] == w.orders[o]
            && (o in w'.inventory.reservations <==> o in w.inventory.reservations)
            && (o in w'.payments <==> o in w.payments)
            && (o in w'.caches.charge <==> o in w.caches.charge) && (o in w'.caches.refund <==> o in w.caches.refund)
            && (o in w'.caches.release <==> o in w.caches.release)
            && (w.orders[o].key in w'.caches.reserve ==> w.orders[o].key in w.caches.reserve)
            && (Overruled(w'.history, o) <==> Overruled(w.history, o))
            && (EverConfirmed(w'.history, o) <==> EverConfirmed(w.history, o))
            && (EverCancelled(w'.history, o) <==> EverCancelled(w.history, o))
  {
    if e.MakeOrder? {
      var made := MakeOrderShape(w, w.threads[id], l);
    }
    hide CreateFor, Narrow;
  }

  /** A thread that makes an order has called nothing else. */
  lemma MakerIsNew(w: World, id: string, l: Luck)
    requires Enabled(w, Move(id, l)) && CallsFit(w.threads[id]) && Decide(w, w.threads[id], l).effect.MakeOrder?
    ensures var t' := Decide(w, w.threads[id], l).thread;
            && t'.reserve.Unsent? && t'.charge.Unsent? && t'.confirm.Unsent?
            && t'.refund.Unsent? && t'.release.Unsent? && t'.cancel.Unsent?
  {
    hide Proceed, Land, PhaseFits;
    var t := w.threads[id];
    Guards(w, id, l);
    MakersCalls(t, w, l);
    if l.late.Some? {
      LandShape(w, t, l.late.value, l);
      var t' := Decide(w, t, l).thread;
      assert t'.reserve == t'.CallOf(Reserving) && t'.charge == t'.CallOf(Charging);
      assert t'.confirm == t'.CallOf(Confirming) && t'.refund == t'.CallOf(Refunding);
      assert t'.release == t'.CallOf(Releasing) && t'.cancel == t'.CallOf(Cancelling);
    } else {
      CreationKeepsCalls(w, t, l);
    }
    hide Allowed;
  }

  lemma MakersCalls(t: Thread, w: World, l: Luck)
    requires CallsFit(t) && Allowed(w, t, MakeOrder, l)
    ensures t.reserve.Unsent? && t.charge.Unsent? && t.confirm.Unsent?
         && t.refund.Unsent? && t.release.Unsent? && t.cancel.Unsent?
    ensures !t.HasSaga()
  {
  }

  lemma CreationKeepsCalls(w: World, t: Thread, l: Luck)
    requires !t.HasSaga()
    ensures var t' := Proceed(w, t, l).thread;
            && t'.reserve == t.reserve && t'.charge == t.charge && t'.confirm == t.confirm
            && t'.refund == t.refund && t'.release == t.release && t'.cancel == t.cancel
  {
  }

  /** A fresh order starts with an empty account. */
  lemma NewOrderAccounted(w: World, id: string, l: Luck)
    requires Enabled(w, Move(id, l)) && OrdersOk(w) && BooksOk(w) && CachesBacked(w.caches, w.orders, w.history)
    requires CallsFit(w.threads[id]) && Decide(w, w.threads[id], l).effect.MakeOrder?
    ensures var d := Decide(w, w.threads[id], l);
            Accounts(d.thread, l.uuid, Perform(w, id, d.effect, l))
  {
    hide Decide, CallsFit, Narrow, Total;
    var t := w.threads[id];
    Guards(w, id, l);
    MakerIsNew(w, id, l);
    var made := MakeOrderShape(w, t, l);
    forall r | EverTaken(w.history, r, l.uuid)
      ensures false
    {
      TakenIsStored(w.history, w.orders, r, l.uuid);
    }
    NoStatusYet(w.history, w.orders, l.uuid);
    assert t.key != "" ==> t.key !in w.caches.reserve;
    assert "" !in w.caches.reserve;
    hide OrdersOk, Books, CachesBacked, Orders.HasKey;
  }

  /** A thread without a saga can only make an order, once. */
  lemma OrderlessMove(w: World, id: string, l: Luck)
    requires Enabled(w, Move(id, l)) && CallsFit(w.threads[id]) && !w.threads[id].HasSaga()
    ensures var d := Decide(w, w.threads[id], l);
            (d.effect.Nothing? || d.effect.MakeOrder?) && !w.threads[id].create.TookEffect()
    ensures Honest(w.threads[id]) ==> Honest(Decide(w, w.threads[id], l).thread)
  {
    hide Proceed, Land;
    var t := w.threads[id];
    if l.late.Some? {
      HangingFits(t);
      LandShape(w, t, l.late.value, l);
      var t' := Decide(w, t, l).thread;
      assert t'.reserve == t'.CallOf(Reserving) && t.reserve == t.CallOf(Reserving);
      assert t'.charge == t'.CallOf(Charging) && t.charge == t.CallOf(Charging);
      assert t'.refund == t'.CallOf(Refunding) && t.refund == t.CallOf(Refunding);
      assert t'.release == t'.CallOf(Releasing) && t.release == t.CallOf(Releasing);
      OnlyMakes(w, t, l);
    } else {
      CreationKeepsCalls(w, t, l);
      OnlyCreates(w, t, l);
    }
    hide CallsFit;
  }

  lemma OnlyMakes(w: World, t: Thread, l: Luck)
    ensures var e := Land(w, t, Creating, l).effect; e.Nothing? || e.MakeOrder?
  {
  }

  lemma OnlyCreates(w: World, t: Thread, l: Luck)
    requires !t.HasSaga()
    ensures var e := Proceed(w, t, l).effect; e.Nothing? || e.MakeOrder?
  {
  }

  lemma AccountsIgnoreThreads(t: Thread, o: string, w: World, id: string, t': Thread)
    requires Accounts(t, o, w)
    ensures Accounts(t, o, Put(w, id, t'))
  {
  }

  lemma StoreOfOrders(w: World)
    requires OrdersOk(w)
    ensures StoreOk(w.orders)
  {
  }

  /** Accounts of the orders that the moving thread did not make. */
  lemma OtherAccountsKept(w: World, id: string, l: Luck, o: string)
    requires Enabled(w, Move(id, l)) && OrdersOk(w) && SagasOk(w) && CreatorsOk(w) && CallsOk(w) && Ledger(w)
    requires o in w.orders && Sole(w, w.orders[o].key) && w.creators[o] != id
    ensures Accounts(w.threads[w.creators[o]], o, MoveThread(w, id, l))
  {
    hide Decide, Perform, Accounts, StoreOk, CallsFit, Sole, Honest, MadeOrder, Allowed;
    var t := w.threads[id];
    var d := Decide(w, t, l);
    var other := w.threads[w.creators[o]];
    assert AccountedFor(w, o);
    assert CallsFit(t);
    Guards(w, id, l);
    AllowedFits(w, id, d.effect, l);
    if t.HasSaga() && o == t.order.id {
      assert SagaFits(t, w.orders);
      SoleSaga(w, id);
    }
    StoreOfOrders(w);
    OthersAccounted(w, id, d.effect, l, other, o);
    AccountsIgnoreThreads(other, o, Perform(w, id, d.effect, l), id, d.thread);
  }

  lemma SagaIsReady(w: World, id: string, l: Luck)
    requires Enabled(w, Move(id, l)) && w.threads[id].HasSaga() && Sole(w, w.threads[id].key)
    requires OrdersOk(w) && SagasOk(w) && CreatorsOk(w) && CallsOk(w) && BooksOk(w) && Ledger(w)
    ensures Ready(w, id, l)
  {
    hide CallsFit, Honest, Accounts, Books, Sole;
    var t := w.threads[id];
    SoleSaga(w, id);
    assert SagaFits(t, w.orders);
    OwnKeyOnly(w, t);
    assert CallsFit(t) && Honest(t) && AccountedFor(w, t.order.id);
  }

  lemma LateMoveAccounted(w: World, id: string, l: Luck)
    requires Ready(w, id, l) && l.late.Some?
    ensures Accounted(w, id, l)
  {
    hide Accounted, Accounts, Honest, PhaseFits;
    match l.late.value
    case Reserving => { LateReserveAccounted(w, id, l); }
    case Releasing => { LateReleaseAccounted(w, id, l); }
    case Charging => { LateChargeAccounted(w, id, l); }
    case Refunding => { LateRefundAccounted(w, id, l); }
    case Confirming => { LateConfirmAccounted(w, id, l); }
    case Cancelling => { LateCancelAccounted(w, id, l); }
    case Creating => { HangingFits(w.threads[id]); }
  }

  lemma SagaMoveAccounted(w: World, id: string, l: Luck)
    requires Enabled(w, Move(id, l)) && w.threads[id].HasSaga() && Sole(w, w.threads[id].key)
    requires OrdersOk(w) && SagasOk(w) && CreatorsOk(w) && CallsOk(w) && BooksOk(w) && Ledger(w)
    ensures Accounted(w, id, l)
  {
    hide Ready, Accounted, OrdersOk, SagasOk, CreatorsOk, CallsOk, BooksOk, Ledger, Sole;
    SagaIsReady(w, id, l);
    if l.late.Some? {
      LateMoveAccounted(w, id, l);
      return;
    }
    match w.threads[id].phase
    case ReserveProbe => { ReserveMoveAccounted(w, id, l); }
    case ReserveLock => { ReserveMoveAccounted(w, id, l); }
    case ChargeProbe => { ChargeMoveAccounted(w, id, l); }
    case ChargeLock => { ChargeMoveAccounted(w, id, l); }
    case RefundProbe => { RefundMoveAccounted(w, id, l); }
    case RefundLock => { RefundMoveAccounted(w, id, l); }
    case ReleaseProbe => { ReleaseMoveAccounted(w, id, l); }
    case ReleaseLock => { ReleaseMoveAccounted(w, id, l); }
    case Confirm => { ConfirmMoveAccounted(w, id, l); }
    case Cancel => { CancelMoveAccounted(w, id, l); }
  }

  /** The account of the order that the moving thread made earlier. */
  lemma OwnAccountKept(w: World, id: string, l: Luck, o: string)
    requires Enabled(w, Move(id, l)) && Sole(w, w.threads[id].key) && o in w.orders
    requires OrdersOk(w) && SagasOk(w) && CreatorsOk(w) && CallsOk(w) && BooksOk(w) && Ledger(w)
    requires w.creators[o] == id
    ensures Accounts(Decide(w, w.threads[id], l).thread, o, MoveThread(w, id, l))
  {
    hide Decide, Perform, Accounts, Honest, CallsFit, OrdersOk, SagasOk, BooksOk, Sole, Ledger, Narrow;
    var t := w.threads[id];
    var d := Decide(w, t, l);
    assert CallsFit(t) && MadeOrder(t, o, w.orders[o]);
    if !t.HasSaga() {
      OrderlessMove(w, id, l);
      assert false;
    }
    SagaMoveAccounted(w, id, l);
    AccountsIgnoreThreads(d.thread, t.order.id, Perform(w, id, d.effect, l), id, d.thread);
  }

  lemma NewAccount(w: World, id: string, l: Luck)
    requires Enabled(w, Move(id, l)) && CallsFit(w.threads[id])
    requires OrdersOk(w) && BooksOk(w) && CachesBacked(w.caches, w.orders, w.history)
    requires Decide(w, w.threads[id], l).effect.MakeOrder?
    ensures AccountedFor(MoveThread(w, id, l), l.uuid)
  {
    hide Decide, Perform, Accounts, CallsFit, OrdersOk, BooksOk, CachesBacked, Allowed;
    var d := Decide(w, w.threads[id], l);
    Guards(w, id, l);
    PerformShape(w, id, d.effect, l);
    NewOrderAccounted(w, id, l);
    AccountsIgnoreThreads(d.thread, l.uuid, Perform(w, id, d.effect, l), id, d.thread);
  }

  lemma MoveKeepsHonesty(w: World, id: string, l: Luck)
    requires Enabled(w, Move(id, l)) && Sole(w, w.threads[id].key)
    requires OrdersOk(w) && SagasOk(w) && CreatorsOk(w) && CallsOk(w) && BooksOk(w) && Ledger(w)
    ensures Honest(Decide(w, w.threads[id], l).thread)
  {
    hide Decide, Perform, Accounts, Honest, CallsFit, OrdersOk, SagasOk, CreatorsOk, BooksOk, Sole;
    assert CallsFit(w.threads[id]) && Honest(w.threads[id]);
    if w.threads[id].HasSaga() { SagaMoveAccounted(w, id, l); } else { OrderlessMove(w, id, l); }
  }

  /** What a move does to threads, orders and their makers. */
  lemma MoveShape(w: World, id: string, l: Luck)
    requires Enabled(w, Move(id, l)) && CallsFit(w.threads[id]) && OrdersOk(w)
    ensures var w' := MoveThread(w, id, l);
            var d := Decide(w, w.threads[id], l);
            && w'.threads == w.threads[id := d.thread] && d.thread.key == w.threads[id].key
            && (forall o :: o in w.orders ==> o in w'.orders && w'.orders[o].key == w.orders[o].key)
            && (if d.effect.MakeOrder?
                then w'.creators == w.creators[l.uuid := id] && w'.orders.Keys == w.orders.Keys + {l.uuid}
                else w'.creators == w.creators && w'.orders.Keys == w.orders.Keys)
  {
    hide Decide, Perform, CallsFit, OrdersOk, Allowed;
    var e := Decide(w, w.threads[id], l).effect;
    Guards(w, id, l);
    PerformShape(w, id, e, l);
    PerformKeepsOrders(w, id, e, l);
    forall o | o in w.orders
      ensures Perform(w, id, e, l).orders[o].key == w.orders[o].key
    {
      assert Perform(w, id, e, l).orders[o].(status := w.orders[o].status) == w.orders[o];
    }
  }

  lemma SoleThroughout(w: World, w': World, key: string)
    requires Overselling.RequestsKept(w, w') && Sole(w', key)
    ensures Sole(w, key)
  {
    forall a, b | a in w.threads && b in w.threads && w.threads[a].key == key && w.threads[b].key == key && key != ""
      ensures a == b
    {
      assert Overselling.SameRequest(w.threads[a], w'.threads[a]);
      assert Overselling.SameRequest(w.threads[b], w'.threads[b]);
    }
  }

  lemma MoveKeepsLedger(w: World, id: string, l: Luck)
    requires Enabled(w, Move(id, l))
    requires OrdersOk(w) && SagasOk(w) && CreatorsOk(w) && CallsOk(w) && BooksOk(w) && BackedOk(w) && Ledger(w)
    ensures Ledger(MoveThread(w, id, l))
  {
    hide MoveThread, Decide, Accounts, Honest, CallsFit, OrdersOk, SagasOk, BooksOk, CachesBacked, Sole, MadeOrder;
    var t, w' := w.threads[id], MoveThread(w, id, l);
    assert CallsFit(t) && CachesBacked(w.caches, w.orders, w.history);
    MoveShape(w, id, l);
    Overselling.StepKeepsRequests(w, Move(id, l));
    forall key | Sole(w', key) ensures Sole(w, key) { SoleThroughout(w, w', key); }
    if Decide(w, t, l).effect.MakeOrder? {
      NewAccount(w, id, l);
    }
    forall o | o in w.orders && Sole(w, w.orders[o].key)
      ensures AccountedFor(w', o)
    {
      assert AccountedFor(w, o);
      if w.creators[o] == id {
        assert t.key == w.orders[o].key by { MakersKey(w, o); }
        OwnAccountKept(w, id, l, o);
      } else {
        OtherAccountsKept(w, id, l, o);
      }
    }
    if Sole(w, t.key) {
      MoveKeepsHonesty(w, id, l);
    }
    hide AccountedFor, Overselling.RequestsKept;
  }

  lemma MakersKey(w: World, o: string)
    requires CreatorsOk(w) && o in w.orders
    ensures w.threads[w.creators[o]].key == w.orders[o].key
  {
    assert MadeOrder(w.threads[w.creators[o]], o, w.orders[o]);
  }

  lemma SubmitKeepsLedger(w: World, id: string, t: Thread)
    requires CreatorsOk(w) && Ledger(w) && id !in w.threads && t == NewThread(t.key, t.customer, t.items)
    ensures Ledger(Put(w, id, t))
  {
    hide Accounts, Sole, MadeOrder;
    var w' := Put(w, id, t);
    forall key | Sole(w', key) ensures Sole(w, key) { SoleThroughout(w, w', key); }
    forall o | o in w.orders && Sole(w, w.orders[o].key)
      ensures AccountedFor(w', o)
    {
      assert AccountedFor(w, o);
      AccountsIgnoreThreads(w.threads[w.creators[o]], o, w, id, t);
    }
  }

  lemma ForgetKeepsLedger(w: World, gone: Caches)
    requires Ledger(w)
    ensures Ledger(Apply(w, Forget(gone)))
  {
    hide Sole, StatusTold;
    var w' := Apply(w, Forget(gone));
    forall key | Sole(w', key) ensures Sole(w, key) { SoleThroughout(w, w', key); }
    forall o | o in w.orders && Sole(w, w.orders[o].key)
      ensures AccountedFor(w', o)
    {
      assert AccountedFor(w, o);
    }
  }

  lemma StepKeepsLedger(w: World, a: Action, initial: map<string, int>)
    requires Enabled(w, a) && Inv(w, initial) && Ledger(w)
    ensures Ledger(Apply(w, a))
  {
    hide MoveThread, OrdersOk, SagasOk, CallsOk, CreatorsOk, BooksOk, BackedOk, StatusesOk, Inventory.Conserved, Ledger;
    match a
    case Submit(id, key, customer, items) => { SubmitKeepsLedger(w, id, NewThread(key, customer, items)); }
    case Move(id, l) => { MoveKeepsLedger(w, id, l); }
    case Forget(gone) => { ForgetKeepsLedger(w, gone); }
  }

  lemma {:induction false} RunKeepsLedger(worlds: seq<World>, actions: seq<Action>, initial: map<string, int>, i: nat)
    requires IsRun(worlds, actions, initial) && i < |worlds|
    ensures Ledger(worlds[i])
  {
    hide Inv, Apply;
    if i > 0 {
      hide Ledger;
      assert Follows(worlds[i - 1], actions[i - 1], worlds[i]);
      RunKeepsLedger(worlds, actions, initial, i - 1);
      RunKeepsInv(worlds, actions, initial, i - 1);
      StepKeepsLedger(worlds[i - 1], actions[i - 1], initial);
    }
  }
}
