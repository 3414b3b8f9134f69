/** What every step of every run keeps, with duplicate submissions, lost replies and forgotten caches:
    keys bind one order, and cached orders are copies of stored ones; every saga works on an order with its
    own key and contents, and a saga without a key on an order of its own; each order has the one thread
    that made it; the calls of a thread fit its phase; the services' maps say what the history says; and
    behind every "yes", every cache entry and every status there is a recorded write. */
module Invariants {
  import opened Options
  import opened Items
  import opened History
  import opened Protocol
  import Inventory
  import Payment
  import Orders

  ghost predicate Agrees(info: Orders.Info, o: Orders.Order) {
    info.customer == o.customer && info.items == o.items && info.total == o.total
  }

  /** Orders keep everything but their status. */
  ghost predicate Extends(before: map<string, Orders.Order>, after: map<string, Orders.Order>) {
    forall o :: o in before ==>
      o in after && after[o].(status := before[o].status) == before[o]
  }

  ghost predicate OrdersOk(w: World) {
    StoreOk(w.orders) && CreateCacheOk(w.caches.create, w.orders)
  }

  ghost predicate StoreOk(orders: map<string, Orders.Order>) {
    && Orders.UniqueKeys(orders)
    && (forall o :: o in orders ==> FitsInt32(orders[o].items) && orders[o].total == Total(orders[o].items))
  }

  /** A cached create reply is a copy of the stored order with its key, up to the status. */
  ghost predicate CreateCacheOk(cached: map<string, Orders.Info>, orders: map<string, Orders.Order>) {
    forall k :: k in cached ==>
      k != "" && cached[k].id in orders && orders[cached[k].id].key == k && Agrees(cached[k], orders[cached[k].id])
  }

  /** Every saga works on an order with its own key, and with the contents of that order. */
  ghost predicate SagasOk(w: World) {
    forall id :: id in w.threads && w.threads[id].HasSaga() ==> SagaFits(w.threads[id], w.orders)
  }

  ghost predicate SagaFits(t: Thread, orders: map<string, Orders.Order>) {
    t.order.id in orders && orders[t.order.id].key == t.key && Agrees(t.order, orders[t.order.id])
  }

  function OrderOf(t: Thread): Orders.Order {
    Orders.FromRequest(t.customer, t.key, Narrow(t.items))
  }

  /** The thread that made an order: it asked for it, and knows it even if its reply was lost. */
  ghost predicate MadeOrder(t: Thread, o: string, order: Orders.Order) {
    && t.order.id == o && t.key == order.key && Narrow(t.items) == order.items
    && t.create.TookEffect() && !t.phase.CreateProbe? && !t.phase.CreateLock?
  }

  /** A saga without a key works on an order of its own. */
  ghost predicate KeylessOwns(t: Thread, id: string, creators: map<string, string>) {
    t.HasSaga() && t.key == "" ==> t.order.id in creators && creators[t.order.id] == id
  }

  ghost predicate CreatorsOk(w: World) {
    Creators(w.creators, w.orders, w.threads)
  }

  ghost predicate Creators(creators: map<string, string>, orders: map<string, Orders.Order>,
                           threads: map<string, Thread>) {
    && creators.Keys == orders.Keys
    && (forall o :: o in orders ==> creators[o] in threads && MadeOrder(threads[creators[o]], o, orders[o]))
    && (forall id :: id in threads ==> KeylessOwns(threads[id], id, creators))
  }

  /** The calls a saga has made fit its phase, and their replies are ones that the order service gives. */
  ghost predicate CallsFit(t: Thread) {
    && PhaseFits(t)
    && (t.create.Answered? ==> t.create.ok)
    && (t.confirm.Answered? ==> t.confirm.ok && t.confirm.effect)
    && (t.cancel.Answered? ==> t.cancel.ok && t.cancel.effect)
  }

  /** Forward in order, then undo in reverse. */
  ghost predicate PhaseFits(t: Thread) {
    var none := t.refund.Unsent? && t.release.Unsent? && t.cancel.Unsent?;
    var chargeFailed := t.reserve.Succeeded() && !t.charge.Unsent? && !t.charge.Succeeded() && t.confirm.Unsent?
        && t.refund.Unsent?;
    var confirmFailed := t.reserve.Succeeded() && t.charge.Succeeded() && !t.confirm.Unsent? && !t.confirm.Succeeded();
    match t.phase
    case CreateProbe => t == NewThread(t.key, t.customer, t.items)
    case CreateLock => t == NewThread(t.key, t.customer, t.items).(phase := CreateLock)
    case NotStarted =>
      !t.create.Unsent? && !t.create.Succeeded() && t.reserve.Unsent? && t.charge.Unsent? && t.confirm.Unsent? && none
    case ReserveProbe => t.create.Succeeded() && t.reserve.Unsent? && t.charge.Unsent? && t.confirm.Unsent? && none
    case ReserveLock => t.create.Succeeded() && t.reserve.Unsent? && t.charge.Unsent? && t.confirm.Unsent? && none
    case ChargeProbe => t.create.Succeeded() && t.reserve.Succeeded() && t.charge.Unsent? && t.confirm.Unsent? && none
    case ChargeLock => t.create.Succeeded() && t.reserve.Succeeded() && t.charge.Unsent? && t.confirm.Unsent? && none
    case Confirm => t.create.Succeeded() && t.reserve.Succeeded() && t.charge.Succeeded() && t.confirm.Unsent? && none
    case Completed =>
      t.create.Succeeded() && t.reserve.Succeeded() && t.charge.Succeeded() && t.confirm.Succeeded() && none
    case RefundProbe => t.create.Succeeded() && confirmFailed && none
    case RefundLock => t.create.Succeeded() && confirmFailed && none
    case ReleaseProbe =>
      && t.create.Succeeded() && (chargeFailed || (confirmFailed && !t.refund.Unsent?))
      && t.release.Unsent? && t.cancel.Unsent?
    case ReleaseLock =>
      && t.create.Succeeded() && (chargeFailed || (confirmFailed && !t.refund.Unsent?))
      && t.release.Unsent? && t.cancel.Unsent?
    case Cancel => t.create.Succeeded() && RolledBack(t) && t.cancel.Unsent?
    case Compensated => t.create.Succeeded() && RolledBack(t) && !t.cancel.Unsent?
  }

  /** A failed saga whose compensations, and no others, have been called. */
  ghost predicate RolledBack(t: Thread) {
    || (!t.reserve.Unsent? && !t.reserve.Succeeded() && t.charge.Unsent? && t.confirm.Unsent?
        && t.refund.Unsent? && t.release.Unsent?)
    || (t.reserve.Succeeded() && !t.charge.Unsent? && !t.charge.Succeeded() && t.confirm.Unsent?
        && t.refund.Unsent? && !t.release.Unsent?)
    || (t.reserve.Succeeded() && t.charge.Succeeded() && !t.confirm.Unsent? && !t.confirm.Succeeded()
        && !t.refund.Unsent? && !t.release.Unsent?)
  }

  ghost predicate CallsOk(w: World) {
    forall id :: id in w.threads ==> CallsFit(w.threads[id])
  }

  /** Recorded takes speak of stored orders: the goods are the order's lines, the money its total. */
  ghost predicate EventsOk(h: History, orders: map<string, Orders.Order>) {
    h.Then? ==>
      && EventsOk(h.before, orders)
      && h.last.order in orders
      && (h.last.Reserved? ==> h.last.lines == StockLines(orders[h.last.order].items))
      && (h.last.Charged? ==> h.last.amount == orders[h.last.order].total <= Payment.LIMIT)
  }

  /** The services' maps say what the history says. */
  ghost predicate BooksOk(w: World) {
    Books(w.history, w.orders, w.inventory.reservations, w.payments)
  }

  ghost predicate Books(h: History, orders: map<string, Orders.Order>,
                        reservations: map<string, Inventory.Reservation>, payments: map<string, real>) {
    && EventsOk(h, orders)
    && (forall r, o :: Alternates(h, r, o))
    && (forall o :: o in reservations <==> Holds(h, Goods, o))
    && (forall o :: o in payments <==> Holds(h, Money, o))
    && (forall o :: o in reservations ==>
          o in orders && reservations[o] == Inventory.Reservation(orders[o].key, StockLines(orders[o].items)))
    && (forall o :: o in payments ==> o in orders && payments[o] == orders[o].total)
  }

  /** Without a key nothing protects a reservation from being overwritten but there being one saga. */
  ghost predicate NoOverwrite(w: World) {
    forall id :: id in w.threads ==> Unheld(w.threads[id], w.inventory.reservations)
  }

  ghost predicate Unheld(t: Thread, reservations: map<string, Inventory.Reservation>) {
    t.key == "" && (t.phase.ReserveProbe? || t.phase.ReserveLock? || t.reserve.Hanging?) ==> t.order.id !in reservations
  }

  /** Every "yes" about goods or money, from memory or cache, has a recorded take behind it. */
  ghost predicate BackedOk(w: World) {
    && CachesBacked(w.caches, w.orders, w.history)
    && (forall id :: id in w.threads ==> RepliesBacked(w.threads[id], w.history))
    && InSagaOrder(w.history)
  }

  /** Every status is the last one written, and every Confirm and Cancel that took effect was. */
  ghost predicate StatusesOk(w: World) {
    && (forall o :: o in w.orders ==> w.orders[o].status == StatusOf(w.history, o))
    && (forall id :: id in w.threads ==> StatusRecorded(w.threads[id], w.history))
  }

  ghost predicate StatusRecorded(t: Thread, h: History) {
    && (t.confirm.TookEffect() ==> EverConfirmed(h, t.order.id))
    && (t.cancel.TookEffect() ==> EverCancelled(h, t.order.id))
  }

  ghost predicate CachesBacked(caches: Caches, orders: map<string, Orders.Order>, h: History) {
    && (forall k :: k in caches.reserve ==>
          && k != "" && caches.reserve[k] in orders && orders[caches.reserve[k]].key == k
          && EverTaken(h, Goods, caches.reserve[k]))
    && (forall o :: o in caches.charge ==> EverTaken(h, Money, o))
    && (forall o :: o in caches.release ==> EverTaken(h, Goods, o))
    && (forall o :: o in caches.refund ==> EverTaken(h, Money, o))
  }

  ghost predicate RepliesBacked(t: Thread, h: History) {
    && (t.reserve.Succeeded() ==> EverTaken(h, Goods, t.order.id))
    && (t.charge.Succeeded() ==> EverTaken(h, Money, t.order.id))
  }

  lemma {:induction false} HoldsWasTaken(h: History, r: Resource, o: string)
    requires Holds(h, r, o)
    ensures EverTaken(h, r, o)
  {
    if !Takes(h.last, r, o) { HoldsWasTaken(h.before, r, o); }
  }

  lemma {:induction false} TakenIsStored(h: History, orders: map<string, Orders.Order>, r: Resource, o: string)
    requires EventsOk(h, orders) && EverTaken(h, r, o)
    ensures o in orders
    ensures r == Money ==> orders[o].total <= Payment.LIMIT
  {
    if !Takes(h.last, r, o) { TakenIsStored(h.before, orders, r, o); }
  }

  lemma {:induction false} EventsExtend(h: History, before: map<string, Orders.Order>, after: map<string, Orders.Order>)
    requires EventsOk(h, before) && Extends(before, after)
    ensures EventsOk(h, after)
  {
    if h.Then? { EventsExtend(h.before, before, after); }
  }

  /** When a locked section may write. */
  ghost predicate Allowed(w: World, t: Thread, e: Effect, l: Luck) {
    match e
    case Nothing => true
    case MakeOrder => (t.phase.CreateLock? || (t.phase.NotStarted? && t.create.Hanging?)) && CreateFor(w, t, l).effect
    case TakeStock => (t.phase.ReserveLock? || t.reserve.Hanging?) && ReserveFor(w, t).effect
    case TakeMoney =>
      (t.phase.ChargeLock? || t.charge.Hanging?) && Payment.Charge(w.payments, t.order.id, t.order.total).effect
    case ReturnMoney => (t.phase.RefundLock? || t.refund.Hanging?) && t.order.id in w.payments
    case ReturnStock => (t.phase.ReleaseLock? || t.release.Hanging?) && t.order.id in w.inventory.reservations
    case WriteStatus(status) =>
      && t.order.id in w.orders
      && (((t.phase.Confirm? || t.confirm.Hanging?) && status.CONFIRMED?)
          || ((t.phase.Cancel? || t.cancel.Hanging?) && status.CANCELLED?))
  }

  // Late calls

  /** What a phase asks of calls is whether they were sent and whether they were answered yes. */
  lemma PhaseSeesReplies(t: Thread, t': Thread)
    requires PhaseFits(t) && t'.phase == t.phase && !t.phase.CreateProbe? && !t.phase.CreateLock?
    requires forall op: Op :: t'.CallOf(op).Unsent? == t.CallOf(op).Unsent?
    requires forall op: Op :: t'.CallOf(op).Succeeded() == t.CallOf(op).Succeeded()
    ensures PhaseFits(t')
  {
    assert t'.create == t'.CallOf(Creating) && t.create == t.CallOf(Creating);
    assert t'.reserve == t'.CallOf(Reserving) && t.reserve == t.CallOf(Reserving);
    assert t'.charge == t'.CallOf(Charging) && t.charge == t.CallOf(Charging);
    assert t'.confirm == t'.CallOf(Confirming) && t.confirm == t.CallOf(Confirming);
    assert t'.refund == t'.CallOf(Refunding) && t.refund == t.CallOf(Refunding);
    assert t'.release == t'.CallOf(Releasing) && t.release == t.CallOf(Releasing);
    assert t'.cancel == t'.CallOf(Cancelling) && t.cancel == t.CallOf(Cancelling);
  }

  /** Which calls of a thread can be hanging. */
  lemma HangingFits(t: Thread)
    requires CallsFit(t)
    ensures forall op: Op :: t.CallOf(op).Hanging? ==> !t.phase.CreateProbe? && !t.phase.CreateLock?
    ensures t.create.Hanging? ==> t.phase.NotStarted?
    ensures forall op: Op :: t.CallOf(op).Hanging? && op != Creating ==> t.HasSaga()
    ensures t.charge.Hanging? || t.confirm.Hanging? ==> t.reserve.Succeeded()
    ensures t.confirm.Hanging? ==> t.charge.Succeeded()
  {
  }

  /** A late call changes nothing that its saga can see. */
  lemma LandShape(w: World, t: Thread, op: Op, l: Luck)
    requires CallsFit(t) && t.CallOf(op).Hanging?
    ensures var d := Land(w, t, op, l);
            && CallsFit(d.thread) && d.thread.phase == t.phase && d.thread.HasSaga() == t.HasSaga()
            && d.thread.key == t.key && d.thread.customer == t.customer && d.thread.items == t.items
            && (t.HasSaga() ==> op != Creating && d.thread.order == t.order && d.thread.create == t.create)
            && (forall o: Op :: d.thread.CallOf(o) == if o == op then Landed(!d.effect.Nothing?) else t.CallOf(o))
            && (!d.effect.MakeOrder? ==> d.thread.order == t.order)
            && (d.effect.MakeOrder? ==> op == Creating)
  {
    hide LateEffect, PhaseFits, CreateFor;
    HangingFits(t);
    PhaseSeesReplies(t, Land(w, t, op, l).thread);
    assert LateEffect(w, t, op, l).MakeOrder? ==> op == Creating by { LateEffectFits(w, t, op, l); }
  }

  lemma LateEffectFits(w: World, t: Thread, op: Op, l: Luck)
    requires CallsFit(t) && t.CallOf(op).Hanging?
    ensures LateEffect(w, t, op, l).MakeOrder? ==> op == Creating
    ensures Allowed(w, t, LateEffect(w, t, op, l), l)
  {
    HangingFits(t);
    hide PhaseFits, CreateFor, ReserveFor;
  }

  lemma LandGuards(w: World, t: Thread, op: Op, l: Luck)
    requires CallsFit(t) && t.CallOf(op).Hanging?
    ensures var d := Land(w, t, op, l);
            Allowed(w, t, d.effect, l)
            && (d.effect.MakeOrder? ==> MadeOrder(d.thread, CreateFor(w, t, l).info.id, OrderOf(t)))
  {
    hide LateEffect, PhaseFits, CreateFor;
    HangingFits(t);
    LateEffectFits(w, t, op, l);
  }

  // A thread's own moves

  lemma ProceedGuards(w: World, t: Thread, l: Luck)
    ensures var d := Proceed(w, t, l);
            && Allowed(w, t, d.effect, l)
            && d.thread.key == t.key && d.thread.customer == t.customer && d.thread.items == t.items
            && (!t.phase.CreateProbe? && !t.phase.CreateLock? ==>
                  d.thread.order == t.order && d.thread.create == t.create)
            && (d.effect.MakeOrder? ==> MadeOrder(d.thread, CreateFor(w, t, l).info.id, OrderOf(t)))
  {
    hide CreateFor, ReserveFor, MadeOrder, Reply, NoReply, Payment.Charge;
    match t.phase
    case CreateLock => { CreationGuards(w, t, l); }
    case ReserveLock => {}
    case ChargeLock => {}
    case Confirm => {}
    case RefundLock => {}
    case ReleaseLock => {}
    case Cancel => {}
    case _ => {}
  }

  lemma CreationGuards(w: World, t: Thread, l: Luck)
    requires t.phase.CreateLock?
    ensures var d := Proceed(w, t, l);
            d.effect.MakeOrder? ==>
              MadeOrder(d.thread, CreateFor(w, t, l).info.id, Orders.FromRequest(t.customer, t.key, Narrow(t.items)))
  {
    hide CreateFor;
  }

  lemma Guards(w: World, id: string, l: Luck)
    requires Enabled(w, Move(id, l)) && CallsFit(w.threads[id])
    ensures var t := w.threads[id];
            var d := Decide(w, t, l);
            && Allowed(w, t, d.effect, l)
            && d.thread.key == t.key && d.thread.customer == t.customer && d.thread.items == t.items
            && (t.HasSaga() ==> d.thread.HasSaga() && d.thread.order == t.order && d.thread.create == t.create)
            && (d.effect.MakeOrder? ==> MadeOrder(d.thread, CreateFor(w, t, l).info.id, OrderOf(t)))
  {
    hide Proceed, Land, CallsFit, Allowed, MadeOrder, CreateFor;
    var t := w.threads[id];
    if l.late.Some? {
      LandShape(w, t, l.late.value, l);
      LandGuards(w, t, l.late.value, l);
    } else {
      ProceedGuards(w, t, l);
      ProceedKeepsSaga(w, t, l);
    }
  }

  /** No move changes what was requested. */
  lemma DecisionKeepsRequest(w: World, t: Thread, l: Luck)
    ensures var t' := Decide(w, t, l).thread; t'.key == t.key && t'.customer == t.customer && t'.items == t.items
  {
    hide Proceed, LateEffect, CreateFor, Allowed;
    ProceedGuards(w, t, l);
  }

  lemma ProceedKeepsSaga(w: World, t: Thread, l: Luck)
    ensures t.HasSaga() ==> Proceed(w, t, l).thread.HasSaga()
  {
    hide CreateFor, ReserveFor, Reply, NoReply, Payment.Charge, Payment.Refund, Inventory.Release, Orders.UpdateStatus;
    match t.phase
    case ReserveProbe => {}
    case ChargeProbe => {}
    case RefundProbe => {}
    case ReleaseProbe => {}
    case _ => {}
  }

  lemma NewOrderKeepsStore(orders: map<string, Orders.Order>, uuid: string, o: Orders.Order)
    requires StoreOk(orders) && uuid !in orders
    requires o.key != "" ==> !Orders.HasKey(orders, o.key)
    requires FitsInt32(o.items) && o.total == Total(o.items)
    ensures StoreOk(orders[uuid := o]) && Extends(orders, orders[uuid := o])
  {
  }

  lemma StatusKeepsStore(orders: map<string, Orders.Order>, id: string, status: Orders.Status)
    requires StoreOk(orders)
    ensures var after := Orders.UpdateStatus(orders, id, status).GetOr(orders);
            StoreOk(after) && Extends(orders, after)
  {
  }

  lemma MakeOrderShape(w: World, t: Thread, l: Luck) returns (o: Orders.Order)
    requires CreateFor(w, t, l).effect
    ensures o == Orders.FromRequest(t.customer, t.key, Narrow(t.items)) && FitsInt32(o.items)
    ensures t.key != "" ==> !Orders.HasKey(w.orders, t.key)
    ensures CreateFor(w, t, l) == Orders.CreateReply(w.orders[l.uuid := o], Orders.ToInfo(l.uuid, o), true)
    ensures Agrees(Orders.ToInfo(l.uuid, o), o)
  {
    o := Orders.FromRequest(t.customer, t.key, Narrow(t.items));
    NarrowFits(t.items);
    NarrowOnce(o.items);
  }

  lemma PerformKeepsOrders(w: World, id: string, e: Effect, l: Luck)
    requires id in w.threads && OrdersOk(w) && l.uuid !in w.orders
    requires Allowed(w, w.threads[id], e, l)
    ensures OrdersOk(Perform(w, id, e, l)) && Extends(w.orders, Perform(w, id, e, l).orders)
  {
    match e
    case MakeOrder => {
      var o := MakeOrderShape(w, w.threads[id], l);
      NewOrderKeepsStore(w.orders, l.uuid, o);
      CreateCacheExtends(w.caches.create, w.orders, w.orders[l.uuid := o]);
    }
    case WriteStatus(status) => {
      StatusKeepsStore(w.orders, w.threads[id].order.id, status);
      CreateCacheExtends(w.caches.create, w.orders, Perform(w, id, e, l).orders);
    }
    case _ => {}
  }

  lemma CreateCacheExtends(cached: map<string, Orders.Info>, before: map<string, Orders.Order>, after: map<string,
      Orders.Order>)
    requires CreateCacheOk(cached, before) && Extends(before, after)
    ensures CreateCacheOk(cached, after)
  {
    forall k | k in cached
      ensures cached[k].id in after && after[cached[k].id].key == k && Agrees(cached[k], after[cached[k].id])
    {
      var o := cached[k].id;
      assert after[o].(status := before[o].status) == before[o];
    }
  }

  lemma DecisionFits(w: World, id: string, l: Luck)
    requires Enabled(w, Move(id, l)) && OrdersOk(w) && SagasOk(w) && CallsFit(w.threads[id])
    ensures var d := Decide(w, w.threads[id], l);
            d.thread.HasSaga() ==> SagaFits(d.thread, Perform(w, id, d.effect, l).orders)
  {
    hide Proceed, Land, CallsFit;
    var t := w.threads[id];
    var d := Decide(w, t, l);
    Guards(w, id, l);
    PerformKeepsOrders(w, id, d.effect, l);
    if t.HasSaga() {
      hide Perform, OrdersOk;
      FitsExtend(t, d.thread, w.orders, Perform(w, id, d.effect, l).orders);
    } else if l.late.Some? {
      LandShape(w, t, l.late.value, l);
    } else {
      CreationFits(w, id, l);
    }
  }

  lemma FitsExtend(t: Thread, t': Thread, before: map<string, Orders.Order>, after: map<string, Orders.Order>)
    requires SagaFits(t, before) && Extends(before, after) && t'.order == t.order && t'.key == t.key
    ensures SagaFits(t', after)
  {
    var o := t.order.id;
    assert after[o].(status := before[o].status) == before[o];
  }

  /** The order a request is given is stored, with its key and contents. */
  lemma CreationFits(w: World, id: string, l: Luck)
    requires id in w.threads && OrdersOk(w) && !w.threads[id].HasSaga() && l.uuid !in w.orders
    ensures var d := Proceed(w, w.threads[id], l);
            d.thread.HasSaga() ==> SagaFits(d.thread, Perform(w, id, d.effect, l).orders)
  {
    hide CreateFor, ReserveFor, Orders.UpdateStatus;
    var t := w.threads[id];
    if t.phase.CreateLock? && !Astray(l.out) {
      CreateReplyFits(w, t, l);
      hide OrdersOk, SagaFits;
    }
  }

  lemma CreateReplyFits(w: World, t: Thread, l: Luck)
    requires StoreOk(w.orders) && l.uuid !in w.orders
    ensures var r := CreateFor(w, t, l);
            && (!r.effect ==> r.orders == w.orders)
            && r.info.id in r.orders && r.orders[r.info.id].key == t.key && Agrees(r.info, r.orders[r.info.id])
  {
    var r := CreateFor(w, t, l);
    NarrowFits(t.items);
    NarrowOnce(r.orders[r.info.id].items);
    hide Narrow, Total;
  }

  lemma MoveKeepsSagas(w: World, id: string, l: Luck)
    requires Enabled(w, Move(id, l)) && OrdersOk(w) && SagasOk(w) && CallsFit(w.threads[id])
    ensures var w' := MoveThread(w, id, l);
            OrdersOk(w') && SagasOk(w') && Extends(w.orders, w'.orders)
  {
    hide Decide, Perform, StoreOk, CreateCacheOk, CallsFit, Extends, SagaFits;
    var d := Decide(w, w.threads[id], l);
    Guards(w, id, l);
    PerformKeepsOrders(w, id, d.effect, l);
    PerformKeepsThreads(w, id, d.effect, l);
    DecisionFits(w, id, l);
    forall i | i in w.threads && i != id && w.threads[i].HasSaga()
      ensures SagaFits(w.threads[i], Perform(w, id, d.effect, l).orders)
    {
      FitsExtend(w.threads[i], w.threads[i], w.orders, Perform(w, id, d.effect, l).orders);
    }
  }

  /** The parts of the world that a write leaves alone. */
  lemma PerformShape(w: World, id: string, e: Effect, l: Luck)
    requires id in w.threads
    requires Allowed(w, w.threads[id], e, l)
    ensures var w' := Perform(w, id, e, l);
            && w'.threads == w.threads
            && (!e.MakeOrder? ==> w'.creators == w.creators && w'.orders.Keys == w.orders.Keys)
            && (e.MakeOrder? ==>
                  && w'.creators == w.creators[l.uuid := id]
                  && w'.orders == w.orders[l.uuid := OrderOf(w.threads[id])])
            && (!e.MakeOrder? && !e.WriteStatus? ==> w'.orders == w.orders)
            && (e.Nothing? ==> w' == w)
  {
    if e.MakeOrder? {
      var o := MakeOrderShape(w, w.threads[id], l);
    }
  }

  lemma DecisionKeepsMaker(w: World, id: string, l: Luck, o: string, order: Orders.Order)
    requires Enabled(w, Move(id, l)) && CallsFit(w.threads[id]) && MadeOrder(w.threads[id], o, order)
    ensures MadeOrder(Decide(w, w.threads[id], l).thread, o, order)
  {
    hide Proceed, Land, CallsFit;
    Guards(w, id, l);
    if l.late.Some? {
      LandShape(w, w.threads[id], l.late.value, l);
      assert w.threads[id].create == w.threads[id].CallOf(Creating);
      assert Decide(w, w.threads[id], l).thread.create == Decide(w, w.threads[id], l).thread.CallOf(Creating);
    } else {
      MakerHasSaga(w.threads[id]);
    }
  }

  lemma MakerHasSaga(t: Thread)
    requires CallsFit(t) && t.create.TookEffect() && !Final(t.phase)
    ensures t.HasSaga()
  {
  }

  lemma DecisionOwns(w: World, id: string, l: Luck)
    requires Enabled(w, Move(id, l)) && CreatorsOk(w) && CallsFit(w.threads[id])
    ensures var d := Decide(w, w.threads[id], l);
            KeylessOwns(d.thread, id, Perform(w, id, d.effect, l).creators)
  {
    hide Proceed, Land, CallsFit, Perform;
    var t := w.threads[id];
    Guards(w, id, l);
    PerformShape(w, id, Decide(w, t, l).effect, l);
    assert KeylessOwns(t, id, w.creators);
    if l.late.Some? {
      LandShape(w, t, l.late.value, l);
    } else if !t.HasSaga() && t.key == "" {
      KeylessMakes(w, t, l);
    }
    hide Creators;
  }

  /** Without a key there is no sharing: getting an order means making it. */
  lemma KeylessMakes(w: World, t: Thread, l: Luck)
    requires !t.HasSaga() && t.key == ""
    ensures var d := Proceed(w, t, l); d.thread.HasSaga() ==> d.effect.MakeOrder? && d.thread.order.id == l.uuid
  {
  }

  lemma NewCreator(creators: map<string, string>, orders: map<string, Orders.Order>, threads: map<string, Thread>,
                   id: string, t: Thread, uuid: string, o: Orders.Order)
    requires Creators(creators, orders, threads) && id in threads && uuid !in orders
    requires !threads[id].create.TookEffect()
    requires MadeOrder(t, uuid, o) && KeylessOwns(t, id, creators[uuid := id])
    ensures Creators(creators[uuid := id], orders[uuid := o], threads[id := t])
  {
  }

  lemma SameCreators(creators: map<string, string>, orders: map<string, Orders.Order>, after: map<string, Orders.Order>,
                     threads: map<string, Thread>, id: string, t: Thread)
    requires Creators(creators, orders, threads) && id in threads
    requires after.Keys == orders.Keys && Extends(orders, after)
    requires KeylessOwns(t, id, creators)
    requires forall o :: o in orders && creators[o] == id ==> MadeOrder(t, o, orders[o])
    ensures Creators(creators, after, threads[id := t])
  {
    forall o | o in after
      ensures after[o].key == orders[o].key && after[o].items == orders[o].items
    {
      assert after[o].(status := orders[o].status) == orders[o];
    }
  }

  lemma MoveKeepsCreators(w: World, id: string, l: Luck)
    requires Enabled(w, Move(id, l)) && OrdersOk(w) && CreatorsOk(w) && CallsFit(w.threads[id])
    ensures CreatorsOk(MoveThread(w, id, l))
  {
    hide Decide, Perform, OrdersOk, CallsFit;
    var t := w.threads[id];
    var d := Decide(w, t, l);
    Guards(w, id, l);
    PerformShape(w, id, d.effect, l);
    PerformKeepsOrders(w, id, d.effect, l);
    DecisionOwns(w, id, l);
    if d.effect.MakeOrder? {
      var o := MakeOrderShape(w, t, l);
      assert !t.create.TookEffect() by { MakerHasNone(w, t, l); }
      hide Creators;
      NewCreator(w.creators, w.orders, w.threads, id, d.thread, l.uuid, o);
    } else {
      forall o | o in w.orders && w.creators[o] == id
        ensures MadeOrder(d.thread, o, w.orders[o])
      {
        DecisionKeepsMaker(w, id, l, o, w.orders[o]);
      }
      hide Creators;
      SameCreators(w.creators, w.orders, Perform(w, id, d.effect, l).orders, w.threads, id, d.thread);
    }
  }

  lemma MakerHasNone(w: World, t: Thread, l: Luck)
    requires CallsFit(t) && Allowed(w, t, MakeOrder, l)
    ensures !t.create.TookEffect()
  {
  }

  // One lemma for each call: its result leads to the phase that fits it.

  lemma CreateFits(t: Thread, c: Call, info: Orders.Info)
    requires CallsFit(t) && (t.phase.CreateProbe? || t.phase.CreateLock?) && !c.Unsent? && (c.Answered? ==> c.ok)
    ensures CallsFit(AfterCreate(t, c, info))
  {
  }

  lemma ReserveFits(t: Thread, c: Call)
    requires CallsFit(t) && (t.phase.ReserveProbe? || t.phase.ReserveLock?) && !c.Unsent?
    ensures CallsFit(AfterReserve(t, c))
  {
  }

  lemma ChargeFits(t: Thread, c: Call)
    requires CallsFit(t) && (t.phase.ChargeProbe? || t.phase.ChargeLock?) && !c.Unsent?
    ensures CallsFit(AfterCharge(t, c))
  {
  }

  lemma ConfirmFits(t: Thread, c: Call)
    requires CallsFit(t) && t.phase.Confirm? && !c.Unsent? && (c.Answered? ==> c.ok && c.effect)
    ensures CallsFit(AfterConfirm(t, c))
  {
  }

  lemma RefundFits(t: Thread, c: Call)
    requires CallsFit(t) && (t.phase.RefundProbe? || t.phase.RefundLock?) && !c.Unsent?
    ensures CallsFit(AfterRefund(t, c))
  {
  }

  lemma ReleaseFits(t: Thread, c: Call)
    requires CallsFit(t) && (t.phase.ReleaseProbe? || t.phase.ReleaseLock?) && !c.Unsent?
    ensures CallsFit(AfterRelease(t, c))
  {
  }

  lemma CancelFits(t: Thread, c: Call)
    requires CallsFit(t) && t.phase.Cancel? && !c.Unsent? && (c.Answered? ==> c.ok && c.effect)
    ensures CallsFit(AfterCancel(t, c))
  {
  }

  lemma LockFits(t: Thread)
    requires CallsFit(t)
    ensures t.phase.CreateProbe? ==> CallsFit(t.(phase := CreateLock))
    ensures t.phase.ReserveProbe? ==> CallsFit(t.(phase := ReserveLock))
    ensures t.phase.ChargeProbe? ==> CallsFit(t.(phase := ChargeLock))
    ensures t.phase.RefundProbe? ==> CallsFit(t.(phase := RefundLock))
    ensures t.phase.ReleaseProbe? ==> CallsFit(t.(phase := ReleaseLock))
  {
  }

  lemma ProceedKeepsCalls(w: World, t: Thread, l: Luck)
    requires CallsFit(t)
    ensures CallsFit(Proceed(w, t, l).thread)
  {
    hide CallsFit;
    var t' := Proceed(w, t, l).thread;
    LockFits(t);
    match t.phase
    case CreateProbe => { if !t'.create.Unsent? { CreateFits(t, t'.create, t'.order); } }
    case CreateLock => { CreateFits(t, t'.create, t'.order); }
    case ReserveProbe => { if t'.phase != ReserveLock { ReserveFits(t, t'.reserve); } }
    case ReserveLock => { ReserveFits(t, t'.reserve); }
    case ChargeProbe => { if t'.phase != ChargeLock { ChargeFits(t, t'.charge); } }
    case ChargeLock => { ChargeFits(t, t'.charge); }
    case Confirm => { ConfirmFits(t, t'.confirm); }
    case RefundProbe => { if t'.phase != RefundLock { RefundFits(t, t'.refund); } }
    case RefundLock => { RefundFits(t, t'.refund); }
    case ReleaseProbe => { if t'.phase != ReleaseLock { ReleaseFits(t, t'.release); } }
    case ReleaseLock => { ReleaseFits(t, t'.release); }
    case Cancel => { CancelFits(t, t'.cancel); }
    case _ => {}
  }

  lemma MoveKeepsCalls(w: World, id: string, l: Luck)
    requires Enabled(w, Move(id, l)) && CallsOk(w)
    ensures CallsOk(MoveThread(w, id, l))
  {
    hide CallsFit, Proceed, Land, Perform;
    if l.late.Some? {
      LandShape(w, w.threads[id], l.late.value, l);
    } else {
      ProceedKeepsCalls(w, w.threads[id], l);
    }
    PerformKeepsThreads(w, id, Decide(w, w.threads[id], l).effect, l);
  }

  lemma PerformKeepsThreads(w: World, id: string, e: Effect, l: Luck)
    requires id in w.threads
    ensures Perform(w, id, e, l).threads == w.threads
  {
  }

  /** No Reserve ever meets a live reservation of its own order: the key, or being alone, prevents it. */
  lemma NotYetHeld(w: World, t: Thread)
    requires BooksOk(w) && SagaFits(t, w.orders) && ReserveFor(w, t).effect
    requires t.key == "" ==> t.order.id !in w.inventory.reservations
    ensures t.order.id !in w.inventory.reservations
  {
  }

  // Books

  lemma BooksExtend(h: History, before: map<string, Orders.Order>, after: map<string, Orders.Order>,
                    reservations: map<string, Inventory.Reservation>, payments: map<string, real>)
    requires Books(h, before, reservations, payments) && Extends(before, after)
    ensures Books(h, after, reservations, payments)
  {
    EventsExtend(h, before, after);
  }

  lemma StatusKeepsBooks(h: History, orders: map<string, Orders.Order>,
                         reservations: map<string, Inventory.Reservation>,
                         payments: map<string, real>, e: Event)
    requires Books(h, orders, reservations, payments)
    requires (e.Confirmed? || e.Cancelled?) && e.order in orders
    ensures Books(Then(h, e), orders, reservations, payments)
  {
    OneMore(h, e);
  }

  lemma TakeStockKeepsBooks(h: History, orders: map<string, Orders.Order>,
                            reservations: map<string, Inventory.Reservation>,
                            payments: map<string, real>, o: string)
    requires Books(h, orders, reservations, payments) && o in orders && o !in reservations
    ensures var lines := StockLines(orders[o].items);
            var reservation := Inventory.Reservation(orders[o].key, lines);
            Books(Then(h, Reserved(o, lines)), orders, reservations[o := reservation], payments)
  {
    OneMore(h, Reserved(o, StockLines(orders[o].items)));
  }

  lemma ReturnStockKeepsBooks(h: History, orders: map<string, Orders.Order>,
                              reservations: map<string, Inventory.Reservation>,
                              payments: map<string, real>, o: string)
    requires Books(h, orders, reservations, payments) && o in reservations
    ensures Books(Then(h, Released(o)), orders, reservations - {o}, payments)
  {
    OneMore(h, Released(o));
  }

  lemma TakeMoneyKeepsBooks(h: History, orders: map<string, Orders.Order>,
                            reservations: map<string, Inventory.Reservation>,
                            payments: map<string, real>, o: string)
    requires Books(h, orders, reservations, payments) && o in orders && o !in payments
    requires orders[o].total <= Payment.LIMIT
    ensures Books(Then(h, Charged(o, orders[o].total)), orders, reservations, payments[o := orders[o].total])
  {
    OneMore(h, Charged(o, orders[o].total));
  }

  lemma ReturnMoneyKeepsBooks(h: History, orders: map<string, Orders.Order>,
                              reservations: map<string, Inventory.Reservation>,
                              payments: map<string, real>, o: string)
    requires Books(h, orders, reservations, payments) && o in payments
    ensures Books(Then(h, Refunded(o)), orders, reservations, payments - {o})
  {
    OneMore(h, Refunded(o));
  }

  lemma PerformKeepsBooks(w: World, id: string, e: Effect, l: Luck)
    requires id in w.threads && OrdersOk(w) && BooksOk(w) && l.uuid !in w.orders
    requires e.Nothing? || e.MakeOrder? || SagaFits(w.threads[id], w.orders)
    requires Allowed(w, w.threads[id], e, l)
    requires e.TakeStock? ==> w.threads[id].order.id !in w.inventory.reservations
    ensures BooksOk(Perform(w, id, e, l))
  {
    hide Books;
    var h, res, pay := w.history, w.inventory.reservations, w.payments;
    var o := w.threads[id].order.id;
    match e
    case Nothing => {}
    case TakeStock => { TakeStockKeepsBooks(h, w.orders, res, pay, o); }
    case TakeMoney => { TakeMoneyKeepsBooks(h, w.orders, res, pay, o); }
    case ReturnMoney => { ReturnMoneyKeepsBooks(h, w.orders, res, pay, o); }
    case ReturnStock => { ReturnStockKeepsBooks(h, w.orders, res, pay, o); }
    case _ => { OrderWritesKeepBooks(w, id, e, l); }
  }

  lemma OrderWritesKeepBooks(w: World, id: string, e: Effect, l: Luck)
    requires id in w.threads && OrdersOk(w) && BooksOk(w) && l.uuid !in w.orders
    requires e.MakeOrder? || e.WriteStatus?
    requires Allowed(w, w.threads[id], e, l)
    ensures BooksOk(Perform(w, id, e, l))
  {
    PerformKeepsOrders(w, id, e, l);
    var h, res, pay := w.history, w.inventory.reservations, w.payments;
    var w' := Perform(w, id, e, l);
    BooksExtend(h, w.orders, w'.orders, res, pay);
    if e.WriteStatus? {
      StatusKeepsBooks(h, w'.orders, res, pay, w'.history.last);
    }
    hide Books;
  }

  // Reservations without a key

  lemma MoveKeepsUnheld(w: World, id: string, l: Luck)
    requires Enabled(w, Move(id, l))
    requires OrdersOk(w) && SagasOk(w) && CreatorsOk(w) && CallsOk(w) && BooksOk(w) && NoOverwrite(w)
    ensures NoOverwrite(MoveThread(w, id, l))
  {
    hide Decide, Perform, Unheld, OrdersOk, SagasOk, Creators, CallsFit, BooksOk;
    var t := w.threads[id];
    var d := Decide(w, t, l);
    var w' := Perform(w, id, d.effect, l);
    Guards(w, id, l);
    assert d.effect.TakeStock? ==> t.HasSaga() by { AllowedFits(w, id, d.effect, l); }
    forall i | i in w.threads && i != id
      ensures Unheld(w.threads[i], w'.inventory.reservations)
    {
      OtherStaysUnheld(w, id, d.effect, l, i);
    }
    assert Unheld(t, w.inventory.reservations);
    assert l.uuid !in w.inventory.reservations by { ReservedIsStored(w); }
    DecisionUnheld(w, id, l);
    PerformShape(w, id, d.effect, l);
  }

  lemma ReservedIsStored(w: World)
    requires BooksOk(w)
    ensures forall o :: o in w.inventory.reservations ==> o in w.orders
  {
  }

  lemma OtherStaysUnheld(w: World, id: string, e: Effect, l: Luck, i: string)
    requires id in w.threads && i in w.threads && i != id && Allowed(w, w.threads[id], e, l)
    requires SagasOk(w) && CreatorsOk(w) && CallsOk(w) && NoOverwrite(w)
    ensures Unheld(w.threads[i], Perform(w, id, e, l).inventory.reservations)
  {
    hide CallsFit, Perform;
    var t, other := w.threads[id], w.threads[i];
    assert Unheld(other, w.inventory.reservations);
    assert KeylessOwns(other, i, w.creators) && KeylessOwns(t, id, w.creators);
    assert CallsFit(t) && CallsFit(other);
    HangingFits(other);
    AllowedFits(w, id, e, l);
    assert other.reserve == other.CallOf(Reserving);
    OthersStayUnheld(w, id, e, l, other);
    hide Allowed, Unheld;
  }

  lemma OthersStayUnheld(w: World, id: string, e: Effect, l: Luck, other: Thread)
    requires id in w.threads && Allowed(w, w.threads[id], e, l)
    requires Unheld(other, w.inventory.reservations)
    requires other.HasSaga() ==> SagaFits(other, w.orders)
    requires other.reserve.Hanging? ==> other.HasSaga()
    requires e.TakeStock? ==> SagaFits(w.threads[id], w.orders)
    requires e.TakeStock? && other.HasSaga() && other.key == "" && w.threads[id].key == ""
             ==> other.order.id != w.threads[id].order.id
    ensures Unheld(other, Perform(w, id, e, l).inventory.reservations)
  {
  }

  lemma EnteringReserve(w: World, t: Thread, l: Luck)
    requires CallsFit(t)
    ensures var d := Proceed(w, t, l);
            && (t.key == "" && d.thread.phase.ReserveProbe? ==> d.effect.MakeOrder? && d.thread.order.id == l.uuid)
            && (d.thread.phase.ReserveLock? ==> t.phase.ReserveProbe? && d.effect.Nothing? && d.thread.order == t.order)
            && (d.thread.reserve.Hanging? ==>
                  && (t.phase.ReserveProbe? || t.phase.ReserveLock? || t.reserve.Hanging?)
                  && !d.effect.TakeStock? && !d.effect.MakeOrder? && d.thread.order == t.order)
            && (d.thread.phase.ReserveProbe? || d.thread.phase.ReserveLock? ==> !d.thread.reserve.Hanging?)
  {
    hide Proceed;
    if t.HasSaga() {
      ReserveWaits(w, t, l);
    } else {
      CreationIsFirst(w, t, l);
      if t.key == "" { KeylessMakes(w, t, l); }
    }
    hide CallsFit;
  }

  lemma ReserveWaits(w: World, t: Thread, l: Luck)
    requires CallsFit(t) && t.HasSaga()
    ensures var d := Proceed(w, t, l);
            && !d.thread.phase.ReserveProbe? && !d.effect.MakeOrder? && d.thread.order == t.order
            && (d.thread.phase.ReserveLock? ==>
                  t.phase.ReserveProbe? && d.effect.Nothing? && !d.thread.reserve.Hanging?)
            && (d.thread.reserve.Hanging? ==>
                  (t.phase.ReserveProbe? || t.phase.ReserveLock? || t.reserve.Hanging?) && !d.effect.TakeStock?)
  {
    hide Proceed;
    if t.phase.ReserveProbe? || t.phase.ReserveLock? { AtReserve(w, t, l); } else { PastReserve(w, t, l); }
  }

  lemma AtReserve(w: World, t: Thread, l: Luck)
    requires t.phase.ReserveProbe? || t.phase.ReserveLock?
    ensures var d := Proceed(w, t, l);
            && !d.thread.phase.ReserveProbe? && !d.effect.MakeOrder? && d.thread.order == t.order
            && (d.thread.phase.ReserveLock? ==>
                  t.phase.ReserveProbe? && d.effect.Nothing? && d.thread.reserve == t.reserve)
            && (d.thread.reserve.Hanging? && d.thread.reserve != t.reserve ==> d.effect.Nothing?)
            && (d.effect.TakeStock? ==> !d.thread.reserve.Hanging?)
  {
    hide ReserveFor;
  }

  lemma PastReserve(w: World, t: Thread, l: Luck)
    requires t.HasSaga() && !t.phase.ReserveProbe? && !t.phase.ReserveLock?
    ensures var d := Proceed(w, t, l);
            && !d.thread.phase.ReserveProbe? && !d.thread.phase.ReserveLock? && d.thread.order == t.order
            && d.thread.reserve == t.reserve && !d.effect.TakeStock? && !d.effect.MakeOrder?
  {
    hide CreateFor, ReserveFor, Reply, NoReply, Payment.Charge, Payment.Refund, Inventory.Release, Orders.UpdateStatus;
    match t.phase
    case ChargeProbe => {}
    case ChargeLock => {}
    case _ => {}
  }

  lemma CreationIsFirst(w: World, t: Thread, l: Luck)
    requires CallsFit(t) && !t.HasSaga()
    ensures var d := Proceed(w, t, l); d.thread.reserve.Unsent? && !d.thread.phase.ReserveLock?
  {
    hide CreateFor;
  }

  lemma DecisionUnheld(w: World, id: string, l: Luck)
    requires Enabled(w, Move(id, l)) && CallsFit(w.threads[id]) && Unheld(w.threads[id], w.inventory.reservations)
    requires l.uuid !in w.inventory.reservations
    ensures var d := Decide(w, w.threads[id], l);
            Unheld(d.thread, Perform(w, id, d.effect, l).inventory.reservations)
  {
    hide Proceed, Land, CallsFit;
    var t := w.threads[id];
    Guards(w, id, l);
    if l.late.Some? {
      LandShape(w, t, l.late.value, l);
      LandTakesOnce(w, t, l.late.value, l);
    } else {
      EnteringReserve(w, t, l);
    }
    hide Allowed;
  }

  lemma LandTakesOnce(w: World, t: Thread, op: Op, l: Luck)
    requires CallsFit(t) && t.CallOf(op).Hanging?
    ensures var d := Land(w, t, op, l);
            && (d.effect.TakeStock? ==> op == Reserving)
            && (d.thread.reserve.Hanging? || d.thread.phase.ReserveProbe? || d.thread.phase.ReserveLock? ==>
                  !d.effect.TakeStock? && (t.HasSaga() ==> d.thread.order == t.order)
                  && (t.reserve.Hanging? || t.phase.ReserveProbe? || t.phase.ReserveLock?))
  {
    LandShape(w, t, op, l);
    HangingFits(t);
    assert t.reserve == t.CallOf(Reserving);
    assert Land(w, t, op, l).thread.reserve == Land(w, t, op, l).thread.CallOf(Reserving);
    hide CallsFit, CreateFor, ReserveFor;
  }

  // Replies and caches

  lemma EverGrows(h: History, h': History, t: Thread)
    requires h' == h || (h'.Then? && h'.before == h)
    requires RepliesBacked(t, h)
    ensures RepliesBacked(t, h')
  {
  }

  lemma PerformGrowsHistory(w: World, id: string, e: Effect, l: Luck)
    requires id in w.threads
    ensures var h' := Perform(w, id, e, l).history;
            h' == w.history || (h'.Then? && h'.before == w.history)
  {
  }

  /** Whoever answers yes to a Reserve, there was a reservation for this very order. */
  lemma ReserveReplyBacked(w: World, t: Thread, l: Luck)
    requires OrdersOk(w) && BooksOk(w) && CachesBacked(w.caches, w.orders, w.history) && SagaFits(t, w.orders)
    ensures t.key != "" && t.key in w.caches.reserve ==> EverTaken(w.history, Goods, t.order.id)
    ensures ReserveFor(w, t).ok && !ReserveFor(w, t).effect ==> EverTaken(w.history, Goods, t.order.id)
  {
    if t.key != "" && Inventory.KeyInUse(w.inventory.reservations, t.key) {
      var o :| o in w.inventory.reservations && w.inventory.reservations[o].key == t.key;
      assert o == t.order.id;
      HoldsWasTaken(w.history, Goods, o);
    }
  }

  lemma ChargeReplyBacked(w: World, t: Thread)
    requires BooksOk(w) && CachesBacked(w.caches, w.orders, w.history)
    ensures t.order.id in w.caches.charge ==> EverTaken(w.history, Money, t.order.id)
    ensures t.order.id in w.payments ==> EverTaken(w.history, Money, t.order.id)
  {
    if t.order.id in w.payments {
      HoldsWasTaken(w.history, Money, t.order.id);
    }
  }

  lemma DecisionBacked(w: World, id: string, l: Luck)
    requires Enabled(w, Move(id, l)) && OrdersOk(w) && SagasOk(w) && CallsFit(w.threads[id]) && BooksOk(w)
    requires BackedOk(w)
    ensures var d := Decide(w, w.threads[id], l);
            RepliesBacked(d.thread, Perform(w, id, d.effect, l).history)
  {
    hide Proceed, Land, CallsFit, Perform;
    var t := w.threads[id];
    var d := Decide(w, t, l);
    if l.late.None? && (t.phase.ReserveProbe? || t.phase.ReserveLock?) {
      ReserveDecisionBacked(w, id, l);
    } else if l.late.None? && (t.phase.ChargeProbe? || t.phase.ChargeLock?) {
      ChargeDecisionBacked(w, id, l);
    } else {
      if l.late.Some? { LandKeepsReplies(w, t, l.late.value, l); } else { OtherDecisionsKeepReplies(w, t, l); }
      PerformGrowsHistory(w, id, d.effect, l);
      assert RepliesBacked(t, w.history);
      EverGrows(w.history, Perform(w, id, d.effect, l).history, t);
    }
    hide OrdersOk, SagasOk, BooksOk, CachesBacked;
  }

  lemma LandKeepsReplies(w: World, t: Thread, op: Op, l: Luck)
    requires CallsFit(t) && t.CallOf(op).Hanging?
    ensures var t' := Land(w, t, op, l).thread;
            && t'.reserve.Succeeded() == t.reserve.Succeeded() && t'.charge.Succeeded() == t.charge.Succeeded()
            && (t'.order == t.order || (!t.reserve.Succeeded() && !t.charge.Succeeded()))
  {
    hide Land;
    LandShape(w, t, op, l);
    var t' := Land(w, t, op, l).thread;
    assert t'.reserve == t'.CallOf(Reserving) && t.reserve == t.CallOf(Reserving);
    assert t'.charge == t'.CallOf(Charging) && t.charge == t.CallOf(Charging);
  }

  lemma OtherDecisionsKeepReplies(w: World, t: Thread, l: Luck)
    requires CallsFit(t)
    requires !t.phase.ReserveProbe? && !t.phase.ReserveLock? && !t.phase.ChargeProbe? && !t.phase.ChargeLock?
    ensures var t' := Proceed(w, t, l).thread;
            && t'.reserve == t.reserve && t'.charge == t.charge
            && (t'.order == t.order || (t.reserve.Unsent? && t.charge.Unsent?))
  {
    hide CreateFor;
    if t.HasSaga() { hide PhaseFits; PastCharge(w, t, l); }
  }

  lemma PastCharge(w: World, t: Thread, l: Luck)
    requires t.HasSaga() && !t.phase.ReserveProbe? && !t.phase.ReserveLock? && !t.phase.ChargeProbe?
    requires !t.phase.ChargeLock?
    ensures var t' := Proceed(w, t, l).thread; t'.reserve == t.reserve && t'.charge == t.charge && t'.order == t.order
  {
  }

  lemma WhyReserveSucceeds(w: World, t: Thread, l: Luck)
    requires t.phase.ReserveProbe? || t.phase.ReserveLock?
    ensures var d := Proceed(w, t, l);
            d.thread.reserve.Succeeded() ==>
              || (d.effect.Nothing? && t.key != "" && t.key in w.caches.reserve)
              || (d.effect.Nothing? && ReserveFor(w, t).ok && !ReserveFor(w, t).effect)
              || d.effect.TakeStock?
              || t.reserve.Succeeded()
    ensures var d := Proceed(w, t, l); d.thread.order == t.order && d.thread.charge == t.charge
  {
    hide ReserveFor;
  }

  lemma ReserveDecisionBacked(w: World, id: string, l: Luck)
    requires Enabled(w, Move(id, l)) && OrdersOk(w) && SagasOk(w) && BooksOk(w) && BackedOk(w)
    requires CallsFit(w.threads[id]) && (w.threads[id].phase.ReserveProbe? || w.threads[id].phase.ReserveLock?)
    ensures var d := Proceed(w, w.threads[id], l);
            RepliesBacked(d.thread, Perform(w, id, d.effect, l).history)
  {
    ReserveReplyBacked(w, w.threads[id], l);
    WhyReserveSucceeds(w, w.threads[id], l);
    hide Proceed, OrdersOk, SagasOk, BooksOk, BackedOk, ReserveFor;
  }

  lemma ChargeDecisionBacked(w: World, id: string, l: Luck)
    requires Enabled(w, Move(id, l)) && BooksOk(w) && BackedOk(w)
    requires CallsFit(w.threads[id]) && (w.threads[id].phase.ChargeProbe? || w.threads[id].phase.ChargeLock?)
    ensures var d := Proceed(w, w.threads[id], l);
            RepliesBacked(d.thread, Perform(w, id, d.effect, l).history)
  {
    ChargeReplyBacked(w, w.threads[id]);
    assert RepliesBacked(w.threads[id], w.history);
    hide BooksOk, BackedOk;
  }

  lemma CachesGrow(caches: Caches, orders: map<string, Orders.Order>, h: History, e: Event)
    requires CachesBacked(caches, orders, h)
    ensures CachesBacked(caches, orders, Then(h, e))
  {
    OneMore(h, e);
  }

  lemma StockWritesKeepCaches(w: World, id: string, e: Effect, l: Luck)
    requires id in w.threads && (e.TakeStock? || e.ReturnStock?)
    requires e.TakeStock? ==> SagaFits(w.threads[id], w.orders)
    requires e.ReturnStock? ==> EverTaken(w.history, Goods, w.threads[id].order.id)
    requires CachesBacked(w.caches, w.orders, w.history)
    ensures CachesBacked(Perform(w, id, e, l).caches, w.orders, Perform(w, id, e, l).history)
  {
    CachesGrow(w.caches, w.orders, w.history, Perform(w, id, e, l).history.last);
  }

  lemma MoneyWritesKeepCaches(w: World, id: string, e: Effect, l: Luck)
    requires id in w.threads && (e.TakeMoney? || e.ReturnMoney?)
    requires e.ReturnMoney? ==> EverTaken(w.history, Money, w.threads[id].order.id)
    requires CachesBacked(w.caches, w.orders, w.history)
    ensures CachesBacked(Perform(w, id, e, l).caches, w.orders, Perform(w, id, e, l).history)
  {
    CachesGrow(w.caches, w.orders, w.history, Perform(w, id, e, l).history.last);
  }

  lemma PerformKeepsCaches(w: World, id: string, e: Effect, l: Luck)
    requires id in w.threads && OrdersOk(w) && l.uuid !in w.orders && Allowed(w, w.threads[id], e, l)
    requires e.TakeStock? ==> SagaFits(w.threads[id], w.orders)
    requires BooksOk(w) && CachesBacked(w.caches, w.orders, w.history)
    ensures CachesBacked(Perform(w, id, e, l).caches, Perform(w, id, e, l).orders, Perform(w, id, e, l).history)
  {
    var w' := Perform(w, id, e, l);
    var o := w.threads[id].order.id;
    PerformKeepsOrders(w, id, e, l);
    if e.TakeStock? || e.ReturnStock? {
      if e.ReturnStock? { HoldsWasTaken(w.history, Goods, o); }
      StockWritesKeepCaches(w, id, e, l);
    } else if e.TakeMoney? || e.ReturnMoney? {
      if e.ReturnMoney? { HoldsWasTaken(w.history, Money, o); }
      MoneyWritesKeepCaches(w, id, e, l);
    } else {
      CachesExtend(w.caches, w.orders, w'.orders, w.history);
      if e.WriteStatus? { CachesGrow(w.caches, w'.orders, w.history, w'.history.last); }
      CreateCacheIsSeparate(w.caches, w'.caches, w'.orders, w'.history);
    }
    hide CachesBacked, OrdersOk, Books;
  }

  lemma CreateCacheIsSeparate(caches: Caches, caches': Caches, orders: map<string, Orders.Order>, h: History)
    requires caches' == caches.(create := caches'.create) && CachesBacked(caches, orders, h)
    ensures CachesBacked(caches', orders, h)
  {
  }

  lemma CachesExtend(caches: Caches, before: map<string, Orders.Order>, after: map<string, Orders.Order>, h: History)
    requires CachesBacked(caches, before, h) && Extends(before, after)
    ensures CachesBacked(caches, after, h)
  {
    forall k | k in caches.reserve
      ensures after[caches.reserve[k]].key == k
    {
      var o := caches.reserve[k];
      assert after[o].(status := before[o].status) == before[o];
    }
  }

  /** Charge is called by a saga whose Reserve was answered yes, Confirm by one whose Charge was too. */
  lemma PerformKeepsSagaOrder(w: World, id: string, e: Effect, l: Luck)
    requires id in w.threads && Allowed(w, w.threads[id], e, l)
    requires CallsFit(w.threads[id]) && RepliesBacked(w.threads[id], w.history)
    requires InSagaOrder(w.history)
    ensures InSagaOrder(Perform(w, id, e, l).history)
  {
    HangingFits(w.threads[id]);
    hide CreateFor, ReserveFor;
  }

  lemma MoveKeepsBacked(w: World, id: string, l: Luck)
    requires Enabled(w, Move(id, l))
    requires OrdersOk(w) && SagasOk(w) && CallsOk(w) && BooksOk(w) && BackedOk(w)
    ensures BackedOk(MoveThread(w, id, l))
  {
    hide Decide, Perform, OrdersOk, SagasOk, CallsFit, CachesBacked, RepliesBacked, InSagaOrder;
    var t := w.threads[id];
    var d := Decide(w, t, l);
    var w' := Perform(w, id, d.effect, l);
    Guards(w, id, l);
    AllowedFits(w, id, d.effect, l);
    PerformGrowsHistory(w, id, d.effect, l);
    PerformKeepsCaches(w, id, d.effect, l);
    PerformKeepsSagaOrder(w, id, d.effect, l);
    DecisionBacked(w, id, l);
    PerformShape(w, id, d.effect, l);
    forall i | i in w.threads && i != id
      ensures RepliesBacked(w.threads[i], w'.history)
    {
      EverGrows(w.history, w'.history, w.threads[i]);
    }
  }

  lemma AllowedFits(w: World, id: string, e: Effect, l: Luck)
    requires id in w.threads && SagasOk(w) && CallsFit(w.threads[id]) && Allowed(w, w.threads[id], e, l)
    ensures !e.Nothing? && !e.MakeOrder? ==> w.threads[id].HasSaga() && SagaFits(w.threads[id], w.orders)
    ensures e.MakeOrder? ==> !w.threads[id].HasSaga()
  {
    hide SagaFits, CreateFor, ReserveFor;
    var t := w.threads[id];
    HangingInSaga(t);
  }

  lemma HangingInSaga(t: Thread)
    requires CallsFit(t)
    ensures t.reserve.Hanging? || t.charge.Hanging? || t.confirm.Hanging? ==> t.HasSaga()
    ensures t.refund.Hanging? || t.release.Hanging? || t.cancel.Hanging? ==> t.HasSaga()
  {
  }

  // Statuses

  lemma PerformKeepsStatuses(w: World, id: string, e: Effect, l: Luck)
    requires id in w.threads && Allowed(w, w.threads[id], e, l) && l.uuid !in w.orders
    requires EventsOk(w.history, w.orders)
    requires forall o :: o in w.orders ==> w.orders[o].status == StatusOf(w.history, o)
    ensures var w' := Perform(w, id, e, l);
            forall o :: o in w'.orders ==> w'.orders[o].status == StatusOf(w'.history, o)
  {
    if e.MakeOrder? {
      var o := MakeOrderShape(w, w.threads[id], l);
      NoStatusYet(w.history, w.orders, l.uuid);
    }
    hide ReserveFor, CreateFor;
  }

  lemma {:induction false} NoStatusYet(h: History, orders: map<string, Orders.Order>, o: string)
    requires EventsOk(h, orders) && o !in orders
    ensures StatusOf(h, o) == Orders.PENDING && !EverConfirmed(h, o) && !EverCancelled(h, o) && !Overruled(h, o)
  {
    if h.Then? { NoStatusYet(h.before, orders, o); }
  }

  /** A Confirm or Cancel takes effect by being written. */
  lemma DecisionRecordsStatus(w: World, id: string, l: Luck)
    requires Enabled(w, Move(id, l)) && CallsFit(w.threads[id]) && StatusRecorded(w.threads[id], w.history)
    ensures var d := Decide(w, w.threads[id], l);
            StatusRecorded(d.thread, Perform(w, id, d.effect, l).history)
  {
    hide Proceed, Land, CallsFit;
    var t := w.threads[id];
    Guards(w, id, l);
    if l.late.Some? {
      LandShape(w, t, l.late.value, l);
      LandWrites(w, t, l.late.value, l);
    } else {
      ProceedWrites(w, t, l);
    }
    hide Allowed, CreateFor, ReserveFor;
  }

  lemma LandWrites(w: World, t: Thread, op: Op, l: Luck)
    requires CallsFit(t) && t.CallOf(op).Hanging?
    ensures var d := Land(w, t, op, l);
            && (d.thread.confirm.TookEffect() ==>
                  d.thread.order == t.order && (t.confirm.TookEffect() || d.effect == WriteStatus(Orders.CONFIRMED)))
            && (d.thread.cancel.TookEffect() ==>
                  d.thread.order == t.order && (t.cancel.TookEffect() || d.effect == WriteStatus(Orders.CANCELLED)))
  {
    LandShape(w, t, op, l);
    HangingFits(t);
    hide CreateFor, ReserveFor;
  }

  lemma ProceedWrites(w: World, t: Thread, l: Luck)
    requires CallsFit(t)
    ensures var d := Proceed(w, t, l);
            && (d.thread.confirm.TookEffect() ==>
                  d.thread.order == t.order && (t.confirm.TookEffect() || d.effect == WriteStatus(Orders.CONFIRMED)))
            && (d.thread.cancel.TookEffect() ==>
                  d.thread.order == t.order && (t.cancel.TookEffect() || d.effect == WriteStatus(Orders.CANCELLED)))
  {
    hide CreateFor, ReserveFor;
    if !t.phase.Confirm? && !t.phase.Cancel? {
      StatusCallsKept(w, t, l);
      hide Proceed;
      WritersHaveSagas(t);
    }
    hide PhaseFits;
  }

  lemma StatusCallsKept(w: World, t: Thread, l: Luck)
    requires !t.phase.Confirm? && !t.phase.Cancel?
    ensures var t' := Proceed(w, t, l).thread;
            t'.confirm == t.confirm && t'.cancel == t.cancel && (t.HasSaga() ==> t'.order == t.order)
  {
    hide CreateFor, ReserveFor, Reply, NoReply, Payment.Charge, Payment.Refund, Inventory.Release;
  }

  lemma WritersHaveSagas(t: Thread)
    requires CallsFit(t)
    ensures t.confirm.TookEffect() || t.cancel.TookEffect() ==> t.HasSaga()
  {
  }

  lemma MoveKeepsStatuses(w: World, id: string, l: Luck)
    requires Enabled(w, Move(id, l)) && CallsOk(w) && BooksOk(w) && StatusesOk(w)
    ensures StatusesOk(MoveThread(w, id, l))
  {
    hide Decide, Perform, CallsFit, StatusOf;
    var t := w.threads[id];
    var d := Decide(w, t, l);
    var w' := Perform(w, id, d.effect, l);
    Guards(w, id, l);
    PerformKeepsStatuses(w, id, d.effect, l);
    PerformGrowsHistory(w, id, d.effect, l);
    PerformKeepsThreads(w, id, d.effect, l);
    assert StatusRecorded(t, w.history);
    DecisionRecordsStatus(w, id, l);
    forall i | i in w.threads && i != id
      ensures StatusRecorded(w.threads[i], w'.history)
    {
      assert StatusRecorded(w.threads[i], w.history);
    }
  }
}
