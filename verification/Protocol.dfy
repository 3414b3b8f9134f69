/** The whole system as a state machine: requests and their sagas, interleaved. */
module Protocol {

  // Any number of threads, interleaved between a service's cache probe and its locked section, over
  // calls that may be lost or come late and a forgetful cache.

  import opened Options
  import opened Items
  import opened History
  import Inventory
  import Payment
  import Orders

  /** What the network does to one remote call. Hung: the caller gives up on a request that is still
      with the service, say behind its mutex, and may yet have its effect. */
  datatype Outcome = Delivered | RequestLost | ReplyLost | Hung

  /** What one remote call of a saga came to: for the caller, and in the service. A hanging call that
      is over has landed, late, with or without effect. */
  datatype Call = Unsent | Answered(ok: bool, effect: bool) | Errored(effect: bool) | Hanging | Landed(effect: bool)
  {
    predicate Succeeded() { Answered? && ok }
    predicate TookEffect() { (Answered? || Errored? || Landed?) && effect }

    /** Its caller was told of an error, and it took effect: before that, or later. */
    predicate Belied() { (Errored? || Landed?) && effect }

    /** Its caller was told of an error, and it has taken no effect, so far at least. */
    predicate Missed() { Hanging? || ((Errored? || Landed?) && !effect) }
  }

  /** The remote calls of a thread. */
  datatype Op = Creating | Reserving | Charging | Confirming | Refunding | Releasing | Cancelling

  datatype Phase =
    | CreateProbe | CreateLock
    | ReserveProbe | ReserveLock
    | ChargeProbe | ChargeLock
    | Confirm
    | RefundProbe | RefundLock
    | ReleaseProbe | ReleaseLock
    | Cancel
    | NotStarted | Completed | Compensated

  predicate Final(p: Phase) {
    p.NotStarted? || p.Completed? || p.Compensated?
  }

  /** An HTTP request and, once an order is known, the saga it launched. */
  datatype Thread = Thread(
    key: string, customer: string, items: seq<Item>, order: Orders.Info, phase: Phase,
    create: Call, reserve: Call, charge: Call, confirm: Call, refund: Call, release: Call, cancel: Call)
  {
    predicate HasSaga() {
      !phase.CreateProbe? && !phase.CreateLock? && !phase.NotStarted?
    }

    function CallOf(op: Op): Call {
      match op
      case Creating => create
      case Reserving => reserve
      case Charging => charge
      case Confirming => confirm
      case Refunding => refund
      case Releasing => release
      case Cancelling => cancel
    }

    function WithCall(op: Op, c: Call): Thread {
      match op
      case Creating => this.(create := c)
      case Reserving => this.(reserve := c)
      case Charging => this.(charge := c)
      case Confirming => this.(confirm := c)
      case Refunding => this.(refund := c)
      case Releasing => this.(release := c)
      case Cancelling => this.(cancel := c)
    }
  }

  /** The shared store, one part for each operation; a reserve entry remembers whose reservation wrote it. */
  datatype Caches = Caches(
    create: map<string, Orders.Info>, reserve: map<string, string>,
    release: set<string>, charge: set<string>, refund: set<string>)

  /** creators and history are not part of the program: they record who made an order and what was done. */
  datatype World = World(
    inventory: Inventory.State, payments: map<string, real>, orders: map<string, Orders.Order>,
    caches: Caches, threads: map<string, Thread>,
    creators: map<string, string>, history: History)

  ghost predicate Init(w: World, initial: map<string, int>) {
    && w == World(Inventory.State(initial, map[]), map[], map[], Caches(map[], map[], {}, {}, {}), map[], map[], Empty)
    && Inventory.Int32Stock(initial)
  }

  function NoOrder(): Orders.Info {
    Orders.Info("", "", [], 0.0, Orders.PENDING)
  }

  function NewThread(key: string, customer: string, items: seq<Item>): Thread {
    Thread(key, customer, items, NoOrder(), CreateProbe, Unsent, Unsent, Unsent, Unsent, Unsent, Unsent, Unsent)
  }

  /** The caller's view of a call that reached the service, or did not. */
  function Reply(out: Outcome, ok: bool, effect: bool): Call {
    match out
    case Delivered => Answered(ok, effect)
    case ReplyLost => Errored(effect)
    case _ => NoReply(out)
  }

  /** The call has not got through, or not yet. */
  predicate Astray(out: Outcome) {
    out.RequestLost? || out.Hung?
  }

  function NoReply(out: Outcome): Call {
    if out.Hung? then Hanging else Errored(false)
  }

  // The orchestrator's reaction to each reply: go on, or undo what was completed, then cancel.

  function AfterCreate(t: Thread, c: Call, info: Orders.Info): Thread {
    t.(create := c, order := info, phase := if c.Succeeded() then ReserveProbe else NotStarted)
  }

  function AfterReserve(t: Thread, c: Call): Thread {
    t.(reserve := c, phase := if c.Succeeded() then ChargeProbe else Cancel)
  }

  function AfterCharge(t: Thread, c: Call): Thread {
    t.(charge := c, phase := if c.Succeeded() then Confirm else ReleaseProbe)
  }

  function AfterConfirm(t: Thread, c: Call): Thread {
    t.(confirm := c, phase := if c.Succeeded() then Completed else RefundProbe)
  }

  function AfterRefund(t: Thread, c: Call): Thread {
    t.(refund := c, phase := ReleaseProbe)
  }

  function AfterRelease(t: Thread, c: Call): Thread {
    t.(release := c, phase := Cancel)
  }

  function AfterCancel(t: Thread, c: Call): Thread {
    t.(cancel := c, phase := Compensated)
  }

  /** The choices of the environment for one move of a thread: what the network does, whether a cache
      read works, whether a cache write works, the next UUID, and whether what moves is not the thread
      but one of its hanging calls. */
  datatype Luck = Luck(out: Outcome, sees: bool, stores: bool, uuid: string, late: Option<Op>)

  datatype Action =
    | Submit(thread: string, key: string, customer: string, items: seq<Item>)
    | Move(thread: string, luck: Luck)
    | Forget(gone: Caches)

  ghost predicate Enabled(w: World, a: Action) {
    match a
    case Submit(id, _, _, _) => id !in w.threads
    case Move(id, l) =>
      && id in w.threads && l.uuid !in w.orders
      && if l.late.Some? then w.threads[id].CallOf(l.late.value).Hanging? else !Final(w.threads[id].phase)
    case Forget(_) => true
  }

  ghost function Apply(w: World, a: Action): World
    requires Enabled(w, a)
  {
    match a
    case Submit(id, key, customer, items) =>
      if ValidRequest(customer, items) then Put(w, id, NewThread(key, customer, items)) else w
    case Move(id, l) => MoveThread(w, id, l)
    case Forget(gone) => w.(caches := Caches(
      w.caches.create - gone.create.Keys, w.caches.reserve - gone.reserve.Keys,
      w.caches.release - gone.release, w.caches.charge - gone.charge, w.caches.refund - gone.refund))
  }

  function Put(w: World, id: string, t: Thread): World {
    w.(threads := w.threads[id := t])
  }

  ghost function MoveThread(w: World, id: string, l: Luck): World
    requires id in w.threads
  {
    var d := Decide(w, w.threads[id], l);
    Put(Perform(w, id, d.effect, l), id, d.thread)
  }

  predicate NoneHanging(t: Thread) {
    && !t.create.Hanging? && !t.reserve.Hanging? && !t.charge.Hanging? && !t.confirm.Hanging?
    && !t.refund.Hanging? && !t.release.Hanging? && !t.cancel.Hanging?
  }

  /** Nothing more will happen to the thread, nor through any of its calls. */
  predicate AtRest(t: Thread) {
    Final(t.phase) && NoneHanging(t)
  }

  ghost predicate Quiescent(w: World) {
    forall id :: id in w.threads ==> AtRest(w.threads[id])
  }

  /** What a locked section writes, if it writes. */
  datatype Effect =
    | Nothing | MakeOrder | TakeStock | TakeMoney | ReturnMoney | ReturnStock
    | WriteStatus(status: Orders.Status)

  datatype Decision = Decision(thread: Thread, effect: Effect)

  ghost function Decide(w: World, t: Thread, l: Luck): Decision {
    if l.late.Some? then Land(w, t, l.late.value, l) else Proceed(w, t, l)
  }

  /** A hanging call reaches its locked section after all, or is dropped (or answered from the cache,
      with nobody left to read the answer). */
  ghost function Land(w: World, t: Thread, op: Op, l: Luck): Decision {
    var e := if Astray(l.out) then Nothing else LateEffect(w, t, op, l);
    var t' := t.WithCall(op, Landed(!e.Nothing?));
    Decision(if e.MakeOrder? then t'.(order := CreateFor(w, t, l).info) else t', e)
  }

  ghost function LateEffect(w: World, t: Thread, op: Op, l: Luck): Effect {
    match op
    case Creating => if CreateFor(w, t, l).effect then MakeOrder else Nothing
    case Reserving => if ReserveFor(w, t).effect then TakeStock else Nothing
    case Charging => if Payment.Charge(w.payments, t.order.id, t.order.total).effect then TakeMoney else Nothing
    case Confirming => if t.order.id in w.orders then WriteStatus(Orders.CONFIRMED) else Nothing
    case Refunding => if Payment.Refund(w.payments, t.order.id).effect then ReturnMoney else Nothing
    case Releasing => if Inventory.Release(w.inventory, t.order.id).effect then ReturnStock else Nothing
    case Cancelling => if t.order.id in w.orders then WriteStatus(Orders.CANCELLED) else Nothing
  }

  /** One move of a thread: the reply it sees, the phase it goes to, and the write that comes with it. */
  ghost function Proceed(w: World, t: Thread, l: Luck): Decision {
    match t.phase
    case CreateProbe =>
      if Astray(l.out) then Decision(AfterCreate(t, NoReply(l.out), t.order), Nothing)
      else if t.key != "" && l.sees && t.key in w.caches.create then
        Decision(AfterCreate(t, Reply(l.out, true, false), w.caches.create[t.key]), Nothing)
      else Decision(t.(phase := CreateLock), Nothing)
    case CreateLock =>
      if Astray(l.out) then Decision(AfterCreate(t, NoReply(l.out), t.order), Nothing)
      else
        var r := CreateFor(w, t, l);
        Decision(AfterCreate(t, Reply(l.out, true, r.effect), r.info), if r.effect then MakeOrder else Nothing)
    case ReserveProbe =>
      if Astray(l.out) then Decision(AfterReserve(t, NoReply(l.out)), Nothing)
      else if t.key != "" && l.sees && t.key in w.caches.reserve then
        Decision(AfterReserve(t, Reply(l.out, true, false)), Nothing)
      else Decision(t.(phase := ReserveLock), Nothing)
    case ReserveLock =>
      if Astray(l.out) then Decision(AfterReserve(t, NoReply(l.out)), Nothing)
      else
        var r := ReserveFor(w, t);
        Decision(AfterReserve(t, Reply(l.out, r.ok, r.effect)), if r.effect then TakeStock else Nothing)
    case ChargeProbe =>
      if Astray(l.out) then Decision(AfterCharge(t, NoReply(l.out)), Nothing)
      else if l.sees && t.order.id in w.caches.charge then
        Decision(AfterCharge(t, Reply(l.out, true, false)), Nothing)
      else Decision(t.(phase := ChargeLock), Nothing)
    case ChargeLock =>
      if Astray(l.out) then Decision(AfterCharge(t, NoReply(l.out)), Nothing)
      else
        var r := Payment.Charge(w.payments, t.order.id, t.order.total);
        Decision(AfterCharge(t, Reply(l.out, r.ok, r.effect)), if r.effect then TakeMoney else Nothing)
    case Confirm =>
      if Astray(l.out) then Decision(AfterConfirm(t, NoReply(l.out)), Nothing)
      else if Orders.UpdateStatus(w.orders, t.order.id, Orders.CONFIRMED).None? then
        Decision(AfterConfirm(t, Errored(false)), Nothing)
      else Decision(AfterConfirm(t, Reply(l.out, true, true)), WriteStatus(Orders.CONFIRMED))
    case RefundProbe =>
      if Astray(l.out) then Decision(AfterRefund(t, NoReply(l.out)), Nothing)
      else if l.sees && t.order.id in w.caches.refund then
        Decision(AfterRefund(t, Reply(l.out, true, false)), Nothing)
      else Decision(t.(phase := RefundLock), Nothing)
    case RefundLock =>
      if Astray(l.out) then Decision(AfterRefund(t, NoReply(l.out)), Nothing)
      else
        var r := Payment.Refund(w.payments, t.order.id);
        Decision(AfterRefund(t, Reply(l.out, r.ok, r.effect)), if r.effect then ReturnMoney else Nothing)
    case ReleaseProbe =>
      if Astray(l.out) then Decision(AfterRelease(t, NoReply(l.out)), Nothing)
      else if l.sees && t.order.id in w.caches.release then
        Decision(AfterRelease(t, Reply(l.out, true, false)), Nothing)
      else Decision(t.(phase := ReleaseLock), Nothing)
    case ReleaseLock =>
      if Astray(l.out) then Decision(AfterRelease(t, NoReply(l.out)), Nothing)
      else
        var r := Inventory.Release(w.inventory, t.order.id);
        Decision(AfterRelease(t, Reply(l.out, r.ok, r.effect)), if r.effect then ReturnStock else Nothing)
    case Cancel =>
      if Astray(l.out) then Decision(AfterCancel(t, NoReply(l.out)), Nothing)
      else if Orders.UpdateStatus(w.orders, t.order.id, Orders.CANCELLED).None? then
        Decision(AfterCancel(t, Errored(false)), Nothing)
      else Decision(AfterCancel(t, Reply(l.out, true, true)), WriteStatus(Orders.CANCELLED))
    case _ => Decision(t, Nothing)
  }

  ghost function CreateFor(w: World, t: Thread, l: Luck): Orders.CreateReply {
    Orders.Create(w.orders, l.uuid, t.customer, t.key, Narrow(t.items))
  }

  function ReserveFor(w: World, t: Thread): Inventory.Reply {
    Inventory.Reserve(w.inventory, t.order.id, t.key, StockLines(t.order.items))
  }

  /** The write itself, with the record of it and the cache entry that may follow it. */
  ghost function Perform(w: World, id: string, e: Effect, l: Luck): World
    requires id in w.threads
  {
    var t := w.threads[id];
    var o := t.order.id;
    match e
    case Nothing => w
    case MakeOrder =>
      var r := CreateFor(w, t, l);
      w.(orders := r.orders,
         creators := w.creators[l.uuid := id],
         caches := if t.key != "" && l.stores then w.caches.(create := w.caches.create[t.key := r.info]) else w.caches)
    case TakeStock =>
      w.(inventory := ReserveFor(w, t).state,
         history := Then(w.history, Reserved(o, StockLines(t.order.items))),
         caches := if t.key != "" && l.stores then w.caches.(reserve := w.caches.reserve[t.key := o]) else w.caches)
    case TakeMoney =>
      w.(payments := Payment.Charge(w.payments, o, t.order.total).payments,
         history := Then(w.history, Charged(o, t.order.total)),
         caches := if l.stores then w.caches.(charge := w.caches.charge + {o}) else w.caches)
    case ReturnMoney =>
      w.(payments := Payment.Refund(w.payments, o).payments,
         history := Then(w.history, Refunded(o)),
         caches := if l.stores then w.caches.(refund := w.caches.refund + {o}) else w.caches)
    case ReturnStock =>
      w.(inventory := Inventory.Release(w.inventory, o).state,
         history := Then(w.history, Released(o)),
         caches := if l.stores then w.caches.(release := w.caches.release + {o}) else w.caches)
    case WriteStatus(status) =>
      var r := Orders.UpdateStatus(w.orders, o, status);
      w.(orders := r.GetOr(w.orders),
         history := Then(w.history, if status.CONFIRMED? then Confirmed(o) else Cancelled(o)))
  }

  /** Everything works: no call is lost or late, no reply is lost, the cache answers and keeps what it is told. */
  predicate FlawlessAction(a: Action) {
    !a.Forget? && (a.Move? ==> a.luck.out.Delivered? && a.luck.sees && a.luck.stores && a.luck.late.None?)
  }

  predicate Flawless(actions: seq<Action>) {
    forall a :: a in actions ==> FlawlessAction(a)
  }

  /** worlds[0], worlds[1], ... is a run: each world follows from the one before by an enabled action. */
  ghost predicate IsRun(worlds: seq<World>, actions: seq<Action>, initial: map<string, int>) {
    && |worlds| == |actions| + 1
    && Init(worlds[0], initial)
    && (forall i {:trigger actions[i]} :: 0 <= i < |actions| ==> Follows(worlds[i], actions[i], worlds[i + 1]))
  }

  ghost predicate Follows(w: World, a: Action, w': World) {
    Enabled(w, a) && w' == Apply(w, a)
  }

  /** A run goes on. */
  lemma RunGoesOn(worlds: seq<World>, actions: seq<Action>, initial: map<string, int>, a: Action)
    returns (worlds': seq<World>)
    requires IsRun(worlds, actions, initial) && Enabled(worlds[|actions|], a)
    ensures IsRun(worlds', actions + [a], initial)
    ensures worlds' == worlds + [Apply(worlds[|actions|], a)]
  {
    hide Apply, Enabled, Init;
    worlds' := worlds + [Apply(worlds[|actions|], a)];
    var actions' := actions + [a];
    forall i | 0 <= i < |actions'|
      ensures Follows(worlds'[i], actions'[i], worlds'[i + 1])
    {
      if i < |actions| {
        assert Follows(worlds[i], actions[i], worlds[i + 1]);
      }
    }
  }
}
