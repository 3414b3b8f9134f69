/** What a saga is told of its calls, and what the services have recorded of them. */
module Calls {
  import opened Options
  import opened Items
  import opened History
  import opened Protocol
  import opened Invariants
  import opened Safety
  import Inventory
  import Orders
  import Payment

  /** The remote call that an unfinished thread is about to make. */
  function OpOf(p: Phase): Op
    requires !Final(p)
  {
    match p
    case CreateProbe => Creating
    case CreateLock => Creating
    case ReserveProbe => Reserving
    case ReserveLock => Reserving
    case ChargeProbe => Charging
    case ChargeLock => Charging
    case Confirm => Confirming
    case RefundProbe => Refunding
    case RefundLock => Refunding
    case ReleaseProbe => Releasing
    case ReleaseLock => Releasing
    case Cancel => Cancelling
  }

  /** Where a thread goes when it was told of an error: on to undo what was completed, then to cancel. */
  function AfterFailure(op: Op): Phase {
    match op
    case Creating => NotStarted
    case Reserving => Cancel
    case Charging => ReleaseProbe
    case Confirming => RefundProbe
    case Refunding => ReleaseProbe
    case Releasing => Cancel
    case Cancelling => Compensated
  }

  function AfterSuccess(op: Op): Phase {
    match op
    case Creating => ReserveProbe
    case Reserving => ChargeProbe
    case Charging => Confirm
    case Confirming => Completed
    case _ => AfterFailure(op)
  }

  /** A service has written something: one more event, or one more order. */
  ghost predicate Recorded(w: World, w': World) {
    w'.history != w.history || w'.orders.Keys != w.orders.Keys
  }

  /** The record that an effective call leaves. */
  function EventOf(op: Op, order: Orders.Info): Event
    requires op != Creating
  {
    match op
    case Reserving => Reserved(order.id, StockLines(order.items))
    case Charging => Charged(order.id, order.total)
    case Confirming => Confirmed(order.id)
    case Refunding => Refunded(order.id)
    case Releasing => Released(order.id)
    case Cancelling => Cancelled(order.id)
  }

  /** What the caller is told, by what the network did. */
  ghost predicate Told(out: Outcome, c: Call, recorded: bool) {
    match out
    case Delivered => c.Answered? && c.effect == recorded && (recorded ==> c.ok)
    case RequestLost => c == Errored(false) && !recorded
    case ReplyLost => c == Errored(recorded)
    case Hung => c == Hanging && !recorded
  }

  // One move

  ghost predicate Makes(w: World, id: string, l: Luck) {
    && Enabled(w, Move(id, l)) && l.late.None? && CallsFit(w.threads[id])
    && (w.threads[id].HasSaga() ==> w.threads[id].order.id in w.orders)
  }

  /** The effect that belongs to a call. */
  predicate Fits(e: Effect, op: Op) {
    match op
    case Creating => e.MakeOrder?
    case Reserving => e.TakeStock?
    case Charging => e.TakeMoney?
    case Confirming => e == WriteStatus(Orders.CONFIRMED)
    case Refunding => e.ReturnMoney?
    case Releasing => e.ReturnStock?
    case Cancelling => e == WriteStatus(Orders.CANCELLED)
  }

  /** What a decision makes of the thread. */
  ghost predicate Decided(t: Thread, d: Decision, out: Outcome)
    requires !Final(t.phase)
  {
    var op, t' := OpOf(t.phase), d.thread;
    var c := t'.CallOf(op);
    && t.CallOf(op).Unsent? && t' == t.WithCall(op, c).(phase := t'.phase, order := t'.order)
    && (op != Creating ==> t'.order == t.order)
    && (d.effect.Nothing? || Fits(d.effect, op))
    && if c.Unsent? then t' == t.(phase := t'.phase) && t'.phase != t.phase && !Astray(out) && d.effect.Nothing?
       else Told(out, c, !d.effect.Nothing?) && t'.phase == if c.Succeeded() then AfterSuccess(op) else AfterFailure(op)
  }

  lemma CreationDecided(w: World, t: Thread, l: Luck)
    requires CallsFit(t) && (t.phase.CreateProbe? || t.phase.CreateLock?)
    ensures Decided(t, Proceed(w, t, l), l.out)
  {
    hide CreateFor;
  }

  lemma ReservingDecided(w: World, t: Thread, l: Luck)
    requires CallsFit(t) && (t.phase.ReserveProbe? || t.phase.ReserveLock?)
    ensures Decided(t, Proceed(w, t, l), l.out)
  {
    hide StockLines, Inventory.CanReserve, Inventory.Deduct;
  }

  lemma ChargingDecided(w: World, t: Thread, l: Luck)
    requires CallsFit(t) && (t.phase.ChargeProbe? || t.phase.ChargeLock?)
    ensures Decided(t, Proceed(w, t, l), l.out)
  {
  }

  lemma WritingDecided(w: World, t: Thread, l: Luck)
    requires CallsFit(t) && (t.phase.Confirm? || t.phase.Cancel?) && t.order.id in w.orders
    ensures Decided(t, Proceed(w, t, l), l.out)
  {
  }

  lemma RefundingDecided(w: World, t: Thread, l: Luck)
    requires CallsFit(t) && (t.phase.RefundProbe? || t.phase.RefundLock?)
    ensures Decided(t, Proceed(w, t, l), l.out)
  {
  }

  lemma ReleasingDecided(w: World, t: Thread, l: Luck)
    requires CallsFit(t) && (t.phase.ReleaseProbe? || t.phase.ReleaseLock?)
    ensures Decided(t, Proceed(w, t, l), l.out)
  {
    hide Inventory.Restore;
  }

  lemma MoveDecided(w: World, id: string, l: Luck)
    requires Makes(w, id, l)
    ensures Decided(w.threads[id], Proceed(w, w.threads[id], l), l.out)
  {
    hide Decided, CallsFit, Proceed;
    var t := w.threads[id];
    match OpOf(t.phase)
    case Creating => { CreationDecided(w, t, l); }
    case Reserving => { ReservingDecided(w, t, l); }
    case Charging => { ChargingDecided(w, t, l); }
    case Confirming => { WritingDecided(w, t, l); }
    case Refunding => { RefundingDecided(w, t, l); }
    case Releasing => { ReleasingDecided(w, t, l); }
    case Cancelling => { WritingDecided(w, t, l); }
  }

  lemma EventsAreNew(h: History, e: Event)
    ensures Then(h, e) != h
  {
    if h.Then? {
      EventsAreNew(h.before, h.last);
    }
  }

  /** What is on record after a call, by whether it had an effect. */
  ghost predicate OnRecord(w: World, w': World, op: Op, t: Thread, l: Luck, effect: bool) {
    if op == Creating then
      && w'.history == w.history
      && w'.orders == if effect then w.orders[l.uuid := OrderOf(t)] else w.orders
    else
      && w'.orders.Keys == w.orders.Keys
      && w'.history == if effect then Then(w.history, EventOf(op, t.order)) else w.history
  }

  /** What a write leaves on record. */
  lemma WriteRecords(w: World, id: string, e: Effect, l: Luck, op: Op)
    requires id in w.threads && l.uuid !in w.orders && Allowed(w, w.threads[id], e, l) && (e.Nothing? || Fits(e, op))
    ensures var t, w' := w.threads[id], Perform(w, id, e, l);
            && (Recorded(w, w') <==> !e.Nothing?)
            && OnRecord(w, w', op, t, l, !e.Nothing?)
  {
    hide ReserveFor, Payment.Charge, Payment.Refund, Inventory.Release, StockLines, Narrow;
    if e.MakeOrder? {
      var o := MakeOrderShape(w, w.threads[id], l);
    } else if !e.Nothing? {
      EventsAreNew(w.history, EventOf(op, w.threads[id].order));
    }
  }

  /** A move of an unfinished thread: a probe that misses, and only moves the thread on; or the call of its
      phase, of which it is told what the network lets through, which is recorded if it had an effect, and
      which takes the thread on or back. */
  ghost predicate CallTold(w: World, w': World, id: string, l: Luck)
    requires id in w.threads && id in w'.threads && !Final(w.threads[id].phase)
  {
    var t, t', op := w.threads[id], w'.threads[id], OpOf(w.threads[id].phase);
    var c := t'.CallOf(op);
    && t.CallOf(op).Unsent? && (forall o: Op :: o != op ==> t'.CallOf(o) == t.CallOf(o))
    && (op != Creating ==> t'.order == t.order)
    && if c.Unsent? then w' == Put(w, id, t.(phase := t'.phase)) && t'.phase != t.phase && !Astray(l.out)
       else
         && Told(l.out, c, Recorded(w, w'))
         && t'.phase == (if c.Succeeded() then AfterSuccess(op) else AfterFailure(op))
         && OnRecord(w, w', op, t, l, c.TookEffect())
  }

  lemma CallIsTold(w: World, id: string, l: Luck)
    requires Makes(w, id, l)
    ensures id in MoveThread(w, id, l).threads && CallTold(w, MoveThread(w, id, l), id, l)
  {
    hide Proceed, Perform, CallsFit, Told;
    var t := w.threads[id];
    var op := OpOf(t.phase);
    var d := Proceed(w, t, l);
    MoveDecided(w, id, l);
    Guards(w, id, l);
    WriteRecords(w, id, d.effect, l, op);
    PerformKeepsThreads(w, id, d.effect, l);
    OtherCallsKept(t, op, d.thread.CallOf(op), d.thread);
    if d.thread.CallOf(op).Unsent? { assert Perform(w, id, d.effect, l) == w by { NothingPerformed(w, id, l); } }
    EffectsTold(l.out, d.thread.CallOf(op), !d.effect.Nothing?);
    hide Allowed, Decided;
  }

  lemma OtherCallsKept(t: Thread, op: Op, c: Call, t': Thread)
    requires t' == t.WithCall(op, c).(phase := t'.phase, order := t'.order)
    ensures t'.CallOf(op) == c && forall o: Op :: o != op ==> t'.CallOf(o) == t.CallOf(o)
  {
  }

  lemma NothingPerformed(w: World, id: string, l: Luck)
    requires id in w.threads
    ensures Perform(w, id, Nothing, l) == w
  {
  }

  lemma EffectsTold(out: Outcome, c: Call, recorded: bool)
    ensures Told(out, c, recorded) ==> (c.TookEffect() <==> recorded)
  {
  }

  /** In every run. */
  lemma RunTellsCalls(worlds: seq<World>, actions: seq<Action>, initial: map<string, int>, i: nat)
    requires IsRun(worlds, actions, initial) && i < |actions| && actions[i].Move? && actions[i].luck.late.None?
    ensures var id := actions[i].thread;
            && id in worlds[i].threads && id in worlds[i + 1].threads && !Final(worlds[i].threads[id].phase)
            && CallTold(worlds[i], worlds[i + 1], id, actions[i].luck)
  {
    hide OrdersOk, CreatorsOk, CallsFit, BooksOk, NoOverwrite, BackedOk, StatusesOk, Inventory.Conserved, MoveThread;
    hide Init, CallTold;
    var w, a := worlds[i], actions[i];
    RunKeepsInv(worlds, actions, initial, i);
    assert Follows(w, a, worlds[i + 1]);
    assert CallsFit(w.threads[a.thread]);
    CallIsTold(w, a.thread, a.luck);
  }

  /** So a reply that is lost is an error to its caller, whether or not the call had its effect, and the
      saga turns back. */
  lemma LostReplyTurnsBack(worlds: seq<World>, actions: seq<Action>, initial: map<string, int>, i: nat)
    requires IsRun(worlds, actions, initial) && i < |actions| && actions[i].Move? && actions[i].luck.late.None?
    requires actions[i].luck.out.ReplyLost?
    ensures var id := actions[i].thread;
            && id in worlds[i].threads && id in worlds[i + 1].threads && !Final(worlds[i].threads[id].phase)
            && var op, t' := OpOf(worlds[i].threads[id].phase), worlds[i + 1].threads[id];
               t'.CallOf(op) != Unsent ==>
                 t'.CallOf(op) == Errored(Recorded(worlds[i], worlds[i + 1])) && t'.phase == AfterFailure(op)
  {
    hide IsRun, OnRecord;
    RunTellsCalls(worlds, actions, initial, i);
  }

  // Who answers, and what

  /** Whether the cache remembers that such a call has been answered yes. */
  predicate Remembered(caches: Caches, op: Op, t: Thread) {
    match op
    case Creating => t.key != "" && t.key in caches.create
    case Reserving => t.key != "" && t.key in caches.reserve
    case Charging => t.order.id in caches.charge
    case Refunding => t.order.id in caches.refund
    case Releasing => t.order.id in caches.release
    case _ => false
  }

  predicate IsProbe(p: Phase) {
    p.CreateProbe? || p.ReserveProbe? || p.ChargeProbe? || p.RefundProbe? || p.ReleaseProbe?
  }

  /** A probe that gets through answers yes, without effect, exactly when the cache remembers and can be
      read; else the locked section is next. */
  lemma ProbeAnswers(w: World, id: string, l: Luck)
    requires Makes(w, id, l) && IsProbe(w.threads[id].phase) && !Astray(l.out)
    ensures var t, op := w.threads[id], OpOf(w.threads[id].phase);
            var c := Proceed(w, t, l).thread.CallOf(op);
            && (c.Unsent? <==> !(l.sees && Remembered(w.caches, op, t)))
            && (!c.Unsent? ==> c == if l.out.Delivered? then Answered(true, false) else Errored(false))
            && (c.Unsent? ==> Proceed(w, t, l).thread.phase == LockOf(op))
  {
    hide PhaseFits, CreateFor, ReserveFor;
    CallsStart(w.threads[id]);
  }

  lemma CallsStart(t: Thread)
    requires CallsFit(t) && !Final(t.phase)
    ensures t.CallOf(OpOf(t.phase)).Unsent?
  {
  }

  /** A locked section that gets through says no to a reservation under a free key that the stock cannot
      serve, and to a first charge over the limit; to all else it says yes. */
  lemma LockAnswers(w: World, id: string, l: Luck)
    requires Makes(w, id, l) && !IsProbe(w.threads[id].phase) && l.out.Delivered?
    ensures var t, op := w.threads[id], OpOf(w.threads[id].phase);
            var c := Proceed(w, t, l).thread.CallOf(op);
            && c.Answered?
            && (!c.ok <==> (op == Reserving && Unserved(w.inventory, t.key, StockLines(t.order.items)))
                           || (op == Charging && t.order.id !in w.payments && t.order.total > 500.0))
  {
    hide PhaseFits, CreateFor, StockLines, Inventory.Deduct, Inventory.Restore;
  }

  ghost predicate Unserved(st: Inventory.State, key: string, lines: seq<StockLine>) {
    && (key == "" || forall o :: o in st.reservations ==> st.reservations[o].key != key)
    && exists i :: 0 <= i < |lines| && (lines[i].product !in st.stock || st.stock[lines[i].product] < lines[i].quantity)
  }

  /** What the cache comes to hold by a move: an entry for what had an effect, if the write works. */
  lemma EffectsAreRemembered(w: World, id: string, l: Luck)
    requires Makes(w, id, l)
    ensures var t, w' := w.threads[id], MoveThread(w, id, l);
            var effect := Proceed(w, t, l).effect;
            && (effect.Nothing? || !l.stores ==> w'.caches == w.caches)
            && (l.stores && (t.key != "" || !(effect.MakeOrder? || effect.TakeStock?)) && !effect.WriteStatus? ==>
                  effect.Nothing? || Remembered(w'.caches, OpOf(t.phase), t))
            && (forall op, x :: Remembered(w'.caches, op, x) && !Remembered(w.caches, op, x) ==> Fits(effect, op))
  {
    hide Proceed, CallsFit, ReserveFor, CreateFor, Payment.Charge, Payment.Refund, Inventory.Release;
    MoveDecided(w, id, l);
  }

  /** Entries of the cache may vanish, any of them and at any time, and no others do. */
  lemma ForgottenExactly(w: World, gone: Caches)
    ensures var w' := Apply(w, Forget(gone));
            && w'.(caches := w.caches) == w
            && (forall op, t :: Remembered(w'.caches, op, t) <==>
                                  Remembered(w.caches, op, t) && !Remembered(gone, op, t))
            && (forall k :: k in w'.caches.create ==> w'.caches.create[k] == w.caches.create[k])
            && (forall k :: k in w'.caches.reserve ==> w'.caches.reserve[k] == w.caches.reserve[k])
  {
  }

  // Calls that come late

  function LockOf(op: Op): Phase {
    match op
    case Creating => CreateLock
    case Reserving => ReserveLock
    case Charging => ChargeLock
    case Confirming => Confirm
    case Refunding => RefundLock
    case Releasing => ReleaseLock
    case Cancelling => Cancel
  }

  lemma LateDecides(w: World, t: Thread, op: Op, l: Luck, waiting: World)
    requires !Astray(l.out) && waiting == w.(threads := waiting.threads)
    ensures Proceed(waiting, t.(phase := LockOf(op)), l.(late := None)).effect == LateEffect(w, t, op, l)
  {
    hide Inventory.Reserve, Inventory.Release, Payment.Charge, Payment.Refund, StockLines, Narrow, Orders.Create, Reply;
  }

  lemma PerformIgnoresThreads(w: World, waiting: World, id: string, e: Effect, l: Luck, p: Phase)
    requires id in w.threads && waiting == Put(w, id, w.threads[id].(phase := p))
    ensures Perform(w, id, e, l).(threads := map[]) == Perform(waiting, id, e, l.(late := None)).(threads := map[])
  {
    hide Inventory.Reserve, Inventory.Release, Payment.Charge, Payment.Refund, StockLines, Narrow, Orders.Create;
    hide Orders.UpdateStatus;
  }

  /** A hanging call that lands does in the services what it would have done in time: what its thread,
      were it still waiting for the locked section, would do there. */
  lemma LateIsTheSame(w: World, id: string, l: Luck)
    requires Enabled(w, Move(id, l)) && l.late.Some? && !Astray(l.out)
    ensures var waiting := Put(w, id, w.threads[id].(phase := LockOf(l.late.value)));
            MoveThread(w, id, l).(threads := map[]) == MoveThread(waiting, id, l.(late := None)).(threads := map[])
  {
    hide Perform, LateEffect, Proceed;
    var t := w.threads[id];
    var waiting := Put(w, id, t.(phase := LockOf(l.late.value)));
    LateDecides(w, t, l.late.value, l, waiting);
    PerformIgnoresThreads(w, waiting, id, LateEffect(w, t, l.late.value, l), l, LockOf(l.late.value));
  }

  /** One that does not is forgotten. */
  lemma LostForGood(w: World, id: string, l: Luck)
    requires Enabled(w, Move(id, l)) && l.late.Some? && Astray(l.out)
    ensures MoveThread(w, id, l) == Put(w, id, w.threads[id].WithCall(l.late.value, Landed(false)))
  {
  }
}
