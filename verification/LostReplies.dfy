/** What a lost reply leaves behind, for every request. */
module LostReplies {
  import opened Options
  import opened Items
  import opened Protocol
  import opened Scenarios
  import opened Duplicates
  import opened Requests
  import Inventory
  import Orders
  import Payment

  /** The call has its effect, and its caller hears of an error. */
  const UNHEARD := Luck(ReplyLost, true, true, SPARE, None)

  lemma CreateUnheard(s: Setting, r: Run, g: Stage, x: string) returns (r': Run, g': Stage)
    requires Reaches(s, r, g) && x in g.threads && g.status.None?
    requires g.threads[x] == NewThread(s.key, s.customer, s.items).(phase := CreateLock)
    ensures g'.threads == g.threads[x := AfterCreate(g.threads[x], Errored(true), s.Info())]
    ensures g'.status == Some(Orders.PENDING) && g'.held == g.held && g'.paid == g.paid && Reaches(s, r', g')
  {
    hide IsRun, Narrow, Items.Total;
    var w, l := r.worlds[|r.worlds| - 1], UNHEARD.(uuid := ORDER);
    g' := g.With(x, AfterCreate(g.threads[x], Errored(true), s.Info()))
          .(status := Some(Orders.PENDING),
            caches := if s.key != "" then g.caches.(create := g.caches.create[s.key := s.Info()]) else g.caches);
    NarrowFits(s.items);
    NarrowOnce(Narrow(s.items));
    assert !Orders.HasKey(w.orders, s.key);
    assert CreateFor(w, g.threads[x], l) == Orders.CreateReply(map[ORDER := s.Order(Orders.PENDING)], s.Info(), true);
    r' := Moving(s, r, g, x, l, g');
  }

  lemma ReserveUnheard(s: Setting, r: Run, g: Stage, x: string) returns (r': Run, g': Stage)
    requires Reaches(s, r, g) && Works(s, g, x, ReserveLock) && !g.held && s.Servable()
    ensures g' == g.With(x, AfterReserve(g.threads[x], Errored(true)))
                   .(held := true, caches := g.caches.(reserve := WithOrder(g.caches.reserve, s.key)))
    ensures Reaches(s, r', g')
  {
    hide IsRun, Narrow, Items.Total, StockLines, Inventory.CanReserve, Inventory.Deduct;
    g' := g.With(x, AfterReserve(g.threads[x], Errored(true)))
          .(held := true, caches := g.caches.(reserve := WithOrder(g.caches.reserve, s.key)));
    r' := Moving(s, r, g, x, UNHEARD, g');
  }

  lemma ChargeUnheard(s: Setting, r: Run, g: Stage, x: string) returns (r': Run, g': Stage)
    requires Reaches(s, r, g) && Works(s, g, x, ChargeLock) && !g.paid && s.Total() <= Payment.LIMIT
    ensures g' == g.With(x, AfterCharge(g.threads[x], Errored(true)))
                   .(paid := true, caches := g.caches.(charge := g.caches.charge + {ORDER}))
    ensures Reaches(s, r', g')
  {
    hide IsRun, Narrow, Items.Total;
    g' := g.With(x, AfterCharge(g.threads[x], Errored(true)))
          .(paid := true, caches := g.caches.(charge := g.caches.charge + {ORDER}));
    r' := Moving(s, r, g, x, UNHEARD, g');
  }

  /** One request, and where its run ends. */
  ghost predicate EndsWith(worlds: seq<World>, actions: seq<Action>, q: Request, initial: map<string, int>, a: string,
                           status: Orders.Status, held: bool, paid: bool) {
    && RunOf(worlds, actions, initial, map[a := q])
    && var w := worlds[|worlds| - 1];
       && Quiescent(w) && a in w.threads && w.orders.Keys == {w.threads[a].order.id}
       && var o := w.threads[a].order.id;
          && w.orders[o].status == status && (o in w.inventory.reservations <==> held) && (o in w.payments <==> paid)
  }

  lemma StageEnds(s: Setting, r: Run, g: Stage, q: Request, a: string, status: Orders.Status)
    requires Reaches(s, r, g) && s == SettingOf(q, s.initial) && g.status == Some(status)
    requires g.threads.Keys == {a} && AtRest(g.threads[a]) && g.threads[a].order.id == ORDER
    requires g.threads[a].key == q.key && g.threads[a].customer == q.customer && g.threads[a].items == q.items
    ensures EndsWith(r.worlds, r.actions, q, s.initial, a, status, g.held, g.paid)
  {
    hide IsRun, AtRest, Setting.Total, Setting.Lines, Inventory.Deduct, Narrow;
  }

  /** The reply to the creation is lost: the order stays pending for ever, and no saga ever works on it. */
  lemma LostCreateReplyStrands(q: Request, initial: map<string, int>, a: string)
    returns (worlds: seq<World>, actions: seq<Action>)
    requires ValidRequest(q.customer, q.items) && Inventory.Int32Stock(initial)
    ensures EndsWith(worlds, actions, q, initial, a, Orders.PENDING, false, false)
    ensures worlds[|worlds| - 1].threads[a].create == Errored(true)
  {
    hide Reaches, Flawless, ValidRequest, EndsWith;
    var s := SettingOf(q, initial);
    var r, g := Begin(s);
    r, g := Submitting(s, r, g, a, s.key, s.customer, s.items);
    r, g := CreateMisses(s, r, g, a);
    r, g := CreateUnheard(s, r, g, a);
    StageEnds(s, r, g, q, a, Orders.PENDING);
    worlds, actions := r.worlds, r.actions;
    ThreadAtEnd(s, r, g, a);
  }

  lemma ThreadAtEnd(s: Setting, r: Run, g: Stage, a: string)
    requires Reaches(s, r, g)
    ensures |r.worlds| > 0 && r.worlds[|r.worlds| - 1].threads == g.threads
  {
  }

  // Goods that were reserved unheard

  function Unheard(s: Setting): Thread {
    AfterCancel(AfterReserve(Maker(s).(phase := ReserveLock), Errored(true)), Answered(true, true))
  }

  lemma LeakGoods(s: Setting, a: string) returns (r: Run, g: Stage)
    requires s.Servable()
    ensures Reaches(s, r, g) && g.threads == map[a := Unheard(s)]
    ensures g.status == Some(Orders.CANCELLED) && g.held && !g.paid
  {
    hide Reaches, Flawless, Setting.Servable, Setting.Total, Setting.Info;
    r, g := Alone(s, a);
    r, g := ReserveMisses(s, r, g, a);
    r, g := ReserveUnheard(s, r, g, a);
    r, g := CancelWrites(s, r, g, a);
  }

  lemma UnheardEnds(s: Setting)
    ensures var t := Unheard(s);
            && AtRest(t) && t.order.id == ORDER && t.reserve == Errored(true)
            && t.key == s.key && t.customer == s.customer && t.items == s.items
  {
    InfoIsOrder(s);
    hide Setting.Info;
  }

  /** The reply to the reservation is lost, of any request that the stock can serve: the order is cancelled
      and keeps its goods for ever. */
  lemma LostReserveReplyLeaksGoods(q: Request, initial: map<string, int>, a: string)
    returns (worlds: seq<World>, actions: seq<Action>)
    requires ValidRequest(q.customer, q.items) && Inventory.Int32Stock(initial)
    requires Inventory.CanReserve(initial, q.Lines())
    ensures EndsWith(worlds, actions, q, initial, a, Orders.CANCELLED, true, false)
    ensures worlds[|worlds| - 1].threads[a].reserve == Errored(true)
  {
    hide Reaches, ValidRequest, Inventory.CanReserve, EndsWith, Unheard, AtRest;
    var s := SettingOf(q, initial);
    var r, g := LeakGoods(s, a);
    UnheardEnds(s);
    StageEnds(s, r, g, q, a, Orders.CANCELLED);
    worlds, actions := r.worlds, r.actions;
    ThreadAtEnd(s, r, g, a);
  }

  // Money that was taken unheard

  function UnheardCharge(s: Setting): Thread {
    AfterCancel(AfterRelease(ChargedUnheard(s), Answered(true, true)), Answered(true, true))
  }

  function ChargedUnheard(s: Setting): Thread {
    AfterCharge(AfterReserve(Maker(s).(phase := ReserveLock), Answered(true, true)), Errored(true))
  }

  lemma TakeMoney(s: Setting, a: string) returns (r: Run, g: Stage)
    requires s.Servable() && s.Total() <= Payment.LIMIT
    ensures Reaches(s, r, g) && g.threads == map[a := ChargedUnheard(s)]
    ensures g.status == Some(Orders.PENDING) && g.held && g.paid && ORDER !in g.caches.release
  {
    hide Reaches, Flawless, Setting.Servable, Setting.Total, Setting.Info;
    r, g := Alone(s, a);
    r, g := ReserveMisses(s, r, g, a);
    r, g := ReserveTakes(s, r, g, a);
    r, g := ChargeMisses(s, r, g, a);
    r, g := ChargeUnheard(s, r, g, a);
  }

  lemma LeakMoney(s: Setting, a: string) returns (r: Run, g: Stage)
    requires s.Servable() && s.Total() <= Payment.LIMIT
    ensures Reaches(s, r, g) && g.threads == map[a := UnheardCharge(s)]
    ensures g.status == Some(Orders.CANCELLED) && !g.held && g.paid
  {
    hide Reaches, Flawless, Setting.Servable, Setting.Total, Setting.Info;
    r, g := TakeMoney(s, a);
    r, g := ReleaseMisses(s, r, g, a);
    r, g := ReleaseReturns(s, r, g, a);
    r, g := CancelWrites(s, r, g, a);
  }

  lemma UnheardChargeEnds(s: Setting)
    ensures var t := UnheardCharge(s);
            && AtRest(t) && t.order.id == ORDER && t.charge == Errored(true)
            && t.key == s.key && t.customer == s.customer && t.items == s.items
  {
    InfoIsOrder(s);
    hide Setting.Info;
  }

  /** The reply to the charge is lost, of any such request within the limit: the order is cancelled, its
      goods are released, and its money is kept for ever. */
  lemma LostChargeReplyLeaksMoney(q: Request, initial: map<string, int>, a: string)
    returns (worlds: seq<World>, actions: seq<Action>)
    requires ValidRequest(q.customer, q.items) && Inventory.Int32Stock(initial)
    requires Inventory.CanReserve(initial, q.Lines()) && Total(Narrow(q.items)) <= Payment.LIMIT
    ensures EndsWith(worlds, actions, q, initial, a, Orders.CANCELLED, false, true)
    ensures worlds[|worlds| - 1].threads[a].charge == Errored(true)
  {
    hide Reaches, ValidRequest, Inventory.CanReserve, EndsWith, UnheardCharge, AtRest;
    var s := SettingOf(q, initial);
    var r, g := LeakMoney(s, a);
    UnheardChargeEnds(s);
    StageEnds(s, r, g, q, a, Orders.CANCELLED);
    worlds, actions := r.worlds, r.actions;
    ThreadAtEnd(s, r, g, a);
  }
}
