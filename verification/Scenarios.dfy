/** Runs built move by move around one order: what it takes to bring the whole system, with everything
    else at rest, from one stage to the next. A stage says which threads there are, what has become of the
    order, and what the caches hold; the rest of the world follows from the setting. */
module Scenarios {
  import opened Options
  import opened Items
  import opened History
  import opened Protocol
  import Inventory
  import Orders
  import Payment

  /** The order of all scenarios, and a UUID that stays unused. */
  const ORDER := "o"
  const SPARE := "p"

  /** The request that the order is made from, and the stock at the start. */
  datatype Setting = Setting(key: string, customer: string, items: seq<Item>, initial: map<string, int>)
  {
    function Lines(): seq<StockLine> { StockLines(Narrow(items)) }

    function Total(): real { Items.Total(Narrow(items)) }

    function Order(status: Orders.Status): Orders.Order {
      Orders.Order(customer, Narrow(items), Total(), status, key)
    }

    function Info(): Orders.Info {
      Orders.Info(ORDER, customer, Narrow(items), Total(), Orders.PENDING)
    }

    /** A request that the services can serve. */
    predicate Servable() {
      ValidRequest(customer, items) && Inventory.Int32Stock(initial) && Inventory.CanReserve(initial, Lines())
    }
  }

  /** Where the order stands; None before it is made. */
  datatype Stage = Stage(
    threads: map<string, Thread>, status: Option<Orders.Status>, held: bool, paid: bool, caches: Caches)
  {
    function With(x: string, t: Thread): Stage { this.(threads := threads[x := t]) }
  }

  datatype Run = Run(worlds: seq<World>, actions: seq<Action>)

  ghost predicate Is(s: Setting, w: World, g: Stage) {
    && w.threads == g.threads
    && w.orders == (if g.status.None? then map[] else map[ORDER := s.Order(g.status.value)])
    && w.inventory.stock == (if g.held then Inventory.Deduct(s.initial, s.Lines()) else s.initial)
    && w.inventory.reservations == (if g.held then map[ORDER := Inventory.Reservation(s.key, s.Lines())] else map[])
    && w.payments == (if g.paid then map[ORDER := s.Total()] else map[])
    && w.caches == g.caches
  }

  ghost predicate Reaches(s: Setting, r: Run, g: Stage) {
    IsRun(r.worlds, r.actions, s.initial) && |r.worlds| > 0 && Is(s, r.worlds[|r.worlds| - 1], g)
  }

  /** r' is r and one more action, and reaches stage g'. */
  ghost predicate After(s: Setting, r: Run, a: Action, r': Run, g': Stage) {
    && Reaches(s, r', g') && r.worlds < r'.worlds
    && (Flawless(r.actions) && FlawlessAction(a) ==> Flawless(r'.actions))
  }

  const GOOD := Luck(Delivered, true, true, SPARE, None)
  const LOST := Luck(RequestLost, true, true, SPARE, None)

  const NO_CACHES := Caches(map[], map[], {}, {}, {})

  lemma Begin(s: Setting) returns (r: Run, g: Stage)
    requires Inventory.Int32Stock(s.initial)
    ensures g == Stage(map[], None, false, false, NO_CACHES) && Reaches(s, r, g) && r.actions == []
  {
    g := Stage(map[], None, false, false, NO_CACHES);
    r := Run([World(Inventory.State(s.initial, map[]), map[], map[], NO_CACHES, map[], map[], Empty)], []);
  }

  lemma Extend(s: Setting, r: Run, g: Stage, a: Action, g': Stage) returns (r': Run)
    requires Reaches(s, r, g) && Enabled(r.worlds[|r.worlds| - 1], a)
    requires Is(s, Apply(r.worlds[|r.worlds| - 1], a), g')
    ensures After(s, r, a, r', g')
  {
    hide Apply, Enabled, Init, Is, Follows, FlawlessAction;
    var worlds := RunGoesOn(r.worlds, r.actions, s.initial, a);
    r' := Run(worlds, r.actions + [a]);
  }

  lemma Submitting(s: Setting, r: Run, g: Stage, x: string, key: string, customer: string, items: seq<Item>)
    returns (r': Run, g': Stage)
    requires Reaches(s, r, g) && x !in g.threads && ValidRequest(customer, items)
    ensures g' == g.With(x, NewThread(key, customer, items))
    ensures After(s, r, Submit(x, key, customer, items), r', g')
  {
    hide IsRun, ValidRequest;
    g' := g.With(x, NewThread(key, customer, items));
    r' := Extend(s, r, g, Submit(x, key, customer, items), g');
  }

  /** A move of thread x from a stage to the stage with the given thread, order and caches. */
  lemma Moving(s: Setting, r: Run, g: Stage, x: string, l: Luck, g': Stage) returns (r': Run)
    requires Reaches(s, r, g) && x in g.threads && (l.uuid == SPARE || (l.uuid == ORDER && g.status.None?))
    requires if l.late.Some? then g.threads[x].CallOf(l.late.value).Hanging? else !Final(g.threads[x].phase)
    requires Is(s, MoveThread(r.worlds[|r.worlds| - 1], x, l), g')
    ensures After(s, r, Move(x, l), r', g')
  {
    hide IsRun, MoveThread;
    r' := Extend(s, r, g, Move(x, l), g');
  }

  // Creation

  lemma CreateLost(s: Setting, r: Run, g: Stage, x: string) returns (r': Run, g': Stage)
    requires Reaches(s, r, g) && x in g.threads && g.threads[x].phase.CreateProbe?
    ensures g' == g.With(x, AfterCreate(g.threads[x], Errored(false), g.threads[x].order))
    ensures After(s, r, Move(x, LOST), r', g')
  {
    hide IsRun;
    g' := g.With(x, AfterCreate(g.threads[x], Errored(false), g.threads[x].order));
    r' := Moving(s, r, g, x, LOST, g');
  }

  lemma CreateMisses(s: Setting, r: Run, g: Stage, x: string) returns (r': Run, g': Stage)
    requires Reaches(s, r, g) && x in g.threads && g.threads[x].phase.CreateProbe?
    requires g.threads[x].key !in g.caches.create
    ensures g' == g.With(x, g.threads[x].(phase := CreateLock))
    ensures After(s, r, Move(x, GOOD), r', g')
  {
    hide IsRun;
    g' := g.With(x, g.threads[x].(phase := CreateLock));
    r' := Moving(s, r, g, x, GOOD, g');
  }

  lemma CreateMakes(s: Setting, r: Run, g: Stage, x: string) returns (r': Run, g': Stage)
    requires Reaches(s, r, g) && x in g.threads && g.status.None?
    requires g.threads[x] == NewThread(s.key, s.customer, s.items).(phase := CreateLock)
    ensures g' == g.With(x, AfterCreate(g.threads[x], Answered(true, true), s.Info()))
                   .(status := Some(Orders.PENDING),
                     caches := if s.key == "" then g.caches
                               else g.caches.(create := g.caches.create[s.key := s.Info()]))
    ensures After(s, r, Move(x, GOOD.(uuid := ORDER)), r', g')
  {
    hide IsRun, Narrow, Items.Total;
    var w, l := r.worlds[|r.worlds| - 1], GOOD.(uuid := ORDER);
    g' := g.With(x, AfterCreate(g.threads[x], Answered(true, true), s.Info()))
          .(status := Some(Orders.PENDING),
            caches := if s.key != "" then g.caches.(create := g.caches.create[s.key := s.Info()]) else g.caches);
    NarrowFits(s.items);
    NarrowOnce(Narrow(s.items));
    assert !Orders.HasKey(w.orders, s.key);
    assert CreateFor(w, g.threads[x], l) == Orders.CreateReply(map[ORDER := s.Order(Orders.PENDING)], s.Info(), true);
    r' := Moving(s, r, g, x, l, g');
  }

  lemma CreateHits(s: Setting, r: Run, g: Stage, x: string) returns (r': Run, g': Stage)
    requires Reaches(s, r, g) && x in g.threads && g.threads[x].phase.CreateProbe?
    requires s.key != "" && g.threads[x].key == s.key && s.key in g.caches.create && g.caches.create[s.key] == s.Info()
    ensures g' == g.With(x, AfterCreate(g.threads[x], Answered(true, false), s.Info()))
    ensures After(s, r, Move(x, GOOD), r', g')
  {
    hide IsRun, Narrow, Items.Total;
    g' := g.With(x, AfterCreate(g.threads[x], Answered(true, false), s.Info()));
    r' := Moving(s, r, g, x, GOOD, g');
  }

  // The saga's calls. Its thread works on the order, under its key.

  ghost predicate Works(s: Setting, g: Stage, x: string, p: Phase) {
    && x in g.threads && g.status.Some?
    && g.threads[x].phase == p && g.threads[x].key == s.key && g.threads[x].order == s.Info()
  }

  lemma ReserveMisses(s: Setting, r: Run, g: Stage, x: string) returns (r': Run, g': Stage)
    requires Reaches(s, r, g) && Works(s, g, x, ReserveProbe) && s.key !in g.caches.reserve
    ensures g' == g.With(x, g.threads[x].(phase := ReserveLock))
    ensures After(s, r, Move(x, GOOD), r', g')
  {
    hide IsRun, Narrow, Items.Total;
    g' := g.With(x, g.threads[x].(phase := ReserveLock));
    r' := Moving(s, r, g, x, GOOD, g');
  }

  lemma ReserveTakes(s: Setting, r: Run, g: Stage, x: string) returns (r': Run, g': Stage)
    requires Reaches(s, r, g) && Works(s, g, x, ReserveLock) && !g.held && s.Servable()
    ensures g' == g.With(x, AfterReserve(g.threads[x], Answered(true, true)))
                   .(held := true,
                     caches := if s.key != "" then g.caches.(reserve := g.caches.reserve[s.key := ORDER]) else g.caches)
    ensures After(s, r, Move(x, GOOD), r', g')
  {
    hide IsRun, Narrow, Items.Total, StockLines, Inventory.CanReserve, Inventory.Deduct;
    g' := g.With(x, AfterReserve(g.threads[x], Answered(true, true)))
          .(held := true,
            caches := if s.key != "" then g.caches.(reserve := g.caches.reserve[s.key := ORDER]) else g.caches);
    r' := Moving(s, r, g, x, GOOD, g');
  }

  lemma ReserveHits(s: Setting, r: Run, g: Stage, x: string) returns (r': Run, g': Stage)
    requires Reaches(s, r, g) && Works(s, g, x, ReserveProbe) && s.key != "" && s.key in g.caches.reserve
    ensures g' == g.With(x, AfterReserve(g.threads[x], Answered(true, false)))
    ensures After(s, r, Move(x, GOOD), r', g')
  {
    hide IsRun, Narrow, Items.Total;
    g' := g.With(x, AfterReserve(g.threads[x], Answered(true, false)));
    r' := Moving(s, r, g, x, GOOD, g');
  }

  lemma ChargeLost(s: Setting, r: Run, g: Stage, x: string) returns (r': Run, g': Stage)
    requires Reaches(s, r, g) && Works(s, g, x, ChargeProbe)
    ensures g' == g.With(x, AfterCharge(g.threads[x], Errored(false)))
    ensures After(s, r, Move(x, LOST), r', g')
  {
    hide IsRun, Narrow, Items.Total;
    g' := g.With(x, AfterCharge(g.threads[x], Errored(false)));
    r' := Moving(s, r, g, x, LOST, g');
  }

  lemma ChargeMisses(s: Setting, r: Run, g: Stage, x: string) returns (r': Run, g': Stage)
    requires Reaches(s, r, g) && Works(s, g, x, ChargeProbe) && ORDER !in g.caches.charge
    ensures g' == g.With(x, g.threads[x].(phase := ChargeLock))
    ensures After(s, r, Move(x, GOOD), r', g')
  {
    hide IsRun, Narrow, Items.Total;
    g' := g.With(x, g.threads[x].(phase := ChargeLock));
    r' := Moving(s, r, g, x, GOOD, g');
  }

  lemma ChargeHits(s: Setting, r: Run, g: Stage, x: string) returns (r': Run, g': Stage)
    requires Reaches(s, r, g) && Works(s, g, x, ChargeProbe) && ORDER in g.caches.charge
    ensures g' == g.With(x, AfterCharge(g.threads[x], Answered(true, false)))
    ensures After(s, r, Move(x, GOOD), r', g')
  {
    hide IsRun, Narrow, Items.Total;
    g' := g.With(x, AfterCharge(g.threads[x], Answered(true, false)));
    r' := Moving(s, r, g, x, GOOD, g');
  }

  lemma ChargeDeclines(s: Setting, r: Run, g: Stage, x: string) returns (r': Run, g': Stage)
    requires Reaches(s, r, g) && Works(s, g, x, ChargeLock) && !g.paid && s.Total() > Payment.LIMIT
    ensures g' == g.With(x, AfterCharge(g.threads[x], Answered(false, false)))
    ensures After(s, r, Move(x, GOOD), r', g')
  {
    hide IsRun, Narrow, Items.Total;
    g' := g.With(x, AfterCharge(g.threads[x], Answered(false, false)));
    r' := Moving(s, r, g, x, GOOD, g');
  }

  lemma ChargeTakes(s: Setting, r: Run, g: Stage, x: string) returns (r': Run, g': Stage)
    requires Reaches(s, r, g) && Works(s, g, x, ChargeLock) && !g.paid && s.Total() <= Payment.LIMIT
    ensures g' == g.With(x, AfterCharge(g.threads[x], Answered(true, true)))
                   .(paid := true,
                     caches := g.caches.(charge := g.caches.charge + {ORDER}))
    ensures After(s, r, Move(x, GOOD), r', g')
  {
    hide IsRun, Narrow, Items.Total;
    g' := g.With(x, AfterCharge(g.threads[x], Answered(true, true)))
          .(paid := true,
            caches := g.caches.(charge := g.caches.charge + {ORDER}));
    r' := Moving(s, r, g, x, GOOD, g');
  }

  lemma ConfirmWrites(s: Setting, r: Run, g: Stage, x: string) returns (r': Run, g': Stage)
    requires Reaches(s, r, g) && Works(s, g, x, Confirm)
    ensures g' == g.With(x, AfterConfirm(g.threads[x], Answered(true, true))).(status := Some(Orders.CONFIRMED))
    ensures After(s, r, Move(x, GOOD), r', g')
  {
    hide IsRun, Narrow, Items.Total, StockLines, Inventory.Deduct;
    g' := g.With(x, AfterConfirm(g.threads[x], Answered(true, true))).(status := Some(Orders.CONFIRMED));
    r' := Moving(s, r, g, x, GOOD, g');
  }

  lemma ConfirmLost(s: Setting, r: Run, g: Stage, x: string) returns (r': Run, g': Stage)
    requires Reaches(s, r, g) && Works(s, g, x, Confirm)
    ensures g' == g.With(x, AfterConfirm(g.threads[x], Errored(false)))
    ensures After(s, r, Move(x, LOST), r', g')
  {
    hide IsRun, Narrow, Items.Total;
    g' := g.With(x, AfterConfirm(g.threads[x], Errored(false)));
    r' := Moving(s, r, g, x, LOST, g');
  }

  lemma ConfirmHangs(s: Setting, r: Run, g: Stage, x: string) returns (r': Run, g': Stage)
    requires Reaches(s, r, g) && Works(s, g, x, Confirm)
    ensures g' == g.With(x, AfterConfirm(g.threads[x], Hanging))
    ensures After(s, r, Move(x, GOOD.(out := Hung)), r', g')
  {
    hide IsRun, Narrow, Items.Total;
    g' := g.With(x, AfterConfirm(g.threads[x], Hanging));
    r' := Moving(s, r, g, x, GOOD.(out := Hung), g');
  }

  lemma ConfirmLands(s: Setting, r: Run, g: Stage, x: string) returns (r': Run, g': Stage)
    requires Reaches(s, r, g) && Works(s, g, x, Compensated) && g.threads[x].confirm.Hanging?
    ensures g' == g.With(x, g.threads[x].(confirm := Landed(true))).(status := Some(Orders.CONFIRMED))
    ensures After(s, r, Move(x, GOOD.(late := Some(Confirming))), r', g')
  {
    hide IsRun, Narrow, Items.Total, StockLines, Inventory.Deduct;
    g' := g.With(x, g.threads[x].(confirm := Landed(true))).(status := Some(Orders.CONFIRMED));
    r' := Moving(s, r, g, x, GOOD.(late := Some(Confirming)), g');
  }

  lemma RefundMisses(s: Setting, r: Run, g: Stage, x: string) returns (r': Run, g': Stage)
    requires Reaches(s, r, g) && Works(s, g, x, RefundProbe) && ORDER !in g.caches.refund
    ensures g' == g.With(x, g.threads[x].(phase := RefundLock))
    ensures After(s, r, Move(x, GOOD), r', g')
  {
    hide IsRun, Narrow, Items.Total;
    g' := g.With(x, g.threads[x].(phase := RefundLock));
    r' := Moving(s, r, g, x, GOOD, g');
  }

  lemma RefundReturns(s: Setting, r: Run, g: Stage, x: string) returns (r': Run, g': Stage)
    requires Reaches(s, r, g) && Works(s, g, x, RefundLock) && g.paid
    ensures g' == g.With(x, AfterRefund(g.threads[x], Answered(true, true)))
                   .(paid := false,
                     caches := g.caches.(refund := g.caches.refund + {ORDER}))
    ensures After(s, r, Move(x, GOOD), r', g')
  {
    hide IsRun, Narrow, Items.Total;
    g' := g.With(x, AfterRefund(g.threads[x], Answered(true, true)))
          .(paid := false,
            caches := g.caches.(refund := g.caches.refund + {ORDER}));
    r' := Moving(s, r, g, x, GOOD, g');
  }

  lemma ReleaseMisses(s: Setting, r: Run, g: Stage, x: string) returns (r': Run, g': Stage)
    requires Reaches(s, r, g) && Works(s, g, x, ReleaseProbe) && ORDER !in g.caches.release
    ensures g' == g.With(x, g.threads[x].(phase := ReleaseLock))
    ensures After(s, r, Move(x, GOOD), r', g')
  {
    hide IsRun, Narrow, Items.Total;
    g' := g.With(x, g.threads[x].(phase := ReleaseLock));
    r' := Moving(s, r, g, x, GOOD, g');
  }

  lemma ReleaseReturns(s: Setting, r: Run, g: Stage, x: string) returns (r': Run, g': Stage)
    requires Reaches(s, r, g) && Works(s, g, x, ReleaseLock) && g.held && s.Servable()
    ensures g' == g.With(x, AfterRelease(g.threads[x], Answered(true, true)))
                   .(held := false,
                     caches := g.caches.(release := g.caches.release + {ORDER}))
    ensures After(s, r, Move(x, GOOD), r', g')
  {
    hide IsRun, Narrow, Items.Total, StockLines, Inventory.Deduct, Inventory.Restore;
    g' := g.With(x, AfterRelease(g.threads[x], Answered(true, true)))
          .(held := false,
            caches := g.caches.(release := g.caches.release + {ORDER}));
    Inventory.RestoreUndoesDeduct(s.initial, s.Lines());
    r' := Moving(s, r, g, x, GOOD, g');
  }

  lemma ReleaseHits(s: Setting, r: Run, g: Stage, x: string) returns (r': Run, g': Stage)
    requires Reaches(s, r, g) && Works(s, g, x, ReleaseProbe) && ORDER in g.caches.release
    ensures g' == g.With(x, AfterRelease(g.threads[x], Answered(true, false)))
    ensures After(s, r, Move(x, GOOD), r', g')
  {
    hide IsRun, Narrow, Items.Total;
    g' := g.With(x, AfterRelease(g.threads[x], Answered(true, false)));
    r' := Moving(s, r, g, x, GOOD, g');
  }

  lemma CancelWrites(s: Setting, r: Run, g: Stage, x: string) returns (r': Run, g': Stage)
    requires Reaches(s, r, g) && Works(s, g, x, Cancel)
    ensures g' == g.With(x, AfterCancel(g.threads[x], Answered(true, true))).(status := Some(Orders.CANCELLED))
    ensures After(s, r, Move(x, GOOD), r', g')
  {
    hide IsRun, Narrow, Items.Total, StockLines, Inventory.Deduct;
    g' := g.With(x, AfterCancel(g.threads[x], Answered(true, true))).(status := Some(Orders.CANCELLED));
    r' := Moving(s, r, g, x, GOOD, g');
  }
}
