/** Which sets of requests are safe, by a condition to check before any is submitted. */
module Requests {
  import opened Items
  import opened History
  import opened Protocol
  import opened Invariants
  import opened Safety
  import opened OneSaga
  import opened Atomicity
  import opened Scenarios
  import opened Duplicates
  import Overselling
  import Inventory
  import Orders
  import Payment

  datatype Request = Request(key: string, customer: string, items: seq<Item>)
  {
    /** What its order would reserve. */
    function Lines(): seq<StockLine> { StockLines(Narrow(items)) }

    predicate Sane() { ValidRequest(customer, items) && DistinctAndSmall(items) }
  }

  /** Requests, by the thread that serves each. */
  type Batch = map<string, Request>

  /** These requests, and no others, have been submitted. */
  ghost predicate Submitted(w: World, requests: Batch) {
    && w.threads.Keys == requests.Keys
    && forall id :: id in requests ==>
         && w.threads[id].key == requests[id].key
         && w.threads[id].customer == requests[id].customer
         && w.threads[id].items == requests[id].items
  }

  /** A run of exactly these requests. */
  ghost predicate RunOf(worlds: seq<World>, actions: seq<Action>, initial: map<string, int>, requests: Batch) {
    IsRun(worlds, actions, initial) && |worlds| > 0 && Submitted(worlds[|worlds| - 1], requests)
  }

  /** A run of these requests that ends, after clean calls only, with an order in pieces. */
  ghost predicate BadRun(worlds: seq<World>, actions: seq<Action>, initial: map<string, int>, requests: Batch) {
    && RunOf(worlds, actions, initial, requests)
    && var w := worlds[|worlds| - 1];
       Quiescent(w) && AllClean(w) && !AllAtomic(w)
  }

  lemma RunsEnd(worlds: seq<World>, actions: seq<Action>, initial: map<string, int>, requests: Batch)
    requires RunOf(worlds, actions, initial, requests)
    ensures |worlds| > 0
  {
  }

  /** Two requests share a key, and the stock suffices for one of them. */
  predicate Risky(requests: Batch, initial: map<string, int>) {
    exists a, b :: a in requests && b in requests && RiskyPair(requests, initial, a, b)
  }

  predicate RiskyPair(requests: Batch, initial: map<string, int>, a: string, b: string)
    requires a in requests && b in requests
  {
    && a != b && requests[a].key == requests[b].key != ""
    && Inventory.CanReserve(initial, requests[a].Lines())
  }

  // A risky pair has a bad run

  function Dropped(q: Request): Thread {
    AfterCreate(NewThread(q.key, q.customer, q.items), Errored(false), NoOrder())
  }

  function AllDropped(requests: Batch, ids: set<string>): map<string, Thread>
    requires ids <= requests.Keys
  {
    map id | id in ids :: Dropped(requests[id])
  }

  lemma DroppedIs(q: Request)
    ensures var t := NewThread(q.key, q.customer, q.items); Dropped(q) == AfterCreate(t, Errored(false), t.order)
  {
  }

  /** Any other requests may be submitted first and lost. */
  lemma {:induction false} OthersDropped(s: Setting, requests: Batch, ids: set<string>)
    returns (r: Run, g: Stage)
    requires Inventory.Int32Stock(s.initial) && ids <= requests.Keys
    requires forall id :: id in ids ==> ValidRequest(requests[id].customer, requests[id].items)
    ensures Reaches(s, r, g) && Idle(g) && g.threads == AllDropped(requests, ids)
    ensures ids == {} ==> Flawless(r.actions)
    decreases |ids|
  {
    hide Reaches, ValidRequest, FlawlessAction, Inventory.Int32Stock, Dropped;
    if ids == {} {
      r, g := Begin(s);
    } else {
      var id :| id in ids;
      r, g := OthersDropped(s, requests, ids - {id});
      var before := g.threads;
      DroppedIs(requests[id]);
      r, g := Submitting(s, r, g, id, requests[id].key, requests[id].customer, requests[id].items);
      r, g := CreateLost(s, r, g, id);
      assert g.threads == before[id := Dropped(requests[id])];
    }
  }

  function SettingOf(q: Request, initial: map<string, int>): Setting {
    Setting(q.key, q.customer, q.items, initial)
  }

  lemma EndsClean(s: Setting, customer: string, items: seq<Item>, lost: bool, q: Request)
    ensures AtRest(Returned(s, lost)) && Clean(Returned(s, lost)) && Returned(s, lost).confirm == Unsent
    ensures var t := Leaked(s, customer, items, lost); AtRest(t) && Clean(t) && t.confirm == Unsent
    ensures var t := Promised(s, customer, items); AtRest(t) && Clean(t) && t.confirm == Answered(true, true)
    ensures AtRest(Dropped(q)) && Clean(Dropped(q)) && Dropped(q).confirm == Unsent
  {
    hide Setting.Info;
  }

  /** Where both kinds of bad runs end: everything at rest, and every call clean. */
  lemma EndsWell(s: Setting, w: World, requests: Batch, a: string, b: string, tb: Thread, lost: bool)
    requires a in requests && b in requests && a != b && requests[a].key == requests[b].key
    requires s.key == requests[a].key && s.customer == requests[a].customer && s.items == requests[a].items
    requires w.threads == AllDropped(requests, requests.Keys - {a, b})[a := Returned(s, lost)][b := tb]
    requires || tb == Leaked(s, requests[b].customer, requests[b].items, lost)
             || tb == Promised(s, requests[b].customer, requests[b].items)
    ensures Submitted(w, requests) && Quiescent(w) && AllClean(w)
  {
    hide Returned, Leaked, Promised, Dropped, AtRest, Clean;
    ThreadsKeepRequests(s, requests, w.threads, a, b, tb, lost);
    forall id | id in w.threads
      ensures AtRest(w.threads[id]) && Clean(w.threads[id]) && w.threads[id].confirm != Landed(true)
    {
      EndsClean(s, requests[b].customer, requests[b].items, lost, requests[id]);
    }
  }

  lemma BreaksAt(w: World, o: string)
    requires o in w.orders && w.orders[o].status.CANCELLED? && (o in w.inventory.reservations || o in w.payments)
    ensures !AllAtomic(w)
  {
    assert !Atomic(w, o);
  }

  /** Two requests with a shared key, the first of them reservable, among any others: a clean run that
      leaves the cancelled order's goods reserved for ever. Without a lost call if the cart is over the
      limit and there are no other requests. */
  lemma SharedKeyLeaks(requests: Batch, initial: map<string, int>, a: string, b: string, lost: bool)
    returns (worlds: seq<World>, actions: seq<Action>)
    requires a in requests && b in requests && RiskyPair(requests, initial, a, b) && Inventory.Int32Stock(initial)
    requires forall id :: id in requests ==> ValidRequest(requests[id].customer, requests[id].items)
    requires !lost ==> Total(Narrow(requests[a].items)) > Payment.LIMIT
    ensures BadRun(worlds, actions, initial, requests)
    ensures var w := worlds[|worlds| - 1];
            ORDER in w.orders && w.orders[ORDER].status.CANCELLED? && ORDER in w.inventory.reservations
    ensures !lost && requests.Keys == {a, b} ==> Flawless(actions)
  {
    hide IsRun, ValidRequest, Inventory.CanReserve, Returned, Leaked, Dropped, Flawless, Quiescent, AllClean,
         AllAtomic, Submitted;
    var s := SettingOf(requests[a], initial);
    var r, g := OthersDropped(s, requests, requests.Keys - {a, b});
    r, g := LeakFrom(s, r, g, a, b, requests[b].customer, requests[b].items, lost);
    worlds, actions := r.worlds, r.actions;
    var w := worlds[|worlds| - 1];
    EndsWell(s, w, requests, a, b, Leaked(s, requests[b].customer, requests[b].items, lost), lost);
    BreaksAt(w, ORDER);
  }

  lemma ThreadsKeepRequests(s: Setting, requests: Batch, threads: map<string, Thread>, a: string, b: string,
                            tb: Thread, lost: bool)
    requires a in requests && b in requests && a != b && requests[a].key == requests[b].key
    requires s.key == requests[a].key && s.customer == requests[a].customer && s.items == requests[a].items
    requires threads == AllDropped(requests, requests.Keys - {a, b})[a := Returned(s, lost)][b := tb]
    requires || tb == Leaked(s, requests[b].customer, requests[b].items, lost)
             || tb == Promised(s, requests[b].customer, requests[b].items)
    ensures threads.Keys == requests.Keys
    ensures forall id :: id in requests ==>
              && threads[id].key == requests[id].key && threads[id].customer == requests[id].customer
              && threads[id].items == requests[id].items
  {
    hide Setting.Info;
  }

  /** Two requests with a shared key, the first of them reservable and within the limit, among any
      others: a clean run in which their order is confirmed while it holds no goods, and ends cancelled
      and paid. */
  lemma SharedKeyConfirmsWithoutGoods(requests: Batch, initial: map<string, int>, a: string, b: string)
    returns (worlds: seq<World>, actions: seq<Action>, w: World)
    requires a in requests && b in requests && RiskyPair(requests, initial, a, b) && Inventory.Int32Stock(initial)
    requires forall id :: id in requests ==> ValidRequest(requests[id].customer, requests[id].items)
    requires Total(Narrow(requests[a].items)) <= Payment.LIMIT
    ensures BadRun(worlds, actions, initial, requests)
    ensures w in worlds && ORDER in w.orders && w.orders[ORDER].status.CONFIRMED? && ORDER !in w.inventory.reservations
    ensures var last := worlds[|worlds| - 1];
            ORDER in last.orders && last.orders[ORDER].status.CANCELLED? && ORDER in last.payments
  {
    hide IsRun, ValidRequest, Inventory.CanReserve, Returned, Promised, Dropped, Flawless, Quiescent, AllClean,
         AllAtomic, Submitted;
    var s := SettingOf(requests[a], initial);
    var r, g := OthersDropped(s, requests, requests.Keys - {a, b});
    r, g, w := FalsePromise(s, r, g, a, b, requests[b].customer, requests[b].items);
    worlds, actions := r.worlds, r.actions;
    var last := worlds[|worlds| - 1];
    EndsWell(s, last, requests, a, b, Promised(s, requests[b].customer, requests[b].items), true);
    BreaksAt(last, ORDER);
  }

  /** A single request within the limit: a run in which every forward call but the Confirm is answered
      truly and everything is undone, and yet the order ends confirmed, with neither goods nor money. */
  lemma LateConfirmBreaks(q: Request, initial: map<string, int>, a: string)
    returns (worlds: seq<World>, actions: seq<Action>)
    requires ValidRequest(q.customer, q.items) && Inventory.Int32Stock(initial)
    requires Inventory.CanReserve(initial, q.Lines())
    requires Total(Narrow(q.items)) <= Payment.LIMIT
    ensures IsRun(worlds, actions, initial) && |worlds| > 0
    ensures var w := worlds[|worlds| - 1];
            && Submitted(w, map[a := q]) && Quiescent(w) && Clean(w.threads[a]) && w.threads[a].confirm == Landed(true)
            && ORDER in w.orders && w.orders[ORDER].status.CONFIRMED?
            && ORDER !in w.inventory.reservations && ORDER !in w.payments
  {
    hide IsRun, ValidRequest, Inventory.CanReserve, Setting.Info, Overtaken, AtRest, Clean;
    var s := SettingOf(q, initial);
    var r, g := LateConfirm(s, a);
    worlds, actions := r.worlds, r.actions;
    OvertakenEnds(s);
  }

  lemma OvertakenEnds(s: Setting)
    ensures var t := Overtaken(s);
            && AtRest(t) && Clean(t) && t.confirm == Landed(true)
            && t.key == s.key && t.customer == s.customer && t.items == s.items
  {
    hide Setting.Info;
  }

  // Without a risky pair every clean run is atomic

  /** No request with this key could ever be served. */
  ghost predicate Unfit(w: World, initial: map<string, int>, key: string) {
    forall id :: id in w.threads && w.threads[id].key == key ==>
      !Inventory.CanReserve(initial, StockLines(Narrow(w.threads[id].items)))
  }

  /** What has been taken could have been served from the start. */
  ghost predicate TakenFit(w: World, initial: map<string, int>) {
    forall o :: o in w.orders && EverTaken(w.history, Goods, o) ==>
      Inventory.CanReserve(initial, StockLines(w.orders[o].items))
  }

  lemma LessStockLessServed(stock: map<string, int>, initial: map<string, int>, lines: seq<StockLine>)
    requires stock.Keys == initial.Keys && forall p :: Inventory.Level(stock, p) <= Inventory.Level(initial, p)
    requires Inventory.CanReserve(stock, lines)
    ensures Inventory.CanReserve(initial, lines)
  {
    forall i | 0 <= i < |lines|
      ensures lines[i].product in initial && lines[i].quantity <= initial[lines[i].product]
    {
      assert Inventory.Level(stock, lines[i].product) <= Inventory.Level(initial, lines[i].product);
    }
  }

  /** The one order for which a write takes goods or money, or returns them. */
  lemma PerformTouches(w: World, id: string, e: Effect, l: Luck)
    requires id in w.threads
    ensures var h, h', x := w.history, Perform(w, id, e, l).history, w.threads[id].order.id;
            && (forall o :: EverTaken(h', Goods, o) <==> EverTaken(h, Goods, o) || (e.TakeStock? && o == x))
            && (forall o :: EverTaken(h', Money, o) <==> EverTaken(h, Money, o) || (e.TakeMoney? && o == x))
            && (forall o :: EverReturned(h', Goods, o) <==> EverReturned(h, Goods, o) || (e.ReturnStock? && o == x))
            && (forall o :: EverReturned(h', Money, o) <==> EverReturned(h, Money, o) || (e.ReturnMoney? && o == x))
  {
    hide ReserveFor, CreateFor;
  }

  lemma MoveTakesWhatFits(w: World, id: string, l: Luck, initial: map<string, int>)
    requires Enabled(w, Move(id, l)) && Inv(w, initial) && TakenFit(w, initial)
    requires forall p :: Inventory.Level(w.inventory.stock, p) <= Inventory.Level(initial, p)
    ensures TakenFit(MoveThread(w, id, l), initial)
  {
    hide Decide, Perform, StoreOk, CreateCacheOk, SagasOk, CreatorsOk, CallsOk, NoOverwrite, BackedOk, StatusesOk;
    hide Inventory.CanReserve, Narrow, StockLines, SagaFits;
    var t := w.threads[id];
    var e := Decide(w, t, l).effect;
    var w' := Perform(w, id, e, l);
    TakesAreNew(w, id, l);
    PerformTouches(w, id, e, l);
    PerformKeepsOrders(w, id, e, l);
    forall o | o in w'.orders && EverTaken(w'.history, Goods, o)
      ensures Inventory.CanReserve(initial, StockLines(w'.orders[o].items))
    {
      if e.TakeStock? && o == t.order.id {
        TakersFit(w, t, e, l, initial);
      } else {
        TakenIsStored(w.history, w.orders, Goods, o);
      }
      assert w'.orders[o].(status := w.orders[o].status) == w.orders[o];
    }
    hide Allowed;
  }

  lemma TakersFit(w: World, t: Thread, e: Effect, l: Luck, initial: map<string, int>)
    requires Allowed(w, t, e, l) && e.TakeStock? && SagaFits(t, w.orders) && w.inventory.stock.Keys == initial.Keys
    requires forall p :: Inventory.Level(w.inventory.stock, p) <= Inventory.Level(initial, p)
    ensures t.order.id in w.orders && Inventory.CanReserve(initial, StockLines(w.orders[t.order.id].items))
  {
    LessStockLessServed(w.inventory.stock, initial, StockLines(t.order.items));
    hide StockLines, Inventory.CanReserve;
  }

  lemma SaneThroughout(w: World, w': World)
    requires Overselling.RequestsKept(w, w') && Overselling.SaneRequests(w')
    ensures Overselling.SaneRequests(w)
  {
    forall id | id in w.threads
      ensures DistinctAndSmall(w.threads[id].items)
    {
      assert Overselling.SameRequest(w.threads[id], w'.threads[id]);
    }
  }

  /** Goods are only ever taken for orders that the initial stock could serve. */
  lemma {:induction false} RunTakesWhatFits(worlds: seq<World>, actions: seq<Action>, initial: map<string, int>, i: nat)
    requires IsRun(worlds, actions, initial) && i < |worlds|
    requires Overselling.SaneStart(initial) && Overselling.SaneRequests(worlds[i])
    ensures TakenFit(worlds[i], initial)
  {
    hide Inv, Apply, Enabled, Overselling.SaneRequests, Overselling.RequestsKept, Overselling.SaneStart;
    hide Inventory.Level;
    if i == 0 {
      assert Init(worlds[0], initial);
    } else {
      hide TakenFit, Init;
      var w := worlds[i - 1];
      assert Follows(w, actions[i - 1], worlds[i]);
      Overselling.StepKeepsRequests(w, actions[i - 1]);
      SaneThroughout(w, worlds[i]);
      RunTakesWhatFits(worlds, actions, initial, i - 1);
      RunKeepsInv(worlds, actions, initial, i - 1);
      forall p ensures Inventory.Level(w.inventory.stock, p) <= Inventory.Level(initial, p) {
        Overselling.NeverOversold(worlds, actions, initial, i - 1, p);
      }
      StepTakesWhatFits(w, actions[i - 1], initial);
    }
  }

  lemma StepTakesWhatFits(w: World, a: Action, initial: map<string, int>)
    requires Enabled(w, a) && Inv(w, initial) && TakenFit(w, initial)
    requires forall p :: Inventory.Level(w.inventory.stock, p) <= Inventory.Level(initial, p)
    ensures TakenFit(Apply(w, a), initial)
  {
    hide MoveThread, Inv;
    if a.Move? {
      MoveTakesWhatFits(w, a.thread, a.luck, initial);
    }
  }

  /** So never for a key whose requests do not fit it. */
  lemma NeverTaken(worlds: seq<World>, actions: seq<Action>, initial: map<string, int>, i: nat, key: string)
    requires IsRun(worlds, actions, initial) && i < |worlds|
    requires Overselling.SaneStart(initial) && Overselling.SaneRequests(worlds[i]) && Unfit(worlds[i], initial, key)
    ensures var w := worlds[i];
            forall o :: o in w.orders && w.orders[o].key == key ==> !EverTaken(w.history, Goods, o)
  {
    hide IsRun, OrdersOk, SagasOk, CallsOk, BooksOk, NoOverwrite, BackedOk, StatusesOk, Inventory.Conserved;
    hide Inventory.CanReserve, Narrow, StockLines, DistinctAndSmall;
    var w := worlds[i];
    RunKeepsInv(worlds, actions, initial, i);
    RunTakesWhatFits(worlds, actions, initial, i);
    forall o | o in w.orders && w.orders[o].key == key
      ensures !EverTaken(w.history, Goods, o)
    {
      assert MadeOrder(w.threads[w.creators[o]], o, w.orders[o]);
    }
  }

  /** An order for which goods were never taken, once at rest after clean calls, is cancelled and free. */
  lemma UntakenIsAtomic(w: World, initial: map<string, int>, o: string)
    requires Inv(w, initial) && Quiescent(w) && AllClean(w) && o in w.orders && !EverTaken(w.history, Goods, o)
    ensures Atomic(w, o)
  {
    hide OrdersOk, SagasOk, PhaseFits, NoOverwrite, EventsOk, CachesBacked, Inventory.Conserved, MadeOrder,
         RepliesBacked, StatusRecorded;
    var t := w.threads[w.creators[o]];
    assert MadeOrder(t, o, w.orders[o]) && CallsFit(t) && AtRest(t) && Clean(t);
    assert RepliesBacked(t, w.history) && StatusRecorded(t, w.history);
    MakerIsCancelled(t, o, w.orders[o], w.history);
    if o in w.payments {
      HoldsWasTaken(w.history, Money, o);
      MoneyAfterGoods(w.history, o);
    }
    if o in w.inventory.reservations {
      HoldsWasTaken(w.history, Goods, o);
    }
    if EverConfirmed(w.history, o) {
      var before := BackingOfConfirmation(w.history, o);
      TakenEarlier(before, Confirmed(o), w.history, Goods, o);
    }
    ConfirmedWasWritten(w.history, o);
  }

  lemma MakerIsCancelled(t: Thread, o: string, order: Orders.Order, h: History)
    requires MadeOrder(t, o, order) && CallsFit(t) && AtRest(t) && Clean(t)
    requires RepliesBacked(t, h) && StatusRecorded(t, h) && !EverTaken(h, Goods, o)
    ensures EverCancelled(h, o)
  {
    hide Narrow;
  }

  /** Each key is carried by one request, or by none that could be served. */
  ghost predicate Safe(w: World, initial: map<string, int>) {
    forall id :: id in w.threads ==> Sole(w, w.threads[id].key) || Unfit(w, initial, w.threads[id].key)
  }

  /** Clean runs of safe requests end with every order all or nothing, and the books to match. */
  lemma SafeRequestsStayAtomic(worlds: seq<World>, actions: seq<Action>, initial: map<string, int>, i: nat)
    requires IsRun(worlds, actions, initial) && i < |worlds|
    requires Overselling.SaneStart(initial) && Overselling.SaneRequests(worlds[i]) && Safe(worlds[i], initial)
    requires Quiescent(worlds[i]) && AllClean(worlds[i])
    ensures AllAtomic(worlds[i]) && SettledBooks(worlds[i], initial)
  {
    hide IsRun, Quiescent, AllClean, Atomic, OrdersOk, SagasOk, CallsOk, BooksOk, NoOverwrite, BackedOk, StatusesOk,
         Sole, Unfit;
    hide Inventory.Conserved, SettledBooks, Overselling.SaneRequests, Overselling.SaneStart;
    var w := worlds[i];
    RunKeepsInv(worlds, actions, initial, i);
    forall o | o in w.orders
      ensures Atomic(w, o)
    {
      MakersKey(w, o);
      if Sole(w, w.orders[o].key) {
        CleanOrderIsAtomic(worlds, actions, initial, i, o);
      } else {
        NeverTaken(worlds, actions, initial, i, w.orders[o].key);
        UntakenIsAtomic(w, initial, o);
      }
    }
    AtomicBooks(w, initial);
    hide CreatorsOk;
  }

  lemma NotRiskyIsSafe(w: World, requests: Batch, initial: map<string, int>)
    requires Submitted(w, requests) && !Risky(requests, initial)
    ensures Safe(w, initial)
  {
    hide Inventory.CanReserve, Narrow, StockLines;
    forall id | id in w.threads && !Sole(w, w.threads[id].key)
      ensures Unfit(w, initial, w.threads[id].key)
    {
      var key := w.threads[id].key;
      var a, b :| a in w.threads && b in w.threads && w.threads[a].key == key && w.threads[b].key == key && a != b;
      forall c | c in w.threads && w.threads[c].key == key
        ensures !Inventory.CanReserve(initial, StockLines(Narrow(w.threads[c].items)))
      {
        assert !RiskyPair(requests, initial, c, if c == a then b else a);
        assert requests[c].Lines() == StockLines(Narrow(w.threads[c].items));
      }
    }
  }

  /** A set of sane requests has a clean run that ends with an order in pieces if and only if two of
      them share a key and one of those two could be served from the initial stock. */
  lemma AtomicityBreaksExactly(requests: Batch, initial: map<string, int>)
    requires Overselling.SaneStart(initial) && forall id :: id in requests ==> requests[id].Sane()
    ensures (exists worlds, actions :: BadRun(worlds, actions, initial, requests)) <==> Risky(requests, initial)
  {
    hide RiskyPair, ValidRequest, DistinctAndSmall, AllAtomic, Quiescent, AllClean, IsRun;
    if Risky(requests, initial) {
      var a, b :| a in requests && b in requests && RiskyPair(requests, initial, a, b);
      var worlds, actions := SharedKeyLeaks(requests, initial, a, b, true);
    } else if worlds, actions :| BadRun(worlds, actions, initial, requests) {
      var i := |worlds| - 1;
      NotRiskyIsSafe(worlds[i], requests, initial);
      SafeRequestsStayAtomic(worlds, actions, initial, i);
    }
  }
}
