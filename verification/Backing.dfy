/** Exactly which sets of requests let a saga go on without what it was told it has. */
module Backing {
  import opened Items
  import opened History
  import opened Protocol
  import opened Invariants
  import opened Safety
  import opened OneSaga
  import opened Atomicity
  import opened Scenarios
  import opened Duplicates
  import opened Requests
  import Overselling
  import Inventory
  import Payment

  /** The saga was told that its goods are reserved, and has not asked for their release. */
  ghost predicate WithoutGoods(w: World, id: string)
    requires id in w.threads
  {
    var t := w.threads[id];
    t.reserve.Succeeded() && t.release.Unsent? && t.order.id !in w.inventory.reservations
  }

  /** The saga was told that its money is taken, and has not asked for a refund. */
  ghost predicate WithoutMoney(w: World, id: string)
    requires id in w.threads
  {
    var t := w.threads[id];
    t.charge.Succeeded() && t.refund.Unsent? && t.order.id !in w.payments
  }

  ghost predicate LacksGoods(worlds: seq<World>, actions: seq<Action>, initial: map<string, int>, requests: Batch) {
    && RunOf(worlds, actions, initial, requests)
    && var w := worlds[|worlds| - 1];
       exists id :: id in w.threads && WithoutGoods(w, id)
  }

  ghost predicate LacksMoney(worlds: seq<World>, actions: seq<Action>, initial: map<string, int>, requests: Batch) {
    && RunOf(worlds, actions, initial, requests)
    && var w := worlds[|worlds| - 1];
       exists id :: id in w.threads && WithoutMoney(w, id)
  }

  predicate RiskyWithinLimit(requests: Batch, initial: map<string, int>) {
    exists a, b :: a in requests && b in requests && RiskyPair(requests, initial, a, b)
                   && Total(Narrow(requests[a].items)) <= Payment.LIMIT
  }

  // If

  lemma Told(s: Setting, customer: string, items: seq<Item>)
    ensures var t := AfterReserve(Joiner(s, customer, items), Answered(true, false));
            t.reserve.Succeeded() && t.release.Unsent? && t.order.id == ORDER
    ensures var t := ToldTwice(Joiner(s, customer, items));
            t.charge.Succeeded() && t.refund.Unsent? && t.order.id == ORDER
  {
  }

  /** Both kinds of runs leave the requests as they were submitted. */
  lemma StillSubmitted(s: Setting, w: World, requests: Batch, a: string, b: string, ta: Thread, tb: Thread)
    requires a in requests && b in requests && a != b && requests[a].key == requests[b].key
    requires s.key == requests[a].key && s.customer == requests[a].customer && s.items == requests[a].items
    requires w.threads == (map id | id in requests.Keys - {a, b} :: Dropped(requests[id]))[a := ta][b := tb]
    requires ta == Undone(Maker(s).(phase := ReserveLock), true, true) || ta == PaidBack(Taken(Maker(s)))
    requires var j := Joiner(s, requests[b].customer, requests[b].items);
             tb == AfterReserve(j, Answered(true, false)) || tb == ToldTwice(j)
    ensures Submitted(w, requests)
  {
    hide Setting.Info;
  }

  lemma GoodsCanLack(requests: Batch, initial: map<string, int>, a: string, b: string)
    returns (worlds: seq<World>, actions: seq<Action>)
    requires a in requests && b in requests && RiskyPair(requests, initial, a, b) && Inventory.Int32Stock(initial)
    requires forall id :: id in requests ==> ValidRequest(requests[id].customer, requests[id].items)
    ensures LacksGoods(worlds, actions, initial, requests)
  {
    hide IsRun, ValidRequest, Inventory.CanReserve, Submitted, Undone, Maker, Joiner, Dropped, AfterReserve;
    var s := SettingOf(requests[a], initial);
    var customer, items := requests[b].customer, requests[b].items;
    var r, g := OthersDropped(s, requests, requests.Keys - {a, b});
    r, g := StaleReserve(s, r, g, a, b, customer, items);
    worlds, actions := r.worlds, r.actions;
    var w := worlds[|worlds| - 1];
    StillSubmitted(s, w, requests, a, b, g.threads[a], g.threads[b]);
    Told(s, customer, items);
    assert WithoutGoods(w, b);
  }

  lemma MoneyCanLack(requests: Batch, initial: map<string, int>, a: string, b: string)
    returns (worlds: seq<World>, actions: seq<Action>)
    requires a in requests && b in requests && RiskyPair(requests, initial, a, b) && Inventory.Int32Stock(initial)
    requires forall id :: id in requests ==> ValidRequest(requests[id].customer, requests[id].items)
    requires Total(Narrow(requests[a].items)) <= Payment.LIMIT
    ensures LacksMoney(worlds, actions, initial, requests)
  {
    hide IsRun, ValidRequest, Inventory.CanReserve, Submitted, PaidBack, Taken, ToldTwice, Maker, Joiner, Dropped;
    var s := SettingOf(requests[a], initial);
    var customer, items := requests[b].customer, requests[b].items;
    var r, g := OthersDropped(s, requests, requests.Keys - {a, b});
    r, g := StaleCharge(s, r, g, a, b, customer, items);
    worlds, actions := r.worlds, r.actions;
    var w := worlds[|worlds| - 1];
    StillSubmitted(s, w, requests, a, b, g.threads[a], g.threads[b]);
    Told(s, customer, items);
    assert WithoutMoney(w, b);
  }

  // Only if

  /** With a key of its own, a saga has what it was told it has. */
  lemma SoleIsBacked(worlds: seq<World>, actions: seq<Action>, initial: map<string, int>, i: nat, id: string)
    requires IsRun(worlds, actions, initial) && i < |worlds|
    requires id in worlds[i].threads && Sole(worlds[i], worlds[i].threads[id].key)
    ensures !WithoutGoods(worlds[i], id) && !WithoutMoney(worlds[i], id)
  {
    hide IsRun, Sole, PhaseFits;
    OwnAccount(worlds, actions, initial, i, id);
    SucceedersHaveSagas(worlds[i].threads[id]);
  }

  lemma SucceedersHaveSagas(t: Thread)
    requires CallsFit(t)
    ensures t.reserve.Succeeded() || t.charge.Succeeded() ==> t.HasSaga()
  {
  }

  /** Otherwise the thread that made its order could be served from the initial stock. */
  lemma ToldAreFit(worlds: seq<World>, actions: seq<Action>, initial: map<string, int>, i: nat, id: string)
    returns (maker: string)
    requires IsRun(worlds, actions, initial) && i < |worlds| && id in worlds[i].threads
    requires Overselling.SaneStart(initial) && Overselling.SaneRequests(worlds[i])
    requires worlds[i].threads[id].reserve.Succeeded() || worlds[i].threads[id].charge.Succeeded()
    ensures maker in worlds[i].threads && worlds[i].threads[maker].key == worlds[i].threads[id].key
    ensures var items := Narrow(worlds[i].threads[maker].items);
            && Inventory.CanReserve(initial, StockLines(items))
            && (worlds[i].threads[id].charge.Succeeded() ==> Total(items) <= Payment.LIMIT)
  {
    hide IsRun, CreateCacheOk, PhaseFits, NoOverwrite, CachesBacked, StatusesOk, Inventory.Conserved;
    hide Overselling.SaneRequests, Overselling.SaneStart, Inventory.CanReserve, Narrow, StockLines, Total;
    var w := worlds[i];
    var t := w.threads[id];
    var o := t.order.id;
    RunKeepsInv(worlds, actions, initial, i);
    RunTakesWhatFits(worlds, actions, initial, i);
    assert CallsFit(t) && RepliesBacked(t, w.history);
    SucceedersHaveSagas(t);
    assert SagaFits(t, w.orders);
    if t.charge.Succeeded() {
      MoneyAfterGoods(w.history, o);
      TakenIsStored(w.history, w.orders, Money, o);
    }
    maker := w.creators[o];
    assert MadeOrder(w.threads[maker], o, w.orders[o]);
  }

  /** The partner in key of a saga that lacks what it was told it has. */
  lemma LackingIsRisky(worlds: seq<World>, actions: seq<Action>, initial: map<string, int>, requests: Batch, id: string)
    requires RunOf(worlds, actions, initial, requests) && Overselling.SaneStart(initial)
    requires forall q :: q in requests ==> requests[q].Sane()
    requires id in worlds[|worlds| - 1].threads
    ensures WithoutGoods(worlds[|worlds| - 1], id) ==> Risky(requests, initial)
    ensures WithoutMoney(worlds[|worlds| - 1], id) ==> RiskyWithinLimit(requests, initial)
  {
    hide IsRun, Inventory.CanReserve, Narrow, StockLines, Total, DistinctAndSmall;
    var i := |worlds| - 1;
    var w := worlds[i];
    if WithoutGoods(w, id) || WithoutMoney(w, id) {
      var maker := ToldAreFit(worlds, actions, initial, i, id);
      if Sole(w, w.threads[id].key) {
        SoleIsBacked(worlds, actions, initial, i, id);
      }
      var key := w.threads[id].key;
      var a, b :| a in w.threads && b in w.threads && a != b && w.threads[a].key == w.threads[b].key == key != "";
      var other := if maker == a then b else a;
      assert requests[maker].Lines() == StockLines(Narrow(w.threads[maker].items));
      assert RiskyPair(requests, initial, maker, other);
    }
  }

  /** A set of sane requests has a run in which a saga goes on without the goods it was told are reserved
      if and only if two of the requests share a key and one of those two could be served. */
  lemma GoodsBackedExactly(requests: Batch, initial: map<string, int>)
    requires Overselling.SaneStart(initial) && forall q :: q in requests ==> requests[q].Sane()
    ensures (exists worlds, actions :: LacksGoods(worlds, actions, initial, requests)) <==> Risky(requests, initial)
  {
    hide RiskyPair, ValidRequest, DistinctAndSmall, RunOf, WithoutGoods;
    if Risky(requests, initial) {
      var a, b :| a in requests && b in requests && RiskyPair(requests, initial, a, b);
      var worlds, actions := GoodsCanLack(requests, initial, a, b);
    } else if worlds, actions :| LacksGoods(worlds, actions, initial, requests) {
      RunsEnd(worlds, actions, initial, requests);
      var w: World := worlds[|worlds| - 1];
      var id :| id in w.threads && WithoutGoods(w, id);
      LackingIsRisky(worlds, actions, initial, requests, id);
    }
  }

  /** And one in which a saga goes on without the money it was told is taken if and only if the one that
      could be served is within the limit. */
  lemma MoneyBackedExactly(requests: Batch, initial: map<string, int>)
    requires Overselling.SaneStart(initial) && forall q :: q in requests ==> requests[q].Sane()
    ensures (exists worlds, actions :: LacksMoney(worlds, actions, initial, requests))
         <==> RiskyWithinLimit(requests, initial)
  {
    hide RiskyPair, ValidRequest, DistinctAndSmall, RunOf, WithoutMoney;
    if RiskyWithinLimit(requests, initial) {
      var a, b :| a in requests && b in requests && RiskyPair(requests, initial, a, b)
                  && Total(Narrow(requests[a].items)) <= Payment.LIMIT;
      var worlds, actions := MoneyCanLack(requests, initial, a, b);
    } else if worlds, actions :| LacksMoney(worlds, actions, initial, requests) {
      RunsEnd(worlds, actions, initial, requests);
      var w: World := worlds[|worlds| - 1];
      var id :| id in w.threads && WithoutMoney(w, id);
      LackingIsRisky(worlds, actions, initial, requests, id);
    }
  }
}
