/** The squeeze, move by move: a run without faults in which one saga of an order is declined while others
    hold the stock, a second one is served when those over the limit have given theirs back, and the first
    one then cancels an order that has its goods and is paid. */
module Squeezing {
  import opened Items
  import opened History
  import opened Protocol
  import opened Invariants
  import opened Safety
  import opened OneSaga
  import opened Atomicity
  import opened Requests
  import opened Demands
  import opened Faultless
  import opened Continuations
  import Inventory
  import MapSums
  import Overselling
  import Payment
  import Scenarios

  // Single moves of a thread, everything delivered

  /** Nothing but the order book and the moving thread changes, and the book only grows. */
  ghost predicate OnlyOrders(w: World, w': World) {
    && w'.inventory == w.inventory && w'.payments == w.payments && w'.history == w.history
    && w'.caches.(create := w.caches.create) == w.caches
    && forall o :: o in w.orders ==> o in w'.orders && w'.orders[o].key == w.orders[o].key
  }

  lemma CreateMove(w: World, x: string, l: Luck, initial: map<string, int>)
    requires Plainly(w, x, l, initial) && (w.threads[x].phase.CreateProbe? || w.threads[x].phase.CreateLock?)
    ensures var w' := MoveThread(w, x, l);
            && OnlyOrders(w, w') && x in w'.threads && w'.threads == w.threads[x := w'.threads[x]]
            && (|| w'.threads[x].phase.ReserveProbe?
                || (w.threads[x].phase.CreateProbe? && w'.threads[x].phase.CreateLock?))
  {
    hide AllPlain, CreateFor, OrdersOk, SagasOk, CreatorsOk, PhaseFits, BooksOk, NoOverwrite, BackedOk, StatusesOk;
    hide Inventory.Conserved;
    MoveShape(w, x, l);
  }

  lemma {:induction false} ToReserve(r: Scenarios.Run, initial: map<string, int>, x: string) returns (r': Scenarios.Run)
    requires Going(r, initial) && x in Now(r).threads
    requires Now(r).threads[x].phase.CreateProbe? || Now(r).threads[x].phase.CreateLock?
    ensures Going(r', initial) && OnlyOrders(Now(r), Now(r')) && Asked(Now(r')) == Asked(Now(r))
    ensures x in Now(r').threads && Now(r').threads == Now(r).threads[x := Now(r').threads[x]]
    ensures Now(r').threads[x].phase.ReserveProbe?
    decreases if Now(r).threads[x].phase.CreateProbe? then 1 else 0
  {
    hide Init, Follows, Flawless, FlawlessAction, MoveThread, Inv, AllPlain, NothingReturned, Asked;
    WhereItIs(r, initial);
    var l;
    r', l := MoveOn(r, initial, x);
    CreateMove(Now(r), x, l, initial);
    AskedSame(Now(r), x, l);
    if Now(r').threads[x].phase.CreateLock? {
      r' := ToReserve(r', initial, x);
    }
  }

  lemma ReserveMisses(w: World, x: string, l: Luck)
    requires Enabled(w, Move(x, l)) && FlawlessAction(Move(x, l)) && w.threads[x].phase.ReserveProbe?
    requires w.threads[x].key !in w.caches.reserve
    ensures MoveThread(w, x, l) == Put(w, x, w.threads[x].(phase := ReserveLock))
  {
  }

  lemma ReserveDeclines(w: World, x: string, l: Luck)
    requires Enabled(w, Move(x, l)) && FlawlessAction(Move(x, l)) && w.threads[x].phase.ReserveLock?
    requires w.threads[x].key != "" ==> !Inventory.KeyInUse(w.inventory.reservations, w.threads[x].key)
    requires !Inventory.CanReserve(w.inventory.stock, StockLines(w.threads[x].order.items))
    ensures MoveThread(w, x, l) == Put(w, x, AfterReserve(w.threads[x], Answered(false, false)))
  {
    hide Inventory.CanReserve, StockLines;
  }

  lemma ReserveTakes(w: World, x: string, l: Luck)
    requires Enabled(w, Move(x, l)) && FlawlessAction(Move(x, l)) && w.threads[x].phase.ReserveLock?
    requires w.threads[x].key != "" ==> !Inventory.KeyInUse(w.inventory.reservations, w.threads[x].key)
    requires Inventory.CanReserve(w.inventory.stock, StockLines(w.threads[x].order.items))
    ensures MoveThread(w, x, l).threads == w.threads[x := AfterReserve(w.threads[x], Answered(true, true))]
    ensures w.threads[x].order.id in MoveThread(w, x, l).inventory.reservations
    ensures MoveThread(w, x, l).orders == w.orders
  {
    hide Inventory.CanReserve, StockLines, Inventory.Deduct;
  }

  lemma ChargeMisses(w: World, x: string, l: Luck)
    requires Enabled(w, Move(x, l)) && FlawlessAction(Move(x, l)) && w.threads[x].phase.ChargeProbe?
    requires w.threads[x].order.id !in w.caches.charge
    ensures MoveThread(w, x, l) == Put(w, x, w.threads[x].(phase := ChargeLock))
  {
  }

  lemma ChargeDeclines(w: World, x: string, l: Luck)
    requires Enabled(w, Move(x, l)) && FlawlessAction(Move(x, l)) && w.threads[x].phase.ChargeLock?
    requires w.threads[x].order.id !in w.payments && w.threads[x].order.total > Payment.LIMIT
    ensures MoveThread(w, x, l) == Put(w, x, AfterCharge(w.threads[x], Answered(false, false)))
  {
  }

  lemma ReleaseMisses(w: World, x: string, l: Luck)
    requires Enabled(w, Move(x, l)) && FlawlessAction(Move(x, l)) && w.threads[x].phase.ReleaseProbe?
    requires w.threads[x].order.id !in w.caches.release
    ensures MoveThread(w, x, l) == Put(w, x, w.threads[x].(phase := ReleaseLock))
  {
  }

  lemma ReleaseReturns(w: World, x: string, l: Luck)
    requires Enabled(w, Move(x, l)) && FlawlessAction(Move(x, l)) && w.threads[x].phase.ReleaseLock?
    requires w.threads[x].order.id in w.inventory.reservations
    ensures MoveThread(w, x, l).threads == w.threads[x := AfterRelease(w.threads[x], Answered(true, true))]
    ensures MoveThread(w, x, l).history == Then(w.history, Released(w.threads[x].order.id))
    ensures MoveThread(w, x, l).orders == w.orders
  {
    hide Inventory.Restore;
  }

  lemma CancelWrites(w: World, x: string, l: Luck)
    requires Enabled(w, Move(x, l)) && FlawlessAction(Move(x, l)) && w.threads[x].phase.Cancel?
    requires w.threads[x].order.id in w.orders
    ensures var o, w' := w.threads[x].order.id, MoveThread(w, x, l);
            && w'.threads == w.threads[x := AfterCancel(w.threads[x], Answered(true, true))]
            && o in w'.orders && w'.orders[o].status.CANCELLED?
            && w'.inventory == w.inventory && w'.payments == w.payments
  {
  }

  // Sagas with a key of their own

  /** The accounts of a saga that alone has its key. */
  lemma Own(r: Scenarios.Run, initial: map<string, int>, x: string)
    requires Going(r, initial) && x in Now(r).threads && Now(r).threads[x].HasSaga()
    requires Sole(Now(r), Now(r).threads[x].key)
    ensures var w := Now(r);
            var t := w.threads[x];
            && CallsFit(t) && Honest(t) && Accounts(t, t.order.id, w) && SagaFits(t, w.orders)
            && t.order.id in w.creators && w.creators[t.order.id] == x
            && (t.key != "" && Inventory.KeyInUse(w.inventory.reservations, t.key) ==>
                  t.order.id in w.inventory.reservations)
  {
    hide Init, Follows, Flawless, CallsFit, Honest, Accounts, Creators, StoreOk, Books, BackedOk, StatusesOk, Sole;
    hide Inventory.Conserved;
    WhereItIs(r, initial);
    OwnAccount(r.worlds, r.actions, initial, |r.actions|, x);
    SoleSaga(Now(r), x);
    assert SagaFits(Now(r).threads[x], Now(r).orders);
    OwnKeyOnly(Now(r), Now(r).threads[x]);
  }

  /** What such a saga's phase tells of its order. */
  lemma OwnPhases(t: Thread, w: World)
    requires CallsFit(t) && Honest(t) && Accounts(t, t.order.id, w) && w.orders[t.order.id].key == t.key
    ensures t.phase.ReserveProbe? || t.phase.ReserveLock? ==>
              t.order.id !in w.inventory.reservations && t.key !in w.caches.reserve
    ensures t.phase.ChargeProbe? || t.phase.ChargeLock? ==>
              && t.order.id in w.inventory.reservations && t.order.id !in w.payments && t.order.id !in w.caches.charge
    ensures (t.phase.ReleaseProbe? || t.phase.ReleaseLock?) && t.refund.Unsent? ==>
              t.order.id in w.inventory.reservations && t.order.id !in w.caches.release
    ensures t.release.TookEffect() ==> t.order.id !in w.inventory.reservations
  {
  }

  /** A saga with a key of its own takes goods that the stock has. */
  lemma TakeOn(r: Scenarios.Run, initial: map<string, int>, x: string) returns (r': Scenarios.Run)
    requires Going(r, initial) && x in Now(r).threads && Sole(Now(r), Now(r).threads[x].key)
    requires Now(r).threads[x].phase.ReserveProbe?
    requires Inventory.CanReserve(Now(r).inventory.stock, StockLines(Now(r).threads[x].order.items))
    ensures Going(r', initial) && Asked(Now(r')) == Asked(Now(r))
    ensures x in Now(r').threads && Now(r').threads == Now(r).threads[x := Now(r').threads[x]]
    ensures Now(r').threads[x].phase.ChargeProbe?
  {
    hide Init, Follows, Flawless, FlawlessAction, MoveThread, Inv, Asked, CallsFit, Honest, Accounts, Sole, StockLines;
    hide Inventory.CanReserve;
    var l;
    Own(r, initial, x);
    OwnPhases(Now(r).threads[x], Now(r));
    r', l := MoveOn(r, initial, x);
    ReserveMisses(Now(r), x, l);
    AskedSame(Now(r), x, l);
    var w := Now(r');
    r', l := MoveOn(r', initial, x);
    ReserveTakes(w, x, l);
    AskedSame(w, x, l);
  }

  // Serving a set of requests

  function Part(requests: Batch, ids: set<string>): Batch {
    map id | id in ids && id in requests :: requests[id]
  }

  /** Everyone of these has a key to itself, or none. */
  ghost predicate OwnKeys(requests: Batch, hs: set<string>, ids: set<string>)
    requires hs <= ids <= requests.Keys
  {
    forall h, x :: h in hs && x in ids && requests[h].key == requests[x].key != "" ==> h == x
  }

  lemma OwnKeyIsSole(w: World, requests: Batch, hs: set<string>, ids: set<string>, h: string)
    requires hs <= ids <= requests.Keys && Asked(w) == Part(requests, ids) && OwnKeys(requests, hs, ids) && h in hs
    ensures h in w.threads && w.threads[h].key == requests[h].key && w.threads[h].items == requests[h].items
    ensures Sole(w, requests[h].key)
  {
    forall x | x in w.threads
      ensures x in ids && w.threads[x].key == requests[x].key && w.threads[x].items == requests[x].items
    {
      assert x in Asked(w) && Asked(w)[x] == requests[x];
    }
    assert h in Asked(w);
  }

  /** What a saga of its own reserves and charges is what was asked for. */
  lemma OwnItems(r: Scenarios.Run, initial: map<string, int>, x: string)
    requires Going(r, initial) && x in Now(r).threads && Now(r).threads[x].HasSaga()
    requires Sole(Now(r), Now(r).threads[x].key)
    ensures var t := Now(r).threads[x];
            t.order.items == Narrow(t.items) && t.order.total == Total(Narrow(t.items))
  {
    hide Init, Follows, Flawless, CallsFit, Honest, Accounts, Books, BackedOk, StatusesOk, Sole, Inventory.Conserved;
    hide Narrow, Total;
    WhereItIs(r, initial);
    Own(r, initial, x);
    var o := Now(r).threads[x].order.id;
    assert MadeOrder(Now(r).threads[x], o, Now(r).orders[o]);
  }

  lemma StockNow(r: Scenarios.Run, initial: map<string, int>, requests: Batch, ids: set<string>, hs: set<string>)
    requires Going(r, initial) && Overselling.SaneStart(initial) && AllSane(requests)
    requires hs <= ids <= requests.Keys && Asked(Now(r)) == Part(requests, ids) && Holders(Now(r)) == hs
    ensures Now(r).inventory.stock == Left(requests, hs, initial)
  {
    hide Init, Follows, Flawless, FlawlessAction, OrdersOk, SagasOk, CreatorsOk, CallsOk, BooksOk, NoOverwrite;
    hide BackedOk, StatusesOk;
    hide Inventory.Conserved, Inventory.Held, Inventory.Level, Holders, Demand, Request.Sane, AllPlain, NothingReturned;
    hide Overselling.SaneStart;
    var w := Now(r);
    WhereItIs(r, initial);
    assert AllSane(Asked(w));
    AskedIsSane(w);
    forall p ensures Inventory.Level(w.inventory.stock, p)
                  == Inventory.Level(initial, p) - Inventory.Held(w.inventory.reservations, p)
    {
      Overselling.NeverOversold(r.worlds, r.actions, initial, |r.actions|, p);
    }
    StockIsLeft(w, initial);
    forall p | p in initial ensures Demand(Asked(w), hs, p) == Demand(requests, hs, p) {
      SameDemand(requests, Asked(w), hs, p);
    }
  }

  /** Who fits in together with others fits in after them. */
  lemma FitsBeside(requests: Batch, hs: set<string>, h: string, initial: map<string, int>)
    requires hs + {h} <= requests.Keys && h !in hs && AllSane(requests)
    requires Inventory.CanReserve(initial, requests[h].Lines())
    requires forall p :: p in initial ==> Demand(requests, hs + {h}, p) <= initial[p]
    ensures Inventory.CanReserve(Left(requests, hs, initial), requests[h].Lines())
  {
    hide Narrow, StockLines, Quantity, DistinctAndSmall, ValidRequest;
    var lines := requests[h].Lines();
    assert requests[h].Sane();
    Overselling.SaneItemsSaneLines(requests[h].items);
    assert lines == StockLines(requests[h].items);
    forall i | 0 <= i < |lines|
      ensures lines[i].product in initial
      ensures lines[i].quantity <= initial[lines[i].product] - Demand(requests, hs, lines[i].product)
    {
      var p := lines[i].product;
      Overselling.LineCounts(lines, i);
      DemandOfOneMore(requests, hs, h, p);
    }
  }

  lemma DemandOfOneMore(requests: Batch, hs: set<string>, h: string, p: string)
    requires hs + {h} <= requests.Keys && h !in hs
    ensures Demand(requests, hs + {h}, p) == Demand(requests, hs, p) + Quantity(requests[h].Lines(), p)
  {
    hide Request.Lines, Quantity;
    var some := map x | x in hs :: Quantity(requests[x].Lines(), p);
    var all := map x | x in hs + {h} :: Quantity(requests[x].Lines(), p);
    assert all == some[h := Quantity(requests[h].Lines(), p)];
    MapSums.SumInsert(some, h, Quantity(requests[h].Lines(), p));
  }

  /** These have made their orders and taken their goods, and wait to be charged. */
  ghost predicate AllWait(w: World, hs: set<string>) {
    forall h :: h in hs ==> h in w.threads && w.threads[h].phase.ChargeProbe?
  }

  /** Those who wait hold their goods; those who have yet to reserve do not. */
  lemma WaitersHold(r: Scenarios.Run, initial: map<string, int>, x: string)
    requires Going(r, initial) && x in Now(r).threads && Sole(Now(r), Now(r).threads[x].key)
    ensures Now(r).threads[x].phase.ChargeProbe? ==> IsHolder(Now(r), x)
    ensures Now(r).threads[x].phase.ReserveProbe? ==> !IsHolder(Now(r), x)
    ensures Now(r).threads[x].HasSaga() && Now(r).threads[x].release.TookEffect() ==> !IsHolder(Now(r), x)
  {
    hide Init, Follows, Flawless, CallsFit, Honest, Accounts, Sole;
    if Now(r).threads[x].HasSaga() {
      Own(r, initial, x);
      OwnPhases(Now(r).threads[x], Now(r));
    }
  }

  ghost predicate Served(r: Scenarios.Run, initial: map<string, int>, requests: Batch, hs: set<string>) {
    Going(r, initial) && Asked(Now(r)) == Part(requests, hs) && AllWait(Now(r), hs)
  }

  lemma ServeOne(r: Scenarios.Run, initial: map<string, int>, requests: Batch, hs: set<string>, h: string)
    returns (r': Scenarios.Run)
    requires Served(r, initial, requests, hs) && Overselling.SaneStart(initial) && AllSane(requests)
    requires hs + {h} <= requests.Keys && h !in hs && OwnKeys(requests, hs + {h}, hs + {h})
    requires Inventory.CanReserve(initial, requests[h].Lines())
    requires forall p :: p in initial ==> Demand(requests, hs + {h}, p) <= initial[p]
    ensures Served(r', initial, requests, hs + {h})
  {
    hide Init, Follows, Flawless, Sole, OwnKeys, Demand, Inventory.CanReserve, Left, IsHolder, AllSane, Narrow;
    hide StockLines;
    hide Overselling.SaneStart, ValidRequest;
    assert ValidRequest(requests[h].customer, requests[h].items) by { SaneIsValid(requests, h); }
    assert h !in Asked(Now(r));
    r' := SubmitOn(r, initial, h, requests[h]);
    assert Asked(Now(r')) == Part(requests, hs + {h}) by { OneMoreAsked(Now(r), requests, hs, h); }
    r' := ToReserve(r', initial, h);
    var w := Now(r');
    forall x | x in w.threads
      ensures x in hs + {h} && Sole(w, w.threads[x].key) && (IsHolder(w, x) <==> x in hs)
    {
      assert x in Asked(w);
      OwnKeyIsSole(w, requests, hs + {h}, hs + {h}, x);
      WaitersHold(r', initial, x);
    }
    assert Holders(w) == hs by { HoldersAre(w, hs); }
    StockNow(r', initial, requests, hs + {h}, hs);
    FitsBeside(requests, hs, h, initial);
    OwnItems(r', initial, h);
    OwnKeyIsSole(w, requests, hs + {h}, hs + {h}, h);
    r' := TakeOn(r', initial, h);
  }

  lemma OneMoreAsked(w: World, requests: Batch, ids: set<string>, x: string)
    requires x in requests && Asked(w) == Part(requests, ids)
    ensures var t := NewThread(requests[x].key, requests[x].customer, requests[x].items);
            Asked(Put(w, x, t)) == Part(requests, ids + {x})
  {
    var w' := Put(w, x, NewThread(requests[x].key, requests[x].customer, requests[x].items));
    assert Asked(w') == Asked(w)[x := requests[x]];
    assert Part(requests, ids + {x}) == Part(requests, ids)[x := requests[x]];
  }

  lemma HoldersAre(w: World, hs: set<string>)
    requires hs <= w.threads.Keys && forall x :: x in w.threads ==> (IsHolder(w, x) <==> x in hs)
    ensures Holders(w) == hs
  {
    hide IsHolder;
  }

  lemma SaneIsValid(requests: Batch, h: string)
    requires AllSane(requests) && h in requests
    ensures ValidRequest(requests[h].customer, requests[h].items)
  {
  }

  lemma {:induction false} ServeAll(initial: map<string, int>, requests: Batch, hs: set<string>)
    returns (r: Scenarios.Run)
    requires Overselling.SaneStart(initial) && AllSane(requests) && hs <= requests.Keys && OwnKeys(requests, hs, hs)
    requires forall h :: h in hs ==> Inventory.CanReserve(initial, requests[h].Lines())
    requires forall p :: p in initial ==> Demand(requests, hs, p) <= initial[p]
    ensures Served(r, initial, requests, hs)
    decreases |hs|
  {
    hide Going, Demand, Inventory.CanReserve, AllSane, Request.Lines;
    if hs == {} {
      var g;
      r, g := Scenarios.Begin(Scenarios.Setting("", "", [], initial));
      assert Going(r, initial) by { BeginningIsGoing(r, g, initial); }
      assert Asked(Now(r)) == Part(requests, hs);
    } else {
      var h :| h in hs;
      var rest := hs - {h};
      assert rest + {h} == hs;
      forall p | p in initial ensures Demand(requests, rest, p) <= initial[p] {
        DemandOfPart(requests, hs, rest, p);
      }
      r := ServeAll(initial, requests, rest);
      r := ServeOne(r, initial, requests, rest, h);
    }
  }

  lemma BeginningIsGoing(r: Scenarios.Run, g: Scenarios.Stage, initial: map<string, int>)
    requires Scenarios.Reaches(Scenarios.Setting("", "", [], initial), r, g) && r.actions == []
    ensures Going(r, initial)
  {
  }

  // Two requests with one key

  /** No goods have been taken under the key. */
  ghost predicate Untaken(w: World, key: string) {
    forall o :: o in w.orders && w.orders[o].key == key ==> !EverTaken(w.history, Goods, o)
  }

  lemma FreeKey(w: World, initial: map<string, int>, key: string)
    requires Inv(w, initial) && Untaken(w, key) && key != ""
    ensures key !in w.caches.reserve && !Inventory.KeyInUse(w.inventory.reservations, key)
    ensures forall o :: o in w.orders && w.orders[o].key == key ==> o !in w.inventory.reservations
  {
    hide StoreOk, CreateCacheOk, SagasOk, CreatorsOk, CallsOk, NoOverwrite, StatusesOk, Inventory.Conserved, EventsOk;
    forall o | o in w.inventory.reservations
      ensures w.orders[o].key != key
    {
      HoldsWasTaken(w.history, Goods, o);
    }
  }

  lemma UntakenStays(w: World, w': World, key: string, initial: map<string, int>)
    requires Inv(w, initial) && Untaken(w, key) && OnlyOrders(w, w')
    ensures Untaken(w', key)
  {
    hide OrdersOk, SagasOk, CreatorsOk, CallsOk, NoOverwrite, BackedOk, StatusesOk, Inventory.Conserved;
    forall o | o in w'.orders && w'.orders[o].key == key && EverTaken(w'.history, Goods, o)
      ensures o in w.orders && w.orders[o].key == key
    {
      TakenIsStored(w.history, w.orders, Goods, o);
    }
  }

  /** Before anyone with the key has asked for an order there is none. */
  lemma NoOrderYet(w: World, initial: map<string, int>, key: string)
    requires Inv(w, initial)
    requires forall x :: x in w.threads && w.threads[x].key == key ==> w.threads[x].phase.CreateProbe?
    ensures Untaken(w, key)
  {
    hide OrdersOk, SagasOk, CallsOk, BooksOk, NoOverwrite, BackedOk, StatusesOk, Inventory.Conserved, Narrow;
    forall o | o in w.orders
      ensures w.orders[o].key != key
    {
      MakersKey(w, o);
      assert MadeOrder(w.threads[w.creators[o]], o, w.orders[o]);
    }
  }

  /** The only one with the key who has asked made the order. */
  lemma FirstMakes(w: World, initial: map<string, int>, a: string)
    requires Inv(w, initial) && a in w.threads && w.threads[a].HasSaga()
    requires forall x :: x in w.threads && w.threads[x].key == w.threads[a].key && x != a ==>
               w.threads[x].phase.CreateProbe?
    ensures w.threads[a].order.items == Narrow(w.threads[a].items) && w.threads[a].order.id in w.orders
  {
    hide OrdersOk, CallsOk, BooksOk, NoOverwrite, BackedOk, StatusesOk, Inventory.Conserved, Narrow;
    var o := w.threads[a].order.id;
    TotalsAgree(w, a);
    MakersKey(w, o);
    assert MadeOrder(w.threads[w.creators[o]], o, w.orders[o]);
  }

  lemma SameKeySameOrder(w: World, initial: map<string, int>, a: string, b: string)
    requires Inv(w, initial) && a in w.threads && b in w.threads && w.threads[a].HasSaga() && w.threads[b].HasSaga()
    requires w.threads[a].key == w.threads[b].key != ""
    ensures w.threads[b].order.id == w.threads[a].order.id && w.threads[b].order.items == w.threads[a].order.items
  {
    hide CreateCacheOk, CreatorsOk, CallsOk, BooksOk, NoOverwrite, BackedOk, StatusesOk, Inventory.Conserved;
    TotalsAgree(w, a);
    TotalsAgree(w, b);
  }

  /** Both sagas work on the order that a made, and no goods have been taken for it. */
  ghost predicate Together(r: Scenarios.Run, initial: map<string, int>, requests: Batch, hs: set<string>, a: string,
                           b: string)
    requires a in requests && b in requests
  {
    && Going(r, initial) && Asked(Now(r)) == Part(requests, hs + {a, b}) && Untaken(Now(r), requests[a].key)
    && a in Now(r).threads && b in Now(r).threads
    && Now(r).threads[a].HasSaga() && Now(r).threads[b].HasSaga()
    && Now(r).threads[a].order.items == Now(r).threads[b].order.items == Narrow(requests[a].items)
    && Now(r).threads[a].order.id == Now(r).threads[b].order.id
  }

  lemma KeysAsked(w: World, requests: Batch, ids: set<string>)
    requires Asked(w) == Part(requests, ids) && ids <= requests.Keys
    ensures w.threads.Keys == ids
    ensures forall x :: x in ids ==> w.threads[x].key == requests[x].key && w.threads[x].items == requests[x].items
  {
    forall x | x in w.threads ensures x in ids && Asked(w)[x] == requests[x] { assert x in Asked(w); }
    forall x | x in ids ensures x in w.threads { assert x in Asked(w); }
  }

  lemma TwoArrive(r: Scenarios.Run, initial: map<string, int>, requests: Batch, hs: set<string>, a: string, b: string)
    returns (r': Scenarios.Run)
    requires Served(r, initial, requests, hs) && AllSane(requests) && hs <= requests.Keys
    requires a in requests && b in requests && a != b && a !in hs && b !in hs
    requires requests[a].key == requests[b].key != ""
    requires forall h :: h in hs ==> requests[h].key != requests[a].key
    ensures Together(r', initial, requests, hs, a, b) && AllWait(Now(r'), hs)
    ensures Now(r').threads[a].phase.ReserveProbe? && Now(r').threads[b].phase.ReserveProbe?
  {
    hide Init, Follows, Flawless, FlawlessAction, Inv, AllPlain, NothingReturned, AllSane, Narrow, ValidRequest;
    hide Untaken, Asked, Part;
    var key := requests[a].key;
    SaneIsValid(requests, a);
    SaneIsValid(requests, b);
    KeysAsked(Now(r), requests, hs);
    OneMoreAsked(Now(r), requests, hs, a);
    r' := SubmitOn(r, initial, a, requests[a]);
    OneMoreAsked(Now(r'), requests, hs + {a}, b);
    r' := SubmitOn(r', initial, b, requests[b]);
    assert hs + {a} + {b} == hs + {a, b};
    var w := Now(r');
    KeysAsked(w, requests, hs + {a, b});
    WhereItIs(r', initial);
    NoOrderYet(w, initial, key);
    r' := ToReserve(r', initial, a);
    UntakenStays(w, Now(r'), key, initial);
    w := Now(r');
    WhereItIs(r', initial);
    KeysAsked(w, requests, hs + {a, b});
    FirstMakes(w, initial, a);
    r' := ToReserve(r', initial, b);
    UntakenStays(w, Now(r'), key, initial);
    WhereItIs(r', initial);
    KeysAsked(Now(r'), requests, hs + {a, b});
    SameKeySameOrder(Now(r'), initial, a, b);
  }

  /** The pinch: while the others hold the stock, a is declined and b waits before its Reserve. */
  ghost predicate Pinched(r: Scenarios.Run, initial: map<string, int>, requests: Batch, hs: set<string>, a: string,
                          b: string)
    requires a in requests && b in requests
  {
    && Together(r, initial, requests, hs, a, b)
    && Now(r).threads[a].phase.Cancel? && Now(r).threads[b].phase.ReserveLock?
  }

  lemma PutKeepsTogether(r: Scenarios.Run, r': Scenarios.Run, initial: map<string, int>, requests: Batch,
                         hs: set<string>, a: string, b: string, x: string, t': Thread)
    requires a in requests && b in requests && Together(r, initial, requests, hs, a, b) && Going(r', initial)
    requires x in Now(r).threads && Now(r') == Put(Now(r), x, t') && Asked(Now(r')) == Asked(Now(r))
    requires t'.HasSaga() && t'.order == Now(r).threads[x].order
    ensures Together(r', initial, requests, hs, a, b)
  {
    hide Going, Asked, Part;
  }

  /** Who holds goods, when the others wait and a and b have none. */
  lemma WaitersAreHolders(r: Scenarios.Run, initial: map<string, int>, requests: Batch, hs: set<string>,
                          a: string, b: string, given: set<string>)
    requires a in requests && b in requests && a !in hs && b !in hs && requests[a].key == requests[b].key != ""
    requires Together(r, initial, requests, hs, a, b) && hs + {a, b} <= requests.Keys
    requires OwnKeys(requests, hs, hs + {a, b}) && given <= hs
    requires AllWait(Now(r), hs - given) && AllGiven(Now(r), given)
    ensures Holders(Now(r)) == hs - given
  {
    hide Init, Follows, Flawless, Sole, OwnKeys, IsHolder, Inv, AllPlain, NothingReturned, Asked, Part;
    var w := Now(r);
    KeysAsked(w, requests, hs + {a, b});
    WhereItIs(r, initial);
    FreeKey(w, initial, requests[a].key);
    forall x | x in w.threads
      ensures IsHolder(w, x) <==> x in hs - given
    {
      if x in hs {
        OwnKeyIsSole(w, requests, hs, hs + {a, b}, x);
        WaitersHold(r, initial, x);
      } else {
        NotHolding(w, initial, x);
      }
    }
    HoldersAre(w, hs - given);
  }

  lemma NotHolding(w: World, initial: map<string, int>, x: string)
    requires Inv(w, initial) && x in w.threads && w.threads[x].HasSaga() && w.threads[x].key != ""
    requires Untaken(w, w.threads[x].key)
    ensures !IsHolder(w, x)
  {
    hide OrdersOk, CreatorsOk, CallsOk, BooksOk, NoOverwrite, BackedOk, StatusesOk, Inventory.Conserved, Untaken;
    FreeKey(w, initial, w.threads[x].key);
    TotalsAgree(w, x);
  }

  /** These have been declined their charges and have given their goods back. */
  ghost predicate AllGiven(w: World, given: set<string>) {
    forall h :: h in given ==> h in w.threads && w.threads[h].HasSaga() && w.threads[h].release.TookEffect()
  }

  lemma MissOn(r: Scenarios.Run, initial: map<string, int>, requests: Batch, hs: set<string>, a: string, b: string,
               x: string)
    returns (r': Scenarios.Run)
    requires a in requests && b in requests && requests[a].key == requests[b].key != ""
    requires Together(r, initial, requests, hs, a, b) && hs + {a, b} <= requests.Keys
    requires (x == a || x == b) && Now(r).threads[x].phase.ReserveProbe?
    ensures Together(r', initial, requests, hs, a, b)
    ensures Now(r').threads == Now(r).threads[x := Now(r).threads[x].(phase := ReserveLock)]
  {
    hide Init, Follows, Flawless, FlawlessAction, MoveThread, Inv, AllPlain, NothingReturned, Asked, Part, Untaken;
    KeysAsked(Now(r), requests, hs + {a, b});
    WhereItIs(r, initial);
    FreeKey(Now(r), initial, requests[a].key);
    var l;
    r', l := MoveOn(r, initial, x);
    ReserveMisses(Now(r), x, l);
    AskedSame(Now(r), x, l);
    PutKeepsTogether(r, r', initial, requests, hs, a, b, x, Now(r).threads[x].(phase := ReserveLock));
  }

  lemma DeclineOn(r: Scenarios.Run, initial: map<string, int>, requests: Batch, hs: set<string>, a: string, b: string)
    returns (r': Scenarios.Run)
    requires a in requests && b in requests && a != b && a !in hs && b !in hs
    requires requests[a].key == requests[b].key != ""
    requires Together(r, initial, requests, hs, a, b) && hs + {a, b} <= requests.Keys && AllSane(requests)
    requires Overselling.SaneStart(initial) && OwnKeys(requests, hs, hs + {a, b}) && AllWait(Now(r), hs)
    requires Now(r).threads[a].phase.ReserveLock?
    requires !Inventory.CanReserve(Left(requests, hs, initial), requests[a].Lines())
    ensures Together(r', initial, requests, hs, a, b)
    ensures Now(r').threads == Now(r).threads[a := AfterReserve(Now(r).threads[a], Answered(false, false))]
  {
    hide Init, Follows, Flawless, FlawlessAction, MoveThread, Inv, AllPlain, NothingReturned, Asked, Part, Untaken;
    hide OwnKeys, AllSane;
    hide Inventory.CanReserve, Left, Narrow, StockLines, Overselling.SaneStart;
    KeysAsked(Now(r), requests, hs + {a, b});
    WhereItIs(r, initial);
    FreeKey(Now(r), initial, requests[a].key);
    assert hs - {} == hs;
    WaitersAreHolders(r, initial, requests, hs, a, b, {});
    StockNow(r, initial, requests, hs + {a, b}, hs);
    var l;
    r', l := MoveOn(r, initial, a);
    ReserveDeclines(Now(r), a, l);
    AskedSame(Now(r), a, l);
    PutKeepsTogether(r, r', initial, requests, hs, a, b, a, AfterReserve(Now(r).threads[a], Answered(false, false)));
  }

  lemma Pinch(r: Scenarios.Run, initial: map<string, int>, requests: Batch, hs: set<string>, a: string, b: string)
    returns (r': Scenarios.Run)
    requires a in requests && b in requests && a != b && a !in hs && b !in hs
    requires requests[a].key == requests[b].key != ""
    requires Together(r, initial, requests, hs, a, b) && hs + {a, b} <= requests.Keys && AllSane(requests)
    requires Overselling.SaneStart(initial) && OwnKeys(requests, hs, hs + {a, b}) && AllWait(Now(r), hs)
    requires Now(r).threads[a].phase.ReserveProbe? && Now(r).threads[b].phase.ReserveProbe?
    requires !Inventory.CanReserve(Left(requests, hs, initial), requests[a].Lines())
    ensures Pinched(r', initial, requests, hs, a, b) && AllWait(Now(r'), hs)
  {
    hide Going, Asked, Part, Untaken, OwnKeys, AllSane, Inventory.CanReserve, Left, Request.Lines;
    hide Overselling.SaneStart;
    r' := MissOn(r, initial, requests, hs, a, b, a);
    r' := MissOn(r', initial, requests, hs, a, b, b);
    r' := DeclineOn(r', initial, requests, hs, a, b);
  }

  // Those over the limit give theirs back

  lemma ReturnOn(r: Scenarios.Run, initial: map<string, int>, h: string, key: string) returns (r': Scenarios.Run)
    requires Going(r, initial) && h in Now(r).threads && Sole(Now(r), Now(r).threads[h].key)
    requires Now(r).threads[h].phase.ReleaseProbe? && Now(r).threads[h].refund.Unsent? && Untaken(Now(r), key)
    ensures Going(r', initial) && Asked(Now(r')) == Asked(Now(r)) && Untaken(Now(r'), key)
    ensures h in Now(r').threads && Now(r').threads == Now(r).threads[h := Now(r').threads[h]]
    ensures Now(r').threads[h].HasSaga() && Now(r').threads[h].release.TookEffect()
  {
    hide Init, Follows, Flawless, FlawlessAction, MoveThread, Inv, Asked, CallsFit, Honest, Accounts, Sole;
    var l;
    Own(r, initial, h);
    OwnPhases(Now(r).threads[h], Now(r));
    r', l := MoveOn(r, initial, h);
    ReleaseMisses(Now(r), h, l);
    AskedSame(Now(r), h, l);
    var w := Now(r');
    r', l := MoveOn(r', initial, h);
    ReleaseReturns(w, h, l);
    AskedSame(w, h, l);
  }

  lemma DeclineCharge(r: Scenarios.Run, initial: map<string, int>, h: string, key: string) returns (r': Scenarios.Run)
    requires Going(r, initial) && h in Now(r).threads && Sole(Now(r), Now(r).threads[h].key)
    requires Now(r).threads[h].phase.ChargeProbe? && Now(r).threads[h].order.total > Payment.LIMIT
    requires Untaken(Now(r), key)
    ensures Going(r', initial) && Asked(Now(r')) == Asked(Now(r)) && Untaken(Now(r'), key)
    ensures var t := Now(r).threads[h].(phase := ChargeLock);
            Now(r').threads == Now(r).threads[h := AfterCharge(t, Answered(false, false))]
    ensures Now(r).threads[h].refund.Unsent?
  {
    hide Init, Follows, Flawless, FlawlessAction, MoveThread, Inv, Asked, PhaseFits, Honest, Accounts, Sole;
    var l;
    Own(r, initial, h);
    OwnPhases(Now(r).threads[h], Now(r));
    assert Now(r).threads[h].refund.Unsent? by { ChargeComesFirst(Now(r).threads[h]); }
    r', l := MoveOn(r, initial, h);
    ChargeMisses(Now(r), h, l);
    AskedSame(Now(r), h, l);
    var w := Now(r');
    r', l := MoveOn(r', initial, h);
    ChargeDeclines(w, h, l);
    AskedSame(w, h, l);
  }

  lemma ChargeComesFirst(t: Thread)
    requires CallsFit(t) && t.phase.ChargeProbe?
    ensures t.refund.Unsent?
  {
  }

  lemma GiveBackOne(r: Scenarios.Run, initial: map<string, int>, h: string, key: string) returns (r': Scenarios.Run)
    requires Going(r, initial) && h in Now(r).threads && Sole(Now(r), Now(r).threads[h].key)
    requires Now(r).threads[h].phase.ChargeProbe? && Total(Narrow(Now(r).threads[h].items)) > Payment.LIMIT
    requires Untaken(Now(r), key)
    ensures Going(r', initial) && Asked(Now(r')) == Asked(Now(r)) && Untaken(Now(r'), key)
    ensures h in Now(r').threads && Now(r').threads == Now(r).threads[h := Now(r').threads[h]]
    ensures Now(r').threads[h].HasSaga() && Now(r').threads[h].release.TookEffect()
  {
    hide Going, Asked, Untaken, Narrow, Total;
    OwnItems(r, initial, h);
    r' := DeclineCharge(r, initial, h, key);
    r' := ReturnOn(r', initial, h, key);
  }

  lemma OneGivesBack(r: Scenarios.Run, initial: map<string, int>, requests: Batch, hs: set<string>,
                     a: string, b: string, h: string)
    returns (r': Scenarios.Run)
    requires a in requests && b in requests && a !in hs && b !in hs && requests[a].key == requests[b].key != ""
    requires Pinched(r, initial, requests, hs, a, b) && hs + {a, b} <= requests.Keys
    requires OwnKeys(requests, hs, hs + {a, b}) && h in hs && !Affordable(requests[h])
    requires h in Now(r).threads && Now(r).threads[h].phase.ChargeProbe?
    ensures Pinched(r', initial, requests, hs, a, b)
    ensures h in Now(r').threads && Now(r').threads == Now(r).threads[h := Now(r').threads[h]]
    ensures Now(r').threads[h].HasSaga() && Now(r').threads[h].release.TookEffect()
  {
    hide Init, Follows, Flawless, Asked, Part, Untaken, OwnKeys, Sole, Total, Narrow;
    OwnKeyIsSole(Now(r), requests, hs, hs + {a, b}, h);
    r' := GiveBackOne(r, initial, h, requests[a].key);
  }

  lemma {:induction false} GiveBack(r: Scenarios.Run, initial: map<string, int>, requests: Batch, hs: set<string>,
                                    a: string, b: string, given: set<string>)
    returns (r': Scenarios.Run)
    requires a in requests && b in requests && a !in hs && b !in hs && requests[a].key == requests[b].key != ""
    requires Pinched(r, initial, requests, hs, a, b) && hs + {a, b} <= requests.Keys
    requires OwnKeys(requests, hs, hs + {a, b}) && given <= hs - Affordables(requests, hs)
    requires AllWait(Now(r), hs - given) && AllGiven(Now(r), given)
    ensures Pinched(r', initial, requests, hs, a, b)
    ensures AllWait(Now(r'), Affordables(requests, hs)) && AllGiven(Now(r'), hs - Affordables(requests, hs))
    decreases hs - given
  {
    hide Pinched, OwnKeys, Affordable;
    var todo := hs - Affordables(requests, hs) - given;
    if todo == {} {
      r' := r;
      assert given == hs - Affordables(requests, hs) && hs - given == Affordables(requests, hs);
    } else {
      var h :| h in todo;
      r' := OneGivesBack(r, initial, requests, hs, a, b, h);
      r' := GiveBack(r', initial, requests, hs, a, b, given + {h});
    }
  }

  // The second saga is served, the first one cancels

  /** What those over the limit have given back is enough. */
  lemma EnoughAgain(r: Scenarios.Run, initial: map<string, int>, requests: Batch, hs: set<string>, a: string, b: string)
    requires a in requests && b in requests && a !in hs && b !in hs && requests[a].key == requests[b].key != ""
    requires Pinched(r, initial, requests, hs, a, b) && hs + {a, b} <= requests.Keys && AllSane(requests)
    requires Overselling.SaneStart(initial) && OwnKeys(requests, hs, hs + {a, b})
    requires AllWait(Now(r), Affordables(requests, hs)) && AllGiven(Now(r), hs - Affordables(requests, hs))
    requires Relieved(requests, hs, initial, requests[a].Lines())
    ensures Inventory.CanReserve(Now(r).inventory.stock, StockLines(Now(r).threads[b].order.items))
  {
    hide Going, Asked, Part, Untaken, OwnKeys, AllSane, Inventory.CanReserve, Left, Overselling.SaneStart, Narrow;
    hide StockLines;
    hide AllWait, AllGiven, Affordable;
    var part := Affordables(requests, hs);
    assert hs - (hs - part) == part;
    WaitersAreHolders(r, initial, requests, hs, a, b, hs - part);
    StockNow(r, initial, requests, hs + {a, b}, part);
  }

  /** The order has its goods, and but for a nobody has been declined them. */
  lemma TakenIsKept(w: World, w': World, initial: map<string, int>, requests: Batch, hs: set<string>, a: string,
                    b: string)
    requires Inv(w, initial) && a in requests && b in requests && a != b && hs + {a, b} <= requests.Keys
    requires Asked(w) == Part(requests, hs + {a, b}) && requests[a].key == requests[b].key != ""
    requires forall h :: h in hs ==> requests[h].key != requests[a].key
    requires a in w.threads && b in w.threads && w.threads[a].HasSaga()
    requires w.threads[a].order.id == w.threads[b].order.id
    requires w.threads[a].order.items == Narrow(requests[a].items) && Affordable(requests[a])
    requires w.threads[a].phase.Cancel?
    requires w'.threads == w.threads[b := AfterReserve(w.threads[b], Answered(true, true))] && w'.orders == w.orders
    requires w.threads[a].order.id in w'.inventory.reservations
    ensures Keeps(w', Whole(w.threads[a].order.id, a))
  {
    hide CreateCacheOk, CreatorsOk, CallsOk, BooksOk, NoOverwrite, BackedOk, StatusesOk, Inventory.Conserved, Narrow;
    hide Total;
    hide Asked, Part;
    var o := w.threads[a].order.id;
    KeysAsked(w, requests, hs + {a, b});
    TotalsAgree(w, a);
    assert Cheap(w', o) by { OrderTotal(w, o); }
    forall x | DeclinedFor(w', x, o)
      ensures x == a
    {
      TotalsAgree(w, x);
    }
  }

  lemma TakeLast(r: Scenarios.Run, initial: map<string, int>, requests: Batch, hs: set<string>, a: string, b: string)
    returns (r': Scenarios.Run, o: string)
    requires a in requests && b in requests && a != b && requests[a].key == requests[b].key != ""
    requires Pinched(r, initial, requests, hs, a, b) && hs + {a, b} <= requests.Keys && Affordable(requests[a])
    requires forall h :: h in hs ==> requests[h].key != requests[a].key
    requires Inventory.CanReserve(Now(r).inventory.stock, StockLines(Now(r).threads[b].order.items))
    ensures Going(r', initial) && Asked(Now(r')) == Part(requests, hs + {a, b}) && Keeps(Now(r'), Whole(o, a))
  {
    hide Init, Follows, Flawless, FlawlessAction, MoveThread, Inv, AllPlain, NothingReturned, Asked, Part, Untaken;
    hide Keeps;
    hide Inventory.CanReserve, StockLines, Narrow, Affordable;
    KeysAsked(Now(r), requests, hs + {a, b});
    WhereItIs(r, initial);
    FreeKey(Now(r), initial, requests[a].key);
    var l;
    r', l := MoveOn(r, initial, b);
    ReserveTakes(Now(r), b, l);
    AskedSame(Now(r), b, l);
    o := Now(r).threads[a].order.id;
    TakenIsKept(Now(r), Now(r'), initial, requests, hs, a, b);
  }

  /** A thread of a run without faults that has ended had its order. */
  lemma EndedHadSaga(t: Thread)
    requires CallsFit(t) && Plain(t) && Final(t.phase)
    ensures t.HasSaga()
  {
  }

  lemma CompletedIsTold(t: Thread)
    requires CallsFit(t) && Plain(t) && Solvent(t) && Final(t.phase) && t.order.total <= Payment.LIMIT
    ensures Declined(t.reserve) || t.charge.Succeeded()
  {
    EndedHadSaga(t);
    SolventPhases(t);
  }

  /** When all but a have come to rest, the order is paid. */
  lemma PaidAtLast(w: World, initial: map<string, int>, o: string, a: string, b: string)
    requires Inv(w, initial) && AllPlain(w) && NothingReturned(w) && Keeps(w, Whole(o, a))
    requires a in w.threads && b in w.threads && a != b && w.threads[b].key == w.orders[o].key && AtRest(w.threads[b])
    ensures o in w.payments
  {
    hide CreateCacheOk, CreatorsOk, CallsFit, NoOverwrite, CachesBacked, EventsOk, StatusesOk, Inventory.Conserved;
    hide Plain, Solvent;
    hide Waits;
    var t := w.threads[b];
    assert CallsFit(t) && Plain(t) && Solvent(t) && RepliesBacked(t, w.history);
    EndedHadSaga(t);
    TotalsAgree(w, b);
    assert t.order.id == o;
    CompletedIsTold(t);
    assert !DeclinedFor(w, b, o);
    AlternationBalances(w.history, Money, o);
  }

  lemma CancelLast(r: Scenarios.Run, initial: map<string, int>, o: string, a: string, b: string)
    returns (r': Scenarios.Run)
    requires Going(r, initial) && Keeps(Now(r), Whole(o, a))
    requires forall id :: id in Now(r).threads && id != a ==> AtRest(Now(r).threads[id])
    requires b in Now(r).threads && a != b && Now(r).threads[b].key == Now(r).orders[o].key
    ensures Going(r', initial) && Asked(Now(r')) == Asked(Now(r)) && AllAtRest(Now(r'))
    ensures var w := Now(r');
            o in w.orders && w.orders[o].status.CANCELLED? && o in w.inventory.reservations && o in w.payments
  {
    hide Init, Follows, Flawless, FlawlessAction, MoveThread, Inv, Solvent, NothingReturned, Asked, OthersNotDeclined;
    hide Replied;
    var w := Now(r);
    WhereItIs(r, initial);
    PaidAtLast(w, initial, o, a, b);
    var l;
    r', l := MoveOn(r, initial, a);
    CancelWrites(w, a, l);
    AskedSame(w, a, l);
    WhereItIs(r', initial);
    PlainAtRest(Now(r').threads[a]);
  }

  lemma PlainAtRest(t: Thread)
    requires Plain(t) && Final(t.phase)
    ensures AtRest(t)
  {
  }

  lemma SqueezedKeys(requests: Batch, initial: map<string, int>, a: string, b: string, hs: set<string>)
    requires SqueezedPair(requests, initial, a, b, hs)
    ensures hs + {a, b} <= requests.Keys && requests[a].key == requests[b].key && a != b
    ensures forall h :: h in hs ==> requests[h].key != requests[a].key
    ensures forall h, h' :: h in hs && h' in hs && requests[h].key == requests[h'].key != "" ==> h == h'
  {
    hide Relieved, Inventory.CanReserve, Affordable, Demand;
  }

  lemma SqueezersApart(requests: Batch, hs: set<string>, a: string, b: string)
    requires a in requests && b in requests && hs <= requests.Keys && requests[a].key == requests[b].key
    requires forall h :: h in hs ==> requests[h].key != requests[a].key
    requires forall h, h' :: h in hs && h' in hs && requests[h].key == requests[h'].key != "" ==> h == h'
    ensures a !in hs && b !in hs && OwnKeys(requests, hs, hs) && OwnKeys(requests, hs, hs + {a, b})
  {
  }

  lemma PartAndRest(requests: Batch, ids: set<string>)
    requires ids <= requests.Keys
    ensures Part(requests, ids) == requests - (requests.Keys - ids)
  {
  }

  /** Up to the moment when the order has its goods and its first saga is about to cancel it. */
  lemma SqueezeBegins(requests: Batch, initial: map<string, int>, a: string, b: string, hs: set<string>)
    returns (r: Scenarios.Run, o: string)
    requires Overselling.SaneStart(initial) && AllSane(requests) && SqueezedPair(requests, initial, a, b, hs)
    ensures Going(r, initial) && Asked(Now(r)) == Part(requests, hs + {a, b}) && Keeps(Now(r), Whole(o, a))
  {
    hide Going, Asked, Part, Untaken, OwnKeys, AllSane, Inventory.CanReserve, Left, Request.Lines;
    hide Overselling.SaneStart;
    hide Pinched, Keeps, Affordable, Demand;
    SqueezedKeys(requests, initial, a, b, hs);
    SqueezersApart(requests, hs, a, b);
    r := ServeAll(initial, requests, hs);
    r := TwoArrive(r, initial, requests, hs, a, b);
    r := Pinch(r, initial, requests, hs, a, b);
    r := GiveBack(r, initial, requests, hs, a, b, {});
    EnoughAgain(r, initial, requests, hs, a, b);
    r, o := TakeLast(r, initial, requests, hs, a, b);
  }

  lemma SharersKey(w: World, requests: Batch, initial: map<string, int>, o: string, a: string, b: string)
    requires Inv(w, initial) && Keeps(w, Whole(o, a)) && Asked(w) == requests
    requires a in requests && b in requests && requests[a].key == requests[b].key
    ensures b in w.threads && w.threads[b].key == w.orders[o].key
  {
    hide OrdersOk, CreatorsOk, CallsOk, BooksOk, NoOverwrite, BackedOk, StatusesOk, Inventory.Conserved;
    hide OthersNotDeclined;
    TotalsAgree(w, a);
    assert a in Asked(w) && b in Asked(w);
  }

  lemma SqueezeEnds(r: Scenarios.Run, initial: map<string, int>, requests: Batch, o: string, a: string, b: string)
    returns (r': Scenarios.Run)
    requires Going(r, initial) && Keeps(Now(r), Whole(o, a)) && Asked(Now(r)) == requests
    requires a in requests && b in requests && requests[a].key == requests[b].key && a != b
    requires forall id :: id in Now(r).threads && id != a ==> AtRest(Now(r).threads[id])
    ensures Going(r', initial) && BadFlawlessRun(r'.worlds, r'.actions, initial, requests)
    ensures var w := Now(r');
            o in w.orders && w.orders[o].status.CANCELLED? && o in w.inventory.reservations && o in w.payments
  {
    hide Init, Follows, Flawless, BadRun, AtRest, Asked, Inv, AllPlain, NothingReturned, Keeps;
    WhereItIs(r, initial);
    SharersKey(Now(r), requests, initial, o, a, b);
    r' := CancelLast(r, initial, o, a, b);
    EndOfRun(r', initial, requests, o);
  }

  /** The squeeze, among any other requests: one saga of an order is declined while others hold the stock,
      a second one is served when those over the limit have given theirs back, and the first one then
      cancels the order. Every call is delivered at once, the cache is perfect, the order within the limit,
      and still it ends cancelled, its goods reserved and its money taken for ever. */
  lemma SqueezeBreaksWithoutFaults(requests: Batch, initial: map<string, int>, a: string, b: string, hs: set<string>)
    returns (worlds: seq<World>, actions: seq<Action>, o: string)
    requires Overselling.SaneStart(initial) && AllSane(requests) && SqueezedPair(requests, initial, a, b, hs)
    ensures |worlds| > 0 && BadFlawlessRun(worlds, actions, initial, requests)
    ensures var w := worlds[|worlds| - 1];
            o in w.orders && w.orders[o].status.CANCELLED? && o in w.inventory.reservations && o in w.payments
  {
    hide Init, Follows, Flawless, ValidRequest, BadFlawlessRun, AtRest, Asked, Part, SqueezedPair, AllSane, Keeps;
    hide Overselling.SaneStart;
    var r;
    r, o := SqueezeBegins(requests, initial, a, b, hs);
    SqueezedKeys(requests, initial, a, b, hs);
    var ids := hs + {a, b};
    PartAndRest(requests, ids);
    forall id | id in requests ensures ValidRequest(requests[id].customer, requests[id].items) {
      SaneIsValid(requests, id);
    }
    r := SubmitRest(r, initial, Whole(o, a), requests, requests.Keys - ids);
    r := RestOn(r, initial, Whole(o, a));
    r := SqueezeEnds(r, initial, requests, o, a, b);
    worlds, actions := r.worlds, r.actions;
  }
}
