/** Stock bounds: with requests that list each product once and in 32-bit quantities, no run
    oversells and no stock level wraps. */
module Overselling {
  import opened Items
  import opened History
  import opened Protocol
  import opened Invariants
  import opened Safety
  import MapSums
  import Inventory

  ghost predicate SaneRequests(w: World) {
    forall id :: id in w.threads ==> DistinctAndSmall(w.threads[id].items)
  }

  ghost predicate SaneStart(initial: map<string, int>) {
    forall p :: p in initial ==> 0 <= initial[p] < TWO_31
  }

  /** Threads never go away, and never change their request. */
  ghost predicate RequestsKept(w: World, w': World) {
    forall id :: id in w.threads ==> id in w'.threads && SameRequest(w.threads[id], w'.threads[id])
  }

  ghost predicate SameRequest(t: Thread, t': Thread) {
    t'.key == t.key && t'.customer == t.customer && t'.items == t.items
  }

  lemma StepKeepsRequests(w: World, a: Action)
    requires Enabled(w, a)
    ensures RequestsKept(w, Apply(w, a))
  {
    hide Decide, Perform;
    if a.Move? {
      DecisionKeepsRequest(w, w.threads[a.thread], a.luck);
      PerformKeepsThreads(w, a.thread, Decide(w, w.threads[a.thread], a.luck).effect, a.luck);
    }
  }

  lemma {:induction false} RunKeepsRequests(worlds: seq<World>, actions: seq<Action>, initial: map<string, int>,
                                            i: nat, j: nat)
    requires IsRun(worlds, actions, initial) && i <= j < |worlds|
    ensures RequestsKept(worlds[i], worlds[j])
  {
    hide Apply, Enabled, Init;
    if i < j {
      RunKeepsRequests(worlds, actions, initial, i, j - 1);
      assert Follows(worlds[j - 1], actions[j - 1], worlds[j]);
      StepKeepsRequests(worlds[j - 1], actions[j - 1]);
    }
  }

  ghost predicate Bounded(w: World, initial: map<string, int>) {
    && (forall o :: o in w.orders ==> DistinctAndSmall(w.orders[o].items))
    && (forall p :: 0 <= Inventory.Held(w.inventory.reservations, p) <= Inventory.Level(initial, p))
  }

  /** Stock levels read off the bounds: nothing has wrapped. */
  lemma BoundsGiveLevels(w: World, initial: map<string, int>, p: string)
    requires Inventory.Conserved(w.inventory, initial) && Bounded(w, initial) && SaneStart(initial)
    ensures Inventory.Level(w.inventory.stock, p)
         == Inventory.Level(initial, p) - Inventory.Held(w.inventory.reservations, p)
    ensures 0 <= Inventory.Level(w.inventory.stock, p) <= Inventory.Level(initial, p)
  {
  }

  lemma SaneItemsSaneLines(items: seq<Item>)
    requires DistinctAndSmall(items)
    ensures Narrow(items) == items
    ensures var lines := StockLines(items);
            && (forall i :: 0 <= i < |lines| ==> 1 <= lines[i].quantity)
            && (forall i, j :: 0 <= i < j < |lines| ==> lines[i].product != lines[j].product)
  {
  }

  lemma TakingStaysBounded(w: World, t: Thread, initial: map<string, int>, p: string)
    requires Inventory.Conserved(w.inventory, initial) && Bounded(w, initial) && SaneStart(initial)
    requires SagaFits(t, w.orders) && ReserveFor(w, t).effect && t.order.id !in w.inventory.reservations
    ensures 0 <= Inventory.Held(ReserveFor(w, t).state.reservations, p) <= Inventory.Level(initial, p)
  {
    var lines := StockLines(t.order.items);
    SaneItemsSaneLines(t.order.items);
    BoundsGiveLevels(w, initial, p);
    Inventory.DistinctLinesFit(w.inventory.stock, lines, p);
    Inventory.HeldInsert(w.inventory.reservations, t.order.id, Inventory.Reservation(t.key, lines), p);
  }

  lemma ReturningStaysBounded(w: World, o: string, initial: map<string, int>, p: string)
    requires BooksOk(w) && Bounded(w, initial) && o in w.inventory.reservations
    ensures 0 <= Inventory.Held(Inventory.Release(w.inventory, o).state.reservations, p) <= Inventory.Level(initial, p)
  {
    var rest := w.inventory.reservations - {o};
    Inventory.HeldRemove(w.inventory.reservations, o, p);
    SaneItemsSaneLines(w.orders[o].items);
    PositiveLines(w.inventory.reservations[o].lines, p);
    forall r | r in rest
      ensures 0 <= Quantity(rest[r].lines, p)
    {
      SaneItemsSaneLines(w.orders[r].items);
      PositiveLines(rest[r].lines, p);
    }
    HeldIsNatural(rest, p);
  }

  lemma {:induction false} PositiveLines(lines: seq<StockLine>, p: string)
    requires forall i :: 0 <= i < |lines| ==> 1 <= lines[i].quantity
    ensures 0 <= Quantity(lines, p)
  {
    if lines != [] {
      PositiveLines(lines[..|lines| - 1], p);
    }
  }

  lemma HeldIsNatural(reservations: map<string, Inventory.Reservation>, p: string)
    requires forall r :: r in reservations ==> 0 <= Quantity(reservations[r].lines, p)
    ensures 0 <= Inventory.Held(reservations, p)
  {
    MapSums.SumNonNegative(map o | o in reservations :: Quantity(reservations[o].lines, p));
  }

  lemma NewOrderIsSane(w: World, id: string, e: Effect, l: Luck)
    requires id in w.threads && OrdersOk(w) && l.uuid !in w.orders && Allowed(w, w.threads[id], e, l)
    requires DistinctAndSmall(w.threads[id].items)
    requires forall o :: o in w.orders ==> DistinctAndSmall(w.orders[o].items)
    ensures forall o :: o in Perform(w, id, e, l).orders ==> DistinctAndSmall(Perform(w, id, e, l).orders[o].items)
  {
    PerformShape(w, id, e, l);
    PerformKeepsOrders(w, id, e, l);
    SaneItemsSaneLines(w.threads[id].items);
    forall o | o in w.orders
      ensures Perform(w, id, e, l).orders[o].items == w.orders[o].items
    {
      assert Perform(w, id, e, l).orders[o].(status := w.orders[o].status) == w.orders[o];
    }
    hide Perform, OrdersOk, DistinctAndSmall, Narrow;
  }

  lemma PerformStaysBounded(w: World, id: string, e: Effect, l: Luck, initial: map<string, int>, p: string)
    requires id in w.threads && Allowed(w, w.threads[id], e, l)
    requires BooksOk(w) && Inventory.Conserved(w.inventory, initial) && SaneStart(initial) && Bounded(w, initial)
    requires e.TakeStock? ==> SagaFits(w.threads[id], w.orders) && w.threads[id].order.id !in w.inventory.reservations
    ensures 0 <= Inventory.Held(Perform(w, id, e, l).inventory.reservations, p) <= Inventory.Level(initial, p)
  {
    if e.TakeStock? {
      TakingStaysBounded(w, w.threads[id], initial, p);
    } else if e.ReturnStock? {
      ReturningStaysBounded(w, w.threads[id].order.id, initial, p);
    }
    hide BooksOk, Inventory.Conserved, SaneStart;
  }

  lemma MoveKeepsBounds(w: World, id: string, l: Luck, initial: map<string, int>)
    requires Enabled(w, Move(id, l)) && Inv(w, initial) && SaneRequests(w) && SaneStart(initial) && Bounded(w, initial)
    ensures Bounded(MoveThread(w, id, l), initial)
  {
    hide Decide, Perform, OrdersOk, SagasOk, CreatorsOk, CallsOk, BooksOk, NoOverwrite, BackedOk, StatusesOk,
         Inventory.Conserved, SaneStart;
    var e := Decide(w, w.threads[id], l).effect;
    TakesAreNew(w, id, l);
    NewOrderIsSane(w, id, e, l);
    forall p
      ensures 0 <= Inventory.Held(Perform(w, id, e, l).inventory.reservations, p) <= Inventory.Level(initial, p)
    {
      PerformStaysBounded(w, id, e, l, initial, p);
    }
  }

  lemma InitBounded(w: World, initial: map<string, int>)
    requires Init(w, initial) && SaneStart(initial)
    ensures Bounded(w, initial)
  {
    forall p ensures Inventory.Held(map[], p) == 0 {
      Inventory.NothingHeld(p);
    }
  }

  lemma StepKeepsBounds(w: World, a: Action, initial: map<string, int>)
    requires Enabled(w, a) && Inv(w, initial) && SaneRequests(w) && SaneStart(initial) && Bounded(w, initial)
    ensures Bounded(Apply(w, a), initial)
  {
    hide MoveThread, Inv, SaneRequests, Narrow;
    if a.Move? {
      MoveKeepsBounds(w, a.thread, a.luck, initial);
    }
  }

  lemma {:induction false} RunStaysBounded(worlds: seq<World>, actions: seq<Action>, initial: map<string, int>, i: nat)
    requires IsRun(worlds, actions, initial) && i < |worlds|
    requires SaneStart(initial) && SaneRequests(worlds[i])
    ensures Bounded(worlds[i], initial)
  {
    hide Inv, Bounded, Apply, DistinctAndSmall;
    if i == 0 {
      InitBounded(worlds[0], initial);
    } else {
      assert Follows(worlds[i - 1], actions[i - 1], worlds[i]);
      StepKeepsRequests(worlds[i - 1], actions[i - 1]);
      RunStaysBounded(worlds, actions, initial, i - 1);
      RunKeepsInv(worlds, actions, initial, i - 1);
      StepKeepsBounds(worlds[i - 1], actions[i - 1], initial);
    }
  }

  /** In every run of sane requests each level is the initial one less what is held, and never negative. */
  lemma NeverOversold(worlds: seq<World>, actions: seq<Action>, initial: map<string, int>, i: nat, p: string)
    requires IsRun(worlds, actions, initial) && i < |worlds|
    requires SaneStart(initial) && SaneRequests(worlds[i])
    ensures var inv := worlds[i].inventory;
            && Inventory.Level(inv.stock, p) == Inventory.Level(initial, p) - Inventory.Held(inv.reservations, p)
            && 0 <= Inventory.Level(inv.stock, p) <= Inventory.Level(initial, p)
  {
    RunKeepsInv(worlds, actions, initial, i);
    RunStaysBounded(worlds, actions, initial, i);
    BoundsGiveLevels(worlds[i], initial, p);
  }

  // Which carts the line-by-line check is right for

  /** Whatever the stock, if the check of each line passes, all of them together fit. */
  ghost predicate CheckSuffices(lines: seq<StockLine>) {
    forall stock, p :: NaturalStock(stock) && Inventory.CanReserve(stock, lines) ==>
      0 <= Quantity(lines, p) <= Inventory.Level(stock, p)
  }

  ghost predicate NaturalStock(stock: map<string, int>) {
    forall p :: p in stock ==> 0 <= stock[p] < TWO_31
  }

  /** Carts of distinct products in 32-bit quantities are exactly those whose quantities fit and whose lines
      the inventory service may check one by one. */
  lemma {:induction false} DistinctAndSmallExactly(items: seq<Item>)
    requires forall i :: 0 <= i < |items| ==> items[i].quantity >= 1
    ensures DistinctAndSmall(items)
       <==> (forall i :: 0 <= i < |items| ==> items[i].quantity <= 2_147_483_647) && CheckSuffices(StockLines(items))
  {
    hide CheckSuffices, Narrow;
    if DistinctAndSmall(items) {
      DistinctSuffices(StockLines(items));
    } else if forall i :: 0 <= i < |items| ==> items[i].quantity <= 2_147_483_647 {
      var i, j :| 0 <= i < j < |items| && items[i].product == items[j].product;
      RepeatedOversells(StockLines(items), i, j);
    }
  }

  lemma DistinctSuffices(lines: seq<StockLine>)
    requires forall i :: 0 <= i < |lines| ==> 1 <= lines[i].quantity
    requires forall i, j :: 0 <= i < j < |lines| ==> lines[i].product != lines[j].product
    ensures CheckSuffices(lines)
  {
    hide Inventory.CanReserve, Quantity;
    forall stock, p | NaturalStock(stock) && Inventory.CanReserve(stock, lines)
      ensures 0 <= Quantity(lines, p) <= Inventory.Level(stock, p)
    {
      Inventory.DistinctLinesFit(stock, lines, p);
    }
  }

  /** Two lines of one product: a stock of just the larger one's quantity passes the check. */
  lemma RepeatedOversells(lines: seq<StockLine>, i: nat, j: nat)
    requires i < j < |lines| && lines[i].product == lines[j].product
    requires forall k :: 0 <= k < |lines| ==> 1 <= lines[k].quantity < TWO_31
    ensures !CheckSuffices(lines)
  {
    hide Quantity;
    var p := lines[i].product;
    var m := LargestLine(lines, p, i);
    var stock := map k | 0 <= k < |lines|
                   :: lines[k].product := if lines[k].product == p then lines[m].quantity else TWO_31 - 1;
    if m <= i {
      TwoLinesCount(lines, m, j);
    } else {
      TwoLinesCount(lines, i, m);
    }
    assert NaturalStock(stock) && Inventory.CanReserve(stock, lines);
    assert lines[m].product in stock && Inventory.Level(stock, p) == lines[m].quantity < Quantity(lines, p);
  }

  lemma {:induction false} LargestLine(lines: seq<StockLine>, p: string, i: nat) returns (m: nat)
    requires i < |lines| && lines[i].product == p
    ensures m < |lines| && lines[m].product == p
    ensures forall k :: 0 <= k < |lines| && lines[k].product == p ==> lines[k].quantity <= lines[m].quantity
    decreases |lines|
  {
    var n := |lines| - 1;
    if k :| 0 <= k < n && lines[k].product == p {
      m := LargestLine(lines[..n], p, k);
      if lines[n].product == p && lines[m].quantity < lines[n].quantity {
        m := n;
      }
    } else {
      m := i;
    }
  }

  lemma {:induction false} TwoLinesCount(lines: seq<StockLine>, i: nat, j: nat)
    requires i < j < |lines| && lines[i].product == lines[j].product
    requires forall k :: 0 <= k < |lines| ==> 1 <= lines[k].quantity
    ensures lines[i].quantity + lines[j].quantity <= Quantity(lines, lines[i].product)
  {
    var n := |lines| - 1;
    if j < n {
      TwoLinesCount(lines[..n], i, j);
    } else {
      LineCounts(lines[..n], i);
    }
  }

  lemma {:induction false} LineCounts(lines: seq<StockLine>, i: nat)
    requires i < |lines| && forall j :: 0 <= j < |lines| ==> 1 <= lines[j].quantity
    ensures lines[i].quantity <= Quantity(lines, lines[i].product)
  {
    var n := |lines| - 1;
    if i < n {
      LineCounts(lines[..n], i);
    } else {
      PositiveLines(lines[..n], lines[n].product);
    }
  }
}
