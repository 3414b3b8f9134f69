/** The inventory service: stock levels, reservations, and the effect of Reserve and Release. */
module Inventory {
  import opened Items
  import opened MapSums

  datatype Reservation = Reservation(key: string, lines: seq<StockLine>)

  datatype State = State(stock: map<string, int>, reservations: map<string, Reservation>)

  /** Whether the caller is told "success", and whether the call changed anything. */
  datatype Reply = Reply(state: State, ok: bool, effect: bool)

  /** Reading an absent entry of a Go map yields zero. */
  function Level(stock: map<string, int>, p: string): int {
    if p in stock then stock[p] else 0
  }

  predicate KeyInUse(reservations: map<string, Reservation>, key: string) {
    exists o :: o in reservations && reservations[o].key == key
  }

  predicate CanReserve(stock: map<string, int>, lines: seq<StockLine>) {
    forall i :: 0 <= i < |lines| ==>
      lines[i].product in stock && lines[i].quantity <= stock[lines[i].product]
  }

  function Deduct(stock: map<string, int>, lines: seq<StockLine>): map<string, int> {
    if lines == [] then stock
    else
      var last := lines[|lines| - 1];
      var before := Deduct(stock, lines[..|lines| - 1]);
      before[last.product := Wrap32(Level(before, last.product) - last.quantity)]
  }

  function Restore(stock: map<string, int>, lines: seq<StockLine>): map<string, int> {
    if lines == [] then stock
    else
      var last := lines[|lines| - 1];
      var before := Restore(stock, lines[..|lines| - 1]);
      before[last.product := Wrap32(Level(before, last.product) + last.quantity)]
  }

  /** The part of Reserve that runs under the mutex. */
  function Reserve(st: State, order: string, key: string, lines: seq<StockLine>): Reply {
    if key != "" && KeyInUse(st.reservations, key) then Reply(st, true, false)
    else if !CanReserve(st.stock, lines) then Reply(st, false, false)
    else Reply(State(Deduct(st.stock, lines), st.reservations[order := Reservation(key, lines)]), true, true)
  }

  /** The part of Release that runs under the mutex. */
  function Release(st: State, order: string): Reply {
    if order !in st.reservations then Reply(st, true, false)
    else Reply(State(Restore(st.stock, st.reservations[order].lines), st.reservations - {order}), true, true)
  }

  /** When Reserve says no: the key is not in use, and some line names a product that is not stocked or
      asks for more of it than its level. */
  lemma ReserveDeclinesExactly(st: State, order: string, key: string, lines: seq<StockLine>)
    ensures !Reserve(st, order, key, lines).ok <==>
              && (key == "" || forall o :: o in st.reservations ==> st.reservations[o].key != key)
              && (exists i :: 0 <= i < |lines| && (lines[i].product !in st.stock
                                                   || st.stock[lines[i].product] < lines[i].quantity))
  {
  }

  /** Lines are checked one by one, against the stock as it is before any of them is taken: a request is
      accepted exactly if its parts are, an empty one always. */
  lemma ReserveSplits(st: State, order: string, key: string, a: seq<StockLine>, b: seq<StockLine>)
    requires key == "" || !KeyInUse(st.reservations, key)
    ensures Reserve(st, order, key, a + b).ok <==> Reserve(st, order, key, a).ok && Reserve(st, order, key, b).ok
    ensures Reserve(st, order, key, []).ok
    ensures |a| == 1 ==>
      (Reserve(st, order, key, a).ok <==> a[0].product in st.stock && a[0].quantity <= st.stock[a[0].product])
  {
    hide Deduct;
    assert forall i :: 0 <= i < |b| ==> (a + b)[|a| + i] == b[i];
    assert forall i :: 0 <= i < |a| ==> (a + b)[i] == a[i];
  }

  /** Units of p held by all live reservations. */
  ghost function Held(reservations: map<string, Reservation>, p: string): int {
    Sum(map o | o in reservations :: Quantity(reservations[o].lines, p))
  }

  predicate Int32Stock(stock: map<string, int>) {
    forall p :: p in stock ==> IsInt32(stock[p])
  }

  predicate Stocked(stock: map<string, int>, lines: seq<StockLine>) {
    forall i :: 0 <= i < |lines| ==> lines[i].product in stock
  }

  /** Stock plus everything held is the initial stock, in the service's own int32 arithmetic. */
  ghost predicate Conserved(st: State, initial: map<string, int>) {
    && st.stock.Keys == initial.Keys
    && Int32Stock(st.stock)
    && (forall o :: o in st.reservations ==> Stocked(initial, st.reservations[o].lines))
    && (forall p :: Level(st.stock, p) == Wrap32(Level(initial, p) - Held(st.reservations, p)))
  }

  lemma {:induction false} DeductLevel(stock: map<string, int>, lines: seq<StockLine>, p: string)
    requires Int32Stock(stock)
    ensures Level(Deduct(stock, lines), p) == Wrap32(Level(stock, p) - Quantity(lines, p))
  {
    if lines != [] {
      var n := |lines| - 1;
      DeductLevel(stock, lines[..n], p);
      WrapAbsorbs(Level(stock, p) - Quantity(lines[..n], p), -lines[n].quantity);
    }
  }

  lemma {:induction false} RestoreLevel(stock: map<string, int>, lines: seq<StockLine>, p: string)
    requires Int32Stock(stock)
    ensures Level(Restore(stock, lines), p) == Wrap32(Level(stock, p) + Quantity(lines, p))
  {
    if lines != [] {
      var n := |lines| - 1;
      RestoreLevel(stock, lines[..n], p);
      WrapAbsorbs(Level(stock, p) + Quantity(lines[..n], p), lines[n].quantity);
    }
  }

  lemma {:induction false} StockShape(stock: map<string, int>, lines: seq<StockLine>)
    requires Int32Stock(stock) && Stocked(stock, lines)
    ensures Deduct(stock, lines).Keys == stock.Keys && Int32Stock(Deduct(stock, lines))
    ensures Restore(stock, lines).Keys == stock.Keys && Int32Stock(Restore(stock, lines))
  {
    if lines != [] {
      StockShape(stock, lines[..|lines| - 1]);
    }
  }

  lemma RestoreUndoesDeduct(stock: map<string, int>, lines: seq<StockLine>)
    requires Int32Stock(stock) && Stocked(stock, lines)
    ensures Restore(Deduct(stock, lines), lines) == stock
  {
    var mid := Deduct(stock, lines);
    StockShape(stock, lines);
    StockShape(mid, lines);
    forall p | p in stock
      ensures Restore(mid, lines)[p] == stock[p]
    {
      DeductLevel(stock, lines, p);
      RestoreLevel(mid, lines, p);
      WrapAbsorbs(Level(stock, p) - Quantity(lines, p), Quantity(lines, p));
    }
  }

  /** An effective Release gives back exactly what its Reserve took, whatever the quantities. */
  lemma ReleaseUndoesReserve(st: State, order: string, key: string, lines: seq<StockLine>)
    requires Int32Stock(st.stock) && order !in st.reservations
    requires Reserve(st, order, key, lines).effect
    ensures Release(Reserve(st, order, key, lines).state, order) == Reply(st, true, true)
  {
    RestoreUndoesDeduct(st.stock, lines);
    assert st.reservations[order := Reservation(key, lines)] - {order} == st.reservations;
  }

  /** Repeating an effective Reserve answers yes again and changes nothing exactly when it carries a
      key; the order ID alone does not make it idempotent. */
  lemma RepeatedReserveExactly(st: State, order: string, key: string, lines: seq<StockLine>)
    requires Reserve(st, order, key, lines).effect
    ensures var once := Reserve(st, order, key, lines).state;
            var twice := Reserve(once, order, key, lines);
            && (twice.ok && !twice.effect && twice.state == once <==> key != "")
            && (twice.effect <==> key == "" && CanReserve(once.stock, lines))
  {
    hide Deduct, CanReserve;
    var once := Reserve(st, order, key, lines).state;
    assert order in once.reservations && once.reservations[order].key == key;
  }

  lemma NothingHeld(p: string)
    ensures Held(map[], p) == 0
  {
    var none: map<string, Reservation> := map[];
    assert |map o | o in none :: Quantity(none[o].lines, p)| == 0;
  }

  lemma HeldInsert(reservations: map<string, Reservation>, order: string, r: Reservation, p: string)
    ensures Held(reservations[order := r], p) == Held(reservations, p) + Quantity(r.lines, p)
          - (if order in reservations then Quantity(reservations[order].lines, p) else 0)
  {
    var before := map o | o in reservations :: Quantity(reservations[o].lines, p);
    var after := reservations[order := r];
    assert (map o | o in after :: Quantity(after[o].lines, p)) == before[order := Quantity(r.lines, p)];
    if order in reservations {
      SumUpdate(before, order, Quantity(r.lines, p));
    } else {
      SumInsert(before, order, Quantity(r.lines, p));
    }
  }

  lemma HeldRemove(reservations: map<string, Reservation>, order: string, p: string)
    requires order in reservations
    ensures Held(reservations - {order}, p) == Held(reservations, p) - Quantity(reservations[order].lines, p)
  {
    var rest := reservations - {order};
    assert rest[order := reservations[order]] == reservations;
    HeldInsert(rest, order, reservations[order], p);
  }

  /** Exactly what an effective Reserve does to the books: if the order already held a reservation,
      the units of the overwritten one are lost. */
  lemma ReserveBooks(st: State, order: string, key: string, lines: seq<StockLine>, initial: map<string, int>, p: string)
    requires Conserved(st, initial)
    requires Reserve(st, order, key, lines).effect
    ensures var after := Reserve(st, order, key, lines).state;
            var lost := if order in st.reservations then Quantity(st.reservations[order].lines, p) else 0;
            Level(after.stock, p) == Wrap32(Level(initial, p) - Held(after.reservations, p) - lost)
  {
    hide Deduct, Held, Wrap32, Quantity, CanReserve;
    var asked, free := Quantity(lines, p), Level(initial, p) - Held(st.reservations, p);
    assert Level(Deduct(st.stock, lines), p) == Wrap32(free - asked) by {
      DeductLevel(st.stock, lines, p);
      WrapAbsorbs(free, -asked);
    }
    HeldInsert(st.reservations, order, Reservation(key, lines), p);
  }

  lemma ReserveConserves(st: State, order: string, key: string, lines: seq<StockLine>, initial: map<string, int>)
    requires Conserved(st, initial)
    requires order in st.reservations ==> key != "" && KeyInUse(st.reservations, key)
    ensures Conserved(Reserve(st, order, key, lines).state, initial)
  {
    hide Deduct, Held, Wrap32, Quantity;
    if Reserve(st, order, key, lines).effect {
      StockShape(st.stock, lines);
      forall p ensures var after := Reserve(st, order, key, lines).state;
                       Level(after.stock, p) == Wrap32(Level(initial, p) - Held(after.reservations, p))
      {
        ReserveBooks(st, order, key, lines, initial, p);
      }
    }
  }

  lemma ReleaseConserves(st: State, order: string, initial: map<string, int>)
    requires Conserved(st, initial)
    ensures Conserved(Release(st, order).state, initial)
  {
    hide Restore, Held, Wrap32, Quantity;
    if order in st.reservations {
      var lines := st.reservations[order].lines;
      var after := Release(st, order).state;
      StockShape(st.stock, lines);
      forall p ensures Level(after.stock, p) == Wrap32(Level(initial, p) - Held(after.reservations, p))
      {
        var back, free := Quantity(lines, p), Level(initial, p) - Held(st.reservations, p);
        assert Level(Restore(st.stock, lines), p) == Wrap32(free + back) by {
          RestoreLevel(st.stock, lines, p);
          WrapAbsorbs(free, back);
        }
        HeldRemove(st.reservations, order, p);
      }
    }
  }

  /** The line-by-line check bounds the whole request when no product is listed twice. */
  lemma {:induction false} DistinctLinesFit(stock: map<string, int>, lines: seq<StockLine>, p: string)
    requires forall i :: 0 <= i < |lines| ==> 1 <= lines[i].quantity
    requires forall i, j :: 0 <= i < j < |lines| ==> lines[i].product != lines[j].product
    requires CanReserve(stock, lines) && 0 <= Level(stock, p)
    ensures 0 <= Quantity(lines, p) <= Level(stock, p)
    ensures (forall i :: 0 <= i < |lines| ==> lines[i].product != p) ==> Quantity(lines, p) == 0
  {
    if lines != [] {
      var n := |lines| - 1;
      DistinctLinesFit(stock, lines[..n], p);
      if lines[n].product == p {
        assert lines[n].quantity <= stock[p];
      }
    }
  }

  /** An accepted request leaves p between zero and its old level, down by what was asked, exactly
      when the units of p summed over all its lines fit: a check the service does not make. */
  lemma OversellsExactly(stock: map<string, int>, lines: seq<StockLine>, p: string)
    requires Int32Stock(stock) && CanReserve(stock, lines)
    ensures (0 <= Level(Deduct(stock, lines), p) <= Level(stock, p)
             && Level(Deduct(stock, lines), p) == Level(stock, p) - Quantity(lines, p))
       <==> 0 <= Quantity(lines, p) <= Level(stock, p)
  {
    DeductLevel(stock, lines, p);
  }

  const INITIAL_STOCK := map["prod_1" := 15, "prod_2" := 10, "prod_3" := 0]

  /** Two lines of ten against a stock of fifteen pass the check and leave minus five. */
  lemma DuplicateLinesOversell()
    ensures var lines := StockLines([Item("prod_1", 10, 1.0), Item("prod_1", 10, 1.0)]);
            && Reserve(State(INITIAL_STOCK, map[]), "o", "", lines).effect
            && Level(Reserve(State(INITIAL_STOCK, map[]), "o", "", lines).state.stock, "prod_1") == -5
  {
    var items := [Item("prod_1", 10, 1.0), Item("prod_1", 10, 1.0)];
    var lines := StockLines(items);
    assert lines == [StockLine("prod_1", 10), StockLine("prod_1", 10)];
    assert lines[..1] == [StockLine("prod_1", 10)];
    assert lines[..1][..0] == [];
    assert Quantity(lines[..1], "prod_1") == 10;
    DeductLevel(INITIAL_STOCK, lines, "prod_1");
  }

  /** A quantity close to 2^32 is positive for the gateway and negative on the wire: stock appears. */
  lemma HugeQuantityGrowsStock()
    ensures var cart := [Item("prod_3", TWO_32 - 5, 1.0)];
            var reply := Reserve(State(INITIAL_STOCK, map[]), "o", "", StockLines(Narrow(cart)));
            && ValidRequest("c", cart)
            && reply.effect
            && Level(reply.state.stock, "prod_3") == 5
  {
    hide Narrow, StockLines, Quantity, Deduct;
    var cart := [Item("prod_3", TWO_32 - 5, 1.0)];
    var lines := StockLines(Narrow(cart));
    assert lines == [StockLine("prod_3", -5)];
    QuantityOfOne(lines[0]);
    DeductLevel(INITIAL_STOCK, lines, "prod_3");
  }

  lemma QuantityOfOne(line: StockLine)
    ensures Quantity([line], line.product) == line.quantity
  {
    assert [line][..0] == [];
  }}
