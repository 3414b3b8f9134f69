/** The steps of an order's saga as the orchestrator sees them: calls of the three services over a wire
    that may lose a request or a reply. */
module OrderSteps {
  import opened Options
  import opened Items
  import opened Orchestrator
  import Inventory
  import Orders
  import Payment

  datatype Services = Services(
    inventory: Inventory.State, payments: map<string, real>, orders: map<string, Orders.Order>)

  datatype Wire = Fine | RequestLost | ReplyLost

  /** What the caller gets: the service's answer, or an error from the wire before or after the effect. */
  function Over(wire: Wire, before: Services, after: Services, answer: Option<string>,
                error: string): Outcome<Services> {
    match wire
    case Fine => Outcome(after, answer)
    case RequestLost => Outcome(before, Some(error))
    case ReplyLost => Outcome(after, Some(error))
  }

  function InventoryStep(order: string, key: string, lines: seq<StockLine>, there: Wire, back: Wire): Step<Services> {
    Step("Inventory_Reservation_Step",
         (w: Services) =>
           var r := Inventory.Reserve(w.inventory, order, key, lines);
           var answer := if r.ok then None else Some("inventory insufficient for order " + order);
           Over(there, w, w.(inventory := r.state), answer, "inventory service error"),
         (w: Services) =>
           Over(back, w, w.(inventory := Inventory.Release(w.inventory, order).state), None, "release error"))
  }

  function PaymentStep(order: string, amount: real, there: Wire, back: Wire): Step<Services> {
    Step("Payment_Charge_Step",
         (w: Services) =>
           var r := Payment.Charge(w.payments, order, amount);
           var answer := if r.ok then None else Some("payment declined for order " + order);
           Over(there, w, w.(payments := r.payments), answer, "payment service error"),
         (w: Services) =>
           Over(back, w, w.(payments := Payment.Refund(w.payments, order).payments), None, "refund error"))
  }

  /** Its compensation does nothing. */
  function ConfirmOrderStep(order: string, there: Wire): Step<Services> {
    Step("Confirm_Order_Step",
         (w: Services) =>
           var r := Orders.UpdateStatus(w.orders, order, Orders.CONFIRMED);
           var answer := if r.Some? then None else Some("failed to confirm order gRPC");
           Over(there, w, w.(orders := r.GetOr(w.orders)), answer, "failed to confirm order gRPC"),
         (w: Services) => Outcome(w, None))
  }

  /** What the network does to the calls of one saga. */
  datatype Wires = Wires(reserve: Wire, release: Wire, charge: Wire, refund: Wire, confirm: Wire)

  function SagaSteps(order: string, key: string, lines: seq<StockLine>, amount: real,
      wires: Wires): (steps: seq<Step<Services>>)
    ensures |steps| == 3
  {
    [InventoryStep(order, key, lines, wires.reserve, wires.release),
     PaymentStep(order, amount, wires.charge, wires.refund),
     ConfirmOrderStep(order, wires.confirm)]
  }

  /** Neither goods nor money are held for the order, and its key is not in use. */
  predicate HoldsNothing(w: Services, order: string, key: string) {
    && Inventory.Int32Stock(w.inventory.stock)
    && order !in w.inventory.reservations && order !in w.payments
    && (key != "" ==> !Inventory.KeyInUse(w.inventory.reservations, key))
  }

  /** A Reserve that says yes and its Release. */
  lemma ReserveThenRelease(w: Services, order: string, key: string, lines: seq<StockLine>)
    requires HoldsNothing(w, order, key)
    ensures var r := Inventory.Reserve(w.inventory, order, key, lines);
            r.ok ==> r.effect && order in r.state.reservations && Inventory.Release(r.state, order).state == w.inventory
  {
    hide Inventory.CanReserve, Inventory.Deduct;
    if Inventory.Reserve(w.inventory, order, key, lines).ok {
      Inventory.ReleaseUndoesReserve(w.inventory, order, key, lines);
    }
  }

  lemma ChargeThenRefund(payments: map<string, real>, order: string, amount: real)
    requires order !in payments
    ensures var r := Payment.Charge(payments, order, amount);
            r.ok ==> order in r.payments && Payment.Refund(r.payments, order).payments == payments
  {
    assert payments[order := amount] - {order} == payments;
  }

  /** How far the saga's steps get, spelled out. */
  lemma ForwardRun(steps: seq<Step<Services>>, w: Services)
    requires |steps| == 3
    ensures var a := steps[0].execute(w);
            var b := steps[1].execute(a.world);
            var c := steps[2].execute(b.world);
            Forward(steps, 0, w) ==
              if a.err.Some? then Progress(a.world, 0, a.err, w)
              else if b.err.Some? then Progress(b.world, 1, b.err, a.world)
              else if c.err.Some? then Progress(c.world, 2, c.err, b.world)
              else Progress(c.world, 3, None, c.world)
  {
    var a := steps[0].execute(w);
    var b := steps[1].execute(a.world);
    assert Forward(steps, 1, a.world)
        == if b.err.Some? then Progress(b.world, 1, b.err, a.world) else Forward(steps, 2, b.world);
    var c := steps[2].execute(b.world);
    assert Forward(steps, 2, b.world)
        == if c.err.Some? then Progress(c.world, 2, c.err, b.world) else Forward(steps, 3, c.world);
  }

  lemma BackwardRun(steps: seq<Step<Services>>, world: Services)
    requires |steps| == 3
    ensures Backward(steps, 0, 0, world) == world
    ensures Backward(steps, 1, 0, world) == steps[0].compensate(world).world
    ensures Backward(steps, 2, 0, world) == steps[0].compensate(steps[1].compensate(world).world).world
  {
    assert Backward(steps, 1, 1, world) == world && Backward(steps, 2, 2, world) == world;
    assert Backward(steps, 2, 1, world) == steps[1].compensate(world).world;
  }

  /** What the inventory step leaves: nothing, or a reservation that its compensation, if it gets
      through, takes back, whatever became of payments and orders meanwhile. */
  lemma InventoryStepShape(w: Services, order: string, key: string, lines: seq<StockLine>, there: Wire, back: Wire,
                           payments: map<string, real>, orders: map<string, Orders.Order>)
    requires HoldsNothing(w, order, key)
    ensures var step := InventoryStep(order, key, lines, there, back);
            var o := step.execute(w);
            && o.world.payments == w.payments && o.world.orders == w.orders
            && (o.err.None? ==>
                  && order in o.world.inventory.reservations
                  && step.compensate(Services(o.world.inventory, payments, orders)).world
                     == Services(if back.RequestLost? then o.world.inventory else w.inventory, payments, orders))
  {
    hide Inventory.Reserve, Inventory.Release, HoldsNothing;
    ReserveThenRelease(w, order, key, lines);
    InventoryStepRuns(w, order, key, lines, there, back);
    InventoryStepReturns(order, key, lines, there, back,
                         Services(Inventory.Reserve(w.inventory, order, key, lines).state, payments, orders));
    hide InventoryStep;
  }

  lemma InventoryStepRuns(w: Services, order: string, key: string, lines: seq<StockLine>, there: Wire, back: Wire)
    ensures var o := InventoryStep(order, key, lines, there, back).execute(w);
            var r := Inventory.Reserve(w.inventory, order, key, lines);
            && o.world == (if there.RequestLost? then w else w.(inventory := r.state))
            && o.err == (if !there.Fine? then Some("inventory service error")
                         else if !r.ok then Some("inventory insufficient for order " + order) else None)
  {
    hide Inventory.Reserve;
  }

  lemma InventoryStepReturns(order: string, key: string, lines: seq<StockLine>, there: Wire, back: Wire, w: Services)
    ensures InventoryStep(order, key, lines, there, back).compensate(w).world
         == if back.RequestLost? then w else w.(inventory := Inventory.Release(w.inventory, order).state)
  {
    hide Inventory.Release;
  }

  lemma PaymentStepShape(w: Services, order: string, amount: real, there: Wire, back: Wire,
                         orders: map<string, Orders.Order>)
    requires order !in w.payments
    ensures var step := PaymentStep(order, amount, there, back);
            var o := step.execute(w);
            && o.world.inventory == w.inventory && o.world.orders == w.orders
            && (o.err.None? ==>
                  && order in o.world.payments
                  && step.compensate(Services(w.inventory, o.world.payments, orders)).world
                     == Services(w.inventory, if back.RequestLost? then o.world.payments else w.payments, orders))
  {
    hide Payment.Charge, Payment.Refund;
    ChargeThenRefund(w.payments, order, amount);
  }

  /** What the payment step makes of an unpaid order: it records the amount, or over a sound wire declines
      it if it exceeds five hundred. */
  lemma PaymentStepPays(w: Services, order: string, amount: real, there: Wire, back: Wire)
    requires order !in w.payments
    ensures var o := PaymentStep(order, amount, there, back).execute(w);
            && o.err == (if there != Fine then Some("payment service error")
                         else if amount > 500.0 then Some("payment declined for order " + order) else None)
            && o.world == (if there != RequestLost && amount <= 500.0
                           then w.(payments := w.payments[order := amount]) else w)
  {
  }

  /** What the inventory step makes of an order that holds nothing: a reservation of its lines under its
      key, the stock lower by what each product is asked for, or nothing. */
  lemma InventoryStepReserves(w: Services, order: string, key: string, lines: seq<StockLine>, there: Wire, back: Wire)
    requires HoldsNothing(w, order, key)
    ensures var o := InventoryStep(order, key, lines, there, back).execute(w);
            && o.err == (if there != Fine then Some("inventory service error")
                         else if AllStocked(w.inventory.stock, lines) then None
                         else Some("inventory insufficient for order " + order))
            && o.world.payments == w.payments && o.world.orders == w.orders
            && (if there != RequestLost && AllStocked(w.inventory.stock, lines)
                then && o.world.inventory.reservations
                        == w.inventory.reservations[order := Inventory.Reservation(key, lines)]
                     && forall p :: Inventory.Level(o.world.inventory.stock, p)
                                 == Wrap32(Inventory.Level(w.inventory.stock, p) - Quantity(lines, p))
                else o.world.inventory == w.inventory)
  {
    hide Inventory.Reserve, Quantity, Wrap32;
    var r := Inventory.Reserve(w.inventory, order, key, lines);
    InventoryStepRuns(w, order, key, lines, there, back);
    hide InventoryStep;
    Inventory.ReserveDeclinesExactly(w.inventory, order, key, lines);
    ReserveRecords(w.inventory, order, key, lines);
    forall p ensures Inventory.Level(Inventory.Deduct(w.inventory.stock, lines), p)
                  == Wrap32(Inventory.Level(w.inventory.stock, p) - Quantity(lines, p))
    {
      Inventory.DeductLevel(w.inventory.stock, lines, p);
    }
  }

  /** Each line names a product of the stock and asks for no more than its level. */
  predicate AllStocked(stock: map<string, int>, lines: seq<StockLine>) {
    forall i :: 0 <= i < |lines| ==> lines[i].product in stock && lines[i].quantity <= stock[lines[i].product]
  }

  lemma ReserveRecords(st: Inventory.State, order: string, key: string, lines: seq<StockLine>)
    requires key != "" ==> !Inventory.KeyInUse(st.reservations, key)
    ensures var r := Inventory.Reserve(st, order, key, lines);
            r.state == if r.ok then Inventory.State(Inventory.Deduct(st.stock, lines),
                                                    st.reservations[order := Inventory.Reservation(key, lines)])
                       else st
  {
    hide Inventory.Deduct, Inventory.CanReserve;
  }

  /** What the confirm step makes of an order: CONFIRMED, and nothing else; of an unknown one, an error. */
  lemma ConfirmStepConfirms(w: Services, order: string, there: Wire)
    ensures var o := ConfirmOrderStep(order, there).execute(w);
            && o.err == (if there == Fine && order in w.orders then None else Some("failed to confirm order gRPC"))
            && o.world.inventory == w.inventory && o.world.payments == w.payments
            && o.world.orders.Keys == w.orders.Keys
            && (forall x :: x in w.orders && x != order ==> o.world.orders[x] == w.orders[x])
            && (order in w.orders && there != RequestLost ==>
                  && o.world.orders[order].status == Orders.CONFIRMED
                  && o.world.orders[order].(status := w.orders[order].status) == w.orders[order])
            && (there == RequestLost ==> o.world == w)
  {
    ConfirmStepRuns(w, order, there);
    hide ConfirmOrderStep;
  }

  lemma ConfirmStepRuns(w: Services, order: string, there: Wire)
    ensures var o := ConfirmOrderStep(order, there).execute(w);
            var r := Orders.UpdateStatus(w.orders, order, Orders.CONFIRMED);
            && o.world == (if there.RequestLost? then w else w.(orders := r.GetOr(w.orders)))
            && o.err == (if there.Fine? && r.Some? then None else Some("failed to confirm order gRPC"))
  {
    hide Orders.UpdateStatus;
  }

  /** When an order saga succeeds, and what it leaves then: the order confirmed, paid its amount, its lines
      reserved under its key, and all else as it was. */
  lemma SagaSucceedsExactly(w: Services, order: string, key: string, lines: seq<StockLine>, amount: real, wires: Wires)
    requires HoldsNothing(w, order, key)
    ensures var p := Forward(SagaSteps(order, key, lines, amount, wires), 0, w);
            && (p.err.None? <==>
                  && wires.reserve == Fine && wires.charge == Fine && wires.confirm == Fine
                  && AllStocked(w.inventory.stock, lines) && amount <= 500.0 && order in w.orders)
            && (p.err.None? ==> Succeeded(w, p.world, order, key, lines, amount))
  {
    hide Forward, InventoryStep, PaymentStep, ConfirmOrderStep, HoldsNothing, AllStocked, Quantity, Wrap32;
    var steps := SagaSteps(order, key, lines, amount, wires);
    ForwardRun(steps, w);
    NothingIsHeld(w, order, key);
    var a := steps[0].execute(w);
    var b := steps[1].execute(a.world);
    InventoryStepReserves(w, order, key, lines, wires.reserve, wires.release);
    PaymentStepPays(a.world, order, amount, wires.charge, wires.refund);
    ConfirmStepConfirms(b.world, order, wires.confirm);
  }

  ghost predicate Succeeded(w: Services, w': Services, order: string, key: string, lines: seq<StockLine>,
                            amount: real) {
    && order in w.orders && w'.orders == w.orders[order := w.orders[order].(status := Orders.CONFIRMED)]
    && w'.payments == w.payments[order := amount]
    && w'.inventory.reservations == w.inventory.reservations[order := Inventory.Reservation(key, lines)]
    && forall p :: Inventory.Level(w'.inventory.stock, p)
                == Wrap32(Inventory.Level(w.inventory.stock, p) - Quantity(lines, p))
  }

  lemma ConfirmStepShape(w: Services, order: string, there: Wire)
    ensures var o := ConfirmOrderStep(order, there).execute(w);
            o.world.inventory == w.inventory && o.world.payments == w.payments
  {
    ConfirmStepRuns(w, order, there);
    hide ConfirmOrderStep, Orders.UpdateStatus;
  }

  lemma NothingIsHeld(w: Services, order: string, key: string)
    requires HoldsNothing(w, order, key)
    ensures order !in w.inventory.reservations && order !in w.payments
  {
  }

  /** In a failing saga of an order that holds nothing, every step that succeeds undoes itself, although
      ConfirmOrderStep never does: if it succeeds the saga does not fail. */
  lemma UndoneAlongSaga(w: Services, order: string, key: string, lines: seq<StockLine>, amount: real, wires: Wires)
    requires HoldsNothing(w, order, key)
    ensures var steps := SagaSteps(order, key, lines, amount, wires);
            Forward(steps, 0, w).err.Some? ==> UndoneAlong(steps, 0, w)
  {
    hide Forward, InventoryStep, PaymentStep, ConfirmOrderStep, HoldsNothing;
    var steps := SagaSteps(order, key, lines, amount, wires);
    ForwardRun(steps, w);
    NothingIsHeld(w, order, key);
    var a := steps[0].execute(w);
    InventoryStepShape(w, order, key, lines, wires.reserve, wires.release, w.payments, w.orders);
    CompensationErrs(order, key, lines, amount, wires);
    if a.err.None? && Forward(steps, 0, w).err.Some? {
      PaymentStepShape(a.world, order, amount, wires.charge, wires.refund, a.world.orders);
      var b := steps[1].execute(a.world);
      assert b.err.None? ==> UndoneAlong(steps, 2, b.world);
      assert UndoneAlong(steps, 1, a.world);
    }
  }

  /** A compensation whose request is lost says so. */
  lemma CompensationErrs(order: string, key: string, lines: seq<StockLine>, amount: real, wires: Wires)
    ensures var release := InventoryStep(order, key, lines, wires.reserve, wires.release).compensate;
            wires.release.RequestLost? ==> forall w :: release(w).err.Some?
    ensures var refund := PaymentStep(order, amount, wires.charge, wires.refund).compensate;
            wires.refund.RequestLost? ==> forall w :: refund(w).err.Some?
  {
  }

  /** So the orchestrator's promise is one about these very steps. */
  lemma SagaRestores(w: Services, order: string, key: string, lines: seq<StockLine>, amount: real, wires: Wires)
    requires HoldsNothing(w, order, key)
    ensures var steps := SagaSteps(order, key, lines, amount, wires);
            var p := Forward(steps, 0, w);
            p.err.Some? && BackwardOk(steps, p.done, 0, p.world) && p.world == p.before ==> Final(steps, w) == w
  {
    hide HoldsNothing, SagaSteps, Forward, BackwardOk, Final;
    var steps := SagaSteps(order, key, lines, amount, wires);
    var p := Forward(steps, 0, w);
    UndoneAlongSaga(w, order, key, lines, amount, wires);
    if p.err.Some? && BackwardOk(steps, p.done, 0, p.world) {
      LifoRestores(steps, w);
    }
  }

  /** And exactly: a failing saga of an order that holds nothing ends where it began if and only if the
      failing step had no effect and the compensations of the completed steps got through; their replies
      do not matter. */
  lemma SagaRestoresExactly(w: Services, order: string, key: string, lines: seq<StockLine>, amount: real, wires: Wires)
    requires HoldsNothing(w, order, key)
    ensures var steps := SagaSteps(order, key, lines, amount, wires);
            var p := Forward(steps, 0, w);
            p.err.Some? ==>
              (Final(steps, w) == w <==>
                && p.world == p.before
                && (p.done > 0 ==> !wires.release.RequestLost?)
                && (p.done > 1 ==> !wires.refund.RequestLost?))
  {
    hide Forward, Backward, InventoryStep, PaymentStep, ConfirmOrderStep, HoldsNothing;
    var steps := SagaSteps(order, key, lines, amount, wires);
    ForwardRun(steps, w);
    NothingIsHeld(w, order, key);
    var p := Forward(steps, 0, w);
    BackwardRun(steps, p.world);
    var a := steps[0].execute(w);
    if a.err.None? {
      var b := steps[1].execute(a.world);
      InventoryStepShape(w, order, key, lines, wires.reserve, wires.release, b.world.payments, b.world.orders);
      PaymentStepShape(a.world, order, amount, wires.charge, wires.refund, a.world.orders);
      if b.err.None? {
        var c := steps[2].execute(b.world);
        ConfirmStepShape(b.world, order, wires.confirm);
        PaymentStepShape(a.world, order, amount, wires.charge, wires.refund, c.world.orders);
        var paid := if wires.refund.RequestLost? then b.world.payments else a.world.payments;
        InventoryStepShape(w, order, key, lines, wires.reserve, wires.release, paid, c.world.orders);
      }
    }
  }

  // The order saga's log

  lemma StepNames(order: string, key: string, lines: seq<StockLine>, amount: real, wires: Wires)
    ensures Names(SagaSteps(order, key, lines, amount, wires))
         == ["Inventory_Reservation_Step", "Payment_Charge_Step", "Confirm_Order_Step"]
  {
  }

  lemma StepNamesDiffer()
    ensures Distinct(["Inventory_Reservation_Step", "Payment_Charge_Step", "Confirm_Order_Step"])
  {
    var a, b, c := "Inventory_Reservation_Step", "Payment_Charge_Step", "Confirm_Order_Step";
    assert a[0] == 'I' && b[0] == 'P' && c[0] == 'C';
  }

  /** Whatever rows of an order saga's log are left, they tell which of its steps stand exactly when one of
      them is the row of an end, or the Confirm's STEP_DONE, or the rollback's row for a failed Reserve. */
  lemma OrderRowsTellExactly(order: string, key: string, lines: seq<StockLine>, amount: real, wires: Wires,
                             rows: seq<Row>, pt: Point, err: string)
    requires Within(pt, 3)
    requires Subsequence(rows, RowsAt(Names(SagaSteps(order, key, lines, amount, wires)), pt, err))
    ensures TellingAnyway(Names(SagaSteps(order, key, lines, amount, wires)), rows) <==>
              || HasStatus(rows, FAILED) || HasStatus(rows, COMPLETED)
              || HasRow(rows, STEP_DONE, "Confirm_Order_Step")
              || HasRow(rows, COMPENSATING, "Inventory_Reservation_Step")
  {
    hide RowsAt, Subsequence, TellingAnyway, HasStatus, HasRow;
    StepNames(order, key, lines, amount, wires);
    StepNamesDiffer();
    SurvivorsTellExactly(Names(SagaSteps(order, key, lines, amount, wires)), rows, pt, err);
  }
}
