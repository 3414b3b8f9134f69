/** The payment service: one recorded amount for each charged order. */
module Payment {

  const LIMIT := 500.0

  datatype Reply = Reply(payments: map<string, real>, ok: bool, effect: bool)

  /** The part of Charge that runs under the mutex. */
  function Charge(payments: map<string, real>, order: string, amount: real): Reply {
    if order in payments then Reply(payments, true, false)
    else if amount > LIMIT then Reply(payments, false, false)
    else Reply(payments[order := amount], true, true)
  }

  /** What Charge takes: amounts up to five hundred, from orders not yet charged, as they are. */
  lemma ChargeTakesExactly(payments: map<string, real>, order: string, amount: real)
    ensures var r := Charge(payments, order, amount);
            && (r.effect <==> order !in payments && amount <= 500.0)
            && (r.ok <==> order in payments || amount <= 500.0)
            && (r.effect ==> order in r.payments && r.payments[order] == amount)
            && (forall o :: o in payments ==> o in r.payments && r.payments[o] == payments[o])
            && (forall o :: o in r.payments && (o != order || !r.effect) ==> o in payments)
  {
  }

  /** The part of Refund that runs under the mutex. */
  function Refund(payments: map<string, real>, order: string): Reply {
    if order !in payments then Reply(payments, true, false)
    else Reply(payments - {order}, true, true)
  }
}
