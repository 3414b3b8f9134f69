/** What the services really did, in order: effective calls only, newest last. */
module History {
  import opened Items
  import Orders

  datatype Event =
    | Reserved(order: string, lines: seq<StockLine>)
    | Released(order: string)
    | Charged(order: string, amount: real)
    | Refunded(order: string)
    | Confirmed(order: string)
    | Cancelled(order: string)

  datatype History = Empty | Then(before: History, last: Event)

  /** The two resources a saga takes and may give back. */
  datatype Resource = Goods | Money

  predicate Takes(e: Event, r: Resource, o: string) {
    if r == Goods then e.Reserved? && e.order == o else e.Charged? && e.order == o
  }

  predicate Returns(e: Event, r: Resource, o: string) {
    if r == Goods then e == Released(o) else e == Refunded(o)
  }

  /** The last word about the resource was "taken". */
  predicate Holds(h: History, r: Resource, o: string) {
    h.Then? && (Takes(h.last, r, o) || (!Returns(h.last, r, o) && Holds(h.before, r, o)))
  }

  predicate EverTaken(h: History, r: Resource, o: string) {
    h.Then? && (Takes(h.last, r, o) || EverTaken(h.before, r, o))
  }

  predicate EverReturned(h: History, r: Resource, o: string) {
    h.Then? && (Returns(h.last, r, o) || EverReturned(h.before, r, o))
  }

  predicate EverConfirmed(h: History, o: string) {
    h.Then? && (h.last == Confirmed(o) || EverConfirmed(h.before, o))
  }

  predicate EverCancelled(h: History, o: string) {
    h.Then? && (h.last == Cancelled(o) || EverCancelled(h.before, o))
  }

  /** A Confirm came through after the cancellation it should have preceded. */
  predicate Overruled(h: History, o: string) {
    h.Then? && ((h.last == Confirmed(o) && EverCancelled(h.before, o)) || Overruled(h.before, o))
  }

  /** The status an order has after its status writes, the last of which wins. */
  function StatusOf(h: History, o: string): Orders.Status {
    if h.Empty? then Orders.PENDING
    else if h.last == Confirmed(o) then Orders.CONFIRMED
    else if h.last == Cancelled(o) then Orders.CANCELLED
    else StatusOf(h.before, o)
  }

  /** Takes and returns of one resource for one order alternate, starting with a take. */
  predicate Alternates(h: History, r: Resource, o: string) {
    h.Then? ==>
      && Alternates(h.before, r, o)
      && (Takes(h.last, r, o) ==> !Holds(h.before, r, o))
      && (Returns(h.last, r, o) ==> Holds(h.before, r, o))
  }

  function Takings(h: History, r: Resource, o: string): nat {
    if h.Empty? then 0 else Takings(h.before, r, o) + if Takes(h.last, r, o) then 1 else 0
  }

  function Returnings(h: History, r: Resource, o: string): nat {
    if h.Empty? then 0 else Returnings(h.before, r, o) + if Returns(h.last, r, o) then 1 else 0
  }

  /** What was done was done in the order of a saga: a charge after a reservation for the same order,
      a confirmation after a reservation and a charge. */
  predicate InSagaOrder(h: History) {
    h.Then? ==>
      && InSagaOrder(h.before)
      && (h.last.Charged? || h.last.Confirmed? ==> EverTaken(h.before, Goods, h.last.order))
      && (h.last.Confirmed? ==> EverTaken(h.before, Money, h.last.order))
  }

  lemma {:induction false} AlternationBalances(h: History, r: Resource, o: string)
    requires Alternates(h, r, o)
    ensures Takings(h, r, o) - Returnings(h, r, o) == if Holds(h, r, o) then 1 else 0
    ensures EverTaken(h, r, o) && !EverReturned(h, r, o) ==> Holds(h, r, o)
    ensures !EverReturned(h, r, o) ==> Returnings(h, r, o) == 0
  {
    if h.Then? {
      AlternationBalances(h.before, r, o);
    }
  }

  /** What one more event changes, for every order at once. */
  lemma OneMore(h: History, e: Event)
    ensures forall r, o :: Holds(Then(h, e), r, o) <==> Takes(e, r, o) || (!Returns(e, r, o) && Holds(h, r, o))
    ensures forall r, o :: EverTaken(Then(h, e), r, o) <==> Takes(e, r, o) || EverTaken(h, r, o)
    ensures forall r, o :: Alternates(Then(h, e), r, o)
                      <==> && Alternates(h, r, o)
                           && (Takes(e, r, o) ==> !Holds(h, r, o)) && (Returns(e, r, o) ==> Holds(h, r, o))
    ensures forall o :: EverConfirmed(Then(h, e), o) <==> e == Confirmed(o) || EverConfirmed(h, o)
  {
  }
}
