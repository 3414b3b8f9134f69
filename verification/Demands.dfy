/** What sets of requests demand of the stock, and the condition under which even a run without faults
    can break an order. */
module Demands {
  import opened Items
  import opened Protocol
  import opened Requests
  import MapSums
  import Overselling
  import Inventory
  import Payment

  // The exact condition

  /** Units of p that some requests ask for together. */
  ghost function Demand(requests: Batch, hs: set<string>, p: string): int
    requires hs <= requests.Keys
  {
    MapSums.Sum(map h | h in hs :: Quantity(requests[h].Lines(), p))
  }

  /** The stock once they have it. */
  ghost function Left(requests: Batch, hs: set<string>, initial: map<string, int>): map<string, int>
    requires hs <= requests.Keys
  {
    map p | p in initial :: initial[p] - Demand(requests, hs, p)
  }

  predicate Affordable(q: Request) {
    Total(Narrow(q.items)) <= Payment.LIMIT
  }

  function Affordables(requests: Batch, hs: set<string>): (part: set<string>)
    requires hs <= requests.Keys
    ensures part <= hs
  {
    set h | h in hs && Affordable(requests[h])
  }

  /** These requests make orders of their own, none of them under the given key, and the stock serves
      them all together, which leaves too little for the given lines. */
  ghost predicate Squeezes(requests: Batch, hs: set<string>, initial: map<string, int>, key: string,
                           lines: seq<StockLine>)
    requires hs <= requests.Keys
  {
    && (forall h :: h in hs ==> requests[h].key != key && Inventory.CanReserve(initial, requests[h].Lines()))
    && (forall h, h' :: h in hs && h' in hs && requests[h].key == requests[h'].key != "" ==> h == h')
    && (forall p :: p in initial ==> Demand(requests, hs, p) <= initial[p])
    && !Inventory.CanReserve(Left(requests, hs, initial), lines)
  }

  /** Once those over the limit have had to give back theirs, there is enough again. */
  ghost predicate Relieved(requests: Batch, hs: set<string>, initial: map<string, int>, lines: seq<StockLine>)
    requires hs <= requests.Keys
  {
    Inventory.CanReserve(Left(requests, Affordables(requests, hs), initial), lines)
  }

  ghost predicate SqueezedPair(requests: Batch, initial: map<string, int>, a: string, b: string, hs: set<string>) {
    && a in requests && b in requests && RiskyPair(requests, initial, a, b) && Affordable(requests[a])
    && hs <= requests.Keys
    && Squeezes(requests, hs, initial, requests[a].key, requests[a].Lines())
    && Relieved(requests, hs, initial, requests[a].Lines())
  }

  ghost predicate OverLimitPair(requests: Batch, initial: map<string, int>, a: string, b: string) {
    a in requests && b in requests && RiskyPair(requests, initial, a, b) && !Affordable(requests[a])
  }

  /** Two requests share a key and one of them could be served; and that one is over the limit, or others
      can squeeze it out of the stock for a while. */
  ghost predicate FaultlessRisk(requests: Batch, initial: map<string, int>) {
    || (exists a, b :: OverLimitPair(requests, initial, a, b))
    || (exists a, b, hs :: SqueezedPair(requests, initial, a, b, hs))
  }

  // Facts about demand

  /** The requests submitted so far. */
  function Asked(w: World): Batch {
    map id | id in w.threads :: Request(w.threads[id].key, w.threads[id].customer, w.threads[id].items)
  }

  lemma SubmittedIsAsked(w: World, requests: Batch)
    requires Submitted(w, requests)
    ensures Asked(w) == requests
  {
  }

  ghost predicate AllSane(requests: Batch) {
    forall q :: q in requests ==> requests[q].Sane()
  }

  lemma AskedIsSane(w: World)
    requires AllSane(Asked(w))
    ensures Overselling.SaneRequests(w)
  {
    hide DistinctAndSmall, ValidRequest;
    forall id | id in w.threads
      ensures DistinctAndSmall(w.threads[id].items)
    {
      assert Asked(w)[id].Sane();
    }
  }

  lemma QuantityIsNatural(q: Request, p: string)
    requires q.Sane()
    ensures 0 <= Quantity(q.Lines(), p)
  {
    Overselling.SaneItemsSaneLines(q.items);
    Overselling.PositiveLines(q.Lines(), p);
    hide DistinctAndSmall;
  }

  lemma DemandOfPart(requests: Batch, hs: set<string>, part: set<string>, p: string)
    requires part <= hs <= requests.Keys && AllSane(requests)
    ensures 0 <= Demand(requests, part, p) <= Demand(requests, hs, p)
  {
    hide Request.Sane, Request.Lines;
    forall h | h in hs ensures 0 <= Quantity(requests[h].Lines(), p) {
      QuantityIsNatural(requests[h], p);
    }
    MapSums.SumNonNegative(map h | h in part :: Quantity(requests[h].Lines(), p));
    MapSums.SumOfPart(map h | h in hs :: Quantity(requests[h].Lines(), p),
                      map h | h in part :: Quantity(requests[h].Lines(), p));
  }

  lemma SameDemand(requests: Batch, more: Batch, hs: set<string>, p: string)
    requires hs <= requests.Keys && hs <= more.Keys && forall h :: h in hs ==> more[h] == requests[h]
    ensures Demand(more, hs, p) == Demand(requests, hs, p)
  {
    hide Request.Lines, Quantity, MapSums.Sum;
    assert (map h | h in hs :: Quantity(more[h].Lines(), p)) == (map h | h in hs :: Quantity(requests[h].Lines(), p));
  }

  lemma LeftOfPart(requests: Batch, hs: set<string>, part: set<string>, initial: map<string, int>,
                   lines: seq<StockLine>)
    requires part <= hs <= requests.Keys && AllSane(requests)
    requires Inventory.CanReserve(Left(requests, hs, initial), lines)
    ensures Inventory.CanReserve(Left(requests, part, initial), lines)
  {
    hide Demand, AllSane;
    var less, more := Left(requests, hs, initial), Left(requests, part, initial);
    forall p ensures Inventory.Level(less, p) <= Inventory.Level(more, p) {
      DemandOfPart(requests, hs, part, p);
    }
    LessStockLessServed(less, more, lines);
  }

  /** More requests do not make a risk smaller. */
  lemma RiskGrows(requests: Batch, more: Batch, initial: map<string, int>)
    requires requests.Keys <= more.Keys && forall q :: q in requests ==> more[q] == requests[q]
    ensures FaultlessRisk(requests, initial) ==> FaultlessRisk(more, initial)
  {
    hide Inventory.CanReserve, Affordable, Demand;
    if a, b :| OverLimitPair(requests, initial, a, b) {
      assert OverLimitPair(more, initial, a, b);
    }
    if a, b, hs :| SqueezedPair(requests, initial, a, b, hs) {
      forall part | part <= hs
        ensures Left(more, part, initial) == Left(requests, part, initial)
      {
        forall p | p in initial ensures Demand(more, part, p) == Demand(requests, part, p) {
          SameDemand(requests, more, part, p);
        }
      }
      forall p | p in initial ensures Demand(more, hs, p) == Demand(requests, hs, p) {
        SameDemand(requests, more, hs, p);
      }
      assert Affordables(more, hs) == Affordables(requests, hs);
      assert SqueezedPair(more, initial, a, b, hs);
    }
  }

  /** If no cart that the initial stock can serve exceeds the limit, there is no risk without faults,
      whatever keys are shared: no charge is declined, so nothing is released. */
  lemma NoOverLimitNoRisk(requests: Batch, initial: map<string, int>)
    requires forall q :: q in requests && Inventory.CanReserve(initial, requests[q].Lines()) ==> Affordable(requests[q])
    ensures !FaultlessRisk(requests, initial)
  {
    hide Squeezes, Relieved, Inventory.CanReserve, Affordable, Request.Lines;
    forall a, b, hs
      ensures !SqueezedPair(requests, initial, a, b, hs)
    {
      if a in requests && hs <= requests.Keys && Squeezes(requests, hs, initial, requests[a].key, requests[a].Lines()) {
        NotRelieved(requests, hs, initial, requests[a].key, requests[a].Lines());
      }
    }
  }

  lemma NotRelieved(requests: Batch, hs: set<string>, initial: map<string, int>, key: string, lines: seq<StockLine>)
    requires forall q :: q in requests && Inventory.CanReserve(initial, requests[q].Lines()) ==> Affordable(requests[q])
    requires hs <= requests.Keys && Squeezes(requests, hs, initial, key, lines)
    ensures !Relieved(requests, hs, initial, lines)
  {
    hide Inventory.CanReserve, Affordable, Demand, Request.Lines;
    assert Affordables(requests, hs) == hs;
  }
}
