/** Exactly which sets of requests can break an order although nothing fails. */
module FaultlessRuns {
  import opened Items
  import opened History
  import opened Protocol
  import opened Invariants
  import opened Safety
  import opened Atomicity
  import opened Requests
  import opened Demands
  import opened Faultless
  import opened Continuations
  import Duplicates
  import Inventory
  import Overselling
  import Scenarios
  import Squeezing

  // The leak

  lemma LeakBegins(requests: Batch, initial: map<string, int>, a: string, b: string) returns (r: Scenarios.Run)
    requires a in requests && b in requests && RiskyPair(requests, initial, a, b) && !Affordable(requests[a])
    requires Inventory.Int32Stock(initial)
    requires forall id :: id in requests ==> ValidRequest(requests[id].customer, requests[id].items)
    ensures Going(r, initial) && Keeps(Now(r), Leak(Scenarios.ORDER))
    ensures Asked(Now(r)) == map[a := requests[a], b := requests[b]]
  {
    hide Init, Follows, FlawlessAction, ValidRequest, Inventory.CanReserve, Inventory.Deduct, Narrow, StockLines;
    hide Items.Total;
    hide Duplicates.Returned, Duplicates.Leaked, Inv, AllPlain, NothingReturned, NoneReleasing;
    var s := SettingOf(requests[a], initial);
    var customer, items := requests[b].customer, requests[b].items;
    var g;
    r, g := Scenarios.Begin(s);
    r, g := Duplicates.LeakFrom(s, r, g, a, b, customer, items, false);
    var w := Now(r);
    WhereItIs(r, initial);
    LeakStatus(w, initial, Scenarios.ORDER);
    LeakThreads(s, w, a, b, customer, items);
  }

  lemma LeakStatus(w: World, initial: map<string, int>, o: string)
    requires Inv(w, initial) && o in w.orders && w.orders[o].status.CANCELLED?
    ensures EverCancelled(w.history, o)
  {
    ConfirmedWasWritten(w.history, o);
    hide StatusOf;
  }

  lemma LeakThreads(s: Scenarios.Setting, w: World, a: string, b: string, customer: string, items: seq<Item>)
    requires a != b
    requires w.threads == map[a := Duplicates.Returned(s, false), b := Duplicates.Leaked(s, customer, items, false)]
    ensures NoneReleasing(w, Scenarios.ORDER)
    ensures Asked(w) == map[a := Request(s.key, s.customer, s.items), b := Request(s.key, customer, items)]
  {
    hide Scenarios.Setting.Info;
  }

  /** No fault is needed: two requests with a shared key, the first of them reservable but over the limit,
      among any others, every call delivered at once and the cache perfect: and still the cancelled order's
      goods stay reserved for ever. */
  lemma OverLimitLeaksWithoutFaults(requests: Batch, initial: map<string, int>, a: string, b: string)
    returns (worlds: seq<World>, actions: seq<Action>)
    requires a in requests && b in requests && RiskyPair(requests, initial, a, b) && !Affordable(requests[a])
    requires Inventory.Int32Stock(initial)
    requires forall id :: id in requests ==> ValidRequest(requests[id].customer, requests[id].items)
    ensures BadFlawlessRun(worlds, actions, initial, requests)
    ensures var w := worlds[|worlds| - 1];
            && Scenarios.ORDER in w.orders && w.orders[Scenarios.ORDER].status.CANCELLED?
            && Scenarios.ORDER in w.inventory.reservations
  {
    hide Init, Follows, Flawless, ValidRequest, Inventory.CanReserve, BadRun, AtRest;
    var goal := Leak(Scenarios.ORDER);
    var r := LeakBegins(requests, initial, a, b);
    var rest := requests.Keys - {a, b};
    assert Asked(Now(r)) == requests - rest;
    r := SubmitRest(r, initial, goal, requests, rest);
    r := RestOn(r, initial, goal);
    LeakedIsCancelled(r, initial, Scenarios.ORDER);
    EndOfRun(r, initial, requests, Scenarios.ORDER);
    worlds, actions := r.worlds, r.actions;
  }

  lemma LeakedIsCancelled(r: Scenarios.Run, initial: map<string, int>, o: string)
    requires Going(r, initial) && Keeps(Now(r), Leak(o))
    ensures Now(r).orders[o].status.CANCELLED? && !Atomic(Now(r), o)
  {
    hide Init, Follows, Flawless, OrdersOk, SagasOk, CreatorsOk, CallsOk, BooksOk, NoOverwrite, BackedOk;
    hide Inventory.Conserved;
    hide NoneReleasing, StatusOf;
    RunKeepsInv(r.worlds, r.actions, initial, |r.actions|);
    OverLimitNeverPaid(r.worlds, r.actions, initial, |r.actions|, o);
    ConfirmedWasWritten(Now(r).history, o);
  }

  // The exact condition

  /** A set of sane requests has a run without any fault that ends with an order in pieces if and only if
      two of them share a key, the stock could serve one of those, and that one is over the limit or can
      be squeezed out for a while by others. */
  lemma FaultlessBreaksExactly(requests: Batch, initial: map<string, int>)
    requires Overselling.SaneStart(initial) && AllSane(requests)
    ensures (exists worlds, actions :: BadFlawlessRun(worlds, actions, initial, requests))
         <==> FaultlessRisk(requests, initial)
  {
    hide OverLimitPair, SqueezedPair, BadFlawlessRun, AllSane;
    if a, b :| OverLimitPair(requests, initial, a, b) {
      OverLimitBreaks(requests, initial, a, b);
    } else if a, b, hs :| SqueezedPair(requests, initial, a, b, hs) {
      var worlds, actions, o := Squeezing.SqueezeBreaksWithoutFaults(requests, initial, a, b, hs);
    } else if worlds, actions :| BadFlawlessRun(worlds, actions, initial, requests) {
      NoRiskNoBadRun(requests, initial, worlds, actions);
    }
  }

  lemma OverLimitBreaks(requests: Batch, initial: map<string, int>, a: string, b: string)
    requires OverLimitPair(requests, initial, a, b) && Overselling.SaneStart(initial) && AllSane(requests)
    ensures exists worlds, actions :: BadFlawlessRun(worlds, actions, initial, requests)
  {
    hide BadFlawlessRun, ValidRequest, RiskyPair, Affordable, DistinctAndSmall;
    var worlds, actions := OverLimitLeaksWithoutFaults(requests, initial, a, b);
  }

  lemma NoRiskNoBadRun(requests: Batch, initial: map<string, int>, worlds: seq<World>, actions: seq<Action>)
    requires Overselling.SaneStart(initial) && AllSane(requests) && !FaultlessRisk(requests, initial)
    ensures !BadFlawlessRun(worlds, actions, initial, requests)
  {
    hide FaultlessRisk, AllSane, IsRun, Flawless, Quiescent, AllClean, AllAtomic, Submitted, SettledBooks;
    hide Overselling.SaneStart;
    if BadFlawlessRun(worlds, actions, initial, requests) {
      RunsEnd(worlds, actions, initial, requests);
      SubmittedIsAsked(worlds[|worlds| - 1], requests);
      FaultlessIsAtomic(worlds, actions, initial, |worlds| - 1);
    }
  }

  /** In particular, if no cart that the initial stock can serve is over the limit, every run without
      faults ends with every order all or nothing and the books settled, whatever keys are shared. */
  lemma WithinLimitIsAtomic(worlds: seq<World>, actions: seq<Action>, initial: map<string, int>, i: nat)
    requires IsRun(worlds, actions, initial) && i < |worlds| && Flawless(actions) && Overselling.SaneStart(initial)
    requires AllSane(Asked(worlds[i])) && Quiescent(worlds[i])
    requires forall q :: q in Asked(worlds[i]) && Inventory.CanReserve(initial, Asked(worlds[i])[q].Lines())
                     ==> Affordable(Asked(worlds[i])[q])
    ensures AllClean(worlds[i]) && AllAtomic(worlds[i]) && SettledBooks(worlds[i], initial)
  {
    hide FaultlessRisk, AllSane, IsRun, Flawless, Quiescent, AllClean, AllAtomic, SettledBooks, Overselling.SaneStart;
    hide Inventory.CanReserve, Request.Lines, Affordable, Asked;
    NoOverLimitNoRisk(Asked(worlds[i]), initial);
    FaultlessIsAtomic(worlds, actions, initial, i);
  }

  // The smallest squeeze

  function OneOf(key: string, price: real): Request {
    Request(key, "customer", [Item("p", 1, price)])
  }

  lemma CartOfOne(key: string, price: real)
    requires price > 0.0
    ensures var q := OneOf(key, price);
            q.Sane() && q.Lines() == [StockLine("p", 1)] && Total(Narrow(q.items)) == price
  {
    var items := [Item("p", 1, price)];
    NarrowOnce(items);
    assert StockLines(items)[0] == StockLine("p", 1);
    assert items[..0] == [];
    assert Total(items) == Total(items[..0]) + 1 as real * price;
  }

  /** One unit in stock, a cart of 1.0 submitted twice under one key, and another one of 501.0. */
  lemma SmallestSqueeze()
    ensures var requests := map["a" := OneOf("k", 1.0), "b" := OneOf("k", 1.0), "c" := OneOf("", 501.0)];
            && SqueezedPair(requests, map["p" := 1], "a", "b", {"c"})
            && exists worlds, actions :: BadFlawlessRun(worlds, actions, map["p" := 1], requests)
  {
    hide BadFlawlessRun, Request.Lines, Request.Sane, Narrow, Total, Demand, Inventory.CanReserve;
    var requests := map["a" := OneOf("k", 1.0), "b" := OneOf("k", 1.0), "c" := OneOf("", 501.0)];
    var initial := map["p" := 1];
    CartOfOne("k", 1.0);
    CartOfOne("", 501.0);
    OneUnitTaken(requests, initial);
    OneLineFits();
    assert Affordables(requests, {"c"}) == {};
    assert SqueezedPair(requests, initial, "a", "b", {"c"});
    var worlds, actions, o := Squeezing.SqueezeBreaksWithoutFaults(requests, initial, "a", "b", {"c"});
  }

  lemma OneUnitTaken(requests: Batch, initial: map<string, int>)
    requires "c" in requests && requests["c"].Lines() == [StockLine("p", 1)] && initial == map["p" := 1]
    ensures Demand(requests, {"c"}, "p") == 1
    ensures Left(requests, {"c"}, initial) == map["p" := 0] && Left(requests, {}, initial) == initial
  {
    hide Request.Lines;
    OneUnit();
    Squeezing.DemandOfOneMore(requests, {}, "c", "p");
    assert {} + {"c"} == {"c"};
    DemandOfNone(requests, "p");
  }

  lemma OneLineFits()
    ensures Inventory.CanReserve(map["p" := 1], [StockLine("p", 1)])
    ensures !Inventory.CanReserve(map["p" := 0], [StockLine("p", 1)])
  {
    assert [StockLine("p", 1)][0].quantity == 1;
  }

  lemma OneUnit()
    ensures Quantity([StockLine("p", 1)], "p") == 1
  {
    assert [StockLine("p", 1)][..0] == [];
  }

  lemma DemandOfNone(requests: Batch, p: string)
    ensures Demand(requests, {}, p) == 0
  {
    hide Request.Lines, Quantity;
  }
}
