/** Carrying a run without faults on: single moves, further requests, and everything brought to rest while
    what has become of one order stays as it is. That is a goal: either the goods of a cancelled order that
    nobody will release, or an order that has all it needs but for one saga about to cancel it. */
module Continuations {
  import opened Options
  import opened Items
  import opened History
  import opened Protocol
  import opened Invariants
  import opened Safety
  import opened Atomicity
  import opened Requests
  import opened Demands
  import opened Faultless
  import Inventory
  import Orders
  import Payment
  import Progress
  import Scenarios

  ghost predicate Going(r: Scenarios.Run, initial: map<string, int>) {
    IsRun(r.worlds, r.actions, initial) && Flawless(r.actions)
  }

  ghost function Now(r: Scenarios.Run): World
    requires |r.worlds| == |r.actions| + 1
  {
    r.worlds[|r.actions|]
  }

  /** What is true of every world on the way. */
  lemma WhereItIs(r: Scenarios.Run, initial: map<string, int>)
    requires Going(r, initial)
    ensures |r.worlds| == |r.actions| + 1 && Inv(Now(r), initial) && AllPlain(Now(r)) && NothingReturned(Now(r))
  {
    hide Inv, AllPlain, NothingReturned, Init, Follows, FlawlessAction;
    RunReturnsNothing(r.worlds, r.actions, initial, |r.actions|);
    RunKeepsInv(r.worlds, r.actions, initial, |r.actions|);
    RunStaysPlain(r.worlds, r.actions, initial, |r.actions|);
  }

  lemma GoOn(r: Scenarios.Run, initial: map<string, int>, a: Action) returns (r': Scenarios.Run)
    requires Going(r, initial) && Enabled(Now(r), a) && FlawlessAction(a)
    ensures Going(r', initial) && Now(r') == Apply(Now(r), a)
  {
    hide Apply, Enabled, Init, Follows, FlawlessAction;
    var worlds := RunGoesOn(r.worlds, r.actions, initial, a);
    r' := Scenarios.Run(worlds, r.actions + [a]);
  }

  /** An unfinished saga can always move on. */
  lemma MoveOn(r: Scenarios.Run, initial: map<string, int>, x: string) returns (r': Scenarios.Run, l: Luck)
    requires Going(r, initial) && x in Now(r).threads && !Final(Now(r).threads[x].phase)
    ensures Going(r', initial) && FlawlessAction(Move(x, l)) && Enabled(Now(r), Move(x, l))
    ensures Now(r') == MoveThread(Now(r), x, l)
  {
    hide MoveThread, Init, Follows, Flawless;
    var uuid := Progress.LongerThanAll(Now(r).orders.Keys);
    l := Luck(Delivered, true, true, uuid, None);
    r' := GoOn(r, initial, Move(x, l));
  }

  lemma SubmitOn(r: Scenarios.Run, initial: map<string, int>, x: string, q: Request) returns (r': Scenarios.Run)
    requires Going(r, initial) && x !in Now(r).threads && ValidRequest(q.customer, q.items)
    ensures Going(r', initial) && Now(r') == Put(Now(r), x, NewThread(q.key, q.customer, q.items))
  {
    hide Init, Follows, Flawless, ValidRequest;
    r' := GoOn(r, initial, Submit(x, q.key, q.customer, q.items));
  }

  // What is to stay as it is

  /** Leak: the goods of a cancelled order over the limit. Whole: an affordable order that has its goods
      and would be all right, but for one declined saga that is about to cancel it. */
  datatype Goal = Leak(order: string) | Whole(order: string, canceller: string)
  {
    function Waiting(): set<string> { if Whole? then {canceller} else {} }
  }

  ghost predicate Keeps(w: World, g: Goal) {
    && g.order in w.orders && g.order in w.inventory.reservations
    && match g
       case Leak(o) => OverLimit(w, o) && o in w.caches.release && EverCancelled(w.history, o) && NoneReleasing(w, o)
       case Whole(o, a) => Cheap(w, o) && w.orders[o].key != "" && Waits(w, o, a) && OthersNotDeclined(w, o, a)
  }

  predicate OverLimit(w: World, o: string) {
    o in w.orders && w.orders[o].total > Payment.LIMIT
  }

  ghost predicate NoneReleasing(w: World, o: string) {
    forall id :: id in w.threads && w.threads[id].HasSaga() && w.threads[id].order.id == o ==>
      !w.threads[id].phase.ReleaseLock?
  }

  ghost predicate Waits(w: World, o: string, a: string) {
    a in w.threads && w.threads[a].phase.Cancel? && w.threads[a].order.id == o
  }

  ghost predicate OthersNotDeclined(w: World, o: string, a: string) {
    forall id :: DeclinedFor(w, id, o) ==> id == a
  }

  lemma SubmitKeeps(w: World, g: Goal, id: string, t: Thread)
    requires Keeps(w, g) && id !in w.threads && t == NewThread(t.key, t.customer, t.items)
    ensures Keeps(Put(w, id, t), g)
  {
    var w' := Put(w, id, t);
    if g.Whole? {
      forall x | DeclinedFor(w', x, g.order) ensures x == g.canceller {
        assert DeclinedFor(w, x, g.order);
      }
    }
  }

  /** Entries of the release cache stay, and a saga that finds one goes on to cancel. */
  lemma LeakMoves(w: World, id: string, l: Luck, initial: map<string, int>, o: string)
    requires Plainly(w, id, l, initial) && Keeps(w, Leak(o))
    ensures Keeps(MoveThread(w, id, l), Leak(o))
  {
    hide Proceed, Perform, StoreOk, CreateCacheOk, SagasOk, CreatorsOk, CallsFit, BooksOk, NoOverwrite, BackedOk;
    hide StatusesOk;
    hide Inventory.Conserved;
    var t := w.threads[id];
    var e := Decide(w, t, l).effect;
    assert CallsFit(t) && Plain(t);
    Guards(w, id, l);
    ReturnersRelease(w, t, e, l);
    ReservationStays(w, id, e, l, o);
    PerformKeepsOrders(w, id, e, l);
    assert Perform(w, id, e, l).orders[o].(status := w.orders[o].status) == w.orders[o];
    PerformCancels(w, id, e, l);
    ReleaseEntryStays(w, id, e, l, o);
    PerformKeepsThreads(w, id, e, l);
    EnteringRelease(w, t, l);
    hide Allowed, Plain, AllPlain;
  }

  lemma ReturnersRelease(w: World, t: Thread, e: Effect, l: Luck)
    requires Allowed(w, t, e, l) && Plain(t)
    ensures e.ReturnStock? ==> t.phase.ReleaseLock? && t.HasSaga()
  {
  }

  lemma ReleaseEntryStays(w: World, id: string, e: Effect, l: Luck, o: string)
    requires id in w.threads && o in w.caches.release
    ensures o in Perform(w, id, e, l).caches.release
  {
    hide CreateFor, ReserveFor;
  }

  lemma EnteringRelease(w: World, t: Thread, l: Luck)
    requires FlawlessAction(Move("", l))
    ensures var t' := Proceed(w, t, l).thread;
            t'.phase.ReleaseLock? ==> (t.phase.ReleaseProbe? && t'.order == t.order && t.order.id !in w.caches.release)
  {
    hide CreateFor, ReserveFor, Reply, NoReply, Payment.Charge, Payment.Refund, Inventory.Release, Orders.UpdateStatus;
  }

  /** An affordable order keeps its goods. */
  lemma GoodsStay(w: World, id: string, l: Luck, initial: map<string, int>, o: string)
    requires Plainly(w, id, l, initial) && Cheap(w, o) && o in w.inventory.reservations
    ensures var w' := MoveThread(w, id, l);
            Cheap(w', o) && w'.orders[o].key == w.orders[o].key && o in w'.inventory.reservations
  {
    hide Decide, Perform, StoreOk, CreateCacheOk, SagasOk, CreatorsOk, CallsOk, BooksOk, NoOverwrite, BackedOk;
    hide StatusesOk;
    hide Inventory.Conserved, AllPlain, Allowed;
    var e := Decide(w, w.threads[id], l).effect;
    NoReturns(w, id, l, initial);
    ReservationStays(w, id, e, l, o);
    PerformKeepsOrders(w, id, e, l);
    assert Perform(w, id, e, l).orders[o].(status := w.orders[o].status) == w.orders[o];
  }

  /** While its reservation lives no saga of a keyed order is declined. */
  lemma NobodyDeclined(w: World, id: string, l: Luck, initial: map<string, int>, o: string, x: string)
    requires Plainly(w, id, l, initial) && o in w.inventory.reservations && o in w.orders && w.orders[o].key != ""
    requires DeclinedFor(MoveThread(w, id, l), x, o)
    ensures DeclinedFor(w, x, o)
  {
    hide Proceed, Perform, OrdersOk, CreatorsOk, CallsFit, BooksOk, NoOverwrite, BackedOk, StatusesOk, SagaFits;
    hide Inventory.Conserved, AllPlain;
    var t := w.threads[id];
    assert CallsFit(t);
    WhyDeclined(w, t, l);
    PerformKeepsThreads(w, id, Decide(w, t, l).effect, l);
    if x == id && !Declined(t.reserve) {
      DeclineNeedsFreeKey(w, id, o);
    }
    if Declined(t.reserve) { DeclinedHasSaga(t); }
  }

  lemma WholeMoves(w: World, id: string, l: Luck, initial: map<string, int>, o: string, a: string)
    requires Plainly(w, id, l, initial) && Keeps(w, Whole(o, a)) && id != a
    ensures Keeps(MoveThread(w, id, l), Whole(o, a))
  {
    hide Decide, Perform, Inv, AllPlain, DeclinedFor;
    GoodsStay(w, id, l, initial, o);
    PerformKeepsThreads(w, id, Decide(w, w.threads[id], l).effect, l);
    forall x | DeclinedFor(MoveThread(w, id, l), x, o)
      ensures x == a
    {
      NobodyDeclined(w, id, l, initial, o, x);
    }
  }

  lemma DeclineNeedsFreeKey(w: World, id: string, o: string)
    requires BooksOk(w) && SagasOk(w) && id in w.threads && w.threads[id].HasSaga() && w.threads[id].order.id == o
    requires o in w.inventory.reservations && o in w.orders && w.orders[o].key != ""
    ensures w.threads[id].key != "" && Inventory.KeyInUse(w.inventory.reservations, w.threads[id].key)
  {
    TotalsAgree(w, id);
  }

  lemma MoveKeepsGoal(w: World, id: string, l: Luck, initial: map<string, int>, g: Goal)
    requires Plainly(w, id, l, initial) && Keeps(w, g) && id !in g.Waiting()
    ensures Keeps(MoveThread(w, id, l), g)
  {
    hide Plainly, MoveThread, Keeps;
    match g
    case Leak(o) => { LeakMoves(w, id, l, initial, o); }
    case Whole(o, a) => { WholeMoves(w, id, l, initial, o, a); }
  }

  /** Everything but a waiting saga comes to rest. */
  lemma {:induction false} RestOn(r: Scenarios.Run, initial: map<string, int>, g: Goal) returns (r': Scenarios.Run)
    requires Going(r, initial) && Keeps(Now(r), g)
    ensures Going(r', initial) && Keeps(Now(r'), g) && Asked(Now(r')) == Asked(Now(r))
    ensures forall id :: id in Now(r').threads && id !in g.Waiting() ==> AtRest(Now(r').threads[id])
    decreases Progress.Measure(Now(r))
  {
    hide Init, Follows, FlawlessAction, Flawless, Inv, AllPlain, Keeps, Apply, Enabled, Goal.Waiting, AtRest;
    var w := Now(r);
    WhereItIs(r, initial);
    Progress.MeasureOfRest(w);
    if id :| id in w.threads && id !in g.Waiting() && !AtRest(w.threads[id]) {
      PlainRest(w, id);
      var l;
      r', l := MoveOn(r, initial, id);
      MoveKeepsGoal(w, id, l, initial, g);
      Progress.MoveLowersMeasure(w, id, l);
      AskedSame(w, id, l);
      Progress.MeasureOfRest(Now(r'));
      r' := RestOn(r', initial, g);
    } else {
      r' := r;
    }
  }

  lemma PlainRest(w: World, id: string)
    requires AllPlain(w) && id in w.threads && !AtRest(w.threads[id])
    ensures !Final(w.threads[id].phase)
  {
  }

  lemma AskedSame(w: World, id: string, l: Luck)
    requires Enabled(w, Move(id, l))
    ensures Asked(MoveThread(w, id, l)) == Asked(w)
  {
    hide MoveThread, Asked;
    MoveKeepsRequests(w, id, l);
    AskedGrows(w, MoveThread(w, id, l));
    SameKeys(w, MoveThread(w, id, l));
  }

  lemma SameKeys(w: World, w': World)
    requires w'.threads.Keys == w.threads.Keys
    requires forall q :: q in Asked(w) ==> q in Asked(w') && Asked(w')[q] == Asked(w)[q]
    ensures Asked(w') == Asked(w)
  {
  }

  lemma SubmitOne(r: Scenarios.Run, initial: map<string, int>, g: Goal, id: string, q: Request)
    returns (r': Scenarios.Run)
    requires Going(r, initial) && Keeps(Now(r), g) && id !in Now(r).threads && ValidRequest(q.customer, q.items)
    ensures Going(r', initial) && Keeps(Now(r'), g) && Asked(Now(r')) == Asked(Now(r))[id := q]
  {
    hide Init, Follows, Flawless, Keeps, ValidRequest;
    r' := SubmitOn(r, initial, id, q);
    SubmitKeeps(Now(r), g, id, NewThread(q.key, q.customer, q.items));
  }

  /** All further requests are submitted. */
  lemma {:induction false} SubmitRest(r: Scenarios.Run, initial: map<string, int>, g: Goal, requests: Batch,
                                      ids: set<string>)
    returns (r': Scenarios.Run)
    requires Going(r, initial) && Keeps(Now(r), g) && ids <= requests.Keys
    requires forall id :: id in ids ==> ValidRequest(requests[id].customer, requests[id].items)
    requires Asked(Now(r)) == requests - ids
    ensures Going(r', initial) && Keeps(Now(r'), g) && Asked(Now(r')) == requests
    decreases |ids|
  {
    hide Init, Follows, Flawless, Keeps, ValidRequest;
    if ids == {} {
      r' := r;
    } else {
      var id :| id in ids;
      assert id !in Asked(Now(r));
      r' := SubmitOne(r, initial, g, id, requests[id]);
      assert (requests - ids)[id := requests[id]] == requests - (ids - {id});
      r' := SubmitRest(r', initial, g, requests, ids - {id});
    }
  }

  // The end

  ghost predicate BadFlawlessRun(worlds: seq<World>, actions: seq<Action>, initial: map<string, int>, requests: Batch) {
    BadRun(worlds, actions, initial, requests) && Flawless(actions)
  }

  lemma EndOfRun(r: Scenarios.Run, initial: map<string, int>, requests: Batch, o: string)
    requires Going(r, initial) && Asked(Now(r)) == requests && AllAtRest(Now(r))
    requires o in Now(r).orders && !Atomic(Now(r), o)
    ensures BadFlawlessRun(r.worlds, r.actions, initial, requests)
  {
    hide Inv, Init, Follows, Flawless, AtRest, Plain, Atomic, Clean, Solvent, NothingReturned;
    WhereItIs(r, initial);
    var w := Now(r);
    forall id | id in w.threads
      ensures Clean(w.threads[id]) && w.threads[id].confirm != Landed(true)
    {
      PlainIsClean(w.threads[id]);
    }
    AskedIsSubmitted(w);
  }

  ghost predicate AllAtRest(w: World) {
    forall id :: id in w.threads ==> AtRest(w.threads[id])
  }

  lemma AskedIsSubmitted(w: World)
    ensures Submitted(w, Asked(w))
  {
  }
}
