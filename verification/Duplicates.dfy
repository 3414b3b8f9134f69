/** Two sagas on one order, the cache entries of the one met by the other. */
module Duplicates {
  import opened Options
  import opened Items
  import opened Protocol
  import opened Scenarios
  import Inventory
  import Orders
  import Payment

  /** The thread that made the order, and one that got it by its key. */
  function Maker(s: Setting): Thread {
    AfterCreate(NewThread(s.key, s.customer, s.items), Answered(true, true), s.Info())
  }

  function Joiner(s: Setting, customer: string, items: seq<Item>): Thread {
    AfterCreate(NewThread(s.key, customer, items), Answered(true, false), s.Info())
  }

  predicate Idle(g: Stage) {
    g == Stage(g.threads, None, false, false, NO_CACHES)
  }

  /** Two requests with one key: the first makes the order, the second gets it from the cache. */
  lemma TwoOnOneOrder(s: Setting, r: Run, g: Stage, a: string, b: string, customer: string, items: seq<Item>)
    returns (r': Run, g': Stage)
    requires Reaches(s, r, g) && Idle(g) && a !in g.threads && b !in g.threads && a != b
    requires s.key != "" && s.Servable() && ValidRequest(customer, items)
    ensures g' == Stage(g.threads[a := Maker(s)][b := Joiner(s, customer, items)], Some(Orders.PENDING), false, false,
                        NO_CACHES.(create := map[s.key := s.Info()]))
    ensures Works(s, g', a, ReserveProbe) && Works(s, g', b, ReserveProbe) && Restful(g')
    ensures Reaches(s, r', g') && (Flawless(r.actions) ==> Flawless(r'.actions))
  {
    hide Reaches, ValidRequest, Flawless, Setting.Info, Inventory.CanReserve;
    r', g' := TwoSubmitted(s, r, g, a, b, customer, items);
    r', g' := CreateMakes(s, r', g', a);
    r', g' := CreateHits(s, r', g', b);
    assert s.Info().id == ORDER by { InfoIsOrder(s); }
  }

  lemma InfoIsOrder(s: Setting)
    ensures s.Info().id == ORDER
  {
  }

  lemma TwoSubmitted(s: Setting, r: Run, g: Stage, a: string, b: string, customer: string, items: seq<Item>)
    returns (r': Run, g': Stage)
    requires Reaches(s, r, g) && Idle(g) && a !in g.threads && b !in g.threads && a != b
    requires ValidRequest(s.customer, s.items) && ValidRequest(customer, items)
    ensures g' == g.With(a, NewThread(s.key, s.customer, s.items).(phase := CreateLock))
                   .With(b, NewThread(s.key, customer, items))
    ensures Reaches(s, r', g') && (Flawless(r.actions) ==> Flawless(r'.actions))
  {
    hide Reaches, ValidRequest, FlawlessAction;
    hide Flawless;
    assert FlawlessAction(Submit(a, s.key, s.customer, s.items))
        && FlawlessAction(Submit(b, s.key, customer, items)) by {
      SubmittingIsFlawless(a, s.key, s.customer, s.items);
      SubmittingIsFlawless(b, s.key, customer, items);
    }
    r', g' := Submitting(s, r, g, a, s.key, s.customer, s.items);
    r', g' := CreateMisses(s, r', g', a);
    var t := g'.threads;
    assert FlawlessAction(Move(a, GOOD)) by { GoodIsFlawless(a); }
    r', g' := Submitting(s, r', g', b, s.key, customer, items);
    assert t == g.threads[a := NewThread(s.key, s.customer, s.items).(phase := CreateLock)];
  }

  lemma SubmittingIsFlawless(x: string, key: string, customer: string, items: seq<Item>)
    ensures FlawlessAction(Submit(x, key, customer, items))
  {
  }

  lemma GoodIsFlawless(x: string)
    ensures FlawlessAction(Move(x, GOOD))
  {
  }

  /** A Charge that fails: lost, or declined. */
  function Refusal(lost: bool): Call {
    if lost then Errored(false) else Answered(false, false)
  }

  /** A thread that took the goods, failed to charge, and asked for their release, with or without effect. */
  function Undone(t: Thread, lost: bool, effect: bool): Thread {
    AfterRelease(AfterCharge(AfterReserve(t, Answered(true, true)), Refusal(lost)), Answered(true, effect))
  }

  lemma ChargeFails(s: Setting, r: Run, g: Stage, x: string, lost: bool) returns (r': Run, g': Stage)
    requires Reaches(s, r, g) && Works(s, g, x, ChargeProbe)
    requires !g.paid && ORDER !in g.caches.charge && (!lost ==> s.Total() > Payment.LIMIT)
    ensures g' == g.With(x, AfterCharge(g.threads[x], Refusal(lost)))
    ensures Reaches(s, r', g') && (!lost && Flawless(r.actions) ==> Flawless(r'.actions))
  {
    hide Reaches, Flawless;
    if lost {
      r', g' := ChargeLost(s, r, g, x);
    } else {
      r', g' := ChargeMisses(s, r, g, x);
      r', g' := ChargeDeclines(s, r', g', x);
      assert g'.threads == g.With(x, AfterCharge(g.threads[x], Refusal(lost))).threads;
    }
  }

  function WithOrder(entries: map<string, string>, key: string): map<string, string> {
    if key != "" then entries[key := ORDER] else entries
  }

  /** A saga that takes the goods and fails to charge. */
  lemma TakeAndFail(s: Setting, r: Run, g: Stage, x: string, lost: bool) returns (r': Run, g': Stage)
    requires Reaches(s, r, g) && Works(s, g, x, ReserveLock) && s.Servable()
    requires !g.held && !g.paid && ORDER !in g.caches.charge && (!lost ==> s.Total() > Payment.LIMIT)
    ensures g' == g.With(x, AfterCharge(AfterReserve(g.threads[x], Answered(true, true)), Refusal(lost)))
                   .(held := true,
                     caches := g.caches.(reserve := WithOrder(g.caches.reserve, s.key)))
    ensures Works(s, g', x, ReleaseProbe)
    ensures Reaches(s, r', g') && (!lost && Flawless(r.actions) ==> Flawless(r'.actions))
  {
    hide Reaches, Flawless, Setting.Servable, Setting.Total, Setting.Info;
    r', g' := ReserveTakes(s, r, g, x);
    r', g' := ChargeFails(s, r', g', x, lost);
    assert g'.threads == g.threads[x := g'.threads[x]];
  }

  /** A saga whose Reserve misses the cache, takes the goods, and returns them when the Charge fails. */
  lemma TakeAndReturn(s: Setting, r: Run, g: Stage, x: string, lost: bool) returns (r': Run, g': Stage)
    requires Reaches(s, r, g) && Works(s, g, x, ReserveLock) && s.Servable()
    requires !g.held && !g.paid && ORDER !in g.caches.charge && ORDER !in g.caches.release
    requires !lost ==> s.Total() > Payment.LIMIT
    ensures g' == g.With(x, Undone(g.threads[x], lost, true))
                   .(caches := g.caches.(reserve := WithOrder(g.caches.reserve, s.key),
                                         release := g.caches.release + {ORDER}))
    ensures Reaches(s, r', g') && (!lost && Flawless(r.actions) ==> Flawless(r'.actions))
  {
    hide Reaches, Flawless, Setting.Servable, Setting.Total, Setting.Info;
    r', g' := TakeAndFail(s, r, g, x, lost);
    r', g' := ReleaseMisses(s, r', g', x);
    r', g' := ReleaseReturns(s, r', g', x);
    assert g'.threads == g.threads[x := g'.threads[x]];
  }

  /** A failed saga's release that is answered from the cache: what it took stays taken. */
  lemma TakeAndLeak(s: Setting, r: Run, g: Stage, x: string, lost: bool) returns (r': Run, g': Stage)
    requires Reaches(s, r, g) && Works(s, g, x, ReserveLock) && s.Servable() && s.key != ""
    requires !g.held && !g.paid && ORDER !in g.caches.charge && ORDER in g.caches.release
    requires !lost ==> s.Total() > Payment.LIMIT
    ensures g' == g.With(x, Undone(g.threads[x], lost, false))
                   .(held := true, caches := g.caches.(reserve := g.caches.reserve[s.key := ORDER]))
    ensures Reaches(s, r', g') && (!lost && Flawless(r.actions) ==> Flawless(r'.actions))
  {
    hide Reaches, Flawless, ValidRequest, Inventory.CanReserve;
    r', g' := TakeAndFail(s, r, g, x, lost);
    r', g' := ReleaseHits(s, r', g', x);
    assert g'.threads == g.threads[x := g'.threads[x]];
  }

  predicate Restful(g: Stage) {
    !g.held && !g.paid && ORDER !in g.caches.charge && ORDER !in g.caches.release && ORDER !in g.caches.refund
  }

  lemma BothMiss(s: Setting, r: Run, g: Stage, a: string, b: string) returns (r': Run, g': Stage)
    requires Reaches(s, r, g) && a != b && Works(s, g, a, ReserveProbe) && Works(s, g, b, ReserveProbe)
            && s.key !in g.caches.reserve
    ensures g' == g.With(a, g.threads[a].(phase := ReserveLock)).With(b, g.threads[b].(phase := ReserveLock))
    ensures Works(s, g', a, ReserveLock) && Works(s, g', b, ReserveLock) && (Restful(g) ==> Restful(g'))
    ensures Reaches(s, r', g') && (Flawless(r.actions) ==> Flawless(r'.actions))
  {
    hide Reaches, Flawless;
    r', g' := ReserveMisses(s, r, g, a);
    r', g' := ReserveMisses(s, r', g', b);
  }

  lemma TakeTwice(s: Setting, r: Run, g: Stage, a: string, b: string, lost: bool) returns (r': Run, g': Stage)
    requires Reaches(s, r, g) && a != b && Works(s, g, a, ReserveLock) && Works(s, g, b, ReserveLock) && Restful(g)
    requires s.Servable() && s.key != "" && (!lost ==> s.Total() > Payment.LIMIT)
    ensures g'.threads == g.threads
      [a := Undone(g.threads[a], lost, true)]
      [b := Undone(g.threads[b], lost, false)]
    ensures g'.status == g.status && g'.held && !g'.paid && Works(s, g', a, Cancel) && Works(s, g', b, Cancel)
    ensures ORDER in g'.caches.release
    ensures Reaches(s, r', g') && (!lost && Flawless(r.actions) ==> Flawless(r'.actions))
  {
    hide Reaches, Flawless, Setting.Servable;
    r', g' := TakeAndReturn(s, r, g, a, lost);
    r', g' := TakeAndLeak(s, r', g', b, lost);
  }

  lemma BothCancel(s: Setting, r: Run, g: Stage, a: string, b: string) returns (r': Run, g': Stage)
    requires Reaches(s, r, g) && a != b && Works(s, g, a, Cancel) && Works(s, g, b, Cancel)
    ensures g' == g.With(a, AfterCancel(g.threads[a], Answered(true, true)))
                   .With(b, AfterCancel(g.threads[b], Answered(true, true)))
                   .(status := Some(Orders.CANCELLED))
    ensures Reaches(s, r', g') && (Flawless(r.actions) ==> Flawless(r'.actions))
  {
    hide Reaches, Flawless;
    r', g' := CancelWrites(s, r, g, a);
    r', g' := CancelWrites(s, r', g', b);
  }

  /** The saga that returned the goods, and the one that lost track of them. */
  function Returned(s: Setting, lost: bool): Thread {
    AfterCancel(Undone(Maker(s).(phase := ReserveLock), lost, true), Answered(true, true))
  }

  function Leaked(s: Setting, customer: string, items: seq<Item>, lost: bool): Thread {
    AfterCancel(Undone(Joiner(s, customer, items).(phase := ReserveLock), lost, false), Answered(true, true))
  }

  /** The leak. Both sagas find no reserve entry; the first takes the goods, fails to charge and returns
      them; the second takes them again and fails as well, but its release is answered by the first
      one's entry. The cancelled order keeps its goods for ever. */
  lemma LeakFrom(s: Setting, r: Run, g: Stage, a: string, b: string, customer: string, items: seq<Item>, lost: bool)
    returns (r': Run, g': Stage)
    requires Reaches(s, r, g) && Idle(g) && a !in g.threads && b !in g.threads && a != b
    requires s.key != "" && s.Servable() && ValidRequest(customer, items)
    requires !lost ==> s.Total() > Payment.LIMIT
    ensures Reaches(s, r', g') && (!lost && Flawless(r.actions) ==> Flawless(r'.actions))
    ensures g'.threads == g.threads[a := Returned(s, lost)][b := Leaked(s, customer, items, lost)]
    ensures g'.status == Some(Orders.CANCELLED) && g'.held && ORDER in g'.caches.release
  {
    hide Reaches, Flawless, ValidRequest, Setting.Servable, Setting.Total, Setting.Info, Refusal, Works, Restful, Maker;
    hide Joiner;
    hide AfterReserve, AfterCharge, AfterRelease, AfterCancel;
    r', g' := TwoOnOneOrder(s, r, g, a, b, customer, items);
    r', g' := BothMiss(s, r', g', a, b);
    r', g' := TakeTwice(s, r', g', a, b, lost);
    r', g' := BothCancel(s, r', g', a, b);
  }

  /** A thread that was told of a reservation, charged and confirmed. */
  function Misled(t: Thread): Thread {
    AfterConfirm(AfterCharge(AfterReserve(t, Answered(true, false)), Answered(true, true)), Answered(true, true))
  }

  /** A saga that is told from the cache that the goods are reserved, charges for them and confirms. */
  lemma PromiseAndConfirm(s: Setting, r: Run, g: Stage, x: string, other: string) returns (r': Run, g': Stage)
    requires Reaches(s, r, g) && x != other && Works(s, g, x, ReserveProbe) && Works(s, g, other, Cancel)
            && s.key != "" && s.key in g.caches.reserve
    requires !g.paid && ORDER !in g.caches.charge && s.Total() <= Payment.LIMIT
    ensures g'.threads == g.threads[x := Misled(g.threads[x])]
    ensures g'.status == Some(Orders.CONFIRMED) && g'.held == g.held && g'.paid && Works(s, g', other, Cancel)
    ensures Reaches(s, r', g')
  {
    hide Reaches, Flawless, Setting.Total, Setting.Info;
    r', g' := ReserveHits(s, r, g, x);
    r', g' := ChargeMisses(s, r', g', x);
    r', g' := ChargeTakes(s, r', g', x);
    r', g' := ConfirmWrites(s, r', g', x);
  }

  lemma ReturnBeforePromise(s: Setting, r: Run, g: Stage, a: string, b: string, customer: string, items: seq<Item>)
    returns (r': Run, g': Stage)
    requires Reaches(s, r, g) && Idle(g) && a !in g.threads && b !in g.threads && a != b
    requires s.key != "" && s.Servable() && ValidRequest(customer, items)
    ensures Reaches(s, r', g') && !g'.held && !g'.paid && ORDER !in g'.caches.charge && s.key in g'.caches.reserve
            && g'.status.Some?
    ensures g'.threads == g.threads
      [a := Undone(Maker(s).(phase := ReserveLock), true, true)]
      [b := Joiner(s, customer, items)]
    ensures Works(s, g', a, Cancel) && Works(s, g', b, ReserveProbe)
  {
    hide Reaches, Flawless, ValidRequest, Setting.Info, Inventory.CanReserve;
    r', g' := TwoOnOneOrder(s, r, g, a, b, customer, items);
    r', g' := ReserveMisses(s, r', g', a);
    r', g' := TakeAndReturn(s, r', g', a, true);
  }

  /** The saga that was promised goods. */
  function Promised(s: Setting, customer: string, items: seq<Item>): Thread {
    Misled(Joiner(s, customer, items))
  }

  /** The false promise. The second saga is told from the cache that the goods are reserved, when they
      have been returned; it charges for them and confirms the order; the first one then cancels it. */
  lemma FalsePromise(s: Setting, r: Run, g: Stage, a: string, b: string, customer: string, items: seq<Item>)
    returns (r': Run, g': Stage, w: World)
    requires Reaches(s, r, g) && Idle(g) && a !in g.threads && b !in g.threads && a != b
    requires s.key != "" && s.Servable() && ValidRequest(customer, items) && s.Total() <= Payment.LIMIT
    ensures Reaches(s, r', g') && w in r'.worlds
    ensures ORDER in w.orders && w.orders[ORDER].status.CONFIRMED? && ORDER !in w.inventory.reservations
    ensures g'.threads == g.threads[a := Returned(s, true)][b := Promised(s, customer, items)]
    ensures g'.status == Some(Orders.CANCELLED) && !g'.held && g'.paid
  {
    hide IsRun, Flawless, ValidRequest, Setting.Servable, Setting.Total, Setting.Info, Setting.Lines, Refusal, Works;
    hide AfterReserve, AfterCharge, AfterRelease, AfterCancel, AfterConfirm, Maker, Joiner;
    r', g' := ReturnBeforePromise(s, r, g, a, b, customer, items);
    r', g' := PromiseAndConfirm(s, r', g', b, a);
    w := r'.worlds[|r'.worlds| - 1];
    ghost var n := |r'.worlds| - 1;
    r', g' := CancelWrites(s, r', g', a);
    assert r'.worlds[n] == w;
  }

  /** A thread that took goods and money. */
  function Taken(t: Thread): Thread {
    AfterCharge(AfterReserve(t.(phase := ReserveLock), Answered(true, true)), Answered(true, true))
  }

  lemma TakeAll(s: Setting, r: Run, g: Stage, x: string) returns (r': Run, g': Stage)
    requires Reaches(s, r, g) && Works(s, g, x, ReserveProbe) && s.Servable() && s.key !in g.caches.reserve
    requires Restful(g) && s.Total() <= Payment.LIMIT
    ensures g'.threads == g.threads[x := Taken(g.threads[x])]
    ensures g'.status == g.status && g'.held && g'.paid
    ensures g'.caches.release == g.caches.release && g'.caches.refund == g.caches.refund
    ensures ORDER in g'.caches.charge && (s.key != "" ==> s.key in g'.caches.reserve)
    ensures Reaches(s, r', g')
  {
    hide Reaches, Flawless, Setting.Servable, Setting.Total, Setting.Info;
    r', g' := ReserveMisses(s, r, g, x);
    r', g' := ReserveTakes(s, r', g', x);
    r', g' := ChargeMisses(s, r', g', x);
    r', g' := ChargeTakes(s, r', g', x);
  }

  /** A thread whose Confirm hangs, and which has undone the rest. */
  function GivenUp(t: Thread): Thread {
    AfterRelease(AfterRefund(AfterConfirm(t, Hanging), Answered(true, true)), Answered(true, true))
  }

  /** The Confirm hangs; everything is undone. */
  lemma UndoAll(s: Setting, r: Run, g: Stage, x: string) returns (r': Run, g': Stage)
    requires Reaches(s, r, g) && Works(s, g, x, Confirm) && s.Servable()
    requires g.held && g.paid && ORDER !in g.caches.release && ORDER !in g.caches.refund
    ensures g'.threads == g.threads[x := GivenUp(g.threads[x])]
    ensures g'.status == g.status && !g'.held && !g'.paid
    ensures Reaches(s, r', g')
  {
    hide Reaches, Flawless, Setting.Servable, Setting.Info;
    r', g' := ConfirmHangs(s, r, g, x);
    r', g' := RefundMisses(s, r', g', x);
    r', g' := RefundReturns(s, r', g', x);
    r', g' := ReleaseMisses(s, r', g', x);
    r', g' := ReleaseReturns(s, r', g', x);
  }

  lemma Alone(s: Setting, a: string) returns (r: Run, g: Stage)
    requires s.Servable()
    ensures Reaches(s, r, g) && g.threads == map[a := Maker(s)] && g.status == Some(Orders.PENDING)
    ensures Restful(g) && g.caches.reserve == map[]
  {
    hide Reaches, Flawless, ValidRequest, Setting.Info, Inventory.CanReserve;
    r, g := Begin(s);
    r, g := Submitting(s, r, g, a, s.key, s.customer, s.items);
    r, g := CreateMisses(s, r, g, a);
    r, g := CreateMakes(s, r, g, a);
  }

  /** The saga whose Confirm went through when it had given up. */
  function Overtaken(s: Setting): Thread {
    AfterCancel(GivenUp(Taken(Maker(s))), Answered(true, true)).(confirm := Landed(true))
  }

  /** The late Confirm, which needs no second saga. Told of an error, the saga returns goods and money and
      the order is cancelled; then the Confirm that was hanging goes through. */
  lemma LateConfirm(s: Setting, a: string) returns (r: Run, g: Stage)
    requires s.Servable() && s.Total() <= Payment.LIMIT
    ensures Reaches(s, r, g) && g.threads == map[a := Overtaken(s)]
    ensures g.status == Some(Orders.CONFIRMED) && !g.held && !g.paid
  {
    hide Reaches, Flawless, Setting.Servable, Setting.Total, Setting.Info;
    r, g := Alone(s, a);
    r, g := TakeAll(s, r, g, a);
    r, g := UndoAll(s, r, g, a);
    r, g := CancelWrites(s, r, g, a);
    r, g := ConfirmLands(s, r, g, a);
  }

  /** A thread that has given back its money, its Confirm having been lost. */
  function PaidBack(t: Thread): Thread {
    AfterRefund(AfterConfirm(t, Errored(false)), Answered(true, true))
  }

  lemma PayBack(s: Setting, r: Run, g: Stage, x: string) returns (r': Run, g': Stage)
    requires Reaches(s, r, g) && Works(s, g, x, Confirm) && g.paid && ORDER !in g.caches.refund
    ensures g' == g.With(x, PaidBack(g.threads[x]))
                   .(paid := false, caches := g.caches.(refund := g.caches.refund + {ORDER}))
    ensures Reaches(s, r', g')
  {
    hide Reaches, Flawless, Setting.Total, Setting.Info;
    r', g' := ConfirmLost(s, r, g, x);
    r', g' := RefundMisses(s, r', g', x);
    r', g' := RefundReturns(s, r', g', x);
    assert g'.threads == g.threads[x := g'.threads[x]];
  }

  /** A thread that was told, twice from the cache, that goods and money are taken. */
  function ToldTwice(t: Thread): Thread {
    AfterCharge(AfterReserve(t, Answered(true, false)), Answered(true, false))
  }

  lemma HitTwice(s: Setting, r: Run, g: Stage, x: string) returns (r': Run, g': Stage)
    requires Reaches(s, r, g) && Works(s, g, x, ReserveProbe) && s.key != ""
    requires s.key in g.caches.reserve && ORDER in g.caches.charge
    ensures g' == g.With(x, ToldTwice(g.threads[x])) && Reaches(s, r', g')
  {
    hide Reaches, Flawless, Setting.Info;
    r', g' := ReserveHits(s, r, g, x);
    r', g' := ChargeHits(s, r', g', x);
    assert g'.threads == g.threads[x := g'.threads[x]];
  }

  /** The second saga is told from the cache that the goods are reserved, when they have been returned. */
  lemma StaleReserve(s: Setting, r: Run, g: Stage, a: string, b: string, customer: string, items: seq<Item>)
    returns (r': Run, g': Stage)
    requires Reaches(s, r, g) && Idle(g) && a !in g.threads && b !in g.threads && a != b
    requires s.key != "" && s.Servable() && ValidRequest(customer, items)
    ensures Reaches(s, r', g') && !g'.held
    ensures g'.threads == g.threads[a := Undone(Maker(s).(phase := ReserveLock), true, true)]
                                   [b := AfterReserve(Joiner(s, customer, items), Answered(true, false))]
  {
    hide Reaches, ValidRequest, Setting.Servable, Setting.Info, Undone, Maker, Joiner, Works;
    r', g' := ReturnBeforePromise(s, r, g, a, b, customer, items);
    r', g' := ReserveHits(s, r', g', b);
  }

  /** And that the money is taken, when it has been refunded. */
  lemma StaleCharge(s: Setting, r: Run, g: Stage, a: string, b: string, customer: string, items: seq<Item>)
    returns (r': Run, g': Stage)
    requires Reaches(s, r, g) && Idle(g) && a !in g.threads && b !in g.threads && a != b
    requires s.key != "" && s.Servable() && ValidRequest(customer, items) && s.Total() <= Payment.LIMIT
    ensures Reaches(s, r', g') && !g'.paid
    ensures g'.threads == g.threads[a := PaidBack(Taken(Maker(s)))][b := ToldTwice(Joiner(s, customer, items))]
  {
    hide Reaches, ValidRequest, Setting.Servable, Setting.Info, Setting.Total, PaidBack, ToldTwice;
    r', g' := TwoOnOneOrder(s, r, g, a, b, customer, items);
    var told := g'.threads[b];
    r', g' := TakeAll(s, r', g', a);
    assert g'.threads[b] == told;
    r', g' := PayBack(s, r', g', a);
    r', g' := HitTwice(s, r', g', b);
  }
}
