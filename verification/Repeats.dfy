/** What a repeated request is told of an order that has been confirmed. */
module Repeats {
  import opened Options
  import opened Items
  import opened Protocol
  import opened Scenarios
  import opened Duplicates
  import opened Requests
  import Inventory
  import Orders
  import Payment

  /** The cache loses its entry for the creation. */
  lemma Forgetting(s: Setting, r: Run, g: Stage) returns (r': Run, g': Stage)
    requires Reaches(s, r, g)
    ensures g' == g.(caches := g.caches.(create := map[])) && Reaches(s, r', g')
  {
    hide IsRun;
    var gone := Caches(g.caches.create, map[], {}, {}, {});
    g' := g.(caches := g.caches.(create := map[]));
    assert g.caches.create - gone.create.Keys == map[] && g.caches.reserve - gone.reserve.Keys == g.caches.reserve;
    r' := Extend(s, r, g, Forget(gone), g');
  }

  /** The locked section finds the order by its key. */
  lemma CreateFinds(s: Setting, r: Run, g: Stage, x: string) returns (r': Run, g': Stage)
    requires Reaches(s, r, g) && x in g.threads && g.status.Some? && g.threads[x].phase.CreateLock?
    requires g.threads[x].key == s.key != ""
    ensures g' == g.With(x, AfterCreate(g.threads[x], Answered(true, false), s.Info().(status := g.status.value)))
    ensures Reaches(s, r', g')
  {
    hide IsRun, Narrow, Items.Total;
    var w := r.worlds[|r.worlds| - 1];
    NarrowFits(s.items);
    NarrowOnce(Narrow(s.items));
    assert w.orders[ORDER].key == s.key;
    Orders.ScanOrderIsIrrelevant(w.orders, s.key, ORDER);
    g' := g.With(x, AfterCreate(g.threads[x], Answered(true, false), s.Info().(status := g.status.value)));
    r' := Moving(s, r, g, x, GOOD, g');
  }

  /** One request is served from beginning to end. */
  lemma Served(s: Setting, a: string) returns (r: Run, g: Stage)
    requires s.Servable() && s.key != "" && s.Total() <= Payment.LIMIT
    ensures Reaches(s, r, g) && g.threads.Keys == {a}
    ensures g.status == Some(Orders.CONFIRMED)
    ensures s.key in g.caches.create && g.caches.create[s.key] == s.Info()
  {
    hide Reaches, Setting.Servable, Setting.Total, Setting.Info;
    r, g := AloneCached(s, a);
    r, g := ReserveMisses(s, r, g, a);
    r, g := ReserveTakes(s, r, g, a);
    r, g := ChargeMisses(s, r, g, a);
    r, g := ChargeTakes(s, r, g, a);
    r, g := ConfirmWrites(s, r, g, a);
  }

  lemma AloneCached(s: Setting, a: string) returns (r: Run, g: Stage)
    requires s.Servable() && s.key != ""
    ensures Reaches(s, r, g) && g == Stage(map[a := Maker(s)], Some(Orders.PENDING), false, false,
                                           NO_CACHES.(create := map[s.key := s.Info()]))
  {
    hide Reaches, ValidRequest, Setting.Info, Inventory.CanReserve;
    r, g := Begin(s);
    r, g := Submitting(s, r, g, a, s.key, s.customer, s.items);
    r, g := CreateMisses(s, r, g, a);
    r, g := CreateMakes(s, r, g, a);
  }

  function Asker(s: Setting, customer: string, items: seq<Item>, status: Orders.Status): Thread {
    AfterCreate(NewThread(s.key, customer, items), Answered(true, false), s.Info().(status := status))
  }

  lemma AskCache(s: Setting, r: Run, g: Stage, b: string, customer: string, items: seq<Item>)
    returns (r': Run, g': Stage)
    requires Reaches(s, r, g) && b !in g.threads && s.key != "" && ValidRequest(customer, items)
    requires s.key in g.caches.create && g.caches.create[s.key] == s.Info()
    ensures Reaches(s, r', g') && g'.status == g.status
    ensures b in g'.threads && g'.threads[b] == Asker(s, customer, items, Orders.PENDING)
  {
    hide Reaches, ValidRequest, Narrow, Items.Total;
    r', g' := Submitting(s, r, g, b, s.key, customer, items);
    r', g' := CreateHits(s, r', g', b);
  }

  lemma AskService(s: Setting, r: Run, g: Stage, b: string, customer: string, items: seq<Item>)
    returns (r': Run, g': Stage)
    requires Reaches(s, r, g) && b !in g.threads && s.key != "" && ValidRequest(customer, items) && g.status.Some?
    ensures Reaches(s, r', g') && g'.status == g.status
    ensures b in g'.threads && g'.threads[b] == Asker(s, customer, items, g.status.value)
  {
    hide Reaches, ValidRequest, Setting.Info;
    r', g' := Forgetting(s, r, g);
    r', g' := Submitting(s, r', g', b, s.key, customer, items);
    r', g' := CreateMisses(s, r', g', b);
    r', g' := CreateFinds(s, r', g', b);
  }

  /** The second of two requests with a key, told by the cache or by the order service itself. */
  ghost predicate Tells(worlds: seq<World>, actions: seq<Action>, initial: map<string, int>, b: string,
                        status: Orders.Status) {
    && IsRun(worlds, actions, initial) && |worlds| > 0
    && var w := worlds[|worlds| - 1];
       && b in w.threads && w.threads[b].create == Answered(true, false) && w.threads[b].order.id in w.orders
       && w.orders[w.threads[b].order.id].status == Orders.CONFIRMED && w.threads[b].order.status == status
  }

  /** After the order has been confirmed, a repeated request is told CONFIRMED by the order service when
      the cache entry is gone, and PENDING by the cache when it is not. */
  lemma RepeatedRequestIsTold(q: Request, again: Request, initial: map<string, int>, a: string, b: string, gone: bool)
    returns (worlds: seq<World>, actions: seq<Action>)
    requires ValidRequest(q.customer, q.items) && ValidRequest(again.customer, again.items)
    requires q.key == again.key != "" && a != b && Inventory.Int32Stock(initial)
    requires Inventory.CanReserve(initial, q.Lines()) && Total(Narrow(q.items)) <= Payment.LIMIT
    ensures Tells(worlds, actions, initial, b, if gone then Orders.CONFIRMED else Orders.PENDING)
  {
    hide Reaches, ValidRequest, Inventory.CanReserve, Tells, Asker;
    var s := SettingOf(q, initial);
    var r, g := Served(s, a);
    if gone {
      r, g := AskService(s, r, g, b, again.customer, again.items);
    } else {
      r, g := AskCache(s, r, g, b, again.customer, again.items);
    }
    ToldAtEnd(s, r, g, b, again, if gone then Orders.CONFIRMED else Orders.PENDING);
    worlds, actions := r.worlds, r.actions;
  }

  lemma ToldAtEnd(s: Setting, r: Run, g: Stage, b: string, again: Request, status: Orders.Status)
    requires Reaches(s, r, g) && b in g.threads && g.status == Some(Orders.CONFIRMED)
    requires g.threads[b] == Asker(s, again.customer, again.items, status)
    ensures Tells(r.worlds, r.actions, s.initial, b, status)
  {
    hide IsRun, Setting.Total, Narrow;
  }
}
