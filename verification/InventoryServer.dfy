/** The inventory server as the program runs it: fields updated in place, scans over Go maps in any
    order, and the cache probe made before the mutex is taken. */
module InventoryServer {
  import opened Options
  import opened Items
  import opened CacheKeys
  import Inventory

  class Server {
    var stock: map<string, int>
    var reservations: map<string, Inventory.Reservation>
    const cache: Cache

    ghost function State(): Inventory.State
      reads this
    {
      Inventory.State(stock, reservations)
    }

    ghost predicate Cached(operation: string, key: string)
      reads cache.store
    {
      Lookup(cache.store.entries, cache.service, operation, key).Some?
    }

    /** The cache writes asked for: one if there was an effect to remember. */
    ghost function Asked(operation: string, key: string, remember: bool): seq<string> {
      if remember then [GenerateKey(cache.service, operation, key)] else []
    }

    constructor (cache: Cache)
      ensures stock == map["prod_1" := 15, "prod_2" := 10, "prod_3" := 0]
      ensures reservations == map[] && this.cache == cache
    {
      stock := Inventory.INITIAL_STOCK;
      reservations := map[];
      this.cache := cache;
    }

    /** The whole RPC, with nothing between the probe and the locked section. */
    method Reserve(order: string, key: string, lines: seq<StockLine>) returns (ok: bool)
      modifies this, cache.store
      ensures (old(Cached("reserve", key)) && key != "" && ok
               && State() == old(State()) && unchanged(cache.store))
           || var reply := Inventory.Reserve(old(State()), order, key, lines);
              State() == reply.state && ok == reply.ok
              && cache.store.asked == old(cache.store.asked) + Asked("reserve", key, reply.effect && key != "")
              && (cache.store.entries != old(cache.store.entries) ==> reply.effect && Cached("reserve", key))
    {
      var hit := ReserveProbe(key);
      if hit {
        return true;
      }
      ok := ReserveLocked(order, key, lines);
    }

    method ReserveProbe(key: string) returns (hit: bool)
      ensures hit ==> key != "" && Cached("reserve", key)
    {
      hit := false;
      if key != "" {
        var val := cache.Get("reserve", key);
        hit := val.Some?;
      }
    }

    method ReserveLocked(order: string, key: string, lines: seq<StockLine>) returns (ok: bool)
      modifies this, cache.store
      ensures var reply := Inventory.Reserve(old(State()), order, key, lines);
              State() == reply.state && ok == reply.ok
              && cache.store.asked == old(cache.store.asked) + Asked("reserve", key, reply.effect && key != "")
              && (cache.store.entries == old(cache.store.entries)
                  || (reply.effect && key != ""
                      && cache.store.entries
                         == old(cache.store.entries)[GenerateKey(cache.service, "reserve", key) := Text("ok")]))
      ensures !ok <==>
                && (key == "" || forall o :: o in old(reservations) ==> old(reservations)[o].key != key)
                && exists i :: && 0 <= i < |lines|
                               && (lines[i].product !in old(stock) || old(stock)[lines[i].product] < lines[i].quantity)
      ensures ok && (key == "" || forall o :: o in old(reservations) ==> old(reservations)[o].key != key) ==>
                reservations == old(reservations)[order := Inventory.Reservation(key, lines)]
      ensures !ok || (key != "" && exists o :: o in old(reservations) && old(reservations)[o].key == key) ==>
                State() == old(State())
    {
      if key != "" {
        var todo := reservations.Keys;
        while todo != {}
          invariant todo <= reservations.Keys
          invariant forall o :: o in reservations && o !in todo ==> reservations[o].key != key
        {
          var o :| o in todo;
          if reservations[o].key == key {
            return true;
          }
          todo := todo - {o};
        }
      }
      for i := 0 to |lines|
        invariant Inventory.CanReserve(stock, lines[..i])
      {
        var line := lines[i];
        if line.product !in stock || stock[line.product] < line.quantity {
          return false;
        }
      }
      for i := 0 to |lines|
        invariant stock == Inventory.Deduct(old(stock), lines[..i])
        invariant reservations == old(reservations) && unchanged(cache.store)
      {
        assert lines[..i + 1][..i] == lines[..i];
        var line := lines[i];
        stock := stock[line.product := Wrap32(Inventory.Level(stock, line.product) - line.quantity)];
      }
      assert lines[..|lines|] == lines;
      reservations := reservations[order := Inventory.Reservation(key, lines)];
      if key != "" {
        var _ := cache.Set("reserve", key, Text("ok"));
      }
      ok := true;
    }

    method Release(order: string) returns (ok: bool)
      modifies this, cache.store
      ensures ok
      ensures (old(Cached("release", order)) && State() == old(State()) && unchanged(cache.store))
           || var reply := Inventory.Release(old(State()), order);
              State() == reply.state
              && cache.store.asked == old(cache.store.asked) + Asked("release", order, reply.effect)
              && (cache.store.entries != old(cache.store.entries) ==> reply.effect && Cached("release", order))
    {
      var hit := ReleaseProbe(order);
      if hit {
        return true;
      }
      ok := ReleaseLocked(order);
    }

    method ReleaseProbe(order: string) returns (hit: bool)
      ensures hit ==> Cached("release", order)
    {
      var val := cache.Get("release", order);
      hit := val.Some?;
    }

    method ReleaseLocked(order: string) returns (ok: bool)
      modifies this, cache.store
      ensures var reply := Inventory.Release(old(State()), order);
              State() == reply.state && ok == reply.ok
              && cache.store.asked == old(cache.store.asked) + Asked("release", order, reply.effect)
              && (cache.store.entries == old(cache.store.entries)
                  || (reply.effect
                      && cache.store.entries
                         == old(cache.store.entries)[GenerateKey(cache.service, "release", order) := Text("ok")]))
    {
      if order !in reservations {
        return true;
      }
      var lines := reservations[order].lines;
      for i := 0 to |lines|
        invariant stock == Inventory.Restore(old(stock), lines[..i])
        invariant reservations == old(reservations) && unchanged(cache.store)
      {
        assert lines[..i + 1][..i] == lines[..i];
        var line := lines[i];
        stock := stock[line.product := Wrap32(Inventory.Level(stock, line.product) + line.quantity)];
      }
      assert lines[..|lines|] == lines;
      reservations := reservations - {order};
      var _ := cache.Set("release", order, Text("ok"));
      ok := true;
    }
  }
}
