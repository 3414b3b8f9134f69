/** The order server as the program runs it. */
module OrderServer {
  import opened Options
  import opened Items
  import opened CacheKeys
  import opened Orders

  /** Every cached order is a copy of a stored one, up to a status written later. */
  ghost predicate CacheAgrees(entries: map<string, Value>, orders: map<string, Order>) {
    forall key {:trigger Lookup(entries, "order", "create", key)} ::
      Lookup(entries, "order", "create", key).Some? ==>
        var hit := Lookup(entries, "order", "create", key).value;
        && hit.OrderJson?
        && hit.id in orders
        && orders[hit.id].key == key
        && orders[hit.id].(status := PENDING) == hit.order
  }

  lemma CachingKeepsAgreement(entries: map<string, Value>, orders: map<string, Order>, uuid: string, o: Order)
    requires CacheAgrees(entries, orders) && uuid !in orders && o.status == PENDING
    ensures CacheAgrees(entries, orders[uuid := o])
    ensures CacheAgrees(entries[GenerateKey("order", "create", o.key) := OrderJson(uuid, o)], orders[uuid := o])
  {
    var after := entries[GenerateKey("order", "create", o.key) := OrderJson(uuid, o)];
    forall k ensures Lookup(after, "order", "create", k)
                  == if k == o.key then Some(OrderJson(uuid, o)) else Lookup(entries, "order", "create", k)
    {
      NamespacesAreSeparate(entries, "order", "create", o.key, OrderJson(uuid, o), "order", "create", k);
    }
  }

  /** Writes of the other services, and of other operations, never disturb the cached orders. */
  lemma ForeignWritesKeepAgreement(entries: map<string, Value>, orders: map<string, Order>,
                                   service: string, operation: string, key: string, val: Value)
    requires CacheAgrees(entries, orders)
    requires ColonFree(service) && ColonFree(operation) && (service != "order" || operation != "create")
    ensures CacheAgrees(entries[GenerateKey(service, operation, key) := val], orders)
  {
    var after := entries[GenerateKey(service, operation, key) := val];
    forall k ensures Lookup(after, "order", "create", k) == Lookup(entries, "order", "create", k)
    {
      NamespacesAreSeparate(entries, service, operation, key, val, "order", "create", k);
    }
  }

  /** Nor does the running out of any times-to-live. */
  lemma ExpiryKeepsAgreement(entries: map<string, Value>, orders: map<string, Order>, gone: set<string>)
    requires CacheAgrees(entries, orders)
    ensures CacheAgrees(entries - gone, orders)
  {
    forall k | Lookup(entries - gone, "order", "create", k).Some?
      ensures Lookup(entries - gone, "order", "create", k) == Lookup(entries, "order", "create", k)
    {
    }
  }

  /** Line by line the same product, price and, as far as 32 bits hold it, quantity. */
  predicate SameLines(sent: seq<Item>, items: seq<Item>) {
    && |sent| == |items|
    && forall i :: 0 <= i < |sent| ==>
         && sent[i].product == items[i].product && sent[i].price == items[i].price
         && (-TWO_31 <= items[i].quantity < TWO_31 ==> sent[i].quantity == items[i].quantity)
  }

  class Server {
    var orders: map<string, Order>
    const cache: Cache

    ghost predicate Valid()
      reads this, cache, cache.store
    {
      UniqueKeys(orders) && cache.service == "order" && CacheAgrees(cache.store.entries, orders)
    }

    constructor (cache: Cache)
      requires cache.service == "order" && cache.store.entries == map[]
      ensures Valid() && orders == map[] && this.cache == cache
    {
      orders := map[];
      this.cache := cache;
    }

    /** The entry that decides a cached reply, decoded; the decoding error cannot occur. */
    method CreateProbe(key: string) returns (hit: Option<Info>)
      requires Valid()
      ensures hit.Some? ==>
        var id := hit.value.id;
        key != "" && id in orders && orders[id].key == key
        && hit.value == ToInfo(id, orders[id].(status := PENDING))
        && hit.value.status == PENDING && Lookup(cache.store.entries, "order", "create", key).Some?
    {
      hit := None;
      if key != "" {
        var val := cache.Get("create", key);
        if val.Some? {
          hit := Some(ToInfo(val.value.id, val.value.order));
        }
      }
    }

    method CreateLocked(uuid: string, customer: string, key: string, items: seq<Item>) returns (info: Info)
      requires Valid() && uuid !in orders
      modifies this, cache.store
      ensures Valid()
      ensures var reply := Create(old(orders), uuid, customer, key, items);
              && orders == reply.orders && info == reply.info
              && cache.store.asked == old(cache.store.asked)
                   + (if reply.effect && key != "" then [GenerateKey("order", "create", key)] else [])
              && (cache.store.entries == old(cache.store.entries)
                  || (reply.effect && key != ""
                      && cache.store.entries
                         == old(cache.store.entries)[GenerateKey("order", "create", key) :=
                              OrderJson(uuid, FromRequest(customer, key, items))]))
      ensures forall id :: id in old(orders) && old(orders)[id].key == key != "" ==>
                && orders == old(orders) && info.id == id && info.status == orders[id].status
                && info.customer == orders[id].customer && info.total == orders[id].total
                && SameLines(info.items, orders[id].items)
      ensures (key == "" || forall id :: id in old(orders) ==> old(orders)[id].key != key) ==>
                && info.id == uuid && info.status == PENDING && info.customer == customer
                && info.total == Total(items) && SameLines(info.items, items)
                && orders.Keys == old(orders).Keys + {uuid}
                && (forall id :: id in old(orders) ==> orders[id] == old(orders)[id])
                && orders[uuid].key == key && orders[uuid].status == PENDING && orders[uuid].items == items
                && orders[uuid].customer == customer && orders[uuid].total == Total(items)
    {
      if key != "" {
        var todo := orders.Keys;
        while todo != {}
          invariant todo <= orders.Keys
          invariant forall o :: o in orders && o !in todo ==> orders[o].key != key
        {
          var o :| o in todo;
          if orders[o].key == key {
            ScanOrderIsIrrelevant(orders, key, o);
            return ToInfo(o, orders[o]);
          }
          todo := todo - {o};
        }
      }
      var total := CalculateTotal(items);
      var o := Order(customer, items, total, PENDING, key);
      CachingKeepsAgreement(cache.store.entries, orders, uuid, o);
      orders := orders[uuid := o];
      if key != "" {
        var _ := cache.Set("create", key, OrderJson(uuid, o));
      }
      info := ToInfo(uuid, o);
    }

    /** The whole RPC, with nothing between the probe and the locked section: a repeated key gets
        the stored order back, whoever answers. */
    method CreateOrder(uuid: string, customer: string, key: string, items: seq<Item>) returns (info: Info)
      requires Valid() && uuid !in orders
      modifies this, cache.store
      ensures Valid()
      ensures orders == Create(old(orders), uuid, customer, key, items).orders
      ensures info.(status := PENDING) == Create(old(orders), uuid, customer, key, items).info.(status := PENDING)
      ensures key != "" && old(HasKey(orders, key)) ==>
                && orders == old(orders) && info.id == old(Owner(orders, key))
                && cache.store.entries == old(cache.store.entries)
      ensures forall id :: id in old(orders) && old(orders)[id].key == key != "" ==>
                && info.id == id && info.customer == orders[id].customer && info.total == orders[id].total
                && SameLines(info.items, orders[id].items)
                && (|| info.status == orders[id].status
                    || (info.status == PENDING && old(Lookup(cache.store.entries, "order", "create", key)).Some?))
    {
      var hit := CreateProbe(key);
      if hit.Some? {
        ScanOrderIsIrrelevant(orders, key, hit.value.id);
        return hit.value;
      }
      info := CreateLocked(uuid, customer, key, items);
    }

    method UpdateOrderStatus(id: string, status: Status) returns (ok: bool)
      requires Valid()
      modifies this
      ensures Valid()
      ensures ok <==> UpdateStatus(old(orders), id, status).Some?
      ensures orders.Keys == old(orders).Keys && (ok <==> id in orders) && (ok ==> orders[id].status == status)
      ensures forall o :: o in orders ==> orders[o].(status := old(orders)[o].status) == old(orders)[o]
      ensures forall o :: o in orders && o != id ==> orders[o] == old(orders)[o]
      ensures orders == if ok then UpdateStatus(old(orders), id, status).value else old(orders)
    {
      if id !in orders {
        return false;
      }
      orders := orders[id := orders[id].(status := status)];
      ok := true;
    }

    /** calculateTotal of the order mapper. */
    static method CalculateTotal(items: seq<Item>) returns (total: real)
      ensures total == Total(items)
    {
      total := 0.0;
      for i := 0 to |items|
        invariant total == Total(items[..i])
      {
        assert items[..i + 1][..i] == items[..i];
        total := total + items[i].quantity as real * items[i].price;
      }
      assert items[..|items|] == items;
    }
  }
}
