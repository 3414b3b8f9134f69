/** The payment server as the program runs it. */
module PaymentServer {
  import opened Options
  import opened CacheKeys
  import Payment

  class Server {
    var payments: map<string, real>
    const cache: Cache

    ghost predicate Cached(operation: string, key: string)
      reads cache.store
    {
      Lookup(cache.store.entries, cache.service, operation, key).Some?
    }

    /** The cache writes asked for: one if there was an effect to remember. */
    ghost function Asked(operation: string, key: string, remember: bool): seq<string> {
      if remember then [GenerateKey(cache.service, operation, key)] else []
    }

    constructor (cache: Cache)
      ensures payments == map[] && this.cache == cache
    {
      payments := map[];
      this.cache := cache;
    }

    method Charge(order: string, amount: real) returns (ok: bool)
      modifies this, cache.store
      ensures (old(Cached("charge", order)) && ok
               && payments == old(payments) && unchanged(cache.store))
           || var reply := Payment.Charge(old(payments), order, amount);
              payments == reply.payments && ok == reply.ok
              && cache.store.asked == old(cache.store.asked) + Asked("charge", order, reply.effect)
              && (cache.store.entries != old(cache.store.entries) ==> reply.effect && Cached("charge", order))
    {
      var hit := cache.Get("charge", order);
      if hit.Some? {
        return true;
      }
      ok := ChargeLocked(order, amount);
    }

    /** The cached text is the amount; only its being there is ever looked at. */
    method ChargeLocked(order: string, amount: real) returns (ok: bool)
      modifies this, cache.store
      ensures var reply := Payment.Charge(old(payments), order, amount);
              payments == reply.payments && ok == reply.ok
              && cache.store.asked == old(cache.store.asked) + Asked("charge", order, reply.effect)
              && (cache.store.entries == old(cache.store.entries)
                  || (reply.effect
                      && cache.store.entries
                         == old(cache.store.entries)[GenerateKey(cache.service, "charge", order) := Text("amount")]))
      ensures ok <==> order in old(payments) || amount <= 500.0
      ensures payments == if order !in old(payments) && ok then old(payments)[order := amount] else old(payments)
    {
      if order in payments {
        return true;
      }
      if amount > Payment.LIMIT {
        return false;
      }
      payments := payments[order := amount];
      var _ := cache.Set("charge", order, Text("amount"));
      ok := true;
    }

    method Refund(order: string) returns (ok: bool)
      modifies this, cache.store
      ensures ok
      ensures (old(Cached("refund", order)) && payments == old(payments) && unchanged(cache.store))
           || var reply := Payment.Refund(old(payments), order);
              payments == reply.payments
              && cache.store.asked == old(cache.store.asked) + Asked("refund", order, reply.effect)
              && (cache.store.entries != old(cache.store.entries) ==> reply.effect && Cached("refund", order))
    {
      var hit := cache.Get("refund", order);
      if hit.Some? {
        return true;
      }
      ok := RefundLocked(order);
    }

    method RefundLocked(order: string) returns (ok: bool)
      modifies this, cache.store
      ensures var reply := Payment.Refund(old(payments), order);
              payments == reply.payments && ok == reply.ok
              && cache.store.asked == old(cache.store.asked) + Asked("refund", order, reply.effect)
              && (cache.store.entries == old(cache.store.entries)
                  || (reply.effect
                      && cache.store.entries
                         == old(cache.store.entries)[GenerateKey(cache.service, "refund", order) := Text("ok")]))
      ensures ok && payments == old(payments) - {order}
    {
      if order !in payments {
        return true;
      }
      payments := payments - {order};
      var _ := cache.Set("refund", order, Text("ok"));
      ok := true;
    }
  }
}
