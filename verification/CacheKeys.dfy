/** The idempotency cache: one Redis store shared by the three services, each service behind its own
    client that prefixes keys with the service name and the operation. */
module CacheKeys {
  import opened Options
  import Orders

  /** What the services store: a marker text, or a copy of an order encoded as JSON. */
  datatype Value = Text(text: string) | OrderJson(id: string, order: Orders.Order)

  function GenerateKey(service: string, operation: string, key: string): string {
    service + ":" + operation + ":" + key
  }

  /** Service, operation and key, in this order, with colons between. */
  lemma KeyParts(service: string, operation: string, key: string)
    ensures var full := GenerateKey(service, operation, key);
            var n, m := |service|, |service| + 1 + |operation|;
            && |full| == m + 1 + |key| && full[n] == ':' && full[m] == ':'
            && full[..n] == service && full[n + 1..m] == operation && full[m + 1..] == key
  {
  }

  predicate ColonFree(s: string) {
    forall i :: 0 <= i < |s| ==> s[i] != ':'
  }

  /** The text before the first colon and the text after it are determined by the whole. */
  lemma FirstColonSplits(a: string, b: string, c: string, d: string)
    requires ColonFree(a) && ColonFree(c)
    requires a + ":" + b == c + ":" + d
    ensures a == c && b == d
  {
    var left, right := a + ":" + b, c + ":" + d;
    assert left[|a|] == ':' && right[|c|] == ':';
    assert |a| == |c|;
    assert a == left[..|a|] == right[..|a|] == c;
    assert b == left[|a| + 1..] == right[|a| + 1..] == d;
  }

  lemma GenerateKeyInjective(s: string, o: string, k: string, s': string, o': string, k': string)
    requires ColonFree(s) && ColonFree(o) && ColonFree(s') && ColonFree(o')
    requires GenerateKey(s, o, k) == GenerateKey(s', o', k')
    ensures s == s' && o == o' && k == k'
  {
    assert GenerateKey(s, o, k) == s + ":" + (o + ":" + k);
    assert GenerateKey(s', o', k') == s' + ":" + (o' + ":" + k');
    FirstColonSplits(s, o + ":" + k, s', o' + ":" + k');
    FirstColonSplits(o, k, o', k');
  }

  /** Colons in an operation name would let two namespaces meet; client keys may hold colons freely. */
  lemma ColonsInNamesCollide()
    ensures GenerateKey("order", "create", "a:b") == GenerateKey("order", "create:a", "b")
    ensures !ColonFree("create:a")
  {
    assert "create:a"[6] == ':';
    assert GenerateKey("order", "create", "a:b") == "order:create:a:b";
    assert GenerateKey("order", "create:a", "b") == "order:create:a:b";
  }

  /** What one client sees of the shared store under one operation. */
  function Lookup(entries: map<string, Value>, service: string, operation: string, key: string): Option<Value> {
    var full := GenerateKey(service, operation, key);
    if full in entries then Some(entries[full]) else None
  }

  /** The shared store behaves as separate maps, one for each service and operation: a write through
      one name is visible under that name and key and nowhere else. */
  lemma NamespacesAreSeparate(entries: map<string, Value>, s: string, o: string, k: string, v: Value,
                              s': string, o': string, k': string)
    requires ColonFree(s) && ColonFree(o) && ColonFree(s') && ColonFree(o')
    ensures Lookup(entries[GenerateKey(s, o, k) := v], s', o', k')
         == if s == s' && o == o' && k == k' then Some(v) else Lookup(entries, s', o', k')
  {
    if GenerateKey(s, o, k) == GenerateKey(s', o', k') {
      GenerateKeyInjective(s, o, k, s', o', k');
    }
  }

  class Store {
    var entries: map<string, Value>
    /** Keys of all writes asked for so far, whether or not they succeeded. */
    ghost var asked: seq<string>

    constructor ()
      ensures entries == map[] && asked == []
    {
      entries := map[];
      asked := [];
    }
  }

  /** One service's client of the shared store. */
  class Cache {
    const store: Store
    const service: string

    constructor (store: Store, service: string)
      ensures this.store == store && this.service == service
    {
      this.store := store;
      this.service := service;
    }

    /** An absent entry and a failed call both read as nothing. */
    method Get(operation: string, key: string) returns (val: Option<Value>)
      ensures val.None? || Lookup(store.entries, service, operation, key) == val
    {
      val := None;
      if * {
        val := Lookup(store.entries, service, operation, key);
      }
    }

    /** An error may come from before or after the write. */
    method Set(operation: string, key: string, val: Value) returns (ok: bool)
      modifies store
      ensures store.entries == old(store.entries)
           || store.entries == old(store.entries)[GenerateKey(service, operation, key) := val]
      ensures ok ==> Lookup(store.entries, service, operation, key) == Some(val)
      ensures store.asked == old(store.asked) + [GenerateKey(service, operation, key)]
    {
      store.asked := store.asked + [GenerateKey(service, operation, key)];
      ok := false;
      if * {
        store.entries := store.entries[GenerateKey(service, operation, key) := val];
        ok := *;
      }
    }
  }
}
