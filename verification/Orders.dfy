/** The order service: orders, the binding of idempotency keys to orders, and status writes. */
module Orders {
  import opened Options
  import opened Items

  datatype Status = PENDING | CONFIRMED | CANCELLED

  datatype Order = Order(customer: string, items: seq<Item>, total: real, status: Status, key: string)

  /** The order as a reply carries it. */
  datatype Info = Info(id: string, customer: string, items: seq<Item>, total: real, status: Status)

  datatype CreateReply = CreateReply(orders: map<string, Order>, info: Info, effect: bool)

  /** A request becomes a pending order; its total is computed from the narrowed items. */
  function FromRequest(customer: string, key: string, items: seq<Item>): Order {
    Order(customer, items, Total(items), PENDING, key)
  }

  function ToInfo(id: string, o: Order): Info {
    Info(id, o.customer, Narrow(o.items), o.total, o.status)
  }

  predicate HasKey(orders: map<string, Order>, key: string) {
    exists o :: o in orders && orders[o].key == key
  }

  /** Some order with the key: the one a scan in some map order meets first. */
  ghost function Owner(orders: map<string, Order>, key: string): (id: string)
    requires HasKey(orders, key)
    ensures id in orders && orders[id].key == key
  {
    var id :| id in orders && orders[id].key == key;
    id
  }

  ghost predicate UniqueKeys(orders: map<string, Order>) {
    forall a, b :: a in orders && b in orders && orders[a].key == orders[b].key && orders[a].key != "" ==> a == b
  }

  /** The part of CreateOrder that runs under the mutex; uuid is the new ID. */
  ghost function Create(orders: map<string, Order>, uuid: string, customer: string, key: string,
      items: seq<Item>): CreateReply {
    if key != "" && HasKey(orders, key) then
      var id := Owner(orders, key);
      CreateReply(orders, ToInfo(id, orders[id]), false)
    else
      var o := FromRequest(customer, key, items);
      CreateReply(orders[uuid := o], ToInfo(uuid, o), true)
  }

  /** None is the NotFound error. */
  function UpdateStatus(orders: map<string, Order>, id: string, status: Status): Option<map<string, Order>> {
    if id !in orders then None
    else Some(orders[id := orders[id].(status := status)])
  }

  /** With unique keys the scan has one possible answer, whatever the iteration order of the map. */
  lemma ScanOrderIsIrrelevant(orders: map<string, Order>, key: string, id: string)
    requires UniqueKeys(orders) && key != ""
    requires id in orders && orders[id].key == key
    ensures HasKey(orders, key) && Owner(orders, key) == id
  {
  }
}
