/** The gateway's handling of a request before its saga starts: validation and the copying of lines
    into the messages of the other services. */
module Gateway {
  import opened Options
  import opened Items

  /** The checks of CreateOrder: all items are copied, or the first bad one ends the request. */
  method Validate(customer: string, cart: seq<Item>) returns (accepted: Option<seq<Item>>)
    ensures accepted == if ValidRequest(customer, cart) then Some(cart) else None
    ensures accepted.Some? ==>
      && accepted.value == cart && |customer| > 0 && |cart| > 0
      && forall i :: 0 <= i < |cart| ==> cart[i].product != "" && cart[i].quantity >= 1 && cart[i].price > 0.0
    ensures accepted.None? && customer != "" && cart != [] ==>
      exists i :: 0 <= i < |cart| && (cart[i].product == "" || cart[i].quantity <= 0 || cart[i].price <= 0.0)
  {
    if customer == "" || |cart| == 0 {
      return None;
    }
    var items: seq<Item> := [];
    for i := 0 to |cart|
      invariant items == cart[..i]
      invariant forall j :: 0 <= j < i ==> ValidItem(cart[j])
    {
      var it := cart[i];
      if it.product == "" || it.quantity <= 0 || it.price <= 0.0 {
        assert !ValidItem(cart[i]);
        return None;
      }
      items := items + [Item(it.product, it.quantity, it.price)];
    }
    assert items == cart;
    accepted := Some(items);
  }

  /** Lines of the CreateOrder message; the order mapper copies them the same way into replies. */
  method ToOrderItems(items: seq<Item>) returns (message: seq<Item>)
    ensures message == Narrow(items)
  {
    message := [];
    for i := 0 to |items|
      invariant |message| == i
      invariant forall j :: 0 <= j < i ==> message[j] == items[j].(quantity := Wrap32(items[j].quantity))
    {
      message := message + [items[i].(quantity := Wrap32(items[i].quantity))];
    }
  }

  /** Lines of the Reserve message. */
  method ToStockLines(items: seq<Item>) returns (lines: seq<StockLine>)
    ensures lines == StockLines(items)
  {
    lines := [];
    for i := 0 to |items|
      invariant |lines| == i
      invariant forall j :: 0 <= j < i ==> lines[j] == StockLine(items[j].product, Wrap32(items[j].quantity))
    {
      lines := lines + [StockLine(items[i].product, Wrap32(items[i].quantity))];
    }
  }

  /** What is reserved is what was asked for exactly when every quantity fits 32 bits: the validation
      does not check that. */
  lemma ReservedAsAskedExactly(customer: string, cart: seq<Item>)
    requires ValidRequest(customer, cart)
    ensures (forall i :: 0 <= i < |cart| ==>
               StockLines(Narrow(cart))[i] == StockLine(cart[i].product, cart[i].quantity))
       <==> (forall i :: 0 <= i < |cart| ==> cart[i].quantity < TWO_31)
  {
    var lines := StockLines(Narrow(cart));
    forall i | 0 <= i < |cart|
      ensures lines[i] == StockLine(cart[i].product, cart[i].quantity) <==> cart[i].quantity < TWO_31
    {
      assert lines[i].quantity == Wrap32(Wrap32(cart[i].quantity)) == Wrap32(cart[i].quantity);
      assert ValidItem(cart[i]);
    }
  }
}
