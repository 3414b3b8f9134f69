/** Order lines as they travel from the HTTP request through the gateway, the order service and
    the inventory service, with the 32-bit quantities of the protobuf messages. */
module Items {

  const TWO_31: int := 0x8000_0000
  const TWO_32: int := 0x1_0000_0000

  /** Go's conversion to int32, and the result of int32 addition and subtraction. */
  function Wrap32(x: int): (r: int)
    ensures -TWO_31 <= r < TWO_31
    ensures -TWO_31 <= x < TWO_31 ==> r == x
  {
    (x + TWO_31) % TWO_32 - TWO_31
  }

  /** The range, in figures. */
  lemma Int32Range(x: int)
    ensures Wrap32(x) == x <==> -2_147_483_648 <= x <= 2_147_483_647
    ensures Wrap32(2_147_483_648) == -2_147_483_648 && Wrap32(x + 4_294_967_296) == Wrap32(x)
  {
    WrapAbsorbs(4_294_967_296, x);
  }

  predicate IsInt32(x: int) {
    -TWO_31 <= x < TWO_31
  }

  lemma WrapIsCongruent(x: int) returns (turns: int)
    ensures Wrap32(x) == x + turns * TWO_32
  {
    turns := -((x + TWO_31) / TWO_32);
  }

  lemma WrapUnique(x: int, r: int, turns: int)
    requires IsInt32(r) && r == x + turns * TWO_32
    ensures Wrap32(x) == r
  {
    var t := WrapIsCongruent(x);
    assert (t - turns) * TWO_32 == Wrap32(x) - r;
  }

  /** Intermediate wraps disappear: a chain of int32 operations is one wrap of the exact result. */
  lemma WrapAbsorbs(x: int, d: int)
    ensures Wrap32(Wrap32(x) + d) == Wrap32(x + d)
  {
    var t := WrapIsCongruent(x);
    var u := WrapIsCongruent(x + d);
    assert Wrap32(x + d) == Wrap32(x) + d + (u - t) * TWO_32;
    WrapUnique(Wrap32(x) + d, Wrap32(x + d), u - t);
  }

  /** A line of an order: the shape shared by the HTTP item, the order-service item and the
      order message item. */
  datatype Item = Item(product: string, quantity: int, price: real)

  /** A line of a reservation: no price. */
  datatype StockLine = StockLine(product: string, quantity: int)

  /** What the gateway adapter and the order mapper send: quantities cut to int32. */
  function Narrow(items: seq<Item>): (r: seq<Item>)
    ensures |r| == |items|
    ensures forall i :: 0 <= i < |items| ==> r[i] == items[i].(quantity := Wrap32(items[i].quantity))
  {
    if items == [] then []
    else
      var last := items[|items| - 1];
      Narrow(items[..|items| - 1]) + [last.(quantity := Wrap32(last.quantity))]
  }

  /** What the saga asks the inventory service to reserve. */
  function StockLines(items: seq<Item>): (r: seq<StockLine>)
    ensures |r| == |items|
    ensures forall i :: 0 <= i < |items| ==> r[i] == StockLine(items[i].product, Wrap32(items[i].quantity))
  {
    if items == [] then []
    else
      var last := items[|items| - 1];
      StockLines(items[..|items| - 1]) + [StockLine(last.product, Wrap32(last.quantity))]
  }

  function Total(items: seq<Item>): real {
    if items == [] then 0.0
    else
      var last := items[|items| - 1];
      Total(items[..|items| - 1]) + last.quantity as real * last.price
  }

  /** The value of reserved goods at the prices of an order: quantities from the reservation. */
  function Worth(lines: seq<StockLine>, items: seq<Item>): real
    requires |lines| == |items|
  {
    if lines == [] then 0.0
    else
      var n := |lines| - 1;
      Worth(lines[..n], items[..n]) + lines[n].quantity as real * items[n].price
  }

  predicate FitsInt32(items: seq<Item>) {
    forall i :: 0 <= i < |items| ==> IsInt32(items[i].quantity)
  }

  lemma NarrowFits(items: seq<Item>)
    ensures FitsInt32(Narrow(items))
  {
  }

  /** Once narrowed, the later int / int32 conversions on the way back change nothing. */
  lemma NarrowOnce(items: seq<Item>)
    requires FitsInt32(items)
    ensures Narrow(items) == items
  {
  }

  lemma {:induction false} GoodsAreWorthTheTotal(items: seq<Item>)
    requires FitsInt32(items)
    ensures Worth(StockLines(items), items) == Total(items)
  {
    if items != [] {
      var n := |items| - 1;
      var lines := StockLines(items);
      GoodsAreWorthTheTotal(items[..n]);
      assert lines == StockLines(items[..n]) + [StockLine(items[n].product, items[n].quantity)];
      assert lines[..n] == StockLines(items[..n]);
    }
  }

  /** A total is the sum over the lines of quantity times price, however the list is cut. */
  lemma {:induction false} TotalAdds(a: seq<Item>, b: seq<Item>)
    ensures Total(a + b) == Total(a) + Total(b)
    ensures |a| == 1 ==> Total(a) == a[0].quantity as real * a[0].price
    ensures a == [] ==> Total(a) == 0.0
  {
    if b == [] {
      assert a + b == a;
      assert |a| == 1 ==> a[..0] == [];
    } else {
      var n := |b| - 1;
      assert (a + b)[..|a| + n] == a + b[..n];
      TotalAdds(a, b[..n]);
    }
  }

  /** Units of product p requested by a list of lines. */
  function Quantity(lines: seq<StockLine>, p: string): int {
    if lines == [] then 0
    else
      var last := lines[|lines| - 1];
      Quantity(lines[..|lines| - 1], p) + if last.product == p then last.quantity else 0
  }

  lemma {:induction false} QuantityAdds(a: seq<StockLine>, b: seq<StockLine>, p: string)
    ensures Quantity(a + b, p) == Quantity(a, p) + Quantity(b, p)
    ensures |a| == 1 ==> Quantity(a, p) == if a[0].product == p then a[0].quantity else 0
  {
    if b == [] {
      assert a + b == a;
      assert |a| == 1 ==> a[..0] == [];
    } else {
      var n := |b| - 1;
      assert (a + b)[..|a| + n] == a + b[..n];
      QuantityAdds(a, b[..n], p);
    }
  }

  /** The gateway check of CreateOrder. */
  predicate ValidItem(it: Item) {
    it.product != "" && it.quantity > 0 && it.price > 0.0
  }

  predicate ValidRequest(customer: string, items: seq<Item>) {
    customer != "" && items != [] && forall i :: 0 <= i < |items| ==> ValidItem(items[i])
  }

  /** The condition under which int32 quantities and line-by-line stock checks are harmless. */
  predicate DistinctAndSmall(items: seq<Item>) {
    && (forall i :: 0 <= i < |items| ==> 1 <= items[i].quantity < TWO_31)
    && (forall i, j :: 0 <= i < j < |items| ==> items[i].product != items[j].product)
  }

  /** What makes a request valid, item by item; and a valid one in 32-bit quantities is worth something. */
  lemma {:induction false} ValidIsPositive(items: seq<Item>)
    requires forall i :: 0 <= i < |items| ==> items[i].quantity >= 1 && items[i].price > 0.0
    ensures Total(items) >= 0.0 && (items != [] ==> Total(items) > 0.0)
  {
    if items != [] {
      var n := |items| - 1;
      ValidIsPositive(items[..n]);
      assert items[n].quantity as real * items[n].price > 0.0;
    }
  }
}
