/** The orders table: the per-product lines shown for an order, the
    progress values offered, and the row marked as updating while its
    progress change is sent. */
module Orders {

  import opened Wrappers

  /** The populated product of an order line; absent properties are `None`. */
  datatype ProductRef = ProductRef(name: Option<string>, price: Option<int>, discountPrice: Option<int>)

  /** One element of an order's `products`. */
  datatype OrderItem = OrderItem(productId: Option<ProductRef>, quantity: int)

  /** What the table shows for one element. */
  datatype Line = Line(name: string, quantity: int, total: int)

  /** `item.productId?.name || "Unknown"`: a missing or empty name reads "Unknown". */
  function DisplayName(p: Option<ProductRef>): (r: string)
    ensures r != ""
    ensures r == "Unknown" || (p.Some? && p.value.name == Some(r))
    ensures p.Some? && p.value.name.Some? && p.value.name.value != "" ==> r == p.value.name.value
  {
    if p.Some? && p.value.name.Some? && p.value.name.value != "" then p.value.name.value else "Unknown"
  }

  /** `x || 0` for a price: missing reads 0. */
  function PriceOrZero(x: Option<int>): (r: int)
    ensures x.None? ==> r == 0
    ensures x.Some? ==> r == x.value
  {
    x.GetOr(0)
  }

  /** The line shown for one element: its name, its quantity, and the
      selling price times the quantity. */
  function LineOf(item: OrderItem): (r: Line)
    ensures r.name == DisplayName(item.productId) && r.quantity == item.quantity
    ensures item.productId.None? ==> r.total == 0
  {
    var price := if item.productId.Some? then PriceOrZero(item.productId.value.price) else 0;
    var discount := if item.productId.Some? then PriceOrZero(item.productId.value.discountPrice) else 0;
    Line(DisplayName(item.productId), item.quantity, (price - discount) * item.quantity)
  }

  /** `products.map(...)`: one line per element, in order. */
  function Lines(products: seq<OrderItem>): (r: seq<Line>)
    ensures |r| == |products|
    ensures forall i :: 0 <= i < |products| ==> r[i] == LineOf(products[i])
  {
    seq(|products|, i requires 0 <= i < |products| => LineOf(products[i]))
  }

  /** A line's total is the selling price (price less discount, missing
      ones read as 0) times the quantity. Nothing clamps it: a discount
      above the price gives a negative total. */
  lemma LineTotalMeaning(item: OrderItem, price: int, discount: int)
    requires item.productId.Some?
    requires PriceOrZero(item.productId.value.price) == price
    requires PriceOrZero(item.productId.value.discountPrice) == discount
    ensures LineOf(item).total == (price - discount) * item.quantity
    ensures price >= discount && item.quantity >= 0 ==> LineOf(item).total >= 0
    ensures price < discount && item.quantity > 0 ==> LineOf(item).total < 0
  {
    var s, q := price - discount, item.quantity;
    assert LineOf(item).total == s * q;
    if s < 0 && q > 0 {
      assert s * q == -((-s) * q);
      assert (-s) * q > 0;
    }
  }

  /** The table shows one line per element, in order, and the count it
      shows is the number of elements. */
  lemma LinesFollowProducts(products: seq<OrderItem>, extra: OrderItem)
    ensures Lines(products + [extra]) == Lines(products) + [LineOf(extra)]
    ensures |Lines(products)| == |products|
  {
  }

  /** A line whose product is missing shows "Unknown" and totals 0. */
  lemma MissingProductLine(quantity: int)
    ensures LineOf(OrderItem(None, quantity)) == Line("Unknown", quantity, 0)
  {
  }

  /** The progress values and their tag colours, in declaration order. */
  const ProgressColors: seq<(string, string)> :=
    [("pending", "orange"), ("accepted", "blue"), ("declined", "red"), ("done", "green")]

  /** `Object.keys(progressColors)`: the values offered in the select. */
  function ProgressOptions(): (r: seq<string>)
    ensures |r| == |ProgressColors|
  {
    seq(|ProgressColors|, i requires 0 <= i < |ProgressColors| => ProgressColors[i].0)
  }

  /** Property access on an object literal: the value of the first entry
      with the key, if any. */
  function Lookup(table: seq<(string, string)>, key: string): (r: Option<string>)
    ensures r.None? <==> forall i :: 0 <= i < |table| ==> table[i].0 != key
    ensures r.Some? ==> exists i :: 0 <= i < |table| && table[i] == (key, r.value) &&
                                   forall j :: 0 <= j < i ==> table[j].0 != key
  {
    if table == [] then None
    else if table[0].0 == key then Some(table[0].1)
    else Lookup(table[1..], key)
  }

  /** `progressColors[status]` */
  function ColourOf(status: string): Option<string> {
    Lookup(ProgressColors, status)
  }

  /** Exactly four values are offered, in this order, each with its
      colour, and no other value has one. */
  lemma ProgressOptionsExact(status: string)
    ensures ProgressOptions() == ["pending", "accepted", "declined", "done"]
    ensures ColourOf(status).Some? <==> status in ProgressOptions()
    ensures forall i :: 0 <= i < |ProgressColors| ==> ColourOf(ProgressColors[i].0) == Some(ProgressColors[i].1)
  {
    assert ProgressOptions() == ["pending", "accepted", "declined", "done"];
  }

  /** The update sent for a progress change. */
  datatype OrderUpdate = OrderUpdate(orderId: string, progress: string)

  /** The table's state: the row whose update is in flight. */
  class OrderTableState {
    var updatingId: Option<string>
    /** Every value `updatingId` has been set to, in order. */
    ghost var updatingHistory: seq<Option<string>>

    constructor ()
      ensures updatingId.None? && updatingHistory == []
    {
      updatingId := None;
      updatingHistory := [];
    }

    /** `handleProgressChange`: mark the row, send the update, and unmark it
        whether the update succeeded or failed. */
    method HandleProgressChange(id: string, value: string, serverOk: bool)
      returns (req: OrderUpdate, notice: string)
      modifies this
      ensures req == OrderUpdate(id, value)
      ensures updatingId.None?
      ensures updatingHistory == old(updatingHistory) + [Some(id), None]
      ensures notice == if serverOk then "Order progress updated." else "Failed to update order."
    {
      updatingId := Some(id);
      updatingHistory := updatingHistory + [updatingId];
      req := OrderUpdate(id, value);
      if serverOk {
        notice := "Order progress updated.";
      } else {
        notice := "Failed to update order.";
      }
      updatingId := None;
      updatingHistory := updatingHistory + [updatingId];
    }
  }
}
