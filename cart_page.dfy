/** The cart totals and the display conditions of
    fend_mm7/src/pages/cart/CartPage.tsx. Prices are exact reals. */
module CartPage {

  /** A cart line as the page reads it; the id, title, image, size and
      colour it also shows do not enter any computation. */
  datatype CartItem = CartItem(id: string, price: real, quantity: int)

  const DiscountRate: real := 0.2
  const DeliveryFee: real := 15.0

  function LineTotal(item: CartItem): real {
    item.price * item.quantity as real
  }

  /** `cartItems.reduce((total, item) => total + item.price * item.quantity, 0)`:
      a left fold, so the last item is added last. */
  function Subtotal(items: seq<CartItem>): real
  {
    if items == [] then 0.0 else Subtotal(items[..|items| - 1]) + LineTotal(items[|items| - 1])
  }

  /** An independent reference sum, taken from the front. */
  function SumFromFront(items: seq<CartItem>): real
  {
    if items == [] then 0.0 else LineTotal(items[0]) + SumFromFront(items[1..])
  }

  lemma {:induction false} SubtotalConcat(a: seq<CartItem>, b: seq<CartItem>)
    ensures Subtotal(a + b) == Subtotal(a) + Subtotal(b)
    decreases |b|
  {
    if b == [] {
      assert a + b == a;
    } else {
      var c := a + b;
      assert c[..|c| - 1] == a + b[..|b| - 1];
      assert c[|c| - 1] == b[|b| - 1];
      SubtotalConcat(a, b[..|b| - 1]);
    }
  }

  /** The fold sums the same line totals as the front-first sum: the order
      of accumulation does not matter with exact arithmetic. */
  lemma {:induction false} SubtotalIsSum(items: seq<CartItem>)
    ensures Subtotal(items) == SumFromFront(items)
  {
    if items != [] {
      SubtotalIsSum(items[1..]);
      SubtotalConcat([items[0]], items[1..]);
      assert [items[0]] + items[1..] == items;
      assert Subtotal([items[0]]) == LineTotal(items[0]) by {
        assert [items[0]][..0] == [];
      }
    }
  }

  /** Carts with non-negative prices and quantities have a non-negative subtotal. */
  lemma {:induction false} SubtotalNonNegative(items: seq<CartItem>)
    requires forall k :: 0 <= k < |items| ==> items[k].price >= 0.0 && items[k].quantity >= 0
    ensures Subtotal(items) >= 0.0
  {
    if items != [] {
      SubtotalNonNegative(items[..|items| - 1]);
      var last := items[|items| - 1];
      assert last.price >= 0.0 && last.quantity >= 0;
      assert LineTotal(last) >= 0.0;
    }
  }

  /** The summary figures the page displays. */
  datatype Summary = Summary(subtotal: real, discount: real, deliveryFee: real, total: real)

  function Totals(items: seq<CartItem>): (r: Summary)
    ensures r.subtotal == SumFromFront(items)
    ensures r.discount == r.subtotal / 5.0
    ensures r.deliveryFee == 15.0
    ensures r.total == 0.8 * r.subtotal + 15.0
    ensures r.total == r.subtotal - r.discount + r.deliveryFee
  {
    SubtotalIsSum(items);
    var subtotal := Subtotal(items);
    var discount := subtotal * DiscountRate;
    Summary(subtotal, discount, DeliveryFee, subtotal - discount + DeliveryFee)
  }

  /** An empty cart costs exactly the delivery fee. */
  lemma EmptyCartTotals()
    ensures Totals([]) == Summary(0.0, 0.0, 15.0, 15.0)
  {
  }

  /** Adding a line raises the total by 80% of that line's price times quantity. */
  lemma TotalOfAppended(items: seq<CartItem>, item: CartItem)
    ensures Totals(items + [item]).total == Totals(items).total + 0.8 * LineTotal(item)
  {
    SubtotalConcat(items, [item]);
    assert Subtotal([item]) == LineTotal(item) by {
      assert [item][..0] == [];
    }
  }

  /** The empty-cart message. */
  predicate ShowEmptyMessage(items: seq<CartItem>): (r: bool)
    ensures r <==> items == []
  {
    |items| == 0
  }

  /** The order summary panel: shown exactly when the empty-cart message is
      not. */
  predicate ShowSummary(items: seq<CartItem>): (r: bool)
    ensures r <==> !ShowEmptyMessage(items)
  {
    |items| > 0
  }

  /** The divider drawn under the item at `index`: under every line but the
      last. */
  predicate ShowDividerAfter(items: seq<CartItem>, index: nat): (r: bool)
    requires index < |items|
    ensures r <==> index != |items| - 1
  {
    index < |items| - 1
  }
}
