/** Aggregates over the cart's lines that several pages read. The cart store
    (`getCartTotal`) is not part of this model; its total is ASSUMED to be
    the sum of price times quantity, the figure each page shows per line. */
module CartLines {
  import opened Catalog

  /** `item.price * item.quantity`, shown per line on Cart and Checkout. */
  function LineTotal(item: CartItem): real
  {
    item.product.price * item.quantity as real
  }

  /** The assumed `getCartTotal()`: the sum of the line totals. */
  function Subtotal(items: seq<CartItem>): real
  {
    if |items| == 0 then 0.0 else LineTotal(items[0]) + Subtotal(items[1..])
  }

  /** `cartItems.reduce((acc, item) => acc + item.quantity, 0)`. */
  function TotalQuantity(items: seq<CartItem>): int
  {
    if |items| == 0 then 0 else items[0].quantity + TotalQuantity(items[1..])
  }

  predicate AllPositive(items: seq<CartItem>)
  {
    forall i :: 0 <= i < |items| ==> items[i].quantity >= 1
  }

  predicate NonNegativePrices(items: seq<CartItem>)
  {
    forall i :: 0 <= i < |items| ==> items[i].product.price >= 0.0 && items[i].quantity >= 0
  }

  /** The subtotal of two carts laid end to end is the sum of their subtotals. */
  lemma {:induction false} SubtotalAppend(a: seq<CartItem>, b: seq<CartItem>)
    ensures Subtotal(a + b) == Subtotal(a) + Subtotal(b)
  {
    if |a| > 0 {
      assert (a + b)[1..] == a[1..] + b;
      SubtotalAppend(a[1..], b);
    } else {
      assert a + b == b;
    }
  }

  /** With non-negative prices and quantities the subtotal is non-negative. */
  lemma {:induction false} SubtotalNonNegative(items: seq<CartItem>)
    requires NonNegativePrices(items)
    ensures Subtotal(items) >= 0.0
  {
    if |items| > 0 {
      assert NonNegativePrices(items[1..]) by {
        forall i | 0 <= i < |items[1..]|
          ensures items[1..][i].product.price >= 0.0 && items[1..][i].quantity >= 0
        {
          assert items[1..][i] == items[i + 1];
        }
      }
      SubtotalNonNegative(items[1..]);
    }
  }

  /** When every line holds at least one unit, the item count is at least
      the number of lines, so it is zero exactly for an empty cart. */
  lemma {:induction false} QuantityCoversLines(items: seq<CartItem>)
    requires AllPositive(items)
    ensures TotalQuantity(items) >= |items|
    ensures TotalQuantity(items) == 0 <==> |items| == 0
  {
    if |items| > 0 {
      assert AllPositive(items[1..]) by {
        forall i | 0 <= i < |items[1..]| ensures items[1..][i].quantity >= 1 {
          assert items[1..][i] == items[i + 1];
        }
      }
      QuantityCoversLines(items[1..]);
    }
  }
}
