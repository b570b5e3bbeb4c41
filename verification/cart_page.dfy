/** The Cart page: line list with quantity steppers, and the "Cart Totals"
    summary with its own shipping rule (no coupon on this page). */
module CartPage {
  import opened Wrappers
  import opened Catalog
  import opened CartLines

  const FreeShippingAbove: real := 500.0
  /** The Cart page's flat shipping fee. The Checkout page charges a
      different one; the two are deliberately kept apart. */
  const CartShippingFee: real := 49.0
  const CartPlaceholder: string := "https://via.placeholder.com/100"

  /** Shipping on the Cart page: free strictly above 500, else 49. */
  function Shipping(subtotal: real): (r: real)
    ensures r == 0.0 <==> subtotal > FreeShippingAbove
    ensures r != 0.0 ==> r == CartShippingFee
  {
    if subtotal > FreeShippingAbove then 0.0 else CartShippingFee
  }

  /** The Cart page total: subtotal plus shipping, no discount term. */
  function Total(subtotal: real): (r: real)
    ensures r >= subtotal
    ensures r - subtotal == Shipping(subtotal)
  {
    subtotal + Shipping(subtotal)
  }

  /** One rendered line. */
  datatype LineView = LineView(id: int, image: string, unitPrice: real, quantity: int, lineTotal: real)

  /** The page: the empty state alone, or lines plus the totals block and
      the "Proceed to Checkout" button. */
  datatype CartView =
    | EmptyState
    | Summary(lines: seq<LineView>, subtotal: real, shipping: real, total: real)

  function LineOf(item: CartItem): LineView
  {
    LineView(item.product.id, ResolveImage(item.product.imageUrl, CartPlaceholder),
             item.product.price, item.quantity, LineTotal(item))
  }

  function Lines(items: seq<CartItem>): (r: seq<LineView>)
    ensures |r| == |items|
    ensures forall i :: 0 <= i < |items| ==> r[i] == LineOf(items[i])
  {
    seq(|items|, i requires 0 <= i < |items| => LineOf(items[i]))
  }

  /** The Cart page for a given cart. */
  function Render(items: seq<CartItem>): (r: CartView)
    ensures r.EmptyState? <==> |items| == 0
    ensures r.Summary? ==> |r.lines| == |items|
    ensures r.Summary? ==> forall i :: 0 <= i < |items| ==>
              r.lines[i].id == items[i].product.id &&
              r.lines[i].quantity == items[i].quantity &&
              r.lines[i].lineTotal == items[i].product.price * items[i].quantity as real
    ensures r.Summary? ==> r.subtotal == SumLineTotals(r.lines) && r.shipping == Shipping(r.subtotal)
    ensures r.Summary? ==> r.total == r.subtotal + r.shipping
  {
    if |items| == 0 then EmptyState
    else
      var sub := Subtotal(items);
      SubtotalMatchesLines(items);
      Summary(Lines(items), sub, Shipping(sub), Total(sub))
  }

  /** Sum of the displayed line totals. */
  function SumLineTotals(lines: seq<LineView>): real
  {
    if |lines| == 0 then 0.0 else lines[0].lineTotal + SumLineTotals(lines[1..])
  }

  /** The totals block agrees with the lines shown above it: the subtotal
      is the sum of the displayed line totals. */
  lemma {:induction false} SubtotalMatchesLines(items: seq<CartItem>)
    ensures SumLineTotals(Lines(items)) == Subtotal(items)
  {
    if |items| > 0 {
      assert Lines(items)[1..] == Lines(items[1..]);
      SubtotalMatchesLines(items[1..]);
    }
  }

  /** The minus button: `updateQuantity(item.id, item.quantity - 1)`. */
  function MinusCall(item: CartItem): (r: CartCall)
    ensures r.UpdateQuantity? && r.id == item.product.id
    ensures r.quantity < item.quantity
  {
    UpdateQuantity(item.product.id, item.quantity - 1)
  }

  /** The plus button: `updateQuantity(item.id, item.quantity + 1)`. */
  function PlusCall(item: CartItem): (r: CartCall)
    ensures r.UpdateQuantity? && r.id == item.product.id
    ensures r.quantity > item.quantity
  {
    UpdateQuantity(item.product.id, item.quantity + 1)
  }

  /** The trash button: `removeFromCart(item.id)`. */
  function TrashCall(item: CartItem): (r: CartCall)
    ensures r.RemoveFromCart? && r.id == item.product.id
  {
    RemoveFromCart(item.product.id)
  }

  /** The steppers request exactly one unit of change, for that line only:
      a plus then a minus on the same line asks for the original quantity. */
  lemma StepperCallsInverse(item: CartItem)
    ensures MinusCall(item.(quantity := PlusCall(item).quantity)).quantity == item.quantity
    ensures PlusCall(item.(quantity := MinusCall(item).quantity)).quantity == item.quantity
    ensures PlusCall(item).quantity - MinusCall(item).quantity == 2
  {
  }

  /** Above the threshold the page charges nothing; at exactly 500 it still
      charges the fee, so the total is not monotone in the subtotal. */
  lemma FreeShippingCliff()
    ensures Total(500.0) == 549.0
    ensures Total(500.01) == 500.01
    ensures Total(500.01) < Total(500.0)
  {
  }
}
