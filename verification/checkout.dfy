/** The Checkout page: pricing with the checkout shipping rule and a coupon
    discount, the coupon apply/remove controls, the order payload and what
    placing the order does, and the payment-method defaults. */
module Checkout {
  import opened Wrappers
  import opened Catalog
  import opened CartLines
  import CartPage

  // ---------------------------------------------------------------- pricing

  const FreeShippingAbove: real := 500.0
  /** The Checkout page's flat shipping fee (the Cart page shows 49). */
  const CheckoutShippingFee: real := 20.0

  /** Shipping at checkout: free strictly above 500, else 20. */
  function Shipping(subtotal: real): (r: real)
    ensures r == 0.0 <==> subtotal > FreeShippingAbove
    ensures r != 0.0 ==> r == CheckoutShippingFee
  {
    if subtotal > FreeShippingAbove then 0.0 else CheckoutShippingFee
  }

  /** `subtotal + shipping - discount`, with no floor at zero. */
  function Total(subtotal: real, discount: real): (r: real)
    ensures r + discount == subtotal + Shipping(subtotal)
  {
    subtotal + Shipping(subtotal) - discount
  }

  /** The total is not clamped: a discount larger than subtotal plus
      shipping makes it negative, and it falls one-for-one with the discount. */
  lemma TotalNotFloored(subtotal: real, discount: real)
    ensures discount > subtotal + Shipping(subtotal) ==> Total(subtotal, discount) < 0.0
    ensures Total(subtotal, discount + 1.0) == Total(subtotal, discount) - 1.0
    ensures Total(100.0, 150.0) == -30.0
  {
  }

  /** The Checkout total and the Cart page total for the same subtotal:
      they differ by the discount and, below the threshold, by the
      difference between the two shipping fees. */
  lemma CheckoutVersusCartTotal(subtotal: real, discount: real)
    ensures subtotal > FreeShippingAbove ==>
              Total(subtotal, discount) == CartPage.Total(subtotal) - discount
    ensures subtotal <= FreeShippingAbove ==>
              Total(subtotal, discount) == CartPage.Total(subtotal) - discount - 29.0
    ensures Shipping(subtotal) <= CartPage.Shipping(subtotal)
  {
  }

  // --------------------------------------------------------- coupon session

  /** The three coupon fields of the page: the typed code, the applied
      code ('' when none) and the discount amount. */
  datatype CouponState = CouponState(couponCode: string, appliedCoupon: string, discount: real)

  const NoCoupon: CouponState := CouponState("", "", 0.0)

  /** `POST /coupons/validate` body and its successful response. */
  datatype CouponRequest = CouponRequest(code: string, cartTotal: real)
  datatype CouponReply = CouponReply(code: string, discountAmount: real)

  /** One press of an apply control: the request sent (none when there is no
      code), the resulting coupon fields and the toast raised. */
  datatype ApplyStep = ApplyStep(request: Option<CouponRequest>, next: CouponState, toast: Option<Toast>)

  /** `codeOverride || couponCode`: an offer's code wins over the typed one. */
  function CodeToUse(codeOverride: Option<string>, typed: string): (r: string)
    ensures codeOverride.Some? && codeOverride.value != "" ==> r == codeOverride.value
    ensures codeOverride.None? || codeOverride.value == "" ==> r == typed
  {
    PresentOr(codeOverride, typed)
  }

  /** `handleApplyCoupon(codeOverride)`. `cartTotal` is `getCartTotal()`,
      the subtotal before shipping and discount. There is no guard against an
      already applied coupon here: only the disabled controls prevent it. */
  function ApplyCoupon(st: CouponState, codeOverride: Option<string>, cartTotal: real,
                       reply: Reply<CouponReply>): (r: ApplyStep)
    ensures CodeToUse(codeOverride, st.couponCode) == "" ==> r == ApplyStep(None, st, None)
    ensures CodeToUse(codeOverride, st.couponCode) != "" ==>
              r.request == Some(CouponRequest(CodeToUse(codeOverride, st.couponCode), cartTotal))
    ensures r.request.Some? && reply.Ok? ==>
              r.next == CouponState(reply.data.code, reply.data.code, reply.data.discountAmount)
    ensures r.request.Some? && reply.Ok? ==> r.toast == Some(ToastSuccess("Coupon " + reply.data.code + " applied!"))
    ensures r.request.Some? && reply.Failed? ==> r.next == st && r.toast.Some? && r.toast.value.ToastError?
  {
    var code := CodeToUse(codeOverride, st.couponCode);
    if code == "" then ApplyStep(None, st, None)
    else
      var req := Some(CouponRequest(code, cartTotal));
      match reply
      case Ok(c) =>
        ApplyStep(req, CouponState(c.code, c.code, c.discountAmount),
                  Some(ToastSuccess("Coupon " + c.code + " applied!")))
      case Failed(msg) =>
        ApplyStep(req, st, Some(ToastError(OrElse(msg, "Invalid coupon code"))))
  }

  /** The Remove button. */
  function RemoveCoupon(st: CouponState): (r: CouponState)
    ensures r.appliedCoupon == "" && r.couponCode == "" && r.discount == 0.0
  {
    NoCoupon
  }

  /** The code input is disabled while a coupon is applied. */
  predicate CodeInputEnabled(st: CouponState)
  {
    st.appliedCoupon == ""
  }

  /** `disabled={!couponCode || !!appliedCoupon}`. */
  predicate ApplyButtonEnabled(st: CouponState)
  {
    st.couponCode != "" && st.appliedCoupon == ""
  }

  /** The "Available Offers" list: `availableCoupons.length > 0 && !appliedCoupon`. */
  predicate OffersVisible(st: CouponState, offers: seq<string>)
  {
    |offers| > 0 && st.appliedCoupon == ""
  }

  /** The applied-coupon banner with its Remove button. */
  predicate RemoveVisible(st: CouponState)
  {
    st.appliedCoupon != ""
  }

  /** A user action on the coupon box, with the server's answer where the
      action sends a request. */
  datatype CouponEvent =
    | TypeCode(text: string)
    | ClickApply(reply: Reply<CouponReply>)
    | ClickOffer(code: string, reply: Reply<CouponReply>)
    | ClickRemove

  /** The coupon fields after one action; actions on disabled or hidden
      controls do nothing. */
  function Step(st: CouponState, offers: seq<string>, cartTotal: real, ev: CouponEvent): CouponState
  {
    match ev
    case TypeCode(text) =>
      if CodeInputEnabled(st) then st.(couponCode := text) else st
    case ClickApply(reply) =>
      if ApplyButtonEnabled(st) then ApplyCoupon(st, None, cartTotal, reply).next else st
    case ClickOffer(code, reply) =>
      if OffersVisible(st, offers) && code in offers
      then ApplyCoupon(st, Some(code), cartTotal, reply).next else st
    case ClickRemove =>
      if RemoveVisible(st) then RemoveCoupon(st) else st
  }

  /** The coupon fields after a sequence of actions. */
  function Run(st: CouponState, offers: seq<string>, cartTotal: real, evs: seq<CouponEvent>): CouponState
    decreases |evs|
  {
    if |evs| == 0 then st else Run(Step(st, offers, cartTotal, evs[0]), offers, cartTotal, evs[1..])
  }

  /** While a coupon is applied the input shows exactly that code. */
  predicate Consistent(st: CouponState)
  {
    st.appliedCoupon != "" ==> st.couponCode == st.appliedCoupon
  }

  /** Every reachable coupon state is consistent. */
  lemma {:induction false} RunKeepsConsistent(st: CouponState, offers: seq<string>, cartTotal: real,
                                             evs: seq<CouponEvent>)
    requires Consistent(st)
    ensures Consistent(Run(st, offers, cartTotal, evs))
    decreases |evs|
  {
    if |evs| > 0 {
      var next := Step(st, offers, cartTotal, evs[0]);
      assert Consistent(next);
      RunKeepsConsistent(next, offers, cartTotal, evs[1..]);
    }
  }

  /** While a coupon is applied, every action except Remove leaves the
      coupon fields exactly as they are (no stacking, no overwriting). */
  lemma AppliedCouponLocked(st: CouponState, offers: seq<string>, cartTotal: real, ev: CouponEvent)
    requires st.appliedCoupon != ""
    requires !ev.ClickRemove?
    ensures Step(st, offers, cartTotal, ev) == st
  {
  }

  /** An action whose server answer granted discount `d`. */
  predicate Grants(ev: CouponEvent, d: real)
  {
    match ev
    case ClickApply(reply) => reply.Ok? && reply.data.discountAmount == d
    case ClickOffer(_, reply) => reply.Ok? && reply.data.discountAmount == d
    case _ => false
  }

  /** Discounts are replaced, never added: after any actions the discount is
      the initial one, zero, or the amount of one validation answer. */
  lemma {:induction false} DiscountNeverAccumulates(st: CouponState, offers: seq<string>, cartTotal: real,
                                                    evs: seq<CouponEvent>)
    ensures var d := Run(st, offers, cartTotal, evs).discount;
              d == st.discount || d == 0.0 || exists i :: 0 <= i < |evs| && Grants(evs[i], d)
    decreases |evs|
  {
    if |evs| > 0 {
      var next := Step(st, offers, cartTotal, evs[0]);
      assert next.discount == st.discount || next.discount == 0.0 || Grants(evs[0], next.discount);
      DiscountNeverAccumulates(next, offers, cartTotal, evs[1..]);
      var d := Run(st, offers, cartTotal, evs).discount;
      if exists i :: 0 <= i < |evs[1..]| && Grants(evs[1..][i], d) {
        var i :| 0 <= i < |evs[1..]| && Grants(evs[1..][i], d);
        assert Grants(evs[i + 1], d);
      }
    }
  }

  /** Remove restores the empty coupon state, after which typing a code
      enables Apply again and the offers reappear. */
  lemma RemoveThenReapply(st: CouponState, offers: seq<string>, cartTotal: real, code: string)
    requires RemoveVisible(st)
    ensures Step(st, offers, cartTotal, ClickRemove) == NoCoupon
    ensures ApplyButtonEnabled(Step(NoCoupon, offers, cartTotal, TypeCode(code))) <==> code != ""
    ensures OffersVisible(NoCoupon, offers) <==> |offers| > 0
  {
  }

  /** A successful validation of a non-empty code hides the Apply button
      and the offer list. */
  lemma AppliedHidesControls(st: CouponState, offers: seq<string>, cartTotal: real, reply: Reply<CouponReply>)
    requires ApplyButtonEnabled(st)
    requires reply.Ok? && reply.data.code != ""
    ensures var next := Step(st, offers, cartTotal, ClickApply(reply));
              !ApplyButtonEnabled(next) && !OffersVisible(next, offers) && RemoveVisible(next)
  {
  }

  // ------------------------------------------------------------ order payload

  /** The checkout form. */
  datatype Form = Form(name: string, email: string, phone: string, address: string,
                       city: string, zip: string, paymentMethod: string)

  /** The form's initial state: name and email from the signed-in user. */
  function InitialForm(user: Option<User>): (r: Form)
    ensures r.phone == "" && r.address == "" && r.city == "" && r.zip == "" && r.paymentMethod == ""
    ensures user.None? ==> r.name == "" && r.email == ""
    ensures user.Some? ==> r.name == user.value.name && r.email == user.value.email
  {
    var name := if user.Some? then user.value.name else "";
    var email := if user.Some? then user.value.email else "";
    Form(name, email, "", "", "", "", "")
  }

  /** One entry of the payload's `items`. */
  datatype OrderLine = OrderLine(productId: int, quantity: int, price: real)

  /** A JSON id that may be sent as a string or as a number. */
  datatype JsonId = IdText(text: string) | IdNumber(n: int)

  /** The body of `POST /orders`. `websiteId` is the configured website id
      as a string, or the NUMBER 1 when the variable is unset or empty
      (`import.meta.env.VITE_WEBSITE_ID || 1`). */
  datatype OrderPayload = OrderPayload(
    userId: Option<int>,
    guestName: string,
    guestEmail: string,
    guestPhone: string,
    shippingAddress: string,
    paymentMethod: string,
    items: seq<OrderLine>,
    totalAmount: real,
    websiteId: JsonId)

  /** `cartItems.map(item => ({ product_id, quantity, price }))`. */
  function OrderLines(cart: seq<CartItem>): (r: seq<OrderLine>)
    ensures |r| == |cart|
    ensures forall i :: 0 <= i < |cart| ==>
              r[i].productId == cart[i].product.id &&
              r[i].quantity == cart[i].quantity &&
              r[i].price == cart[i].product.price
  {
    seq(|cart|, i requires 0 <= i < |cart| =>
          OrderLine(cart[i].product.id, cart[i].quantity, cart[i].product.price))
  }

  /** The value of the submitted lines, as the server can recompute it. */
  function LinesValue(lines: seq<OrderLine>): real
  {
    if |lines| == 0 then 0.0 else lines[0].price * lines[0].quantity as real + LinesValue(lines[1..])
  }

  /** The submitted lines are worth exactly the cart's subtotal. */
  lemma {:induction false} LinesValueIsSubtotal(cart: seq<CartItem>)
    ensures LinesValue(OrderLines(cart)) == Subtotal(cart)
  {
    if |cart| > 0 {
      assert OrderLines(cart)[1..] == OrderLines(cart[1..]);
      LinesValueIsSubtotal(cart[1..]);
    }
  }

  /** `user?.id || null`: a signed-out user, or an id of 0, sends null. */
  function UserIdField(user: Option<User>): (r: Option<int>)
    ensures r.Some? <==> user.Some? && user.value.id != 0
    ensures r.Some? ==> r.value == user.value.id
  {
    if user.Some? && user.value.id != 0 then Some(user.value.id) else None
  }

  /** The order body built by `placeOrder` from the page state. */
  function BuildOrder(user: Option<User>, form: Form, cart: seq<CartItem>, discount: real,
                      websiteEnv: string): (r: OrderPayload)
    ensures |r.items| == |cart|
    ensures forall i :: 0 <= i < |cart| ==>
              r.items[i] == OrderLine(cart[i].product.id, cart[i].quantity, cart[i].product.price)
    ensures r.totalAmount == LinesValue(r.items) + Shipping(LinesValue(r.items)) - discount
    ensures r.shippingAddress == form.address + ", " + form.city + ", " + form.zip
    ensures r.userId == UserIdField(user)
    ensures r.guestName == form.name && r.guestEmail == form.email && r.guestPhone == form.phone
    ensures r.paymentMethod == form.paymentMethod
    ensures websiteEnv != "" ==> r.websiteId == IdText(websiteEnv)
    ensures websiteEnv == "" ==> r.websiteId == IdNumber(1)
  {
    LinesValueIsSubtotal(cart);
    OrderPayload(
      UserIdField(user),
      form.name, form.email, form.phone,
      form.address + ", " + form.city + ", " + form.zip,
      form.paymentMethod,
      OrderLines(cart),
      Total(Subtotal(cart), discount),
      if websiteEnv != "" then IdText(websiteEnv) else IdNumber(1))
  }

  // ------------------------------------------------------------ order outcome

  /** The payment settings (`GET /settings`); flags are the strings '1'/'0'. */
  datatype Settings = Settings(codEnabled: string, paypalEnabled: string, paypalMode: string,
                               paypalLiveClientId: string, paypalSandboxClientId: string)

  /** The page state that placing an order reads and writes. */
  datatype Session = Session(settings: Option<Settings>, form: Form, loading: bool,
                             coupon: CouponState, orderPlaced: bool)

  /** The order-creation response: `orderId`, or the legacy `order_id`. */
  datatype OrderReply = OrderReply(orderId: Option<int>, legacyOrderId: Option<int>)

  /** `res.data.orderId || res.data.order_id`. */
  function ConfirmedOrderId(reply: OrderReply): Option<int>
  {
    if reply.orderId.Some? && reply.orderId.value != 0 then reply.orderId else reply.legacyOrderId
  }

  /** What one `placeOrder` call does: the body it posts, the page state
      after the request settles, the calls made into the cart store, the
      navigation to the success page (with the order id), and the toast. */
  datatype OrderStep = OrderStep(sent: OrderPayload, next: Session, cartCalls: seq<CartCall>,
                                 successNavigation: Option<Option<int>>, toast: Option<Toast>)

  /** `placeOrder`: on success mark the order placed, clear the cart and go
      to the success page; on failure only raise a toast. `loading` is reset
      in both cases. */
  function PlaceOrder(s: Session, user: Option<User>, cart: seq<CartItem>, websiteEnv: string,
                      reply: Reply<OrderReply>): (r: OrderStep)
    ensures r.sent == BuildOrder(user, s.form, cart, s.coupon.discount, websiteEnv)
    ensures !r.next.loading
    ensures r.next.form == s.form && r.next.coupon == s.coupon && r.next.settings == s.settings
    ensures reply.Ok? ==> r.next.orderPlaced && r.cartCalls == [ClearCart]
                          && r.successNavigation == Some(ConfirmedOrderId(reply.data))
    ensures reply.Failed? ==> r.next == s.(loading := false) && r.cartCalls == []
                              && r.successNavigation.None?
                              && r.toast.Some? && r.toast.value.ToastError?
  {
    var payload := BuildOrder(user, s.form, cart, s.coupon.discount, websiteEnv);
    match reply
    case Ok(o) =>
      OrderStep(payload, s.(loading := false, orderPlaced := true), [ClearCart],
                Some(ConfirmedOrderId(o)), None)
    case Failed(msg) =>
      OrderStep(payload, s.(loading := false), [], None,
                Some(ToastError("Failed to place order: " + OrElse(msg, "Please try again."))))
  }

  /** The page sends an empty cart back to `/cart` unless an order was just placed. */
  predicate RedirectToCart(cart: seq<CartItem>, orderPlaced: bool)
  {
    |cart| == 0 && !orderPlaced
  }

  /** After a successful order the cleared cart does not bounce the user to
      `/cart`; after a failed one a non-empty cart is still there to retry. */
  lemma OrderOutcomeAndRedirect(s: Session, user: Option<User>, cart: seq<CartItem>, websiteEnv: string,
                                reply: Reply<OrderReply>)
    ensures reply.Ok? ==> !RedirectToCart([], PlaceOrder(s, user, cart, websiteEnv, reply).next.orderPlaced)
    ensures reply.Failed? && |cart| > 0 && !s.orderPlaced ==>
              PlaceOrder(s, user, cart, websiteEnv, reply).cartCalls == [] &&
              !RedirectToCart(cart, PlaceOrder(s, user, cart, websiteEnv, reply).next.orderPlaced)
  {
  }

  // ------------------------------------------------------- payment settings

  /** The default payment method once settings arrive: COD if enabled, else
      PayPal if enabled, else the current value. */
  function DefaultPaymentMethod(settings: Settings, current: string): (r: string)
    ensures settings.codEnabled == "1" ==> r == "COD"
    ensures settings.codEnabled != "1" && settings.paypalEnabled == "1" ==> r == "PayPal"
    ensures settings.codEnabled != "1" && settings.paypalEnabled != "1" ==> r == current
  {
    if settings.codEnabled == "1" then "COD"
    else if settings.paypalEnabled == "1" then "PayPal"
    else current
  }

  /** `fetchSettings`: store the settings and pick the default method; a
      failed fetch is only logged. */
  function LoadSettings(s: Session, reply: Reply<Settings>): (r: Session)
    ensures reply.Failed? ==> r == s
    ensures reply.Ok? ==> r.settings == Some(reply.data)
                          && r.form == s.form.(paymentMethod := DefaultPaymentMethod(reply.data, s.form.paymentMethod))
                          && r.coupon == s.coupon && r.orderPlaced == s.orderPlaced
  {
    match reply
    case Ok(loaded) =>
      s.(settings := Some(loaded),
         form := s.form.(paymentMethod := DefaultPaymentMethod(loaded, s.form.paymentMethod)))
    case Failed(_) => s
  }

  /** The page renders only a loading message until settings are loaded. */
  predicate ShowsLoadingScreen(s: Session)
  {
    s.settings.None?
  }

  /** A failed settings fetch leaves the page on its loading message: the
      checkout form and its buttons never appear on that visit. */
  lemma SettingsFailureBlocksCheckout(s: Session, msg: string)
    requires s.settings.None?
    ensures ShowsLoadingScreen(LoadSettings(s, Failed(msg)))
  {
  }

  /** The PayPal client id: live or sandbox by mode, "test" when empty. */
  function PayPalClientId(settings: Settings): (r: string)
    ensures r != ""
    ensures settings.paypalMode == "live" && settings.paypalLiveClientId != "" ==> r == settings.paypalLiveClientId
    ensures settings.paypalMode != "live" && settings.paypalSandboxClientId != "" ==> r == settings.paypalSandboxClientId
    ensures (if settings.paypalMode == "live" then settings.paypalLiveClientId else settings.paypalSandboxClientId) == "" ==>
              r == "test"
  {
    var id := if settings.paypalMode == "live" then settings.paypalLiveClientId else settings.paypalSandboxClientId;
    OrElse(id, "test")
  }

  /** Only "live" selects the live id: any other mode, including a
      misspelt one, loads the sandbox id, and the live id reaches the page
      in another mode only when it is the same as the id actually chosen. */
  lemma LiveIdOnlyInLiveMode(settings: Settings)
    requires settings.paypalMode != "live"
    ensures PayPalClientId(settings) == OrElse(settings.paypalSandboxClientId, "test")
    ensures PayPalClientId(settings) == settings.paypalLiveClientId ==>
              settings.paypalLiveClientId == settings.paypalSandboxClientId ||
              (settings.paypalSandboxClientId == "" && settings.paypalLiveClientId == "test")
  {
  }

  /** The order control: the COD button when COD is selected, otherwise the
      PayPal buttons (also when no method is selected). */
  datatype SubmitControl = CompletePurchase(enabled: bool) | PayPalButtons(enabled: bool)

  function SubmitControlFor(form: Form, loading: bool): (r: SubmitControl)
    ensures r.CompletePurchase? <==> form.paymentMethod == "COD"
    ensures r.CompletePurchase? ==> (r.enabled <==> !loading && form.address != "" && form.phone != "")
    ensures r.PayPalButtons? ==> (r.enabled <==> form.address != "" && form.phone != "")
  {
    if form.paymentMethod == "COD" then CompletePurchase(!loading && form.address != "" && form.phone != "")
    else PayPalButtons(form.address != "" && form.phone != "")
  }

  /** Neither control can be used without an address and a phone number;
      only the COD button also waits for an order in flight. */
  lemma SubmitNeedsAddressAndPhone(form: Form, loading: bool)
    ensures SubmitControlFor(form, loading).enabled ==> form.address != "" && form.phone != ""
    ensures form.paymentMethod != "COD" ==> SubmitControlFor(form, true) == SubmitControlFor(form, false)
    ensures form.paymentMethod == "COD" ==> !SubmitControlFor(form, true).enabled
  {
  }
}
