/**
 * The cart page (frontend/src/pages/Cart.tsx): the order summary computed from
 * the stored `totalPrice`, the free-shipping notice, the per-line subtotals, and
 * the buttons, which only call into the cart store.
 */
module CartPage {
  import opened Types
  import opened Wrappers
  import opened CartContext

  const FreeShippingThreshold: real := 50.0
  const FlatShipping: real := 5.0

  /** Shipping is waived strictly above the threshold; a subtotal of exactly 50 pays it. */
  function Shipping(subtotal: real): (r: real)
    ensures r == 0.0 <==> subtotal > FreeShippingThreshold
    ensures r != 0.0 ==> r == FlatShipping
  {
    if subtotal > FreeShippingThreshold then 0.0 else FlatShipping
  }

  /** The flat 10% tax estimate. */
  function Tax(subtotal: real): (r: real)
    ensures r * 10.0 == subtotal
  {
    subtotal * 0.1
  }

  datatype OrderSummary = OrderSummary(subtotal: real, shipping: real, tax: real, total: real)

  /** The summary panel: subtotal, shipping, tax and the grand total that adds them up. */
  function Summarize(totalPrice: real): (s: OrderSummary)
    ensures s.subtotal == totalPrice
    ensures s.shipping == Shipping(totalPrice) && s.tax == Tax(totalPrice)
    ensures s.total == s.subtotal + s.shipping + s.tax
  {
    OrderSummary(totalPrice, Shipping(totalPrice), Tax(totalPrice),
      totalPrice + (if totalPrice > 50.0 then 0.0 else 5.0) + totalPrice * 0.1)
  }

  /** "Add $x more to get free shipping!": shown strictly below the threshold, with a positive amount. */
  function FreeShippingNotice(totalPrice: real): (r: Option<real>)
    ensures r.Some? <==> totalPrice < FreeShippingThreshold
    ensures r.Some? ==> r.value > 0.0 && totalPrice + r.value == FreeShippingThreshold
  {
    if totalPrice < 50.0 then Some(50.0 - totalPrice) else None
  }

  /**
   * The notice and free shipping never show together, and at exactly 50 neither
   * applies: that subtotal is told nothing and still pays shipping.
   */
  lemma NoticeAndFreeShippingAtThreshold(totalPrice: real)
    ensures !(FreeShippingNotice(totalPrice).Some? && Shipping(totalPrice) == 0.0)
    ensures totalPrice == 50.0 ==> FreeShippingNotice(totalPrice).None? && Shipping(totalPrice) == FlatShipping
    ensures totalPrice != 50.0 ==> FreeShippingNotice(totalPrice).Some? || Shipping(totalPrice) == 0.0
  {
  }

  /** The boundary values of the pricing rules. */
  lemma PricingExamples()
    ensures Summarize(50.0).shipping == 5.0
    ensures Summarize(50.01).shipping == 0.0
    ensures Summarize(100.0).tax == 10.0 && Summarize(100.0).total == 110.0
  {
  }

  /** One rendered line and the subtotal shown beside it. */
  datatype LineView = LineView(item: CartItem, subtotal: real)

  datatype CartView =
    | EmptyCartView
    | FilledCartView(lines: seq<LineView>, itemCount: int, summary: OrderSummary, notice: Option<real>)

  /** What the page renders for a cart state. */
  function Render(items: seq<CartItem>, totalItems: int, totalPrice: real): (v: CartView)
    ensures v.EmptyCartView? <==> |items| == 0
    ensures v.FilledCartView? ==>
      && |v.lines| == |items|
      && (forall i :: 0 <= i < |items| ==>
            v.lines[i].item == items[i] && v.lines[i].subtotal == items[i].product.price * items[i].quantity as real)
      && v.itemCount == totalItems
      && v.summary == Summarize(totalPrice)
      && v.notice == FreeShippingNotice(totalPrice)
  {
    if |items| == 0 then EmptyCartView
    else
      FilledCartView(seq(|items|, i requires 0 <= i < |items| => LineView(items[i], LineTotal(items[i]))),
        totalItems, Summarize(totalPrice), FreeShippingNotice(totalPrice))
  }

  function RenderCart(cart: CartStore): CartView
    reads cart
  {
    Render(cart.items, cart.totalItems, cart.totalPrice)
  }

  datatype CheckoutOutcome = RedirectToLogin | CheckoutComingSoon

  /**
   * "Proceed to Checkout": a signed-out user is sent to the login page, a signed-in
   * one sees a notice. It takes no cart, so no cart state changes either way.
   */
  function HandleCheckout(isAuthenticated: bool): (o: CheckoutOutcome)
    ensures o == RedirectToLogin <==> !isAuthenticated
  {
    if !isAuthenticated then RedirectToLogin else CheckoutComingSoon
  }

  /** The minus button of a line: `updateQuantity(id, quantity - 1)`. */
  method DecrementLine(cart: CartStore, item: CartItem)
    modifies cart
    ensures cart.Valid()
    ensures cart.items == QuantityUpdated(old(cart.items), item.product.id, item.quantity - 1)
  {
    cart.UpdateQuantity(item.product.id, item.quantity - 1);
  }

  /** The plus button of a line: `updateQuantity(id, quantity + 1)`. */
  method IncrementLine(cart: CartStore, item: CartItem)
    modifies cart
    ensures cart.Valid()
    ensures cart.items == QuantityUpdated(old(cart.items), item.product.id, item.quantity + 1)
  {
    cart.UpdateQuantity(item.product.id, item.quantity + 1);
  }

  /** The bin button of a line: `removeFromCart(id)`. */
  method RemoveLine(cart: CartStore, item: CartItem)
    modifies cart
    ensures cart.Valid()
    ensures cart.items == WithoutProduct(old(cart.items), item.product.id)
  {
    cart.RemoveFromCart(item.product.id);
  }

  /** "Clear Cart", which empties the cart only when the confirmation dialog is accepted. */
  method ClearCartButton(cart: CartStore, confirmed: bool)
    modifies cart
    ensures confirmed ==> cart.Valid() && cart.items == [] && cart.totalItems == 0 && cart.totalPrice == 0.0
    ensures !confirmed ==>
      cart.items == old(cart.items) && cart.totalItems == old(cart.totalItems) && cart.totalPrice == old(cart.totalPrice)
  {
    if confirmed {
      cart.ClearCart();
    }
  }

  /**
   * Minus on a line holding one unit removes the product entirely, taking every
   * other size and colour of that product with it.
   */
  lemma MinusOnLastUnitRemovesProduct(items: seq<CartItem>, i: int)
    requires 0 <= i < |items| && items[i].quantity == 1
    ensures var r := QuantityUpdated(items, items[i].product.id, items[i].quantity - 1);
      && !HasProduct(r, items[i].product.id)
      && forall x :: x in items && x.product.id != items[i].product.id ==> x in r
  {
    var id := items[i].product.id;
    RemovedProductAbsent(items, id);
    forall x | x in items && x.product.id != id ensures x in WithoutProduct(items, id) {
      WithoutProductKeeps(items, id, x);
    }
  }

  /**
   * Minus on a line with more than one unit sets that quantity minus one on every
   * line of the product, other variants included; plus does the same with plus one.
   */
  lemma StepperSetsEveryVariant(items: seq<CartItem>, i: int, delta: int)
    requires 0 <= i < |items| && items[i].quantity + delta >= 1
    ensures var r := QuantityUpdated(items, items[i].product.id, items[i].quantity + delta);
      && |r| == |items|
      && forall j :: 0 <= j < |items| ==>
           r[j] == if items[j].product.id == items[i].product.id
                   then items[j].(quantity := items[i].quantity + delta) else items[j]
  {
  }
}
