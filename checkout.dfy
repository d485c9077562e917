/**
 * The checkout drawer (`pages/Cart.tsx`): the step machine cart -> checkout -> payment -> success,
 * the shipping and card form state, the construction of the order record, and the commit that
 * records the order and empties the cart.
 */
module Checkout {
  import opened Wrappers
  import opened Text
  import opened Types
  import opened CardFormat
  import opened CartContext
  import opened StoreContext

  datatype Step = CartStep | CheckoutStep | PaymentStep | SuccessStep

  datatype ShippingDetails = ShippingDetails(
    fullName: string, email: string, address: string, city: string, pincode: string)

  datatype CardDetails = CardDetails(number: string, name: string, expiry: string, cvc: string)

  datatype PaymentMethod = Card | Upi | Cod

  /** `user?.name`, with a missing user read as the falsy empty string. */
  function UserName(user: Option<User>): string {
    if user.Some? then user.value.name else ""
  }

  function UserEmail(user: Option<User>): string {
    if user.Some? then user.value.email else ""
  }

  /** The shipping form's first value: name and email prefilled from the signed-in user. */
  function InitialShipping(user: Option<User>): (r: ShippingDetails)
    ensures r.address == "" && r.city == "" && r.pincode == ""
    ensures user.None? ==> r.fullName == "" && r.email == ""
    ensures user.Some? ==> r.fullName == user.value.name && r.email == user.value.email
  {
    ShippingDetails(UserName(user), UserEmail(user), "", "", "")
  }

  /** The guard of "Proceed to Pay": name, address, city and pincode are non-empty. The email is
      not checked. */
  predicate ShippingComplete(d: ShippingDetails) {
    d.fullName != "" && d.address != "" && d.city != "" && d.pincode != ""
  }

  /** `VAS-${n}` for the number `Math.floor(1000 + Math.random() * 9000)` picks. */
  function OrderIdFor(n: int): (id: string)
    requires 1000 <= n <= 9999
    ensures |id| == 8 && id[..4] == "VAS-" && AllDigits(id[4..])
    ensures ParseDecimal(id[4..]) == n
  {
    DecimalOfFourDigits(n);
    ParseDecimalOfDecimal(n);
    assert ("VAS-" + Decimal(n))[4..] == Decimal(n);
    "VAS-" + Decimal(n)
  }

  /** Two different picks give two different order ids. */
  lemma OrderIdInjective(m: int, n: int)
    requires 1000 <= m <= 9999 && 1000 <= n <= 9999 && m != n
    ensures OrderIdFor(m) != OrderIdFor(n)
  {
    assert ParseDecimal(OrderIdFor(m)[4..]) != ParseDecimal(OrderIdFor(n)[4..]);
  }

  /** `shippingDetails.fullName || user?.name || 'Guest'`. */
  function CustomerName(d: ShippingDetails, user: Option<User>): (r: string)
    ensures r != ""
    ensures d.fullName != "" ==> r == d.fullName
    ensures d.fullName == "" && UserName(user) != "" ==> r == user.value.name
    ensures d.fullName == "" && UserName(user) == "" ==> r == "Guest"
  {
    OrElse(d.fullName, OrElse(UserName(user), "Guest"))
  }

  /** `shippingDetails.email || user?.email || 'guest@example.com'`. */
  function CustomerEmail(d: ShippingDetails, user: Option<User>): (r: string)
    ensures r != ""
    ensures d.email != "" ==> r == d.email
    ensures d.email == "" && UserEmail(user) != "" ==> r == user.value.email
    ensures d.email == "" && UserEmail(user) == "" ==> r == "guest@example.com"
  {
    OrElse(d.email, OrElse(UserEmail(user), "guest@example.com"))
  }

  /** `${address}, ${city} - ${pincode}`. */
  function AddressLine(d: ShippingDetails): (r: string)
    ensures |r| == |d.address| + |d.city| + |d.pincode| + 5
    ensures r[..|d.address|] == d.address
    ensures r[|d.address|..|d.address| + 2] == ", "
    ensures r[|d.address| + 2..|d.address| + 2 + |d.city|] == d.city
    ensures r[|d.address| + 2 + |d.city|..|r| - |d.pincode|] == " - "
    ensures r[|r| - |d.pincode|..] == d.pincode
  {
    var a, c := |d.address|, |d.city|;
    var r := d.address + ", " + d.city + " - " + d.pincode;
    assert r[a..a + 2] == ", ";
    assert r[a + 2..a + 2 + c] == d.city;
    assert r[a + 2 + c..|r| - |d.pincode|] == " - ";
    assert r[|r| - |d.pincode|..] == d.pincode;
    r
  }

  /** The order record `handlePlaceOrder` builds: a snapshot of the cart lines and total, status
      Processing, and the customer's identity with its fallbacks. `date` is the formatted clock
      reading, an input here. */
  function BuildOrder(id: string, d: ShippingDetails, user: Option<User>, date: string,
                      items: seq<CartItem>): (o: Order)
    ensures o.id == id && o.date == date
    ensures o.status == Processing
    ensures o.items == items && o.total == Total(o.items)
    ensures o.customerName == CustomerName(d, user) && o.customerEmail == CustomerEmail(d, user)
    ensures o.shippingAddress == AddressLine(d)
  {
    Order(id, CustomerName(d, user), CustomerEmail(d, user), date, Total(items), Processing, items,
          AddressLine(d))
  }

  /** The drawer's own state. The cart and the store are separate objects passed to the actions
      that use them. The drawer renders nothing while the cart's `isOpen` is false, so every
      button handler here requires it. */
  class CheckoutPanel {
    var step: Step
    var loading: bool
    var orderId: string
    var shipping: ShippingDetails
    var paymentMethod: PaymentMethod
    var card: CardDetails

    constructor (user: Option<User>)
      ensures step == CartStep && !loading && orderId == ""
      ensures shipping == InitialShipping(user)
      ensures paymentMethod == Card && card == CardDetails("", "", "", "")
    {
      step := CartStep;
      loading := false;
      orderId := "";
      shipping := InitialShipping(user);
      paymentMethod := Card;
      card := CardDetails("", "", "", "");
    }

    /** The footer with the forward and back buttons is shown only for a non-empty cart before
        the success step. */
    predicate FooterShown(cart: CartStore)
      reads this, cart
    {
      |cart.items| > 0 && step != SuccessStep
    }

    /** "Proceed to Checkout": cart -> checkout. */
    method ProceedToCheckout(cart: CartStore)
      requires cart.isOpen
      modifies this`step
      ensures step == if old(step) == CartStep && |cart.items| > 0 then CheckoutStep else old(step)
    {
      if FooterShown(cart) && step == CartStep {
        step := CheckoutStep;
      }
    }

    /** "Back" on the shipping step: checkout -> cart. */
    method BackToCart(cart: CartStore)
      requires cart.isOpen
      modifies this`step
      ensures step == if old(step) == CheckoutStep && |cart.items| > 0 then CartStep else old(step)
    {
      if FooterShown(cart) && step == CheckoutStep {
        step := CartStep;
      }
    }

    /** "Proceed to Pay": checkout -> payment when the shipping form is complete; otherwise the
        step stays and an alert is shown. */
    method ProceedToPayment(cart: CartStore) returns (alerted: bool)
      requires cart.isOpen
      modifies this`step
      ensures var pressed := old(step) == CheckoutStep && |cart.items| > 0;
        && step == (if pressed && ShippingComplete(shipping) then PaymentStep else old(step))
        && alerted == (pressed && !ShippingComplete(shipping))
    {
      alerted := false;
      if FooterShown(cart) && step == CheckoutStep {
        if ShippingComplete(shipping) {
          step := PaymentStep;
        } else {
          alerted := true;
        }
      }
    }

    /** "Back" on the payment step: payment -> checkout, disabled while the order is being
        placed. The entered shipping details are kept. */
    method BackToShipping(cart: CartStore)
      requires cart.isOpen
      modifies this`step
      ensures step == if old(step) == PaymentStep && |cart.items| > 0 && !loading
        then CheckoutStep else old(step)
    {
      if FooterShown(cart) && step == PaymentStep && !loading {
        step := CheckoutStep;
      }
    }

    /** An edit of the shipping form, which is shown on the checkout step. */
    method EditShipping(details: ShippingDetails)
      modifies this`shipping
      ensures shipping == if step == CheckoutStep then details else old(shipping)
    {
      if step == CheckoutStep {
        shipping := details;
      }
    }

    method SelectPaymentMethod(m: PaymentMethod)
      modifies this`paymentMethod
      ensures paymentMethod == m
    {
      paymentMethod := m;
    }

    /** `handleCardNumberChange`. */
    method CardNumberChanged(input: string)
      modifies this`card
      ensures card == old(card).(number := FormatCardNumber(input))
    {
      card := card.(number := FormatCardNumber(input));
    }

    /** `handleExpiryChange`. */
    method ExpiryChanged(input: string)
      modifies this`card
      ensures card == old(card).(expiry := FormatExpiry(input))
    {
      card := card.(expiry := FormatExpiry(input));
    }

    /** The cardholder-name field takes the text as typed. */
    method CardNameChanged(input: string)
      modifies this`card
      ensures card == old(card).(name := input)
    {
      card := card.(name := input);
    }

    /** The CVV field keeps at most four digits. */
    method CvcChanged(input: string)
      modifies this`card
      ensures card == old(card).(cvc := DigitsUpTo(input, 4))
    {
      card := card.(cvc := DigitsUpTo(input, 4));
    }

    /** The payment form can be submitted: the Pay button is not disabled by `loading`, and when
        paying by card the four card inputs, all marked `required`, are filled in. The UPI input is
        not required and cash on delivery has no inputs. */
    predicate PaymentSubmittable()
      reads this
    {
      && !loading
      && (paymentMethod == Card ==>
            card.number != "" && card.name != "" && card.expiry != "" && card.cvc != "")
    }

    /** `handlePlaceOrder`, submitted from the payment form, with the delayed callback run as one
        step and `placeOrder` taken as appending to the store's orders: the order is recorded
        first, then the cart is emptied, then the success step is shown. `pick` stands for the
        random number and `date` for the formatted date. */
    method PlaceOrder(cart: CartStore, store: StoreState, user: Option<User>, pick: int,
                      date: string)
      requires cart.isOpen && step == PaymentStep && PaymentSubmittable() && cart.Valid()
      requires 1000 <= pick <= 9999
      modifies this`step, this`loading, this`orderId, cart, store
      ensures store.orders ==
        old(store.orders) + [BuildOrder(OrderIdFor(pick), shipping, user, date, old(cart.items))]
      ensures store.products == old(store.products) && store.coupons == old(store.coupons)
      ensures cart.Valid() && cart.items == [] && cart.isOpen == old(cart.isOpen)
      ensures step == SuccessStep && !loading && orderId == OrderIdFor(pick)
    {
      loading := true;
      var newOrderId := OrderIdFor(pick);
      orderId := newOrderId;
      var newOrder := BuildOrder(newOrderId, shipping, user, date, cart.items);
      store.PlaceOrder(newOrder);
      cart.ClearCart();
      loading := false;
      step := SuccessStep;
    }

    /** `handlePlaceOrder` as the source has it: the store provides no `placeOrder`, so the
        delayed callback fails at its first statement and nothing after it runs. Only the two
        updates made before the delay take effect: the drawer stays on the payment step with
        both buttons disabled, the cart keeps its lines and no order is recorded. */
    method PlaceOrderAsWritten(cart: CartStore, store: StoreState, pick: int)
      requires cart.isOpen && step == PaymentStep && PaymentSubmittable()
      requires 1000 <= pick <= 9999
      modifies this`loading, this`orderId
      ensures loading && orderId == OrderIdFor(pick) && step == PaymentStep
      ensures cart.items == old(cart.items) && store.orders == old(store.orders)
    {
      loading := true;
      orderId := OrderIdFor(pick);
    }

    /** `handleClose`: close the drawer; after a success, start over at the cart step. Neither the
        cart lines nor the store change. */
    method Close(cart: CartStore)
      requires cart.isOpen && cart.Valid()
      modifies this`step, cart
      ensures cart.Valid() && !cart.isOpen && cart.items == old(cart.items)
      ensures step == if old(step) == SuccessStep then CartStep else old(step)
    {
      cart.SetIsOpen(false);
      if step == SuccessStep {
        step := CartStep;
      }
    }

    /** "Continue Shopping" on the success screen: close the drawer and go back to the cart step. */
    method ContinueShopping(cart: CartStore)
      requires cart.isOpen && cart.Valid() && step == SuccessStep
      modifies this`step, cart
      ensures cart.Valid() && !cart.isOpen && cart.items == old(cart.items)
      ensures step == CartStep
    {
      cart.SetIsOpen(false);
      step := CartStep;
    }

    /** "Track Order" on the success screen: close the drawer only; the step stays at success. */
    method FollowTrackingLink(cart: CartStore)
      requires cart.isOpen && cart.Valid() && step == SuccessStep
      modifies cart
      ensures cart.Valid() && !cart.isOpen && cart.items == old(cart.items)
    {
      cart.SetIsOpen(false);
    }
  }
}
