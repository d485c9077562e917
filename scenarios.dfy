/**
 * Walks through the storefront's main flows across the stores and pages, each stated as a
 * method over fresh objects whose results are pinned down by its contract.
 */
module Scenarios {
  import opened Wrappers
  import opened Text
  import opened Types
  import opened StoreContext
  import opened CartContext
  import opened CardFormat
  import opened Checkout
  import opened TrackOrder
  import opened ProductDetail
  import opened Admin

  const Saree := Product("s1", "Banarasi Silk Saree", 12500, None, "sarees", "saree.jpg", "",
    ["Pure silk"], None)

  /** A shopper adds the same saree twice in one size: one line of two units, 25000 in all. */
  method TwoSareesInCart() returns (cart: CartStore)
    ensures fresh(cart) && cart.Valid() && cart.isOpen
    ensures cart.items == [CartItem(Saree, 2, "M")] && cart.CartTotal() == 25000
  {
    cart := new CartStore();
    AddNewLine([], Saree, "M");
    cart.AddToCart(Saree, "M");
    assert cart.items == [CartItem(Saree, 1, "M")];
    AddToExistingLine(cart.items, Saree, "M", 0);
    cart.AddToCart(Saree, "M");
    assert cart.items == [CartItem(Saree, 2, "M")];
  }

  const Asha := Some(User("Asha", "asha@example.com"))
  const AshaShipping := ShippingDetails("Asha", "", "12 MG Road", "Jaipur", "302001")

  /** The signed-in shopper goes to checkout and fills in the shipping form without an email: the
      guard passes and the payment step is shown. */
  method ReadyToPay(cart: CartStore) returns (panel: CheckoutPanel)
    requires cart.isOpen && |cart.items| > 0
    ensures fresh(panel) && panel.step == PaymentStep && panel.shipping == AshaShipping
    ensures !panel.loading && panel.paymentMethod == Card && panel.card == CardDetails("", "", "", "")
  {
    panel := new CheckoutPanel(Asha);
    panel.ProceedToCheckout(cart);
    panel.EditShipping(AshaShipping);
    var alerted := panel.ProceedToPayment(cart);
  }

  /** The pick 4821 gives the order id `VAS-4821`. */
  lemma OrderId4821()
    ensures OrderIdFor(4821) == "VAS-4821"
  {
    assert Decimal(4) == "4";
    assert Decimal(48) == "48";
    assert Decimal(482) == "482";
  }

  /** Typing into the four card inputs through their handlers fills every one of them as soon as
      the number, expiry and CVV texts each hold a digit and the name is not empty, so the
      payment form can then be submitted. */
  method TypeCard(panel: CheckoutPanel, number: string, name: string, expiry: string,
                  cvc: string)
    requires !panel.loading && panel.paymentMethod == Card
    requires DigitsOnly(number) != "" && name != "" && DigitsOnly(expiry) != ""
    requires DigitsOnly(cvc) != ""
    modifies panel`card
    ensures panel.PaymentSubmittable()
    ensures panel.card.name == name && panel.card.cvc == DigitsUpTo(cvc, 4)
  {
    panel.CardNumberChanged(number);
    panel.CardNameChanged(name);
    panel.ExpiryChanged(expiry);
    panel.CvcChanged(cvc);
  }

  /** The shopper then pays cash on delivery: the order records both units at 25000, the account
      email, status Processing and the picked id, and the cart is empty. */
  method CheckoutEndToEnd() returns (order: Order, cartAfter: seq<CartItem>)
    ensures order.total == 25000 && order.id == "VAS-4821" && order.status == Processing
    ensures order.items == [CartItem(Saree, 2, "M")]
    ensures order.customerName == "Asha" && order.customerEmail == "asha@example.com"
    ensures cartAfter == []
  {
    var store := new StoreState([Saree], []);
    var cart := TwoSareesInCart();
    var panel := ReadyToPay(cart);
    panel.SelectPaymentMethod(Cod);
    panel.PlaceOrder(cart, store, Asha, 4821, "15/10/2026");
    OrderId4821();
    order := store.orders[0];
    cartAfter := cart.items;
  }

  /** After an admin marks the order shipped, its id typed in lower case on the tracking page
      finds it with the new status. */
  method TrackShippedOrder(order: Order) returns (tracked: Option<Order>)
    requires order.id == "VAS-4821"
    ensures tracked == Some(order.(status := Shipped))
  {
    var store := new StoreState([Saree], [order]);
    store.UpdateOrderStatus("VAS-4821", Shipped);
    assert store.orders == [order.(status := Shipped)];
    var page := new TrackPage("vas-4821", store.orders);
    assert EqualsIgnoreCase(store.orders[0].id, "vas-4821");
    assert !IsBlank("vas-4821") by {
      assert !IsWhitespace("vas-4821"[0]);
    }
    tracked := page.shown;
  }

  /** The same purchase, paid by UPI, with `handlePlaceOrder` as the source has it: the drawer is
      left on the payment step with its buttons disabled, no order is recorded and the cart keeps
      its line. */
  method CheckoutAsWritten() returns (orders: seq<Order>, cartAfter: seq<CartItem>, step: Step,
                                      loading: bool)
    ensures orders == [] && cartAfter == [CartItem(Saree, 1, "M")]
    ensures step == PaymentStep && loading
  {
    var store := new StoreState([Saree], []);
    var cart := new CartStore();
    cart.AddToCart(Saree, "M");
    assert cart.items == [CartItem(Saree, 1, "M")];
    var panel := ReadyToPay(cart);
    panel.SelectPaymentMethod(Upi);
    panel.PlaceOrderAsWritten(cart, store, 4821);
    orders := store.orders;
    cartAfter := cart.items;
    step := panel.step;
    loading := panel.loading;
  }

  const OnSale := Saree.(price := 10000, salePrice := Some(9000))

  /** A signed-in shopper adds the saree on sale from its product page: the cart holds one unit
      at the sale price. */
  method AddOnSaleSaree(store: StoreState) returns (cart: CartStore)
    requires store.products == [OnSale]
    ensures fresh(cart) && cart.Valid() && cart.CartTotal() == 9000
  {
    cart := new CartStore();
    var page := new ProductDetail.ProductPage("s1");
    page.SelectSize("M");
    assert FindProduct(store.products, "s1") == Some(OnSale);
    assert Total(AddLine([], PricedForCart(OnSale), "M")) == 9000 by {
      NewLineChargesEffectivePrice([], OnSale, "M");
    }
    var outcome := page.HandleAddToCart(cart, Asha, store.products);
    assert cart.items == AddLine([], PricedForCart(OnSale), "M");
  }

  /** The admin edits the saree: price 20000, sale price cleared. */
  method RaiseCatalogPrice(store: StoreState)
    requires store.products == [OnSale]
    modifies store
    ensures store.products == [OnSale.(price := 20000, salePrice := None)]
  {
    var admin := new AdminPanel();
    admin.EditProduct(OnSale);
    admin.FillProductForm(FormOf(OnSale).(price := Some(20000), salePrice := None));
    admin.SaveProduct(store, 1760000000000);
  }

  /** A product on sale enters the cart at its sale price; a later admin edit of the catalog
      price does not reach the line already in the cart. */
  method PriceSnapshot() returns (before: int, after: int, catalogPrice: int)
    ensures before == 9000 && after == 9000 && catalogPrice == 20000
  {
    var store := new StoreState([OnSale], []);
    var cart := AddOnSaleSaree(store);
    before := cart.CartTotal();
    RaiseCatalogPrice(store);
    catalogPrice := EffectivePrice(store.products[0]);
    after := cart.CartTotal();
  }
}
