/**
 * The administration page (`pages/Admin.tsx`): who may open it, the product and coupon forms and
 * what saving them does to the store, and the two dashboard statistics.
 */
module Admin {
  import opened Wrappers
  import opened Lists
  import opened Text
  import opened Types
  import opened StoreContext

  /** The access check: a signed-in user whose email contains `admin` (case-sensitive). */
  predicate CanAccessAdmin(user: Option<User>) {
    user.Some? && Includes(user.value.email, "admin")
  }

  /** Who gets in: nobody signed out, an email containing `admin`, and not `Admin` in another
      case. */
  lemma AccessExamples()
    ensures !CanAccessAdmin(None)
    ensures CanAccessAdmin(Some(User("Asha", "admin@vastrika.com")))
    ensures !CanAccessAdmin(Some(User("Asha", "Admin@vastrika.com")))
  {
    assert OccursAt("admin@vastrika.com", "admin", 0);
    var s := "Admin@vastrika.com";
    forall k | 0 <= k <= |s|
      ensures !OccursAt(s, "admin", k)
    {
      if 0 <= k <= |s| - 5 {
        assert s[k..k + 5][0] == s[k];
        assert s[k..k + 5][1] == s[k + 1];
      }
    }
  }

  /** Any signed-in user whose email has `admin` somewhere in it gets in, whatever surrounds it. */
  lemma AdminSomewhereGetsIn(name: string, before: string, after: string)
    ensures CanAccessAdmin(Some(User(name, before + "admin" + after)))
  {
    var email := before + "admin" + after;
    assert email[|before|..|before| + 5] == "admin";
    assert OccursAt(email, "admin", |before|);
  }

  /** An email without a lower-case `a` never gets in, and neither does a visitor who is not
      signed in. */
  lemma NoLowerAKeepsOut(user: Option<User>)
    requires user.Some? ==> 'a' !in user.value.email
    ensures !CanAccessAdmin(user)
  {
    if user.Some? {
      var email := user.value.email;
      forall k | 0 <= k <= |email|
        ensures !OccursAt(email, "admin", k)
      {
        if k + 5 <= |email| {
          assert email[k] in email;
          assert email[k..k + 5][0] == email[k] != 'a';
        }
      }
    }
  }

  /** The product form (`Partial<Product>`): every field may be missing. A number input that is
      cleared holds 0, and 0 is falsy like a missing value. */
  datatype ProductForm = ProductForm(
    id: Option<string>,
    name: Option<string>,
    price: Option<int>,
    salePrice: Option<int>,
    category: Option<string>,
    image: Option<string>,
    description: Option<string>,
    features: Option<seq<string>>,
    stock: Option<int>)

  const EmptyForm := ProductForm(None, None, None, None, None, None, None, None, None)
  const PlaceholderImage := "https://via.placeholder.com/800x1000"

  /** `field || fallback` on an optional string: missing or empty gives the fallback. */
  function TextOr(field: Option<string>, fallback: string): (r: string)
    ensures field.Some? && field.value != "" ==> r == field.value
    ensures (field.None? || field.value == "") ==> r == fallback
  {
    if field.Some? && field.value != "" then field.value else fallback
  }

  /** A number field is truthy when present and non-zero. */
  predicate NumberSet(field: Option<int>) {
    field.Some? && field.value != 0
  }

  /** The guard of `handleSaveProduct`: a non-empty name and a non-zero price. */
  predicate CanSaveProduct(form: ProductForm) {
    form.name.Some? && form.name.value != "" && NumberSet(form.price)
  }

  /** The product `handleSaveProduct` builds. `now` is `Date.now()`, used as the id of a new
      product. Missing fields take their defaults; `features` falls back only when missing,
      since an empty array is truthy; `stock` is not copied. */
  function BuildProduct(form: ProductForm, now: nat): (p: Product)
    requires CanSaveProduct(form)
    ensures p.id != "" && p.name == form.name.value && p.price == form.price.value
    ensures p.id == TextOr(form.id, Decimal(now))
    ensures NumberSet(form.salePrice) <==> p.salePrice.Some?
    ensures p.salePrice.Some? ==> p.salePrice == form.salePrice && p.salePrice.value != 0
    ensures p.category == TextOr(form.category, "sarees") && p.category != ""
    ensures p.image == TextOr(form.image, PlaceholderImage) && p.image != ""
    ensures p.description == TextOr(form.description, "")
    ensures p.features == (if form.features.Some? then form.features.value else ["Premium Quality"])
    ensures p.stock.None?
  {
    Product(
      TextOr(form.id, Decimal(now)),
      form.name.value,
      form.price.value,
      if NumberSet(form.salePrice) then form.salePrice else None,
      TextOr(form.category, "sarees"),
      TextOr(form.image, PlaceholderImage),
      TextOr(form.description, ""),
      if form.features.Some? then form.features.value else ["Premium Quality"],
      None)
  }

  /** `handleEditClick`: the form is filled with the product's fields. */
  function FormOf(product: Product): (form: ProductForm)
    ensures form.id == Some(product.id) && form.salePrice == product.salePrice
    ensures form.stock == product.stock
  {
    ProductForm(Some(product.id), Some(product.name), Some(product.price), product.salePrice,
      Some(product.category), Some(product.image), Some(product.description),
      Some(product.features), product.stock)
  }

  /** Saving an edit form nobody touched gives back the product, except that its stock is lost
      and a sale price of 0 is dropped (an effective-price-neutral change). */
  lemma SaveUneditedProduct(product: Product, now: nat)
    requires product.id != "" && product.name != "" && product.price != 0
    requires product.category != "" && product.image != ""
    ensures CanSaveProduct(FormOf(product))
    ensures BuildProduct(FormOf(product), now) ==
      product.(salePrice := if NumberSet(product.salePrice) then product.salePrice else None,
               stock := None)
    ensures EffectivePrice(BuildProduct(FormOf(product), now)) == EffectivePrice(product)
  {
  }

  /** The coupon form. The value is the text of a number input with `min="0"`; it is modelled as
      a string of decimal digits, and `Number(value)` as its decimal value. */
  datatype CouponForm = CouponForm(code: string, discountType: DiscountType, value: string)

  const EmptyCouponForm := CouponForm("", Percentage, "")

  /** The guard of `handleSaveCoupon`: a non-empty code and a non-empty value text. The text
      `"0"` is truthy, so a coupon worth 0 passes. */
  predicate CanSaveCoupon(form: CouponForm) {
    form.code != "" && form.value != ""
  }

  /** The coupon `handleSaveCoupon` adds: the code upper-cased, the value parsed, active. */
  function BuildCoupon(form: CouponForm): (c: Coupon)
    requires AllDigits(form.value)
    ensures c.code == Upper(form.code) && |c.code| == |form.code| && c.isActive
    ensures c.discountType == form.discountType
    ensures forall n: nat :: form.value == Decimal(n) ==> c.value == n
  {
    assert forall n: nat :: form.value == Decimal(n) ==> ParseDecimal(form.value) == n by {
      forall n: nat {
        ParseDecimalOfDecimal(n);
      }
    }
    Coupon(Upper(form.code), form.discountType, ParseDecimal(form.value), true)
  }

  /** `totalRevenue`: the sum of all order totals, whatever their status. */
  function TotalRevenue(orders: seq<Order>): (r: int)
    ensures (forall o :: o in orders ==> o.total >= 0) ==> r >= 0
  {
    if forall o :: o in orders ==> o.total >= 0 then
      SumNonNegative(orders, (o: Order) => o.total);
      Sum(orders, (o: Order) => o.total)
    else
      Sum(orders, (o: Order) => o.total)
  }

  /** `pendingOrders`: the number of orders still `Processing`. */
  function PendingOrders(orders: seq<Order>): (n: nat)
    ensures n <= |orders|
  {
    |Filter(orders, (o: Order) => o.status == Processing)|
  }

  /** Recording an order adds its total to the revenue, and one to the pending count when it is
      still processing. */
  lemma StatisticsAfterNewOrder(orders: seq<Order>, order: Order)
    ensures TotalRevenue(orders + [order]) == TotalRevenue(orders) + order.total
    ensures PendingOrders(orders + [order]) ==
      PendingOrders(orders) + (if order.status == Processing then 1 else 0)
  {
    SumAppend(orders, [order], (o: Order) => o.total);
    FilterAppend(orders, [order], (o: Order) => o.status == Processing);
  }

  /** A status change, cancellation included, leaves the revenue as it was. */
  lemma RevenueIgnoresStatus(orders: seq<Order>, id: string, status: Status)
    ensures TotalRevenue(SetStatus(orders, id, status)) == TotalRevenue(orders)
  {
    SumMapSameWeight(orders, (o: Order) => if o.id == id then o.(status := status) else o,
      (o: Order) => o.total);
  }

  /** A status change can only lower the pending count when the new status is not
      `Processing`, and only raise it when it is. */
  lemma {:induction false} PendingAfterStatusChange(orders: seq<Order>, id: string, status: Status)
    ensures status == Processing ==> PendingOrders(SetStatus(orders, id, status)) >= PendingOrders(orders)
    ensures status != Processing ==> PendingOrders(SetStatus(orders, id, status)) <= PendingOrders(orders)
  {
    if orders != [] {
      var f := (o: Order) => if o.id == id then o.(status := status) else o;
      assert SetStatus(orders, id, status) == Map(orders, f);
      assert Map(orders, f)[1..] == Map(orders[1..], f);
      PendingAfterStatusChange(orders[1..], id, status);
    }
  }

  /** The page's form state. */
  class AdminPanel {
    var isEditingProduct: bool
    var productForm: ProductForm
    var isAddingCoupon: bool
    var couponForm: CouponForm

    ghost predicate Valid()
      reads this
    {
      AllDigits(couponForm.value)
    }

    constructor ()
      ensures Valid() && !isEditingProduct && productForm == EmptyForm
      ensures !isAddingCoupon && couponForm == EmptyCouponForm
    {
      isEditingProduct := false;
      productForm := EmptyForm;
      isAddingCoupon := false;
      couponForm := EmptyCouponForm;
    }

    /** "Add Product": an empty form. */
    method StartNewProduct()
      modifies this`isEditingProduct, this`productForm
      ensures isEditingProduct && productForm == EmptyForm
    {
      isEditingProduct := true;
      productForm := EmptyForm;
    }

    /** `handleEditClick(product)`. */
    method EditProduct(product: Product)
      modifies this`isEditingProduct, this`productForm
      ensures isEditingProduct && productForm == FormOf(product)
    {
      productForm := FormOf(product);
      isEditingProduct := true;
    }

    /** The form's inputs, each replacing one field of the form. */
    method FillProductForm(form: ProductForm)
      modifies this`productForm
      ensures productForm == form
    {
      productForm := form;
    }

    /** `handleSaveProduct`: nothing happens unless the guard passes; then a form with an id
        replaces the product of that id and a form without one prepends a new product, and the
        form is closed and emptied. */
    method SaveProduct(store: StoreState, now: nat)
      modifies this`isEditingProduct, this`productForm, store
      ensures !CanSaveProduct(old(productForm)) ==>
        unchanged(store) && productForm == old(productForm) && isEditingProduct == old(isEditingProduct)
      ensures CanSaveProduct(old(productForm)) ==> !isEditingProduct && productForm == EmptyForm
      ensures CanSaveProduct(old(productForm)) && TextOr(old(productForm).id, "") != "" ==>
        store.products == ReplaceProduct(old(store.products), BuildProduct(old(productForm), now))
      ensures CanSaveProduct(old(productForm)) && TextOr(old(productForm).id, "") == "" ==>
        store.products == [BuildProduct(old(productForm), now)] + old(store.products)
      ensures store.orders == old(store.orders) && store.coupons == old(store.coupons)
    {
      if !CanSaveProduct(productForm) {
        return;
      }
      var product := BuildProduct(productForm, now);
      if TextOr(productForm.id, "") != "" {
        store.UpdateProduct(product);
      } else {
        store.AddProduct(product);
      }
      isEditingProduct := false;
      productForm := EmptyForm;
    }

    /** `handleDeleteClick(id)`: the product is removed only when the confirmation is accepted. */
    method DeleteProduct(store: StoreState, id: string, confirmed: bool)
      modifies store
      ensures confirmed ==> store.products == RemoveProduct(old(store.products), id)
      ensures !confirmed ==> store.products == old(store.products)
      ensures store.orders == old(store.orders) && store.coupons == old(store.coupons)
    {
      if confirmed {
        store.DeleteProduct(id);
      }
    }

    /** The code input upper-cases what is typed. */
    method TypeCouponCode(text: string)
      requires Valid()
      modifies this`couponForm
      ensures Valid() && couponForm == old(couponForm).(code := Upper(text))
    {
      couponForm := couponForm.(code := Upper(text));
    }

    method SelectDiscountType(discountType: DiscountType)
      requires Valid()
      modifies this`couponForm
      ensures Valid() && couponForm == old(couponForm).(discountType := discountType)
    {
      couponForm := couponForm.(discountType := discountType);
    }

    /** The value input; the number input only holds digit strings. */
    method TypeCouponValue(text: string)
      requires Valid() && AllDigits(text)
      modifies this`couponForm
      ensures Valid() && couponForm == old(couponForm).(value := text)
    {
      couponForm := couponForm.(value := text);
    }

    /** `handleSaveCoupon`: nothing happens unless the guard passes; then the coupon is appended
        and the form is closed and reset. */
    method SaveCoupon(store: StoreState)
      requires Valid()
      modifies this`isAddingCoupon, this`couponForm, store
      ensures Valid()
      ensures !CanSaveCoupon(old(couponForm)) ==>
        unchanged(store) && couponForm == old(couponForm) && isAddingCoupon == old(isAddingCoupon)
      ensures CanSaveCoupon(old(couponForm)) ==>
        store.coupons == old(store.coupons) + [BuildCoupon(old(couponForm))] &&
        !isAddingCoupon && couponForm == EmptyCouponForm
      ensures store.products == old(store.products) && store.orders == old(store.orders)
    {
      if !CanSaveCoupon(couponForm) {
        return;
      }
      store.AddCoupon(BuildCoupon(couponForm));
      isAddingCoupon := false;
      couponForm := EmptyCouponForm;
    }
  }

  /** A code typed in any case is saved upper-cased, exactly as the input showed it. */
  lemma SavedCodeIsTypedCode(text: string)
    ensures BuildCoupon(CouponForm(Upper(text), Percentage, "10")).code == Upper(text)
  {
    UpperIdempotent(text);
  }
}
