/**
 * The catalog, order and coupon store (`context/StoreContext.tsx`). Each action replaces one of
 * the three lists; the new list is computed by the functions below. The effective-price rule
 * `getDiscountedPrice` lives here too.
 */
module StoreContext {
  import opened Wrappers
  import opened Lists
  import opened Types

  /** `getDiscountedPrice(product)`: `product.salePrice || product.price`. A sale price of 0 is
      falsy in JavaScript and so counts as no sale price. */
  function EffectivePrice(product: Product): (r: int)
    ensures r == product.price || (product.salePrice == Some(r) && r != 0)
    ensures product.salePrice.Some? && product.salePrice.value != 0 ==> r == product.salePrice.value
  {
    match product.salePrice
    case Some(sale) => if sale != 0 then sale else product.price
    case None => product.price
  }

  /** A sale price of 0 behaves exactly like a missing one: the base price applies. */
  lemma ZeroSalePriceIgnored(product: Product)
    ensures EffectivePrice(product.(salePrice := Some(0))) == product.price
    ensures EffectivePrice(product.(salePrice := None)) == product.price
  {
  }

  /** A positive sale price below the base price lowers the effective price. */
  lemma SalePriceLowers(product: Product)
    requires product.salePrice.Some? && 0 < product.salePrice.value < product.price
    ensures EffectivePrice(product) < product.price
  {
  }

  /** The new `products` of `updateProduct(updated)`: every product with the same id is replaced. */
  function ReplaceProduct(products: seq<Product>, updated: Product): (r: seq<Product>)
    ensures |r| == |products|
    ensures forall i :: 0 <= i < |products| && products[i].id == updated.id ==> r[i] == updated
    ensures forall i :: 0 <= i < |products| && products[i].id != updated.id ==> r[i] == products[i]
  {
    Map(products, (p: Product) => if p.id == updated.id then updated else p)
  }

  /** `updateProduct` of an id that is not in the catalog changes nothing. */
  lemma ReplaceAbsentProduct(products: seq<Product>, updated: Product)
    requires forall i :: 0 <= i < |products| ==> products[i].id != updated.id
    ensures ReplaceProduct(products, updated) == products
  {
  }

  /** The new `products` of `deleteProduct(id)`. */
  function RemoveProduct(products: seq<Product>, id: string): (r: seq<Product>)
    ensures forall p :: p in r ==> p in products && p.id != id
    ensures forall p :: p in products && p.id != id ==> p in r
  {
    var keep := (p: Product) => p.id != id;
    assert forall p :: p in products && keep(p) ==> p in Filter(products, keep) by {
      forall p | p in products && keep(p) {
        FilterKeepsPassing(products, keep, p);
      }
    }
    FilterSound(products, keep);
    Filter(products, keep)
  }

  /** Deleting keeps the surviving products in their catalog order: deleting from a
      concatenation deletes from each part. */
  lemma RemoveProductKeepsOrder(a: seq<Product>, b: seq<Product>, id: string)
    ensures RemoveProduct(a + b, id) == RemoveProduct(a, id) + RemoveProduct(b, id)
  {
    FilterAppend(a, b, (p: Product) => p.id != id);
  }

  /** Deleting an id that is not in the catalog changes nothing. */
  lemma RemoveAbsentProduct(products: seq<Product>, id: string)
    requires forall i :: 0 <= i < |products| ==> products[i].id != id
    ensures RemoveProduct(products, id) == products
  {
    FilterKeepsAll(products, (p: Product) => p.id != id);
  }

  /** The new `orders` of `updateOrderStatus(id, status)`: only the `status` field of the orders
      with that id changes. */
  function SetStatus(orders: seq<Order>, id: string, status: Status): (r: seq<Order>)
    ensures |r| == |orders|
    ensures forall i :: 0 <= i < |orders| && orders[i].id == id ==> r[i] == orders[i].(status := status)
    ensures forall i :: 0 <= i < |orders| && orders[i].id != id ==> r[i] == orders[i]
  {
    Map(orders, (o: Order) => if o.id == id then o.(status := status) else o)
  }

  /** `updateOrderStatus` of an unknown id is a silent no-op. */
  lemma SetStatusOfUnknownId(orders: seq<Order>, id: string, status: Status)
    requires forall i :: 0 <= i < |orders| ==> orders[i].id != id
    ensures SetStatus(orders, id, status) == orders
  {
  }

  /** The new `coupons` of `deleteCoupon(code)`: an exact, case-sensitive comparison. */
  function RemoveCoupon(coupons: seq<Coupon>, code: string): (r: seq<Coupon>)
    ensures forall c :: c in r ==> c in coupons && c.code != code
    ensures forall c :: c in coupons && c.code != code ==> c in r
  {
    var keep := (c: Coupon) => c.code != code;
    assert forall c :: c in coupons && keep(c) ==> c in Filter(coupons, keep) by {
      forall c | c in coupons && keep(c) {
        FilterKeepsPassing(coupons, keep, c);
      }
    }
    FilterSound(coupons, keep);
    Filter(coupons, keep)
  }

  /** The comparison is case-sensitive: a lower-case code does not delete the stored upper-case
      coupon. */
  lemma RemoveCouponIsCaseSensitive()
    ensures var welcome := Coupon("WELCOME10", Percentage, 10, true);
      RemoveCoupon([welcome], "welcome10") == [welcome]
  {
    var welcome := Coupon("WELCOME10", Percentage, 10, true);
    FilterKeepsAll([welcome], (c: Coupon) => c.code != "welcome10");
  }

  /** The store. `placeOrder` is called by the checkout but is not defined by the source's store;
      `PlaceOrder` below is the append that its call site intends. */
  class StoreState {
    var products: seq<Product>
    var orders: seq<Order>
    var coupons: seq<Coupon>

    /** The initial state: the saved (or seed) catalog and orders, and the one built-in coupon. */
    constructor (initialProducts: seq<Product>, initialOrders: seq<Order>)
      ensures products == initialProducts && orders == initialOrders
      ensures coupons == [Coupon("WELCOME10", Percentage, 10, true)]
    {
      products := initialProducts;
      orders := initialOrders;
      coupons := [Coupon("WELCOME10", Percentage, 10, true)];
    }

    /** `addProduct(product)`: prepend. */
    method AddProduct(product: Product)
      modifies this
      ensures products == [product] + old(products)
      ensures orders == old(orders) && coupons == old(coupons)
    {
      products := [product] + products;
    }

    /** `updateProduct(updated)`. */
    method UpdateProduct(updated: Product)
      modifies this
      ensures products == ReplaceProduct(old(products), updated)
      ensures orders == old(orders) && coupons == old(coupons)
    {
      products := ReplaceProduct(products, updated);
    }

    /** `deleteProduct(id)`: orders and coupons are untouched. */
    method DeleteProduct(id: string)
      modifies this
      ensures products == RemoveProduct(old(products), id)
      ensures orders == old(orders) && coupons == old(coupons)
    {
      products := RemoveProduct(products, id);
    }

    /** `updateOrderStatus(id, status)`. */
    method UpdateOrderStatus(id: string, status: Status)
      modifies this
      ensures orders == SetStatus(old(orders), id, status)
      ensures products == old(products) && coupons == old(coupons)
    {
      orders := SetStatus(orders, id, status);
    }

    /** `addCoupon(coupon)`: append, with no check for a duplicate code. */
    method AddCoupon(coupon: Coupon)
      modifies this
      ensures coupons == old(coupons) + [coupon] && |coupons| == |old(coupons)| + 1
      ensures products == old(products) && orders == old(orders)
    {
      coupons := coupons + [coupon];
    }

    /** `deleteCoupon(code)`. */
    method DeleteCoupon(code: string)
      modifies this
      ensures coupons == RemoveCoupon(old(coupons), code)
      ensures products == old(products) && orders == old(orders)
    {
      coupons := RemoveCoupon(coupons, code);
    }

    /** The assumed `placeOrder(order)`: append to `orders`. */
    method PlaceOrder(order: Order)
      modifies this
      ensures orders == old(orders) + [order]
      ensures products == old(products) && coupons == old(coupons)
    {
      orders := orders + [order];
    }
  }
}
