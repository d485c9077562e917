/**
 * The product page (`pages/ProductDetail.tsx`): the lookup of the product by the route's id,
 * the related products, the size picker, and the add-to-cart handler that snapshots the
 * effective price into the cart line.
 */
module ProductDetail {
  import opened Wrappers
  import opened Lists
  import opened Types
  import opened StoreContext
  import opened CartContext

  /** `products.find(p => p.id === id)`: the first product with exactly that id. */
  function FindProduct(products: seq<Product>, id: string): (r: Option<Product>)
    ensures r.Some? ==> r.value in products && r.value.id == id
    ensures r.Some? ==> (exists k :: 0 <= k < |products| && products[k] == r.value &&
                                     forall j :: 0 <= j < k ==> products[j].id != id)
    ensures r.None? <==> forall p :: p in products ==> p.id != id
  {
    if products == [] then None
    else if products[0].id == id then Some(products[0])
    else
      var r := FindProduct(products[1..], id);
      assert forall p :: p in products ==> p == products[0] || p in products[1..];
      if r.Some? then
        ghost var k :| 0 <= k < |products[1..]| && products[1..][k] == r.value &&
          forall j :: 0 <= j < k ==> products[1..][j].id != id;
        assert products[k + 1] == r.value;
        r
      else r
  }

  /** A product just added is found by its id. */
  lemma FindAddedProduct(products: seq<Product>, product: Product)
    ensures FindProduct([product] + products, product.id) == Some(product)
  {
  }

  /** After `deleteProduct(id)` the page for `id` finds nothing. */
  lemma FindDeletedProduct(products: seq<Product>, id: string)
    ensures FindProduct(RemoveProduct(products, id), id).None?
  {
  }

  /** After `updateProduct(updated)` of a listed product the page shows the new version. */
  lemma FindUpdatedProduct(products: seq<Product>, updated: Product)
    requires FindProduct(products, updated.id).Some?
    ensures FindProduct(ReplaceProduct(products, updated), updated.id) == Some(updated)
  {
    var r := ReplaceProduct(products, updated);
    var k :| 0 <= k < |products| && products[k] == FindProduct(products, updated.id).value &&
      forall j :: 0 <= j < k ==> products[j].id != updated.id;
    assert r[k] == updated;
    var found := FindProduct(r, updated.id);
    assert found.Some? by {
      assert r[k] in r;
    }
    var m :| 0 <= m < |r| && r[m] == found.value && forall j :: 0 <= j < m ==> r[j].id != updated.id;
    assert r[k].id == updated.id;
    assert !(m < k) && !(k < m);
  }

  /** `relatedProducts`: up to three other products of the same category, the first ones in
      catalog order. */
  function RelatedProducts(products: seq<Product>, product: Product): (r: seq<Product>)
    ensures |r| <= 3
    ensures forall p :: p in r ==> p in products && p.category == product.category && p.id != product.id
    ensures r <= Filter(products, (p: Product) => p.category == product.category && p.id != product.id)
    ensures |r| < 3 ==>
      r == Filter(products, (p: Product) => p.category == product.category && p.id != product.id)
  {
    var keep := (p: Product) => p.category == product.category && p.id != product.id;
    var same := Filter(products, keep);
    FilterSound(products, keep);
    if |same| <= 3 then same
    else
      assert forall p :: p in same[..3] ==> p in same;
      same[..3]
  }

  const Sizes: seq<string> := ["XS", "S", "M", "L", "XL", "XXL"]

  /** `{ ...product, price: product.salePrice || product.price }`: the record the cart receives,
      whose `price` is the effective price and whose other fields are the product's. */
  function PricedForCart(product: Product): (r: Product)
    ensures r.price == EffectivePrice(product)
    ensures r.(price := product.price) == product
  {
    product.(price := EffectivePrice(product))
  }

  /** A product on sale enters the cart at its sale price, which is then charged per unit. */
  lemma NewLineChargesEffectivePrice(items: seq<CartItem>, product: Product, size: string)
    requires forall i :: 0 <= i < |items| ==> !Matches(items[i], product.id, size)
    ensures Total(AddLine(items, PricedForCart(product), size)) == Total(items) + EffectivePrice(product)
  {
    AddNewLine(items, PricedForCart(product), size);
  }

  /** What pressing "Add to Bag" led to. */
  datatype AddOutcome = SentToLogin | AskedForSize | Added

  /** The page for one product id, with the size picked so far. */
  class ProductPage {
    const productId: string
    var selectedSize: string

    ghost predicate Valid()
      reads this
    {
      selectedSize == "" || selectedSize in Sizes
    }

    constructor (productId: string)
      ensures Valid() && this.productId == productId && selectedSize == ""
    {
      this.productId := productId;
      selectedSize := "";
    }

    /** A size button. */
    method SelectSize(size: string)
      requires size in Sizes
      modifies this`selectedSize
      ensures Valid() && selectedSize == size
    {
      selectedSize := size;
    }

    /** `handleAddToCart`: a signed-out visitor is sent to the login page and a missing size only
        raises an alert; otherwise one unit of the product, at its effective price, is added with
        the picked size and the cart opens. */
    method HandleAddToCart(cart: CartStore, user: Option<User>, products: seq<Product>)
      returns (outcome: AddOutcome)
      requires Valid() && cart.Valid() && FindProduct(products, productId).Some?
      modifies cart
      ensures cart.Valid()
      ensures user.None? ==> outcome == SentToLogin && unchanged(cart)
      ensures user.Some? && selectedSize == "" ==> outcome == AskedForSize && unchanged(cart)
      ensures user.Some? && selectedSize != "" ==>
        outcome == Added && cart.isOpen && selectedSize in Sizes &&
        cart.items == AddLine(old(cart.items), PricedForCart(FindProduct(products, productId).value),
          selectedSize)
    {
      if user.None? {
        return SentToLogin;
      }
      if selectedSize == "" {
        return AskedForSize;
      }
      var product := FindProduct(products, productId).value;
      cart.AddToCart(PricedForCart(product), selectedSize);
      outcome := Added;
    }
  }
}
