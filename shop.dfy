/**
 * The catalog query of the shop page (`pages/Shop.tsx`): keep the products of the selected
 * category whose effective price is within the price limit, then optionally sort them by
 * effective price. `Array.prototype.sort` is stable, and so is the insertion sort used here.
 */
module Shop {
  import opened Lists
  import opened Types
  import opened StoreContext

  datatype SortBy = Featured | PriceLow | PriceHigh

  /** The filter predicate: category `'all'` or equal to the selection, and effective price at
      most the limit. */
  predicate InSelection(product: Product, category: string, priceRange: int) {
    (category == "all" || product.category == category) && EffectivePrice(product) <= priceRange
  }

  /** The sort key of `sortBy`: the comparator `a - b` on effective prices for `'price-low'`,
      `b - a` for `'price-high'`, and no comparator for `'featured'`. */
  function Key(product: Product, sortBy: SortBy): int {
    match sortBy
    case Featured => 0
    case PriceLow => EffectivePrice(product)
    case PriceHigh => -EffectivePrice(product)
  }

  predicate Sorted(s: seq<Product>, sortBy: SortBy) {
    forall i, j :: 0 <= i < j < |s| ==> Key(s[i], sortBy) <= Key(s[j], sortBy)
  }

  /** Put `x` in front of the first element whose key is not smaller, so that it stays ahead
      of elements with an equal key. */
  function Insert(x: Product, s: seq<Product>, sortBy: SortBy): (r: seq<Product>)
    requires Sorted(s, sortBy)
    ensures Sorted(r, sortBy)
    ensures multiset(r) == multiset(s) + multiset{x}
  {
    if s == [] || Key(x, sortBy) <= Key(s[0], sortBy) then [x] + s
    else
      var rest := Insert(x, s[1..], sortBy);
      InsertKeepsHead(x, s, rest, sortBy);
      [s[0]] + rest
  }

  lemma InsertKeepsHead(x: Product, s: seq<Product>, rest: seq<Product>, sortBy: SortBy)
    requires Sorted(s, sortBy) && s != [] && Key(s[0], sortBy) < Key(x, sortBy)
    requires Sorted(rest, sortBy) && multiset(rest) == multiset(s[1..]) + multiset{x}
    ensures Sorted([s[0]] + rest, sortBy)
    ensures multiset([s[0]] + rest) == multiset(s) + multiset{x}
  {
    assert s == [s[0]] + s[1..];
    forall j | 0 <= j < |rest|
      ensures Key(s[0], sortBy) <= Key(rest[j], sortBy)
    {
      assert rest[j] in multiset(rest);
      if rest[j] != x {
        assert rest[j] in s[1..];
      }
    }
  }

  /** Sort by the comparator of `sortBy`. */
  function SortProducts(s: seq<Product>, sortBy: SortBy): (r: seq<Product>)
    ensures Sorted(r, sortBy)
    ensures multiset(r) == multiset(s)
  {
    if s == [] then []
    else
      assert s == [s[0]] + s[1..];
      Insert(s[0], SortProducts(s[1..], sortBy), sortBy)
  }

  /** The products that pass the filter, in catalog order. */
  function Selection(products: seq<Product>, category: string, priceRange: int): seq<Product> {
    Filter(products, p => InSelection(p, category, priceRange))
  }

  /** `filteredProducts`: exactly the catalog products that pass the filter, sorted as asked;
      `'featured'` keeps the catalog order. */
  function FilteredProducts(products: seq<Product>, category: string, priceRange: int,
                            sortBy: SortBy): (r: seq<Product>)
    ensures forall p :: p in r ==> p in products && InSelection(p, category, priceRange)
    ensures forall p :: p in products && InSelection(p, category, priceRange) ==> p in r
    ensures multiset(r) == multiset(Selection(products, category, priceRange))
    ensures sortBy == Featured ==> r == Selection(products, category, priceRange)
    ensures Sorted(r, sortBy)
  {
    var keep := p => InSelection(p, category, priceRange);
    var selected := Filter(products, keep);
    FilterSound(products, keep);
    assert forall p :: p in products && keep(p) ==> p in selected by {
      forall p | p in products && keep(p) {
        FilterKeepsPassing(products, keep, p);
      }
    }
    if sortBy == Featured then selected
    else
      var r := SortProducts(selected, sortBy);
      assert forall p :: p in r <==> p in multiset(r);
      assert forall p :: p in selected <==> p in multiset(selected);
      r
  }
}
