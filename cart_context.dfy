/**
 * The cart store (`context/CartContext.tsx`): the lines of the current shopping session, keyed by
 * (product id, selected size), the derived total and item count, and the drawer's `isOpen` flag.
 * Each action replaces `items` by a new list; the new list is computed by the functions below.
 */
module CartContext {
  import opened Wrappers
  import opened Lists
  import opened Types

  /** `item.id === id && item.selectedSize === size`. */
  predicate Matches(item: CartItem, id: string, size: string) {
    item.product.id == id && item.selectedSize == size
  }

  predicate SameKey(a: CartItem, b: CartItem) {
    Matches(a, b.product.id, b.selectedSize)
  }

  /** At most one line per (product id, size) pair. */
  predicate UniqueKeys(items: seq<CartItem>) {
    forall i, j :: 0 <= i < |items| && 0 <= j < |items| && SameKey(items[i], items[j]) ==> i == j
  }

  /** The invariant every cart action keeps: unique keys and positive quantities. */
  predicate ValidLines(items: seq<CartItem>) {
    && UniqueKeys(items)
    && forall i :: 0 <= i < |items| ==> items[i].quantity >= 1
  }

  /** A line's contribution to `cartTotal`. */
  function LineTotal(item: CartItem): int {
    item.product.price * item.quantity
  }

  function Quantity(item: CartItem): int {
    item.quantity
  }

  /** `cartTotal`: the sum of unit price times quantity over the lines. */
  function Total(items: seq<CartItem>): (r: int)
    ensures (forall x :: x in items ==> x.product.price >= 0 && x.quantity >= 0) ==> r >= 0
  {
    if forall x :: x in items ==> x.product.price >= 0 && x.quantity >= 0 then
      SumNonNegative(items, LineTotal);
      Sum(items, LineTotal)
    else
      Sum(items, LineTotal)
  }

  /** `itemCount`: the sum of the quantities. */
  function Count(items: seq<CartItem>): (r: int)
    ensures (forall x :: x in items ==> x.quantity >= 0) ==> r >= 0
  {
    if forall x :: x in items ==> x.quantity >= 0 then
      SumNonNegative(items, Quantity);
      Sum(items, Quantity)
    else
      Sum(items, Quantity)
  }

  /** `prev.find(...)` for the pair, as the position of the first matching line. */
  function FindLine(items: seq<CartItem>, id: string, size: string): (r: Option<nat>)
    ensures r.Some? ==> r.value < |items| && Matches(items[r.value], id, size)
    ensures r.Some? ==> forall j :: 0 <= j < r.value ==> !Matches(items[j], id, size)
    ensures r.None? ==> forall i :: 0 <= i < |items| ==> !Matches(items[i], id, size)
  {
    if items == [] then None
    else if Matches(items[0], id, size) then Some(0)
    else match FindLine(items[1..], id, size)
      case None => None
      case Some(k) => Some(k + 1)
  }

  function Increment(item: CartItem, id: string, size: string): CartItem {
    if Matches(item, id, size) then item.(quantity := item.quantity + 1) else item
  }

  function Assign(item: CartItem, id: string, size: string, quantity: int): CartItem {
    if Matches(item, id, size) then item.(quantity := quantity) else item
  }

  /** The new `items` of `addToCart(product, size)`: bump the matching lines, or append a line
      with quantity 1 that copies the product, its `price` included. */
  function AddLine(items: seq<CartItem>, product: Product, size: string): (r: seq<CartItem>)
    ensures |r| == if FindLine(items, product.id, size).Some? then |items| else |items| + 1
    ensures FindLine(r, product.id, size).Some?
  {
    match FindLine(items, product.id, size)
    case Some(k) =>
      var r := Map(items, it => Increment(it, product.id, size));
      assert Matches(r[k], product.id, size);
      r
    case None =>
      var r := items + [CartItem(product, 1, size)];
      assert Matches(r[|items|], product.id, size);
      r
  }

  /** The new `items` of `removeFromCart(id, size)`. */
  function RemoveLines(items: seq<CartItem>, id: string, size: string): (r: seq<CartItem>)
    ensures forall x :: x in r ==> x in items && !Matches(x, id, size)
    ensures forall x :: x in items && !Matches(x, id, size) ==> x in r
  {
    var keep := it => !Matches(it, id, size);
    assert forall x :: x in items && keep(x) ==> x in Filter(items, keep) by {
      forall x | x in items && keep(x) {
        FilterKeepsPassing(items, keep, x);
      }
    }
    FilterSound(items, keep);
    Filter(items, keep)
  }

  /** The new `items` of `updateQuantity(id, size, quantity)`. */
  function SetQuantity(items: seq<CartItem>, id: string, size: string, quantity: int)
    : (r: seq<CartItem>)
    ensures quantity < 1 ==> FindLine(r, id, size).None?
    ensures quantity >= 1 ==> |r| == |items|
    ensures quantity >= 1 ==> forall i :: 0 <= i < |r| ==>
      r[i] == if Matches(items[i], id, size) then items[i].(quantity := quantity) else items[i]
  {
    if quantity < 1 then
      var r := RemoveLines(items, id, size);
      assert forall i :: 0 <= i < |r| ==> r[i] in r;
      r
    else Map(items, it => Assign(it, id, size, quantity))
  }

  /** With unique keys, a line that matches the pair is the only one that does. */
  lemma OnlyMatch(items: seq<CartItem>, id: string, size: string, k: nat)
    requires UniqueKeys(items) && k < |items| && Matches(items[k], id, size)
    ensures forall i :: 0 <= i < |items| && i != k ==> !Matches(items[i], id, size)
  {
    forall i | 0 <= i < |items| && i != k
      ensures !Matches(items[i], id, size)
    {
      assert SameKey(items[i], items[k]) ==> i == k;
    }
  }

  /** Adding a pair that is already in the cart bumps that line's quantity by exactly one and
      changes nothing else; the total grows by the line's own unit price, captured when the line
      was created, and the count by one. */
  lemma AddToExistingLine(items: seq<CartItem>, product: Product, size: string, k: nat)
    requires UniqueKeys(items) && k < |items| && Matches(items[k], product.id, size)
    ensures AddLine(items, product, size) == items[k := items[k].(quantity := items[k].quantity + 1)]
    ensures Total(AddLine(items, product, size)) == Total(items) + items[k].product.price
    ensures Count(AddLine(items, product, size)) == Count(items) + 1
  {
    OnlyMatch(items, product.id, size, k);
    var bumped := items[k].(quantity := items[k].quantity + 1);
    assert AddLine(items, product, size) == items[k := bumped];
    SumReplaceAt(items, k, bumped, LineTotal);
    assert LineTotal(bumped) == LineTotal(items[k]) + items[k].product.price;
    SumReplaceAt(items, k, bumped, Quantity);
  }

  /** Adding a new pair appends one line at the end, with quantity 1 and the product's `price` as
      unit price; the total grows by that price and the count by one. */
  lemma AddNewLine(items: seq<CartItem>, product: Product, size: string)
    requires forall i :: 0 <= i < |items| ==> !Matches(items[i], product.id, size)
    ensures AddLine(items, product, size) == items + [CartItem(product, 1, size)]
    ensures Total(AddLine(items, product, size)) == Total(items) + product.price
    ensures Count(AddLine(items, product, size)) == Count(items) + 1
  {
    var line := CartItem(product, 1, size);
    SumAppend(items, [line], LineTotal);
    SumAppend(items, [line], Quantity);
  }

  /** `addToCart` keeps at most one line per pair and every quantity positive. */
  lemma AddLinePreservesValid(items: seq<CartItem>, product: Product, size: string)
    requires ValidLines(items)
    ensures ValidLines(AddLine(items, product, size))
  {
    match FindLine(items, product.id, size)
    case Some(k) =>
      AddToExistingLine(items, product, size, k);
      var r := AddLine(items, product, size);
      forall i, j | 0 <= i < |r| && 0 <= j < |r| && SameKey(r[i], r[j])
        ensures i == j
      {
        assert SameKey(items[i], items[j]);
      }
    case None =>
      AddNewLine(items, product, size);
      var r := AddLine(items, product, size);
      forall i, j | 0 <= i < |r| && 0 <= j < |r|
        ensures SameKey(r[i], r[j]) ==> i == j
      {
        if i < |items| && j < |items| {
          assert SameKey(items[i], items[j]) ==> i == j;
        } else if i < |items| {
          assert !Matches(items[i], product.id, size);
        } else if j < |items| {
          assert !Matches(items[j], product.id, size);
        }
      }
  }

  /** Removing is a no-op when no line matches. */
  lemma RemoveLinesNoMatch(items: seq<CartItem>, id: string, size: string)
    requires forall i :: 0 <= i < |items| ==> !Matches(items[i], id, size)
    ensures RemoveLines(items, id, size) == items
  {
    FilterKeepsAll(items, it => !Matches(it, id, size));
  }

  /** Removing twice is removing once. */
  lemma RemoveLinesIdempotent(items: seq<CartItem>, id: string, size: string)
    ensures RemoveLines(RemoveLines(items, id, size), id, size) == RemoveLines(items, id, size)
  {
    FilterIdempotent(items, it => !Matches(it, id, size));
  }

  /** With unique keys, removing a present pair drops exactly its line, keeps the others in their
      order, and lowers the total and the count by that line's share. */
  lemma RemoveMatchedLine(items: seq<CartItem>, id: string, size: string, k: nat)
    requires UniqueKeys(items) && k < |items| && Matches(items[k], id, size)
    ensures RemoveLines(items, id, size) == items[..k] + items[k + 1..]
    ensures Total(RemoveLines(items, id, size)) == Total(items) - LineTotal(items[k])
    ensures Count(RemoveLines(items, id, size)) == Count(items) - items[k].quantity
  {
    OnlyMatch(items, id, size, k);
    FilterDropsOne(items, it => !Matches(it, id, size), k);
    SumRemoveAt(items, k, LineTotal);
    SumRemoveAt(items, k, Quantity);
  }

  /** Dropping one line keeps the keys unique and the quantities positive. */
  lemma RemoveAtPreservesValid(items: seq<CartItem>, k: nat)
    requires ValidLines(items) && k < |items|
    ensures ValidLines(items[..k] + items[k + 1..])
  {
    var r := items[..k] + items[k + 1..];
    forall i | 0 <= i < |r|
      ensures r[i] == items[if i < k then i else i + 1]
    {
    }
    forall i, j | 0 <= i < |r| && 0 <= j < |r| && SameKey(r[i], r[j])
      ensures i == j
    {
      var i', j' := if i < k then i else i + 1, if j < k then j else j + 1;
      assert SameKey(items[i'], items[j']);
    }
  }

  /** `removeFromCart` keeps the cart invariant. */
  lemma RemoveLinesPreservesValid(items: seq<CartItem>, id: string, size: string)
    requires ValidLines(items)
    ensures ValidLines(RemoveLines(items, id, size))
  {
    match FindLine(items, id, size)
    case Some(k) =>
      RemoveMatchedLine(items, id, size, k);
      RemoveAtPreservesValid(items, k);
    case None =>
      RemoveLinesNoMatch(items, id, size);
  }

  /** `updateQuantity` with a quantity below 1 is `removeFromCart`; with a quantity of 1 or more it
      sets the matching line's quantity to exactly that value and changes nothing else. */
  lemma SetQuantityOfLine(items: seq<CartItem>, id: string, size: string, quantity: int, k: nat)
    requires UniqueKeys(items) && k < |items| && Matches(items[k], id, size)
    ensures quantity < 1 ==> SetQuantity(items, id, size, quantity) == items[..k] + items[k + 1..]
    ensures quantity >= 1 ==>
      SetQuantity(items, id, size, quantity) == items[k := items[k].(quantity := quantity)]
    ensures quantity >= 1 ==>
      Count(SetQuantity(items, id, size, quantity)) == Count(items) - items[k].quantity + quantity
  {
    if quantity < 1 {
      RemoveMatchedLine(items, id, size, k);
    } else {
      OnlyMatch(items, id, size, k);
      var updated := items[k].(quantity := quantity);
      assert SetQuantity(items, id, size, quantity) == items[k := updated];
      SumReplaceAt(items, k, updated, Quantity);
    }
  }

  /** `updateQuantity` of a pair that is not in the cart changes nothing. */
  lemma SetQuantityNoMatch(items: seq<CartItem>, id: string, size: string, quantity: int)
    requires forall i :: 0 <= i < |items| ==> !Matches(items[i], id, size)
    ensures SetQuantity(items, id, size, quantity) == items
  {
    if quantity < 1 {
      RemoveLinesNoMatch(items, id, size);
    } else {
      assert SetQuantity(items, id, size, quantity) == items;
    }
  }

  /** `updateQuantity` keeps the cart invariant. */
  lemma SetQuantityPreservesValid(items: seq<CartItem>, id: string, size: string, quantity: int)
    requires ValidLines(items)
    ensures ValidLines(SetQuantity(items, id, size, quantity))
  {
    if quantity < 1 {
      RemoveLinesPreservesValid(items, id, size);
    } else {
      match FindLine(items, id, size)
      case Some(k) =>
        SetQuantityOfLine(items, id, size, quantity, k);
        var r := SetQuantity(items, id, size, quantity);
        forall i, j | 0 <= i < |r| && 0 <= j < |r| && SameKey(r[i], r[j])
          ensures i == j
        {
          assert SameKey(items[i], items[j]);
        }
      case None =>
        SetQuantityNoMatch(items, id, size, quantity);
    }
  }

  /** With every quantity at least 1, the item count is at least the number of lines, so it is
      zero exactly when the cart is empty. */
  lemma {:induction false} CountAtLeastLines(items: seq<CartItem>)
    requires forall i :: 0 <= i < |items| ==> items[i].quantity >= 1
    ensures Count(items) >= |items|
    ensures Count(items) == 0 <==> items == []
  {
    if items != [] {
      CountAtLeastLines(items[1..]);
    }
  }

  /** The cart store. */
  class CartStore {
    var items: seq<CartItem>
    var isOpen: bool

    ghost predicate Valid()
      reads this
    {
      ValidLines(items)
    }

    /** An empty, closed cart at session start. */
    constructor ()
      ensures Valid() && items == [] && !isOpen
    {
      items := [];
      isOpen := false;
    }

    /** `cartTotal`. */
    function CartTotal(): int
      reads this
    {
      Total(items)
    }

    /** `itemCount`. */
    function ItemCount(): int
      reads this
    {
      Count(items)
    }

    /** `addToCart(product, size)`: insert or increment, then open the drawer. */
    method AddToCart(product: Product, size: string)
      requires Valid()
      modifies this
      ensures Valid() && isOpen
      ensures items == AddLine(old(items), product, size)
    {
      AddLinePreservesValid(items, product, size);
      items := AddLine(items, product, size);
      isOpen := true;
    }

    /** `removeFromCart(id, size)`. */
    method RemoveFromCart(id: string, size: string)
      requires Valid()
      modifies this
      ensures Valid() && isOpen == old(isOpen)
      ensures items == RemoveLines(old(items), id, size)
    {
      RemoveLinesPreservesValid(items, id, size);
      items := RemoveLines(items, id, size);
    }

    /** `updateQuantity(id, size, quantity)`: below 1 it delegates to `removeFromCart`. */
    method UpdateQuantity(id: string, size: string, quantity: int)
      requires Valid()
      modifies this
      ensures Valid() && isOpen == old(isOpen)
      ensures items == SetQuantity(old(items), id, size, quantity)
      ensures quantity < 1 ==> items == RemoveLines(old(items), id, size)
    {
      if quantity < 1 {
        RemoveFromCart(id, size);
        return;
      }
      SetQuantityPreservesValid(items, id, size, quantity);
      items := SetQuantity(items, id, size, quantity);
    }

    /** `clearCart()`. */
    method ClearCart()
      requires Valid()
      modifies this
      ensures Valid() && isOpen == old(isOpen)
      ensures items == [] && CartTotal() == 0 && ItemCount() == 0
    {
      items := [];
    }

    /** `setIsOpen(open)`, the drawer's visibility. */
    method SetIsOpen(open: bool)
      requires Valid()
      modifies this
      ensures Valid() && isOpen == open && items == old(items)
    {
      isOpen := open;
    }
  }
}
