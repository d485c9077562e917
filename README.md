# Vastrika storefront: a verified model of its state handling

Vastrika is a single-page storefront for Indian ethnic wear. It has a product catalogue, a cart
drawer with a four-step checkout, order tracking, an admin panel and a profile page. All of its
business logic runs in the browser. It works on in-memory lists of records: products, cart
lines, orders, coupons, addresses and cards. It changes them through handlers that filter, map,
prepend or append.

This project models that logic in Dafny:

- **Shared stores.** Two stores are shared by the pages:
  - the cart store (`CartContext`): lines keyed by product id and size, with insert-or-increment, remove, set-quantity, clear, and the derived total and item count;
  - the catalogue/order/coupon store (`StoreContext`): product add, update and delete; order status changes; coupon add and delete; and the effective-price rule `salePrice || price`.
- **Pages.** Each page's state lives in its own class, and the new values are computed by pure functions:
  - the checkout drawer (`Checkout`): its step machine, card-number and expiry formatting (`CardFormat`), order-record construction and the order commit;
  - the catalogue query (`Shop`): filter, then a stable price sort;
  - order tracking (`TrackOrder`);
  - the admin handlers (`Admin`);
  - the add-to-cart guard on the product page (`ProductDetail`);
  - the profile lists (`Profile`).
- **Shared helpers.** Generic list helpers (`Lists`) and JavaScript string semantics (`Text`): digit stripping, ASCII case mapping, `trim`-blankness, `includes`, `||` on strings, and printing and parsing decimals.
- **Scenarios.** `Scenarios` walks through whole flows across the stores and pages.

Three design points:

- **Sale price of zero.** JavaScript truthiness is modelled explicitly. A sale price of 0 counts as no sale price, and an empty string is falsy in every `a || b` fallback.
- **Cart lines.** A cart line is modelled as `CartItem(product, quantity, selectedSize)`. Its unit price is the `price` of the product record stored in the line. The product page stores that record with `price` replaced by the effective price, so a later catalogue edit cannot change a line already in the cart.
- **Placing an order.** The checkout calls a store operation `placeOrder` that the store does not define (see Findings). `StoreContext.StoreState.PlaceOrder` is therefore an ASSUMED operation: it appends to `orders`, which is what the comment at its call site intends. It is not behaviour of the source.

## Model

The `Lists` members are generic helpers. Each of their rows cites one representative call site, and the helpers are used throughout:
- `Filter` is used by the cart's remove (context/CartContext.tsx:38), the store's product and coupon deletes (context/StoreContext.tsx:78, 90), the shop filter (pages/Shop.tsx:36), related products (pages/ProductDetail.tsx:41), the pending-order count (pages/Admin.tsx:96) and the profile deletes (pages/Profile.tsx:98, 116, 148).
- `Map` is used by the cart's increment and set-quantity (context/CartContext.tsx:26, 46), the store's product and status updates (context/StoreContext.tsx:74, 82) and the address merge (pages/Profile.tsx:123).
- `Sum` is used by the cart total and count (context/CartContext.tsx:55-56) and the admin revenue (pages/Admin.tsx:95).
- `IndexOf` is used by the tracking steps (pages/TrackOrder.tsx:43).

| member | source | states |
|---|---|---|
| Lists.Filter | context/StoreContext.tsx:78 | generic `Array.filter`: never longer than its input (soundness and completeness are the next two rows) |
| Lists.FilterSound | context/StoreContext.tsx:78 | every survivor of the filter comes from the input and passes the predicate (soundness) |
| Lists.FilterKeepsPassing | context/StoreContext.tsx:78 | every element that passes the predicate survives the filter (completeness) |
| Lists.Map | context/StoreContext.tsx:74 | generic `Array.map`: same length, each position is the function applied to the input at that position |
| Lists.IndexOf | pages/TrackOrder.tsx:43 | generic `Array.indexOf`: -1 exactly when absent, otherwise the first position holding the value |
| Lists.FilterAppend | context/StoreContext.tsx:78 | filtering a concatenation is concatenating the filtered parts, so survivors keep their relative order |
| Lists.FilterKeepsAll | context/StoreContext.tsx:78 | a filter that rejects nothing returns its input |
| Lists.FilterKeepsNone | context/StoreContext.tsx:78 | a filter that rejects everything returns the empty list |
| Lists.FilterIdempotent | context/CartContext.tsx:38 | filtering twice with one predicate is filtering once |
| Lists.FilterPartition | context/StoreContext.tsx:78 | survivors plus rejects are, as a multiset, the input |
| Lists.SumAppend | pages/Admin.tsx:95 | a `reduce` sum over a concatenation is the sum of the two parts |
| Lists.SumNonNegative | context/CartContext.tsx:55-56 | non-negative weights give a non-negative sum |
| Lists.SumMapSameWeight | pages/Admin.tsx:95 | a map that keeps every element's weight keeps the sum |
| Lists.SumReplaceAt | context/CartContext.tsx:55-56 | replacing one element changes the sum by exactly the difference of the weights |
| Lists.SumRemoveAt | context/CartContext.tsx:55-56 | removing one element lowers the sum by exactly its weight |
| Lists.FilterSkipsOne | context/CartContext.tsx:38 | a filter that rejects one element lying between two runs it keeps returns exactly the two runs, in order |
| Lists.FilterDropsOne | context/CartContext.tsx:38 | a filter that rejects exactly one position yields the input with just that element removed |
| Text.DigitsOnly | pages/Cart.tsx:37 | `replace(/\D/g, '')`: only digits remain, never longer, an all-digit string is unchanged |
| Text.DigitsOnlyIsFilter | pages/Cart.tsx:37 | stripping the non-digits is filtering on `IsDigit`: the input's digits all survive, in their original order, and nothing else does |
| Text.DigitsOnlyAppend | pages/Cart.tsx:37 | stripping non-digits distributes over concatenation |
| Text.Prefix | pages/Cart.tsx:37 | `substring(0, n)`: the prefix of length `n`, or the whole string when it is shorter |
| Text.LastChars | pages/Profile.tsx:137 | `slice(-n)`: the suffix of length `n`, or the whole string when it is shorter |
| Text.UpperChar | pages/Admin.tsx:85 | a lower-case ASCII letter becomes the upper-case letter at the same place in the alphabet; every other character is unchanged; no lower-case letter comes out |
| Text.LowerChar | pages/TrackOrder.tsx:32 | an upper-case ASCII letter becomes the lower-case letter at the same place in the alphabet; every other character is unchanged; no upper-case letter comes out |
| Text.CaseRoundTrip | pages/TrackOrder.tsx:32 | upper-casing a lower-case letter and lower-casing it again gives the letter back, and the other way round |
| Text.Upper | pages/Admin.tsx:85 | `toUpperCase`: same length, each character upper-cased in place, so no lower-case ASCII letter is left |
| Text.Lower | pages/TrackOrder.tsx:32 | `toLowerCase`: same length, each character lower-cased in place, so no upper-case ASCII letter is left |
| Text.UpperIdempotent | pages/Admin.tsx:384 | upper-casing twice is upper-casing once, so the code typed (already upper-cased) is saved as shown |
| Text.EqualsIgnoreCaseOfCaseChange | pages/TrackOrder.tsx:32 | a string equals its upper- and lower-cased forms when compared ignoring case |
| Text.IsBlank | pages/TrackOrder.tsx:27 | `!s.trim()`: every character is whitespace (definition; its use is stated by `TrackOrder.TrackPage.HandleSearch`) |
| Text.Includes | pages/Admin.tsx:33 | `s.includes(sub)`: `sub` occurs at some position (definition; see `Admin.AdminSomewhereGetsIn`) |
| Text.OrElse | pages/Cart.tsx:61-62 | JavaScript `a \|\| b` on strings: `a` when non-empty, else `b`; empty only when both are |
| Text.DigitChar | pages/Cart.tsx:55 | a digit value 0..9 maps to the digit character whose value it is |
| Text.DigitValue | pages/Cart.tsx:55 | a digit character maps to its distance from `0`, a value 0..9 |
| Text.DigitCharOfValue | pages/Cart.tsx:55 | every digit character is the character of its own value, so the two conversions are inverse |
| Text.Decimal | pages/Cart.tsx:55 | the decimal text of a number is a non-empty digit string |
| Text.ParseDecimalOfDecimal | pages/Cart.tsx:55 | parsing the decimal text of `n` gives back `n` |
| Text.DecimalOfFourDigits | pages/Cart.tsx:55 | every number in [1000, 9999] prints as exactly four digits |
| CartContext.Total | context/CartContext.tsx:55 | `cartTotal`, the sum of unit price times quantity; never negative when prices and quantities are not |
| CartContext.Count | context/CartContext.tsx:56 | `itemCount`, the sum of the quantities; never negative when the quantities are not |
| CartContext.FindLine | context/CartContext.tsx:24 | `find` on (id, size): the position of the first matching line, or none when no line matches |
| CartContext.AddLine | context/CartContext.tsx:22-33 | `addToCart`'s new list: the same length when the pair is present, one longer otherwise, and the pair is found in it afterwards |
| CartContext.SetQuantity | context/CartContext.tsx:41-49 | `updateQuantity`'s new list: below 1 no line matches the pair any more; otherwise same length, matching lines take the new quantity and the others are unchanged |
| CartContext.RemoveLines | context/CartContext.tsx:37-39 | `removeFromCart`'s new list: exactly the lines not matching (id, size) survive |
| CartContext.OnlyMatch | context/CartContext.tsx:24-31 | with unique keys, a matching line is the only match |
| CartContext.AddToExistingLine | context/CartContext.tsx:24-31 | adding a present pair bumps that line's quantity by one and changes nothing else; the total grows by the line's own unit price and the count grows by one |
| CartContext.AddNewLine | context/CartContext.tsx:32 | adding a new pair appends one line with quantity 1 and the product's price; the total grows by that price and the count grows by one |
| CartContext.AddLinePreservesValid | context/CartContext.tsx:22-33 | `addToCart` keeps at most one line per (id, size), with every quantity positive |
| CartContext.RemoveLinesNoMatch | context/CartContext.tsx:38 | removing an absent pair is a no-op |
| CartContext.RemoveLinesIdempotent | context/CartContext.tsx:38 | removing twice is removing once |
| CartContext.RemoveMatchedLine | context/CartContext.tsx:37-39 | removing a present pair drops exactly its line; the others keep their order; the total and count fall by that line's share |
| CartContext.RemoveAtPreservesValid | context/CartContext.tsx:38 | dropping one line keeps the keys unique and the quantities positive |
| CartContext.RemoveLinesPreservesValid | context/CartContext.tsx:37-39 | `removeFromCart` keeps the cart invariant |
| CartContext.SetQuantityOfLine | context/CartContext.tsx:41-49 | below 1 the line is removed; otherwise exactly that line's quantity becomes the value, and the count changes by the difference |
| CartContext.SetQuantityNoMatch | context/CartContext.tsx:46-48 | `updateQuantity` of an absent pair changes nothing |
| CartContext.SetQuantityPreservesValid | context/CartContext.tsx:41-49 | `updateQuantity` keeps the cart invariant |
| CartContext.CountAtLeastLines | context/CartContext.tsx:56 | with positive quantities, the item count is at least the number of lines, and zero exactly for an empty cart |
| CartContext.CartStore.constructor | context/CartContext.tsx:19-20 | an empty, closed cart satisfying the invariant |
| CartContext.CartStore.AddToCart | context/CartContext.tsx:22-35 | the lines become the insert-or-increment of the old lines; the drawer opens; the invariant is kept |
| CartContext.CartStore.RemoveFromCart | context/CartContext.tsx:37-39 | the lines become the old lines without the pair; `isOpen` is kept |
| CartContext.CartStore.UpdateQuantity | context/CartContext.tsx:41-49 | the lines become the set-quantity of the old lines, which is `removeFromCart` below 1; `isOpen` is kept |
| CartContext.CartStore.ClearCart | context/CartContext.tsx:51-53 | empty lines, total 0 and count 0; `isOpen` is kept |
| CartContext.CartStore.SetIsOpen | context/CartContext.tsx:20 | only the drawer flag changes |
| StoreContext.EffectivePrice | context/StoreContext.tsx:93-95 | `salePrice \|\| price`: the sale price when it is present and non-zero, otherwise the price |
| StoreContext.ZeroSalePriceIgnored | context/StoreContext.tsx:94 | a sale price of 0 behaves like no sale price |
| StoreContext.SalePriceLowers | context/StoreContext.tsx:94 | a positive sale price below the price lowers the effective price |
| StoreContext.ReplaceProduct | context/StoreContext.tsx:73-75 | `updateProduct`'s new list: same length; products with that id are replaced, all others are unchanged |
| StoreContext.ReplaceAbsentProduct | context/StoreContext.tsx:74 | updating an absent id is a no-op |
| StoreContext.RemoveProduct | context/StoreContext.tsx:77-79 | `deleteProduct`'s new list: exactly the products with other ids survive |
| StoreContext.RemoveProductKeepsOrder | context/StoreContext.tsx:78 | deletion distributes over concatenation, so the survivors keep their order |
| StoreContext.RemoveAbsentProduct | context/StoreContext.tsx:78 | deleting an absent id is a no-op |
| StoreContext.SetStatus | context/StoreContext.tsx:81-83 | `updateOrderStatus`'s new list: same length; only the status of orders with that id changes |
| StoreContext.SetStatusOfUnknownId | context/StoreContext.tsx:82 | an unknown order id is a silent no-op |
| StoreContext.RemoveCoupon | context/StoreContext.tsx:89-91 | `deleteCoupon`'s new list: exactly the coupons with a different code survive |
| StoreContext.RemoveCouponIsCaseSensitive | context/StoreContext.tsx:90 | `welcome10` does not delete `WELCOME10` |
| StoreContext.StoreState.constructor | context/StoreContext.tsx:54-56 | the initial catalogue and orders, plus the one built-in `WELCOME10` coupon |
| StoreContext.StoreState.AddProduct | context/StoreContext.tsx:69-71 | the product is prepended; orders and coupons are untouched |
| StoreContext.StoreState.UpdateProduct | context/StoreContext.tsx:73-75 | products become the replacement; orders and coupons are untouched |
| StoreContext.StoreState.DeleteProduct | context/StoreContext.tsx:77-79 | products become the removal; orders and coupons are untouched |
| StoreContext.StoreState.UpdateOrderStatus | context/StoreContext.tsx:81-83 | orders become the status replacement; products and coupons are untouched |
| StoreContext.StoreState.AddCoupon | context/StoreContext.tsx:85-87 | the coupon is appended without a duplicate check, so the length grows by exactly one |
| StoreContext.StoreState.DeleteCoupon | context/StoreContext.tsx:89-91 | coupons become the removal; products and orders are untouched |
| StoreContext.StoreState.PlaceOrder | pages/Cart.tsx:72 | ASSUMED `placeOrder`: the order is appended; products and coupons are untouched |
| CardFormat.DigitsUpTo | pages/Profile.tsx:607 | at most `n` characters, all digits, a prefix of the typed digits: exactly the first `n` when enough were typed, all of them when fewer were |
| CardFormat.DigitsUpToIdempotent | pages/Profile.tsx:607 | sanitising a sanitised value changes nothing |
| CardFormat.GroupsOfFourShape | pages/Cart.tsx:38 | grouping a digit string inserts one space after every fourth digit (at positions ≡ 4 mod 5), and removing the spaces gives the digits back |
| CardFormat.FormatCardNumber | pages/Cart.tsx:36-40 | at most 19 characters, spaces exactly at positions ≡ 4 mod 5, everything else a digit; removing the spaces gives exactly the first 16 typed digits |
| CardFormat.DigitsInGroups | pages/Cart.tsx:38 | every non-space character of a grouped digit string is a digit |
| CardFormat.FormatCardNumberIdempotent | pages/Cart.tsx:36-40 | formatting a formatted number changes nothing |
| CardFormat.FormatExpiry | pages/Cart.tsx:42-46 | at most 5 characters holding exactly the first 4 typed digits; with 2 or more digits a `/` sits at index 2, and with fewer the digits are unchanged |
| CardFormat.ExpiryOfTwoDigits | pages/Cart.tsx:44 | two digits already show the slash (`12` becomes `12/`) |
| CardFormat.FormatExpiryIdempotent | pages/Cart.tsx:42-46 | formatting a formatted expiry changes nothing |
| Checkout.InitialShipping | pages/Cart.tsx:19-25 | name and email come from the signed-in user (empty without one); the other fields are empty |
| Checkout.OrderIdFor | pages/Cart.tsx:55 | `VAS-` followed by four digits that parse back to the picked number |
| Checkout.OrderIdInjective | pages/Cart.tsx:55 | different picks give different order ids |
| Checkout.CustomerName | pages/Cart.tsx:61 | never empty; falls back from the form name to the user's name to `Guest` |
| Checkout.CustomerEmail | pages/Cart.tsx:62 | never empty; falls back from the form email to the user's email to `guest@example.com` |
| Checkout.AddressLine | pages/Cart.tsx:67 | the address, then `, `, then the city, then ` - `, then the pincode, and nothing else |
| Checkout.ShippingComplete | pages/Cart.tsx:414 | the "Proceed to Pay" guard: name, address, city and pincode non-empty (definition; its effect is stated by `Checkout.CheckoutPanel.ProceedToPayment`) |
| Checkout.BuildOrder | pages/Cart.tsx:59-68 | status Processing, the given id and date, a copy of the lines, total equal to the lines' total, the fallback identity and the address line |
| Checkout.CheckoutPanel.constructor | pages/Cart.tsx:14-34 | cart step, not loading, no order id, the prefilled shipping form, card payment with an empty card form |
| Checkout.CheckoutPanel.ProceedToCheckout | pages/Cart.tsx:405-406 | cart moves to checkout only with a non-empty cart; otherwise the step is kept |
| Checkout.CheckoutPanel.BackToCart | pages/Cart.tsx:411 | checkout moves back to cart when the footer is shown; otherwise the step is kept |
| Checkout.CheckoutPanel.ProceedToPayment | pages/Cart.tsx:413-419 | checkout moves to payment exactly when name, address, city and pincode are non-empty (email unchecked); otherwise the step is kept and an alert is raised |
| Checkout.CheckoutPanel.BackToShipping | pages/Cart.tsx:427 | payment moves back to checkout unless an order is being placed |
| Checkout.CheckoutPanel.EditShipping | pages/Cart.tsx:170-235 | the shipping form changes only while its step is shown |
| Checkout.CheckoutPanel.SelectPaymentMethod | pages/Cart.tsx:250-258 | only the payment method changes |
| Checkout.CheckoutPanel.CardNumberChanged | pages/Cart.tsx:36-40 | only the card number changes, to its formatted form |
| Checkout.CheckoutPanel.ExpiryChanged | pages/Cart.tsx:42-46 | only the expiry changes, to its formatted form |
| Checkout.CheckoutPanel.CardNameChanged | pages/Cart.tsx:294 | only the cardholder name changes, to the text as typed |
| Checkout.CheckoutPanel.CvcChanged | pages/Cart.tsx:320 | only the CVV changes, to at most its first four digits |
| Checkout.CheckoutPanel.PaymentSubmittable | pages/Cart.tsx:246-432 | the payment form can be submitted: Pay is not disabled by `loading`, and paying by card the four `required` card inputs are filled in (definition; both place-order methods require it) |
| Checkout.CheckoutPanel.PlaceOrder | pages/Cart.tsx:50-77 | callable only when the payment form can be submitted; intended commit: the store's orders gain exactly the built order for the old lines; then the cart is emptied (still valid); the step is success, loading is over and the order id is set |
| Checkout.CheckoutPanel.PlaceOrderAsWritten | pages/Cart.tsx:50-77 | callable only when the payment form can be submitted; as written: loading is set and the id is shown, but the step stays at payment; the cart lines and the orders are unchanged |
| Checkout.CheckoutPanel.Close | pages/Cart.tsx:79-85 | the drawer closes; success goes back to the cart step; any other step, the lines and the store are kept |
| Checkout.CheckoutPanel.ContinueShopping | pages/Cart.tsx:382 | the drawer closes and the step returns to cart; the lines are kept |
| Checkout.CheckoutPanel.FollowTrackingLink | pages/Cart.tsx:375-377 | the drawer closes; the lines are kept |
| Shop.InSelection | pages/Shop.tsx:35-40 | the filter predicate: category `all` or equal, and effective price within the limit (definition; see `Shop.FilteredProducts`) |
| Shop.Insert | pages/Shop.tsx:43-47 | insertion into a list sorted by the comparator keeps it sorted and adds exactly that element |
| Shop.InsertKeepsHead | pages/Shop.tsx:43-47 | a head that sorts strictly before the inserted element stays in front, and the list stays sorted |
| Shop.SortProducts | pages/Shop.tsx:43-47 | the result is sorted by the comparator of the chosen order and is a permutation of the input |
| Shop.FilteredProducts | pages/Shop.tsx:35-50 | exactly the catalogue products in the category (or all) with effective price within the limit, as a permutation of the filtered list; `featured` keeps catalogue order; `price-low` is non-decreasing and `price-high` non-increasing by effective price |
| TrackOrder.FindOrder | pages/TrackOrder.tsx:32 | the first order whose id equals the query ignoring case; none when no id matches |
| TrackOrder.SearchIgnoresCase | pages/TrackOrder.tsx:32 | upper- or lower-casing the query finds the same order |
| TrackOrder.SameLowerSameOrder | pages/TrackOrder.tsx:32 | two queries that lower-case alike find the same order |
| TrackOrder.AppendedOrderIsFound | pages/TrackOrder.tsx:32 | a newly recorded order is found by its id, and it is the one shown unless an older order has the same id up to case |
| TrackOrder.SearchAfterStatusUpdate | pages/TrackOrder.tsx:32 | a status change does not move the match, and the order found carries the new status |
| TrackOrder.CurrentStepIndex | pages/TrackOrder.tsx:42-43 | between -1 and 2; 0 when no order is shown; a non-negative index names the shown order's status |
| TrackOrder.IsCancelled | pages/TrackOrder.tsx:44 | an order is shown and its status is Cancelled (definition; see `TrackOrder.StepOfStatus`) |
| TrackOrder.StepOfStatus | pages/TrackOrder.tsx:42-44 | Processing, Shipped and Delivered give 0, 1 and 2; the index is -1 exactly when the order shown is cancelled |
| TrackOrder.TrackPage.constructor | pages/TrackOrder.tsx:9-21 | the input starts with the URL id; with a non-empty one, the search has already run |
| TrackOrder.TrackPage.TypeOrderId | pages/TrackOrder.tsx:61 | only the input changes |
| TrackOrder.TrackPage.HandleSearch | pages/TrackOrder.tsx:23-40 | blank input: the blank-input error, order on screen kept; a match: that order and no error; no match: nothing shown and the not-found error |
| TrackOrder.TrackPage.OrdersChanged | pages/TrackOrder.tsx:17-21 | opened with an id, the search reruns on the new orders; otherwise nothing changes |
| Admin.CanAccessAdmin | pages/Admin.tsx:33 | signed in, with `admin` occurring in the email, case-sensitively (definition; see the three lemmas below) |
| Admin.AdminSomewhereGetsIn | pages/Admin.tsx:33 | any signed-in user whose email contains `admin` anywhere gets in |
| Admin.NoLowerAKeepsOut | pages/Admin.tsx:33 | nobody signed out gets in, and no email without a lower-case `a` does |
| Admin.AccessExamples | pages/Admin.tsx:33 | no user cannot enter; `admin@…` can; `Admin@…` cannot (the match is case-sensitive) |
| Admin.TextOr | pages/Admin.tsx:53-55 | `field \|\| fallback`: the field when present and non-empty, otherwise the fallback |
| Admin.BuildProduct | pages/Admin.tsx:48-57 | a non-empty id: the form id, or the clock for a new product; the name and price; a sale price only when non-zero; category `sarees`, the placeholder image and an empty description by default; features `Premium Quality` only when missing; no stock |
| Admin.FormOf | pages/Admin.tsx:68-72 | the edit form carries the product's id, sale price and stock |
| Admin.SaveUneditedProduct | pages/Admin.tsx:44-66 | saving an untouched edit form gives back the product with its stock dropped and a zero sale price removed, so its effective price is unchanged |
| Admin.BuildCoupon | pages/Admin.tsx:84-89 | the code upper-cased, the chosen type, active, and a value that is `n` whenever the text is the decimal of `n` |
| Admin.SavedCodeIsTypedCode | pages/Admin.tsx:384 | a code typed in any case is saved as the upper-cased text the input shows |
| Admin.TotalRevenue | pages/Admin.tsx:95 | the sum of all order totals, whatever their status; never negative when no total is |
| Admin.PendingOrders | pages/Admin.tsx:96 | the number of processing orders never exceeds the number of orders |
| Admin.StatisticsAfterNewOrder | pages/Admin.tsx:95-96 | a new order adds its total to the revenue, and one to the pending count when it is processing |
| Admin.RevenueIgnoresStatus | pages/Admin.tsx:95 | a status change (including cancellation) leaves the revenue unchanged |
| Admin.PendingAfterStatusChange | pages/Admin.tsx:96 | setting a status other than Processing never raises the pending count; setting Processing never lowers it |
| Admin.AdminPanel.constructor | pages/Admin.tsx:21-30 | no form open, empty product form, empty coupon form |
| Admin.AdminPanel.StartNewProduct | pages/Admin.tsx:210 | the product form opens empty |
| Admin.AdminPanel.EditProduct | pages/Admin.tsx:68-72 | the form opens holding the product |
| Admin.AdminPanel.FillProductForm | pages/Admin.tsx:225-251 | only the product form changes |
| Admin.AdminPanel.SaveProduct | pages/Admin.tsx:44-66 | nothing changes unless the name and price are set; then a form with an id replaces that product, one without prepends a new product, and the form closes empty; orders and coupons are untouched |
| Admin.AdminPanel.DeleteProduct | pages/Admin.tsx:74-78 | the product is removed only when confirmed |
| Admin.AdminPanel.TypeCouponCode | pages/Admin.tsx:384 | the code becomes the upper-cased text |
| Admin.AdminPanel.SelectDiscountType | pages/Admin.tsx:393 | only the discount type changes |
| Admin.AdminPanel.TypeCouponValue | pages/Admin.tsx:406 | only the value text changes |
| Admin.AdminPanel.SaveCoupon | pages/Admin.tsx:80-92 | nothing changes (store, form and open flag) when the code or value text is empty; otherwise the built coupon is appended and the form is reset; products and orders are untouched |
| ProductDetail.FindProduct | pages/ProductDetail.tsx:14 | the first product with exactly that id; none when no product has it |
| ProductDetail.FindAddedProduct | pages/ProductDetail.tsx:14 | a product just added is found by its id |
| ProductDetail.FindDeletedProduct | pages/ProductDetail.tsx:14 | after deletion the id finds nothing |
| ProductDetail.FindUpdatedProduct | pages/ProductDetail.tsx:14 | after an update of a listed product its page shows the new record |
| ProductDetail.RelatedProducts | pages/ProductDetail.tsx:41 | at most three products of the same category with a different id; the first ones in catalogue order (all of them when fewer than three) |
| ProductDetail.PricedForCart | pages/ProductDetail.tsx:56-57 | the record sent to the cart has the effective price as its price and the product's other fields |
| ProductDetail.NewLineChargesEffectivePrice | pages/ProductDetail.tsx:56-57 | a new line adds the effective price, not the list price, to the cart total |
| ProductDetail.ProductPage.constructor | pages/ProductDetail.tsx:20 | no size selected |
| ProductDetail.ProductPage.SelectSize | pages/ProductDetail.tsx:158-161 | the chosen size, one of XS, S, M, L, XL and XXL |
| ProductDetail.ProductPage.HandleAddToCart | pages/ProductDetail.tsx:44-58 | signed out: sent to login, cart unchanged; no size: alert, cart unchanged; otherwise one unit at the effective price is added with the size and the cart opens |
| Profile.Override | pages/Profile.tsx:123 | a field present in the override wins; otherwise the base is kept |
| Profile.Merge | pages/Profile.tsx:123 | `{ ...address, ...form }`: for every one of the ten fields, the form's value wins when present and the address's is kept otherwise |
| Profile.FormOf | pages/Profile.tsx:104 | the edit form carries the address id, and saving it as a new address under that id gives the address back: no field is lost |
| Profile.MergeLaws | pages/Profile.tsx:120-129 | saving an untouched edit form leaves the address unchanged, and merging the same form twice is merging it once |
| Profile.NewAddress | pages/Profile.tsx:125 | a new address is the form merged onto an empty address with the clock's id |
| Profile.UpdateAddresses | pages/Profile.tsx:123 | same length; the form is merged into the addresses with the edited id, the others are unchanged |
| Profile.NewCard | pages/Profile.tsx:134-140 | type Visa, the clock's id, the expiry as typed, the holder upper-cased, and `last4` the last (up to four) characters of the number |
| Profile.FullCardLast4 | pages/Profile.tsx:137 | a full 16-digit number shows its last four digits |
| Profile.ProfilePage.constructor | pages/Profile.tsx:43-68 | empty wishlist, the sample addresses and cards, closed modals, empty card form |
| Profile.ProfilePage.SyncWishlist | pages/Profile.tsx:45-49 | more than five products: the second and sixth; otherwise the wishlist is kept |
| Profile.ProfilePage.RemoveFromWishlist | pages/Profile.tsx:97-99 | exactly the items with other ids survive, in order |
| Profile.ProfilePage.EditAddress | pages/Profile.tsx:102-106 | the modal opens editing that address, with its fields in the form |
| Profile.ProfilePage.AddNewAddress | pages/Profile.tsx:108-112 | the modal opens with no address being edited and the form `Home`, not default |
| Profile.ProfilePage.CloseAddressModal | pages/Profile.tsx:587 | Cancel (or the backdrop, line 494) closes the open address modal; the form and the addresses are kept |
| Profile.ProfilePage.FillAddressForm | pages/Profile.tsx:503-579 | while the modal is open, only the address form changes |
| Profile.ProfilePage.SaveAddress | pages/Profile.tsx:120-129 | from the open modal; editing: the form is merged into the addresses with that id; otherwise one new address is appended; the modal closes |
| Profile.ProfilePage.DeleteAddress | pages/Profile.tsx:114-118 | when confirmed, no address with that id is left and the others stay in order; otherwise nothing changes |
| Profile.ProfilePage.OpenCardModal | pages/Profile.tsx:416 | "Add Card" opens the card modal |
| Profile.ProfilePage.CloseCardModal | pages/Profile.tsx:635 | Cancel (or the backdrop, line 598) closes the open card modal without saving |
| Profile.ProfilePage.TypeCardNumber | pages/Profile.tsx:607 | while the card modal is open, the number becomes at most 16 typed digits |
| Profile.ProfilePage.TypeCardDetails | pages/Profile.tsx:618-628 | while the card modal is open, holder and expiry keep what was typed |
| Profile.ProfilePage.AddCard | pages/Profile.tsx:132-144 | from the open card modal, one card is appended, whose last four are digits; the modal closes and the form is reset |
| Profile.ProfilePage.DeleteCard | pages/Profile.tsx:146-149 | when confirmed, no card with that id is left; otherwise nothing changes |
| Scenarios.TwoSareesInCart | context/CartContext.tsx:22-35 | adding one product twice in one size gives one line of quantity 2 and total 25000 |
| Scenarios.ReadyToPay | pages/Cart.tsx:405-419 | with a non-empty cart, a shipping form without an email passes the guard and reaches the payment step |
| Scenarios.OrderId4821 | pages/Cart.tsx:55 | the pick 4821 gives the id `VAS-4821` |
| Scenarios.TypeCard | pages/Cart.tsx:36-46 | typing a number, expiry and CVV that each hold a digit and a non-empty name through the card handlers makes the payment form submittable |
| Scenarios.CheckoutEndToEnd | pages/Cart.tsx:50-77 | paying cash on delivery, the intended checkout records an order of 25000 with id `VAS-4821`, the two units, status Processing and the account email (the form's was empty), and empties the cart |
| Scenarios.TrackShippedOrder | pages/TrackOrder.tsx:23-40 | after the admin ships it, the order is found by its id in lower case with status Shipped |
| Scenarios.CheckoutAsWritten | pages/Cart.tsx:71-76 | as written, paying by UPI (a submittable form) leaves no order recorded, the cart line in place and the drawer stuck on payment while loading |
| Scenarios.AddOnSaleSaree | pages/ProductDetail.tsx:44-58 | adding a saree listed at 10000 with a sale price of 9000 puts 9000 in the cart |
| Scenarios.RaiseCatalogPrice | pages/Admin.tsx:44-66 | editing the saree to price 20000 with no sale price replaces it in the catalogue |
| Scenarios.PriceSnapshot | pages/ProductDetail.tsx:56-57 | an item added at its sale price of 9000 stays at 9000 in the cart after the admin raises the catalogue price to 20000 |

## Left out

- Rendering, styling, animation and routing (all JSX). `Profile`'s mock orders and dashboard figures are display data.
- Browser persistence (`localStorage`). The store constructor takes the initial catalogue and orders as inputs.
- The authentication context. The signed-in user is an input `Option<User>`, and "authenticated" means `Some`.
- Timers. The two-second commit delay and the half-second step reset on close are modelled as one atomic step each.
- Environment inputs are parameters:
  - `Math.random()` is the pick in [1000, 9999];
  - `Date.now()` is `now`;
  - the formatted date is `date`.

  `toLocaleString` display formatting is left out.
- Browser dialogs and navigation. `window.confirm` is a boolean input. `alert` and the login redirect are reported as results (`alerted`, `AddOutcome`). Clipboard and scrolling are left out.
- Admin.BuildProduct: the price fields are taken as already-parsed integers, because `Number(...)` is not modelled.
- Admin.BuildCoupon: the value text is modelled as decimal digits only, which is what a `min="0"` number input holds for whole amounts. Fractions, signs and exponents are not modelled.
- Text.Upper: upper-casing, lower-casing and the whitespace set of `trim` cover ASCII only, not the Unicode tables JavaScript uses.
- The coupon discount formula. No page applies a coupon to a total, so there is nothing to model.
- Form validation by the browser:
  - the profile handlers check nothing themselves, so the browser's `required`-field validation of the profile forms is not modelled;
  - the admin handlers have their own guards (name and price, code and value), and those are modelled (`Admin.CanSaveProduct`, `Admin.CanSaveCoupon`); the browser's `required` checks on top of them are not;
  - the payment form is the exception: its submit is modelled as possible only when Pay is enabled and, paying by card, the four `required` card inputs are filled in (`Checkout.CheckoutPanel.PaymentSubmittable`). The UPI input is not required.
- The buttons that open and cancel the admin's coupon form only toggle `isAddingCoupon`. Only the reset of that flag on save is modelled.
- The drawer renders nothing while the cart's `isOpen` is false (pages/Cart.tsx:48). The handlers of `Checkout.CheckoutPanel` that take the cart require it to be open; the shipping, payment-method and card inputs take no cart, so their open-drawer precondition is left implicit.
- pages/TrackOrder.tsx is modelled as a page on its own. App.tsx:39-49 declares no `/track-order` route, although the drawer's "Track Order" button (pages/Cart.tsx:376) and the header and footer links (components/Layout/Header.tsx:116, components/Layout/Footer.tsx:92) point there; reaching the page by navigation is not modelled, and `Checkout.CheckoutPanel.FollowTrackingLink` models only the drawer closing.
- The gate on the admin page is a predicate (`Admin.CanAccessAdmin`). It is not re-checked inside every handler, because the handlers are unreachable when the page renders the access-denied view.
- Shop.SortProducts: stability (equal prices keep catalogue order) is modelled by the insertion order but not proved.
- The stylist chat and its external API are not part of this model.

## Findings

| source | as written | input that shows it | evidently intended | confidence | as-written member | corrected member |
|---|---|---|---|---|---|---|
| pages/Cart.tsx:12 | The checkout calls `placeOrder`. `context/StoreContext.tsx:5-16` does not declare it, and `context/StoreContext.tsx:98-109` does not provide it. The delayed callback therefore throws at its first statement: the order is never recorded, the cart is not cleared, and the drawer stays on payment with `loading` set. | Any submit of the payment form (`Scenarios.CheckoutAsWritten`, paying by UPI: one line in the cart gives no order, the line still present, step payment, loading true) | The store appends the order; then the cart is cleared and the success step is shown (`Scenarios.CheckoutEndToEnd`) | high (not executed) | Checkout.CheckoutPanel.PlaceOrderAsWritten | Checkout.CheckoutPanel.PlaceOrder |
