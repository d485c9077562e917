/**
 * The records of the storefront (`types.ts`). Prices and totals are whole rupees; the catalog
 * never uses fractional amounts, so they are `int`.
 */
module Types {
  import opened Wrappers

  /** A catalog entry. `salePrice` and `stock` are optional fields of the source record. */
  datatype Product = Product(
    id: string,
    name: string,
    price: int,
    salePrice: Option<int>,
    category: string,
    image: string,
    description: string,
    features: seq<string>,
    stock: Option<int>)

  /** A cart line. The source's `CartItem` extends `Product` with `quantity` and `selectedSize`;
      here the product part is kept as a field. Its `price` is the line's unit price. */
  datatype CartItem = CartItem(product: Product, quantity: int, selectedSize: string)

  /** `Order['status']`. */
  datatype Status = Processing | Shipped | Delivered | Cancelled

  datatype Order = Order(
    id: string,
    customerName: string,
    customerEmail: string,
    date: string,
    total: int,
    status: Status,
    items: seq<CartItem>,
    shippingAddress: string)

  datatype DiscountType = Percentage | Fixed

  datatype Coupon = Coupon(code: string, discountType: DiscountType, value: int, isActive: bool)

  /** The signed-in user supplied by the authentication context. */
  datatype User = User(name: string, email: string)
}
