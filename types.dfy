/**
 * The value types the three stores and the checkout page exchange: catalog
 * products, cart lines, user identities, shipping addresses and orders.
 * All of them are immutable values; the stores hold sequences of them.
 */
module Types {

  datatype Option<+T> = None | Some(value: T)

  /** A catalog rating: the average score and how many ratings it averages. */
  datatype Rating = Rating(rate: real, count: int)

  /** A catalog product. Read-only to the stores; `price` is exact (a `real`). */
  datatype Product = Product(
    id: int,
    title: string,
    price: real,
    description: string,
    category: string,
    image: string,
    rating: Rating)

  /**
   * A cart line: the product's own fields, copied into the line, plus a
   * quantity. The line keeps the fields it was created with; later
   * increments change only `quantity`.
   */
  datatype CartLine = CartLine(product: Product, quantity: int)

  /** The signed-in identity; `login` trusts it without any credential check. */
  datatype User = User(id: string, name: string, email: string)

  datatype ShippingAddress = ShippingAddress(
    fullName: string,
    address: string,
    city: string,
    postalCode: string,
    country: string)

  datatype OrderStatus = Pending | Processing | Shipped | Delivered

  /** A creation time, taken from the caller's clock and never inspected. */
  datatype Timestamp = Timestamp(millis: int)

  /**
   * A placed order. `items` is a copy of the cart lines at checkout time:
   * a value, so later changes to the cart cannot reach it.
   */
  datatype Order = Order(
    id: string,
    userId: string,
    items: seq<CartLine>,
    total: real,
    status: OrderStatus,
    createdAt: Timestamp,
    shippingAddress: ShippingAddress)
}
