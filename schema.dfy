/** Row shapes of the shared relational schema: products, orders and
    order_items. Only the columns the order logic reads or writes are kept.
    Every `decimal(10,2)` amount is a whole number of cents. */
module Schema {

  /** A `decimal(10,2)` money amount, in cents. */
  type Cents = int

  /** A row of the products table. `stock` is kept to show that placing an
      order leaves it alone. */
  datatype Product = Product(id: int, price: Cents, originalPrice: Cents, stock: int)

  /** A row of the orders table; `createdAt` is the database clock at insert. */
  datatype Order = Order(id: int, userId: string, total: Cents, status: string, createdAt: int)

  /** A row of the order_items table; `price` is the unit price snapshot. */
  datatype OrderItem = OrderItem(id: int, orderId: int, productId: int, quantity: int, price: Cents)

  /** One requested line of an order: which product and how many. */
  datatype LineRequest = LineRequest(productId: int, quantity: int)

  /** The column default of orders.status, which is also what order creation writes. */
  const PendingStatus: string := "pending"
}
