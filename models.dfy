/** The rows of the store that the cart, order and payment views read and write.
    Money is held as an integer number of minor units (two decimal places, times 100). */
module Models {

  datatype Option<T> = None | Some(value: T)

  type UserId = int
  type ProductId = int
  type LineId = int
  type OrderId = int
  type Reference = string

  /** A catalog product: the views read its price and stock. Only the intended order creation
      (OrderSerializers.CreateSpec) writes stock; as written, no path of the core changes it. */
  datatype Product = Product(name: string, price: int, stock: int)

  /** A cart line (CartItem row): its own id, the product and the quantity. */
  datatype CartLine = CartLine(id: LineId, product: ProductId, quantity: int)

  /** The core only ever writes `pending` and `processing`; other statuses come from plain CRUD. */
  datatype OrderStatus = Pending | Processing | OtherStatus(name: string)

  /** An order item with the price frozen when the item was created. */
  datatype OrderItem = OrderItem(product: ProductId, quantity: int, price: int)

  datatype Order = Order(
    user: UserId,
    status: OrderStatus,
    total: int,
    address: string,
    phone: string,
    items: seq<OrderItem>)
}

/** Sums over order items, shared by checkout and by order creation. */
module OrderMath {
  import opened Models

  /** Σ price × quantity over order items. */
  function ItemsTotal(items: seq<OrderItem>): int
  {
    if items == [] then 0 else items[0].price * items[0].quantity + ItemsTotal(items[1..])
  }

}
