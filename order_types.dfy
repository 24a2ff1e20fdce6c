/** The records the order screens work with (src/types/index.ts). */
module OrderTypes {
  import opened Wrappers

  /** One line of an order: which product, and how many of it. */
  datatype CartItem = CartItem(productId: int, quantity: int)

  /** `'pending' | 'paid' | 'shipped'`. */
  datatype OrderStatus = Pending | Paid | Shipped

  datatype Order = Order(id: int, userId: int, date: string, products: seq<CartItem>, status: OrderStatus)

  datatype Rating = Rating(rate: real, count: int)

  /** A catalogue product; only `id` matters to the data layer, the other fields are carried along. */
  datatype Product = Product(
    id: int, title: string, price: real, description: string,
    category: string, image: string, rating: Rating)

  /** An order extended with the optional `productDetails` list. */
  datatype OrderWithProducts = OrderWithProducts(
    id: int, userId: int, date: string, products: seq<CartItem>, status: OrderStatus,
    productDetails: Option<seq<Product>>)
  {
    /** The `Order` part of the record, forgetting `productDetails`. */
    function AsOrder(): Order {
      Order(id, userId, date, products, status)
    }
  }

  /** The object spread `{ ...order, productDetails: details }`. */
  function WithProductDetails(order: Order, details: Option<seq<Product>>): (r: OrderWithProducts)
    ensures r.AsOrder() == order
    ensures r.productDetails == details
  {
    OrderWithProducts(order.id, order.userId, order.date, order.products, order.status, details)
  }
}
