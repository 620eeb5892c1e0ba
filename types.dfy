/** Values exchanged between the App component and the ordering backend. */
module AppTypes {

  datatype Option<+T> = None | Some(value: T)

  /** One line of an order. `price` is in integer cents (15.99 is 1599). */
  datatype LineItem = LineItem(id: int, name: string, quantity: int, price: int)

  datatype PaymentInfo = PaymentInfo(paymentMethodId: string)

  /** The body of the create-order request. */
  datatype Payload = Payload(
    userId: int,
    restaurantId: int,
    items: seq<LineItem>,
    total: int,
    paymentInfo: PaymentInfo)

  /** An order as returned by the history endpoint; `total` in cents, `createdAt` kept opaque. */
  datatype Order = Order(
    id: int,
    status: string,
    total: int,
    createdAt: string,
    restaurantName: Option<string>)

  /** A request the component issues to the backend. */
  datatype Request =
    | FetchOrders(userId: int)      // GET /api/orders/user/<userId>
    | CreateOrder(payload: Payload) // POST /api/orders
}
