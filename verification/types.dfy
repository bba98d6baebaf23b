/**
 * The records of the dashboard: a pizza order and a signed-in user, with the
 * five order statuses the pages recognise.
 */
module PizzaTypes {
  import opened Wrappers

  /**
   * One order. `orderDate` is kept as an integer timestamp, the value the
   * orders page compares after parsing the date.
   */
  datatype PizzaOrder = PizzaOrder(
    orderId: string,
    customerName: string,
    pizzaType: string,
    quantity: int,
    orderDate: int,
    status: string)

  /** The signed-in user; every field but `id` may be absent. */
  datatype User = User(id: string, name: Option<string>, email: Option<string>, image: Option<string>)

  const Pending: string := "Pending"
  const Preparing: string := "Preparing"
  const OutForDelivery: string := "Out for Delivery"
  const Delivered: string := "Delivered"
  const Cancelled: string := "Cancelled"
}
