/** The orders table: the badge variant per status and one row per order. */
module OrdersTable {
  import opened PizzaTypes

  /** `getStatusBadgeVariant`. */
  function BadgeVariant(status: string): (v: string)
    ensures status == Pending ==> v == "secondary"
    ensures status == Preparing ==> v == "warning"
    ensures status == OutForDelivery ==> v == "info"
    ensures status == Delivered ==> v == "success"
    ensures status == Cancelled ==> v == "destructive"
    ensures v == "outline" <==> status !in {Pending, Preparing, OutForDelivery, Delivered, Cancelled}
  {
    if status == Pending then "secondary"
    else if status == Preparing then "warning"
    else if status == OutForDelivery then "info"
    else if status == Delivered then "success"
    else if status == Cancelled then "destructive"
    else "outline"
  }

  /** The five recognised statuses get five different variants. */
  lemma BadgeVariantsDistinct(s: string, t: string)
    requires s in {Pending, Preparing, OutForDelivery, Delivered, Cancelled}
    requires t in {Pending, Preparing, OutForDelivery, Delivered, Cancelled}
    ensures BadgeVariant(s) == BadgeVariant(t) <==> s == t
  {
  }

  datatype Row = EmptyRow | OrderRow(order: PizzaOrder, variant: string)

  function OrderRows(orders: seq<PizzaOrder>): seq<Row> {
    if orders == [] then [] else [OrderRow(orders[0], BadgeVariant(orders[0].status))] + OrderRows(orders[1..])
  }

  /** The table body: a single "No orders found." row for no orders, otherwise one row per order in order. */
  function Rows(orders: seq<PizzaOrder>): (rows: seq<Row>)
    ensures orders == [] ==> rows == [EmptyRow]
    ensures orders != [] ==> |rows| == |orders| && forall i :: 0 <= i < |rows| ==> rows[i].OrderRow?
    ensures orders != [] ==> forall i :: 0 <= i < |orders| ==>
              rows[i].order == orders[i] && rows[i].variant == BadgeVariant(orders[i].status)
  {
    OrderRowsAt(orders);
    if orders == [] then [EmptyRow] else OrderRows(orders)
  }

  lemma {:induction false} OrderRowsAt(orders: seq<PizzaOrder>)
    ensures |OrderRows(orders)| == |orders|
    ensures forall i :: 0 <= i < |orders| ==>
              OrderRows(orders)[i] == OrderRow(orders[i], BadgeVariant(orders[i].status))
  {
    if orders != [] {
      OrderRowsAt(orders[1..]);
    }
  }
}
