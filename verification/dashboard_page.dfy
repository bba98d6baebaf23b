/**
 * The dashboard's summary figures: order counts per status, the "In Progress"
 * figure, the revenue estimate at 15 per pizza, and the greeting name.
 */
module DashboardPage {
  import opened Wrappers
  import opened PizzaTypes
  import OrdersPage

  /** The assumed price of one pizza. */
  const PricePerPizza: int := 15

  /** `orders.reduce((sum, order) => sum + order.quantity * 15, 0)`: a left fold. */
  function Revenue(orders: seq<PizzaOrder>): int
    decreases |orders|
  {
    if orders == [] then 0
    else Revenue(orders[..|orders| - 1]) + orders[|orders| - 1].quantity * PricePerPizza
  }

  /** The number of pizzas over all orders. */
  function TotalQuantity(orders: seq<PizzaOrder>): int {
    if orders == [] then 0 else orders[0].quantity + TotalQuantity(orders[1..])
  }

  /** Revenue over a concatenation is the sum of the revenues. */
  lemma {:induction false} RevenueAppend(a: seq<PizzaOrder>, b: seq<PizzaOrder>)
    ensures Revenue(a + b) == Revenue(a) + Revenue(b)
    decreases |b|
  {
    if b == [] {
      assert a + b == a;
    } else {
      var b' := b[..|b| - 1];
      RevenueAppend(a, b');
      assert (a + b)[..|a + b| - 1] == a + b';
    }
  }

  /** The revenue is 15 times the number of pizzas, and 0 for no orders. */
  lemma {:induction false} RevenueIsPriceTimesQuantity(orders: seq<PizzaOrder>)
    ensures Revenue(orders) == PricePerPizza * TotalQuantity(orders)
    ensures orders == [] ==> Revenue(orders) == 0
  {
    if orders != [] {
      RevenueIsPriceTimesQuantity(orders[1..]);
      RevenueAppend([orders[0]], orders[1..]);
      assert [orders[0]] + orders[1..] == orders;
      assert Revenue([orders[0]]) == orders[0].quantity * PricePerPizza by {
        assert [orders[0]][..0] == [];
      }
    }
  }

  /** `user.name || "User"`: the name unless it is absent or empty. */
  function UserName(user: User): (r: string)
    ensures r != ""
    ensures r == "User" || Some(r) == user.name
    ensures user.name.Some? && user.name.value != "" ==> r == user.name.value
  {
    if user.name.Some? && user.name.value != "" then user.name.value else "User"
  }

  datatype Stats = Stats(
    totalOrders: nat,
    pendingOrders: nat,
    preparingOrders: nat,
    deliveringOrders: nat,
    completedOrders: nat,
    cancelledOrders: nat,
    inProgress: nat,
    totalRevenue: int)

  /**
   * The figures on the cards: the total, one count per status (the same counts
   * as the orders page's tabs), "In Progress" as pending plus preparing, and
   * the revenue.
   */
  function ComputeStats(orders: seq<PizzaOrder>): (s: Stats)
    ensures s.totalOrders == |orders|
    ensures var c := OrdersPage.CountTabs(orders);
            && s.pendingOrders == c.pending && s.preparingOrders == c.preparing
            && s.deliveringOrders == c.delivering && s.completedOrders == c.completed
            && s.cancelledOrders == c.cancelled
    ensures s.inProgress == s.pendingOrders + s.preparingOrders <= s.totalOrders
    ensures s.totalRevenue == PricePerPizza * TotalQuantity(orders)
  {
    var c := OrdersPage.CountTabs(orders);
    RevenueIsPriceTimesQuantity(orders);
    Stats(|orders|, c.pending, c.preparing, c.delivering, c.completed, c.cancelled,
          c.pending + c.preparing, Revenue(orders))
  }

  /** What the page renders. */
  datatype DashboardView = LoadingView | NoView | Summary(userName: string, stats: Stats)

  /** While loading only the spinner; with no user nothing and no figures; otherwise the summary. */
  function RenderDashboard(isLoading: bool, user: Option<User>, orders: seq<PizzaOrder>): (v: DashboardView)
    ensures isLoading <==> v.LoadingView?
    ensures v.NoView? <==> !isLoading && user.None?
    ensures v.Summary? ==> user.Some? && v.userName == UserName(user.value) && v.stats == ComputeStats(orders)
  {
    if isLoading then LoadingView
    else if user.None? then NoView
    else Summary(UserName(user.value), ComputeStats(orders))
  }
}
