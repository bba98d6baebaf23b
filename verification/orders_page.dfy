/**
 * The query pipeline of the orders page: a tab filter by exact status, a
 * case-insensitive search combined with a status filter, and a stable sort on
 * one of three keys; plus the per-status counts shown on the tabs.
 */
module OrdersPage {
  import opened Wrappers
  import opened Text
  import opened Seqs
  import opened PizzaTypes

  datatype SortOrder = Asc | Desc

  /** The page's React state. */
  datatype PageState = PageState(
    searchQuery: string,
    statusFilter: Option<string>,
    sortBy: Option<string>,
    sortOrder: SortOrder,
    activeTab: string)

  const AllStatuses: string := "All Statuses"

  /** The state the page mounts with. */
  const InitialState: PageState := PageState("", Some(AllStatuses), Some("orderId"), Asc, "all")

  /** `order.status === status`. */
  function HasStatus(status: string): PizzaOrder -> bool {
    (o: PizzaOrder) => o.status == status
  }

  // ---------------------------------------------------------------------------
  // Tab filter
  // ---------------------------------------------------------------------------

  /** The status a tab selects; "all" and every unknown tab select none. */
  function TabStatus(tab: string): Option<string> {
    if tab == "pending" then Some(Pending)
    else if tab == "preparing" then Some(Preparing)
    else if tab == "delivering" then Some(OutForDelivery)
    else if tab == "completed" then Some(Delivered)
    else if tab == "cancelled" then Some(Cancelled)
    else None
  }

  function TabFilter(orders: seq<PizzaOrder>, tab: string): seq<PizzaOrder> {
    match TabStatus(tab)
    case None => orders
    case Some(status) => Filter(orders, HasStatus(status))
  }

  /**
   * A named tab keeps, in order, exactly the orders with its status; any
   * other tab keeps every order.
   */
  lemma TabFilterSelects(orders: seq<PizzaOrder>, tab: string)
    ensures tab !in {"pending", "preparing", "delivering", "completed", "cancelled"} ==>
              TabFilter(orders, tab) == orders
    ensures tab == "pending" ==> Selects(TabFilter(orders, tab), orders, HasStatus(Pending))
    ensures tab == "preparing" ==> Selects(TabFilter(orders, tab), orders, HasStatus(Preparing))
    ensures tab == "delivering" ==> Selects(TabFilter(orders, tab), orders, HasStatus(OutForDelivery))
    ensures tab == "completed" ==> Selects(TabFilter(orders, tab), orders, HasStatus(Delivered))
    ensures tab == "cancelled" ==> Selects(TabFilter(orders, tab), orders, HasStatus(Cancelled))
  {
    if TabStatus(tab).Some? {
      FilterSelects(orders, HasStatus(TabStatus(tab).value));
    }
  }

  // ---------------------------------------------------------------------------
  // Search and status filter
  // ---------------------------------------------------------------------------

  /** The lower-cased query is included in the lower-cased id, customer or pizza. */
  predicate MatchesSearch(o: PizzaOrder, query: string) {
    var q := ToLower(query);
    Contains(ToLower(o.orderId), q) || Contains(ToLower(o.customerName), q) || Contains(ToLower(o.pizzaType), q)
  }

  /**
   * "All Statuses" passes everything; otherwise the status must equal the
   * filter (an unset filter, `undefined` in the source, equals no status).
   */
  predicate MatchesStatus(o: PizzaOrder, statusFilter: Option<string>) {
    statusFilter == Some(AllStatuses) || statusFilter == Some(o.status)
  }

  function Passes(query: string, statusFilter: Option<string>): PizzaOrder -> bool {
    (o: PizzaOrder) => MatchesSearch(o, query) && MatchesStatus(o, statusFilter)
  }

  function SearchFilter(orders: seq<PizzaOrder>, query: string, statusFilter: Option<string>): seq<PizzaOrder> {
    Filter(orders, Passes(query, statusFilter))
  }

  /**
   * An order matches the search iff the lower-cased query occurs in one of the
   * three lower-cased fields; the empty query matches every order, and the
   * search ignores the case of the query.
   */
  lemma MatchesSearchIff(o: PizzaOrder, query: string)
    ensures MatchesSearch(o, query) <==>
              (exists i :: OccursAt(ToLower(o.orderId), ToLower(query), i))
              || (exists i :: OccursAt(ToLower(o.customerName), ToLower(query), i))
              || (exists i :: OccursAt(ToLower(o.pizzaType), ToLower(query), i))
    ensures query == "" ==> MatchesSearch(o, query)
    ensures MatchesSearch(o, query) == MatchesSearch(o, ToLower(query))
  {
    ContainsIffOccurs(ToLower(o.orderId), ToLower(query));
    ContainsIffOccurs(ToLower(o.customerName), ToLower(query));
    ContainsIffOccurs(ToLower(o.pizzaType), ToLower(query));
    ContainsEmpty(ToLower(o.orderId));
    ToLowerIdempotent(query);
  }

  /**
   * The filtered list is the in-order selection of the orders passing both
   * tests; with the empty query and "All Statuses" it is the list itself, and
   * with no status filter at all it is empty.
   */
  lemma SearchFilterSelects(orders: seq<PizzaOrder>, query: string, statusFilter: Option<string>)
    ensures Selects(SearchFilter(orders, query, statusFilter), orders, Passes(query, statusFilter))
    ensures query == "" && statusFilter == Some(AllStatuses) ==> SearchFilter(orders, query, statusFilter) == orders
    ensures statusFilter.None? ==> SearchFilter(orders, query, statusFilter) == []
  {
    FilterSelects(orders, Passes(query, statusFilter));
    if query == "" && statusFilter == Some(AllStatuses) {
      forall o | o in orders ensures Passes(query, statusFilter)(o) {
        MatchesSearchIff(o, query);
      }
      FilterKeepsAll(orders, Passes(query, statusFilter));
    }
  }

  // ---------------------------------------------------------------------------
  // Sort
  // ---------------------------------------------------------------------------

  /** The comparison before the sort order is applied; 0 for an unknown key. */
  function KeyCompare(key: string, a: PizzaOrder, b: PizzaOrder): int {
    if key == "orderId" then LexCompare(a.orderId, b.orderId)
    else if key == "customerName" then LexCompare(a.customerName, b.customerName)
    else if key == "orderDate" then a.orderDate - b.orderDate
    else 0
  }

  /** The comparator handed to `sort`; an absent or empty key compares all orders equal. */
  function Compare(sortBy: Option<string>, order: SortOrder, a: PizzaOrder, b: PizzaOrder): int {
    if sortBy.None? || sortBy.value == "" then 0
    else
      var comparison := KeyCompare(sortBy.value, a, b);
      if order == Asc then comparison else -comparison
  }

  lemma CompareAntisymmetric(sortBy: Option<string>, order: SortOrder, a: PizzaOrder, b: PizzaOrder)
    ensures Compare(sortBy, order, a, b) == -Compare(sortBy, order, b, a)
  {
    LexCompareAntisymmetric(a.orderId, b.orderId);
    LexCompareAntisymmetric(a.customerName, b.customerName);
  }

  lemma CompareTransitive(sortBy: Option<string>, order: SortOrder, a: PizzaOrder, b: PizzaOrder, c: PizzaOrder)
    requires Compare(sortBy, order, a, b) <= 0 && Compare(sortBy, order, b, c) <= 0
    ensures Compare(sortBy, order, a, c) <= 0
  {
    if sortBy.Some? && sortBy.value == "orderId" {
      if order == Asc {
        LexCompareTransitive(a.orderId, b.orderId, c.orderId);
      } else {
        LexCompareAntisymmetric(a.orderId, b.orderId);
        LexCompareAntisymmetric(b.orderId, c.orderId);
        LexCompareAntisymmetric(a.orderId, c.orderId);
        LexCompareTransitive(c.orderId, b.orderId, a.orderId);
      }
    } else if sortBy.Some? && sortBy.value == "customerName" {
      if order == Asc {
        LexCompareTransitive(a.customerName, b.customerName, c.customerName);
      } else {
        LexCompareAntisymmetric(a.customerName, b.customerName);
        LexCompareAntisymmetric(b.customerName, c.customerName);
        LexCompareAntisymmetric(a.customerName, c.customerName);
        LexCompareTransitive(c.customerName, b.customerName, a.customerName);
      }
    }
  }

  /** Every earlier element compares at most equal to every later one. */
  ghost predicate SortedBy(sortBy: Option<string>, order: SortOrder, s: seq<PizzaOrder>) {
    forall i, j :: 0 <= i < j < |s| ==> Compare(sortBy, order, s[i], s[j]) <= 0
  }

  /** Places `x` before the first element it does not compare after. */
  function Insert(x: PizzaOrder, t: seq<PizzaOrder>, sortBy: Option<string>, order: SortOrder): seq<PizzaOrder> {
    if t == [] then [x]
    else if Compare(sortBy, order, x, t[0]) <= 0 then [x] + t
    else [t[0]] + Insert(x, t[1..], sortBy, order)
  }

  /** `[...orders].sort(comparator)`: a stable sort, here by insertion. */
  function SortOrders(s: seq<PizzaOrder>, sortBy: Option<string>, order: SortOrder): seq<PizzaOrder> {
    if s == [] then [] else Insert(s[0], SortOrders(s[1..], sortBy, order), sortBy, order)
  }

  lemma {:induction false} InsertPermutes(x: PizzaOrder, t: seq<PizzaOrder>, sortBy: Option<string>, order: SortOrder)
    ensures multiset(Insert(x, t, sortBy, order)) == multiset(t) + multiset{x}
  {
    if t != [] && Compare(sortBy, order, x, t[0]) > 0 {
      InsertPermutes(x, t[1..], sortBy, order);
      assert t == [t[0]] + t[1..];
    }
  }

  /** The sorted list is a permutation of its input. */
  lemma {:induction false} SortPermutes(s: seq<PizzaOrder>, sortBy: Option<string>, order: SortOrder)
    ensures multiset(SortOrders(s, sortBy, order)) == multiset(s)
  {
    if s != [] {
      SortPermutes(s[1..], sortBy, order);
      InsertPermutes(s[0], SortOrders(s[1..], sortBy, order), sortBy, order);
      assert s == [s[0]] + s[1..];
    }
  }

  lemma {:induction false} InsertSorted(x: PizzaOrder, t: seq<PizzaOrder>, sortBy: Option<string>, order: SortOrder)
    requires SortedBy(sortBy, order, t)
    ensures SortedBy(sortBy, order, Insert(x, t, sortBy, order))
  {
    var r := Insert(x, t, sortBy, order);
    if t == [] {
    } else if Compare(sortBy, order, x, t[0]) <= 0 {
      forall j | 1 <= j < |r| ensures Compare(sortBy, order, r[0], r[j]) <= 0 {
        if j > 1 {
          CompareTransitive(sortBy, order, x, t[0], t[j - 1]);
        }
      }
    } else {
      var rest := Insert(x, t[1..], sortBy, order);
      InsertSorted(x, t[1..], sortBy, order);
      InsertPermutes(x, t[1..], sortBy, order);
      assert r == [t[0]] + rest;
      forall j | 0 <= j < |rest| ensures Compare(sortBy, order, t[0], rest[j]) <= 0 {
        assert rest[j] in multiset(rest);
        if rest[j] == x {
          CompareAntisymmetric(sortBy, order, x, t[0]);
        } else {
          assert rest[j] in multiset(t[1..]);
          var k :| 0 <= k < |t[1..]| && t[1..][k] == rest[j];
          assert t[k + 1] == rest[j];
        }
      }
    }
  }

  /** The sorted list is ordered by the comparator. */
  lemma {:induction false} SortSorted(s: seq<PizzaOrder>, sortBy: Option<string>, order: SortOrder)
    ensures SortedBy(sortBy, order, SortOrders(s, sortBy, order))
  {
    if s != [] {
      SortSorted(s[1..], sortBy, order);
      InsertSorted(s[0], SortOrders(s[1..], sortBy, order), sortBy, order);
    }
  }

  /** A list that is already in order comes back unchanged. */
  lemma {:induction false} SortKeepsSorted(s: seq<PizzaOrder>, sortBy: Option<string>, order: SortOrder)
    requires SortedBy(sortBy, order, s)
    ensures SortOrders(s, sortBy, order) == s
  {
    if s != [] {
      SortKeepsSorted(s[1..], sortBy, order);
      assert s == [s[0]] + s[1..];
    }
  }

  /** With an absent or unrecognised key every comparison is 0 and the order is kept. */
  lemma UnknownKeyKeepsOrder(s: seq<PizzaOrder>, sortBy: Option<string>, order: SortOrder)
    requires sortBy.None? || sortBy.value !in {"orderId", "customerName", "orderDate"}
    ensures SortOrders(s, sortBy, order) == s
  {
    SortKeepsSorted(s, sortBy, order);
  }

  /** The orders that compare equal to `k`. */
  function Ties(sortBy: Option<string>, order: SortOrder, k: PizzaOrder): PizzaOrder -> bool {
    (o: PizzaOrder) => Compare(sortBy, order, o, k) == 0
  }

  /** An order that compares strictly after another cannot tie with the same `k` as it. */
  lemma NotBothTie(x: PizzaOrder, y: PizzaOrder, sortBy: Option<string>, order: SortOrder, k: PizzaOrder)
    requires Compare(sortBy, order, x, y) > 0
    ensures !(Ties(sortBy, order, k)(x) && Ties(sortBy, order, k)(y))
  {
    if Compare(sortBy, order, x, k) == 0 && Compare(sortBy, order, y, k) == 0 {
      CompareAntisymmetric(sortBy, order, y, k);
      CompareTransitive(sortBy, order, x, k, y);
      assert false;
    }
  }

  lemma {:induction false} InsertKeepsTies(x: PizzaOrder, t: seq<PizzaOrder>, sortBy: Option<string>, order: SortOrder, k: PizzaOrder)
    ensures Filter(Insert(x, t, sortBy, order), Ties(sortBy, order, k)) == Filter([x] + t, Ties(sortBy, order, k))
  {
    var p := Ties(sortBy, order, k);
    if t != [] && Compare(sortBy, order, x, t[0]) > 0 {
      var y, u := t[0], t[1..];
      assert t == [y] + u;
      InsertKeepsTies(x, u, sortBy, order, k);
      NotBothTie(x, y, sortBy, order, k);
      FilterPastNonTie(x, y, u, Insert(x, u, sortBy, order), p);
    }
  }

  /**
   * Stability: the orders that compare equal to any given order keep their
   * relative order through the sort.
   */
  lemma {:induction false} SortIsStable(s: seq<PizzaOrder>, sortBy: Option<string>, order: SortOrder, k: PizzaOrder)
    ensures Filter(SortOrders(s, sortBy, order), Ties(sortBy, order, k)) == Filter(s, Ties(sortBy, order, k))
  {
    if s != [] {
      var p := Ties(sortBy, order, k);
      var rest := SortOrders(s[1..], sortBy, order);
      SortIsStable(s[1..], sortBy, order, k);
      InsertKeepsTies(s[0], rest, sortBy, order, k);
      FilterAppend([s[0]], rest, p);
      FilterAppend([s[0]], s[1..], p);
      assert s == [s[0]] + s[1..];
    }
  }

  // ---------------------------------------------------------------------------
  // The whole pipeline and the page state
  // ---------------------------------------------------------------------------

  /** The orders the table shows: tab filter, then search and status filter, then sort. */
  function VisibleOrders(orders: seq<PizzaOrder>, st: PageState): seq<PizzaOrder> {
    var tabFiltered := TabFilter(orders, st.activeTab);
    var filtered := SearchFilter(tabFiltered, st.searchQuery, st.statusFilter);
    SortOrders(filtered, st.sortBy, st.sortOrder)
  }

  /** Sorted by the comparator means ordered by the chosen key, in the chosen direction. */
  lemma SortedByKey(r: seq<PizzaOrder>, sortBy: Option<string>, order: SortOrder)
    requires SortedBy(sortBy, order, r)
    ensures sortBy == Some("orderId") ==> forall i, j :: 0 <= i < j < |r| ==>
              if order == Asc then LexCompare(r[i].orderId, r[j].orderId) <= 0
              else LexCompare(r[i].orderId, r[j].orderId) >= 0
    ensures sortBy == Some("customerName") ==> forall i, j :: 0 <= i < j < |r| ==>
              if order == Asc then LexCompare(r[i].customerName, r[j].customerName) <= 0
              else LexCompare(r[i].customerName, r[j].customerName) >= 0
    ensures sortBy == Some("orderDate") ==> forall i, j :: 0 <= i < j < |r| ==>
              if order == Asc then r[i].orderDate <= r[j].orderDate
              else r[i].orderDate >= r[j].orderDate
  {
    forall i, j | 0 <= i < j < |r| ensures Compare(sortBy, order, r[i], r[j]) <= 0 {
    }
  }

  /**
   * The shown orders are a permutation of the filtered orders, every one of
   * them is one of the input orders and passes the tab, the search and the
   * status filter, and they are ordered by the comparator.
   */
  lemma VisibleOrdersSpec(orders: seq<PizzaOrder>, st: PageState)
    ensures var filtered := SearchFilter(TabFilter(orders, st.activeTab), st.searchQuery, st.statusFilter);
            multiset(VisibleOrders(orders, st)) == multiset(filtered)
    ensures forall o :: o in VisibleOrders(orders, st) ==>
              && o in orders
              && (TabStatus(st.activeTab).Some? ==> o.status == TabStatus(st.activeTab).value)
              && MatchesSearch(o, st.searchQuery)
              && MatchesStatus(o, st.statusFilter)
    ensures SortedBy(st.sortBy, st.sortOrder, VisibleOrders(orders, st))
  {
    var tabFiltered := TabFilter(orders, st.activeTab);
    var filtered := SearchFilter(tabFiltered, st.searchQuery, st.statusFilter);
    var r := VisibleOrders(orders, st);
    SortPermutes(filtered, st.sortBy, st.sortOrder);
    SortSorted(filtered, st.sortBy, st.sortOrder);
    forall o | o in r
      ensures o in filtered && o in tabFiltered
      ensures MatchesSearch(o, st.searchQuery) && MatchesStatus(o, st.statusFilter)
    {
      assert o in multiset(r);
      assert o in multiset(filtered);
      assert Passes(st.searchQuery, st.statusFilter)(o);
    }
    if TabStatus(st.activeTab).Some? {
      var p := HasStatus(TabStatus(st.activeTab).value);
      assert tabFiltered == Filter(orders, p);
      forall o | o in tabFiltered ensures o in orders && p(o) {
      }
    }
  }

  /**
   * The page as it mounts shows every order, sorted by order id ascending:
   * tab "all", empty search, "All Statuses", key "orderId", direction "asc".
   */
  lemma InitialStateShowsAll(orders: seq<PizzaOrder>)
    ensures multiset(VisibleOrders(orders, InitialState)) == multiset(orders)
    ensures var r := VisibleOrders(orders, InitialState);
            forall i, j :: 0 <= i < j < |r| ==> LexCompare(r[i].orderId, r[j].orderId) <= 0
  {
    TabFilterSelects(orders, InitialState.activeTab);
    SearchFilterSelects(orders, InitialState.searchQuery, InitialState.statusFilter);
    VisibleOrdersSpec(orders, InitialState);
    SortedByKey(VisibleOrders(orders, InitialState), InitialState.sortBy, InitialState.sortOrder);
  }

  /** `toggleSortOrder`: flips the direction and touches nothing else. */
  function ToggleSortOrder(st: PageState): (r: PageState)
    ensures r.sortOrder != st.sortOrder
    ensures r == st.(sortOrder := r.sortOrder)
  {
    st.(sortOrder := if st.sortOrder == Asc then Desc else Asc)
  }

  /** Toggling twice restores the state. */
  lemma ToggleTwice(st: PageState)
    ensures ToggleSortOrder(ToggleSortOrder(st)) == st
  {
  }

  // ---------------------------------------------------------------------------
  // Counts
  // ---------------------------------------------------------------------------

  /** `orders.filter((order) => order.status === status).length`. */
  function StatusCount(orders: seq<PizzaOrder>, status: string): nat {
    |Filter(orders, HasStatus(status))|
  }

  /** The five recognised statuses are pairwise distinct, so their counts add up to at most the total. */
  lemma {:induction false} StatusCountsBounded(orders: seq<PizzaOrder>)
    ensures StatusCount(orders, Pending) + StatusCount(orders, Preparing) + StatusCount(orders, OutForDelivery)
            + StatusCount(orders, Delivered) + StatusCount(orders, Cancelled) <= |orders|
  {
    if orders != [] {
      StatusCountsBounded(orders[1..]);
    }
  }

  /** The numbers shown on the six tabs. */
  datatype TabCounts = TabCounts(all: nat, pending: nat, preparing: nat, delivering: nat, completed: nat, cancelled: nat)

  function CountTabs(orders: seq<PizzaOrder>): (c: TabCounts)
    ensures c.all == |orders|
    ensures c.pending == |TabFilter(orders, "pending")| && c.preparing == |TabFilter(orders, "preparing")|
    ensures c.delivering == |TabFilter(orders, "delivering")| && c.completed == |TabFilter(orders, "completed")|
    ensures c.cancelled == |TabFilter(orders, "cancelled")|
    ensures c.pending + c.preparing + c.delivering + c.completed + c.cancelled <= c.all
  {
    StatusCountsBounded(orders);
    TabCounts(|orders|, StatusCount(orders, Pending), StatusCount(orders, Preparing),
              StatusCount(orders, OutForDelivery), StatusCount(orders, Delivered), StatusCount(orders, Cancelled))
  }

  /** What the page renders. */
  datatype OrdersView = LoadingView | NoView | OrdersTable(rows: seq<PizzaOrder>, counts: TabCounts)

  /** While loading only the spinner; with no user nothing; otherwise the pipeline and the counts. */
  function RenderOrdersPage(isLoading: bool, user: Option<User>, orders: seq<PizzaOrder>, st: PageState): (v: OrdersView)
    ensures isLoading <==> v.LoadingView?
    ensures v.NoView? <==> !isLoading && user.None?
    ensures v.OrdersTable? ==> v.rows == VisibleOrders(orders, st) && v.counts == CountTabs(orders)
  {
    if isLoading then LoadingView
    else if user.None? then NoView
    else OrdersTable(VisibleOrders(orders, st), CountTabs(orders))
  }
}
