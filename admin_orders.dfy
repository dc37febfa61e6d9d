/** The admin order list: the search and status filter over the fetched orders, the
    grouping into one bucket per `OrderStatus`, the badge colour of a status, the
    single-expanded-row toggle, and the `isUpdating` / `error` / `loading` fields that
    a status update steps through. The order service is reached over HTTP, so what it
    answers is a parameter. */
module AdminOrders {
  import opened Seqs
  import opened Text

  /** `OrderStatus`, in declaration order. */
  datatype OrderStatus = PENDING | CONFIRMED | DELIVERED | CANCELLED

  /** `Object.values(OrderStatus)` */
  const StatusValues: seq<OrderStatus> := [PENDING, CONFIRMED, DELIVERED, CANCELLED]

  datatype Customer = Customer(firstName: string, lastName: string, email: string)

  /** An order line, reduced to what the page searches: the product's name. */
  datatype OrderItem = OrderItem(quantity: int, productName: string)

  datatype Order = Order(id: int, status: OrderStatus, user: Customer, items: seq<OrderItem>)

  /** The status drop-down: `'ALL'` or one status. */
  datatype StatusFilter = All | Only(status: OrderStatus)


  /** `order.order_items.some(item => item.product.name.toLowerCase().includes(lowered))` */
  predicate SomeItemNamed(items: seq<OrderItem>, lowered: string)
  {
    exists i :: 0 <= i < |items| && Contains(ToLower(items[i].productName), lowered)
  }

  /** `matchesSearch`: an empty term matches everything; the id is matched against its
      decimal text as typed; names, email and product names ignore ASCII case. */
  predicate MatchesSearch(order: Order, term: string)
  {
    var lowered := ToLower(term);
    || term == ""
    || Contains(IntToString(order.id), term)
    || Contains(ToLower(order.user.firstName), lowered)
    || Contains(ToLower(order.user.lastName), lowered)
    || Contains(ToLower(order.user.email), lowered)
    || SomeItemNamed(order.items, lowered)
  }

  /** `matchesStatus` */
  predicate MatchesStatus(order: Order, filter: StatusFilter)
  {
    filter.All? || order.status == filter.status
  }

  predicate Shown(order: Order, term: string, filter: StatusFilter)
  {
    MatchesSearch(order, term) && MatchesStatus(order, filter)
  }

  /** `filteredOrders` */
  function FilteredOrders(orders: seq<Order>, term: string, filter: StatusFilter): seq<Order>
  {
    Filter(orders, (o: Order) => Shown(o, term, filter))
  }

  /** With an empty search and `'ALL'` every order is listed, in its order. */
  lemma UnfilteredListsAll(orders: seq<Order>)
    ensures FilteredOrders(orders, "", All) == orders
  {
    FilterKeepsAll(orders, (o: Order) => Shown(o, "", All));
  }

  /** The list keeps the fetched order and holds exactly the orders that match both the
      search and the status filter, each as often as it was fetched. */
  lemma FilteredOrdersExact(orders: seq<Order>, term: string, filter: StatusFilter, x: Order)
    ensures IsSubsequence(FilteredOrders(orders, term, filter), orders)
    ensures multiset(FilteredOrders(orders, term, filter))[x] ==
      if MatchesSearch(x, term) && MatchesStatus(x, filter) then multiset(orders)[x] else 0
  {
    FilterIsSubsequence(orders, (o: Order) => Shown(o, term, filter));
    FilterCount(orders, (o: Order) => Shown(o, term, filter), x);
  }

  /** Choosing one status lists only orders of that status. */
  lemma FilteredOrdersHaveStatus(orders: seq<Order>, term: string, s: OrderStatus)
    ensures forall i :: 0 <= i < |FilteredOrders(orders, term, Only(s))| ==>
      FilteredOrders(orders, term, Only(s))[i].status == s
  {
  }

  /** Every order is found by its own number. */
  lemma FoundById(order: Order)
    ensures MatchesSearch(order, IntToString(order.id))
  {
    var t := IntToString(order.id);
    assert t <= t[0..];
  }

  /** The decimal text of an integer has no ASCII letter. */
  lemma IntToStringHasNoLetter(n: int)
    ensures forall i :: 0 <= i < |IntToString(n)| ==> !('A' <= IntToString(n)[i] <= 'Z')
    ensures forall i :: 0 <= i < |IntToString(n)| ==> !('a' <= IntToString(n)[i] <= 'z')
  {
    if n < 0 {
      var d := NatToString(-n);
      assert forall i :: 1 <= i < |IntToString(n)| ==> IntToString(n)[i] == d[i - 1];
    }
  }

  /** A term found inside the id's text is typed exactly: any other spelling of it that
      differs only in case is the same string. */
  lemma IdMatchIsCaseFree(id: int, t1: string, t2: string)
    requires EqualIgnoringCase(t1, t2)
    requires Contains(IntToString(id), t1)
    ensures t1 == t2
  {
    var h := IntToString(id);
    IntToStringHasNoLetter(id);
    var i :| 0 <= i <= |h| && t1 <= h[i..];
    forall k | 0 <= k < |t1| ensures t1[k] == t2[k] {
      assert t1[k] == h[i + k];
    }
  }

  /** Searching is blind to the case of the term: the id part only ever matches digits
      and `-`, which have no case, and every other part lower-cases both sides. */
  lemma SearchIgnoresCase(order: Order, t1: string, t2: string)
    requires EqualIgnoringCase(t1, t2)
    ensures MatchesSearch(order, t1) <==> MatchesSearch(order, t2)
  {
    EqualIgnoringCaseLower(t1, t2);
    if Contains(IntToString(order.id), t1) {
      IdMatchIsCaseFree(order.id, t1, t2);
    }
    if Contains(IntToString(order.id), t2) {
      IdMatchIsCaseFree(order.id, t2, t1);
    }
  }

  /** `filteredOrders.filter(order => order.status === status)` */
  function Bucket(filtered: seq<Order>, status: OrderStatus): seq<Order>
  {
    Filter(filtered, (o: Order) => o.status == status)
  }

  /** `ordersByStatus`: one entry per status. */
  function OrdersByStatus(filtered: seq<Order>): map<OrderStatus, seq<Order>>
  {
    map s | s in StatusValues :: Bucket(filtered, s)
  }

  /** Every status has an entry, holding its bucket; a bucket holds only its own status,
      in list order. */
  lemma OrdersByStatusBuckets(filtered: seq<Order>)
    ensures forall s :: s in OrdersByStatus(filtered) && OrdersByStatus(filtered)[s] == Bucket(filtered, s)
    ensures forall s, i :: 0 <= i < |Bucket(filtered, s)| ==> Bucket(filtered, s)[i].status == s
    ensures forall s :: IsSubsequence(Bucket(filtered, s), filtered)
  {
    forall s ensures s in StatusValues {
      assert s.PENDING? || s.CONFIRMED? || s.DELIVERED? || s.CANCELLED?;
    }
    forall s ensures IsSubsequence(Bucket(filtered, s), filtered) {
      FilterIsSubsequence(filtered, (o: Order) => o.status == s);
    }
  }

  /** The four buckets together hold each order exactly as often as the filtered list
      does, so their sizes add up to its length. */
  lemma BucketsPartition(filtered: seq<Order>)
    ensures multiset(Bucket(filtered, PENDING)) + multiset(Bucket(filtered, CONFIRMED))
      + multiset(Bucket(filtered, DELIVERED)) + multiset(Bucket(filtered, CANCELLED)) == multiset(filtered)
    ensures |Bucket(filtered, PENDING)| + |Bucket(filtered, CONFIRMED)|
      + |Bucket(filtered, DELIVERED)| + |Bucket(filtered, CANCELLED)| == |filtered|
  {
    var whole := multiset(Bucket(filtered, PENDING)) + multiset(Bucket(filtered, CONFIRMED))
      + multiset(Bucket(filtered, DELIVERED)) + multiset(Bucket(filtered, CANCELLED));
    forall x ensures whole[x] == multiset(filtered)[x] {
      FilterCount(filtered, (o: Order) => o.status == PENDING, x);
      FilterCount(filtered, (o: Order) => o.status == CONFIRMED, x);
      FilterCount(filtered, (o: Order) => o.status == DELIVERED, x);
      FilterCount(filtered, (o: Order) => o.status == CANCELLED, x);
    }
    assert whole == multiset(filtered);
  }

  /** `getStatusColor`. The `default` branch cannot be reached with the four statuses. */
  function StatusColor(status: OrderStatus): string
  {
    match status
    case DELIVERED => "bg-green-100 text-green-800"
    case CONFIRMED => "bg-blue-100 text-blue-800"
    case PENDING => "bg-yellow-100 text-yellow-800"
    case CANCELLED => "bg-red-100 text-red-800"
  }

  /** Each status gets a badge colour of its own, never the grey fallback. */
  lemma StatusColorsDistinct(a: OrderStatus, b: OrderStatus)
    ensures StatusColor(a) == StatusColor(b) <==> a == b
    ensures StatusColor(a) != "bg-gray-100 text-gray-800"
  {
    if a != b {
      assert StatusColor(a)[3] != StatusColor(b)[3];
    }
    assert StatusColor(a)[5] != "bg-gray-100 text-gray-800"[5];
  }

  /** The row the expand button leaves open: `expandedOrder === id ? null : id`. */
  function Toggled(expanded: Option<int>, id: int): Option<int>
  {
    if expanded == Some(id) then None else Some(id)
  }

  /** After a click on row `id`, a row is open exactly when it is `id` and `id` was not
      open before; at most one row is ever open. */
  lemma ToggleOpensOnlyClicked(expanded: Option<int>, id: int, row: int)
    ensures Toggled(expanded, id) == Some(row) <==> row == id && expanded != Some(id)
    ensures Toggled(Toggled(None, id), id) == None
  {
  }

  const UpdateFailed := "Failed to update order status. Please try again."
  const LoadFailed := "Failed to load orders. Please try again later."

  /** The page's state fields. */
  class OrdersPage {
    var orders: seq<Order>
    var loading: bool
    var error: string
    var expandedOrder: Option<int>
    var searchTerm: string
    var statusFilter: StatusFilter
    var isUpdating: Option<int>

    constructor ()
      ensures orders == [] && loading && error == ""
      ensures expandedOrder == None && searchTerm == "" && statusFilter == All && isUpdating == None
    {
      orders, loading, error := [], true, "";
      expandedOrder, searchTerm, statusFilter, isUpdating := None, "", All, None;
    }

    /** The list the page renders for the current state. */
    function Visible(): seq<Order>
      reads this
    {
      FilteredOrders(orders, searchTerm, statusFilter)
    }

    /** The expand button of row `id`. */
    method ToggleExpanded(id: int)
      modifies this
      ensures expandedOrder == Toggled(old(expandedOrder), id)
      ensures orders == old(orders) && isUpdating == old(isUpdating) && error == old(error)
      ensures searchTerm == old(searchTerm) && statusFilter == old(statusFilter) && loading == old(loading)
    {
      expandedOrder := if expandedOrder == Some(id) then None else Some(id);
    }

    method SetSearchTerm(term: string)
      modifies this
      ensures searchTerm == term && Visible() == FilteredOrders(orders, term, statusFilter)
      ensures orders == old(orders) && statusFilter == old(statusFilter) && expandedOrder == old(expandedOrder)
      ensures loading == old(loading) && error == old(error) && isUpdating == old(isUpdating)
    {
      searchTerm := term;
    }

    method SetStatusFilter(filter: StatusFilter)
      modifies this
      ensures statusFilter == filter && Visible() == FilteredOrders(orders, searchTerm, filter)
      ensures orders == old(orders) && searchTerm == old(searchTerm) && expandedOrder == old(expandedOrder)
      ensures loading == old(loading) && error == old(error) && isUpdating == old(isUpdating)
    {
      statusFilter := filter;
    }

    /** `fetchOrders`, the service answering `response` (`None` when the request fails). */
    method FetchOrders(response: Option<seq<Order>>)
      modifies this
      ensures !loading
      ensures orders == (if response.Some? then response.value else old(orders))
      ensures error == (if response.Some? then old(error) else LoadFailed)
      ensures isUpdating == old(isUpdating) && expandedOrder == old(expandedOrder)
      ensures searchTerm == old(searchTerm) && statusFilter == old(statusFilter)
    {
      loading := true;
      match response {
        case Some(fetched) => orders := fetched;
        case None => error := LoadFailed;
      }
      loading := false;
    }

    /** `handleStatusUpdate(orderId, newStatus)`: the service applies the status (or fails,
        `updateSucceeds` false), after which the list is fetched again; `fetchOrders`
        reports its own failure, so the update message appears only when the update fails.
        Either way `isUpdating` is cleared at the end. */
    method HandleStatusUpdate(orderId: int, newStatus: OrderStatus, updateSucceeds: bool,
                              response: Option<seq<Order>>)
      modifies this
      ensures isUpdating == None
      ensures orders == (if updateSucceeds && response.Some? then response.value else old(orders))
      ensures error == (if !updateSucceeds then UpdateFailed
                        else if response.Some? then old(error) else LoadFailed)
      ensures loading == (if updateSucceeds then false else old(loading))
      ensures expandedOrder == old(expandedOrder)
      ensures searchTerm == old(searchTerm) && statusFilter == old(statusFilter)
    {
      isUpdating := Some(orderId);
      if updateSucceeds {
        FetchOrders(response);
      } else {
        error := UpdateFailed;
      }
      isUpdating := None;
    }
  }
}
