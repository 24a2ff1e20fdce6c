/**
 * The pure logic of the order hooks (src/hooks/useOrders.ts): the status
 * filter applied on read to the cached order list, the dependent products
 * query, the joined order view with its combined flags, and the per-order
 * status patch applied to the cached list after a status update.
 */
module OrderHooks {
  import opened Wrappers
  import opened OrderTypes

  // ---------------------------------------------------------------------
  // The status-filtered view of the order list (useOrders)
  // ---------------------------------------------------------------------

  /** `data.filter(order => order.status === status)`. */
  function FilterStatus(data: seq<Order>, status: OrderStatus): (r: seq<Order>)
    ensures |r| <= |data|
    ensures forall o :: o in r <==> o in data && o.status == status
  {
    if data == [] then []
    else if data[0].status == status then [data[0]] + FilterStatus(data[1..], status)
    else FilterStatus(data[1..], status)
  }

  /** The `select` projection of `useOrders`: filter when a status is given, otherwise the list itself. */
  function SelectByStatus(data: seq<Order>, status: Option<OrderStatus>): (r: seq<Order>)
    ensures status.None? ==> r == data
    ensures |r| <= |data|
    ensures forall o :: o in r <==> o in data && (status.None? || o.status == status.value)
  {
    match status
    case None => data
    case Some(s) => FilterStatus(data, s)
  }

  /**
   * `idx` lists, in increasing order, the positions of `data` that `view`
   * copies, and these are exactly the positions whose order has `status`.
   */
  ghost predicate PicksExactly(idx: seq<int>, view: seq<Order>, data: seq<Order>, status: OrderStatus) {
    && |idx| == |view|
    && (forall k :: 0 <= k < |idx| ==> 0 <= idx[k] < |data| && view[k] == data[idx[k]])
    && (forall k, l :: 0 <= k < l < |idx| ==> idx[k] < idx[l])
    && (forall j :: 0 <= j < |data| ==> (j in idx <==> data[j].status == status))
  }

  /** Every position moved one place to the right. */
  function Shift(idx: seq<int>): (r: seq<int>)
    ensures |r| == |idx|
    ensures forall k :: 0 <= k < |idx| ==> r[k] == idx[k] + 1
  {
    seq(|idx|, k requires 0 <= k < |idx| => idx[k] + 1)
  }

  /** A position is in the shifted list exactly when the position before it is in the original one. */
  lemma ShiftMembership(idx: seq<int>, j: int)
    ensures j in Shift(idx) <==> j - 1 in idx
  {
  }

  /** Positions picked from `data[1..]`, seen as positions of `data`, pick the same orders from `data`. */
  lemma ShiftPicks(idx: seq<int>, view: seq<Order>, data: seq<Order>, status: OrderStatus)
    requires data != []
    requires PicksExactly(idx, view, data[1..], status)
    ensures |Shift(idx)| == |view|
    ensures forall k :: 0 <= k < |idx| ==> 1 <= Shift(idx)[k] < |data| && view[k] == data[Shift(idx)[k]]
    ensures forall k, l :: 0 <= k < l < |idx| ==> Shift(idx)[k] < Shift(idx)[l]
    ensures forall j :: 1 <= j < |data| ==> (j in Shift(idx) <==> data[j].status == status)
    ensures 0 !in Shift(idx)
  {
  }

  /** Picking `data[0]` in front of positions that pick from the rest of `data`. */
  lemma PickHead(shifted: seq<int>, view: seq<Order>, data: seq<Order>, status: OrderStatus)
    requires data != [] && data[0].status == status
    requires |shifted| == |view|
    requires forall k :: 0 <= k < |shifted| ==> 1 <= shifted[k] < |data| && view[k] == data[shifted[k]]
    requires forall k, l :: 0 <= k < l < |shifted| ==> shifted[k] < shifted[l]
    requires forall j :: 1 <= j < |data| ==> (j in shifted <==> data[j].status == status)
    ensures PicksExactly([0] + shifted, [data[0]] + view, data, status)
  {
  }

  /** The filtered list is the subsequence of the cached list made of exactly its orders with the given status. */
  lemma {:induction false} FilterStatusPicksMatching(data: seq<Order>, status: OrderStatus)
    ensures exists idx :: PicksExactly(idx, FilterStatus(data, status), data, status)
  {
    if data == [] {
      assert PicksExactly([], FilterStatus(data, status), data, status);
    } else {
      var view := FilterStatus(data[1..], status);
      FilterStatusPicksMatching(data[1..], status);
      var idx :| PicksExactly(idx, view, data[1..], status);
      ShiftPicks(idx, view, data, status);
      if data[0].status == status {
        PickHead(Shift(idx), view, data, status);
        assert FilterStatus(data, status) == [data[0]] + view;
      } else {
        assert FilterStatus(data, status) == view;
        assert PicksExactly(Shift(idx), view, data, status);
      }
    }
  }

  /** Filtering an already filtered list by the same status changes nothing. */
  lemma {:induction false} FilterStatusIdempotent(data: seq<Order>, status: OrderStatus)
    ensures FilterStatus(FilterStatus(data, status), status) == FilterStatus(data, status)
  {
    if data != [] {
      var rest := FilterStatus(data[1..], status);
      FilterStatusIdempotent(data[1..], status);
      if data[0].status == status {
        assert ([data[0]] + rest)[1..] == rest;
      }
    }
  }

  /** Selecting twice with the same filter is selecting once. */
  lemma SelectByStatusIdempotent(data: seq<Order>, status: Option<OrderStatus>)
    ensures SelectByStatus(SelectByStatus(data, status), status) == SelectByStatus(data, status)
  {
    if status.Some? {
      FilterStatusIdempotent(data, status.value);
    }
  }

  /**
   * The three status views all read the one cached list and split it:
   * every cached order is in exactly one of them, as many times as it is cached.
   */
  lemma {:induction false} StatusViewsPartition(data: seq<Order>)
    ensures multiset(SelectByStatus(data, Some(Pending)))
          + multiset(SelectByStatus(data, Some(Paid)))
          + multiset(SelectByStatus(data, Some(Shipped))) == multiset(data)
  {
    if data != [] {
      StatusViewsPartition(data[1..]);
      assert data == [data[0]] + data[1..];
    }
  }

  // ---------------------------------------------------------------------
  // The dependent products query (useOrder)
  // ---------------------------------------------------------------------

  /** `order.products.map(item => item.productId)`. */
  function ProductIds(items: seq<CartItem>): (r: seq<int>)
    ensures |r| == |items|
    ensures forall i :: 0 <= i < |items| ==> r[i] == items[i].productId
  {
    if items == [] then [] else [items[0].productId] + ProductIds(items[1..])
  }

  /** What the products producer does: answer `[]` at once, or call `fetchProducts` with these ids. */
  datatype ProductsFetch = ReturnEmpty | FetchProducts(ids: seq<int>)

  /** The products query's producer, which reads the order query's data. */
  function ProductsQueryFn(orderData: Option<Order>): (r: ProductsFetch)
    ensures r.ReturnEmpty? <==> orderData.None?
    ensures r.FetchProducts? ==>
      && |r.ids| == |orderData.value.products|
      && forall i :: 0 <= i < |r.ids| ==> r.ids[i] == orderData.value.products[i].productId
  {
    match orderData
    case None => ReturnEmpty
    case Some(order) => FetchProducts(ProductIds(order.products))
  }

  /** The `enabled` gate of the products query: `!!orderQuery.data`. */
  function ProductsQueryEnabled(orderData: Option<Order>): (r: bool)
    ensures r <==> ProductsQueryFn(orderData).FetchProducts?
  {
    orderData.Some?
  }

  /**
   * The gate and the producer agree: the query is held back exactly when the
   * order has no data, and whenever it may run it requests the order's
   * product ids, so the producer's `[]` shortcut is never taken by a run.
   */
  lemma ProductsGateMatchesProducer(orderData: Option<Order>)
    ensures !ProductsQueryEnabled(orderData) <==> orderData.None?
    ensures ProductsQueryEnabled(orderData) ==>
      ProductsQueryFn(orderData) == FetchProducts(ProductIds(orderData.value.products))
    ensures !ProductsQueryEnabled(orderData) ==> ProductsQueryFn(orderData) == ReturnEmpty
  {
  }

  // ---------------------------------------------------------------------
  // The joined view and the combined flags (useOrder)
  // ---------------------------------------------------------------------

  /** `orderQuery.data ? { ...orderQuery.data, productDetails: productsQuery.data } : undefined`. */
  function JoinOrder(orderData: Option<Order>, productsData: Option<seq<Product>>): (r: Option<OrderWithProducts>)
    ensures r.None? <==> orderData.None?
    ensures r.Some? ==> r.value.AsOrder() == orderData.value && r.value.productDetails == productsData
  {
    match orderData
    case None => None
    case Some(order) => Some(WithProductDetails(order, productsData))
  }

  /** A failure reason reported by a query. */
  datatype QueryError = QueryError(message: string)

  /** What one query reports to the hook (its state is decided by the query library). */
  datatype QueryResult<T> = QueryResult(data: Option<T>, isLoading: bool, isError: bool, error: Option<QueryError>)

  /** A query whose error flag agrees with the presence of its error value. */
  predicate ErrorConsistent<T>(q: QueryResult<T>) {
    q.isError <==> q.error.Some?
  }

  /** `a || b` on two nullable errors: the first one present. */
  function FirstError(a: Option<QueryError>, b: Option<QueryError>): (r: Option<QueryError>)
    ensures r.Some? <==> a.Some? || b.Some?
    ensures a.Some? ==> r == a
    ensures a.None? ==> r == b
  {
    if a.Some? then a else b
  }

  /** What `useOrder` returns, apart from the mutation handles. */
  datatype OrderDetailState = OrderDetailState(
    order: Option<OrderWithProducts>, isLoading: bool, isError: bool, error: Option<QueryError>)

  /** The object returned by `useOrder`, built from the order query and the products query. */
  function UseOrderState(orderQuery: QueryResult<Order>, productsQuery: QueryResult<seq<Product>>): (r: OrderDetailState)
    ensures r.order.None? <==> orderQuery.data.None?
    ensures r.order.Some? ==>
      r.order.value.AsOrder() == orderQuery.data.value && r.order.value.productDetails == productsQuery.data
    ensures r.isLoading <==> orderQuery.isLoading || productsQuery.isLoading
    ensures r.isError <==> orderQuery.isError || productsQuery.isError
    ensures orderQuery.error.Some? ==> r.error == orderQuery.error
    ensures orderQuery.error.None? ==> r.error == productsQuery.error
  {
    OrderDetailState(
      JoinOrder(orderQuery.data, productsQuery.data),
      orderQuery.isLoading || productsQuery.isLoading,
      orderQuery.isError || productsQuery.isError,
      FirstError(orderQuery.error, productsQuery.error))
  }

  /**
   * When each query's error flag matches its error value, so do the combined
   * ones, and the combined error is one of the queries' own errors, never a new one.
   */
  lemma CombinedErrorConsistent(orderQuery: QueryResult<Order>, productsQuery: QueryResult<seq<Product>>)
    requires ErrorConsistent(orderQuery) && ErrorConsistent(productsQuery)
    ensures UseOrderState(orderQuery, productsQuery).isError <==> UseOrderState(orderQuery, productsQuery).error.Some?
    ensures UseOrderState(orderQuery, productsQuery).error.Some? ==>
      UseOrderState(orderQuery, productsQuery).error in {orderQuery.error, productsQuery.error}
  {
  }

  // ---------------------------------------------------------------------
  // The status patch of the cached order list (updateStatusMutation.onSuccess)
  // ---------------------------------------------------------------------

  /** `oldOrders.map(order => order.id === id ? { ...order, status } : order)`. */
  function PatchStatus(orders: seq<Order>, id: int, status: OrderStatus): (r: seq<Order>)
    ensures |r| == |orders|
    ensures forall i :: 0 <= i < |orders| ==>
      r[i] == if orders[i].id == id then orders[i].(status := status) else orders[i]
  {
    if orders == [] then []
    else
      [if orders[0].id == id then orders[0].(status := status) else orders[0]]
      + PatchStatus(orders[1..], id, status)
  }

  /** The updater given for `['orders']`: no cached list becomes `[]`, a cached list is patched. */
  function PatchOrdersEntry(oldOrders: Option<seq<Order>>, id: int, status: OrderStatus): (r: seq<Order>)
    ensures oldOrders.None? ==> r == []
    ensures oldOrders.Some? ==> |r| == |oldOrders.value|
    ensures oldOrders.Some? ==> forall i :: 0 <= i < |r| ==>
      r[i] == if oldOrders.value[i].id == id then oldOrders.value[i].(status := status) else oldOrders.value[i]
  {
    match oldOrders
    case None => []
    case Some(orders) => PatchStatus(orders, id, status)
  }

  /**
   * The patch touches only `status`, and only of the orders with the mutated id:
   * putting back each order's old status gives back the old list, ids and order included.
   */
  lemma PatchStatusOnlyChangesStatus(orders: seq<Order>, id: int, status: OrderStatus)
    ensures var r := PatchStatus(orders, id, status);
      && |r| == |orders|
      && (forall i :: 0 <= i < |r| ==> r[i].(status := orders[i].status) == orders[i])
      && (forall i :: 0 <= i < |r| ==> r[i].id == orders[i].id)
      && (forall i :: 0 <= i < |r| && orders[i].id != id ==> r[i] == orders[i])
      && (forall o :: o in r && o.id == id ==> o.status == status)
  {
  }

  /** Applying the same patch twice is applying it once. */
  lemma PatchStatusIdempotent(orders: seq<Order>, id: int, status: OrderStatus)
    ensures PatchStatus(PatchStatus(orders, id, status), id, status) == PatchStatus(orders, id, status)
  {
  }

  /** Two successive patches of the same order: the later status wins. */
  lemma PatchStatusLastWins(orders: seq<Order>, id: int, first: OrderStatus, second: OrderStatus)
    ensures PatchStatus(PatchStatus(orders, id, first), id, second) == PatchStatus(orders, id, second)
  {
  }

  /** A list without the mutated id is left exactly as it was. */
  lemma PatchStatusNoMatch(orders: seq<Order>, id: int, status: OrderStatus)
    requires forall o :: o in orders ==> o.id != id
    ensures PatchStatus(orders, id, status) == orders
  {
  }

  /**
   * After the patch, the status views agree with the new status: the patched
   * order appears in the view of its new status, in no other status view, and
   * every other order stays in exactly the views it was in.
   */
  lemma PatchedStatusViews(orders: seq<Order>, id: int, status: OrderStatus, view: OrderStatus)
    ensures var patched := FilterStatus(PatchStatus(orders, id, status), view);
      && (forall o :: o in patched && o.id == id ==> view == status)
      && (view == status ==> forall o :: o in orders && o.id == id ==> o.(status := status) in patched)
      && (forall o: Order :: o.id != id ==> (o in patched <==> o in FilterStatus(orders, view)))
  {
  }
}
