/**
 * The shared query cache as the order hooks use it (src/hooks/useOrders.ts):
 * one entry per query key, read through the hooks' projections and written
 * by the status mutation's success handler.
 */
module QueryCache {
  import opened Wrappers
  import opened OrderTypes
  import opened OrderHooks

  /** `['orders']`, `['order', id]` and `['orderProducts', id]`. */
  datatype QueryKey = OrdersKey | OrderKey(id: int) | OrderProductsKey(id: int)

  /** The data a key holds: the order list, one order, or the products of one order. */
  datatype CacheData = OrderList(orders: seq<Order>) | OrderRecord(order: Order) | ProductList(products: seq<Product>)

  /** Which kind of data each key holds. */
  predicate FitsKey(key: QueryKey, data: CacheData) {
    match key
    case OrdersKey => data.OrderList?
    case OrderKey(_) => data.OrderRecord?
    case OrderProductsKey(_) => data.ProductList?
  }

  /** The updater of the `['orders']` entry after a status update of order `id`. */
  function PatchOrdersUpdater(id: int, status: OrderStatus): (updater: Option<CacheData> -> CacheData)
    ensures forall prev :: updater(prev).OrderList?
    ensures updater(None) == OrderList([])
    ensures forall orders :: updater(Some(OrderList(orders))) == OrderList(PatchStatus(orders, id, status))
  {
    (prev: Option<CacheData>) =>
      var oldOrders := if prev.Some? && prev.value.OrderList? then Some(prev.value.orders) else None;
      OrderList(PatchOrdersEntry(oldOrders, id, status))
  }

  /** The query client: a map from key to data; a key without data is absent. */
  class QueryClient {
    var entries: map<QueryKey, CacheData>

    /** Every key holds the kind of data its queries produce. */
    ghost predicate Valid()
      reads this
    {
      forall key :: key in entries ==> FitsKey(key, entries[key])
    }

    /** A cache in which no query has data yet. */
    constructor ()
      ensures Valid()
      ensures entries == map[]
    {
      entries := map[];
    }

    /** `getQueryData(key)`. */
    function GetQueryData(key: QueryKey): (r: Option<CacheData>)
      reads this
      ensures r.Some? <==> key in entries
      ensures r.Some? ==> r.value == entries[key]
    {
      if key in entries then Some(entries[key]) else None
    }

    /** The data of `['orders']`, if any. */
    function OrdersData(): (r: Option<seq<Order>>)
      reads this
      requires Valid()
      ensures r.Some? <==> OrdersKey in entries
      ensures r.Some? ==> entries[OrdersKey] == OrderList(r.value)
    {
      if OrdersKey in entries then Some(entries[OrdersKey].orders) else None
    }

    /** The data of `['order', id]`, if any. */
    function OrderData(id: int): (r: Option<Order>)
      reads this
      requires Valid()
      ensures r.Some? <==> OrderKey(id) in entries
      ensures r.Some? ==> entries[OrderKey(id)] == OrderRecord(r.value)
    {
      if OrderKey(id) in entries then Some(entries[OrderKey(id)].order) else None
    }

    /** The data of `['orderProducts', id]`, if any. */
    function ProductsData(id: int): (r: Option<seq<Product>>)
      reads this
      requires Valid()
      ensures r.Some? <==> OrderProductsKey(id) in entries
      ensures r.Some? ==> entries[OrderProductsKey(id)] == ProductList(r.value)
    {
      if OrderProductsKey(id) in entries then Some(entries[OrderProductsKey(id)].products) else None
    }

    /**
     * What `useOrders(status)` shows: the one `['orders']` entry, whatever the
     * filter, projected by the status filter; nothing while the list has no data.
     */
    function OrdersView(status: Option<OrderStatus>): (r: Option<seq<Order>>)
      reads this
      requires Valid()
      ensures r.None? <==> OrdersKey !in entries
      ensures r.Some? && status.None? ==> entries[OrdersKey] == OrderList(r.value)
      ensures r.Some? ==> forall o :: o in r.value <==>
        o in entries[OrdersKey].orders && (status.None? || o.status == status.value)
    {
      match OrdersData()
      case None => None
      case Some(data) => Some(SelectByStatus(data, status))
    }

    /** The joined order `useOrder(id)` shows, from the `['order', id]` and `['orderProducts', id]` entries. */
    function OrderView(id: int): (r: Option<OrderWithProducts>)
      reads this
      requires Valid()
      ensures r.None? <==> OrderKey(id) !in entries
      ensures r.Some? ==> OrderRecord(r.value.AsOrder()) == entries[OrderKey(id)]
      ensures r.Some? ==> (r.value.productDetails.Some? <==> OrderProductsKey(id) in entries)
      ensures r.Some? && r.value.productDetails.Some? ==>
        entries[OrderProductsKey(id)] == ProductList(r.value.productDetails.value)
    {
      JoinOrder(OrderData(id), ProductsData(id))
    }

    /** `setQueryData(key, data)`: the entry for `key` now holds `data`, every other entry is untouched. */
    method SetQueryData(key: QueryKey, data: CacheData)
      requires Valid()
      requires FitsKey(key, data)
      modifies this
      ensures Valid()
      ensures entries == old(entries)[key := data]
    {
      entries := entries[key := data];
    }

    /** `setQueryData(key, updater)`: the entry for `key` now holds the updater applied to its previous data. */
    method UpdateQueryData(key: QueryKey, updater: Option<CacheData> -> CacheData)
      requires Valid()
      requires FitsKey(key, updater(GetQueryData(key)))
      modifies this
      ensures Valid()
      ensures entries == old(entries)[key := updater(old(GetQueryData(key)))]
    {
      var next := updater(GetQueryData(key));
      entries := entries[key := next];
    }

    /**
     * `onSuccess` of the status mutation for order `id`: the detail entry is
     * replaced by the server's record, then the list entry is patched so that
     * the orders with that id take its status; no other entry changes.
     */
    method OnUpdateStatusSuccess(id: int, updatedOrder: Order)
      requires Valid()
      modifies this
      ensures Valid()
      ensures entries == old(entries)
        [OrderKey(id) := OrderRecord(updatedOrder)]
        [OrdersKey := OrderList(PatchOrdersEntry(old(OrdersData()), id, updatedOrder.status))]
      ensures OrderData(id) == Some(updatedOrder)
      ensures old(OrdersData()).None? ==> OrdersData() == Some([])
      ensures old(OrdersData()).Some? ==> OrdersData().Some? && |OrdersData().value| == |old(OrdersData()).value|
      ensures OrdersData().Some? && forall o :: o in OrdersData().value && o.id == id ==> o.status == updatedOrder.status
    {
      SetQueryData(OrderKey(id), OrderRecord(updatedOrder));
      UpdateQueryData(OrdersKey, PatchOrdersUpdater(id, updatedOrder.status));
      PatchStatusOnlyChangesStatus(if old(OrdersData()).Some? then old(OrdersData()).value else [], id, updatedOrder.status);
    }

    /**
     * `updateStatus({ status })` once the mutation has settled: `fetched` is
     * the outcome of reading order `id` from the server, and the mutation's
     * result is that record with `status` set to the requested one. A failed
     * mutation leaves the cache as it was.
     */
    method UpdateStatus(id: int, status: OrderStatus, fetched: Result<Order, QueryError>)
      requires Valid()
      modifies this
      ensures Valid()
      ensures fetched.Failure? ==> entries == old(entries)
      ensures fetched.Success? ==> entries == old(entries)
        [OrderKey(id) := OrderRecord(fetched.value.(status := status))]
        [OrdersKey := OrderList(PatchOrdersEntry(old(OrdersData()), id, status))]
      ensures fetched.Success? ==> OrderData(id) == Some(fetched.value.(status := status))
      ensures fetched.Success? ==> OrdersData().Some? && forall o :: o in OrdersData().value && o.id == id ==> o.status == status
    {
      match fetched
      case Failure(_) =>
      case Success(record) =>
        OnUpdateStatusSuccess(id, record.(status := status));
    }
  }
}
