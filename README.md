# Order data layer of admin-orders, in Dafny

This project models the client-side data layer of the admin-orders UI: the
hooks in `src/hooks/useOrders.ts` that sit on top of a keyed query cache.

- **`useOrders(status?)`** caches the whole order list under the single key
  `['orders']`. A `select` projection then shows either the orders with the
  requested status or, with no status, the list itself.
- **`useOrder(id)`** reads the order under `['order', id]`. It runs a
  dependent products query under `['orderProducts', id]`. That query is
  enabled only once the order has data, and it asks for the order's line-item
  product ids. The hook returns the order joined with the product details and
  combined `isLoading` / `isError` / `error` flags.
- **The status mutation's `onSuccess`** writes the server's record into
  `['order', id]`. It then patches `['orders']` so that only the matching
  order's `status` changes.

Files:

- `wrappers.dfy` (`Wrappers`): `Option` stands for `undefined`, and `Result`
  for a settled promise.
- `order_types.dfy` (`OrderTypes`): the records of `src/types/index.ts`.
- `order_hooks.dfy` (`OrderHooks`): the hooks' pure logic, with the lemmas
  about it.
- `query_cache.dfy` (`QueryCache`): the query client. It is a class whose
  `entries` map goes from query key to data. `setQueryData` updates that map
  in place, and the mutation's success handler is a method on it.

JavaScript truthiness is stated explicitly. A status string, an order object
and an array are always truthy. So `if (status)`, `!!orderQuery.data`,
`!orderQuery.data` and `!oldOrders` are all tests for `undefined`, which is
`None` here.

## Model

| member | source | states |
|---|---|---|
| `OrderTypes.WithProductDetails` | src/types/index.ts:29-31 | the spread order keeps every `Order` field (`AsOrder()` gives it back) and carries exactly the given `productDetails` |
| `OrderHooks.FilterStatus` | src/hooks/useOrders.ts:11 | the filtered list is no longer than the list, and an order is in it iff it is in the list and has the requested status |
| `OrderHooks.SelectByStatus` | src/hooks/useOrders.ts:9-14 | with no status, the cached list is returned unchanged; with a status, membership is "in the list and of that status" |
| `OrderHooks.FilterStatusPicksMatching` | src/hooks/useOrders.ts:9-14 | the filtered list copies, in increasing position order, exactly the positions of the cached list whose order has the status: it is a subsequence, keeps relative order and duplicates, and misses no match |
| `OrderHooks.FilterStatusIdempotent` | src/hooks/useOrders.ts:11 | filtering the filtered list again by the same status leaves it unchanged |
| `OrderHooks.SelectByStatusIdempotent` | src/hooks/useOrders.ts:9-14 | applying the `select` projection twice with the same filter equals applying it once |
| `OrderHooks.StatusViewsPartition` | src/hooks/useOrders.ts:7-14 | the three status views of the one `['orders']` entry split it: their multisets add up to the cached list's multiset |
| `OrderHooks.ProductIds` | src/hooks/useOrders.ts:30 | one id per line item, in item order, duplicates kept: element `i` is item `i`'s `productId` |
| `OrderHooks.ProductsQueryFn` | src/hooks/useOrders.ts:28-32 | without order data the producer yields `[]` and fetches nothing; with order data it fetches the item product ids, one per item in order |
| `OrderHooks.ProductsQueryEnabled` | src/hooks/useOrders.ts:33 | the gate is open exactly when the producer would take its fetching branch rather than return `[]` |
| `OrderHooks.ProductsGateMatchesProducer` | src/hooks/useOrders.ts:28-33 | the products query is disabled exactly when the order has no data; when enabled it fetches `ProductIds` of the order's items, so a run never takes the `[]` shortcut |
| `OrderHooks.JoinOrder` | src/hooks/useOrders.ts:36-41 | the joined order is absent iff the order query has no data; otherwise its `Order` part is the order record and its `productDetails` is the products data, present or not |
| `OrderHooks.FirstError` | src/hooks/useOrders.ts:63 | the combined error is present iff either error is; it is the order error when present, else the products error |
| `OrderHooks.UseOrderState` | src/hooks/useOrders.ts:59-63 | the hook's result is the joined order; `isLoading` holds iff either query is loading; `isError` holds iff either is in error; `error` is the order query's error when present, else the products query's |
| `OrderHooks.CombinedErrorConsistent` | src/hooks/useOrders.ts:61-63 | if each query's `isError` agrees with its error value, the combined `isError` agrees with the combined `error`, and that error is one of the two queries' own errors |
| `OrderHooks.PatchStatus` | src/hooks/useOrders.ts:52-54 | same length and order; element `i` is the old element with `status` replaced when its id matches, and the old element otherwise |
| `OrderHooks.PatchOrdersEntry` | src/hooks/useOrders.ts:50-55 | a list entry without data becomes `[]`; a cached list keeps its length, and only the matching orders get the new status |
| `OrderHooks.PatchStatusOnlyChangesStatus` | src/hooks/useOrders.ts:52-54 | putting back each order's old status gives back the old order, so ids and all other fields are kept; non-matching orders are unchanged; every matching order has the new status |
| `OrderHooks.PatchStatusIdempotent` | src/hooks/useOrders.ts:52-54 | patching twice with the same id and status equals patching once |
| `OrderHooks.PatchStatusLastWins` | src/hooks/useOrders.ts:52-54 | two successive patches of the same order equal the second patch alone |
| `OrderHooks.PatchStatusNoMatch` | src/hooks/useOrders.ts:52-54 | a list with no order of that id is left exactly as it was |
| `OrderHooks.PatchedStatusViews` | src/hooks/useOrders.ts:50-55 | after the patch, a matching order shows only in the view of its new status (and each matching order shows there); every other order is in a status view iff it was before |
| `QueryCache.PatchOrdersUpdater` | src/hooks/useOrders.ts:50-55 | the updater passed for `['orders']` always produces an order list: `[]` when the entry has no data, and the cached list with only the matching orders' status replaced otherwise |
| `QueryCache.QueryClient.constructor` | src/App.tsx:13-20 | a fresh client holds no data under any key |
| `QueryCache.QueryClient.OrdersData` | src/hooks/useOrders.ts:6-8 | the data of the one `['orders']` entry, present iff that key holds data |
| `QueryCache.QueryClient.OrderData` | src/hooks/useOrders.ts:21-24 | the data of `['order', id]`, present iff that key holds data |
| `QueryCache.QueryClient.ProductsData` | src/hooks/useOrders.ts:26-27 | the data of `['orderProducts', id]`, present iff that key holds data |
| `QueryCache.QueryClient.OrdersView` | src/hooks/useOrders.ts:5-15 | every filter reads the same `['orders']` entry; the view is absent iff that entry has no data; without a filter it is the entry itself; with one, an order is in it iff it is cached with that status |
| `QueryCache.QueryClient.OrderView` | src/hooks/useOrders.ts:36-41 | the joined order is absent iff `['order', id]` has no data; its `Order` part is that entry, and its `productDetails` is present iff `['orderProducts', id]` has data, and then equals it |
| `QueryCache.QueryClient.SetQueryData` | src/hooks/useOrders.ts:47 | after the write, the key holds the new data and every other entry is unchanged |
| `QueryCache.QueryClient.UpdateQueryData` | src/hooks/useOrders.ts:50 | after the write, the key holds the updater applied to its previous data, and every other entry is unchanged |
| `QueryCache.QueryClient.OnUpdateStatusSuccess` | src/hooks/useOrders.ts:46-56 | the new cache is the old one with `['order', id]` set to the server record and `['orders']` patched. Nothing else changes. A list that had no data becomes `[]`, and a cached list keeps its length. Every listed order with that id has the record's status |
| `QueryCache.QueryClient.UpdateStatus` | src/hooks/useOrders.ts:43-56 | a failed mutation leaves the cache unchanged; a successful one stores the fetched record with the requested status under `['order', id]` and gives that status to every listed order with that id |

## Left out

- Query-library internals are not modelled: fetch deduplication, `staleTime`, `retry`, request-generation race guards and subscriber notification. The `isLoading`/`isError`/`error` of each single query are abstract inputs (fields of `QueryResult`). The mutation's `isPending` (returned as `isUpdating`) and the `updateStatus` handle itself (`mutate`) are not modelled; `UpdateStatus` starts from an already settled mutation. That code lives in `@tanstack/react-query`, which is not part of this model.
- The HTTP calls of `src/api/index.ts` are not modelled. Fetchers are abstract: the products producer returns the request it would make (`FetchProducts(ids)`), not the products. `Promise.all` fan-out and the random status assigned to fetched orders are also left out, because they are network I/O and nondeterminism.
- `QueryCache.QueryClient.UpdateStatus` takes the server's read of the order as an argument. From `src/api/index.ts:32-35` it keeps only the rule that the mutation result is that record with `status` overridden.
- `Number(id)` parsing of the route parameter is not modelled. Ids are integers in both the detail key and the list comparison, so NaN and malformed ids are not covered.
- Product prices and ratings are `real`, so floating-point rounding is not modelled. The price totals and `toFixed` formatting in `src/components/OrderDetail.tsx` belong to rendering and are not modelled.
- The UI is not modelled: the list and detail screens, the zod form schema, the badge, spinner and layout components, and the routing and provider wiring in `src/App.tsx`.
- Behaviour of the code that a reader might expect otherwise:
  - When `['orders']` has no data, the code still writes `[]` to it (`src/hooks/useOrders.ts:51`); the write is never skipped.
  - The combined `isLoading` is the plain disjunction of the two queries' flags (`src/hooks/useOrders.ts:61`).
  - Nothing rejects a second status update while one is in flight, and no request counters order the writes.
