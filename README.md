# Cart and order session manager of a storefront client, in Dafny

This project models the part of a React storefront (built on the OrderCloud
API) that decides which order is the shopper's working order, or cart. Three
pieces of state are involved:

- the browser's persisted storage, with two pointers: `oc_active_order_id`
  (the cached working order) and `order_id` (the cart context's mirror);
- the remote order store, which holds orders with their status, their
  submitted flag and their line items;
- the cart page: its context `orderID`, its displayed items and its loading flag.

With HTTP abstracted away, the behaviour is deterministic, and the model is a
small state machine over that state.

Structure, one module per file:

- `wrappers.dfy`: `Option`.
- `storage.dfy`: the persisted storage as a class `LocalStorage` with
  `GetItem`, `SetItem` and `RemoveItem`. It also defines `Truthy`, which is
  JavaScript truthiness for a `string | null`: an empty cached id counts as no id.
- `remote.dfy`: the remote store. `StoreState` maps order ids to orders and
  holds a counter for fresh ids. Each request is a function of that state.
  The class `OrderStore` performs the requests in place. Every request takes
  an injected `Option<Failure>`: an HTTP status or no response at all.
  `Net` holds one such failure per kind of request in a user action.
- `cart_api.dfy`: src/api/cart.ts. The pure functions `Creation`,
  `Resolution` and `Submission` say what `createOrder`, `getOrCreateOrder`
  and `submitOrder` do to storage and store. The methods of the same names
  perform the source's steps on the shared objects. Each method is proved
  equal to its function, and lemmas state what the code promises.
- `cart_context.dfy`: src/context/CartContext.tsx. `setOrderID` uses
  set-or-remove on `order_id`, the provider's initial state is read from
  storage, and `useCart` fails outside a provider.
- `cart_page.dfy`: the logic of src/pages/Cart.tsx. The functions `Loading`,
  `QuantityChange` and `Checkout` specify the class `Cart`'s methods
  `LoadCart`, `UpdateQty` and `HandleCheckout`.

Two behaviours of the code are modelled as written:

- A fetch failure that is neither 404 nor 400 still creates a new order
  (src/api/cart.ts:84-91). It does not propagate the failure.
- A cached order is rejected when its status is "Completed" or when it is
  submitted; both checks are modelled (src/api/cart.ts:78).

## Model

| member | source | states |
|---|---|---|
| CartApi.CreateOrder | src/api/cart.ts:33-66 | Performs `createOrder` step by step: identity guard, POST, then a cache write only when the new order has a non-empty ID; the resulting storage and store equal `Creation` |
| CartApi.GetOrCreateOrder | src/api/cart.ts:68-92 | Performs `getOrCreateOrder` step by step: reads the cached id, fetches it, reuses or evicts, falls through to creation; the result and new state equal `Resolution` |
| CartApi.ClearCachedOrder | src/api/cart.ts:94-96 | Removes exactly the cached-order key and nothing else |
| CartApi.SubmitOrder | src/api/cart.ts:146-162 | Submits, then removes the cached-order key only on success; on failure rethrows with state untouched; equals `Submission` |
| CartApi.AddLineItem | src/api/cart.ts:15-31 | Posts a line for the product with quantity 1 and rethrows any failure |
| CartApi.ListLineItems | src/api/cart.ts:100-109 | Returns the store's line items of the order, or rejects with the request's failure; changes nothing |
| CartApi.UpdateLineItem | src/api/cart.ts:114-131 | Puts the new quantity together with the product id on the line |
| CartApi.DeleteLineItem | src/api/cart.ts:136-141 | Deletes the line |
| CartApi.IdentityGuard | src/api/cart.ts:34-39 | Creation fails with the identity error if and only if the user is null or lacks ID or CompanyID, and it then changes neither cache nor store |
| CartApi.CreationCachesNewOrder | src/api/cart.ts:52-65 | A created order has a fresh id not in the store, is unsubmitted and empty, carries the user's ID and CompanyID, is added to the store and its id is cached; a failed creation changes nothing |
| CartApi.UsableOrderReused | src/api/cart.ts:69-83 | A cached id whose order fetches successfully and is neither Completed nor submitted is returned as is, with storage and store unchanged (no creation) |
| CartApi.CreationSettles | src/api/cart.ts:61-64 | After a successful creation the cache points at the returned order, which the store holds and which is usable |
| CartApi.ResolutionSettles | src/api/cart.ts:68-92 | After any successful resolution (reuse, eviction then creation, failed fetch then creation) the cache points at the usable order returned |
| CartApi.RepeatedResolutionReuses | src/api/cart.ts:68-83 | Once the cache points at a usable order, n further calls whose fetch gets through all return that order and leave storage and store unchanged, so no second order is created |
| CartApi.RetiredOrderReplaced | src/api/cart.ts:77-81 | A cached Completed or submitted order is evicted; a newly created order with a different id is returned and cached, and the old order is kept in the store; if creation fails the cache key stays removed; with identity and a working network creation succeeds |
| CartApi.RejectedIdEvicted | src/api/cart.ts:84-91 | A fetch failing with 404 or 400 makes the outcome a creation on storage without the cache key, so a failed creation leaves the key removed |
| CartApi.OtherFailureStillCreates | src/api/cart.ts:84-91 | Any other fetch failure does not remove the key but still runs creation; a failed creation leaves storage and store as they were, a successful one overwrites the cache with the new id |
| CartApi.NoCacheCreates | src/api/cart.ts:69-91 | With the key absent or empty, the outcome is exactly a creation |
| CartApi.SubmissionClearsOnlyOnSuccess | src/api/cart.ts:146-161 | Submit succeeds if and only if the request gets through and the order exists; then only the cached-order key is removed and the order becomes submitted with its lines kept; on failure nothing changes |
| CartApi.RetiredNeverResolved | src/api/cart.ts:68-92 | Whatever the cache holds, a successful resolution never returns a stored Completed or submitted order, and that order stays in the store unchanged |
| CartApi.RetiredNeverResolvedAgain | src/api/cart.ts:68-92 | Over any number n of successive resolutions, none returns a stored retired order, which stays stored and retired |
| CartApi.SubmittedOrderNeverResolvedAgain | src/api/cart.ts:146-161 | After a successful submit, none of any number n of later resolutions returns the submitted order's id |
| CartApi.IdempotentResolution | src/api/cart.ts:68-92 | If one resolution succeeds, it and the n calls after it (fetches getting through) return the same order, and the state after all of them is the state after the first, so at most one order is created |
| CartApi.ShopperSession | src/api/cart.ts:15-161 | From an empty cache and store: resolve creates an order, adding a product lists one line with quantity 1, setting it to 3 lists quantity 3, the submit succeeds and marks that order submitted, the cached-order key then reads back null, and the next resolution returns a different order |
| Remote.CreateIsFresh | src/api/cart.ts:52-59 | The store's creation reply is a fresh, usable, empty order owned by the requesting user and company, or a failure that changes nothing |
| Remote.Without | src/api/cart.ts:136-141 | Deleting a line leaves exactly the other lines and no line with that id |
| Remote.Relabel | src/api/cart.ts:114-131 | Updating a line gives every line with that id the new quantity and product id and leaves the others in place |
| Remote.MutationsKeepPositive | src/api/cart.ts:15-21 | Adding a line with quantity at least 1, updating to at least 1, deleting and submitting keep every stored quantity at least 1 |
| CartContext.WithPointer | src/context/CartContext.tsx:17-25 | After `setOrderID(id)` the pointer key reads back a truthy id and is absent otherwise; every other key is unchanged |
| CartContext.CartProvider.constructor | src/context/CartContext.tsx:11-15 | The initial `orderID` is the stored value under `order_id`, or null if the key is absent |
| CartContext.CartProvider.SetOrderID | src/context/CartContext.tsx:17-25 | Sets the in-memory state to `id` and applies the set-or-remove of `WithPointer` to storage |
| CartContext.UseCart | src/context/CartContext.tsx:34-40 | Fails exactly when no provider encloses the caller, and otherwise returns that provider |
| CartContext.SetOrderIdSparesOtherKeys | src/context/CartContext.tsx:20-24 | `setOrderID` never changes `oc_active_order_id` or `access_token` |
| CartPage.Cart.constructor | src/pages/Cart.tsx:16-17 | The page starts with no items and the loading flag set |
| CartPage.Cart.ActiveId | src/pages/Cart.tsx:52 | The active id is the context's `orderID` when truthy, otherwise the cached `oc_active_order_id` |
| CartPage.Cart.LoadCart | src/pages/Cart.tsx:20-43 | Performs `loadCart` step by step; the result and new state equal `Loading` |
| CartPage.Cart.UpdateQty | src/pages/Cart.tsx:50-64 | Performs `updateQty` step by step; equals `QuantityChange` |
| CartPage.Cart.HandleCheckout | src/pages/Cart.tsx:66-88 | Performs `handleCheckout` step by step; equals `Checkout` |
| CartPage.KnownIdSkipsResolver | src/pages/Cart.tsx:23-31 | With an id in the context or the cache, loading never resolves or creates; storage, store and context stay as they were, and it succeeds if and only if the listing gets through |
| CartPage.MissingIdCreatesAndPoints | src/pages/Cart.tsx:23-29 | With both ids absent the resolver runs (and, the cache being empty, creates); on success the context and `order_id` are set to the new id, on failure nothing but the store's attempt changes; on success with a working listing the load resolves |
| CartPage.LoadShowsStoreList | src/pages/Cart.tsx:31-42 | A load that resolves shows exactly the store's list for the now active order and clears the loading flag; otherwise the items are kept |
| CartPage.NoIdNoMutation | src/pages/Cart.tsx:52-56 | With no id anywhere, `updateQty` alerts and performs no mutation and no reload |
| CartPage.LowQuantityDeletes | src/pages/Cart.tsx:58-59 | A quantity below 1 (the Remove button's 0, or "-" at quantity 1) is always a delete, never an update; after a reload the items are the order's lines without that line; with a working network and a line the order holds, the mutation is followed by a reload that resolves |
| CartPage.UpdateCarriesProduct | src/pages/Cart.tsx:60-61 | A quantity of at least 1 is an update; after a reload every line with that id has the new quantity and the line's product id; with a working network and a line the order holds, the mutation is followed by a reload that resolves |
| CartPage.LoadingKeepsPositive | src/pages/Cart.tsx:20-43 | A load keeps every stored quantity at least 1 |
| CartPage.QuantityChangeKeepsPositive | src/pages/Cart.tsx:50-64 | Whatever quantity is requested, `updateQty` never leaves a stored line with quantity below 1 |
| CartPage.NoIdNoSubmit | src/pages/Cart.tsx:68-72 | With no resolvable id, checkout alerts and does not submit or change anything |
| CartPage.CheckoutClearsOnlyAfterSubmit | src/pages/Cart.tsx:66-88 | Checkout reports success if and only if the submit succeeds; then both keys are removed, the token is kept, `orderID` is null, the items are empty and the order is submitted; on failure nothing changes |
| CartPage.CheckoutThenLoadStartsAfresh | src/pages/Cart.tsx:74-83 | After a successful checkout the next load never points the context or the cache at the submitted order again |
| CartPage.LoadingAsWritten | src/pages/Cart.tsx:20-43 | `loadCart` as written, calling the absent `replaceCartItems`: no load resolves, the items never change and the loading flag stays set |
| CartPage.AsWrittenCartNeverLoads | src/pages/Cart.tsx:20-43 | With an active id in the store and a working listing, the intended load resolves while the written one rejects with a TypeError |
| CartPage.CheckoutAsWritten | src/pages/Cart.tsx:66-88 | `handleCheckout` as written: the last alert is never the success alert, the success alert appears exactly when the intended checkout succeeds, and the items are never cleared |
| CartPage.AsWrittenCheckoutReportsFailure | src/pages/Cart.tsx:74-86 | As written, a successful submit alerts success and then failure, clears both keys and the context, and keeps the items |

## Left out

- HTTP itself (axios, URLs, bearer headers, environment variables): every request is a function of the abstract store plus an injected failure.
- Remote store semantics beyond what the client relies on. Here a missing order or line answers 404. A submit sets `IsSubmitted` and status "Open". A new order is "Unsubmitted". Fresh ids grow in length. Adding a product appends a new line. Any other rejection the real service makes is an injected failure.
- `getCurrentUser` is an input (`Option<User>`). src/api/auth.ts is not part of this model. Its `MeUser` interface (src/api/auth.ts:25-31) declares no `CompanyID`, so the model treats both fields as optional.
- `getCurrentUser` rejects when its request fails (src/api/auth.ts:37), and `createOrder` then rejects with that request's error. The model has no such request: a missing user is the null input, which yields `MissingIdentity`.
- `setUserLocale` is not part of this model. Its failure is caught and only logged (src/api/cart.ts:42-50), so creation cannot depend on it. The model leaves the call out.
- `replaceCartItems` (src/pages/Cart.tsx:33-39, 82): the projection of lines 34-38 is left out, since no context stores it. See "## Findings" for the call itself.
- Cart totals, item-count badges, `UnitPrice`, `LineTotal` and `toFixed` formatting. These are floating point, computed by the store, or not provided by the context value at src/context/CartContext.tsx:28. Line items carry only id, product id and quantity.
- `newQty` is a JavaScript number. The model uses integers, so fractional quantities are not modelled.
- React state updates are applied at once. The model does not capture the stale `orderID` a handler's closure sees until the next render.
- Overlapping clicks and late responses (concurrency) are left out, because the code has no mechanism for them.
- JSX, styling, routing and `navigate("/products")`. Alerts become returned `Notice` values. The text of each alert is not modelled.
- src/pages/Products.tsx `handleAddToCart` only composes resolve and add. It is not modelled separately; `ShopperSession` shows that composition.
- Rejections of `loadCart` inside the mount effect are unhandled in the source; the model returns them as `Rejected` and leaves the loading flag set.

## Findings

| source | as written | input that shows it | evidently intended | confidence | as-written member | corrected member |
|---|---|---|---|---|---|---|
| src/pages/Cart.tsx:33-39 | `replaceCartItems` is taken from `useCart()` (line 15), but the only provider's value (src/context/CartContext.tsx:28) holds just `orderID` and `setOrderID`, and `CartContext` is not exported, so the call throws a TypeError after every successful listing; `setItems` and `setLoading(false)` never run and the page stays on "Loading cart...", so neither the quantity buttons (lines 124-136) nor the Submit Order button (lines 142-155) ever render | any visit to the cart page whose listing succeeds | show the listed lines and clear the loading flag | not executed; high | CartPage.AsWrittenCartNeverLoads | CartPage.LoadShowsStoreList |
| src/pages/Cart.tsx:82 | the same absent member is called after a successful submit, so the catch alerts "Checkout failed" after the success alert and the items are not cleared | a checkout whose submit succeeds, reachable only once lines 33-39 are fixed on their own, since the Submit Order button (lines 142-155) renders only when `loading` is false | clear the items and report only success | not executed; high | CartPage.AsWrittenCheckoutReportsFailure | CartPage.CheckoutClearsOnlyAfterSubmit |

The rest of the model (`Loading`, `Checkout` and the class `Cart`) uses the corrected behaviour: the page's `items` are replaced and no TypeError is raised. `LoadingAsWritten` and `CheckoutAsWritten` in cart_page.dfy state the code as written in terms of them.
