/**
 * The logic of the cart page, src/pages/Cart.tsx, without its markup:
 * `loadCart` picks the active order id and replaces the displayed items with
 * the store's list, `updateQty` turns a requested quantity into a delete or an
 * update and reloads, and `handleCheckout` submits and then clears both
 * persisted pointers, the context and the items.
 */
module CartPage {
  import opened Wrappers
  import opened Storage
  import opened Remote
  import opened CartApi
  import opened CartContext

  /** The alerts the page raises. */
  datatype Notice = NoOrderFound | NoOrderToSubmit | OrderSubmitted | CheckoutFailed

  /** How an event handler's promise ends: resolved, resolved after an alert, or rejected. */
  datatype Completion = Resolved | Alerted(notice: Notice) | Rejected(error: Error)

  /** What the page reads and writes: storage and store, the context's pointer, the items and the spinner. */
  datatype Screen = Screen(world: World, orderID: Option<string>, items: seq<LineItem>, loading: bool)

  /** `orderID || localStorage.getItem(ORDER_KEY)`. */
  function ActiveOrderId(orderID: Option<string>, storage: map<string, string>): Option<string>
  {
    if Truthy(orderID) then orderID else Lookup(storage, ORDER_KEY)
  }

  function ActiveOf(s: Screen): Option<string>
  {
    ActiveOrderId(s.orderID, s.world.storage)
  }

  /** `listLineItems` followed by `setItems`: the list replaces the items wholesale. */
  function Reload(s: Screen, orderId: string, net: Net): (Completion, Screen)
  {
    match ListLines(s.world.store, orderId, net.list)
    case Fail(f) => (Rejected(RequestFailed(f)), s)
    case Ok(lines) => (Resolved, s.(items := lines, loading := false))
  }

  /** `loadCart`. */
  function Loading(s: Screen, user: Option<User>, net: Net): (Completion, Screen)
  {
    var s1 := s.(loading := true);
    var current := ActiveOf(s);
    if Truthy(current) then Reload(s1, current.value, net)
    else
      var (r, w) := Resolution(s.world, user, net);
      match r
      case Threw(e) => (Rejected(e), s1.(world := w))
      case Done(o) =>
        Reload(s1.(world := w.(storage := WithPointer(w.storage, Some(o.id))), orderID := Some(o.id)), o.id, net)
  }

  /** The request `updateQty` issues: a delete below quantity 1, otherwise an update carrying the product id. */
  function Mutation(st: StoreState, orderId: string, li: LineItem, newQty: int, net: Net): (Option<Failure>, StoreState)
  {
    if newQty < 1 then
      var (reply, st') := DeleteLine(st, orderId, li.id, net.mutate);
      (if reply.Fail? then Some(reply.failure) else None, st')
    else
      var (reply, st') := UpdateLine(st, orderId, li.id, newQty, li.productId, net.mutate);
      (if reply.Fail? then Some(reply.failure) else None, st')
  }

  /** `updateQty`. */
  function QuantityChange(s: Screen, li: LineItem, newQty: int, user: Option<User>, net: Net): (Completion, Screen)
  {
    var oid := ActiveOf(s);
    if !Truthy(oid) then (Alerted(NoOrderFound), s)
    else
      var (failure, st') := Mutation(s.world.store, oid.value, li, newQty, net);
      var s1 := s.(world := s.world.(store := st'));
      if failure.Some? then (Rejected(RequestFailed(failure.value)), s1)
      else Loading(s1, user, net)
  }

  /** `handleCheckout`. */
  function Checkout(s: Screen, net: Net): (Notice, Screen)
  {
    var oid := ActiveOf(s);
    if !Truthy(oid) then (NoOrderToSubmit, s)
    else
      var (r, w) := Submission(s.world, oid.value, net);
      if r.Threw? then (CheckoutFailed, s.(world := w))
      else (OrderSubmitted, Screen(World(WithPointer(w.storage - {ORDER_KEY}, None), w.store), None, [], s.loading))
  }

  /** The Cart component's state, bound to its context and to the remote store. */
  class Cart {
    const context: CartProvider
    const store: OrderStore
    var items: seq<LineItem>
    var loading: bool

    function Snapshot(): Screen
      reads this, context, context.storage, store
    {
      Screen(World(context.storage.entries, store.View()), context.orderID, items, loading)
    }

    /** The page mounts with no items and the spinner on; the mount effect then runs LoadCart. */
    constructor (context: CartProvider, store: OrderStore)
      ensures this.context == context && this.store == store
      ensures items == [] && loading
    {
      this.context := context;
      this.store := store;
      items := [];
      loading := true;
    }

    method ActiveId() returns (oid: Option<string>)
      ensures oid == ActiveOf(Snapshot())
    {
      oid := context.orderID;
      if !Truthy(oid) {
        oid := context.storage.GetItem(ORDER_KEY);
      }
    }

    method LoadCart(user: Option<User>, net: Net) returns (c: Completion)
      requires store.Valid()
      modifies this, context, context.storage, store
      ensures store.Valid()
      ensures (c, Snapshot()) == Loading(old(Snapshot()), user, net)
    {
      loading := true;
      var current := ActiveId();
      if !Truthy(current) {
        var order := GetOrCreateOrder(context.storage, store, user, net);
        if order.Threw? {
          return Rejected(order.error);
        }
        current := Some(order.value.id);
        context.SetOrderID(Some(order.value.id));
      }
      var lines := ListLineItems(store, current.value, net);
      if lines.Threw? {
        return Rejected(lines.error);
      }
      items := lines.value;
      loading := false;
      c := Resolved;
    }

    method UpdateQty(li: LineItem, newQty: int, user: Option<User>, net: Net) returns (c: Completion)
      requires store.Valid()
      modifies this, context, context.storage, store
      ensures store.Valid()
      ensures (c, Snapshot()) == QuantityChange(old(Snapshot()), li, newQty, user, net)
    {
      var oid := ActiveId();
      if !Truthy(oid) {
        return Alerted(NoOrderFound);
      }
      var failed: Option<Error>;
      if newQty < 1 {
        var deleted := DeleteLineItem(store, oid.value, li.id, net);
        failed := if deleted.Threw? then Some(deleted.error) else None;
      } else {
        var updated := UpdateLineItem(store, oid.value, li.id, newQty, li.productId, net);
        failed := if updated.Threw? then Some(updated.error) else None;
      }
      if failed.Some? {
        return Rejected(failed.value);
      }
      c := LoadCart(user, net);
    }

    method HandleCheckout(net: Net) returns (n: Notice)
      requires store.Valid()
      modifies this, context, context.storage, store
      ensures store.Valid()
      ensures (n, Snapshot()) == Checkout(old(Snapshot()), net)
    {
      var oid := ActiveId();
      if !Truthy(oid) {
        return NoOrderToSubmit;
      }
      var submitted := SubmitOrder(context.storage, store, oid.value, net);
      if submitted.Threw? {
        return CheckoutFailed;
      }
      context.storage.RemoveItem(ORDER_KEY);
      context.SetOrderID(None);
      items := [];
      n := OrderSubmitted;
    }
  }

  // ---- The page as written, with the context it actually has ----

  /**
   * `loadCart` as written: the context value (src/context/CartContext.tsx:28)
   * has no `replaceCartItems`, so after a successful listing the call throws
   * before `setItems` and `setLoading(false)` run.
   */
  function LoadingAsWritten(s: Screen, user: Option<User>, net: Net): (r: (Completion, Screen))
    ensures !r.0.Resolved? && r.1.items == s.items && r.1.loading
  {
    var (c, s') := Loading(s, user, net);
    if c.Resolved? then (Rejected(NotAFunction("replaceCartItems")), s'.(items := s.items, loading := true))
    else (c, s')
  }

  /**
   * `handleCheckout` as written: the success alert is shown and both pointers
   * are cleared, then `replaceCartItems([])` throws, the catch alerts a failed
   * checkout, and `setItems([])` never runs.
   */
  function CheckoutAsWritten(s: Screen, net: Net): (r: (seq<Notice>, Screen))
    ensures |r.0| >= 1 && r.0[|r.0| - 1] != OrderSubmitted
    ensures OrderSubmitted in r.0 <==> Checkout(s, net).0 == OrderSubmitted
    ensures r.1.items == s.items
  {
    var (n, s') := Checkout(s, net);
    if n == OrderSubmitted then ([OrderSubmitted, CheckoutFailed], s'.(items := s.items))
    else ([n], s')
  }

  /**
   * The input that shows the defect: with an active id the store holds and a
   * working listing, the intended load resolves while the written one rejects.
   */
  lemma AsWrittenCartNeverLoads(s: Screen, user: Option<User>, net: Net)
    ensures Truthy(ActiveOf(s)) && net.list.None? && ActiveOf(s).value in s.world.store.orders ==>
              Loading(s, user, net).0 == Resolved
              && LoadingAsWritten(s, user, net).0 == Rejected(NotAFunction("replaceCartItems"))
  {
  }

  /** As written, a successful submit is reported as a failure as well, and the items are kept. */
  lemma AsWrittenCheckoutReportsFailure(s: Screen, net: Net)
    requires Truthy(ActiveOf(s)) && net.submit.None? && ActiveOf(s).value in s.world.store.orders
    ensures var (alerts, s') := CheckoutAsWritten(s, net);
      && alerts == [OrderSubmitted, CheckoutFailed]
      && s'.orderID == None && ORDER_KEY !in s'.world.storage && ORDER_ID_KEY !in s'.world.storage
      && s'.items == s.items
  {
    CheckoutClearsOnlyAfterSubmit(s, net);
  }

  // ---- What the page promises ----

  /**
   * Active-id selection: with an id in the context or the cache, loading
   * lists that order's items and never calls the resolver, so storage, store
   * and context stay as they were.
   */
  lemma KnownIdSkipsResolver(s: Screen, user: Option<User>, net: Net)
    requires Truthy(ActiveOf(s))
    ensures var (c, s') := Loading(s, user, net);
      && s'.world == s.world && s'.orderID == s.orderID
      && (c.Resolved? <==> net.list.None? && ActiveOf(s).value in s.world.store.orders)
      && (c.Resolved? ==> s'.items == s.world.store.orders[ActiveOf(s).value].lineItems && !s'.loading)
      && (!c.Resolved? ==> s'.items == s.items && s'.loading)
  {
  }

  /**
   * With neither id present the resolver runs; since the cache is empty it
   * always creates, and on success the context and its persisted pointer are
   * set to the new order's id.
   */
  lemma MissingIdCreatesAndPoints(s: Screen, user: Option<User>, net: Net)
    requires !Truthy(ActiveOf(s))
    ensures var (c, s') := Loading(s, user, net);
      var (r, w) := Creation(s.world, user, net);
      && s'.world.store == w.store
      && (r.Done? ==> s'.orderID == Some(r.value.id)
                      && s'.world.storage == WithPointer(w.storage, Some(r.value.id)))
      && (r.Threw? ==> c == Rejected(r.error) && s'.orderID == s.orderID && s'.world == s.world)
      && (r.Done? && net.list.None? ==> c == Resolved)
  {
    assert !Truthy(CachedId(s.world));
  }

  /**
   * Reload after every load: a load that resolves shows exactly the store's
   * list for the active order, which is then set; otherwise the items are kept.
   */
  lemma LoadShowsStoreList(s: Screen, user: Option<User>, net: Net)
    ensures var (c, s') := Loading(s, user, net);
      && (c.Resolved? ==>
            && Truthy(ActiveOf(s'))
            && ActiveOf(s').value in s'.world.store.orders
            && s'.items == s'.world.store.orders[ActiveOf(s').value].lineItems
            && !s'.loading)
      && (!c.Resolved? ==> s'.items == s.items)
  {
    if !Truthy(ActiveOf(s)) {
      var (r, w) := Resolution(s.world, user, net);
      if r.Done? {
        assert !Truthy(CachedId(s.world));
        assert r.value.id == OrderIdFor(s.world.store.seqNo);
      }
    }
  }

  /** Missing-order guard: with no id anywhere, `updateQty` alerts and changes nothing. */
  lemma NoIdNoMutation(s: Screen, li: LineItem, newQty: int, user: Option<User>, net: Net)
    requires !Truthy(ActiveOf(s))
    ensures QuantityChange(s, li, newQty, user, net) == (Alerted(NoOrderFound), s)
  {
  }

  /**
   * Quantity floor: a requested quantity below 1 deletes the line, never
   * updates it. When the delete goes through, the order keeps every other
   * line and no line with that id; a reload then shows exactly that.
   */
  lemma LowQuantityDeletes(s: Screen, li: LineItem, newQty: int, user: Option<User>, net: Net)
    requires Truthy(ActiveOf(s)) && newQty < 1
    ensures var (c, s') := QuantityChange(s, li, newQty, user, net);
      var oid := ActiveOf(s).value;
      && s'.world.store == DeleteLine(s.world.store, oid, li.id, net.mutate).1
      && s'.world.storage == s.world.storage && s'.orderID == s.orderID
      && (c.Resolved? ==>
            && oid in s.world.store.orders
            && s'.world.store.orders == s.world.store.orders[oid := s'.world.store.orders[oid]]
            && s'.items == s'.world.store.orders[oid].lineItems
            && !HasLine(s'.items, li.id)
            && (forall x :: x in s'.items <==> x in s.world.store.orders[oid].lineItems && x.id != li.id))
      && ((net.mutate.None? && net.list.None? && oid in s.world.store.orders &&
           HasLine(s.world.store.orders[oid].lineItems, li.id)) ==> c.Resolved?)
  {
  }

  /**
   * Update payload: a quantity of at least 1 is an update that gives every
   * line with that id the new quantity and the line's product id.
   */
  lemma UpdateCarriesProduct(s: Screen, li: LineItem, newQty: int, user: Option<User>, net: Net)
    requires Truthy(ActiveOf(s)) && newQty >= 1
    ensures var (c, s') := QuantityChange(s, li, newQty, user, net);
      var oid := ActiveOf(s).value;
      && s'.world.store == UpdateLine(s.world.store, oid, li.id, newQty, li.productId, net.mutate).1
      && s'.world.storage == s.world.storage && s'.orderID == s.orderID
      && (c.Resolved? ==>
            && s'.items == s'.world.store.orders[oid].lineItems
            && |s'.items| == |s.world.store.orders[oid].lineItems|
            && (forall x :: x in s'.items && x.id == li.id ==> x.quantity == newQty && x.productId == li.productId))
      && ((net.mutate.None? && net.list.None? && oid in s.world.store.orders &&
           HasLine(s.world.store.orders[oid].lineItems, li.id)) ==> c.Resolved?)
  {
    var (c, s') := QuantityChange(s, li, newQty, user, net);
    if c.Resolved? {
      var oid := ActiveOf(s).value;
      var lines := s.world.store.orders[oid].lineItems;
      forall x | x in s'.items && x.id == li.id
        ensures x.quantity == newQty && x.productId == li.productId
      {
        var i :| 0 <= i < |s'.items| && s'.items[i] == x;
        assert i < |lines|;
      }
    }
  }

  /** A load keeps every stored quantity positive: it only lists, or creates an empty order. */
  lemma LoadingKeepsPositive(s: Screen, user: Option<User>, net: Net)
    requires AllPositive(s.world.store)
    ensures AllPositive(Loading(s, user, net).1.world.store)
  {
    if !Truthy(ActiveOf(s)) && HasIdentity(user) {
      assert !Truthy(CachedId(s.world));
      var st' := Create(s.world.store, user.value.id.value, user.value.companyId.value, net.create).1;
      forall id | id in st'.orders ensures PositiveLines(st'.orders[id].lineItems) {
        if id !in s.world.store.orders {
          assert st'.orders[id].lineItems == [];
        }
      }
    }
  }

  /**
   * The quantity floor as an invariant of the store: if no stored line has a
   * quantity below 1, none has after `updateQty`, whatever quantity was asked for.
   */
  lemma QuantityChangeKeepsPositive(s: Screen, li: LineItem, newQty: int, user: Option<User>, net: Net)
    requires AllPositive(s.world.store)
    ensures AllPositive(QuantityChange(s, li, newQty, user, net).1.world.store)
  {
    var oid := ActiveOf(s);
    if Truthy(oid) {
      MutationsKeepPositive(s.world.store, oid.value, li.id, li.productId, if newQty < 1 then 1 else newQty, net.mutate);
      var st' := Mutation(s.world.store, oid.value, li, newQty, net).1;
      LoadingKeepsPositive(s.(world := s.world.(store := st')), user, net);
    }
  }

  /** Checkout guard: with no resolvable id, nothing is submitted and nothing changes. */
  lemma NoIdNoSubmit(s: Screen, net: Net)
    requires !Truthy(ActiveOf(s))
    ensures Checkout(s, net) == (NoOrderToSubmit, s)
  {
  }

  /**
   * Checkout clears only after a successful submit: then both persisted
   * pointers are gone, the context is null, the items are empty and the order
   * is submitted; the token is kept. When the submit fails, nothing changes.
   */
  lemma CheckoutClearsOnlyAfterSubmit(s: Screen, net: Net)
    requires Truthy(ActiveOf(s))
    ensures var (n, s') := Checkout(s, net);
      var oid := ActiveOf(s).value;
      && (n == OrderSubmitted <==> net.submit.None? && oid in s.world.store.orders)
      && (n == OrderSubmitted ==>
            && ORDER_KEY !in s'.world.storage && ORDER_ID_KEY !in s'.world.storage
            && Lookup(s'.world.storage, TOKEN_KEY) == Lookup(s.world.storage, TOKEN_KEY)
            && s'.orderID == None && s'.items == []
            && s'.world.store.orders[oid].isSubmitted)
      && (n != OrderSubmitted ==> n == CheckoutFailed && s' == s)
  {
    var (n, s') := Checkout(s, net);
    if n == OrderSubmitted {
      var w := Submission(s.world, ActiveOf(s).value, net).1;
      assert Lookup(s'.world.storage, ORDER_KEY) == Lookup(w.storage - {ORDER_KEY}, ORDER_KEY);
    }
  }

  /**
   * After a successful checkout the next load can never show the submitted
   * order again: both pointers are gone, so it creates a different order.
   */
  lemma CheckoutThenLoadStartsAfresh(s: Screen, net: Net, user: Option<User>, net2: Net)
    requires WellFormed(s.world.store) && Truthy(ActiveOf(s))
    requires Checkout(s, net).0 == OrderSubmitted
    ensures var s1 := Checkout(s, net).1;
      var s2 := Loading(s1, user, net2).1;
      s2.orderID != ActiveOf(s) && CachedId(s2.world) != ActiveOf(s)
  {
    var oid := ActiveOf(s).value;
    var s1 := Checkout(s, net).1;
    CheckoutClearsOnlyAfterSubmit(s, net);
    assert oid in s1.world.store.orders;
    assert WellFormed(s1.world.store);
    assert !Truthy(ActiveOf(s1));
    MissingIdCreatesAndPoints(s1, user, net2);
    CreationCachesNewOrder(s1.world, user, net2);
  }
}
