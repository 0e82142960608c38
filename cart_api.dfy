/**
 * The order session manager of src/api/cart.ts: which order is the shopper's
 * working order, and when the cached pointer under ORDER_KEY is written,
 * evicted or reused. The pure functions Creation, Resolution and Submission
 * say what one call does to the persisted storage and the remote store; the
 * methods perform the same steps on the shared objects and are proved equal
 * to them; the lemmas state what the code promises.
 */
module CartApi {
  import opened Wrappers
  import opened Storage
  import opened Remote

  /** What `getCurrentUser` yields: null, or a user whose ID and CompanyID may be missing. */
  datatype User = User(id: Option<string>, companyId: Option<string>)

  /** Why a promise rejects; `NotAFunction` is JavaScript's TypeError for calling an absent member. */
  datatype Error = MissingIdentity | RequestFailed(failure: Failure) | NotAFunction(name: string)

  /** A settled promise: resolved with a value, or rejected with an error. */
  datatype Outcome<T> = Done(value: T) | Threw(error: Error)

  /** The state the order API touches: the persisted storage and the remote store. */
  datatype World = World(storage: map<string, string>, store: StoreState)

  /** axios rejects on any failed request; cart.ts lets the rejection through. */
  function Lift<T>(reply: Reply<T>): Outcome<T>
  {
    match reply
    case Ok(v) => Done(v)
    case Fail(f) => Threw(RequestFailed(f))
  }

  predicate HasIdentity(user: Option<User>)
  {
    user.Some? && Truthy(user.value.id) && Truthy(user.value.companyId)
  }

  /** A fetched order that must not be reused: completed, or already submitted. */
  predicate Retired(o: Order)
  {
    o.status == COMPLETED || o.isSubmitted
  }

  /** The fetch failures after which the cached id is known to be bad. */
  predicate Evicting(f: Failure)
  {
    f == HttpStatus(NOT_FOUND) || f == HttpStatus(BAD_REQUEST)
  }

  function CachedId(w: World): Option<string>
  {
    Lookup(w.storage, ORDER_KEY)
  }

  function Evicted(w: World): World
  {
    w.(storage := w.storage - {ORDER_KEY})
  }

  /** `createOrder`. */
  function Creation(w: World, user: Option<User>, net: Net): (Outcome<Order>, World)
  {
    if !HasIdentity(user) then (Threw(MissingIdentity), w)
    else
      var (reply, store') := Create(w.store, user.value.id.value, user.value.companyId.value, net.create);
      match reply
      case Fail(f) => (Threw(RequestFailed(f)), World(w.storage, store'))
      case Ok(o) =>
        (Done(o), World(if o.id != "" then w.storage[ORDER_KEY := o.id] else w.storage, store'))
  }

  /** `getOrCreateOrder`. */
  function Resolution(w: World, user: Option<User>, net: Net): (Outcome<Order>, World)
  {
    var existing := CachedId(w);
    if !Truthy(existing) then Creation(w, user, net)
    else
      match Fetch(w.store, existing.value, net.fetch)
      case Ok(o) => if Retired(o) then Creation(Evicted(w), user, net) else (Done(o), w)
      case Fail(f) => Creation(if Evicting(f) then Evicted(w) else w, user, net)
  }

  /** `submitOrder`. */
  function Submission(w: World, orderId: string, net: Net): (Outcome<Order>, World)
  {
    var (reply, store') := Submit(w.store, orderId, net.submit);
    match reply
    case Fail(f) => (Threw(RequestFailed(f)), World(w.storage, store'))
    case Ok(o) => (Done(o), World(w.storage - {ORDER_KEY}, store'))
  }

  /** `n` successive calls of `getOrCreateOrder` under the same network conditions. */
  function ResolveTimes(w: World, user: Option<User>, net: Net, n: nat): (seq<Outcome<Order>>, World)
    decreases n
  {
    if n == 0 then ([], w)
    else
      var (r, w1) := Resolution(w, user, net);
      var (rs, w2) := ResolveTimes(w1, user, net, n - 1);
      ([r] + rs, w2)
  }

  /** The cache points at `o`, which the store holds and which is still usable. */
  predicate PointsAt(w: World, o: Order)
  {
    var c := CachedId(w);
    Truthy(c) && c.value in w.store.orders && w.store.orders[c.value] == o && Usable(o)
  }

  // ---- The operations, step by step on the shared objects ----

  method CreateOrder(storage: LocalStorage, store: OrderStore, user: Option<User>, net: Net)
    returns (r: Outcome<Order>)
    requires store.Valid()
    modifies storage, store
    ensures store.Valid()
    ensures (r, World(storage.entries, store.View())) == Creation(World(old(storage.entries), old(store.View())), user, net)
  {
    if user.None? || !Truthy(user.value.companyId) || !Truthy(user.value.id) {
      return Threw(MissingIdentity);
    }
    // The locale update that follows has its failure caught and logged,
    // so nothing below depends on it.
    var reply := store.CreateOrder(user.value.id.value, user.value.companyId.value, net.create);
    match reply
    case Fail(f) =>
      return Threw(RequestFailed(f));
    case Ok(order) =>
      if order.id != "" {
        storage.SetItem(ORDER_KEY, order.id);
      }
      return Done(order);
  }

  method GetOrCreateOrder(storage: LocalStorage, store: OrderStore, user: Option<User>, net: Net)
    returns (r: Outcome<Order>)
    requires store.Valid()
    modifies storage, store
    ensures store.Valid()
    ensures (r, World(storage.entries, store.View())) == Resolution(World(old(storage.entries), old(store.View())), user, net)
  {
    var existing := storage.GetItem(ORDER_KEY);
    if Truthy(existing) {
      var fetched := store.Get(existing.value, net.fetch);
      match fetched
      case Ok(order) =>
        if order.status == COMPLETED || order.isSubmitted {
          storage.RemoveItem(ORDER_KEY);
          r := CreateOrder(storage, store, user, net);
          return;
        }
        return Done(order);
      case Fail(f) =>
        if f == HttpStatus(NOT_FOUND) || f == HttpStatus(BAD_REQUEST) {
          storage.RemoveItem(ORDER_KEY);
        }
    }
    r := CreateOrder(storage, store, user, net);
  }

  method ClearCachedOrder(storage: LocalStorage)
    modifies storage
    ensures storage.entries == old(storage.entries) - {ORDER_KEY}
    ensures !Truthy(Lookup(storage.entries, ORDER_KEY))
  {
    storage.RemoveItem(ORDER_KEY);
  }

  method SubmitOrder(storage: LocalStorage, store: OrderStore, orderId: string, net: Net)
    returns (r: Outcome<Order>)
    requires store.Valid()
    modifies storage, store
    ensures store.Valid()
    ensures (r, World(storage.entries, store.View())) == Submission(World(old(storage.entries), old(store.View())), orderId, net)
  {
    var reply := store.SubmitOrder(orderId, net.submit);
    match reply
    case Fail(f) =>
      return Threw(RequestFailed(f));
    case Ok(order) =>
      storage.RemoveItem(ORDER_KEY);
      return Done(order);
  }

  method AddLineItem(store: OrderStore, orderId: string, productId: string, net: Net)
    returns (r: Outcome<LineItem>)
    requires store.Valid()
    modifies store
    ensures store.Valid()
    ensures var (reply, store') := AddLine(old(store.View()), orderId, productId, 1, net.mutate);
      r == Lift(reply) && store.View() == store'
  {
    var reply := store.Add(orderId, productId, 1, net.mutate);
    r := Lift(reply);
  }

  method ListLineItems(store: OrderStore, orderId: string, net: Net) returns (r: Outcome<seq<LineItem>>)
    ensures r == Lift(ListLines(store.View(), orderId, net.list))
  {
    var reply := store.List(orderId, net.list);
    r := Lift(reply);
  }

  method UpdateLineItem(store: OrderStore, orderId: string, lineId: string, quantity: int, productId: string, net: Net)
    returns (r: Outcome<LineItem>)
    requires store.Valid()
    modifies store
    ensures store.Valid()
    ensures var (reply, store') := UpdateLine(old(store.View()), orderId, lineId, quantity, productId, net.mutate);
      r == Lift(reply) && store.View() == store'
  {
    var reply := store.Update(orderId, lineId, quantity, productId, net.mutate);
    r := Lift(reply);
  }

  method DeleteLineItem(store: OrderStore, orderId: string, lineId: string, net: Net) returns (r: Outcome<()>)
    requires store.Valid()
    modifies store
    ensures store.Valid()
    ensures var (reply, store') := DeleteLine(old(store.View()), orderId, lineId, net.mutate);
      r == Lift(reply) && store.View() == store'
  {
    var reply := store.Delete(orderId, lineId, net.mutate);
    r := Lift(reply);
  }

  // ---- What the order API promises ----

  /** Identity guard: creation fails exactly when the user, its ID or its CompanyID is missing, and then changes nothing. */
  lemma IdentityGuard(w: World, user: Option<User>, net: Net)
    ensures Creation(w, user, net).0 == Threw(MissingIdentity) <==> !HasIdentity(user)
    ensures !HasIdentity(user) ==> Creation(w, user, net).1 == w
  {
  }

  /**
   * Cache write on creation: a created order is fresh, usable, empty and
   * cached under its own ID; a failed creation changes neither the cache nor the store.
   */
  lemma CreationCachesNewOrder(w: World, user: Option<User>, net: Net)
    requires WellFormed(w.store)
    ensures var (r, w') := Creation(w, user, net);
      && WellFormed(w'.store)
      && (r.Threw? ==> w' == w)
      && (r.Done? ==>
            && HasIdentity(user) && net.create.None?
            && r.value.id == FreshOrderId(w.store) && r.value.id !in w.store.orders
            && Usable(r.value) && r.value.lineItems == []
            && Some(r.value.fromUserId) == user.value.id && Some(r.value.fromCompanyId) == user.value.companyId
            && w'.store.orders == w.store.orders[r.value.id := r.value]
            && w'.storage == w.storage[ORDER_KEY := r.value.id])
  {
    if HasIdentity(user) {
      CreateIsFresh(w.store, user.value.id.value, user.value.companyId.value, net.create);
    }
  }

  /** Order reuse: a cached, still usable order is returned, and nothing is created or written. */
  lemma UsableOrderReused(w: World, user: Option<User>, net: Net)
    requires WellFormed(w.store)
    requires Truthy(CachedId(w)) && net.fetch.None?
    requires CachedId(w).value in w.store.orders && Usable(w.store.orders[CachedId(w).value])
    ensures var o := w.store.orders[CachedId(w).value];
      Resolution(w, user, net) == (Done(o), w) && o.id == CachedId(w).value
  {
  }

  /** A successful resolution always leaves the cache pointing at the usable order it returned. */
  lemma ResolutionSettles(w: World, user: Option<User>, net: Net)
    requires Resolution(w, user, net).0.Done?
    ensures PointsAt(Resolution(w, user, net).1, Resolution(w, user, net).0.value)
  {
    var existing := CachedId(w);
    if Truthy(existing) && Fetch(w.store, existing.value, net.fetch).Ok? {
      var o := Fetch(w.store, existing.value, net.fetch).value;
      if Retired(o) {
        CreationSettles(Evicted(w), user, net);
      }
    } else if Truthy(existing) {
      var f := Fetch(w.store, existing.value, net.fetch).failure;
      CreationSettles(if Evicting(f) then Evicted(w) else w, user, net);
    } else {
      CreationSettles(w, user, net);
    }
  }

  lemma CreationSettles(w: World, user: Option<User>, net: Net)
    requires Creation(w, user, net).0.Done?
    ensures PointsAt(Creation(w, user, net).1, Creation(w, user, net).0.value)
  {
    var o := Creation(w, user, net).0.value;
    assert o.id == OrderIdFor(w.store.seqNo);
  }

  /**
   * Idempotent resolution: once the cache points at a usable order, any
   * number of further calls whose fetch gets through return that same order
   * and change nothing, so no second order is ever created.
   */
  lemma {:induction false} RepeatedResolutionReuses(w: World, o: Order, user: Option<User>, net: Net, n: nat)
    requires PointsAt(w, o) && net.fetch.None?
    ensures ResolveTimes(w, user, net, n) == (seq(n, _ => Done(o)), w)
  {
    if n > 0 {
      assert Resolution(w, user, net) == (Done(o), w);
      RepeatedResolutionReuses(w, o, user, net, n - 1);
      assert [Done(o)] + seq(n - 1, _ => Done(o)) == seq(n, _ => Done(o));
    } else {
      assert seq(n, _ => Done(o)) == [];
    }
  }

  /**
   * Idempotent resolution from any state: if the first call succeeds, it and
   * the n calls after it (with fetches getting through) all return the same
   * order, and only the first can have created it.
   */
  lemma IdempotentResolution(w: World, user: Option<User>, net: Net, n: nat)
    requires Resolution(w, user, net).0.Done? && net.fetch.None?
    ensures var (r, w1) := Resolution(w, user, net);
      ResolveTimes(w, user, net, n + 1) == (seq(n + 1, _ => r), w1)
  {
    var (r, w1) := Resolution(w, user, net);
    ResolutionSettles(w, user, net);
    RepeatedResolutionReuses(w1, r.value, user, net, n);
    assert [r] + seq(n, _ => r) == seq(n + 1, _ => r);
  }

  /**
   * Self-healing for retired orders: a cached order that is Completed or
   * submitted is evicted and replaced by a new order with a different id,
   * which the cache then holds; the old order stays in the store untouched.
   * If the replacement cannot be created, the cache stays empty.
   */
  lemma RetiredOrderReplaced(w: World, user: Option<User>, net: Net)
    requires WellFormed(w.store)
    requires Truthy(CachedId(w)) && net.fetch.None?
    requires CachedId(w).value in w.store.orders && Retired(w.store.orders[CachedId(w).value])
    ensures var (r, w') := Resolution(w, user, net);
      && (r.Done? ==>
            && r.value.id != CachedId(w).value
            && CachedId(w') == Some(r.value.id)
            && w'.store.orders == w.store.orders[r.value.id := r.value])
      && (r.Threw? ==> ORDER_KEY !in w'.storage && w'.store == w.store)
      && (HasIdentity(user) && net.create.None? ==> r.Done?)
  {
    CreationCachesNewOrder(Evicted(w), user, net);
  }

  /** Eviction on 404 or 400: the cache key is removed, and then an order is created. */
  lemma RejectedIdEvicted(w: World, user: Option<User>, net: Net)
    requires Truthy(CachedId(w))
    requires Fetch(w.store, CachedId(w).value, net.fetch).Fail?
    requires Evicting(Fetch(w.store, CachedId(w).value, net.fetch).failure)
    ensures Resolution(w, user, net) == Creation(Evicted(w), user, net)
    ensures WellFormed(w.store) && Resolution(w, user, net).0.Threw? ==> ORDER_KEY !in Resolution(w, user, net).1.storage
  {
    if WellFormed(w.store) {
      CreationCachesNewOrder(Evicted(w), user, net);
    }
  }

  /**
   * Other fetch failures (no response, any other status): the cache is not
   * removed, creation still runs, and it overwrites the cache only if it succeeds.
   */
  lemma OtherFailureStillCreates(w: World, user: Option<User>, net: Net)
    requires WellFormed(w.store)
    requires Truthy(CachedId(w))
    requires Fetch(w.store, CachedId(w).value, net.fetch).Fail?
    requires !Evicting(Fetch(w.store, CachedId(w).value, net.fetch).failure)
    ensures Resolution(w, user, net) == Creation(w, user, net)
    ensures Resolution(w, user, net).0.Threw? ==> Resolution(w, user, net).1 == w
    ensures Resolution(w, user, net).0.Done? ==>
              CachedId(Resolution(w, user, net).1) == Some(Resolution(w, user, net).0.value.id)
  {
    CreationCachesNewOrder(w, user, net);
  }

  /** No cached id (absent or empty): the outcome is always a creation. */
  lemma NoCacheCreates(w: World, user: Option<User>, net: Net)
    requires !Truthy(CachedId(w))
    ensures Resolution(w, user, net) == Creation(w, user, net)
  {
  }

  /** Submit: the cache key is removed only after the submit succeeds; a failure changes nothing. */
  lemma SubmissionClearsOnlyOnSuccess(w: World, orderId: string, net: Net)
    ensures var (r, w') := Submission(w, orderId, net);
      && (r.Done? <==> net.submit.None? && orderId in w.store.orders)
      && (r.Done? ==>
            && w'.storage == w.storage - {ORDER_KEY}
            && w'.store.orders == w.store.orders[orderId := r.value]
            && r.value.isSubmitted && r.value.lineItems == w.store.orders[orderId].lineItems)
      && (r.Threw? ==> w' == w)
  {
  }

  /** The store is well formed and holds `orderId` as a retired order. */
  predicate RetiredIn(w: World, orderId: string)
  {
    WellFormed(w.store) && orderId in w.store.orders && Retired(w.store.orders[orderId])
  }

  /** No successful outcome in `rs` is the order `orderId`. */
  predicate AvoidsOrder(rs: seq<Outcome<Order>>, orderId: string)
  {
    forall i | 0 <= i < |rs| :: rs[i].Done? ==> rs[i].value.id != orderId
  }

  /**
   * A retired order is never resolved: whatever the cache holds, a successful
   * resolution returns some other order, and the retired order stays in the
   * store as it was.
   */
  lemma RetiredNeverResolved(w: World, orderId: string, user: Option<User>, net: Net)
    requires RetiredIn(w, orderId)
    ensures var (r, w') := Resolution(w, user, net);
      && WellFormed(w'.store)
      && orderId in w'.store.orders && w'.store.orders[orderId] == w.store.orders[orderId]
      && (r.Done? ==> r.value.id != orderId)
  {
    CreationCachesNewOrder(w, user, net);
    CreationCachesNewOrder(Evicted(w), user, net);
  }

  /** Any number of successive resolutions: none of them returns the retired order. */
  lemma {:induction false} RetiredNeverResolvedAgain(w: World, orderId: string, user: Option<User>, net: Net, n: nat)
    requires RetiredIn(w, orderId)
    ensures |ResolveTimes(w, user, net, n).0| == n
    ensures RetiredIn(ResolveTimes(w, user, net, n).1, orderId)
    ensures AvoidsOrder(ResolveTimes(w, user, net, n).0, orderId)
    decreases n
  {
    if n > 0 {
      var (r, w1) := Resolution(w, user, net);
      RetiredNeverResolved(w, orderId, user, net);
      assert RetiredIn(w1, orderId);
      RetiredNeverResolvedAgain(w1, orderId, user, net, n - 1);
      var (rs, w2) := ResolveTimes(w1, user, net, n - 1);
      assert ResolveTimes(w, user, net, n) == ([r] + rs, w2);
      assert r.Done? ==> r.value.id != orderId;
      assert AvoidsOrder([r] + rs, orderId) by {
        forall i | 0 <= i < |[r] + rs| && ([r] + rs)[i].Done?
          ensures ([r] + rs)[i].value.id != orderId
        {
          if i > 0 {
            assert ([r] + rs)[i] == rs[i - 1];
          }
        }
      }
    }
  }

  /** Submission finality: after a successful submit, no later resolution returns the submitted order. */
  lemma SubmittedOrderNeverResolvedAgain(w: World, orderId: string, net: Net, user: Option<User>, net2: Net, n: nat)
    requires WellFormed(w.store)
    requires Submission(w, orderId, net).0.Done?
    ensures var w' := Submission(w, orderId, net).1;
      var rs := ResolveTimes(w', user, net2, n).0;
      && WellFormed(w'.store) && |rs| == n
      && (forall i | 0 <= i < n :: rs[i].Done? ==> rs[i].value.id != orderId)
  {
    var w' := Submission(w, orderId, net).1;
    assert orderId in w'.store.orders && w'.store.orders[orderId].isSubmitted;
    assert RetiredIn(w', orderId);
    RetiredNeverResolvedAgain(w', orderId, user, net2, n);
  }

  /**
   * A shopper's session end to end, on a fresh browser and an empty store with
   * every request getting through: resolve creates an order, a product is added
   * once, its line is set to 3, the order is submitted, and resolving again
   * yields a different order.
   */
  method ShopperSession(user: Option<User>, productId: string)
    returns (first: string, afterAdd: seq<LineItem>, afterUpdate: seq<LineItem>,
             submitted: Outcome<Order>, cachedAfterSubmit: Option<string>, second: string)
    requires HasIdentity(user)
    ensures |afterAdd| == 1 && afterAdd[0].productId == productId && afterAdd[0].quantity == 1
    ensures |afterUpdate| == 1 && afterUpdate[0].productId == productId && afterUpdate[0].quantity == 3
    ensures submitted.Done? && submitted.value.id == first && submitted.value.isSubmitted
    ensures cachedAfterSubmit == None
    ensures first != second
  {
    var storage := new LocalStorage(map[]);
    var store := new OrderStore(StoreState(map[], 0));
    first, afterAdd, afterUpdate := FillCart(storage, store, user, productId);
    submitted := SubmitOrder(storage, store, first, Healthy);
    cachedAfterSubmit := storage.GetItem(ORDER_KEY);
    ghost var before := World(storage.entries, store.View());
    CreationCachesNewOrder(before, user, Healthy);
    var order := GetOrCreateOrder(storage, store, user, Healthy);
    second := order.value.id;
  }

  /** The first half of ShopperSession: create, add one product, set its line to 3. */
  method FillCart(storage: LocalStorage, store: OrderStore, user: Option<User>, productId: string)
    returns (first: string, afterAdd: seq<LineItem>, afterUpdate: seq<LineItem>)
    requires HasIdentity(user) && store.Valid()
    requires storage.entries == map[] && store.View() == StoreState(map[], 0)
    modifies storage, store
    ensures store.Valid() && first in store.orders
    ensures |afterAdd| == 1 && afterAdd[0].productId == productId && afterAdd[0].quantity == 1
    ensures |afterUpdate| == 1 && afterUpdate[0].productId == productId && afterUpdate[0].quantity == 3
  {
    assert !Truthy(Lookup(storage.entries, ORDER_KEY));
    CreationCachesNewOrder(World(map[], StoreState(map[], 0)), user, Healthy);
    var order := GetOrCreateOrder(storage, store, user, Healthy);
    first := order.value.id;
    assert first in store.orders && store.orders[first].lineItems == [];
    var added := AddLineItem(store, first, productId, Healthy);
    assert store.orders[first].lineItems == [added.value];
    var listed := ListLineItems(store, first, Healthy);
    afterAdd := listed.value;
    var lineId := added.value.id;
    assert HasLine(store.orders[first].lineItems, lineId) by {
      assert added.value in store.orders[first].lineItems;
    }
    var updated := UpdateLineItem(store, first, lineId, 3, productId, Healthy);
    assert store.orders[first].lineItems == Relabel([added.value], lineId, 3, productId);
    listed := ListLineItems(store, first, Healthy);
    afterUpdate := listed.value;
  }
}
