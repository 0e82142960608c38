/**
 * The cart context of src/context/CartContext.tsx: an in-memory `orderID`
 * that is mirrored under ORDER_ID_KEY in the persisted storage by
 * set-or-remove, so that it survives a reload.
 */
module CartContext {
  import opened Wrappers
  import opened Storage

  /** The storage after `setOrderID(id)`: the pointer key is written for a truthy id and removed otherwise. */
  function WithPointer(entries: map<string, string>, id: Option<string>): (m: map<string, string>)
    ensures Lookup(m, ORDER_ID_KEY) == if Truthy(id) then id else None
    ensures forall k | k != ORDER_ID_KEY :: Lookup(m, k) == Lookup(entries, k)
  {
    if Truthy(id) then entries[ORDER_ID_KEY := id.value] else entries - {ORDER_ID_KEY}
  }

  class CartProvider {
    var orderID: Option<string>
    const storage: LocalStorage

    /** The provider's initial state is read from storage, so a reload keeps the pointer. */
    constructor (storage: LocalStorage)
      ensures this.storage == storage
      ensures orderID == Lookup(storage.entries, ORDER_ID_KEY)
    {
      this.storage := storage;
      orderID := Lookup(storage.entries, ORDER_ID_KEY);
    }

    method SetOrderID(id: Option<string>)
      modifies this, storage
      ensures orderID == id
      ensures storage.entries == WithPointer(old(storage.entries), id)
    {
      orderID := id;
      if Truthy(id) {
        storage.SetItem(ORDER_ID_KEY, id.value);
      } else {
        storage.RemoveItem(ORDER_ID_KEY);
      }
    }
  }

  /** What `useContext` finds: the enclosing provider, or none. */
  datatype Use = Provided(context: CartProvider) | OutsideProvider

  /** `useCart` fails outside a provider and otherwise hands out the provider's value. */
  function UseCart(enclosing: Option<CartProvider>): (r: Use)
    ensures r.OutsideProvider? <==> enclosing.None?
    ensures r.Provided? ==> r.context == enclosing.value
  {
    match enclosing
    case None => OutsideProvider
    case Some(p) => Provided(p)
  }

  /** Setting a pointer touches only ORDER_ID_KEY: the cached order and the token are left alone. */
  lemma SetOrderIdSparesOtherKeys(entries: map<string, string>, id: Option<string>)
    ensures Lookup(WithPointer(entries, id), ORDER_KEY) == Lookup(entries, ORDER_KEY)
    ensures Lookup(WithPointer(entries, id), TOKEN_KEY) == Lookup(entries, TOKEN_KEY)
  {
  }
}
