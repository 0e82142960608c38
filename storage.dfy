/**
 * The browser's persisted key-value storage (`localStorage`), the only state
 * that survives a page reload. Three of its keys matter to the cart.
 */
module Storage {
  import opened Wrappers

  /** The active working order's id, written and evicted by src/api/cart.ts. */
  const ORDER_KEY: string := "oc_active_order_id"
  /** The cart context's mirror of its in-memory `orderID`. */
  const ORDER_ID_KEY: string := "order_id"
  /** The bearer token written at login; the cart never writes it. */
  const TOKEN_KEY: string := "access_token"

  /** JavaScript truthiness of a `string | null`: null and "" are both falsy. */
  predicate Truthy(v: Option<string>)
  {
    v.Some? && v.value != ""
  }

  /** `getItem`: the stored string, or null when the key is absent. */
  function Lookup(entries: map<string, string>, key: string): Option<string>
  {
    if key in entries then Some(entries[key]) else None
  }

  class LocalStorage {
    var entries: map<string, string>

    constructor (initial: map<string, string>)
      ensures entries == initial
    {
      entries := initial;
    }

    method GetItem(key: string) returns (v: Option<string>)
      ensures v.Some? <==> key in entries
      ensures v.Some? ==> v.value == entries[key]
    {
      v := Lookup(entries, key);
    }

    method SetItem(key: string, value: string)
      modifies this
      ensures entries == old(entries)[key := value]
    {
      entries := entries[key := value];
    }

    method RemoveItem(key: string)
      modifies this
      ensures entries == old(entries) - {key}
    {
      entries := entries - {key};
    }
  }
}
