/** The browser's local storage: a key/value map of strings, owned by the origin. */
module BrowserStorage {
  import opened Wrappers

  type Store = map<string, string>

  /** `localStorage.getItem(key)`: the stored string, or null when the key is absent. */
  function Lookup(m: Store, key: string): (v: Option<string>)
    ensures v.Some? <==> key in m
    ensures v.Some? ==> v.value == m[key]
  {
    if key in m then Some(m[key]) else None
  }

  class LocalStorage {
    var items: Store

    constructor (initial: Store)
      ensures items == initial
    {
      items := initial;
    }

    method GetItem(key: string) returns (v: Option<string>)
      ensures v == Lookup(items, key)
    {
      v := if key in items then Some(items[key]) else None;
    }

    method SetItem(key: string, value: string)
      modifies this
      ensures items == old(items)[key := value]
    {
      items := items[key := value];
    }

    /** Removing an absent key is a no-op. */
    method RemoveItem(key: string)
      modifies this
      ensures items == old(items) - {key}
    {
      items := items - {key};
    }
  }
}
