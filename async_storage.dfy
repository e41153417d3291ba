/**
 * The device's persistent key-value store (AsyncStorage), as the screens and
 * the HTTP client use it: string keys mapped to string values.
 */
module AsyncStorage {
  import opened Wrappers

  /** The one key under which the session's bearer token is kept. */
  const AuthTokenKey: string := "@auth_token"

  /** What `getItem(key)` resolves to: the stored value, or `null`. */
  function Lookup(items: map<string, string>, key: string): (v: Option<string>)
    ensures v.Some? <==> key in items
    ensures v.Some? ==> v.value == items[key]
  {
    if key in items then Some(items[key]) else None
  }

  /** The stored session token, if any. */
  function StoredToken(items: map<string, string>): Option<string>
  {
    Lookup(items, AuthTokenKey)
  }

  class Store {
    var items: map<string, string>

    constructor (initial: map<string, string>)
      ensures items == initial
    {
      items := initial;
    }

    method GetItem(key: string) returns (v: Option<string>)
      ensures v == Lookup(items, key)
    {
      v := Lookup(items, key);
    }

    method SetItem(key: string, value: string)
      modifies this
      ensures items == old(items)[key := value]
    {
      items := items[key := value];
    }

    method RemoveItem(key: string)
      modifies this
      ensures items == old(items) - {key}
    {
      items := items - {key};
    }
  }
}
