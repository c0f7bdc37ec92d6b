/** The browser's `localStorage`: one string-to-string map, shared by every
    part of the client that keeps the session token. */
module BrowserStorage {
  import opened Strings

  class LocalStorage {
    var items: map<string, string>

    constructor (initial: map<string, string>)
      ensures items == initial
    {
      items := initial;
    }

    /** `localStorage.getItem(key)`: `null` for a missing key. */
    method GetItem(key: string) returns (value: Option<string>)
      ensures key in items ==> value == Some(items[key])
      ensures key !in items ==> value == None
    {
      value := if key in items then Some(items[key]) else None;
    }

    /** `localStorage.setItem(key, value)`. */
    method SetItem(key: string, value: string)
      modifies this
      ensures items == old(items)[key := value]
    {
      items := items[key := value];
    }

    /** `localStorage.removeItem(key)`: a missing key is not an error. */
    method RemoveItem(key: string)
      modifies this
      ensures items == old(items) - {key}
    {
      items := items - {key};
    }
  }
}
