/** The browser runtime as the session core sees it: whether a `window`
    exists at all, and the key/value store `localStorage`. */
module Browser {
  import opened Wrappers

  /** The one storage key the session core uses. */
  const TokenKey := "token"

  /** The raw token as `localStorage.getItem('token') ?? ''` reads it. */
  function StoredToken(items: map<string, string>): (t: string) {
    if TokenKey in items then items[TokenKey] else ""
  }

  /** `localStorage` together with `typeof window !== 'undefined'`.
      Outside a browser there is no window and no `localStorage` object;
      the methods below are the browser API itself and so require one. */
  class LocalStorage {
    const hasWindow: bool
    var items: map<string, string>

    constructor (hasWindow: bool, items: map<string, string>)
      ensures this.hasWindow == hasWindow && this.items == items
    {
      this.hasWindow := hasWindow;
      this.items := items;
    }

    /** What `getItem(key)` returns: the stored string or `null`. */
    function Lookup(key: string): (r: Option<string>)
      reads this
      ensures r.Some? <==> key in items
      ensures r.Some? ==> r.value == items[key]
    {
      if key in items then Some(items[key]) else None
    }

    method GetItem(key: string) returns (r: Option<string>)
      requires hasWindow
      ensures r == Lookup(key)
    {
      r := Lookup(key);
    }

    method SetItem(key: string, value: string)
      requires hasWindow
      modifies this
      ensures items == old(items)[key := value]
    {
      items := items[key := value];
    }

    method RemoveItem(key: string)
      requires hasWindow
      modifies this
      ensures items == old(items) - {key}
    {
      items := items - {key};
    }
  }
}
