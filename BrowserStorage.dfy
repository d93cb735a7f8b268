/** The Web Storage surface used by sign-out: one key-value area per object. */
module BrowserStorage {
  import opened Wrappers

  /** The value stored under key, or null when the key is absent. */
  function Lookup(items: map<string, string>, key: string): Option<string>
  {
    if key in items then Some(items[key]) else None
  }

  /** One storage area (`localStorage` or `sessionStorage`), string keys to string values. */
  class KeyValueStore {
    var items: map<string, string>

    constructor (initial: map<string, string>)
      ensures items == initial
    {
      items := initial;
    }

    /** `getItem(key)`: the stored value, or null when the key is absent. */
    function GetItem(key: string): Option<string>
      reads this
    {
      Lookup(items, key)
    }

    /** `removeItem(key)`: drops the key; absent keys are ignored. */
    method RemoveItem(key: string)
      modifies this
      ensures items == old(items) - {key}
    {
      items := items - {key};
    }
  }
}
