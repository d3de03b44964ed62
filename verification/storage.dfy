/** The browser's `localStorage`: a string-to-string dictionary that
    outlives a page reload. */
module Storage {
  import opened Outcomes

  /** Key under which the bearer token is kept. */
  const TokenKey: string := "feathers-jwt"
  /** Key under which the selected transport is kept. */
  const ClientTypeKey: string := "clientType"

  /** `getItem`: the stored value, or nothing when the key is absent. */
  function Lookup(items: map<string, string>, key: string): (v: Option<string>)
    ensures v.Some? <==> key in items
    ensures v.Some? ==> v.value == items[key]
  {
    if key in items then Some(items[key]) else None
  }

  class LocalStorage {
    var items: map<string, string>

    constructor (initial: map<string, string>)
      ensures items == initial
    {
      items := initial;
    }

    method GetItem(key: string) returns (v: Option<string>)
      ensures v == Lookup(items, key)
    {
      v := if key in items then Some(items[key]) else None;
    }

    method SetItem(key: string, value: string)
      modifies this
      ensures items == old(items)[key := value]
    {
      items := items[key := value];
    }

    /** Removing a key that is not there leaves the storage as it was. */
    method RemoveItem(key: string)
      modifies this
      ensures items == old(items) - {key}
      ensures key !in old(items) ==> items == old(items)
    {
      items := items - {key};
    }
  }
}
