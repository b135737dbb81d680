/** The browser's key/value storage (`localStorage`) as the console uses it:
    the session lives under three fixed keys. */
module TokenStorage {
  import opened Basics

  const AccessTokenKey := "accessToken"
  const RefreshTokenKey := "refreshToken"
  const TenantIdKey := "tenantId"

  /** `getItem` on a snapshot of the storage: `null` becomes `None`. */
  function Lookup(items: map<string, string>, key: string): (r: Option<string>)
    ensures r.Some? <==> key in items
    ensures r.Some? ==> r.value == items[key]
  {
    if key in items then Some(items[key]) else None
  }

  /** The storage object every page shares. */
  class Storage {
    var items: map<string, string>

    constructor (initial: map<string, string>)
      ensures items == initial
    {
      items := initial;
    }

    function GetItem(key: string): (r: Option<string>)
      reads this
      ensures r == Lookup(items, key)
    {
      Lookup(items, key)
    }

    method SetItem(key: string, value: string)
      modifies this
      ensures items == old(items)[key := value]
    {
      items := items[key := value];
    }

    method RemoveItem(key: string)
      modifies this
      ensures items == old(items) - {key}
    {
      items := items - {key};
    }
  }
}
