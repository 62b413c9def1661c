/**
 * The browser's `localStorage`, the durable key/value store in which the
 * front end keeps its credential pair under two keys.
 */
module Storage {
  import opened Common

  const ACCESS_KEY: string := "access_token"
  const REFRESH_KEY: string := "refresh_token"

  class LocalStorage {
    var items: map<string, string>

    constructor (initial: map<string, string>)
      ensures items == initial
    {
      items := initial;
    }

    function GetItem(key: string): Option<string>
      reads this
    {
      if key in items then Some(items[key]) else None
    }

    method SetItem(key: string, value: string)
      modifies this
      ensures items == old(items)[key := value]
    {
      items := items[key := value];
    }

    method RemoveItem(key: string)
      modifies this
      ensures items == old(items) - {key}
    {
      items := items - {key};
    }
  }
}
