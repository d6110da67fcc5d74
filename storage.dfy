/** The browser's `localStorage`, as a string-to-string map that survives reloads. */
module Storage {
  import opened Prelude

  class LocalStorage {
    var items: map<string, string>

    constructor (saved: map<string, string>)
      ensures items == saved
    {
      items := saved;
    }

    /** `getItem(key)`: `null` (here `None`) for a key never written. */
    function GetItem(key: string): Option<string>
      reads this
    {
      if key in items then Some(items[key]) else None
    }

    /** `setItem(key, value)`: overwrites one entry, leaves the others alone. */
    method SetItem(key: string, value: string)
      modifies this
      ensures items == old(items)[key := value]
      ensures GetItem(key) == Some(value)
    {
      items := items[key := value];
    }
  }

  /** `String(b)` for a boolean. */
  function BoolToString(b: bool): string
  {
    if b then "true" else "false"
  }
}
