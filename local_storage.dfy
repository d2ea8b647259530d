/** The browser's `localStorage`: one string-to-string map, shared by every part of the
    application that holds a reference to it. */
module Browser {
  import opened Wrappers

  class LocalStorage {
    var items: map<string, string>

    constructor (initial: map<string, string>)
      ensures items == initial
    {
      items := initial;
    }

    /** `getItem`: the stored value, or null when the key is absent. */
    method GetItem(key: string) returns (v: Option<string>)
      ensures v.Some? <==> key in items
      ensures v.Some? ==> v.value == items[key]
    {
      v := if key in items then Some(items[key]) else None;
    }

    /** `setItem`: store `value` under `key`, replacing any earlier value. */
    method SetItem(key: string, value: string)
      modifies this
      ensures items == old(items)[key := value]
    {
      items := items[key := value];
    }

    /** `removeItem`: drop `key`; other keys are untouched. */
    method RemoveItem(key: string)
      modifies this
      ensures items == old(items) - {key}
    {
      items := items - {key};
    }
  }
}
