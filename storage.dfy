/** The browser's localStorage as the provider settings use it: a string to
    string dictionary. Storage can be unavailable (disabled, sandboxed), and
    then every access throws; `blocked` records that. */
module BrowserStorage {
  import opened Basics

  /** The entry holding the API key. */
  const ApiKeyEntry: string := "ai_api_key"
  /** The entry holding the provider name. */
  const ProviderEntry: string := "ai_provider"

  class LocalStorage {
    var entries: map<string, string>
    const blocked: bool

    constructor (initial: map<string, string>, unavailable: bool)
      ensures entries == initial && blocked == unavailable
    {
      entries := initial;
      blocked := unavailable;
    }

    /** getItem: the stored value or null; `threw` when storage is unavailable. */
    method GetItem(key: string) returns (value: Option<string>, threw: bool)
      ensures threw == blocked
      ensures !threw ==> (value.Some? <==> key in entries)
      ensures !threw && key in entries ==> value == Some(entries[key])
    {
      if blocked {
        return None, true;
      }
      value := if key in entries then Some(entries[key]) else None;
      threw := false;
    }

    /** setItem: the entry now holds `value`, unless storage is unavailable. */
    method SetItem(key: string, value: string) returns (threw: bool)
      modifies this
      ensures threw == blocked
      ensures entries == if blocked then old(entries) else old(entries)[key := value]
    {
      threw := blocked;
      if !blocked {
        entries := entries[key := value];
      }
    }

    /** removeItem: the entry is gone, unless storage is unavailable. */
    method RemoveItem(key: string) returns (threw: bool)
      modifies this
      ensures threw == blocked
      ensures entries == if blocked then old(entries) else old(entries) - {key}
    {
      threw := blocked;
      if !blocked {
        entries := entries - {key};
      }
    }
  }
}
