/** The browser's `localStorage`, as far as the core uses it: string items by key. */
module LocalStorage {
  import opened Wrappers

  /** The key under which the LLM API key is stored. */
  const ApiKeyItem: string := "llm_api_key"

  class Storage {
    var items: map<string, string>

    constructor (items: map<string, string>)
      ensures this.items == items
    {
      this.items := items;
    }

    /** `getItem(key)`: the stored string, or `null`. */
    function GetItem(key: string): (r: Option<string>)
      reads this
      ensures r.Some? <==> key in items
      ensures r.Some? ==> r.value == items[key]
    {
      if key in items then Some(items[key]) else None
    }

    /** `setItem(key, value)`. */
    method SetItem(key: string, value: string)
      modifies this
      ensures items == old(items)[key := value]
    {
      items := items[key := value];
    }
  }
}
