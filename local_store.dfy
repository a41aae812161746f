/**
 * The browser's `localStorage` as the components see it: a map from keys to
 * strings, read with `getItem` (null for a missing key) and checked for truthiness.
 */
module LocalStore {
  import opened Options
  import opened Json

  /** `localStorage.getItem(key)`: None for `null`. */
  function Item(store: map<string, string>, key: string): (r: Option<string>)
    ensures r.Some? <==> key in store
    ensures r.Some? ==> r.value == store[key]
  {
    if key in store then Some(store[key]) else None
  }

  /** `if (item)`: the key is set to a non-empty string. */
  predicate Present(item: Option<string>) {
    item.Some? && item.value != ""
  }

  /** Reading a present item with `JSON.parse` throws. */
  predicate ParseThrows(item: Option<string>, parse: string -> ParseOutcome) {
    Present(item) && parse(item.value).SyntaxError?
  }
}
