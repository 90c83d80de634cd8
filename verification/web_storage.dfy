/** The browser's `localStorage`, shared by the stroke cache and the
    guest-token hook: a map from keys to stored items. An item is either the
    JSON text of a stroke list (written by the cache) or a raw string
    written with `setItem` directly (the token). */
module WebStorage {
  import opened Strokes

  datatype Stored = StrokeList(strokes: seq<Stroke>) | Text(text: string)

  type Storage = map<string, Stored>

  /** `localStorage.getItem(key)` is truthy: present and not the empty string. */
  predicate Present(st: Storage, key: string) {
    key in st && st[key] != Text("")
  }

  /** Two storages agree on every key except `key`. */
  ghost predicate SameExcept(a: Storage, b: Storage, key: string) {
    forall k :: k != key ==> (k in a <==> k in b) && (k in a && k in b ==> a[k] == b[k])
  }
}
