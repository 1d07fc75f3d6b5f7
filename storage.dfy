/** The browser's `localStorage`, as the pages use it: each key holds a plain
    text, one JSON object, or a JSON list of objects. */
module Storage {
  import opened Wrappers
  import opened JsValue

  datatype Stored = Text(s: string) | Record(o: Obj) | Records(list: seq<Obj>)

  type Store = map<string, Stored>

  /** `JSON.parse(localStorage.getItem(k) || 'null')` for a key that holds an object:
      `None` when the key is absent or holds no object. */
  function ObjectAt(store: Store, k: string): Option<Obj>
  {
    if k in store && store[k].Record? then Some(store[k].o) else None
  }

  /** `JSON.parse(localStorage.getItem(k) || '[]')` for a key that holds a list. */
  function ListAt(store: Store, k: string): seq<Obj>
  {
    if k in store && store[k].Records? then store[k].list else []
  }

  /** `localStorage.getItem(k)` is truthy: the key is set to something other than `''`. */
  predicate TextSet(store: Store, k: string)
  {
    k in store && store[k] != Text("")
  }
}
