/** The device's persistent key-value store, seen only through the two calls
    the language preference makes of it: reading one key and writing one key.
    Whether a call succeeds is decided by the caller of the model (a storage
    call may throw); here the store is just its contents. */
module AsyncStorage {
  import opened Wrappers

  /** Contents of the store: string keys to string values. */
  type Store = map<string, string>

  /** What a successful read of `key` yields: the stored value, or nothing
      when the key was never written. */
  function GetItem(store: Store, key: string): (r: Option<string>)
    ensures r.Some? <==> key in store
    ensures r.Some? ==> r.value == store[key]
  {
    if key in store then Some(store[key]) else None
  }

  /** The store after a successful write of `value` under `key`: that key now
      holds `value`, no key disappears, and every other key keeps its value. */
  function SetItem(store: Store, key: string, value: string): (r: Store)
    ensures GetItem(r, key) == Some(value)
    ensures r.Keys == store.Keys + {key}
    ensures forall k :: k != key ==> GetItem(r, k) == GetItem(store, k)
  {
    store[key := value]
  }
}
