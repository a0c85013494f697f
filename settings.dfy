/** The settings table of app/db.py as a key/value map: a key that was never
    written reads as the empty string, and writing a key replaces its value or
    adds it. */
module Settings {

  type Store = map<string, string>

  /** `get_setting`: the stored value, or "" for a key that is not stored. */
  function Get(store: Store, key: string): (value: string)
    ensures key !in store ==> value == ""
    ensures key in store ==> value == store[key]
  {
    if key in store then store[key] else ""
  }

  /** `set_setting`: an upsert of one key. */
  function Set(store: Store, key: string, value: string): (updated: Store)
    ensures updated.Keys == store.Keys + {key}
  {
    store[key := value]
  }

  /** Reading a key just written gives the value written; every other key reads as before. */
  lemma GetAfterSet(store: Store, key: string, value: string, other: string)
    ensures Get(Set(store, key, value), key) == value
    ensures other != key ==> Get(Set(store, key, value), other) == Get(store, other)
  {
  }
}
