/** The browser's `localStorage`, as a map from keys to string values. The
    client and the auth store both write to the same storage. */
module LocalStorage {
  import opened Wrappers

  type Storage = map<string, string>

  /** `getItem(key)`: None stands for the `null` an absent key yields. */
  function GetItem(s: Storage, key: string): Option<string> {
    if key in s then Some(s[key]) else None
  }

  /** Every key other than `key` holds the same value (or is absent) in both. */
  ghost predicate AgreeOutside(a: Storage, b: Storage, keys: set<string>) {
    forall k :: k !in keys ==> GetItem(a, k) == GetItem(b, k)
  }

  /** `setItem(key, value)`. */
  function SetItem(s: Storage, key: string, value: string): (r: Storage)
    ensures GetItem(r, key) == Some(value)
    ensures AgreeOutside(s, r, {key})
  {
    s[key := value]
  }

  /** `removeItem(key)`; removing an absent key changes nothing. */
  function RemoveItem(s: Storage, key: string): (r: Storage)
    ensures GetItem(r, key) == None
    ensures AgreeOutside(s, r, {key})
    ensures key !in s ==> r == s
  {
    s - {key}
  }
}
