/** Header maps and the object-spread algebra the client builds them with. */
module HeaderMaps {

  type Headers = map<string, string>

  /** `{...base, ...over}`: every key of either map, the value of `over` winning. */
  function Merge(base: Headers, over: Headers): (r: Headers)
    ensures r.Keys == base.Keys + over.Keys
    ensures forall k :: k in over ==> r[k] == over[k]
    ensures forall k :: k in base && k !in over ==> r[k] == base[k]
  {
    base + over
  }

  /** `const { [key]: _, ...rest } = h`: the map without `key`. */
  function Without(h: Headers, key: string): (r: Headers)
    ensures r.Keys == h.Keys - {key}
    ensures forall k :: k in r ==> r[k] == h[k]
  {
    h - {key}
  }

  /** `a` and `b` have the same keys and values, `key` aside. */
  predicate AgreeExcept(a: Headers, b: Headers, key: string) {
    && a.Keys - {key} == b.Keys - {key}
    && forall k :: k in a && k in b && k != key ==> a[k] == b[k]
  }

  /** Spreading a sub-map of `h` back over `h` gives `h` again. */
  lemma MergeSubmap(h: Headers, sub: Headers)
    requires sub.Keys <= h.Keys
    requires forall k :: k in sub ==> sub[k] == h[k]
    ensures Merge(h, sub) == h
  {
  }
}
