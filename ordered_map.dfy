/**
 * Insertion-ordered maps: the JavaScript objects the reporter keys by group name,
 * spec id and browser id, iterated with `for ... in` in first-insertion order.
 */
module OrderedMap {

  datatype OMap<K, V> = OMap(keys: seq<K>, m: map<K, V>) {

    /** `keys` lists the domain of `m` exactly once each, in insertion order. */
    ghost predicate Valid()
    {
      && (forall i | 0 <= i < |keys| :: keys[i] in m)
      && (forall k | k in m :: k in keys)
      && (forall i, j | 0 <= i < j < |keys| :: keys[i] != keys[j])
    }

    /** `obj[k] = v`: overwrites in place, or appends a new key at the end of the order. */
    function Put(k: K, v: V): (r: OMap<K, V>)
      ensures Valid() ==> r.Valid()
      ensures r.m == m[k := v]
      ensures k in m ==> r.keys == keys
      ensures k !in m ==> r.keys == keys + [k]
    {
      if k in m then OMap(keys, m[k := v]) else OMap(keys + [k], m[k := v])
    }
  }

  function Empty<K, V>(): (r: OMap<K, V>)
    ensures r.Valid() && r.keys == [] && r.m == map[]
  {
    OMap([], map[])
  }
}
