/** Python dicts: a map together with the order in which its keys were first inserted. */
module OrderedDicts {

  /** No element is listed twice. */
  predicate Distinct<T(==)>(s: seq<T>) {
    forall i, j :: 0 <= i < j < |s| ==> s[i] != s[j]
  }

  datatype ODict<K(==), V> = ODict(keys: seq<K>, entries: map<K, V>) {

    /** The keys are listed once each, and exactly the keys of the map are listed. */
    predicate Valid() {
      && Distinct(keys)
      && (forall k :: k in entries ==> k in keys)
      && (forall i :: 0 <= i < |keys| ==> keys[i] in entries)
    }

    /** d[k] = v: a key already present keeps its position and takes the new value; a new key goes last. */
    function Put(k: K, v: V): (d: ODict<K, V>)
      ensures Valid() ==> d.Valid()
      ensures d.entries == entries[k := v]
      ensures k in entries ==> d.keys == keys
      ensures k !in entries ==> d.keys == keys + [k]
    {
      if k in entries then ODict(keys, entries[k := v]) else ODict(keys + [k], entries[k := v])
    }
  }

  function Empty<K(==), V>(): (d: ODict<K, V>)
    ensures d.Valid() && d.keys == [] && d.entries == map[]
  {
    ODict([], map[])
  }
}
