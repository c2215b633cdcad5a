/** The JavaScript `Map<string, V>` the in-memory repositories keep their tables in: a finite map
    plus the order in which its keys were first inserted, which is the order `Array.from(m.values())`
    yields. `set` on a key already present replaces the value in place; `delete` drops the key. */
module OrderedMaps {
  import opened Common

  ghost predicate Distinct(keys: seq<string>) {
    forall i, j | 0 <= i < j < |keys| :: keys[i] != keys[j]
  }

  datatype OrderedMap<V> = OrderedMap(keys: seq<string>, entries: map<string, V>) {
    /** Every key occurs once in the order, and the order lists exactly the stored keys. */
    ghost predicate Valid() {
      && Distinct(keys)
      && (forall k :: k in entries <==> k in keys)
    }
  }

  /** `new Map()`. */
  function Empty<V>(): (m: OrderedMap<V>)
    ensures m.Valid() && m.entries == map[] && Values(m) == []
  {
    OrderedMap([], map[])
  }

  /** `Array.from(m.values())`: the stored values, in key-insertion order. */
  function Values<V>(m: OrderedMap<V>): (vs: seq<V>)
    requires m.Valid()
    ensures |vs| == |m.keys|
  {
    seq(|m.keys|, i requires 0 <= i < |m.keys| => m.entries[m.keys[i]])
  }

  /** `m.get(k) || null`. */
  function Get<V>(m: OrderedMap<V>, k: string): (r: Option<V>)
    ensures r.Some? <==> k in m.entries
    ensures r.Some? ==> r.value == m.entries[k]
  {
    if k in m.entries then Some(m.entries[k]) else None
  }

  /** `m.set(k, v)`: a new key is appended to the order; a key already present keeps its place. */
  function Set<V>(m: OrderedMap<V>, k: string, v: V): (r: OrderedMap<V>)
    requires m.Valid()
    ensures r.Valid()
    ensures r.entries == m.entries[k := v]
    ensures Get(r, k) == Some(v)
    ensures k !in m.entries ==> Values(r) == Values(m) + [v]
    ensures k in m.entries ==> r.keys == m.keys && |Values(r)| == |Values(m)|
  {
    if k in m.entries then
      OrderedMap(m.keys, m.entries[k := v])
    else
      var r := OrderedMap(m.keys + [k], m.entries[k := v]);
      assert Values(r) == Values(m) + [v];
      r
  }

  /** `m.delete(k)` (its boolean result is `k in m.entries`). */
  function Delete<V>(m: OrderedMap<V>, k: string): (r: OrderedMap<V>)
    requires m.Valid()
    ensures r.Valid()
    ensures r.entries == m.entries - {k}
    ensures |Values(r)| == if k in m.entries then |Values(m)| - 1 else |Values(m)|
  {
    if k in m.entries then
      var ks := Without(m.keys, k);
      OrderedMap(ks, m.entries - {k})
    else
      m
  }

  /** The key order with `k` taken out, the others keeping their relative order. */
  function Without(keys: seq<string>, k: string): (r: seq<string>)
    ensures forall x :: x in r <==> x in keys && x != k
    ensures Distinct(keys) ==> Distinct(r)
    ensures k !in keys ==> r == keys
    ensures Distinct(keys) && k in keys ==> |r| == |keys| - 1
  {
    if keys == [] then []
    else
      var rest := Without(keys[1..], k);
      assert Distinct(keys) ==> Distinct(keys[1..]) && keys[0] !in keys[1..];
      if keys[0] == k then rest else [keys[0]] + rest
  }

  /** A value is listed by `values()` exactly when some stored key maps to it. */
  lemma InValues<V>(m: OrderedMap<V>, v: V)
    requires m.Valid()
    ensures v in Values(m) <==> exists k :: k in m.entries && m.entries[k] == v
  {
    var vs := Values(m);
    if v in vs {
      var i :| 0 <= i < |vs| && vs[i] == v;
      assert m.keys[i] in m.entries && m.entries[m.keys[i]] == v;
    }
    if exists k :: k in m.entries && m.entries[k] == v {
      var k :| k in m.entries && m.entries[k] == v;
      var i :| 0 <= i < |m.keys| && m.keys[i] == k;
      assert vs[i] == v;
    }
  }

  /** `values()` lists one value per stored key. */
  lemma ValuesCount<V>(m: OrderedMap<V>)
    requires m.Valid()
    ensures |Values(m)| == |m.entries|
  {
    assert m.entries.Keys == set k | k in m.keys;
    DistinctCardinality(m.keys);
  }

  /** A key order without repetitions has as many positions as keys. */
  lemma {:induction false} DistinctCardinality(keys: seq<string>)
    requires Distinct(keys)
    ensures |set k | k in keys| == |keys|
  {
    if keys != [] {
      var rest := keys[1..];
      assert Distinct(rest);
      DistinctCardinality(rest);
      assert (set k | k in keys) == {keys[0]} + (set k | k in rest);
      assert keys[0] !in (set k | k in rest);
    }
  }
}
