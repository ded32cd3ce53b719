/** A JavaScript `Map` with string keys, as the record store uses it: lookups by key,
    `set` that overwrites an existing entry in place and appends a new one, and
    `values()` that yields the entries in insertion order. */
module OrderedMaps {
  import opened Wrappers

  type Key = string

  /** No key occurs twice in `ks`. */
  ghost predicate Distinct(ks: seq<Key>) {
    forall i, j :: 0 <= i < j < |ks| ==> ks[i] != ks[j]
  }

  /** `keys` is the insertion order, `entries` the key-to-value association. */
  datatype OrderedMap<V> = OrderedMap(keys: seq<Key>, entries: map<Key, V>) {

    ghost predicate Valid() {
      && (forall k :: k in entries <==> k in keys)
      && Distinct(keys)
    }

    /** Every value is stored under the key that `key` computes from it. */
    ghost predicate KeyedBy(key: V -> Key) {
      forall k :: k in entries ==> key(entries[k]) == k
    }

    /** `Map.size`. */
    function Size(): nat {
      |keys|
    }

    /** `Map.get`: absent (undefined) when the key is not there. */
    function Get(k: Key): Option<V> {
      if k in entries then Some(entries[k]) else None
    }

    /** `Array.from(map.values())`: the values in the order of their keys. */
    function Values(): (vs: seq<V>)
      requires Valid()
      ensures |vs| == Size()
      ensures forall i :: 0 <= i < |vs| ==> vs[i] == entries[keys[i]]
    {
      seq(|keys|, i requires 0 <= i < |keys| => entries[keys[i]])
    }

    /** `Map.set`: afterwards `k` maps to `v`, every other key is untouched, and the
        size grows by one exactly when `k` was new. */
    function Put(k: Key, v: V): (r: OrderedMap<V>)
      requires Valid()
      ensures r.Valid()
      ensures r.Get(k) == Some(v)
      ensures forall k' :: k' != k ==> r.Get(k') == Get(k')
      ensures r.Size() == if k in entries then Size() else Size() + 1
    {
      if k in entries then OrderedMap(keys, entries[k := v])
      else OrderedMap(keys + [k], entries[k := v])
    }
  }

  /** `new Map()`. */
  function Empty<V>(): (m: OrderedMap<V>)
    ensures m.Valid() && m.Size() == 0 && m.Values() == []
  {
    OrderedMap([], map[])
  }

  /** `values()` holds exactly the stored values. */
  lemma ValuesAreEntries<V>(m: OrderedMap<V>)
    requires m.Valid()
    ensures forall v :: v in m.Values() <==> v in m.entries.Values
  {
    var vs := m.Values();
    forall v | v in m.entries.Values
      ensures v in vs
    {
      var k :| k in m.entries && m.entries[k] == v;
      var i :| 0 <= i < |m.keys| && m.keys[i] == k;
      assert vs[i] == v;
    }
  }

  /** Setting a new key appends its value at the end of `values()`. */
  lemma PutFreshAppends<V>(m: OrderedMap<V>, k: Key, v: V)
    requires m.Valid() && k !in m.entries
    ensures m.Put(k, v).Values() == m.Values() + [v]
  {
    var r := m.Put(k, v);
    assert forall i :: 0 <= i < |m.keys| ==> r.keys[i] == m.keys[i] && m.keys[i] != k;
  }

  /** Setting an existing key replaces its value where it stands: the order and the
      other values are unchanged. */
  lemma PutExistingInPlace<V>(m: OrderedMap<V>, k: Key, v: V)
    requires m.Valid() && k in m.entries
    ensures |m.Put(k, v).Values()| == |m.Values()|
    ensures forall i :: 0 <= i < |m.keys| ==>
              m.Put(k, v).Values()[i] == if m.keys[i] == k then v else m.Values()[i]
  {
  }

  /** Setting the key at position `i` replaces exactly the value at position `i`. */
  lemma PutAtIndex<V>(m: OrderedMap<V>, i: nat, v: V)
    requires m.Valid() && i < m.Size()
    ensures m.Put(m.keys[i], v).Values() == m.Values()[i := v]
  {
    PutExistingInPlace(m, m.keys[i], v);
  }

  /** Distinctness survives cutting a sequence in two. */
  lemma DistinctParts(ks: seq<Key>, n: nat)
    requires Distinct(ks) && n <= |ks|
    ensures Distinct(ks[..n]) && Distinct(ks[n..])
  {
    assert forall i :: n <= i < |ks| ==> ks[n..][i - n] == ks[i];
  }

  /** The keys that `key` computes from the values in `vs`, in order. */
  function KeysOf<V>(vs: seq<V>, key: V -> Key): (ks: seq<Key>)
    ensures |ks| == |vs|
    ensures forall i :: 0 <= i < |vs| ==> ks[i] == key(vs[i])
  {
    seq(|vs|, i requires 0 <= i < |vs| => key(vs[i]))
  }

  /** `vs.forEach(v => map.set(key(v), v))`. */
  function PutEach<V>(m: OrderedMap<V>, vs: seq<V>, key: V -> Key): (r: OrderedMap<V>)
    requires m.Valid()
    ensures r.Valid()
    decreases |vs|
  {
    if vs == [] then m
    else PutEach(m, vs[..|vs| - 1], key).Put(key(vs[|vs| - 1]), vs[|vs| - 1])
  }

  /** Setting records under their own keys keeps every record under its own key, adds
      no key but theirs, and grows the map by at most their number. */
  lemma {:induction false} PutEachKeys<V>(m: OrderedMap<V>, vs: seq<V>, key: V -> Key)
    requires m.Valid()
    ensures m.KeyedBy(key) ==> PutEach(m, vs, key).KeyedBy(key)
    ensures forall k :: k in PutEach(m, vs, key).entries ==> k in m.entries || k in KeysOf(vs, key)
    ensures PutEach(m, vs, key).Size() <= m.Size() + |vs|
  {
    if vs != [] {
      var n := |vs| - 1;
      PutEachKeys(m, vs[..n], key);
      assert KeysOf(vs, key) == KeysOf(vs[..n], key) + [key(vs[n])];
    }
  }

  /** One more step of `forEach`: the first `i + 1` values are the first `i` and then `vs[i]`. */
  lemma PutEachStep<V>(m: OrderedMap<V>, vs: seq<V>, key: V -> Key, i: nat)
    requires m.Valid() && i < |vs|
    ensures PutEach(m, vs[..i + 1], key) == PutEach(m, vs[..i], key).Put(key(vs[i]), vs[i])
  {
    assert vs[..i + 1][..i] == vs[..i];
  }

  /** Setting values with distinct keys, none already present, appends them all in order. */
  lemma {:induction false} PutEachFresh<V>(m: OrderedMap<V>, vs: seq<V>, key: V -> Key)
    requires m.Valid()
    requires Distinct(KeysOf(vs, key))
    requires forall i :: 0 <= i < |vs| ==> key(vs[i]) !in m.entries
    ensures PutEach(m, vs, key).Values() == m.Values() + vs
  {
    if vs != [] {
      var n := |vs| - 1;
      var init, last := vs[..n], vs[n];
      LastKeyIsNew(vs, key);
      assert forall i :: 0 <= i < n ==> init[i] == vs[i];
      PutEachFresh(m, init, key);
      var p := PutEach(m, init, key);
      PutEachKeys(m, init, key);
      PutFreshAppends(p, key(last), last);
      PutEachStep(m, vs, key, n);
      calc {
        PutEach(m, vs, key).Values();
        { assert vs[..n + 1] == vs; }
        p.Put(key(last), last).Values();
        p.Values() + [last];
        (m.Values() + init) + [last];
        { SplitLast(m.Values(), vs); }
        m.Values() + vs;
      }
    }
  }

  /** Appending a sequence is appending all but its last element, then that element. */
  lemma SplitLast<V>(prefix: seq<V>, vs: seq<V>)
    requires vs != []
    ensures (prefix + vs[..|vs| - 1]) + [vs[|vs| - 1]] == prefix + vs
  {
    assert vs[..|vs| - 1] + [vs[|vs| - 1]] == vs;
  }

  /** With distinct keys, the prefix keeps distinct keys and the last key is not among them. */
  lemma LastKeyIsNew<V>(vs: seq<V>, key: V -> Key)
    requires vs != [] && Distinct(KeysOf(vs, key))
    ensures Distinct(KeysOf(vs[..|vs| - 1], key))
    ensures key(vs[|vs| - 1]) !in KeysOf(vs[..|vs| - 1], key)
  {
    var n := |vs| - 1;
    var ks, ks' := KeysOf(vs, key), KeysOf(vs[..n], key);
    assert forall i :: 0 <= i < n ==> ks'[i] == ks[i];
    assert ks[n] == key(vs[n]);
  }
}
