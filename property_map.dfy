/**
 * The two `java.util.Map` operations that `Event` applies to its properties
 * map: `put` (one entry) and `putAll` (a whole map), with the laws a caller
 * of `Event.property` and `Event.properties` relies on.
 */
module PropertyMap {
  import opened Wrappers

  /** A Java `String` reference: `None` is `null`. */
  type NullableString = Option<string>

  /** Property keys. A `HashMap` admits the `null` key, so a key may be `None`. */
  type Key = NullableString

  /** `put(k, v)`: afterwards `k` is bound to `v` and every other binding is as before. */
  function Put<V>(m: map<Key, V>, k: Key, v: V): (r: map<Key, V>)
    ensures r.Keys == m.Keys + {k}
    ensures r[k] == v
    ensures forall j :: j in m && j != k ==> r[j] == m[j]
  {
    m[k := v]
  }

  /**
   * `putAll(n)`: union with override. Keys of `n` take `n`'s values, keys
   * only in `m` keep theirs, and no other key appears.
   */
  function PutAll<V>(m: map<Key, V>, n: map<Key, V>): (r: map<Key, V>)
    ensures r.Keys == m.Keys + n.Keys
    ensures forall j :: j in n ==> r[j] == n[j]
    ensures forall j :: j in m && j !in n ==> r[j] == m[j]
  {
    m + n
  }

  /**
   * Reference definition of `putAll`: `put` each entry of `n` in turn, the
   * keys taken in the order `ks` lists them (any iteration order of `n`).
   */
  function PutEach<V>(m: map<Key, V>, n: map<Key, V>, ks: seq<Key>): map<Key, V>
    requires forall i :: 0 <= i < |ks| ==> ks[i] in n
    decreases |ks|
  {
    if ks == [] then m else PutEach(Put(m, ks[0], n[ks[0]]), n, ks[1..])
  }

  /**
   * After putting the entries of `n` over the keys `ks`, a key is bound iff it
   * was bound before or is one of `ks`; a key of `ks` maps to its value in `n`,
   * any other key keeps its old value.
   */
  lemma {:induction false} PutEachAt<V>(m: map<Key, V>, n: map<Key, V>, ks: seq<Key>, k: Key)
    requires forall i :: 0 <= i < |ks| ==> ks[i] in n
    ensures k in PutEach(m, n, ks) <==> k in m || k in ks
    ensures k in ks ==> PutEach(m, n, ks)[k] == n[k]
    ensures k !in ks && k in m ==> PutEach(m, n, ks)[k] == m[k]
    decreases |ks|
  {
    if ks != [] {
      assert ks == [ks[0]] + ks[1..];
      PutEachAt(Put(m, ks[0], n[ks[0]]), n, ks[1..], k);
    }
  }

  /**
   * `putAll(n)` equals putting every entry of `n` in any order that visits
   * each key of `n` (repetitions allowed): the order of iteration is irrelevant.
   */
  lemma PutAllIsPutEach<V>(m: map<Key, V>, n: map<Key, V>, ks: seq<Key>)
    requires forall k :: k in n <==> k in ks
    ensures PutAll(m, n) == PutEach(m, n, ks)
  {
    var lhs, rhs := PutAll(m, n), PutEach(m, n, ks);
    forall k
      ensures k in lhs <==> k in rhs
      ensures k in lhs ==> lhs[k] == rhs[k]
    {
      PutEachAt(m, n, ks, k);
    }
  }

  /** `put` is `putAll` of a one-entry map. */
  lemma PutIsPutAllOfSingleton<V>(m: map<Key, V>, k: Key, v: V)
    ensures Put(m, k, v) == PutAll(m, map[k := v])
  {
  }

  /** Two `put`s of the same key keep only the later value. */
  lemma PutOverwrites<V>(m: map<Key, V>, k: Key, v: V, w: V)
    ensures Put(Put(m, k, v), k, w) == Put(m, k, w)
  {
  }

  /** `putAll` of an empty map changes nothing. */
  lemma PutAllEmpty<V>(m: map<Key, V>)
    ensures PutAll(m, map[]) == m
  {
  }

  /** `putAll` is idempotent: merging the same map twice equals merging it once. */
  lemma PutAllIdempotent<V>(m: map<Key, V>, n: map<Key, V>)
    ensures PutAll(PutAll(m, n), n) == PutAll(m, n)
  {
  }

  /** Two successive `putAll`s equal one `putAll` of the second merged over the first. */
  lemma PutAllTwice<V>(m: map<Key, V>, a: map<Key, V>, b: map<Key, V>)
    ensures PutAll(PutAll(m, a), b) == PutAll(m, PutAll(a, b))
  {
  }
}
