/**
 * JavaScript objects used as dictionaries (the stream map, the quality map,
 * the protocol-to-URL map). `Object.entries` yields their entries in a fixed
 * order (integer-like keys first, in ascending order, then the other keys in
 * insertion order), and the code depends on that order (the first stream is auto-started,
 * cards and buttons are rendered in entry order), so a dictionary is modelled as
 * the sequence of its entries.
 */
module Assoc {
  import opened Wrappers

  datatype Pair<K, V> = Pair(key: K, value: V)

  type Assoc<K, V> = seq<Pair<K, V>>

  /** `k in obj` */
  predicate HasKey<K(==), V>(m: Assoc<K, V>, k: K) {
    exists i :: 0 <= i < |m| && m[i].key == k
  }

  /** JavaScript objects never hold a key twice. */
  predicate UniqueKeys<K(==), V>(m: Assoc<K, V>) {
    forall i, j :: 0 <= i < j < |m| ==> m[i].key != m[j].key
  }

  /** Position of the first entry with key `k`, or `|m|` when there is none. */
  function IndexOf<K(==), V>(m: Assoc<K, V>, k: K): (i: nat)
    ensures i <= |m|
    ensures i < |m| ==> m[i].key == k
    ensures forall j :: 0 <= j < i ==> m[j].key != k
  {
    if |m| == 0 then 0
    else if m[0].key == k then 0
    else 1 + IndexOf(m[1..], k)
  }

  /** `obj[k]`: the value stored under `k`, `None` (undefined) when `k` is absent. */
  function Lookup<K(==), V>(m: Assoc<K, V>, k: K): (r: Option<V>)
    ensures r.Some? <==> HasKey(m, k)
    ensures r.Some? ==> exists i :: 0 <= i < |m| && m[i] == Pair(k, r.value)
  {
    var i := IndexOf(m, k);
    if i < |m| then Some(m[i].value) else None
  }
}
