/** Sequences of key-value pairs, the shape shared by a `Map`'s entries and
    a query string's parameters. */
module Pairs {
  import opened Outcomes

  /** The position of the first entry with key `key`, or |entries| if none. */
  function KeyIndex<K(==), V>(entries: seq<(K, V)>, key: K): (p: nat)
    ensures p <= |entries|
    ensures forall i :: 0 <= i < p ==> entries[i].0 != key
    ensures p < |entries| ==> entries[p].0 == key
    decreases |entries|
  {
    if |entries| == 0 then 0
    else if entries[0].0 == key then 0
    else 1 + KeyIndex(entries[1..], key)
  }

  /** The value of the first entry with key `key`, if any: `Map.prototype.get`
      and `URLSearchParams.prototype.get` both answer this way. */
  function Lookup<K(==), V>(entries: seq<(K, V)>, key: K): (r: Option<V>)
  {
    var p := KeyIndex(entries, key);
    if p < |entries| then Some(entries[p].1) else None
  }

  /** Two entry sequences with the same keys up to |a| find a key that
      occurs there at the same place. */
  lemma KeyIndexAgrees<K, V>(a: seq<(K, V)>, b: seq<(K, V)>, key: K)
    requires |a| <= |b|
    requires forall i :: 0 <= i < |a| ==> a[i].0 == b[i].0
    requires KeyIndex(a, key) < |a|
    ensures KeyIndex(b, key) == KeyIndex(a, key)
  {
    var p := KeyIndex(a, key);
    assert b[p].0 == key;
  }
}
