/** JavaScript plain objects with string keys, as association lists: `Object.entries`
    lists keys in insertion order, and assigning to an existing key keeps its place.  (A
    JavaScript object lists integer-like keys such as "2025" first, in numeric order; the
    model keeps insertion order for every key.) */
module Assoc {
  import opened Common

  type Assoc<V> = seq<(string, V)>

  /** `obj[key]`, or None when the key is absent. */
  function Lookup<V>(a: Assoc<V>, key: string): (r: Option<V>)
    ensures r.Some? <==> exists i :: 0 <= i < |a| && a[i].0 == key
  {
    if a == [] then None
    else if a[0].0 == key then Some(a[0].1)
    else Lookup(a[1..], key)
  }

  /** `obj[key] = value`: an existing key keeps its position, a new key goes last. */
  function Put<V>(a: Assoc<V>, key: string, value: V): (r: Assoc<V>)
    ensures |r| == |a| || |r| == |a| + 1
    ensures Lookup(a, key).None? ==> r == a + [(key, value)]
    ensures Lookup(a, key).Some? ==> |r| == |a|
    ensures forall i :: 0 <= i < |a| ==> r[i].0 == a[i].0
  {
    if a == [] then [(key, value)]
    else if a[0].0 == key then [(key, value)] + a[1..]
    else [a[0]] + Put(a[1..], key, value)
  }

  /** Reading back a key just written yields the value written; other keys are unaffected. */
  lemma {:induction false} LookupPut<V>(a: Assoc<V>, key: string, value: V, other: string)
    ensures Lookup(Put(a, key, value), key) == Some(value)
    ensures other != key ==> Lookup(Put(a, key, value), other) == Lookup(a, other)
  {
    if a != [] && a[0].0 != key {
      LookupPut(a[1..], key, value, other);
      assert Put(a, key, value)[1..] == Put(a[1..], key, value);
    }
  }

  /** Writing back the value a key already holds changes nothing. */
  lemma {:induction false} PutExisting<V>(a: Assoc<V>, key: string)
    requires Lookup(a, key).Some?
    ensures Put(a, key, Lookup(a, key).value) == a
  {
    if a[0].0 != key {
      PutExisting(a[1..], key);
    }
  }

  /** A later write to the same key overrides an earlier one. */
  lemma {:induction false} PutPut<V>(a: Assoc<V>, key: string, v1: V, v2: V)
    ensures Put(Put(a, key, v1), key, v2) == Put(a, key, v2)
  {
    if a != [] && a[0].0 != key {
      PutPut(a[1..], key, v1, v2);
    }
  }
}
