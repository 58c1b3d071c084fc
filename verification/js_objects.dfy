/**
 * A JavaScript object with string keys, kept as the list of its properties
 * in key order (`Object.keys` order for non-numeric keys is insertion order).
 */
module JsObjects {
  import opened Wrappers

  type Object<K, V> = seq<(K, V)>

  /** `Object.keys(o)`. */
  function Keys<K(==), V>(o: Object<K, V>): (ks: seq<K>)
    ensures |ks| == |o|
    ensures forall i :: 0 <= i < |o| ==> ks[i] == o[i].0
  {
    seq(|o|, i requires 0 <= i < |o| => o[i].0)
  }

  /** `o[k]`, `undefined` (None) when the key is absent. */
  function Get<K(==), V>(o: Object<K, V>, k: K): (r: Option<V>)
    ensures r.None? <==> k !in Keys(o)
    ensures r.Some? ==> exists i :: 0 <= i < |o| && o[i] == (k, r.value)
  {
    if o == [] then None
    else if o[0].0 == k then Some(o[0].1)
    else Get(o[1..], k)
  }

  /** `o[k] = v`: an existing key keeps its position, a new key is appended. */
  function Put<K(==), V>(o: Object<K, V>, k: K, v: V): (r: Object<K, V>)
    ensures |r| == if k in Keys(o) then |o| else |o| + 1
  {
    if o == [] then [(k, v)]
    else if o[0].0 == k then [(k, v)] + o[1..]
    else
      assert Keys(o) == [o[0].0] + Keys(o[1..]);
      [o[0]] + Put(o[1..], k, v)
  }

  /** Assigning a key keeps the key order, appending the key when it is new. */
  lemma {:induction false} PutKeys<K, V>(o: Object<K, V>, k: K, v: V)
    ensures Keys(Put(o, k, v)) == if k in Keys(o) then Keys(o) else Keys(o) + [k]
  {
    if o != [] {
      KeysCons(o[0], o[1..]);
      assert [o[0]] + o[1..] == o;
      if o[0].0 != k {
        var rest := Put(o[1..], k, v);
        PutKeys(o[1..], k, v);
        KeysCons(o[0], rest);
        assert k in Keys(o) <==> k in Keys(o[1..]);
        if k !in Keys(o[1..]) {
          assert [o[0].0] + (Keys(o[1..]) + [k]) == ([o[0].0] + Keys(o[1..])) + [k];
        }
      } else {
        KeysCons((k, v), o[1..]);
      }
    }
  }

  lemma KeysCons<K, V>(p: (K, V), o: Object<K, V>)
    ensures Keys([p] + o) == [p.0] + Keys(o)
  {
  }

  /** Reading the assigned key gives the assigned value; every other key reads as before. */
  lemma {:induction false} PutGet<K, V>(o: Object<K, V>, k: K, v: V, k': K)
    ensures Get(Put(o, k, v), k') == if k' == k then Some(v) else Get(o, k')
  {
    if o != [] && o[0].0 != k {
      PutGet(o[1..], k, v, k');
      assert ([o[0]] + Put(o[1..], k, v))[1..] == Put(o[1..], k, v);
    } else if o != [] {
      assert ([(k, v)] + o[1..])[1..] == o[1..];
    }
  }

  predicate DistinctKeys<K(==), V>(o: Object<K, V>) {
    forall i, j :: 0 <= i < j < |o| ==> o[i].0 != o[j].0
  }

  /** Assignment keeps an object's keys distinct. */
  lemma PutKeepsDistinct<K, V>(o: Object<K, V>, k: K, v: V)
    requires DistinctKeys(o)
    ensures DistinctKeys(Put(o, k, v))
  {
    var r := Put(o, k, v);
    PutKeys(o, k, v);
    var ks := Keys(r);
    forall i, j | 0 <= i < j < |r| ensures r[i].0 != r[j].0 {
      assert ks[i] == r[i].0 && ks[j] == r[j].0;
      if k !in Keys(o) {
        assert j < |o| || ks[j] == k;
      }
    }
  }
}
