/**
 * PHP's ordered associative array, as the form generator uses it for the
 * old-value table, the date-picker registry and the per-picker script
 * options: a sequence of key/value pairs in insertion order.
 * `$a[$k] = $v` overwrites the value of an existing key where it stands
 * and appends a new key at the end.
 */
module PhpArray {
  import opened Php

  function Keys<K, V>(a: seq<(K, V)>): (ks: seq<K>)
    ensures |ks| == |a|
    ensures forall i :: 0 <= i < |a| ==> ks[i] == a[i].0
  {
    if a == [] then [] else [a[0].0] + Keys(a[1..])
  }

  /** No key occurs twice: what a PHP array always satisfies. */
  ghost predicate UniqueKeys<K, V>(a: seq<(K, V)>) {
    forall i, j :: 0 <= i < j < |a| ==> a[i].0 != a[j].0
  }

  /** `$a[$k]` when `isset`, else None. */
  function Get<K(==), V>(a: seq<(K, V)>, k: K): Option<V> {
    if a == [] then None
    else if a[0].0 == k then Some(a[0].1)
    else Get(a[1..], k)
  }

  /** `isset($a[$k]) ? $a[$k] : $default` */
  function GetOr<K(==), V>(a: seq<(K, V)>, k: K, default: V): V {
    match Get(a, k)
    case Some(v) => v
    case None => default
  }

  /** `$a[$k] = $v` */
  function Put<K(==), V>(a: seq<(K, V)>, k: K, v: V): seq<(K, V)> {
    if a == [] then [(k, v)]
    else if a[0].0 == k then [(k, v)] + a[1..]
    else [a[0]] + Put(a[1..], k, v)
  }

  /** After `$a[$k] = $v`, reading `$a[$k]` gives `$v`: the last write wins. */
  lemma {:induction false} PutGet<K, V>(a: seq<(K, V)>, k: K, v: V)
    ensures Get(Put(a, k, v), k) == Some(v)
  {
    if a != [] && a[0].0 != k {
      PutGet(a[1..], k, v);
    }
  }

  /** `$a[$k] = $v` changes no other key's value. */
  lemma {:induction false} PutGetOther<K, V>(a: seq<(K, V)>, k: K, v: V, k': K)
    requires k' != k
    ensures Get(Put(a, k, v), k') == Get(a, k')
  {
    if a != [] && a[0].0 != k {
      PutGetOther(a[1..], k, v, k');
    }
  }

  /** `$a[$k] = $v` keeps the key order; a new key goes last. */
  lemma {:induction false} PutKeys<K, V>(a: seq<(K, V)>, k: K, v: V)
    ensures Keys(Put(a, k, v)) == if k in Keys(a) then Keys(a) else Keys(a) + [k]
  {
    if a != [] {
      assert Keys(a) == [a[0].0] + Keys(a[1..]);
      if a[0].0 != k {
        PutKeys(a[1..], k, v);
        assert Keys(Put(a, k, v)) == [a[0].0] + Keys(Put(a[1..], k, v));
      } else {
        assert Keys(Put(a, k, v)) == [k] + Keys(a[1..]);
      }
    }
  }

  /** Keys that are unique stay unique under `$a[$k] = $v`. */
  lemma PutUniqueKeys<K, V>(a: seq<(K, V)>, k: K, v: V)
    requires UniqueKeys(a)
    ensures UniqueKeys(Put(a, k, v))
  {
    var b := Put(a, k, v);
    PutKeys(a, k, v);
    if k !in Keys(a) {
      forall i | 0 <= i < |a| ensures a[i].0 != k {
        assert Keys(a)[i] == a[i].0;
      }
    }
    forall i, j | 0 <= i < j < |b| ensures b[i].0 != b[j].0 {
      assert Keys(b)[i] == b[i].0 && Keys(b)[j] == b[j].0;
    }
  }

  /** `$a[$k] = $v` with a key not yet present appends the pair. */
  lemma {:induction false} PutAbsent<K, V>(a: seq<(K, V)>, k: K, v: V)
    requires k !in Keys(a)
    ensures Put(a, k, v) == a + [(k, v)]
  {
    if a != [] {
      assert Keys(a) == [a[0].0] + Keys(a[1..]);
      PutAbsent(a[1..], k, v);
      assert a == [a[0]] + a[1..];
    }
  }
}
