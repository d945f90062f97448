module Wrappers {

  datatype Option<+T> = None | Some(value: T)

  datatype Result<+T, +E> = Ok(value: T) | Err(error: E)

  /** Writes an optional value back under its key: `None` deletes the key. */
  function Put<K, V>(m: map<K, V>, k: K, v: Option<V>): map<K, V> {
    if v.Some? then m[k := v.value] else m - {k}
  }

  function Get<K, V>(m: map<K, V>, k: K): Option<V> {
    if k in m then Some(m[k]) else None
  }

  function AsSet<T(==)>(s: seq<T>): set<T> {
    set x | x in s
  }

  function Take<T>(s: seq<T>, n: nat): seq<T> {
    if n <= |s| then s[..n] else s
  }

  /** Whether x is among the first n, when y is put at the end. */
  lemma InTake<T>(s: seq<T>, y: T, n: nat, x: T)
    requires x == y ==> y !in s
    ensures x in Take(s + [y], n) <==> if x == y then |s| < n else x in Take(s, n)
  {
    assert (s + [y])[|s|] == y;
    assert n <= |s| ==> Take(s + [y], n) == s[..n] == Take(s, n);
    assert |s| < n ==> Take(s + [y], n) == s + [y] && Take(s, n) == s;
  }

  lemma Regroup<T>(a: seq<T>, b: seq<T>, c: seq<T>)
    ensures (a + b) + c == a + (b + c)
  {
  }
}
