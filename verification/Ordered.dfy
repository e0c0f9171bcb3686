/** An insertion-ordered dictionary, as the sequence of its entries. */
module Ordered {
  datatype Entry<K, V> = Entry(key: K, value: V)

  predicate Distinct<K(==), V>(d: seq<Entry<K, V>>) {
    forall i, j | 0 <= i < j < |d| :: d[i].key != d[j].key
  }

  /** Where a key is, or -1. */
  function IndexOf<K(==), V>(d: seq<Entry<K, V>>, k: K): (i: int)
    ensures -1 <= i < |d|
    ensures i >= 0 ==> d[i].key == k && forall j | 0 <= j < i :: d[j].key != k
    ensures i < 0 <==> forall j | 0 <= j < |d| :: d[j].key != k
  {
    if d == [] then -1
    else if d[|d| - 1].key == k && IndexOf(d[..|d| - 1], k) < 0 then |d| - 1
    else IndexOf(d[..|d| - 1], k)
  }

  predicate Has<K(==), V>(d: seq<Entry<K, V>>, k: K) {
    IndexOf(d, k) >= 0
  }

  function Get<K(==), V>(d: seq<Entry<K, V>>, k: K): V
    requires Has(d, k)
  {
    d[IndexOf(d, k)].value
  }

  /** An old key keeps its place and takes the new value; a new one goes to the end. */
  function Put<K(==), V>(d: seq<Entry<K, V>>, k: K, v: V): seq<Entry<K, V>> {
    if Has(d, k) then d[IndexOf(d, k) := Entry(k, v)] else d + [Entry(k, v)]
  }

  function RemoveAt<T>(d: seq<T>, i: nat): seq<T>
    requires i < |d|
  {
    d[..i] + d[i + 1..]
  }

  function Pop<K(==), V>(d: seq<Entry<K, V>>, k: K): seq<Entry<K, V>> {
    if Has(d, k) then RemoveAt(d, IndexOf(d, k)) else d
  }

  /** In a dictionary a key has only one place. */
  lemma OnePlace<K, V>(d: seq<Entry<K, V>>, k: K, i: nat)
    requires Distinct(d) && i < |d| && d[i].key == k
    ensures IndexOf(d, k) == i
  {}

  /** Storing changes the value under its key, and no other. */
  lemma PutGet<K, V>(d: seq<Entry<K, V>>, k: K, v: V, other: K)
    requires Distinct(d)
    ensures Distinct(Put(d, k, v)) && Has(Put(d, k, v), k) && Get(Put(d, k, v), k) == v
    ensures other != k ==> (Has(Put(d, k, v), other) <==> Has(d, other))
    ensures other != k && Has(d, other) ==> Get(Put(d, k, v), other) == Get(d, other)
  {
    var e := Put(d, k, v);
    var i := if Has(d, k) then IndexOf(d, k) else |d|;
    assert e[i] == Entry(k, v);
    OnePlace(e, k, i);
    if Has(d, other) && other != k {
      assert e[IndexOf(d, other)] == d[IndexOf(d, other)];
      OnePlace(e, other, IndexOf(d, other));
    }
    if Has(e, other) && other != k {
      assert d[IndexOf(e, other)] == e[IndexOf(e, other)];
    }
  }

  /** Removing takes the key away, and no other. */
  lemma PopGet<K, V>(d: seq<Entry<K, V>>, k: K, other: K)
    requires Distinct(d)
    ensures Distinct(Pop(d, k)) && !Has(Pop(d, k), k)
    ensures other != k ==> (Has(Pop(d, k), other) <==> Has(d, other))
    ensures other != k && Has(d, other) ==> Get(Pop(d, k), other) == Get(d, other)
  {
    if Has(d, k) {
      PopDistinct(d, k);
      if Has(d, other) && other != k {
        PopFinds(d, k, other);
      } else if Has(Pop(d, k), other) {
        PopInvents(d, k, other);
      }
      if Has(Pop(d, k), k) {
        PopInvents(d, k, k);
      }
    }
  }

  lemma PopDistinct<K, V>(d: seq<Entry<K, V>>, k: K)
    requires Distinct(d)
    ensures Distinct(Pop(d, k))
  {
    hide IndexOf;
  }

  lemma PopFinds<K, V>(d: seq<Entry<K, V>>, k: K, other: K)
    requires Distinct(d) && Has(d, k) && Has(d, other) && other != k
    ensures Has(Pop(d, k), other) && Get(Pop(d, k), other) == Get(d, other)
  {
    var (i, j) := (IndexOf(d, k), IndexOf(d, other));
    var (e, at) := (Pop(d, k), if j < i then j else j - 1);
    PopDistinct(d, k);
    assert e[at] == d[j];
    OnePlace(e, other, at);
    hide IndexOf;
  }

  lemma PopInvents<K, V>(d: seq<Entry<K, V>>, k: K, other: K)
    requires Distinct(d) && Has(d, k) && Has(Pop(d, k), other)
    ensures Has(d, other) && other != k
  {
    var (i, j) := (IndexOf(d, k), IndexOf(Pop(d, k), other));
    var at := if j < i then j else j + 1;
    assert Pop(d, k)[j] == d[at];
    OnePlace(d, other, at);
    hide IndexOf;
  }

  /** Forgetting the oldest entries, while there are more than n. */
  function Newest<T>(d: seq<T>, n: nat): seq<T> {
    if |d| > n then d[|d| - n..] else d
  }

  lemma SameMap<K, V>(a: map<K, V>, b: map<K, V>)
    requires forall k | k in a || k in b :: k in a && k in b && a[k] == b[k]
    ensures a == b
  {}
}
