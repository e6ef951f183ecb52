/** Option and Result, used for Python's `None` and for raised errors, and dictionary lookup. */
module Wrappers {

  datatype Option<+T> = None | Some(value: T) {
    function GetOr(default: T): T {
      match this
      case Some(v) => v
      case None => default
    }
  }

  datatype Result<+R, +E> = Success(value: R) | Failure(error: E)

  /**
    `d.get(key)` on a dictionary given as its (key, value) pairs in insertion
    order: the value of the first pair with that key, or None.
   */
  function Lookup<K(==), V>(entries: seq<(K, V)>, key: K): (r: Option<V>)
    ensures r.None? <==> forall k | 0 <= k < |entries| :: entries[k].0 != key
    ensures r.Some? ==> exists k | 0 <= k < |entries| :: entries[k] == (key, r.value)
  {
    if entries == [] then None
    else if entries[0].0 == key then Some(entries[0].1)
    else
      var r := Lookup(entries[1..], key);
      assert forall k | 1 <= k < |entries| :: entries[k] == entries[1..][k - 1];
      r
  }

  /** With distinct keys, each pair is what looking up its key returns. */
  lemma LookupDistinct<K, V>(entries: seq<(K, V)>, k: nat)
    requires k < |entries|
    requires forall i, j | 0 <= i < j < |entries| :: entries[i].0 != entries[j].0
    ensures Lookup(entries, entries[k].0) == Some(entries[k].1)
  {
    var r := Lookup(entries, entries[k].0);
    var j :| 0 <= j < |entries| && entries[j] == (entries[k].0, r.value);
    assert j == k;
  }

  /** A value held by only one key is never found under another key. */
  lemma LookupSoleOwner<K, V>(entries: seq<(K, V)>, key: K, v: V, owner: K)
    requires forall k | 0 <= k < |entries| :: entries[k].1 == v ==> entries[k].0 == owner
    requires key != owner
    ensures Lookup(entries, key) != Some(v)
  {
  }
}
