/** Insertion-ordered string-keyed mappings, the shape of a Python `dict`
    whose keys are strings: JSON objects, request headers, query parameters. */
module Assoc {
  import opened Results

  /** The keys of `ms`, in insertion order. */
  function Keys<V>(ms: seq<(string, V)>): seq<string>
  {
    seq(|ms|, i requires 0 <= i < |ms| => ms[i].0)
  }

  /** A Python dict never holds the same key twice. */
  predicate DistinctKeys<V>(ms: seq<(string, V)>)
  {
    forall i, j :: 0 <= i < j < |ms| ==> ms[i].0 != ms[j].0
  }

  /** `ms[k]` if `k` is a key of `ms`. */
  function Lookup<V(==)>(ms: seq<(string, V)>, k: string): (r: Option<V>)
    ensures r.None? <==> k !in Keys(ms)
    ensures r.Some? ==> (k, r.value) in ms
  {
    if |ms| == 0 then None
    else if ms[0].0 == k then
      assert Keys(ms)[0] == k;
      Some(ms[0].1)
    else
      assert Keys(ms) == [ms[0].0] + Keys(ms[1..]);
      Lookup(ms[1..], k)
  }

  /** Python's `ms.get(k, d)`: the value stored under `k`, or `d` when `k` is absent.
      A key that is present is returned as stored, whatever its value. */
  function GetOr<V(==)>(ms: seq<(string, V)>, k: string, d: V): V
  {
    match Lookup(ms, k)
    case Some(v) => v
    case None => d
  }

  /** In a dict, the value found under a key is the one stored at that key's position. */
  lemma {:induction false} LookupAt<V>(ms: seq<(string, V)>, i: nat)
    requires DistinctKeys(ms)
    requires i < |ms|
    ensures Lookup(ms, ms[i].0) == Some(ms[i].1)
  {
    if i > 0 {
      assert ms[0].0 != ms[i].0;
      LookupAt(ms[1..], i - 1);
    }
  }
}
