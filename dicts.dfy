/**
 * Python dictionaries with integer values as the statistics use them:
 * keys kept in insertion order, `d.get(k, 0)`, `d[k] = v`, and
 * `max(d, key=d.get)`, which scans the keys in insertion order and keeps the
 * first key whose value is largest.
 */
module Dicts {
  import opened Wrappers

  /** A dictionary: its keys in insertion order and the value of each key. */
  datatype Dict<K(==,!new)> = Dict(keys: seq<K>, values: map<K, int>)
  {
    ghost predicate Valid()
    {
      && (forall k :: k in keys <==> k in values)
      && (forall i, j :: 0 <= i < j < |keys| ==> keys[i] != keys[j])
    }

    /** `d.get(k, default)`. */
    function Get(k: K, default: int): int
    {
      if k in values then values[k] else default
    }

    /** The values in key order, as `max` visits them. */
    function Ordered(): (vals: seq<int>)
      ensures |vals| == |keys|
      ensures forall i :: 0 <= i < |keys| ==> vals[i] == Get(keys[i], 0)
    {
      seq(|keys|, i requires 0 <= i < |keys| => Get(keys[i], 0))
    }

    /** `d[k] = v`: a new key goes last, an existing key keeps its place. */
    function Put(k: K, v: int): (d: Dict<K>)
      ensures Valid() ==> d.Valid()
      ensures d.values == values[k := v]
      ensures d.keys == if k in values then keys else keys + [k]
    {
      Dict(if k in values then keys else keys + [k], values[k := v])
    }

    /** `d[k] = d.get(k, 0) + v`: adds `v` to the entry of `k`, making one if needed. */
    function Add(k: K, v: int): (d: Dict<K>)
      ensures Valid() ==> d.Valid()
      ensures d.values == values[k := Get(k, 0) + v]
      ensures d.keys == if k in values then keys else keys + [k]
    {
      Put(k, Get(k, 0) + v)
    }
  }

  /** `max(vals)` by position: the first index holding the largest value. */
  ghost predicate FirstMaxIndex(vals: seq<int>, j: int)
  {
    && 0 <= j < |vals|
    && (forall i :: 0 <= i < |vals| ==> vals[i] <= vals[j])
    && (forall i :: 0 <= i < j ==> vals[i] < vals[j])
  }

  /**
   * Python's `max` over a list: it keeps the first item and replaces it only by
   * a strictly larger one; on an empty list it raises (here `None`).
   */
  function ArgMax(vals: seq<int>): (r: Option<nat>)
    ensures r.None? <==> |vals| == 0
    ensures r.Some? ==> FirstMaxIndex(vals, r.value)
  {
    if |vals| == 0 then None
    else
      match ArgMax(vals[..|vals| - 1])
      case None => Some(0)
      case Some(j) => if vals[|vals| - 1] > vals[j] then Some(|vals| - 1) else Some(j)
  }

  /**
   * `max(d, key=d.get)`, or `None` where Python raises on an empty dictionary:
   * a key with the largest value, and no key with that value comes before it
   * in insertion order.
   */
  function BestKey<K(==,!new)>(d: Dict<K>): (r: Option<K>)
    ensures r.None? <==> |d.keys| == 0
    ensures r.Some? ==> r.value in d.keys
    ensures r.Some? ==> forall k :: k in d.keys ==> d.Get(k, 0) <= d.Get(r.value, 0)
    ensures r.Some? ==> forall i :: 0 <= i < |d.keys| && d.Get(d.keys[i], 0) == d.Get(r.value, 0) ==> r.value in d.keys[..i + 1]
  {
    var vals := d.Ordered();
    match ArgMax(vals)
    case None => None
    case Some(j) =>
      assert forall k :: k in d.keys ==> d.Get(k, 0) <= vals[j] by {
        forall k | k in d.keys
          ensures d.Get(k, 0) <= vals[j]
        {
          var i :| 0 <= i < |d.keys| && d.keys[i] == k;
          assert vals[i] == d.Get(k, 0);
        }
      }
      assert forall i :: 0 <= i < |d.keys| && vals[i] == vals[j] ==> d.keys[j] in d.keys[..i + 1] by {
        forall i | 0 <= i < |d.keys| && vals[i] == vals[j]
          ensures d.keys[j] in d.keys[..i + 1]
        {
          assert d.keys[..i + 1][j] == d.keys[j];
        }
      }
      Some(d.keys[j])
  }

  /** The sum of the values listed under `ks`. */
  function SumValues<K(==,!new)>(ks: seq<K>, m: map<K, int>): int
  {
    if |ks| == 0 then 0
    else SumValues(ks[..|ks| - 1], m) + (if ks[|ks| - 1] in m then m[ks[|ks| - 1]] else 0)
  }
}
