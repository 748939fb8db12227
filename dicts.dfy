/** Python dictionaries built from two parallel lists, as both services do:
    `{keys[i]: values[i] for i in range(len(keys))}` in interpret_predictions and
    `{name: value for name, value in zip(names, values)}` in cluster_analysis, and the
    lookup with a default of 0 that both services read them with. */
module Dicts {

  /** `data.get(name, 0)`, and the value a name gets when a frame is reindexed with
      `fill_value=0`. */
  function GetOrZero(data: map<string, real>, name: string): real
  {
    if name in data then data[name] else 0.0
  }

  function Min(a: nat, b: nat): nat
  {
    if a <= b then a else b
  }

  /** True when no later paired position repeats the key at position i, so that
      position's value is the one the dictionary keeps. */
  predicate LastOccurrence<K(==)>(keys: seq<K>, n: nat, i: nat)
    requires i < n <= |keys|
  {
    forall j :: i < j < n ==> keys[j] != keys[i]
  }

  /** The dictionary built by inserting keys[i] := values[i] for i = 0, 1, ... up to the
      shorter list's length (zip stops there); a key that occurs twice keeps its last value. */
  function ZipToMap<K(==), V>(keys: seq<K>, values: seq<V>): (m: map<K, V>)
    ensures m.Keys == set i | 0 <= i < Min(|keys|, |values|) :: keys[i]
    ensures forall i :: 0 <= i < Min(|keys|, |values|) && LastOccurrence(keys, Min(|keys|, |values|), i)
              ==> m[keys[i]] == values[i]
    decreases |keys|
  {
    var n := Min(|keys|, |values|);
    if n == 0 then map[]
    else
      var ks, vs := keys[..n - 1], values[..n - 1];
      var prefix := ZipToMap(ks, vs);
      var m := prefix[keys[n - 1] := values[n - 1]];
      assert Min(|ks|, |vs|) == n - 1;
      assert m.Keys == set i | 0 <= i < n :: keys[i] by {
        forall k | k in m.Keys ensures exists i :: 0 <= i < n && keys[i] == k {
          if k != keys[n - 1] {
            var i :| 0 <= i < n - 1 && ks[i] == k;
            assert keys[i] == k;
          }
        }
        forall i | 0 <= i < n ensures keys[i] in m.Keys {
          if i < n - 1 { assert ks[i] == keys[i]; }
        }
      }
      assert forall i :: 0 <= i < n && LastOccurrence(keys, n, i) ==> m[keys[i]] == values[i] by {
        forall i | 0 <= i < n && LastOccurrence(keys, n, i) ensures m[keys[i]] == values[i] {
          if i < n - 1 {
            assert keys[n - 1] != keys[i];
            assert LastOccurrence(ks, n - 1, i) by {
              forall j | i < j < n - 1 ensures ks[j] != ks[i] { assert keys[j] != keys[i]; }
            }
            assert prefix[ks[i]] == vs[i];
          }
        }
      }
      m
  }

  /** With no repeated key among the paired positions, every position's value survives. */
  lemma ZipToMapDistinct<K, V>(keys: seq<K>, values: seq<V>, i: nat)
    requires i < Min(|keys|, |values|)
    requires forall a, b :: 0 <= a < b < Min(|keys|, |values|) ==> keys[a] != keys[b]
    ensures keys[i] in ZipToMap(keys, values) && ZipToMap(keys, values)[keys[i]] == values[i]
  {
  }
}
