/** Ordered dictionaries as the game reads them from its JSON data, and the
    resource ledger ("stock") that the engine mutates. */
module Dicts {

  datatype Option<+T> = None | Some(value: T)

  /** A JSON object in document order: its key/value pairs. */
  type Dict<V> = seq<(string, V)>

  /** Resource id to a real number: rates per second, build costs. */
  type Rates = Dict<real>

  /** The resource ledger: resource id to current stock. */
  type Stock = map<string, real>

  predicate DistinctKeys<V>(d: Dict<V>) {
    forall i, j :: 0 <= i < j < |d| ==> d[i].0 != d[j].0
  }

  predicate HasKey<V>(d: Dict<V>, k: string) {
    exists i :: 0 <= i < |d| && d[i].0 == k
  }

  /** `d[k]`/`d.get(k)`; a duplicated key keeps its last value, as a JSON
      decoder does. */
  function Lookup<V>(d: Dict<V>, k: string): (r: Option<V>)
    ensures r.Some? <==> HasKey(d, k)
    ensures r.Some? ==> exists i :: 0 <= i < |d| && d[i] == (k, r.value)
    decreases |d|
  {
    if d == [] then None
    else if d[|d| - 1].0 == k then Some(d[|d| - 1].1)
    else
      assert forall i :: 0 <= i < |d| - 1 ==> d[..|d| - 1][i] == d[i];
      Lookup(d[..|d| - 1], k)
  }

  /** How a dictionary without duplicates answers about a key, split on its
      last entry: that entry is the key's only one, or the key is looked up
      in the entries before it. */
  lemma LookupLast<V>(d: Dict<V>, k: string)
    requires DistinctKeys(d) && d != []
    ensures DistinctKeys(d[..|d| - 1])
    ensures HasKey(d, k) <==> HasKey(d[..|d| - 1], k) || d[|d| - 1].0 == k
    ensures d[|d| - 1].0 == k ==> !HasKey(d[..|d| - 1], k) && Lookup(d, k) == Some(d[|d| - 1].1)
    ensures d[|d| - 1].0 != k ==> Lookup(d, k) == Lookup(d[..|d| - 1], k)
  {
    var p := d[..|d| - 1];
    assert forall i :: 0 <= i < |p| ==> p[i] == d[i];
    if HasKey(d, k) && d[|d| - 1].0 != k {
      var i :| 0 <= i < |d| && d[i].0 == k;
      assert p[i].0 == k;
    }
  }

  /** `resources.get(r, 0.0)`: an unknown resource counts as zero stock. */
  function Amount(s: Stock, r: string): (a: real)
    ensures NonNegative(s) ==> a >= 0.0
  {
    if r in s then s[r] else 0.0
  }

  function Max(a: real, b: real): real {
    if a >= b then a else b
  }

  /** The ledger invariant the game intends: no stock is negative. */
  predicate NonNegative(s: Stock) {
    forall r :: r in s ==> s[r] >= 0.0
  }
}
