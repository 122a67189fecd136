/** Constant lookup tables written as ordered lists of (key, value) entries,
    as JavaScript object literals and `switch` statements hold them, and the
    first-match search of `Array.prototype.find`. */
module Tables {
  import opened Wrappers

  predicate DistinctKeys<K(==), V>(t: seq<(K, V)>)
  {
    forall i, j :: 0 <= i < j < |t| ==> t[i].0 != t[j].0
  }

  /** The value of the first entry with key `k`, if any. */
  function Lookup<K(==), V>(t: seq<(K, V)>, k: K): (r: Option<V>)
    ensures r.None? <==> forall i :: 0 <= i < |t| ==> t[i].0 != k
    ensures r.Some? ==> exists i :: 0 <= i < |t| && t[i] == (k, r.value)
    decreases |t|
  {
    if |t| == 0 then None
    else if t[0].0 == k then Some(t[0].1)
    else
      var r := Lookup(t[1..], k);
      assert forall i :: 1 <= i < |t| ==> t[1..][i - 1] == t[i];
      r
  }

  /** With distinct keys every entry is found under its own key. */
  lemma {:induction false} LookupEntry<K, V>(t: seq<(K, V)>, i: nat)
    requires DistinctKeys(t) && i < |t|
    ensures Lookup(t, t[i].0) == Some(t[i].1)
    decreases i
  {
    if i > 0 {
      assert t[0].0 != t[i].0;
      var u := t[1..];
      assert DistinctKeys(u) by {
        forall a, b | 0 <= a < b < |u| ensures u[a].0 != u[b].0 {
          assert u[a] == t[a + 1] && u[b] == t[b + 1];
        }
      }
      LookupEntry(u, i - 1);
      assert u[i - 1] == t[i];
    }
  }

  /** The index of the first element satisfying `p`, if any. */
  function FindIndex<T>(s: seq<T>, p: T -> bool): (r: Option<nat>)
    ensures r.None? <==> forall i :: 0 <= i < |s| ==> !p(s[i])
    ensures r.Some? ==> r.value < |s| && p(s[r.value])
    ensures r.Some? ==> forall j :: 0 <= j < r.value ==> !p(s[j])
    decreases |s|
  {
    if |s| == 0 then None
    else if p(s[0]) then Some(0)
    else
      var r := FindIndex(s[1..], p);
      assert forall i :: 1 <= i < |s| ==> s[1..][i - 1] == s[i];
      if r.Some? then Some(r.value + 1) else None
  }
}
