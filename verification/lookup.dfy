/** Lookups in a dictionary built by a comprehension `{key(x): x for x in s}`:
    a later entry with the same key overwrites an earlier one, so the entry
    found is the last one with that key. */
module Lookup {
  import opened Wrappers

  /** The position of the entry the comprehension keeps for `k`: absent
      exactly when no entry has key `k`, and otherwise an entry with key `k`
      that no later entry shares its key with. */
  function LastWithKey<T, K(==)>(s: seq<T>, key: T -> K, k: K): (found: Option<nat>)
    ensures found.None? <==> forall j :: 0 <= j < |s| ==> key(s[j]) != k
    ensures found.Some? ==> found.value < |s| && key(s[found.value]) == k
    ensures found.Some? ==> forall j :: found.value < j < |s| ==> key(s[j]) != k
  {
    if s == [] then None
    else if key(s[|s| - 1]) == k then Some(|s| - 1)
    else
      var prefix := LastWithKey(s[..|s| - 1], key, k);
      assert forall j :: 0 <= j < |s| - 1 ==> s[..|s| - 1][j] == s[j];
      prefix
  }

  /** The lookup sees only the keys: two sequences whose entries have the
      same keys, position by position, resolve every key to the same
      position. */
  lemma {:induction false} SameKeysSamePosition<T, U, K>(a: seq<T>, keyA: T -> K, b: seq<U>, keyB: U -> K, k: K)
    requires |a| == |b| && forall j :: 0 <= j < |a| ==> keyA(a[j]) == keyB(b[j])
    ensures LastWithKey(a, keyA, k) == LastWithKey(b, keyB, k)
    decreases |a|
  {
    if a != [] && keyA(a[|a| - 1]) != k {
      assert forall j :: 0 <= j < |a| - 1 ==> a[..|a| - 1][j] == a[j] && b[..|b| - 1][j] == b[j];
      SameKeysSamePosition(a[..|a| - 1], keyA, b[..|b| - 1], keyB, k);
    }
  }
}
