/** Two sequences merged into one, each keeping its own order. */
module Interleavings {

  ghost predicate Interleaving<T>(a: seq<T>, b: seq<T>, merged: seq<T>)
    decreases |merged|
  {
    if merged == [] then a == [] && b == []
    else
      var n := |merged| - 1;
      || (a != [] && a[|a| - 1] == merged[n] && Interleaving(a[..|a| - 1], b, merged[..n]))
      || (b != [] && b[|b| - 1] == merged[n] && Interleaving(a, b[..|b| - 1], merged[..n]))
  }

  lemma AddLeft<T>(a: seq<T>, b: seq<T>, merged: seq<T>, x: T)
    requires Interleaving(a, b, merged)
    ensures Interleaving(a + [x], b, merged + [x])
  {
    assert (a + [x])[..|a|] == a && (merged + [x])[..|merged|] == merged;
  }

  lemma AddRight<T>(a: seq<T>, b: seq<T>, merged: seq<T>, x: T)
    requires Interleaving(a, b, merged)
    ensures Interleaving(a, b + [x], merged + [x])
  {
    assert (b + [x])[..|b|] == b && (merged + [x])[..|merged|] == merged;
  }

  lemma {:induction false} InterleavingIsPermutation<T>(a: seq<T>, b: seq<T>, merged: seq<T>)
    requires Interleaving(a, b, merged)
    ensures |merged| == |a| + |b|
    ensures multiset(merged) == multiset(a) + multiset(b)
    decreases |merged|
  {
    if merged != [] {
      var n := |merged| - 1;
      assert merged == merged[..n] + [merged[n]];
      if a != [] && a[|a| - 1] == merged[n] && Interleaving(a[..|a| - 1], b, merged[..n]) {
        assert a == a[..|a| - 1] + [merged[n]];
        InterleavingIsPermutation(a[..|a| - 1], b, merged[..n]);
      } else {
        assert b == b[..|b| - 1] + [merged[n]];
        InterleavingIsPermutation(a, b[..|b| - 1], merged[..n]);
      }
    }
  }
}
