/** Sorted lists of strings: ordering, sorting, and removal by search. */
module SortedStrings {
  import opened Wrappers

  /** The order of Rust strings: by code point, a prefix first. */
  predicate AtMost(a: string, b: string) {
    a == "" || (b != "" && (a[0] < b[0] || (a[0] == b[0] && AtMost(a[1..], b[1..]))))
  }

  lemma {:induction false} AtMostIsTotal(a: string, b: string)
    ensures AtMost(a, b) || AtMost(b, a)
  {
    if a != "" && b != "" {
      AtMostIsTotal(a[1..], b[1..]);
    }
  }

  lemma AtMostIsAntisymmetric(a: string, b: string)
    requires AtMost(a, b) && AtMost(b, a)
    ensures a == b
  {
    if a != "" {
      AtMostIsAntisymmetric(a[1..], b[1..]);
    }
  }

  lemma AtMostIsTransitive(a: string, b: string, c: string)
    requires AtMost(a, b) && AtMost(b, c)
    ensures AtMost(a, c)
  {
    if a != "" && a[0] == b[0] == c[0] {
      AtMostIsTransitive(a[1..], b[1..], c[1..]);
    }
  }

  predicate Sorted(s: seq<string>) {
    forall i, j :: 0 <= i < j < |s| ==> AtMost(s[i], s[j])
  }

  predicate Distinct(s: seq<string>) {
    forall i, j :: 0 <= i < j < |s| ==> s[i] != s[j]
  }

  function Elements(s: seq<string>): set<string> {
    set x | x in s
  }

  lemma OneMore(s: seq<string>, x: string)
    ensures Distinct(s + [x]) <==> Distinct(s) && x !in s
    ensures Elements(s + [x]) == Elements(s) + {x}
  {
    if Distinct(s + [x]) {
      assert (s + [x])[|s|] == x && forall i :: 0 <= i < |s| ==> s[i] == (s + [x])[i];
    }
  }

  lemma DistinctAppend(a: seq<string>, b: seq<string>)
    requires Distinct(a) && Distinct(b) && forall x :: x in a ==> x !in b
    ensures Distinct(a + b)
    ensures Elements(a + b) == Elements(a) + Elements(b)
  {
    assert forall j :: 0 <= j < |b| ==> b[j] in b;
  }

  function Insert(x: string, s: seq<string>): seq<string> {
    if s == [] || AtMost(x, s[0]) then [x] + s else [s[0]] + Insert(x, s[1..])
  }

  function Sort(s: seq<string>): seq<string> {
    if s == [] then [] else Insert(s[0], Sort(s[1..]))
  }

  lemma {:induction false} InsertAdds(x: string, s: seq<string>)
    ensures multiset(Insert(x, s)) == multiset{x} + multiset(s)
  {
    if s != [] {
      assert s == [s[0]] + s[1..];
      if !AtMost(x, s[0]) {
        InsertAdds(x, s[1..]);
      }
    }
  }

  /** A first element at most every other keeps a list sorted. */
  lemma SortedCons(x: string, s: seq<string>)
    requires Sorted(s) && forall y :: y in multiset(s) ==> AtMost(x, y)
    ensures Sorted([x] + s)
  {
    assert forall j :: 0 <= j < |s| ==> s[j] in multiset(s);
  }

  lemma FirstIsLeast(s: seq<string>, y: string)
    requires Sorted(s) && s != [] && y in multiset(s)
    ensures AtMost(s[0], y)
  {
    AtMostIsTotal(s[0], s[0]);
  }

  lemma InsertSorts(x: string, s: seq<string>)
    requires Sorted(s)
    ensures Sorted(Insert(x, s))
  {
    if s == [] || AtMost(x, s[0]) {
      forall y | y in multiset(s)
        ensures AtMost(x, y)
      {
        FirstIsLeast(s, y);
        AtMostIsTransitive(x, s[0], y);
      }
      SortedCons(x, s);
    } else {
      InsertSorts(x, s[1..]);
      InsertAdds(x, s[1..]);
      AtMostIsTotal(x, s[0]);
      forall y | y in multiset(Insert(x, s[1..]))
        ensures AtMost(s[0], y)
      {
        if y != x {
          FirstIsLeast(s, y);
        }
      }
      SortedCons(s[0], Insert(x, s[1..]));
    }
  }

  /** Sorting gives the elements it was given, in order. */
  lemma SortSorts(s: seq<string>)
    ensures Sorted(Sort(s))
    ensures multiset(Sort(s)) == multiset(s)
    ensures |Sort(s)| == |s|
  {
    if s != [] {
      SortSorts(s[1..]);
      InsertSorts(s[0], Sort(s[1..]));
      InsertAdds(s[0], Sort(s[1..]));
      assert s == [s[0]] + s[1..];
    }
    assert |multiset(Sort(s))| == |Sort(s)| && |multiset(s)| == |s|;
  }

  lemma SortKeepsElements(s: seq<string>)
    ensures Elements(Sort(s)) == Elements(s)
  {
    SortSorts(s);
    assert forall x :: x in s <==> x in multiset(s);
    assert forall x :: x in Sort(s) <==> x in multiset(Sort(s));
  }

  /** There is one sorted list of given elements. */
  lemma {:induction false} SortedIsUnique(a: seq<string>, b: seq<string>)
    requires Sorted(a) && Sorted(b) && multiset(a) == multiset(b)
    ensures a == b
  {
    assert |a| == |multiset(a)| == |multiset(b)| == |b|;
    if a != [] {
      SameFirst(a, b);
      SameFirst(b, a);
      AtMostIsAntisymmetric(a[0], b[0]);
      AllButFirst(a);
      AllButFirst(b);
      Tails(a, b);
      SortedIsUnique(a[1..], b[1..]);
    }
  }

  lemma Tails(a: seq<string>, b: seq<string>)
    requires a != [] && b != [] && a[0] == b[0] && multiset(a) == multiset(b)
    ensures multiset(a[1..]) == multiset(b[1..])
    ensures a[1..] == b[1..] ==> a == b
  {
    AllButFirst(a);
    AllButFirst(b);
    assert a == [a[0]] + a[1..] && b == [b[0]] + b[1..];
  }

  lemma AllButFirst(s: seq<string>)
    requires s != []
    ensures multiset(s[1..]) == multiset(s) - multiset{s[0]}
    ensures Sorted(s) ==> Sorted(s[1..])
  {
    assert s == [s[0]] + s[1..];
  }

  lemma SameFirst(a: seq<string>, b: seq<string>)
    requires Sorted(a) && multiset(a) == multiset(b) && a != [] && b != []
    ensures AtMost(a[0], b[0])
  {
    assert b[0] in multiset(b);
    FirstIsLeast(a, b[0]);
  }

  /** Sorting forgets the order it was given. */
  lemma SortOfPermutation(a: seq<string>, b: seq<string>)
    requires multiset(a) == multiset(b)
    ensures Sort(a) == Sort(b)
  {
    SortSorts(a);
    SortSorts(b);
    SortedIsUnique(Sort(a), Sort(b));
  }

  /** A sorted list without duplicates is determined by its elements. */
  lemma SortedDistinctIsUnique(a: seq<string>, b: seq<string>)
    requires Sorted(a) && Sorted(b) && Distinct(a) && Distinct(b) && Elements(a) == Elements(b)
    ensures a == b
  {
    forall x
      ensures multiset(a)[x] == multiset(b)[x]
    {
      CountInDistinct(a, x);
      CountInDistinct(b, x);
      assert x in a <==> x in Elements(a);
      assert x in b <==> x in Elements(b);
    }
    assert multiset(a) == multiset(b);
    SortedIsUnique(a, b);
  }

  lemma CountInDistinct(s: seq<string>, x: string)
    requires Distinct(s)
    ensures multiset(s)[x] == if x in s then 1 else 0
  {
    if s != [] {
      assert s == [s[0]] + s[1..];
      CountInDistinct(s[1..], x);
    }
  }

  lemma Repeated(s: seq<string>, i: nat, j: nat)
    requires i < j < |s| && s[i] == s[j]
    ensures multiset(s)[s[i]] >= 2
  {
    assert s == s[..i] + [s[i]] + s[i + 1..j] + [s[j]] + s[j + 1..];
  }

  lemma DistinctPermutation(a: seq<string>, b: seq<string>)
    requires Distinct(a) && multiset(a) == multiset(b)
    ensures Distinct(b) && Elements(b) == Elements(a)
  {
    forall i, j | 0 <= i < j < |b|
      ensures b[i] != b[j]
    {
      if b[i] == b[j] {
        Repeated(b, i, j);
        CountInDistinct(a, b[i]);
      }
    }
    assert forall x :: x in a <==> x in multiset(a);
    assert forall x :: x in b <==> x in multiset(b);
  }

  /** Distinct elements of a list can all be taken out of it, */
  lemma RemovalOfDistinct(possible: seq<string>, selected: seq<string>)
    requires Distinct(selected) && Elements(selected) <= Elements(possible)
    ensures multiset(selected) <= multiset(possible)
  {
    forall x
      ensures multiset(selected)[x] <= multiset(possible)[x]
    {
      CountInDistinct(selected, x);
      if x in selected {
        assert x in Elements(possible);
      }
    }
  }

  /** and repeated ones cannot be, if it has each once. */
  lemma RemovalNeedsDistinct(possible: seq<string>, selected: seq<string>)
    requires Distinct(possible) && !Distinct(selected)
    ensures !(multiset(selected) <= multiset(possible))
  {
    var i, j :| 0 <= i < j < |selected| && selected[i] == selected[j];
    CountInDistinct(possible, selected[i]);
    Repeated(selected, i, j);
  }

  lemma DistinctDifference(possible: seq<string>, selected: seq<string>, rest: seq<string>)
    requires Distinct(possible)
    requires multiset(selected) <= multiset(possible) && multiset(rest) == multiset(possible) - multiset(selected)
    ensures Distinct(rest) && Elements(rest) == Elements(possible) - Elements(selected)
  {
    if !Distinct(rest) {
      RemovalNeedsDistinct(possible, rest);
    }
    forall x
      ensures x in rest <==> x in possible && x !in selected
    {
      CountInDistinct(possible, x);
      assert x in rest <==> multiset(rest)[x] > 0;
      assert x in selected <==> multiset(selected)[x] > 0;
    }
  }

  /** `dedup`: drops an element equal to the one after it. */
  function Dedup(s: seq<string>): seq<string> {
    if |s| < 2 then s
    else if s[0] == s[1] then Dedup(s[1..])
    else [s[0]] + Dedup(s[1..])
  }

  lemma {:induction false} DedupOfSorted(s: seq<string>)
    requires Sorted(s)
    ensures Sorted(Dedup(s)) && Distinct(Dedup(s)) && Elements(Dedup(s)) == Elements(s)
  {
    if |s| >= 2 {
      DedupOfSorted(s[1..]);
      assert s == [s[0]] + s[1..];
      var rest := Dedup(s[1..]);
      assert Elements(s) == {s[0]} + Elements(s[1..]);
      if s[0] == s[1] {
        assert s[0] in Elements(s[1..]);
      } else {
        FirstStaysApart(s, rest);
      }
    }
  }

  lemma FirstStaysApart(s: seq<string>, rest: seq<string>)
    requires |s| >= 2 && Sorted(s) && s[0] != s[1]
    requires Sorted(rest) && Distinct(rest) && Elements(rest) == Elements(s[1..])
    ensures Sorted([s[0]] + rest) && Distinct([s[0]] + rest) && Elements([s[0]] + rest) == {s[0]} + Elements(rest)
  {
    forall j | 0 <= j < |rest|
      ensures AtMost(s[0], rest[j]) && s[0] != rest[j]
    {
      assert rest[j] in Elements(rest);
      var k :| 1 <= k < |s| && s[k] == rest[j];
      if s[k] == s[0] {
        AtMostIsTotal(s[1], s[1]);
        AtMostIsAntisymmetric(s[0], s[1]);
      }
    }
  }

  lemma {:induction false} DistinctSize(s: seq<string>)
    requires Distinct(s)
    ensures |Elements(s)| == |s|
  {
    if s != [] {
      var n := |s| - 1;
      DistinctSize(s[..n]);
      OneMore(s[..n], s[n]);
      assert s == s[..n] + [s[n]];
    }
  }

  /** `binary_search` with its `unwrap`: a position of the element, which must be there. */
  function Find(s: seq<string>, x: string): (r: Option<nat>)
    requires Sorted(s)
    ensures r.Some? ==> r.value < |s| && s[r.value] == x
    ensures r.Some? <==> x in s
  {
    if s == [] then None
    else if s[0] == x then Some(0)
    else
      var r := Find(s[1..], x);
      if r.Some? then Some(r.value + 1) else None
  }

  /** Removes every selected string from a sorted list; `None` is a failed `unwrap`. */
  method RemoveEach(possible: seq<string>, selected: seq<string>) returns (r: Option<seq<string>>)
    requires Sorted(possible)
    ensures r.Some? <==> multiset(selected) <= multiset(possible)
    ensures r.Some? ==> Sorted(r.value) && multiset(r.value) == multiset(possible) - multiset(selected)
  {
    var remove := possible;
    for i := 0 to |selected|
      invariant Sorted(remove)
      invariant multiset(selected[..i]) <= multiset(possible)
      invariant multiset(remove) == multiset(possible) - multiset(selected[..i])
    {
      var pos := Find(remove, selected[i]);
      if pos.None? {
        NotEnough(possible, selected, i, remove);
        return None;
      }
      TakeOneMore(possible, selected, i, remove, pos.value);
      remove := Without(remove, pos.value);
    }
    assert selected[..|selected|] == selected;
    r := Some(remove);
  }

  function Without(s: seq<string>, i: nat): seq<string>
    requires i < |s|
  {
    s[..i] + s[i + 1..]
  }

  lemma WithoutOne(s: seq<string>, i: nat)
    requires i < |s|
    ensures multiset(s) == multiset(Without(s, i)) + multiset{s[i]}
    ensures Sorted(s) ==> Sorted(Without(s, i))
  {
    assert s == s[..i] + [s[i]] + s[i + 1..];
  }

  lemma TakeOneMore(possible: seq<string>, selected: seq<string>, i: nat, remove: seq<string>, pos: nat)
    requires i < |selected| && pos < |remove| && remove[pos] == selected[i] && Sorted(remove)
    requires multiset(selected[..i]) <= multiset(possible)
    requires multiset(remove) == multiset(possible) - multiset(selected[..i])
    ensures Sorted(Without(remove, pos))
    ensures multiset(selected[..i + 1]) <= multiset(possible)
    ensures multiset(Without(remove, pos)) == multiset(possible) - multiset(selected[..i + 1])
  {
    WithoutOne(remove, pos);
    assert selected[..i + 1] == selected[..i] + [selected[i]];
    OneFewer(multiset(possible), multiset(selected[..i]), multiset(remove), multiset(Without(remove, pos)),
             selected[i]);
  }

  lemma OneFewer(all: multiset<string>, gone: multiset<string>, left: multiset<string>,
                 after: multiset<string>, x: string)
    requires gone <= all && left == all - gone && left == after + multiset{x}
    ensures gone + multiset{x} <= all && after == all - (gone + multiset{x})
  {
    forall y
      ensures after[y] == (all - (gone + multiset{x}))[y] && (gone + multiset{x})[y] <= all[y]
    {
      assert left[y] == all[y] - gone[y] && left[y] == after[y] + multiset{x}[y];
    }
  }

  lemma NotEnough(possible: seq<string>, selected: seq<string>, i: nat, remove: seq<string>)
    requires i < |selected| && selected[i] !in remove
    requires multiset(remove) == multiset(possible) - multiset(selected[..i])
    ensures !(multiset(selected) <= multiset(possible))
  {
    var x := selected[i];
    assert x !in multiset(remove);
    assert selected == selected[..i] + [x] + selected[i + 1..];
    assert multiset(selected)[x] > multiset(selected[..i])[x] >= multiset(possible)[x];
  }
}
