/** Topological sorting by depth-first search, as in the library of the maintainer fixture. */
module TopologicalSort {

  function Filter<T>(p: T -> bool, xs: seq<T>): seq<T> {
    if xs == [] then [] else (if p(xs[0]) then [xs[0]] else []) + Filter(p, xs[1..])
  }

  datatype Parts<T> = Parts(right: seq<T>, wrong: seq<T>)

  function Partition<T>(p: T -> bool, xs: seq<T>): Parts<T> {
    if xs == [] then Parts([], [])
    else
      var t := Partition(p, xs[1..]);
      if p(xs[0]) then Parts([xs[0]] + t.right, t.wrong) else Parts(t.right, [xs[0]] + t.wrong)
  }

  function Reverse<T>(xs: seq<T>): (r: seq<T>)
    ensures |r| == |xs| && forall i :: 0 <= i < |xs| ==> r[i] == xs[|xs| - i - 1]
  {
    seq(|xs|, i requires 0 <= i < |xs| => xs[|xs| - i - 1])
  }

  datatype Found<T> =
    | Minimal(minimal: T, visited: seq<T>, rest: seq<T>)
    | Cycle(cycle: T, loops: seq<T>, visited: seq<T>, rest: seq<T>)

  datatype Sorting<T> = Result(result: seq<T>) | Loop(cycle: seq<T>, loops: seq<T>)

  lemma {:induction false} PartitionSizes<T>(p: T -> bool, xs: seq<T>)
    ensures |Partition(p, xs).right| + |Partition(p, xs).wrong| == |xs|
  {
    if xs != [] {
      PartitionSizes(p, xs[1..]);
    }
  }

  function IsBefore<T>(before: (T, T) -> bool, us: T): T -> bool {
    x => before(x, us)
  }

  function Dfs<T>(stopOnCycles: bool, before: (T, T) -> bool, us: T, visited: seq<T>, rest: seq<T>): (r: Found<T>)
    ensures |r.visited| + |r.rest| == |visited| + |rest|
    decreases |rest|
  {
    var c := Filter(IsBefore(before, us), visited);
    var b := Partition(IsBefore(before, us), rest);
    PartitionSizes(IsBefore(before, us), rest);
    if stopOnCycles && |c| > 0 then Cycle(us, c, visited, rest)
    else if |b.right| == 0 then Minimal(us, visited, rest)
    else Dfs(stopOnCycles, before, b.right[0], [us] + visited, b.right[1..] + b.wrong)
  }

  function ListDfs<T>(stopOnCycles: bool, before: (T, T) -> bool, list: seq<T>): (r: Found<T>)
    requires list != []
    ensures |r.visited| + |r.rest| + 1 == |list|
  {
    Dfs(stopOnCycles, before, list[0], [], list[1..])
  }

  function Toposort<T>(before: (T, T) -> bool, list: seq<T>): Sorting<T>
    decreases |list|
  {
    if |list| < 2 then Result(list)
    else
      var dfs := ListDfs(true, before, list);
      if dfs.Cycle? then Loop(Reverse([dfs.cycle] + dfs.visited), dfs.loops)
      else
        var rest := Toposort(before, dfs.visited + dfs.rest);
        if rest.Loop? then rest else Result([dfs.minimal] + rest.result)
  }

  // What the search finds.

  lemma {:induction false} FilterIsWhatHolds<T>(p: T -> bool, xs: seq<T>)
    ensures forall x :: x in Filter(p, xs) <==> x in xs && p(x)
  {
    if xs != [] {
      FilterIsWhatHolds(p, xs[1..]);
    }
  }

  lemma {:induction false} PartitionHolds<T>(p: T -> bool, xs: seq<T>)
    ensures var parts := Partition(p, xs);
            && multiset(parts.right) + multiset(parts.wrong) == multiset(xs)
            && (forall x :: x in xs <==> x in parts.right || x in parts.wrong)
            && (forall x :: x in parts.right ==> p(x))
            && (forall x :: x in parts.wrong ==> !p(x))
  {
    if xs != [] {
      assert xs == [xs[0]] + xs[1..];
      PartitionHolds(p, xs[1..]);
    }
  }

  /** Each element is before the next one. */
  ghost predicate Path<T(!new)>(before: (T, T) -> bool, path: seq<T>) {
    forall i :: 1 <= i < |path| ==> before(path[i - 1], path[i])
  }

  /** The searched path leads back from where the search stands; nothing was lost. */
  ghost predicate Searching<T(!new)>(before: (T, T) -> bool, list: seq<T>, us: T, visited: seq<T>, rest: seq<T>) {
    && Path(before, [us] + visited)
    && multiset{us} + multiset(visited) + multiset(rest) == multiset(list)
  }

  ghost predicate FoundIn<T(!new)>(stopOnCycles: bool, before: (T, T) -> bool, list: seq<T>, r: Found<T>) {
    match r
    case Minimal(us, visited, rest) =>
      && Searching(before, list, us, visited, rest)
      && (forall x :: x in rest ==> !before(x, us))
      && (stopOnCycles ==> forall x :: x in visited ==> !before(x, us))
    case Cycle(us, loops, visited, rest) =>
      && Searching(before, list, us, visited, rest)
      && stopOnCycles && loops != []
      && forall x :: x in loops <==> x in visited && before(x, us)
  }

  lemma {:induction false} DfsFinds<T(!new)>(stopOnCycles: bool, before: (T, T) -> bool, list: seq<T>,
                                             us: T, visited: seq<T>, rest: seq<T>)
    requires Searching(before, list, us, visited, rest)
    ensures FoundIn(stopOnCycles, before, list, Dfs(stopOnCycles, before, us, visited, rest))
    decreases |rest|
  {
    LookBack(before, us, visited);
    LookAhead(before, us, rest);
    var c, b := Filter(IsBefore(before, us), visited), Partition(IsBefore(before, us), rest);
    if stopOnCycles && |c| > 0 {
      assert c[0] in c;
    } else if |b.right| > 0 {
      StepBack(before, list, us, visited, rest, b.right, b.wrong);
      DfsFinds(stopOnCycles, before, list, b.right[0], [us] + visited, b.right[1..] + b.wrong);
    }
  }

  lemma LookBack<T(!new)>(before: (T, T) -> bool, us: T, visited: seq<T>)
    ensures var loops := Filter(IsBefore(before, us), visited);
            && (forall x :: x in loops <==> x in visited && before(x, us))
            && (|loops| == 0 ==> forall x :: x in visited ==> !before(x, us))
  {
    FilterIsWhatHolds(IsBefore(before, us), visited);
  }

  lemma LookAhead<T(!new)>(before: (T, T) -> bool, us: T, rest: seq<T>)
    ensures var b := Partition(IsBefore(before, us), rest);
            && |b.right| + |b.wrong| == |rest|
            && multiset(b.right) + multiset(b.wrong) == multiset(rest)
            && (|b.right| == 0 ==> forall x :: x in rest ==> !before(x, us))
            && (|b.right| > 0 ==> before(b.right[0], us))
  {
    PartitionHolds(IsBefore(before, us), rest);
    PartitionSizes(IsBefore(before, us), rest);
    var right := Partition(IsBefore(before, us), rest).right;
    assert |right| > 0 ==> right[0] in right;
  }

  lemma StepBack<T(!new)>(before: (T, T) -> bool, list: seq<T>, us: T, visited: seq<T>, rest: seq<T>,
                          right: seq<T>, wrong: seq<T>)
    requires Searching(before, list, us, visited, rest)
    requires right != [] && before(right[0], us) && multiset(right) + multiset(wrong) == multiset(rest)
    ensures Searching(before, list, right[0], [us] + visited, right[1..] + wrong)
  {
    assert right == [right[0]] + right[1..];
    var path := [right[0]] + ([us] + visited);
    assert forall i :: 1 <= i < |path| ==> path[i] == ([us] + visited)[i - 1];
  }

  // What sorting gives.

  /** No later element is before an earlier one. */
  ghost predicate Ordered<T(!new)>(before: (T, T) -> bool, s: seq<T>) {
    forall i, j :: 0 <= i < j < |s| ==> !before(s[j], s[i])
  }

  /** A chain of elements of the list, each after its successor, closed by every looping element. */
  ghost predicate ClosedChain<T(!new)>(before: (T, T) -> bool, list: seq<T>, cycle: seq<T>, loops: seq<T>) {
    && cycle != [] && loops != []
    && multiset(cycle) <= multiset(list)
    && (forall i :: 1 <= i < |cycle| ==> before(cycle[i], cycle[i - 1]))
    && (forall x :: x in loops <==> x in cycle[..|cycle| - 1] && before(x, cycle[|cycle| - 1]))
  }

  ghost predicate SortsOrLoops<T(!new)>(before: (T, T) -> bool, list: seq<T>, r: Sorting<T>) {
    match r
    case Result(result) => multiset(result) == multiset(list) && Ordered(before, result)
    case Loop(cycle, loops) => ClosedChain(before, list, cycle, loops)
  }

  /** Sorting gives an ordered permutation of the list, or a genuine chain that closes. */
  lemma {:induction false} ToposortSortsOrLoops<T(!new)>(before: (T, T) -> bool, list: seq<T>)
    ensures SortsOrLoops(before, list, Toposort(before, list))
    decreases |list|
  {
    if |list| >= 2 {
      var dfs := ListDfs(true, before, list);
      ListDfsFinds(true, before, list);
      if dfs.Cycle? {
        CycleCloses(before, list, dfs);
      } else {
        ToposortSortsOrLoops(before, dfs.visited + dfs.rest);
        OneOut(before, list, dfs, Toposort(before, dfs.visited + dfs.rest));
      }
    }
  }

  lemma ListDfsFinds<T(!new)>(stopOnCycles: bool, before: (T, T) -> bool, list: seq<T>)
    requires list != []
    ensures FoundIn(stopOnCycles, before, list, ListDfs(stopOnCycles, before, list))
  {
    assert list == [list[0]] + list[1..];
    DfsFinds(stopOnCycles, before, list, list[0], [], list[1..]);
  }

  lemma OneOut<T(!new)>(before: (T, T) -> bool, list: seq<T>, dfs: Found<T>, rest: Sorting<T>)
    requires dfs.Minimal? && FoundIn(true, before, list, dfs)
    requires SortsOrLoops(before, dfs.visited + dfs.rest, rest)
    ensures SortsOrLoops(before, list, if rest.Loop? then rest else Result([dfs.minimal] + rest.result))
  {
    var others := dfs.visited + dfs.rest;
    assert multiset(others) <= multiset(list);
    if rest.Result? {
      assert forall x :: x in others ==> x in dfs.visited || x in dfs.rest;
      MinimalFirst(before, dfs.minimal, others, rest.result);
    }
  }

  lemma CycleCloses<T(!new)>(before: (T, T) -> bool, list: seq<T>, dfs: Found<T>)
    requires dfs.Cycle? && FoundIn(true, before, list, dfs)
    ensures ClosedChain(before, list, Reverse([dfs.cycle] + dfs.visited), dfs.loops)
  {
    var path := [dfs.cycle] + dfs.visited;
    var cycle := Reverse(path);
    var n := |cycle| - 1;
    ReverseIsPermutation(path);
    forall i | 1 <= i < |cycle|
      ensures before(cycle[i], cycle[i - 1])
    {
      assert before(path[|path| - i - 1], path[|path| - i]);
    }
    assert cycle[..n] == Reverse(dfs.visited);
    InReverse(dfs.visited);
  }

  lemma InReverse<T>(xs: seq<T>)
    ensures forall x :: x in Reverse(xs) <==> x in xs
  {
    forall x
      ensures x in Reverse(xs) <==> x in xs
    {
      if x in xs {
        var i :| 0 <= i < |xs| && xs[i] == x;
        assert Reverse(xs)[|xs| - i - 1] == x;
      }
    }
  }

  lemma {:induction false} ReverseIsPermutation<T>(xs: seq<T>)
    ensures multiset(Reverse(xs)) == multiset(xs)
  {
    if xs != [] {
      ReverseIsPermutation(xs[1..]);
      assert Reverse(xs) == Reverse(xs[1..]) + [xs[0]];
      assert xs == [xs[0]] + xs[1..];
    }
  }

  lemma MinimalFirst<T(!new)>(before: (T, T) -> bool, minimal: T, others: seq<T>, result: seq<T>)
    requires forall x :: x in others ==> !before(x, minimal)
    requires multiset(result) == multiset(others) && Ordered(before, result)
    ensures Ordered(before, [minimal] + result)
    ensures multiset([minimal] + result) == multiset{minimal} + multiset(others)
  {
    forall j | 0 <= j < |result|
      ensures !before(result[j], minimal)
    {
      assert result[j] in multiset(others);
    }
  }

  // A list sorts exactly when it has no cycle.

  /** Elements at two or more places of the list, each before the next and the last before the first. */
  ghost predicate CycleOf<T(!new)>(before: (T, T) -> bool, list: seq<T>, c: seq<T>) {
    && |c| >= 2 && multiset(c) <= multiset(list)
    && Path(before, c) && before(c[|c| - 1], c[0])
  }

  lemma ChainHasCycle<T(!new)>(before: (T, T) -> bool, list: seq<T>, cycle: seq<T>, loops: seq<T>)
    requires ClosedChain(before, list, cycle, loops)
    ensures exists c :: CycleOf(before, list, c)
  {
    var n := |cycle| - 1;
    var x := loops[0];
    assert x in loops;
    var k :| 0 <= k < n && cycle[k] == x;
    TailChain(before, cycle, k);
    ChainClosesToCycle(before, list, cycle[k..]);
  }

  lemma ChainClosesToCycle<T(!new)>(before: (T, T) -> bool, list: seq<T>, chain: seq<T>)
    requires |chain| >= 2 && multiset(chain) <= multiset(list)
    requires forall i :: 1 <= i < |chain| ==> before(chain[i], chain[i - 1])
    requires before(chain[0], chain[|chain| - 1])
    ensures CycleOf(before, list, Reverse(chain))
  {
    ReversedChainIsPath(before, chain);
    ReverseIsPermutation(chain);
  }

  lemma TailChain<T(!new)>(before: (T, T) -> bool, chain: seq<T>, k: nat)
    requires forall i :: 1 <= i < |chain| ==> before(chain[i], chain[i - 1])
    requires k <= |chain|
    ensures forall i :: 1 <= i < |chain[k..]| ==> before(chain[k..][i], chain[k..][i - 1])
    ensures multiset(chain[k..]) <= multiset(chain)
  {
    assert chain == chain[..k] + chain[k..];
    forall i | 1 <= i < |chain[k..]|
      ensures before(chain[k..][i], chain[k..][i - 1])
    {
      assert before(chain[k + i], chain[k + i - 1]);
    }
  }

  lemma ReversedChainIsPath<T(!new)>(before: (T, T) -> bool, chain: seq<T>)
    requires forall i :: 1 <= i < |chain| ==> before(chain[i], chain[i - 1])
    ensures Path(before, Reverse(chain))
  {
    forall i | 1 <= i < |chain|
      ensures before(Reverse(chain)[i - 1], Reverse(chain)[i])
    {
      assert before(chain[|chain| - i], chain[|chain| - i - 1]);
    }
  }

  /** The element before a cycle's element is at another place of the list. */
  lemma Predecessor<T(!new)>(before: (T, T) -> bool, list: seq<T>, c: seq<T>, i: nat) returns (x: T)
    requires CycleOf(before, list, c) && i < |c|
    ensures before(x, c[i]) && x in multiset(list) - multiset{c[i]}
  {
    var k := if i == 0 then |c| - 1 else i - 1;
    x := c[k];
    assert before(x, c[i]);
    TwoPlaces(c, i, k);
  }

  lemma TwoPlaces<T>(c: seq<T>, i: nat, k: nat)
    requires i < |c| && k < |c| && i != k
    ensures multiset{c[i]} + multiset{c[k]} <= multiset(c)
  {
    var lo, hi := if i < k then i else k, if i < k then k else i;
    assert c == c[..lo] + [c[lo]] + c[lo + 1..hi] + [c[hi]] + c[hi + 1..];
  }

  lemma {:induction false} CycleIsNotOrdered<T(!new)>(before: (T, T) -> bool, s: seq<T>, c: seq<T>)
    requires CycleOf(before, s, c)
    ensures !Ordered(before, s)
  {
    assert c[0] in multiset(s);
    assert s == [s[0]] + s[1..];
    if s[0] in c {
      var i :| 0 <= i < |c| && c[i] == s[0];
      var x := Predecessor(before, s, c, i);
      assert x in multiset(s[1..]);
      var j :| 1 <= j < |s| && s[j] == x;
      assert before(s[j], s[0]);
    } else {
      assert CycleOf(before, s[1..], c);
      CycleIsNotOrdered(before, s[1..], c);
      var i, j :| 0 <= i < j < |s[1..]| && before(s[1..][j], s[1..][i]);
      assert before(s[j + 1], s[i + 1]);
    }
  }

  /** Sorting succeeds exactly when no elements at different places form a cycle. */
  lemma SortsIffAcyclic<T(!new)>(before: (T, T) -> bool, list: seq<T>)
    ensures Toposort(before, list).Result? <==> !exists c :: CycleOf(before, list, c)
  {
    ToposortSortsOrLoops(before, list);
    match Toposort(before, list)
    case Loop(cycle, loops) => ChainHasCycle(before, list, cycle, loops);
    case Result(result) =>
      forall c | CycleOf(before, list, c)
        ensures false
      {
        CycleIsNotOrdered(before, result, c);
      }
  }
}
