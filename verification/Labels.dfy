/** The labels of an issue, and bringing them in line with a tagger's choice. */
module Labels {
  import opened SortedStrings

  /** The labels of `all` that `labels` has (or lacks), in the order of `all`. */
  function Present(all: seq<string>, labels: set<string>, want: bool): (r: seq<string>)
    ensures forall x :: x in r <==> x in all && (x in labels) == want
  {
    if all == [] then []
    else
      var n := |all| - 1;
      Present(all[..n], labels, want) + if (all[n] in labels) == want then [all[n]] else []
  }

  lemma PresentKeepsDistinct(all: seq<string>, labels: set<string>, want: bool)
    requires Distinct(all)
    ensures Distinct(Present(all, labels, want))
  {
    if all != [] {
      var n := |all| - 1;
      PresentKeepsDistinct(all[..n], labels, want);
      assert forall x :: x in all[..n] ==> x != all[n];
    }
  }

  /** What is left on the issue: a label to add that is also to be removed goes only if it was there before. */
  function Updated(labels: set<string>, add: set<string>, remove: set<string>): set<string> {
    (labels + add) - (remove * labels)
  }

  /** Two label sets that agree outside the labels somebody manages. */
  ghost predicate SameOutside(managed: set<string>, before: set<string>, after: set<string>) {
    after - managed == before - managed
  }

  lemma OutsideMore(some: set<string>, managed: set<string>, before: set<string>, after: set<string>)
    requires some <= managed && SameOutside(some, before, after)
    ensures SameOutside(managed, before, after)
  {
    forall x
      ensures x in after - managed <==> x in before - managed
    {
      assert x in after - some <==> x in before - some;
    }
  }

  /** The issue at the host; `works` tells which of the requests about it succeed. */
  class Issue {
    const works: nat -> bool
    var calls: nat
    var labels: set<string>

    constructor (works: nat -> bool, labels: set<string>)
      ensures this.works == works && calls == 0 && this.labels == labels
    {
      this.works, calls, this.labels := works, 0, labels;
    }

    /** No request about the issue fails. */
    ghost predicate Reliable() {
      forall k: nat :: works(k)
    }

    method Call() returns (ok: bool)
      modifies this`calls
      ensures ok <==> works(old(calls))
      ensures calls == old(calls) + 1
    {
      ok := works(calls);
      calls := calls + 1;
    }

    method Add(names: seq<string>) returns (ok: bool)
      modifies this
      ensures Reliable() ==> ok
      ensures labels == if ok then old(labels) + Elements(names) else old(labels)
    {
      ok := Call();
      if ok {
        labels := labels + Elements(names);
      }
    }

    /** Removing a label the issue does not carry is an error. */
    method Remove(name: string) returns (ok: bool)
      modifies this
      ensures ok ==> name in old(labels)
      ensures Reliable() && name in old(labels) ==> ok
      ensures labels == if ok then old(labels) - {name} else old(labels)
    {
      ok := Call();
      if ok {
        ok := name in labels;
        labels := labels - {name};
      }
    }

    /** Fails half-way when a request fails, as one must when a label of the issue is listed twice for removal. */
    method UpdateLabels(add: seq<string>, remove: seq<string>) returns (ok: bool)
      modifies this
      ensures Reliable() ==> (ok <==> Distinct(Present(remove, old(labels), true)))
      ensures ok ==> labels == Updated(old(labels), Elements(add), Elements(remove))
      ensures ok ==> Distinct(Present(remove, old(labels), true))
      ensures SameOutside(Elements(add) + Elements(remove), old(labels), labels)
    {
      ok := Call();
      if !ok {
        return;
      }
      var toAdd, toRemove := Present(add, labels, false), Present(remove, labels, true);
      ok := Add(toAdd);
      if !ok {
        return;
      }
      ghost var before := labels;
      for i := 0 to |toRemove|
        invariant labels == before - Elements(toRemove[..i])
        invariant Distinct(toRemove[..i])
      {
        assert toRemove[..i + 1] == toRemove[..i] + [toRemove[i]];
        OneMore(toRemove[..i], toRemove[i]);
        ok := Remove(toRemove[i]);
        if !ok {
          return;
        }
      }
      assert toRemove[..|toRemove|] == toRemove;
      ok := true;
    }
  }

  /** When adding what was chosen and removing every other possible label, exactly the choice is left of them. */
  lemma UpdateSelects(labels: set<string>, possible: set<string>, selected: set<string>)
    requires selected <= possible
    ensures Updated(labels, selected, possible - selected) == (labels - possible) + selected
  {
  }

  /** Updating twice is updating once, whatever the labels, exactly when no label is both added and removed. */
  lemma UpdateSettlesIff(add: set<string>, remove: set<string>)
    ensures (forall labels :: Updated(Updated(labels, add, remove), add, remove) == Updated(labels, add, remove))
       <==> add !! remove
  {
    if !(add !! remove) {
      var x :| x in add && x in remove;
      assert x in Updated({}, add, remove) && x !in Updated(Updated({}, add, remove), add, remove);
    }
  }
}
