/** Splitting a job's attributes into those that instantiate and those that do not. */
module Partitioning {
  import opened Wrappers
  import opened Interleavings

  type Attempts = seq<Result<string, (string, seq<string>)>>

  function Oks<A, B>(results: seq<Result<A, B>>): seq<A> {
    if results == [] then []
    else
      var n := |results| - 1;
      Oks(results[..n]) + if results[n].Success? then [results[n].value] else []
  }

  function Errs<A, B>(results: seq<Result<A, B>>): seq<B> {
    if results == [] then []
    else
      var n := |results| - 1;
      Errs(results[..n]) + if results[n].Failure? then [results[n].error] else []
  }

  /** Generic over what the results hold, as in the program. */
  method PartitionResult<A, B>(results: seq<Result<A, B>>) returns (ok: seq<A>, err: seq<B>)
    ensures ok == Oks(results) && err == Errs(results)
  {
    ok, err := [], [];
    for i := 0 to |results|
      invariant ok == Oks(results[..i]) && err == Errs(results[..i])
    {
      assert results[..i + 1][..i] == results[..i];
      match results[i]
      case Success(x) => ok := ok + [x];
      case Failure(x) => err := err + [x];
    }
    assert results[..|results|] == results;
  }

  /** `outcome(i)` is the error log of instantiating the i-th attribute, if it fails. */
  function Instantiations(attrs: seq<string>, outcome: nat -> Option<seq<string>>): Attempts {
    seq(|attrs|, i requires 0 <= i < |attrs| =>
      match outcome(i) case None => Success(attrs[i]) case Some(log) => Failure((attrs[i], log)))
  }

  function AttrNames(cannotBuild: seq<(string, seq<string>)>): seq<string> {
    if cannotBuild == [] then []
    else AttrNames(cannotBuild[..|cannotBuild| - 1]) + [cannotBuild[|cannotBuild| - 1].0]
  }

  /** The two halves merge back into the job's attributes: none lost or added, each half in job order. */
  lemma {:induction false} HalvesMergeIntoAttrs(attrs: seq<string>, outcome: nat -> Option<seq<string>>)
    ensures var results := Instantiations(attrs, outcome);
            Interleaving(Oks(results), AttrNames(Errs(results)), attrs)
  {
    if attrs != [] {
      var n := |attrs| - 1;
      var results, front := Instantiations(attrs, outcome), Instantiations(attrs[..n], outcome);
      assert results[..n] == front;
      assert attrs == attrs[..n] + [attrs[n]];
      HalvesMergeIntoAttrs(attrs[..n], outcome);
      if outcome(n).None? {
        assert Oks(results) == Oks(front) + [attrs[n]] && Errs(results) == Errs(front);
        AddLeft(Oks(front), AttrNames(Errs(front)), attrs[..n], attrs[n]);
      } else {
        var failed := (attrs[n], outcome(n).value);
        assert Oks(results) == Oks(front) && Errs(results) == Errs(front) + [failed];
        assert AttrNames(Errs(front) + [failed]) == AttrNames(Errs(front)) + [attrs[n]];
        AddRight(Oks(front), AttrNames(Errs(front)), attrs[..n], attrs[n]);
      }
    }
  }
}
