/** The check runs reported for a build: one when it is queued, one when it is over. */
module Checks {
  import opened Wrappers
  import opened TextLines
  import opened Interleavings
  import opened SortedStrings
  import opened Partitioning
  import opened BuildJobs
  import AsyncCommands

  datatype Conclusion = Success | Neutral

  datatype Check = Check(name: string, headSha: string, externalId: Option<string>,
                         conclusion: Option<Conclusion>, summary: string, text: string)

  datatype PostableEvent =
    | BuildQueued(job: BuildJob, architectures: seq<string>)
    | BuildFinished(result: BuildResult)

  const UNKNOWN := "(unknown attributes)"

  function CheckName(attrs: seq<string>, system: string): string {
    (if attrs == [] then UNKNOWN else Join(Sort(attrs), ", ")) + " on " + system
  }

  function JobToCheck(job: BuildJob, architecture: string): Check {
    Check(CheckName(job.attrs, architecture), job.pr.headSha, None, None, "", "")
  }

  function Listed<T>(list: Option<seq<T>>): seq<T> {
    if list.Some? then list.value else []
  }

  function ListSegment(name: string, things: seq<string>): seq<string> {
    if things == [] then [] else [name + ": " + Join(things, ", "), ""]
  }

  function Summary(result: BuildResult): seq<string> {
    (if result.attemptedAttrs.Some? then ListSegment("Attempted", result.attemptedAttrs.value) else [])
    + (if result.status == TimedOut then ["Build timed out."] else [])
    + (if result.skippedAttrs.Some? then
         ListSegment("The following builds were skipped because they don't evaluate on " + result.system,
                     result.skippedAttrs.value)
       else [])
  }

  function PartialLog(output: seq<string>): string {
    if output == [] then "No partial log is available."
    else Join(["## Partial log", "", "```"] + output + ["```"], "\n")
  }

  function ResultToCheck(result: BuildResult): Check {
    Check(CheckName(Listed(result.attemptedAttrs) + Listed(result.skippedAttrs), result.system),
          result.pr.headSha, Some(result.attemptId),
          Some(if result.status.Succeeded? then Conclusion.Success else Neutral),
          Join(Summary(result), "\n"), PartialLog(result.output))
  }

  /** One check a queued architecture, in order; one check a result. */
  method Consumer(event: PostableEvent) returns (checks: seq<Check>)
    ensures event.BuildFinished? ==> checks == [ResultToCheck(event.result)]
    ensures event.BuildQueued? ==>
              && |checks| == |event.architectures|
              && forall i :: 0 <= i < |checks| ==> checks[i] == JobToCheck(event.job, event.architectures[i])
  {
    checks := [];
    match event
    case BuildQueued(job, architectures) =>
      for i := 0 to |architectures|
        invariant |checks| == i
        invariant forall j :: 0 <= j < i ==> checks[j] == JobToCheck(job, architectures[j])
      {
        checks := checks + [JobToCheck(job, architectures[i])];
      }
    case BuildFinished(result) =>
      checks := checks + [ResultToCheck(result)];
  }

  /** The name depends on which attributes there are, not on their order. */
  lemma NameOfPermutation(attrs: seq<string>, others: seq<string>, system: string)
    requires multiset(attrs) == multiset(others)
    ensures CheckName(attrs, system) == CheckName(others, system)
  {
    assert |multiset(attrs)| == |attrs| && |multiset(others)| == |others|;
    SortOfPermutation(attrs, others);
  }

  /** Whatever instantiates, the attempted and the skipped attributes are those of the job. */
  lemma ResultCoversTheJob(job: BuildJob, me: Identity, world: World, describe: int -> string)
    ensures var result := FinalResult(job, me, world, describe);
            multiset(Listed(result.attemptedAttrs) + Listed(result.skippedAttrs)) == multiset(job.attrs)
  {
    HalvesMergeIntoAttrs(job.attrs, world.instantiation);
    var results := Instantiations(job.attrs, world.instantiation);
    InterleavingIsPermutation(Oks(results), AttrNames(Errs(results)), job.attrs);
  }

  /** A finished or skipped build updates the check that was queued for its system. */
  lemma FinishedCheckKeepsItsName(job: BuildJob, me: Identity, world: World, describe: int -> string)
    ensures var finished, queued := ResultToCheck(FinalResult(job, me, world, describe)), JobToCheck(job, me.system);
            finished.name == queued.name && finished.headSha == queued.headSha
  {
    ResultCoversTheJob(job, me, world, describe);
    var result := FinalResult(job, me, world, describe);
    NameOfPermutation(Listed(result.attemptedAttrs) + Listed(result.skippedAttrs), job.attrs, me.system);
  }

  lemma NameBeforeSystem(a: string, b: string, system: string)
    ensures a + " on " + system == b + " on " + system <==> a == b
  {
    if a + " on " + system == b + " on " + system {
      assert (a + " on " + system)[..|a|] == a && (b + " on " + system)[..|b|] == b;
    }
  }

  /** The one result that is not the final one: the commit did not merge. */
  lemma OtherResult(job: BuildJob, me: Identity, world: World, describe: int -> string, i: nat)
    requires i < |Told(job, me, world, describe)|
    requires Told(job, me, world, describe)[i].Publish? && Told(job, me, world, describe)[i].body.Result?
    ensures var result := Told(job, me, world, describe)[i].body.result;
            if Builds(job, world) then result == FinalResult(job, me, world, describe)
            else job.attrs != [] && !world.merged && result == ResultWith(job, me, ["Merge failed"], Failed, None, None)
  {
    var told := Told(job, me, world, describe);
    if SpawnFails(job, world) {
      NoResultWithoutBuild(job, me, world, describe);
    } else if Builds(job, world) {
      ResultCarriesTheSnippet(job, me, world, describe);
      OnlyResult(told, FinishActions(job, me, FinalResult(job, me, world, describe)), i);
    }
  }

  lemma OnlyResult(told: seq<Action>, finish: seq<Action>, i: nat)
    requires i < |told| && told[i].Publish? && told[i].body.Result?
    requires |told| >= 3 && told[|told| - 3..] == finish
    requires forall j :: 0 <= j < |told| - 3 ==> told[j].Publish? && !told[j].body.Result?
    ensures |finish| == 3 && told[i] in finish
  {
    assert told[i] == told[|told| - 3..][i - (|told| - 3)];
  }

  lemma NoResultWithoutBuild(job: BuildJob, me: Identity, world: World, describe: int -> string)
    requires SpawnFails(job, world)
    ensures forall action :: action in Told(job, me, world, describe) ==> action.Publish? && !action.body.Result?
  {
    PartsOfTold(job, me, world, describe);
  }

  /**
   * Every result a job publishes keeps the queued check's name, except that a
   * failed merge reports no attributes: its check is another one, unless the
   * job's attributes happen to read as the placeholder.
   */
  lemma PublishedCheckKeepsItsNameIff(job: BuildJob, me: Identity, world: World, describe: int -> string, i: nat)
    requires i < |Told(job, me, world, describe)|
    requires Told(job, me, world, describe)[i].Publish? && Told(job, me, world, describe)[i].body.Result?
    ensures var result := Told(job, me, world, describe)[i].body.result;
            && ResultToCheck(result).headSha == JobToCheck(job, me.system).headSha
            && (ResultToCheck(result).name == JobToCheck(job, me.system).name
                <==> world.merged || Join(Sort(job.attrs), ", ") == UNKNOWN)
  {
    OtherResult(job, me, world, describe, i);
    if Builds(job, world) {
      FinishedCheckKeepsItsName(job, me, world, describe);
    } else {
      FailedMergeName(job, me);
    }
  }

  lemma FailedMergeName(job: BuildJob, me: Identity)
    requires job.attrs != []
    ensures var check := ResultToCheck(ResultWith(job, me, ["Merge failed"], Failed, None, None));
            && check.headSha == job.pr.headSha
            && (check.name == CheckName(job.attrs, me.system) <==> Join(Sort(job.attrs), ", ") == UNKNOWN)
  {
    NameBeforeSystem(UNKNOWN, Join(Sort(job.attrs), ", "), me.system);
  }

  /** The check is green exactly when something could be built and the build exited with 0. */
  lemma SuccessIff(job: BuildJob, me: Identity, world: World, describe: int -> string)
    ensures ResultToCheck(FinalResult(job, me, world, describe)).conclusion == Some(Conclusion.Success)
       <==> && (exists k :: 0 <= k < |job.attrs| && world.instantiation(k).None?)
            && world.buildExit == AsyncCommands.Exited(Some(0))
  {
    OksEmptyIff(job.attrs, world.instantiation);
    FinalStatusSucceeds(job, me, world, describe);
    var result := FinalResult(job, me, world, describe);
    assert ResultToCheck(result).conclusion == Some(if result.status.Succeeded? then Conclusion.Success else Neutral);
  }

  lemma {:induction false} OksEmptyIff(attrs: seq<string>, outcome: nat -> Option<seq<string>>)
    ensures Oks(Instantiations(attrs, outcome)) != [] <==> exists k :: 0 <= k < |attrs| && outcome(k).None?
  {
    if attrs != [] {
      var n := |attrs| - 1;
      OksEmptyIff(attrs[..n], outcome);
      assert Instantiations(attrs, outcome)[..n] == Instantiations(attrs[..n], outcome);
    }
  }

  /** A job whose merge fails: the queued check and the reported one have different names. */
  lemma FailedMergeReportsAnotherCheck(job: BuildJob, me: Identity, world: World, describe: int -> string)
    requires job.attrs == ["hello"] && Prepares(world) && world.commitExists && !world.merged
    ensures var told := Told(job, me, world, describe);
            && |told| == 2 && told[0].Publish? && told[0].body.Result?
            && ResultToCheck(told[0].body.result).name == "(unknown attributes)" + " on " + me.system
            && JobToCheck(job, me.system).name == "hello" + " on " + me.system
            && ResultToCheck(told[0].body.result).name != JobToCheck(job, me.system).name
  {
    assert Sort(job.attrs) == ["hello"] by {
      assert job.attrs[1..] == [];
    }
    NameBeforeSystem(UNKNOWN, "hello", me.system);
    assert "hello"[0] != UNKNOWN[0];
  }
}
