/** `NixpkgsStrategy`: the steps of evaluating a change to nixpkgs. */
module NixpkgsEvaluation {
  import opened Wrappers
  import opened Ascii
  import opened SortedStrings
  import opened CommitMessages
  import opened Labels
  import opened OutPaths
  import opened Taggers
  import opened LabelUpdates
  import opened Maintainers
  import opened Statuses
  import BuildJobs
  import CommentParsing

  datatype EvaluationJob = EvaluationJob(repo: BuildJobs.Repo, pr: BuildJobs.Pr)

  datatype Stop = Fail(message: string) | FailWithGist(message: string, filename: string, content: string)

  type StepResult = Result<(), Stop>

  /** What git, nix and the host answer in one evaluation. */
  datatype World = World(
    titleNow: Option<string>,
    cloned: bool, checkedOut: bool, fetched: bool, commitExists: bool, merged: bool,
    linuxBefore: Option<string>, darwinBefore: Option<string>,
    linuxAfter: Option<string>, darwinAfter: Option<string>,
    listingBefore: Result<PackageOutPaths, string>, listingAfter: Result<PackageOutPaths, string>,
    changedPaths: Option<seq<string>>, commitMessages: Option<seq<string>>,
    checkPasses: nat -> bool,
    impacted: Option<ImpactedMaintainers>,
    packages: Result<PackageOutPaths, string>,
    requestId: string)

  const EVAL := "grahamcofborg-eval"
  const CHECK_MAINTAINERS := "grahamcofborg-eval-check-maintainers"
  const CHECK_META := "grahamcofborg-eval-check-meta"
  const DARWIN_TOPIC := "6.topic: darwin"
  const MERGE_CONFLICT := "2.status: merge conflict"

  const TARGET_BROKEN :=
    "The branch this PR will merge in to does not cleanly evaluate, and so this PR cannot be checked."
  const PR_BROKEN := "This PR does not cleanly list of package outputs after merging."
  const META_BROKEN := "Failed to validate package metadata."
  const OFBORG_BUG := "Ofborg BUG: No outpath diff! Please report!"

  function Overall(description: string, state: State): Post {
    Post(EVAL, description, state)
  }

  function Touched(w: World): seq<string> {
    ParseCommitMessages(if w.commitMessages.Some? then w.commitMessages.value else [""])
  }

  function ChangedPaths(w: World): seq<string> {
    if w.changedPaths.Some? then w.changedPaths.value else []
  }

  // What the steps do to the labels.

  function TitleLabels(w: World, labels: set<string>): set<string> {
    if w.titleNow.Some? && (Contains(Lower(w.titleNow.value), "darwin") || Contains(Lower(w.titleNow.value), "macos"))
    then labels + {DARWIN_TOPIC} else labels
  }

  function PathLabels(tagPaths: map<string, seq<string>>, w: World, labels: set<string>): set<string> {
    (labels - tagPaths.Keys) + Matching(tagPaths, ChangedPaths(w))
  }

  function CountOf(keys: set<PackageArch>, arch: string): nat {
    |set key | key in keys && key.architecture == arch|
  }

  ghost function RebuildLabels(rebuilt: set<PackageArch>, labels: set<string>): set<string> {
    (labels - AllRebuildTags())
    + Elements(RebuildTags(CountOf(rebuilt, "x86_64-darwin"), CountOf(rebuilt, "x86_64-linux")))
  }

  ghost function MaintainerLabels(w: World, submitter: string, labels: set<string>): set<string> {
    if w.impacted.Some? && MaintainsAll(w.impacted.value, Lower(submitter)) then labels + {MAINTAINER_TAG} else labels
  }

  ghost function StdenvLabels(w: World, labels: set<string>): set<string> {
    (labels - AllStdenvTags()) + ChangedTags(w.linuxBefore != w.linuxAfter, w.darwinBefore != w.darwinAfter)
  }

  function NewPackageLabels(before: PackageOutPaths, after: PackageOutPaths, labels: set<string>): set<string> {
    labels + (if Removed(before, after) != {} then {CLEAN_UP} else {})
           + (if Added(before, after) != {} then {NEW_PACKAGE} else {})
  }

  ghost function RebuiltLabels(w: World, submitter: string, labels: set<string>): set<string>
    requires w.listingBefore.Success? && w.listingAfter.Success?
  {
    var rebuilt := Rebuilt(w.listingBefore.value, w.listingAfter.value);
    RebuildLabels(rebuilt, if rebuilt == {} then labels else MaintainerLabels(w, submitter, labels))
  }

  /** The labels once both sides are evaluated. */
  ghost function DiffLabels(w: World, submitter: string, labels: set<string>): set<string>
    requires w.listingBefore.Success? && w.listingAfter.Success?
  {
    RebuiltLabels(w, submitter,
                  NewPackageLabels(w.listingBefore.value, w.listingAfter.value, StdenvLabels(w, labels)))
  }

  /** The labels an evaluation may add or remove. */
  ghost function Managed(tagPaths: map<string, seq<string>>): set<string> {
    {DARWIN_TOPIC, MERGE_CONFLICT, CLEAN_UP, NEW_PACKAGE, MAINTAINER_TAG}
    + tagPaths.Keys + AllStdenvTags() + AllRebuildTags()
  }

  // What is scheduled.

  function TryBuild(w: World): set<string> {
    if w.packages.Success? then
      set key | key in w.packages.value && key.package in Touched(w) :: key.package
    else {}
  }

  function Decimal(n: nat): string {
    if n < 10 then [(n + '0' as int) as char] else Decimal(n / 10) + Decimal(n % 10)
  }

  /** A build job with the default destinations. */
  function NewBuildJob(job: EvaluationJob, attrs: seq<string>, requestId: string): BuildJobs.BuildJob {
    var routingKey := Lower(job.repo.fullName + "." + Decimal(job.pr.number));
    BuildJobs.BuildJob(job.repo, job.pr, Some(CommentParsing.Nixpkgs), attrs, requestId,
                       Some(BuildJobs.Destination(Some("logs"), Some(routingKey))),
                       Some(BuildJobs.Destination(Some("build-results"), None)))
  }

  const MAX_BUILDS: nat := 10

  /** One job with the touched packages, sorted, if there are any but not too many. */
  ghost predicate BuildsTouched(job: EvaluationJob, w: World, builds: seq<BuildJobs.BuildJob>) {
    if 1 <= |TryBuild(w)| <= MAX_BUILDS then
      && |builds| == 1
      && builds[0] == NewBuildJob(job, builds[0].attrs, w.requestId)
      && Sorted(builds[0].attrs) && Distinct(builds[0].attrs) && Elements(builds[0].attrs) == TryBuild(w)
    else builds == []
  }

  // What is posted.

  function TargetPosts(w: World): seq<Post> {
    [Overall("Checking original stdenvs", Pending), Overall("Checking original out paths", Pending)]
  }

  function MergePosts(w: World): seq<Post> {
    [Overall("Checking new stdenvs", Pending), Overall("Checking new out paths", Pending)]
  }

  function MaintainerPost(): Post {
    Post(CHECK_MAINTAINERS, "matching changed paths to changed attrs...", State.Success)
  }

  function MaintainerPosts(w: World): seq<Post>
    requires w.listingBefore.Success? && w.listingAfter.Success?
  {
    if Rebuilt(w.listingBefore.value, w.listingAfter.value) == {} then []
    else [MaintainerPost()]
  }

  function MetaPosts(w: World): seq<Post> {
    [Post(CHECK_META, "config.nix: checkMeta = true", Pending),
     Post(CHECK_META, "config.nix: checkMeta = true", if w.packages.Success? then State.Success else State.Failure)]
  }

  function DiffPosts(w: World): seq<Post>
    requires w.listingBefore.Success? && w.listingAfter.Success?
  {
    [Overall("Calculating Changed Outputs", Pending)] + MaintainerPosts(w)
  }

  function PassedPosts(w: World): seq<Post>
    requires w.listingBefore.Success? && w.listingAfter.Success?
  {
    DiffPosts(w) + MetaPosts(w)
  }

  class NixpkgsStrategy {
    const job: EvaluationJob
    const submitter: string
    const host: Host
    const tagPaths: map<string, seq<string>>
    var stdenvDiff: Option<Stdenvs>
    var outpathDiff: Option<OutPathDiff>
    var changedPaths: Option<seq<string>>
    var touchedPackages: Option<seq<string>>

    constructor (job: EvaluationJob, submitter: string, host: Host, tagPaths: map<string, seq<string>>)
      ensures this.job == job && this.submitter == submitter && this.host == host && this.tagPaths == tagPaths
      ensures stdenvDiff == None && outpathDiff == None && changedPaths == None && touchedPackages == None
    {
      this.job, this.submitter, this.host, this.tagPaths := job, submitter, host, tagPaths;
      stdenvDiff, outpathDiff, changedPaths, touchedPackages := None, None, None, None;
    }

    /** Both diffs hold the side before the change. */
    ghost predicate Before(w: World) reads this, Diffs() {
      && stdenvDiff.Some? && outpathDiff.Some?
      && stdenvDiff.value.linuxBefore == w.linuxBefore && stdenvDiff.value.darwinBefore == w.darwinBefore
      && w.listingBefore.Success? && outpathDiff.value.original == Some(w.listingBefore.value)
    }

    ghost predicate Fetched(w: World) reads this {
      changedPaths == Some(ChangedPaths(w)) && touchedPackages == Some(Touched(w))
    }

    /** Both diffs hold both sides. */
    ghost predicate After(w: World) reads this, Diffs() {
      && Before(w)
      && stdenvDiff.value.linuxAfter == w.linuxAfter && stdenvDiff.value.darwinAfter == w.darwinAfter
      && w.listingAfter.Success? && outpathDiff.value.current == Some(w.listingAfter.value)
    }

    ghost function Diffs(): set<object> reads this {
      (if stdenvDiff.Some? then {stdenvDiff.value as object} else {})
      + (if outpathDiff.Some? then {outpathDiff.value as object} else {})
    }

    /** The strategy's own labels may change, and no others. */
    twostate predicate KeepsOtherLabels() reads host.issue {
      SameOutside(Managed(tagPaths), old(host.issue.labels), host.issue.labels)
    }

    method UpdateLabels(add: seq<string>, remove: seq<string>) returns (r: Reply)
      requires Elements(add) + Elements(remove) <= Managed(tagPaths) && Distinct(remove)
      modifies host.issue
      ensures host.Reliable() ==> r.Done?
      ensures KeepsOtherLabels()
      ensures r.Done? ==> host.issue.labels == Updated(old(host.issue.labels), Elements(add), Elements(remove))
    {
      ghost var before := host.issue.labels;
      PresentKeepsDistinct(remove, before, true);
      var ok := host.issue.UpdateLabels(add, remove);
      OutsideMore(Elements(add) + Elements(remove), Managed(tagPaths), before, host.issue.labels);
      r := if ok then Done else Broken;
    }

    method PreClone(w: World) returns (r: Outcome<StepResult>)
      modifies host.issue
      ensures host.Reliable() ==> r.Value?
      ensures KeepsOtherLabels()
      ensures r.Value? ==> r.value == Result.Success(()) && host.issue.labels == TitleLabels(w, old(host.issue.labels))
    {
      if && w.titleNow.Some?
         && (Contains(Lower(w.titleNow.value), "darwin") || Contains(Lower(w.titleNow.value), "macos")) {
        var reply := UpdateLabels([DARWIN_TOPIC], []);
        :- reply;
      }
      r := Value(Result.Success(()));
    }

    /** Asks nix for both environments, then for the listing. */
    method CheckStdenvsBefore(w: World) returns (r: Reply)
      modifies this`stdenvDiff, host`calls
      ensures host.Reliable() ==> r.Done?
      ensures stdenvDiff.Some? ==> fresh(stdenvDiff.value) || stdenvDiff == old(stdenvDiff)
      ensures r.Done? ==>
                && stdenvDiff.Some? && fresh(stdenvDiff.value)
                && stdenvDiff.value.linuxBefore == w.linuxBefore && stdenvDiff.value.darwinBefore == w.darwinBefore
    {
      r := CallTwice();
      if r.Broken? {
        return;
      }
      var stdenvs := new Stdenvs();
      stdenvs.IdentifyBefore(w.linuxBefore, w.darwinBefore);
      stdenvDiff := Some(stdenvs);
    }

    method CallTwice() returns (r: Reply)
      modifies host`calls
      ensures host.Reliable() ==> r.Done?
    {
      r := host.Call();
      if r.Done? {
        r := host.Call();
      }
    }

    method CheckOutpathsBefore(w: World) returns (r: Outcome<StepResult>)
      modifies this`outpathDiff, host`calls
      ensures host.Reliable() ==> r.Value?
      ensures outpathDiff.Some? ==> fresh(outpathDiff.value) || outpathDiff == old(outpathDiff)
      ensures r.Value? ==> (r.value.Success? <==> w.listingBefore.Success?)
      ensures r.Value? && r.value.Failure? ==> r.value.error.FailWithGist? && r.value.error.message == TARGET_BROKEN
      ensures r.Value? && r.value.Success? ==>
                && outpathDiff.Some? && fresh(outpathDiff.value)
                && outpathDiff.value.original == Some(w.listingBefore.value)
    {
      var rebuildsniff := new OutPathDiff();
      :- host.Call();
      var found := rebuildsniff.FindBefore(w.listingBefore);
      if found.Failure? {
        return Value(Result.Failure(FailWithGist(TARGET_BROKEN, "Output path comparison", found.error)));
      }
      outpathDiff := Some(rebuildsniff);
      r := Value(Result.Success(()));
    }

    method OnTargetBranch(w: World, status: CommitStatus) returns (r: Outcome<StepResult>)
      requires status.host == host && status.context == EVAL
      modifies this`stdenvDiff, this`outpathDiff, status, host`calls, host`posted
      ensures host.Reliable() ==> r.Value?
      ensures fresh(Diffs() - old(Diffs()))
      ensures old(host.posted) <= host.posted <= old(host.posted) + TargetPosts(w)
      ensures r.Value? ==> host.posted == old(host.posted) + TargetPosts(w)
      ensures r.Value? ==> (r.value.Success? <==> w.listingBefore.Success?)
      ensures r.Value? && r.value.Failure? ==> r.value.error.FailWithGist? && r.value.error.message == TARGET_BROKEN
      ensures r.Value? && r.value.Success? ==> Before(w)
    {
      var reply := status.SetWithDescription("Checking original stdenvs", Pending);
      :- reply;
      :- CheckStdenvsBefore(w);

      :- status.SetWithDescription("Checking original out paths", Pending);
      r := CheckOutpathsBefore(w);
    }

    method AfterFetch(w: World) returns (r: Outcome<StepResult>)
      modifies this`changedPaths, this`touchedPackages, host`calls, host.issue
      ensures host.Reliable() ==> r.Value?
      ensures KeepsOtherLabels()
      ensures r.Value? ==> r.value == Result.Success(()) && Fetched(w)
      ensures r.Value? ==> host.issue.labels == PathLabels(tagPaths, w, old(host.issue.labels))
    {
      changedPaths := Some(ChangedPaths(w));
      ghost var before := host.issue.labels;
      var ok := TagFromPaths(host.issue, tagPaths, changedPaths.value);
      OutsideMore(tagPaths.Keys, Managed(tagPaths), before, host.issue.labels);
      if !ok {
        return Panicked;
      }
      touchedPackages := Some(Touched(w));
      r := Value(Result.Success(()));
    }

    method MergeConflict() returns (r: Reply)
      modifies host.issue
      ensures host.Reliable() ==> r.Done?
      ensures KeepsOtherLabels()
      ensures r.Done? ==> host.issue.labels == old(host.issue.labels) + {MERGE_CONFLICT}
    {
      r := UpdateLabels([MERGE_CONFLICT], []);
    }

    /** Only when there is something to compare with. */
    method CheckStdenvsAfter(w: World) returns (r: Reply)
      modifies host`calls, if stdenvDiff.Some? then {stdenvDiff.value} else {}
      ensures host.Reliable() ==> r.Done?
      ensures r.Done? && stdenvDiff.Some? ==>
                var s := stdenvDiff.value;
                && s.linuxBefore == old(s.linuxBefore) && s.darwinBefore == old(s.darwinBefore)
                && s.linuxAfter == w.linuxAfter && s.darwinAfter == w.darwinAfter
    {
      r := Done;
      if stdenvDiff.Some? {
        r := CallTwice();
        if r.Done? {
          stdenvDiff.value.IdentifyAfter(w.linuxAfter, w.darwinAfter);
        }
      }
    }

    method CheckOutpathsAfter(w: World) returns (r: Outcome<StepResult>)
      modifies host`calls, if outpathDiff.Some? then {outpathDiff.value} else {}
      ensures host.Reliable() ==> r.Value?
      ensures r.Value? && outpathDiff.None? ==> r.value == Result.Failure(Fail(OFBORG_BUG))
      ensures r.Value? && outpathDiff.Some? && old(outpathDiff.value.original).Some? ==>
                && outpathDiff.value.original == old(outpathDiff.value.original)
                && (r.value.Success? <==> w.listingAfter.Success?)
                && (r.value.Success? ==> outpathDiff.value.current == Some(w.listingAfter.value))
                && (r.value.Failure? ==> r.value.error.FailWithGist? && r.value.error.message == PR_BROKEN)
    {
      if outpathDiff.None? {
        return Value(Result.Failure(Fail(OFBORG_BUG)));
      }
      :- host.Call();
      var found := outpathDiff.value.FindAfter(w.listingAfter);
      if found.Failure? {
        return Value(Result.Failure(FailWithGist(PR_BROKEN, "Output path comparison", found.error)));
      }
      r := Value(Result.Success(()));
    }

    method AfterMerge(w: World, status: CommitStatus) returns (r: Outcome<StepResult>)
      requires status.host == host && status.context == EVAL
      modifies host`calls, host`posted, host.issue, status, Diffs()
      ensures host.Reliable() ==> r.Value?
      ensures KeepsOtherLabels()
      ensures old(host.posted) <= host.posted <= old(host.posted) + MergePosts(w)
      ensures r.Value? ==> host.posted == old(host.posted) + MergePosts(w)
      ensures r.Value? ==> host.issue.labels == old(host.issue.labels) - {MERGE_CONFLICT}
      ensures r.Value? && outpathDiff.None? ==> r.value == Result.Failure(Fail(OFBORG_BUG))
      ensures r.Value? && old(Before(w)) ==> (r.value.Success? <==> w.listingAfter.Success?)
      ensures r.Value? && old(Before(w)) && r.value.Failure? ==>
                r.value.error.FailWithGist? && r.value.error.message == PR_BROKEN
      ensures r.Value? && old(Before(w)) && r.value.Success? ==> After(w)
    {
      var reply := UpdateLabels([], [MERGE_CONFLICT]);
      :- reply;
      :- status.SetWithDescription("Checking new stdenvs", Pending);
      :- CheckStdenvsAfter(w);

      :- status.SetWithDescription("Checking new out paths", Pending);
      r := CheckOutpathsAfter(w);
    }

    method RecordImpactedMaintainers(w: World) returns (r: Reply)
      modifies host`calls, host`posted, host.issue
      ensures host.Reliable() ==> r.Done?
      ensures KeepsOtherLabels()
      ensures old(host.posted) <= host.posted <= old(host.posted) + [MaintainerPost()]
      ensures r.Done? && changedPaths.Some? ==>
                && host.posted == old(host.posted) + [MaintainerPost()]
                && host.issue.labels == MaintainerLabels(w, submitter, old(host.issue.labels))
      ensures changedPaths.None? ==>
                r.Done? && host.posted == old(host.posted) && host.issue.labels == old(host.issue.labels)
    {
      if changedPaths.None? {
        return Done;
      }
      r := CallTwice();
      if r.Broken? {
        return;
      }
      var status := new CommitStatus(host, CHECK_MAINTAINERS, "matching changed paths to changed attrs...");
      r := status.Set(State.Success);
      if r.Broken? || w.impacted.None? {
        return;
      }
      r := TagMaintainer(w.impacted.value);
    }

    method TagMaintainer(impacted: ImpactedMaintainers) returns (r: Reply)
      modifies host.issue
      ensures host.Reliable() ==> r.Done?
      ensures KeepsOtherLabels()
      ensures r.Done? ==>
                host.issue.labels
                == old(host.issue.labels) + if MaintainsAll(impacted, Lower(submitter)) then {MAINTAINER_TAG} else {}
    {
      ghost var before := host.issue.labels;
      var ok := Maintainers.RecordImpactedMaintainers(host.issue, submitter, impacted);
      OutsideMore({MAINTAINER_TAG}, Managed(tagPaths), before, host.issue.labels);
      r := if ok then Done else Broken;
    }

    /** Collects the touched packages in no particular order, then sorts them. */
    method TouchedPackages(touched: seq<string>, packages: PackageOutPaths) returns (tryBuild: seq<string>)
      ensures Sorted(tryBuild) && Distinct(tryBuild)
      ensures Elements(tryBuild) == set key | key in packages && key.package in touched :: key.package
    {
      tryBuild := [];
      var keys := packages.Keys;
      while keys != {}
        invariant keys <= packages.Keys
        invariant Elements(tryBuild) == set key | key in packages.Keys - keys && key.package in touched :: key.package
        decreases keys
      {
        var key :| key in keys;
        keys := keys - {key};
        OneMore(tryBuild, key.package);
        if key.package in touched {
          tryBuild := tryBuild + [key.package];
        }
      }
      assert packages.Keys - keys == packages.Keys;
      SortSorts(tryBuild);
      SortKeepsElements(tryBuild);
      DedupOfSorted(Sort(tryBuild));
      tryBuild := Dedup(Sort(tryBuild));
    }

    method CheckMetaQueueBuilds(w: World) returns (r: Outcome<Result<seq<BuildJobs.BuildJob>, Stop>>)
      modifies host`calls, host`posted
      ensures host.Reliable() ==> r.Value?
      ensures old(host.posted) <= host.posted <= old(host.posted) + MetaPosts(w)
      ensures r.Value? && touchedPackages == Some(Touched(w)) ==>
                && host.posted == old(host.posted) + MetaPosts(w)
                && (r.value.Success? <==> w.packages.Success?)
                && (r.value.Success? ==> BuildsTouched(job, w, r.value.value))
      ensures r.Value? && r.value.Failure? ==> r.value.error == Fail(META_BROKEN)
      ensures touchedPackages.None? ==> r == Value(Result.Success([])) && host.posted == old(host.posted)
    {
      if touchedPackages.None? {
        return Value(Result.Success([]));
      }
      var status := new CommitStatus(host, CHECK_META, "config.nix: checkMeta = true");
      :- status.Set(Pending);
      :- host.Call();
      if w.packages.Failure? {
        var reply := host.Call();
        :- reply;
        :- status.Set(State.Failure);
        return Value(Result.Failure(Fail(META_BROKEN)));
      }
      var tryBuild := TouchedPackages(touchedPackages.value, w.packages.value);
      :- status.Set(State.Success);
      DistinctSize(tryBuild);
      if tryBuild != [] && |tryBuild| <= MAX_BUILDS {
        r := Value(Result.Success([NewBuildJob(job, tryBuild, w.requestId)]));
      } else {
        r := Value(Result.Success([]));
      }
    }

    method UpdateRebuildLabels(w: World) returns (r: Reply)
      modifies host`calls, host`posted, host.issue
      ensures host.Reliable() ==> r.Done?
      ensures KeepsOtherLabels()
      ensures old(host.posted) <= host.posted
      ensures After(w) ==> host.posted <= old(host.posted) + MaintainerPosts(w)
      ensures r.Done? && After(w) && Fetched(w) ==>
                && host.posted == old(host.posted) + MaintainerPosts(w)
                && host.issue.labels == RebuiltLabels(w, submitter, old(host.issue.labels))
    {
      if outpathDiff.None? {
        return Done;
      }
      var attrs := outpathDiff.value.CalculateRebuild();
      if attrs.Some? {
        EmptyIff(attrs.value);
      }
      if attrs.Some? && attrs.value != [] {
        r := host.Call();
        if r.Broken? {
          return;
        }
        r := RecordImpactedMaintainers(w);
        if r.Broken? {
          return;
        }
      }
      assert After(w) && Fetched(w) ==> host.posted == old(host.posted) + MaintainerPosts(w);
      r := SynchroniseRebuilds(attrs);
    }

    method SynchroniseRebuilds(attrs: Option<seq<PackageArch>>) returns (r: Reply)
      requires attrs.Some? ==> forall i, j :: 0 <= i < j < |attrs.value| ==> attrs.value[i] != attrs.value[j]
      modifies host`calls, host.issue
      ensures host.Reliable() ==> r.Done?
      ensures KeepsOtherLabels()
      ensures r.Done? && attrs.Some? ==>
                host.issue.labels == RebuildLabels((set key | key in attrs.value), old(host.issue.labels))
    {
      ghost var before := host.issue.labels;
      var ok := LabelUpdates.UpdateRebuildLabels(host.issue, attrs);
      OutsideMore(AllRebuildTags(), Managed(tagPaths), before, host.issue.labels);
      if attrs.Some? {
        CountIsCardinality(attrs.value, "x86_64-darwin");
        CountIsCardinality(attrs.value, "x86_64-linux");
      }
      r := if ok then Done else Broken;
    }

    method AllEvaluationsPassed(w: World, status: CommitStatus)
      returns (r: Outcome<Result<seq<BuildJobs.BuildJob>, Stop>>)
      requires status.host == host && status.context == EVAL
      modifies host`calls, host`posted, host.issue, status
      ensures host.Reliable() ==> r.Value?
      ensures KeepsOtherLabels()
      ensures old(host.posted) <= host.posted
      ensures After(w) && Fetched(w) ==> host.posted <= old(host.posted) + PassedPosts(w)
      ensures r.Value? && After(w) && Fetched(w) ==>
                && host.posted == old(host.posted) + PassedPosts(w)
                && host.issue.labels == DiffLabels(w, submitter, old(host.issue.labels))
                && (r.value.Success? <==> w.packages.Success?)
                && (r.value.Success? ==> BuildsTouched(job, w, r.value.value))
      ensures r.Value? && r.value.Failure? ==> r.value.error == Fail(META_BROKEN)
    {
      if After(w) {
        Associate(host.posted, DiffPosts(w), MetaPosts(w));
      }
      :- UpdateDiffLabels(w, status);
      r := CheckMetaQueueBuilds(w);
    }

    method UpdateDiffLabels(w: World, status: CommitStatus) returns (r: Reply)
      requires status.host == host && status.context == EVAL
      modifies host`calls, host`posted, host.issue, status
      ensures host.Reliable() ==> r.Done?
      ensures KeepsOtherLabels()
      ensures old(host.posted) <= host.posted
      ensures After(w) ==> host.posted <= old(host.posted) + DiffPosts(w)
      ensures r.Done? && After(w) && Fetched(w) ==>
                && host.posted == old(host.posted) + DiffPosts(w)
                && host.issue.labels == DiffLabels(w, submitter, old(host.issue.labels))
    {
      if After(w) {
        Associate(host.posted, [Overall("Calculating Changed Outputs", Pending)], MaintainerPosts(w));
      }
      r := UpdatePackageLabels(w, status);
      if r.Broken? {
        return;
      }
      r := UpdateRebuildLabels(w);
    }

    method UpdatePackageLabels(ghost w: World, status: CommitStatus) returns (r: Reply)
      requires status.host == host && status.context == EVAL
      modifies host`calls, host`posted, host.issue, status
      ensures host.Reliable() ==> r.Done?
      ensures KeepsOtherLabels()
      ensures old(host.posted) <= host.posted <= old(host.posted) + [Overall("Calculating Changed Outputs", Pending)]
      ensures r.Done? ==> host.posted == old(host.posted) + [Overall("Calculating Changed Outputs", Pending)]
      ensures r.Done? && After(w) ==>
                host.issue.labels == NewPackageLabels(w.listingBefore.value, w.listingAfter.value,
                                                      StdenvLabels(w, old(host.issue.labels)))
    {
      r := UpdateStdenvLabels(w);
      if r.Broken? {
        return;
      }
      r := status.SetWithDescription("Calculating Changed Outputs", Pending);
      if r.Broken? {
        return;
      }
      r := UpdateNewPackageLabels(w);
    }

    method UpdateStdenvLabels(ghost w: World) returns (r: Reply)
      modifies host`calls, host.issue
      ensures host.Reliable() ==> r.Done?
      ensures KeepsOtherLabels()
      ensures r.Done? && After(w) ==> host.issue.labels == StdenvLabels(w, old(host.issue.labels))
    {
      if stdenvDiff.None? {
        return Done;
      }
      ghost var before := host.issue.labels;
      var ok := LabelUpdates.UpdateStdenvLabels(host.issue, stdenvDiff.value);
      OutsideMore(AllStdenvTags(), Managed(tagPaths), before, host.issue.labels);
      r := if ok then Done else Broken;
    }

    method UpdateNewPackageLabels(ghost w: World) returns (r: Reply)
      modifies host`calls, host.issue
      ensures host.Reliable() ==> r.Done?
      ensures KeepsOtherLabels()
      ensures r.Done? && After(w) ==>
                host.issue.labels == NewPackageLabels(w.listingBefore.value, w.listingAfter.value,
                                                      old(host.issue.labels))
    {
      if outpathDiff.None? {
        return Done;
      }
      var diff := outpathDiff.value.PackageDiff();
      if diff.None? {
        return Done;
      }
      ghost var before := host.issue.labels;
      var ok := LabelUpdates.UpdateNewPackageLabels(host.issue, diff.value.0, diff.value.1);
      OutsideMore({CLEAN_UP, NEW_PACKAGE}, Managed(tagPaths), before, host.issue.labels);
      r := if ok then Done else Broken;
    }
  }

  lemma EmptyIff(attrs: seq<PackageArch>)
    ensures (set key | key in attrs) == {} <==> attrs == []
  {
    var keys := set key | key in attrs;
    assert attrs != [] ==> attrs[0] in keys;
  }

  lemma {:induction false} CountIsCardinality(attrs: seq<PackageArch>, arch: string)
    requires forall i, j :: 0 <= i < j < |attrs| ==> attrs[i] != attrs[j]
    ensures Count(attrs, arch) == CountOf((set key | key in attrs), arch)
  {
    if attrs != [] {
      var n := |attrs| - 1;
      var front, all := set key | key in attrs[..n], set key | key in attrs;
      CountIsCardinality(attrs[..n], arch);
      CountOneMore(front, attrs[n], arch);
      assert all == front + {attrs[n]} by {
        assert attrs == attrs[..n] + [attrs[n]];
      }
    }
  }

  lemma CountOneMore(keys: set<PackageArch>, key: PackageArch, arch: string)
    requires key !in keys
    ensures CountOf(keys + {key}, arch) == CountOf(keys, arch) + if key.architecture == arch then 1 else 0
  {
    var before := set k | k in keys && k.architecture == arch;
    assert (set k | k in keys + {key} && k.architecture == arch)
        == before + if key.architecture == arch then {key} else {};
  }
}
