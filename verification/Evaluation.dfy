/** `EvaluationWorker`: one evaluation job, its commit statuses, its labels, and the builds it schedules. */
module Evaluation {
  import opened Wrappers
  import opened Ascii
  import opened Labels
  import opened Statuses
  import opened NixpkgsEvaluation
  import BuildJobs
  import Taggers
  import TextLines

  datatype IssueInfo = IssueInfo(closed: bool, title: string, user: string)

  datatype System = X8664Linux | Aarch64Linux | X8664Darwin {
    function ToString(): string {
      match this
      case X8664Linux => "x86_64-linux"
      case Aarch64Linux => "aarch64-linux"
      case X8664Darwin => "x86_64-darwin"
    }

    function AsBuildDestination(): BuildJobs.Destination {
      BuildJobs.Destination(None, Some("build-inputs-" + ToString()))
    }
  }

  datatype Action =
    | Ack
    | PublishBuild(to: BuildJobs.Destination, job: BuildJobs.BuildJob)
    | PublishQueued(to: BuildJobs.Destination, job: BuildJobs.BuildJob, architectures: seq<string>)

  datatype EvalChecker = EvalChecker(name: string, operation: string, args: seq<string>) {
    function Context(): string {
      "grahamcofborg-eval-" + name
    }

    function CliCmd(): string {
      TextLines.Join([operation] + args, " ")
    }
  }

  function Instantiate(name: string, file: string, attr: string): EvalChecker {
    EvalChecker(name, "nix-instantiate",
                ["--arg", "nixpkgs", "{ outPath=./.; revCount=999999; shortRev=\"ofborg\"; }", file, "-A", attr])
  }

  function NixpkgsChecks(): seq<EvalChecker> {
    [EvalChecker("package-list", "nix-env -qa --json", ["--file", "."]),
     EvalChecker("package-list-no-aliases", "nix-env -qa --json",
                 ["--file", ".", "--arg", "config", "{ allowAliases = false; }"]),
     Instantiate("nixos", "./nixos/release-combined.nix", "tested"),
     Instantiate("nixos-options", "./nixos/release.nix", "options"),
     Instantiate("nixos-manual", "./nixos/release.nix", "manual"),
     Instantiate("nixpkgs-manual", "./pkgs/top-level/release.nix", "manual"),
     Instantiate("nixpkgs-tarball", "./pkgs/top-level/release.nix", "tarball"),
     Instantiate("nixpkgs-unstable-jobset", "./pkgs/top-level/release.nix", "unstable"),
     Instantiate("darwin", "./pkgs/top-level/release.nix", "darwin-tested")]
  }

  // Work in progress.

  /** Among all characters only the Kelvin sign also lowers to a letter of the phrases looked for. */
  function LowerWithKelvin(text: string): (lower: string)
    ensures |lower| == |text|
  {
    seq(|text|, i requires 0 <= i < |text| => if text[i] == '\U{212A}' then 'k' else ToLower(text[i]))
  }

  predicate IndicatesWip(text: string) {
    || Taggers.Contains(LowerWithKelvin(text), "work in progress")
    || Taggers.Contains(LowerWithKelvin(text), "work-in-progress")
  }

  predicate IssueIsWip(title: string, labels: set<string>) {
    || Taggers.Contains(title, "[WIP]")
    || "WIP:" <= title
    || exists name :: name in labels && IndicatesWip(name)
  }

  // Scheduling.

  function Names(archs: seq<System>): (names: seq<string>)
    ensures |names| == |archs| && forall i :: 0 <= i < |archs| ==> names[i] == archs[i].ToString()
  {
    seq(|archs|, i requires 0 <= i < |archs| => archs[i].ToString())
  }

  function Queued(job: BuildJobs.BuildJob, archs: seq<System>): Action {
    PublishQueued(BuildJobs.Destination(Some("build-results"), None), job, Names(archs))
  }

  /** One job to each architecture, in order. */
  function ToEach(job: BuildJobs.BuildJob, archs: seq<System>): (actions: seq<Action>)
    ensures |actions| == |archs|
    ensures forall i :: 0 <= i < |archs| ==> actions[i] == PublishBuild(archs[i].AsBuildDestination(), job)
  {
    seq(|archs|, i requires 0 <= i < |archs| => PublishBuild(archs[i].AsBuildDestination(), job))
  }

  function Scheduled(builds: seq<BuildJobs.BuildJob>, archs: seq<System>): seq<Action> {
    if builds == [] then []
    else
      var n := |builds| - 1;
      Scheduled(builds[..n], archs) + ToEach(builds[n], archs) + [Queued(builds[n], archs)]
  }

  method ScheduleBuilds(builds: seq<BuildJobs.BuildJob>, archs: seq<System>) returns (response: seq<Action>)
    ensures response == Scheduled(builds, archs)
  {
    response := [];
    for i := 0 to |builds|
      invariant response == Scheduled(builds[..i], archs)
    {
      response := ScheduleBuild(response, builds[i], archs);
      assert builds[..i + 1][..i] == builds[..i];
    }
    assert builds[..|builds|] == builds;
  }

  method ScheduleBuild(before: seq<Action>, job: BuildJobs.BuildJob, archs: seq<System>) returns (response: seq<Action>)
    ensures response == before + ToEach(job, archs) + [Queued(job, archs)]
  {
    response := before;
    for k := 0 to |archs|
      invariant response == before + ToEach(job, archs)[..k]
    {
      response := response + [PublishBuild(archs[k].AsBuildDestination(), job)];
    }
    response := response + [Queued(job, archs)];
  }

  // What a run posts, leg by leg; `n` tells whether the repository is nixpkgs.

  predicate IsNixpkgs(job: EvaluationJob) {
    job.repo.name == "nixpkgs"
  }

  function TargetBranch(job: EvaluationJob): string {
    if job.pr.targetBranch.Some? then job.pr.targetBranch.value else "master"
  }

  function ErrorPosts(failed: bool, message: string): seq<Post> {
    if failed then [Overall(message, State.Failure)] else []
  }

  function OpeningPosts(job: EvaluationJob): seq<Post> {
    [Overall("Starting", Pending), Overall("Cloning project", Pending),
     Overall("Checking out " + TargetBranch(job), Pending)]
  }

  function StartPosts(job: EvaluationJob, w: World, n: bool): seq<Post> {
    OpeningPosts(job) + TargetStepPosts(w, n)
  }

  function TargetStepPosts(w: World, n: bool): seq<Post> {
    if n then TargetPosts(w) + ErrorPosts(w.listingBefore.Failure?, TARGET_BROKEN) else []
  }

  predicate Starts(w: World, n: bool) {
    n ==> w.listingBefore.Success?
  }

  function FetchPosts(w: World): seq<Post> {
    [Overall("Fetching PR", Pending)]
    + if w.commitExists then [] else [Overall("Commit not found", State.Error)]
  }

  function MergeCommitPosts(w: World, n: bool): seq<Post> {
    [Overall("Merging PR", Pending)]
    + (if !w.merged then [Overall("Failed to merge", State.Failure)]
       else if n then MergePosts(w) + ErrorPosts(w.listingAfter.Failure?, PR_BROKEN)
       else [])
  }

  function MergingPosts(w: World, n: bool): seq<Post> {
    FetchPosts(w) + if w.commitExists then MergeCommitPosts(w, n) else []
  }

  predicate Merges(w: World, n: bool) {
    w.commitExists && w.merged && (n ==> w.listingAfter.Success?)
  }

  function Checks(n: bool): seq<EvalChecker> {
    if n then NixpkgsChecks() else []
  }

  function CheckPost(check: EvalChecker, state: State): Post {
    Post(check.Context(), check.CliCmd(), state)
  }

  function CheckPair(check: EvalChecker, passes: bool): seq<Post> {
    [CheckPost(check, Pending), CheckPost(check, if passes then State.Success else State.Failure)]
  }

  /** Checks run one after the other until one fails; `i` counts those already run. */
  function CheckPosts(checks: seq<EvalChecker>, passes: nat -> bool, i: nat): seq<Post>
    requires i <= |checks|
    decreases |checks| - i
  {
    if i == |checks| then []
    else if passes(i) then CheckPair(checks[i], true) + CheckPosts(checks, passes, i + 1)
    else CheckPair(checks[i], false)
  }

  predicate AllPass(checks: seq<EvalChecker>, passes: nat -> bool) {
    forall i :: 0 <= i < |checks| ==> passes(i)
  }

  function CheckingPosts(w: World, checks: seq<EvalChecker>): seq<Post> {
    [Overall("Beginning Evaluations", Pending)] + CheckPosts(checks, w.checkPasses, 0)
  }

  predicate Validates(w: World, n: bool) {
    n ==> w.packages.Success?
  }

  function Verdict(w: World, n: bool): Post {
    if Validates(w, n) then Overall("^.^!", State.Success) else Overall(META_BROKEN, State.Failure)
  }

  function PassPosts(w: World, n: bool): seq<Post>
    requires Starts(w, n) && Merges(w, n)
  {
    if n then PassedPosts(w) else []
  }

  function FinalPosts(w: World, n: bool, checks: seq<EvalChecker>): seq<Post>
    requires Starts(w, n) && Merges(w, n)
  {
    if !AllPass(checks, w.checkPasses) then [Overall("Complete, with errors", State.Failure)]
    else PassPosts(w, n) + [Verdict(w, n)]
  }

  function LastPosts(w: World, n: bool, checks: seq<EvalChecker>): seq<Post>
    requires Starts(w, n) && Merges(w, n)
  {
    CheckingPosts(w, checks) + FinalPosts(w, n, checks)
  }

  /** What a run posts from the target branch on. */
  function RestPosts(w: World, n: bool, checks: seq<EvalChecker>): seq<Post>
    requires Starts(w, n)
  {
    if Merges(w, n) then MergingPosts(w, n) + LastPosts(w, n, checks) else MergingPosts(w, n)
  }

  /** Everything a run posts that starts at all and does not panic. */
  function Posts(job: EvaluationJob, w: World, n: bool, checks: seq<EvalChecker>): seq<Post> {
    if Starts(w, n) then StartPosts(job, w, n) + RestPosts(w, n, checks) else StartPosts(job, w, n)
  }

  /** Every step and every check succeeds. */
  predicate Succeeds(w: World, n: bool, checks: seq<EvalChecker>) {
    && Starts(w, n) && Merges(w, n) && AllPass(checks, w.checkPasses) && Validates(w, n)
  }

  /** A failed `unwrap` in the git steps. */
  predicate GitPanics(w: World, n: bool) {
    !w.cloned || !w.checkedOut || (Starts(w, n) && !w.fetched)
  }

  /** The run gets past the last step: no step of the evaluation stopped it. */
  predicate Completes(w: World, n: bool, checks: seq<EvalChecker>) {
    Starts(w, n) && Merges(w, n) && (AllPass(checks, w.checkPasses) ==> Validates(w, n))
  }

  /** The events a run publishes when nothing panics. */
  function RunEvents(job: EvaluationJob, w: World, n: bool, checks: seq<EvalChecker>): seq<Event> {
    if !Starts(w, n) then []
    else
      Durations(job) + LastEvents(w, n, checks)
  }

  function LastEvents(w: World, n: bool, checks: seq<EvalChecker>): seq<Event> {
    if Completes(w, n, checks) then [TaskEvaluationCheckComplete] else []
  }

  function Durations(job: EvaluationJob): seq<Event> {
    [EvaluationDuration(TargetBranch(job)), EvaluationDurationCount(TargetBranch(job))]
  }

  /** The event is the first of these that cannot be published. */
  ghost predicate FirstRefusal(delivers: nat -> bool, first: nat, events: seq<Event>, event: Event) {
    exists k :: 0 <= k < |events| && events[k] == event && !delivers(first + k)
                && forall j :: first <= j < first + k ==> delivers(j)
  }

  /** How a run ends: with its actions, by a call that panicked, or by an event that could not be published. */
  datatype Ending = Answered(actions: seq<Action>) | Crashed | Unpublished(event: Event)

  /** An answer has published every event planned; otherwise a refused event is the first of them that is. */
  ghost predicate Published(delivers: nat -> bool, first: nat, before: seq<Event>, after: seq<Event>,
                            planned: seq<Event>, end: Ending) {
    && (end.Unpublished? ==> FirstRefusal(delivers, first, planned, end.event))
    && (end.Answered? ==>
          && after == before + planned
          && forall k: nat :: first <= k < first + |planned| ==> delivers(k))
  }

  // What a run makes of the labels.

  ghost function MergeLabels(tagPaths: map<string, seq<string>>, w: World, labels: set<string>): set<string> {
    if !w.commitExists then labels
    else if !w.merged then PathLabels(tagPaths, w, labels) + {MERGE_CONFLICT}
    else PathLabels(tagPaths, w, labels) - {MERGE_CONFLICT}
  }

  ghost function LabelsAfter(tagPaths: map<string, seq<string>>, submitter: string, w: World, n: bool,
                             checks: seq<EvalChecker>, labels: set<string>): set<string> {
    if !n then labels
    else if !Starts(w, n) then TitleLabels(w, labels)
    else LabelsFromTarget(tagPaths, submitter, w, checks, TitleLabels(w, labels))
  }

  ghost function LabelsFromTarget(tagPaths: map<string, seq<string>>, submitter: string, w: World,
                                  checks: seq<EvalChecker>, labels: set<string>): set<string>
    requires Starts(w, true)
  {
    var merged := MergeLabels(tagPaths, w, labels);
    if !Merges(w, true) || !AllPass(checks, w.checkPasses) then merged else DiffLabels(w, submitter, merged)
  }

  // The run.

  ghost function Footprint(strategy: Option<NixpkgsStrategy>): set<object>
    reads if strategy.Some? then {strategy.value} else {}
  {
    if strategy.Some? then {strategy.value as object} + strategy.value.Diffs() else {}
  }

  ghost function StrategyLabels(strategy: Option<NixpkgsStrategy>, w: World, checks: seq<EvalChecker>,
                                labels: set<string>): set<string> {
    if strategy.None? then labels
    else LabelsAfter(strategy.value.tagPaths, strategy.value.submitter, w, true, checks, labels)
  }

  ghost function StrategyLabelsFromTarget(strategy: Option<NixpkgsStrategy>, w: World, checks: seq<EvalChecker>,
                                          labels: set<string>): set<string>
    requires Starts(w, strategy.Some?)
  {
    if strategy.None? then labels
    else LabelsFromTarget(strategy.value.tagPaths, strategy.value.submitter, w, checks, labels)
  }

  /** Labels the strategy does not manage are as they were; a generic evaluation changes none. */
  ghost predicate Kept(strategy: Option<NixpkgsStrategy>, before: set<string>, after: set<string>) {
    if strategy.Some? then SameOutside(Managed(strategy.value.tagPaths), before, after) else after == before
  }

  ghost predicate Linked(strategy: Option<NixpkgsStrategy>, host: Host, status: CommitStatus) {
    && status.host == host && status.context == EVAL
    && (strategy.Some? ==> strategy.value.host == host)
  }

  function StepPosts(ret: StepResult): seq<Post> {
    if ret.Failure? then [Overall(ret.error.message, State.Failure)] else []
  }

  /** Reports a failed step. */
  method HandleStrategyErr(ret: StepResult, host: Host, status: CommitStatus) returns (r: Outcome<bool>)
    requires status.host == host && status.context == EVAL
    modifies host`calls, host`posted, status
    ensures r.Panicked? ==> host.posted == old(host.posted)
    ensures host.Reliable() ==> r.Value?
    ensures r.Value? ==> r.value == ret.Failure?
    ensures r.Value? ==> host.posted
                         == old(host.posted) + StepPosts(ret)
  {
    if ret.Success? {
      return Value(false);
    }
    if ret.error.FailWithGist? {
      var reply := host.Call();
      :- reply;
    }
    :- status.SetWithDescription(ret.error.message, State.Failure);
    r := Value(true);
  }

  /** Up to the checked out target branch; `stop` when a step failed. */
  method Open(job: EvaluationJob, w: World, strategy: Option<NixpkgsStrategy>, host: Host, status: CommitStatus)
    returns (stop: Outcome<bool>)
    requires Linked(strategy, host, status)
    modifies host`calls, host`posted, host.issue, status
    ensures old(host.posted) <= host.posted <= old(host.posted) + OpeningPosts(job)
    ensures Kept(strategy, old(host.issue.labels), host.issue.labels)
    ensures host.Reliable() && w.cloned && w.checkedOut ==> stop.Value?
    ensures stop.Value? ==>
              && w.cloned && w.checkedOut && !stop.value
              && host.posted == old(host.posted) + OpeningPosts(job)
              && host.issue.labels == (if strategy.Some? then TitleLabels(w, old(host.issue.labels))
                                       else old(host.issue.labels))
  {
    var reply := status.SetWithDescription("Starting", Pending);
    :- reply;
    var ret := Result.Success(());
    if strategy.Some? {
      ret :- strategy.value.PreClone(w);
    }
    var failed :- HandleStrategyErr(ret, host, status);
    if failed {
      return Value(true);
    }
    :- status.SetWithDescription("Cloning project", Pending);
    if !w.cloned {
      return Panicked;
    }
    :- status.SetWithDescription("Checking out " + TargetBranch(job), Pending);
    if !w.checkedOut {
      return Panicked;
    }
    stop := Value(false);
  }

  /** Up to the evaluated target branch. */
  method Start(job: EvaluationJob, w: World, strategy: Option<NixpkgsStrategy>, host: Host, status: CommitStatus)
    returns (stop: Outcome<bool>)
    requires Linked(strategy, host, status)
    modifies Footprint(strategy), host`calls, host`posted, host.issue, status
    ensures fresh(Footprint(strategy) - old(Footprint(strategy)))
    ensures old(host.posted) <= host.posted <= old(host.posted) + StartPosts(job, w, strategy.Some?)
    ensures Kept(strategy, old(host.issue.labels), host.issue.labels)
    ensures host.Reliable() && w.cloned && w.checkedOut ==> stop.Value?
    ensures stop.Value? ==>
              && w.cloned && w.checkedOut
              && host.posted == old(host.posted) + StartPosts(job, w, strategy.Some?)
              && host.issue.labels == (if strategy.Some? then TitleLabels(w, old(host.issue.labels))
                                       else old(host.issue.labels))
              && stop.value == !Starts(w, strategy.Some?)
              && (!stop.value && strategy.Some? ==> strategy.value.Before(w))
  {
    Associate(host.posted, OpeningPosts(job), TargetStepPosts(w, strategy.Some?));
    var failed :- Open(job, w, strategy, host, status);
    if failed {
      return Value(true);
    }
    stop := TargetStep(w, strategy, host, status);
  }

  method TargetStep(w: World, strategy: Option<NixpkgsStrategy>, host: Host, status: CommitStatus)
    returns (stop: Outcome<bool>)
    requires Linked(strategy, host, status)
    modifies Footprint(strategy), host`calls, host`posted, status
    ensures fresh(Footprint(strategy) - old(Footprint(strategy)))
    ensures old(host.posted) <= host.posted <= old(host.posted) + TargetStepPosts(w, strategy.Some?)
    ensures host.Reliable() ==> stop.Value?
    ensures stop.Value? ==>
              && host.posted == old(host.posted) + TargetStepPosts(w, strategy.Some?)
              && stop.value == !Starts(w, strategy.Some?)
              && (!stop.value && strategy.Some? ==> strategy.value.Before(w))
  {
    var ret := Result.Success(());
    if strategy.Some? {
      ret :- strategy.value.OnTargetBranch(w, status);
    }
    stop := HandleStrategyErr(ret, host, status);
  }

  /** Up to the fetched change; `stop` when its commit does not exist or a step failed. */
  method Fetch(w: World, strategy: Option<NixpkgsStrategy>, host: Host, status: CommitStatus)
    returns (stop: Outcome<bool>)
    requires Linked(strategy, host, status)
    modifies (if strategy.Some? then {strategy.value} else {})`changedPaths
    modifies (if strategy.Some? then {strategy.value} else {})`touchedPackages
    modifies host`calls, host`posted, host.issue, status
    ensures old(host.posted) <= host.posted <= old(host.posted) + FetchPosts(w)
    ensures Kept(strategy, old(host.issue.labels), host.issue.labels)
    ensures host.Reliable() && w.fetched ==> stop.Value?
    ensures stop.Value? ==>
              && w.fetched
              && stop.value == !w.commitExists
              && host.posted == old(host.posted) + FetchPosts(w)
              && host.issue.labels == (if strategy.Some? && w.commitExists
                                       then PathLabels(strategy.value.tagPaths, w, old(host.issue.labels))
                                       else old(host.issue.labels))
              && (!stop.value && strategy.Some? ==> strategy.value.Fetched(w))
  {
    var reply := status.SetWithDescription("Fetching PR", Pending);
    :- reply;
    if !w.fetched {
      return Panicked;
    }
    :- host.Call();
    if !w.commitExists {
      var reply := status.SetWithDescription("Commit not found", State.Error);
      :- reply;
      return Value(true);
    }
    var ret := Result.Success(());
    if strategy.Some? {
      ret :- strategy.value.AfterFetch(w);
    }
    stop := HandleStrategyErr(ret, host, status);
  }

  method MergeCommit(w: World, strategy: Option<NixpkgsStrategy>, host: Host, status: CommitStatus)
    returns (stop: Outcome<bool>)
    requires Linked(strategy, host, status)
    requires strategy.Some? ==> strategy.value.Before(w)
    modifies (if strategy.Some? then strategy.value.Diffs() else {}), host`calls, host`posted, host.issue, status
    ensures old(host.posted) <= host.posted <= old(host.posted) + MergeCommitPosts(w, strategy.Some?)
    ensures Kept(strategy, old(host.issue.labels), host.issue.labels)
    ensures host.Reliable() ==> stop.Value?
    ensures stop.Value? ==>
              && host.posted == old(host.posted) + MergeCommitPosts(w, strategy.Some?)
              && stop.value == !(w.merged && (strategy.Some? ==> w.listingAfter.Success?))
              && host.issue.labels == (if strategy.None? then old(host.issue.labels)
                                       else if w.merged then old(host.issue.labels) - {MERGE_CONFLICT}
                                       else old(host.issue.labels) + {MERGE_CONFLICT})
              && (!stop.value && strategy.Some? ==> strategy.value.After(w))
  {
    var reply := status.SetWithDescription("Merging PR", Pending);
    :- reply;
    if !w.merged {
      var reply := status.SetWithDescription("Failed to merge", State.Failure);
      :- reply;
      if strategy.Some? {
        var reply := strategy.value.MergeConflict();
        :- reply;
      }
      return Value(true);
    }
    var ret := Result.Success(());
    if strategy.Some? {
      ret :- strategy.value.AfterMerge(w, status);
    }
    stop := HandleStrategyErr(ret, host, status);
  }

  /** Up to the merged and evaluated change. */
  method Merge(w: World, strategy: Option<NixpkgsStrategy>, host: Host, status: CommitStatus)
    returns (stop: Outcome<bool>)
    requires Linked(strategy, host, status)
    requires strategy.Some? ==> strategy.value.Before(w)
    modifies Footprint(strategy), host`calls, host`posted, host.issue, status
    ensures old(host.posted) <= host.posted <= old(host.posted) + MergingPosts(w, strategy.Some?)
    ensures Kept(strategy, old(host.issue.labels), host.issue.labels)
    ensures host.Reliable() && w.fetched ==> stop.Value?
    ensures stop.Value? ==>
              && w.fetched
              && host.posted == old(host.posted) + MergingPosts(w, strategy.Some?)
              && stop.value == !Merges(w, strategy.Some?)
              && (strategy.Some? ==>
                    host.issue.labels == MergeLabels(strategy.value.tagPaths, w, old(host.issue.labels)))
              && (strategy.None? ==> host.issue.labels == old(host.issue.labels))
              && (!stop.value && strategy.Some? ==> strategy.value.After(w) && strategy.value.Fetched(w))
  {
    var failed :- Fetch(w, strategy, host, status);
    if failed {
      return Value(true);
    }
    stop := MergeCommit(w, strategy, host, status);
  }

  /** Reading a failed check's output, and putting it up. */
  method ReadAndGist(host: Host) returns (r: Reply)
    modifies host`calls
    ensures host.Reliable() ==> r.Done?
  {
    r := host.Call();
    if r.Done? {
      r := host.Call();
    }
  }

  /** One check with its own status. */
  method RunCheck(check: EvalChecker, passes: bool, host: Host) returns (r: Reply)
    modifies host`calls, host`posted
    ensures host.Reliable() ==> r.Done?
    ensures old(host.posted) <= host.posted <= old(host.posted) + CheckPair(check, passes)
    ensures r.Done? ==> host.posted == old(host.posted) + CheckPair(check, passes)
  {
    var status := new CommitStatus(host, check.Context(), check.CliCmd());
    r := status.Set(Pending);
    if r.Broken? {
      return;
    }
    r := host.Call();
    if r.Broken? {
      return;
    }
    if !passes {
      r := ReadAndGist(host);
      if r.Broken? {
        return;
      }
    }
    r := status.Set(if passes then State.Success else State.Failure);
  }

  /** Runs the checks until one fails. */
  method RunChecks(w: World, checks: seq<EvalChecker>, host: Host, status: CommitStatus) returns (r: Outcome<bool>)
    requires status.host == host && status.context == EVAL
    modifies host`calls, host`posted, status
    ensures old(host.posted) <= host.posted <= old(host.posted) + CheckingPosts(w, checks)
    ensures host.Reliable() ==> r.Value?
    ensures r.Value? ==> r.value == AllPass(checks, w.checkPasses)
    ensures r.Value? ==> host.posted == old(host.posted) + CheckingPosts(w, checks)
  {
    var reply := status.SetWithDescription("Beginning Evaluations", Pending);
    :- reply;
    Associate(old(host.posted), [Overall("Beginning Evaluations", Pending)], CheckPosts(checks, w.checkPasses, 0));
    ghost var all := host.posted + CheckPosts(checks, w.checkPasses, 0);
    for i := 0 to |checks|
      invariant forall k :: 0 <= k < i ==> w.checkPasses(k)
      invariant old(host.posted) <= host.posted
      invariant host.posted + CheckPosts(checks, w.checkPasses, i) == all
    {
      Associate(host.posted, CheckPair(checks[i], w.checkPasses(i)), CheckPosts(checks, w.checkPasses, i)[2..]);
      assert host.posted + CheckPair(checks[i], w.checkPasses(i)) <= all;
      :- RunCheck(checks[i], w.checkPasses(i), host);
      if !w.checkPasses(i) {
        return Value(false);
      }
    }
    r := Value(true);
  }

  /** What is scheduled: the touched packages once everything succeeded; always one acknowledgement, at the end. */
  ghost predicate Responds(job: EvaluationJob, w: World, n: bool, checks: seq<EvalChecker>, archs: seq<System>,
                           actions: seq<Action>) {
    if n && Succeeds(w, n, checks) then
      exists builds :: BuildsTouched(job, w, builds) && actions == Scheduled(builds, archs) + [Ack]
    else actions == [Ack]
  }

  /** From the passed checks to the verdict; `None` when the last step failed. */
  method Complete(job: EvaluationJob, w: World, strategy: Option<NixpkgsStrategy>, archs: seq<System>,
                  host: Host, status: CommitStatus) returns (r: Outcome<Option<seq<Action>>>)
    requires Linked(strategy, host, status)
    requires Merges(w, strategy.Some?) && Starts(w, strategy.Some?)
    requires strategy.Some? ==> strategy.value.job == job && strategy.value.After(w) && strategy.value.Fetched(w)
    modifies host`calls, host`posted, host.issue, status
    ensures r.Panicked? ==> old(host.posted) <= host.posted <= old(host.posted) + PassPosts(w, strategy.Some?)
    ensures Kept(strategy, old(host.issue.labels), host.issue.labels)
    ensures host.Reliable() ==> r.Value?
    ensures r.Value? ==> host.posted == old(host.posted) + PassPosts(w, strategy.Some?) + [Verdict(w, strategy.Some?)]
    ensures r.Value? ==> host.issue.labels
                         == (if strategy.Some? then DiffLabels(w, strategy.value.submitter, old(host.issue.labels))
                             else old(host.issue.labels))
    ensures r.Value? ==> (r.value.Some? <==> Validates(w, strategy.Some?))
    ensures r.Value? && r.value.Some? ==> Yields(job, w, strategy.Some?, archs, r.value.value)
  {
    var builds := [];
    if strategy.Some? {
      var ret :- strategy.value.AllEvaluationsPassed(w, status);
      if ret.Failure? {
        var failed :- HandleStrategyErr(Result.Failure(ret.error), host, status);
        return Value(None);
      }
      builds := ret.value;
    }
    var response := ScheduleBuilds(builds, archs);
    :- status.SetWithDescription("^.^!", State.Success);
    r := Value(Some(response));
  }

  /** What is scheduled after all checks passed. */
  ghost predicate Yields(job: EvaluationJob, w: World, n: bool, archs: seq<System>, response: seq<Action>) {
    if n then exists builds :: BuildsTouched(job, w, builds) && response == Scheduled(builds, archs) else response == []
  }

  /** From the merged change to the verdict; both diffs, the paths and the packages are there. */
  method Finish(job: EvaluationJob, w: World, strategy: Option<NixpkgsStrategy>, checks: seq<EvalChecker>,
                archs: seq<System>, host: Host, status: CommitStatus) returns (r: Outcome<Option<seq<Action>>>)
    requires Linked(strategy, host, status)
    requires Starts(w, strategy.Some?) && Merges(w, strategy.Some?)
    requires strategy.Some? ==> strategy.value.job == job && strategy.value.After(w) && strategy.value.Fetched(w)
    modifies host`calls, host`posted, host.issue, status
    ensures r.Panicked? ==> old(host.posted) <= host.posted < old(host.posted) + LastPosts(w, strategy.Some?, checks)
    ensures Kept(strategy, old(host.issue.labels), host.issue.labels)
    ensures host.Reliable() ==> r.Value?
    ensures r.Value? ==>
              && host.posted == old(host.posted) + LastPosts(w, strategy.Some?, checks)
              && host.issue.labels == (if strategy.Some? && AllPass(checks, w.checkPasses)
                                       then DiffLabels(w, strategy.value.submitter, old(host.issue.labels))
                                       else old(host.issue.labels))
              && (r.value.Some? <==> Completes(w, strategy.Some?, checks))
    ensures r.Value? && r.value.Some? ==> Responds(job, w, strategy.Some?, checks, archs, r.value.value + [Ack])
  {
    ghost var n := strategy.Some?;
    Associate(host.posted, CheckingPosts(w, checks), FinalPosts(w, n, checks));
    var passed :- RunChecks(w, checks, host, status);
    if !passed {
      var reply := status.SetWithDescription("Complete, with errors", State.Failure);
      :- reply;
      return Value(Some([]));
    }
    Associate(host.posted, PassPosts(w, n), [Verdict(w, n)]);
    r := Complete(job, w, strategy, archs, host, status);
  }

  method NotifyDurations(job: EvaluationJob, host: Host) returns (r: Ending)
    modifies host`attempts, host`events
    ensures !r.Crashed?
    ensures Published(host.delivers, old(host.attempts), old(host.events), host.events, Durations(job), r)
    ensures r.Answered? ==> host.attempts == old(host.attempts) + 2
  {
    ghost var first := host.attempts;
    var reply := host.Notify(EvaluationDuration(TargetBranch(job)));
    if reply.Broken? {
      assert Durations(job)[0] == EvaluationDuration(TargetBranch(job)) && !host.delivers(first + 0);
      return Unpublished(EvaluationDuration(TargetBranch(job)));
    }
    reply := host.Notify(EvaluationDurationCount(TargetBranch(job)));
    if reply.Broken? {
      assert Durations(job)[1] == EvaluationDurationCount(TargetBranch(job)) && !host.delivers(first + 1);
      return Unpublished(EvaluationDurationCount(TargetBranch(job)));
    }
    r := Answered([]);
  }

  /** The two events, then up to the evaluation of the merged change; no actions yet when all went well. */
  method TellAndMerge(job: EvaluationJob, w: World, strategy: Option<NixpkgsStrategy>, host: Host, status: CommitStatus)
    returns (r: Ending)
    requires Linked(strategy, host, status)
    requires strategy.Some? ==> strategy.value.Before(w)
    modifies Footprint(strategy), host`calls, host`attempts, host`posted, host`events, host.issue, status
    ensures old(host.posted) <= host.posted <= old(host.posted) + MergingPosts(w, strategy.Some?)
    ensures Kept(strategy, old(host.issue.labels), host.issue.labels)
    ensures host.Reliable() && w.fetched ==> !r.Crashed?
    ensures Published(host.delivers, old(host.attempts), old(host.events), host.events, Durations(job), r)
    ensures r.Answered? ==> host.attempts == old(host.attempts) + 2
    ensures r != Unpublished(TaskEvaluationCheckComplete)
    ensures r.Answered? ==>
              && w.fetched
              && host.posted == old(host.posted) + MergingPosts(w, strategy.Some?)
              && r.actions == (if Merges(w, strategy.Some?) then [] else [Ack])
              && (strategy.Some? ==>
                    host.issue.labels == MergeLabels(strategy.value.tagPaths, w, old(host.issue.labels)))
              && (strategy.None? ==> host.issue.labels == old(host.issue.labels))
              && (Merges(w, strategy.Some?) && strategy.Some? ==> strategy.value.After(w) && strategy.value.Fetched(w))
  {
    r := NotifyDurations(job, host);
    if r.Unpublished? {
      return;
    }
    var stop := Merge(w, strategy, host, status);
    if stop.Panicked? {
      return Crashed;
    }
    r := Answered(if stop.value then [Ack] else []);
  }

  /** The verdict, then the last event, then the actions. */
  method Conclude(job: EvaluationJob, w: World, strategy: Option<NixpkgsStrategy>, checks: seq<EvalChecker>,
                  archs: seq<System>, host: Host, status: CommitStatus) returns (r: Ending)
    requires Linked(strategy, host, status)
    requires Starts(w, strategy.Some?) && Merges(w, strategy.Some?)
    requires strategy.Some? ==> strategy.value.job == job && strategy.value.After(w) && strategy.value.Fetched(w)
    modifies host`calls, host`attempts, host`posted, host`events, host.issue, status
    ensures old(host.posted) <= host.posted <= old(host.posted) + LastPosts(w, strategy.Some?, checks)
    ensures host.posted == old(host.posted) + LastPosts(w, strategy.Some?, checks) <==> !r.Crashed?
    ensures Kept(strategy, old(host.issue.labels), host.issue.labels)
    ensures host.Reliable() ==> !r.Crashed?
    ensures r.Unpublished? ==>
              && Completes(w, strategy.Some?, checks)
              && r.event == TaskEvaluationCheckComplete && !host.delivers(old(host.attempts))
    ensures r.Answered? ==>
              && host.issue.labels == (if strategy.Some? && AllPass(checks, w.checkPasses)
                                       then DiffLabels(w, strategy.value.submitter, old(host.issue.labels))
                                       else old(host.issue.labels))
              && Responds(job, w, strategy.Some?, checks, archs, r.actions)
              && host.events == old(host.events) + LastEvents(w, strategy.Some?, checks)
              && (Completes(w, strategy.Some?, checks) ==> host.delivers(old(host.attempts)))
  {
    var response := Finish(job, w, strategy, checks, archs, host, status);
    if response.Panicked? {
      return Crashed;
    }
    if response.value.None? {
      return Answered([Ack]);
    }
    var reply := host.Notify(TaskEvaluationCheckComplete);
    if reply.Broken? {
      return Unpublished(TaskEvaluationCheckComplete);
    }
    r := Answered(response.value.value + [Ack]);
  }

  /**
   * From `before`, a run that was to post `all` has made a beginning of it:
   * everything when it answers or only its last event failed, and when it
   * crashes not everything if it was to succeed.
   */
  ghost predicate Made(before: seq<Post>, all: seq<Post>, after: seq<Post>, completes: bool, succeeds: bool,
                       end: Ending) {
    && before <= after <= before + all
    && (end.Answered? ==> after == before + all)
    && (end == Unpublished(TaskEvaluationCheckComplete) ==> completes && after == before + all)
    && (!end.Answered? && end != Unpublished(TaskEvaluationCheckComplete) && succeeds ==> after != before + all)
  }

  lemma MadeSome(before: seq<Post>, all: seq<Post>, now: seq<Post>, completes: bool, succeeds: bool, end: Ending)
    requires before <= now <= before + all && end != Unpublished(TaskEvaluationCheckComplete)
    requires end.Answered? ==> now == before + all
    requires succeeds && !end.Answered? ==> |now| < |before + all|
    ensures Made(before, all, now, completes, succeeds, end)
  {
  }

  lemma MadeMerging(before: seq<Post>, now: seq<Post>, w: World, n: bool, checks: seq<EvalChecker>, end: Ending)
    requires Starts(w, n) && before <= now <= before + MergingPosts(w, n)
    requires end.Answered? ==> !Merges(w, n) && now == before + MergingPosts(w, n)
    requires end != Unpublished(TaskEvaluationCheckComplete)
    ensures Made(before, RestPosts(w, n, checks), now, Completes(w, n, checks), Succeeds(w, n, checks), end)
  {
    if Merges(w, n) {
      Associate(before, MergingPosts(w, n), LastPosts(w, n, checks));
      assert |LastPosts(w, n, checks)| > 0;
      assert |before + RestPosts(w, n, checks)| > |before + MergingPosts(w, n)| >= |now|;
    }
    MadeSome(before, RestPosts(w, n, checks), now, Completes(w, n, checks), Succeeds(w, n, checks), end);
  }

  lemma MadeLast(before: seq<Post>, merged: seq<Post>, now: seq<Post>, w: World, n: bool, checks: seq<EvalChecker>,
                 end: Ending)
    requires Starts(w, n) && Merges(w, n) && merged == before + MergingPosts(w, n)
    requires merged <= now <= merged + LastPosts(w, n, checks)
    requires now == merged + LastPosts(w, n, checks) <==> !end.Crashed?
    requires end.Unpublished? ==> Completes(w, n, checks) && end.event == TaskEvaluationCheckComplete
    ensures Made(before, RestPosts(w, n, checks), now, Completes(w, n, checks), Succeeds(w, n, checks), end)
  {
    Associate(before, MergingPosts(w, n), LastPosts(w, n, checks));
  }

  lemma PublishedEarly(delivers: nat -> bool, first: nat, before: seq<Event>, after: seq<Event>,
                       job: EvaluationJob, w: World, n: bool, checks: seq<EvalChecker>, end: Ending)
    requires Starts(w, n) && Published(delivers, first, before, after, Durations(job), end)
    requires end.Answered? ==> !Completes(w, n, checks)
    ensures Published(delivers, first, before, after, RunEvents(job, w, n, checks), end)
  {
    if end.Unpublished? {
      var k :| 0 <= k < 2 && Durations(job)[k] == end.event && !delivers(first + k)
               && forall j :: first <= j < first + k ==> delivers(j);
      assert RunEvents(job, w, n, checks)[k] == end.event;
    }
  }

  lemma PublishedLate(delivers: nat -> bool, first: nat, before: seq<Event>, after: seq<Event>,
                      job: EvaluationJob, w: World, n: bool, checks: seq<EvalChecker>, end: Ending)
    requires Starts(w, n) && delivers(first) && delivers(first + 1)
    requires end.Unpublished? ==>
               Completes(w, n, checks) && end.event == TaskEvaluationCheckComplete && !delivers(first + 2)
    requires end.Answered? ==>
               && after == before + Durations(job) + LastEvents(w, n, checks)
               && (Completes(w, n, checks) ==> delivers(first + 2))
    ensures Published(delivers, first, before, after, RunEvents(job, w, n, checks), end)
  {
    if Completes(w, n, checks) {
      assert RunEvents(job, w, n, checks)[2] == TaskEvaluationCheckComplete;
    }
  }

  /** From the evaluated target branch to the end. */
  method FromTarget(job: EvaluationJob, archs: seq<System>, w: World, checks: seq<EvalChecker>,
                    strategy: Option<NixpkgsStrategy>, host: Host, status: CommitStatus) returns (r: Ending)
    requires Linked(strategy, host, status) && Starts(w, strategy.Some?)
    requires strategy.Some? ==> strategy.value.job == job && strategy.value.Before(w)
    modifies Footprint(strategy), host`calls, host`attempts, host`posted, host`events, host.issue, status
    ensures Kept(strategy, old(host.issue.labels), host.issue.labels)
    ensures Made(old(host.posted), RestPosts(w, strategy.Some?, checks), host.posted,
                 Completes(w, strategy.Some?, checks), Succeeds(w, strategy.Some?, checks), r)
    ensures Published(host.delivers, old(host.attempts), old(host.events), host.events,
                      RunEvents(job, w, strategy.Some?, checks), r)
    ensures host.Reliable() && w.fetched ==> !r.Crashed?
    ensures r.Answered? ==>
              && w.fetched
              && host.issue.labels == StrategyLabelsFromTarget(strategy, w, checks, old(host.issue.labels))
              && Responds(job, w, strategy.Some?, checks, archs, r.actions)
  {
    ghost var n, before, first, events := strategy.Some?, host.posted, host.attempts, host.events;
    r := TellAndMerge(job, w, strategy, host, status);
    if !r.Answered? || r.actions != [] {
      MadeMerging(before, host.posted, w, n, checks, r);
      PublishedEarly(host.delivers, first, events, host.events, job, w, n, checks, r);
      return;
    }
    ghost var merged := host.posted;
    r := Conclude(job, w, strategy, checks, archs, host, status);
    MadeLast(before, merged, host.posted, w, n, checks, r);
    PublishedLate(host.delivers, first, events, host.events, job, w, n, checks, r);
  }

  /** One evaluation of an open issue. */
  method Evaluate(job: EvaluationJob, archs: seq<System>, w: World, checks: seq<EvalChecker>,
                  strategy: Option<NixpkgsStrategy>, host: Host) returns (r: Ending)
    requires strategy.Some? ==> strategy.value.host == host && strategy.value.job == job
    modifies Footprint(strategy), host`calls, host`attempts, host`posted, host`events, host.issue
    ensures Kept(strategy, old(host.issue.labels), host.issue.labels)
    ensures Made(old(host.posted), Posts(job, w, strategy.Some?, checks), host.posted,
                 Completes(w, strategy.Some?, checks), Succeeds(w, strategy.Some?, checks), r)
    ensures Published(host.delivers, old(host.attempts), old(host.events), host.events,
                      RunEvents(job, w, strategy.Some?, checks), r)
    ensures host.Reliable() && !GitPanics(w, strategy.Some?) ==> !r.Crashed?
    ensures r.Answered? ==>
              && !GitPanics(w, strategy.Some?)
              && host.issue.labels == StrategyLabels(strategy, w, checks, old(host.issue.labels))
              && Responds(job, w, strategy.Some?, checks, archs, r.actions)
  {
    ghost var n, before := strategy.Some?, host.posted;
    var status := new CommitStatus(host, EVAL, "Starting");
    var stop := Start(job, w, strategy, host, status);
    ghost var started := host.posted;
    if stop.Panicked? || stop.value {
      r := if stop.Panicked? then Crashed else Answered([Ack]);
      MadeStart(before, started, job, w, n, checks, r);
      return;
    }
    r := FromTarget(job, archs, w, checks, strategy, host, status);
    MadeRest(before, started, host.posted, job, w, n, checks, r);
  }

  lemma MadeStart(before: seq<Post>, now: seq<Post>, job: EvaluationJob, w: World, n: bool, checks: seq<EvalChecker>,
                  end: Ending)
    requires before <= now <= before + StartPosts(job, w, n) && !end.Unpublished?
    requires end.Answered? ==> !Starts(w, n) && now == before + StartPosts(job, w, n)
    ensures Made(before, Posts(job, w, n, checks), now, Completes(w, n, checks), Succeeds(w, n, checks), end)
  {
    if Starts(w, n) {
      Associate(before, StartPosts(job, w, n), RestPosts(w, n, checks));
      assert |RestPosts(w, n, checks)| > 0;
      assert |before + Posts(job, w, n, checks)| > |before + StartPosts(job, w, n)| >= |now|;
    }
    MadeSome(before, Posts(job, w, n, checks), now, Completes(w, n, checks), Succeeds(w, n, checks), end);
  }

  lemma MadeRest(before: seq<Post>, started: seq<Post>, now: seq<Post>, job: EvaluationJob, w: World, n: bool,
                 checks: seq<EvalChecker>, end: Ending)
    requires Starts(w, n) && started == before + StartPosts(job, w, n)
    requires Made(started, RestPosts(w, n, checks), now, Completes(w, n, checks), Succeeds(w, n, checks), end)
    ensures Made(before, Posts(job, w, n, checks), now, Completes(w, n, checks), Succeeds(w, n, checks), end)
  {
    Associate(before, StartPosts(job, w, n), RestPosts(w, n, checks));
  }

  /** What an evaluation that answers leaves behind. */
  ghost predicate Evaluated(job: EvaluationJob, issue: IssueInfo, archs: seq<System>, w: World,
                            tagPaths: map<string, seq<string>>, labels: set<string>,
                            labelsAfter: set<string>, actions: seq<Action>) {
    var n := IsNixpkgs(job);
    && !GitPanics(w, n)
    && labelsAfter == LabelsAfter(tagPaths, issue.user, w, n, Checks(n), labels)
    && Responds(job, w, n, Checks(n), if IssueIsWip(issue.title, labels) then [] else archs, actions)
  }

  predicate IsOpen(issue: Option<IssueInfo>) {
    issue.Some? && !issue.value.closed
  }

  /** Without an open issue there is one event. */
  function JobEvents(job: EvaluationJob, issue: Option<IssueInfo>, w: World): seq<Event> {
    var n := IsNixpkgs(job);
    if IsOpen(issue) then RunEvents(job, w, n, Checks(n))
    else [if issue.None? then IssueFetchFailed else IssueAlreadyClosed]
  }

  /** How every run on an open issue ends, whatever fails. */
  ghost predicate Ends(job: EvaluationJob, w: World, before: seq<Post>, after: seq<Post>, end: Ending) {
    var n := IsNixpkgs(job);
    Made(before, Posts(job, w, n, Checks(n)), after, Completes(w, n, Checks(n)), Succeeds(w, n, Checks(n)), end)
  }

  /** One evaluation job; closed issues and issues that cannot be fetched are skipped. */
  method Consumer(job: EvaluationJob, issue: Option<IssueInfo>, archs: seq<System>, w: World,
                  tagPaths: map<string, seq<string>>, host: Host) returns (r: Ending)
    modifies host`calls, host`attempts, host`posted, host`events, host.issue
    ensures SameOutside(Managed(tagPaths), old(host.issue.labels), host.issue.labels)
    ensures IsOpen(issue) ==> Ends(job, w, old(host.posted), host.posted, r)
    ensures !IsOpen(issue) ==> host.posted == old(host.posted)
    ensures Published(host.delivers, old(host.attempts), old(host.events), host.events,
                      JobEvents(job, issue, w), r)
    ensures host.Reliable() && (IsOpen(issue) ==> !GitPanics(w, IsNixpkgs(job))) ==> !r.Crashed?
    ensures r.Answered? && IsOpen(issue) ==>
              Evaluated(job, issue.value, archs, w, tagPaths, old(host.issue.labels), host.issue.labels, r.actions)
    ensures !IsOpen(issue) ==> host.issue.labels == old(host.issue.labels) && (r.Answered? ==> r.actions == [Ack])
  {
    var reply := host.Call();
    if reply.Broken? {
      MadeStart(host.posted, host.posted, job, w, IsNixpkgs(job), Checks(IsNixpkgs(job)), Crashed);
      return Crashed;
    }
    if !IsOpen(issue) {
      r := Skip(if issue.None? then IssueFetchFailed else IssueAlreadyClosed, host);
      return;
    }
    r := EvaluateOpen(job, issue.value, archs, w, tagPaths, host);
  }

  /** The run on an open issue: which architectures to build on, and which strategy. */
  method EvaluateOpen(job: EvaluationJob, issue: IssueInfo, archs: seq<System>, w: World,
                      tagPaths: map<string, seq<string>>, host: Host) returns (r: Ending)
    requires !issue.closed
    modifies host`calls, host`attempts, host`posted, host`events, host.issue
    ensures SameOutside(Managed(tagPaths), old(host.issue.labels), host.issue.labels)
    ensures Ends(job, w, old(host.posted), host.posted, r)
    ensures Published(host.delivers, old(host.attempts), old(host.events), host.events,
                      JobEvents(job, Some(issue), w), r)
    ensures host.Reliable() && !GitPanics(w, IsNixpkgs(job)) ==> !r.Crashed?
    ensures r.Answered? ==>
              Evaluated(job, issue, archs, w, tagPaths, old(host.issue.labels), host.issue.labels, r.actions)
  {
    var schedule := if IssueIsWip(issue.title, host.issue.labels) then [] else archs;
    var strategy := None;
    if IsNixpkgs(job) {
      var nixpkgs := new NixpkgsStrategy(job, issue.user, host, tagPaths);
      strategy := Some(nixpkgs);
    }
    r := Evaluate(job, schedule, w, Checks(strategy.Some?), strategy, host);
  }

  method Skip(event: Event, host: Host) returns (r: Ending)
    modifies host`attempts, host`events
    ensures !r.Crashed?
    ensures Published(host.delivers, old(host.attempts), old(host.events), host.events, [event], r)
    ensures r.Answered? ==> r.actions == [Ack]
  {
    ghost var first := host.attempts;
    var reply := host.Notify(event);
    if reply.Broken? {
      assert [event][0] == event && !host.delivers(first + 0);
      return Unpublished(event);
    }
    r := Answered([Ack]);
  }
}
