/** What holds of every evaluation that does not panic. */
module EvaluationRuns {
  import opened Wrappers
  import opened Labels
  import opened Statuses
  import opened NixpkgsEvaluation
  import opened Evaluation
  import opened OutPaths
  import opened Taggers
  import opened LabelUpdates
  import BuildJobs
  import SortedStrings

  type NewJob = BuildJobs.BuildJob

  // Commit statuses.

  /** The overall status among other contexts. */
  lemma OtherContexts(check: EvalChecker)
    ensures check.Context() != EVAL && CHECK_META != EVAL && CHECK_MAINTAINERS != EVAL
  {
    assert |check.Context()| == 19 + |check.name| && |EVAL| == 18 && |CHECK_META| == 29 && |CHECK_MAINTAINERS| == 36;
  }

  /** A post that may be the last word on a context: not pending. */
  ghost predicate FollowedUp(posts: seq<Post>, i: nat)
    requires i < |posts|
  {
    posts[i].state == Pending ==> exists j :: i < j < |posts| && posts[j].context == posts[i].context
  }

  /** Every pending status other than the overall one is followed by another of its context. */
  ghost predicate ChecksSettle(posts: seq<Post>) {
    forall i :: 0 <= i < |posts| ==> posts[i].context == EVAL || FollowedUp(posts, i)
  }

  lemma ChecksSettleAppend(a: seq<Post>, b: seq<Post>)
    requires ChecksSettle(a) && ChecksSettle(b)
    ensures ChecksSettle(a + b)
  {
    var all := a + b;
    forall i | 0 <= i < |all| && all[i].context != EVAL && all[i].state == Pending
      ensures FollowedUp(all, i)
    {
      if i < |a| {
        assert FollowedUp(a, i);
        var j :| i < j < |a| && a[j].context == a[i].context;
        assert all[j].context == all[i].context;
      } else {
        assert FollowedUp(b, i - |a|);
        var j :| i - |a| < j < |b| && b[j].context == b[i - |a|].context;
        assert all[j + |a|].context == all[i].context;
      }
    }
  }

  lemma OverallSettle(posts: seq<Post>)
    requires forall i :: 0 <= i < |posts| ==> posts[i].context == EVAL
    ensures ChecksSettle(posts)
  {
  }

  lemma PairSettles(first: Post, second: Post)
    requires first.context == second.context && second.state != Pending
    ensures ChecksSettle([first, second])
  {
    assert FollowedUp([first, second], 0) by {
      assert [first, second][1].context == first.context;
    }
  }

  lemma CheckPostsSettle(checks: seq<EvalChecker>, passes: nat -> bool, i: nat)
    requires i <= |checks|
    ensures ChecksSettle(CheckPosts(checks, passes, i))
    decreases |checks| - i
  {
    if i < |checks| {
      var pair := CheckPair(checks[i], passes(i));
      PairSettles(pair[0], pair[1]);
      if passes(i) {
        CheckPostsSettle(checks, passes, i + 1);
        ChecksSettleAppend(pair, CheckPosts(checks, passes, i + 1));
      }
    }
  }

  lemma StartPostsAreOverall(job: EvaluationJob, w: World, n: bool)
    ensures forall i :: 0 <= i < |StartPosts(job, w, n)| ==> StartPosts(job, w, n)[i].context == EVAL
    ensures forall i :: 0 <= i < |MergingPosts(w, n)| ==> MergingPosts(w, n)[i].context == EVAL
  {
  }

  lemma PassPostsSettle(w: World, n: bool)
    requires Starts(w, n) && Merges(w, n)
    ensures ChecksSettle(PassPosts(w, n))
  {
    if n {
      OverallSettle([Overall("Calculating Changed Outputs", Pending)]);
      assert ChecksSettle(MaintainerPosts(w));
      ChecksSettleAppend([Overall("Calculating Changed Outputs", Pending)], MaintainerPosts(w));
      PairSettles(MetaPosts(w)[0], MetaPosts(w)[1]);
      ChecksSettleAppend(DiffPosts(w), MetaPosts(w));
    }
  }

  lemma LastPartSettles(w: World, n: bool, checks: seq<EvalChecker>)
    requires Starts(w, n) && Merges(w, n)
    ensures ChecksSettle(LastPosts(w, n, checks))
  {
    var begin := [Overall("Beginning Evaluations", Pending)];
    OverallSettle(begin);
    CheckPostsSettle(checks, w.checkPasses, 0);
    ChecksSettleAppend(begin, CheckPosts(checks, w.checkPasses, 0));
    if AllPass(checks, w.checkPasses) {
      PassPostsSettle(w, n);
      OverallSettle([Verdict(w, n)]);
      ChecksSettleAppend(PassPosts(w, n), [Verdict(w, n)]);
    } else {
      OverallSettle(FinalPosts(w, n, checks));
    }
    ChecksSettleAppend(CheckingPosts(w, checks), FinalPosts(w, n, checks));
  }

  lemma PostsSettle(job: EvaluationJob, w: World, n: bool, checks: seq<EvalChecker>)
    ensures ChecksSettle(Posts(job, w, n, checks))
  {
    StartPostsAreOverall(job, w, n);
    OverallSettle(StartPosts(job, w, n));
    if Starts(w, n) {
      OverallSettle(MergingPosts(w, n));
      if Merges(w, n) {
        LastPartSettles(w, n, checks);
        ChecksSettleAppend(MergingPosts(w, n), LastPosts(w, n, checks));
        ChecksSettleAppend(StartPosts(job, w, n), MergingPosts(w, n) + LastPosts(w, n, checks));
      } else {
        ChecksSettleAppend(StartPosts(job, w, n), MergingPosts(w, n));
      }
    }
  }

  function Last(posts: seq<Post>): Post
    requires posts != []
  {
    posts[|posts| - 1]
  }

  lemma LastOf(a: seq<Post>, b: seq<Post>)
    requires b != []
    ensures a + b != [] && Last(a + b) == Last(b)
  {
  }

  lemma LastOfStart(job: EvaluationJob, w: World, n: bool)
    requires !Starts(w, n)
    ensures StartPosts(job, w, n) != [] && Last(StartPosts(job, w, n)) == Overall(TARGET_BROKEN, State.Failure)
  {
  }

  lemma LastOfMerging(w: World, n: bool)
    requires !Merges(w, n)
    ensures MergingPosts(w, n) != [] && Last(MergingPosts(w, n)).context == EVAL
    ensures Last(MergingPosts(w, n)).state == if w.commitExists then State.Failure else State.Error
  {
  }

  lemma LastOfFinal(w: World, n: bool, checks: seq<EvalChecker>)
    requires Starts(w, n) && Merges(w, n)
    ensures FinalPosts(w, n, checks) != [] && Last(FinalPosts(w, n, checks)).context == EVAL
    ensures Last(FinalPosts(w, n, checks)).state == if Succeeds(w, n, checks) then State.Success else State.Failure
  {
  }

  /** The last word is on the overall status: success exactly when every step and check succeeded, never pending. */
  lemma LastPostIsTheVerdict(job: EvaluationJob, w: World, n: bool, checks: seq<EvalChecker>)
    ensures var posts := Posts(job, w, n, checks);
            && posts != [] && Last(posts).context == EVAL
            && Last(posts).state in {State.Success, State.Failure, State.Error}
            && (Last(posts).state == State.Success <==> Succeeds(w, n, checks))
            && (Last(posts).state == State.Error <==> Starts(w, n) && !w.commitExists)
  {
    var start, merging := StartPosts(job, w, n), MergingPosts(w, n);
    if !Starts(w, n) {
      LastOfStart(job, w, n);
    } else if !Merges(w, n) {
      LastOfMerging(w, n);
      LastOf(start, merging);
    } else {
      var checking, final := CheckingPosts(w, checks), FinalPosts(w, n, checks);
      LastOfFinal(w, n, checks);
      LastOf(checking, final);
      LastOf(merging, checking + final);
      LastOf(start, merging + (checking + final));
    }
  }

  lemma SettledShowsNothingPending(posts: seq<Post>, context: string)
    requires ChecksSettle(posts) && posts != [] && Last(posts).context == EVAL && Last(posts).state != Pending
    ensures !Shows(posts, context, Pending)
  {
    forall i | 0 <= i < |posts| && posts[i].context == context && posts[i].state == Pending
      ensures exists j :: i < j < |posts| && posts[j].context == context
    {
      assert posts[i].context == EVAL || FollowedUp(posts, i);
      assert posts[|posts| - 1].context == EVAL;
    }
  }

  /** No context is left showing a pending status. */
  lemma NothingIsLeftPending(job: EvaluationJob, w: World, n: bool, checks: seq<EvalChecker>, context: string)
    ensures !Shows(Posts(job, w, n, checks), context, Pending)
  {
    PostsSettle(job, w, n, checks);
    LastPostIsTheVerdict(job, w, n, checks);
    SettledShowsNothingPending(Posts(job, w, n, checks), context);
  }

  lemma ShowsTheLast(posts: seq<Post>, state: State)
    requires posts != [] && Last(posts).context == EVAL
    ensures Shows(posts, EVAL, state) <==> Last(posts).state == state
  {
    assert posts[|posts| - 1].context == EVAL;
  }

  /** The overall status shows the verdict. */
  lemma OverallShowsIff(job: EvaluationJob, w: World, n: bool, checks: seq<EvalChecker>)
    ensures Shows(Posts(job, w, n, checks), EVAL, State.Success) <==> Succeeds(w, n, checks)
  {
    LastPostIsTheVerdict(job, w, n, checks);
    ShowsTheLast(Posts(job, w, n, checks), State.Success);
  }

  /** How many checks run: all up to and including the first that fails. */
  function ChecksRun(count: nat, passes: nat -> bool, i: nat): (k: nat)
    requires i <= count
    ensures i <= k <= count
    decreases count - i
  {
    if i == count then i else if passes(i) then ChecksRun(count, passes, i + 1) else i + 1
  }

  /** What checks `i` up to `k` post, each pending and then its own result. */
  function EachPosts(checks: seq<EvalChecker>, passes: nat -> bool, i: nat, k: nat): seq<Post>
    requires i <= k <= |checks|
    decreases k - i
  {
    if i == k then []
    else
      CheckPair(checks[i], passes(i)) + EachPosts(checks, passes, i + 1, k)
  }

  /** The checks that run are a prefix of the list: only its last may fail, and without a failure all run. */
  lemma {:induction false} ChecksStopAtFirstFailure(checks: seq<EvalChecker>, passes: nat -> bool, i: nat)
    requires i <= |checks|
    ensures var k := ChecksRun(|checks|, passes, i);
            && CheckPosts(checks, passes, i) == EachPosts(checks, passes, i, k)
            && (forall m :: i <= m < k - 1 ==> passes(m))
            && (k < |checks| ==> k > i && !passes(k - 1))
    decreases |checks| - i
  {
    if i < |checks| {
      if passes(i) {
        ChecksStopAtFirstFailure(checks, passes, i + 1);
      } else {
        assert EachPosts(checks, passes, i + 1, i + 1) == [];
      }
    }
  }

  // The message of a missing out-path diff.

  /** No overall description is that message. */
  ghost predicate NoBug(posts: seq<Post>) {
    forall i :: 0 <= i < |posts| && posts[i].context == EVAL ==> posts[i].description != OFBORG_BUG
  }

  lemma NoBugAppend(a: seq<Post>, b: seq<Post>)
    requires NoBug(a) && NoBug(b)
    ensures NoBug(a + b)
  {
  }

  lemma {:induction false} NoBugInChecks(checks: seq<EvalChecker>, passes: nat -> bool, i: nat)
    requires i <= |checks|
    ensures NoBug(CheckPosts(checks, passes, i))
    decreases |checks| - i
  {
    if i < |checks| {
      OtherContexts(checks[i]);
      NoBugInChecks(checks, passes, i + 1);
    }
  }

  lemma NoBugAtStart(job: EvaluationJob, w: World, n: bool)
    ensures NoBug(StartPosts(job, w, n))
  {
    assert ("Checking out " + TargetBranch(job))[0] == 'C' && OFBORG_BUG[0] == 'O';
  }

  lemma NoBugInMerging(w: World, n: bool)
    ensures NoBug(MergingPosts(w, n))
  {
  }

  lemma NoBugAtEnd(w: World, n: bool, checks: seq<EvalChecker>)
    requires Starts(w, n) && Merges(w, n)
    ensures NoBug(FinalPosts(w, n, checks))
  {
    OtherContexts(EvalChecker("", "", []));
  }

  lemma NoBugInPosts(job: EvaluationJob, w: World, n: bool, checks: seq<EvalChecker>)
    ensures NoBug(Posts(job, w, n, checks))
  {
    NoBugAtStart(job, w, n);
    NoBugInMerging(w, n);
    var start, merging := StartPosts(job, w, n), MergingPosts(w, n);
    if Starts(w, n) && Merges(w, n) {
      var checking, final := CheckingPosts(w, checks), FinalPosts(w, n, checks);
      NoBugInChecks(checks, w.checkPasses, 0);
      NoBugAppend([Overall("Beginning Evaluations", Pending)], CheckPosts(checks, w.checkPasses, 0));
      NoBugAtEnd(w, n, checks);
      NoBugAppend(checking, final);
      NoBugAppend(merging, checking + final);
      NoBugAppend(start, merging + (checking + final));
    } else if Starts(w, n) {
      NoBugAppend(start, merging);
    }
  }

  /** No evaluation ever reports a missing out-path diff. */
  lemma OutpathDiffIsNeverMissing(job: EvaluationJob, w: World, n: bool, checks: seq<EvalChecker>)
    ensures Overall(OFBORG_BUG, State.Failure) !in Posts(job, w, n, checks)
  {
    NoBugInPosts(job, w, n, checks);
  }

  // Success is the last word.

  ghost predicate NoSuccess(posts: seq<Post>) {
    forall i :: 0 <= i < |posts| ==> posts[i].context != EVAL || posts[i].state != State.Success
  }

  lemma NoSuccessAppend(a: seq<Post>, b: seq<Post>)
    requires NoSuccess(a) && NoSuccess(b)
    ensures NoSuccess(a + b)
  {
  }

  lemma {:induction false} NoSuccessInChecks(checks: seq<EvalChecker>, passes: nat -> bool, i: nat)
    requires i <= |checks|
    ensures NoSuccess(CheckPosts(checks, passes, i))
    decreases |checks| - i
  {
    if i < |checks| {
      OtherContexts(checks[i]);
      NoSuccessInChecks(checks, passes, i + 1);
    }
  }

  lemma NoSuccessBefore(job: EvaluationJob, w: World, n: bool)
    ensures NoSuccess(StartPosts(job, w, n)) && NoSuccess(MergingPosts(w, n))
    ensures Starts(w, n) && Merges(w, n) ==> NoSuccess(PassPosts(w, n))
  {
    OtherContexts(EvalChecker("", "", []));
  }

  /** The posts between merging and the verdict. */
  function BeforeVerdict(w: World, n: bool, checks: seq<EvalChecker>): seq<Post>
    requires Starts(w, n) && Merges(w, n)
  {
    CheckingPosts(w, checks) + if AllPass(checks, w.checkPasses) then PassPosts(w, n) else []
  }

  lemma NoSuccessBeforeVerdict(w: World, n: bool, checks: seq<EvalChecker>)
    requires Starts(w, n) && Merges(w, n) && (n ==> NoSuccess(PassPosts(w, n)))
    ensures NoSuccess(BeforeVerdict(w, n, checks))
    ensures FinalPosts(w, n, checks) != []
    ensures LastPosts(w, n, checks)
         == BeforeVerdict(w, n, checks) + [Last(FinalPosts(w, n, checks))]
  {
    var begin := [Overall("Beginning Evaluations", Pending)];
    NoSuccessInChecks(checks, w.checkPasses, 0);
    NoSuccessAppend(begin, CheckPosts(checks, w.checkPasses, 0));
    if AllPass(checks, w.checkPasses) {
      NoSuccessAppend(CheckingPosts(w, checks), PassPosts(w, n));
      Associate(CheckingPosts(w, checks), PassPosts(w, n), [Verdict(w, n)]);
    } else {
      assert FinalPosts(w, n, checks) == [Last(FinalPosts(w, n, checks))];
    }
  }

  lemma AllButLast(a: seq<Post>, b: seq<Post>, c: seq<Post>, last: Post)
    requires NoSuccess(a) && NoSuccess(b) && NoSuccess(c)
    ensures var all := a + (b + (c + [last])); NoSuccess(all[..|all| - 1])
  {
    var all := a + (b + (c + [last]));
    assert all[..|all| - 1] == a + (b + c);
  }

  /** Success is posted only at the end of a run. */
  lemma SuccessIsTheLastPost(job: EvaluationJob, w: World, n: bool, checks: seq<EvalChecker>)
    ensures Posts(job, w, n, checks) != []
    ensures NoSuccess(Posts(job, w, n, checks)[..|Posts(job, w, n, checks)| - 1])
  {
    NoSuccessBefore(job, w, n);
    LastPostIsTheVerdict(job, w, n, checks);
    if Starts(w, n) && Merges(w, n) {
      NoSuccessBeforeVerdict(w, n, checks);
      AllButLast(StartPosts(job, w, n), MergingPosts(w, n), BeforeVerdict(w, n, checks),
                 Last(FinalPosts(w, n, checks)));
    } else if Starts(w, n) {
      NoSuccessAppend(StartPosts(job, w, n), MergingPosts(w, n));
    }
  }

  lemma BeginningShowsNoSuccess(all: seq<Post>, posts: seq<Post>)
    requires all != [] && NoSuccess(all[..|all| - 1])
    requires posts <= all && (Last(all).state == State.Success ==> posts < all)
    ensures !Shows(posts, EVAL, State.Success)
  {
    forall i | 0 <= i < |posts|
      ensures posts[i].context != EVAL || posts[i].state != State.Success
    {
      assert posts[i] == if i < |all| - 1 then all[..|all| - 1][i] else Last(all);
    }
  }

  /**
   * However a run ends, it shows success exactly when every step and check
   * succeeded and it got as far as its last event, whether or not that event
   * could be published.
   */
  lemma SuccessShownIff(job: EvaluationJob, w: World, n: bool, checks: seq<EvalChecker>,
                        before: seq<Post>, after: seq<Post>, end: Ending)
    requires Made(before, Posts(job, w, n, checks), after, Completes(w, n, checks), Succeeds(w, n, checks), end)
    ensures Shows(after[|before|..], EVAL, State.Success)
       <==> Succeeds(w, n, checks) && (end.Answered? || end == Unpublished(TaskEvaluationCheckComplete))
  {
    SuccessIsTheLastPost(job, w, n, checks);
    LastPostIsTheVerdict(job, w, n, checks);
    ShownIff(Posts(job, w, n, checks), before, after, Completes(w, n, checks), Succeeds(w, n, checks), end);
  }

  lemma ShownIff(all: seq<Post>, before: seq<Post>, after: seq<Post>, completes: bool, succeeds: bool, end: Ending)
    requires Made(before, all, after, completes, succeeds, end)
    requires all != [] && NoSuccess(all[..|all| - 1])
    requires Last(all).context == EVAL && (Last(all).state == State.Success <==> succeeds)
    ensures Shows(after[|before|..], EVAL, State.Success)
       <==> succeeds && (end.Answered? || end == Unpublished(TaskEvaluationCheckComplete))
  {
    var posts := after[|before|..];
    SuffixOfBeginning(before, all, after);
    if end.Answered? || end == Unpublished(TaskEvaluationCheckComplete) {
      ShowsTheLast(all, State.Success);
    } else {
      BeginningShowsNoSuccess(all, posts);
    }
  }

  /** A run that shows success and then panics. */
  ghost predicate ShownInVain(before: seq<Post>, after: seq<Post>, end: Ending) {
    before <= after && Shows(after[|before|..], EVAL, State.Success) && !end.Answered?
  }

  /** Of three events the last is the first that cannot be published. */
  ghost predicate ThirdRefused(delivers: nat -> bool, first: nat) {
    delivers(first) && delivers(first + 1) && !delivers(first + 2)
  }

  /**
   * On an open issue, with no call and no git step failing: the run panics after
   * it has shown success exactly when everything succeeds and of its three
   * events the last is the first that cannot be published.
   */
  lemma PanicAfterSuccessIff(job: EvaluationJob, issue: IssueInfo, w: World, before: seq<Post>, after: seq<Post>,
                             delivers: nat -> bool, first: nat,
                             eventsBefore: seq<Event>, eventsAfter: seq<Event>, end: Ending)
    requires !issue.closed && Ends(job, w, before, after, end) && !end.Crashed?
    requires Published(delivers, first, eventsBefore, eventsAfter, JobEvents(job, Some(issue), w), end)
    ensures ShownInVain(before, after, end)
       <==> Succeeds(w, IsNixpkgs(job), Checks(IsNixpkgs(job))) && ThirdRefused(delivers, first)
    ensures ShownInVain(before, after, end) ==> end == Unpublished(TaskEvaluationCheckComplete)
  {
    var n := IsNixpkgs(job);
    SuccessShownIff(job, w, n, Checks(n), before, after, end);
    if Succeeds(w, n, Checks(n)) {
      EndsUnpublishedIff(job, w, n, Checks(n), delivers, first, eventsBefore, eventsAfter, end);
    }
  }

  lemma EndsUnpublishedIff(job: EvaluationJob, w: World, n: bool, checks: seq<EvalChecker>,
                           delivers: nat -> bool, first: nat, before: seq<Event>, after: seq<Event>, end: Ending)
    requires Completes(w, n, checks) && !end.Crashed?
    requires Published(delivers, first, before, after, RunEvents(job, w, n, checks), end)
    ensures end == Unpublished(TaskEvaluationCheckComplete) <==> ThirdRefused(delivers, first)
  {
    var events := RunEvents(job, w, n, checks);
    assert |events| == 3 && events[2] == TaskEvaluationCheckComplete;
    assert events[0] != events[2] && events[1] != events[2];
    if end.Unpublished? {
      var k :| 0 <= k < |events| && events[k] == end.event && !delivers(first + k)
               && forall j :: first <= j < first + k ==> delivers(j);
      assert k == 2 <==> end.event == TaskEvaluationCheckComplete;
    }
  }

  /** The same of the consumer itself: with a reliable host only the events decide. */
  method ReliableRun(job: EvaluationJob, issue: IssueInfo, archs: seq<Evaluation.System>, w: World,
                     tagPaths: map<string, seq<string>>, host: Host) returns (r: Ending)
    requires host.Reliable() && !issue.closed && !GitPanics(w, IsNixpkgs(job))
    modifies host`calls, host`attempts, host`posted, host`events, host.issue
    ensures ShownInVain(old(host.posted), host.posted, r)
       <==> Succeeds(w, IsNixpkgs(job), Checks(IsNixpkgs(job))) && ThirdRefused(host.delivers, old(host.attempts))
    ensures ShownInVain(old(host.posted), host.posted, r) ==> r == Unpublished(TaskEvaluationCheckComplete)
  {
    ghost var before, first, events := host.posted, host.attempts, host.events;
    r := Consumer(job, Some(issue), archs, w, tagPaths, host);
    PanicAfterSuccessIff(job, issue, w, before, host.posted, host.delivers, first, events, host.events, r);
  }

  lemma SuffixOfBeginning(before: seq<Post>, all: seq<Post>, after: seq<Post>)
    requires before <= after <= before + all
    ensures after[|before|..] <= all
    ensures after == before + all <==> after[|before|..] == all
  {
    assert after == before + after[|before|..];
  }

  /** A run that got as far as its last event leaves no context pending, even if it could not publish it. */
  lemma PendingOnlyIfCutShort(job: EvaluationJob, w: World, n: bool, checks: seq<EvalChecker>,
                              before: seq<Post>, after: seq<Post>, end: Ending, context: string)
    requires Made(before, Posts(job, w, n, checks), after, Completes(w, n, checks), Succeeds(w, n, checks), end)
    ensures Shows(after[|before|..], context, Pending) ==>
              !end.Answered? && end != Unpublished(TaskEvaluationCheckComplete)
  {
    SuffixOfBeginning(before, Posts(job, w, n, checks), after);
    NothingIsLeftPending(job, w, n, checks, context);
  }

  function AllGood(): World {
    World(None, true, true, true, true, true, None, None, None, None,
          Result.Success(map[]), Result.Success(map[]), None, None, k => true, None, Result.Success(map[]), "")
  }

  /** A run in which only the last event fails: it panics after it has shown success. */
  method SuccessBeforeAPanic() returns (r: Ending, host: Host)
    ensures r == Unpublished(TaskEvaluationCheckComplete) && Shows(host.posted, EVAL, State.Success)
  {
    var issue := new Issue(k => true, {});
    host := new Host(k => true, k => k != 2, issue);
    var job := EvaluationJob(BuildJobs.Repo("", "", ""), BuildJobs.Pr(None, 0, ""));
    AllGoodSucceeds(job);
    r := ReliableRun(job, IssueInfo(false, "", ""), [], AllGood(), map[], host);
    assert host.posted[0..] == host.posted;
  }

  lemma AllGoodSucceeds(job: EvaluationJob)
    requires job.repo.name == ""
    ensures !IsNixpkgs(job) && Succeeds(AllGood(), false, Checks(false)) && !GitPanics(AllGood(), false)
  {
  }

  // Actions.

  lemma {:induction false} ScheduledPublishes(builds: seq<NewJob>, archs: seq<Evaluation.System>)
    ensures Ack !in Scheduled(builds, archs)
  {
    if builds != [] {
      ScheduledPublishes(builds[..|builds| - 1], archs);
    }
  }

  /** Every run acknowledges its job exactly once, as its last action. */
  lemma OneAckLast(job: EvaluationJob, w: World, n: bool, checks: seq<EvalChecker>, archs: seq<Evaluation.System>,
                   actions: seq<Action>)
    requires Responds(job, w, n, checks, archs, actions)
    ensures actions != []
    ensures forall i :: 0 <= i < |actions| ==> (actions[i] == Ack <==> i == |actions| - 1)
  {
    if n && Succeeds(w, n, checks) {
      var builds :| BuildsTouched(job, w, builds) && actions == Scheduled(builds, archs) + [Ack];
      ScheduledPublishes(builds, archs);
    }
  }

  lemma {:induction false} ScheduledAppend(a: seq<NewJob>, b: seq<NewJob>, archs: seq<Evaluation.System>)
    ensures Scheduled(a + b, archs) == Scheduled(a, archs) + Scheduled(b, archs)
    decreases |b|
  {
    if b == [] {
      assert a + b == a;
    } else {
      var n := |b| - 1;
      ScheduledAppend(a, b[..n], archs);
      ScheduledOneMore(b[..n], b[n], archs);
      ScheduledOneMore(a + b[..n], b[n], archs);
      assert b[..n] + [b[n]] == b && a + b[..n] + [b[n]] == a + b;
      AssociateActions(Scheduled(a, archs), Scheduled(b[..n], archs), ToEach(b[n], archs), [Queued(b[n], archs)]);
    }
  }

  lemma ScheduledOneMore(builds: seq<NewJob>, build: NewJob, archs: seq<Evaluation.System>)
    ensures Scheduled(builds + [build], archs)
         == Scheduled(builds, archs) + ToEach(build, archs) + [Queued(build, archs)]
  {
    assert (builds + [build])[..|builds|] == builds;
  }

  lemma AssociateActions(a: seq<Action>, b: seq<Action>, c: seq<Action>, d: seq<Action>)
    ensures a + b + c + d == a + (b + c + d)
  {
  }

  /** Each job goes to each architecture, in order, and right after that its notice goes out, naming the same. */
  lemma EachJobThenItsNotice(builds: seq<NewJob>, archs: seq<Evaluation.System>, i: nat)
    requires i < |builds|
    ensures Scheduled(builds, archs)
         == Scheduled(builds[..i], archs) + (ToEach(builds[i], archs) + [Queued(builds[i], archs)])
            + Scheduled(builds[i + 1..], archs)
  {
    assert builds == builds[..i + 1] + builds[i + 1..] && builds[..i + 1][..i] == builds[..i];
    ScheduledAppend(builds[..i + 1], builds[i + 1..], archs);
    AssociateActions(Scheduled(builds[..i], archs), ToEach(builds[i], archs), [Queued(builds[i], archs)], []);
  }

  lemma DestinationsDiffer(a: Evaluation.System, b: Evaluation.System)
    ensures a.AsBuildDestination() == b.AsBuildDestination() <==> a == b
  {
    var x, y := "build-inputs-" + a.ToString(), "build-inputs-" + b.ToString();
    assert |x| == 13 + |a.ToString()| && |y| == 13 + |b.ToString()|;
    if a != b {
      assert a.ToString()[0] != b.ToString()[0] || a.ToString()[|a.ToString()| - 1] != b.ToString()[|b.ToString()| - 1];
      assert x[13] == a.ToString()[0] && y[13] == b.ToString()[0];
      assert x[|x| - 1] == a.ToString()[|a.ToString()| - 1] && y[|y| - 1] == b.ToString()[|b.ToString()| - 1];
    }
  }

  function Times<T(==)>(s: seq<T>, x: T): nat {
    if s == [] then 0
    else
      var n := |s| - 1;
      Times(s[..n], x) + if s[n] == x then 1 else 0
  }

  lemma TimesOneMore<T>(s: seq<T>, last: T, x: T)
    ensures Times(s + [last], x) == Times(s, x) + if last == x then 1 else 0
  {
    assert (s + [last])[..|s|] == s;
  }

  lemma {:induction false} TimesAppend<T>(a: seq<T>, b: seq<T>, x: T)
    ensures Times(a + b, x) == Times(a, x) + Times(b, x)
    decreases |b|
  {
    if b == [] {
      assert a + b == a;
    } else {
      var n := |b| - 1;
      assert (a + b)[..|a| + n] == a + b[..n] && (a + b)[|a| + n] == b[n];
      TimesAppend(a, b[..n], x);
    }
  }

  /** Occurrences are counted position by position. */
  lemma {:induction false} TimesOfImage<T, U>(s: seq<T>, x: T, image: seq<U>, y: U)
    requires |image| == |s| && forall i :: 0 <= i < |s| ==> (image[i] == y <==> s[i] == x)
    ensures Times(image, y) == Times(s, x)
  {
    if s != [] {
      var n := |s| - 1;
      TimesOfImage(s[..n], x, image[..n], y);
    }
  }

  lemma {:induction false} TimesOfNone<T>(s: seq<T>, x: T)
    requires x !in s
    ensures Times(s, x) == 0
  {
    if s != [] {
      TimesOfNone(s[..|s| - 1], x);
    }
  }

  lemma TimesToEach(job: NewJob, archs: seq<Evaluation.System>, other: NewJob, arch: Evaluation.System)
    ensures Times(ToEach(job, archs), PublishBuild(arch.AsBuildDestination(), other))
         == if job == other then Times(archs, arch) else 0
  {
    var sent, x := ToEach(job, archs), PublishBuild(arch.AsBuildDestination(), other);
    if job == other {
      forall i | 0 <= i < |archs|
        ensures sent[i] == x <==> archs[i] == arch
      {
        DestinationsDiffer(archs[i], arch);
      }
      TimesOfImage(archs, arch, sent, x);
    } else {
      TimesOfNone(sent, x);
    }
  }

  /** A job that is built once goes once to each architecture that occurs once; any other job goes nowhere. */
  lemma {:induction false} EachJobGoesEverywhereOnce(builds: seq<NewJob>, archs: seq<Evaluation.System>, job: NewJob,
                                                     arch: Evaluation.System)
    requires Times(builds, job) <= 1
    ensures Times(Scheduled(builds, archs), PublishBuild(arch.AsBuildDestination(), job))
         == if Times(builds, job) == 1 then Times(archs, arch) else 0
  {
    if builds != [] {
      var n := |builds| - 1;
      EachJobGoesEverywhereOnce(builds[..n], archs, job, arch);
      OneMoreJob(Scheduled(builds[..n], archs), builds[n], archs, job, arch);
    }
  }

  lemma OneMoreJob(before: seq<Action>, build: NewJob, archs: seq<Evaluation.System>, job: NewJob,
                   arch: Evaluation.System)
    ensures Times(before + ToEach(build, archs) + [Queued(build, archs)], PublishBuild(arch.AsBuildDestination(), job))
         == Times(before, PublishBuild(arch.AsBuildDestination(), job)) + if build == job then Times(archs, arch) else 0
  {
    var x, sent := PublishBuild(arch.AsBuildDestination(), job), before + ToEach(build, archs);
    TimesAppend(before, ToEach(build, archs), x);
    TimesToEach(build, archs, job, arch);
    TimesOneMore(sent, Queued(build, archs), x);
  }

  // Labels.

  /** Dropping some labels, then adding others. */
  datatype Edit = Edit(drop: set<string>, add: set<string>) {
    function Apply(labels: set<string>): set<string> {
      (labels - drop) + add
    }

    function Then(next: Edit): Edit {
      Edit(drop + next.drop, (add - next.drop) + next.add)
    }
  }

  lemma ThenApplies(first: Edit, next: Edit, labels: set<string>)
    ensures first.Then(next).Apply(labels) == next.Apply(first.Apply(labels))
  {
  }

  ghost predicate Within(edit: Edit, tagPaths: map<string, seq<string>>) {
    edit.drop <= Managed(tagPaths) && edit.add <= Managed(tagPaths)
  }

  lemma TitleEdit(tagPaths: map<string, seq<string>>, w: World) returns (edit: Edit)
    ensures Within(edit, tagPaths) && forall labels :: TitleLabels(w, labels) == edit.Apply(labels)
  {
    edit := Edit({}, TitleLabels(w, {}));
  }

  lemma MergeEdit(tagPaths: map<string, seq<string>>, w: World) returns (edit: Edit)
    ensures Within(edit, tagPaths) && forall labels :: MergeLabels(tagPaths, w, labels) == edit.Apply(labels)
  {
    var paths := Edit(tagPaths.Keys, Matching(tagPaths, ChangedPaths(w)));
    if !w.commitExists {
      edit := Edit({}, {});
    } else {
      var conflict := if w.merged then Edit({MERGE_CONFLICT}, {}) else Edit({}, {MERGE_CONFLICT});
      edit := paths.Then(conflict);
      forall labels
        ensures MergeLabels(tagPaths, w, labels) == edit.Apply(labels)
      {
        ThenApplies(paths, conflict, labels);
      }
    }
  }

  lemma RebuildEdit(tagPaths: map<string, seq<string>>, w: World, submitter: string) returns (edit: Edit)
    requires w.listingBefore.Success? && w.listingAfter.Success?
    ensures Within(edit, tagPaths) && forall labels :: RebuiltLabels(w, submitter, labels) == edit.Apply(labels)
  {
    var rebuilt := Rebuilt(w.listingBefore.value, w.listingAfter.value);
    var maintainer := Edit({}, if rebuilt == {} then {} else MaintainerLabels(w, submitter, {}));
    var darwin, linux := CountOf(rebuilt, "x86_64-darwin"), CountOf(rebuilt, "x86_64-linux");
    var tags := Edit(AllRebuildTags(), SortedStrings.Elements(RebuildTags(darwin, linux)));
    TagsArePossible(darwin, linux);
    edit := maintainer.Then(tags);
    forall labels
      ensures RebuiltLabels(w, submitter, labels) == edit.Apply(labels)
    {
      ThenApplies(maintainer, tags, labels);
    }
  }

  lemma DiffEdit(tagPaths: map<string, seq<string>>, w: World, submitter: string) returns (edit: Edit)
    requires w.listingBefore.Success? && w.listingAfter.Success?
    ensures Within(edit, tagPaths) && forall labels :: DiffLabels(w, submitter, labels) == edit.Apply(labels)
  {
    var before, after := w.listingBefore.value, w.listingAfter.value;
    var stdenvs := Edit(AllStdenvTags(), ChangedTags(w.linuxBefore != w.linuxAfter, w.darwinBefore != w.darwinAfter));
    var packages := Edit({}, NewPackageLabels(before, after, {}));
    var rebuilds := RebuildEdit(tagPaths, w, submitter);
    edit := stdenvs.Then(packages).Then(rebuilds);
    forall labels
      ensures DiffLabels(w, submitter, labels) == edit.Apply(labels)
    {
      ThenApplies(stdenvs, packages, labels);
      ThenApplies(stdenvs.Then(packages), rebuilds, labels);
    }
  }

  /** However an evaluation that answers went, it drops some of the labels it manages and then adds some. */
  lemma EvaluationIsAnEdit(tagPaths: map<string, seq<string>>, submitter: string, w: World, n: bool,
                           checks: seq<EvalChecker>) returns (edit: Edit)
    ensures Within(edit, tagPaths)
    ensures forall labels :: LabelsAfter(tagPaths, submitter, w, n, checks, labels) == edit.Apply(labels)
  {
    edit := Edit({}, {});
    if n {
      edit := TitleEdit(tagPaths, w);
      if Starts(w, n) {
        var title := edit;
        var merge := MergeEdit(tagPaths, w);
        edit := title.Then(merge);
        forall labels
          ensures MergeLabels(tagPaths, w, TitleLabels(w, labels)) == edit.Apply(labels)
        {
          ThenApplies(title, merge, labels);
        }
        if Merges(w, n) && AllPass(checks, w.checkPasses) {
          var merged := edit;
          var diff := DiffEdit(tagPaths, w, submitter);
          edit := merged.Then(diff);
          forall labels
            ensures DiffLabels(w, submitter, MergeLabels(tagPaths, w, TitleLabels(w, labels))) == edit.Apply(labels)
          {
            ThenApplies(merged, diff, labels);
          }
        }
      }
    }
  }

  /** Evaluating the same change again changes no label, and other labels are never touched. */
  lemma LabelsSettle(tagPaths: map<string, seq<string>>, submitter: string, w: World, n: bool,
                     checks: seq<EvalChecker>, labels: set<string>)
    ensures var after := LabelsAfter(tagPaths, submitter, w, n, checks, labels);
            && LabelsAfter(tagPaths, submitter, w, n, checks, after) == after
            && after - Managed(tagPaths) == labels - Managed(tagPaths)
  {
    var edit := EvaluationIsAnEdit(tagPaths, submitter, w, n, checks);
    assert edit.Apply(edit.Apply(labels)) == edit.Apply(labels);
  }

  /** After a complete evaluation the rebuild labels say how many packages each system has to rebuild. */
  lemma RebuildLabelsAreRight(tagPaths: map<string, seq<string>>, submitter: string, w: World,
                              checks: seq<EvalChecker>, labels: set<string>, range: string)
    requires Starts(w, true) && Merges(w, true) && AllPass(checks, w.checkPasses) && range in BUCKETS
    ensures var after := LabelsAfter(tagPaths, submitter, w, true, checks, labels);
            var rebuilt := Rebuilt(w.listingBefore.value, w.listingAfter.value);
            && (DARWIN + range in after <==> Covers(range, CountOf(rebuilt, "x86_64-darwin")))
            && (LINUX + range in after <==> Covers(range, CountOf(rebuilt, "x86_64-linux")))
  {
    var rebuilt := Rebuilt(w.listingBefore.value, w.listingAfter.value);
    var merged := MergeLabels(tagPaths, w, TitleLabels(w, labels));
    var told := NewPackageLabels(w.listingBefore.value, w.listingAfter.value, StdenvLabels(w, merged));
    RebuildLabelsTellTheCounts(if rebuilt == {} then told else MaintainerLabels(w, submitter, told),
                               CountOf(rebuilt, "x86_64-darwin"), CountOf(rebuilt, "x86_64-linux"), range);
  }
}
