# ofborg, modelled and proved

ofborg watches pull requests to nixpkgs. It evaluates each one, labels it,
builds what a comment asks for, and keeps the logs of those builds. This
project models its most stateful parts in Dafny and proves what they promise.

| file | what it holds |
|---|---|
| `AsyncCmd.dfy` | the threads around a child process, as a transition system: two readers, three joiners, the head waiter, two bounded channels and the consumer |
| `TextLines.dfy`, `LineWriter.dfy` | printing and reading lines; the writer that sets one line of a file, on a file with a cursor and an append flag |
| `LogPaths.dfy`, `LogCollector.dfy`, `LogEviction.dfy` | where a log lives; the LRU cache of open writers that a stream of log messages goes through; which runs a cache can be told from |
| `Interleavings.dfy`, `Partition.dfy`, `BuildJob.dfy`, `LogPipeline.dfy` | one build job, its published messages, and the way from its log lines to its log file |
| `CommentParser.dfy`, `Ascii.dfy` | the command grammar of comments |
| `OutPathDiff.dfy` | the listing of output paths and the difference of two listings |
| `SortedStrings.dfy`, `Labels.dfy`, `Taggers.dfy`, `LabelUpdates.dfy`, `Maintainers.dfy` | the taggers, the labels of an issue, and maintainers by package |
| `Checks.dfy` | the checks reported for a build |
| `Statuses.dfy`, `CommitMessages.dfy`, `NixpkgsEval.dfy`, `Evaluation.dfy`, `EvaluationRuns.dfy` | the evaluation of one pull request: steps, statuses, labels, checks, scheduled builds |
| `Toposort.dfy` | topological sorting in the library of the maintainer fixture |

Where the program changes things in place, a class or a loop does the same and
is proved against a function of its inputs; the lemmas are about those
functions. Where the program calls git, nix or GitHub, a field of a `World`
value answers, and nothing is assumed about the answer; whether a call can be
made at all, and whether an event can be published, is a function of how many
were made before. A failed `unwrap` or `expect` is an outcome (`Panicked`,
`Crashed`, `Unpublished`), not a precondition. Hash maps are gone through in no
particular order.

Main results, in short:

- **Child process.** In every reachable state the lines received and queued are
  an interleaving of beginnings of both streams. A consumer that drains first
  always finishes, in a bounded number of steps, with everything delivered; one
  that waits first finishes exactly when all output fits the channel.
- **Log files.** A run of line writes keeps the file equal to its buffer, without
  a panic, exactly when each index is below the last line written or at least the
  number of lines; which runs panic is known without any agreement. Reopening the writer at any time is invisible exactly for the
  steady runs: each line is past the end, or below the last one written with no
  other line that ends in a carriage return. For those the cache of writers is
  invisible for every size from one up; for every other run on an empty log a cache of one and a
  cache of two can be told apart. Such a run of messages panics exactly when one
  log would have to lie below another. Composed with the build job, on a store
  that may hold the logs of other attempts, each attempt's file is what that
  attempt logged. Which keys share a file is decided for all valid keys.
- **Evaluation.** A run that answers leaves no status pending, and however a run
  ends it is shown as a success exactly when every step and check succeeded and
  it got as far as its last event, so it can panic after showing success only by
  failing to publish that event; with a reliable host that is exactly when all
  succeeds and of the three events the last is the first refused. Labels nobody manages survive every ending; the
  labels after an answer are a fixed function of the labels before, stable under
  evaluating again. When no call, no git step and no event fails nothing else
  panics.
- **Comments.** Exactly the non-empty lists of well-formed instructions can be
  asked for. Printing them over any number of lines, with either name of the bot
  in any case, asks for them exactly when no short name comes right after a build
  on its line; what is asked for otherwise is stated too.
- **Topological sort.** An ordered permutation or a genuine closed chain; a
  result exactly when there is no cycle.

Some things the program does that its own words do not suggest are proved with
inputs that show them: writing the last line again leaves the file stale
(`LineWriting.RepeatedLineGoesStale`) and going up again panics
(`LineWriting.GoingBackUpPanics`); a routing key that names another attempt's log
panics (`LogCollecting.NestedKeyPanics`); an attempt may keep its log where
another keeps its metadata (`LogPaths.LogOverMetadata`); after a build the short name "@ofborg"
is one more attribute (`CommentParsing.ShortNameAfterBuild`); a failed merge
reports a check of another name than the queued one
(`Checks.FailedMergeReportsAnotherCheck`); and a run can panic after it has shown
success (`EvaluationRuns.SuccessBeforeAPanic`).

## Model

| member | source | states |
|---|---|---|
| AsyncCommands.StepKeepsInv | ofborg/src/asynccmd.rs:48-198 | every step of every thread keeps the invariant on streams, joiners, notices, head waiter and consumer |
| AsyncCommands.EveryStateMergesPrefixes | ofborg/src/asynccmd.rs:48-66 | in every reachable state the received and then the queued lines interleave a beginning of each stream, undecodable lines replaced; neither channel exceeds its bound, and there are never more than 3 notices |
| AsyncCommands.NoticesNeverBlockOrStray | ofborg/src/asynccmd.rs:68-90 | sending a notice never blocks, no notice is unexpected, the head waiter never runs out of senders, and each notice retires its own waiter |
| AsyncCommands.EveryStepLowersWork | ofborg/src/asynccmd.rs:133-174 | a natural number falls on every step |
| AsyncCommands.RunIsBounded | ofborg/src/asynccmd.rs:48-198 | so no run is longer than it |
| AsyncCommands.Progress | ofborg/src/asynccmd.rs:184-198 | a state that is not final has an enabled step, for a consumer that drains or output that fits the channel |
| AsyncCommands.DrainingRunsDeliver | ofborg/src/tasks/build.rs:358-363 | draining and then waiting: every run stops within a number of steps linear in the output, and only with all lines delivered and the child's own exit returned |
| AsyncCommands.LinesEndsComplete | ofborg/src/asynccmd.rs:184-186 | when `lines` ends it has yielded an interleaving of both complete streams |
| AsyncCommands.WaitingFirstFinishesIff | ofborg/src/asynccmd.rs:188-198 | waiting without draining finishes exactly when the output fits the channel of 30 |
| AsyncCommands.HeadRunsTheLoop | ofborg/src/asynccmd.rs:136-166 | in every run of the protocol the head waiter's waiters and status are what its loop makes of the notices it took |
| AsyncCommands.HeadWaiter | ofborg/src/asynccmd.rs:133-174 | the loop ends when no waiter is left, having retired every notice it took, and keeps the process status |
| AsyncCommands.AnyNoticeOrderKeepsStatus | ofborg/src/asynccmd.rs:136-166 | whatever the order of the three notices, the status kept is the child's |
| TextLines.ReadUndoesPrint | ofborg/src/writetoline.rs:26-37 | reading printed lines gives them back exactly when none has a newline or a trailing carriage return |
| TextLines.PrintUndoesRead | ofborg/src/writetoline.rs:26-37 | printing read lines gives the text back exactly when it ends in a newline and has no carriage return before one |
| LineWriting.LineWriter.constructor | ofborg/src/writetoline.rs:15-24 | loads the lines of the file and counts them as written |
| LineWriting.LineWriter.WriteToLine | ofborg/src/writetoline.rs:39-77 | the loop, the rewrite and the append refine the function `Write`; it panics exactly where that slices backwards |
| LineWriting.WriteKeepsAgreementIff | ofborg/src/writetoline.rs:48-75 | one write keeps file = lines, each with its newline, and cursor at the end, exactly when the line is below the last one written or at least the number of lines |
| LineWriting.RunKeepsAgreementIff | ofborg/src/writetoline.rs:39-77 | the same for whole runs: panic-free agreement at every point exactly when every index meets that condition at its time |
| LineWriting.OpenedRunKeepsAgreementIff | ofborg/src/writetoline.rs:15-77 | from any opened file: exactly when it is empty or cleanly newline-terminated as well; then it ends as the lines set one by one |
| LineWriting.RunPanicsIff | ofborg/src/writetoline.rs:39-77 | from any state of file and buffer, a run panics exactly when some line is at or past the one last written but short of the longest extent so far; otherwise the buffer is the lines set one by one |
| LineWriting.IncreasingRunIsAdmissible | ofborg/src/writetoline.rs:58-74 | strictly increasing runs from the end meet it |
| LineWriting.DecreasingRunIsAdmissible | ofborg/src/writetoline.rs:48-57 | strictly decreasing runs from the last line meet it |
| LineWriting.ReopenedDecreasingRun | ofborg/src/writetoline.rs:15-57 | a strictly decreasing run after reopening leaves the file as the lines set one by one |
| LineWriting.ReopenedIncreasingRun | ofborg/src/writetoline.rs:15-74 | the same for a strictly increasing run |
| LineWriting.ReopenIsInvisibleIff | ofborg/src/writetoline.rs:15-37 | reopening before a write is invisible, and the kept writer does not panic, exactly when the line is past the end, or below the last one written with no other line ending in a carriage return |
| LineWriting.ReopeningIsInvisibleIff | ofborg/src/writetoline.rs:15-77 | for whole runs: however often and wherever the writer is reopened every write leaves the same file, exactly for the steady runs, and then the intended one |
| LineWriting.RewrittenText | ofborg/src/writetoline.rs:48-57 | the rewrite leaves exactly the lines with the one set |
| LineWriting.AppendedText | ofborg/src/writetoline.rs:58-74 | the append adds exactly the new lines |
| LineWriting.RepeatedLineGoesStale | ofborg/src/writetoline.rs:58-76 | writing the last line again appends a blank line and leaves the file without the new text |
| LineWriting.GoingBackUpPanics | ofborg/src/writetoline.rs:62-64 | going down and then up again inside the buffer slices backwards |
| LogPaths.PathStaysUnderRoot | ofborg/src/tasks/log_message_collector.rs:133-152 | a location is computed exactly when both segments are valid, is root, key and attempt in order, and the check of the prefix never fails |
| LogPaths.JoinIsCanonical | ofborg/src/tasks/log_message_collector.rs:40-58 | plain names joined by "/" are a canonical key with just those components |
| LogPaths.PathsAreDistinct | ofborg/src/tasks/log_message_collector.rs:121-152 | logs, metadata and results of different attempts or kinds never share a path, for canonical keys and dot-free one-component attempt ids |
| LogPaths.MetadataCollidesIff | ofborg/src/tasks/log_message_collector.rs:121-131 | without that: two attempts of one key share a metadata path exactly when their ids agree up to the last dot |
| LogPaths.PathsMeetIff | ofborg/src/tasks/log_message_collector.rs:121-152 | for all valid segments, however spelled, and all three kinds of file: two paths are the same exactly when all components but the last agree and the last ones name the same file |
| LogPaths.LogsMeetIff | ofborg/src/tasks/log_message_collector.rs:133-152 | two logs are one file exactly when key and attempt have the same components, taken together |
| LogPaths.NamesMoveOver | ofborg/src/tasks/log_message_collector.rs:133-152 | so names may move from the end of the key to the front of the attempt, as from ("a", "b/c") to ("a/b", "c"), and all three files stay the same |
| LogPaths.LogOverMetadata | ofborg/src/tasks/log_message_collector.rs:121-131 | every attempt's metadata and result lie where another attempt of the same key would keep its log |
| LogCollecting.LogMessageCollector.OpenHandle | ofborg/src/tasks/log_message_collector.rs:100-172 | refreshes, or opens and inserts, evicting the oldest, as the function `HandleFor`; fails on a bad path and on a path that a file or a directory blocks |
| LogCollecting.LogMessageCollector.Consumer | ofborg/src/tasks/log_message_collector.rs:216-234 | one message as the function `Deliver`; panics exactly where it does |
| LogCollecting.JustInsertedMissingIff | ofborg/src/tasks/log_message_collector.rs:110-117 | the just-inserted entry is missing exactly when the cache has size 0 and the path is valid and free |
| LogCollecting.DeliverKeepsConsistent | ofborg/src/tasks/log_message_collector.rs:100-119 | a steady message is refused exactly when its path would lie below or above another file, and otherwise keeps every file and every cached writer in step with the unbounded specification |
| LogCollecting.EvictionLeavesNoTrace | ofborg/src/tasks/log_message_collector.rs:100-119 | for every cache size from one up and every interleaving of steady messages: panic-free exactly when all paths can lie beside each other, and then each file is "pad and set line" applied to its own messages |
| LogCollecting.OneDepthIsPrefixFree | ofborg/src/tasks/log_message_collector.rs:133-152 | keys of one depth never block each other |
| LogCollecting.NestedKeyPanics | ofborg/src/tasks/log_message_collector.rs:154-163 | a key below another attempt's log panics |
| LogEviction.CacheIsInvisibleIff | ofborg/src/tasks/log_message_collector.rs:100-119 | from an empty log, one open writer and two come to the same file at every write, with another key's message before it, exactly for the steady runs |
| LogCollecting.FreshCollectorIsConsistent | ofborg/src/tasks/log_message_collector.rs:61-66 | an empty collector starts in step, on files that end in a newline and read back |
| Interleavings.InterleavingIsPermutation | ofborg/src/asynccmd.rs:48-66 | merging loses and adds nothing |
| Partitioning.PartitionResult | ofborg/src/lib.rs:90-105 | the loop splits successes from failures, in order |
| Partitioning.HalvesMergeIntoAttrs | ofborg/src/nix.rs:140-157 | whatever instantiates, the two halves interleave to the job's attributes |
| BuildJobs.JobActions.LogLine | ofborg/src/tasks/build.rs:163-187 | publishes the next number, keeps the last ten lines |
| BuildJobs.JobActions.TellResult | ofborg/src/tasks/build.rs:189-262 | the result to both exchanges, then the acknowledgement |
| BuildJobs.Consumer | ofborg/src/tasks/build.rs:279-391 | every way through the job tells exactly `Told`, and panics exactly when a git step, the lookup of the commit, the instantiations or the spawning of the build fail |
| BuildJobs.OneAckAtTheEnd | ofborg/src/tasks/build.rs:100-262 | a run that does not panic acknowledges exactly once, last; one that panics never does |
| BuildJobs.PublishedNumbersAreConsecutive | ofborg/src/tasks/build.rs:163-187 | the published line numbers are 1..n over all lines logged |
| BuildJobs.ResultCarriesTheSnippet | ofborg/src/tasks/build.rs:189-262 | the same result goes out twice just before the acknowledgement, with the last ten of the lines published, and no other result does |
| LogPipeline.StreamWritesInOrder | ofborg/src/tasks/log_message_collector.rs:222-226 | the messages of an attempt, less one, write lines 0, 1, 2, ... |
| LogPipeline.LogsHoldWhatWasLogged | ofborg/src/tasks/log_message_collector.rs:216-234 | any attempts whose own logs are new, on a store that may hold other tidy logs, messages in order but interleaved at will, any cache: panic-free exactly when the logs can lie beside each other, and then at every moment each file is the lines that arrived, at the end all the attempt logged |
| LogPipeline.BuildsLogTheirCommand | ofborg/src/tasks/build.rs:340-389 | composed with the child process: what is logged is the instantiation errors and then both complete streams, and the status is the process's own |
| CommentParsing.ParseLineHears | ofborg/src/commentparser.rs:19-49 | what any line of requests is read as: a build takes all words up to the next full name |
| CommentParsing.ParseLineUndoesPrintIff | ofborg/src/commentparser.rs:23-49 | instructions on one line, under names chosen one by one, are read back exactly when no short name comes right after a build |
| CommentParsing.CommandsOfLines | ofborg/src/commentparser.rs:3-17 | what a comment asks for is what its parts ask for, in order, wherever it is cut at a line end |
| CommentParsing.ParseUndoesPrintIff | ofborg/src/commentparser.rs:3-60 | the same over whole comments, however the instructions are spread over lines |
| CommentParsing.OneLineOrMany | ofborg/src/commentparser.rs:3-60 | under one name: one a line always, all on one line always with the full name, with the short name exactly when all but the last are evaluations |
| CommentParsing.ParsableIff | ofborg/src/commentparser.rs:19-49 | a list comes out of some comment exactly when it is non-empty and every attribute is a token (under "tests." for tests) |
| CommentParsing.ShortNameAfterBuild | ofborg/src/commentparser.rs:19-32 | a line on which "@ofborg eval" after a build is two more attributes |
| OutPaths.ParseUndoesPrint | ofborg/src/outpathdiff.rs:113-143 | a printed listing parses to its entries, the last of a key winning |
| OutPaths.ListingRoundTrips | ofborg/src/outpathdiff.rs:113-143 | the items of any map, in any order, parse back to the map |
| OutPaths.MalformedLineChangesNothing | ofborg/src/outpathdiff.rs:119-140 | a line without two words or without a dot in the first changes nothing |
| OutPaths.OutPathDiff.FindBefore | ofborg/src/outpathdiff.rs:25-28 | keeps the listing, or fails and keeps the old state |
| OutPaths.OutPathDiff.FindAfter | ofborg/src/outpathdiff.rs:30-38 | does nothing without an original, else as above for the current side |
| OutPaths.OutPathDiff.CalculateRebuild | ofborg/src/outpathdiff.rs:75-95 | each new or changed package once, in any order |
| OutPaths.PatchesIff | ofborg/src/outpathdiff.rs:52-95 | which patches turn the original into the current listing |
| OutPaths.DifferenceIsMinimalPatch | ofborg/src/outpathdiff.rs:52-95 | the computed difference does, and is the smallest; added is within the rebuilds, removed disjoint from them, and the sizes balance |
| SortedStrings.SortSorts | ofborg/src/tagger.rs:246-256 | sorting gives the same strings in order |
| SortedStrings.SortOfPermutation | ofborg/src/tasks/githubcommentposter.rs:98-99 | the order given does not matter |
| SortedStrings.RemoveEach | ofborg/src/tagger.rs:262-271 | removal by search succeeds exactly when the selected strings are among the possible ones, counted, and gives the sorted rest |
| Labels.Issue.UpdateLabels | ofborg/src/tasks/evaluate.rs:433-463 | the labels after; when no request fails it fails exactly when a label of the issue is listed twice for removal; whatever fails, other labels are untouched |
| Labels.UpdateSelects | ofborg/src/tasks/evaluate.rs:433-463 | adding the choice and removing the rest of the possible leaves (old less possible) and the choice |
| Labels.UpdateSettlesIff | ofborg/src/tasks/evaluate.rs:444-455 | updating twice is updating once exactly when no label is both added and removed |
| Taggers.PathsTagger.PathChanged | ofborg/src/tagger.rs:246-256 | the selection stays sorted and distinct and is the tags with a criterion contained in some changed path |
| Taggers.PathsTagger.TagsToRemove | ofborg/src/tagger.rs:262-271 | never fails, and gives the other tags, sorted |
| Taggers.SelectionIgnoresOrder | ofborg/src/tagger.rs:246-256 | the order and repetition of the paths do not matter |
| Taggers.Stdenvs.Changed | ofborg/src/tasks/eval/stdenvs.rs:56-68 | each system whose environment differs, once |
| Taggers.StdenvTagger.Changed | ofborg/src/tagger.rs:31-51 | selects the label of each system; its panic cannot happen |
| Taggers.StdenvTagger.TagsToRemove | ofborg/src/tagger.rs:57-65 | the search fails exactly when a label was selected twice; else gives the other labels |
| Taggers.BucketIsWhatCovers | ofborg/src/tagger.rs:212-230 | a count selects exactly the labels whose written range, read as numbers, covers it |
| Taggers.RebuildTagger.ParseAttrs | ofborg/src/tagger.rs:151-194 | selects the labels of the counts of both systems; its panic cannot happen |
| LabelUpdates.TagFromPaths | ofborg/src/tasks/eval/nixpkgs.rs:87-101 | the issue has exactly the path tags that match, and its other labels |
| LabelUpdates.UpdateStdenvLabels | ofborg/src/tasks/eval/nixpkgs.rs:115-127 | exactly the labels of the changed environments, never a failed search |
| LabelUpdates.UpdateRebuildLabels | ofborg/src/tasks/eval/nixpkgs.rs:209-228 | exactly the labels of the counts; all of them removed when a side is missing |
| LabelUpdates.RebuildLabelsTellTheCounts | ofborg/src/tagger.rs:151-230 | a rebuild label is on the issue exactly when its range covers its system's count |
| Maintainers.GroupByPackage | ofborg/src/maintainers.rs:86-100 | the exact inverse relation, no empty sets |
| Maintainers.InverseIsUnique | ofborg/src/maintainers.rs:86-100 | which the relation determines |
| Maintainers.MaintainerPRTagger.RecordMaintainer | ofborg/src/tagger.rs:296-317 | selects the label exactly when there is a package and the author, in lower case, is in every set |
| Maintainers.RecordImpactedMaintainers | ofborg/src/tasks/eval/nixpkgs.rs:276-286 | the label is added exactly when the author maintains every impacted package and there is one |
| Checks.Consumer | ofborg/src/tasks/githubcommentposter.rs:58-94 | one check a queued architecture, in order; one a result |
| Checks.FinishedCheckKeepsItsName | ofborg/src/tasks/githubcommentposter.rs:97-135 | a finished or skipped build has the name and commit of its queued check |
| Checks.PublishedCheckKeepsItsNameIff | ofborg/src/tasks/build.rs:108-137 | over every published result: the name is kept exactly when the merge worked or the attributes read as the placeholder |
| Checks.FailedMergeReportsAnotherCheck | ofborg/src/tasks/build.rs:108-137 | a job whose failed merge reports another check |
| Checks.SuccessIff | ofborg/src/message/buildresult.rs:25-34 | a check is green exactly when some attribute instantiated and the build exited with 0 |
| NixpkgsEvaluation.NixpkgsStrategy.OnTargetBranch | ofborg/src/tasks/eval/nixpkgs.rs:353-367 | fails exactly when the target does not evaluate; else both diffs hold the side before |
| NixpkgsEvaluation.NixpkgsStrategy.AfterFetch | ofborg/src/tasks/eval/nixpkgs.rs:369-382 | sets the changed paths and the touched packages, and synchronises the path tags |
| NixpkgsEvaluation.NixpkgsStrategy.AfterMerge | ofborg/src/tasks/eval/nixpkgs.rs:392-406 | reports the missing diff exactly when there is none; else fails exactly when the change does not evaluate, else both diffs hold both sides |
| CommitMessages.BeforeFirstIff | ofborg/src/tasks/eval/nixpkgs.rs:562-570 | the text before the first colon, which there is exactly when there is a colon |
| CommitMessages.TrimDropsOuterSpace | ofborg/src/tasks/eval/nixpkgs.rs:575 | trimming drops white space at both ends and only that |
| CommitMessages.TouchedIff | ofborg/src/tasks/eval/nixpkgs.rs:559-577 | a package is touched exactly when some message names it, trimmed, between commas before its first colon |
| NixpkgsEvaluation.NixpkgsStrategy.TouchedPackages | ofborg/src/tasks/eval/nixpkgs.rs:304-310 | the touched packages, sorted, each once |
| NixpkgsEvaluation.NixpkgsStrategy.AllEvaluationsPassed | ofborg/src/tasks/eval/nixpkgs.rs:522-540 | with both sides present: the labels of the difference, the posts, and one job for one to ten touched packages |
| Evaluation.ScheduleBuilds | ofborg/src/tasks/evaluate.rs:374-404 | the response is the function `Scheduled`, of which the next two rows say what it sends |
| EvaluationRuns.EachJobThenItsNotice | ofborg/src/tasks/evaluate.rs:383-401 | each job goes to each architecture, in order, and right after that its notice naming the same architectures |
| EvaluationRuns.EachJobGoesEverywhereOnce | ofborg/src/tasks/evaluate.rs:383-389 | a job built once goes once to each architecture listed once, any other job nowhere |
| Evaluation.RunChecks | ofborg/src/tasks/evaluate.rs:285-326 | checks run until one fails; true exactly when all pass |
| Evaluation.Merge | ofborg/src/tasks/evaluate.rs:234-279 | goes on exactly when the commit exists, merges and evaluates, and then both diffs, the paths and the packages are there |
| Evaluation.Consumer | ofborg/src/tasks/evaluate.rs:115-362 | the whole run: its posts, events, labels and actions as functions of the world; a run that does not answer has made a beginning of its posts, all of them only if its last event failed (or it was not to succeed); it names the first event that cannot be published; labels not managed survive every ending; when no call and no git step fails it ends otherwise only for such an event |
| EvaluationRuns.LastPostIsTheVerdict | ofborg/src/tasks/evaluate.rs:182-361 | the last post is on the overall status: Success exactly when every step and check succeeded, Error exactly for a missing commit, never Pending |
| EvaluationRuns.NothingIsLeftPending | ofborg/src/tasks/evaluate.rs:182-361 | no context shows Pending at the end |
| EvaluationRuns.OverallShowsIff | ofborg/src/tasks/evaluate.rs:331-356 | the overall status shows Success exactly when everything succeeded |
| EvaluationRuns.ChecksStopAtFirstFailure | ofborg/src/tasks/evaluate.rs:285-326 | the checks that run are the prefix through the first failure, or all |
| EvaluationRuns.OutpathDiffIsNeverMissing | ofborg/src/tasks/eval/nixpkgs.rs:149-165 | no run ever reports the missing out-path diff |
| EvaluationRuns.SuccessIsTheLastPost | ofborg/src/tasks/evaluate.rs:352 | no earlier post of a run shows success |
| EvaluationRuns.SuccessShownIff | ofborg/src/tasks/evaluate.rs:182-361 | however a run ends it shows success exactly when every step and check succeeded and it answered or failed to publish its last event |
| EvaluationRuns.SuccessBeforeAPanic | ofborg/src/tasks/evaluate.rs:352-358 | a run in which only that event fails panics after showing success |
| EvaluationRuns.PanicAfterSuccessIff | ofborg/src/tasks/evaluate.rs:352-358 | when no call and no git step of an open issue's run fails, it panics after showing success exactly when everything succeeds, its first two events are published and the last is not; it then ends with that event unpublished |
| EvaluationRuns.ReliableRun | ofborg/src/tasks/evaluate.rs:352-358 | the same of the consumer itself, on a reliable host |
| EvaluationRuns.PendingOnlyIfCutShort | ofborg/src/tasks/evaluate.rs:182-361 | a context is left pending only by a run that did not get as far as its last event |
| EvaluationRuns.OneAckLast | ofborg/src/tasks/evaluate.rs:358-361 | every response has exactly one acknowledgement, last |
| EvaluationRuns.EvaluationIsAnEdit | ofborg/src/tasks/evaluate.rs:433-463 | however a run that answers went, the labels lose some of the managed ones and gain some |
| EvaluationRuns.LabelsSettle | ofborg/src/tasks/evaluate.rs:433-463 | evaluating again changes no label, and other labels are never touched |
| EvaluationRuns.RebuildLabelsAreRight | ofborg/src/tasks/eval/nixpkgs.rs:209-228 | after a complete evaluation the rebuild labels state the number of rebuilds of each system |
| TopologicalSort.ListDfsFinds | ofborg/test-srcs/maintainers/lib/lists.nix:402-417 | the search of a whole list ends in a state that holds exactly its elements, as the next row says |
| TopologicalSort.DfsFinds | ofborg/test-srcs/maintainers/lib/lists.nix:402-417 | it ends at an element nothing left is before, or on a path that closes, listing every element that closes it |
| TopologicalSort.ToposortSortsOrLoops | ofborg/test-srcs/maintainers/lib/lists.nix:440-458 | sorting gives a permutation with no later element before an earlier one, or a chain of list elements closed by every element of `loops` |
| TopologicalSort.SortsIffAcyclic | ofborg/test-srcs/maintainers/lib/lists.nix:440-458 | it gives a result exactly when no elements at two or more places form a cycle |

## Left out

- UTF-8: text is sequences of characters; undecodable output lines are one placeholder, undecodable log files are not modelled.
- LogCollecting.LogMessageCollector.OpenHandle: fails only on bad and blocked paths; other operating system errors (permissions, a full disk) are not modelled.
- LogCollecting.LogMessageCollector.Consumer: the same, and a write that fails or is partial.
- Aliasing in the collector: it holds each writer's state as a value, not a reference to a `LineWriter` object; the object and the value are tied by `LineWriting.LineWriter.WriteToLine`.
- JSON encoding and decoding, and the order in which message kinds are tried.
- Integer widths: counters do not wrap; line number 0 of a log message is a panic.
- Thread panics, pipe sizes and reads that fail for ever: each pipe is a finite sequence of lines.
- GitHub beyond statuses and labels: gists, check runs, review requests and URLs; a request that fails is taken to have had no effect.
- Publishing: what a build tells and an evaluation answers is what it asks to be published; a failure of the message broker at that point panics in the receiver.
- git, nix and the performance report: arbitrary outcomes, or not mentioned. The duration that an event carries.
- The macros of the parser library: the grammar is ordered choice with white space skipped between parts, as the repository's tests on it expect.
- Access lists, work-in-progress wording beyond its predicate, and logging.
- LogPaths.PathsAreDistinct: needs attempt ids without dots, as the generated ones are; `LogPaths.PathsMeetIff` is the exact condition for all valid keys.
