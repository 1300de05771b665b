/** `BuildWorker`: one build job, the log lines it publishes, and the result it reports. */
module BuildJobs {
  import opened Wrappers
  import opened Partitioning
  import AsyncCommands
  import CommentParsing

  datatype Repo = Repo(owner: string, name: string, fullName: string)

  datatype Pr = Pr(targetBranch: Option<string>, number: nat, headSha: string)

  datatype Destination = Destination(exchange: Option<string>, routingKey: Option<string>)

  datatype BuildJob = BuildJob(repo: Repo, pr: Pr, subset: Option<CommentParsing.Subset>, attrs: seq<string>,
                               requestId: string, logs: Option<Destination>, statusReport: Option<Destination>)

  datatype BuildStatus = Skipped | Succeeded | Failed | TimedOut | UnexpectedError(err: string)

  datatype BuildResult = BuildResult(repo: Repo, pr: Pr, system: string, output: seq<string>,
                                     attemptId: string, requestId: string, status: BuildStatus,
                                     attemptedAttrs: Option<seq<string>>, skippedAttrs: Option<seq<string>>)

  datatype Body =
    | LogStart(attempted: seq<string>, skipped: seq<string>)
    | LogMsg(lineNumber: nat, output: string)
    | Result(result: BuildResult)

  /** Published bodies carry the attempt they belong to. */
  datatype Action = Ack | Publish(to: Destination, attemptId: string, body: Body)

  /**
   * What the job's surroundings do: git, instantiation, and the build command.
   * `lookedUp`, `instantiated` and `spawned` tell whether the commit's lookup,
   * the instantiations and the build could be run at all.
   */
  datatype World = World(cloned: bool, checkedOut: bool, fetched: bool,
                         lookedUp: bool, commitExists: bool, merged: bool,
                         instantiated: bool, instantiation: nat -> Option<seq<string>>,
                         spawned: bool, buildLines: seq<string>, buildExit: AsyncCommands.ExitResult)

  /** Who is building, under which attempt. */
  datatype Identity = Identity(system: string, attemptId: string)

  const SNIPPET_LINES: nat := 10

  function Snippet(lines: seq<string>): seq<string> {
    if |lines| <= SNIPPET_LINES then lines else lines[|lines| - SNIPPET_LINES..]
  }

  function LogDestination(job: BuildJob): Destination {
    if job.logs.Some? then job.logs.value else Destination(Some("logs"), Some("build.log"))
  }

  function ResultDestination(job: BuildJob): Destination {
    if job.statusReport.Some? then job.statusReport.value else Destination(Some("build-results"), None)
  }

  function StatusOf(exit: AsyncCommands.ExitResult, describe: int -> string): BuildStatus {
    match exit
    case Exited(Some(code)) =>
      if code == 0 then Succeeded
      else if code == 100 then Failed
      else if code == 101 then TimedOut
      else UnexpectedError("command failed with exit code " + describe(code))
    case Exited(None) => UnexpectedError("unexpected build failure")
    case WaitError(message) => UnexpectedError("failed on interior command " + message)
  }

  function ErrorLines(attr: string, log: seq<string>): seq<string> {
    ["Cannot nix-instantiate `" + attr + "' because:"] + log + [""]
  }

  /** The lines that explain the attributes that do not instantiate. */
  function InstantiationErrors(cannotBuild: seq<(string, seq<string>)>): seq<string> {
    if cannotBuild == [] then []
    else
      var n := |cannotBuild| - 1;
      InstantiationErrors(cannotBuild[..n]) + ErrorLines(cannotBuild[n].0, cannotBuild[n].1)
  }

  /** One log message a line, numbered from `first`. */
  function Numbered(to: Destination, attemptId: string, first: nat, lines: seq<string>): (actions: seq<Action>)
    ensures |actions| == |lines|
    ensures forall i :: 0 <= i < |lines| ==> actions[i] == Publish(to, attemptId, LogMsg(first + i, lines[i]))
  {
    seq(|lines|, i requires 0 <= i < |lines| => Publish(to, attemptId, LogMsg(first + i, lines[i])))
  }

  /** Keeping the last lines, one line at a time. */
  function SnippetPush(snippet: seq<string>, line: string): seq<string> {
    (if |snippet| >= SNIPPET_LINES then snippet[1..] else snippet) + [line]
  }

  lemma LineLogged(to: Destination, attemptId: string, before: seq<Action>, lines: seq<string>, line: string)
    ensures before + Numbered(to, attemptId, 1, lines) + [Publish(to, attemptId, LogMsg(|lines| + 1, line))]
         == before + Numbered(to, attemptId, 1, lines + [line])
    ensures Snippet(lines + [line]) == SnippetPush(Snippet(lines), line)
  {
    var told, message := Numbered(to, attemptId, 1, lines), Publish(to, attemptId, LogMsg(|lines| + 1, line));
    assert Numbered(to, attemptId, 1, lines + [line]) == told + [message];
    Associate(before, told, [message]);
    SnippetStep(lines, line);
  }

  lemma SnippetStep(lines: seq<string>, line: string)
    ensures Snippet(lines + [line]) == SnippetPush(Snippet(lines), line)
  {
  }

  function ResultWith(job: BuildJob, me: Identity, output: seq<string>, status: BuildStatus,
                      attempted: Option<seq<string>>, skipped: Option<seq<string>>): BuildResult {
    BuildResult(job.repo, job.pr, me.system, output, me.attemptId, job.requestId, status, attempted, skipped)
  }

  /** The result to the result exchange, the same to the log exchange, then the acknowledgement. */
  function FinishActions(job: BuildJob, me: Identity, result: BuildResult): seq<Action> {
    [Publish(ResultDestination(job), me.attemptId, Result(result)),
     Publish(LogDestination(job), me.attemptId, Result(result)), Ack]
  }

  /** Everything up to the instantiations could be run. */
  predicate Prepares(world: World) {
    && world.cloned && world.checkedOut && world.fetched && world.lookedUp
    && (world.commitExists && world.merged ==> world.instantiated)
  }

  /** The job gets as far as logging. */
  predicate Builds(job: BuildJob, world: World) {
    job.attrs != [] && Prepares(world) && world.commitExists && world.merged
  }

  /** The build it wants to run cannot be spawned. */
  predicate SpawnFails(job: BuildJob, world: World) {
    Builds(job, world) && Oks(Instantiations(job.attrs, world.instantiation)) != [] && !world.spawned
  }

  /** A failed `unwrap` or `expect`. */
  predicate Panics(job: BuildJob, world: World) {
    job.attrs != [] && (!Prepares(world) || SpawnFails(job, world))
  }

  /** Everything one attempt logs. */
  function LoggedLines(job: BuildJob, world: World): seq<string> {
    var results := Instantiations(job.attrs, world.instantiation);
    if Oks(results) == [] || !world.spawned then InstantiationErrors(Errs(results))
    else InstantiationErrors(Errs(results)) + world.buildLines
  }

  function FinalResult(job: BuildJob, me: Identity, world: World, describe: int -> string): BuildResult {
    var results := Instantiations(job.attrs, world.instantiation);
    var snippet := Snippet(LoggedLines(job, world));
    if Oks(results) == [] then
      ResultWith(job, me, snippet, Skipped, None, Some(AttrNames(Errs(results))))
    else
      ResultWith(job, me, snippet, StatusOf(world.buildExit, describe),
                 Some(Oks(results)), Some(AttrNames(Errs(results))))
  }

  function EndActions(job: BuildJob, me: Identity, world: World, describe: int -> string): seq<Action> {
    if SpawnFails(job, world) then [] else FinishActions(job, me, FinalResult(job, me, world, describe))
  }

  /** What one job tells its receiver, up to the panic if there is one. */
  function Told(job: BuildJob, me: Identity, world: World, describe: int -> string): seq<Action> {
    if job.attrs == [] then [Ack]
    else if !Prepares(world) then []
    else if !world.commitExists then [Ack]
    else if !world.merged then
      var result := ResultWith(job, me, ["Merge failed"], Failed, None, None);
      [Publish(ResultDestination(job), me.attemptId, Result(result)), Ack]
    else
      var results := Instantiations(job.attrs, world.instantiation);
      var start := Publish(LogDestination(job), me.attemptId, LogStart(Oks(results), AttrNames(Errs(results))));
      [start] + Numbered(LogDestination(job), me.attemptId, 1, LoggedLines(job, world))
      + EndActions(job, me, world, describe)
  }

  lemma Associate(a: seq<Action>, b: seq<Action>, c: seq<Action>)
    ensures a + b + c == a + (b + c)
  {
  }

  lemma Regroup(a: seq<Action>, b: seq<Action>, c: seq<Action>, d: seq<Action>)
    ensures a + b + c + d == a + (b + c + d)
  {
  }

  class NotificationReceiver {
    var actions: seq<Action>

    constructor ()
      ensures actions == []
    {
      actions := [];
    }

    method Tell(action: Action)
      modifies this
      ensures actions == old(actions) + [action]
    {
      actions := actions + [action];
    }
  }

  class JobActions {
    const job: BuildJob
    const me: Identity
    const receiver: NotificationReceiver
    var lineCounter: nat
    var snippetLog: seq<string>
    ghost var logged: seq<string>
    ghost var before: seq<Action>

    /** The counter, the snippet and the published messages always follow the lines logged so far. */
    ghost predicate Valid() reads this, receiver {
      && lineCounter == |logged|
      && snippetLog == Snippet(logged)
      && receiver.actions == before + Numbered(LogDestination(job), me.attemptId, 1, logged)
    }

    constructor (job: BuildJob, me: Identity, receiver: NotificationReceiver)
      ensures Valid() && logged == [] && before == receiver.actions
      ensures this.job == job && this.me == me && this.receiver == receiver
    {
      this.job, this.me, this.receiver := job, me, receiver;
      lineCounter, snippetLog, logged, before := 0, [], [], receiver.actions;
    }

    method LogStarted(canBuild: seq<string>, cannotBuild: seq<string>)
      requires Valid() && logged == []
      modifies this, receiver
      ensures Valid() && logged == []
      ensures before == old(receiver.actions)
                        + [Publish(LogDestination(job), me.attemptId, LogStart(canBuild, cannotBuild))]
    {
      receiver.Tell(Publish(LogDestination(job), me.attemptId, LogStart(canBuild, cannotBuild)));
      before := receiver.actions;
    }

    method LogLine(line: string)
      requires Valid()
      modifies this, receiver
      ensures Valid() && logged == old(logged) + [line] && before == old(before)
    {
      ghost var lines := logged;
      lineCounter := lineCounter + 1;
      KeepInSnippet(line);
      receiver.Tell(Publish(LogDestination(job), me.attemptId, LogMsg(lineCounter, line)));
      logged := lines + [line];
      LineLogged(LogDestination(job), me.attemptId, before, lines, line);
    }

    method KeepInSnippet(line: string)
      modifies this`snippetLog
      ensures snippetLog == SnippetPush(old(snippetLog), line)
    {
      if |snippetLog| >= SNIPPET_LINES {
        snippetLog := snippetLog[1..];
      }
      snippetLog := snippetLog + [line];
    }

    method LogLines(lines: seq<string>)
      requires Valid()
      modifies this, receiver
      ensures Valid() && logged == old(logged) + lines && before == old(before)
    {
      for i := 0 to |lines|
        invariant Valid() && logged == old(logged) + lines[..i] && before == old(before)
      {
        LogLine(lines[i]);
      }
      assert lines[..|lines|] == lines;
    }

    method LogInstantiationErrors(cannotBuild: seq<(string, seq<string>)>)
      requires Valid()
      modifies this, receiver
      ensures Valid() && logged == old(logged) + InstantiationErrors(cannotBuild) && before == old(before)
    {
      for i := 0 to |cannotBuild|
        invariant Valid() && before == old(before)
        invariant logged == old(logged) + InstantiationErrors(cannotBuild[..i])
      {
        LogInstantiationError(cannotBuild[i].0, cannotBuild[i].1);
        assert cannotBuild[..i + 1][..i] == cannotBuild[..i];
      }
      assert cannotBuild[..|cannotBuild|] == cannotBuild;
    }

    method LogInstantiationError(attr: string, log: seq<string>)
      requires Valid()
      modifies this, receiver
      ensures Valid() && logged == old(logged) + ErrorLines(attr, log) && before == old(before)
    {
      LogLine("Cannot nix-instantiate `" + attr + "' because:");
      LogLines(log);
      LogLine("");
    }

    method TellResult(result: BuildResult)
      modifies receiver
      ensures receiver.actions == old(receiver.actions) + FinishActions(job, me, result)
    {
      receiver.Tell(Publish(ResultDestination(job), me.attemptId, Result(result)));
      receiver.Tell(Publish(LogDestination(job), me.attemptId, Result(result)));
      receiver.Tell(Ack);
    }

    method MergeFailed()
      modifies receiver
      ensures receiver.actions == old(receiver.actions)
              + [Publish(ResultDestination(job), me.attemptId,
                         Result(ResultWith(job, me, ["Merge failed"], Failed, None, None))), Ack]
    {
      var result := ResultWith(job, me, ["Merge failed"], Failed, None, None);
      receiver.Tell(Publish(ResultDestination(job), me.attemptId, Result(result)));
      receiver.Tell(Ack);
    }
  }

  /** The control flow of one job; returns whether it panicked. */
  method Consumer(job: BuildJob, me: Identity, world: World, describe: int -> string,
                  receiver: NotificationReceiver) returns (panicked: bool)
    modifies receiver
    ensures panicked == Panics(job, world)
    ensures receiver.actions == old(receiver.actions) + Told(job, me, world, describe)
  {
    var actions := new JobActions(job, me, receiver);
    if job.attrs == [] {
      receiver.Tell(Ack);
      return false;
    }
    if !world.cloned || !world.checkedOut || !world.fetched {
      return true;
    }
    if !world.lookedUp {
      return true;
    }
    if !world.commitExists {
      receiver.Tell(Ack);
      return false;
    }
    if !world.merged {
      actions.MergeFailed();
      return false;
    }
    if !world.instantiated {
      return true;
    }
    panicked := Build(job, me, world, describe, actions);
  }

  method Build(job: BuildJob, me: Identity, world: World, describe: int -> string, actions: JobActions)
    returns (panicked: bool)
    requires Builds(job, world) && actions.Valid() && actions.logged == []
    requires actions.job == job && actions.me == me
    modifies actions, actions.receiver
    ensures panicked == SpawnFails(job, world)
    ensures actions.receiver.actions == old(actions.receiver.actions) + Told(job, me, world, describe)
  {
    var canBuild, cannotBuild := PartitionResult(Instantiations(job.attrs, world.instantiation));
    var cannotBuildAttrs := AttrNames(cannotBuild);
    ghost var before := actions.receiver.actions;
    PartsOfToldAfter(before, job, me, world, describe);
    actions.LogStarted(canBuild, cannotBuildAttrs);
    actions.LogInstantiationErrors(cannotBuild);
    var result;
    if canBuild == [] {
      result := ResultWith(job, me, actions.snippetLog, Skipped, None, Some(cannotBuildAttrs));
    } else {
      if !world.spawned {
        return true;
      }
      actions.LogLines(world.buildLines);
      var status := StatusOf(world.buildExit, describe);
      result := ResultWith(job, me, actions.snippetLog, status, Some(canBuild), Some(cannotBuildAttrs));
    }
    actions.TellResult(result);
    assert actions.logged == LoggedLines(job, world);
    panicked := false;
  }

  lemma PartsOfToldAfter(before: seq<Action>, job: BuildJob, me: Identity, world: World, describe: int -> string)
    requires Builds(job, world)
    ensures before + [StartAction(job, me, world)]
              + Numbered(LogDestination(job), me.attemptId, 1, LoggedLines(job, world))
              + EndActions(job, me, world, describe)
         == before + Told(job, me, world, describe)
  {
    PartsOfTold(job, me, world, describe);
    Regroup(before, [StartAction(job, me, world)],
            Numbered(LogDestination(job), me.attemptId, 1, LoggedLines(job, world)),
            EndActions(job, me, world, describe));
  }

  // Properties of every run.

  /** The log messages among some actions, in order: number and text. */
  function LogMessages(actions: seq<Action>): seq<(nat, string)> {
    if actions == [] then []
    else
      (if actions[0].Publish? && actions[0].body.LogMsg?
       then [(actions[0].body.lineNumber, actions[0].body.output)] else [])
      + LogMessages(actions[1..])
  }

  lemma LogMessagesAppend(a: seq<Action>, b: seq<Action>)
    ensures LogMessages(a + b) == LogMessages(a) + LogMessages(b)
  {
    if a == [] {
      assert a + b == b;
    } else {
      assert (a + b)[1..] == a[1..] + b;
      LogMessagesAppend(a[1..], b);
    }
  }

  /** The numbers 1, 2, 3, ... against the lines. */
  function Counted(first: nat, lines: seq<string>): seq<(nat, string)> {
    seq(|lines|, i requires 0 <= i < |lines| => (first + i, lines[i]))
  }

  lemma {:induction false} LogMessagesOfNumbered(to: Destination, attemptId: string, first: nat, lines: seq<string>)
    ensures LogMessages(Numbered(to, attemptId, first, lines)) == Counted(first, lines)
    decreases |lines|
  {
    if lines != [] {
      LogMessagesOfNumbered(to, attemptId, first + 1, lines[1..]);
      assert Numbered(to, attemptId, first, lines)[1..] == Numbered(to, attemptId, first + 1, lines[1..]);
      assert Counted(first, lines) == [(first, lines[0])] + Counted(first + 1, lines[1..]);
    }
  }

  function StartAction(job: BuildJob, me: Identity, world: World): Action {
    var results := Instantiations(job.attrs, world.instantiation);
    Publish(LogDestination(job), me.attemptId, LogStart(Oks(results), AttrNames(Errs(results))))
  }

  lemma PartsOfTold(job: BuildJob, me: Identity, world: World, describe: int -> string)
    requires Builds(job, world)
    ensures Told(job, me, world, describe)
         == [StartAction(job, me, world)] + Numbered(LogDestination(job), me.attemptId, 1, LoggedLines(job, world))
            + EndActions(job, me, world, describe)
  {
  }

  /** Every run that does not panic acknowledges exactly once, at the very end; one that panics never does. */
  lemma OneAckAtTheEnd(job: BuildJob, me: Identity, world: World, describe: int -> string)
    ensures var told := Told(job, me, world, describe);
            && (Panics(job, world) ==> Ack !in told)
            && (!Panics(job, world) ==>
                  told != [] && forall i :: 0 <= i < |told| ==> (told[i] == Ack <==> i == |told| - 1))
  {
    if Builds(job, world) {
      PartsOfTold(job, me, world, describe);
      var lines := Numbered(LogDestination(job), me.attemptId, 1, LoggedLines(job, world));
      if SpawnFails(job, world) {
        assert Ack !in [StartAction(job, me, world)] + lines;
      } else {
        EndOfParts(StartAction(job, me, world), lines, FinishActions(job, me, FinalResult(job, me, world, describe)));
        AckLast(Told(job, me, world, describe), FinishActions(job, me, FinalResult(job, me, world, describe)));
      }
    }
  }

  lemma AckLast(told: seq<Action>, finish: seq<Action>)
    requires |told| >= 3 && told[|told| - 3..] == finish && finish[0].Publish? && finish[1].Publish? && finish[2] == Ack
    requires forall i :: 0 <= i < |told| - 3 ==> told[i].Publish?
    ensures forall i :: 0 <= i < |told| ==> (told[i] == Ack <==> i == |told| - 1)
  {
    var n := |told|;
    assert told[n - 3] == finish[0] && told[n - 2] == finish[1] && told[n - 1] == finish[2];
  }

  /** The published line numbers are 1..n in order, over all lines logged. */
  lemma PublishedNumbersAreConsecutive(job: BuildJob, me: Identity, world: World, describe: int -> string)
    ensures LogMessages(Told(job, me, world, describe))
         == Counted(1, if Builds(job, world) then LoggedLines(job, world) else [])
  {
    if Builds(job, world) {
      PartsOfTold(job, me, world, describe);
      var lines := Numbered(LogDestination(job), me.attemptId, 1, LoggedLines(job, world));
      MessagesOfParts(StartAction(job, me, world), lines, EndActions(job, me, world, describe));
      LogMessagesOfNumbered(LogDestination(job), me.attemptId, 1, LoggedLines(job, world));
      FinishLogsNothing(job, me, FinalResult(job, me, world, describe));
    } else if job.attrs != [] && Prepares(world) && world.commitExists {
      var told := Told(job, me, world, describe);
      assert told[1..] == [Ack] && [Ack][1..] == [];
    }
  }

  lemma StartLogsNothing(start: Action, lines: seq<Action>)
    requires start.Publish? && !start.body.LogMsg?
    ensures LogMessages([start] + lines) == LogMessages(lines)
  {
    assert ([start] + lines)[1..] == lines;
  }

  lemma MessagesOfParts(start: Action, lines: seq<Action>, finish: seq<Action>)
    requires start.Publish? && !start.body.LogMsg?
    ensures LogMessages([start] + lines + finish) == LogMessages(lines) + LogMessages(finish)
  {
    LogMessagesAppend([start] + lines, finish);
    StartLogsNothing(start, lines);
  }

  lemma FinishLogsNothing(job: BuildJob, me: Identity, result: BuildResult)
    ensures LogMessages(FinishActions(job, me, result)) == []
  {
    var finish := FinishActions(job, me, result);
    assert finish[1..][1..] == [Ack] && [Ack][1..] == [];
    assert LogMessages(finish[1..][1..]) == [];
    assert LogMessages(finish[1..]) == [];
  }

  function Texts(messages: seq<(nat, string)>): seq<string> {
    seq(|messages|, i requires 0 <= i < |messages| => messages[i].1)
  }

  /** A finished or skipped build reports one result twice, just before the acknowledgement, with the last lines. */
  lemma ResultCarriesTheSnippet(job: BuildJob, me: Identity, world: World, describe: int -> string)
    requires Builds(job, world) && !Panics(job, world)
    ensures var told, result := Told(job, me, world, describe), FinalResult(job, me, world, describe);
            var n := |told|;
            && n >= 3
            && told[n - 3..] == FinishActions(job, me, result)
            && result.output == Snippet(Texts(LogMessages(told)))
            && (forall i :: 0 <= i < n - 3 ==> told[i].Publish? && !told[i].body.Result?)
  {
    PublishedNumbersAreConsecutive(job, me, world, describe);
    PartsOfTold(job, me, world, describe);
    var lines := LoggedLines(job, world);
    assert Texts(Counted(1, lines)) == lines;
    EndOfParts(StartAction(job, me, world), Numbered(LogDestination(job), me.attemptId, 1, lines),
               FinishActions(job, me, FinalResult(job, me, world, describe)));
  }

  lemma EndOfParts(start: Action, messages: seq<Action>, finish: seq<Action>)
    requires start.Publish? && !start.body.Result? && |finish| == 3
    requires forall i :: 0 <= i < |messages| ==> messages[i].Publish? && messages[i].body.LogMsg?
    ensures var told := [start] + messages + finish; var n := |told|;
            && told[n - 3..] == finish
            && (forall i :: 0 <= i < n - 3 ==> told[i].Publish? && !told[i].body.Result?)
  {
    var told := [start] + messages + finish;
    assert forall i :: 1 <= i < |told| - 3 ==> told[i] == messages[i - 1];
  }

  lemma SucceededExit(exit: AsyncCommands.ExitResult, describe: int -> string)
    ensures StatusOf(exit, describe).Succeeded? <==> exit == AsyncCommands.Exited(Some(0))
  {
  }

  lemma FinalStatusSucceeds(job: BuildJob, me: Identity, world: World, describe: int -> string)
    ensures FinalResult(job, me, world, describe).status.Succeeded?
       <==> Oks(Instantiations(job.attrs, world.instantiation)) != []
            && world.buildExit == AsyncCommands.Exited(Some(0))
  {
    SucceededExit(world.buildExit, describe);
  }
}
