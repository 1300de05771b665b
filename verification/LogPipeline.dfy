/** From the lines a builder logs to the file that holds them. */
module LogPipeline {
  import opened Wrappers
  import opened TextLines
  import opened LineWriting
  import opened LogPaths
  import opened LogCollecting
  import opened BuildJobs
  import opened Interleavings
  import opened Partitioning
  import AsyncCommands

  /** One job run by one builder under one attempt id. */
  datatype Attempt = Attempt(job: BuildJob, me: Identity, world: World)

  /** How statuses print their codes, and how message bodies print as JSON. */
  datatype Encoding = Encoding(describe: int -> string, json: Body -> string)

  function Key(a: Attempt): LogFrom {
    var routingKey := LogDestination(a.job).routingKey;
    LogFrom(if routingKey.Some? then routingKey.value else "", a.me.attemptId)
  }

  function Logged(a: Attempt): seq<string> {
    if Builds(a.job, a.world) then LoggedLines(a.job, a.world) else []
  }

  function Decoded(body: Body, e: Encoding): MsgType {
    match body
    case LogStart(_, _) => Start(e.json(body))
    case LogMsg(lineNumber, output) => Msg(lineNumber, output)
    case Result(_) => Finish(e.json(body))
  }

  /** What reaches the collector of the actions published to `to`. */
  function Received(actions: seq<Action>, to: Destination, from: LogFrom, e: Encoding): seq<LogMessage> {
    if actions == [] then []
    else
      (if actions[0].Publish? && actions[0].to == to then [LogMessage(from, Decoded(actions[0].body, e))] else [])
      + Received(actions[1..], to, from, e)
  }

  /** The collector's messages of one attempt, in the order told. */
  function Stream(a: Attempt, e: Encoding): seq<LogMessage> {
    Received(Told(a.job, a.me, a.world, e.describe), LogDestination(a.job), Key(a), e)
  }

  /** The messages of one key. */
  function Of(from: LogFrom, messages: seq<LogMessage>): seq<LogMessage> {
    if messages == [] then []
    else (if messages[0].from == from then [messages[0]] else []) + Of(from, messages[1..])
  }

  /** Line i goes to index i. */
  function InOrder(first: nat, lines: seq<string>): (ops: seq<Op>)
    ensures |ops| == |lines|
  {
    seq(|lines|, i requires 0 <= i < |lines| => Op(first + i, lines[i]))
  }

  lemma OpsForAppend(from: LogFrom, a: seq<LogMessage>, b: seq<LogMessage>)
    ensures OpsFor(from, a + b) == OpsFor(from, a) + OpsFor(from, b)
  {
    if a == [] {
      assert a + b == b;
    } else {
      assert (a + b)[1..] == a[1..] + b;
      OpsForAppend(from, a[1..], b);
    }
  }

  lemma OpsForOf(from: LogFrom, messages: seq<LogMessage>)
    ensures OpsFor(from, Of(from, messages)) == OpsFor(from, messages)
  {
    if messages != [] {
      OpsForOf(from, messages[1..]);
      OpsForAppend(from, if messages[0].from == from then [messages[0]] else [], Of(from, messages[1..]));
      assert [messages[0]][1..] == [];
    }
  }

  /** The writes that numbered log messages stand for. */
  function OpsOfMessages(messages: seq<(nat, string)>): seq<Op> {
    if messages == [] then []
    else
      (if messages[0].0 > 0 then [Op(messages[0].0 - 1, messages[0].1)] else []) + OpsOfMessages(messages[1..])
  }

  ghost predicate LogsOnlyTo(actions: seq<Action>, to: Destination) {
    forall i :: 0 <= i < |actions| && actions[i].Publish? && actions[i].body.LogMsg? ==>
                  actions[i].to == to && actions[i].body.lineNumber > 0
  }

  lemma ToldLogsOnlyTo(a: Attempt, e: Encoding)
    ensures LogsOnlyTo(Told(a.job, a.me, a.world, e.describe), LogDestination(a.job))
  {
    if Builds(a.job, a.world) {
      PartsOfTold(a.job, a.me, a.world, e.describe);
      assert LogsOnlyTo(EndActions(a.job, a.me, a.world, e.describe), LogDestination(a.job));
    }
  }

  lemma OpsOfReceived(actions: seq<Action>, to: Destination, from: LogFrom, e: Encoding)
    requires LogsOnlyTo(actions, to)
    ensures OpsFor(from, Received(actions, to, from, e)) == OpsOfMessages(LogMessages(actions))
  {
    if actions != [] {
      OpsOfReceived(actions[1..], to, from, e);
      var head := if actions[0].Publish? && actions[0].to == to
                  then [LogMessage(from, Decoded(actions[0].body, e))] else [];
      OpsForAppend(from, head, Received(actions[1..], to, from, e));
      assert head != [] ==> head[1..] == [];
      if actions[0].Publish? && actions[0].body.LogMsg? {
        var n, text := actions[0].body.lineNumber, actions[0].body.output;
        assert OpsFor(from, head) == [Op(n - 1, text)];
        assert LogMessages(actions) == [(n, text)] + LogMessages(actions[1..]);
        assert LogMessages(actions)[1..] == LogMessages(actions[1..]);
      } else {
        assert OpsFor(from, head) == [];
        assert LogMessages(actions) == LogMessages(actions[1..]);
      }
    }
  }

  lemma {:induction false} OpsOfCounted(first: nat, lines: seq<string>)
    ensures OpsOfMessages(Counted(first + 1, lines)) == InOrder(first, lines)
    decreases |lines|
  {
    if lines != [] {
      OpsOfCounted(first + 1, lines[1..]);
      assert Counted(first + 1, lines)[1..] == Counted(first + 2, lines[1..]);
      assert InOrder(first, lines) == [Op(first, lines[0])] + InOrder(first + 1, lines[1..]);
    }
  }

  /** `line_number - 1` undoes the counting from one. */
  lemma StreamWritesInOrder(a: Attempt, e: Encoding)
    ensures OpsFor(Key(a), Stream(a, e)) == InOrder(0, Logged(a))
  {
    ToldLogsOnlyTo(a, e);
    PublishedNumbersAreConsecutive(a.job, a.me, a.world, e.describe);
    CountedWritesInOrder(Told(a.job, a.me, a.world, e.describe), LogDestination(a.job), Key(a), e, Logged(a));
  }

  lemma CountedWritesInOrder(actions: seq<Action>, to: Destination, from: LogFrom, e: Encoding, lines: seq<string>)
    requires LogsOnlyTo(actions, to) && LogMessages(actions) == Counted(1, lines)
    ensures OpsFor(from, Received(actions, to, from, e)) == InOrder(0, lines)
  {
    OpsOfReceived(actions, to, from, e);
    OpsOfCounted(0, lines);
  }

  /** Writing in order, from an empty buffer, builds exactly the lines; each write is steady. */
  lemma {:induction false} InOrderBuilds(done: seq<string>, last: nat, lines: seq<string>)
    requires AllNewlineFree(lines) && last <= |done|
    ensures SteadyRun(Intent(done, last), InOrder(|done|, lines))
    ensures SetLines(done, InOrder(|done|, lines)) == done + lines
    decreases |lines|
  {
    var ops := InOrder(|done|, lines);
    if lines == [] {
      assert done + lines == done;
    } else {
      var done' := done + [lines[0]];
      assert SetLine(done, |done|, lines[0]) == done';
      assert ops[1..] == InOrder(|done'|, lines[1..]);
      InOrderBuilds(done', |done|, lines[1..]);
      assert done' + lines[1..] == done + lines;
    }
  }

  ghost predicate FromAttempts(attempts: seq<Attempt>, messages: seq<LogMessage>) {
    forall i :: 0 <= i < |messages| ==> exists j :: 0 <= j < |attempts| && Key(attempts[j]) == messages[i].from
  }

  lemma {:induction false} OfOthers(from: LogFrom, messages: seq<LogMessage>)
    requires forall i :: 0 <= i < |messages| ==> messages[i].from != from
    ensures OpsFor(from, messages) == []
  {
    if messages != [] {
      OfOthers(from, messages[1..]);
    }
  }

  lemma {:induction false} StreamIsWellFormed(actions: seq<Action>, to: Destination, from: LogFrom, e: Encoding)
    requires LogsOnlyTo(actions, to)
    ensures forall i :: 0 <= i < |Received(actions, to, from, e)| ==>
                          (Received(actions, to, from, e)[i].message.Msg? ==>
                             IsWrite(Received(actions, to, from, e)[i].message))
  {
    if actions != [] {
      StreamIsWellFormed(actions[1..], to, from, e);
    }
  }

  lemma OfKeeps(from: LogFrom, messages: seq<LogMessage>, i: nat)
    requires i < |messages| && messages[i].from == from
    ensures messages[i] in Of(from, messages)
  {
    if i > 0 {
      OfKeeps(from, messages[1..], i - 1);
    }
  }

  /** Every message is well formed when each key's messages start its attempt's stream. */
  lemma StreamsAreWellFormed(attempts: seq<Attempt>, messages: seq<LogMessage>, e: Encoding)
    requires FromAttempts(attempts, messages)
    requires forall j :: 0 <= j < |attempts| ==>
               ValidKey(Key(attempts[j])) && Of(Key(attempts[j]), messages) <= Stream(attempts[j], e)
    ensures WellFormed(messages)
  {
    forall i | 0 <= i < |messages|
      ensures ValidKey(messages[i].from) && (messages[i].message.Msg? ==> IsWrite(messages[i].message))
    {
      var j :| 0 <= j < |attempts| && Key(attempts[j]) == messages[i].from;
      StreamMessageIsWellFormed(attempts[j], messages, i, e);
    }
  }

  lemma StreamMessageIsWellFormed(a: Attempt, messages: seq<LogMessage>, i: nat, e: Encoding)
    requires i < |messages| && messages[i].from == Key(a)
    requires Of(Key(a), messages) <= Stream(a, e)
    ensures messages[i].message.Msg? ==> IsWrite(messages[i].message)
  {
    OfKeeps(Key(a), messages, i);
    ToldLogsOnlyTo(a, e);
    StreamIsWellFormed(Told(a.job, a.me, a.world, e.describe), LogDestination(a.job), Key(a), e);
    var k :| 0 <= k < |Of(Key(a), messages)| && Of(Key(a), messages)[k] == messages[i];
    assert Stream(a, e)[k] == messages[i];
  }

  lemma ArrivedOps(from: LogFrom, messages: seq<LogMessage>, all: seq<LogMessage>, lines: seq<string>)
    requires Of(from, messages) <= all && OpsFor(from, all) == InOrder(0, lines)
    ensures var ops := OpsFor(from, messages);
            && |ops| <= |lines| && ops == InOrder(0, lines[..|ops|])
            && (Of(from, messages) == all ==> |ops| == |lines|)
  {
    var mine := Of(from, messages);
    OpsForOf(from, messages);
    assert all == mine + all[|mine|..];
    OpsForAppend(from, mine, all[|mine|..]);
    var ops := OpsFor(from, messages);
    assert ops == InOrder(0, lines)[..|ops|];
  }

  /** What one attempt's file should hold after some of its messages arrived. */
  lemma ArrivedLines(a: Attempt, messages: seq<LogMessage>, e: Encoding)
    requires Of(Key(a), messages) <= Stream(a, e) && AllNewlineFree(Logged(a))
    ensures var ops := OpsFor(Key(a), messages);
            && |ops| <= |Logged(a)|
            && SteadyRun(Intent([], 0), ops)
            && SetLines([], ops) == Logged(a)[..|ops|]
            && (Of(Key(a), messages) == Stream(a, e) ==> |ops| == |Logged(a)|)
  {
    StreamWritesInOrder(a, e);
    ArrivedSteps(Key(a), messages, Stream(a, e), Logged(a));
  }

  lemma ArrivedSteps(from: LogFrom, messages: seq<LogMessage>, all: seq<LogMessage>, logged: seq<string>)
    requires Of(from, messages) <= all && OpsFor(from, all) == InOrder(0, logged) && AllNewlineFree(logged)
    ensures var ops := OpsFor(from, messages);
            && |ops| <= |logged|
            && SteadyRun(Intent([], 0), ops)
            && SetLines([], ops) == logged[..|ops|]
            && (Of(from, messages) == all ==> |ops| == |logged|)
  {
    ArrivedOps(from, messages, all, logged);
    var lines := logged[..|OpsFor(from, messages)|];
    InOrderBuilds([], 0, lines);
    assert [] + lines == lines;
  }

  /** The attempt's file holds the lines of it that arrived, and all it logged once every message has. */
  ghost predicate HoldsArrived(c: Collector, a: Attempt, messages: seq<LogMessage>, e: Encoding) {
    var n := |OpsFor(Key(a), messages)|;
    && n <= |Logged(a)|
    && FileAt(c.files, LogPath(c.root, Key(a))) == Print(Logged(a)[..n])
    && (Of(Key(a), messages) == Stream(a, e) ==> n == |Logged(a)|)
  }

  /**
   * Any number of attempts, their messages each in order but interleaved at
   * will, a cache of any size: the run is panic-free exactly when the files it
   * goes to can lie beside each other, and then at every moment each attempt's
   * file holds exactly the lines of it that arrived, at the end all it logged.
   */
  lemma LogsHoldWhatWasLogged(root: Path, maxOpen: nat, files: map<Path, string>,
                              attempts: seq<Attempt>, messages: seq<LogMessage>, e: Encoding)
    requires maxOpen >= 1 && PrefixFree(files.Keys)
    requires forall k :: ValidKey(k) ==> Tidy(FileAt(files, LogPath(root, k)))
    requires forall i, j :: 0 <= i < j < |attempts| ==> Key(attempts[i]) != Key(attempts[j])
    requires forall j :: 0 <= j < |attempts| ==>
               && ValidKey(Key(attempts[j]))
               && LogPath(root, Key(attempts[j])) !in files
               && AllNewlineFree(Logged(attempts[j]))
               && Of(Key(attempts[j]), messages) <= Stream(attempts[j], e)
    requires FromAttempts(attempts, messages)
    ensures var end := DeliverAll(Collector(root, maxOpen, [], files), messages);
            && (end.Acked? <==> PrefixFree(files.Keys + Targets(root, messages)))
            && (end.Acked? ==> forall j :: 0 <= j < |attempts| ==>
                  HoldsArrived(end.state, attempts[j], messages, e))
  {
    var c, intents := Collector(root, maxOpen, [], files), Existing(root, files);
    FreshCollectorIsConsistent(root, maxOpen, files);
    StreamsAreWellFormed(attempts, messages, e);
    forall k | ValidKey(k)
      ensures SteadyRun(intents(k), OpsFor(k, messages))
    {
      if exists j :: 0 <= j < |attempts| && Key(attempts[j]) == k {
        var j :| 0 <= j < |attempts| && Key(attempts[j]) == k;
        assert intents(k) == Intent([], 0);
        ArrivedLines(attempts[j], messages, e);
      } else {
        OfOthers(k, messages);
      }
    }
    EvictionLeavesNoTrace(c, messages, intents);
    forall j | DeliverAll(c, messages).Acked? && 0 <= j < |attempts|
      ensures HoldsArrived(DeliverAll(c, messages).state, attempts[j], messages, e)
    {
      ArrivedLines(attempts[j], messages, e);
      assert intents(Key(attempts[j])) == Intent([], 0);
    }
  }

  /**
   * When the job's world is a run of the child process, what is logged is the
   * instantiation errors and then both output streams, complete and each in
   * its own order, and the reported status is the process's own exit.
   */
  lemma BuildsLogTheirCommand(a: Attempt, e: Encoding, c: AsyncCommands.Config, s: AsyncCommands.State)
    requires Builds(a.job, a.world) && !Panics(a.job, a.world)
    requires Oks(Instantiations(a.job.attrs, a.world.instantiation)) != []
    requires c.drains && AsyncCommands.Reachable(c, s)
    requires s.consumer == AsyncCommands.Returned(a.world.buildExit) && s.received == a.world.buildLines
    ensures var errors := InstantiationErrors(Errs(Instantiations(a.job.attrs, a.world.instantiation)));
            && Logged(a) == errors + s.received
            && Interleaving(AsyncCommands.ToSendAll(c.stdout), AsyncCommands.ToSendAll(c.stderr), s.received)
    ensures FinalResult(a.job, a.me, a.world, e.describe).status == StatusOf(c.exit, e.describe)
  {
    AsyncCommands.LinesEndsComplete(c, s);
    AsyncCommands.ReachableInv(c, s);
  }
}
