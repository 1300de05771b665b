/**
 * `AsyncCmd`: two reader threads feed one bounded channel; two joiners and the
 * child's waiter post one notice each to a monitor channel; the head waiter
 * retires the notices and keeps the exit status; a consumer takes lines and
 * then the status. Each atomic action of a thread is one step.
 */
module AsyncCommands {
  import opened Wrappers
  import opened Interleavings

  const OUT_CHANNEL_BUFFER_SIZE: nat := 30
  const WAITER_CHANNEL_BUFFER_SIZE: nat := 10
  const PLACEHOLDER := "Non-UTF8 data omitted from the log."

  datatype Line = Text(text: string) | Undecodable

  /** What waiting for the child yields; a signal leaves no code. */
  datatype ExitResult = Exited(code: Option<int>) | WaitError(message: string)

  datatype WaitTarget = Stderr | Stdout | Child

  type Stream = t: WaitTarget | t != Child witness Stdout

  datatype WaitResult = Thread | Process(result: ExitResult)

  datatype Notice = Notice(id: WaitTarget, result: WaitResult)

  datatype ReaderPc = Reading | Sending(line: string) | ReaderEnded

  /** A reader thread and what its pipe still holds. */
  datatype Reader = Reader(unread: seq<Line>, pc: ReaderPc)

  /** A joiner waits for its target, sends its notice, and ends. */
  datatype Joiner = Waiting | Notifying | Ending | JoinerEnded

  datatype Head = Receiving | Joining(notice: Notice) | HeadEnded

  datatype Consumer = Draining | Awaiting | Returned(result: ExitResult)

  /** The child's two streams and status; whether the consumer drains `lines` before `wait`. */
  datatype Config = Config(stdout: seq<Line>, stderr: seq<Line>, exit: ExitResult, drains: bool)

  datatype State = State(
    outReader: Reader, errReader: Reader,
    channel: seq<string>,
    outJoiner: Joiner, errJoiner: Joiner, childJoiner: Joiner,
    monitor: seq<Notice>,
    waiters: set<WaitTarget>,
    head: Head,
    returnStatus: Option<ExitResult>,
    consumer: Consumer,
    received: seq<string>)
  {
    function ReaderOf(t: Stream): Reader {
      if t == Stdout then outReader else errReader
    }

    function WithReader(t: Stream, r: Reader): State {
      if t == Stdout then this.(outReader := r) else this.(errReader := r)
    }

    function JoinerOf(t: WaitTarget): Joiner {
      match t case Stdout => outJoiner case Stderr => errJoiner case Child => childJoiner
    }

    function WithJoiner(t: WaitTarget, j: Joiner): State {
      match t
      case Stdout => this.(outJoiner := j)
      case Stderr => this.(errJoiner := j)
      case Child => this.(childJoiner := j)
    }

    predicate ReadersEnded() {
      outReader.pc == ReaderEnded && errReader.pc == ReaderEnded
    }

    predicate JoinersEnded() {
      outJoiner == JoinerEnded && errJoiner == JoinerEnded && childJoiner == JoinerEnded
    }
  }

  datatype Step =
    | Read(s: Stream) | Send(s: Stream) | EndReader(s: Stream)
    | Join(t: WaitTarget) | Notify(t: WaitTarget) | EndJoiner(t: WaitTarget)
    | HeadReceive | HeadJoin | HeadDisconnect
    | ConsumerReceive | ConsumerDisconnect | ConsumerWait

  function ToSend(line: Line): string {
    if line.Text? then line.text else PLACEHOLDER
  }

  function ToSendAll(lines: seq<Line>): (sent: seq<string>)
    ensures |sent| == |lines|
  {
    seq(|lines|, i requires 0 <= i < |lines| => ToSend(lines[i]))
  }

  function Lines(c: Config, t: Stream): seq<Line> {
    if t == Stdout then c.stdout else c.stderr
  }

  function NoticeOf(c: Config, t: WaitTarget): Notice {
    Notice(t, if t == Child then Process(c.exit) else Thread)
  }

  /** The state in which `spawn` returns. */
  function Init(c: Config): State {
    State(Reader(c.stdout, Reading), Reader(c.stderr, Reading), [],
          Waiting, Waiting, Waiting, [], {Stdout, Stderr, Child}, Receiving, None,
          if c.drains then Draining else Awaiting, [])
  }

  /** A blocking action is enabled when it would not block. */
  predicate Enabled(s: State, step: Step) {
    match step
    case Read(t) => s.ReaderOf(t).pc == Reading && s.ReaderOf(t).unread != []
    case Send(t) => s.ReaderOf(t).pc.Sending? && |s.channel| < OUT_CHANNEL_BUFFER_SIZE
    case EndReader(t) => s.ReaderOf(t).pc == Reading && s.ReaderOf(t).unread == []
    case Join(t) => s.JoinerOf(t) == Waiting && (t != Child ==> s.ReaderOf(t).pc == ReaderEnded)
    case Notify(t) => s.JoinerOf(t) == Notifying && |s.monitor| < WAITER_CHANNEL_BUFFER_SIZE
    case EndJoiner(t) => s.JoinerOf(t) == Ending
    case HeadReceive => s.head == Receiving && s.monitor != []
    case HeadJoin => s.head.Joining? && s.JoinerOf(s.head.notice.id) == JoinerEnded
    case HeadDisconnect => s.head == Receiving && s.monitor == [] && s.JoinersEnded()
    case ConsumerReceive => s.consumer == Draining && s.channel != []
    case ConsumerDisconnect => s.consumer == Draining && s.channel == [] && s.ReadersEnded()
    case ConsumerWait => s.consumer == Awaiting && s.head == HeadEnded
  }

  function AfterNotice(waiters: set<WaitTarget>): Head {
    if waiters == {} then HeadEnded else Receiving
  }

  const NO_STATUS := WaitError("Thread didn't return an exit status.")

  function Apply(c: Config, s: State, step: Step): State
    requires Enabled(s, step)
  {
    match step
    case Read(t) =>
      var r := s.ReaderOf(t);
      s.WithReader(t, Reader(r.unread[1..], Sending(ToSend(r.unread[0]))))
    case Send(t) =>
      var r := s.ReaderOf(t);
      s.WithReader(t, Reader(r.unread, Reading)).(channel := s.channel + [r.pc.line])
    case EndReader(t) => s.WithReader(t, Reader([], ReaderEnded))
    case Join(t) => s.WithJoiner(t, Notifying)
    case Notify(t) => s.WithJoiner(t, Ending).(monitor := s.monitor + [NoticeOf(c, t)])
    case EndJoiner(t) => s.WithJoiner(t, JoinerEnded)
    case HeadReceive =>
      var notice := s.monitor[0];
      if notice.id in s.waiters then
        s.(monitor := s.monitor[1..], waiters := s.waiters - {notice.id}, head := Joining(notice))
      else s.(monitor := s.monitor[1..], head := AfterNotice(s.waiters))
    case HeadJoin =>
      var result := s.head.notice.result;
      s.(returnStatus := if result.Process? then Some(result.result) else s.returnStatus,
         head := AfterNotice(s.waiters))
    case HeadDisconnect => s.(head := HeadEnded)
    case ConsumerReceive => s.(received := s.received + [s.channel[0]], channel := s.channel[1..])
    case ConsumerDisconnect => s.(consumer := Awaiting)
    case ConsumerWait =>
      s.(consumer := Returned(if s.returnStatus.Some? then s.returnStatus.value else NO_STATUS))
  }

  // The invariant, in four parts.

  /** How many lines of a stream have gone into the channel. */
  function SentCount(lines: seq<Line>, r: Reader): int {
    |lines| - |r.unread| - if r.pc.Sending? then 1 else 0
  }

  ghost predicate ReaderOk(lines: seq<Line>, r: Reader) {
    && 0 <= SentCount(lines, r)
    && r.unread == lines[|lines| - |r.unread|..]
    && (r.pc.Sending? ==> r.pc.line == ToSend(lines[SentCount(lines, r)]))
    && (r.pc == ReaderEnded ==> r.unread == [])
  }

  /** The lines received and then those queued merge what the two readers have sent. */
  ghost predicate StreamsOk(c: Config, out: Reader, err: Reader, channel: seq<string>, received: seq<string>) {
    && ReaderOk(c.stdout, out) && ReaderOk(c.stderr, err)
    && |channel| <= OUT_CHANNEL_BUFFER_SIZE
    && Interleaving(ToSendAll(c.stdout[..SentCount(c.stdout, out)]),
                    ToSendAll(c.stderr[..SentCount(c.stderr, err)]),
                    received + channel)
  }

  ghost predicate StreamsAt(c: Config, s: State) {
    StreamsOk(c, s.outReader, s.errReader, s.channel, s.received)
  }

  /** Notices of one target in the monitor channel. */
  function Count(monitor: seq<Notice>, t: WaitTarget): nat {
    if monitor == [] then 0
    else (if monitor[0].id == t then 1 else 0) + Count(monitor[1..], t)
  }

  /** One target's notice: not sent, or once in the channel, or retired. */
  predicate NoticeOk(count: nat, waited: bool, joiner: Joiner, joining: bool) {
    && count == (if waited && (joiner == Ending || joiner == JoinerEnded) then 1 else 0)
    && (!waited ==> joiner == JoinerEnded || (joiner == Ending && joining))
  }

  predicate TargetOk(c: Config, s: State, t: WaitTarget) {
    NoticeOk(Count(s.monitor, t), t in s.waiters, s.JoinerOf(t), s.head == Joining(NoticeOf(c, t)))
  }

  predicate Genuine(c: Config, monitor: seq<Notice>) {
    forall i :: 0 <= i < |monitor| ==> monitor[i] == NoticeOf(c, monitor[i].id)
  }

  ghost predicate NoticesOk(c: Config, s: State) {
    Genuine(c, s.monitor) && TargetOk(c, s, Stdout) && TargetOk(c, s, Stderr) && TargetOk(c, s, Child)
  }

  /** A joiner past its wait has seen its reader end. */
  predicate JoinersOk(s: State) {
    && (s.outJoiner != Waiting ==> s.outReader.pc == ReaderEnded)
    && (s.errJoiner != Waiting ==> s.errReader.pc == ReaderEnded)
  }

  ghost predicate HeadOk(c: Config, s: State) {
    && (s.head == Receiving ==> s.waiters != {})
    && (s.head.Joining? ==> s.head.notice == NoticeOf(c, s.head.notice.id) && s.head.notice.id !in s.waiters)
    && (s.head == HeadEnded ==> s.waiters == {})
    && s.returnStatus
       == if Child in s.waiters || s.head == Joining(NoticeOf(c, Child)) then None else Some(c.exit)
  }

  ghost predicate ConsumerOk(c: Config, s: State) {
    && (!c.drains ==> s.received == [] && s.consumer != Draining)
    && (c.drains && s.consumer != Draining ==> s.channel == [] && s.ReadersEnded())
    && (s.consumer.Returned? ==> s.consumer.result == c.exit && s.head == HeadEnded)
  }

  ghost predicate Inv(c: Config, s: State) {
    && StreamsAt(c, s) && JoinersOk(s) && NoticesOk(c, s) && HeadOk(c, s) && ConsumerOk(c, s)
  }

  lemma InitInv(c: Config)
    ensures Inv(c, Init(c))
  {
    assert c.stdout[..0] == [] && c.stderr[..0] == [];
  }

  lemma ToSendAppend(lines: seq<Line>, n: nat)
    requires n < |lines|
    ensures ToSendAll(lines[..n + 1]) == ToSendAll(lines[..n]) + [ToSend(lines[n])]
  {
  }

  lemma SendKeepsStreamsOk(c: Config, s: State, t: Stream)
    requires StreamsAt(c, s) && Enabled(s, Send(t))
    ensures StreamsAt(c, Apply(c, s, Send(t)))
  {
    var s', line := Apply(c, s, Send(t)), s.ReaderOf(t).pc.line;
    var i, j := SentCount(c.stdout, s.outReader), SentCount(c.stderr, s.errReader);
    var out, err := ToSendAll(c.stdout[..i]), ToSendAll(c.stderr[..j]);
    assert s'.received + s'.channel == s.received + s.channel + [line];
    if t == Stdout {
      ToSendAppend(c.stdout, i);
      AddLeft(out, err, s.received + s.channel, line);
    } else {
      ToSendAppend(c.stderr, j);
      AddRight(out, err, s.received + s.channel, line);
    }
  }

  lemma ReadKeepsReaderOk(lines: seq<Line>, r: Reader)
    requires ReaderOk(lines, r) && r.pc == Reading && r.unread != []
    ensures var r' := Reader(r.unread[1..], Sending(ToSend(r.unread[0])));
            ReaderOk(lines, r') && SentCount(lines, r') == SentCount(lines, r)
  {
  }

  lemma ReadKeepsStreamsOk(c: Config, s: State, t: Stream)
    requires StreamsAt(c, s) && Enabled(s, Read(t))
    ensures StreamsAt(c, Apply(c, s, Read(t)))
  {
    ReadKeepsReaderOk(Lines(c, t), s.ReaderOf(t));
  }

  lemma ReceiveKeepsStreamsOk(c: Config, s: State)
    requires StreamsAt(c, s) && Enabled(s, ConsumerReceive)
    ensures StreamsAt(c, Apply(c, s, ConsumerReceive))
  {
    assert s.received + [s.channel[0]] + s.channel[1..] == s.received + s.channel;
  }

  lemma EndKeepsStreamsOk(c: Config, s: State, t: Stream)
    requires StreamsAt(c, s) && Enabled(s, EndReader(t))
    ensures StreamsAt(c, Apply(c, s, EndReader(t)))
  {
    var s', r := Apply(c, s, EndReader(t)), Reader([], ReaderEnded);
    assert ReaderOk(Lines(c, t), r) && SentCount(Lines(c, t), r) == SentCount(Lines(c, t), s.ReaderOf(t));
    assert s'.channel == s.channel && s'.received == s.received;
  }

  predicate TouchesStreams(step: Step) {
    step.Read? || step.Send? || step.EndReader? || step.ConsumerReceive?
  }

  lemma OtherStepKeepsStreams(c: Config, s: State, step: Step)
    requires Enabled(s, step) && !TouchesStreams(step)
    ensures var s' := Apply(c, s, step);
            s'.outReader == s.outReader && s'.errReader == s.errReader
            && s'.channel == s.channel && s'.received == s.received
  {
  }

  lemma StepKeepsStreamsOk(c: Config, s: State, step: Step)
    requires StreamsAt(c, s) && Enabled(s, step)
    ensures StreamsAt(c, Apply(c, s, step))
  {
    if !TouchesStreams(step) {
      OtherStepKeepsStreams(c, s, step);
    } else {
      match step
      case Send(t) => SendKeepsStreamsOk(c, s, t);
      case Read(t) => ReadKeepsStreamsOk(c, s, t);
      case ConsumerReceive => ReceiveKeepsStreamsOk(c, s);
      case EndReader(t) => EndKeepsStreamsOk(c, s, t);
    }
  }

  lemma {:induction false} CountAppend(monitor: seq<Notice>, notice: Notice, t: WaitTarget)
    ensures Count(monitor + [notice], t) == Count(monitor, t) + if notice.id == t then 1 else 0
  {
    if monitor != [] {
      CountAppend(monitor[1..], notice, t);
      assert (monitor + [notice])[1..] == monitor[1..] + [notice];
    }
  }

  /** At most one notice a target, so at most three. */
  lemma {:induction false} CountTotal(monitor: seq<Notice>)
    ensures |monitor| == Count(monitor, Stdout) + Count(monitor, Stderr) + Count(monitor, Child)
  {
    if monitor != [] {
      CountTotal(monitor[1..]);
    }
  }

  lemma NotifyKeepsNoticesOk(c: Config, s: State, t: WaitTarget)
    requires NoticesOk(c, s) && Enabled(s, Notify(t))
    ensures NoticesOk(c, Apply(c, s, Notify(t)))
  {
    CountAppend(s.monitor, NoticeOf(c, t), Stdout);
    CountAppend(s.monitor, NoticeOf(c, t), Stderr);
    CountAppend(s.monitor, NoticeOf(c, t), Child);
  }

  lemma HeadReceiveKeepsNoticesOk(c: Config, s: State)
    requires NoticesOk(c, s) && HeadOk(c, s) && Enabled(s, HeadReceive)
    ensures NoticesOk(c, Apply(c, s, HeadReceive))
  {
    HeadNeverDisconnects(c, s);
  }

  lemma HeadJoinKeepsNoticesOk(c: Config, s: State)
    requires NoticesOk(c, s) && HeadOk(c, s) && Enabled(s, HeadJoin)
    ensures NoticesOk(c, Apply(c, s, HeadJoin))
  {
  }

  lemma JoinerStepKeepsNoticesOk(c: Config, s: State, step: Step)
    requires NoticesOk(c, s) && Enabled(s, step) && (step.Join? || step.EndJoiner?)
    ensures NoticesOk(c, Apply(c, s, step))
  {
    JoinerStepKeepsMonitor(c, s, step);
  }

  lemma JoinerStepKeepsMonitor(c: Config, s: State, step: Step)
    requires Enabled(s, step) && (step.Join? || step.EndJoiner?)
    ensures var s' := Apply(c, s, step);
            s'.monitor == s.monitor && s'.waiters == s.waiters && s'.head == s.head
            && forall t :: s'.JoinerOf(t)
                        == if t != step.t then s.JoinerOf(t) else if step.Join? then Notifying else JoinerEnded
  {
  }

  /** Readers and the consumer do not touch the notices. */
  predicate MovesLines(step: Step) {
    || step.Read? || step.Send? || step.EndReader?
    || step.ConsumerReceive? || step.ConsumerDisconnect? || step.ConsumerWait?
  }

  lemma MovingLinesKeepsNotices(c: Config, s: State, step: Step)
    requires Enabled(s, step) && MovesLines(step)
    ensures var s' := Apply(c, s, step);
            && s'.monitor == s.monitor && s'.waiters == s.waiters && s'.head == s.head
            && s'.outJoiner == s.outJoiner && s'.errJoiner == s.errJoiner && s'.childJoiner == s.childJoiner
            && s'.returnStatus == s.returnStatus
  {
  }

  lemma MovingLinesKeepsNoticesOk(c: Config, s: State, step: Step)
    requires NoticesOk(c, s) && Enabled(s, step) && MovesLines(step)
    ensures NoticesOk(c, Apply(c, s, step))
  {
    MovingLinesKeepsNotices(c, s, step);
  }

  lemma StepKeepsNoticesOk(c: Config, s: State, step: Step)
    requires NoticesOk(c, s) && HeadOk(c, s) && Enabled(s, step)
    ensures NoticesOk(c, Apply(c, s, step))
  {
    if MovesLines(step) {
      MovingLinesKeepsNoticesOk(c, s, step);
    } else if step.Join? || step.EndJoiner? {
      JoinerStepKeepsNoticesOk(c, s, step);
    } else if step.Notify? {
      NotifyKeepsNoticesOk(c, s, step.t);
    } else if step.HeadReceive? {
      HeadReceiveKeepsNoticesOk(c, s);
    } else if step.HeadJoin? {
      HeadJoinKeepsNoticesOk(c, s);
    } else {
      HeadNeverDisconnects(c, s);
    }
  }

  /** The head waiter never finds its channel closed, nor a notice it is not waiting for. */
  lemma HeadNeverDisconnects(c: Config, s: State)
    requires NoticesOk(c, s) && HeadOk(c, s)
    ensures !Enabled(s, HeadDisconnect)
    ensures Enabled(s, HeadReceive) ==> s.monitor[0].id in s.waiters
  {
    if s.monitor == [] && s.head == Receiving {
      var t :| t in s.waiters;
      assert TargetOk(c, s, t);
    } else if s.monitor != [] {
      assert TargetOk(c, s, s.monitor[0].id);
    }
  }

  lemma HeadStepKeepsHeadOk(c: Config, s: State, step: Step)
    requires NoticesOk(c, s) && HeadOk(c, s) && Enabled(s, step) && (step.HeadReceive? || step.HeadJoin?)
    ensures HeadOk(c, Apply(c, s, step))
  {
    HeadNeverDisconnects(c, s);
  }

  lemma StepKeepsHeadOk(c: Config, s: State, step: Step)
    requires NoticesOk(c, s) && HeadOk(c, s) && Enabled(s, step)
    ensures HeadOk(c, Apply(c, s, step))
  {
    if step.HeadReceive? || step.HeadJoin? {
      HeadStepKeepsHeadOk(c, s, step);
    } else if MovesLines(step) {
      MovingLinesKeepsNotices(c, s, step);
    } else if step.HeadDisconnect? {
      HeadNeverDisconnects(c, s);
    } else {
      assert Apply(c, s, step).waiters == s.waiters && Apply(c, s, step).head == s.head;
    }
  }

  lemma StepKeepsJoinersOk(c: Config, s: State, step: Step)
    requires JoinersOk(s) && Enabled(s, step)
    ensures JoinersOk(Apply(c, s, step))
  {
  }

  lemma StepKeepsConsumerOk(c: Config, s: State, step: Step)
    requires HeadOk(c, s) && ConsumerOk(c, s) && Enabled(s, step)
    ensures ConsumerOk(c, Apply(c, s, step))
  {
    var s' := Apply(c, s, step);
    match step
    case Read(_) =>
    case Send(_) =>
    case EndReader(_) =>
    case ConsumerReceive =>
    case ConsumerDisconnect =>
    case ConsumerWait =>
    case _ =>
      assert s'.channel == s.channel && s'.received == s.received && s'.consumer == s.consumer;
      assert s'.outReader == s.outReader && s'.errReader == s.errReader;
  }

  lemma StepKeepsInv(c: Config, s: State, step: Step)
    requires Inv(c, s) && Enabled(s, step)
    ensures Inv(c, Apply(c, s, step))
  {
    StepKeepsStreamsOk(c, s, step);
    StepKeepsNoticesOk(c, s, step);
    StepKeepsHeadOk(c, s, step);
    StepKeepsJoinersOk(c, s, step);
    StepKeepsConsumerOk(c, s, step);
  }

  // Runs.

  ghost predicate Run(c: Config, s: State, steps: seq<Step>, s': State)
    decreases |steps|
  {
    if steps == [] then s' == s
    else Enabled(s, steps[0]) && Run(c, Apply(c, s, steps[0]), steps[1..], s')
  }

  ghost predicate Reachable(c: Config, s: State) {
    exists steps :: Run(c, Init(c), steps, s)
  }

  lemma {:induction false} RunKeepsInv(c: Config, s: State, steps: seq<Step>, s': State)
    requires Inv(c, s) && Run(c, s, steps, s')
    ensures Inv(c, s')
    decreases |steps|
  {
    if steps != [] {
      StepKeepsInv(c, s, steps[0]);
      RunKeepsInv(c, Apply(c, s, steps[0]), steps[1..], s');
    }
  }

  lemma ReachableInv(c: Config, s: State)
    requires Reachable(c, s)
    ensures Inv(c, s)
  {
    var steps :| Run(c, Init(c), steps, s);
    InitInv(c);
    RunKeepsInv(c, Init(c), steps, s);
  }

  /** Prefixes of the two streams, with the placeholder for what does not decode, merge into `lines`. */
  ghost predicate MergesPrefixes(c: Config, lines: seq<string>) {
    exists i, j :: 0 <= i <= |c.stdout| && 0 <= j <= |c.stderr|
                   && Interleaving(ToSendAll(c.stdout[..i]), ToSendAll(c.stderr[..j]), lines)
  }

  /** In every reachable state nothing is lost, duplicated or reordered, and both channels are in bounds. */
  lemma EveryStateMergesPrefixes(c: Config, s: State)
    requires Reachable(c, s)
    ensures MergesPrefixes(c, s.received + s.channel)
    ensures |s.channel| <= OUT_CHANNEL_BUFFER_SIZE
    ensures |s.monitor| <= 3
  {
    ReachableInv(c, s);
    CountTotal(s.monitor);
    assert 0 <= SentCount(c.stdout, s.outReader) <= |c.stdout|;
    assert 0 <= SentCount(c.stderr, s.errReader) <= |c.stderr|;
  }

  /** No notice blocks, none is unexpected, and the head waiter never runs out of senders. */
  lemma NoticesNeverBlockOrStray(c: Config, s: State, t: WaitTarget)
    requires Reachable(c, s)
    ensures s.JoinerOf(t) == Notifying ==> Enabled(s, Notify(t))
    ensures !Enabled(s, HeadDisconnect)
    ensures Enabled(s, HeadReceive) ==>
              s.monitor[0].id in s.waiters
              && Apply(c, s, HeadReceive).waiters == s.waiters - {s.monitor[0].id}
  {
    EveryStateMergesPrefixes(c, s);
    ReachableInv(c, s);
    HeadNeverDisconnects(c, s);
  }

  // Progress.

  predicate Final(s: State) {
    s.ReadersEnded() && s.JoinersEnded() && s.head == HeadEnded && s.consumer.Returned?
  }

  function ReaderWork(r: Reader): nat {
    if r.pc == ReaderEnded then 0 else 3 * |r.unread| + 1 + if r.pc.Sending? then 2 else 0
  }

  function JoinerWork(j: Joiner): nat {
    match j case Waiting => 5 case Notifying => 4 case Ending => 1 case JoinerEnded => 0
  }

  /** An upper bound on the steps still to come. */
  function Work(s: State): nat {
    ReaderWork(s.outReader) + ReaderWork(s.errReader) + |s.channel|
    + JoinerWork(s.outJoiner) + JoinerWork(s.errJoiner) + JoinerWork(s.childJoiner)
    + 2 * |s.monitor|
    + (match s.head case Receiving => 1 case Joining(_) => 2 case HeadEnded => 0)
    + (match s.consumer case Draining => 2 case Awaiting => 1 case Returned(_) => 0)
  }

  lemma EveryStepLowersWork(c: Config, s: State, step: Step)
    requires Enabled(s, step)
    ensures Work(Apply(c, s, step)) < Work(s)
  {
    if step.Read? || step.Send? || step.EndReader? {
      ReaderStepLowersWork(c, s, step);
    } else if step.Join? || step.Notify? || step.EndJoiner? {
      JoinerStepLowersWork(c, s, step);
    }
  }

  lemma ReaderStepLowersWork(c: Config, s: State, step: Step)
    requires Enabled(s, step) && (step.Read? || step.Send? || step.EndReader?)
    ensures Work(Apply(c, s, step)) < Work(s)
  {
  }

  lemma JoinerStepLowersWork(c: Config, s: State, step: Step)
    requires Enabled(s, step) && (step.Join? || step.Notify? || step.EndJoiner?)
    ensures Work(Apply(c, s, step)) < Work(s)
  {
    match step
    case Join(t) => WorkOfJoiner(s, t, Notifying);
    case EndJoiner(t) => WorkOfJoiner(s, t, JoinerEnded);
    case Notify(t) => WorkOfJoiner(s, t, Ending);
  }

  lemma WorkOfJoiner(s: State, t: WaitTarget, j: Joiner)
    ensures Work(s.WithJoiner(t, j)) == Work(s) - JoinerWork(s.JoinerOf(t)) + JoinerWork(j)
  {
  }

  lemma {:induction false} RunIsBounded(c: Config, s: State, steps: seq<Step>, s': State)
    requires Run(c, s, steps, s')
    ensures |steps| + Work(s') <= Work(s)
    decreases |steps|
  {
    if steps != [] {
      EveryStepLowersWork(c, s, steps[0]);
      RunIsBounded(c, Apply(c, s, steps[0]), steps[1..], s');
    }
  }

  /** `wait` is safe before `lines` only if the channel can hold everything. */
  predicate CanFinish(c: Config) {
    c.drains || |c.stdout| + |c.stderr| <= OUT_CHANNEL_BUFFER_SIZE
  }

  lemma SentIsQueuedOrReceived(c: Config, s: State)
    requires Inv(c, s)
    ensures |s.received| + |s.channel|
         == SentCount(c.stdout, s.outReader) + SentCount(c.stderr, s.errReader)
  {
    InterleavingIsPermutation(ToSendAll(c.stdout[..SentCount(c.stdout, s.outReader)]),
                              ToSendAll(c.stderr[..SentCount(c.stderr, s.errReader)]),
                              s.received + s.channel);
  }

  /** A reader that has not ended can move, or the consumer can make room for it. */
  lemma ReaderProgress(c: Config, s: State, t: Stream) returns (step: Step)
    requires Inv(c, s) && CanFinish(c) && s.ReaderOf(t).pc != ReaderEnded
    ensures Enabled(s, step)
  {
    if s.ReaderOf(t).pc == Reading {
      step := if s.ReaderOf(t).unread == [] then EndReader(t) else Read(t);
    } else if |s.channel| < OUT_CHANNEL_BUFFER_SIZE {
      step := Send(t);
    } else {
      SentIsQueuedOrReceived(c, s);
      step := ConsumerReceive;
    }
  }

  lemma AtMostThreeNotices(c: Config, s: State)
    requires NoticesOk(c, s)
    ensures |s.monitor| <= 3
  {
    CountTotal(s.monitor);
  }

  /** Once the readers have ended, the notices travel until the head waiter ends. */
  lemma JoinerProgress(c: Config, s: State, t: WaitTarget) returns (step: Step)
    requires Inv(c, s) && s.ReadersEnded() && s.JoinerOf(t) != JoinerEnded
    ensures Enabled(s, step)
  {
    AtMostThreeNotices(c, s);
    step := match s.JoinerOf(t) case Waiting => Join(t) case Notifying => Notify(t) case _ => EndJoiner(t);
  }

  lemma Progress(c: Config, s: State) returns (step: Step)
    requires Inv(c, s) && CanFinish(c) && !Final(s)
    ensures Enabled(s, step)
  {
    if !s.ReadersEnded() {
      step := ReaderProgress(c, s, if s.outReader.pc != ReaderEnded then Stdout else Stderr);
    } else if !s.JoinersEnded() {
      step := JoinerProgress(c, s, if s.outJoiner != JoinerEnded then Stdout
                                   else if s.errJoiner != JoinerEnded then Stderr else Child);
    } else if s.head != HeadEnded {
      HeadNeverDisconnects(c, s);
      step := if s.head.Joining? then HeadJoin else HeadReceive;
    } else {
      step := match s.consumer
              case Draining => if s.channel == [] then ConsumerDisconnect else ConsumerReceive
              case _ => ConsumerWait;
    }
  }

  ghost predicate Stuck(s: State) {
    forall step :: !Enabled(s, step)
  }

  /** Everything the child wrote, merged, and the child's own status. */
  ghost predicate Delivered(c: Config, s: State) {
    && s.consumer == Returned(c.exit)
    && Interleaving(ToSendAll(c.stdout), ToSendAll(c.stderr), s.received + s.channel)
    && (c.drains ==> s.channel == [])
  }

  lemma FinalDelivers(c: Config, s: State)
    requires Inv(c, s) && Final(s)
    ensures Delivered(c, s)
  {
    assert c.stdout[..|c.stdout|] == c.stdout && c.stderr[..|c.stderr|] == c.stderr;
  }

  /**
   * A consumer that drains first: every run stops, after a number of steps
   * linear in the output, and only with everything delivered.
   */
  lemma DrainingRunsDeliver(c: Config, steps: seq<Step>, s: State)
    requires c.drains && Run(c, Init(c), steps, s)
    ensures |steps| <= 3 * (|c.stdout| + |c.stderr|) + 20
    ensures Stuck(s) ==> Final(s) && Delivered(c, s)
  {
    RunIsBounded(c, Init(c), steps, s);
    assert Reachable(c, s);
    ReachableInv(c, s);
    if Stuck(s) {
      if !Final(s) {
        var step := Progress(c, s);
      }
      FinalDelivers(c, s);
    }
  }

  /** When `lines` ends, it has yielded both complete streams. */
  lemma LinesEndsComplete(c: Config, s: State)
    requires Reachable(c, s) && c.drains && s.consumer != Draining
    ensures Interleaving(ToSendAll(c.stdout), ToSendAll(c.stderr), s.received)
  {
    ReachableInv(c, s);
    assert s.received + s.channel == s.received;
    assert c.stdout[..|c.stdout|] == c.stdout && c.stderr[..|c.stderr|] == c.stderr;
  }

  /** A consumer that waits without draining finishes exactly when the output fits the channel. */
  lemma WaitingFirstFinishesIff(c: Config, s: State)
    requires !c.drains && Reachable(c, s) && Stuck(s)
    ensures Final(s) <==> |c.stdout| + |c.stderr| <= OUT_CHANNEL_BUFFER_SIZE
  {
    ReachableInv(c, s);
    if Final(s) {
      SentIsQueuedOrReceived(c, s);
    } else if |c.stdout| + |c.stderr| <= OUT_CHANNEL_BUFFER_SIZE {
      var step := Progress(c, s);
    }
  }

  // The head waiter's loop.

  datatype HeadMemory = HeadMemory(waiters: set<WaitTarget>, returnStatus: Option<ExitResult>)

  function Retire(m: HeadMemory, notice: Notice): HeadMemory {
    if notice.id in m.waiters then
      HeadMemory(m.waiters - {notice.id},
                 if notice.result.Process? then Some(notice.result.result) else m.returnStatus)
    else m
  }

  /** The notices taken in turn until no waiter is left. */
  function RetireAll(m: HeadMemory, notices: seq<Notice>): HeadMemory
    decreases |notices|
  {
    if notices == [] then m
    else
      var m' := Retire(m, notices[0]);
      if m'.waiters == {} then m' else RetireAll(m', notices[1..])
  }

  method HeadWaiter(notices: seq<Notice>) returns (returnStatus: Option<ExitResult>, remaining: set<WaitTarget>)
    ensures HeadMemory(remaining, returnStatus)
         == RetireAll(HeadMemory({Stderr, Stdout, Child}, None), notices)
  {
    var waiters: set<WaitTarget> := {Stderr, Stdout, Child};
    returnStatus := None;
    var i := 0;
    while i < |notices|
      invariant 0 <= i <= |notices|
      invariant RetireAll(HeadMemory({Stderr, Stdout, Child}, None), notices)
             == RetireAll(HeadMemory(waiters, returnStatus), notices[i..])
    {
      var notice := notices[i];
      assert notices[i..][1..] == notices[i + 1..];
      if notice.id in waiters {
        waiters := waiters - {notice.id};
        if notice.result.Process? {
          returnStatus := Some(notice.result.result);
        }
      }
      if waiters == {} {
        return returnStatus, waiters;
      }
      i := i + 1;
    }
    remaining := waiters;
  }

  /** Whatever order the notices come in, one a waiter, the loop ends with no waiter and the child's status. */
  lemma {:induction false} AnyNoticeOrderKeepsStatus(c: Config, m: HeadMemory, notices: seq<Notice>)
    requires m.waiters != {} && Genuine(c, notices)
    requires forall t :: Count(notices, t) == if t in m.waiters then 1 else 0
    ensures RetireAll(m, notices)
         == HeadMemory({}, if Child in m.waiters then Some(c.exit) else m.returnStatus)
    decreases |notices|
  {
    var t :| t in m.waiters;
    assert Count(notices, t) == 1;
    assert Count(notices, notices[0].id) > 0;
    var m' := Retire(m, notices[0]);
    if m'.waiters == {} {
      assert m.waiters == {notices[0].id};
    } else {
      forall t
        ensures Count(notices[1..], t) == if t in m'.waiters then 1 else 0
      {
        assert Count(notices, t) == if t in m.waiters then 1 else 0;
      }
      AnyNoticeOrderKeepsStatus(c, m', notices[1..]);
    }
  }

  /** The head waiter's memory in a state; a notice whose waiter is being joined already counts. */
  function MemoryOf(s: State): HeadMemory {
    HeadMemory(s.waiters,
               if s.head.Joining? && s.head.notice.result.Process? then Some(s.head.notice.result.result)
               else s.returnStatus)
  }

  /** The notices the head waiter takes in a run. */
  ghost function Taken(c: Config, s: State, steps: seq<Step>, s': State): seq<Notice>
    requires Run(c, s, steps, s')
    decreases |steps|
  {
    if steps == [] then []
    else
      (if steps[0] == HeadReceive then [s.monitor[0]] else []) + Taken(c, Apply(c, s, steps[0]), steps[1..], s')
  }

  lemma StepRetires(c: Config, s: State, step: Step)
    requires Inv(c, s) && Enabled(s, step)
    ensures MemoryOf(Apply(c, s, step))
         == if step == HeadReceive then Retire(MemoryOf(s), s.monitor[0]) else MemoryOf(s)
  {
    if step.Read? || step.Send? || step.EndReader? || step.Join? || step.Notify? || step.EndJoiner? {
      OtherStepKeepsHead(c, s, step);
    }
  }

  lemma OtherStepKeepsHead(c: Config, s: State, step: Step)
    requires Enabled(s, step)
    requires step.Read? || step.Send? || step.EndReader? || step.Join? || step.Notify? || step.EndJoiner?
    ensures var s' := Apply(c, s, step);
            s'.head == s.head && s'.waiters == s.waiters && s'.returnStatus == s.returnStatus
  {
  }

  lemma {:induction false} NothingMoreIsTaken(c: Config, s: State, steps: seq<Step>, s': State)
    requires Inv(c, s) && s.waiters == {} && Run(c, s, steps, s')
    ensures Taken(c, s, steps, s') == [] && MemoryOf(s') == MemoryOf(s)
    decreases |steps|
  {
    if steps != [] {
      StepKeepsInv(c, s, steps[0]);
      StepRetires(c, s, steps[0]);
      NothingMoreIsTaken(c, Apply(c, s, steps[0]), steps[1..], s');
    }
  }

  lemma {:induction false} MemoryFollowsLoop(c: Config, s: State, steps: seq<Step>, s': State)
    requires Inv(c, s) && s.waiters != {} && Run(c, s, steps, s')
    ensures MemoryOf(s') == RetireAll(MemoryOf(s), Taken(c, s, steps, s'))
    decreases |steps|
  {
    if steps != [] {
      var next := Apply(c, s, steps[0]);
      StepKeepsInv(c, s, steps[0]);
      StepRetires(c, s, steps[0]);
      if next.waiters == {} {
        NothingMoreIsTaken(c, next, steps[1..], s');
      } else {
        MemoryFollowsLoop(c, next, steps[1..], s');
      }
      var taken, later := Taken(c, s, steps, s'), Taken(c, next, steps[1..], s');
      if steps[0] == HeadReceive {
        assert taken[0] == s.monitor[0] && taken[1..] == later;
      } else {
        assert taken == later;
      }
    }
  }

  /** In every run the head waiter's waiters and status are what its loop makes of the notices taken. */
  lemma HeadRunsTheLoop(c: Config, steps: seq<Step>, s: State)
    requires Run(c, Init(c), steps, s)
    ensures MemoryOf(s) == RetireAll(HeadMemory({Stderr, Stdout, Child}, None), Taken(c, Init(c), steps, s))
  {
    InitInv(c);
    assert Init(c).waiters == {Stderr, Stdout, Child};
    MemoryFollowsLoop(c, Init(c), steps, s);
  }
}
