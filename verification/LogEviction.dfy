/** Which runs a cache of open writers can be told from: one size against another. */
module LogEviction {
  import opened Wrappers
  import opened TextLines
  import opened LineWriting
  import opened LogPaths
  import opened LogCollecting

  function WriteOf(from: LogFrom, op: Op): LogMessage {
    LogMessage(from, Msg(op.line + 1, op.data))
  }

  function Writes(from: LogFrom, ops: seq<Op>): (messages: seq<LogMessage>)
    ensures |messages| == |ops|
  {
    if ops == [] then [] else [WriteOf(from, ops[0])] + Writes(from, ops[1..])
  }

  /** A key's writes, then one of another key, then one more of the first. */
  function Interrupted(k: LogFrom, x: LogFrom, ops: seq<Op>, op: Op): seq<LogMessage> {
    Writes(k, ops) + [WriteOf(x, Op(0, "")), WriteOf(k, op)]
  }

  function FromEmpty(root: Path, maxOpen: nat, messages: seq<LogMessage>): Delivery {
    DeliverAll(Collector(root, maxOpen, [], map[]), messages)
  }

  /** One open writer and two open writers come to the same file. */
  ghost predicate SizesAgree(root: Path, k: LogFrom, x: LogFrom, ops: seq<Op>, op: Op) {
    var one, two := FromEmpty(root, 1, Interrupted(k, x, ops, op)), FromEmpty(root, 2, Interrupted(k, x, ops, op));
    && one.Acked? && two.Acked?
    && FileAt(one.state.files, LogPath(root, k)) == FileAt(two.state.files, LogPath(root, k))
  }

  /** Two valid keys whose logs can lie beside each other. */
  ghost predicate Beside(root: Path, k: LogFrom, x: LogFrom) {
    && ValidKey(k) && ValidKey(x) && k != x
    && !(LogPath(root, k) < LogPath(root, x)) && !(LogPath(root, x) < LogPath(root, k))
  }

  lemma DeliverAllAppend(c: Collector, a: seq<LogMessage>, b: seq<LogMessage>)
    ensures DeliverAll(c, a + b)
         == if DeliverAll(c, a).Panicked? then Panicked else DeliverAll(DeliverAll(c, a).state, b)
    decreases |a|
  {
    if a == [] {
      assert a + b == b;
    } else {
      assert (a + b)[1..] == a[1..] + b;
      if Deliver(c, a[0]).Acked? {
        DeliverAllAppend(Deliver(c, a[0]).state, a[1..], b);
      }
    }
  }

  /** A collector with one open writer. */
  function Holding(root: Path, maxOpen: nat, k: LogFrom, w: Writer): Collector {
    Collector(root, maxOpen, [Handle(k, LogPath(root, k), CachedPart(w))], map[LogPath(root, k) := w.file.content])
  }

  /** A write whose handle is the last one. */
  lemma LastHandleWrites(c: Collector, k: LogFrom, w: Writer, op: Op, c': Collector)
    requires HandleFor(c, k) == Success(c') && c'.handles != [] && w.file.append
    requires var h := c'.handles[|c'.handles| - 1];
             h.writer == CachedPart(w) && FileAt(c'.files, h.path) == w.file.content
    ensures var n, r := |c'.handles| - 1, Write(w, op.line, op.data);
            Deliver(c, WriteOf(k, op))
            == if r.SlicePanic? then Panicked
               else Acked(c'.(handles := c'.handles[n := c'.handles[n].(writer := CachedPart(r.writer))],
                              files := c'.files[c'.handles[n].path := r.writer.file.content]))
  {
    LastWrites(c', w, op);
    DeliverWrites(c, WriteOf(k, op));
  }

  lemma LastWrites(c: Collector, w: Writer, op: Op)
    requires c.handles != [] && w.file.append
    requires var h := c.handles[|c.handles| - 1]; h.writer == CachedPart(w) && FileAt(c.files, h.path) == w.file.content
    ensures var n, r := |c.handles| - 1, Write(w, op.line, op.data);
            WriteLast(c, op.line, op.data)
            == if r.SlicePanic? then Panicked
               else Acked(c.(handles := c.handles[n := c.handles[n].(writer := CachedPart(r.writer))],
                             files := c.files[c.handles[n].path := r.writer.file.content]))
  {
    assert WriterOf(w.file.content, CachedPart(w)) == w;
  }

  lemma HoldingHandles(root: Path, maxOpen: nat, k: LogFrom, w: Writer)
    ensures HandleFor(Holding(root, maxOpen, k, w), k) == Success(Holding(root, maxOpen, k, w))
  {
    var c := Holding(root, maxOpen, k, w);
    assert Find(c.handles, k) == 0 && Refresh(c.handles, 0) == c.handles;
  }

  /** Writing through the one open writer is writing through it. */
  lemma HoldingWrites(root: Path, maxOpen: nat, k: LogFrom, w: Writer, op: Op)
    requires w.file.append
    ensures var r := Write(w, op.line, op.data);
            Deliver(Holding(root, maxOpen, k, w), WriteOf(k, op))
            == if r.SlicePanic? then Panicked else Acked(Holding(root, maxOpen, k, r.writer))
  {
    var c, r := Holding(root, maxOpen, k, w), Write(w, op.line, op.data);
    HoldingHandles(root, maxOpen, k, w);
    LastHandleWrites(c, k, w, op, c);
    if r.Written? {
      HoldingIsReplaced(root, maxOpen, k, w, r.writer);
    }
  }

  lemma HoldingIsReplaced(root: Path, maxOpen: nat, k: LogFrom, w: Writer, v: Writer)
    ensures var c := Holding(root, maxOpen, k, w);
            c.(handles := c.handles[0 := c.handles[0].(writer := CachedPart(v))],
               files := c.files[LogPath(root, k) := v.file.content])
            == Holding(root, maxOpen, k, v)
  {
  }

  lemma {:induction false} HoldingExecutes(root: Path, maxOpen: nat, k: LogFrom, w: Writer, ops: seq<Op>)
    requires w.file.append && Execute(w, ops).Written?
    ensures DeliverAll(Holding(root, maxOpen, k, w), Writes(k, ops))
         == Acked(Holding(root, maxOpen, k, Execute(w, ops).writer))
    ensures Execute(w, ops).writer.file.append
    decreases |ops|
  {
    if ops != [] {
      HoldingWrites(root, maxOpen, k, w, ops[0]);
      WriteKeepsMode(w, ops[0]);
      HoldingExecutes(root, maxOpen, k, Write(w, ops[0].line, ops[0].data).writer, ops[1..]);
    }
  }

  lemma WriteKeepsMode(w: Writer, op: Op)
    ensures Write(w, op.line, op.data).Written? ==> Write(w, op.line, op.data).writer.file.append == w.file.append
  {
  }

  /** The first write of a key opens its file. */
  lemma FirstWriteOpens(root: Path, maxOpen: nat, k: LogFrom, op: Op)
    requires maxOpen >= 1 && ValidKey(k)
    ensures Deliver(Collector(root, maxOpen, [], map[]), WriteOf(k, op))
         == Deliver(Holding(root, maxOpen, k, Open("", true)), WriteOf(k, op))
  {
    FirstHandleOpens(root, maxOpen, k);
    HoldingHandles(root, maxOpen, k, Open("", true));
    SameHandlesSameDelivery(Collector(root, maxOpen, [], map[]), Holding(root, maxOpen, k, Open("", true)),
                            WriteOf(k, op));
  }

  lemma FirstHandleOpens(root: Path, maxOpen: nat, k: LogFrom)
    requires maxOpen >= 1 && ValidKey(k)
    ensures HandleFor(Collector(root, maxOpen, [], map[]), k) == Success(Holding(root, maxOpen, k, Open("", true)))
  {
    LogPathsAreDistinct(root, k, k, Log);
    FirstKeyOpens(Collector(root, maxOpen, [], map[]), k, LogPath(root, k));
  }

  lemma FirstKeyOpens(c: Collector, k: LogFrom, path: Path)
    requires c.maxOpen >= 1 && c.handles == [] && c.files == map[] && PathForLog(c.root, k) == Success(path)
    ensures HandleFor(c, k)
         == Success(c.(handles := [Handle(k, path, CachedPart(Open("", true)))], files := map[path := ""]))
  {
    InsertedFirst(Handle(k, path, CachedPart(Open("", true))), c.maxOpen);
    assert !Blocked(c.files, path) && c.files[path := ""] == map[path := ""];
  }

  lemma InsertedFirst(handle: Handle, maxOpen: nat)
    requires maxOpen >= 1
    ensures Insert([], maxOpen, handle) == [handle] && Find([handle], handle.from) == 0
    ensures Refresh([handle], 0) == [handle]
  {
    assert [] + [handle] == [handle];
  }

  lemma SameHandlesSameDelivery(a: Collector, b: Collector, m: LogMessage)
    requires m.message.Msg? && HandleFor(a, m.from) == HandleFor(b, m.from)
    ensures Deliver(a, m) == Deliver(b, m)
  {
  }

  // The interruption.

  function HandleOf(root: Path, k: LogFrom, w: Writer): Handle {
    Handle(k, LogPath(root, k), CachedPart(w))
  }

  function TwoFiles(root: Path, k: LogFrom, w: Writer, x: LogFrom, v: Writer): map<Path, string> {
    map[LogPath(root, k) := w.file.content, LogPath(root, x) := v.file.content]
  }

  /** With room for one, the other key's writer takes the place; with room for two, it comes after. */
  function Handles(root: Path, maxOpen: nat, k: LogFrom, w: Writer, x: LogFrom, v: Writer): seq<Handle> {
    if maxOpen == 1 then [HandleOf(root, x, v)] else [HandleOf(root, k, w), HandleOf(root, x, v)]
  }

  function Both(root: Path, maxOpen: nat, k: LogFrom, w: Writer, x: LogFrom, v: Writer): Collector {
    Collector(root, maxOpen, Handles(root, maxOpen, k, w, x, v), TwoFiles(root, k, w, x, v))
  }

  lemma LogsDiffer(root: Path, k: LogFrom, x: LogFrom)
    requires Beside(root, k, x)
    ensures PathForLog(root, k).Success? && PathForLog(root, x).Success? && LogPath(root, k) != LogPath(root, x)
  {
    LogPathsAreDistinct(root, k, x, Log);
    LogPathsAreDistinct(root, x, x, Log);
  }

  /** A second key, on a path nothing blocks, comes after the first or takes its place. */
  lemma SecondKeyOpens(c: Collector, x: LogFrom, path: Path)
    requires |c.handles| == 1 && c.handles[0].from != x && 1 <= c.maxOpen <= 2
    requires PathForLog(c.root, x) == Success(path) && !Blocked(c.files, path)
    ensures var content := FileAt(c.files, path);
            var handle := Handle(x, path, CachedPart(Open(content, true)));
            HandleFor(c, x) == Success(c.(handles := if c.maxOpen == 1 then [handle] else c.handles + [handle],
                                          files := c.files[path := content]))
  {
    var first, second := c.handles[0], Handle(x, path, CachedPart(Open(FileAt(c.files, path), true)));
    assert c.handles == [first];
    InsertedSecond(first, second, c.maxOpen);
  }

  lemma InsertedSecond(first: Handle, second: Handle, maxOpen: nat)
    requires 1 <= maxOpen <= 2 && first.from != second.from
    ensures var grown := if maxOpen == 1 then [second] else [first] + [second];
            && Insert([first], maxOpen, second) == grown && Find([first], second.from) == 1
            && Find(grown, second.from) == |grown| - 1 && Refresh(grown, |grown| - 1) == grown
  {
    assert [first] + [second] == [first, second] && [first, second][1..] == [second];
  }

  lemma NothingInTheWay(files: map<Path, string>, a: Path, b: Path)
    requires files.Keys <= {a, b} && !(a < b) && !(b < a)
    ensures !Blocked(files, a) && !Blocked(files, b)
  {
  }

  lemma OtherKeyOpens(root: Path, maxOpen: nat, k: LogFrom, w: Writer, x: LogFrom)
    requires Beside(root, k, x) && 1 <= maxOpen <= 2
    ensures HandleFor(Holding(root, maxOpen, k, w), x) == Success(Both(root, maxOpen, k, w, x, Open("", true)))
  {
    var c := Holding(root, maxOpen, k, w);
    LogsDiffer(root, k, x);
    NothingInTheWay(c.files, LogPath(root, k), LogPath(root, x));
    SecondKeyOpens(c, x, LogPath(root, x));
    HoldingOneMore(root, maxOpen, k, w, x, Open("", true));
  }

  lemma HoldingOneMore(root: Path, maxOpen: nat, k: LogFrom, w: Writer, x: LogFrom, v: Writer)
    ensures var c, handle := Holding(root, maxOpen, k, w), HandleOf(root, x, v);
            Both(root, maxOpen, k, w, x, v)
            == c.(handles := if maxOpen == 1 then [handle] else c.handles + [handle],
                  files := c.files[LogPath(root, x) := v.file.content])
  {
    var c := Holding(root, maxOpen, k, w);
    assert c.handles + [HandleOf(root, x, v)] == [HandleOf(root, k, w), HandleOf(root, x, v)];
    assert c.files[LogPath(root, x) := v.file.content] == TwoFiles(root, k, w, x, v);
  }

  lemma OtherKeyWrites(root: Path, maxOpen: nat, k: LogFrom, w: Writer, x: LogFrom) returns (v: Writer)
    requires Beside(root, k, x) && 1 <= maxOpen <= 2
    ensures Deliver(Holding(root, maxOpen, k, w), WriteOf(x, Op(0, ""))) == Acked(Both(root, maxOpen, k, w, x, v))
    ensures v == Write(Open("", true), 0, "").writer
  {
    var first := Open("", true);
    FirstLineIsWritten();
    v := Write(first, 0, "").writer;
    OtherKeyOpens(root, maxOpen, k, w, x);
    LogsDiffer(root, k, x);
    LastHandleWrites(Holding(root, maxOpen, k, w), x, first, Op(0, ""), Both(root, maxOpen, k, w, x, first));
    LastIsReplaced(root, maxOpen, k, w, x, first, v);
  }

  lemma FirstLineIsWritten()
    ensures Write(Open("", true), 0, "").Written?
  {
    assert ReadLines("") == [];
    AppendedText(Open("", true), 0, "");
  }

  lemma LastIsReplaced(root: Path, maxOpen: nat, k: LogFrom, w: Writer, x: LogFrom, u: Writer, v: Writer)
    requires LogPath(root, k) != LogPath(root, x) && 1 <= maxOpen <= 2
    ensures var c := Both(root, maxOpen, k, w, x, u); var n := |c.handles| - 1;
            && n >= 0 && c.handles[n].path == LogPath(root, x)
            && c.(handles := c.handles[n := c.handles[n].(writer := CachedPart(v))],
                  files := c.files[c.handles[n].path := v.file.content])
               == Both(root, maxOpen, k, w, x, v)
  {
    LastHandleIsReplaced(root, maxOpen, k, w, x, u, v);
    LastFileIsReplaced(root, k, w, x, u, v);
  }

  lemma LastHandleIsReplaced(root: Path, maxOpen: nat, k: LogFrom, w: Writer, x: LogFrom, u: Writer, v: Writer)
    requires 1 <= maxOpen <= 2
    ensures var handles := Handles(root, maxOpen, k, w, x, u); var n := |handles| - 1;
            && n >= 0 && handles[n] == HandleOf(root, x, u)
            && handles[n := handles[n].(writer := CachedPart(v))] == Handles(root, maxOpen, k, w, x, v)
  {
  }

  lemma LastFileIsReplaced(root: Path, k: LogFrom, w: Writer, x: LogFrom, u: Writer, v: Writer)
    requires LogPath(root, k) != LogPath(root, x)
    ensures TwoFiles(root, k, w, x, u)[LogPath(root, x) := v.file.content] == TwoFiles(root, k, w, x, v)
  {
  }

  /** With room for two the writer was kept, */
  lemma KeptWrites(root: Path, k: LogFrom, w: Writer, x: LogFrom, v: Writer, op: Op)
    requires Beside(root, k, x) && w.file.append
    ensures var r, d := Write(w, op.line, op.data), Deliver(Both(root, 2, k, w, x, v), WriteOf(k, op));
            if r.SlicePanic? then d.Panicked?
            else d.Acked? && FileAt(d.state.files, LogPath(root, k)) == r.writer.file.content
  {
    var c := Both(root, 2, k, w, x, v);
    LogsDiffer(root, k, x);
    assert Find(c.handles, k) == 0;
    assert Refresh(c.handles, 0) == [HandleOf(root, x, v), HandleOf(root, k, w)];
    LastHandleWrites(c, k, w, op, c.(handles := Refresh(c.handles, 0)));
  }

  /** with room for one it is opened again. */
  lemma ReopenedWrites(root: Path, k: LogFrom, w: Writer, x: LogFrom, v: Writer, op: Op)
    requires Beside(root, k, x) && w.file.append
    ensures var r, d := Write(Reopened(w), op.line, op.data), Deliver(Both(root, 1, k, w, x, v), WriteOf(k, op));
            if r.SlicePanic? then d.Panicked?
            else d.Acked? && FileAt(d.state.files, LogPath(root, k)) == r.writer.file.content
  {
    var c, path := Both(root, 1, k, w, x, v), LogPath(root, k);
    LogsDiffer(root, k, x);
    OpensAgain(root, k, w, x, v);
    var again := c.(handles := [HandleOf(root, k, Reopened(w))], files := c.files[path := w.file.content]);
    LastHandleWrites(c, k, Reopened(w), op, again);
  }

  lemma OpensAgain(root: Path, k: LogFrom, w: Writer, x: LogFrom, v: Writer)
    requires Beside(root, k, x) && w.file.append
    ensures var c := Both(root, 1, k, w, x, v);
            HandleFor(c, k) == Success(c.(handles := [HandleOf(root, k, Reopened(w))],
                                          files := c.files[LogPath(root, k) := w.file.content]))
  {
    var c := Both(root, 1, k, w, x, v);
    LogsDiffer(root, k, x);
    NothingInTheWay(c.files, LogPath(root, k), LogPath(root, x));
    SecondKeyOpens(c, k, LogPath(root, k));
  }

  /** When a kept writer carries out the run, its interrupted last write tells the sizes apart if reopening does. */
  lemma {:induction false} SizesAgreeIff(root: Path, k: LogFrom, x: LogFrom, ops: seq<Op>, op: Op)
    requires Beside(root, k, x) && ops != [] && Execute(Open("", true), ops).Written?
    ensures var w := Execute(Open("", true), ops).writer;
            Write(Reopened(w), op.line, op.data).Written? ==>
              (SizesAgree(root, k, x, ops, op) <==> SameReopened(w, op.line, op.data))
  {
    var w := Execute(Open("", true), ops).writer;
    InterruptedRun(root, 1, k, x, ops, op);
    InterruptedRun(root, 2, k, x, ops, op);
    var v := Write(Open("", true), 0, "").writer;
    HoldingExecutes(root, 1, k, Open("", true), ops);
    KeptWrites(root, k, w, x, v, op);
    ReopenedWrites(root, k, w, x, v, op);
  }

  lemma {:induction false} InterruptedRun(root: Path, maxOpen: nat, k: LogFrom, x: LogFrom, ops: seq<Op>, op: Op)
    requires Beside(root, k, x) && 1 <= maxOpen <= 2 && ops != [] && Execute(Open("", true), ops).Written?
    ensures var w, v := Execute(Open("", true), ops).writer, Write(Open("", true), 0, "").writer;
            FromEmpty(root, maxOpen, Interrupted(k, x, ops, op))
            == Deliver(Both(root, maxOpen, k, w, x, v), WriteOf(k, op))
  {
    var w, last := Execute(Open("", true), ops).writer, [WriteOf(x, Op(0, "")), WriteOf(k, op)];
    var c := Collector(root, maxOpen, [], map[]);
    WritesFromEmpty(root, maxOpen, k, ops);
    DeliverAllAppend(c, Writes(k, ops), last);
    var v := OtherKeyWrites(root, maxOpen, k, w, x);
    LastTwo(Holding(root, maxOpen, k, w), WriteOf(x, Op(0, "")), WriteOf(k, op));
  }

  lemma WritesFromEmpty(root: Path, maxOpen: nat, k: LogFrom, ops: seq<Op>)
    requires maxOpen >= 1 && ValidKey(k) && ops != [] && Execute(Open("", true), ops).Written?
    ensures DeliverAll(Collector(root, maxOpen, [], map[]), Writes(k, ops))
         == Acked(Holding(root, maxOpen, k, Execute(Open("", true), ops).writer))
  {
    var messages := Writes(k, ops);
    FirstWriteOpens(root, maxOpen, k, ops[0]);
    HoldingExecutes(root, maxOpen, k, Open("", true), ops);
    SameFirstDelivery(Collector(root, maxOpen, [], map[]), Holding(root, maxOpen, k, Open("", true)), messages);
  }

  lemma SameFirstDelivery(a: Collector, b: Collector, messages: seq<LogMessage>)
    requires messages != [] && Deliver(a, messages[0]) == Deliver(b, messages[0])
    ensures DeliverAll(a, messages) == DeliverAll(b, messages)
  {
  }

  lemma LastTwo(c: Collector, first: LogMessage, second: LogMessage)
    requires Deliver(c, first).Acked?
    ensures DeliverAll(c, [first, second]) == Deliver(Deliver(c, first).state, second)
  {
    LastOne(Deliver(c, first).state, second);
    OneThenRest(c, [first, second]);
    assert [first, second][1..] == [second];
  }

  lemma OneThenRest(c: Collector, messages: seq<LogMessage>)
    requires messages != [] && Deliver(c, messages[0]).Acked?
    ensures DeliverAll(c, messages) == DeliverAll(Deliver(c, messages[0]).state, messages[1..])
  {
  }

  lemma LastOne(c: Collector, message: LogMessage)
    ensures DeliverAll(c, [message]) == Deliver(c, message)
  {
    var r := Deliver(c, message);
    if r.Acked? {
      OneThenRest(c, [message]);
      assert [message][1..] == [] && DeliverAll(r.state, []) == Acked(r.state);
    }
  }

  // Steady runs are those no cache size can be told by.

  lemma {:induction false} SteadyExecutes(w: Writer, ops: seq<Op>, op: Op)
    requires Agree(w) && SteadyRun(Intent(w.buffer, w.lastLine), ops)
    ensures Execute(w, ops).Written? && Agree(Execute(w, ops).writer)
    ensures var w' := Execute(w, ops).writer;
            SteadyRun(Intent(w.buffer, w.lastLine), ops + [op]) <==> Steady(Intent(w'.buffer, w'.lastLine), op)
    decreases |ops|
  {
    if ops == [] {
      assert ops + [op] == [op] && [op][1..] == [];
    } else {
      AdmissibleWrite(w, ops[0].line, ops[0].data);
      assert (ops + [op])[1..] == ops[1..] + [op];
      SteadyExecutes(Write(w, ops[0].line, ops[0].data).writer, ops[1..], op);
    }
  }

  lemma {:induction false} SteadyPrefix(intent: Intent, ops: seq<Op>, i: nat)
    requires i <= |ops| && SteadyRun(intent, ops)
    ensures SteadyRun(intent, ops[..i])
    decreases |ops|
  {
    if i > 0 {
      SteadyPrefix(After(intent, ops[0]), ops[1..], i - 1);
      assert ops[..i][1..] == ops[1..][..i - 1];
    }
  }

  lemma {:induction false} OneMoreIsSteadyIff(root: Path, k: LogFrom, x: LogFrom, ops: seq<Op>, op: Op)
    requires Beside(root, k, x) && ops != [] && NewlineFree(op.data)
    requires SteadyRun(Intent([], 0), ops)
    ensures SteadyRun(Intent([], 0), ops + [op]) <==> SizesAgree(root, k, x, ops, op)
  {
    var w := Open("", true);
    assert ReadLines("") == [] && Print([]) == "";
    SteadyExecutes(w, ops, op);
    var w' := Execute(w, ops).writer;
    ReopenIsInvisibleIff(w', op.line, op.data);
    SizesAgreeIff(root, k, x, ops, op);
  }

  /** At every write after the first, the sizes agree. */
  ghost predicate AllSizesAgree(root: Path, k: LogFrom, x: LogFrom, ops: seq<Op>) {
    |ops| <= 1 ||
    var n := |ops| - 1;
    AllSizesAgree(root, k, x, ops[..n]) && SizesAgree(root, k, x, ops[..n], ops[n])
  }

  lemma {:induction false} ShortRunsAgree(root: Path, k: LogFrom, x: LogFrom, ops: seq<Op>)
    requires |ops| <= 1 && OpsNewlineFree(ops)
    ensures SteadyRun(Intent([], 0), ops) && AllSizesAgree(root, k, x, ops)
  {
    if ops != [] {
      assert Steady(Intent([], 0), ops[0]) && ops[1..] == [];
    }
  }

  lemma {:induction false} FrontIsSteady(intent: Intent, front: seq<Op>, op: Op)
    requires SteadyRun(intent, front + [op])
    ensures SteadyRun(intent, front)
  {
    SteadyPrefix(intent, front + [op], |front|);
    assert (front + [op])[..|front|] == front;
  }

  /** One more write keeps the equivalence. */
  lemma {:induction false} OneMoreWrite(root: Path, k: LogFrom, x: LogFrom, front: seq<Op>, op: Op, steady: bool)
    requires Beside(root, k, x) && front != [] && NewlineFree(op.data)
    requires steady == SteadyRun(Intent([], 0), front)
    ensures SteadyRun(Intent([], 0), front + [op]) == (steady && SizesAgree(root, k, x, front, op))
  {
    if steady {
      OneMoreIsSteadyIff(root, k, x, front, op);
    } else if SteadyRun(Intent([], 0), front + [op]) {
      FrontIsSteady(Intent([], 0), front, op);
    }
  }

  /**
   * From an empty log, the runs no cache can be told by are exactly the steady
   * ones: if a write is not steady, then with one message of any other key
   * before it, one open writer leaves another file than two, which may panic.
   */
  lemma {:induction false} CacheIsInvisibleIff(root: Path, k: LogFrom, x: LogFrom, ops: seq<Op>)
    requires Beside(root, k, x) && OpsNewlineFree(ops)
    ensures SteadyRun(Intent([], 0), ops) == AllSizesAgree(root, k, x, ops)
    decreases |ops|
  {
    if |ops| <= 1 {
      ShortRunsAgree(root, k, x, ops);
    } else {
      var front, op := LastApart(ops);
      CacheIsInvisibleIff(root, k, x, front);
      InvisibleStep(root, k, x, ops, front, op);
    }
  }

  lemma LastApart(ops: seq<Op>) returns (front: seq<Op>, op: Op)
    requires |ops| > 1 && OpsNewlineFree(ops)
    ensures ops == front + [op] && front != [] && OpsNewlineFree(front) && NewlineFree(op.data)
  {
    front, op := ops[..|ops| - 1], ops[|ops| - 1];
  }

  lemma {:induction false} InvisibleStep(root: Path, k: LogFrom, x: LogFrom, ops: seq<Op>, front: seq<Op>, op: Op)
    requires Beside(root, k, x) && front != [] && NewlineFree(op.data) && ops == front + [op]
    requires SteadyRun(Intent([], 0), front) == AllSizesAgree(root, k, x, front)
    ensures SteadyRun(Intent([], 0), ops) == AllSizesAgree(root, k, x, ops)
  {
    OneMoreWrite(root, k, x, front, op, SteadyRun(Intent([], 0), front));
    AgreesStep(root, k, x, front, op);
  }

  lemma AgreesStep(root: Path, k: LogFrom, x: LogFrom, front: seq<Op>, op: Op)
    requires front != []
    ensures AllSizesAgree(root, k, x, front + [op])
         == (AllSizesAgree(root, k, x, front) && SizesAgree(root, k, x, front, op))
  {
    assert (front + [op])[..|front|] == front;
  }
}
