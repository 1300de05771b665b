/**
 * `LineWriter`: a log file edited one line at a time. The class follows the
 * program; `Write` is the same step on values, and the lemmas say exactly when
 * the file and the buffer stay in agreement.
 */
module LineWriting {
  import opened TextLines

  /** An open file: its bytes (as text), the shared offset, and `O_APPEND`. */
  datatype File = File(content: string, cursor: nat, append: bool)

  datatype Writer = Writer(file: File, buffer: seq<string>, lastLine: nat)

  /** Slicing the buffer with a start beyond its end panics. */
  datatype WriteResult = Written(writer: Writer) | SlicePanic

  datatype Op = Op(line: nat, data: string)

  function Zeros(n: nat): string {
    seq(n, _ => '\0')
  }

  /** `write_all`: at the offset, or at the end when the file was opened for appending. */
  function AfterWriteAll(file: File, data: string): File {
    if data == "" then file
    else
      var at := if file.append then |file.content| else file.cursor;
      var before := if at <= |file.content| then file.content[..at]
                    else file.content + Zeros(at - |file.content|);
      var end := at + |data|;
      var after := if end <= |file.content| then file.content[end..] else "";
      file.(content := before + data + after, cursor := end)
  }

  function Pad(buffer: seq<string>, length: nat): (padded: seq<string>)
    ensures |padded| == if |buffer| < length then length else |buffer|
    ensures buffer <= padded
    ensures forall i :: |buffer| <= i < |padded| ==> padded[i] == ""
    decreases length - |buffer|
  {
    if length <= |buffer| then buffer else Pad(buffer + [""], length)
  }

  /** The simple meaning of a write: make the line exist, then replace it. */
  function SetLine(buffer: seq<string>, line: nat, data: string): seq<string> {
    Pad(buffer, line + 1)[line := data]
  }

  function SetLines(buffer: seq<string>, ops: seq<Op>): seq<string>
    decreases |ops|
  {
    if ops == [] then buffer else SetLines(SetLine(buffer, ops[0].line, ops[0].data), ops[1..])
  }

  /** A writer just opened on a file; reading leaves the offset at the end. */
  function Open(content: string, append: bool): Writer {
    var lines := ReadLines(content);
    Writer(File(content, |content|, append), lines, |lines|)
  }

  function Write(w: Writer, line: nat, data: string): WriteResult {
    var buffer := SetLine(w.buffer, line, data);
    if w.lastLine > line then
      var emptied := w.file.(content := "", cursor := 0);
      Written(Writer(AfterWriteAll(AfterWriteAll(emptied, Join(buffer, "\n")), "\n"), buffer, line))
    else if |w.buffer| > line + 1 then SlicePanic
    else
      var added := Join(buffer[|w.buffer|..line + 1], "\n");
      Written(Writer(AfterWriteAll(AfterWriteAll(w.file, added), "\n"), buffer, line))
  }

  class OpenFile {
    var content: string
    var cursor: nat
    const append: bool

    function View(): File reads this {
      File(content, cursor, append)
    }

    constructor (content: string, append: bool)
      ensures View() == File(content, 0, append)
    {
      this.content, this.cursor, this.append := content, 0, append;
    }

    method SetLen(length: nat)
      requires length <= |content|
      modifies this
      ensures View() == old(View()).(content := old(content)[..length])
    {
      content := content[..length];
    }

    method SeekStart()
      modifies this
      ensures View() == old(View()).(cursor := 0)
    {
      cursor := 0;
    }

    method ReadToEnd() returns (text: string)
      requires cursor <= |content|
      modifies this
      ensures text == old(content[cursor..])
      ensures View() == old(View()).(cursor := |content|)
    {
      text := content[cursor..];
      cursor := |content|;
    }

    method WriteAll(data: string)
      modifies this
      ensures View() == AfterWriteAll(old(View()), data)
    {
      if data != "" {
        var at := if append then |content| else cursor;
        if |content| < at {
          content := content + Zeros(at - |content|);
        }
        var end := at + |data|;
        content := content[..at] + data + (if end <= |content| then content[end..] else "");
        cursor := end;
      }
    }
  }

  class LineWriter {
    const file: OpenFile
    var buffer: seq<string>
    var lastLine: nat

    function View(): Writer reads this, file {
      Writer(file.View(), buffer, lastLine)
    }

    constructor (rw: OpenFile)
      modifies rw
      ensures file == rw
      ensures View() == Open(old(rw.content), rw.append)
    {
      rw.SeekStart();
      var text := rw.ReadToEnd();
      var lines := ReadLines(text);
      file, buffer, lastLine := rw, lines, |lines|;
    }

    method WriteToLine(line: nat, data: string) returns (panicked: bool)
      modifies this, file
      ensures panicked == Write(old(View()), line, data).SlicePanic?
      ensures !panicked ==> View() == Write(old(View()), line, data).writer
      ensures buffer == SetLine(old(buffer), line, data)
      ensures panicked ==> file.View() == old(file.View()) && lastLine == old(lastLine)
    {
      var originalLen := |buffer|;
      while |buffer| <= line
        invariant Pad(buffer, line + 1) == Pad(old(buffer), line + 1)
        invariant |buffer| == originalLen || |buffer| <= line + 1
        decreases line + 1 - |buffer|
        modifies this`buffer
      {
        buffer := buffer + [""];
      }

      buffer := buffer[..line] + buffer[line + 1..];
      buffer := buffer[..line] + [data] + buffer[line..];
      assert buffer == SetLine(old(buffer), line, data);

      if lastLine > line {
        file.SetLen(0);
        file.SeekStart();
        file.WriteAll(Join(buffer, "\n"));
        file.WriteAll("\n");
      } else {
        var bufferStart, bufferEnd := originalLen, line + 1;
        if bufferStart > bufferEnd {
          return true;
        }
        var toWrite := Join(buffer[bufferStart..bufferEnd], "\n");
        file.WriteAll(toWrite);
        file.WriteAll("\n");
      }
      lastLine := line;
      panicked := false;
    }
  }

  /** The file holds exactly the buffer's lines and its offset is at the end. */
  ghost predicate Agree(w: Writer) {
    && w.file.content == Print(w.buffer)
    && w.file.cursor == |w.file.content|
    && w.lastLine <= |w.buffer|
    && AllNewlineFree(w.buffer)
  }

  /** A line below the last one written, or past the end of the buffer. */
  predicate Admissible(lastLine: nat, length: nat, line: nat) {
    line < lastLine || length <= line
  }

  lemma WriteAllAtEnd(file: File, data: string)
    requires file.cursor == |file.content|
    ensures AfterWriteAll(file, data)
         == file.(content := file.content + data, cursor := |file.content| + |data|)
  {
    if data == "" {
      assert file.content + data == file.content;
    } else {
      assert file.content[..|file.content|] == file.content;
    }
  }

  lemma WriteJoined(file: File, lines: seq<string>)
    requires file.cursor == |file.content|
    requires lines != []
    ensures AfterWriteAll(AfterWriteAll(file, Join(lines, "\n")), "\n")
         == file.(content := file.content + Print(lines), cursor := |file.content| + |Print(lines)|)
  {
    var joined := Join(lines, "\n");
    WriteAllAtEnd(file, joined);
    WriteAllAtEnd(AfterWriteAll(file, joined), "\n");
    PrintIsJoin(lines);
    assert file.content + joined + "\n" == file.content + (joined + "\n");
  }

  lemma SetLineNewlineFree(buffer: seq<string>, line: nat, data: string)
    requires AllNewlineFree(buffer) && NewlineFree(data)
    ensures AllNewlineFree(SetLine(buffer, line, data))
  {
  }

  lemma SetLinePastEnd(buffer: seq<string>, line: nat, data: string)
    requires |buffer| <= line
    ensures SetLine(buffer, line, data) == buffer + SetLine(buffer, line, data)[|buffer|..]
    ensures |SetLine(buffer, line, data)| == line + 1
  {
  }

  /** An admissible write does what the simple meaning says, to the file and to the buffer. */
  lemma AdmissibleWrite(w: Writer, line: nat, data: string)
    requires Agree(w) && NewlineFree(data)
    requires Admissible(w.lastLine, |w.buffer|, line)
    ensures Write(w, line, data).Written?
    ensures Agree(Write(w, line, data).writer)
    ensures Write(w, line, data).writer.buffer == SetLine(w.buffer, line, data)
  {
    var buffer := SetLine(w.buffer, line, data);
    SetLineNewlineFree(w.buffer, line, data);
    if w.lastLine > line {
      WriteJoined(w.file.(content := "", cursor := 0), buffer);
    } else {
      AppendedText(w, line, data);
      SetLinePastEnd(w.buffer, line, data);
      PrintAppend(w.buffer, buffer[|w.buffer|..]);
    }
  }

  /** Writing the last buffered line again, without going below it, leaves a spare blank line in the file. */
  lemma StaleWrite(w: Writer, line: nat, data: string)
    requires Agree(w) && NewlineFree(data)
    requires w.lastLine <= line == |w.buffer| - 1
    ensures Write(w, line, data).Written?
    ensures Write(w, line, data).writer.file.content == w.file.content + "\n"
    ensures !Agree(Write(w, line, data).writer)
  {
    WriteAllAtEnd(w.file, "\n");
    var buffer := SetLine(w.buffer, line, data);
    assert |buffer| == |w.buffer|;
    SetLineNewlineFree(w.buffer, line, data);
    NewlinesOfPrint(w.buffer);
    NewlinesAppend(Print(w.buffer), "\n");
    NewlinesOfPrint(buffer);
  }

  lemma WriteKeepsAgreementIff(w: Writer, line: nat, data: string)
    requires Agree(w) && NewlineFree(data)
    ensures Write(w, line, data).SlicePanic? <==> w.lastLine <= line && line + 1 < |w.buffer|
    ensures (Write(w, line, data).Written? && Agree(Write(w, line, data).writer))
       <==> Admissible(w.lastLine, |w.buffer|, line)
  {
    if Admissible(w.lastLine, |w.buffer|, line) {
      AdmissibleWrite(w, line, data);
    } else if line == |w.buffer| - 1 {
      StaleWrite(w, line, data);
    }
  }

  /** No write of the run panics, and file and buffer agree after each of them. */
  ghost predicate StaysInAgreement(w: Writer, ops: seq<Op>)
    decreases |ops|
  {
    && Agree(w)
    && (ops != [] ==>
          var r := Write(w, ops[0].line, ops[0].data);
          r.Written? && StaysInAgreement(r.writer, ops[1..]))
  }

  predicate AdmissibleRun(lastLine: nat, length: nat, ops: seq<Op>)
    decreases |ops|
  {
    ops == [] ||
    var line := ops[0].line;
    Admissible(lastLine, length, line) &&
    AdmissibleRun(line, if length <= line then line + 1 else length, ops[1..])
  }

  ghost predicate OpsNewlineFree(ops: seq<Op>) {
    forall i :: 0 <= i < |ops| ==> NewlineFree(ops[i].data)
  }

  function Execute(w: Writer, ops: seq<Op>): WriteResult
    decreases |ops|
  {
    if ops == [] then Written(w)
    else
      var r := Write(w, ops[0].line, ops[0].data);
      if r.SlicePanic? then r else Execute(r.writer, ops[1..])
  }

  lemma {:induction false} RunKeepsAgreementIff(w: Writer, ops: seq<Op>)
    requires Agree(w) && OpsNewlineFree(ops)
    ensures StaysInAgreement(w, ops) <==> AdmissibleRun(w.lastLine, |w.buffer|, ops)
    ensures AdmissibleRun(w.lastLine, |w.buffer|, ops) ==>
              && Execute(w, ops).Written?
              && Execute(w, ops).writer.file.content == Print(SetLines(w.buffer, ops))
              && Execute(w, ops).writer.file.cursor == |Print(SetLines(w.buffer, ops))|
    decreases |ops|
  {
    if ops != [] {
      var line, data := ops[0].line, ops[0].data;
      WriteKeepsAgreementIff(w, line, data);
      if Admissible(w.lastLine, |w.buffer|, line) {
        AdmissibleWrite(w, line, data);
        RunKeepsAgreementIff(Write(w, line, data).writer, ops[1..]);
      }
    }
  }

  /** At or past the last line written, but short of the longest run of lines so far. */
  predicate GoesBackUp(lastLine: nat, length: nat, ops: seq<Op>, i: nat)
    requires i < |ops|
  {
    && (if i == 0 then lastLine else ops[i - 1].line) <= ops[i].line
    && (ops[i].line + 1 < length || exists j :: 0 <= j < i && ops[i].line < ops[j].line)
  }

  lemma GoesBackUpLater(lastLine: nat, length: nat, ops: seq<Op>, i: nat)
    requires 0 < i < |ops|
    ensures GoesBackUp(lastLine, length, ops, i)
       <==> GoesBackUp(ops[0].line, if length <= ops[0].line then ops[0].line + 1 else length, ops[1..], i - 1)
  {
    var line, later := ops[0].line, ops[1..];
    assert forall j :: 0 <= j < |later| ==> later[j] == ops[j + 1];
    if GoesBackUp(lastLine, length, ops, i) && !(ops[i].line + 1 < length) && !(ops[i].line < line) {
      var j :| 0 <= j < i && ops[i].line < ops[j].line;
      assert later[i - 1].line < later[j - 1].line;
    }
  }

  /**
   * In agreement or not, a run reaches the backward slice exactly when one of
   * its writes goes back up without passing the end; otherwise every line it
   * wrote is in the buffer, whatever became of the file.
   */
  lemma {:induction false} RunPanicsIff(w: Writer, ops: seq<Op>)
    ensures Execute(w, ops).SlicePanic?
       <==> exists i :: 0 <= i < |ops| && GoesBackUp(w.lastLine, |w.buffer|, ops, i)
    ensures Execute(w, ops).Written? ==> Execute(w, ops).writer.buffer == SetLines(w.buffer, ops)
    decreases |ops|
  {
    if ops != [] {
      var r := Write(w, ops[0].line, ops[0].data);
      assert r.SlicePanic? <==> GoesBackUp(w.lastLine, |w.buffer|, ops, 0);
      if r.Written? {
        RunPanicsIff(r.writer, ops[1..]);
        forall i | 0 < i < |ops|
          ensures GoesBackUp(w.lastLine, |w.buffer|, ops, i)
             <==> GoesBackUp(r.writer.lastLine, |r.writer.buffer|, ops[1..], i - 1)
        {
          GoesBackUpLater(w.lastLine, |w.buffer|, ops, i);
        }
        if Execute(w, ops).SlicePanic? {
          var i :| 0 <= i < |ops[1..]| && GoesBackUp(r.writer.lastLine, |r.writer.buffer|, ops[1..], i);
          assert GoesBackUp(w.lastLine, |w.buffer|, ops, i + 1);
        }
      }
    }
  }

  /** From an existing file: agreement also needs the file to be empty or cleanly newline-terminated. */
  lemma OpenedRunKeepsAgreementIff(content: string, append: bool, ops: seq<Op>)
    requires OpsNewlineFree(ops)
    ensures var w := Open(content, append);
            StaysInAgreement(w, ops) <==> Tidy(content) && AdmissibleRun(|w.buffer|, |w.buffer|, ops)
    ensures StaysInAgreement(Open(content, append), ops) ==>
              var r := Execute(Open(content, append), ops);
              r.Written? && r.writer.file.content == Print(SetLines(ReadLines(content), ops))
  {
    PrintUndoesRead(content);
    if Tidy(content) {
      RunKeepsAgreementIff(Open(content, append), ops);
    }
  }

  lemma IncreasingRunIsAdmissible(lastLine: nat, length: nat, ops: seq<Op>)
    requires ops != [] ==> length <= ops[0].line
    requires forall i, j :: 0 <= i < j < |ops| ==> ops[i].line < ops[j].line
    ensures AdmissibleRun(lastLine, length, ops)
    decreases |ops|
  {
    if ops != [] {
      IncreasingRunIsAdmissible(ops[0].line, ops[0].line + 1, ops[1..]);
    }
  }

  lemma DecreasingRunIsAdmissible(lastLine: nat, length: nat, ops: seq<Op>)
    requires ops != [] ==> Admissible(lastLine, length, ops[0].line)
    requires forall i, j :: 0 <= i < j < |ops| ==> ops[i].line > ops[j].line
    ensures AdmissibleRun(lastLine, length, ops)
    decreases |ops|
  {
    if ops != [] {
      var line := ops[0].line;
      DecreasingRunIsAdmissible(line, if length <= line then line + 1 else length, ops[1..]);
    }
  }

  /** Any single write after opening, and any decreasing run after opening, is safe. */
  lemma ReopenedDecreasingRun(content: string, append: bool, ops: seq<Op>)
    requires Tidy(content) && OpsNewlineFree(ops)
    requires forall i, j :: 0 <= i < j < |ops| ==> ops[i].line > ops[j].line
    ensures StaysInAgreement(Open(content, append), ops)
    ensures var r := Execute(Open(content, append), ops);
            r.Written? && r.writer.file.content == Print(SetLines(ReadLines(content), ops))
  {
    var n := |ReadLines(content)|;
    DecreasingRunIsAdmissible(n, n, ops);
    OpenedRunKeepsAgreementIff(content, append, ops);
  }

  lemma ReopenedIncreasingRun(content: string, append: bool, ops: seq<Op>)
    requires Tidy(content) && OpsNewlineFree(ops)
    requires ops != [] ==> |ReadLines(content)| <= ops[0].line
    requires forall i, j :: 0 <= i < j < |ops| ==> ops[i].line < ops[j].line
    ensures StaysInAgreement(Open(content, append), ops)
    ensures var r := Execute(Open(content, append), ops);
            r.Written? && r.writer.file.content == Print(SetLines(ReadLines(content), ops))
  {
    var n := |ReadLines(content)|;
    IncreasingRunIsAdmissible(n, n, ops);
    OpenedRunKeepsAgreementIff(content, append, ops);
  }

  /** A reopened writer holds the same lines without trailing carriage returns. */
  lemma ReopenStrips(w: Writer)
    requires Agree(w)
    ensures Open(w.file.content, w.file.append) == Writer(w.file, StripCrs(w.buffer), |w.buffer|)
  {
    SplitOfPrint(w.buffer, "", false);
    assert Print(w.buffer) + "" == Print(w.buffer);
    assert StripCrs(w.buffer) + [] == StripCrs(w.buffer);
  }

  /**
   * Closing and reopening the file before a write is invisible, and the write
   * through the writer that was kept does not panic, exactly when the line is
   * past the end, or below the last one written with every line that is
   * printed again reading back as it is. Through the reopened writer no write
   * ever panics.
   */
  lemma ReopenIsInvisibleIff(w: Writer, line: nat, data: string)
    requires Agree(w) && NewlineFree(data)
    ensures Write(Open(w.file.content, w.file.append), line, data).Written?
    ensures SameReopened(w, line, data)
       <==> |w.buffer| <= line || (line < w.lastLine && OthersReadBack(w.buffer, line))
  {
    ReopenStrips(w);
    var reopened := Writer(w.file, StripCrs(w.buffer), |w.buffer|);
    if |w.buffer| <= line {
      AppendedText(w, line, data);
      AppendedText(reopened, line, data);
      assert SetLine(w.buffer, line, data)[|w.buffer|..] == SetLine(reopened.buffer, line, data)[|w.buffer|..];
    } else {
      RewrittenText(reopened, line, data);
      if line < w.lastLine {
        RewrittenText(w, line, data);
        SameTextIff(w.buffer, line, data);
      } else if line == |w.buffer| - 1 {
        StaleIsSeen(w, line, data);
      }
    }
  }

  /** The write leaves the same file through the writer at hand and through one just opened. */
  ghost predicate SameReopened(w: Writer, line: nat, data: string) {
    var kept, reopened := Write(w, line, data), Write(Open(w.file.content, w.file.append), line, data);
    kept.Written? && reopened.Written? && kept.writer.file.content == reopened.writer.file.content
  }

  /** A stale write leaves one line more than rewriting would. */
  lemma StaleIsSeen(w: Writer, line: nat, data: string)
    requires Agree(w) && NewlineFree(data) && w.lastLine <= line == |w.buffer| - 1
    ensures Write(w, line, data).Written?
    ensures Write(w, line, data).writer.file.content != Print(SetLine(StripCrs(w.buffer), line, data))
  {
    StaleWrite(w, line, data);
    StrippedNewlineFree(w.buffer);
    SetLineNewlineFree(StripCrs(w.buffer), line, data);
    NewlinesOfPrint(w.buffer);
    NewlinesAppend(Print(w.buffer), "\n");
    NewlinesOfPrint(SetLine(StripCrs(w.buffer), line, data));
  }

  /** Every line but the one being replaced reads back as it was printed. */
  ghost predicate OthersReadBack(buffer: seq<string>, line: nat) {
    forall i :: 0 <= i < |buffer| && i != line ==> StripCr(buffer[i]) == buffer[i]
  }

  lemma SameLinesIff(buffer: seq<string>, stripped: seq<string>, line: nat, data: string)
    requires line < |buffer| && |stripped| == |buffer|
    requires forall i :: 0 <= i < |buffer| ==> stripped[i] == StripCr(buffer[i])
    ensures buffer[line := data] == stripped[line := data] <==> OthersReadBack(buffer, line)
  {
    if !OthersReadBack(buffer, line) {
      var i :| 0 <= i < |buffer| && i != line && StripCr(buffer[i]) != buffer[i];
      assert buffer[line := data][i] != stripped[line := data][i];
    }
  }

  lemma SameTextIff(buffer: seq<string>, line: nat, data: string)
    requires AllNewlineFree(buffer) && NewlineFree(data) && line < |buffer|
    ensures Print(SetLine(buffer, line, data)) == Print(SetLine(StripCrs(buffer), line, data))
       <==> OthersReadBack(buffer, line)
  {
    var stripped := StripCrs(buffer);
    SameLinesIff(buffer, stripped, line, data);
    SetLineNewlineFree(buffer, line, data);
    StrippedNewlineFree(buffer);
    SetLineNewlineFree(stripped, line, data);
    if Print(SetLine(buffer, line, data)) == Print(SetLine(stripped, line, data)) {
      PrintIsInjective(SetLine(buffer, line, data), SetLine(stripped, line, data));
    }
  }

  lemma StrippedNewlineFree(lines: seq<string>)
    requires AllNewlineFree(lines)
    ensures AllNewlineFree(StripCrs(lines))
  {
    forall i | 0 <= i < |lines|
      ensures NewlineFree(StripCrs(lines)[i])
    {
      assert NewlineFree(lines[i]);
    }
  }

  // Runs whose writer may be reopened at any time.

  /** The intended lines of a file, and the line last written (or the length, if none was). */
  datatype Intent = Intent(lines: seq<string>, last: nat)

  function After(intent: Intent, op: Op): Intent {
    Intent(SetLine(intent.lines, op.line, op.data), op.line)
  }

  /** A write that comes out the same whether or not the writer was reopened before it. */
  ghost predicate Steady(intent: Intent, op: Op) {
    && NewlineFree(op.data)
    && (|intent.lines| <= op.line || (op.line < intent.last && OthersReadBack(intent.lines, op.line)))
  }

  ghost predicate SteadyRun(intent: Intent, ops: seq<Op>)
    decreases |ops|
  {
    ops != [] ==> Steady(intent, ops[0]) && SteadyRun(After(intent, ops[0]), ops[1..])
  }

  /** A writer good for the next steady write: its lines are the intended ones up to trailing carriage returns. */
  ghost predicate Mirrors(w: Writer, intent: Intent) {
    && AllNewlineFree(intent.lines)
    && w.file.content == Print(intent.lines) && w.file.cursor == |w.file.content|
    && |w.buffer| == |intent.lines|
    && AllNewlineFree(w.buffer)
    && intent.last <= w.lastLine <= |intent.lines|
    && forall i :: 0 <= i < |w.buffer| ==> w.buffer[i] == intent.lines[i] || w.buffer[i] == StripCr(intent.lines[i])
  }

  /** A steady write through any such writer carries the intent forward. */
  lemma SteadyWrite(w: Writer, intent: Intent, op: Op)
    requires Mirrors(w, intent) && Steady(intent, op)
    ensures Write(w, op.line, op.data).Written?
    ensures Mirrors(Write(w, op.line, op.data).writer, After(intent, op))
  {
    var lines := SetLine(intent.lines, op.line, op.data);
    SetLineNewlineFree(intent.lines, op.line, op.data);
    SetLineNewlineFree(w.buffer, op.line, op.data);
    if |intent.lines| <= op.line {
      AppendedText(w, op.line, op.data);
      SetLinePastEnd(intent.lines, op.line, op.data);
      PrintAppend(intent.lines, lines[|intent.lines|..]);
      assert SetLine(w.buffer, op.line, op.data)[|w.buffer|..] == lines[|intent.lines|..];
    } else {
      RewrittenText(w, op.line, op.data);
      assert SetLine(w.buffer, op.line, op.data) == lines;
    }
  }

  function Reopened(w: Writer): Writer {
    Open(w.file.content, w.file.append)
  }

  lemma ReopenedMirrors(w: Writer, intent: Intent)
    requires Mirrors(w, intent)
    ensures Mirrors(Reopened(w), intent)
  {
    ReopenStrips(Writer(w.file, intent.lines, 0));
    StrippedNewlineFree(intent.lines);
  }

  /** The file after each write, the writer being reopened before those marked; a panic ends the run. */
  function Trace(w: Writer, ops: seq<Op>, reopens: seq<bool>): seq<WriteTrace>
    requires |reopens| == |ops|
    decreases |ops|
  {
    if ops == [] then []
    else
      var r := Write(if reopens[0] then Reopened(w) else w, ops[0].line, ops[0].data);
      if r.SlicePanic? then [PanicSeen] else [FileSeen(r.writer.file.content)] + Trace(r.writer, ops[1..], reopens[1..])
  }

  datatype WriteTrace = FileSeen(content: string) | PanicSeen

  /** The file after each write, if every line is just set. */
  function IntendedTrace(lines: seq<string>, ops: seq<Op>): seq<WriteTrace>
    decreases |ops|
  {
    if ops == [] then []
    else
      var after := SetLine(lines, ops[0].line, ops[0].data);
      [FileSeen(Print(after))] + IntendedTrace(after, ops[1..])
  }

  lemma {:induction false} SteadyTrace(w: Writer, intent: Intent, ops: seq<Op>, reopens: seq<bool>)
    requires Mirrors(w, intent) && SteadyRun(intent, ops) && |reopens| == |ops|
    ensures Trace(w, ops, reopens) == IntendedTrace(intent.lines, ops)
    decreases |ops|
  {
    if ops != [] {
      ReopenedMirrors(w, intent);
      var start := if reopens[0] then Reopened(w) else w;
      SteadyWrite(start, intent, ops[0]);
      SteadyTrace(Write(start, ops[0].line, ops[0].data).writer, After(intent, ops[0]), ops[1..], reopens[1..]);
    }
  }

  function Never(n: nat): (reopens: seq<bool>)
    ensures |reopens| == n && forall i :: 0 <= i < n ==> !reopens[i]
  {
    seq(n, _ => false)
  }

  lemma FirstDiffers(w: Writer, ops: seq<Op>, reopens: seq<bool>)
    requires ops != [] && |reopens| == |ops| && reopens[0]
    requires Write(Reopened(w), ops[0].line, ops[0].data).Written? && !SameReopened(w, ops[0].line, ops[0].data)
    ensures Trace(w, ops, reopens) != Trace(w, ops, Never(|ops|))
  {
    assert Trace(w, ops, reopens)[0] != Trace(w, ops, Never(|ops|))[0];
  }

  lemma LaterDiffers(w: Writer, ops: seq<Op>, later: seq<bool>)
    requires ops != [] && |later| == |ops| - 1 && Write(w, ops[0].line, ops[0].data).Written?
    requires var w' := Write(w, ops[0].line, ops[0].data).writer;
             Trace(w', ops[1..], later) != Trace(w', ops[1..], Never(|ops| - 1))
    ensures Trace(w, ops, [false] + later) != Trace(w, ops, Never(|ops|))
  {
    assert ([false] + later)[1..] == later && Never(|ops|)[1..] == Never(|ops| - 1);
    assert Trace(w, ops, [false] + later)[1..] != Trace(w, ops, Never(|ops|))[1..];
  }

  /** Before the first unsteady write: never reopening, and reopening just there, are told apart. */
  lemma {:induction false} UnsteadyIsSeen(w: Writer, ops: seq<Op>) returns (reopens: seq<bool>)
    requires Agree(w) && OpsNewlineFree(ops) && !SteadyRun(Intent(w.buffer, w.lastLine), ops)
    ensures |reopens| == |ops| && Trace(w, ops, reopens) != Trace(w, ops, Never(|ops|))
    decreases |ops|
  {
    var op := ops[0];
    if Steady(Intent(w.buffer, w.lastLine), op) {
      AdmissibleWrite(w, op.line, op.data);
      var later := UnsteadyIsSeen(Write(w, op.line, op.data).writer, ops[1..]);
      LaterDiffers(w, ops, later);
      reopens := [false] + later;
    } else {
      ReopenIsInvisibleIff(w, op.line, op.data);
      reopens := [true] + Never(|ops| - 1);
      FirstDiffers(w, ops, reopens);
    }
  }

  /**
   * However often and wherever the writer is reopened, every write leaves the
   * same file, exactly when every write is steady; then it is the intended one.
   */
  lemma ReopeningIsInvisibleIff(w: Writer, ops: seq<Op>)
    requires Agree(w) && OpsNewlineFree(ops)
    ensures (forall reopens :: |reopens| == |ops| ==> Trace(w, ops, reopens) == Trace(w, ops, Never(|ops|)))
       <==> SteadyRun(Intent(w.buffer, w.lastLine), ops)
    ensures SteadyRun(Intent(w.buffer, w.lastLine), ops) ==>
              forall reopens :: |reopens| == |ops| ==> Trace(w, ops, reopens) == IntendedTrace(w.buffer, ops)
  {
    if SteadyRun(Intent(w.buffer, w.lastLine), ops) {
      forall reopens | |reopens| == |ops|
        ensures Trace(w, ops, reopens) == IntendedTrace(w.buffer, ops)
      {
        SteadyTrace(w, Intent(w.buffer, w.lastLine), ops, reopens);
      }
      assert Trace(w, ops, Never(|ops|)) == IntendedTrace(w.buffer, ops);
    } else {
      var reopens := UnsteadyIsSeen(w, ops);
    }
  }

  lemma RewrittenText(w: Writer, line: nat, data: string)
    requires w.lastLine > line
    ensures Write(w, line, data).Written?
    ensures var buffer := SetLine(w.buffer, line, data);
            Write(w, line, data).writer
            == Writer(w.file.(content := Print(buffer), cursor := |Print(buffer)|), buffer, line)
  {
    var buffer, emptied := SetLine(w.buffer, line, data), w.file.(content := "", cursor := 0);
    WriteJoined(emptied, buffer);
    assert "" + Print(buffer) == Print(buffer);
  }

  /** Past the end, a write adds the padding and the new line, whatever the buffer holds. */
  lemma AppendedText(w: Writer, line: nat, data: string)
    requires w.file.cursor == |w.file.content|
    requires w.lastLine <= |w.buffer| <= line
    ensures var added := SetLine(w.buffer, line, data)[|w.buffer|..];
            && Write(w, line, data).Written?
            && Write(w, line, data).writer
               == Writer(w.file.(content := w.file.content + Print(added),
                                 cursor := |w.file.content| + |Print(added)|),
                         SetLine(w.buffer, line, data), line)
  {
    var buffer := SetLine(w.buffer, line, data);
    assert buffer[|w.buffer|..line + 1] == buffer[|w.buffer|..];
    WriteJoined(w.file, buffer[|w.buffer|..]);
  }

  /** Replacing the line just written appends a blank line instead of the new text. */
  lemma RepeatedLineGoesStale(append: bool)
    ensures Execute(Open("", append), [Op(0, "a"), Op(0, "b")]).Written?
    ensures Execute(Open("", append), [Op(0, "a"), Op(0, "b")]).writer.file.content == "a\n\n"
  {
    var w0 := Open("", append);
    assert Print([]) == "";
    AdmissibleWrite(w0, 0, "a");
    var w1 := Write(w0, 0, "a").writer;
    assert w1.buffer == ["a"];
    assert Print(["a"]) == "a" + "\n" + Print([]);
    StaleWrite(w1, 0, "b");
    var ops := [Op(0, "a"), Op(0, "b")];
    assert ops[1..] == [Op(0, "b")] && ops[1..][1..] == [];
  }

  /** Going back up within the buffer without passing its end panics in the slice. */
  lemma GoingBackUpPanics(append: bool)
    ensures Execute(Open("", append), [Op(2, "c"), Op(0, "a"), Op(1, "b")]) == SlicePanic
  {
    var w0 := Open("", append);
    AdmissibleWrite(w0, 2, "c");
    var w1 := Write(w0, 2, "c").writer;
    AdmissibleWrite(w1, 0, "a");
    var ops := [Op(2, "c"), Op(0, "a"), Op(1, "b")];
    assert ops[1..] == [Op(0, "a"), Op(1, "b")] && ops[1..][1..] == [Op(1, "b")];
  }
}
