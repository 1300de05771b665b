/**
 * Text files as sequences of lines: printing a list of lines, and the two
 * line readers of the Rust library that the program uses.
 */
module TextLines {

  ghost predicate NewlineFree(line: string) {
    forall i :: 0 <= i < |line| ==> line[i] != '\n'
  }

  ghost predicate AllNewlineFree(lines: seq<string>) {
    forall i :: 0 <= i < |lines| ==> NewlineFree(lines[i])
  }

  /** A line that survives being printed and read back. */
  ghost predicate Clean(line: string) {
    NewlineFree(line) && StripCr(line) == line
  }

  ghost predicate AllClean(lines: seq<string>) {
    forall i :: 0 <= i < |lines| ==> Clean(lines[i])
  }

  /** Every line followed by one newline. */
  function Print(lines: seq<string>): string {
    if lines == [] then "" else lines[0] + "\n" + Print(lines[1..])
  }

  /** The parts with `separator` between neighbours, as Rust's `join`. */
  function Join(parts: seq<string>, separator: string): string {
    if parts == [] then ""
    else if |parts| == 1 then parts[0]
    else parts[0] + separator + Join(parts[1..], separator)
  }

  function StripCr(line: string): string {
    if line != "" && line[|line| - 1] == '\r' then line[..|line| - 1] else line
  }

  function StripCrs(lines: seq<string>): (stripped: seq<string>)
    ensures |stripped| == |lines|
    ensures forall i :: 0 <= i < |lines| ==> stripped[i] == StripCr(lines[i])
  {
    if lines == [] then [] else [StripCr(lines[0])] + StripCrs(lines[1..])
  }

  /** Position of the first newline, or the length of a text that has none. */
  function NewlineAt(text: string): (k: nat)
    ensures k <= |text|
    ensures k < |text| ==> text[k] == '\n'
    ensures NewlineFree(text[..k])
  {
    if text == "" || text[0] == '\n' then 0
    else
      var k := NewlineAt(text[1..]) + 1;
      assert text[..k] == [text[0]] + text[1..][..k - 1];
      k
  }

  /** Position of the last dot, or the length of a name that has none. */
  function LastDot(name: string): (k: nat)
    ensures k <= |name|
    ensures k < |name| ==> name[k] == '.'
    ensures forall i :: k < i < |name| ==> name[i] != '.'
    ensures k == |name| ==> '.' !in name
  {
    if name == "" then 0
    else
      var n := |name| - 1;
      if name[n] == '.' then n
      else
        assert forall i :: 0 <= i < n ==> name[i] == name[..n][i];
        var k := LastDot(name[..n]);
        if k == n then |name| else k
  }

  /**
   * The lines of a text. A terminator is "\n" or "\r\n". The reader of files
   * keeps a carriage return that ends an unterminated last line; the reader
   * of strings drops it (`stripLast`).
   */
  function SplitLines(text: string, stripLast: bool): (lines: seq<string>)
    ensures AllNewlineFree(lines)
    decreases |text|
  {
    if text == "" then []
    else
      var k := NewlineAt(text);
      if k == |text| then
        assert text[..k] == text;
        [if stripLast then StripCr(text) else text]
      else [StripCr(text[..k])] + SplitLines(text[k + 1..], stripLast)
  }

  /** `BufRead::lines`, on text that decodes. */
  function ReadLines(text: string): seq<string> {
    SplitLines(text, false)
  }

  /** A text that printing can produce from what reading it yields. */
  ghost predicate Tidy(text: string) {
    && (text == "" || text[|text| - 1] == '\n')
    && forall i :: 0 <= i < |text| - 1 ==> !(text[i] == '\r' && text[i + 1] == '\n')
  }

  lemma NewlineAtOfLine(line: string, rest: string)
    requires NewlineFree(line)
    ensures NewlineAt(line + "\n" + rest) == |line|
  {
    var text := line + "\n" + rest;
    assert text[|line|] == '\n';
    assert forall j :: 0 <= j < |line| ==> text[j] == line[j];
    assert forall j :: 0 <= j < NewlineAt(text) ==> text[..NewlineAt(text)][j] == text[j];
  }

  lemma PrintHead(lines: seq<string>, rest: string)
    requires lines != []
    ensures Print(lines) + rest == lines[0] + "\n" + (Print(lines[1..]) + rest)
  {
  }

  lemma SplitOfLine(line: string, rest: string, stripLast: bool)
    requires NewlineFree(line)
    ensures SplitLines(line + "\n" + rest, stripLast) == [StripCr(line)] + SplitLines(rest, stripLast)
  {
    NewlineAtOfLine(line, rest);
    var text := line + "\n" + rest;
    assert text[..|line|] == line;
    assert text[|line| + 1..] == rest;
  }

  lemma AssociateLines(a: seq<string>, b: seq<string>, c: seq<string>)
    ensures a + b + c == a + (b + c)
  {
  }

  /** Reading what was printed strips one carriage return from each line. */
  lemma {:induction false} SplitOfPrint(lines: seq<string>, rest: string, stripLast: bool)
    requires AllNewlineFree(lines)
    ensures SplitLines(Print(lines) + rest, stripLast) == StripCrs(lines) + SplitLines(rest, stripLast)
  {
    if lines == [] {
      assert Print(lines) + rest == rest;
      assert StripCrs(lines) + SplitLines(rest, stripLast) == SplitLines(rest, stripLast);
    } else {
      PrintHead(lines, rest);
      SplitOfLine(lines[0], Print(lines[1..]) + rest, stripLast);
      SplitOfPrint(lines[1..], rest, stripLast);
      AssociateLines([StripCr(lines[0])], StripCrs(lines[1..]), SplitLines(rest, stripLast));
    }
  }

  /** Reading undoes printing exactly for lines with no newline and no trailing carriage return. */
  lemma ReadUndoesPrint(lines: seq<string>)
    ensures ReadLines(Print(lines)) == lines <==> AllClean(lines)
  {
    if AllNewlineFree(lines) {
      SplitOfPrint(lines, "", false);
      assert Print(lines) + "" == Print(lines);
    }
  }

  lemma PrintAppend(a: seq<string>, b: seq<string>)
    ensures Print(a + b) == Print(a) + Print(b)
  {
    if a == [] {
      assert a + b == b;
    } else {
      assert (a + b)[1..] == a[1..] + b;
      PrintAppend(a[1..], b);
    }
  }

  lemma PrintIsJoin(lines: seq<string>)
    requires lines != []
    ensures Print(lines) == Join(lines, "\n") + "\n"
  {
    if |lines| == 1 {
      assert Print(lines[1..]) == "";
    } else {
      PrintIsJoin(lines[1..]);
    }
  }

  /** Lists of newline-free lines are told apart by what they print. */
  lemma PrintIsInjective(a: seq<string>, b: seq<string>)
    requires AllNewlineFree(a) && AllNewlineFree(b)
    requires Print(a) == Print(b)
    ensures a == b
  {
    if a != [] && b != [] {
      NewlineAtOfLine(a[0], Print(a[1..]));
      NewlineAtOfLine(b[0], Print(b[1..]));
      assert a[0] == Print(a)[..|a[0]|] && b[0] == Print(b)[..|b[0]|];
      assert Print(a[1..]) == Print(a)[|a[0]| + 1..] && Print(b[1..]) == Print(b)[|b[0]| + 1..];
      PrintIsInjective(a[1..], b[1..]);
    }
  }

  function Newlines(text: string): nat {
    if text == "" then 0 else (if text[0] == '\n' then 1 else 0) + Newlines(text[1..])
  }

  lemma NewlinesAppend(a: string, b: string)
    ensures Newlines(a + b) == Newlines(a) + Newlines(b)
  {
    if a == "" {
      assert a + b == b;
    } else {
      assert (a + b)[1..] == a[1..] + b;
      NewlinesAppend(a[1..], b);
    }
  }

  lemma {:induction false} NewlinesOfLine(line: string)
    requires NewlineFree(line)
    ensures Newlines(line) == 0
  {
    if line != "" {
      NewlinesOfLine(line[1..]);
    }
  }

  lemma NewlinesOfPrint(lines: seq<string>)
    requires AllNewlineFree(lines)
    ensures Newlines(Print(lines)) == |lines|
  {
    if lines != [] {
      NewlinesOfPrint(lines[1..]);
      NewlinesOfLine(lines[0]);
      NewlinesAppend(lines[0], "\n");
      NewlinesAppend(lines[0] + "\n", Print(lines[1..]));
    }
  }

  /** Printing undoes reading exactly on the empty text and on "\n"-terminated text without "\r\n". */
  lemma {:induction false} PrintUndoesRead(text: string)
    ensures Print(ReadLines(text)) == text <==> Tidy(text)
    decreases |text|
  {
    if text != "" {
      var k := NewlineAt(text);
      if k == |text| {
        assert text[..k] == text;
        assert Print(ReadLines(text))[|text|] == '\n';
      } else {
        var line, tail := text[..k], text[k + 1..];
        PrintUndoesRead(tail);
        assert text == line + "\n" + tail;
        LineUndoesRead(line, tail, ReadLines(tail));
      }
    }
  }

  lemma LineUndoesRead(line: string, tail: string, read: seq<string>)
    requires NewlineFree(line) && (Print(read) == tail <==> Tidy(tail))
    ensures Print([StripCr(line)] + read) == line + "\n" + tail <==> Tidy(line + "\n" + tail)
  {
    var text, k := line + "\n" + tail, |line|;
    var printed := StripCr(line) + "\n" + Print(read);
    assert Print([StripCr(line)] + read) == printed;
    if StripCr(line) == line {
      TidyOfTail(line, tail);
      assert text[k + 1..] == tail && printed[k + 1..] == Print(read);
    } else {
      assert text[k - 1] == '\r' && text[k] == '\n';
      assert printed[k - 1] == '\n';
    }
  }

  lemma TidyOfTail(line: string, tail: string)
    requires Clean(line)
    ensures Tidy(line + "\n" + tail) <==> Tidy(tail)
  {
    var text, n := line + "\n" + tail, |line| + 1;
    assert forall i :: n <= i < |text| ==> text[i] == tail[i - n];
    if Tidy(text) {
      forall i | 0 <= i < |tail| - 1
        ensures !(tail[i] == '\r' && tail[i + 1] == '\n')
      {
        assert text[i + n] == tail[i] && text[i + n + 1] == tail[i + 1];
      }
    }
    if Tidy(tail) {
      forall i | 0 <= i < |text| - 1
        ensures !(text[i] == '\r' && text[i + 1] == '\n')
      {
        if i >= n {
          assert tail[i - n] == text[i] && tail[i - n + 1] == text[i + 1];
        }
      }
    }
  }
}
