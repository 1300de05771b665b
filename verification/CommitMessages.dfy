/** The packages that commit messages name. */
module CommitMessages {
  import opened Wrappers
  import opened LogPaths
  import opened OutPaths

  /** The text before the first `separator`, if there is one. */
  function BeforeFirst(text: string, separator: char): Option<string> {
    if text == "" then None
    else if text[0] == separator then Some("")
    else
      var rest := BeforeFirst(text[1..], separator);
      if rest.Some? then Some([text[0]] + rest.value) else None
  }

  function Trim(text: string): string
    decreases |text|
  {
    if text == "" then ""
    else if IsSpace(text[0]) then Trim(text[1..])
    else if IsSpace(text[|text| - 1]) then Trim(text[..|text| - 1])
    else text
  }

  function TrimAll(texts: seq<string>): seq<string> {
    if texts == [] then [] else [Trim(texts[0])] + TrimAll(texts[1..])
  }

  function ParseCommitMessages(messages: seq<string>): seq<string> {
    if messages == [] then []
    else
      var names := BeforeFirst(messages[0], ':');
      (if names.Some? then TrimAll(SplitOn(names.value, ',')) else []) + ParseCommitMessages(messages[1..])
  }

  /** The text before the separator has none of it, and there is such a text exactly when there is a separator. */
  lemma {:induction false} BeforeFirstIff(text: string, separator: char, start: string)
    ensures BeforeFirst(text, separator) == Some(start)
       <==> separator !in start && |start| < |text| && text[..|start|] == start && text[|start|] == separator
  {
    if text != "" {
      if text[0] == separator {
        assert start != "" && |start| <= |text| && text[..|start|] == start ==> start[0] == separator;
      } else if start != "" {
        BeforeFirstIff(text[1..], separator, start[1..]);
        if |start| < |text| {
          assert text[1..][..|start| - 1] == text[..|start|][1..];
          assert text[..|start|] == [text[0]] + text[..|start|][1..];
          assert start == [start[0]] + start[1..];
        }
      }
    }
  }

  /** The text is the core between white space. */
  ghost predicate Surrounds(text: string, front: string, core: string, back: string) {
    AllSpace(front) && AllSpace(back) && text == front + core + back
  }

  lemma SpaceInFront(text: string, front: string, core: string, back: string)
    requires text != "" && IsSpace(text[0]) && Surrounds(text[1..], front, core, back)
    ensures Surrounds(text, [text[0]] + front, core, back)
  {
    assert text == [text[0]] + text[1..];
  }

  lemma SpaceBehind(text: string, front: string, core: string, back: string)
    requires text != "" && IsSpace(text[|text| - 1]) && Surrounds(text[..|text| - 1], front, core, back)
    ensures Surrounds(text, front, core, back + [text[|text| - 1]])
  {
    assert text == text[..|text| - 1] + [text[|text| - 1]];
  }

  /** Trimming drops white space at both ends, and only that. */
  lemma {:induction false} TrimDropsOuterSpace(text: string) returns (front: string, back: string)
    ensures Surrounds(text, front, Trim(text), back)
    ensures Trim(text) != "" ==> !IsSpace(Trim(text)[0]) && !IsSpace(Trim(text)[|Trim(text)| - 1])
    decreases |text|
  {
    front, back := "", "";
    if text != "" && IsSpace(text[0]) {
      var f, b := TrimDropsOuterSpace(text[1..]);
      SpaceInFront(text, f, Trim(text[1..]), b);
      front, back := [text[0]] + f, b;
    } else if text != "" && IsSpace(text[|text| - 1]) {
      var f, b := TrimDropsOuterSpace(text[..|text| - 1]);
      SpaceBehind(text, f, Trim(text[..|text| - 1]), b);
      front, back := f, b + [text[|text| - 1]];
    }
  }

  lemma {:induction false} TrimAllIff(texts: seq<string>, name: string)
    ensures name in TrimAll(texts) <==> exists k :: 0 <= k < |texts| && name == Trim(texts[k])
  {
    if texts != [] {
      TrimAllIff(texts[1..], name);
      if k :| 0 <= k < |texts| && name == Trim(texts[k]) {
        assert k > 0 ==> texts[1..][k - 1] == texts[k];
      }
    }
  }

  ghost predicate Names(message: string, name: string) {
    && BeforeFirst(message, ':').Some?
    && var pieces := SplitOn(BeforeFirst(message, ':').value, ',');
       exists k :: 0 <= k < |pieces| && name == Trim(pieces[k])
  }

  /** A package is touched exactly when some message names it between commas before its first colon. */
  lemma {:induction false} TouchedIff(messages: seq<string>, name: string)
    ensures name in ParseCommitMessages(messages) <==> exists i :: 0 <= i < |messages| && Names(messages[i], name)
  {
    if messages != [] {
      TouchedIff(messages[1..], name);
      var before := BeforeFirst(messages[0], ':');
      if before.Some? {
        TrimAllIff(SplitOn(before.value, ','), name);
      }
      if i :| 0 <= i < |messages| && Names(messages[i], name) {
        assert i > 0 ==> messages[1..][i - 1] == messages[i];
      }
    }
  }
}
