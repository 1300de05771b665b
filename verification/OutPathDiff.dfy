/** Package output paths before and after a change: reading the listing, and the difference. */
module OutPaths {
  import opened Wrappers
  import opened TextLines

  datatype PackageArch = PackageArch(package: string, architecture: string)

  type PackageOutPaths = map<PackageArch, string>

  /** Unicode White_Space. */
  predicate IsSpace(c: char) {
    var n := c as int;
    || 9 <= n <= 13 || n == 32 || n == 0x85 || n == 0xA0 || n == 0x1680 || 0x2000 <= n <= 0x200A
    || n == 0x2028 || n == 0x2029 || n == 0x202F || n == 0x205F || n == 0x3000
  }

  ghost predicate SpaceFree(word: string) {
    forall i :: 0 <= i < |word| ==> !IsSpace(word[i])
  }

  ghost predicate AllSpace(pad: string) {
    forall i :: 0 <= i < |pad| ==> IsSpace(pad[i])
  }

  function WordEnd(text: string): (k: nat)
    ensures k <= |text|
    ensures text != "" && !IsSpace(text[0]) ==> k > 0
  {
    if text == "" || IsSpace(text[0]) then 0 else WordEnd(text[1..]) + 1
  }

  /** `split_whitespace`. */
  function Words(text: string): seq<string>
    decreases |text|
  {
    if text == "" then []
    else if IsSpace(text[0]) then Words(text[1..])
    else [text[..WordEnd(text)]] + Words(text[WordEnd(text)..])
  }

  /** One line of the listing: two words, the first ending in an architecture. */
  function ParseLine(line: string): Option<(PackageArch, string)> {
    var words := Words(line);
    if |words| != 2 then None
    else
      var dot := LastDot(words[0]);
      if dot == |words[0]| then None
      else Some((PackageArch(words[0][..dot], words[0][dot + 1..]), words[1]))
  }

  /** Later lines replace earlier ones with the same key; other lines are skipped. */
  function Collect(lines: seq<string>): PackageOutPaths {
    if lines == [] then map[]
    else
      var n := |lines| - 1;
      var before, entry := Collect(lines[..n]), ParseLine(lines[n]);
      if entry.None? then before else before[entry.value.0 := entry.value.1]
  }

  function ParseLines(text: string): PackageOutPaths {
    Collect(ReadLines(text))
  }

  lemma {:induction false} SkipSpace(pad: string, rest: string)
    requires AllSpace(pad)
    ensures Words(pad + rest) == Words(rest)
  {
    if pad == "" {
      assert pad + rest == rest;
    } else {
      assert (pad + rest)[1..] == pad[1..] + rest;
      SkipSpace(pad[1..], rest);
    }
  }

  lemma {:induction false} WordEndOf(word: string, rest: string)
    requires SpaceFree(word) && (rest == "" || IsSpace(rest[0]))
    ensures WordEnd(word + rest) == |word|
  {
    if word == "" {
      assert word + rest == rest;
    } else {
      assert (word + rest)[1..] == word[1..] + rest;
      WordEndOf(word[1..], rest);
    }
  }

  lemma FirstWord(word: string, rest: string)
    requires word != "" && SpaceFree(word) && (rest == "" || IsSpace(rest[0]))
    ensures Words(word + rest) == [word] + Words(rest)
  {
    WordEndOf(word, rest);
    assert (word + rest)[..|word|] == word && (word + rest)[|word|..] == rest;
  }

  lemma TwoWords(first: string, pad: string, second: string)
    requires first != "" && SpaceFree(first) && second != "" && SpaceFree(second)
    requires pad != "" && AllSpace(pad)
    ensures Words(first + pad + second) == [first, second]
  {
    assert first + pad + second == first + (pad + second);
    FirstWord(first, pad + second);
    SkipSpace(pad, second);
    assert second + "" == second;
    FirstWord(second, "");
  }

  /** A line as `nix-env` prints it. */
  datatype Entry = Entry(key: PackageArch, pad: string, path: string)

  ghost predicate Printable(e: Entry) {
    && SpaceFree(e.key.package) && SpaceFree(e.key.architecture) && '.' !in e.key.architecture
    && e.pad != "" && AllSpace(e.pad) && NewlineFree(e.pad)
    && e.path != "" && SpaceFree(e.path)
  }

  function Name(key: PackageArch): string {
    key.package + "." + key.architecture
  }

  function EntryLine(e: Entry): string {
    Name(e.key) + e.pad + e.path
  }

  function EntryLines(entries: seq<Entry>): (lines: seq<string>)
    ensures |lines| == |entries|
  {
    seq(|entries|, i requires 0 <= i < |entries| => EntryLine(entries[i]))
  }

  /** The entries as a map, the last of a key winning. */
  function Contents(entries: seq<Entry>): PackageOutPaths {
    if entries == [] then map[]
    else
      var n := |entries| - 1;
      Contents(entries[..n])[entries[n].key := entries[n].path]
  }

  lemma ParseOfEntry(e: Entry)
    requires Printable(e)
    ensures ParseLine(EntryLine(e)) == Some((e.key, e.path))
  {
    var name, n := Name(e.key), |e.key.package|;
    TwoWords(name, e.pad, e.path);
    assert name[n] == '.';
    assert forall i :: n < i < |name| ==> name[i] == e.key.architecture[i - n - 1];
    assert LastDot(name) == n;
    assert name[..n] == e.key.package && name[n + 1..] == e.key.architecture;
  }

  lemma EntryLineIsClean(e: Entry)
    requires Printable(e)
    ensures Clean(EntryLine(e))
  {
    var line := EntryLine(e);
    assert line[|line| - 1] == e.path[|e.path| - 1];
    assert IsSpace('\r') && IsSpace('\n');
  }

  lemma {:induction false} CollectOfEntries(entries: seq<Entry>)
    requires forall i :: 0 <= i < |entries| ==> Printable(entries[i])
    ensures Collect(EntryLines(entries)) == Contents(entries)
  {
    if entries != [] {
      var n := |entries| - 1;
      var lines := EntryLines(entries);
      CollectOfEntries(entries[..n]);
      ParseOfEntry(entries[n]);
      assert lines[..n] == EntryLines(entries[..n]) && lines[n] == EntryLine(entries[n]);
      assert Collect(lines) == Collect(lines[..n])[entries[n].key := entries[n].path];
    }
  }

  /** Printing a listing and parsing it gives it back, duplicates resolved to the last. */
  lemma ParseUndoesPrint(entries: seq<Entry>)
    requires forall i :: 0 <= i < |entries| ==> Printable(entries[i])
    ensures ParseLines(Print(EntryLines(entries))) == Contents(entries)
  {
    forall i | 0 <= i < |entries|
      ensures Clean(EntryLines(entries)[i])
    {
      EntryLineIsClean(entries[i]);
    }
    ReadUndoesPrint(EntryLines(entries));
    CollectOfEntries(entries);
  }

  /** The entries are the items of a map, each once, in some order. */
  ghost predicate Lists(entries: seq<Entry>, paths: PackageOutPaths) {
    && (forall i :: 0 <= i < |entries| ==> entries[i].key in paths && paths[entries[i].key] == entries[i].path)
    && (forall key :: key in paths ==> exists i :: 0 <= i < |entries| && entries[i].key == key)
  }

  lemma {:induction false} ContentsHave(entries: seq<Entry>, i: nat)
    requires i < |entries|
    ensures entries[i].key in Contents(entries)
  {
    var n := |entries| - 1;
    if i < n {
      ContentsHave(entries[..n], i);
    }
  }

  lemma ContentsFrom(entries: seq<Entry>, key: PackageArch) returns (i: nat)
    requires key in Contents(entries)
    ensures i < |entries| && entries[i].key == key && Contents(entries)[key] == entries[i].path
  {
    var n := |entries| - 1;
    if key == entries[n].key {
      i := n;
    } else {
      i := ContentsFrom(entries[..n], key);
    }
  }

  /** A map listed in any order, with any padding, comes back whole. */
  lemma ListingRoundTrips(entries: seq<Entry>, paths: PackageOutPaths)
    requires forall i :: 0 <= i < |entries| ==> Printable(entries[i])
    requires Lists(entries, paths)
    ensures ParseLines(Print(EntryLines(entries))) == paths
  {
    ParseUndoesPrint(entries);
    var contents := Contents(entries);
    forall key | key in contents
      ensures key in paths && paths[key] == contents[key]
    {
      var i := ContentsFrom(entries, key);
    }
    forall key | key in paths
      ensures key in contents
    {
      var i :| 0 <= i < |entries| && entries[i].key == key;
      ContentsHave(entries, i);
    }
  }

  lemma {:induction false} CollectIgnores(before: seq<string>, line: string, after: seq<string>)
    requires ParseLine(line).None?
    ensures Collect(before + [line] + after) == Collect(before + after)
  {
    var lines := before + [line] + after;
    var n := |lines| - 1;
    if after == [] {
      assert lines[..n] == before && before + after == before;
    } else {
      var m := |after| - 1;
      CollectIgnores(before, line, after[..m]);
      assert lines[..n] == before + [line] + after[..m];
      assert (before + after)[..n - 1] == before + after[..m];
    }
  }

  /** A line without exactly two words, or without an architecture, changes nothing. */
  lemma MalformedLineChangesNothing(before: seq<string>, line: string, after: seq<string>)
    requires AllNewlineFree(before) && NewlineFree(line) && AllNewlineFree(after)
    requires |Words(line)| != 2 || '.' !in Words(line)[0]
    ensures ParseLines(Print(before + [line] + after)) == ParseLines(Print(before + after))
  {
    NewlineFreeAround(before, line, after);
    ReadOfPrint(before + [line] + after);
    ReadOfPrint(before + after);
    MalformedAfterStripping(line);
    IgnoredAfterStripping(before, line, after);
  }

  lemma MalformedAfterStripping(line: string)
    requires |Words(line)| != 2 || '.' !in Words(line)[0]
    ensures ParseLine(StripCr(line)).None?
  {
    StrippedWords(line);
  }

  lemma IgnoredAfterStripping(before: seq<string>, line: string, after: seq<string>)
    requires ParseLine(StripCr(line)).None?
    ensures Collect(StripCrs(before + [line] + after)) == Collect(StripCrs(before + after))
  {
    StripCrsAround(before, line, after);
    CollectIgnores(StripCrs(before), StripCr(line), StripCrs(after));
  }

  lemma NewlineFreeAround(before: seq<string>, line: string, after: seq<string>)
    requires AllNewlineFree(before) && NewlineFree(line) && AllNewlineFree(after)
    ensures AllNewlineFree(before + [line] + after) && AllNewlineFree(before + after)
  {
  }

  lemma StripCrsAround(before: seq<string>, line: string, after: seq<string>)
    ensures StripCrs(before + [line] + after) == StripCrs(before) + [StripCr(line)] + StripCrs(after)
    ensures StripCrs(before + after) == StripCrs(before) + StripCrs(after)
  {
    StripCrsAppend(before, after);
    StripCrsAppend(before, [line]);
    StripCrsAppend(before + [line], after);
    assert StripCrs([line]) == [StripCr(line)];
  }

  lemma {:induction false} StripCrsAppend(a: seq<string>, b: seq<string>)
    ensures StripCrs(a + b) == StripCrs(a) + StripCrs(b)
  {
    if a == [] {
      assert a + b == b;
    } else {
      assert (a + b)[1..] == a[1..] + b;
      StripCrsAppend(a[1..], b);
    }
  }

  lemma ReadOfPrint(lines: seq<string>)
    requires AllNewlineFree(lines)
    ensures ReadLines(Print(lines)) == StripCrs(lines)
  {
    SplitOfPrint(lines, "", false);
    assert Print(lines) + "" == Print(lines) && StripCrs(lines) + [] == StripCrs(lines);
  }

  /** A trailing carriage return is white space, so stripping it keeps the words. */
  lemma StrippedWords(line: string)
    ensures Words(StripCr(line)) == Words(line)
  {
    if StripCr(line) != line {
      TrailingSpace(StripCr(line), '\r');
      assert line == StripCr(line) + "\r";
    }
  }

  lemma {:induction false} TrailingSpace(text: string, c: char)
    requires IsSpace(c)
    ensures Words(text + [c]) == Words(text)
    decreases |text|
  {
    if text == "" {
      assert (text + [c])[1..] == "";
    } else if IsSpace(text[0]) {
      assert (text + [c])[1..] == text[1..] + [c];
      TrailingSpace(text[1..], c);
    } else {
      var k := WordEnd(text);
      WordEndExtends(text, c);
      assert (text + [c])[..k] == text[..k] && (text + [c])[k..] == text[k..] + [c];
      TrailingSpace(text[k..], c);
    }
  }

  lemma {:induction false} WordEndExtends(text: string, c: char)
    requires IsSpace(c)
    ensures WordEnd(text + [c]) == WordEnd(text)
  {
    if text != "" {
      assert (text + [c])[1..] == text[1..] + [c];
      WordEndExtends(text[1..], c);
    }
  }

  // The difference of two listings.

  function Removed(original: PackageOutPaths, current: PackageOutPaths): set<PackageArch> {
    original.Keys - current.Keys
  }

  function Added(original: PackageOutPaths, current: PackageOutPaths): set<PackageArch> {
    current.Keys - original.Keys
  }

  /** The packages whose path is new or different. */
  function Rebuilt(original: PackageOutPaths, current: PackageOutPaths): set<PackageArch> {
    set key | key in current && (key !in original || original[key] != current[key])
  }

  class OutPathDiff {
    var original: Option<PackageOutPaths>
    var current: Option<PackageOutPaths>

    constructor ()
      ensures original.None? && current.None?
    {
      original, current := None, None;
    }

    /** `listing` is what evaluating the package set yields now. */
    method FindBefore(listing: Result<PackageOutPaths, string>) returns (r: Result<(), string>)
      modifies this
      ensures current == old(current)
      ensures listing.Success? ==> r == Success(()) && original == Some(listing.value)
      ensures listing.Failure? ==> r == Failure(listing.error) && original == old(original)
    {
      if listing.Failure? {
        return Failure(listing.error);
      }
      original := Some(listing.value);
      r := Success(());
    }

    method FindAfter(listing: Result<PackageOutPaths, string>) returns (r: Result<(), string>)
      modifies this
      ensures original == old(original)
      ensures r.Failure? <==> original.Some? && listing.Failure?
      ensures current == if original.Some? && listing.Success? then Some(listing.value) else old(current)
    {
      if original.None? {
        return Success(());
      }
      if listing.Failure? {
        return Failure(listing.error);
      }
      current := Some(listing.value);
      r := Success(());
    }

    function PackageDiff(): Option<(set<PackageArch>, set<PackageArch>)> reads this {
      if current.Some? && original.Some? then
        Some((Removed(original.value, current.value), Added(original.value, current.value)))
      else None
    }

    /** Goes over the current keys in no particular order. */
    method CalculateRebuild() returns (r: Option<seq<PackageArch>>)
      ensures r.Some? <==> current.Some? && original.Some?
      ensures r.Some? ==>
                && (set key | key in r.value) == Rebuilt(original.value, current.value)
                && forall i, j :: 0 <= i < j < |r.value| ==> r.value[i] != r.value[j]
    {
      if current.None? || original.None? {
        return None;
      }
      var rebuild, keys := [], current.value.Keys;
      while keys != {}
        invariant keys <= current.value.Keys
        invariant forall key :: key in rebuild <==> key in Rebuilt(original.value, current.value) && key !in keys
        invariant forall i, j :: 0 <= i < j < |rebuild| ==> rebuild[i] != rebuild[j]
        decreases keys
      {
        var key :| key in keys;
        keys := keys - {key};
        if key !in original.value || original.value[key] != current.value[key] {
          rebuild := rebuild + [key];
        }
      }
      r := Some(rebuild);
    }
  }

  /** Dropping some keys, then setting others to their current value. */
  function Patch(original: PackageOutPaths, dropped: set<PackageArch>, changed: set<PackageArch>,
                 current: PackageOutPaths): PackageOutPaths {
    (original - dropped) + map key | key in changed && key in current :: current[key]
  }

  /**
   * A patch turns the original into the current listing exactly when it drops
   * at least what was removed, sets at least what needs a rebuild, and sets
   * again whatever else it drops.
   */
  lemma PatchesIff(original: PackageOutPaths, current: PackageOutPaths,
                   dropped: set<PackageArch>, changed: set<PackageArch>)
    ensures Patch(original, dropped, changed, current) == current
       <==> && Removed(original, current) <= dropped
            && Rebuilt(original, current) <= changed
            && dropped * current.Keys <= changed
  {
    var patched := Patch(original, dropped, changed, current);
    if patched == current {
      forall key | key in Removed(original, current)
        ensures key in dropped
      {
        assert key !in patched;
      }
      forall key | key in Rebuilt(original, current)
        ensures key in changed
      {
        assert patched[key] == current[key];
      }
      forall key | key in dropped * current.Keys
        ensures key in changed
      {
        assert key in patched;
      }
    }
    if Removed(original, current) <= dropped && Rebuilt(original, current) <= changed
       && dropped * current.Keys <= changed {
      assert patched.Keys == current.Keys by {
        forall key
          ensures key in patched <==> key in current
        {
          if key in current && key !in changed {
            assert key !in Rebuilt(original, current);
          }
        }
      }
      forall key | key in current
        ensures patched[key] == current[key]
      {
        if key !in changed {
          assert key !in Rebuilt(original, current);
        }
      }
    }
  }

  /** The computed difference is an exact patch, and the smallest one. */
  lemma DifferenceIsMinimalPatch(original: PackageOutPaths, current: PackageOutPaths)
    ensures Patch(original, Removed(original, current), Rebuilt(original, current), current) == current
    ensures forall dropped, changed :: Patch(original, dropped, changed, current) == current ==>
              Removed(original, current) <= dropped && Rebuilt(original, current) <= changed
    ensures Added(original, current) <= Rebuilt(original, current)
    ensures Removed(original, current) !! Rebuilt(original, current)
    ensures |current| == |original| - |Removed(original, current)| + |Added(original, current)|
  {
    PatchesIff(original, current, Removed(original, current), Rebuilt(original, current));
    forall dropped, changed | Patch(original, dropped, changed, current) == current
      ensures Removed(original, current) <= dropped && Rebuilt(original, current) <= changed
    {
      PatchesIff(original, current, dropped, changed);
    }
    SizesBalance(original, current);
  }

  lemma SizesBalance(original: PackageOutPaths, current: PackageOutPaths)
    ensures |current| == |original| - |Removed(original, current)| + |Added(original, current)|
  {
    var kept := original.Keys * current.Keys;
    assert original.Keys == kept + Removed(original, current);
    assert current.Keys == kept + Added(original, current);
    assert |original.Keys| == |original| && |current.Keys| == |current|;
  }
}
