/** The taggers: which labels a change selects, and which of the possible ones it leaves out. */
module Taggers {
  import opened Wrappers
  import opened SortedStrings
  import opened Labels
  import opened OutPaths

  // Labels by changed path.

  predicate Contains(text: string, part: string) {
    |part| <= |text| && (text[..|part|] == part || Contains(text[1..], part))
  }

  predicate Matches(criteria: seq<string>, path: string) {
    exists i :: 0 <= i < |criteria| && Contains(path, criteria[i])
  }

  /** The tags with a criterion contained in some path. */
  function Matching(possible: map<string, seq<string>>, paths: seq<string>): set<string> {
    set tag, i | tag in possible && 0 <= i < |paths| && Matches(possible[tag], paths[i]) :: tag
  }

  class PathsTagger {
    const possible: map<string, seq<string>>
    var selected: seq<string>
    ghost var changed: seq<string>

    ghost predicate Valid() reads this {
      Sorted(selected) && Distinct(selected) && Elements(selected) == Matching(possible, changed)
    }

    constructor (criteria: map<string, seq<string>>)
      ensures Valid() && possible == criteria && changed == [] && selected == []
    {
      possible, selected, changed := criteria, [], [];
    }

    /** Goes over the possible tags in no particular order. */
    method PathChanged(path: string)
      requires Valid()
      modifies this
      ensures Valid() && changed == old(changed) + [path]
    {
      var tagsToAdd, tags := [], possible.Keys;
      while tags != {}
        invariant tags <= possible.Keys
        invariant forall tag ::
                    tag in tagsToAdd
                    <==> tag in possible && tag !in tags && tag !in selected && Matches(possible[tag], path)
        invariant Distinct(tagsToAdd)
        decreases tags
      {
        var tag :| tag in tags;
        tags := tags - {tag};
        if tag !in selected && Matches(possible[tag], path) {
          tagsToAdd := tagsToAdd + [tag];
        }
      }
      ghost var all := selected + tagsToAdd;
      OneMorePath(possible, changed, path);
      assert forall tag :: tag in selected ==> tag in Elements(selected);
      SelectedBy(possible, path, selected, tagsToAdd);
      SortSorts(all);
      DistinctPermutation(all, Sort(all));
      selected, changed := Sort(selected + tagsToAdd), changed + [path];
    }

    method TagsToRemove() returns (r: Option<seq<string>>)
      requires Valid()
      ensures r.Some? && Sorted(r.value) && Distinct(r.value)
      ensures Elements(r.value) == possible.Keys - Matching(possible, changed)
    {
      var remove, tags := [], possible.Keys;
      while tags != {}
        invariant tags <= possible.Keys
        invariant Distinct(remove) && Elements(remove) == possible.Keys - tags
        decreases tags
      {
        var tag :| tag in tags;
        tags := tags - {tag};
        assert tag !in Elements(remove);
        OneMore(remove, tag);
        remove := remove + [tag];
      }
      SortSorts(remove);
      DistinctPermutation(remove, Sort(remove));
      remove := Sort(remove);
      RemovalOfDistinct(remove, selected);
      r := RemoveEach(remove, selected);
      DistinctDifference(remove, selected, r.value);
    }
  }

  lemma SelectedBy(possible: map<string, seq<string>>, path: string, selected: seq<string>, added: seq<string>)
    requires Distinct(selected) && Distinct(added)
    requires forall tag :: tag in added <==> tag in possible && tag !in selected && Matches(possible[tag], path)
    requires forall tag :: tag in selected ==> tag in possible
    ensures Distinct(selected + added)
    ensures Elements(selected + added) == Elements(selected) + Matching(possible, [path])
  {
    assert forall j :: 0 <= j < |added| ==> added[j] in added;
    forall tag
      ensures tag in Matching(possible, [path]) <==> tag in possible && Matches(possible[tag], path)
    {
      if tag in possible && Matches(possible[tag], path) {
        assert Matches(possible[tag], [path][0]);
      }
    }
  }

  lemma OneMorePath(possible: map<string, seq<string>>, paths: seq<string>, path: string)
    ensures Matching(possible, paths + [path]) == Matching(possible, paths) + Matching(possible, [path])
  {
    forall tag
      ensures tag in Matching(possible, paths + [path])
         <==> tag in Matching(possible, paths) + Matching(possible, [path])
    {
      if tag in Matching(possible, paths) {
        var i :| 0 <= i < |paths| && Matches(possible[tag], paths[i]);
        assert Matches(possible[tag], (paths + [path])[i]);
      }
      if tag in Matching(possible, [path]) {
        assert Matches(possible[tag], [path][0]) && (paths + [path])[|paths|] == path;
      }
      if tag in Matching(possible, paths + [path]) {
        var i :| 0 <= i <= |paths| && Matches(possible[tag], (paths + [path])[i]);
        assert if i < |paths| then Matches(possible[tag], paths[i]) else Matches(possible[tag], [path][0]);
      }
    }
  }

  /** Two taggers told of the same paths, in any order and number, select the same list. */
  lemma SelectionIgnoresOrder(possible: map<string, seq<string>>, paths: seq<string>, others: seq<string>,
                              selected: seq<string>, otherwise: seq<string>)
    requires Sorted(selected) && Distinct(selected) && Elements(selected) == Matching(possible, paths)
    requires Sorted(otherwise) && Distinct(otherwise) && Elements(otherwise) == Matching(possible, others)
    requires forall path :: path in paths <==> path in others
    ensures selected == otherwise
  {
    MatchingOfElements(possible, paths, others);
    MatchingOfElements(possible, others, paths);
    SortedDistinctIsUnique(selected, otherwise);
  }

  lemma MatchingOfElements(possible: map<string, seq<string>>, paths: seq<string>, others: seq<string>)
    requires forall path :: path in paths ==> path in others
    ensures Matching(possible, paths) <= Matching(possible, others)
  {
    forall tag | tag in Matching(possible, paths)
      ensures tag in Matching(possible, others)
    {
      var i :| 0 <= i < |paths| && Matches(possible[tag], paths[i]);
      assert paths[i] in others;
      var j :| 0 <= j < |others| && others[j] == paths[i];
      assert Matches(possible[tag], others[j]);
    }
  }

  // Labels by standard environment.

  datatype System = X8664Darwin | X8664Linux

  class Stdenvs {
    var linuxBefore: Option<string>
    var linuxAfter: Option<string>
    var darwinBefore: Option<string>
    var darwinAfter: Option<string>

    constructor ()
      ensures linuxBefore == linuxAfter == darwinBefore == darwinAfter == None
    {
      linuxBefore, linuxAfter, darwinBefore, darwinAfter := None, None, None, None;
    }

    method IdentifyBefore(linux: Option<string>, darwin: Option<string>)
      modifies this
      ensures linuxBefore == linux && darwinBefore == darwin
      ensures linuxAfter == old(linuxAfter) && darwinAfter == old(darwinAfter)
    {
      linuxBefore := linux;
      darwinBefore := darwin;
    }

    method IdentifyAfter(linux: Option<string>, darwin: Option<string>)
      modifies this
      ensures linuxAfter == linux && darwinAfter == darwin
      ensures linuxBefore == old(linuxBefore) && darwinBefore == old(darwinBefore)
    {
      linuxAfter := linux;
      darwinAfter := darwin;
    }

    method Changed() returns (changed: seq<System>)
      ensures X8664Linux in changed <==> linuxBefore != linuxAfter
      ensures X8664Darwin in changed <==> darwinBefore != darwinAfter
      ensures forall i, j :: 0 <= i < j < |changed| ==> changed[i] != changed[j]
    {
      changed := [];
      if linuxBefore != linuxAfter {
        changed := changed + [X8664Linux];
      }
      if darwinBefore != darwinAfter {
        changed := changed + [X8664Darwin];
      }
    }
  }

  const DARWIN_STDENV := "10.rebuild-darwin-stdenv"
  const LINUX_STDENV := "10.rebuild-linux-stdenv"

  function StdenvTag(system: System): string {
    match system
    case X8664Darwin => DARWIN_STDENV
    case X8664Linux => LINUX_STDENV
  }

  function StdenvTags(systems: seq<System>): (r: seq<string>)
    ensures |r| == |systems|
  {
    seq(|systems|, i requires 0 <= i < |systems| => StdenvTag(systems[i]))
  }

  ghost function AllStdenvTags(): set<string> {
    {StdenvTag(X8664Darwin), StdenvTag(X8664Linux)}
  }

  class StdenvTagger {
    const possible: seq<string>
    var selected: seq<string>

    ghost predicate Valid() reads this {
      && Sorted(possible) && Distinct(possible) && Elements(possible) == AllStdenvTags()
      && Elements(selected) <= AllStdenvTags()
    }

    constructor ()
      ensures Valid() && selected == []
    {
      SortSorts([LINUX_STDENV, DARWIN_STDENV]);
      DifferentTags();
      DistinctPermutation([LINUX_STDENV, DARWIN_STDENV], Sort([LINUX_STDENV, DARWIN_STDENV]));
      possible, selected := Sort([LINUX_STDENV, DARWIN_STDENV]), [];
    }

    /** The panic on an impossible label cannot happen. */
    method Changed(systems: seq<System>) returns (panicked: bool)
      requires Valid()
      modifies this
      ensures Valid() && selected == old(selected) + StdenvTags(systems)
      ensures !panicked
    {
      for i := 0 to |systems|
        invariant Valid() && selected == old(selected) + StdenvTags(systems[..i])
      {
        NextTag(selected, systems, i);
        selected := selected + [StdenvTag(systems[i])];
      }
      assert systems[..|systems|] == systems;
      for i := 0 to |selected|
        invariant Valid() && selected == old(selected) + StdenvTags(systems)
      {
        assert selected[i] in Elements(selected) && selected[i] in Elements(possible);
        if selected[i] !in possible {
          return true;
        }
      }
      panicked := false;
    }

    /** The `unwrap` fails exactly when a label was selected twice. */
    method TagsToRemove() returns (r: Option<seq<string>>)
      requires Valid()
      ensures r.Some? <==> Distinct(selected)
      ensures r.Some? ==> Distinct(r.value) && Elements(r.value) == AllStdenvTags() - Elements(selected)
    {
      if Distinct(selected) {
        RemovalOfDistinct(possible, selected);
      } else {
        RemovalNeedsDistinct(possible, selected);
      }
      r := RemoveEach(possible, selected);
      if r.Some? {
        DistinctDifference(possible, selected, r.value);
      }
    }
  }

  lemma NextTag(selected: seq<string>, systems: seq<System>, i: nat)
    requires i < |systems|
    ensures StdenvTags(systems[..i + 1]) == StdenvTags(systems[..i]) + [StdenvTag(systems[i])]
    ensures Elements(selected + [StdenvTag(systems[i])]) == Elements(selected) + {StdenvTag(systems[i])}
    ensures StdenvTag(systems[i]) in AllStdenvTags()
  {
    OneMore(selected, StdenvTag(systems[i]));
  }

  lemma DifferentTags()
    ensures DARWIN_STDENV != LINUX_STDENV
    ensures Elements([LINUX_STDENV, DARWIN_STDENV]) == AllStdenvTags()
  {
    assert DARWIN_STDENV[12] != LINUX_STDENV[12];
  }

  lemma TagsOfDistinct(systems: seq<System>)
    requires forall i, j :: 0 <= i < j < |systems| ==> systems[i] != systems[j]
    ensures Distinct(StdenvTags(systems))
    ensures Elements(StdenvTags(systems)) == set system | system in systems :: StdenvTag(system)
  {
    DifferentTags();
    var tags := StdenvTags(systems);
    forall tag | tag in set system | system in systems :: StdenvTag(system)
      ensures tag in tags
    {
      var system :| system in systems && StdenvTag(system) == tag;
      var i :| 0 <= i < |systems| && systems[i] == system;
      assert tags[i] == tag;
    }
  }

  // Labels by packages that appear and disappear.

  const CLEAN_UP := "8.has: clean-up"
  const NEW_PACKAGE := "8.has: package (new)"

  class PkgsAddedRemovedTagger {
    var selected: seq<string>

    constructor ()
      ensures selected == []
    {
      selected := [];
    }

    method Changed(removed: set<PackageArch>, added: set<PackageArch>)
      modifies this
      ensures selected
           == old(selected) + (if removed != {} then [CLEAN_UP] else []) + (if added != {} then [NEW_PACKAGE] else [])
    {
      if removed != {} {
        selected := selected + [CLEAN_UP];
      }
      if added != {} {
        selected := selected + [NEW_PACKAGE];
      }
    }
  }

  // Labels by number of rebuilds.

  const BUCKETS := ["0", "1-10", "11-100", "101-500", "501+", "501-1000", "1001-2500", "2501-5000", "5001+"]

  function Bucket(count: nat): seq<string> {
    if count > 5000 then ["501+", "5001+"]
    else if count > 2500 then ["501+", "2501-5000"]
    else if count > 1000 then ["501+", "1001-2500"]
    else if count > 500 then ["501+", "501-1000"]
    else if count > 100 then ["101-500"]
    else if count > 10 then ["11-100"]
    else if count > 0 then ["1-10"]
    else ["0"]
  }

  /** The number a string of digits writes. */
  function Number(digits: string): int {
    if digits == "" then 0
    else
      var n := |digits| - 1;
      10 * Number(digits[..n]) + digits[n] as int - '0' as int
  }

  function DashAt(text: string): (k: nat)
    ensures k <= |text|
  {
    if text == "" || text[0] == '-' then 0 else DashAt(text[1..]) + 1
  }

  /** How a range is read: "a+" is at least a, "a-b" is from a to b, "a" is a alone. */
  ghost predicate Covers(range: string, count: nat) {
    if range != "" && range[|range| - 1] == '+' then Number(range[..|range| - 1]) <= count
    else if DashAt(range) < |range| then
      Number(range[..DashAt(range)]) <= count <= Number(range[DashAt(range) + 1..])
    else Number(range) == count
  }

  lemma OneDigit(a: char)
    ensures Number([a]) == a as int - '0' as int
  {
    assert [a][..0] == "";
  }

  lemma TwoDigits(a: char, b: char)
    ensures Number([a, b]) == 10 * (a as int - '0' as int) + b as int - '0' as int
  {
    OneDigit(a);
    assert [a, b][..1] == [a];
  }

  lemma ThreeDigits(a: char, b: char, c: char)
    ensures Number([a, b, c]) == 100 * (a as int - '0' as int) + 10 * (b as int - '0' as int) + c as int - '0' as int
  {
    TwoDigits(a, b);
    assert [a, b, c][..2] == [a, b];
  }

  lemma FourDigits(a: char, b: char, c: char, d: char)
    ensures Number([a, b, c, d]) == 1000 * (a as int - '0' as int) + 100 * (b as int - '0' as int)
                                    + 10 * (c as int - '0' as int) + d as int - '0' as int
  {
    ThreeDigits(a, b, c);
    assert [a, b, c, d][..3] == [a, b, c];
  }

  lemma Dash(a: string, b: string)
    requires '-' !in a
    ensures DashAt(a + "-" + b) == |a|
  {
    if a == "" {
      assert a + "-" + b == "-" + b;
    } else {
      assert (a + "-" + b)[1..] == a[1..] + "-" + b;
      Dash(a[1..], b);
    }
  }

  lemma CoversFromTo(range: string, a: string, b: string, count: nat)
    requires range == a + "-" + b && '-' !in a && b != "" && b[|b| - 1] != '+'
    ensures Covers(range, count) <==> Number(a) <= count <= Number(b)
  {
    Dash(a, b);
    assert range[|range| - 1] == b[|b| - 1];
    assert range[..|a|] == a && range[|a| + 1..] == b;
  }

  lemma CoversFrom(range: string, a: string, count: nat)
    requires range == a + "+"
    ensures Covers(range, count) <==> Number(a) <= count
  {
    assert range[..|a|] == a;
  }

  lemma SmallNumbers()
    ensures Number("0") == 0 && Number("1") == 1 && Number("10") == 10 && Number("11") == 11
  {
    OneDigit('0');
    OneDigit('1');
    TwoDigits('1', '0');
    TwoDigits('1', '1');
  }

  lemma Hundreds()
    ensures Number("100") == 100 && Number("101") == 101 && Number("500") == 500 && Number("501") == 501
  {
    ThreeDigits('1', '0', '0');
    ThreeDigits('1', '0', '1');
    ThreeDigits('5', '0', '0');
    ThreeDigits('5', '0', '1');
    assert "100" == ['1', '0', '0'] && "101" == ['1', '0', '1'];
    assert "500" == ['5', '0', '0'] && "501" == ['5', '0', '1'];
  }

  lemma Thousands()
    ensures Number("1000") == 1000 && Number("1001") == 1001
    ensures Number("2500") == 2500 && Number("2501") == 2501
  {
    FourDigits('1', '0', '0', '0');
    FourDigits('1', '0', '0', '1');
    FourDigits('2', '5', '0', '0');
    FourDigits('2', '5', '0', '1');
    assert "1000" == ['1', '0', '0', '0'] && "1001" == ['1', '0', '0', '1'];
    assert "2500" == ['2', '5', '0', '0'] && "2501" == ['2', '5', '0', '1'];
  }

  lemma FiveThousand()
    ensures Number("5000") == 5000 && Number("5001") == 5001
  {
    FourDigits('5', '0', '0', '0');
    FourDigits('5', '0', '0', '1');
    assert "5000" == ['5', '0', '0', '0'] && "5001" == ['5', '0', '0', '1'];
  }

  lemma SmallRanges(count: nat)
    ensures Covers("0", count) <==> count == 0
    ensures Covers("1-10", count) <==> 1 <= count <= 10
    ensures Covers("11-100", count) <==> 11 <= count <= 100
  {
    SmallNumbers();
    Hundreds();
    assert DashAt("0") == 1;
    CoversFromTo("1-10", "1", "10", count);
    CoversFromTo("11-100", "11", "100", count);
  }

  lemma MiddleRanges(count: nat)
    ensures Covers("101-500", count) <==> 101 <= count <= 500
    ensures Covers("501-1000", count) <==> 501 <= count <= 1000
  {
    Hundreds();
    Thousands();
    CoversFromTo("101-500", "101", "500", count);
    CoversFromTo("501-1000", "501", "1000", count);
  }

  lemma LargeRanges(count: nat)
    ensures Covers("1001-2500", count) <==> 1001 <= count <= 2500
    ensures Covers("2501-5000", count) <==> 2501 <= count <= 5000
  {
    Thousands();
    FiveThousand();
    CoversFromTo("1001-2500", "1001", "2500", count);
    CoversFromTo("2501-5000", "2501", "5000", count);
  }

  lemma OpenRanges(count: nat)
    ensures Covers("501+", count) <==> 501 <= count
    ensures Covers("5001+", count) <==> 5001 <= count
  {
    Hundreds();
    FiveThousand();
    CoversFrom("501+", "501", count);
    CoversFrom("5001+", "5001", count);
  }

  lemma BucketsArePossible(count: nat)
    ensures forall range :: range in Bucket(count) ==> range in BUCKETS
  {
  }

  /** Membership of each label, up to 500 */
  lemma FewIn(count: nat)
    requires count <= 500
    ensures "0" in Bucket(count) <==> count == 0
    ensures "1-10" in Bucket(count) <==> 1 <= count <= 10
    ensures "11-100" in Bucket(count) <==> 11 <= count <= 100
    ensures "101-500" in Bucket(count) <==> 101 <= count
    ensures "501+" !in Bucket(count) && "501-1000" !in Bucket(count) && "1001-2500" !in Bucket(count)
    ensures "2501-5000" !in Bucket(count) && "5001+" !in Bucket(count)
  {
  }

  /** and above. */
  lemma ManyIn(count: nat)
    requires count > 500
    ensures "0" !in Bucket(count) && "1-10" !in Bucket(count)
    ensures "11-100" !in Bucket(count) && "101-500" !in Bucket(count)
    ensures "501+" in Bucket(count)
    ensures "501-1000" in Bucket(count) <==> count <= 1000
    ensures "1001-2500" in Bucket(count) <==> 1001 <= count <= 2500
    ensures "2501-5000" in Bucket(count) <==> 2501 <= count <= 5000
    ensures "5001+" in Bucket(count) <==> 5001 <= count
  {
  }

  ghost predicate SelectsWhatCovers(range: string, count: nat) {
    range in Bucket(count) <==> Covers(range, count)
  }

  lemma SmallBuckets(count: nat)
    ensures SelectsWhatCovers("0", count) && SelectsWhatCovers("1-10", count) && SelectsWhatCovers("11-100", count)
  {
    SmallRanges(count);
    if count <= 500 { FewIn(count); } else { ManyIn(count); }
  }

  lemma MiddleBuckets(count: nat)
    ensures SelectsWhatCovers("101-500", count) && SelectsWhatCovers("501-1000", count)
  {
    MiddleRanges(count);
    if count <= 500 { FewIn(count); } else { ManyIn(count); }
  }

  lemma LargeBuckets(count: nat)
    ensures SelectsWhatCovers("1001-2500", count) && SelectsWhatCovers("2501-5000", count)
  {
    LargeRanges(count);
    if count <= 500 { FewIn(count); } else { ManyIn(count); }
  }

  lemma OpenBuckets(count: nat)
    ensures SelectsWhatCovers("501+", count) && SelectsWhatCovers("5001+", count)
  {
    OpenRanges(count);
    if count <= 500 { FewIn(count); } else { ManyIn(count); }
  }

  /** A count selects exactly the labels whose written range it lies in. */
  lemma BucketIsWhatCovers(count: nat)
    ensures forall range :: range in BUCKETS ==> SelectsWhatCovers(range, count)
  {
    SmallBuckets(count);
    MiddleBuckets(count);
    LargeBuckets(count);
    OpenBuckets(count);
  }

  const DARWIN := "10.rebuild-darwin: "
  const LINUX := "10.rebuild-linux: "

  function Prefixed(prefix: string, names: seq<string>): (r: seq<string>)
    ensures |r| == |names|
  {
    seq(|names|, i requires 0 <= i < |names| => prefix + names[i])
  }

  function Count(attrs: seq<PackageArch>, arch: string): nat {
    if attrs == [] then 0
    else
      var n := |attrs| - 1;
      Count(attrs[..n], arch) + if attrs[n].architecture == arch then 1 else 0
  }

  function RebuildTags(darwin: nat, linux: nat): seq<string> {
    Prefixed(DARWIN, Bucket(darwin)) + Prefixed(LINUX, Bucket(linux))
  }

  class RebuildTagger {
    const possible: seq<string>
    var selected: seq<string>

    ghost predicate Valid() reads this {
      possible == Prefixed(DARWIN, BUCKETS) + Prefixed(LINUX, BUCKETS)
    }

    constructor ()
      ensures Valid() && selected == []
    {
      possible, selected := Prefixed(DARWIN, BUCKETS) + Prefixed(LINUX, BUCKETS), [];
    }

    /** The panic on an impossible label cannot happen. */
    method ParseAttrs(attrs: seq<PackageArch>) returns (panicked: bool)
      requires Valid()
      modifies this
      ensures Valid() && !panicked
      ensures selected == RebuildTags(Count(attrs, "x86_64-darwin"), Count(attrs, "x86_64-linux"))
    {
      var counterDarwin, counterLinux := 0, 0;
      for i := 0 to |attrs|
        invariant counterDarwin == Count(attrs[..i], "x86_64-darwin")
        invariant counterLinux == Count(attrs[..i], "x86_64-linux")
      {
        assert attrs[..i + 1][..i] == attrs[..i];
        match attrs[i].architecture
        case "x86_64-darwin" => counterDarwin := counterDarwin + 1;
        case "x86_64-linux" => counterLinux := counterLinux + 1;
        case _ => // other and unknown architectures have no labels
      }
      assert attrs[..|attrs|] == attrs;
      selected := Prefixed(DARWIN, Bucket(counterDarwin)) + Prefixed(LINUX, Bucket(counterLinux));
      TagsArePossible(counterDarwin, counterLinux);
      for i := 0 to |selected| {
        assert selected[i] in Elements(selected) && selected[i] in Elements(possible);
        if selected[i] !in possible {
          return true;
        }
      }
      panicked := false;
    }

    method TagsToRemove() returns (remove: seq<string>)
      requires Valid()
      ensures remove == Present(possible, Elements(selected), false)
    {
      remove := [];
      for i := 0 to |possible|
        invariant remove == Present(possible[..i], Elements(selected), false)
      {
        PresentStep(possible, i, Elements(selected));
        if possible[i] !in selected {
          remove := remove + [possible[i]];
        }
      }
      assert possible[..|possible|] == possible;
    }
  }

  lemma PresentStep(possible: seq<string>, i: nat, labels: set<string>)
    requires i < |possible|
    ensures Present(possible[..i + 1], labels, false)
         == Present(possible[..i], labels, false) + if possible[i] in labels then [] else [possible[i]]
  {
    assert possible[..i + 1][..i] == possible[..i];
  }

  lemma InPrefixed(prefix: string, names: seq<string>, name: string)
    ensures prefix + name in Prefixed(prefix, names) <==> name in names
  {
    if prefix + name in Prefixed(prefix, names) {
      var i :| 0 <= i < |names| && prefix + names[i] == prefix + name;
      assert (prefix + name)[|prefix|..] == name && (prefix + names[i])[|prefix|..] == names[i];
    }
    if name in names {
      var i :| 0 <= i < |names| && names[i] == name;
      assert Prefixed(prefix, names)[i] == prefix + name;
    }
  }

  lemma NoLinuxInDarwin(names: seq<string>, others: seq<string>)
    ensures forall x :: x in Prefixed(DARWIN, names) ==> x !in Prefixed(LINUX, others)
  {
    forall x | x in Prefixed(DARWIN, names)
      ensures x !in Prefixed(LINUX, others)
    {
      assert x[11] == 'd';
      assert forall y :: y in Prefixed(LINUX, others) ==> y[11] == 'l';
    }
  }

  lemma TagsArePossible(darwin: nat, linux: nat)
    ensures Elements(RebuildTags(darwin, linux)) <= Elements(Prefixed(DARWIN, BUCKETS) + Prefixed(LINUX, BUCKETS))
  {
    BucketsArePossible(darwin);
    BucketsArePossible(linux);
    Included(DARWIN, Bucket(darwin), BUCKETS);
    Included(LINUX, Bucket(linux), BUCKETS);
  }

  lemma Included(prefix: string, some: seq<string>, all: seq<string>)
    requires forall name :: name in some ==> name in all
    ensures forall x :: x in Prefixed(prefix, some) ==> x in Prefixed(prefix, all)
  {
    forall x | x in Prefixed(prefix, some)
      ensures x in Prefixed(prefix, all)
    {
      var i :| 0 <= i < |some| && Prefixed(prefix, some)[i] == x;
      assert some[i] in some;
      InPrefixed(prefix, all, some[i]);
    }
  }
}
