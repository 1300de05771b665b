/** The label updates of one evaluation: each ends with exactly its own labels recomputed. */
module LabelUpdates {
  import opened Wrappers
  import opened SortedStrings
  import opened Labels
  import opened OutPaths
  import opened Taggers

  /** A list to remove that is the rest of the possible labels leaves just the selected ones. */
  lemma Synchronised(labels: set<string>, possible: set<string>, selected: seq<string>, remove: seq<string>)
    requires Elements(selected) <= possible && Distinct(remove) && Elements(remove) == possible - Elements(selected)
    ensures Distinct(Present(remove, labels, true))
    ensures Elements(selected) + Elements(remove) == possible
    ensures Updated(labels, Elements(selected), Elements(remove)) == (labels - possible) + Elements(selected)
  {
    PresentKeepsDistinct(remove, labels, true);
  }

  method TagFromPaths(issue: Issue, tagPaths: map<string, seq<string>>, changedPaths: seq<string>) returns (ok: bool)
    modifies issue
    ensures issue.Reliable() ==> ok
    ensures ok ==> issue.labels == (old(issue.labels) - tagPaths.Keys) + Matching(tagPaths, changedPaths)
    ensures SameOutside(tagPaths.Keys, old(issue.labels), issue.labels)
  {
    var tagger := new PathsTagger(tagPaths);
    for i := 0 to |changedPaths|
      invariant tagger.Valid() && fresh(tagger) && tagger.possible == tagPaths && tagger.changed == changedPaths[..i]
      invariant issue.labels == old(issue.labels)
    {
      assert changedPaths[..i + 1] == changedPaths[..i] + [changedPaths[i]];
      tagger.PathChanged(changedPaths[i]);
    }
    assert changedPaths[..|changedPaths|] == changedPaths;
    var remove := tagger.TagsToRemove();
    if remove.None? {
      return false;
    }
    Synchronised(issue.labels, tagPaths.Keys, tagger.selected, remove.value);
    ok := issue.UpdateLabels(tagger.selected, remove.value);
  }

  ghost function ChangedTags(linux: bool, darwin: bool): set<string> {
    (if linux then {LINUX_STDENV} else {}) + (if darwin then {DARWIN_STDENV} else {})
  }

  lemma TagsOfChange(changed: seq<System>)
    requires forall i, j :: 0 <= i < j < |changed| ==> changed[i] != changed[j]
    ensures Distinct(StdenvTags(changed))
    ensures Elements(StdenvTags(changed)) == ChangedTags(X8664Linux in changed, X8664Darwin in changed)
    ensures StdenvTags([]) == []
  {
    TagsOfDistinct(changed);
  }

  method UpdateStdenvLabels(issue: Issue, stdenvs: Stdenvs) returns (ok: bool)
    modifies issue
    ensures issue.Reliable() ==> ok
    ensures ok ==>
              issue.labels == (old(issue.labels) - AllStdenvTags())
                              + ChangedTags(stdenvs.linuxBefore != stdenvs.linuxAfter,
                                            stdenvs.darwinBefore != stdenvs.darwinAfter)
    ensures SameOutside(AllStdenvTags(), old(issue.labels), issue.labels)
  {
    var tagger := new StdenvTagger();
    var changed := stdenvs.Changed();
    TagsOfChange(changed);
    if changed != [] {
      var panicked := tagger.Changed(changed);
      assert tagger.selected == StdenvTags(changed);
      if panicked {
        return false;
      }
    }
    var remove := tagger.TagsToRemove();
    if remove.None? {
      return false;
    }
    Synchronised(issue.labels, AllStdenvTags(), tagger.selected, remove.value);
    ok := issue.UpdateLabels(tagger.selected, remove.value);
  }

  /** Nothing is removed: the clean-up label is too vague for that. */
  method UpdateNewPackageLabels(issue: Issue, removed: set<PackageArch>, added: set<PackageArch>) returns (ok: bool)
    modifies issue
    ensures issue.Reliable() ==> ok
    ensures ok ==> issue.labels == old(issue.labels) + (if removed != {} then {CLEAN_UP} else {})
                                                     + (if added != {} then {NEW_PACKAGE} else {})
    ensures SameOutside({CLEAN_UP, NEW_PACKAGE}, old(issue.labels), issue.labels)
  {
    var tagger := new PkgsAddedRemovedTagger();
    tagger.Changed(removed, added);
    ghost var before := issue.labels;
    ok := issue.UpdateLabels(tagger.selected, []);
    OutsideMore(Elements(tagger.selected) + Elements([]), {CLEAN_UP, NEW_PACKAGE}, before, issue.labels);
  }

  ghost function AllRebuildTags(): set<string> {
    Elements(Prefixed(DARWIN, BUCKETS) + Prefixed(LINUX, BUCKETS))
  }

  lemma DistinctBuckets()
    ensures Distinct(BUCKETS)
  {
  }

  lemma DistinctPrefixed(prefix: string, names: seq<string>)
    requires Distinct(names)
    ensures Distinct(Prefixed(prefix, names))
  {
    forall i, j | 0 <= i < j < |names|
      ensures prefix + names[i] != prefix + names[j]
    {
      assert (prefix + names[i])[|prefix|..] == names[i] && (prefix + names[j])[|prefix|..] == names[j];
    }
  }

  lemma DistinctRebuildTags()
    ensures Distinct(Prefixed(DARWIN, BUCKETS) + Prefixed(LINUX, BUCKETS))
  {
    DistinctBuckets();
    DistinctPrefixed(DARWIN, BUCKETS);
    DistinctPrefixed(LINUX, BUCKETS);
    NoLinuxInDarwin(BUCKETS, BUCKETS);
    DistinctAppend(Prefixed(DARWIN, BUCKETS), Prefixed(LINUX, BUCKETS));
  }

  /** Without a listing of both sides every rebuild label is removed. */
  method UpdateRebuildLabels(issue: Issue, attrs: Option<seq<PackageArch>>) returns (ok: bool)
    modifies issue
    ensures issue.Reliable() ==> ok
    ensures SameOutside(AllRebuildTags(), old(issue.labels), issue.labels)
    ensures ok && attrs.None? ==> issue.labels == old(issue.labels) - AllRebuildTags()
    ensures ok && attrs.Some? ==>
      issue.labels == (old(issue.labels) - AllRebuildTags())
                      + Elements(RebuildTags(Count(attrs.value, "x86_64-darwin"), Count(attrs.value, "x86_64-linux")))
  {
    var tagger := new RebuildTagger();
    if attrs.Some? {
      var panicked := tagger.ParseAttrs(attrs.value);
      if panicked {
        return false;
      }
      TagsArePossible(Count(attrs.value, "x86_64-darwin"), Count(attrs.value, "x86_64-linux"));
    }
    var remove := tagger.TagsToRemove();
    DistinctRebuildTags();
    PresentKeepsDistinct(tagger.possible, Elements(tagger.selected), false);
    Synchronised(issue.labels, AllRebuildTags(), tagger.selected, remove);
    ok := issue.UpdateLabels(tagger.selected, remove);
  }

  /** A rebuild label is on the issue exactly when its written range covers the count of its system. */
  lemma RebuildLabelsTellTheCounts(labels: set<string>, darwin: nat, linux: nat, range: string)
    requires range in BUCKETS
    ensures var after := (labels - AllRebuildTags()) + Elements(RebuildTags(darwin, linux));
            && (DARWIN + range in after <==> Covers(range, darwin))
            && (LINUX + range in after <==> Covers(range, linux))
  {
    BucketIsWhatCovers(darwin);
    BucketIsWhatCovers(linux);
    assert SelectsWhatCovers(range, darwin) && SelectsWhatCovers(range, linux);
    NoLinuxInDarwin(BUCKETS, BUCKETS);
    NoLinuxInDarwin(BUCKETS, Bucket(linux));
    NoLinuxInDarwin(Bucket(darwin), BUCKETS);
    InPrefixed(DARWIN, BUCKETS, range);
    InPrefixed(LINUX, BUCKETS, range);
    InPrefixed(DARWIN, Bucket(darwin), range);
    InPrefixed(LINUX, Bucket(linux), range);
  }
}
