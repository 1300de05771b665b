/** Who maintains what a change rebuilds, and whether its author is such a maintainer. */
module Maintainers {
  import opened Ascii
  import opened SortedStrings
  import opened Labels

  type ImpactedMaintainers = map<string, seq<string>>

  type MaintainersByPackage = map<string, set<string>>

  /** `maintainer` maintains `package`. */
  predicate Maintains(impacted: ImpactedMaintainers, maintainer: string, package: string) {
    maintainer in impacted && package in impacted[maintainer]
  }

  /** Exactly the pairs of the relation, seen from the packages; every package has a maintainer. */
  ghost predicate Inverse(impacted: ImpactedMaintainers, bypkg: MaintainersByPackage) {
    && (forall package, maintainer :: package in bypkg && maintainer in bypkg[package] ==>
        Maintains(impacted, maintainer, package))
    && (forall package, maintainer :: Maintains(impacted, maintainer, package) ==>
        package in bypkg && maintainer in bypkg[package])
    && (forall package :: package in bypkg ==> bypkg[package] != {})
  }

  lemma NoPackagesYet(impacted: ImpactedMaintainers, maintainer: string, bypkg: MaintainersByPackage)
    requires maintainer !in impacted && Inverse(impacted, bypkg)
    ensures Inverse(impacted[maintainer := []], bypkg)
  {
    var more := impacted[maintainer := []];
    forall package, m | Maintains(more, m, package)
      ensures package in bypkg && m in bypkg[package]
    {
      assert Maintains(impacted, m, package);
    }
    forall package, m | package in bypkg && m in bypkg[package]
      ensures Maintains(more, m, package)
    {
      assert Maintains(impacted, m, package);
    }
  }

  lemma OneMoreMaintainer(impacted: ImpactedMaintainers, maintainer: string, packages: seq<string>, i: nat,
                          before: MaintainersByPackage)
    requires i < |packages| && Inverse(impacted[maintainer := packages[..i]], before)
    ensures Inverse(impacted[maintainer := packages[..i + 1]], WithMaintainer(before, packages[i], maintainer))
  {
    assert packages[..i + 1] == packages[..i] + [packages[i]];
    var after, now := WithMaintainer(before, packages[i], maintainer), impacted[maintainer := packages[..i + 1]];
    forall package, m
      ensures package in after && m in after[package] <==> Maintains(now, m, package)
    {
      assert Maintains(now, m, package)
        <==> Maintains(impacted[maintainer := packages[..i]], m, package)
             || (m == maintainer && package == packages[i]);
    }
  }

  /** `entry(package).or_insert_with(HashSet::new).insert(maintainer)`. */
  function WithMaintainer(bypkg: MaintainersByPackage, package: string, maintainer: string): MaintainersByPackage {
    bypkg[package := (if package in bypkg then bypkg[package] else {}) + {maintainer}]
  }

  /** Goes over the maintainers in no particular order. */
  method GroupByPackage(impacted: ImpactedMaintainers) returns (bypkg: MaintainersByPackage)
    ensures Inverse(impacted, bypkg)
  {
    bypkg := map[];
    var maintainers := impacted.Keys;
    ghost var seen: ImpactedMaintainers := map[];
    while maintainers != {}
      invariant maintainers <= impacted.Keys
      invariant seen == impacted - maintainers
      invariant Inverse(seen, bypkg)
      decreases maintainers
    {
      var maintainer :| maintainer in maintainers;
      maintainers := maintainers - {maintainer};
      var packages := impacted[maintainer];
      NoPackagesYet(seen, maintainer, bypkg);
      assert packages[..0] == [];
      for i := 0 to |packages|
        invariant Inverse(seen[maintainer := packages[..i]], bypkg)
      {
        OneMoreMaintainer(seen, maintainer, packages, i, bypkg);
        bypkg := WithMaintainer(bypkg, packages[i], maintainer);
      }
      assert packages[..|packages|] == packages;
      seen := seen[maintainer := packages];
    }
    assert seen == impacted;
  }

  /** The relation determines the grouping, whatever the order. */
  lemma InverseIsUnique(impacted: ImpactedMaintainers, a: MaintainersByPackage, b: MaintainersByPackage)
    requires Inverse(impacted, a) && Inverse(impacted, b)
    ensures a == b
  {
    SamePackages(impacted, a, b);
    SamePackages(impacted, b, a);
    forall package | package in a
      ensures a[package] == b[package]
    {
      forall maintainer
        ensures maintainer in a[package] <==> maintainer in b[package]
      {
        assert maintainer in a[package] <==> Maintains(impacted, maintainer, package);
      }
    }
  }

  lemma SamePackages(impacted: ImpactedMaintainers, a: MaintainersByPackage, b: MaintainersByPackage)
    requires Inverse(impacted, a) && Inverse(impacted, b)
    ensures a.Keys <= b.Keys
  {
    forall package | package in a
      ensures package in b
    {
      var maintainer :| maintainer in a[package];
      assert Maintains(impacted, maintainer, package);
    }
  }

  const MAINTAINER_TAG := "11.by: package-maintainer"

  /** The author maintains every impacted package, and there is one. */
  ghost predicate MaintainsAll(impacted: ImpactedMaintainers, submitter: string) {
    && (exists maintainer, package :: Maintains(impacted, maintainer, package))
    && (forall maintainer, package :: Maintains(impacted, maintainer, package) ==>
        Maintains(impacted, submitter, package))
  }

  class MaintainerPRTagger {
    var selected: seq<string>

    constructor ()
      ensures selected == []
    {
      selected := [];
    }

    method RecordMaintainer(prSubmitter: string, bypkg: MaintainersByPackage)
      modifies this
      ensures selected == old(selected)
              + (if bypkg != map[] && forall package :: package in bypkg ==> Lower(prSubmitter) in bypkg[package]
                 then [MAINTAINER_TAG] else [])
    {
      if bypkg == map[] {
        return;
      }
      var packages := bypkg.Keys;
      while packages != {}
        invariant packages <= bypkg.Keys && selected == old(selected)
        invariant forall package :: package in bypkg && package !in packages ==> Lower(prSubmitter) in bypkg[package]
        decreases packages
      {
        var package :| package in packages;
        packages := packages - {package};
        if Lower(prSubmitter) !in bypkg[package] {
          return;
        }
      }
      selected := selected + [MAINTAINER_TAG];
    }
  }

  lemma EveryPackageIff(impacted: ImpactedMaintainers, bypkg: MaintainersByPackage, submitter: string)
    requires Inverse(impacted, bypkg)
    ensures MaintainsAll(impacted, submitter)
       <==> bypkg != map[] && forall package :: package in bypkg ==> submitter in bypkg[package]
  {
    if bypkg != map[] && forall package :: package in bypkg ==> submitter in bypkg[package] {
      var package :| package in bypkg;
      var maintainer :| maintainer in bypkg[package];
      assert Maintains(impacted, maintainer, package);
      forall other, each | Maintains(impacted, other, each)
        ensures Maintains(impacted, submitter, each)
      {
        assert submitter in bypkg[each];
      }
    }
    if MaintainsAll(impacted, submitter) {
      var maintainer, package :| Maintains(impacted, maintainer, package);
      assert package in bypkg;
      forall each | each in bypkg
        ensures submitter in bypkg[each]
      {
        var other :| other in bypkg[each];
        assert Maintains(impacted, other, each);
      }
    }
  }

  /** The maintainer label is added exactly when the author maintains every impacted package; it is never removed. */
  method RecordImpactedMaintainers(issue: Issue, submitter: string, impacted: ImpactedMaintainers) returns (ok: bool)
    modifies issue
    ensures issue.Reliable() ==> ok
    ensures ok ==> issue.labels == old(issue.labels)
                                   + (if MaintainsAll(impacted, Lower(submitter)) then {MAINTAINER_TAG} else {})
    ensures SameOutside({MAINTAINER_TAG}, old(issue.labels), issue.labels)
  {
    var bypkg := GroupByPackage(impacted);
    var tagger := new MaintainerPRTagger();
    tagger.RecordMaintainer(submitter, bypkg);
    EveryPackageIff(impacted, bypkg, Lower(submitter));
    ghost var before := issue.labels;
    ok := issue.UpdateLabels(tagger.selected, []);
    OutsideMore(Elements(tagger.selected) + Elements([]), {MAINTAINER_TAG}, before, issue.labels);
  }
}
