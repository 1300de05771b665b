/** Where the log collector stores the files of one build attempt. */
module LogPaths {
  import opened Wrappers
  import opened TextLines

  datatype LogFrom = LogFrom(routingKey: string, attemptId: string)

  /** `std::path::Component` on Unix. */
  datatype Component = RootDir | CurDir | ParentDir | Normal(name: string)

  type Path = seq<Component>

  datatype PathError = NoComponents | InvalidComponents | OutsideRoot

  datatype Artifact = Log | Metadata | BuildResult

  function SplitOn(text: string, separator: char): (pieces: seq<string>)
    ensures pieces != []
  {
    if text == "" then [""]
    else
      var pieces := SplitOn(text[1..], separator);
      if text[0] == separator then [""] + pieces
      else [[text[0]] + pieces[0]] + pieces[1..]
  }

  /** Empty pieces and "." vanish inside a path. */
  function Inner(pieces: seq<string>): Path {
    if pieces == [] then []
    else
      (if pieces[0] == "" || pieces[0] == "." then []
       else if pieces[0] == ".." then [ParentDir]
       else [Normal(pieces[0])]) + Inner(pieces[1..])
  }

  function Components(path: string): Path {
    var pieces := SplitOn(path, '/');
    (if path != "" && path[0] == '/' then [RootDir]
     else if pieces[0] == "." then [CurDir]
     else []) + Inner(pieces)
  }

  predicate AllNormal(path: Path) {
    forall i :: 0 <= i < |path| ==> path[i].Normal?
  }

  function ValidatePathSegment(segment: string): Result<(), PathError> {
    if Components(segment) == [] then Failure(NoComponents)
    else if AllNormal(Components(segment)) then Success(())
    else Failure(InvalidComponents)
  }

  /** Pushing an absolute path replaces what was there. */
  function Push(path: Path, segment: string): Path {
    if RootDir in Components(segment) then Components(segment) else path + Components(segment)
  }

  function PathForLog(root: Path, from: LogFrom): Result<Path, PathError> {
    var routing := ValidatePathSegment(from.routingKey);
    if routing.Failure? then Failure(routing.error)
    else
      var attempt := ValidatePathSegment(from.attemptId);
      if attempt.Failure? then Failure(attempt.error)
      else
        var location := Push(Push(root, from.routingKey), from.attemptId);
        if root <= location then Success(location) else Failure(OutsideRoot)
  }

  /** `file_stem`: the name up to its last dot, unless that dot is the first character. */
  function Stem(name: string): string {
    var k := LastDot(name);
    if k == 0 then name else name[..k]
  }

  function SetExtension(path: Path, extension: string): Path {
    if path == [] || !path[|path| - 1].Normal? then path
    else path[..|path| - 1] + [Normal(Stem(path[|path| - 1].name) + ("." + extension))]
  }

  function Extension(artifact: Artifact): string {
    match artifact
    case Log => ""
    case Metadata => "metadata.json"
    case BuildResult => "result.json"
  }

  /** A file of the attempt whose log is at the path. */
  function FileBeside(log: Path, artifact: Artifact): Path {
    if artifact.Log? then log else SetExtension(log, Extension(artifact))
  }

  function PathFor(root: Path, from: LogFrom, artifact: Artifact): Result<Path, PathError> {
    var log := PathForLog(root, from);
    if log.Failure? then log else Success(FileBeside(log.value, artifact))
  }

  /** A usable log location is the root followed by the two segments; the last check never fails. */
  lemma PathStaysUnderRoot(root: Path, from: LogFrom)
    ensures PathForLog(root, from).Success?
       <==> ValidatePathSegment(from.routingKey).Success? && ValidatePathSegment(from.attemptId).Success?
    ensures PathForLog(root, from).Success? ==>
              PathForLog(root, from).value == root + Components(from.routingKey) + Components(from.attemptId)
    ensures PathForLog(root, from) != Failure(OutsideRoot)
  {
    var location := root + Components(from.routingKey) + Components(from.attemptId);
    assert location == root + (Components(from.routingKey) + Components(from.attemptId));
  }

  function Names(path: Path): seq<string>
    requires AllNormal(path)
  {
    if path == [] then [] else [path[0].name] + Names(path[1..])
  }

  function Normals(names: seq<string>): Path {
    if names == [] then [] else [Normal(names[0])] + Normals(names[1..])
  }

  predicate ValidName(name: string) {
    name != "" && name != "." && name != ".." && '/' !in name
  }

  /** A segment spelled the one way that its components print. */
  ghost predicate Canonical(segment: string) {
    && ValidatePathSegment(segment).Success?
    && segment == Join(Names(Components(segment)), "/")
  }

  lemma SplitOfPiece(piece: string, separator: char, rest: string)
    requires separator !in piece
    ensures SplitOn(piece, separator) == [piece]
    ensures SplitOn(piece + [separator] + rest, separator) == [piece] + SplitOn(rest, separator)
  {
    var text := piece + [separator] + rest;
    if piece == "" {
      assert text[1..] == rest;
    } else {
      assert text[1..] == piece[1..] + [separator] + rest;
      assert piece == [piece[0]] + piece[1..];
      SplitOfPiece(piece[1..], separator, rest);
    }
  }

  lemma SplitOfJoin(names: seq<string>)
    requires names != []
    requires forall i :: 0 <= i < |names| ==> '/' !in names[i]
    ensures SplitOn(Join(names, "/"), '/') == names
  {
    if |names| == 1 {
      SplitOfPiece(names[0], '/', "");
    } else {
      SplitOfJoin(names[1..]);
      SplitOfPiece(names[0], '/', Join(names[1..], "/"));
    }
  }

  lemma {:induction false} InnerOfValidNames(names: seq<string>)
    requires ValidNames(names)
    ensures Inner(names) == Normals(names)
  {
    if names != [] {
      assert ValidName(names[0]);
      InnerOfValidNames(names[1..]);
    }
  }

  lemma {:induction false} NamesOfNormals(names: seq<string>)
    ensures AllNormal(Normals(names))
    ensures Names(Normals(names)) == names
    ensures |Normals(names)| == |names|
  {
    if names != [] {
      NamesOfNormals(names[1..]);
    }
  }

  /** Joining valid names with "/" gives a canonical segment with just those components. */
  lemma JoinIsCanonical(names: seq<string>)
    requires names != []
    requires ValidNames(names)
    ensures Components(Join(names, "/")) == Normals(names)
    ensures Canonical(Join(names, "/"))
  {
    var path := Join(names, "/");
    assert SplitOn(path, '/') == names by {
      SplitOfJoin(names);
    }
    assert path != "" && path[0] == names[0][0] != '/';
    InnerOfValidNames(names);
    NamesOfNormals(names);
  }

  /** Keys as the builders produce them: a plain routing key, and one dot-free name as the attempt. */
  ghost predicate ValidKey(from: LogFrom) {
    && Canonical(from.routingKey)
    && ValidName(from.attemptId)
    && '.' !in from.attemptId
  }

  lemma AttemptIsOneComponent(id: string)
    requires ValidName(id)
    ensures Components(id) == [Normal(id)]
    ensures ValidatePathSegment(id).Success?
  {
    JoinIsCanonical([id]);
    assert Join([id], "/") == id;
    assert Normals([id][1..]) == [];
  }

  function Suffix(artifact: Artifact): string {
    if artifact.Log? then "" else "." + Extension(artifact)
  }

  function FileName(id: string, artifact: Artifact): string {
    if artifact.Log? then id else Stem(id) + ("." + Extension(artifact))
  }

  lemma PathForValid(root: Path, from: LogFrom, artifact: Artifact)
    requires ValidatePathSegment(from.routingKey).Success? && ValidName(from.attemptId)
    ensures PathFor(root, from, artifact)
         == Success(root + Components(from.routingKey) + [Normal(FileName(from.attemptId, artifact))])
  {
    AttemptIsOneComponent(from.attemptId);
    PathStaysUnderRoot(root, from);
    var dir := root + Components(from.routingKey);
    var log := dir + [Normal(from.attemptId)];
    assert log[..|log| - 1] == dir;
  }

  lemma FirstDotSplits(a: string, b: string, restA: string, restB: string)
    requires '.' !in a && '.' !in b
    requires restA == "" || restA[0] == '.'
    requires restB == "" || restB[0] == '.'
    requires a + restA == b + restB
    ensures a == b && restA == restB
  {
    var text := a + restA;
    assert forall i :: 0 <= i < |a| ==> text[i] == a[i];
    assert forall i :: 0 <= i < |b| ==> text[i] == b[i];
    assert restA != "" ==> text[|a|] == '.';
    assert restB != "" ==> text[|b|] == '.';
    assert (a + restA)[..|a|] == (b + restB)[..|a|];
    assert (a + restA)[|a|..] == (b + restB)[|a|..];
  }

  lemma FileNameOfDotFree(id: string, artifact: Artifact)
    requires '.' !in id
    ensures FileName(id, artifact) == id + Suffix(artifact)
  {
    assert id + "" == id;
  }

  lemma SuffixesDiffer(a1: Artifact, a2: Artifact)
    requires Suffix(a1) == Suffix(a2)
    ensures a1 == a2
  {
    assert |Extension(Metadata)| == 13 && |Extension(BuildResult)| == 11;
  }

  lemma FileNamesAreDistinct(id1: string, a1: Artifact, id2: string, a2: Artifact)
    requires '.' !in id1 && '.' !in id2
    requires FileName(id1, a1) == FileName(id2, a2)
    ensures id1 == id2 && a1 == a2
  {
    FileNameOfDotFree(id1, a1);
    FileNameOfDotFree(id2, a2);
    FirstDotSplits(id1, id2, Suffix(a1), Suffix(a2));
    SuffixesDiffer(a1, a2);
  }

  lemma SamePathSameParts(root: Path, dir1: Path, last1: Component, dir2: Path, last2: Component)
    requires root + dir1 + [last1] == root + dir2 + [last2]
    ensures dir1 == dir2 && last1 == last2
  {
    var p1, p2 := root + dir1 + [last1], root + dir2 + [last2];
    assert |dir1| == |dir2|;
    assert dir1 == p1[|root|..|root| + |dir1|];
    assert dir2 == p2[|root|..|root| + |dir2|];
    assert p1[|p1| - 1] == last1 && p2[|p2| - 1] == last2;
  }

  /** Distinct valid keys, and the three files of one key, never share a path. */
  lemma PathsAreDistinct(root: Path, k1: LogFrom, a1: Artifact, k2: LogFrom, a2: Artifact)
    requires ValidKey(k1) && ValidKey(k2)
    requires PathFor(root, k1, a1) == PathFor(root, k2, a2)
    ensures k1 == k2 && a1 == a2
  {
    PathForValid(root, k1, a1);
    PathForValid(root, k2, a2);
    var n1, n2 := FileName(k1.attemptId, a1), FileName(k2.attemptId, a2);
    SamePathSameParts(root, Components(k1.routingKey), Normal(n1), Components(k2.routingKey), Normal(n2));
    FileNamesAreDistinct(k1.attemptId, a1, k2.attemptId, a2);
  }

  /** With dots in attempt ids, metadata files of one routing key collide exactly when the stems do. */
  lemma MetadataCollidesIff(root: Path, routingKey: string, id1: string, id2: string)
    requires ValidatePathSegment(routingKey).Success? && ValidName(id1) && ValidName(id2)
    ensures PathFor(root, LogFrom(routingKey, id1), Metadata) == PathFor(root, LogFrom(routingKey, id2), Metadata)
       <==> Stem(id1) == Stem(id2)
  {
    PathForValid(root, LogFrom(routingKey, id1), Metadata);
    PathForValid(root, LogFrom(routingKey, id2), Metadata);
    var dir := Components(routingKey);
    var n1, n2 := FileName(id1, Metadata), FileName(id2, Metadata);
    if root + dir + [Normal(n1)] == root + dir + [Normal(n2)] {
      SamePathSameParts(root, dir, Normal(n1), dir, Normal(n2));
      CancelSuffix(Stem(id1), Stem(id2), "." + Extension(Metadata));
    }
  }

  function Segments(from: LogFrom): Path {
    Components(from.routingKey) + Components(from.attemptId)
  }

  lemma SegmentsAreNames(from: LogFrom)
    requires ValidatePathSegment(from.routingKey).Success? && ValidatePathSegment(from.attemptId).Success?
    ensures Segments(from) != [] && AllNormal(Segments(from))
  {
  }

  lemma PathOfSegments(root: Path, from: LogFrom, artifact: Artifact)
    requires ValidatePathSegment(from.routingKey).Success? && ValidatePathSegment(from.attemptId).Success?
    ensures PathFor(root, from, artifact) == Success(FileBeside(root + Segments(from), artifact))
  {
    PathStaysUnderRoot(root, from);
    AssociatePaths(root, Components(from.routingKey), Components(from.attemptId));
  }

  lemma AssociatePaths(a: Path, b: Path, c: Path)
    ensures a + b + c == a + (b + c)
  {
  }

  /** Where the files of any valid segments lie: beside each other, named after the last component. */
  lemma PathForSegments(root: Path, from: LogFrom, artifact: Artifact)
    requires ValidatePathSegment(from.routingKey).Success? && ValidatePathSegment(from.attemptId).Success?
    ensures Segments(from) != [] && AllNormal(Segments(from))
    ensures PathFor(root, from, artifact)
         == Success(root + DropLast(Segments(from)) + [Normal(FileName(Last(Segments(from)).name, artifact))])
  {
    SegmentsAreNames(from);
    PathOfSegments(root, from, artifact);
    BesideRenamesLast(root, Segments(from), artifact);
  }

  lemma BesideRenamesLast(root: Path, p: Path, artifact: Artifact)
    requires p != [] && AllNormal(p)
    ensures FileBeside(root + p, artifact) == root + DropLast(p) + [Normal(FileName(Last(p).name, artifact))]
  {
    assert root + p == root + DropLast(p) + [Last(p)];
    SetExtensionOf(root + DropLast(p), Last(p), Extension(artifact));
  }

  lemma SetExtensionOf(dir: Path, last: Component, extension: string)
    requires last.Normal?
    ensures SetExtension(dir + [last], extension) == dir + [Normal(Stem(last.name) + ("." + extension))]
  {
    var path := dir + [last];
    assert path[..|path| - 1] == dir;
  }

  function Last(path: Path): Component
    requires path != []
  {
    path[|path| - 1]
  }

  function DropLast(path: Path): Path
    requires path != []
  {
    path[..|path| - 1]
  }

  /** When two components and kinds make one file name. */
  predicate SameFileName(name1: string, a1: Artifact, name2: string, a2: Artifact) {
    if a1.Log? && a2.Log? then name1 == name2
    else if a1.Log? then name1 == Stem(name2) + ("." + Extension(a2))
    else if a2.Log? then name2 == Stem(name1) + ("." + Extension(a1))
    else a1 == a2 && Stem(name1) == Stem(name2)
  }

  lemma FileNamesMeetIff(name1: string, a1: Artifact, name2: string, a2: Artifact)
    ensures FileName(name1, a1) == FileName(name2, a2) <==> SameFileName(name1, a1, name2, a2)
  {
    var f1, f2 := FileName(name1, a1), FileName(name2, a2);
    if !a1.Log? && !a2.Log? && f1 == f2 {
      assert |Extension(Metadata)| == 13 && |Extension(BuildResult)| == 11;
      assert f1[|f1| - 6] == Extension(a1)[|Extension(a1)| - 6];
      assert f2[|f2| - 6] == Extension(a2)[|Extension(a2)| - 6];
      CancelSuffix(Stem(name1), Stem(name2), "." + Extension(a1));
    }
  }

  /** However two keys are spelled, they share a path exactly when directory and file name agree. */
  lemma PathsMeetIff(root: Path, k1: LogFrom, a1: Artifact, k2: LogFrom, a2: Artifact)
    requires ValidatePathSegment(k1.routingKey).Success? && ValidatePathSegment(k1.attemptId).Success?
    requires ValidatePathSegment(k2.routingKey).Success? && ValidatePathSegment(k2.attemptId).Success?
    ensures var p1, p2 := Segments(k1), Segments(k2);
            && p1 != [] && p2 != [] && AllNormal(p1) && AllNormal(p2)
            && (PathFor(root, k1, a1) == PathFor(root, k2, a2)
                <==> DropLast(p1) == DropLast(p2) && SameFileName(Last(p1).name, a1, Last(p2).name, a2))
  {
    PathForSegments(root, k1, a1);
    PathForSegments(root, k2, a2);
    var p1, p2 := Segments(k1), Segments(k2);
    var n1, n2 := FileName(Last(p1).name, a1), FileName(Last(p2).name, a2);
    FileNamesMeetIff(Last(p1).name, a1, Last(p2).name, a2);
    if root + DropLast(p1) + [Normal(n1)] == root + DropLast(p2) + [Normal(n2)] {
      SamePathSameParts(root, DropLast(p1), Normal(n1), DropLast(p2), Normal(n2));
    }
  }

  /** Two keys share a log exactly when their components, taken together, are the same. */
  lemma LogsMeetIff(root: Path, k1: LogFrom, k2: LogFrom)
    requires ValidatePathSegment(k1.routingKey).Success? && ValidatePathSegment(k1.attemptId).Success?
    requires ValidatePathSegment(k2.routingKey).Success? && ValidatePathSegment(k2.attemptId).Success?
    ensures PathFor(root, k1, Log) == PathFor(root, k2, Log) <==> Segments(k1) == Segments(k2)
  {
    PathOfSegments(root, k1, Log);
    PathOfSegments(root, k2, Log);
    CancelRoot(root, Segments(k1), Segments(k2));
  }

  lemma CancelRoot(root: Path, p1: Path, p2: Path)
    ensures root + p1 == root + p2 <==> p1 == p2
  {
    assert p1 == (root + p1)[|root|..] && p2 == (root + p2)[|root|..];
  }

  lemma {:induction false} NormalsAppend(a: seq<string>, b: seq<string>)
    ensures Normals(a + b) == Normals(a) + Normals(b)
  {
    if a == [] {
      assert a + b == b;
    } else {
      assert (a + b)[1..] == a[1..] + b;
      NormalsAppend(a[1..], b);
    }
  }

  predicate ValidNames(names: seq<string>) {
    forall i :: 0 <= i < |names| ==> ValidName(names[i])
  }

  lemma JoinedSegments(from: LogFrom, key: seq<string>, attempt: seq<string>)
    requires key != [] && attempt != [] && ValidNames(key) && ValidNames(attempt)
    requires from == LogFrom(Join(key, "/"), Join(attempt, "/"))
    ensures ValidatePathSegment(from.routingKey).Success? && ValidatePathSegment(from.attemptId).Success?
    ensures Segments(from) == Normals(key) + Normals(attempt)
  {
    JoinIsCanonical(key);
    JoinIsCanonical(attempt);
  }

  /** Names may as well end the key as begin the attempt: all three files are shared. */
  lemma NamesMoveOver(root: Path, key: seq<string>, names: seq<string>, attempt: seq<string>, artifact: Artifact,
                      k1: LogFrom, k2: LogFrom)
    requires key != [] && attempt != [] && ValidNames(key) && ValidNames(names) && ValidNames(attempt)
    requires k1 == LogFrom(Join(key, "/"), Join(names + attempt, "/"))
    requires k2 == LogFrom(Join(key + names, "/"), Join(attempt, "/"))
    ensures PathFor(root, k1, artifact).Success? && PathFor(root, k1, artifact) == PathFor(root, k2, artifact)
  {
    JoinedSegments(k1, key, names + attempt);
    JoinedSegments(k2, key + names, attempt);
    NormalsAppend(key, names);
    NormalsAppend(names, attempt);
    AssociatePaths(Normals(key), Normals(names), Normals(attempt));
    SameSegmentsSamePaths(root, k1, k2, artifact);
  }

  lemma SameSegmentsSamePaths(root: Path, k1: LogFrom, k2: LogFrom, artifact: Artifact)
    requires ValidatePathSegment(k1.routingKey).Success? && ValidatePathSegment(k1.attemptId).Success?
    requires ValidatePathSegment(k2.routingKey).Success? && ValidatePathSegment(k2.attemptId).Success?
    requires Segments(k1) == Segments(k2)
    ensures PathFor(root, k1, artifact).Success? && PathFor(root, k1, artifact) == PathFor(root, k2, artifact)
  {
    PathOfSegments(root, k1, artifact);
    PathOfSegments(root, k2, artifact);
  }

  lemma FileNameIsValid(id: string, artifact: Artifact)
    requires ValidName(id) && !artifact.Log?
    ensures ValidName(FileName(id, artifact))
  {
    var extension := "." + Extension(artifact);
    assert |extension| > 2 && '/' !in extension && '/' !in Stem(id);
    assert FileName(id, artifact) == Stem(id) + extension;
  }

  lemma StemGrows(stem: string, extension: string)
    requires |extension| > 5 && extension[|extension| - 5..] == ".json"
    ensures |Stem(stem + extension)| > |stem|
  {
    var name := stem + extension;
    assert name[|name| - 5..] == ".json";
    assert forall i :: |name| - 5 < i < |name| ==> name[i] == ".json"[i - (|name| - 5)];
    assert name[|name| - 5] == ".json"[0];
    assert LastDot(name) == |name| - 5;
  }

  lemma FileNameDiffers(id: string, artifact: Artifact)
    requires !artifact.Log?
    ensures FileName(id, artifact) != id
  {
    var extension := "." + Extension(artifact);
    assert |extension| > 5 && extension[|extension| - 5..] == ".json";
    StemGrows(Stem(id), extension);
  }

  /** Every attempt's metadata and result lie where an attempt of that name would keep its log. */
  lemma LogOverMetadata(root: Path, from: LogFrom, artifact: Artifact)
    requires ValidatePathSegment(from.routingKey).Success? && ValidName(from.attemptId) && !artifact.Log?
    ensures var other := LogFrom(from.routingKey, FileName(from.attemptId, artifact));
            && other != from
            && PathFor(root, other, Log).Success? && PathFor(root, other, Log) == PathFor(root, from, artifact)
  {
    var name := FileName(from.attemptId, artifact);
    FileNameIsValid(from.attemptId, artifact);
    PathForValid(root, LogFrom(from.routingKey, name), Log);
    PathForValid(root, from, artifact);
    FileNameDiffers(from.attemptId, artifact);
  }

  lemma CancelSuffix(a: string, b: string, suffix: string)
    requires a + suffix == b + suffix
    ensures a == b
  {
    assert |a| == |b|;
    assert a == (a + suffix)[..|a|] && b == (b + suffix)[..|b|];
  }
}
