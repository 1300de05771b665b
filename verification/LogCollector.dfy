/**
 * `LogMessageCollector`: the files of many build attempts, written through a
 * bounded cache of open writers that drops the least recently used one.
 */
module LogCollecting {
  import opened Wrappers
  import opened TextLines
  import opened LineWriting
  import opened LogPaths

  /** A cached writer on the file at `path`; the file's content lives in the store. */
  datatype Handle = Handle(from: LogFrom, path: Path, writer: Cached)

  datatype Cached = Cached(cursor: nat, buffer: seq<string>, lastLine: nat)

  /** `body` stands for the JSON text of the message. */
  datatype MsgType = Start(body: string) | Msg(lineNumber: nat, output: string) | Finish(body: string)

  datatype LogMessage = LogMessage(from: LogFrom, message: MsgType)

  /** `Unopenable` is a directory that cannot be made, which panics at once, or a file that cannot be opened. */
  datatype HandleError = BadPath(error: PathError) | Unopenable | JustInsertedMissing

  /** `handles` runs from least to most recently used. */
  datatype Collector = Collector(root: Path, maxOpen: nat, handles: seq<Handle>, files: map<Path, string>)

  datatype Delivery = Acked(state: Collector) | Panicked

  /** Position of the cached handle of a key, or the length if there is none. */
  function Find(handles: seq<Handle>, from: LogFrom): (i: nat)
    ensures i <= |handles|
    ensures i < |handles| ==> handles[i].from == from
    ensures forall j :: 0 <= j < i ==> handles[j].from != from
  {
    if handles == [] || handles[0].from == from then 0 else Find(handles[1..], from) + 1
  }

  function FileAt(files: map<Path, string>, path: Path): string {
    if path in files then files[path] else ""
  }

  /** A file where the path needs a directory, or a directory where it needs its file. */
  predicate Blocked(files: map<Path, string>, path: Path) {
    exists other :: other in files && (other < path || path < other)
  }

  /** Marking a handle as the most recently used. */
  function Refresh(handles: seq<Handle>, i: nat): seq<Handle>
    requires i < |handles|
  {
    handles[..i] + handles[i + 1..] + [handles[i]]
  }

  /** Inserting into the cache; the oldest entry goes when it is over capacity. */
  function Insert(handles: seq<Handle>, maxOpen: nat, handle: Handle): seq<Handle> {
    var grown := handles + [handle];
    if |grown| > maxOpen then grown[1..] else grown
  }

  /** On success the key's handle is the last, most recently used one. */
  function HandleFor(c: Collector, from: LogFrom): Result<Collector, HandleError> {
    var i := Find(c.handles, from);
    if i < |c.handles| then Success(c.(handles := Refresh(c.handles, i)))
    else
      var path := PathForLog(c.root, from);
      if path.Failure? then Failure(BadPath(path.error))
      else if Blocked(c.files, path.value) then Failure(Unopenable)
      else
        var content := FileAt(c.files, path.value);
        var w := Open(content, true);
        var handle := Handle(from, path.value, CachedPart(w));
        var handles := Insert(c.handles, c.maxOpen, handle);
        var j := Find(handles, from);
        if j < |handles| then
          Success(c.(handles := Refresh(handles, j), files := c.files[path.value := content]))
        else Failure(JustInsertedMissing)
  }

  function CachedPart(w: Writer): Cached {
    Cached(w.file.cursor, w.buffer, w.lastLine)
  }

  /** The writer that a cached part is, on a file opened for appending. */
  function WriterOf(content: string, cached: Cached): Writer {
    Writer(File(content, cached.cursor, true), cached.buffer, cached.lastLine)
  }

  /** Writing through the most recently used handle. */
  function WriteLast(c: Collector, line: nat, data: string): Delivery
    requires c.handles != []
  {
    var n := |c.handles| - 1;
    var h := c.handles[n];
    var r := Write(WriterOf(FileAt(c.files, h.path), h.writer), line, data);
    if r.SlicePanic? then Panicked
    else
      Acked(c.(handles := c.handles[n := h.(writer := CachedPart(r.writer))],
               files := c.files[h.path := r.writer.file.content]))
  }

  function AppendTo(c: Collector, from: LogFrom, artifact: Artifact, body: string): Delivery {
    var path := PathFor(c.root, from, artifact);
    if path.Failure? || Blocked(c.files, path.value) then Panicked
    else Acked(c.(files := c.files[path.value := FileAt(c.files, path.value) + body]))
  }

  function Deliver(c: Collector, m: LogMessage): Delivery {
    match m.message
    case Start(body) => AppendTo(c, m.from, Metadata, body)
    case Finish(body) => AppendTo(c, m.from, BuildResult, body)
    case Msg(lineNumber, output) =>
      var r := HandleFor(c, m.from);
      if r.Failure? || r.value.handles == [] || lineNumber == 0 then Panicked
      else WriteLast(r.value, lineNumber - 1, output)
  }

  function DeliverAll(c: Collector, messages: seq<LogMessage>): Delivery
    decreases |messages|
  {
    if messages == [] then Acked(c)
    else
      var r := Deliver(c, messages[0]);
      if r.Panicked? then r else DeliverAll(r.state, messages[1..])
  }

  class LogMessageCollector {
    const root: Path
    const maxOpen: nat
    var handles: seq<Handle>
    var files: map<Path, string>

    function View(): Collector reads this {
      Collector(root, maxOpen, handles, files)
    }

    constructor (root: Path, maxOpen: nat, files: map<Path, string>)
      ensures View() == Collector(root, maxOpen, [], files)
    {
      this.root, this.maxOpen, this.handles, this.files := root, maxOpen, [], files;
    }

    method OpenHandle(from: LogFrom) returns (r: Result<(), HandleError>)
      modifies this
      ensures r.Success? == HandleFor(old(View()), from).Success?
      ensures r.Success? ==> View() == HandleFor(old(View()), from).value
      ensures r.Failure? ==> HandleFor(old(View()), from) == Failure(r.error)
    {
      var i := Find(handles, from);
      if i < |handles| {
        handles := Refresh(handles, i);
      } else {
        var path := PathForLog(root, from);
        if path.Failure? {
          return Failure(BadPath(path.error));
        }
        if Blocked(files, path.value) {
          return Failure(Unopenable);
        }
        var content := FileAt(files, path.value);
        files := files[path.value := content];
        var w := Open(content, true);
        handles := Insert(handles, maxOpen, Handle(from, path.value, CachedPart(w)));
        i := Find(handles, from);
        if i == |handles| {
          return Failure(JustInsertedMissing);
        }
        handles := Refresh(handles, i);
      }
      r := Success(());
    }

    method Consumer(job: LogMessage) returns (panicked: bool)
      modifies this
      ensures panicked == Deliver(old(View()), job).Panicked?
      ensures !panicked ==> View() == Deliver(old(View()), job).state
    {
      match job.message
      case Start(body) =>
        panicked := AppendFile(job.from, Metadata, body);
      case Finish(body) =>
        panicked := AppendFile(job.from, BuildResult, body);
      case Msg(lineNumber, output) =>
        var r := OpenHandle(job.from);
        if r.Failure? || handles == [] || lineNumber == 0 {
          return true;
        }
        panicked := WriteToLastHandle(lineNumber - 1, output);
    }

    method WriteToLastHandle(line: nat, data: string) returns (panicked: bool)
      requires handles != []
      modifies this
      ensures panicked == WriteLast(old(View()), line, data).Panicked?
      ensures !panicked ==> View() == WriteLast(old(View()), line, data).state
    {
      var n := |handles| - 1;
      var h := handles[n];
      var written := Write(WriterOf(FileAt(files, h.path), h.writer), line, data);
      if written.SlicePanic? {
        return true;
      }
      handles := handles[n := h.(writer := CachedPart(written.writer))];
      files := files[h.path := written.writer.file.content];
      panicked := false;
    }

    method AppendFile(from: LogFrom, artifact: Artifact, body: string) returns (panicked: bool)
      modifies this
      ensures panicked == AppendTo(old(View()), from, artifact, body).Panicked?
      ensures !panicked ==> View() == AppendTo(old(View()), from, artifact, body).state
    {
      var path := PathFor(root, from, artifact);
      if path.Failure? || Blocked(files, path.value) {
        return true;
      }
      files := files[path.value := FileAt(files, path.value) + body];
      panicked := false;
    }
  }

  /** The "just-inserted" error needs a cache of capacity zero. */
  lemma JustInsertedMissingIff(c: Collector, from: LogFrom)
    requires |c.handles| <= c.maxOpen
    ensures HandleFor(c, from) == Failure(JustInsertedMissing)
       <==> && c.maxOpen == 0 && PathForLog(c.root, from).Success?
            && !Blocked(c.files, PathForLog(c.root, from).value)
  {
    if PathForLog(c.root, from).Success? && Find(c.handles, from) == |c.handles| {
      var w := Open(FileAt(c.files, PathForLog(c.root, from).value), true);
      var handle := Handle(from, PathForLog(c.root, from).value, CachedPart(w));
      var handles := Insert(c.handles, c.maxOpen, handle);
      if c.maxOpen > 0 {
        assert handles[|handles| - 1] == handle;
      }
    }
  }

  // What each file should hold.

  /** The intended lines of every attempt's log. */
  type Intents = LogFrom -> Intent

  /** The line writes that a key's messages ask for, in order. */
  function OpsFor(from: LogFrom, messages: seq<LogMessage>): seq<Op> {
    if messages == [] then []
    else
      var m := messages[0];
      (if m.from == from && IsWrite(m.message) then [OpOf(m.message)] else [])
      + OpsFor(from, messages[1..])
  }

  /** Line numbers start at one, and every key is as the builders make it. */
  ghost predicate WellFormed(messages: seq<LogMessage>) {
    forall i :: 0 <= i < |messages| ==>
      ValidKey(messages[i].from) && (messages[i].message.Msg? ==> IsWrite(messages[i].message))
  }

  function LogPath(root: Path, from: LogFrom): Path {
    var p := PathForLog(root, from);
    if p.Success? then p.value else []
  }

  /** A cached writer that will carry out the next steady write of the intent. */
  ghost predicate Ready(cached: Cached, intent: Intent) {
    Mirrors(WriterOf(Print(intent.lines), cached), intent)
  }

  ghost predicate HandleOk(root: Path, h: Handle, intents: Intents) {
    && ValidKey(h.from)
    && h.path == LogPath(root, h.from)
    && Ready(h.writer, intents(h.from))
  }

  /** One cached writer a key, each of them good for the key's next write. */
  ghost predicate CacheOk(root: Path, handles: seq<Handle>, intents: Intents) {
    && (forall i, j :: 0 <= i < j < |handles| ==> handles[i].from != handles[j].from)
    && (forall i :: 0 <= i < |handles| ==> HandleOk(root, handles[i], intents))
  }

  ghost predicate FileOk(c: Collector, from: LogFrom, intent: Intent) {
    && AllNewlineFree(intent.lines)
    && intent.last <= |intent.lines|
    && FileAt(c.files, LogPath(c.root, from)) == Print(intent.lines)
  }

  /** No path is below another: what a file system holds. */
  ghost predicate PrefixFree(paths: set<Path>) {
    forall a, b :: a in paths && b in paths ==> !(a < b)
  }

  /** The file a message goes to. */
  function Target(root: Path, m: LogMessage): Path {
    var artifact := match m.message case Start(_) => Metadata case Finish(_) => BuildResult case Msg(_, _) => Log;
    var path := PathFor(root, m.from, artifact);
    if path.Success? then path.value else []
  }

  function Targets(root: Path, messages: seq<LogMessage>): set<Path> {
    if messages == [] then {} else {Target(root, messages[0])} + Targets(root, messages[1..])
  }

  /** Every open log exists, and the files are ones a file system can hold. */
  ghost predicate OnDisk(c: Collector) {
    PrefixFree(c.files.Keys) && forall i :: 0 <= i < |c.handles| ==> c.handles[i].path in c.files
  }

  lemma BlockedIff(files: map<Path, string>, path: Path)
    requires PrefixFree(files.Keys)
    ensures Blocked(files, path) <==> !PrefixFree(files.Keys + {path})
  {
    if !PrefixFree(files.Keys + {path}) {
      var a, b :| a in files.Keys + {path} && b in files.Keys + {path} && a < b;
      assert a in files || b in files;
    }
    if Blocked(files, path) {
      var other :| other in files && (other < path || path < other);
      assert other in files.Keys + {path} && path in files.Keys + {path};
    }
  }

  lemma FewerPathsAreFree(some: set<Path>, all: set<Path>)
    requires some <= all && PrefixFree(all)
    ensures PrefixFree(some)
  {
  }

  /** Every file holds its intended lines, and every cached writer is good for the next write. */
  ghost predicate Consistent(c: Collector, intents: Intents) {
    && c.maxOpen >= 1
    && |c.handles| <= c.maxOpen
    && CacheOk(c.root, c.handles, intents)
    && (forall from :: ValidKey(from) ==> FileOk(c, from, intents(from)))
  }

  lemma LogPathsAreDistinct(root: Path, k1: LogFrom, k2: LogFrom, artifact: Artifact)
    requires ValidKey(k1) && ValidKey(k2)
    ensures PathForLog(root, k1).Success? && PathFor(root, k2, artifact).Success?
    ensures PathFor(root, k2, artifact).value == LogPath(root, k1) ==> artifact == Log && k1 == k2
  {
    PathForValid(root, k1, Log);
    PathForValid(root, k2, artifact);
    if PathFor(root, k2, artifact).value == LogPath(root, k1) {
      PathsAreDistinct(root, k1, Log, k2, artifact);
    }
  }

  /** The writer that `HandleFor` opens on a key's file. */
  function FreshHandle(c: Collector, from: LogFrom): Handle {
    var path := LogPath(c.root, from);
    Handle(from, path, CachedPart(Open(FileAt(c.files, path), true)))
  }

  /** Reopening a file that holds the intended lines gives a writer that is ready. */
  lemma ReopenIsReady(c: Collector, from: LogFrom, intent: Intent)
    requires FileOk(c, from, intent)
    ensures Ready(FreshHandle(c, from).writer, intent)
  {
    var text := Print(intent.lines);
    ReopenedMirrors(Writer(File(text, |text|, true), intent.lines, intent.last), intent);
  }

  /** Where refreshing took a handle from. */
  function CameFrom(n: nat, i: nat, j: nat): (k: nat)
    requires i < n && j < n
    ensures k < n
  {
    if j < i then j else if j < n - 1 then j + 1 else i
  }

  lemma RefreshMoves(handles: seq<Handle>, i: nat, j: nat)
    requires i < |handles| && j < |handles|
    ensures Refresh(handles, i)[j] == handles[CameFrom(|handles|, i, j)]
  {
  }

  lemma RefreshKeepsCacheOk(root: Path, handles: seq<Handle>, i: nat, intents: Intents)
    requires CacheOk(root, handles, intents) && i < |handles|
    ensures CacheOk(root, Refresh(handles, i), intents)
  {
    var moved, n := Refresh(handles, i), |handles|;
    forall j | 0 <= j < n
      ensures HandleOk(root, moved[j], intents)
    {
      RefreshMoves(handles, i, j);
    }
    forall j, k | 0 <= j < k < n
      ensures moved[j].from != moved[k].from
    {
      RefreshMoves(handles, i, j);
      RefreshMoves(handles, i, k);
      DifferentKeys(handles, CameFrom(n, i, j), CameFrom(n, i, k), root, intents);
    }
  }

  lemma DifferentKeys(handles: seq<Handle>, a: nat, b: nat, root: Path, intents: Intents)
    requires CacheOk(root, handles, intents) && a < |handles| && b < |handles| && a != b
    ensures handles[a].from != handles[b].from
  {
  }

  lemma DropKeepsCacheOk(root: Path, handles: seq<Handle>, intents: Intents)
    requires CacheOk(root, handles, intents) && handles != []
    ensures CacheOk(root, handles[1..], intents)
  {
  }

  lemma AddKeepsCacheOk(root: Path, handles: seq<Handle>, h: Handle, intents: Intents)
    requires CacheOk(root, handles, intents) && HandleOk(root, h, intents)
    requires forall i :: 0 <= i < |handles| ==> handles[i].from != h.from
    ensures CacheOk(root, handles + [h], intents)
  {
    forall i | 0 <= i <= |handles|
      ensures HandleOk(root, (handles + [h])[i], intents)
    {
    }
  }

  lemma FindLast(handles: seq<Handle>, n: nat)
    requires |handles| == n + 1
    requires forall i :: 0 <= i < n ==> handles[i].from != handles[n].from
    ensures Find(handles, handles[n].from) == n
  {
  }

  lemma RefreshLast(handles: seq<Handle>, n: nat)
    requires |handles| == n + 1
    ensures Refresh(handles, n) == handles
  {
  }

  lemma InsertKeepsCacheOk(root: Path, handles: seq<Handle>, maxOpen: nat, h: Handle, intents: Intents)
    requires CacheOk(root, handles, intents) && HandleOk(root, h, intents)
    requires 1 <= maxOpen && |handles| <= maxOpen && Find(handles, h.from) == |handles|
    ensures var grown := Insert(handles, maxOpen, h);
            && CacheOk(root, grown, intents)
            && 0 < |grown| <= maxOpen
            && Find(grown, h.from) == |grown| - 1
            && Refresh(grown, |grown| - 1) == grown
            && grown[|grown| - 1] == h
  {
    AddKeepsCacheOk(root, handles, h, intents);
    DropKeepsCacheOk(root, handles + [h], intents);
    InsertedLast(handles, maxOpen, h);
    LastIsFound(root, Insert(handles, maxOpen, h), intents);
  }

  lemma InsertedLast(handles: seq<Handle>, maxOpen: nat, h: Handle)
    requires 1 <= maxOpen && |handles| <= maxOpen
    ensures var grown := Insert(handles, maxOpen, h);
            0 < |grown| <= maxOpen && grown[|grown| - 1] == h
  {
  }

  lemma LastIsFound(root: Path, handles: seq<Handle>, intents: Intents)
    requires CacheOk(root, handles, intents) && handles != []
    ensures Find(handles, handles[|handles| - 1].from) == |handles| - 1
    ensures Refresh(handles, |handles| - 1) == handles
  {
    FindLast(handles, |handles| - 1);
    RefreshLast(handles, |handles| - 1);
  }

  lemma SameFilesKeepIntents(c: Collector, c': Collector, intents: Intents)
    requires forall from :: ValidKey(from) ==> FileOk(c, from, intents(from))
    requires c'.root == c.root
    requires c'.files == c.files || exists path :: c'.files == c.files[path := FileAt(c.files, path)]
    ensures forall from :: ValidKey(from) ==> FileOk(c', from, intents(from))
  {
    forall from | ValidKey(from)
      ensures FileOk(c', from, intents(from))
    {
      assert FileOk(c, from, intents(from));
    }
  }

  /** Asking for a handle fails only on a blocked path, and disturbs nothing. */
  lemma HandleForKeepsConsistent(c: Collector, from: LogFrom, intents: Intents)
    requires Consistent(c, intents) && OnDisk(c) && ValidKey(from)
    ensures HandleFor(c, from).Success? <==> !Blocked(c.files, LogPath(c.root, from))
    ensures HandleFor(c, from).Success? ==>
              var c' := HandleFor(c, from).value;
              && Consistent(c', intents) && OnDisk(c') && c'.root == c.root
              && c'.handles != [] && c'.handles[|c'.handles| - 1].from == from
              && c'.files.Keys == c.files.Keys + {LogPath(c.root, from)}
  {
    var i := Find(c.handles, from);
    if i < |c.handles| {
      RefreshKeepsCacheOk(c.root, c.handles, i, intents);
      SameFilesKeepIntents(c, HandleFor(c, from).value, intents);
      assert HandleOk(c.root, c.handles[i], intents);
      CachedIsNotBlocked(c, i);
      RefreshKeepsOnDisk(c, i);
    } else if !Blocked(c.files, LogPath(c.root, from)) {
      OpeningKeepsConsistent(c, from, intents);
      OpeningKeepsOnDisk(c, from);
    } else {
      BlockedFails(c, from);
    }
  }

  lemma CachedIsNotBlocked(c: Collector, i: nat)
    requires OnDisk(c) && i < |c.handles|
    ensures !Blocked(c.files, c.handles[i].path)
    ensures c.files.Keys + {c.handles[i].path} == c.files.Keys
  {
    assert c.files.Keys + {c.handles[i].path} == c.files.Keys;
    BlockedIff(c.files, c.handles[i].path);
  }

  lemma RefreshKeepsOnDisk(c: Collector, i: nat)
    requires OnDisk(c) && i < |c.handles|
    ensures OnDisk(c.(handles := Refresh(c.handles, i)))
  {
    forall j | 0 <= j < |c.handles|
      ensures Refresh(c.handles, i)[j].path in c.files
    {
      RefreshMoves(c.handles, i, j);
    }
  }

  lemma OpeningKeepsOnDisk(c: Collector, from: LogFrom)
    requires OnDisk(c) && !Blocked(c.files, LogPath(c.root, from))
    ensures OnDisk(Opened(c, from))
    ensures Opened(c, from).files.Keys == c.files.Keys + {LogPath(c.root, from)}
  {
    BlockedIff(c.files, LogPath(c.root, from));
    assert Opened(c, from).files.Keys == c.files.Keys + {LogPath(c.root, from)};
    var grown := c.handles + [FreshHandle(c, from)];
    assert forall i :: 0 <= i < |grown| ==> grown[i].path in Opened(c, from).files;
  }

  lemma BlockedFails(c: Collector, from: LogFrom)
    requires Find(c.handles, from) == |c.handles| && ValidKey(from) && Blocked(c.files, LogPath(c.root, from))
    ensures HandleFor(c, from).Failure?
  {
    LogPathsAreDistinct(c.root, from, from, Log);
  }

  function Opened(c: Collector, from: LogFrom): Collector {
    var path := LogPath(c.root, from);
    c.(handles := Insert(c.handles, c.maxOpen, FreshHandle(c, from)),
       files := c.files[path := FileAt(c.files, path)])
  }

  lemma HandleForOpens(c: Collector, from: LogFrom)
    requires Find(c.handles, from) == |c.handles|
    requires PathForLog(c.root, from).Success? && !Blocked(c.files, LogPath(c.root, from))
    requires var handles := Opened(c, from).handles;
             && handles != []
             && Find(handles, from) == |handles| - 1
             && Refresh(handles, |handles| - 1) == handles
    ensures HandleFor(c, from) == Success(Opened(c, from))
  {
  }

  lemma OpeningKeepsConsistent(c: Collector, from: LogFrom, intents: Intents)
    requires Consistent(c, intents) && ValidKey(from)
    requires Find(c.handles, from) == |c.handles| && !Blocked(c.files, LogPath(c.root, from))
    ensures HandleFor(c, from) == Success(Opened(c, from))
    ensures Consistent(Opened(c, from), intents)
    ensures var handles := Opened(c, from).handles;
            handles != [] && handles[|handles| - 1].from == from
  {
    var handle := FreshHandle(c, from);
    ReopenIsReady(c, from, intents(from));
    InsertKeepsCacheOk(c.root, c.handles, c.maxOpen, handle, intents);
    assert Opened(c, from).files == c.files[handle.path := FileAt(c.files, handle.path)];
    SameFilesKeepIntents(c, Opened(c, from), intents);
    LogPathsAreDistinct(c.root, from, from, Log);
    HandleForOpens(c, from);
  }

  function Updated(intents: Intents, from: LogFrom, intent: Intent): Intents {
    k => if k == from then intent else intents(k)
  }

  lemma UpdateLastKeepsCacheOk(root: Path, handles: seq<Handle>, h: Handle, intents: Intents, intent: Intent)
    requires CacheOk(root, handles, intents) && handles != []
    requires var old' := handles[|handles| - 1]; h.from == old'.from && h.path == old'.path
    requires Ready(h.writer, intent)
    ensures CacheOk(root, handles[|handles| - 1 := h], Updated(intents, h.from, intent))
  {
    var n := |handles| - 1;
    var handles' := handles[n := h];
    forall i | 0 <= i <= n
      ensures HandleOk(root, handles'[i], Updated(intents, h.from, intent)) && handles'[i].from == handles[i].from
    {
      assert HandleOk(root, handles[i], intents);
      if i < n {
        DifferentKeys(handles, i, n, root, intents);
      }
    }
    forall i, j | 0 <= i < j <= n
      ensures handles'[i].from != handles'[j].from
    {
      DifferentKeys(handles, i, j, root, intents);
    }
  }

  lemma LogUpdateKeepsIntents(c: Collector, c': Collector, from: LogFrom, intents: Intents, intent: Intent)
    requires forall k :: ValidKey(k) ==> FileOk(c, k, intents(k))
    requires ValidKey(from) && c'.root == c.root
    requires c'.files == c.files[LogPath(c.root, from) := Print(intent.lines)]
    requires AllNewlineFree(intent.lines) && intent.last <= |intent.lines|
    ensures forall k :: ValidKey(k) ==> FileOk(c', k, Updated(intents, from, intent)(k))
  {
    forall k | ValidKey(k)
      ensures FileOk(c', k, Updated(intents, from, intent)(k))
    {
      assert FileOk(c, k, intents(k));
      if k != from {
        LogPathsAreDistinct(c.root, k, from, Log);
        PathForValid(c.root, from, Log);
      }
    }
  }

  lemma WriteLastIsSteady(c: Collector, intent: Intent, op: Op)
    requires c.handles != []
    requires var h := c.handles[|c.handles| - 1];
             Ready(h.writer, intent) && FileAt(c.files, h.path) == Print(intent.lines)
    requires AllNewlineFree(intent.lines) && Steady(intent, op)
    ensures AllNewlineFree(After(intent, op).lines) && op.line <= |After(intent, op).lines|
    ensures WriteLast(c, op.line, op.data).Acked?
    ensures var c', n := WriteLast(c, op.line, op.data).state, |c.handles| - 1;
            && |c'.handles| == n + 1
            && Ready(c'.handles[n].writer, After(intent, op))
            && c' == c.(handles := c.handles[n := c.handles[n].(writer := c'.handles[n].writer)],
                        files := c.files[c.handles[n].path := Print(After(intent, op).lines)])
  {
    SteadyWrite(WriterOf(Print(intent.lines), c.handles[|c.handles| - 1].writer), intent, op);
  }

  lemma WriteLastKeepsConsistent(c: Collector, from: LogFrom, intents: Intents, op: Op)
    requires Consistent(c, intents) && c.handles != [] && c.handles[|c.handles| - 1].from == from
    requires Steady(intents(from), op)
    ensures WriteLast(c, op.line, op.data).Acked?
    ensures Consistent(WriteLast(c, op.line, op.data).state, Updated(intents, from, After(intents(from), op)))
    ensures WriteLast(c, op.line, op.data).state.root == c.root
  {
    var n := |c.handles| - 1;
    var h, intent := c.handles[n], After(intents(from), op);
    assert HandleOk(c.root, h, intents) && FileOk(c, from, intents(from));
    WriteLastIsSteady(c, intents(from), op);
    var c' := WriteLast(c, op.line, op.data).state;
    UpdateLastKeepsCacheOk(c.root, c.handles, c'.handles[n], intents, intent);
    LogUpdateKeepsIntents(c, c', from, intents, intent);
  }

  /** The write that one message asks for; line numbers start at one. */
  function OpOf(message: MsgType): Op
    requires message.Msg? && message.lineNumber > 0
  {
    Op(message.lineNumber - 1, message.output)
  }

  predicate IsWrite(message: MsgType) {
    message.Msg? && message.lineNumber > 0
  }

  /** What one message means for the intended content. */
  function Intended(intents: Intents, m: LogMessage): Intents {
    if IsWrite(m.message) then Updated(intents, m.from, After(intents(m.from), OpOf(m.message))) else intents
  }

  lemma AppendKeepsConsistent(c: Collector, from: LogFrom, artifact: Artifact, body: string, intents: Intents)
    requires Consistent(c, intents) && ValidKey(from) && artifact != Log
    requires AppendTo(c, from, artifact, body).Acked?
    ensures Consistent(AppendTo(c, from, artifact, body).state, intents)
  {
    var c' := AppendTo(c, from, artifact, body).state;
    forall k | ValidKey(k)
      ensures FileOk(c', k, intents(k))
    {
      assert FileOk(c, k, intents(k));
      LogPathsAreDistinct(c.root, k, from, artifact);
    }
  }

  lemma AppendIff(c: Collector, from: LogFrom, artifact: Artifact, body: string)
    requires OnDisk(c) && ValidKey(from)
    ensures PathFor(c.root, from, artifact).Success?
    ensures var path := PathFor(c.root, from, artifact).value;
            && (AppendTo(c, from, artifact, body).Acked? <==> !Blocked(c.files, path))
            && (AppendTo(c, from, artifact, body).Acked? ==>
                  var c' := AppendTo(c, from, artifact, body).state;
                  OnDisk(c') && c'.root == c.root && c'.files.Keys == c.files.Keys + {path})
  {
    PathForValid(c.root, from, artifact);
    var path := PathFor(c.root, from, artifact).value;
    BlockedIff(c.files, path);
    assert c.files[path := FileAt(c.files, path) + body].Keys == c.files.Keys + {path};
  }

  /** A steady message is refused exactly when its path is blocked, and keeps everything in step. */
  lemma DeliverKeepsConsistent(c: Collector, m: LogMessage, intents: Intents)
    requires Consistent(c, intents) && OnDisk(c) && ValidKey(m.from)
    requires m.message.Msg? ==> IsWrite(m.message) && Steady(intents(m.from), OpOf(m.message))
    ensures Deliver(c, m).Acked? <==> PrefixFree(c.files.Keys + {Target(c.root, m)})
    ensures Deliver(c, m).Acked? ==>
              var c' := Deliver(c, m).state;
              && Consistent(c', Intended(intents, m)) && OnDisk(c') && c'.root == c.root
              && c'.files.Keys == c.files.Keys + {Target(c.root, m)}
  {
    BlockedIff(c.files, Target(c.root, m));
    match m.message
    case Start(body) =>
      AppendIff(c, m.from, Metadata, body);
      if Deliver(c, m).Acked? {
        AppendKeepsConsistent(c, m.from, Metadata, body, intents);
      }
    case Finish(body) =>
      AppendIff(c, m.from, BuildResult, body);
      if Deliver(c, m).Acked? {
        AppendKeepsConsistent(c, m.from, BuildResult, body, intents);
      }
    case Msg(_, _) => WriteKeepsConsistent(c, m, intents);
  }

  lemma WriteKeepsConsistent(c: Collector, m: LogMessage, intents: Intents)
    requires Consistent(c, intents) && OnDisk(c) && ValidKey(m.from)
    requires IsWrite(m.message) && Steady(intents(m.from), OpOf(m.message))
    ensures Deliver(c, m).Acked? <==> !Blocked(c.files, LogPath(c.root, m.from))
    ensures Deliver(c, m).Acked? ==>
              var c' := Deliver(c, m).state;
              && Consistent(c', Updated(intents, m.from, After(intents(m.from), OpOf(m.message))))
              && OnDisk(c') && c'.root == c.root
              && c'.files.Keys == c.files.Keys + {LogPath(c.root, m.from)}
  {
    HandleForKeepsConsistent(c, m.from, intents);
    if HandleFor(c, m.from).Success? {
      var c', op := HandleFor(c, m.from).value, OpOf(m.message);
      DeliverWrites(c, m);
      WriteLastKeepsConsistent(c', m.from, intents, op);
      WriteLastKeepsOnDisk(c', op.line, op.data);
    }
  }

  lemma WriteLastKeepsOnDisk(c: Collector, line: nat, data: string)
    requires OnDisk(c) && c.handles != [] && WriteLast(c, line, data).Acked?
    ensures OnDisk(WriteLast(c, line, data).state)
    ensures WriteLast(c, line, data).state.files.Keys == c.files.Keys
  {
    var c' := WriteLast(c, line, data).state;
    assert c'.files.Keys == c.files.Keys;
    assert forall i :: 0 <= i < |c.handles| ==> c'.handles[i].path == c.handles[i].path;
  }

  lemma DeliverWrites(c: Collector, m: LogMessage)
    requires IsWrite(m.message) && HandleFor(c, m.from).Success? && HandleFor(c, m.from).value.handles != []
    ensures Deliver(c, m) == WriteLast(HandleFor(c, m.from).value, OpOf(m.message).line, OpOf(m.message).data)
  {
  }

  ghost predicate AllSteady(intents: Intents, messages: seq<LogMessage>) {
    forall k :: ValidKey(k) ==> SteadyRun(intents(k), OpsFor(k, messages))
  }

  /** Each log ends as its key's own writes, in order, make it. */
  ghost predicate AsIntended(root: Path, end: Collector, messages: seq<LogMessage>, intents: Intents) {
    forall k :: ValidKey(k) ==>
      FileAt(end.files, LogPath(root, k)) == Print(SetLines(intents(k).lines, OpsFor(k, messages)))
  }

  lemma NothingIntended(c: Collector, intents: Intents)
    requires Consistent(c, intents)
    ensures AsIntended(c.root, c, [], intents)
  {
    forall k | ValidKey(k)
      ensures FileAt(c.files, LogPath(c.root, k)) == Print(SetLines(intents(k).lines, OpsFor(k, [])))
    {
      assert FileOk(c, k, intents(k));
    }
  }

  lemma OneMoreIntended(root: Path, end: Collector, messages: seq<LogMessage>, intents: Intents)
    requires messages != [] && AllSteady(intents, messages)
    ensures AllSteady(Intended(intents, messages[0]), messages[1..])
    ensures AsIntended(root, end, messages[1..], Intended(intents, messages[0])) ==>
              AsIntended(root, end, messages, intents)
  {
    forall k | ValidKey(k)
      ensures SteadyRun(Intended(intents, messages[0])(k), OpsFor(k, messages[1..]))
      ensures SetLines(intents(k).lines, OpsFor(k, messages))
           == SetLines(Intended(intents, messages[0])(k).lines, OpsFor(k, messages[1..]))
    {
      SteadyAfterHead(intents, messages, k);
    }
  }

  /**
   * For every cache size from one up and every interleaving of steady
   * messages, the run is panic-free exactly when the files it goes to can lie
   * beside each other and those there were; and then each log ends as its
   * key's own writes, in order, make it: evicting and reopening writers leaves
   * no trace.
   */
  lemma {:induction false} EvictionLeavesNoTrace(c: Collector, messages: seq<LogMessage>, intents: Intents)
    requires Consistent(c, intents) && OnDisk(c) && WellFormed(messages) && AllSteady(intents, messages)
    ensures DeliverAll(c, messages).Acked? <==> PrefixFree(c.files.Keys + Targets(c.root, messages))
    ensures DeliverAll(c, messages).Acked? ==>
              var end := DeliverAll(c, messages).state;
              end.root == c.root && AsIntended(c.root, end, messages, intents)
    decreases |messages|
  {
    if messages == [] {
      assert c.files.Keys + Targets(c.root, messages) == c.files.Keys;
      NothingIntended(c, intents);
    } else {
      var m := messages[0];
      HeadIsSteady(intents, messages);
      DeliverKeepsConsistent(c, m, intents);
      TargetsOfHead(c, messages);
      if Deliver(c, m).Acked? {
        OneMoreIntended(c.root, c, messages, intents);
        EvictionLeavesNoTrace(Deliver(c, m).state, messages[1..], Intended(intents, m));
        OneMoreDelivery(c, messages, intents);
      }
    }
  }

  lemma OneMoreDelivery(c: Collector, messages: seq<LogMessage>, intents: Intents)
    requires messages != [] && AllSteady(intents, messages) && Deliver(c, messages[0]).Acked?
    requires var c' := Deliver(c, messages[0]).state; var r := DeliverAll(c', messages[1..]);
             && c'.root == c.root
             && (r.Acked? ==> r.state.root == c.root
                              && AsIntended(c.root, r.state, messages[1..], Intended(intents, messages[0])))
    ensures DeliverAll(c, messages) == DeliverAll(Deliver(c, messages[0]).state, messages[1..])
    ensures DeliverAll(c, messages).Acked? ==>
              var end := DeliverAll(c, messages).state;
              end.root == c.root && AsIntended(c.root, end, messages, intents)
  {
    var r := DeliverAll(Deliver(c, messages[0]).state, messages[1..]);
    OneMoreIntended(c.root, if r.Acked? then r.state else c, messages, intents);
  }

  lemma HeadIsSteady(intents: Intents, messages: seq<LogMessage>)
    requires messages != [] && WellFormed(messages) && AllSteady(intents, messages)
    ensures var m := messages[0];
            ValidKey(m.from) && (m.message.Msg? ==> IsWrite(m.message) && Steady(intents(m.from), OpOf(m.message)))
    ensures WellFormed(messages[1..])
  {
    var m := messages[0];
    assert ValidKey(m.from) && SteadyRun(intents(m.from), OpsFor(m.from, messages));
    OpsOfHead(m.from, messages);
  }

  lemma SteadyAfterHead(intents: Intents, messages: seq<LogMessage>, k: LogFrom)
    requires messages != [] && SteadyRun(intents(k), OpsFor(k, messages))
    ensures SteadyRun(Intended(intents, messages[0])(k), OpsFor(k, messages[1..]))
    ensures SetLines(intents(k).lines, OpsFor(k, messages))
         == SetLines(Intended(intents, messages[0])(k).lines, OpsFor(k, messages[1..]))
  {
    OpsOfHead(k, messages);
  }

  lemma TargetsOfHead(c: Collector, messages: seq<LogMessage>)
    requires messages != []
    ensures c.files.Keys + Targets(c.root, messages)
         == c.files.Keys + {Target(c.root, messages[0])} + Targets(c.root, messages[1..])
    ensures PrefixFree(c.files.Keys + Targets(c.root, messages)) ==>
              PrefixFree(c.files.Keys + {Target(c.root, messages[0])})
  {
    if PrefixFree(c.files.Keys + Targets(c.root, messages)) {
      FewerPathsAreFree(c.files.Keys + {Target(c.root, messages[0])}, c.files.Keys + Targets(c.root, messages));
    }
  }

  lemma OpsOfHead(from: LogFrom, messages: seq<LogMessage>)
    requires messages != []
    ensures var m, ops := messages[0], OpsFor(from, messages);
            if m.from == from && IsWrite(m.message) then
              ops != [] && ops[0] == OpOf(m.message)
              && ops[1..] == OpsFor(from, messages[1..])
            else ops == OpsFor(from, messages[1..])
  {
  }

  /** The collector before the first message, on a store of tidy files. */
  lemma FreshCollectorIsConsistent(root: Path, maxOpen: nat, files: map<Path, string>)
    requires maxOpen >= 1
    requires forall k :: ValidKey(k) ==> Tidy(FileAt(files, LogPath(root, k)))
    ensures Consistent(Collector(root, maxOpen, [], files), Existing(root, files))
  {
    var c, intents := Collector(root, maxOpen, [], files), Existing(root, files);
    forall k | ValidKey(k)
      ensures FileOk(c, k, intents(k))
    {
      PrintUndoesRead(FileAt(files, LogPath(root, k)));
    }
  }

  /** The lines that the files already hold. */
  function Existing(root: Path, files: map<Path, string>): Intents {
    k => var lines := ReadLines(FileAt(files, LogPath(root, k))); Intent(lines, |lines|)
  }

  /** Keys of one depth never get in each other's way. */
  lemma {:induction false} OneDepthHasOneLength(root: Path, messages: seq<LogMessage>, depth: nat)
    requires forall i :: 0 <= i < |messages| ==>
               ValidKey(messages[i].from) && |Components(messages[i].from.routingKey)| == depth
    ensures forall path :: path in Targets(root, messages) ==> |path| == |root| + depth + 1
  {
    if messages != [] {
      var m := messages[0];
      assert ValidKey(m.from) && |Components(m.from.routingKey)| == depth;
      PathForValid(root, m.from, Log);
      PathForValid(root, m.from, Metadata);
      PathForValid(root, m.from, BuildResult);
      OneDepthHasOneLength(root, messages[1..], depth);
    }
  }

  lemma OneDepthIsPrefixFree(root: Path, messages: seq<LogMessage>, depth: nat)
    requires forall i :: 0 <= i < |messages| ==>
               ValidKey(messages[i].from) && |Components(messages[i].from.routingKey)| == depth
    ensures PrefixFree(Targets(root, messages))
  {
    OneDepthHasOneLength(root, messages, depth);
  }

  lemma ValidNames(name: string)
    requires |name| == 1 && name[0] != '/' && name[0] != '.'
    ensures ValidName(name) && '.' !in name
  {
  }

  lemma NestedKeys()
    ensures ValidKey(LogFrom("a", "b")) && ValidKey(LogFrom("a/b", "c"))
    ensures Components("a") == [Normal("a")] && Components("a/b") == [Normal("a"), Normal("b")]
  {
    ValidNames("a");
    ValidNames("b");
    ValidNames("c");
    JoinIsCanonical(["a"]);
    JoinIsCanonical(["a", "b"]);
    AttemptIsOneComponent("a");
    assert Join(["a"], "/") == "a";
    assert ["a", "b"][1..] == ["b"] && ["b"][1..] == [] && Join(["b"], "/") == "b";
    assert "a" + "/" + "b" == "a/b";
    assert Normals(["b"]) == [Normal("b")] + Normals(["b"][1..]);
    assert Normals(["a", "b"]) == [Normal("a")] + Normals(["a", "b"][1..]);
  }

  lemma NestedPaths(root: Path)
    ensures LogPath(root, LogFrom("a", "b")) < LogPath(root, LogFrom("a/b", "c"))
  {
    NestedKeys();
    PathForValid(root, LogFrom("a", "b"), Log);
    PathForValid(root, LogFrom("a/b", "c"), Log);
    assert root + [Normal("a"), Normal("b")] + [Normal("c")] == root + [Normal("a")] + [Normal("b")] + [Normal("c")];
  }

  /** Once a log exists, no message to a path below it gets through. */
  lemma BelowIsRefused(c: Collector, m: LogMessage, intents: Intents, above: Path)
    requires Consistent(c, intents) && OnDisk(c) && ValidKey(m.from)
    requires IsWrite(m.message) && Steady(intents(m.from), OpOf(m.message))
    requires above in c.files && above < Target(c.root, m)
    ensures Deliver(c, m).Panicked?
  {
    DeliverKeepsConsistent(c, m, intents);
    assert above in c.files.Keys + {Target(c.root, m)} && Target(c.root, m) in c.files.Keys + {Target(c.root, m)};
  }

  lemma FirstMessageOfAll(root: Path, maxOpen: nat, from: LogFrom, text: string) returns (intents: Intents)
    requires maxOpen >= 1 && ValidKey(from) && NewlineFree(text)
    ensures var first := Deliver(Collector(root, maxOpen, [], map[]), LogMessage(from, Msg(1, text)));
            && first.Acked? && first.state.root == root
            && Consistent(first.state, intents) && OnDisk(first.state) && LogPath(root, from) in first.state.files
    ensures forall k :: k != from ==> intents(k) == Intent([], 0)
  {
    var c, empty, m := Collector(root, maxOpen, [], map[]), Existing(root, map[]), LogMessage(from, Msg(1, text));
    FreshCollectorIsConsistent(root, maxOpen, map[]);
    DeliverKeepsConsistent(c, m, empty);
    assert PrefixFree(c.files.Keys + {Target(root, m)});
    LogPathsAreDistinct(root, from, from, Log);
    intents := Intended(empty, m);
  }

  /** A routing key that names another attempt's log: that attempt's first message goes through, the next one panics. */
  lemma NestedKeyPanics(root: Path, maxOpen: nat)
    requires maxOpen >= 1
    ensures var first := Deliver(Collector(root, maxOpen, [], map[]), LogMessage(LogFrom("a", "b"), Msg(1, "x")));
            first.Acked? && Deliver(first.state, LogMessage(LogFrom("a/b", "c"), Msg(1, "y"))).Panicked?
  {
    var k1, k2 := LogFrom("a", "b"), LogFrom("a/b", "c");
    NestedKeys();
    NestedPaths(root);
    var intents := FirstMessageOfAll(root, maxOpen, k1, "x");
    LogPathsAreDistinct(root, k2, k2, Log);
    var first := Deliver(Collector(root, maxOpen, [], map[]), LogMessage(k1, Msg(1, "x"))).state;
    assert k1.attemptId != k2.attemptId;
    BelowIsRefused(first, LogMessage(k2, Msg(1, "y")), intents, LogPath(root, k1));
  }
}
