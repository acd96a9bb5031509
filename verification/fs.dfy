/**
 * The filesystem target walker, over an abstract tree in place of `stat`,
 * `readdir` and `createReadStream`.
 */
module Fs {
  import opened Wrappers
  import opened Bytes
  import opened Content
  import opened Targets

  /** What `stat` finds at a path. */
  datatype Node =
    | File(data: Bytes)
    | Dir(entries: seq<Entry>)
    /** A socket, device, FIFO or other node that is neither file nor directory. */
    | Special

  /** One directory entry, in `readdir` order. */
  datatype Entry = Entry(name: string, node: Node)

  /** The default `highWaterMark` of `fs.createReadStream`: 64 KiB. */
  const ReadChunkSize: nat := 0x1_0000

  /** `fs.createReadStream(path)`: an async iterable of the file's bytes in buffer-sized chunks. */
  function ReadStream(data: Bytes): (c: Content)
    ensures IsAsyncIterable(c) && !IsIterable(c) && !IsBytes(c) && !IsString(c)
    ensures Flatten(c.asyncIter.value) == data
  {
    FlattenChunksOf(data, ReadChunkSize);
    Object(None, Some(ChunksOf(data, ReadChunkSize)))
  }

  /** `path.join` of a directory path and one plain entry name. */
  function Join(dir: string, name: string): (r: string)
    ensures dir == [] ==> r == name
    ensures |r| == (if dir == [] then 0 else |dir| + 1) + |name|
  {
    if dir == [] then name else dir + "/" + name
  }

  /** A non-empty directory path, one separator, then the entry name. */
  lemma JoinShape(dir: string, name: string)
    requires dir != []
    ensures Join(dir, name)[..|dir|] == dir
    ensures Join(dir, name)[|dir|] == '/'
    ensures Join(dir, name)[|dir| + 1..] == name
  {
  }

  /** `dir` joined with each of `names` in turn. */
  function JoinAll(dir: string, names: seq<string>): string
    decreases |names|
  {
    if names == [] then dir else JoinAll(Join(dir, names[0]), names[1..])
  }

  /** The first entry of a listing with the given name. */
  function FindEntry(entries: seq<Entry>, name: string): (r: Option<Entry>)
    ensures r.Some? ==> r.value in entries && r.value.name == name
    ensures r.None? ==> forall i :: 0 <= i < |entries| ==> entries[i].name != name
  {
    if entries == [] then None
    else if entries[0].name == name then Some(entries[0])
    else FindEntry(entries[1..], name)
  }

  /** `stat` of the path whose segments are `names`; `None` stands for ENOENT/ENOTDIR. */
  function Lookup(root: Node, names: seq<string>): (r: Option<Node>)
    ensures names == [] ==> r == Some(root)
    ensures names != [] && !root.Dir? ==> r.None?
    ensures names != [] && root.Dir? && FindEntry(root.entries, names[0]).None? ==> r.None?
    decreases |names|
  {
    if names == [] then Some(root)
    else match root
      case Dir(entries) =>
        (match FindEntry(entries, names[0])
         case Some(e) => Lookup(e.node, names[1..])
         case None => None)
      case _ => None
  }

  /** Resolving a path in two steps is resolving it at once. */
  lemma {:induction false} LookupAppend(root: Node, a: seq<string>, b: seq<string>)
    ensures Lookup(root, a + b) == (match Lookup(root, a) case None => None case Some(n) => Lookup(n, b))
    decreases |a|
  {
    if a == [] {
      assert a + b == b;
    } else {
      assert (a + b)[0] == a[0] && (a + b)[1..] == a[1..] + b;
      if root.Dir? {
        match FindEntry(root.entries, a[0])
        case Some(e) => LookupAppend(e.node, a[1..], b);
        case None =>
      }
    }
  }

  /**
   * The settings a directory hands to its entry `name`: when the `path` key
   * is present its value is joined with `name` (which throws for
   * `undefined`), otherwise the very same settings pass down.
   */
  function ChildSettings(s: Settings, name: string): (r: Result<Settings, Error>)
    ensures r.Failure? <==> s.path.Undefined?
    ensures r.Failure? ==> r.error == InvalidPathArgument
    ensures r.Success? ==> r.value.others == s.others
    ensures s.path.Absent? ==> r == Success(s)
    ensures s.path.Defined? ==> r.value.path == Defined(Join(s.path.value, name))
  {
    match s.path
    case Absent => Success(s)
    case Undefined => Failure(InvalidPathArgument)
    case Defined(p) => Success(s.(path := Defined(Join(p, name))))
  }

  /** `sourcePath`: the file sources under `n`, which lives at `path`, depth first. */
  function SourcePath(n: Node, path: string, s: Settings): (r: Result<seq<Source<Content>>, Error>)
    ensures n.File? ==> r == Success([Source(ReadStream(n.data), Some(s), map["path" := path])])
    ensures n.Special? ==> r == Failure(UnsupportedNodeKind)
    ensures r.Success? ==> |r.value| == |Files(n)|
    ensures r.Failure? ==> r.error == UnsupportedNodeKind || r.error == InvalidPathArgument
    decreases n
  {
    match n
    case File(data) => Success([Source(ReadStream(data), Some(s), map["path" := path])])
    case Dir(entries) => SourceEntries(entries, path, s)
    case Special => Failure(UnsupportedNodeKind)
  }

  /** The generator loop of `sourcePath` over a directory listing. */
  function SourceEntries(entries: seq<Entry>, dir: string, s: Settings): (r: Result<seq<Source<Content>>, Error>)
    ensures entries == [] ==> r == Success([])
    ensures r.Success? ==> |r.value| == |FilesOf(entries)|
    ensures r.Failure? ==> r.error == UnsupportedNodeKind || r.error == InvalidPathArgument
    decreases entries
  {
    if entries == [] then Success([])
    else
      var e := entries[0];
      var child :- ChildSettings(s, e.name);
      var first :- SourcePath(e.node, Join(dir, e.name), child);
      var rest :- SourceEntries(entries[1..], dir, s);
      Success(first + rest)
  }

  /** `targetPath`: a regular file becomes one source, a directory is walked. */
  function TargetPath(root: Node, at: seq<string>, settings: Option<Settings>): (r: Result<Target<Content>, Error>)
    ensures Lookup(root, at).None? ==> r == Failure(NotFound)
    ensures Lookup(root, at) == Some(Special) ==> r == Failure(UnsupportedNodeKind)
    ensures Lookup(root, at).Some? && Lookup(root, at).value.File? ==>
      r == Success(Target([Source(ReadStream(Lookup(root, at).value.data), Some(settings.GetOr(NoSettings)), map[])]))
  {
    var s := settings.GetOr(NoSettings);
    match Lookup(root, at)
    case None => Failure(NotFound)
    case Some(n) =>
      match n
      case File(data) => Success(Target([Source(ReadStream(data), Some(s), map[])]))
      case Dir(_) =>
        var sources :- SourcePath(n, JoinAll("", at), s);
        Success(Target(sources))
      case Special => Failure(UnsupportedNodeKind)
  }

  // ---------------------------------------------------------------------
  // Reference description of a walk

  /** A regular file found under a node: the entry names leading to it, and its bytes. */
  datatype FileAt = FileAt(names: seq<string>, data: Bytes)

  /** No node of the subtree is other than a file or a directory. */
  predicate Walkable(n: Node)
    decreases n
  {
    match n
    case File(_) => true
    case Dir(entries) => forall i :: 0 <= i < |entries| ==> Walkable(entries[i].node)
    case Special => false
  }

  /** The regular files of a subtree, depth first in listing order. */
  function Files(n: Node): seq<FileAt>
    decreases n
  {
    match n
    case File(data) => [FileAt([], data)]
    case Dir(entries) => FilesOf(entries)
    case Special => []
  }

  function FilesOf(entries: seq<Entry>): seq<FileAt>
    decreases entries
  {
    if entries == [] then []
    else Under(entries[0].name, Files(entries[0].node)) + FilesOf(entries[1..])
  }

  /** The same files, seen from one directory level higher. */
  function Under(name: string, files: seq<FileAt>): seq<FileAt>
  {
    seq(|files|, i requires 0 <= i < |files| => FileAt([name] + files[i].names, files[i].data))
  }

  /** The settings a file `names` below the walk root ends up with. */
  function Inherit(s: Settings, names: seq<string>): Settings
  {
    if s.path.Defined? then s.(path := Defined(JoinAll(s.path.value, names))) else s
  }

  /** The source the walk is meant to produce for one file. */
  function FileSource(f: FileAt, root: string, s: Settings): Source<Content>
  {
    Source(ReadStream(f.data), Some(Inherit(s, f.names)), map["path" := JoinAll(root, f.names)])
  }

  function FileSources(files: seq<FileAt>, root: string, s: Settings): seq<Source<Content>>
  {
    seq(|files|, i requires 0 <= i < |files| => FileSource(files[i], root, s))
  }

  lemma FileSourcesAppend(a: seq<FileAt>, b: seq<FileAt>, root: string, s: Settings)
    ensures FileSources(a + b, root, s) == FileSources(a, root, s) + FileSources(b, root, s)
  {
  }

  /** Walking entry `name` of a directory at `dir` is walking its files relative to `dir`. */
  lemma StepDown(files: seq<FileAt>, dir: string, name: string, s: Settings)
    requires !s.path.Undefined?
    ensures FileSources(files, Join(dir, name), ChildSettings(s, name).value)
         == FileSources(Under(name, files), dir, s)
  {
    var child := ChildSettings(s, name).value;
    forall i | 0 <= i < |files|
      ensures FileSource(files[i], Join(dir, name), child) == FileSource(Under(name, files)[i], dir, s)
    {
      var names := files[i].names;
      assert ([name] + names)[0] == name && ([name] + names)[1..] == names;
      assert JoinAll(dir, [name] + names) == JoinAll(Join(dir, name), names);
      if s.path.Defined? {
        assert JoinAll(s.path.value, [name] + names) == JoinAll(Join(s.path.value, name), names);
      }
    }
  }

  /**
   * With a usable `path` setting, the walk succeeds exactly when every node
   * is a file or a directory, fails with UnsupportedNodeKind otherwise, and
   * yields one source per regular file, depth first in listing order, each
   * carrying its path and its settings inherited along the way.
   */
  lemma {:induction false} SourcePathEnumerates(n: Node, path: string, s: Settings)
    requires !s.path.Undefined?
    ensures SourcePath(n, path, s).Success? <==> Walkable(n)
    ensures SourcePath(n, path, s).Failure? ==> SourcePath(n, path, s).error == UnsupportedNodeKind
    ensures Walkable(n) ==> SourcePath(n, path, s).value == FileSources(Files(n), path, s)
    decreases n
  {
    match n
    case File(data) =>
      assert FileSources(Files(n), path, s)[0] == FileSource(FileAt([], data), path, s);
    case Dir(entries) => EntriesEnumerate(entries, path, s);
    case Special =>
  }

  lemma {:induction false} EntriesEnumerate(entries: seq<Entry>, dir: string, s: Settings)
    requires !s.path.Undefined?
    ensures SourceEntries(entries, dir, s).Success? <==> forall i :: 0 <= i < |entries| ==> Walkable(entries[i].node)
    ensures SourceEntries(entries, dir, s).Failure? ==> SourceEntries(entries, dir, s).error == UnsupportedNodeKind
    ensures (forall i :: 0 <= i < |entries| ==> Walkable(entries[i].node)) ==>
      SourceEntries(entries, dir, s).value == FileSources(FilesOf(entries), dir, s)
    decreases entries
  {
    if entries != [] {
      var e := entries[0];
      var child := ChildSettings(s, e.name).value;
      SourcePathEnumerates(e.node, Join(dir, e.name), child);
      EntriesEnumerate(entries[1..], dir, s);
      assert forall i :: 1 <= i < |entries| ==> entries[i] == entries[1..][i - 1];
      StepDown(Files(e.node), dir, e.name, s);
      FileSourcesAppend(Under(e.name, Files(e.node)), FilesOf(entries[1..]), dir, s);
    }
  }

  /** Without a `path` key every file source carries the very settings given. */
  lemma SettingsPassThrough(n: Node, path: string, s: Settings)
    requires s.path.Absent? && Walkable(n)
    ensures SourcePath(n, path, s).Success?
    ensures forall i :: 0 <= i < |SourcePath(n, path, s).value| ==>
      SourcePath(n, path, s).value[i].settings == Some(s)
  {
    SourcePathEnumerates(n, path, s);
  }

  /**
   * With a `path` key, each file's `path` setting and its top-level `path`
   * are the setting and the walk root extended by the same entry names;
   * no other key changes.
   */
  lemma PathSettingFollowsWalk(n: Node, path: string, s: Settings)
    requires s.path.Defined? && Walkable(n)
    ensures SourcePath(n, path, s).Success?
    ensures |SourcePath(n, path, s).value| == |Files(n)|
    ensures forall i :: 0 <= i < |Files(n)| ==>
      var src := SourcePath(n, path, s).value[i];
      && src.settings.Some?
      && src.settings.value.others == s.others
      && src.settings.value.path == Defined(JoinAll(s.path.value, Files(n)[i].names))
      && src.fields == map["path" := JoinAll(path, Files(n)[i].names)]
  {
    SourcePathEnumerates(n, path, s);
  }

  /** A `path` key holding `undefined` makes the walk of a non-empty directory throw. */
  lemma UndefinedPathSettingThrows(n: Node, path: string, s: Settings)
    requires s.path.Undefined? && n.Dir? && n.entries != []
    ensures SourcePath(n, path, s) == Failure(InvalidPathArgument)
  {
  }

  /**
   * `targetPath` on a directory: one source per regular file of the
   * subtree, none for directories, with the top-level `path` rooted at the
   * targeted path.
   */
  lemma TargetPathDirectory(root: Node, at: seq<string>, settings: Option<Settings>)
    requires Lookup(root, at).Some? && Lookup(root, at).value.Dir?
    requires !settings.GetOr(NoSettings).path.Undefined?
    ensures TargetPath(root, at, settings).Success? <==> Walkable(Lookup(root, at).value)
    ensures TargetPath(root, at, settings).Success? ==>
      TargetPath(root, at, settings).value.sources
        == FileSources(Files(Lookup(root, at).value), JoinAll("", at), settings.GetOr(NoSettings))
  {
    SourcePathEnumerates(Lookup(root, at).value, JoinAll("", at), settings.GetOr(NoSettings));
  }
}
