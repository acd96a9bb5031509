/** The store writer: normalized sources adapted to the store's file objects. */
module Ipfs {
  import opened Wrappers
  import opened Bytes
  import opened Content
  import opened Targets
  import opened Normalizer

  /** `FileObject`: the content handed to the store and, optionally, where to place it. */
  datatype FileObject = FileObject(content: Option<Chunks>, path: Option<string>)

  /** A record the store streams back: a content identifier and, optionally, a path. */
  datatype StoreRecord = StoreRecord(cid: string, path: Option<string>)

  /** The `path` setting of a source when it is a defined string. */
  function DefinedPath(settings: Option<Settings>): (r: Option<string>)
    ensures r.Some? <==> settings.Some? && settings.value.path.Defined?
    ensures r.Some? ==> r.value == settings.value.path.value
  {
    match settings
    case None => None
    case Some(s) => if s.path.Defined? then Some(s.path.value) else None
  }

  /**
   * The mapping callback: `{content, path}` when `settings.path` is not
   * `undefined`, `{content}` otherwise (a missing settings object counts as `{}`).
   */
  function ToFileObject(src: NormalizedSource): (f: FileObject)
    ensures f.content == src.content
    ensures f.path == DefinedPath(src.settings)
  {
    var path := match src.settings
      case None => Undefined
      case Some(s) => s.path;
    match path
    case Defined(p) => FileObject(src.content, Some(p))
    case _ => FileObject(src.content, None)
  }

  /** `asyncMap(ToFileObject)` over the normalized sources. */
  function FileObjects(sources: seq<NormalizedSource>): (r: seq<FileObject>)
    ensures |r| == |sources|
    ensures forall i :: 0 <= i < |sources| ==> r[i] == ToFileObject(sources[i])
  {
    if sources == [] then [] else [ToFileObject(sources[0])] + FileObjects(sources[1..])
  }

  /**
   * What `preserveToIpfs` hands to the store for a raw target: one file
   * object per source, in order, carrying the normalized content and the
   * defined `path` setting, if any.
   */
  function StoreInput(t: Target<Content>): (files: seq<FileObject>)
    ensures |files| == |t.sources|
    ensures forall i :: 0 <= i < |t.sources| ==>
      && files[i].content == NormalizeContent(t.sources[i].content)
      && files[i].path == DefinedPath(t.sources[i].settings)
  {
    FileObjects(Normalize(t).sources)
  }

  /**
   * `preserveToIpfs`: the records are whatever the store's `add`, given the
   * file objects, streams back.
   */
  function PreserveToIpfs(t: Target<Content>, add: seq<FileObject> -> seq<StoreRecord>): (records: seq<StoreRecord>)
    ensures exists files: seq<FileObject> ::
      && |files| == |t.sources|
      && (forall i :: 0 <= i < |t.sources| ==>
            files[i] == FileObject(NormalizeContent(t.sources[i].content), DefinedPath(t.sources[i].settings)))
      && records == add(files)
  {
    var files := StoreInput(t);
    assert forall i :: 0 <= i < |t.sources| ==>
      files[i] == FileObject(NormalizeContent(t.sources[i].content), DefinedPath(t.sources[i].settings));
    add(files)
  }

  /** Settings keys other than `path`, and other source fields, never reach the store. */
  lemma FileObjectIgnoresOtherKeys(a: NormalizedSource, b: NormalizedSource)
    requires a.content == b.content
    requires DefinedPath(a.settings) == DefinedPath(b.settings)
    ensures ToFileObject(a) == ToFileObject(b)
  {
  }

  /** A missing settings object, an absent `path` key and an `undefined` one all give no path. */
  lemma NoPathMeansNoPathField(c: Option<Chunks>, others: map<string, string>, fields: map<string, string>)
    ensures ToFileObject(Source(c, None, fields)).path.None?
    ensures ToFileObject(Source(c, Some(Settings(Absent, others)), fields)).path.None?
    ensures ToFileObject(Source(c, Some(Settings(Undefined, others)), fields)).path.None?
  {
  }
}
