/** Sources, targets and their settings. */
module Targets {
  import opened Wrappers

  /**
   * The state of the `path` key of a settings object: not present at all,
   * present with the value `undefined`, or present with a string.
   */
  datatype PathKey = Absent | Undefined | Defined(value: string)

  /**
   * `TargetSettings`: the one key with a meaning here, `path`, plus every
   * other key, carried opaquely.
   */
  datatype Settings = Settings(path: PathKey, others: map<string, string>)

  /** The `{}` a missing settings object defaults to. */
  const NoSettings := Settings(Absent, map[])

  /**
   * A source with content of type `C`: `settings` is `None` when the source
   * has no settings object, and `fields` holds every other own property of
   * the source object (the walker adds a top-level `path` this way).
   */
  datatype Source<C> = Source(content: C, settings: Option<Settings>, fields: map<string, string>)
  {
    /** `{ ...this, content: c }`. */
    function WithContent<D>(c: D): Source<D>
    {
      Source(c, settings, fields)
    }
  }

  /** A target: its sources, in enumeration order. */
  datatype Target<C> = Target(sources: seq<Source<C>>)

  /** The error a call is rejected with. */
  datatype Error =
    /** Draining content that normalized to `undefined`. */
    | UnsupportedContentType
    /** A filesystem node that is neither a regular file nor a directory. */
    | UnsupportedNodeKind
    /** `stat` of a path that does not exist. */
    | NotFound
    /** `path.join` handed a `path` setting that is `undefined`. */
    | InvalidPathArgument
}
