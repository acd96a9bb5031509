/**
 * The content representations a source may carry. The original type is an
 * untagged union told apart by runtime shape, so the datatype records the
 * shape and the predicates below are the runtime shape tests.
 */
module Content {
  import opened Wrappers
  import opened Bytes

  /**
   * Which kind of byte block: a `Buffer` or typed-array view (these have
   * `Symbol.iterator`, over their numeric elements), or a bare `ArrayBuffer`
   * (which has none).
   */
  datatype BlockKind = View | RawArrayBuffer

  datatype Content =
    /** A JavaScript string. */
    | Text(text: string)
    /** A `Buffer`, typed-array view or `ArrayBuffer`, by its byte values. */
    | Block(kind: BlockKind, bytes: Bytes)
    /**
     * Any other object. `syncIter` holds what `Symbol.iterator` would
     * enumerate when the object has one, `asyncIter` what
     * `Symbol.asyncIterator` would; an object may have both or neither.
     */
    | Object(syncIter: Option<seq<Bytes>>, asyncIter: Option<seq<Bytes>>)

  /** `typeof content === "string"`. */
  predicate IsString(c: Content) {
    c.Text?
  }

  /** `Buffer.isBuffer`, `instanceof ArrayBuffer` or `ArrayBuffer.isView`. */
  predicate IsBytes(c: Content) {
    c.Block?
  }

  /**
   * `Symbol.iterator in content`. A `Buffer` or typed array is iterable too
   * (over its numeric elements), which is why the test order matters.
   * For a non-empty string the code's `in` would throw a TypeError; the
   * dispatch never gets there, because the string test comes first.
   */
  predicate IsIterable(c: Content) {
    (c.Block? && c.kind.View?) || (c.Object? && c.syncIter.Some?)
  }

  /** `Symbol.asyncIterator in content`. */
  predicate IsAsyncIterable(c: Content) {
    c.Object? && c.asyncIter.Some?
  }

  /**
   * Which shape tests each value passes: a string only the first; a
   * `Buffer` or typed array both the byte test and the iterable test; an
   * `ArrayBuffer` only the byte test; any other object the iterable tests
   * its iterators allow, possibly both.
   */
  lemma ShapeTests(c: Content)
    ensures IsString(c) ==> !IsBytes(c) && !IsIterable(c) && !IsAsyncIterable(c)
    ensures IsBytes(c) ==> !IsString(c) && !IsAsyncIterable(c) && (IsIterable(c) <==> c.kind.View?)
    ensures c.Object? ==> !IsString(c) && !IsBytes(c)
    ensures c.Object? ==> (IsIterable(c) <==> c.syncIter.Some?) && (IsAsyncIterable(c) <==> c.asyncIter.Some?)
  {
  }

  /** Matches one of the four shapes the normalizer knows. */
  predicate Supported(c: Content) {
    IsString(c) || IsBytes(c) || IsIterable(c) || IsAsyncIterable(c)
  }

  /** Normalized content viewed again as content: an async iterable of buffers. */
  function FromChunks(chunks: Chunks): (c: Content)
    ensures IsAsyncIterable(c) && !IsIterable(c)
  {
    Object(None, Some(chunks))
  }
}
