/** Conversion of every content representation into one canonical chunk sequence. */
module Normalizer {
  import opened Wrappers
  import opened Bytes
  import opened Content
  import opened Targets
  import Utf8

  /** A normalized source; `None` content is the `undefined` of an unsupported shape. */
  type NormalizedSource = Source<Option<Chunks>>

  /**
   * `normalizeContent`: tests the shapes in the order string, byte block,
   * sync iterable, async iterable; falls through to `undefined`.
   */
  function NormalizeContent(c: Content): (r: Option<Chunks>)
    ensures r.None? <==> !Supported(c)
    ensures IsString(c) ==> r == Some([Utf8.Encode(c.text)])
    ensures IsBytes(c) ==> r == Some([c.bytes])
    ensures c.Object? && c.syncIter.Some? ==> r == Some(c.syncIter.value)
    ensures c.Object? && c.syncIter.None? && c.asyncIter.Some? ==> r == Some(c.asyncIter.value)
  {
    if IsString(c) then Some([Utf8.Encode(c.text)])
    else if IsBytes(c) then Some([c.bytes])
    else if IsIterable(c) then Some(c.syncIter.value)
    else if IsAsyncIterable(c) then Some(c.asyncIter.value)
    else None
  }

  /** `normalize` over the enumerated sources: only `content` is replaced. */
  function NormalizeSources(sources: seq<Source<Content>>): (r: seq<NormalizedSource>)
    ensures |r| == |sources|
    ensures forall i :: 0 <= i < |sources| ==>
      && r[i].content == NormalizeContent(sources[i].content)
      && r[i].settings == sources[i].settings
      && r[i].fields == sources[i].fields
  {
    if sources == [] then []
    else [sources[0].WithContent(NormalizeContent(sources[0].content))] + NormalizeSources(sources[1..])
  }

  /** `normalize`. */
  function Normalize(t: Target<Content>): (r: Target<Option<Chunks>>)
    ensures |r.sources| == |t.sources|
    ensures forall i :: 0 <= i < |t.sources| ==>
      r.sources[i] == t.sources[i].WithContent(NormalizeContent(t.sources[i].content))
  {
    Target(NormalizeSources(t.sources))
  }

  /**
   * The bytes a supported content value stands for, defined without the
   * dispatch: its string's encoding, its block, or the concatenation of the
   * blocks its syncIter (sync preferred) yields.
   */
  function Payload(c: Content): Option<Bytes>
  {
    match c
    case Text(s) => Some(Utf8.Encode(s))
    case Block(_, b) => Some(b)
    case Object(it, ait) =>
      if it.Some? then Some(Flatten(it.value))
      else if ait.Some? then Some(Flatten(ait.value))
      else None
  }

  /** For all four representations the chunks concatenate to the content's bytes. */
  lemma NormalizePreservesBytes(c: Content)
    ensures NormalizeContent(c).Some? <==> Payload(c).Some?
    ensures NormalizeContent(c).Some? ==> Flatten(NormalizeContent(c).value) == Payload(c).value
  {
  }

  /**
   * A `Buffer` or typed array passes the iterable test as well, yet it is
   * taken as one block and never as a sequence of blocks.
   */
  lemma ViewIsOneChunk(b: Bytes)
    ensures IsIterable(Block(View, b))
    ensures NormalizeContent(Block(View, b)) == Some([b])
  {
  }

  /** Normalized content is a fixed point: re-normalizing it gives the same chunks. */
  lemma NormalizeIdempotent(chunks: Chunks)
    ensures NormalizeContent(FromChunks(chunks)) == Some(chunks)
  {
  }
}
