/** Materialization of a target: every source's content drained and decoded to text. */
module Thunks {
  import opened Wrappers
  import opened Bytes
  import opened Content
  import opened Targets
  import opened Normalizer
  import Utf8

  /** `thunkContent`: drain every chunk, concatenate, decode. */
  function ThunkContent(chunks: Chunks): (text: string)
    ensures text == [] <==> forall i :: 0 <= i < |chunks| ==> chunks[i] == []
    ensures |text| <= TotalLength(chunks)
  {
    FlattenEmpty(chunks);
    FlattenLength(chunks);
    Utf8.Decode(Flatten(chunks))
  }

  /**
   * The loop of `thunk` over the normalized sources. Draining `undefined`
   * content rejects the whole call.
   */
  function ThunkSources(sources: seq<NormalizedSource>): (r: Result<seq<Source<string>>, Error>)
    ensures r.Success? <==> forall i :: 0 <= i < |sources| ==> sources[i].content.Some?
    ensures r.Failure? ==> r.error == UnsupportedContentType
    ensures r.Success? ==> |r.value| == |sources|
    ensures r.Success? ==> forall i :: 0 <= i < |sources| ==>
      r.value[i] == sources[i].WithContent(ThunkContent(sources[i].content.value))
  {
    if sources == [] then Success([])
    else if sources[0].content.None? then Failure(UnsupportedContentType)
    else
      var rest :- ThunkSources(sources[1..]);
      Success([sources[0].WithContent(ThunkContent(sources[0].content.value))] + rest)
  }

  /** `thunk`: normalize, then materialize every source in order. */
  function Thunk(t: Target<Content>): (r: Result<Target<string>, Error>)
    ensures r.Success? <==> forall i :: 0 <= i < |t.sources| ==> Supported(t.sources[i].content)
    ensures r.Failure? ==> r.error == UnsupportedContentType
    ensures r.Success? ==> |r.value.sources| == |t.sources|
    ensures r.Success? ==> forall i :: 0 <= i < |t.sources| ==>
      && r.value.sources[i].content == ThunkContent(NormalizeContent(t.sources[i].content).value)
      && r.value.sources[i].settings == t.sources[i].settings
      && r.value.sources[i].fields == t.sources[i].fields
    ensures t.sources == [] ==> r == Success(Target([]))
  {
    var sources :- ThunkSources(Normalize(t).sources);
    Success(Target(sources))
  }

  /** Chunk boundaries do not matter, only the bytes they carry. */
  lemma ChunkBoundariesIrrelevant(a: Chunks, b: Chunks)
    requires Flatten(a) == Flatten(b)
    ensures ThunkContent(a) == ThunkContent(b)
  {
  }

  /** Thunked content is the decoding of the bytes the content stands for. */
  lemma ThunkDecodesPayload(c: Content)
    requires Supported(c)
    ensures ThunkContent(NormalizeContent(c).value) == Utf8.Decode(Payload(c).value)
  {
    NormalizePreservesBytes(c);
  }

  /**
   * Text, its encoding as one block, a one-element iterable of that block
   * and a one-element async iterable of it all thunk to the same text.
   */
  lemma RepresentationsAgree(s: string)
    ensures ThunkContent(NormalizeContent(Text(s)).value) == s
    ensures ThunkContent(NormalizeContent(Block(View, Utf8.Encode(s))).value) == s
    ensures ThunkContent(NormalizeContent(Object(Some([Utf8.Encode(s)]), None)).value) == s
    ensures ThunkContent(NormalizeContent(Object(None, Some([Utf8.Encode(s)]))).value) == s
  {
    Utf8.DecodeEncode(s);
  }

  /** Every source with text content thunks back to that text, under the same settings. */
  lemma ThunkTextRoundTrip(t: Target<Content>)
    requires forall i :: 0 <= i < |t.sources| ==> t.sources[i].content.Text?
    ensures Thunk(t).Success?
    ensures |Thunk(t).value.sources| == |t.sources|
    ensures forall i :: 0 <= i < |t.sources| ==>
      Thunk(t).value.sources[i] == t.sources[i].WithContent(t.sources[i].content.text)
  {
    var r := Thunk(t);
    forall i | 0 <= i < |t.sources|
      ensures r.value.sources[i] == t.sources[i].WithContent(t.sources[i].content.text)
    {
      RepresentationsAgree(t.sources[i].content.text);
    }
  }
}
