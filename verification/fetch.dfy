/** The store reader: file entries of a store listing, materialized as text. */
module StoreReader {
  import opened Wrappers
  import opened Bytes
  import opened Content
  import opened Targets
  import opened Normalizer
  import opened Thunks
  import opened Ipfs
  import Utf8

  /** One entry `get` yields: directories carry no content. */
  datatype StoreEntry = StoreEntry(path: string, content: Option<Chunks>)

  /** The number of entries that carry content. */
  function CountFiles(entries: seq<StoreEntry>): (n: nat)
    ensures n <= |entries|
  {
    if entries == [] then 0
    else (if entries[0].content.Some? then 1 else 0) + CountFiles(entries[1..])
  }

  /**
   * `fetch` over what `get` yielded: entries without content dropped, every
   * other one drained, concatenated and decoded, in yield order.
   */
  function Fetch(entries: seq<StoreEntry>): (files: seq<string>)
    ensures |files| == CountFiles(entries)
    ensures files == [] <==> forall i :: 0 <= i < |entries| ==> entries[i].content.None?
    ensures forall f :: f in files ==>
      exists i :: 0 <= i < |entries| && entries[i].content.Some? && f == ThunkContent(entries[i].content.value)
    ensures forall i :: 0 <= i < |entries| && entries[i].content.Some? ==>
      ThunkContent(entries[i].content.value) in files
  {
    if entries == [] then []
    else
      var rest := Fetch(entries[1..]);
      assert forall i :: 1 <= i < |entries| ==> entries[i] == entries[1..][i - 1];
      match entries[0].content
      case None => rest
      case Some(chunks) => [ThunkContent(chunks)] + rest
  }

  /** Fetching a listing in two parts fetches each part, in order. */
  lemma {:induction false} FetchAppend(a: seq<StoreEntry>, b: seq<StoreEntry>)
    ensures Fetch(a + b) == Fetch(a) + Fetch(b)
  {
    if a == [] {
      assert a + b == b;
    } else {
      assert (a + b)[0] == a[0];
      assert (a + b)[1..] == a[1..] + b;
      FetchAppend(a[1..], b);
    }
  }

  /** A single entry gives its decoded text when it is a file and nothing when it is a directory. */
  lemma FetchSingle(e: StoreEntry)
    ensures e.content.Some? ==> Fetch([e]) == [ThunkContent(e.content.value)]
    ensures e.content.None? ==> Fetch([e]) == []
  {
  }

  /**
   * Writer and reader agree: when the store lists a pushed file object's
   * content back unchanged, reading it gives the thunked source.
   */
  lemma ReadBackThunks(t: Target<Content>, i: nat, path: string)
    requires i < |t.sources| && Supported(t.sources[i].content)
    ensures Thunk(t).Success? ==>
      Fetch([StoreEntry(path, StoreInput(t)[i].content)]) == [Thunk(t).value.sources[i].content]
  {
  }

  /** For text sources the round trip through the store gives back the very text. */
  lemma TextRoundTripThroughStore(t: Target<Content>, i: nat, path: string)
    requires i < |t.sources| && t.sources[i].content.Text?
    ensures Fetch([StoreEntry(path, StoreInput(t)[i].content)]) == [t.sources[i].content.text]
  {
    RepresentationsAgree(t.sources[i].content.text);
  }
}
