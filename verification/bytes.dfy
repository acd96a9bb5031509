/** Byte blocks and the concatenation of chunk sequences (`Buffer.concat`). */
module Bytes {

  /** One octet. */
  type Byte = b: int | 0 <= b < 0x100

  /** A byte block: a `Buffer`, an `ArrayBuffer` or a typed-array view, by value. */
  type Bytes = seq<Byte>

  /** A canonical chunk sequence, as produced by normalization. */
  type Chunks = seq<Bytes>

  /** The bytes of all chunks, in order. */
  function Flatten(chunks: Chunks): (r: Bytes)
    ensures chunks == [] ==> r == []
    ensures |chunks| == 1 ==> r == chunks[0]
  {
    if chunks == [] then [] else chunks[0] + Flatten(chunks[1..])
  }

  /** Total number of bytes carried by a chunk sequence. */
  function TotalLength(chunks: Chunks): nat
  {
    if chunks == [] then 0 else |chunks[0]| + TotalLength(chunks[1..])
  }

  /** Concatenation neither loses nor invents bytes. */
  lemma {:induction false} FlattenLength(chunks: Chunks)
    ensures |Flatten(chunks)| == TotalLength(chunks)
  {
    if chunks != [] {
      FlattenLength(chunks[1..]);
    }
  }

  /** Concatenating two chunk sequences and then flattening is flattening each. */
  lemma {:induction false} FlattenAppend(a: Chunks, b: Chunks)
    ensures Flatten(a + b) == Flatten(a) + Flatten(b)
  {
    if a == [] {
      assert a + b == b;
    } else {
      assert (a + b)[1..] == a[1..] + b;
      FlattenAppend(a[1..], b);
    }
  }

  /**
   * The chunks a reader with a fixed buffer size hands out for `data`:
   * full buffers of `size` bytes and one shorter final buffer, never an
   * empty one.
   */
  function ChunksOf(data: Bytes, size: nat): (r: Chunks)
    requires size > 0
    ensures forall i :: 0 <= i < |r| ==> 0 < |r[i]| <= size
    ensures data == [] <==> r == []
    decreases |data|
  {
    if data == [] then []
    else if |data| <= size then [data]
    else [data[..size]] + ChunksOf(data[size..], size)
  }

  /** Reading in chunks delivers exactly the original bytes, in order. */
  lemma {:induction false} FlattenChunksOf(data: Bytes, size: nat)
    requires size > 0
    ensures Flatten(ChunksOf(data, size)) == data
    decreases |data|
  {
    if data != [] && |data| > size {
      var rest := ChunksOf(data[size..], size);
      FlattenChunksOf(data[size..], size);
      assert ChunksOf(data, size) == [data[..size]] + rest;
      assert ([data[..size]] + rest)[1..] == rest;
      assert data[..size] + data[size..] == data;
    }
  }

  /** A chunk sequence carries no bytes exactly when every chunk is empty. */
  lemma {:induction false} FlattenEmpty(chunks: Chunks)
    ensures Flatten(chunks) == [] <==> forall i :: 0 <= i < |chunks| ==> chunks[i] == []
  {
    if chunks != [] {
      FlattenEmpty(chunks[1..]);
      assert forall i :: 1 <= i < |chunks| ==> chunks[i] == chunks[1..][i - 1];
    }
  }
}
