# Preserve: content normalization, thunking, filesystem targets and store adaptation

A Dafny model of the core of the `@truffle/preserve` packages. A **target**
is a list of **sources**. Each source carries **content** plus optional
**settings**, and a `path` setting says where the content belongs.

- The **normalizer** turns each of the four content shapes into one
  canonical sequence of byte chunks. The shapes are a string, a byte block,
  a sync iterable of blocks and an async iterable of blocks.
- The **thunk** drains the chunks of every source, concatenates them and
  decodes the result to text.
- The **filesystem walker** flattens a directory into file-level sources,
  passing the `path` setting down.
- The **store writer** maps each normalized source to a `{content, path?}`
  file object for the content-addressed store.
- The **store reader** keeps the store entries that carry content and
  decodes each of them.

Modules, one per source file or concept:

- `Wrappers`: `Option` (the source's `undefined`) and `Result` (a rejected promise).
- `Bytes`: byte blocks (`Byte` is an integer in 0..255), `Flatten` (`Buffer.concat`), and `ChunksOf` (a buffered reader).
- `Utf8`: the UTF-8 encoding used by `Buffer.from(string)` and the decoding used by `Buffer#toString()`. Ill-formed input decodes to U+FFFD, one per maximal ill-formed subpart, as in the WHATWG Encoding Standard.
- `Content`: the content union and the four runtime shape tests.
- `Targets`: settings, sources, targets and the error kinds.
- `Normalizer`: `normalize.ts`.
- `Thunks`: `thunk.ts`.
- `Fs`: `fs.ts`, over an abstract tree of `File(bytes) | Dir(entries) | Special` nodes.
- `FsExamples`: the walker's test scenarios.
- `Ipfs`: `ipfs.ts`.
- `StoreReader`: `fetch.ts`.

External collaborators are parameters or abstract data. The store's `add` is a
function parameter of `PreserveToIpfs`. The store's `get` is replaced by the
list of entries it yields, which is the argument of `Fetch`. `stat`,
`readdir` and `createReadStream` are replaced by the tree and `Lookup`.

Where the code leaves a case unhandled, the model does the following:

- `normalizeContent` returns `undefined` for a content value of no known
  shape, and `normalize` stores that as the source's content. The
  model keeps `None` in the normalized source. `Thunk` is then rejected
  with `UnsupportedContentType`, because the code's `for await` over
  `undefined` throws there.
- `targetPath` on a node that is neither a file nor a directory resolves
  with `undefined` instead of a target (packages/preserve-fs/lib/fs.ts:18-31).
  `sourcePath` on such a node also resolves with `undefined`, and iterating
  that nested `undefined` throws. The model reports both as the explicit
  error `UnsupportedNodeKind`, so the top-level case is an error here
  where the code returns no target.
- `sourcePath` adds a top-level `path` field to every file source it
  yields. `targetPath` on a single file does not. `Source.fields` carries
  that field.
- The walker tests `"path" in settings`, which is true for a key that is
  present but `undefined`. `path.join(undefined, entry)` then throws.
  `PathKey` tells `Absent`, `Undefined` and `Defined` apart. The walker
  fails with `InvalidPathArgument` in that case. The writer tests
  `path !== undefined` and treats `Undefined` like `Absent`.

## Model

| member | source | states |
|---|---|---|
| `Normalizer.NormalizeContent` | packages/preserve/lib/targets/utils/normalize.ts:95-108 | Shapes are tried in the order string, bytes, sync iterable, async iterable. The result is `None` exactly when no shape matches. A string gives one chunk, its UTF-8 encoding. A byte block gives one chunk with its bytes. A Buffer or typed array is iterable too, yet it is not treated as a sequence. An object with a sync iterator gives its elements in order, even if it also has an async iterator. Otherwise the async iterator's elements are used. |
| `Normalizer.NormalizeSources` | packages/preserve/lib/targets/utils/normalize.ts:18-25 | There are as many output sources as input sources, in the same order. Each output source has its content replaced by the normalized content. Its settings and every other field are unchanged. |
| `Normalizer.Normalize` | packages/preserve/lib/targets/utils/normalize.ts:16-27 | The normalized target has the same number of sources as the input. Each one is the input source with only `content` replaced. |
| `Normalizer.NormalizePreservesBytes` | packages/preserve/lib/targets/utils/normalize.ts:36-89 | For all four representations, the normalized chunks concatenate to the bytes the content stands for. Normalization fails exactly when the content stands for no bytes. |
| `Normalizer.NormalizeIdempotent` | packages/preserve/lib/targets/utils/normalize.ts:81-89 | Normalized content, viewed again as an async iterable of buffers, normalizes to the same chunks. |
| `Content.ShapeTests` | packages/preserve/lib/targets/utils/normalize.ts:33-79 | A string passes no other shape test in the model. In the code, `isIterable` would throw on a non-empty string, but the dispatch tests strings first and never reaches it. A byte block is never a string or async iterable, and it is iterable exactly when it is a view (Buffer or typed array), not a bare ArrayBuffer. An object is never a string or bytes. It is iterable exactly when it has `Symbol.iterator`, and async iterable exactly when it has `Symbol.asyncIterator`. |
| `Content.IsString` | packages/preserve/lib/targets/utils/normalize.ts:33-34 | `typeof content === "string"`. `Content.ShapeTests` states how it relates to the other tests. |
| `Content.IsBytes` | packages/preserve/lib/targets/utils/normalize.ts:46-49 | A Buffer, an ArrayBuffer or an ArrayBuffer view. `Content.ShapeTests` states how it relates to the other tests. |
| `Content.IsIterable` | packages/preserve/lib/targets/utils/normalize.ts:61-63 | `Symbol.iterator in content`, which is true of views and objects with a sync iterator. `Content.ShapeTests` states how it relates to the other tests. |
| `Content.IsAsyncIterable` | packages/preserve/lib/targets/utils/normalize.ts:77-79 | `Symbol.asyncIterator in content`. `Content.ShapeTests` states how it relates to the other tests. |
| `Normalizer.ViewIsOneChunk` | packages/preserve/lib/targets/utils/normalize.ts:95-106 | A Buffer or typed array passes the iterable test, yet it normalizes to one chunk holding its bytes, because the bytes test comes first. |
| `Content.FromChunks` | packages/preserve/lib/targets/utils/normalize.ts:4-5 | Normalized content is an async iterable that is not a sync iterable. |
| `Utf8.Encode` | packages/preserve/lib/targets/utils/normalize.ts:36-40 | A string of n characters encodes to between n and 4n bytes. |
| `Utf8.EncodeChar` | packages/preserve/lib/targets/utils/normalize.ts:38 | Every character encodes to 1-4 bytes. It is one byte exactly for ASCII, and then the byte is the code point. Every byte after the first is a continuation byte. |
| `Utf8.DecodeOne` | packages/preserve/lib/targets/utils/thunk.ts:42 | Each decoding step consumes at least one byte and at most what is left. An ASCII byte decodes to its own character. |
| `Utf8.Decode` | packages/preserve/lib/targets/utils/thunk.ts:42 | Decoding never fails. It yields at most one character per byte, and the empty string exactly for no bytes. |
| `Utf8.DecodeOneEncodeChar` | packages/preserve/lib/targets/utils/normalize.ts:38 | The decoder reads back exactly the character the encoder wrote, and exactly its bytes, whatever follows. |
| `Utf8.DecodeEncode` | packages/preserve/lib/targets/utils/thunk.ts:33-43 | Decoding the encoding of any string gives that string back. |
| `Bytes.Flatten` | packages/preserve/lib/targets/utils/thunk.ts:42 | Concatenating no chunks gives no bytes. Concatenating one chunk gives that chunk. |
| `Bytes.FlattenLength` | packages/preserve/lib/targets/utils/thunk.ts:36-42 | The concatenation is exactly as long as all chunks together. |
| `Bytes.FlattenAppend` | packages/preserve/lib/targets/utils/thunk.ts:38-42 | Concatenating a split chunk list is concatenating each part. |
| `Bytes.FlattenEmpty` | packages/preserve/lib/targets/utils/thunk.ts:36-42 | The concatenation is empty exactly when every chunk is empty. |
| `Bytes.ChunksOf` | packages/preserve-fs/lib/fs.ts:22 | A buffered reader yields non-empty chunks of at most the buffer size, and none for an empty file. |
| `Bytes.FlattenChunksOf` | packages/preserve-fs/lib/fs.ts:22 | The chunks a buffered reader yields concatenate to the file's bytes. |
| `Thunks.ThunkContent` | packages/preserve/lib/targets/utils/thunk.ts:33-43 | The drained text is empty exactly when every chunk is empty, so no chunks give `""`. It has at most as many characters as the chunks have bytes. |
| `Thunks.ThunkSources` | packages/preserve/lib/targets/utils/thunk.ts:23-28 | The loop succeeds exactly when every normalized content is defined, and otherwise rejects with `UnsupportedContentType`. On success it yields one thunked source per source, in order. Each carries the decoding of its chunks, with settings and other fields copied. |
| `Thunks.Thunk` | packages/preserve/lib/targets/utils/thunk.ts:16-31 | Thunking succeeds exactly when every source has a supported shape. It then keeps the number and order of sources, and each content is the thunk of that source's normalized chunks. Settings and other fields are unchanged. No sources give an empty source list. |
| `Thunks.ChunkBoundariesIrrelevant` | packages/preserve/lib/targets/utils/thunk.ts:38-42 | Two chunk sequences with the same concatenation thunk to the same text. |
| `Thunks.ThunkDecodesPayload` | packages/preserve/lib/targets/utils/thunk.ts:33-43 | Thunked content is the decoding of the bytes the original content stands for, whatever its representation. |
| `Thunks.RepresentationsAgree` | packages/preserve/lib/targets/utils/normalize.ts:95-106 | These all thunk to the string `s`: `s` itself, its encoding as one block, a one-element iterable of that block, and a one-element async iterable of it. |
| `Thunks.ThunkTextRoundTrip` | packages/preserve-fs/lib/test/fs.ts:133-142 | A target whose sources all hold text thunks successfully. Each source comes back with its own text and its own settings and fields. |
| `Fs.ReadStream` | packages/preserve-fs/lib/fs.ts:22 | A file's content is an async iterable, not sync iterable and not a block. Its chunks concatenate to the file's bytes. |
| `Fs.Lookup` | packages/preserve-fs/lib/fs.ts:16 | The empty path names the root. A non-empty path names nothing under a file or special node, or when the directory has no entry with its first name. |
| `Fs.LookupAppend` | packages/preserve-fs/lib/fs.ts:16 | Resolving `a` then `b` from the result is resolving `a + b`. A missing prefix leaves the whole path missing. |
| `Fs.Join` | packages/preserve-fs/lib/fs.ts:54-57 | Joining with the empty directory gives the entry name. Otherwise the result is one character longer than both together. |
| `Fs.JoinShape` | packages/preserve-fs/lib/fs.ts:54-57 | A joined path is the directory, one `/`, then the entry name. |
| `Fs.SourcePath` | packages/preserve-fs/lib/fs.ts:34-67 | A file yields exactly one source with its stream, its settings and a top-level `path`. A special node fails with `UnsupportedNodeKind`. On success there is one source per regular file below the node. The only failures are `UnsupportedNodeKind` and `InvalidPathArgument`. `Fs.SourcePathEnumerates` and `Fs.UndefinedPathSettingThrows` state the full enumeration and the `undefined` path case. |
| `Fs.SourceEntries` | packages/preserve-fs/lib/fs.ts:51-65 | An empty listing yields no sources. On success there is one source per regular file below the listed entries. The only failures are `UnsupportedNodeKind` and `InvalidPathArgument`. `Fs.EntriesEnumerate` states the order. |
| `Fs.FindEntry` | packages/preserve-fs/lib/fs.ts:16 | The entry found has the requested name and belongs to the listing. No entry is found only when none has that name. |
| `Fs.ChildSettings` | packages/preserve-fs/lib/fs.ts:53-59 | Without a `path` key, the child gets the same settings. With a string `path`, the child's `path` is that path joined with the entry name. With `undefined` it throws `InvalidPathArgument`. Other keys are always kept. |
| `Fs.TargetPath` | packages/preserve-fs/lib/fs.ts:11-32 | A missing path is rejected with `NotFound`. A special node is rejected with `UnsupportedNodeKind`. A regular file gives exactly one source with the given settings unchanged (`{}` when absent) and no top-level path. |
| `Fs.SourcePathEnumerates` | packages/preserve-fs/lib/fs.ts:34-67 | When the `path` setting is not `undefined`, the walk succeeds exactly when no node is special, and otherwise fails with `UnsupportedNodeKind`. It yields one source per regular file, depth first in listing order, and no source for a directory. Each source has the file's stream, its top-level path (the root joined with the entry names) and the inherited settings. |
| `Fs.EntriesEnumerate` | packages/preserve-fs/lib/fs.ts:48-65 | Walking a listing emits each entry's whole subtree before the next entry. It succeeds exactly when every entry is walkable. |
| `Fs.StepDown` | packages/preserve-fs/lib/fs.ts:53-61 | Walking entry `name` with the child path and child settings is walking its files one name deeper from the parent. |
| `Fs.SettingsPassThrough` | packages/preserve-fs/lib/fs.ts:56-58 | Without a `path` key, every descendant file carries the very settings given. |
| `Fs.PathSettingFollowsWalk` | packages/preserve-fs/lib/fs.ts:41-58 | With a string `path` setting and no special node, the walk succeeds with one source per regular file. The file's `path` setting and its top-level `path` are extended by the same entry names. No other settings key changes. |
| `Fs.UndefinedPathSettingThrows` | packages/preserve-fs/lib/fs.ts:56-57 | A `path` key holding `undefined` makes the walk of a non-empty directory fail with `InvalidPathArgument`. |
| `Fs.TargetPathDirectory` | packages/preserve-fs/lib/fs.ts:27-30 | When the `path` setting is not `undefined`, targeting a directory succeeds exactly when its subtree is walkable. It then yields exactly the file sources of its subtree, rooted at the targeted path. `Fs.UndefinedPathSettingThrows` covers an `undefined` setting. |
| `FsExamples.TargetOnlyFile` | packages/preserve-fs/lib/test/fs.ts:21-33 | In a tree holding only the file `a`, targeting `a` yields that one file with its settings. It thunks to `a`. |
| `FsExamples.TargetAmongSiblings` | packages/preserve-fs/lib/test/fs.ts:34-54 | In a tree holding `a`, `b` and `c`, targeting `b` yields `b` alone. It thunks to `b`. |
| `FsExamples.TargetSubDirectory` | packages/preserve-fs/lib/test/fs.ts:73-93 | In the tree `a/a/a`, `a/b/a`, `a/c`, targeting `a/a` yields exactly one source, at `a/a/a`. It thunks to `aaa`. |
| `FsExamples.TargetSingleDirectory` | packages/preserve-fs/lib/test/fs.ts:55-72 | Targeting `directory` yields `directory/1` and then `directory/2`. |
| `FsExamples.TargetSingleFile` | packages/preserve-fs/lib/fs.ts:18-26 | Targeting the file `a/c` yields one source with the settings unchanged and no top-level path. |
| `FsExamples.TargetMissing` | packages/preserve-fs/lib/fs.ts:16 | Targeting a path that does not exist is rejected with `NotFound`. |
| `FsExamples.ThunkTextFile` | packages/preserve-fs/lib/test/fs.ts:133-142 | Reading a file that holds a text's encoding, then thunking it, gives the text back. |
| `Ipfs.DefinedPath` | packages/preserve-to-ipfs/lib/ipfs.ts:44-46 | A path exists exactly when there is a settings object whose `path` is a string, and it is that string. |
| `Ipfs.ToFileObject` | packages/preserve-to-ipfs/lib/ipfs.ts:42-46 | The file object's content is the normalized content, unchanged. It has a `path` exactly when `settings.path` is defined, and then equal to it. |
| `Ipfs.FileObjects` | packages/preserve-to-ipfs/lib/ipfs.ts:41-47 | There is exactly one file object per normalized source, in source order. |
| `Ipfs.StoreInput` | packages/preserve-to-ipfs/lib/ipfs.ts:37-47 | The store receives one file object per raw source, in order. Each carries the normalized content and the defined `path` setting, if any. |
| `Ipfs.PreserveToIpfs` | packages/preserve-to-ipfs/lib/ipfs.ts:26-53 | The records are what the store's `add` returns for file objects that correspond one-to-one and in order to the sources. |
| `Ipfs.FileObjectIgnoresOtherKeys` | packages/preserve-to-ipfs/lib/ipfs.ts:43-46 | Sources that agree on content and defined path give the same file object. Other settings keys and fields are not carried. |
| `Ipfs.NoPathMeansNoPathField` | packages/preserve-to-ipfs/lib/ipfs.ts:44-46 | No settings, an absent `path` and an `undefined` `path` all give a file object without a path. |
| `StoreReader.CountFiles` | packages/preserve-to-ipfs/test/fetch.ts:32 | There are at most as many content-bearing entries as entries. |
| `StoreReader.Fetch` | packages/preserve-to-ipfs/test/fetch.ts:26-37 | There is one text per content-bearing entry, so at most one per entry. The result is empty exactly when every entry is a directory. Every text decodes some file entry, and every file entry's decoding is present. |
| `StoreReader.FetchAppend` | packages/preserve-to-ipfs/test/fetch.ts:30-34 | Fetching a listing in two parts gives the fetch of each part, in order. The store's yield order is kept. |
| `StoreReader.FetchSingle` | packages/preserve-to-ipfs/test/fetch.ts:31-32 | A file entry gives exactly the decoding of its concatenated chunks. A directory entry gives nothing. |
| `StoreReader.ReadBackThunks` | packages/preserve-to-ipfs/lib/test/ipfs.ts:199-213 | If the store lists a pushed file object's content unchanged, reading it gives the thunked source's text. |
| `StoreReader.TextRoundTripThroughStore` | packages/preserve-to-ipfs/lib/test/ipfs.ts:171-216 | If the store hands back the chunks it received, reading a text source gives the very text. |

## Left out

- Laziness, async scheduling, backpressure and resource release are not modelled. Every iterable, async iterable and generator is a finite `seq`. The "no read before the first pull" properties have no counterpart.
- The `Result` model reports the first error in walk order. It drops the sources a lazy consumer would already have received before that error.
- Only the values that `Buffer.from` copies are modelled. Shared `ArrayBuffer` memory is not. Non-`Uint8` typed arrays are taken to contain their byte values, not converted element by element.
- Strings are sequences of Unicode scalar values. JavaScript strings holding lone surrogates cannot be represented.
- Decoding follows the WHATWG UTF-8 decoder. Node's own decoder is not part of this model.
- Content values that are neither strings nor objects (numbers, booleans, `null`) are not modelled. They are outside the declared `Content` type, and `Symbol.iterator in` throws on truthy ones.
- A `DataView` passes the bytes test, but `Buffer.from` gives an empty buffer for it. `Block` holds the view's bytes instead. A `DataView` is outside the declared `Bytes` union.
- Elements of an iterable are assumed to be byte blocks.
- `path.join` normalization is not modelled. `.`, `..`, duplicate and trailing slashes are not handled. Joining with the empty path gives the entry name. Entry names are plain names.
- Targeted paths are names below the tree root, which stands for the working directory. An absolute targeted path, and its leading `/` in the top-level `path` field, is not modelled.
- Symlinks are not followed. `stat` failing because a path component is a file (ENOTDIR) is reported as `NotFound`.
- `createReadStream` reads the file as it is when walked. Concurrent modification is not modelled.
- The store's content hashing, identifiers and directory-record inference are not modelled. The N files / N+1 records cardinality belongs to the store's `add`, which is an opaque parameter.
- Store, network and drain errors from collaborators are not modelled. They propagate unchanged.
- `packages/preserve/lib/index.ts` (re-exports) and `packages/interface-adapter/lib/web3-interface-adapter.ts` are not part of this model.
- StoreReader.Fetch: the contract states membership both ways plus the count. The exact positional correspondence is stated by `FetchAppend` and `FetchSingle` together.
