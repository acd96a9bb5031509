/** The walker's test scenarios, as concrete trees. */
module FsExamples {
  import opened Wrappers
  import opened Bytes
  import opened Content
  import opened Targets
  import opened Fs
  import opened Thunks
  import Utf8

  /** A file whose bytes are the encoding of `text`. */
  function TextFile(text: string): Node {
    File(Utf8.Encode(text))
  }

  /** Files `a/a/a`, `a/b/a` and `a/c`. */
  const SubDirectory: Node :=
    Dir([Entry("a", Dir([
      Entry("a", Dir([Entry("a", TextFile("aaa"))])),
      Entry("b", Dir([Entry("a", TextFile("aba"))])),
      Entry("c", TextFile("ac"))]))])

  /** Files `directory/1` and `directory/2`. */
  const SingleDirectory: Node :=
    Dir([Entry("directory", Dir([Entry("1", TextFile("1")), Entry("2", TextFile("2"))]))])

  /** The single file `a`. */
  const SingleFileTree: Node :=
    Dir([Entry("a", TextFile("a"))])

  /** The files `a`, `b` and `c` side by side. */
  const ExtraFilesTree: Node :=
    Dir([Entry("a", TextFile("a")), Entry("b", TextFile("b")), Entry("c", TextFile("c"))])

  /** Settings `{ path: p }`. */
  function PathSettings(p: string): Settings {
    Settings(Defined(p), map[])
  }

  /** Targeting `a/a` yields the single file `a/a/a`, whose text is `aaa`. */
  lemma TargetSubDirectory()
    ensures TargetPath(SubDirectory, ["a", "a"], Some(PathSettings("a/a")))
      == Success(Target([Source(ReadStream(Utf8.Encode("aaa")), Some(PathSettings("a/a/a")), map["path" := "a/a/a"])]))
    ensures Thunk(TargetPath(SubDirectory, ["a", "a"], Some(PathSettings("a/a"))).value)
      == Success(Target([Source("aaa", Some(PathSettings("a/a/a")), map["path" := "a/a/a"])]))
  {
    var leaf := Dir([Entry("a", TextFile("aaa"))]);
    assert Lookup(SubDirectory, ["a", "a"]) == Some(leaf) by {
      assert ["a", "a"][1..] == ["a"];
      assert ["a"][1..] == [];
    }
    assert JoinAll("", ["a", "a"]) == "a/a" by {
      assert ["a", "a"][1..] == ["a"];
    }
    TargetPathDirectory(SubDirectory, ["a", "a"], Some(PathSettings("a/a")));
    assert Files(leaf) == [FileAt(["a"], Utf8.Encode("aaa"))] by {
      OneLevel("a", Utf8.Encode("aaa"));
    }
    assert Walkable(leaf);
    assert JoinAll("a/a", ["a"]) == "a/a/a";
    assert Inherit(PathSettings("a/a"), ["a"]) == PathSettings("a/a/a");
    assert FileSources(Files(leaf), "a/a", PathSettings("a/a"))
      == [Source(ReadStream(Utf8.Encode("aaa")), Some(PathSettings("a/a/a")), map["path" := "a/a/a"])];
    var src := Source(ReadStream(Utf8.Encode("aaa")), Some(PathSettings("a/a/a")), map["path" := "a/a/a"]);
    ThunkTextFile("aaa");
    var r := Thunk(Target([src]));
    assert Supported(src.content);
    assert r.Success? && |r.value.sources| == 1;
    assert r.value.sources[0] == src.WithContent("aaa");
    assert r.value.sources == [src.WithContent("aaa")];
  }

  /** Targeting `directory` yields `directory/1` then `directory/2`. */
  lemma TargetSingleDirectory()
    ensures TargetPath(SingleDirectory, ["directory"], Some(PathSettings("directory")))
      == Success(Target([
           Source(ReadStream(Utf8.Encode("1")), Some(PathSettings("directory/1")), map["path" := "directory/1"]),
           Source(ReadStream(Utf8.Encode("2")), Some(PathSettings("directory/2")), map["path" := "directory/2"])]))
  {
    var d := Dir([Entry("1", TextFile("1")), Entry("2", TextFile("2"))]);
    assert Lookup(SingleDirectory, ["directory"]) == Some(d);
    assert JoinAll("", ["directory"]) == "directory";
    TargetPathDirectory(SingleDirectory, ["directory"], Some(PathSettings("directory")));
    assert Files(d) == [FileAt(["1"], Utf8.Encode("1")), FileAt(["2"], Utf8.Encode("2"))] by {
      var es := [Entry("1", TextFile("1")), Entry("2", TextFile("2"))];
      OneLevel("1", Utf8.Encode("1"));
      OneLevel("2", Utf8.Encode("2"));
      assert es[1..] == [Entry("2", TextFile("2"))];
      assert FilesOf(es) == Under("1", Files(TextFile("1"))) + FilesOf(es[1..]);
    }
    assert JoinAll("directory", ["1"]) == "directory/1";
    assert JoinAll("directory", ["2"]) == "directory/2";
    assert Walkable(d);
    assert Inherit(PathSettings("directory"), ["1"]) == PathSettings("directory/1");
    assert Inherit(PathSettings("directory"), ["2"]) == PathSettings("directory/2");
    assert FileSources(Files(d), "directory", PathSettings("directory")) == [
      Source(ReadStream(Utf8.Encode("1")), Some(PathSettings("directory/1")), map["path" := "directory/1"]),
      Source(ReadStream(Utf8.Encode("2")), Some(PathSettings("directory/2")), map["path" := "directory/2"])];
  }

  /** Targeting the file `a/c` yields one source with the settings unchanged and no top-level path. */
  lemma TargetSingleFile()
    ensures TargetPath(SubDirectory, ["a", "c"], Some(PathSettings("a/c")))
      == Success(Target([Source(ReadStream(Utf8.Encode("ac")), Some(PathSettings("a/c")), map[])]))
  {
  }

  /** Targeting the only file `a` yields it, and thunking it gives the text `a`. */
  lemma TargetOnlyFile()
    ensures TargetPath(SingleFileTree, ["a"], Some(PathSettings("a")))
      == Success(Target([Source(ReadStream(Utf8.Encode("a")), Some(PathSettings("a")), map[])]))
    ensures Thunk(Target([Source(ReadStream(Utf8.Encode("a")), Some(PathSettings("a")), map[])]))
      == Success(Target([Source("a", Some(PathSettings("a")), map[])]))
  {
    var src := Source(ReadStream(Utf8.Encode("a")), Some(PathSettings("a")), map[]);
    ThunkTextFile("a");
    assert Supported(src.content);
    assert Thunk(Target([src])).value.sources == [src.WithContent("a")];
  }

  /** Targeting `b` among `a`, `b` and `c` yields `b` alone, and thunking it gives the text `b`. */
  lemma TargetAmongSiblings()
    ensures TargetPath(ExtraFilesTree, ["b"], Some(PathSettings("b")))
      == Success(Target([Source(ReadStream(Utf8.Encode("b")), Some(PathSettings("b")), map[])]))
    ensures Thunk(Target([Source(ReadStream(Utf8.Encode("b")), Some(PathSettings("b")), map[])]))
      == Success(Target([Source("b", Some(PathSettings("b")), map[])]))
  {
    var src := Source(ReadStream(Utf8.Encode("b")), Some(PathSettings("b")), map[]);
    ThunkTextFile("b");
    assert Supported(src.content);
    assert Thunk(Target([src])).value.sources == [src.WithContent("b")];
  }

  /** A path that names nothing is rejected. */
  lemma TargetMissing()
    ensures TargetPath(SubDirectory, ["b"], None) == Failure(NotFound)
  {
  }

  /** A directory holding one file lists that file one name deep. */
  lemma OneLevel(name: string, data: Bytes)
    ensures FilesOf([Entry(name, File(data))]) == [FileAt([name], data)]
  {
    assert [name] + [] == [name];
    assert [Entry(name, File(data))][1..] == [];
  }

  /** Reading a text file's stream and decoding it gives the text back. */
  lemma ThunkTextFile(text: string)
    ensures ThunkContent(ReadStream(Utf8.Encode(text)).asyncIter.value) == text
  {
    Utf8.DecodeEncode(text);
  }
}
