/** The accumulation loop of `main` in codecompass.py: every path is read
    and analysed in turn; a path whose read raises is skipped and the loop
    goes on with the next one. The reads themselves are input data. */
module Scan {
  import opened Seqs
  import opened Languages
  import opened Analyzer

  /** One path handed to `main` and the outcome of reading it: the decoded
      text, or `None` when opening or reading raised. */
  datatype FileRead = FileRead(path: Path, content: Option<string>)

  predicate ReadOk(f: FileRead) { f.content.Some? }

  /** The results `main` accumulates, one per successful read, in input
      order. */
  function Scanned(files: seq<FileRead>): seq<FileReport>
    decreases |files|
  {
    if files == [] then []
    else
      var last := files[|files| - 1];
      Scanned(files[..|files| - 1]) +
      (if last.content.Some? then [Analysis(last.path, last.content.value)] else [])
  }

  /** `main`'s loop: `resultados` starts empty and grows by one record per
      path whose read succeeds. */
  method ScanFiles(files: seq<FileRead>) returns (resultados: seq<FileReport>)
    ensures resultados == Scanned(files)
  {
    resultados := [];
    for i := 0 to |files|
      invariant resultados == Scanned(files[..i])
    {
      assert files[..i + 1][..i] == files[..i];
      match files[i].content {
        case None =>
        case Some(conteudo) =>
          var resultado := AnalyzeContent(files[i].path, conteudo);
          resultados := resultados + [resultado];
      }
    }
    assert files[..|files|] == files;
  }

  /** The files whose read succeeded, in input order. */
  function Readable(files: seq<FileRead>): (ok: seq<FileRead>)
    ensures IsSubsequence(ok, files)
    ensures forall k :: 0 <= k < |ok| ==> ok[k].content.Some?
    ensures forall f :: f in files && f.content.Some? ==> f in ok
    decreases |files|
  {
    if files == [] then []
    else if files[0].content.Some? then [files[0]] + Readable(files[1..])
    else Readable(files[1..])
  }

  /** Scanning a concatenation scans each part. */
  lemma {:induction false} ScannedAppend(a: seq<FileRead>, b: seq<FileRead>)
    ensures Scanned(a + b) == Scanned(a) + Scanned(b)
    decreases |b|
  {
    if b == [] {
      assert a + b == a;
    } else {
      var b' := b[..|b| - 1];
      assert (a + b)[..|a + b| - 1] == a + b';
      ScannedAppend(a, b');
    }
  }

  /** A failed read adds no entry and does not stop the later paths. */
  lemma SkipsFailedRead(before: seq<FileRead>, path: Path, after: seq<FileRead>)
    ensures Scanned(before + [FileRead(path, None)] + after) == Scanned(before) + Scanned(after)
  {
    var failed := [FileRead(path, None)];
    assert failed[..0] == [];
    assert Scanned(failed) == [];
    ScannedAppend(before, failed);
    ScannedAppend(before + failed, after);
  }

  /** The report holds exactly one record per successful read, the k-th
      record being the analysis of the k-th readable file; so results keep
      input order and failed reads leave no trace. */
  lemma {:induction false} ScannedIsAnalysisOfReadable(files: seq<FileRead>)
    ensures |Scanned(files)| == |Readable(files)|
    ensures forall k :: 0 <= k < |Scanned(files)| ==>
      Scanned(files)[k] == Analysis(Readable(files)[k].path, Readable(files)[k].content.value)
    decreases |files|
  {
    if files != [] {
      var rest := files[1..];
      assert files == [files[0]] + rest;
      ScannedAppend([files[0]], rest);
      ScannedIsAnalysisOfReadable(rest);
      assert [files[0]][..0] == [];
      var f := files[0];
      if f.content.Some? {
        var head := Analysis(f.path, f.content.value);
        assert Scanned(files) == [head] + Scanned(rest);
        assert Readable(files) == [f] + Readable(rest);
      } else {
        assert Scanned(files) == Scanned(rest);
      }
    }
  }

  /** The number of records is the number of successful reads. */
  lemma {:induction false} ScannedCount(files: seq<FileRead>)
    ensures |Scanned(files)| == CountWhere(files, ReadOk)
    decreases |files|
  {
    if files != [] {
      ScannedCount(files[..|files| - 1]);
    }
  }
}
