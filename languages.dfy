/** Language classification by file extension and the extension filter of
    file discovery (codecompass.py, `EXT_PARA_LINGUAGEM`, `listar_arquivos`
    and the first two lines of `analisar_codigo_conteudo`). */
module Languages {
  import opened Strings
  import opened Seqs

  /** A discovered file: `text` is `str(caminho)`, `suffix` is pathlib's
      `caminho.suffix` (the final extension with its dot, or empty). */
  datatype Path = Path(text: string, suffix: string)

  /** The label given to a suffix that is not in the table. */
  const Unknown: string := "Desconhecida"

  /** `EXT_PARA_LINGUAGEM`: the twelve known extensions, all lower-case. */
  const ExtToLanguage: map<string, string> := map[
    ".py" := "Python",
    ".java" := "Java",
    ".js" := "JavaScript",
    ".ts" := "TypeScript",
    ".c" := "C",
    ".cpp" := "C++",
    ".cs" := "C#",
    ".go" := "Go",
    ".rb" := "Ruby",
    ".php" := "PHP",
    ".rs" := "Rust",
    ".swift" := "Swift"
  ]

  /** `EXT_PARA_LINGUAGEM.get(suffix.lower(), "Desconhecida")`. */
  function Classify(suffix: string): (lang: string)
    ensures lang == Unknown <==> Lower(suffix) !in ExtToLanguage
    ensures lang != Unknown ==> lang in ExtToLanguage.Values
  {
    var ext := Lower(suffix);
    if ext in ExtToLanguage then ExtToLanguage[ext] else Unknown
  }

  /** The filter of `listar_arquivos`: keep a path exactly when its suffix,
      as written and without lower-casing, is a key of the table. */
  function ListFiles(paths: seq<Path>): (kept: seq<Path>)
    ensures IsSubsequence(kept, paths)
    ensures forall k :: 0 <= k < |kept| ==> kept[k].suffix in ExtToLanguage
    ensures forall p :: p in paths && p.suffix in ExtToLanguage ==> p in kept
    ensures |kept| == CountWhere(paths, HasKnownSuffix)
    decreases |paths|
  {
    if paths == [] then []
    else
      assert paths == [paths[0]] + paths[1..];
      CountWhereAppend([paths[0]], paths[1..], HasKnownSuffix);
      CountWhereSingle(paths[0], HasKnownSuffix);
      if paths[0].suffix in ExtToLanguage then [paths[0]] + ListFiles(paths[1..])
      else ListFiles(paths[1..])
  }

  /** The test `listar_arquivos` applies to a path. */
  predicate HasKnownSuffix(p: Path)
  {
    p.suffix in ExtToLanguage
  }

  /** Every table key is already lower-case. */
  lemma KeysAreLowerCase(k: string)
    requires k in ExtToLanguage
    ensures Lower(k) == k
  {
    KeyHasNoUpperCase(k);
    LowerOfLowerCase(k);
  }

  lemma KeyHasNoUpperCase(k: string)
    requires k in ExtToLanguage
    ensures NoUpperCase(k)
  {
    assert k == ".py" || k == ".java" || k == ".js" || k == ".ts" || k == ".c" ||
           k == ".cpp" || k == ".cs" || k == ".go" || k == ".rb" || k == ".php" ||
           k == ".rs" || k == ".swift";
  }

  /** A suffix is classified as the table entry for its lower-cased form,
      and as "Desconhecida" exactly when that form is not a key; suffixes
      that differ only in ASCII case get the same language. */
  lemma ClassifyByTable(suffix: string, other: string)
    ensures Classify(suffix) == Unknown <==> Lower(suffix) !in ExtToLanguage
    ensures Classify(suffix) != Unknown ==> Classify(suffix) in ExtToLanguage.Values
    ensures Lower(suffix) == Lower(other) ==> Classify(suffix) == Classify(other)
    ensures Lower(suffix) in ExtToLanguage ==> Classify(suffix) == ExtToLanguage[Lower(suffix)]
  {
    if Lower(suffix) in ExtToLanguage {
      EntriesAreKnown(Lower(suffix));
    }
  }

  /** Exactly the suffixes `.py` and `.java`, in any ASCII case, select the
      two languages that the analyzer's rules test for. */
  lemma ClassifyPythonJava(suffix: string)
    ensures Classify(suffix) == "Python" <==> Lower(suffix) == ".py"
    ensures Classify(suffix) == "Java" <==> Lower(suffix) == ".java"
  {
  }

  /** A path that discovery keeps always has a known language. */
  lemma ListedFilesAreClassified(paths: seq<Path>, k: nat)
    requires k < |ListFiles(paths)|
    ensures Classify(ListFiles(paths)[k].suffix) != Unknown
    ensures Classify(ListFiles(paths)[k].suffix) == ExtToLanguage[ListFiles(paths)[k].suffix]
  {
    var suffix := ListFiles(paths)[k].suffix;
    KeysAreLowerCase(suffix);
    EntriesAreKnown(suffix);
  }

  /** No table entry is the "Desconhecida" label. */
  lemma EntriesAreKnown(k: string)
    requires k in ExtToLanguage
    ensures ExtToLanguage[k] != Unknown
  {
  }

  /** Every kept path is one of the input paths. */
  lemma ListedPathsAreInputs(paths: seq<Path>, p: Path)
    requires p in ListFiles(paths)
    ensures p in paths
  {
    SubsequenceElements(ListFiles(paths), paths, p);
  }

  /** Discovery keeps nothing exactly when no path has a known suffix. */
  lemma ListFilesEmpty(paths: seq<Path>)
    ensures ListFiles(paths) == [] <==> forall i :: 0 <= i < |paths| ==> !HasKnownSuffix(paths[i])
  {
    CountWhereZero(paths, HasKnownSuffix);
  }

  /** The asymmetry between the two lookups: `FOO.PY` classifies as Python
      when analysed directly, yet discovery drops it because its suffix
      `.PY` is not a key as written. */
  lemma UpperCaseSuffixDropped()
    ensures Classify(".PY") == "Python"
    ensures ListFiles([Path("FOO.PY", ".PY")]) == []
  {
    assert Lower(".PY") == ".py";
  }
}
