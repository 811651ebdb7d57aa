/** The Markdown report of codecompass.py (`salvar_markdown`): a list of
    lines, a title and then one section per result, joined with "\n" to
    form the file's text. */
module Markdown {
  import opened Seqs
  import opened Strings
  import opened Analyzer

  const Title: string := "# Relatório CodeCompass"
  const PointsHeading: string := "### Pontos de atenção"
  const SuggestionsHeading: string := "### Sugestões"

  /** The first header line of a section; it starts with a line break, so
      the written file has an empty line before each section. */
  function FileHeading(r: FileReport): string
  {
    "\n## \U{1F4C4} " + r.arquivo
  }

  function LanguageLine(r: FileReport): string { "**Linguagem:** " + r.linguagem }
  function SummaryLine(r: FileReport): string { "**Resumo:** " + r.resumo }
  function BulletLine(x: string): string { "- " + x }

  function Header(r: FileReport): seq<string>
  {
    [FileHeading(r), LanguageLine(r), SummaryLine(r)]
  }

  /** One `- ` line per item, in order. */
  function Bullets(items: seq<string>): (lines: seq<string>)
    ensures |lines| == |items|
    ensures forall k :: 0 <= k < |items| ==> lines[k] == BulletLine(items[k])
    decreases |items|
  {
    if items == [] then []
    else Bullets(items[..|items| - 1]) + [BulletLine(items[|items| - 1])]
  }

  /** A heading with its bullets, or nothing at all for an empty list. */
  function Block(heading: string, items: seq<string>): seq<string>
  {
    if items == [] then [] else [heading] + Bullets(items)
  }

  function Section(r: FileReport): seq<string>
  {
    Header(r) + Block(PointsHeading, r.pontosAtencao) + Block(SuggestionsHeading, r.sugestoes)
  }

  function Sections(rs: seq<FileReport>): seq<string>
    decreases |rs|
  {
    if rs == [] then [] else Sections(rs[..|rs| - 1]) + Section(rs[|rs| - 1])
  }

  /** The line list `linhas` that `salvar_markdown` builds. */
  function Document(rs: seq<FileReport>): seq<string>
  {
    [Title] + Sections(rs)
  }

  /** The text written to the Markdown file. */
  function Text(rs: seq<FileReport>): string
  {
    Join(Document(rs), "\n")
  }

  /** `salvar_markdown` up to the write: start from the title and append
      each result's lines. */
  method RenderMarkdown(resultados: seq<FileReport>) returns (linhas: seq<string>)
    ensures linhas == Document(resultados)
  {
    linhas := [Title];
    for i := 0 to |resultados|
      invariant linhas == [Title] + Sections(resultados[..i])
    {
      assert resultados[..i + 1][..i] == resultados[..i];
      SectionsSnoc(resultados[..i + 1]);
      linhas := AppendSection(linhas, resultados[i]);
    }
    assert resultados[..|resultados|] == resultados;
  }

  /** The body of the loop over results: three header lines, then each
      list with its heading only when it is non-empty. */
  method AppendSection(linhas: seq<string>, r: FileReport) returns (out: seq<string>)
    ensures out == linhas + Section(r)
  {
    out := linhas + ["\n## \U{1F4C4} " + r.arquivo];
    out := out + ["**Linguagem:** " + r.linguagem];
    out := out + ["**Resumo:** " + r.resumo];
    assert out == linhas + Header(r);
    ghost var withHeader := out;
    out := AppendBlock(out, PointsHeading, r.pontosAtencao);
    out := AppendBlock(out, SuggestionsHeading, r.sugestoes);
    assert out == withHeader + Block(PointsHeading, r.pontosAtencao) + Block(SuggestionsHeading, r.sugestoes);
  }

  /** `if r.get(key): linhas.append(heading); <bullets>`. */
  method AppendBlock(linhas: seq<string>, heading: string, items: seq<string>) returns (out: seq<string>)
    ensures out == linhas + Block(heading, items)
  {
    out := linhas;
    if items != [] {
      out := out + [heading];
      out := AppendBullets(out, items);
      assert out == linhas + ([heading] + Bullets(items));
    }
  }

  /** The inner `for p in ...: linhas.append(f"- {p}")` loop. */
  method AppendBullets(linhas: seq<string>, items: seq<string>) returns (out: seq<string>)
    ensures out == linhas + Bullets(items)
  {
    out := linhas;
    for j := 0 to |items|
      invariant out == linhas + Bullets(items[..j])
    {
      assert items[..j + 1][..j] == items[..j];
      out := out + ["- " + items[j]];
    }
    assert items[..|items|] == items;
  }

  /** Lines taken by a block: none for an empty list, otherwise the
      heading and the bullets. */
  function BlockSize(items: seq<string>): nat
  {
    if items == [] then 0 else 1 + |items|
  }

  /** The layout of one section: three header lines, then the attention
      heading only when there are points, then the suggestion heading only
      when there are suggestions. */
  lemma SectionLayout(r: FileReport)
    ensures var s := Section(r);
      var np, ns := BlockSize(r.pontosAtencao), BlockSize(r.sugestoes);
      |s| == 3 + np + ns &&
      s[0] == FileHeading(r) && s[1] == LanguageLine(r) && s[2] == SummaryLine(r) &&
      (r.pontosAtencao != [] ==> s[3] == PointsHeading) &&
      (r.sugestoes != [] ==> s[3 + np] == SuggestionsHeading)
  {
    var h, p, q := Header(r), Block(PointsHeading, r.pontosAtencao), Block(SuggestionsHeading, r.sugestoes);
    assert Section(r) == h + p + q;
    if r.pontosAtencao != [] {
      assert p == [PointsHeading] + Bullets(r.pontosAtencao);
      assert (h + p + q)[3] == p[0];
    }
    if r.sugestoes != [] {
      assert q == [SuggestionsHeading] + Bullets(r.sugestoes);
      assert (h + p + q)[3 + |p|] == q[0];
    }
  }

  /** The k-th attention point is the k-th bullet after its heading. */
  lemma PointBulletLine(r: FileReport, k: nat)
    requires k < |r.pontosAtencao|
    ensures 4 + k < |Section(r)| && Section(r)[4 + k] == BulletLine(r.pontosAtencao[k])
  {
    var h, p, q := Header(r), Block(PointsHeading, r.pontosAtencao), Block(SuggestionsHeading, r.sugestoes);
    assert Section(r) == h + p + q;
    assert p == [PointsHeading] + Bullets(r.pontosAtencao);
    assert p[1 + k] == Bullets(r.pontosAtencao)[k];
    assert (h + p + q)[4 + k] == p[1 + k];
  }

  /** The k-th suggestion is the k-th bullet after its heading. */
  lemma SuggestionBulletLine(r: FileReport, k: nat)
    requires k < |r.sugestoes|
    ensures var at := 4 + BlockSize(r.pontosAtencao) + k;
      at < |Section(r)| && Section(r)[at] == BulletLine(r.sugestoes[k])
  {
    var h, p, q := Header(r), Block(PointsHeading, r.pontosAtencao), Block(SuggestionsHeading, r.sugestoes);
    assert Section(r) == h + p + q;
    assert q == [SuggestionsHeading] + Bullets(r.sugestoes);
    assert q[1 + k] == Bullets(r.sugestoes)[k];
    assert |p| == BlockSize(r.pontosAtencao);
    assert (h + p + q)[4 + |p| + k] == q[1 + k];
  }

  predicate IsFileHeading(line: string) { |line| >= 4 && line[..4] == "\n## " }
  predicate IsPointsHeading(line: string) { line == PointsHeading }
  predicate IsSuggestionsHeading(line: string) { line == SuggestionsHeading }
  predicate IsBullet(line: string) { |line| >= 2 && line[..2] == "- " }

  /** How each kind of line is recognised. */
  lemma LineKinds(x: string, r: FileReport)
    ensures IsBullet(BulletLine(x)) && !IsFileHeading(BulletLine(x))
    ensures !IsPointsHeading(BulletLine(x)) && !IsSuggestionsHeading(BulletLine(x))
    ensures IsFileHeading(FileHeading(r)) && !IsBullet(FileHeading(r))
    ensures !IsPointsHeading(FileHeading(r)) && !IsSuggestionsHeading(FileHeading(r))
    ensures IsPointsHeading(PointsHeading) && !IsSuggestionsHeading(PointsHeading)
    ensures !IsBullet(PointsHeading) && !IsFileHeading(PointsHeading)
    ensures IsSuggestionsHeading(SuggestionsHeading) && !IsPointsHeading(SuggestionsHeading)
    ensures !IsBullet(SuggestionsHeading) && !IsFileHeading(SuggestionsHeading)
    ensures !IsFileHeading(Title) && !IsBullet(Title)
    ensures !IsPointsHeading(Title) && !IsSuggestionsHeading(Title)
  {
    assert BulletLine(x)[..2] == "- ";
    assert BulletLine(x)[0] == '-';
    assert FileHeading(r)[..4] == "\n## ";
    assert FileHeading(r)[0] == '\n';
  }

  /** The two header lines after the file heading are of no counted kind. */
  lemma FieldLines(r: FileReport)
    ensures var l := LanguageLine(r);
      !IsFileHeading(l) && !IsBullet(l) && !IsPointsHeading(l) && !IsSuggestionsHeading(l)
    ensures var l := SummaryLine(r);
      !IsFileHeading(l) && !IsBullet(l) && !IsPointsHeading(l) && !IsSuggestionsHeading(l)
  {
    var l1, l2 := LanguageLine(r), SummaryLine(r);
    assert l1[0] == '*' && l2[0] == '*';
    assert l1[..4][0] == '*' && l1[..2][0] == '*';
    assert l2[..4][0] == '*' && l2[..2][0] == '*';
  }

  /** Bullet lines are bullets and nothing else. */
  lemma {:induction false} BulletsCensus(items: seq<string>)
    ensures CountWhere(Bullets(items), IsBullet) == |items|
    ensures CountWhere(Bullets(items), IsFileHeading) == 0
    ensures CountWhere(Bullets(items), IsPointsHeading) == 0
    ensures CountWhere(Bullets(items), IsSuggestionsHeading) == 0
    decreases |items|
  {
    if items != [] {
      var b := Bullets(items);
      var init := items[..|items| - 1];
      assert b[..|b| - 1] == Bullets(init);
      LineKinds(items[|items| - 1], FileReport([], [], [], [], []));
      BulletsCensus(init);
    }
  }

  /** A block holds its heading once and one bullet per item. */
  lemma BlockCensus(heading: string, items: seq<string>)
    requires heading == PointsHeading || heading == SuggestionsHeading
    ensures CountWhere(Block(heading, items), IsBullet) == |items|
    ensures CountWhere(Block(heading, items), IsFileHeading) == 0
    ensures CountWhere(Block(heading, items), IsPointsHeading)
      == if items != [] && heading == PointsHeading then 1 else 0
    ensures CountWhere(Block(heading, items), IsSuggestionsHeading)
      == if items != [] && heading == SuggestionsHeading then 1 else 0
  {
    BulletsCensus(items);
    if items != [] {
      LineKinds([], FileReport([], [], [], [], []));
      CountWhereSingle(heading, IsBullet);
      CountWhereSingle(heading, IsFileHeading);
      CountWhereSingle(heading, IsPointsHeading);
      CountWhereSingle(heading, IsSuggestionsHeading);
      CountWhereAppend([heading], Bullets(items), IsBullet);
      CountWhereAppend([heading], Bullets(items), IsFileHeading);
      CountWhereAppend([heading], Bullets(items), IsPointsHeading);
      CountWhereAppend([heading], Bullets(items), IsSuggestionsHeading);
    }
  }

  /** The three header lines: one file heading, no list heading, no bullet. */
  lemma HeaderCensus(r: FileReport)
    ensures CountWhere(Header(r), IsFileHeading) == 1
    ensures CountWhere(Header(r), IsPointsHeading) == 0
    ensures CountWhere(Header(r), IsSuggestionsHeading) == 0
    ensures CountWhere(Header(r), IsBullet) == 0
  {
    var a, b, c := FileHeading(r), LanguageLine(r), SummaryLine(r);
    assert Header(r) == [a] + [b] + [c];
    LineKinds([], r);
    FieldLines(r);
    CountWhere3(a, b, c, IsFileHeading);
    CountWhere3(a, b, c, IsPointsHeading);
    CountWhere3(a, b, c, IsSuggestionsHeading);
    CountWhere3(a, b, c, IsBullet);
  }

  /** One section: one file heading, each list heading exactly when its
      list is non-empty, one bullet per item. */
  lemma SectionCensus(r: FileReport)
    ensures CountWhere(Section(r), IsFileHeading) == 1
    ensures CountWhere(Section(r), IsPointsHeading) == if HasPoints(r) then 1 else 0
    ensures CountWhere(Section(r), IsSuggestionsHeading) == if HasSuggestions(r) then 1 else 0
    ensures CountWhere(Section(r), IsBullet) == |r.pontosAtencao| + |r.sugestoes|
  {
    var h, p, s := Header(r), Block(PointsHeading, r.pontosAtencao), Block(SuggestionsHeading, r.sugestoes);
    BlockCensus(PointsHeading, r.pontosAtencao);
    BlockCensus(SuggestionsHeading, r.sugestoes);
    HeaderCensus(r);
    CountWhereAppend(h + p, s, IsFileHeading);
    CountWhereAppend(h, p, IsFileHeading);
    CountWhereAppend(h + p, s, IsPointsHeading);
    CountWhereAppend(h, p, IsPointsHeading);
    CountWhereAppend(h + p, s, IsSuggestionsHeading);
    CountWhereAppend(h, p, IsSuggestionsHeading);
    CountWhereAppend(h + p, s, IsBullet);
    CountWhereAppend(h, p, IsBullet);
  }

  /** Over the whole document: the title line, then exactly one file
      heading per result, an attention heading per result with points, a
      suggestion heading per result with suggestions, and one bullet line
      per list item. */
  lemma {:induction false} DocumentCensus(rs: seq<FileReport>)
    ensures Document(rs)[0] == "# Relatório CodeCompass"
    ensures CountWhere(Document(rs), IsFileHeading) == |rs|
    ensures CountWhere(Document(rs), IsPointsHeading) == CountWhere(rs, HasPoints)
    ensures CountWhere(Document(rs), IsSuggestionsHeading) == CountWhere(rs, HasSuggestions)
    ensures CountWhere(Document(rs), IsBullet) == ItemCount(rs)
    decreases |rs|
  {
    if rs == [] {
      assert Document(rs) == [Title];
      LineKinds([], FileReport([], [], [], [], []));
      CountWhereSingle(Title, IsFileHeading);
      CountWhereSingle(Title, IsPointsHeading);
      CountWhereSingle(Title, IsSuggestionsHeading);
      CountWhereSingle(Title, IsBullet);
    } else {
      var init := rs[..|rs| - 1];
      var r := rs[|rs| - 1];
      DocumentCensus(init);
      SectionCensus(r);
      DocumentSnoc(rs);
      CountWhereAppend(Document(init), Section(r), IsFileHeading);
      CountWhereAppend(Document(init), Section(r), IsPointsHeading);
      CountWhereAppend(Document(init), Section(r), IsSuggestionsHeading);
      CountWhereAppend(Document(init), Section(r), IsBullet);
    }
  }

  lemma SectionsSnoc(rs: seq<FileReport>)
    requires rs != []
    ensures Sections(rs) == Sections(rs[..|rs| - 1]) + Section(rs[|rs| - 1])
  {
  }

  /** The document of a longer list is the shorter one's followed by the
      last result's section. */
  lemma DocumentSnoc(rs: seq<FileReport>)
    requires rs != []
    ensures Document(rs) == Document(rs[..|rs| - 1]) + Section(rs[|rs| - 1])
  {
  }

  /** The written text opens with the title. */
  lemma TextStartsWithTitle(rs: seq<FileReport>)
    ensures |Title| <= |Text(rs)| && Text(rs)[..|Title|] == "# Relatório CodeCompass"
  {
    JoinStartsWithFirst(Document(rs), "\n");
  }
}
