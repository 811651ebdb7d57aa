/** The HTML report of codecompass.py (`salvar_html`): a list of lines that
    opens the page and its title, renders one section per result and
    closes the page, joined with "\n". Strings are inserted without
    escaping. */
module Html {
  import opened Seqs
  import opened Strings
  import opened Analyzer

  const PageOpen: string := "<html><body>"
  const PageTitle: string := "<h1>Relatório CodeCompass</h1>"
  const PageClose: string := "</body></html>"
  const PointsOpener: string := "<h3>Pontos de atenção</h3><ul>"
  const SuggestionsOpener: string := "<h3>Sugestões</h3><ul>"
  const ListClose: string := "</ul>"

  function FileHeading(r: FileReport): string { "<h2>" + r.arquivo + "</h2>" }
  function LanguageLine(r: FileReport): string { "<p><strong>Linguagem:</strong> " + r.linguagem + "</p>" }
  function SummaryLine(r: FileReport): string { "<p><strong>Resumo:</strong> " + r.resumo + "</p>" }
  function ItemLine(x: string): string { "<li>" + x + "</li>" }

  /** One `<li>` line per item, in order. */
  function Items(items: seq<string>): (lines: seq<string>)
    ensures |lines| == |items|
    ensures forall k :: 0 <= k < |items| ==> lines[k] == ItemLine(items[k])
    decreases |items|
  {
    if items == [] then []
    else Items(items[..|items| - 1]) + [ItemLine(items[|items| - 1])]
  }

  /** A list with its heading and closing tag, or nothing for an empty list. */
  function ListBlock(opener: string, items: seq<string>): seq<string>
  {
    if items == [] then [] else [opener] + Items(items) + [ListClose]
  }

  function Header(r: FileReport): seq<string>
  {
    [FileHeading(r), LanguageLine(r), SummaryLine(r)]
  }

  function Section(r: FileReport): seq<string>
  {
    Header(r) + ListBlock(PointsOpener, r.pontosAtencao) + ListBlock(SuggestionsOpener, r.sugestoes)
  }

  function Sections(rs: seq<FileReport>): seq<string>
    decreases |rs|
  {
    if rs == [] then [] else Sections(rs[..|rs| - 1]) + Section(rs[|rs| - 1])
  }

  /** The line list `html` that `salvar_html` builds. */
  function Document(rs: seq<FileReport>): seq<string>
  {
    [PageOpen, PageTitle] + Sections(rs) + [PageClose]
  }

  /** The text written to the HTML file. */
  function Text(rs: seq<FileReport>): string
  {
    Join(Document(rs), "\n")
  }

  /** `salvar_html` up to the write. */
  method RenderHtml(resultados: seq<FileReport>) returns (html: seq<string>)
    ensures html == Document(resultados)
  {
    html := [PageOpen, PageTitle];
    for i := 0 to |resultados|
      invariant html == [PageOpen, PageTitle] + Sections(resultados[..i])
    {
      assert resultados[..i + 1][..i] == resultados[..i];
      SectionsSnoc(resultados[..i + 1]);
      html := AppendSection(html, resultados[i]);
    }
    assert resultados[..|resultados|] == resultados;
    html := html + [PageClose];
  }

  /** The body of the loop over results. */
  method AppendSection(html: seq<string>, r: FileReport) returns (out: seq<string>)
    ensures out == html + Section(r)
  {
    out := html + ["<h2>" + r.arquivo + "</h2>"];
    out := out + ["<p><strong>Linguagem:</strong> " + r.linguagem + "</p>"];
    out := out + ["<p><strong>Resumo:</strong> " + r.resumo + "</p>"];
    assert out == html + Header(r);
    ghost var withHeader := out;
    out := AppendList(out, PointsOpener, r.pontosAtencao);
    ghost var withPoints := out;
    out := AppendList(out, SuggestionsOpener, r.sugestoes);
    assert out == withHeader + ListBlock(PointsOpener, r.pontosAtencao) + ListBlock(SuggestionsOpener, r.sugestoes);
  }

  /** `if r.get(key): html.append(opener); <items>; html.append("</ul>")`. */
  method AppendList(html: seq<string>, opener: string, items: seq<string>) returns (out: seq<string>)
    ensures out == html + ListBlock(opener, items)
  {
    out := html;
    if items != [] {
      out := out + [opener];
      out := AppendItems(out, items);
      out := out + [ListClose];
      assert out == html + ([opener] + Items(items) + [ListClose]);
    }
  }

  /** The inner `for p in ...: html.append(f"<li>{p}</li>")` loop. */
  method AppendItems(html: seq<string>, items: seq<string>) returns (out: seq<string>)
    ensures out == html + Items(items)
  {
    out := html;
    for j := 0 to |items|
      invariant out == html + Items(items[..j])
    {
      assert items[..j + 1][..j] == items[..j];
      out := out + ["<li>" + items[j] + "</li>"];
    }
    assert items[..|items|] == items;
  }

  predicate IsFileHeading(line: string) { |line| >= 4 && line[..4] == "<h2>" }
  predicate IsItem(line: string) { |line| >= 4 && line[..4] == "<li>" }
  predicate IsOpener(line: string) { line == PointsOpener || line == SuggestionsOpener }
  predicate IsCloser(line: string) { line == ListClose }

  /** Lists open so far and not yet closed. */
  function Depth(lines: seq<string>): int
  {
    CountWhere(lines, IsOpener) - CountWhere(lines, IsCloser)
  }

  /** Every opened list is closed by the next `</ul>` before another one
      opens: no prefix has more than one open list, none closes a list
      that is not open, and at the end none is left open. */
  predicate ListsMatched(lines: seq<string>)
  {
    (forall k :: 0 <= k <= |lines| ==> 0 <= Depth(lines[..k]) <= 1) && Depth(lines) == 0
  }

  /** How each kind of line is recognised. */
  lemma LineKinds(x: string, r: FileReport)
    ensures IsItem(ItemLine(x)) && !IsFileHeading(ItemLine(x))
    ensures !IsOpener(ItemLine(x)) && !IsCloser(ItemLine(x))
    ensures IsFileHeading(FileHeading(r)) && !IsItem(FileHeading(r))
    ensures !IsOpener(FileHeading(r)) && !IsCloser(FileHeading(r))
    ensures !IsFileHeading(LanguageLine(r)) && !IsItem(LanguageLine(r))
    ensures !IsOpener(LanguageLine(r)) && !IsCloser(LanguageLine(r))
    ensures !IsFileHeading(SummaryLine(r)) && !IsItem(SummaryLine(r))
    ensures !IsOpener(SummaryLine(r)) && !IsCloser(SummaryLine(r))
    ensures IsOpener(PointsOpener) && IsOpener(SuggestionsOpener)
    ensures !IsCloser(PointsOpener) && !IsCloser(SuggestionsOpener)
    ensures !IsItem(PointsOpener) && !IsItem(SuggestionsOpener)
    ensures !IsFileHeading(PointsOpener) && !IsFileHeading(SuggestionsOpener)
    ensures IsCloser(ListClose) && !IsOpener(ListClose)
    ensures !IsItem(ListClose) && !IsFileHeading(ListClose)
    ensures forall l :: l in [PageOpen, PageTitle, PageClose] ==>
      !IsFileHeading(l) && !IsItem(l) && !IsOpener(l) && !IsCloser(l)
  {
    var i, h, lang, sum := ItemLine(x), FileHeading(r), LanguageLine(r), SummaryLine(r);
    assert i[..4] == "<li>" && i[|i| - 1] == '>' && i[1] == 'l';
    assert h[..4] == "<h2>" && h[1] == 'h' && h[2] == '2';
    assert lang[1] == 'p' && lang[..4][1] == 'p';
    assert sum[1] == 'p' && sum[..4][1] == 'p';
    assert PointsOpener[..4][2] == '3' && SuggestionsOpener[..4][2] == '3';
    assert PageTitle[..4] == "<h1>";
  }

  /** Item lines are items and nothing else. */
  lemma {:induction false} ItemsCensus(items: seq<string>)
    ensures CountWhere(Items(items), IsItem) == |items|
    ensures CountWhere(Items(items), IsFileHeading) == 0
    ensures CountWhere(Items(items), IsOpener) == 0
    ensures CountWhere(Items(items), IsCloser) == 0
    decreases |items|
  {
    if items != [] {
      var b := Items(items);
      var init := items[..|items| - 1];
      assert b[..|b| - 1] == Items(init);
      LineKinds(items[|items| - 1], FileReport([], [], [], [], []));
      ItemsCensus(init);
    }
  }

  /** Counting over opener, items and closer. */
  lemma CountBlock(opener: string, items: seq<string>, f: string -> bool)
    ensures CountWhere([opener] + Items(items) + [ListClose], f)
      == (if f(opener) then 1 else 0) + CountWhere(Items(items), f) + (if f(ListClose) then 1 else 0)
  {
    CountWhereAppend([opener] + Items(items), [ListClose], f);
    CountWhereAppend([opener], Items(items), f);
    CountWhereSingle(opener, f);
    CountWhereSingle(ListClose, f);
  }

  /** A list block: one opener and one closer when the list is non-empty,
      one `<li>` line per item. */
  lemma BlockCensus(opener: string, items: seq<string>)
    requires opener == PointsOpener || opener == SuggestionsOpener
    ensures CountWhere(ListBlock(opener, items), IsItem) == |items|
    ensures CountWhere(ListBlock(opener, items), IsFileHeading) == 0
    ensures CountWhere(ListBlock(opener, items), IsOpener) == if items != [] then 1 else 0
    ensures CountWhere(ListBlock(opener, items), IsCloser) == if items != [] then 1 else 0
  {
    ItemsCensus(items);
    if items != [] {
      LineKinds([], FileReport([], [], [], [], []));
      CountBlock(opener, items, IsItem);
      CountBlock(opener, items, IsFileHeading);
      CountBlock(opener, items, IsOpener);
      CountBlock(opener, items, IsCloser);
    }
  }

  lemma HeaderCensus(r: FileReport)
    ensures CountWhere(Header(r), IsFileHeading) == 1
    ensures CountWhere(Header(r), IsItem) == 0
    ensures CountWhere(Header(r), IsOpener) == 0
    ensures CountWhere(Header(r), IsCloser) == 0
  {
    var a, b, c := FileHeading(r), LanguageLine(r), SummaryLine(r);
    assert Header(r) == [a] + [b] + [c];
    LineKinds([], r);
    CountWhere3(a, b, c, IsFileHeading);
    CountWhere3(a, b, c, IsItem);
    CountWhere3(a, b, c, IsOpener);
    CountWhere3(a, b, c, IsCloser);
  }

  /** One section: one `<h2>` line, one opener and one closer per non-empty
      list, one `<li>` line per entry. */
  lemma SectionCensus(r: FileReport)
    ensures CountWhere(Section(r), IsFileHeading) == 1
    ensures CountWhere(Section(r), IsItem) == |r.pontosAtencao| + |r.sugestoes|
    ensures CountWhere(Section(r), IsOpener)
      == (if HasPoints(r) then 1 else 0) + (if HasSuggestions(r) then 1 else 0)
    ensures CountWhere(Section(r), IsCloser)
      == (if HasPoints(r) then 1 else 0) + (if HasSuggestions(r) then 1 else 0)
  {
    var h, p, s := Header(r), ListBlock(PointsOpener, r.pontosAtencao), ListBlock(SuggestionsOpener, r.sugestoes);
    BlockCensus(PointsOpener, r.pontosAtencao);
    BlockCensus(SuggestionsOpener, r.sugestoes);
    HeaderCensus(r);
    CountWhereAppend(h + p, s, IsFileHeading);
    CountWhereAppend(h, p, IsFileHeading);
    CountWhereAppend(h + p, s, IsItem);
    CountWhereAppend(h, p, IsItem);
    CountWhereAppend(h + p, s, IsOpener);
    CountWhereAppend(h, p, IsOpener);
    CountWhereAppend(h + p, s, IsCloser);
    CountWhereAppend(h, p, IsCloser);
  }

  lemma SectionsSnoc(rs: seq<FileReport>)
    requires rs != []
    ensures Sections(rs) == Sections(rs[..|rs| - 1]) + Section(rs[|rs| - 1])
  {
  }

  /** Over all sections: one `<h2>` line per result, one `<li>` line per
      list entry, and as many openers as closers, one per non-empty list. */
  lemma {:induction false} SectionsCensus(rs: seq<FileReport>)
    ensures CountWhere(Sections(rs), IsFileHeading) == |rs|
    ensures CountWhere(Sections(rs), IsItem) == ItemCount(rs)
    ensures CountWhere(Sections(rs), IsOpener) == CountWhere(rs, HasPoints) + CountWhere(rs, HasSuggestions)
    ensures CountWhere(Sections(rs), IsCloser) == CountWhere(rs, HasPoints) + CountWhere(rs, HasSuggestions)
    decreases |rs|
  {
    if rs != [] {
      var init, r := rs[..|rs| - 1], rs[|rs| - 1];
      SectionsCensus(init);
      SectionCensus(r);
      SectionsSnoc(rs);
      CountWhereAppend(Sections(init), Section(r), IsFileHeading);
      CountWhereAppend(Sections(init), Section(r), IsItem);
      CountWhereAppend(Sections(init), Section(r), IsOpener);
      CountWhereAppend(Sections(init), Section(r), IsCloser);
    }
  }

  /** The page: it opens with `<html><body>` and the `<h1>` title, closes
      with `</body></html>`, has one `<h2>` line per result and one `<li>`
      line per list entry. */
  lemma DocumentCensus(rs: seq<FileReport>)
    ensures Document(rs)[0] == "<html><body>"
    ensures Document(rs)[1] == "<h1>Relatório CodeCompass</h1>"
    ensures Document(rs)[|Document(rs)| - 1] == "</body></html>"
    ensures CountWhere(Document(rs), IsFileHeading) == |rs|
    ensures CountWhere(Document(rs), IsItem) == ItemCount(rs)
  {
    var a, m, z := [PageOpen, PageTitle], Sections(rs), [PageClose];
    SectionsCensus(rs);
    LineKinds([], FileReport([], [], [], [], []));
    assert a == [PageOpen] + [PageTitle];
    CountWhereAppend(a + m, z, IsFileHeading);
    CountWhereAppend(a, m, IsFileHeading);
    CountWhereAppend(a + m, z, IsItem);
    CountWhereAppend(a, m, IsItem);
    CountWhereAppend([PageOpen], [PageTitle], IsFileHeading);
    CountWhereAppend([PageOpen], [PageTitle], IsItem);
    CountWhereSingle(PageOpen, IsFileHeading);
    CountWhereSingle(PageTitle, IsFileHeading);
    CountWhereSingle(PageClose, IsFileHeading);
    CountWhereSingle(PageOpen, IsItem);
    CountWhereSingle(PageTitle, IsItem);
    CountWhereSingle(PageClose, IsItem);
  }

  /** Lines taken by a list block: none for an empty list, otherwise the
      opener, the items and the closing tag. */
  function BlockSize(items: seq<string>): nat
  {
    if items == [] then 0 else 2 + |items|
  }

  /** Where the fixed lines of a section sit: the three header lines, then
      for each non-empty list its opener, and the `</ul>` that closes it
      after its items. */
  lemma SectionLayout(r: FileReport)
    ensures var s := Section(r);
      var np, ns := BlockSize(r.pontosAtencao), BlockSize(r.sugestoes);
      |s| == 3 + np + ns &&
      s[0] == FileHeading(r) && s[1] == LanguageLine(r) && s[2] == SummaryLine(r) &&
      (r.pontosAtencao != [] ==> s[3] == PointsOpener && s[3 + np - 1] == ListClose) &&
      (r.sugestoes != [] ==> s[3 + np] == SuggestionsOpener && s[3 + np + ns - 1] == ListClose)
  {
    var h, p, q := Header(r), ListBlock(PointsOpener, r.pontosAtencao), ListBlock(SuggestionsOpener, r.sugestoes);
    assert Section(r) == h + p + q;
    if r.pontosAtencao != [] {
      assert p == [PointsOpener] + Items(r.pontosAtencao) + [ListClose];
      assert (h + p + q)[3] == p[0];
      assert (h + p + q)[3 + |p| - 1] == p[|p| - 1];
    }
    if r.sugestoes != [] {
      assert q == [SuggestionsOpener] + Items(r.sugestoes) + [ListClose];
      assert (h + p + q)[3 + |p|] == q[0];
      assert (h + p + q)[3 + |p| + |q| - 1] == q[|q| - 1];
    }
  }

  /** The k-th attention point is the k-th line after the points opener. */
  lemma PointItemLine(r: FileReport, k: nat)
    requires k < |r.pontosAtencao|
    ensures 4 + k < |Section(r)| && Section(r)[4 + k] == ItemLine(r.pontosAtencao[k])
  {
    var h, p, q := Header(r), ListBlock(PointsOpener, r.pontosAtencao), ListBlock(SuggestionsOpener, r.sugestoes);
    assert Section(r) == h + p + q;
    assert p == [PointsOpener] + Items(r.pontosAtencao) + [ListClose];
    assert p[1 + k] == Items(r.pontosAtencao)[k];
    assert (h + p + q)[4 + k] == p[1 + k];
  }

  /** The k-th suggestion is the k-th line after the suggestions opener. */
  lemma SuggestionItemLine(r: FileReport, k: nat)
    requires k < |r.sugestoes|
    ensures var at := 4 + BlockSize(r.pontosAtencao) + k;
      at < |Section(r)| && Section(r)[at] == ItemLine(r.sugestoes[k])
  {
    var h, p, q := Header(r), ListBlock(PointsOpener, r.pontosAtencao), ListBlock(SuggestionsOpener, r.sugestoes);
    assert Section(r) == h + p + q;
    assert q == [SuggestionsOpener] + Items(r.sugestoes) + [ListClose];
    assert q[1 + k] == Items(r.sugestoes)[k];
    assert |p| == BlockSize(r.pontosAtencao);
    assert (h + p + q)[4 + |p| + k] == q[1 + k];
  }

  /** Lines that neither open nor close a list leave every prefix at depth
      zero. */
  lemma NeutralMatched(s: seq<string>)
    requires CountWhere(s, IsOpener) == 0 && CountWhere(s, IsCloser) == 0
    ensures ListsMatched(s)
  {
    forall k | 0 <= k <= |s|
      ensures Depth(s[..k]) == 0
    {
      assert s == s[..k] + s[k..];
      CountWhereAppend(s[..k], s[k..], IsOpener);
      CountWhereAppend(s[..k], s[k..], IsCloser);
    }
  }

  /** Matched lists stay matched when put one after the other. */
  lemma MatchedAppend(a: seq<string>, b: seq<string>)
    requires ListsMatched(a) && ListsMatched(b)
    ensures ListsMatched(a + b)
  {
    forall k | 0 <= k <= |a + b|
      ensures 0 <= Depth((a + b)[..k]) <= 1
    {
      if k <= |a| {
        assert (a + b)[..k] == a[..k];
      } else {
        assert (a + b)[..k] == a + b[..k - |a|];
        CountWhereAppend(a, b[..k - |a|], IsOpener);
        CountWhereAppend(a, b[..k - |a|], IsCloser);
        assert a[..|a|] == a;
      }
    }
    CountWhereAppend(a, b, IsOpener);
    CountWhereAppend(a, b, IsCloser);
    assert (a + b)[..|a + b|] == a + b;
    assert a[..|a|] == a;
  }

  /** A list block opens once, holds only items and closes once. */
  lemma BlockMatched(opener: string, items: seq<string>)
    requires opener == PointsOpener || opener == SuggestionsOpener
    ensures ListsMatched(ListBlock(opener, items))
  {
    if items == [] {
      assert CountWhere([], IsOpener) == 0;
      NeutralMatched([]);
    } else {
      var b := ListBlock(opener, items);
      forall k | 0 <= k <= |b|
        ensures 0 <= Depth(b[..k]) <= 1
      {
        if k == 0 {
          assert b[..k] == [];
        } else if k <= |items| + 1 {
          OpenBlockDepth(opener, items, k - 1);
        } else {
          assert b[..k] == b;
          BlockCensus(opener, items);
        }
      }
      BlockCensus(opener, items);
      assert b[..|b|] == b;
    }
  }

  /** Inside a list, after its opener and some of its items, one list is
      open. */
  lemma OpenBlockDepth(opener: string, items: seq<string>, j: nat)
    requires opener == PointsOpener || opener == SuggestionsOpener
    requires items != [] && j <= |items|
    ensures Depth(ListBlock(opener, items)[..j + 1]) == 1
  {
    var t := Items(items)[..j];
    BlockPrefix(opener, items, j);
    ItemsCensus(items);
    CountWherePrefix(Items(items), j, IsOpener);
    CountWherePrefix(Items(items), j, IsCloser);
    OpenerThen(opener, t);
  }

  /** The first lines of a list block: its opener and some items. */
  lemma BlockPrefix(opener: string, items: seq<string>, j: nat)
    requires items != [] && j <= |items|
    ensures ListBlock(opener, items)[..j + 1] == [opener] + Items(items)[..j]
  {
    FramedPrefix(opener, Items(items), ListClose, j);
  }

  /** An opener followed by lines that neither open nor close a list. */
  lemma OpenerThen(opener: string, t: seq<string>)
    requires opener == PointsOpener || opener == SuggestionsOpener
    requires CountWhere(t, IsOpener) == 0 && CountWhere(t, IsCloser) == 0
    ensures Depth([opener] + t) == 1
  {
    assert IsOpener(opener) && !IsCloser(opener);
    CountWhereSingle(opener, IsOpener);
    CountWhereSingle(opener, IsCloser);
    CountWhereAppend([opener], t, IsOpener);
    CountWhereAppend([opener], t, IsCloser);
  }

  lemma SectionMatched(r: FileReport)
    ensures ListsMatched(Section(r))
  {
    HeaderCensus(r);
    NeutralMatched(Header(r));
    BlockMatched(PointsOpener, r.pontosAtencao);
    BlockMatched(SuggestionsOpener, r.sugestoes);
    MatchedAppend(Header(r), ListBlock(PointsOpener, r.pontosAtencao));
    MatchedAppend(Header(r) + ListBlock(PointsOpener, r.pontosAtencao), ListBlock(SuggestionsOpener, r.sugestoes));
  }

  lemma {:induction false} SectionsMatched(rs: seq<FileReport>)
    ensures ListsMatched(Sections(rs))
    decreases |rs|
  {
    if rs == [] {
      assert CountWhere([], IsOpener) == 0;
      NeutralMatched([]);
    } else {
      SectionsMatched(rs[..|rs| - 1]);
      SectionMatched(rs[|rs| - 1]);
      SectionsSnoc(rs);
      MatchedAppend(Sections(rs[..|rs| - 1]), Section(rs[|rs| - 1]));
    }
  }

  /** Over the whole page, every `<h3>...<ul>` line is closed by the next
      `</ul>` before any other list opens, and no `</ul>` closes nothing:
      the lists are balanced and never nested. */
  lemma DocumentListsMatched(rs: seq<FileReport>)
    ensures ListsMatched(Document(rs))
    ensures CountWhere(Document(rs), IsOpener) == CountWhere(Document(rs), IsCloser)
  {
    var a, z := [PageOpen, PageTitle], [PageClose];
    LineKinds([], FileReport([], [], [], [], []));
    assert a == [PageOpen] + [PageTitle];
    CountWhereAppend([PageOpen], [PageTitle], IsOpener);
    CountWhereAppend([PageOpen], [PageTitle], IsCloser);
    CountWhereSingle(PageOpen, IsOpener);
    CountWhereSingle(PageTitle, IsOpener);
    CountWhereSingle(PageOpen, IsCloser);
    CountWhereSingle(PageTitle, IsCloser);
    CountWhereSingle(PageClose, IsOpener);
    CountWhereSingle(PageClose, IsCloser);
    NeutralMatched(a);
    NeutralMatched(z);
    SectionsMatched(rs);
    MatchedAppend(a, Sections(rs));
    MatchedAppend(a + Sections(rs), z);
    assert Document(rs)[..|Document(rs)|] == Document(rs);
  }

  /** The written page text starts with the opening tags and ends with the
      closing ones. */
  lemma TextFrame(rs: seq<FileReport>)
    ensures |Text(rs)| >= |PageOpen| + |PageClose|
    ensures Text(rs)[..|PageOpen|] == "<html><body>"
    ensures Text(rs)[|Text(rs)| - |PageClose|..] == "</body></html>"
  {
    var d := Document(rs);
    JoinStartsWithFirst(d, "\n");
    JoinEndsWithLast(d, "\n");
  }
}
