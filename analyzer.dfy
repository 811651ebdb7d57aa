/** The per-file heuristic analysis, `analisar_codigo_conteudo` in
    codecompass.py: a language from the suffix, a summary with the line
    count, and two flat lists filled by three substring rules. */
module Analyzer {
  import opened Strings
  import opened Seqs
  import opened Lines
  import opened Languages

  const SqlPoint: string := "Consulta SQL direta detectada"
  const SqlSuggestion: string := "Use uma camada de acesso a dados separada"
  const SpringSuggestion: string := "Considere usar Spring Boot para modernização"
  const PrintPoint: string := "Uso de prints diretos"
  const LoggingSuggestion: string := "Utilize logging para melhor controle"

  const SummaryPrefix: string := "Arquivo com "
  const SummarySuffix: string := " linhas."

  /** The five-field record that the analyzer returns for one file:
      `arquivo`, `linguagem`, `resumo`, `pontos_atencao`, `sugestoes`. */
  datatype FileReport = FileReport(
    arquivo: string,
    linguagem: string,
    resumo: string,
    pontosAtencao: seq<string>,
    sugestoes: seq<string>)

  predicate HasPoints(r: FileReport) { r.pontosAtencao != [] }
  predicate HasSuggestions(r: FileReport) { r.sugestoes != [] }

  /** The number of list entries, points and suggestions, over all
      results: the number of list items a report shows. */
  function ItemCount(rs: seq<FileReport>): nat
    decreases |rs|
  {
    if rs == [] then 0
    else ItemCount(rs[..|rs| - 1]) + |rs[|rs| - 1].pontosAtencao| + |rs[|rs| - 1].sugestoes|
  }

  /** The three rule triggers, each a test on the lower-cased content. */
  predicate SqlRule(content: string) { Contains(Lower(content), "select") }
  predicate JavaRule(language: string) { language == "Java" }
  predicate PrintRule(language: string, content: string)
  {
    language == "Python" && Contains(Lower(content), "print(")
  }

  /** `f"Arquivo com {len(conteudo.splitlines())} linhas."` */
  function Summary(content: string): string
  {
    SummaryPrefix + NatToString(LineCount(content)) + SummarySuffix
  }

  /** What the analysis of `content` read from `path` yields: every list
      entry comes from one rule, the rules taken in source order. */
  function Analysis(path: Path, content: string): FileReport
  {
    var language := Classify(path.suffix);
    var sql := SqlRule(content);
    var prints := PrintRule(language, content);
    FileReport(
      path.text,
      language,
      Summary(content),
      (if sql then [SqlPoint] else []) + (if prints then [PrintPoint] else []),
      (if sql then [SqlSuggestion] else []) +
      (if JavaRule(language) then [SpringSuggestion] else []) +
      (if prints then [LoggingSuggestion] else []))
  }

  /** `analisar_codigo_conteudo`: the two lists start empty and each rule
      appends to them in turn. */
  method AnalyzeContent(path: Path, content: string) returns (r: FileReport)
    ensures r == Analysis(path, content)
  {
    var linguagem := Classify(path.suffix);
    var resumo := Summary(content);
    var pontosAtencao: seq<string> := [];
    var sugestoes: seq<string> := [];
    var lowerContent := Lower(content);
    if Contains(lowerContent, "select") {
      pontosAtencao := pontosAtencao + [SqlPoint];
      sugestoes := sugestoes + [SqlSuggestion];
    }
    if linguagem == "Java" {
      sugestoes := sugestoes + [SpringSuggestion];
    }
    if linguagem == "Python" && Contains(lowerContent, "print(") {
      pontosAtencao := pontosAtencao + [PrintPoint];
      sugestoes := sugestoes + [LoggingSuggestion];
    }
    r := FileReport(path.text, linguagem, resumo, pontosAtencao, sugestoes);
  }

  /** The record names the file as given and classifies it by its suffix. */
  lemma AnalysisIdentifiesFile(path: Path, content: string)
    ensures Analysis(path, content).arquivo == path.text
    ensures Analysis(path, content).linguagem == Unknown <==> Lower(path.suffix) !in ExtToLanguage
    ensures Analysis(path, content).linguagem == "Python" <==> Lower(path.suffix) == ".py"
  {
    ClassifyByTable(path.suffix, path.suffix);
    ClassifyPythonJava(path.suffix);
  }

  /** The summary is the fixed sentence around the decimal line count, so
      the count can be read back from it; an empty file has zero lines. */
  lemma SummaryStatesLineCount(path: Path, content: string)
    ensures var s := Analysis(path, content).resumo;
      |SummaryPrefix| + |SummarySuffix| < |s| &&
      s[..|SummaryPrefix|] == "Arquivo com " &&
      s[|s| - |SummarySuffix|..] == " linhas." &&
      (forall i :: |SummaryPrefix| <= i < |s| - |SummarySuffix| ==> IsDigit(s[i])) &&
      ParseNat(s[|SummaryPrefix|..|s| - |SummarySuffix|]) == LineCount(content)
    ensures content == "" ==> Analysis(path, content).resumo == "Arquivo com 0 linhas."
  {
    var s := Analysis(path, content).resumo;
    var digits := NatToString(LineCount(content));
    assert s == SummaryPrefix + digits + SummarySuffix;
    assert s[|SummaryPrefix|..|s| - |SummarySuffix|] == digits;
    ParseNatToString(LineCount(content));
  }

  /** The attention points: the SQL point exactly when the lower-cased
      content contains "select", the print point exactly for Python content
      containing "print(", each at most once however often its pattern
      occurs, in rule order. */
  lemma AttentionPointsByRule(path: Path, content: string)
    ensures var r := Analysis(path, content);
      (SqlPoint in r.pontosAtencao <==> Contains(Lower(content), "select")) &&
      (PrintPoint in r.pontosAtencao <==>
         r.linguagem == "Python" && Contains(Lower(content), "print(")) &&
      (forall k :: 0 <= k < |r.pontosAtencao| ==>
         r.pontosAtencao[k] == SqlPoint || r.pontosAtencao[k] == PrintPoint) &&
      Distinct(r.pontosAtencao) &&
      IsSubsequence(r.pontosAtencao, [SqlPoint, PrintPoint]) &&
      |r.pontosAtencao| <= 2
  {
    var r := Analysis(path, content);
    assert SqlPoint != PrintPoint;
    RuleOrder2(SqlRule(content), PrintRule(r.linguagem, content), SqlPoint, PrintPoint);
  }

  /** The suggestions: one per rule that fires, in rule order (SQL, Java,
      Python logging); a Java file always gets the Spring Boot suggestion;
      the Java and Python rules exclude each other, so there are at most
      two. */
  lemma SuggestionsByRule(path: Path, content: string)
    ensures var r := Analysis(path, content);
      (SqlSuggestion in r.sugestoes <==> Contains(Lower(content), "select")) &&
      (SpringSuggestion in r.sugestoes <==> r.linguagem == "Java") &&
      (LoggingSuggestion in r.sugestoes <==>
         r.linguagem == "Python" && Contains(Lower(content), "print(")) &&
      Distinct(r.sugestoes) &&
      IsSubsequence(r.sugestoes, [SqlSuggestion, SpringSuggestion, LoggingSuggestion]) &&
      |r.sugestoes| <= 2
  {
    var r := Analysis(path, content);
    var sql, java, prints := SqlRule(content), JavaRule(r.linguagem), PrintRule(r.linguagem, content);
    assert !(java && prints);
    assert SqlSuggestion != SpringSuggestion && SqlSuggestion != LoggingSuggestion
      && SpringSuggestion != LoggingSuggestion;
    RuleOrder3(sql, java, prints, SqlSuggestion, SpringSuggestion, LoggingSuggestion);
  }

  /** The list built by two rules in order is an ordered, duplicate-free
      selection of their two entries. */
  lemma RuleOrder2(p: bool, q: bool, a: string, b: string)
    requires a != b
    ensures var s := (if p then [a] else []) + (if q then [b] else []);
      (a in s <==> p) && (b in s <==> q) && Distinct(s) && IsSubsequence(s, [a, b])
  {
    var last := if q then [b] else [];
    assert last == (if q then [b] else []) + [];
    PrependIf(q, b, [], []);
    assert [b] + [] == [b];
    PrependIf(p, a, last, [b]);
    assert [a] + [b] == [a, b];
  }

  /** The same for three rules in order. */
  lemma RuleOrder3(p: bool, q: bool, t: bool, a: string, b: string, c: string)
    requires a != b && a != c && b != c
    ensures var s := (if p then [a] else []) + (if q then [b] else []) + (if t then [c] else []);
      (a in s <==> p) && (b in s <==> q) && (c in s <==> t) &&
      Distinct(s) && IsSubsequence(s, [a, b, c])
  {
    var first, mid, last := (if p then [a] else []), (if q then [b] else []), (if t then [c] else []);
    assert first + mid + last == first + (mid + last);
    RuleOrder2(q, t, b, c);
    PrependIf(p, a, mid + last, [b, c]);
    assert [a] + [b, c] == [a, b, c];
  }

  /** Content that matches neither pattern, in a file that is not Java,
      raises no point and gets no suggestion. */
  lemma QuietFile(path: Path, content: string)
    requires !Contains(Lower(content), "select") && !Contains(Lower(content), "print(")
    requires Classify(path.suffix) != "Java"
    ensures Analysis(path, content).pontosAtencao == []
    ensures Analysis(path, content).sugestoes == []
  {
  }

  /** Detection ignores ASCII case: upper-case `SELECT` in the content
      raises the SQL point. */
  lemma UpperCaseSqlDetected(path: Path, content: string)
    requires Contains(content, "SELECT")
    ensures SqlPoint in Analysis(path, content).pontosAtencao
  {
    ContainsLower(content, "SELECT");
    assert Lower("SELECT") == "select";
    AttentionPointsByRule(path, content);
  }

  /** A Python file that prints and has no SQL, whatever the case of its
      suffix, gets exactly the print point and the logging suggestion. */
  lemma PythonPrintScenario(path: Path, content: string)
    requires Lower(path.suffix) == ".py"
    requires Contains(Lower(content), "print(") && !Contains(Lower(content), "select")
    ensures Analysis(path, content).pontosAtencao == [PrintPoint]
    ensures Analysis(path, content).sugestoes == [LoggingSuggestion]
  {
    ClassifyPythonJava(path.suffix);
  }

  /** A Java file with a query written in any case gets the SQL point, and
      its suggestions are the data-layer one followed by Spring Boot. */
  lemma JavaSqlScenario(path: Path, content: string)
    requires Lower(path.suffix) == ".java"
    requires Contains(content, "SELECT")
    ensures Analysis(path, content).pontosAtencao == [SqlPoint]
    ensures Analysis(path, content).sugestoes == [SqlSuggestion, SpringSuggestion]
  {
    ClassifyPythonJava(path.suffix);
    ContainsLower(content, "SELECT");
    assert Lower("SELECT") == "select";
  }
}
