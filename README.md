# CodeCompass scan and report, modelled in Dafny

CodeCompass (`codecompass.py`) walks a source tree and keeps the paths whose
extension it knows. These can include a directory whose name ends in a known
extension: opening it raises, and the scan skips it, which the model covers
as a failed read. It reads each kept path and, with a few substring tests,
builds a five-field record: `arquivo`, `linguagem`, `resumo`,
`pontos_atencao` and `sugestoes`. It then writes all the records as JSON,
Markdown and HTML. This project models the deterministic part of that
pipeline, with the filesystem given as data:

- `Languages`: the twelve-entry extension table `EXT_PARA_LINGUAGEM`, the
  classification by lower-cased suffix, and the case-sensitive extension
  filter of `listar_arquivos`, applied to a given sequence of paths.
- `Lines`: `str.splitlines`, with Python's full set of line boundaries.
  `\r\n` counts as one boundary.
- `Strings`: ASCII lower-casing, the substring test `in`, `str(n)` for a
  line count, and `"\n".join`.
- `Analyzer`: `analisar_codigo_conteudo`. The specification function
  `Analysis` is paired with the method `AnalyzeContent`, which appends to
  the two lists rule by rule, as the source does.
- `Scan`: the accumulation loop of `main`. Each path comes with the outcome
  of reading it (the text, or `None` when the read raised).
- `Markdown` and `Html`: the line lists built by `salvar_markdown` and
  `salvar_html`, and the text formed by joining them with `"\n"`.

`Seqs` holds the generic notions these modules share: `Option`,
subsequences, and counting the elements that satisfy a test.

## Model

| member | source | states |
|---|---|---|
| `Languages.ListFiles` | codecompass.py:22-24 | the kept paths are an order-preserving subsequence of the input; each kept path's suffix, exactly as written, is a table key; every input path whose suffix is a key is kept, and there are exactly as many kept paths as input paths with such a suffix |
| `Languages.ListedPathsAreInputs` | codecompass.py:24 | every kept path is one of the paths the walk produced |
| `Languages.ListFilesEmpty` | codecompass.py:24 | nothing is kept exactly when no path has a suffix, as written, that is a table key |
| `Languages.Classify` | codecompass.py:27-28 | the language is "Desconhecida" exactly when the lower-cased suffix is not a key, and otherwise one of the table's languages (see also `Languages.ClassifyByTable`) |
| `Languages.KeysAreLowerCase` | codecompass.py:6-19 | every key of the extension table is already lower-case |
| `Languages.ClassifyByTable` | codecompass.py:27-28 | the language is "Desconhecida" exactly when the lower-cased suffix is not a key, and otherwise exactly the table entry for the lower-cased suffix; suffixes equal up to ASCII case get the same language |
| `Languages.ClassifyPythonJava` | codecompass.py:27-28 | the language is "Python" exactly for suffix `.py` and "Java" exactly for `.java`, in any ASCII case |
| `Languages.ListedFilesAreClassified` | codecompass.py:24-28 | a path kept by discovery never classifies as "Desconhecida"; its language is the table entry for its suffix |
| `Languages.UpperCaseSuffixDropped` | codecompass.py:24-28 | `.PY` classifies as Python, yet discovery drops `FOO.PY`, because the filter does not lower-case |
| `Lines.LineCount` | codecompass.py:29 | `len(conteudo.splitlines())` is 0 exactly for empty content and never exceeds the number of characters (its exact value is stated by `Lines.LineCountByBreaks`) |
| `Lines.SplitLines` | codecompass.py:29 | no line returned by `splitlines` contains a line boundary, and there are never more lines than characters |
| `Lines.LineCountByBreaks` | codecompass.py:29 | the line count is the number of boundaries (`\r\n` counted once), plus one when text follows the last boundary |
| `Lines.LineCountSnoc` | codecompass.py:29 | how appending one character changes the count: a trailing break adds no line, `\r` then `\n` adds none, and text after a break opens a new line |
| `Lines.SplitLinesCons` | codecompass.py:29 | a line free of boundaries, followed by one boundary (`\n`, `\r\n`, a lone `\r`, or another boundary character), is split off as the first line |
| `Lines.LineCountExamples` | codecompass.py:29 | empty text has 0 lines; `a\nb`, `a\nb\n` and `a\r\nb\r\n` have 2; a lone `\n` has 1 |
| `Strings.Lower` | codecompass.py:27-34 | `str.lower` on ASCII: same length, no upper-case letter left, each `A`-`Z` moved to its lower-case letter and every other character kept |
| `Strings.Contains` | codecompass.py:35-41 | the substring test `in`: the empty pattern is always found, a found pattern is no longer than the text, and the text holds the pattern's first character (see also `Strings.ContainsLower`) |
| `Strings.Join` | codecompass.py:84 | `"\n".join` (also used for the page at line 104): no lines give the empty text; otherwise the length is the sum of the line lengths plus one separator between neighbours (see also `Strings.JoinStartsWithFirst`, `Strings.JoinEndsWithLast`) |
| `Strings.JoinCons` | codecompass.py:84 | joining from the front gives the first line, one separator, then the join of the rest; with the definition from the back this places every line in order with one `"\n"` between neighbours |
| `Strings.NatToString` | codecompass.py:29 | `str(n)` is one or more decimal digits, with no leading zero |
| `Strings.ParseNatToString` | codecompass.py:29 | reading back the rendered count gives the count |
| `Strings.ContainsLower` | codecompass.py:34-35 | an occurrence in the content is still found after lower-casing both the content and the pattern |
| `Analyzer.AnalyzeContent` | codecompass.py:26-50 | the record built by conditional appends equals the specification `Analysis` of the path and content |
| `Analyzer.AnalysisIdentifiesFile` | codecompass.py:27-28 | `arquivo` is the path as given; `linguagem` is "Desconhecida" exactly for suffixes not in the table, and "Python" exactly for `.py` in any case |
| `Analyzer.SummaryStatesLineCount` | codecompass.py:29 | `resumo` is "Arquivo com ", then decimal digits, then " linhas."; the digits read back as the `splitlines` count; empty content gives "Arquivo com 0 linhas." |
| `Analyzer.AttentionPointsByRule` | codecompass.py:34-43 | the SQL point is present iff the lower-cased content contains "select"; the print point iff the file is Python and the content contains "print("; no duplicates; rule order; at most 2 entries |
| `Analyzer.SuggestionsByRule` | codecompass.py:35-43 | one suggestion per rule that fires (SQL, Java always, Python logging); no duplicates; order SQL, Java, logging; at most 2, since Java and Python exclude each other |
| `Analyzer.QuietFile` | codecompass.py:30-43 | a non-Java file with neither pattern has empty `pontos_atencao` and `sugestoes` |
| `Analyzer.UpperCaseSqlDetected` | codecompass.py:34-36 | upper-case `SELECT` in the content raises the SQL point |
| `Analyzer.PythonPrintScenario` | codecompass.py:41-43 | a file with suffix `.py` in any case, whose content contains `print(` but not `select`, gets exactly the print point and the logging suggestion |
| `Analyzer.JavaSqlScenario` | codecompass.py:35-40 | a file with suffix `.java` in any case, whose content contains `SELECT`, gets exactly the SQL point, then the data-layer and Spring Boot suggestions in that order |
| `Scan.ScanFiles` | codecompass.py:106-116 | the loop's `resultados` equals `Scanned` of the reads: one record per successful read, appended in input order |
| `Scan.Readable` | codecompass.py:108-113 | the successful reads form an order-preserving subsequence of the input and include every successful read |
| `Scan.ScannedIsAnalysisOfReadable` | codecompass.py:107-116 | the k-th record is the analysis of the k-th successfully read file |
| `Scan.ScannedAppend` | codecompass.py:107-116 | scanning two batches one after the other gives the concatenation of their results |
| `Scan.SkipsFailedRead` | codecompass.py:109-116 | a read that raises adds no record, and the paths after it are still processed |
| `Scan.ScannedCount` | codecompass.py:107-116 | the number of records equals the number of successful reads |
| `Markdown.RenderMarkdown` | codecompass.py:69-82 | the list `linhas` built by the loop equals `Document`: the title, then one section per result, in order |
| `Markdown.AppendSection` | codecompass.py:72-82 | one pass of the loop body appends exactly that result's section |
| `Markdown.AppendBlock` | codecompass.py:75-82 | a list adds its heading and bullets when non-empty, and nothing when empty |
| `Markdown.AppendBullets` | codecompass.py:77-78 | the inner loop appends one `- ` line per item, in order |
| `Markdown.SectionLayout` | codecompass.py:72-82 | a section is three header lines (file, language, summary), then the attention heading only if there are points, then the suggestion heading right after the attention block only if there are suggestions |
| `Markdown.PointBulletLine` | codecompass.py:75-78 | the k-th line after the attention heading is `- ` followed by the k-th point |
| `Markdown.SuggestionBulletLine` | codecompass.py:79-82 | the k-th line after the suggestion heading is `- ` followed by the k-th suggestion |
| `Markdown.SectionCensus` | codecompass.py:72-82 | a section has one file heading; each list heading appears once if its list is non-empty and not at all otherwise; there is one bullet per entry |
| `Markdown.DocumentCensus` | codecompass.py:70-82 | the document starts with "# Relatório CodeCompass" and has one file heading per result; one "### Pontos de atenção" per result with points, one "### Sugestões" per result with suggestions, one bullet per entry |
| `Markdown.TextStartsWithTitle` | codecompass.py:83-84 | the written Markdown text begins with the title |
| `Html.RenderHtml` | codecompass.py:86-102 | the list `html` built by the loop equals `Document`: the opening tag and `<h1>` title, one section per result, and the closing tag |
| `Html.AppendSection` | codecompass.py:89-101 | one pass of the loop body appends exactly that result's section |
| `Html.AppendList` | codecompass.py:92-101 | a list adds its `<h3>…<ul>` opener, its items and `</ul>` when non-empty, and nothing when empty |
| `Html.AppendItems` | codecompass.py:94-95 | the inner loop appends one `<li>` line per item, in order |
| `Html.SectionLayout` | codecompass.py:89-101 | a section is the `<h2>`, language and summary lines; each non-empty list follows as its `<h3>…<ul>` opener and ends with `</ul>` after its items |
| `Html.PointItemLine` | codecompass.py:92-96 | the k-th line after the attention opener is `<li>` around the k-th point |
| `Html.SuggestionItemLine` | codecompass.py:97-101 | the k-th line after the suggestions opener is `<li>` around the k-th suggestion |
| `Html.SectionCensus` | codecompass.py:89-101 | a section has one `<h2>` line, one opener and one `</ul>` per non-empty list, and one `<li>` per entry |
| `Html.SectionsCensus` | codecompass.py:88-101 | over all results: one `<h2>` line per result, one `<li>` per entry, and as many openers as closers |
| `Html.DocumentCensus` | codecompass.py:87-102 | the page starts with `<html><body>` and the `<h1>` title, ends with `</body></html>`, and has one `<h2>` line per result and one `<li>` per entry |
| `Html.DocumentListsMatched` | codecompass.py:92-101 | every `<h3>…<ul>` line is closed by exactly one later `</ul>` before another list opens; no `</ul>` appears without an open list |
| `Html.TextFrame` | codecompass.py:102-104 | the written page text begins with `<html><body>` and ends with `</body></html>` |

## Left out

- Filesystem traversal (`rglob`, `is_dir`), opening and reading files, and `errors="ignore"` decoding are I/O. Discovery is modelled as a filter over a given sequence of paths. A read is a given `Option<string>`, where `None` stands for any exception the read raises.
- A path's suffix (`pathlib`'s `suffix`) is an input field of `Path`; it is not derived from the path text.
- Writing the three report files is I/O. The model stops at the text that would be written (`Markdown.Text`, `Html.Text`).
- `salvar_json` is not modelled: it is a single call into Python's `json` library, which is not part of this model.
- `exibir_resultado_terminal` and the `print` calls in `main` are console output. A failure inside the display would happen after the record was already appended, so it does not change the report.
- The `sys.argv` dispatch under `__main__` is argument handling. Its single-file branch passes one path with no extension filter; `Classify` then yields "Desconhecida" for an unknown suffix.
- `Strings.Lower` folds ASCII letters only; Python's `str.lower` folds all of Unicode. Of the non-ASCII characters, only KELVIN SIGN (to `k`) and the dotted capital I (to `i` plus a combining dot) lower-case to ASCII letters, and neither can complete "select" or "print(". So for the two patterns tested, the rules fire on the same inputs either way. The same holds for the suffix lower-cased by `Languages.Classify`: no table key contains `k`, and the combining dot that U+0130 lowers to is not in any key, so no extra suffix finds a table entry under full Unicode folding.
- HTML escaping does not happen in the source, and the model does not add it. The only structural claim is the list matching stated for `Html.DocumentListsMatched`; nothing is claimed about markup well-formedness beyond that.
- `codecompass.py` has no risk tiers, categorised suggestions, ignore-directory set, spreadsheet report or documentation mode, and neither does the model.
