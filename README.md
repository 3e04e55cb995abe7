# Valuation report pipeline — a Dafny model

The system writes equity valuation reports on listed companies, mostly in Chinese. A request for a company goes through these steps:

- A language model plans up to eight search queries (`QueryPlannerAgent`).
- The Sonar search API answers each query (`SonarClient`).
- The answers are organised by priority (`InformationCollectorAgent`).
- A second language model, reached through a client that retries (`QwenClientEnhanced`), writes a four-section report as JSON (`DeepAnalystAgent`).

The answer is then repaired:

- Words split by stray spaces are rejoined (`WordFixer`).
- Whitespace is cleaned (`TextCleaner`).
- The sections are normalised and their HTML tables counted (`FormatEnhancer`).
- Tables that lost their `|` separators are rebuilt or fenced off (`TableFixer` and the report enhancer).

Finally the report is laid out as Markdown with numbered table captions (`ProfessionalReportFormatter`, `ReportFormatter`, `format_report.py`), cut into a PDF story (`pdf_generator.py`), and served through a Streamlit page (`web_app.py`) and an HTTP API (`api_server.py`). A separate analyser (`SectorLeaderAnalyzer`) finds the day's hot sectors and the leading companies of each.

The model has one Dafny module per source file. Code that computes a value is modelled as functions and lemmas. Code that loops or updates state is modelled as methods proved against those functions:

- the line scanners of the table repairers;
- the word fixer's dictionary pass;
- the collector's organising and formatting loops;
- the client's retry loop;
- the formatter's per-section table counters, a class;
- the citation de-duplication;
- the API's task table, a class;
- the web page's history, a class.

Three kinds of input are parameters of the model rather than computations:

- what the network, the language models, `json.loads` and BeautifulSoup return;
- the clock and uuid values;
- the regular expressions that need backtracking.

The simpler regular expressions are written out as the left-to-right scans that `re.sub` and `re.search` perform (module `Patterns`).

Three behaviours of the code are easy to expect otherwise:

- `WordFixer` writes the dictionary's value as given; it does not keep the case of the fragment it replaces.
- `validate_tables` counts HTML `<table>` elements, not pipe tables.
- A shortfall of tables is only printed; no report is marked as flagged.

Every member models the code as written, bugs included. For each bug listed under "## Findings" a member whose name ends in `Corrected` models the evidently intended behaviour. The members built on such a bug have a corrected sibling as well: `ReportSystem.GenerateReportCorrected`, `FormatReport.FormatReportCorrected`, `ReportFormatter.ExtractKeyMetricsCorrected` and `DeepAnalyst.PostProcessCorrected`.

Module `JsonValue` holds the parsed-JSON values. `Text` holds the Python string operations (`strip`, `split`, `find`, `isspace`, ASCII case conversion). `LineScan` and `PipeTable` hold the run grouping and the pipe-row syntax that several files share.

## Model

| member | source | states |
|---|---|---|
| TableFixer.ScoreCases | agents/table_fixer.py:69-98 | the score reaches 3 exactly when both strong signals fire, one strong and one weak signal fire, or all three weak signals fire |
| TableFixer.ExcludedNeverCompact | agents/table_fixer.py:59-67 | blank lines, headings, lines under 40 characters and lines framed by `\|` are never compact, whatever their features |
| TableFixer.ShortCompactNeedsStrongSignal | agents/table_fixer.py:69-98 | a compact line of at most 100 characters has at least two CamelCase clusters or two money values |
| TableFixer.CleanCells | agents/table_fixer.py:212-220 | one cleaned cell per piece, in order |
| TableFixer.CleanCellKeepsOthers | agents/table_fixer.py:214-218 | removing emphasis leaves the count of every character other than `*`, `~`, `_` unchanged |
| TableFixer.CleanRowKeepsPipes | agents/table_fixer.py:209-222 | cleaning a row keeps the number of `\|` and so the number of cells |
| TableFixer.CleanRowWithoutMarkup | agents/table_fixer.py:209-222 | a row without `*`, `~` or `_` comes back unchanged |
| TableFixer.CleanTableFormatting | agents/table_fixer.py:196-222 | the loop's result is the split row with every piece cleaned, joined again with `\|` |
| TableFixer.CamelWordAt | agents/table_fixer.py:143 | a capitalised word match starts with an upper-case letter, is at least two characters and is header text |
| TableFixer.PhraseTail | agents/table_fixer.py:143 | the repeated `\s+[A-Z][a-z]+` part matches only letters and whitespace |
| TableFixer.PhraseAt | agents/table_fixer.py:143 | a header-phrase match is header text and lies inside the line |
| TableFixer.Phrases | agents/table_fixer.py:143 | every header found is non-empty and made of letters and whitespace |
| TableFixer.SplitCamel | agents/table_fixer.py:149 | splitting CamelCase keeps header text header text |
| TableFixer.SplitCamelKeepsLetters | agents/table_fixer.py:149 | splitting CamelCase only inserts spaces: the non-space characters are exactly the original ones |
| TableFixer.SplitCamelAll | agents/table_fixer.py:146-150 | one split header per header, in order |
| TableFixer.NameRun | agents/table_fixer.py:169 | the longest run of name characters, stopping at the first other character |
| TableFixer.DataSplit | agents/table_fixer.py:169 | where the data-row pattern splits the line: the label is name characters and the next character starts a value |
| TableFixer.ValueAt | agents/table_fixer.py:175 | a value match consists of value characters only |
| TableFixer.ValueTokens | agents/table_fixer.py:175 | every value token found is non-empty and made of value characters |
| TableFixer.FixFinancialLine | agents/table_fixer.py:136-183 | a header line yields 2 to 6 header cells of header text; a data row yields at least one value; an unparsed line keeps its text |
| TableFixer.Render | agents/table_fixer.py:160-183 | an unparsed line becomes the comment holding its first 50 characters |
| TableFixer.FinancialTable | agents/table_fixer.py:186-189 | at least two output lines; when fewer than two lines were rebuilt, the original lines appear fenced |
| TableFixer.GenericFence | agents/table_fixer.py:191-194 | the original lines, fenced, with five extra lines |
| TableFixer.HeaderMatchesSeparator | agents/table_fixer.py:152-164 | a rebuilt header has 2 to 6 cells and its separator the same number of cells |
| TableFixer.DataNamePipeFree | agents/table_fixer.py:169-171 | the label of a data row contains no `\|` |
| TableFixer.ValuesPipeFree | agents/table_fixer.py:175 | no value token contains `\|` |
| TableFixer.DataRowWidth | agents/table_fixer.py:177-179 | a data row has one cell for its label and one per value found, independent of the header's width |
| TableFixer.ShortHeaderDropped | agents/table_fixer.py:155-157 | a header-like line yielding fewer than two headers produces no output line |
| TableFixer.FixFinancialTable | agents/table_fixer.py:123-189 | the loop returns exactly the financial-table rebuild of the lines |
| TableFixer.FixCompactTable | agents/table_fixer.py:100-121 | the result is the financial rebuild when the first line names a table keyword, else the generic fence |
| TableFixer.PlainLineKept | agents/table_fixer.py:40-45 | a line that is neither compact nor contains `\|` is copied at its place and separates the repair of what comes before from what comes after |
| TableFixer.FixLinesAppend | agents/table_fixer.py:25-45 | two pieces that do not continue one compact run across their boundary are repaired independently |
| TableFixer.FixStep | agents/table_fixer.py:26-45 | one step takes a whole maximal run of compact lines, or one other line, and advances the index |
| TableFixer.FixAllTables | agents/table_fixer.py:12-47 | the report split into lines, each compact run rebuilt and every other line cell-cleaned, joined again |
| TableFixer.FixEachLine | agents/table_fixer.py:21-45 | the line loop computes exactly the repaired lines |
| TableFixer.FixAllTablesPlain | agents/table_fixer.py:12-47 | a report without compact lines and without `\|` comes back unchanged |
| TableFixer.HasCommonWord | agents/table_fixer.py:89-90 | one of the eight common words occurs, as a substring, in the lower-cased line |
| TableFixer.LongWithoutProse | agents/table_fixer.py:88-91 | a stripped line longer than 100 characters without a common word |
| TableFixer.Score | agents/table_fixer.py:70-96 | the indicator total: 2 each for CamelCase clusters and money values, 1 each for signed changes, a long line without prose and number-unit tokens |
| TableFixer.Excluded | agents/table_fixer.py:62-67 | blank, a heading, shorter than 40 characters, or already framed by `\|` at both ends |
| TableFixer.IsCompactTableLine | agents/table_fixer.py:49-98 | `_is_compact_table_line`: not excluded, and an indicator total of at least 3 |
| TableFixer.Camel | agents/table_fixer.py:73-74 | at least two `[A-Z][a-z]+[A-Z][a-z]+` clusters |
| TableFixer.Money | agents/table_fixer.py:78-79 | at least two `[$%][\d.]+[BMK]?` values |
| TableFixer.Changes | agents/table_fixer.py:83-84 | at least two `[+\-]\d+\.?\d*%` changes |
| TableFixer.Units | agents/table_fixer.py:94-95 | at least three `\d+\.?\d*[%$BMK]` tokens |
| TableFixer.CleanCell | agents/table_fixer.py:214-218 | emphasis removed from one cell: `**x**`, `*x*`, `~~x~~`, `__x__`, `_x_`, each pass over the whole cell, in that order |
| TableFixer.CleanRow | agents/table_fixer.py:209-222 | `_clean_table_formatting`: the line split at `\|`, each piece cleaned, the pieces joined again with `\|` |
| TableFixer.LowerRun | agents/table_fixer.py:141 | the greedy `[a-z]+`: the run of lower-case letters at the start |
| TableFixer.SpaceRun | agents/table_fixer.py:143 | the greedy `\s+`: the run of white space at the start |
| TableFixer.HeaderStart | agents/table_fixer.py:141 | `re.match(r'^[A-Z][a-z]+[A-Z]', line)` |
| TableFixer.IsNameChar | agents/table_fixer.py:169 | the class `[A-Za-z\s,&]` |
| TableFixer.IsValueStart | agents/table_fixer.py:169 | the class `[\$\d%+\-]` |
| TableFixer.IsValueChar | agents/table_fixer.py:175 | the characters a value token can hold |
| TableFixer.NumberRun | agents/table_fixer.py:175 | the greedy `[\d.]+`: the run of digits and dots at the start |
| TableFixer.FinancialLines | agents/table_fixer.py:136-183 | the lines `_fix_financial_table` collects, line by line in order |
| TableFixer.HasTableKeyword | agents/table_fixer.py:117 | the first line names `Segment`, `Metric`, `Ratio` or `Revenue` |
| TableFixer.CompactTable | agents/table_fixer.py:100-121 | `_fix_compact_table`: no lines stay none; a keyword gives the financial rebuild, otherwise the generic fence |
| TableFixer.FixLines | agents/table_fixer.py:12-47 | `fix_all_tables`: each maximal run of compact lines is replaced by its rebuilt table, every other line is cell-cleaned |
| WordFixer.WordMarkerFree | agents/word_fixer.py:13-80 | no repaired word in the dictionary carries `*` or `_` |
| WordFixer.InsertByLength | agents/word_fixer.py:94-98 | inserting one entry lengthens the list by one |
| WordFixer.SortByLength | agents/word_fixer.py:94-98 | the sort keeps the number of entries |
| WordFixer.InsertPermutes | agents/word_fixer.py:94-98 | insertion adds exactly the new entry to the multiset |
| WordFixer.InsertLongestFirst | agents/word_fixer.py:94-98 | insertion keeps the list ordered by descending key length |
| WordFixer.SortByLengthSorted | agents/word_fixer.py:94-98 | the dictionary is applied longest key first, and the order is a permutation of the dictionary |
| WordFixer.InsertWithLength | agents/word_fixer.py:94-98 | insertion places an entry after every earlier entry of the same key length |
| WordFixer.SortByLengthStable | agents/word_fixer.py:94-98 | the sort is stable: entries whose keys have equal length keep dictionary order |
| WordFixer.FixSplitWords | agents/word_fixer.py:83-110 | the loop applies every entry in sorted order, the word-bounded case-insensitive substitution then the plain replacement; empty text is returned as it is |
| WordFixer.WordSubExcludes | agents/word_fixer.py:104-105 | the substitution introduces no character absent from the text and the replacement word |
| WordFixer.ApplyEntriesMarkerFree | agents/word_fixer.py:101-108 | the dictionary rewrite introduces no `*` or `_` |
| WordFixer.WordSubNoMatch | agents/word_fixer.py:104-105 | with no word-bounded occurrence of the key the substitution leaves the text alone |
| WordFixer.WordSubWritesValue | agents/word_fixer.py:104-105 | an occurrence in any letter case is replaced by the dictionary's word as written |
| WordFixer.CaseNotPreserved | agents/word_fixer.py:27-28 | "A nd" is repaired to "and", not "And", because the lower-case entry comes first and matches regardless of case |
| WordFixer.AfterLastNewline | agents/word_fixer.py:132 | the end of the blank-line match is right after a newline |
| WordFixer.CollapseBlank | agents/word_fixer.py:132 | collapsing blank runs keeps the first character |
| WordFixer.FixAllIssues | agents/word_fixer.py:113-134 | the method computes the marker removal, the dictionary repair, the space and blank-line collapse and the strip, in that order |
| WordFixer.EmptyUnchanged | agents/word_fixer.py:90-91 | empty text comes back as it is from both repairers |
| WordFixer.AllIssuesFixedClean | agents/word_fixer.py:113-134 | the output has no `*` or `_`, no two spaces in a row and no whitespace at either end |
| WordFixer.CollapseBlankExcludes | agents/word_fixer.py:132 | collapsing blank lines adds no character other than newlines |
| WordFixer.CollapseBlankNoRun | agents/word_fixer.py:131-132 | collapsing blank lines creates no run of two spaces |
| WordFixer.CollapseBlankFew | agents/word_fixer.py:132 | text with fewer than three newlines has nothing to collapse |
| WordFixer.CollapseBlankRun | agents/word_fixer.py:132 | a newline-led whitespace run with at least three newlines, up to its last newline, becomes exactly one blank line |
| TextCleaner.SquashSpace | agents/text_cleaner.py:18 | a whitespace run becomes one space at the front; other first characters are kept |
| TextCleaner.SquashSpaceSingle | agents/text_cleaner.py:18 | after the squash all whitespace is single spaces |
| TextCleaner.SquashSpaceNonSpace | agents/text_cleaner.py:18 | the squash keeps every non-whitespace character in order |
| TextCleaner.SquashSpaceId | agents/text_cleaner.py:18 | single-spaced text is left as it is by the squash |
| TextCleaner.CleanTextShape | agents/text_cleaner.py:10-23 | `clean_text` leaves no whitespace at the ends, only single spaces inside, and every other character in order |
| TextCleaner.CleanTextIdempotent | agents/text_cleaner.py:10-23 | cleaning twice is cleaning once |
| TextCleaner.CleanText | agents/text_cleaner.py:10-23 | `clean_text`: empty text gives the empty string, other text has its whitespace runs squashed to one space and is stripped |
| TextCleaner.ExtractMarkdownContent | agents/text_cleaner.py:26-33 | `extract_markdown_content` is `strip` in every case: the guard for empty text changes nothing |
| TextCleaner.SingleSpaced | agents/text_cleaner.py:18 | after `\s+` → `' '` the only whitespace is single spaces, never two in a row |
| WordFixer.KeyShape | agents/word_fixer.py:13-80 | every dictionary key begins and ends with a word character, so `\b` on either side means that no word character touches it |
| WordFixer.Letters | agents/word_fixer.py:13-80 | every repaired word is made of letters and spaces |
| WordFixer.LongestFirst | agents/word_fixer.py:94-98 | `sorted(..., key=len, reverse=True)`: no key is shorter than a later one |
| WordFixer.KeysAtMost | agents/word_fixer.py:94-98 | no key is longer than the bound |
| WordFixer.WithLength | agents/word_fixer.py:94-98 | the entries whose key has a given length, in dictionary order, which a stable sort keeps |
| WordFixer.WordAt | agents/word_fixer.py:104-105 | a case-insensitive occurrence of the key at a position, with no word character touching it on either side |
| WordFixer.WordSub | agents/word_fixer.py:104-105 | the left-to-right scan of `re.sub` with `\b` boundaries and `re.IGNORECASE`, the boundaries judged on the original text |
| WordFixer.FixEntry | agents/word_fixer.py:104-108 | one entry's rewrite: the word-bounded substitution, then `str.replace` of the exact key |
| WordFixer.ApplyEntries | agents/word_fixer.py:101-108 | the entries applied one after the other, first to last |
| WordFixer.SplitWordsFixed | agents/word_fixer.py:83-110 | `fix_split_words`: empty text is returned as it is, other text gets every entry, longest key first |
| WordFixer.BlankRunAt | agents/word_fixer.py:132 | `\n\s*\n\s*\n+` matches at the start: a newline opens a whitespace run holding at least three newlines |
| WordFixer.AllIssuesFixed | agents/word_fixer.py:113-134 | `fix_all_issues`: emphasis unwrapped, stray `*` and `_` removed, split words fixed, space runs and blank-line runs collapsed, the result stripped |
| FormatReport.NonEmpty | format_report.py:28-29 | only the rows with at least one cell are kept, no more rows than given |
| FormatReport.DataRows | format_report.py:21-38 | the non-empty `tbody` rows, or when there are none the non-empty rows after the table's first `tr` |
| FormatReport.Fit | format_report.py:52-55 | a row padded with empty cells and cut to exactly `w` cells, its own cells first |
| FormatReport.Dashes | format_report.py:48 | `w` cells of `---` |
| FormatReport.ConvertedTable | format_report.py:40-58 | the table is returned unchanged without a header or a data row; otherwise a header line, a separator line and one line per data row |
| FormatReport.FitPad | format_report.py:53-54 | padding a short row by one empty cell does not change its fitted form |
| FormatReport.HtmlTableToMarkdown | format_report.py:9-58 | the padding loop and the line building compute exactly the converted table |
| FormatReport.Spaced | format_report.py:47 | each cell between the two spaces that surround it in a row line |
| FormatReport.SeparatorCells | format_report.py:48 | the separator line has one `---` cell per header |
| FormatReport.RowLineCells | format_report.py:47 | a row line splits on its bars into exactly its cells, when no cell holds a bar |
| FormatReport.DataLineWidth | format_report.py:51-55 | every data line has exactly as many cells as the header line |
| FormatReport.HeadingAt | format_report.py:88-92 | a match of the numbered-heading pattern ends at the first newline and is at least seven characters |
| FormatReport.SeparatorBeforeHeading | format_report.py:88-92 | a numbered heading line at the start gets a rule before it |
| FormatReport.SeparatorSplitsSubheading | format_report.py:88-92 | a `### N. title` line is cut after its first `#`: the rule lands inside the line |
| FormatReport.SeparatorsNoHash | format_report.py:88-92 | text without `#` gets no rule |
| FormatReport.LineStartNoHash | format_report.py:88-92 | the corrected insertion adds no rule to text without `#` |
| FormatReport.LineStartCopiesLine | format_report.py:88-92 | with the corrected pattern the rest of a line is copied and the next line starts a line |
| FormatReport.LineStartSeparatorBeforeHeading | format_report.py:88-92 | the corrected insertion still puts a rule before a heading that starts a line |
| FormatReport.LineStartKeepsSubheading | format_report.py:88-92 | the corrected insertion leaves a `### N. title` line whole |
| FormatReport.FormatReport | format_report.py:61-98 | the formatted report, with rules inserted wherever the unanchored search finds a numbered heading (inside a `###` line too), has no run of four or more newlines |
| FormatReport.FormatReportCorrected | format_report.py:61-98 | with rules inserted only before headings that start a line, the formatted report has no run of four or more newlines |
| FormatReport.UntaggedPlain | format_report.py:76-85 | text without `<` passes the tag passes unchanged |
| FormatReport.FormatPlainText | format_report.py:61-98 | text with no markup, no `#` and no run of four newlines comes back exactly as it was, as written and corrected |
| FormatReport.OutputNameOfMarkdown | format_report.py:108 | a name ending in its only `.md` gets `_formatted` before the suffix |
| FormatReport.RowLine | format_report.py:47 | a header or data line: the cells joined by ` \| `, between `\| ` and ` \|` and a newline |
| FormatReport.SepLine | format_report.py:48 | the separator line: `w` cells of `---` between bars |
| FormatReport.RowLines | format_report.py:51-55 | one line per data row, each fitted to `w` cells, in order |
| FormatReport.ConvertTables | format_report.py:65-73 | every `<table ...>...</table>` element, found lazily left to right, is replaced by its Markdown conversion |
| FormatReport.Untagged | format_report.py:76-85 | `<h2>` elements become `###` lines and `<h3>` elements `####` lines, paragraphs are unwrapped and followed by a blank line, then every other tag is removed |
| FormatReport.AddSeparators | format_report.py:88-92 | as written: a rule is inserted before every `## N. ...` up to its newline wherever the search finds one, also inside a `###` line |
| FormatReport.LineStartSeparators | format_report.py:88-92 | as intended: a rule is inserted only before a `## N. ...` line that starts a line |
| FormatReport.OutputName | format_report.py:108 | the default output name: every `.md` of the input name replaced by `_formatted.md` |
| InformationCollector.PlanQueries | agents/information_collector.py:29-48 | a plan is usable exactly when it is a dictionary with status `success`, a `plan` and its `queries` |
| InformationCollector.Organize | agents/information_collector.py:64-81 | an entry succeeds exactly when its search did; query, purpose and priority are copied; content on success; the error, or `未知错误` when it is missing, otherwise |
| InformationCollector.Successes | agents/information_collector.py:61-73 | the success count is at most the number of results |
| InformationCollector.QueryStrings | agents/information_collector.py:49 | one query string per planned query, in order |
| InformationCollector.OrganizeResults | agents/information_collector.py:59-81 | one entry per result, in order, each organised from its query and result, and the count of successes |
| InformationCollector.CollectInformation | agents/information_collector.py:19-91 | the error of an unusable plan; otherwise company, organised results of the batch search, success count and total query count |
| InformationCollector.InGroup | agents/information_collector.py:112-115 | the successful entries of one priority, each of them and only them |
| InformationCollector.GroupsTextStep | agents/information_collector.py:111-129 | the text for one more priority is the earlier text followed by that priority's section |
| InformationCollector.AppendItems | agents/information_collector.py:125-129 | each entry's purpose, query, content and rule appended in order |
| InformationCollector.AppendGroup | agents/information_collector.py:112-129 | one priority's section appended, nothing when no entry of that priority succeeded |
| InformationCollector.FormatForAnalysis | agents/information_collector.py:93-131 | the loop builds exactly the header followed by the high, medium and low sections |
| InformationCollector.SuccessesBounds | agents/information_collector.py:61-73 | the count equals the total exactly when every query succeeded, and is zero exactly when every query failed |
| InformationCollector.InGroupAppend | agents/information_collector.py:112-115 | grouping distributes over concatenation, keeping order |
| InformationCollector.GroupsIgnore | agents/information_collector.py:111-117 | a failed entry, or one of another priority, adds nothing to the text |
| InformationCollector.FormattedShape | agents/information_collector.py:103-108 | a failed collection gives `信息收集失败`; a successful one opens with its header, whose numbers read back as the success count and the total |
| InformationCollector.Label | agents/information_collector.py:117-121 | the heading of a priority group: 核心信息 for high, 重要信息 for medium, 补充信息 for low |
| InformationCollector.Shown | agents/information_collector.py:127 | the text an entry's content shows: a string is itself, any other value its `str()` |
| InformationCollector.ItemText | agents/information_collector.py:125-129 | one entry: its purpose as a `###` heading, its query, its content and a rule |
| InformationCollector.ItemsText | agents/information_collector.py:124-129 | the entries of a group, one after another in order |
| InformationCollector.GroupHead | agents/information_collector.py:122 | the group heading: `##` and the priority's label |
| InformationCollector.GroupText | agents/information_collector.py:112-129 | a priority with no successful entry adds nothing; otherwise its heading and its entries |
| InformationCollector.GroupsText | agents/information_collector.py:111-129 | the groups of the given priorities, in that order |
| InformationCollector.Header | agents/information_collector.py:106-108 | the company title, the collection time and the success count over the query count |
| InformationCollector.Formatted | agents/information_collector.py:93-131 | a failed collection gives 信息收集失败; otherwise the header and the high, medium and low groups |
| ReportEnhancer.WordCount | report_enhancer.py:118-119 | the number of joining words found is at most the number of words |
| ReportEnhancer.AmountAt | report_enhancer.py:130 | an amount match lies inside the text |
| ReportEnhancer.NotBrokenWhenExcluded | report_enhancer.py:107-113 | blank lines, headings, pipe rows, code fences and lines under 30 characters are never broken table lines |
| ReportEnhancer.ShapeStartsUpper | report_enhancer.py:128-141 | every broken-row shape begins with a capital letter, so no other line is a broken table line |
| ReportEnhancer.InOrderContains | report_enhancer.py:152-160 | every pattern of an ordered `a.*b.*c` match occurs in the line |
| ReportEnhancer.PricedCells | report_enhancer.py:188-204 | a matched row has four cells, and a fifth when a change was captured |
| ReportEnhancer.FinancialRowsStep | report_enhancer.py:185-204 | the rows for one more line are the earlier rows followed by that line's row |
| ReportEnhancer.MetricRowsStep | report_enhancer.py:207-231 | the rows for one more metric are the earlier rows followed by that metric's row |
| ReportEnhancer.FinancialHeader | report_enhancer.py:169-172 | the fixed header is two lines |
| ReportEnhancer.FinancialRebuild | report_enhancer.py:166-240 | at least three lines, the last one empty |
| ReportEnhancer.CollectFinancialRows | report_enhancer.py:185-204 | the line loop collects exactly the rows matched line by line, in order |
| ReportEnhancer.CollectMetricRows | report_enhancer.py:207-231 | the metric loop collects exactly the rows found metric by metric, in order |
| ReportEnhancer.RebuildFinancial | report_enhancer.py:166-240 | the method appends exactly the header, the rows (line rows, else metric rows), the fence when there are none, and the blank line |
| ReportEnhancer.FinancialUnparsed | report_enhancer.py:233-240 | with no row found the header is followed by a fence holding the original lines verbatim |
| ReportEnhancer.PricedCellsPipeFree | report_enhancer.py:188-204 | the printed cells hold no `\|` when the matched groups hold none |
| ReportEnhancer.FinancialRowWiderThanHeader | report_enhancer.py:169-204 | a line with a captured change prints five cells under the four-column header |
| ReportEnhancer.InterpretedCells | report_enhancer.py:270-279 | an interpreted ratio row has four cells |
| ReportEnhancer.InterpretedRowsStep | report_enhancer.py:265-279 | the rows for one more ratio are the earlier rows followed by that ratio's row |
| ReportEnhancer.SectorRowsStep | report_enhancer.py:297-305 | the rows for one more sector ratio are the earlier rows followed by that ratio's row |
| ReportEnhancer.ValuationRebuild | report_enhancer.py:242-312 | at least three lines, the last one empty, in both layouts and in the fenced fallback |
| ReportEnhancer.CollectInterpretedRows | report_enhancer.py:265-279 | the loop collects exactly the interpreted rows, in ratio order |
| ReportEnhancer.CollectSectorRows | report_enhancer.py:297-305 | the loop collects exactly the sector rows, in ratio order |
| ReportEnhancer.RebuildValuation | report_enhancer.py:242-312 | the method builds exactly the chosen layout's header and rows, or the fence around the joined lines when no row was found |
| ReportEnhancer.InterpretedIndustryEmpty | report_enhancer.py:267-279 | the third group starts with a capital and holds no digit, so the industry column is always empty and the interpretation is that group plus a space, cut to 60 characters |
| ReportEnhancer.MarketRows | report_enhancer.py:321-329 | at most one row per line |
| ReportEnhancer.MarketRebuild | report_enhancer.py:314-332 | at least three lines, the last one empty; it never fences |
| ReportEnhancer.MarketRowsStep | report_enhancer.py:321-329 | the rows for one more line are the earlier rows followed by that line's row |
| ReportEnhancer.RebuildMarketShare | report_enhancer.py:314-332 | the method builds exactly the header, one row per line that splits, and a blank line |
| ReportEnhancer.CapitalWords | report_enhancer.py:341-342 | at most one capitalised-word match per character |
| ReportEnhancer.GenericRebuild | report_enhancer.py:334-349 | the joined lines appear in the result, which ends with an empty line |
| ReportEnhancer.Rebuilt | report_enhancer.py:143-164 | empty exactly for no lines; otherwise at least two lines ending with an empty one |
| ReportEnhancer.RebuildTable | report_enhancer.py:143-164 | the method calls the first rebuilder whose first-line pattern matches |
| ReportEnhancer.FirstEmpty | report_enhancer.py:354 | the index `cells.index('')` finds: the first empty cell, or -1 when there is none |
| ReportEnhancer.FixTableRowOfRow | report_enhancer.py:351-364 | a row printed from tidy cells is left as it is |
| ReportEnhancer.KeptFramed | report_enhancer.py:354 | a row framed by empty cells keeps both ends through the index filter |
| ReportEnhancer.TrimEndsFramed | report_enhancer.py:356-359 | dropping the blank ends of a framed row gives its inner cells |
| ReportEnhancer.FixTableRowIdempotent | report_enhancer.py:351-364 | `_fix_table_row` is idempotent |
| ReportEnhancer.KeptTidy | report_enhancer.py:354 | the index filter keeps cells tidy |
| ReportEnhancer.TrimEndsTidy | report_enhancer.py:356-359 | dropping the blank ends keeps cells tidy |
| ReportEnhancer.RepairStep | report_enhancer.py:81-101 | one step takes a whole maximal broken run, or one other line, and advances the index |
| ReportEnhancer.FixAllTables | report_enhancer.py:74-103 | the report split into lines, each broken run rebuilt and every pipe row fixed, joined again |
| ReportEnhancer.RepairEachLine | report_enhancer.py:76-101 | the line loop computes exactly the repaired lines |
| ReportEnhancer.PlainLineUnchanged | report_enhancer.py:96-101 | a line that is neither broken nor a pipe row is copied at its place and separates the repair before it from the repair after |
| ReportEnhancer.BrokenRunRebuilt | report_enhancer.py:84-95 | a broken run followed by a line that is not broken is replaced by the rebuilt block of exactly that run |
| PipeTable.Dashes | report_enhancer.py:171 | `n` separator cells `---` |
| PipeTable.SplitCells | report_enhancer.py:353 | reading a line gives one more cell than it has `\|` |
| PipeTable.StripAll | report_enhancer.py:353 | one stripped cell per piece, in order |
| PipeTable.NonEmpty | report_enhancer.py:354 | only non-empty cells, each from the row |
| PipeTable.RowAsJoin | report_enhancer.py:364 | a printed row is the `\|`-join of an empty piece, the padded cells and an empty piece |
| PipeTable.SplitRow | report_enhancer.py:353-364 | splitting a printed row at `\|` gives back the padded cells between two empty pieces |
| PipeTable.RowPipes | agents/table_fixer.py:160 | a row of pipe-free cells has one more `\|` than it has cells |
| PipeTable.SplitCellsOfRow | report_enhancer.py:353-364 | reading back a row of stripped, pipe-free cells gives the cells between two empty pieces |
| PipeTable.RowRoundTrip | report_enhancer.py:353-364 | printing clean cells as a row and reading the row back gives the same cells |
| PipeTable.SplitCellsPipeFree | report_enhancer.py:353 | the cells read from any line hold no `\|` |
| PipeTable.SplitCellsStripped | report_enhancer.py:353 | the cells read from any line are stripped |
| LineScan.RunLength | report_enhancer.py:86-90 | the run of candidate lines at the start: all candidates, stopping at the first other line |
| LineScan.RunLengthExact | report_enhancer.py:86-90 | a run length is determined by where the candidate lines stop |
| LineScan.ScanAppend | report_enhancer.py:80-101 | the scan is local: pieces that do not continue one run across their boundary are processed independently |
| LineScan.ScanKeepsPlainLine | report_enhancer.py:96-101 | a non-candidate line that the other-line rewrite leaves alone is copied at its place and separates what comes before from what comes after |
| LineScan.ScanWithoutTables | report_enhancer.py:96-101 | without candidate lines the scan is a line-by-line rewrite |
| LineScan.ScanRun | report_enhancer.py:84-95 | a maximal run is replaced by its rebuilt block followed by the scan of the rest |
| LineScan.ScanOther | report_enhancer.py:96-101 | stepping over one non-candidate line |
| LineScan.RunEnd | report_enhancer.py:86-90 | the end of the run: every line up to it is a candidate and the line at it is not |
| ReportEnhancer.LooksLikeProse | report_enhancer.py:117-124 | more than 25 spaces and more than two of the seven joining words, without any of the five table words: an ordinary paragraph |
| ReportEnhancer.RunOf | report_enhancer.py:129 | the longest prefix of characters of one class, as a greedy `[...]+` consumes it |
| ReportEnhancer.IsDigitOrDot | report_enhancer.py:129 | the class `[\d.]` |
| ReportEnhancer.IsScale | report_enhancer.py:130 | the class `[BMK]` |
| ReportEnhancer.WordThenCode | report_enhancer.py:129 | `^[A-Z][a-z]+[A-Z][\d.]+`: a capitalised word, a capital and a digit or dot |
| ReportEnhancer.LabelThenAmounts | report_enhancer.py:130 | `^[A-Z][a-z]+\$[\d.]+[BMK]\$[\d.]+[BMK]`: a label and two adjacent scaled amounts |
| ReportEnhancer.IsRatioData | report_enhancer.py:132 | the class `[\d.–~<>]` |
| ReportEnhancer.RatioThenData | report_enhancer.py:132 | `^Ratio[A-Z]+[\d.–~<>]` |
| ReportEnhancer.SegmentThenData | report_enhancer.py:133 | `^Segment[A-Z][a-z]+[\d%]` |
| ReportEnhancer.IsMetricData | report_enhancer.py:134 | the class `[\d.%]` |
| ReportEnhancer.DataAhead | report_enhancer.py:134 | `.*[\d.%]`: a data character before any newline |
| ReportEnhancer.YearThenData | report_enhancer.py:134 | `.*FY\d{4}.*[\d.%]`: a fiscal year of four digits, then a data character, on one line |
| ReportEnhancer.MetricYearData | report_enhancer.py:134 | `^Metric.*FY\d{4}.*[\d.%]` |
| ReportEnhancer.MetricQuarter | report_enhancer.py:135 | `^MetricQ\d` |
| ReportEnhancer.BrokenShape | report_enhancer.py:128-141 | one of the seven broken-row patterns matches at the start of the stripped line |
| ReportEnhancer.IsBrokenTableLine | report_enhancer.py:105-141 | `_is_broken_table_line`: not blank, not a heading, pipe row or fence, at least 30 characters, not prose, and of a broken-row shape |
| ReportEnhancer.InOrder | report_enhancer.py:152-160 | `p1.*p2.*…` searched case-insensitively: the patterns occur in this order without overlap |
| ReportEnhancer.QuarterAhead | report_enhancer.py:152 | `Q\d` somewhere in the text, case-insensitively |
| ReportEnhancer.IsFinancialHeader | report_enhancer.py:152 | `Metric.*FY.*YoY\|Metric.*Q\d` on the first line |
| ReportEnhancer.IsValuationHeader | report_enhancer.py:156 | `Ratio.*Value.*Industry\|Ratio.*NVIDIA.*Sector\|Ratio.*Interpretation` on the first line |
| ReportEnhancer.IsMarketShareHeader | report_enhancer.py:160 | `Segment.*Market.*Share\|Products` on the first line |
| ReportEnhancer.HasDigit | report_enhancer.py:221 | `any(c.isdigit() for c in v)` |
| ReportEnhancer.DollarPrefixed | report_enhancer.py:197-200 | a value not starting with `$` gets one in front |
| ReportEnhancer.StripGroups | report_enhancer.py:187-191 | the five matched groups with surrounding whitespace removed |
| ReportEnhancer.FinancialCells | report_enhancer.py:187-206 | the cells printed for one matched line: stripped groups, priced when the row is about money |
| ReportEnhancer.MoneyRow | report_enhancer.py:196 | the line holds `$B`, or the label names revenue or income |
| ReportEnhancer.FinancialRowLine | report_enhancer.py:203-206 | the printed row of one matched line |
| ReportEnhancer.FinancialRow | report_enhancer.py:184-206 | one row for a line the row pattern matches, none otherwise |
| ReportEnhancer.FinancialRows | report_enhancer.py:184-206 | the rows of the matched lines, in line order |
| ReportEnhancer.MetricRowLine | report_enhancer.py:220-231 | the row of a named metric: amounts get `$` when they hold a digit (the second not when it says "not"), a margin's first value gets `%` |
| ReportEnhancer.MetricRow | report_enhancer.py:210-231 | one row when the joined text names the metric with its values, none otherwise |
| ReportEnhancer.MetricRows | report_enhancer.py:210-231 | the metric rows, in the order of the metric list |
| ReportEnhancer.InterpretedRows | report_enhancer.py:265-278 | the rows of the interpreted layout, in the order of the ratio list |
| ReportEnhancer.InterpretedRow | report_enhancer.py:265-278 | one row when the ratio's pattern matches the joined text, none otherwise |
| ReportEnhancer.SectorRows | report_enhancer.py:296-304 | the rows of the sector layout, in the order of the ratio list |
| ReportEnhancer.SectorRow | report_enhancer.py:296-304 | one row of the ratio's name and its three matched values when its pattern matches, none otherwise |
| ReportEnhancer.IsInterpretedLayout | report_enhancer.py:247 | the joined text names `Value`, `Industry` and `Interpretation` |
| ReportEnhancer.ShareRow | report_enhancer.py:320-327 | a line split around its first share figure gives a row when the segment and the share are both non-empty |
| ReportEnhancer.KeptCells | report_enhancer.py:353 | the cell filter: since `cells.index(c)` is the first empty cell's index, either all empty cells stay or all go |
| ReportEnhancer.Blank | report_enhancer.py:355 | `c == '' or c.strip() == ''` |
| ReportEnhancer.DropFirstBlank | report_enhancer.py:355-356 | a blank first cell is dropped |
| ReportEnhancer.DropLastBlank | report_enhancer.py:357-358 | a blank last cell is dropped |
| ReportEnhancer.TrimEnds | report_enhancer.py:355-358 | one leading and one trailing blank cell are dropped |
| ReportEnhancer.FixTableRow | report_enhancer.py:350-363 | `_fix_table_row`: the cells printed again with single-space padding, or the line itself when no cell is left |
| ReportEnhancer.IsPipeLine | report_enhancer.py:98 | the line holds `\|` and its stripped text starts with `\|` |
| ReportEnhancer.FixIfPipeRow | report_enhancer.py:97-101 | a line outside a broken run is re-padded when it is a pipe row and kept otherwise |
| ReportEnhancer.RepairLines | report_enhancer.py:74-103 | `_fix_all_tables`: each maximal run of broken lines is replaced by its rebuilt table, every other line passes through `FixIfPipeRow` |
| PipeTable.Row | report_enhancer.py:364 | `'\| ' + ' \| '.join(cells) + ' \|'`, the printed form of a row |
| PipeTable.Separator | report_enhancer.py:427 | the separator row with `n` cells `---` |
| LineScan.ScanLines | report_enhancer.py:80-101 | the scan of `_fix_all_tables`: each maximal run of candidate lines becomes its rebuilt block, each other line its rewritten form |
| ReportMarkdown.EntityFacts | report_enhancer.py:378-385 | every reference starts with `&`, no reference or replacement holds a line break, and no replacement is `\|` |
| ReportMarkdown.CleanedLines | report_enhancer.py:392-406 | one cleaned line per line |
| ReportMarkdown.CleanHtmlEntities | report_enhancer.py:375-408 | the method decodes the six references in order and then cleans the lines near tables |
| ReportMarkdown.DecodeAll | report_enhancer.py:387-388 | the reference loop applies each replacement once, over the whole text, in listed order |
| ReportMarkdown.CleanLines | report_enhancer.py:392-406 | the line loop computes exactly the cleaned lines |
| ReportMarkdown.CleanLineAt | report_enhancer.py:395-406 | markup is cleaned on a line only when it or a neighbouring line holds `\|` |
| ReportMarkdown.ReplaceNoLead | report_enhancer.py:388 | replacing a reference whose first character does not occur changes nothing |
| ReportMarkdown.AmpDecodedOnce | report_enhancer.py:378-388 | each reference is decoded once, in order: `&amp;lt;` becomes `&lt;`, not `<` |
| ReportMarkdown.DecodedKeepsBreaks | report_enhancer.py:387-388 | decoding changes no line break |
| ReportMarkdown.DecodedAddsNoPipe | report_enhancer.py:387-388 | decoding brings in no `\|` |
| ReportMarkdown.CleanMarkupKeepsCounts | report_enhancer.py:398-404 | stripping emphasis keeps the count of every other character, `\|` and line breaks among them |
| ReportMarkdown.CleanHtmlKeepsLineCount | report_enhancer.py:375-408 | `_clean_html_entities` keeps the number of lines |
| ReportMarkdown.CleanedLinesAwayFromPipes | report_enhancer.py:395-397 | lines with no `\|` anywhere near are left as they are |
| ReportMarkdown.CleanHtmlWithoutTables | report_enhancer.py:375-408 | text without any `\|` is only decoded: emphasis away from tables is kept |
| ReportMarkdown.EnhancedLines | report_enhancer.py:415-434 | one enhanced line per line |
| ReportMarkdown.EnhanceTableFormatting | report_enhancer.py:410-436 | the method computes the enhanced lines, joined again |
| ReportMarkdown.EnhanceRow | report_enhancer.py:417-434 | a pipe line with cells is printed again, as a `---` row when all cells are dashes; any other line is kept |
| ReportMarkdown.CellsAreCellText | report_enhancer.py:419-421 | the cells read from a line are non-empty, stripped and free of `\|` |
| ReportMarkdown.CellsExclude | report_enhancer.py:419-421 | cells read from a line without a character do not contain it |
| ReportMarkdown.RowIsPipeLine | report_enhancer.py:427-430 | a printed row starts and ends with `\|` and is its own strip |
| ReportMarkdown.PipeLed | report_enhancer.py:417 | a line that starts and ends with `\|` is a pipe line and its own strip |
| ReportMarkdown.RowExcludes | report_enhancer.py:430 | a printed row holds no character its cells do not hold, other than `\|` and space |
| ReportMarkdown.DashesAreDashCells | report_enhancer.py:425-427 | `---` cells are all-dash cells |
| ReportMarkdown.EnhancedCells | report_enhancer.py:417-430 | reading back an enhanced pipe line gives the same number of cells: its own cells, or `---` for each cell of a dash row |
| ReportMarkdown.EnhanceLineIdempotent | report_enhancer.py:415-434 | enhancing an already enhanced line changes nothing |
| ReportMarkdown.EnhanceLineNoBreak | report_enhancer.py:417-434 | an enhanced line holds no line break when the line held none |
| ReportMarkdown.EnhanceKeepsLineCount | report_enhancer.py:410-436 | every input line gives exactly one output line |
| ReportMarkdown.EnhancedLinesWithoutPipes | report_enhancer.py:433-434 | lines without `\|` are copied |
| ReportMarkdown.EnhanceWithoutTables | report_enhancer.py:410-436 | text without `\|` is left as it is |
| ReportMarkdown.RowOf | report_enhancer.py:533-536 | a line contributes at most one row |
| ReportMarkdown.DataRows | report_enhancer.py:529-536 | at most one row per data line |
| ReportMarkdown.ParseTable | report_enhancer.py:520-544 | the method returns exactly what the parse specification gives for the lines |
| ReportMarkdown.CollectRows | report_enhancer.py:532-536 | the row loop keeps, in order, the data lines with header width |
| ReportMarkdown.DataRowsStep | report_enhancer.py:532-536 | the rows for one more line are the earlier rows followed by that line's row |
| ReportMarkdown.DataRowsShape | report_enhancer.py:533-536 | every collected row has the header's width and no empty cell |
| ReportMarkdown.ParsedTableNone | report_enhancer.py:522-539 | `_parse_table` gives `None` exactly for fewer than three lines or when no line is a data row of header width |
| ReportMarkdown.ParsedTableWellFormed | report_enhancer.py:520-544 | a parsed table has rows, all of header width |
| ReportMarkdown.RowLines | report_enhancer.py:551-552 | one printed line per row |
| ReportMarkdown.TableToMarkdown | report_enhancer.py:546-553 | the method prints the header, the separator and one line per row, joined by newlines |
| ReportMarkdown.RowLinesNoBreak | report_enhancer.py:551-552 | printed rows of clean cells hold no line break |
| ReportMarkdown.RowIsDataRow | report_enhancer.py:529-536 | a printed row is read back as a data line with its own cells |
| ReportMarkdown.DataRowsOfRowLines | report_enhancer.py:520-553 | parsing the printed rows gives the rows back |
| ReportMarkdown.PrintedLines | report_enhancer.py:546-553 | the printed text of a printable table splits back into its lines |
| ReportMarkdown.ParsePrinted | report_enhancer.py:520-553 | printing a table and parsing the printed lines gives the table back |
| ReportMarkdown.ExtractTables | report_enhancer.py:491-518 | the method returns exactly the tables the scan specification finds |
| ReportMarkdown.ExtractLine | report_enhancer.py:499-510 | one line updates the found tables, the buffer and the in-table flag as one scan step |
| ReportMarkdown.FoundWellFormed | report_enhancer.py:504-508 | a finished block adds only well-formed tables |
| ReportMarkdown.ExtractStateValid | report_enhancer.py:496-510 | the scanner is in a table exactly while its buffer is non-empty, and every table found is well formed |
| ReportMarkdown.ExtractedWellFormed | report_enhancer.py:491-518 | every extracted table has rows, all of header width |
| ReportMarkdown.ExtractPipeRun | report_enhancer.py:500-502 | a run of printed pipe lines is buffered whole |
| ReportMarkdown.ExtractPrinted | report_enhancer.py:491-553 | a printed table, alone in the text, is extracted as itself |
| ReportMarkdown.ExtractWholeTable | report_enhancer.py:491-518 | lines that are all pipe lines and parse as a table are extracted as that table |
| ReportMarkdown.HasNumberIff | report_enhancer.py:577-582 | the number pattern is found exactly when the cell holds a digit or a dot |
| ReportMarkdown.IsNumericTable | report_enhancer.py:575-584 | true exactly when some cell after the first column of some row holds a number |
| ReportMarkdown.Decoded | report_enhancer.py:387-388 | the text after the first `n` entity replacements, each applied to the whole text in turn |
| ReportMarkdown.DecodeEntities | report_enhancer.py:378-388 | all six entity references replaced, in the dictionary's order |
| ReportMarkdown.NearPipe | report_enhancer.py:397 | the line holds `\|`, or the line before or after it does |
| ReportMarkdown.CleanMarkup | report_enhancer.py:399-404 | `~~x~~` unwrapped; then, when the line holds more than four `*` or more than four `_`, `*x*` and `_x_` unwrapped too |
| ReportMarkdown.CleanedLine | report_enhancer.py:395-406 | a line near a pipe is cleaned, any other line is kept |
| ReportMarkdown.CleanHtmlText | report_enhancer.py:375-408 | the text `_clean_html_entities` returns: entities decoded, then the lines near tables cleaned |
| ReportMarkdown.AllDashCells | report_enhancer.py:425 | `c.strip('-').strip() == ''` for every cell |
| ReportMarkdown.EnhanceLine | report_enhancer.py:417-434 | a pipe line with cells is printed again, as a `---` separator of the same width when every cell is dashes; other lines are kept |
| ReportMarkdown.EnhancedText | report_enhancer.py:410-436 | the text `_enhance_table_formatting` returns: each line enhanced, lines joined again |
| ReportMarkdown.OnlyRule | report_enhancer.py:529 | every character is one of `\|`, `-`, `:` or space |
| ReportMarkdown.IsDataLine | report_enhancer.py:529 | a data line is not blank and not a rule line |
| ReportMarkdown.ParsedTable | report_enhancer.py:520-544 | `_parse_table`: none below three lines or without a row of header width; otherwise the headers of the first line and the data rows of header width after the second |
| ReportMarkdown.Markdown | report_enhancer.py:546-553 | `_table_to_markdown`: the header row, a separator of header width and one row per data row |
| ReportMarkdown.Found | report_enhancer.py:504-508 | a finished block gives its parsed table, if it has one |
| ReportMarkdown.ExtractStep | report_enhancer.py:500-510 | one line of the scan: a pipe line joins the block, another line ends an open block |
| ReportMarkdown.ExtractState | report_enhancer.py:499-510 | the scan's state after reading the lines in order |
| ReportMarkdown.Finish | report_enhancer.py:513-516 | the tables found, plus the last block's table when the text ends inside a table |
| ReportMarkdown.ExtractedTables | report_enhancer.py:491-518 | the tables `_extract_tables` returns |
| ReportMarkdown.NumberAt | report_enhancer.py:577 | where `[\d.]+[%BMK]?\|\$[\d.]+` can start a match |
| ReportMarkdown.HasNumber | report_enhancer.py:582 | `re.search` of the number pattern succeeds in the cell |
| ReportMarkdown.NumericCell | report_enhancer.py:579-583 | a cell after the first column of some row holds a number |
| FormatEnhancer.NormalizeNewlines | agents/format_enhancer.py:41 | no carriage return is left |
| FormatEnhancer.DropIndent | agents/format_enhancer.py:45 | dropping indentation keeps the first character |
| FormatEnhancer.DropTrailing | agents/format_enhancer.py:46 | dropping trailing spaces keeps a first character that is not a space |
| FormatEnhancer.CloseGap | agents/format_enhancer.py:171-176 | closing gaps keeps the first character |
| FormatEnhancer.EnhanceSection | agents/format_enhancer.py:35-63 | the step-by-step rewrite computes exactly the seven passes and the final strip; empty content is returned as it is |
| FormatEnhancer.EnhanceReportFormat | agents/format_enhancer.py:15-33 | the loop fills the result one section key at a time, exactly as the specification of the whole call |
| FormatEnhancer.ErrorStops | agents/format_enhancer.py:27-29 | once a section fails, the whole call fails with its error |
| FormatEnhancer.ValidateTables | agents/format_enhancer.py:180-188 | the count is the number of non-overlapping case-insensitive `<table…>…</table>` elements, and the verdict holds exactly when it reaches the minimum |
| FormatEnhancer.SectionKeysDistinct | agents/format_enhancer.py:27 | the four section keys are distinct |
| FormatEnhancer.PrefixOk | agents/format_enhancer.py:27-31 | the first `n` keys succeed together exactly when each of their entries succeeds |
| FormatEnhancer.PrefixKeys | agents/format_enhancer.py:27-31 | after `n` keys the dictionary has exactly those keys |
| FormatEnhancer.PrefixValues | agents/format_enhancer.py:27-31 | after `n` keys each of them maps to its enhanced entry |
| FormatEnhancer.EnhancedReportShape | agents/format_enhancer.py:15-33 | fails exactly when a present section holds a truthy non-string; otherwise exactly the four section keys, an absent one mapped to `""` and a present one to its enhanced value |
| FormatEnhancer.AiInsightsDropped | agents/format_enhancer.py:25-33 | `aiInsights` never survives the enhancement |
| FormatEnhancer.DropIndentPairs | agents/format_enhancer.py:45 | after dropping indentation no newline is followed by a space, and no two spaces have been brought together |
| FormatEnhancer.DropTrailingPairs | agents/format_enhancer.py:46 | after dropping trailing spaces no space is followed by a newline, and the earlier guarantees still hold |
| FormatEnhancer.WhitespacePassClean | agents/format_enhancer.py:40-46 | after the whitespace pass there is no carriage return, no two spaces in a row and no space next to a newline |
| FormatEnhancer.CloseGapSpaces | agents/format_enhancer.py:171-176 | whitespace at the front passes through a gap-closing pass unchanged |
| FormatEnhancer.CloseGapNoGap | agents/format_enhancer.py:171-176 | a gap-closing pass leaves no gap of its own kind |
| FormatEnhancer.CloseGapNonSpace | agents/format_enhancer.py:171-176 | a gap-closing pass removes whitespace only |
| FormatEnhancer.NumberPassesClose | agents/format_enhancer.py:168-178 | each of the four number passes removes the whitespace of its own pattern: after `$`, before `%`, after `+` and after `-` |
| FormatEnhancer.FinalStepShape | agents/format_enhancer.py:61-63 | after the last two steps no run of four newlines survives and there is no whitespace at either end |
| FormatEnhancer.SectionEnhancedShape | agents/format_enhancer.py:35-63 | an enhanced section has no run of four newlines and no whitespace at either end; empty content stays empty |
| FormatEnhancer.NoTableCountsZero | agents/format_enhancer.py:187-188 | text without `<table` counts zero tables |
| FormatEnhancer.OneTableCountsOne | agents/format_enhancer.py:187-188 | one plain table element counts once and meets a minimum of one |
| FormatEnhancer.TrailingAt | agents/format_enhancer.py:46 | ` +\n` matches at the start: one or more spaces, then a newline |
| FormatEnhancer.WhitespacePass | agents/format_enhancer.py:40-46 | line endings unified, runs of spaces made single, then spaces dropped after and before each newline, in that order |
| FormatEnhancer.NormalizeHeadings | agents/format_enhancer.py:65-91 | each `<h2>`, then `<h3>`, then `<h4>` element, any letter case and attributes, becomes the bare tag around its stripped text with a blank line on each side |
| FormatEnhancer.NormalizeTables | agents/format_enhancer.py:93-148 | every `<table ...>...</table>` element, any letter case, is replaced by what the table formatter makes of it |
| FormatEnhancer.NormalizeParagraphs | agents/format_enhancer.py:150-166 | paragraphs get a newline on each side; `<strong>` and `<em>` lose their attributes; `<b>` becomes `<strong>` and `<i>` becomes `<em>`; each element's text is stripped |
| FormatEnhancer.GapAt | agents/format_enhancer.py:171-176 | `L\s+R` matches at the start: a left character, a whitespace run, a right character |
| FormatEnhancer.NormalizeNumbers | agents/format_enhancer.py:168-178 | the gaps after `$`, before `%`, after `+` and after `-` next to a digit are closed, in that order |
| FormatEnhancer.SectionEnhanced | agents/format_enhancer.py:35-63 | empty content is returned as it is; otherwise the whitespace pass, the four normalisations, runs of four or more newlines cut to three, and a strip |
| FormatEnhancer.EnhanceValue | agents/format_enhancer.py:28-40 | a falsy value is kept, a string is enhanced, any other value raises at `.replace` |
| FormatEnhancer.SectionEntry | agents/format_enhancer.py:27-31 | a present key's value is enhanced; a missing key gets the empty string |
| FormatEnhancer.EnhancedPrefix | agents/format_enhancer.py:27-31 | the dictionary after the first `n` section keys, or the first error among them |
| FormatEnhancer.EnhancedReport | agents/format_enhancer.py:15-33 | the dictionary after all four section keys, or the first error |
| FormatEnhancer.IsDollar | agents/format_enhancer.py:171 | the `$` before a gap closed by `\$\s+(\d)` |
| FormatEnhancer.IsPercent | agents/format_enhancer.py:172 | the `%` after a gap closed by `(\d)\s+%` |
| FormatEnhancer.IsPlus | agents/format_enhancer.py:175 | the `+` before a gap closed by `\+\s+(\d)` |
| FormatEnhancer.IsMinus | agents/format_enhancer.py:176 | the `-` before a gap closed by `-\s+(\d)` |
| DeepAnalyst.LastIndexOfChar | agents/deep_analyst.py:708 | `rfind`: the last index of the character, or -1 when it does not occur |
| DeepAnalyst.BraceSliced | agents/deep_analyst.py:707-710 | the brace rule never lengthens the text |
| DeepAnalyst.CleanFields | agents/deep_analyst.py:723-728 | the loop builds exactly the cleaned dictionary, one key at a time |
| DeepAnalyst.TableCheckError | agents/deep_analyst.py:758-759 | the table checks raise nothing exactly when every checked key is present and holds text |
| DeepAnalyst.TableReport | agents/deep_analyst.py:758-763 | one printed verdict per checked section, in order, each the table validation of that section with its minimum |
| DeepAnalyst.AssembleMarkdown | agents/deep_analyst.py:766-779 | the `+=` steps build exactly the title, sections 1 to 4 in order, and section 5 when there is an insights text |
| DeepAnalyst.IndexOfAfter | agents/deep_analyst.py:701-702 | a pattern whose first character does not occur before it is found where it is placed |
| DeepAnalyst.FenceJsonBody | agents/deep_analyst.py:701-702 | a fenced `json` block yields its stripped body, whatever follows the closing fence |
| DeepAnalyst.JsonFenceIsFence | agents/deep_analyst.py:701-704 | text holding the `json` fence holds a fence |
| DeepAnalyst.NoFenceUnchanged | agents/deep_analyst.py:701-704 | text without a fence is left as it is |
| DeepAnalyst.BraceSlicedObject | agents/deep_analyst.py:707-710 | the cut runs from the first `{` to the last `}`: braces inside the object are kept |
| DeepAnalyst.BraceSlicedNoPair | agents/deep_analyst.py:709-710 | without both braces the text is left as it is |
| DeepAnalyst.BraceSlicedReversed | agents/deep_analyst.py:707-710 | a last `}` before the first `{` gives an empty candidate |
| DeepAnalyst.CandidateOfFencedObject | agents/deep_analyst.py:698-710 | an answer that is one fenced JSON object yields exactly that object |
| DeepAnalyst.CleanedShape | agents/deep_analyst.py:723-728 | the cleaned dictionary has the same keys; strings are repaired and carry no `*` or `_`; other values are copied |
| DeepAnalyst.CompletedObject | agents/deep_analyst.py:716-719 | only the four required keys decide completeness; `aiInsights` is optional |
| DeepAnalyst.RawAnswerReturned | agents/deep_analyst.py:788-806 | a decode error or an incomplete object returns success with the raw answer as the report and no `report_json` |
| DeepAnalyst.ScalarFails | agents/deep_analyst.py:717 | a JSON number, boolean or null makes the membership test raise, ending in the error return |
| DeepAnalyst.CompleteReportFails | agents/deep_analyst.py:731-732 | as written a complete report never reaches the enhancer: line 732 raises and the generic error is returned |
| DeepAnalyst.NeverEnhanced | agents/deep_analyst.py:719-787 | as written no outcome carries `report_json` |
| DeepAnalyst.TableMinimumsShape | agents/deep_analyst.py:745-753 | three tables for each section in order, and two for `aiInsights` only when present |
| DeepAnalyst.ShortfallNeverBlocks | agents/deep_analyst.py:758-787 | a shortfall of tables never blocks: once every checked value is text the report is assembled |
| DeepAnalyst.MarkdownOrder | agents/deep_analyst.py:766-779 | the report starts with its title; section 5 comes last when present, otherwise section 4 does |
| DeepAnalyst.SectionsStayText | agents/deep_analyst.py:742 | with the four sections all text, enhancement succeeds and every section stays text |
| DeepAnalyst.InsightsKeyError | agents/deep_analyst.py:759 | even without line 732, enhancement drops `aiInsights`, and the table check raises `KeyError` when the answer had one |
| DeepAnalyst.EnhancedWithInsightsText | agents/deep_analyst.py:742 | the corrected enhancement keeps the four sections and `aiInsights` exactly when present, all as text |
| DeepAnalyst.CompleteReportSucceeds | agents/deep_analyst.py:719-787 | with the corrections a complete answer is reported with `report_json` holding the four sections, plus `aiInsights` exactly when present, and section 5 closing the report when the insights are not empty |
| DeepAnalyst.FinishText | agents/deep_analyst.py:745-787 | assembly over text sections carries the dictionary, and section 5 closes the report when the insights text is not empty |
| DeepAnalyst.FenceStripped | agents/deep_analyst.py:700-704 | the stripped text between the first ```` ```json ```` and the next ```` ``` ````; else between the first two ```` ``` ````; else the text itself |
| DeepAnalyst.Sliced | agents/deep_analyst.py:707-710 | from the first opening to the last closing character when both occur, Python's empty slice when the last closing one comes first, else the whole text; never longer than the text |
| DeepAnalyst.Candidate | agents/deep_analyst.py:698-710 | the text handed to `json.loads`: the stripped answer, then the fence rule, then the brace rule |
| DeepAnalyst.CleanValue | agents/deep_analyst.py:724-728 | a string value goes through `WordFixer.fix_all_issues`; any other value is kept |
| DeepAnalyst.Cleaned | agents/deep_analyst.py:723-728 | `cleaned_json`: the same keys, each value cleaned |
| DeepAnalyst.TableMinimums | agents/deep_analyst.py:745-753 | the checked sections: the four required keys with three tables each, then `aiInsights` with two when the answer had it |
| DeepAnalyst.Title | agents/deep_analyst.py:766 | the report's first line names the company |
| DeepAnalyst.Block | agents/deep_analyst.py:767-779 | one section: its heading, a blank line, its text and a blank line |
| DeepAnalyst.MarkdownReport | agents/deep_analyst.py:766-779 | the title, sections 1 to 4 in order, then section 5 exactly when an insights text is given |
| DeepAnalyst.Finish | agents/deep_analyst.py:745-787 | the first error of the table checks fails the analysis; otherwise success with the assembled report and the enhanced dictionary, section 5 only for a truthy insights text |
| DeepAnalyst.HasKey | agents/deep_analyst.py:717-719 | `key in report_json`: a key of an object, an element of a list, a substring of a string |
| DeepAnalyst.TypeName | agents/deep_analyst.py:717-724 | the Python type name an exception message gives for each JSON value |
| DeepAnalyst.Completed | agents/deep_analyst.py:713-724 | no decoded value or a missing required key returns the raw answer; a scalar raises at the membership test; a complete list or string raises at `.items()`; a complete object goes on |
| DeepAnalyst.PostProcess | agents/deep_analyst.py:694-812 | as written: an exception fails the analysis, an incomplete answer is returned raw, and a complete object fails at the missing `validate_text_quality` |
| DeepAnalyst.EnhancedWithInsights | agents/deep_analyst.py:742 | the corrected enhancement: the four sections enhanced as written, and `aiInsights`, when present, enhanced like them and kept |
| DeepAnalyst.PostProcessCorrected | agents/deep_analyst.py:694-812 | as intended: the same error and raw-answer cases; a complete object is cleaned, enhanced with its insights kept, checked and assembled |
| JsonValue.Truthy | agents/deep_analyst.py:777 | Python truthiness of a parsed value: `None`, `False`, `0`, `""`, `[]` and `{}` are false |
| JsonValue.Get | agents/deep_analyst.py:732 | `d.get(key, default)`: the stored value when the key is present, the default otherwise |
| QueryPlanner.PriorityAt | agents/query_planner.py:94 | `high` before position 3, `medium` before 6, `low` after |
| QueryPlanner.EntryAt | agents/query_planner.py:89-101 | an entry contributes one query exactly when it is text or a dictionary |
| QueryPlanner.Normalized | agents/query_planner.py:87-101 | no more normalised queries than entries |
| QueryPlanner.NormalizeQueries | agents/query_planner.py:87-101 | the loop builds exactly the normalised queries, in order |
| QueryPlanner.Truncated | agents/query_planner.py:84 | a list or a string is cut to at most `MAX_SONAR_QUERIES` (a list by `Take`); any other value raises |
| QueryPlanner.FallbackQueries | agents/query_planner.py:122-163 | eight queries, each the fallback entry of its topic, purpose and priority |
| QueryPlanner.GenerateSearchPlan | agents/query_planner.py:20-116 | the method returns exactly the plan the answer and the parser determine, with the fallback on every failure |
| QueryPlanner.NormalizedEach | agents/query_planner.py:88-98 | when every entry is text or a dictionary nothing is dropped and entry `i` is normalised with its own position |
| QueryPlanner.NormalizedDropsOthers | agents/query_planner.py:99-101 | entries that are neither text nor dictionaries leave nothing |
| QueryPlanner.PlanBounded | agents/query_planner.py:83-116 | whatever the model answers, the plan keeps the company and holds at most `MAX_SONAR_QUERIES` queries, each a dictionary |
| QueryPlanner.FallbackOnFailure | agents/query_planner.py:109-116 | a failed call or an unparsable answer gives the fallback plan; only the fallback plan carries a note |
| QueryPlanner.FallbackShape | agents/query_planner.py:118-170 | the fallback has eight queries about the company, three high, three medium and two low, as the position rule gives |
| QueryPlanner.TextQueriesNumbered | agents/query_planner.py:84-95 | a list of text queries gives one dictionary per query, in order, numbered from 1 and cut at `MAX_SONAR_QUERIES` |
| QwenClient.Messages | api_clients/qwen_client_enhanced.py:51-52 | a non-empty system prompt is the first message, followed by the given ones; otherwise the messages are unchanged |
| QwenClient.StepOf | api_clients/qwen_client_enhanced.py:65-117 | an attempt retries exactly when its outcome is a 429, a status of 500 or more, or an exception |
| QwenClient.Backoff | api_clients/qwen_client_enhanced.py:66-69 | no wait before the first attempt, `2**k` before attempt `k` |
| QwenClient.Loop | api_clients/qwen_client_enhanced.py:64-117 | after `n` attempts at most `n` were made, exactly `n` when none has returned |
| QwenClient.LoopNext | api_clients/qwen_client_enhanced.py:64-117 | one more attempt from an unfinished state records its waits and either its result or its error |
| QwenClient.FinishedStays | api_clients/qwen_client_enhanced.py:81-100 | once an attempt has returned, no later attempt changes anything |
| QwenClient.LoopRetry | api_clients/qwen_client_enhanced.py:89-117 | a retrying attempt adds its waits and replaces the last error when it records one |
| QwenClient.LoopReturn | api_clients/qwen_client_enhanced.py:81-100 | when attempt `n` returns, `chat` gives its result after `n + 1` attempts |
| QwenClient.Chat | api_clients/qwen_client_enhanced.py:32-123 | the loop sends the messages with the system prompt first, returns the loop's result, waits exactly the recorded waits, and sends every request with the caller's `max_tokens` |
| QwenClient.SimplePrompt | api_clients/qwen_client_enhanced.py:125-150 | the reply's content, or the exception naming the error |
| QwenClient.RetriesContinue | api_clients/qwen_client_enhanced.py:64-117 | while every attempt retries, the loop goes on |
| QwenClient.FirstFinalDecides | api_clients/qwen_client_enhanced.py:81-100 | the first attempt that does not retry decides the result and no request follows it |
| QwenClient.AllRetriesExhaust | api_clients/qwen_client_enhanced.py:119-123 | when every attempt retries, all attempts are made and the error names their count and the last error recorded |
| QwenClient.ServerErrorBackoff | api_clients/qwen_client_enhanced.py:66-69 | server errors throughout: the waits are exactly the exponential backoff and no error is recorded |
| QwenClient.RateLimitWaits | api_clients/qwen_client_enhanced.py:89-92 | a rate limit adds five seconds to the wait before the next attempt |
| QwenClient.DefaultServerErrors | api_clients/qwen_client_enhanced.py:64-123 | with three attempts and server errors throughout, the client waits 2 then 4 seconds, sends three requests and fails with no last error |
| SonarClient.Search | api_clients/sonar_client.py:26-121 | every outcome, exceptions included, becomes a result carrying the query; every failure carries an error message, and only a 200 answer can succeed |
| SonarClient.Classify200 | api_clients/sonar_client.py:61-94 | a 200 answer succeeds only when its first choice holds an object `message` with `content`, and the content returned is that value; every failure carries a message |
| SonarClient.BatchSearch | api_clients/sonar_client.py:123-142 | one result per query, result `i` for query `i` |
| SonarClient.RefusalMessage | api_clients/sonar_client.py:95-103 | a refusal is an error reporting the status and at most 200 characters of the body |
| SonarClient.NoChoicesFails | api_clients/sonar_client.py:65-70 | a 200 answer without choices, or with none, fails |
| SonarClient.WellFormedAnswer | api_clients/sonar_client.py:72-94 | a well-formed answer returns its content with the top-level citations, else the message's, else none |
| SonarClient.TopLevelCitationsWin | api_clients/sonar_client.py:75-79 | top-level citations win over the message's own |
| SonarClient.MissingContentFails | api_clients/sonar_client.py:82-87 | a message without content fails even when it has citations |
| SonarClient.OnlyAnswersSucceed | api_clients/sonar_client.py:95-121 | refusals, timeouts and exceptions all become error results with a message, never raised; a timeout quotes at most 50 characters of the query |
| SonarClient.TextMessageMissingContent | api_clients/sonar_client.py:72-87 | a string `message` is searched for substrings, so without "content" (and without "citations" where those are looked up in it) the missing-content error is returned |
| SonarClient.ListMessageMissingContent | api_clients/sonar_client.py:72-87 | a list `message` is searched for elements, so without the element "content" the missing-content error is returned |
| SonarClient.TextMessageWithContentRaises | api_clients/sonar_client.py:82-93 | a string `message` containing "content" passes the test, and `message["content"]` then raises into the exception result |
| SonarClient.ScalarMessageRaises | api_clients/sonar_client.py:72-121 | a number, boolean or `None` as `message` makes `in` raise, and the exception becomes the error result |
| QueryPlanner.TextQuery | agents/query_planner.py:89-95 | a text query at position `i` becomes the dictionary with the query, the purpose `查询 i+1` and the priority of its position |
| QueryPlanner.FallbackEntry | agents/query_planner.py:123-127 | one fallback query: the company followed by its topic, with its purpose and priority |
| QueryPlanner.FallbackPlan | agents/query_planner.py:118-170 | the fallback plan: the eight fallback queries cut to `MAX_SONAR_QUERIES`, with the note 使用备用查询计划 |
| QueryPlanner.SearchPlan | agents/query_planner.py:20-116 | a failed call, an unparsable answer, a value that is not an object, a missing `queries` key or a `queries` value that cannot be sliced gives the fallback plan; otherwise the plan with its queries cut and normalised |
| QwenClient.Pow2 | api_clients/qwen_client_enhanced.py:67 | `2 ** k`, at least 1 |
| QwenClient.Reply | api_clients/qwen_client_enhanced.py:81-87 | `result["choices"][0]["message"]["content"]` with `result.get("usage", {})`, or nothing where a lookup raises |
| QwenClient.TimeoutError | api_clients/qwen_client_enhanced.py:101 | the timeout message names the timeout in seconds and the exception's text |
| QwenClient.StatusError | api_clients/qwen_client_enhanced.py:97 | the error for another status names the status and the response text |
| QwenClient.Exhausted | api_clients/qwen_client_enhanced.py:119-123 | the final error names the retry count and the last error, `None` when there was none |
| QwenClient.Retryable | api_clients/qwen_client_enhanced.py:64-117 | an attempt is retried after an exception, a 429, a status of 500 or more, or a 200 whose reply cannot be read |
| QwenClient.ChatOutcome | api_clients/qwen_client_enhanced.py:62-123 | the result of the first attempt that returns one, or the exhaustion error after `max_retries` attempts |
| SonarClient.JsonLen | api_clients/sonar_client.py:65 | Python `len` of a parsed value: a string's, list's or object's size; none where `len` raises |
| SonarClient.StatusError | api_clients/sonar_client.py:97 | the error of a non-200 answer names the status and at most 200 characters of the body |
| SonarClient.Membership | api_clients/sonar_client.py:76-82 | Python `key in j`: a substring test on a string, an element test on a list, a key test on an object; none where `in` raises |
| SonarClient.FirstMessage | api_clients/sonar_client.py:72 | `result["choices"][0]["message"]`; none where the lookup raises |
| SonarClient.Malformed | api_clients/sonar_client.py:112-113 | an exception while the answer is read gives a failed result with the `异常:` message |
| ProfessionalFormatter.LastBar | agents/professional_formatter.py:189 | the last `\|` at index 2 or later of a line, or -1 |
| ProfessionalFormatter.RowAt | agents/professional_formatter.py:189 | a row `\|[^\n]+\|` starts and ends with `\|`, has at least three characters and stays on its line |
| ProfessionalFormatter.BlockAt | agents/professional_formatter.py:189 | a table block found at the start of the text is non-empty and inside the text |
| ProfessionalFormatter.TableTitle | agents/professional_formatter.py:177-185 | the caption subject: Financial Metrics, else Revenue Analysis, else Valuation Metrics, else Key Data Points, by lower-cased mentions in the whole section |
| ProfessionalFormatter.CleanHtmlContent | agents/professional_formatter.py:191-202 | after the h2/h3/p rewrites and tag stripping no run of four newlines is left |
| ProfessionalFormatter.Recommendation | agents/professional_formatter.py:101-106 | BUY exactly when the lower-cased valuation mentions "buy", SELL exactly when it mentions "sell" and not "buy", HOLD otherwise |
| ProfessionalFormatter.BuyInStrongBuy | agents/professional_formatter.py:103 | the "strong buy" test is subsumed by the "buy" test |
| ProfessionalFormatter.Stars | agents/professional_formatter.py:114 | four stars for BUY, three otherwise |
| ProfessionalFormatter.TargetDigits | agents/professional_formatter.py:109 | a captured target is a non-empty run of digits |
| ProfessionalFormatter.TargetPrice | agents/professional_formatter.py:109-110 | the target is `TBD` or `$` followed by digits |
| ProfessionalFormatter.Formatter.constructor | agents/professional_formatter.py:12-18 | the four section counters start at zero |
| ProfessionalFormatter.Formatter.AddTableNumbers | agents/professional_formatter.py:167-189 | every table block gets the caption numbered one past the section counter, the counter grows by the number of blocks and other counters are unchanged |
| ProfessionalFormatter.Formatter.NumberBlocks | agents/professional_formatter.py:169-189 | the left-to-right scan gives the captioned text and advances only its own counter by the block count |
| ProfessionalFormatter.Formatter.FormatSection | agents/professional_formatter.py:143-165 | heading, numbered subsection headings, captioned and cleaned content; the section counter grows by its blocks |
| ProfessionalFormatter.Formatter.FormatSections | agents/professional_formatter.py:35-62 | the four sections in order, each numbering its tables from its own counter |
| ProfessionalFormatter.Formatter.FormatProfessionalReport | agents/professional_formatter.py:20-66 | cover, summary, rule, four sections, sources and disclaimer; each counter grows by the tables of its section, so numbering continues across reports |
| ProfessionalFormatter.OnlyCaptionsAdded | agents/professional_formatter.py:187-189 | captioning only inserts: with empty captions the text is returned unchanged |
| ProfessionalFormatter.NoBlockUnchanged | agents/professional_formatter.py:189 | text without a table block is returned unchanged |
| ProfessionalFormatter.OneLineNoBlock | agents/professional_formatter.py:189 | a block needs two lines, so one-line text has none |
| ProfessionalFormatter.TwoRowBlock | agents/professional_formatter.py:189 | two consecutive `\|a\|`, `\|b\|` rows form one whole block |
| ProfessionalFormatter.TwoRowTable | agents/professional_formatter.py:169-189 | a two-row table gets exactly one caption, numbered one past the counter |
| ProfessionalFormatter.CleanPlainText | agents/professional_formatter.py:191-202 | text without tags or four newlines in a row passes the cleaning unchanged |
| ProfessionalFormatter.CleanH2 | agents/professional_formatter.py:194 | an `<h2>` element becomes a `####` heading line |
| ProfessionalFormatter.ThreeHeadings | agents/professional_formatter.py:153-155 | subsection headings are numbered 1 to 3 in the given order |
| ProfessionalFormatter.TargetOfPhrase | agents/professional_formatter.py:109-110 | a number before " price" after digit-free text becomes the `$` target |
| ProfessionalFormatter.NoDigitNoTarget | agents/professional_formatter.py:109-110 | without digits the target is TBD |
| ProfessionalFormatter.StarsFollowRecommendation | agents/professional_formatter.py:102-114 | four stars exactly when the valuation mentions "buy" |
| ProfessionalFormatter.MoreRows | agents/professional_formatter.py:189 | the greedy `(?:\n\|[^\n]+\|)*`: a further row follows only a row that ends at its line's end; the length matched stays within the text |
| ProfessionalFormatter.Numbered | agents/professional_formatter.py:167-189 | the blocks found left to right each get the caption numbered one past the previous, from `n + 1` on; other characters are kept |
| ProfessionalFormatter.BlockCount | agents/professional_formatter.py:189 | the number of blocks the left-to-right scan finds |
| ProfessionalFormatter.CaptionText | agents/professional_formatter.py:174-187 | the caption: `**Table s.k**: ` and the subject, on its own line before the table |
| ProfessionalFormatter.Captions | agents/professional_formatter.py:169-187 | the captions of one section, all with the subject read off the whole content |
| ProfessionalFormatter.CleanAfterH2 | agents/professional_formatter.py:195-202 | the h3 and paragraph passes, tag removal and the newline cut; no run of four newlines is left |
| ProfessionalFormatter.SectionHead | agents/professional_formatter.py:143-150 | a rule, then `## N. English (Chinese)` and a blank line |
| ProfessionalFormatter.Heading | agents/professional_formatter.py:153-155 | `### N.i` followed by the subsection text, which already starts with its own number |
| ProfessionalFormatter.Headings | agents/professional_formatter.py:153-155 | the subsection headings numbered from 1 in the given order |
| ProfessionalFormatter.SectionText | agents/professional_formatter.py:141-165 | the head, the subsection headings, the captioned and cleaned content and a blank line, with the counter at `n` |
| ProfessionalFormatter.KeywordAt | agents/professional_formatter.py:109 | `\s*(?:target\|price)` in any letter case at the start |
| ProfessionalFormatter.ExecutiveSummary | agents/professional_formatter.py:97-139 | the summary with the recommendation and its stars, the target price, the data-point count and the fixed highlights |
| ProfessionalFormatter.CoverPage | agents/professional_formatter.py:68-95 | the cover with the company, the clock values, the duration and the data-point count, then the fixed credits |
| ProfessionalFormatter.Field | agents/professional_formatter.py:40 | `report_json.get(key, "")` |
| ProfessionalFormatter.Assembled | agents/professional_formatter.py:32-66 | cover, summary, a rule, the four sections, the data sources and the disclaimer, in that order |
| ProfessionalFormatter.SpecText | agents/professional_formatter.py:35-62 | one `_format_section` call with its fixed arguments and the report's text for its key |
| ProfessionalFormatter.ReportText | agents/professional_formatter.py:20-66 | the whole report when the four counters stand at `c1` to `c4`: each section is numbered from its own counter, the summary reads the valuation text |
| ReportFormatter.AnchorRest | agents/report_formatter.py:48 | once `href="` has matched, the value runs to the next quote (a `>` does not stop it) and holds no quote, the tag to the first `>` after it and the text lazily to the first `</a>`; a match ends after the value start and within the text |
| ReportFormatter.AnchorFrom | agents/report_formatter.py:48 | the `href="` candidates are tried from the right, the first whose rest matches wins; a match is non-empty, within the text, with a quote-free link |
| ReportFormatter.AnchorAt | agents/report_formatter.py:48 | a match needs `<a` at the start and a `>` after it; it has a positive length within the text and a quote-free link |
| ReportFormatter.SubAnchors | agents/report_formatter.py:48 | each match, left to right, is replaced by `[text](link)`; other characters are kept |
| ReportFormatter.SubAnchorsAbsent | agents/report_formatter.py:48 | text without `<` passes the link pass unchanged |
| ReportFormatter.HtmlToMarkdown | agents/report_formatter.py:12-53 | the result has no surrounding white space and no run of three newlines |
| ReportFormatter.Finish | agents/report_formatter.py:48-53 | the clean-up after the tag passes leaves no surrounding white space and no run of three newlines |
| ReportFormatter.RulesAbsent | agents/report_formatter.py:27-45 | passes whose opening tag does not occur change nothing |
| ReportFormatter.RulesOnPlain | agents/report_formatter.py:27-45 | text without `<` passes every tag rule unchanged |
| ReportFormatter.PlainMarkdown | agents/report_formatter.py:12-53 | text without markup or three newlines in a row is only stripped |
| ReportFormatter.TaggedMarkdown | agents/report_formatter.py:12-53 | when the tag passes leave plain one-line text, the rest only strips it |
| ReportFormatter.HeadingTags | agents/report_formatter.py:27 | `<h1>x</h1>` becomes `# x` |
| ReportFormatter.EmphasisTags | agents/report_formatter.py:27-45 | `<em>x</em>` passes the earlier rules and becomes `*x*` |
| ReportFormatter.LinkTags | agents/report_formatter.py:27-45 | no tag rule touches a link element |
| ReportFormatter.AnchorElement | agents/report_formatter.py:48 | a link element becomes `[text](href)` in the link pass, also when the link holds `>`, provided it holds no quote and does not end in `=` |
| ReportFormatter.AnchorAtElement | agents/report_formatter.py:48 | a link element is matched whole at its start, with its link and its text |
| ReportFormatter.AnchorLastHref | agents/report_formatter.py:48 | a link element with two `href` attributes becomes `[text](link)` with the later link, also when that link holds `>` |
| ReportFormatter.AnchorAtLastHref | agents/report_formatter.py:48 | a link element with two `href` attributes is matched whole at its start, with the later link and the text |
| ReportFormatter.LinkMarkdown | agents/report_formatter.py:12-53 | the whole conversion turns a link element into `[text](href)` |
| ReportFormatter.LinkEnds | agents/report_formatter.py:51-53 | a Markdown link without newlines survives the newline collapse and the strip |
| ReportFormatter.FormatJsonReport | agents/report_formatter.py:56-93 | the report starts with the company title and a rule |
| ReportFormatter.SectionShape | agents/report_formatter.py:77-91 | a section is emitted exactly when its key holds non-empty text, under its heading and closed by a rule |
| ReportFormatter.FourSections | agents/report_formatter.py:67-93 | the report is the header followed by the four sections in fixed order |
| ReportFormatter.EmptyJsonReport | agents/report_formatter.py:74-93 | with no section present only the header remains |
| ReportFormatter.TableKept | agents/report_formatter.py:85-86 | content containing `<table` is copied verbatim |
| ReportFormatter.ProseConverted | agents/report_formatter.py:87-89 | other content is converted to Markdown |
| ReportFormatter.TagRegion | agents/report_formatter.py:110-113 | the look-ahead region is the prefix before the first `>` |
| ReportFormatter.AddAttrOnlyInserts | agents/report_formatter.py:110-113 | the attribute passes only insert: with an empty attribute nothing changes |
| ReportFormatter.AddAttrAbsent | agents/report_formatter.py:110-113 | text without the tag is unchanged |
| ReportFormatter.AddAttrAtTag | agents/report_formatter.py:110-113 | a tag gets the attribute exactly when the word does not occur before its `>` |
| ReportFormatter.ScriptRemoved | agents/report_formatter.py:107 | a script element disappears entirely |
| ReportFormatter.PlainDisplay | agents/report_formatter.py:96-115 | text without markup is displayed unchanged |
| ReportFormatter.Recommendation | agents/report_formatter.py:136-141 | 买入, then 持有, then 卖出 decide, in that order, else N/A; the English alternatives never fire |
| ReportFormatter.RecommendationCorrected | agents/report_formatter.py:136-141 | with the English words compared in upper case: 买入 or BUY gives a buy, else 持有 or HOLD a hold, else 卖出 or SELL a sell, each exactly then |
| ReportFormatter.EnglishBuyIgnored | agents/report_formatter.py:136 | as written, a text saying only "Buy" gets N/A |
| ReportFormatter.EnglishBuyCounted | agents/report_formatter.py:136-141 | with the upper-case comparison, "buy" in any letter case yields 买入 (Buy) |
| ReportFormatter.NumberLen | agents/report_formatter.py:144 | the number match lies within the text |
| ReportFormatter.NumberIsDecimal | agents/report_formatter.py:144 | the matched number is digits, optionally a dot and more digits |
| ReportFormatter.FigureAt | agents/report_formatter.py:144-151 | a captured figure is a decimal number |
| ReportFormatter.FindFigure | agents/report_formatter.py:144-151 | the first match's figure is a decimal number |
| ReportFormatter.ExtractKeyMetrics | agents/report_formatter.py:118-155 | growth rate stays N/A, the recommendation is the one the code as written computes (English words never match), the P/E ratio is N/A or a decimal and the target is N/A or `$` and a decimal |
| ReportFormatter.ExtractKeyMetricsCorrected | agents/report_formatter.py:118-155 | with the upper-case comparison only the recommendation changes: target, ratio and growth rate are those of the code as written |
| ReportFormatter.NoDigitNoMetrics | agents/report_formatter.py:143-153 | without digits neither a ratio nor a target is found |
| ReportFormatter.ChineseTargetFirst | agents/report_formatter.py:149-153 | the 目标价 pattern wins over the English one wherever each occurs |
| ReportFormatter.TargetOfLabel | agents/report_formatter.py:149-153 | `目标价: $` and a whole number yields that number as the target |
| ReportFormatter.MarkdownRule | agents/report_formatter.py:27-45 | the nine tag passes in the order they run: the opening tag, the closing tag and the text put before and after the captured content |
| ReportFormatter.ApplyRules | agents/report_formatter.py:27-45 | the tag passes from number `i` on, each applied to the result of the one before |
| ReportFormatter.Tidy | agents/report_formatter.py:51-53 | what the last two steps leave: no white space at either end and no run of three or more newlines |
| ReportFormatter.JsonSection | agents/report_formatter.py:67-72 | the four report keys and their headings, in the order they are emitted |
| ReportFormatter.SectionBody | agents/report_formatter.py:85-89 | content holding `<table` is kept as it is, anything else is converted to Markdown |
| ReportFormatter.HasSection | agents/report_formatter.py:78 | the key is present and its text is non-empty |
| ReportFormatter.SectionBlock | agents/report_formatter.py:78-91 | a present section gives its heading, its body and a rule; an absent one gives nothing |
| ReportFormatter.Blocks | agents/report_formatter.py:77-91 | the section blocks from number `i` on, in section order |
| ReportFormatter.ReportHeader | agents/report_formatter.py:74-75 | the title line with the company's name and a rule |
| ReportFormatter.AddAttr | agents/report_formatter.py:110-113 | `re.sub(tag + '(?![^>]*' + word + ')', tag + attr, s)`: every `tag` not followed by `word` before the next `>` gets `attr` after it |
| ReportFormatter.CleanHtmlForDisplay | agents/report_formatter.py:96-115 | script elements removed, then tables without a class and links without a target given one |
| ReportFormatter.IsDecimal | agents/report_formatter.py:144 | the captured `\d+\.?\d*`: digits, then possibly a dot and more digits |
| ReportFormatter.LabelLen | agents/report_formatter.py:144-151 | the length of each figure's label: `P/E`, `目标价`, `Target Price` |
| ReportFormatter.LabelAt | agents/report_formatter.py:144-151 | the label at the start of the text: `P/E` in any case, `目标价`, or `[Tt]arget [Pp]rice` |
| ReportFormatter.SeparatorRun | agents/report_formatter.py:144 | the greedy `[:\s]*`: the run of colons and white space at the start, no longer than the text |
| SectorLeaderAnalyzer.HotspotQueries | agents/sector_leader_analyzer.py:83-88 | four searches, each with the date spliced in |
| SectorLeaderAnalyzer.SuccessIndices | agents/sector_leader_analyzer.py:100-104 | exactly the positions whose search succeeded, in increasing order |
| SectorLeaderAnalyzer.PartsPaired | agents/sector_leader_analyzer.py:100-104 | `zip` plus the status filter keeps exactly the successful pairs, in order |
| SectorLeaderAnalyzer.NoSuccessNoData | agents/sector_leader_analyzer.py:100-104 | without a successful search the market data is empty |
| SectorLeaderAnalyzer.ErrorResult | agents/sector_leader_analyzer.py:185-191 | the error object has status `error`, the message and an empty `top_sectors` |
| SectorLeaderAnalyzer.AnalyzeWithAi | agents/sector_leader_analyzer.py:154-191 | the status is `success` only when the model answered and its cleaned answer parsed to an object; otherwise the error object |
| SectorLeaderAnalyzer.AnalysisSucceeds | agents/sector_leader_analyzer.py:178-183 | a parsed object with a measurable `top_sectors` succeeds and keeps every other field |
| SectorLeaderAnalyzer.TickerRun | agents/sector_leader_analyzer.py:358 | the maximal run of `[A-Z0-9.]` characters |
| SectorLeaderAnalyzer.GroupAt | agents/sector_leader_analyzer.py:358 | a group is `(`, a non-empty ticker run and `)` |
| SectorLeaderAnalyzer.FindTicker | agents/sector_leader_analyzer.py:358-360 | a found ticker is a non-empty run of ticker characters |
| SectorLeaderAnalyzer.TickerEnd | agents/sector_leader_analyzer.py:362 | a match of `\s*\([A-Z0-9.]+\)` has positive length within the text |
| SectorLeaderAnalyzer.RemoveTickers | agents/sector_leader_analyzer.py:362 | removing the tickers never lengthens the name |
| SectorLeaderAnalyzer.FindTickerAfter | agents/sector_leader_analyzer.py:358-360 | after a name without `(`, `(T)` yields the ticker T |
| SectorLeaderAnalyzer.RemoveTickersKeeps | agents/sector_leader_analyzer.py:362 | a prefix without `(` not ending in white space is kept |
| SectorLeaderAnalyzer.RemoveTickerSuffix | agents/sector_leader_analyzer.py:362 | a name followed by ` (TICKER)` loses exactly that suffix |
| SectorLeaderAnalyzer.Advantages | agents/sector_leader_analyzer.py:371-374 | the advantages are never a bare text: a text becomes a one-element list |
| SectorLeaderAnalyzer.StandardizeFields | agents/sector_leader_analyzer.py:350-389 | only objects standardise; the rank defaults to position plus one; advantages are never bare text; a truthy top-level metric wins; a given ticker leaves the name untouched |
| SectorLeaderAnalyzer.SplitFound | agents/sector_leader_analyzer.py:356-362 | with no ticker given and brackets in the name, the ticker found is taken out of the stripped name |
| SectorLeaderAnalyzer.SplitTickerOfName | agents/sector_leader_analyzer.py:356-362 | `Name (TICKER)` splits into the name and the ticker |
| SectorLeaderAnalyzer.TickerFromName | agents/sector_leader_analyzer.py:350-389 | `{"company": "Name (TICKER)"}` standardises to the split name and ticker, other fields at their defaults, rank position plus one |
| SectorLeaderAnalyzer.ObjectStandardizes | agents/sector_leader_analyzer.py:350-389 | an object with a text company and an object `key_metrics` always standardises |
| SectorLeaderAnalyzer.StandardizeLeaders | agents/sector_leader_analyzer.py:349-389 | the loop builds one record per raw entry in order, or stops at the first entry that raises |
| SectorLeaderAnalyzer.ExtractedLeaders | agents/sector_leader_analyzer.py:252-400 | leaders come only from text content and a model answer; anything that raises gives none |
| SectorLeaderAnalyzer.FailedSearchNoLeaders | agents/sector_leader_analyzer.py:238-239 | a search without a successful answer gives no leaders |
| SectorLeaderAnalyzer.FailedAnswerNoLeaders | agents/sector_leader_analyzer.py:321-400 | a model answer that raises gives no leaders |
| SectorLeaderAnalyzer.AssignedKeys | agents/sector_leader_analyzer.py:212-215 | the result's keys are exactly the markets asked for |
| SectorLeaderAnalyzer.LastAssignmentWins | agents/sector_leader_analyzer.py:212-215 | a repeated market keeps the value of its last lookup |
| SectorLeaderAnalyzer.SectorLeadersKeys | agents/sector_leader_analyzer.py:193-221 | the result names the sector and has one entry per market asked for |
| SectorLeaderAnalyzer.SectorLeadersLast | agents/sector_leader_analyzer.py:212-215 | a market asked for last at position j holds the leaders of its own search |
| SectorLeaderAnalyzer.FindSectorLeaders | agents/sector_leader_analyzer.py:210-221 | the loop builds the market dictionary by assigning each market's lookup in turn |
| SectorLeaderAnalyzer.MarketsFor | agents/sector_leader_analyzer.py:431-438 | a known market tag selects that market alone, anything else all three |
| SectorLeaderAnalyzer.TopSectors | agents/sector_leader_analyzer.py:423 | at most three sectors; a list is cut to its first three |
| SectorLeaderAnalyzer.SectorEntry | agents/sector_leader_analyzer.py:426-441 | a sector entry is keyed by a hashable sector name and records that name |
| SectorLeaderAnalyzer.RaisedStays | agents/sector_leader_analyzer.py:426-441 | once an entry raises, no dictionary is produced |
| SectorLeaderAnalyzer.CollectedSize | agents/sector_leader_analyzer.py:425-441 | the dictionary has no more keys than entries, and no two of its keys are equal as Python compares them |
| SectorLeaderAnalyzer.CollectedFrom | agents/sector_leader_analyzer.py:425-441 | looking up any key gives the value of the last entry whose key equals it, as Python compares keys (`True` meets `1`), or a `KeyError` when there is none |
| SectorLeaderAnalyzer.CollectedKeys | agents/sector_leader_analyzer.py:425-441 | every stored key is the first key written to its slot: a later equal key overwrites only the value |
| SectorLeaderAnalyzer.TrueAndOneShareSlot | agents/sector_leader_analyzer.py:441 | `d[True] = a` then `d[1] = b` leaves the single entry `True: b` |
| SectorLeaderAnalyzer.AssignGet | agents/sector_leader_analyzer.py:441 | after `d[key] = v`, a key equal to `key` reads `v` and every other key reads what it read before |
| SectorLeaderAnalyzer.ReportFor | agents/sector_leader_analyzer.py:416-451 | a failed analysis gives the error; otherwise the loop collects each top sector's leaders |
| SectorLeaderAnalyzer.GenerateHotspotReport | agents/sector_leader_analyzer.py:402-451 | the report for the analysis run for `today` |
| SectorLeaderAnalyzer.SectorsOfReport | agents/sector_leader_analyzer.py:423-441 | a report covers at most three sectors under pairwise unequal keys; each key is hashable and equal, as Python compares keys, to the name of the sector whose leaders it holds |
| SectorLeaderAnalyzer.AnalysisFailureStops | agents/sector_leader_analyzer.py:414-420 | when the model's analysis cannot be had, the report is the analysis error |
| SectorLeaderAnalyzer.Part | agents/sector_leader_analyzer.py:101 | the entry of one successful search: `Query:`, the query, a newline and its content |
| SectorLeaderAnalyzer.Parts | agents/sector_leader_analyzer.py:100-104 | the entries of the first `n` pairs of `zip(queries, results)` whose search succeeded, in order |
| SectorLeaderAnalyzer.MarketData | agents/sector_leader_analyzer.py:100-104 | the successful searches joined by blank lines; `zip` stops at the shorter list |
| SectorLeaderAnalyzer.IsErrorResult | agents/sector_leader_analyzer.py:187-191 | the error object: exactly `status` `error`, a text `error` and an empty `top_sectors` |
| SectorLeaderAnalyzer.AssignError | agents/sector_leader_analyzer.py:179 | the exception of `result["status"] = ...` on a parsed list or scalar |
| SectorLeaderAnalyzer.AnalyzeMarketHotspots | agents/sector_leader_analyzer.py:70-109 | the four dated searches, their successful results joined, then the model's analysis of them |
| SectorLeaderAnalyzer.TickerChar | agents/sector_leader_analyzer.py:358 | the class `[A-Z0-9.]` |
| SectorLeaderAnalyzer.Or | agents/sector_leader_analyzer.py:352 | Python `a or b`: `a` when truthy, `b` otherwise |
| SectorLeaderAnalyzer.Field | agents/sector_leader_analyzer.py:352 | `d.get(key)`: `None` when the key is absent |
| SectorLeaderAnalyzer.HasChar | agents/sector_leader_analyzer.py:356 | `c in j` for a one-character `c`: a substring, element or key test; none where Python raises |
| SectorLeaderAnalyzer.SplitTicker | agents/sector_leader_analyzer.py:356-362 | without a ticker, a truthy name holding `(` and `)` gives up its first bracketed ticker and is cleaned of all of them; none where a test raises |
| SectorLeaderAnalyzer.Metric | agents/sector_leader_analyzer.py:365-368 | the top-level metric when truthy, else the one in `key_metrics`, which must then be an object |
| SectorLeaderAnalyzer.Standardize | agents/sector_leader_analyzer.py:350-389 | the standard record of one raw entry, the default rank being its position plus one; none where the loop body raises |
| SectorLeaderAnalyzer.AllStandardized | agents/sector_leader_analyzer.py:349-389 | every raw entry standardised at its own position, or none when one of them raises |
| SectorLeaderAnalyzer.SampleShown | agents/sector_leader_analyzer.py:392-394 | the debug line slices the first company's name when it is truthy, which raises unless the name is text or a list |
| SectorLeaderAnalyzer.ArrayCandidate | agents/sector_leader_analyzer.py:332-342 | the answer stripped of its fence and cut from the first `[` to the last `]` |
| SectorLeaderAnalyzer.MarketQuery | agents/sector_leader_analyzer.py:226-232 | the search of each known market with the sector spliced in; an unknown market gets a generic query |
| SectorLeaderAnalyzer.MarketLeaders | agents/sector_leader_analyzer.py:223-250 | `_find_market_leaders`: a failed search gives no leaders, otherwise the leaders extracted from its content |
| SectorLeaderAnalyzer.Assigned | agents/sector_leader_analyzer.py:212-215 | the dictionary built by `d[keys[i]] = values[i]` for the first `n` positions in turn |
| SectorLeaderAnalyzer.MarketLookup | agents/sector_leader_analyzer.py:214 | the leaders of market `i` asked about, which meets the `i`-th replies |
| SectorLeaderAnalyzer.Answers | agents/sector_leader_analyzer.py:212-215 | one list of leaders per market asked for, in order |
| SectorLeaderAnalyzer.SectorLeadersOf | agents/sector_leader_analyzer.py:193-221 | `find_sector_leaders`: the sector and each market's leaders |
| SectorLeaderAnalyzer.Hashable | agents/sector_leader_analyzer.py:441 | a value Python can use as a dictionary key: not a list and not an object |
| SectorLeaderAnalyzer.Collected | agents/sector_leader_analyzer.py:425-441 | the dictionary built by `d[k] = v` for the first `n` entries in turn, as its entries in insertion order; none from the first entry that raised |
| SectorLeaderAnalyzer.DictKey | agents/sector_leader_analyzer.py:441 | the slot a key takes: `True` shares `1`'s and `False` shares `0`'s, every other value has its own |
| SectorLeaderAnalyzer.SlotOf | agents/sector_leader_analyzer.py:441 | the first entry whose key is equal to the given one, as Python compares keys, or -1 |
| SectorLeaderAnalyzer.Lookup | agents/sector_leader_analyzer.py:441 | `d[key]`: none exactly when no stored key equals `key` |
| SectorLeaderAnalyzer.Assign | agents/sector_leader_analyzer.py:441 | `d[key] = v`: when an equal key is stored, the keys and their order stay as they were; otherwise `(key, v)` is added at the end |
| SectorLeaderAnalyzer.LastWrite | agents/sector_leader_analyzer.py:425-441 | the value of the last entry whose key equals the given one |
| SectorLeaderAnalyzer.FirstWrite | agents/sector_leader_analyzer.py:425-441 | the key of the first entry equal to the given one |
| SectorLeaderAnalyzer.SectorEntries | agents/sector_leader_analyzer.py:426-441 | one entry per hot sector, sector `k` meeting the `k`-th replies |
| SectorLeaderAnalyzer.HotspotOutcome | agents/sector_leader_analyzer.py:414-451 | a failed analysis gives the `热点分析失败` error; otherwise the analysis and the leaders of its first three sectors, or that the loop raised |
| PdfGenerator.DigitRuns | pdf_generator.py:212 | the number count is at most the digit count and is zero exactly when there is no digit |
| PdfGenerator.NotTableData | pdf_generator.py:205-215 | text over 500 characters, text with at most five digits and text with at most two of `%`, `$`, `~` are never table data |
| PdfGenerator.DigitRunsSplit | pdf_generator.py:212 | numbers on the two sides of a non-digit are counted separately |
| PdfGenerator.RowOf | pdf_generator.py:225-227 | the label of a row holds no `:` |
| PdfGenerator.RowOfLabelValue | pdf_generator.py:225-227 | `head:value` splits at the first colon, both sides stripped; later colons stay in the value |
| PdfGenerator.RowsComplete | pdf_generator.py:224-227 | every line holding a `:` gives its row |
| PdfGenerator.RowsSound | pdf_generator.py:224-227 | every row comes from a line holding a `:` |
| PdfGenerator.RowsEmpty | pdf_generator.py:229 | there are no rows exactly when no line holds a `:` |
| PdfGenerator.ParseAndCreateTable | pdf_generator.py:217-246 | the row loop builds the table of the paragraph's lines, or none when no line holds a `:` |
| PdfGenerator.StripHeading | pdf_generator.py:257 | removing the heading marker never lengthens the text |
| PdfGenerator.ReplaceSpansAbsent | pdf_generator.py:251-255 | text without the delimiter is unchanged |
| PdfGenerator.ReplaceSpansLone | pdf_generator.py:251-255 | a lone delimiter is no span |
| PdfGenerator.ReplaceWrapped | pdf_generator.py:251-255 | a delimited span on its own is replaced by its wrapped content |
| PdfGenerator.DecodeAbsent | pdf_generator.py:259 | text without `&` has no entity to decode |
| PdfGenerator.AmpersandDecodedLast | pdf_generator.py:259 | `&amp;` is decoded last, so `&amp;lt;` becomes `&lt;`, not `<` |
| PdfGenerator.StripHeadingAt | pdf_generator.py:257 | a marker `#+\s+` at the very start is removed; text not starting with `#` is unchanged |
| PdfGenerator.LaterPassesKeep | pdf_generator.py:255-259 | the later passes leave plain text not starting with `#` unchanged |
| PdfGenerator.CleanBold | pdf_generator.py:248-261 | `**x**` becomes `<b>x</b>` |
| PdfGenerator.CleanItalic | pdf_generator.py:248-261 | `*x*` becomes `<i>x</i>`; the bold pass leaves single stars alone |
| PdfGenerator.BoldKeepsSingle | pdf_generator.py:251 | the bold pass finds no span in `*x*` |
| PdfGenerator.CleanStrike | pdf_generator.py:248-261 | `~~x~~` keeps only `x` |
| PdfGenerator.CleanHeading | pdf_generator.py:248-261 | a heading marker at the start of plain text is dropped |
| PdfGenerator.SplitOn | pdf_generator.py:175 | splitting yields at least one piece |
| PdfGenerator.JoinSplitOn | pdf_generator.py:175 | joining the pieces with the separator gives the text back |
| PdfGenerator.SplitOnPieces | pdf_generator.py:175 | no piece contains the separator |
| PdfGenerator.BlankParagraphsSkipped | pdf_generator.py:177-180 | blank paragraphs contribute nothing |
| PdfGenerator.ParagraphBody | pdf_generator.py:183-198 | the blocks of a non-blank paragraph before its spacer (a table and spacer, a code block, or a body paragraph when the cleaned text is non-empty) are never headings |
| PdfGenerator.ParagraphShape | pdf_generator.py:177-201 | a paragraph gives no block exactly when blank; otherwise its blocks end with a small spacer and none is a heading |
| PdfGenerator.CreateSection | pdf_generator.py:166-203 | the loop builds the title, a spacer and the blocks of every paragraph in order |
| PdfGenerator.AddParagraph | pdf_generator.py:177-201 | one loop turn appends exactly that paragraph's blocks |
| PdfGenerator.ParagraphsHaveNoHeading | pdf_generator.py:177-201 | paragraphs never produce a heading |
| PdfGenerator.SectionHeadings | pdf_generator.py:166-203 | a section has exactly one heading, its title |
| PdfGenerator.GenerateReportPdf | pdf_generator.py:68-105 | the story is the cover, a page break, the summary when present, then each present non-empty section in fixed order |
| PdfGenerator.StoryHeadings | pdf_generator.py:82-101 | the story's headings are the summary's when its key is present, then the titles of the present non-empty sections in order |
| PdfGenerator.SummaryHeadings | pdf_generator.py:86-88 | the summary is rendered whenever its key is present, even with empty text |
| PdfGenerator.PartsHeadings | pdf_generator.py:98-101 | the sections' headings are the titles of the rendered sections, in order |
| PdfGenerator.Quarters | pdf_generator.py:282-285 | the text is cut into four slices |
| PdfGenerator.QuartersCover | pdf_generator.py:282-285 | the four slices put together give the text, each at most a quarter plus one character |
| PdfGenerator.ConvertedSections | pdf_generator.py:278-286 | each slice lands under its own section key and no executive summary is set |
| PdfGenerator.LazyName | pdf_generator.py:274 | a lazy name match is at least the minimum length and within the text |
| PdfGenerator.NoTitle | pdf_generator.py:274-275 | without a `#` the company is `Company` |
| PdfGenerator.CompanyOfTitle | pdf_generator.py:274-275 | a first line `# <name> 估值报告` names the company `name` |
| PdfGenerator.Digits | pdf_generator.py:212 | the number of ASCII digits in the text, at most its length |
| PdfGenerator.SpecialChars | pdf_generator.py:213 | the number of `%`, `$` and `~` characters |
| PdfGenerator.LooksLikeTableData | pdf_generator.py:205-215 | at most 500 characters, more than five numbers and more than two of `%`, `$` and `~` |
| PdfGenerator.Rows | pdf_generator.py:224-227 | one row per line holding a `:`, in order: the stripped text before the first `:` and the stripped rest |
| PdfGenerator.TableRows | pdf_generator.py:217-246 | the rows of the paragraph's `\n`-separated lines, or none when no line holds a `:` |
| PdfGenerator.Bold | pdf_generator.py:251 | every `**x**` with `x` free of `*` becomes `<b>x</b>` |
| PdfGenerator.Italic | pdf_generator.py:253 | every `*x*` with `x` free of `*` becomes `<i>x</i>` |
| PdfGenerator.DecodeEntities | pdf_generator.py:259 | `&lt;`, then `&gt;`, then `&amp;` are decoded, each everywhere |
| PdfGenerator.CleanText | pdf_generator.py:248-261 | bold, italic, strike-through, the heading marker at the start, then the entities, in that order |
| PdfGenerator.ParagraphBlocks | pdf_generator.py:177-201 | a blank paragraph gives nothing; table-like text a table and a spacer, or a code block when no line holds a `:`; other text its cleaned paragraph unless that is empty; then a spacer |
| PdfGenerator.SectionBlocks | pdf_generator.py:166-203 | the bold title, a spacer, then the blocks of each `\n\n`-separated paragraph in order |
| PdfGenerator.Paragraphs | pdf_generator.py:175 | `content.split('\n\n')` |
| PdfGenerator.Headings | pdf_generator.py:82-101 | the titles of the heading blocks of a story, in order |
| PdfGenerator.SectionKey | pdf_generator.py:91-96 | the four section keys in their fixed order |
| PdfGenerator.SectionTitle | pdf_generator.py:91-96 | the four section titles in the same order |
| PdfGenerator.Rendered | pdf_generator.py:99 | a section is rendered exactly when its key is present with non-empty text |
| PdfGenerator.SummaryBlocks | pdf_generator.py:86-88 | the summary heading, a spacer, the cleaned summary and a spacer whenever the key is present, even with empty text |
| PdfGenerator.SectionPart | pdf_generator.py:98-101 | a rendered section's blocks and its spacer, or nothing |
| PdfGenerator.SectionParts | pdf_generator.py:98-101 | the parts of the first `n` sections in their fixed order |
| PdfGenerator.Story | pdf_generator.py:79-101 | the cover with `queries_successful` (`N/A` when absent), a page break, the summary and the four sections |
| PdfGenerator.ConvertedData | pdf_generator.py:277-286 | eight successful queries in the metadata and the four slices of the text as the four sections, with no summary |
| PdfGenerator.PdfPath | pdf_generator.py:289 | every `.md` of the path replaced by `.pdf` |
| PdfGenerator.PdfPathOfMarkdown | pdf_generator.py:289 | a path whose only `.md` is its extension keeps everything but the extension, which becomes `.pdf` |
| PdfGenerator.LineStart | pdf_generator.py:274 | `^` with the multi-line flag matches at the start of the text and after each newline |
| PdfGenerator.AfterHash | pdf_generator.py:274 | `#\s+` gives back whitespace one character at a time until the lazy name can follow; a match lies within the text |
| PdfGenerator.SearchFrom | pdf_generator.py:274 | the first group of the leftmost match of the title pattern at a line start |
| PdfGenerator.CompanyName | pdf_generator.py:274-275 | the name in the first title line, or `Company` when no line matches |
| PdfGenerator.ConvertMarkdownToPdf | pdf_generator.py:264-293 | the output path and the story generated for the named company and the sliced text |
| ReportSystem.DedupMembers | main.py:114-119 | the citation list holds exactly the collected citations, each once |
| ReportSystem.FirstIndex | main.py:118 | the first occurrence of a value: it is there and nowhere before |
| ReportSystem.DedupFirstOrder | main.py:114-119 | the citations keep the order of their first occurrences |
| ReportSystem.CollectCitations | main.py:114-119 | the loop builds exactly the de-duplicated citations of the successful results, in first-occurrence order |
| ReportSystem.AddCitations | main.py:117-119 | the inner loop adds each citation of one result not yet listed |
| ReportSystem.CitedOf | main.py:115-116 | the collector's organised results carry their success and no citations |
| ReportSystem.NoCitationsFromCollector | main.py:114-119 | so a real collection always hands on an empty citation list |
| ReportSystem.ReformatRaises | main.py:122-127 | as written, the reformatting call raises on its unexpected `citations` keyword, whatever the report |
| ReportSystem.ReformatCorrected | main.py:122-127 | the corrected call returns the formatter's report for the company, JSON, metadata and citations |
| ReportSystem.SafeName | main.py:160 | spaces and slashes become underscores, every other character is kept |
| ReportSystem.SafeNameReplaces | main.py:160 | the name agrees with the two `str.replace` calls |
| ReportSystem.SavedFileInReports | main.py:159-161 | with a timestamp without `/`, the saved file lies directly in `reports/` |
| ReportSystem.FormatReportContent | main.py:198-257 | without the HTML parser the content is unchanged; with it no run of four newlines is left |
| ReportSystem.BodyOnlyUnchanged | main.py:225-226 | without headers or non-empty `tbody` rows the table is kept as HTML |
| ReportSystem.BodyOnlyConverted | main.py:228-236 | otherwise the header line, the separator and one line per non-empty `tbody` row fitted to the header width |
| ReportSystem.ReportOrSummary | main.py:138 | an empty or missing report gives the summary |
| ReportSystem.GenerateWith | main.py:34-173 | planning and collection failures return their errors first; an analysis failure carries its prefixed message; a truthy report JSON goes through the reformatting call, whose exception leaves the method; saving a report that is `None` raises; otherwise the metadata records the counts, types, time and saved file |
| ReportSystem.GenerateReport | main.py:34-173 | as written: the early errors as above, and every successful analysis with a truthy report JSON ends in the `TypeError` of the `citations` keyword; without one the report or summary is returned, or the save raises when both are missing |
| ReportSystem.GenerateReportCorrected | main.py:34-173 | with the reformatting call corrected, a truthy report JSON is replaced by the formatter's report for the de-duplicated citations, and the result records the counts, types, time and saved file |
| ReportSystem.AllCitations | main.py:114-117 | the citations of the successful results, in result order, repeats included |
| ReportSystem.Dedup | main.py:118-119 | `if citation not in all_citations`: each value once, at its first occurrence |
| ReportSystem.Reformat | main.py:122-127 | the call as written: `format_professional_report` takes no `citations` argument, so it raises whatever the report |
| ReportSystem.MapChar | main.py:160 | `s.replace(a, b)` for one character: the same length, each `a` replaced by `b` |
| ReportSystem.SavedFilename | main.py:159-161 | `reports/{safe_company}_{timestamp}.md` |
| ReportSystem.BodyOnly | main.py:217-222 | the conversion in `_format_report_content` reads data rows from `tbody` only |
| ReportSystem.Chosen | main.py:88-95 | the quick summary for `quick`, the valuation report for every other report type |
| ReportSystem.ErrorText | main.py:98 | `analysis_result.get("error", "未知错误")` |
| ReportSystem.Reformats | main.py:106 | a truthy `report_json` sends the report through the professional formatter again |
| ReportSystem.GeneratedAs | main.py:134-155 | the success dictionary: company, report, the run's metadata and, when saved, the file's name |
| WebApp.BaseName | web_app.py:864 | the base name has no `/` and is no longer than the path |
| WebApp.BaseNameOfPath | web_app.py:864 | the base name of `dir/name` is `name` |
| WebApp.LabelInjective | web_app.py:865-874 | distinct report kinds have distinct labels |
| WebApp.HotspotIff | web_app.py:865 | a report is a hot-spot report exactly when its lower-cased base name contains `hotspot`; the `sector_hotspot` test adds nothing |
| WebApp.PdfPrecedence | web_app.py:865-874 | a report is labelled PDF exactly when its path ends in `.pdf` and no keyword matched first |
| WebApp.UpperPdfNotPdf | web_app.py:871 | the extension test is case-sensitive: `X.PDF` is not a PDF report |
| WebApp.EndsWithPdfOfPath | web_app.py:871 | `.pdf` ends a file's path exactly when it ends its name |
| WebApp.ClassifyIgnoresDirectory | web_app.py:863-874 | the directory a report lies in does not affect its kind |
| WebApp.CountOf | web_app.py:877-880 | a kind is counted at most once per report |
| WebApp.CountReportTypes | web_app.py:877-880 | the loop's dictionary gives each kind's count, and holds exactly the kinds that occur |
| WebApp.CountsAddUp | web_app.py:877-880 | every report is counted under exactly one kind |
| WebApp.Filter | web_app.py:916-919 | a filtered list is no longer than the list |
| WebApp.FilterMembers | web_app.py:916-919 | exactly the accepted elements are kept |
| WebApp.FilterAppend | web_app.py:916-919 | filtering keeps the order |
| WebApp.FilterCommute | web_app.py:915-919 | applying the type filter and the search in either order lists the same reports |
| WebApp.FilteredMembers | web_app.py:913-919 | a report is listed exactly when it passes the type filter (unless 全部) and the case-insensitive search (unless empty) |
| WebApp.FilterByKind | web_app.py:916 | choosing a kind's label keeps exactly the reports of that kind |
| WebApp.TotalPages | web_app.py:926 | at least one page, and the pages hold the reports with no page left empty |
| WebApp.Page | web_app.py:939-941 | a page shows between one and ten reports, the slice at its offset |
| WebApp.PagesPartition | web_app.py:925-941 | the pages, in order, together are the whole list |
| WebApp.PageOfIndex | web_app.py:939-944 | the report at index g is on exactly page g / 10 + 1, numbered g + 1 |
| WebApp.HeatMonotone | web_app.py:474-482 | a higher score never gets a lower level; the thresholds are 60 and 80 |
| WebApp.NonBlank | web_app.py:731 | no more companies than lines |
| WebApp.BatchClean | web_app.py:731 | each batch company is non-empty, stripped and on one line |
| WebApp.BatchOfLines | web_app.py:731 | clean names written one per line come back as they were |
| WebApp.CanCompareIff | web_app.py:774-777 | a comparison runs exactly when at least two fields are filled |
| WebApp.Reversed | web_app.py:830 | the reversed list has the same length, element i being the i-th from the end |
| WebApp.History.constructor | web_app.py:68-69 | the history starts empty |
| WebApp.History.Record | web_app.py:743-747 | an analysis is recorded at the end of the history |
| WebApp.History.Recent | web_app.py:830 | the last twenty entries (or all when fewer), newest first |
| WebApp.Label | web_app.py:866-874 | the label shown and filtered by for each of the five report kinds |
| WebApp.Classify | web_app.py:863-874 | `classify_report`: keywords in the lower-cased base name, checked in the order hotspot, comparison, enhanced; then the case-sensitive `.pdf` ending of the whole path; else a valuation report |
| WebApp.KindOf | web_app.py:865-874 | the kind given the lower-cased base name and whether the path ends in `.pdf` |
| WebApp.Get | web_app.py:880 | `report_types.get(rtype, 0)` |
| WebApp.OfType | web_app.py:916 | the report's label is the chosen type |
| WebApp.Matches | web_app.py:919 | the lower-cased search text occurs in the lower-cased base name |
| WebApp.Filtered | web_app.py:913-919 | the type filter unless `全部` is chosen, then the search unless it is empty |
| WebApp.PageStart | web_app.py:939 | `(page_num - 1) * reports_per_page` |
| WebApp.PageEnd | web_app.py:940 | `min(start_idx + reports_per_page, len(filtered_reports))` |
| WebApp.Pages | web_app.py:939-941 | pages 1 to `k`, one after another |
| WebApp.ItemNumber | web_app.py:944 | `enumerate(page_reports, start_idx + 1)`: the number shown beside the `i`-th report of a page |
| WebApp.HeatOf | web_app.py:474-482 | a score of at least 80 is extreme, at least 60 hot, anything lower active |
| WebApp.HeatLabel | web_app.py:476-482 | the label of each heat level |
| WebApp.BatchCompanies | web_app.py:731 | one stripped company per non-blank line of the batch input |
| WebApp.ComparisonList | web_app.py:774 | the non-empty names among the three fields, in order |
| WebApp.Filled | web_app.py:774 | a field counts when it is non-empty |
| WebApp.CanCompare | web_app.py:777 | a comparison needs at least two names |
| ApiServer.DownloadReport | api_server.py:201-229 | 400 exactly for a name with `..`, `/` or a backslash; 404 exactly for a safe name whose file is missing; otherwise the file under `reports/` with the media type of its ending |
| ApiServer.ServedInReports | api_server.py:208-215 | a served file lies directly in `reports/`: one `/` and no `..` in its path |
| ApiServer.MediaTypeCases | api_server.py:218-223 | `application/pdf` exactly for `.pdf`, `text/markdown` exactly for `.md` |
| ApiServer.RespondGenerate | api_server.py:142-167 | an error result gives 500 with its error, an exception 500 with the prefixed message, a result the report response with its company, report and metadata |
| ApiServer.GenerateAlwaysFails | api_server.py:133-140 | as written, every request is answered with the same 500 about the `generate_pdf` keyword |
| ApiServer.GenerateCorrectedServes | api_server.py:133-155 | with the corrected call a generated report is answered with itself |
| ApiServer.StatusOf | api_server.py:280-304 | 404 exactly for an unknown id; completed and failed tasks reply with their result or error; anything else is processing |
| ApiServer.SubmittedProcessing | api_server.py:240-249 | a new task is reported as processing and every entry stays well formed |
| ApiServer.FinishedReply | api_server.py:251-266 | a finished task is reported with its result or error, stays well formed, and no other task changes |
| ApiServer.AsyncAlwaysFails | api_server.py:251-266 | as written, every background task ends as failed with the keyword error |
| ApiServer.TaskTable.constructor | api_server.py:37 | the task table starts empty |
| ApiServer.TaskTable.Submit | api_server.py:233-276 | the new task is recorded as processing and its id returned |
| ApiServer.TaskTable.Finish | api_server.py:251-266 | the background call's outcome is recorded in the task's entry |
| ApiServer.Unsafe | api_server.py:209-210 | a file name is refused when it contains `..`, a `/` or a backslash |
| ApiServer.MediaType | api_server.py:218-223 | a `.pdf` name is served as `application/pdf`, else a `.md` name as `text/markdown`, else as `application/octet-stream` |
| ApiServer.CallAsWritten | api_server.py:133-140 | the call passes `generate_pdf` and `keep_markdown`, which `generate_report` does not take, so it raises the keyword `TypeError` for every company before anything runs |
| ApiServer.CallCorrected | api_server.py:133-140 | with only the parameters `generate_report` takes, the endpoint sees exactly what it returns or raises |
| ApiServer.Submitted | api_server.py:243-249 | a new task's entry is processing, with its company and creation time and neither result nor error |
| ApiServer.Finished | api_server.py:251-266 | a returned result marks the task completed with it, an exception marks it failed with its message; the other fields are kept |
| ApiServer.TaskTable.Status | api_server.py:280-304 | a status query answers from the current table, as `StatusOf` states |
| Text.IsSpace | agents/text_cleaner.py:18 | Python `str.isspace()` on one character, and the regex class `\s` |
| Text.IsDigit | agents/table_fixer.py:83 | the regex class `\d` and `str.isdigit()`, on ASCII digits |
| Text.IsUpper | agents/table_fixer.py:141 | the regex class `[A-Z]` |
| Text.IsLower | agents/table_fixer.py:141 | the regex class `[a-z]` |
| Text.IsWordChar | agents/word_fixer.py:104 | the regex class `\w` on ASCII: letters, digits and underscore |
| Text.Lower | web_app.py:864 | `str.lower()` on ASCII letters, other characters kept, the length unchanged |
| Text.Upper | agents/report_formatter.py:136 | `str.upper()` on ASCII letters, other characters kept, the length unchanged |
| Text.StartsWith | report_enhancer.py:108 | `s.startswith(p)` |
| Text.EndsWith | web_app.py:871 | `s.endswith(p)` |
| Text.Contains | report_enhancer.py:98 | `p in s` for strings: `p` occurs at some index of `s` |
| Text.IndexOf | agents/sector_leader_analyzer.py:173 | `s.find(p)`: the first index of `p` in `s`, or -1 when it does not occur |
| Text.Between | agents/sector_leader_analyzer.py:169 | `s.split(open)[1].split(close)[0]`: the text after the first `open` up to the next `close` or the end |
| Text.CountChar | report_enhancer.py:402 | `s.count(c)` for one character |
| Text.RemoveChar | agents/word_fixer.py:125 | `s.replace(c, '')`: the other characters in order |
| Text.Split | report_enhancer.py:76 | `s.split(d)` for one separator character: one more piece than separators, none holding `d` |
| Text.Join | report_enhancer.py:408 | `sep.join(parts)` |
| Text.LStrip | report_enhancer.py:107 | the leading half of `str.strip()`: the whitespace prefix removed |
| Text.RStrip | report_enhancer.py:107 | the trailing half of `str.strip()`: the whitespace suffix removed |
| Text.Strip | report_enhancer.py:107 | `s.strip()`: a slice of `s` without white space at either end, keeping everything between the first and last other characters |
| Text.StripChars | report_enhancer.py:425 | `s.strip(chars)` for a set of characters |
| Text.ReplaceAll | report_enhancer.py:388 | `s.replace(pat, rep)`: every non-overlapping occurrence, scanning left to right, replaced |
| Text.ReplaceSpans | pdf_generator.py:251 | `re.sub(D([^c]+)D, pre + r'\1' + post, s)` for a delimiter of `k` copies of `c` |
| Text.Unwrap | report_enhancer.py:399 | `re.sub(D([^c]+)D, r'\1', s)`: the wrapped text kept, the delimiters dropped |
| Text.Take | api_clients/sonar_client.py:97 | `s[:n]`: at most the first `n` elements |
| Text.NatToString | api_clients/sonar_client.py:97 | `str(n)` for a natural number: its decimal digits, without leading zeros |
| Text.DigitRun | agents/report_formatter.py:144 | the greedy `\d*`: the run of ASCII digits at the start |
| Patterns.StartsWithCase | report_enhancer.py:152 | a prefix test, case-insensitive under `re.IGNORECASE` |
| Patterns.FindCase | agents/report_formatter.py:48 | the first index at which a literal occurs, optionally ignoring case, or -1 |
| Patterns.ContainsCase | report_enhancer.py:152 | a literal occurs somewhere, optionally ignoring case |
| Patterns.PairAt | agents/report_formatter.py:27 | `open[^>]*>(.*?)close` at the start: the open tag ends at its first `>` and the lazy group at the first `close` |
| Patterns.Apply | agents/report_formatter.py:27-45 | the replacement of one match: removal, a wrapped group or the match kept |
| Patterns.SubPairs | agents/report_formatter.py:27-45 | `re.sub(open[^>]*>(.*?)close, rw, s, flags=DOTALL)`, with the `\s*` trimming variant |
| Patterns.CountPairs | agents/format_enhancer.py:187 | `len(re.findall(open[^>]*>.*?close, s, flags))` |
| Patterns.StripTags | format_report.py:85 | `re.sub(r'<[^>]+>', '', s)`: no tag is left and nothing else is removed |
| Patterns.NoTag | format_report.py:85 | no `<` is followed by a later `>` with something between |
| Patterns.CollapseRuns | agents/report_formatter.py:51 | `re.sub(c{m,}, c * t, s)`: each maximal run of at least `m` copies of `c` becomes `t` copies; shorter runs stay |
| Patterns.NoRun | agents/report_formatter.py:51 | no `k` consecutive copies of a character |

## Left out

- Network, language models and JSON parsing: the HTTP exchanges (Sonar, Qwen), the language-model answers and the results of `json.loads` are given values or functions. `batch_search_async`'s semaphore and aiohttp session are not modelled; its results are taken as one per query, in query order.
- BeautifulSoup: what it finds in a `<table>` element is the given `ParsedTable` (header and row lists), and its rewriting of a table in `format_enhancer.py` is the parameter `formatTable`.
- Regular expressions with backtracking: the feature counts of `_is_compact_table_line` (CamelCase clusters, money values, signed changes, number-and-unit tokens) are given naturals, and the schema patterns of the report enhancer's rebuilders are the `Matchers` parameters. The thresholds, the arithmetic and the control flow around them are modelled.
- Charts: `_add_visualizations`, `_generate_chart_from_table` and `_generate_bar_chart` in `report_enhancer.py`, and `manual_chart_generator.py` (matplotlib output and float scaling).
- File system and command line: `enhance_report`, `enhance_report_from_path`, the command-line entry points, report listing and deletion in the web page, and the file writes of `_save_report`. The saved file's name is modelled; its header text and the enhancer call are not.
- `_parse_condensed_table_line` in `report_enhancer.py` is not part of this model; it is not on the path from the table scanner to the rebuilders.
- `quick_analysis` and `compare_companies` in `main.py`, and the API's quick-analysis endpoint, are thin wrappers around `generate_report`.
- FastAPI routing, request models and CORS in `api_server.py`; the task id (uuid) and the creation time are given strings.
- Streamlit widgets, icons and colours in `web_app.py`, and `sector_hotspot_web.py` and `sector_hotspot_cli.py`.
- `SectorLeaderAnalyzer._format_report`: the Markdown layout of the hot-spot report is not modelled. The report's data (the sectors and the leaders of each market) is.
- WebApp.HeatOf: the heat score is taken as an integer; a float score from the language model is not modelled.
- reportlab: the PDF styles and the document build. A rendered document is the list of blocks its story holds.
- ProfessionalFormatter.Formatter.constructor: the four long prose blocks of the professional report (disclaimer and methodology texts) are the `Prose` value the constructor takes; they are not written out.
- Clock values: the cover page's timestamp, report id and formatted duration, and the elapsed time in the metadata, are parameters.
- `time.sleep`: the retry waits are recorded as a list of delays, not slept.
- `api_clients/qwen_client.py`, `agents/clean_analyst.py`, `config.py`, the tests and demos, and the prompt texts. The configuration values the model needs are constants: `MAX_SONAR_QUERIES` is 8 and `MAX_RETRIES` is 3. `MAX_CONCURRENT_SEARCHES` belongs to the concurrency that is left out.
- Unicode: whitespace is the set `str.isspace()` accepts, listed explicitly. Case conversion (`lower`, `upper`, `re.IGNORECASE`) folds ASCII letters only. `\b` and `\w` treat only ASCII letters, digits and `_` as word characters. `\d` and `str.isdigit()` accept only the ASCII digits `0`-`9` (`Text.IsDigit`); Python also accepts the other Unicode decimal digits, such as fullwidth `０`-`９`, so text that uses them can match a number pattern in the source and not in the model.
- JSON numbers are integers (`JsonValue.Json.JNum` holds an `int`): a float from `json.loads` is not modelled, and neither is its truthiness or its text.
- Exception messages: where the source relies on an exception raised by Python or a library, the model keeps where it is raised and caught and how its text is used, but its text is a stand-in: `SonarClient.MalformedChoice`, `QwenClient.MalformedReply`, `SectorLeaderAnalyzer.DecodeError` and `DeepAnalyst.TypeErrorText` are not Python's exact messages. The messages of the errors behind the findings (`ReportSystem.CitationsKeywordError`, `ReportSystem.NoneReportError`, `ApiServer.KeywordError`, `DeepAnalyst.MissingValidator`) follow Python's wording.
- Exceptions other than the ones the source raises on purpose, or that the findings below show, are not modelled, for example memory errors or a failure inside a regular expression.

## Findings

| source | as written | input that shows it | evidently intended | confidence | as-written member | corrected member |
|---|---|---|---|---|---|---|
| agents/deep_analyst.py:730-733 | the complete-report branch calls `TextCleaner.validate_text_quality`, which `TextCleaner` does not define, so it raises `AttributeError` and the generic error is returned | any answer that is a JSON object with the four required sections | the text-quality check is skipped or defined, and the report is enhanced and assembled | high, not executed | DeepAnalyst.CompleteReportFails | DeepAnalyst.CompleteReportSucceeds |
| agents/deep_analyst.py:757-760 | `enhance_report_format` keeps only the four sections, so the table check of `aiInsights` raises `KeyError` | a complete answer that also has an `aiInsights` text | `aiInsights` is carried through the enhancement and checked for two tables | high, not executed | DeepAnalyst.InsightsKeyError | DeepAnalyst.EnhancedWithInsightsText |
| format_report.py:88-92 | `(## \d\. .*?\n)` also matches inside a `### 1. title` line, which the h2 pass writes, and puts the rule after its first `#` | the text `### 1. A\n` | a rule only before a numbered heading that starts a line | medium, not executed | FormatReport.SeparatorSplitsSubheading | FormatReport.LineStartKeepsSubheading |
| main.py:122-127 | `format_professional_report` is called with the keyword `citations`, which it does not take, so every report with a truthy `report_json` raises `TypeError` | any analysis result with a non-empty `report_json` | the call passes only the parameters the formatter takes | high, not executed | ReportSystem.ReformatRaises | ReportSystem.ReformatCorrected |
| api_server.py:133-140 | `generate_report` is called with `generate_pdf` and `keep_markdown`, which it does not take, so every request gets a 500 | any request to the generation endpoints | the call passes only the parameters `generate_report` takes | high, not executed | ApiServer.GenerateAlwaysFails | ApiServer.GenerateCorrectedServes |
| agents/report_formatter.py:136-141 | the English alternatives look for `Buy`, `Hold` and `Sell` in an upper-cased copy of the text, so they never match | the text `Buy` gives `N/A` | `BUY`, `HOLD` and `SELL` are looked for in the upper-cased text | high, not executed | ReportFormatter.EnglishBuyIgnored | ReportFormatter.EnglishBuyCounted |
