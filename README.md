# DQRuleGenerator core, modelled in Dafny

DQRuleGenerator profiles an uploaded table, asks a language-model service for
data-quality rules, and shows them on a Streamlit page. The page also offers
downloads and shows KPIs computed over the rule set. This project models the
bookkeeping at the heart of that pipeline and proves what it promises:

- **Column profiling** (`data_analyzer.dfy`, module `DataAnalysis`):
  - fixed-order type inference: unknown, then date, then integer/float, then boolean, then string;
  - the count fields of the column profiles;
  - the basic statistics;
  - the five-row sample.

  A table is a sequence of named columns with `Option` cells. The date parse
  (`pd.to_datetime`) is an abstract predicate `isDate`.
- **Rule generation** (`rule_generator.dfy`, module `RuleGen`):
  - the two service requests `generate_rules` issues, and what they carry;
  - the merge of the two service replies, including its `KeyError` and `TypeError` paths;
  - the relabelling of the seven category keys for display, which raises on any other key.

  The service replies are arbitrary JSON values given as inputs.
- **KPI aggregation** (`kpi_spec.dfy`, `kpi_laws.dfy`, `kpi_analyzer.dfy`):
  - `KPIAnalyzer` is a class. Its fields are the entries of `kpi_data`, and its methods update them in place, loop by loop, as the source does.
  - Module `KpiSpec` holds the reference definitions of one analysis run: a fold over the (category, rule) entries in insertion order.
  - Module `KpiLaws` proves the conservation laws of a run:
    - the complexity buckets add up to the total;
    - the SQL counts add up to the dict rules;
    - column coverage equals the occurrences of each column;
    - the validation-type counts add up to the dict rules;
    - the category counts add up to the total.
  - The accessors are proved against their promises:
    - the first maximum wins;
    - the coverage analysis is a stable sort by non-increasing count and a permutation;
    - the category percentages sum to 100;
    - the quality score lies in [5, 100] whenever there are rules.
- **SQL export and rule display** (`main_export.dfy`, module `SqlExport`):
  - the SQL-only download built in `main.py`: a fixed preamble, then four lines per contributing rule;
  - `sql_found` is true exactly when some rule contributed;
  - the per-rule display with its field fallbacks, and the condition for showing the SQL.

Shared modules:
- `wrappers.dfy`: `Option` and `Result`.
- `dicts.dfy`: a Python dict whose order matters, as a sequence of key/value pairs without repeated keys. It provides `get`, `d[k] = v`, counters, first maximum and stable descending sort.
- `json.dfy`: decoded JSON values, truthiness and hashability.
- `text.dfy`: the ASCII string methods the code calls (`upper`, `title`, `replace`, `join`, `str` of a count).

## Model

| member | source | states |
|---|---|---|
| DataAnalysis.InferType | utils/data_analyzer.py:22-46 | The fixed-order decision for one column, whose meaning its lemmas state: unknown exactly when every cell is missing (`InferUnknownIff`); date whenever the first present value parses, before any dtype test (`DateTakesPrecedence`); for an object column only the first 100 present values matter (`ObjectTypeIgnoresTail`); the integer test covers the whole column (`NumericTypeSeesWholeColumn`) |
| DataAnalysis.ColumnTypes | utils/data_analyzer.py:19-48 | One entry per column, keyed by column name in column order, each holding that column's inferred type |
| DataAnalysis.InferColumnTypes | utils/data_analyzer.py:19-48 | The per-column loop fills the dict with exactly `ColumnTypes`: one entry per column, in column order |
| DataAnalysis.InferUnknownIff | utils/data_analyzer.py:22-25 | The type is unknown exactly when every cell of the column is missing |
| DataAnalysis.DateTakesPrecedence | utils/data_analyzer.py:28-33 | When the first present value parses as a date, the column is a date column, whatever its dtype or other values |
| DataAnalysis.TextDatesAreDates | utils/data_analyzer.py:28-33 | A text column of date strings is a date column when the first one parses, not a string column |
| DataAnalysis.ObjectTypeIgnoresTail | utils/data_analyzer.py:22 | For a non-numeric column, only the first 100 present values matter: appending cells after them does not change the type |
| DataAnalysis.NumericTypeSeesWholeColumn | utils/data_analyzer.py:37 | The integer test is over the whole column: 100 whole values and then 1.5 make the column float, though the sample is all whole |
| DataAnalysis.Head | utils/data_analyzer.py:22 | `head(n)` is the prefix of length min(n, length) |
| DataAnalysis.NullSplit | utils/data_analyzer.py:64-65 | Missing cells plus present values account for every cell |
| DataAnalysis.NonNullEmpty | utils/data_analyzer.py:22-23 | `dropna()` is empty exactly when every cell is missing |
| DataAnalysis.KeySetSize | utils/data_analyzer.py:63 | The number of distinct present values is at most the number of present values, and at least 1 when any is present |
| DataAnalysis.Profiles | utils/data_analyzer.py:59-75 | One profile per column, keyed by column name in column order, each the count fields of that column |
| DataAnalysis.GenerateColumnProfiles | utils/data_analyzer.py:59-75 | The per-column loop fills the dict with exactly `Profiles` |
| DataAnalysis.ProfileCounts | utils/data_analyzer.py:62-66 | `missing_count` plus the present values is the column length; `unique_count` is at most the present values and 0 exactly when all cells are missing; `sample_values` is the first min(5, present) present values in order |
| DataAnalysis.GetBasicStats | utils/data_analyzer.py:10-17 | Row count, column count, and per column (by name, in order) its null count and dtype name |
| DataAnalysis.CountNullPositive | utils/data_analyzer.py:14 | A column's null count is positive exactly when some cell is missing |
| DataAnalysis.ColumnsWithMissing | utils/kpi_analyzer.py:136 | The number of columns with missing values is at most the column count and is 0 exactly when no cell of the table is missing |
| DataAnalysis.GetDataSample | utils/data_analyzer.py:56-57 | min(5, rows) records, each keyed by every column name in column order and holding that row's cell |
| RuleGen.Subscript | utils/rule_generator.py:31-32 | `reply[key]` succeeds exactly on a dict holding the key and yields its value; it raises KeyError on a dict without the key and TypeError on a non-dict |
| RuleGen.MergeFails | utils/rule_generator.py:31-32 | The merge succeeds exactly when the first reply has a dict under "rules" and the second has "cross_column_rules"; otherwise it fails with the error Python raises first: `TypeError` when the first reply is not a dict, `KeyError("rules")` when it lacks "rules", `TypeError` when the second reply is not a dict, `KeyError("cross_column_rules")` when it lacks that key, and `TypeError` when the value under "rules" is not a dict; there is no defaulting |
| RuleGen.MergeContents | utils/rule_generator.py:31-32 | The merged dict is the first reply's "rules" dict with "cross_column" bound to the second reply's "cross_column_rules" value (overwriting any earlier binding), every other key unchanged, and the key order kept with "cross_column" appended when new |
| RuleGen.MergeIgnoresOtherReplyKeys | utils/rule_generator.py:31 | Other keys of the first reply do not affect the merge |
| RuleGen.GenerateRules | utils/rule_generator.py:9-34 | Two requests, the dimensional one first. It carries the data sample and column info holding exactly the inferred types and the profiles. The cross-column request carries the column names in inferred-type key order (column order) and the correlations. The result is the merge of the two replies |
| RuleGen.LabelsOneToOne | utils/rule_generator.py:38-46 | The seven display labels are distinct, and so are the seven keys |
| RuleGen.LabelInjective | utils/rule_generator.py:38-46 | Under a one-to-one table, distinct categories get distinct labels |
| RuleGen.UnknownFrom | utils/rule_generator.py:48-49 | The position of the first category without a label from a given position, or the end |
| RuleGen.Renamed | utils/rule_generator.py:48-49 | Each entry is kept, with its key replaced by its label, in the original order |
| RuleGen.Relabelled | utils/rule_generator.py:36-51 | Relabelling succeeds exactly when every category has a label; on failure the error is the first unlabelled category, and all categories before it are labelled |
| RuleGen.RenamedDistinct | utils/rule_generator.py:48-49 | Relabelling a dict through a one-to-one table yields a dict: no label repeats |
| RuleGen.RelabelledValue | utils/rule_generator.py:36-51 | On success the formatted dict is the renamed entries in order, with as many entries as the input and no repeated key |
| RuleGen.FormatRulesForDisplay | utils/rule_generator.py:36-51 | The loop filling the new dict yields exactly `Relabelled` over the seven fixed labels |
| RuleGen.CrossColumnLabel | utils/rule_generator.py:45 | "cross_column" is shown as "Cross-Column Rules" |
| RuleGen.ShownUnder | utils/rule_generator.py:48-49 | Each category's value is found unchanged under its label in the formatted dict |
| RuleGen.CrossColumnShown | utils/rule_generator.py:31-49 | The cross-column rules of the second reply are shown, unchanged, under the cross-column label after merge and relabelling |
| KpiSpec.AnalyzableInOrder | utils/kpi_analyzer.py:90-111 | A dict rule is analyzed without raising exactly when its columns value has a length, every column is hashable, and its validation type is hashable, in the order the code meets them |
| KpiSpec.CountedInOrder | utils/kpi_analyzer.py:81-111 | The reference effect of one dict rule equals the SQL, complexity, coverage and type updates applied in the source's order |
| KpiSpec.Tag | utils/kpi_analyzer.py:65 | The rules of one category, each paired with the category, in order |
| KpiSpec.IncrAll | utils/kpi_analyzer.py:102-105 | Counting columns into a dict keeps it a dict |
| KpiLaws.IncrAllCounts | utils/kpi_analyzer.py:102-105 | After counting a column list, each key's count grew by its number of occurrences in the list |
| KpiLaws.IncrAllSum | utils/kpi_analyzer.py:102-105 | Counting a column list grows the total count by the list's length |
| KpiLaws.FoldMeaning | utils/kpi_analyzer.py:65-111 | The rule steps over a sequence of entries succeed exactly when every dict rule can be analyzed; then each counter equals the start plus the reference count over the entries |
| KpiLaws.ComplexityPartition | utils/kpi_analyzer.py:65-99 | Every rule is exactly one of simple, complex and cross-column: the three counts add up to the number of rules |
| KpiLaws.SqlPartition | utils/kpi_analyzer.py:84-87 | Every dict rule counts once, with or without SQL, and there are no more dict rules than rules |
| KpiLaws.WalkSplit | utils/kpi_analyzer.py:52-70 | A run is the category bookkeeping followed by the rule steps over all entries |
| KpiLaws.ListCategoriesMeaning | utils/kpi_analyzer.py:52-58 | `rules_by_category` holds exactly the list-valued categories with their lengths; its counts sum to the list total; non-list categories are absent |
| KpiLaws.EntriesLength | utils/kpi_analyzer.py:52-65 | The flattened entries number the sum of the list lengths |
| KpiLaws.HeadersMeaning | utils/kpi_analyzer.py:52-62 | From an empty category dict, the total is the list total, the category dict is the list-valued categories, and each of the six dimensions holds its category's list length if there is one, else its earlier value |
| KpiLaws.AnalysisMeaning | utils/kpi_analyzer.py:37-70 | A run from the reset succeeds exactly when every dict rule can be analyzed. On success every counter equals its reference count over the flattened rules: totals, SQL, complexity, coverage per column, types per value. The dimensions keep their keys |
| KpiLaws.Conservation | utils/kpi_analyzer.py:52-111 | After a run: simple + complex + cross-column = total; with SQL + without SQL = dict rules ≤ total = validation-type counts; category counts sum to the total |
| KpiLaws.WalkNonePrefix | utils/kpi_analyzer.py:52-70 | Once a category raises, the whole run raises |
| KpiLaws.FoldTagNone | utils/kpi_analyzer.py:65-67 | Once a rule raises, the rest of its category is not analyzed |
| KpiLaws.WalkSane | utils/kpi_analyzer.py:52-70 | A prefix of a run from the reset leaves a sane state, and the next category is new to `rules_by_category` |
| KpiLaws.RunSane | utils/kpi_analyzer.py:37-70 | A completed run leaves a sane state holding the list-valued categories and the two partition laws |
| Kpi.Percent | utils/kpi_analyzer.py:120-121 | A percentage of a positive total is non-negative, at most 100 for a part, and exactly 100 for the whole |
| Kpi.PercentAdd | utils/kpi_analyzer.py:120-128 | Percentages of one total add |
| Kpi.Distribution | utils/kpi_analyzer.py:124-128 | One percentage per category, same keys in the same order, each the count over the total |
| Kpi.DistributionTotal | utils/kpi_analyzer.py:124-128 | The category percentages sum to the percentage of the count sum |
| Kpi.ContextOf | utils/kpi_analyzer.py:130-139 | Rows and columns copied from the statistics; the number of columns with missing values is at most the number of entries of `missing_values` and 0 exactly when none of them is positive; the rates are 0 when their denominator is 0 |
| Kpi.ContextRates | utils/kpi_analyzer.py:137-138 | A rate multiplied by its positive denominator is the rule total |
| Kpi.TopKey | utils/kpi_analyzer.py:146-147 | "N/A" for an empty dict; otherwise a key with the largest count, the first such in order |
| Kpi.Ratio | utils/kpi_analyzer.py:148 | The complexity ratio is the complex count in decimal, "/", and the simple count in decimal, each read back unchanged |
| Kpi.CountColumns | utils/kpi_analyzer.py:102-105 | The column loop stops at the first unhashable column. It succeeds exactly when all are hashable. The coverage then counts every column, and otherwise every column before the failing one |
| Kpi.PutPercentages | utils/kpi_analyzer.py:125-128 | The loop writes the category percentages, in order, into the existing distribution dict |
| Kpi.KpiAnalyzer.constructor | utils/kpi_analyzer.py:7-31 | The initial state: all counters zero, empty dicts, the six dimensions at 0, no timestamp and no context; it is valid |
| Kpi.KpiAnalyzer.AnalyzeRuleDetails | utils/kpi_analyzer.py:81-111 | Raises exactly on an unanalyzable rule; otherwise the counters become the reference effect of the rule; the coverage and type dicts stay dicts |
| Kpi.KpiAnalyzer.CountSql | utils/kpi_analyzer.py:84-87 | The SQL counters after one dict rule |
| Kpi.KpiAnalyzer.CountComplexity | utils/kpi_analyzer.py:90-99 | The complexity counters after one dict rule: cross-column by category first, then complex for more than one column, else simple |
| Kpi.KpiAnalyzer.CountRuleColumns | utils/kpi_analyzer.py:101-105 | Succeeds exactly when every column is hashable, and then counts each column once |
| Kpi.KpiAnalyzer.CountValidationType | utils/kpi_analyzer.py:107-111 | Succeeds exactly when the validation type is hashable, and then counts it once |
| Kpi.KpiAnalyzer.CountCategory | utils/kpi_analyzer.py:56-62 | The category count is recorded, the total grows by it, and a category that is one of the dimensions overwrites that dimension |
| Kpi.KpiAnalyzer.CountRules | utils/kpi_analyzer.py:65-70 | The rule loop of one category succeeds exactly when the reference fold does and then leaves its counters |
| Kpi.KpiAnalyzer.AnalyzeRule | utils/kpi_analyzer.py:66-70 | A dict rule is analyzed in detail, anything else counts as simple |
| Kpi.KpiAnalyzer.AnalyzeCategory | utils/kpi_analyzer.py:53-70 | One category of the loop, against the reference category step |
| Kpi.KpiAnalyzer.CalculatePercentages | utils/kpi_analyzer.py:113-128 | Nothing changes without rules; otherwise the SQL coverage and the per-category percentages are written |
| Kpi.KpiAnalyzer.AddDataContext | utils/kpi_analyzer.py:130-139 | The data context is the one `ContextOf` defines for the current total |
| Kpi.KpiAnalyzer.ResetCounters | utils/kpi_analyzer.py:37-49 | The reset zeroes exactly the fields of lines 38-49 and keeps the dimensions, the SQL coverage and the context |
| Kpi.KpiAnalyzer.AnalyzeRules | utils/kpi_analyzer.py:33-79 | Sets the timestamp. A run succeeds exactly when the reference run from the partial reset does, and its state is then that run's, valid, with current percentages. Without rules the SQL coverage is carried over. The context is refreshed only when statistics are given. A failed run leaves a sane state |
| Kpi.KpiAnalyzer.GetSummaryMetrics | utils/kpi_analyzer.py:141-149 | The total, the coverage, the first top category or "N/A", the first most-covered column or "N/A", and the complexity ratio |
| Kpi.KpiAnalyzer.GetCategoryBreakdown | utils/kpi_analyzer.py:151-166 | Per category in order: its title-cased name, its count and its stored percentage (0 when absent); in a valid state with rules the percentages are the counts over the total and sum to 100 |
| Kpi.KpiAnalyzer.GetValidationTypeBreakdown | utils/kpi_analyzer.py:168-173 | The types and their counts, in order, each count the one stored for its type, with no type repeated |
| Kpi.KpiAnalyzer.GetColumnCoverageAnalysis | utils/kpi_analyzer.py:175-190 | The (column, count) pairs sorted by non-increasing count, a permutation of the coverage dict, and stable: pairs with equal counts keep their order |
| Kpi.KpiAnalyzer.GetQualityScore | utils/kpi_analyzer.py:208-232 | 0 without rules; in a sane state the score lies in [0, 100] and is at least 5 when there are rules, so it is 0 exactly when there are none |
| Dicts.IndexOf | utils/rule_generator.py:49 | The first position of a key, or -1 exactly when the key is absent |
| Dicts.Lookup | utils/rule_generator.py:31 | `d.get(k)`: absent exactly when the key is, otherwise an entry of the dict |
| Dicts.Put | utils/rule_generator.py:32 | `d[k] = v`: the key is bound to the value, all other keys keep their values, the key order is kept with a new key appended, and a dict stays a dict |
| Dicts.PutAllFresh | utils/rule_generator.py:48-49 | Filling an empty dict from entries with distinct keys yields those entries in order |
| Dicts.Incr | utils/kpi_analyzer.py:103-105 | `if k not in d: d[k] = 0; d[k] += 1`: that key's count grows by one, others are unchanged, a new key is appended |
| Dicts.SumIncr | utils/kpi_analyzer.py:103-105 | One increment grows the sum of the counts by one |
| Dicts.ArgMax | utils/kpi_analyzer.py:146-147 | Python's `max` by count: a maximal entry, with every earlier entry strictly smaller |
| Dicts.SortDescSorted | utils/kpi_analyzer.py:181-185 | The descending sort yields non-increasing counts |
| Dicts.SortDescPermutation | utils/kpi_analyzer.py:181-185 | The descending sort is a permutation of its input |
| Dicts.SortDescStable | utils/kpi_analyzer.py:181-185 | The descending sort is stable: the entries with any given count keep their relative order |
| Json.KeyRoundTrip | utils/kpi_analyzer.py:103-110 | A hashable value is recovered from its dict key, and every key is some value's |
| Text.Upper | main.py:395 | `upper()` maps each character to its upper case, keeping the length |
| Text.ReplaceChar | utils/kpi_analyzer.py:158 | `replace('_', ' ')` changes exactly the underscores and leaves none |
| Text.NatToStringRoundTrip | utils/kpi_analyzer.py:148 | The decimal text of a count reads back as that count |
| SqlExport.ColumnsText | main.py:397 | The columns field raises exactly on a list holding a non-string; a list of strings is joined with ", " |
| SqlExport.BlockShape | main.py:395-398 | A block starts with "-- ", ends with a blank line, and has exactly four line breaks exactly when the category, rule text, columns and SQL bring none |
| SqlExport.BlocksFail | main.py:390-398 | The export raises exactly when some contributing rule has a list of columns that is not all strings |
| SqlExport.ExportedNonEmpty | main.py:389-394 | Some rule is exported exactly when some entry is a dict with a "pseudo_sql" key |
| SqlExport.ExportedBetween | main.py:390-393 | At least every rule the analysis counts as having SQL is exported (an empty or sentinel "pseudo_sql" is exported too), and at most every dict rule |
| SqlExport.ExportMeaning | main.py:386-406 | The download starts with the fixed preamble; `sql_found` holds exactly when some rule contributed, which decides whether it is offered; the block count lies between the rules with SQL and the list total |
| SqlExport.ExportRule | main.py:392-398 | One rule of the loop: the text and flag become those of the reference export over the entries seen so far |
| SqlExport.ExportCategory | main.py:391-398 | One category of the loop, against the reference export |
| SqlExport.ExportSql | main.py:386-406 | The nested loop's text and flag, or its TypeError, are exactly `Export` |
| SqlExport.ViewRule | main.py:333-369 | A non-dict rule is a bullet. A dict rule shows its text, its joined columns, its type and its SQL. The SQL block appears exactly when the analysis counts the rule as having SQL. If the columns cannot be joined, the page keeps the rule text already written and adds the bullet |
| SqlExport.UnjoinedColumnsShowPartial | main.py:345-366 | A rule whose columns are `[1]` shows its rule text and then the bullet |
| SqlExport.ShowsSqlIffHasSql | main.py:358 | The display shows the SQL block exactly when the analysis counts the rule as having SQL |
| SqlExport.ShownSqlIsExported | main.py:336-360 | A rule whose SQL the analysis counts is exported, and is displayed with its SQL, unless its columns cannot be joined, when the export raises too |
| SqlExport.ExportedNotShown | main.py:358-360 | A rule whose "pseudo_sql" is empty is exported but its SQL is not shown |
| SqlExport.DisplayFallbacks | main.py:336-342 | The display's column and type fallbacks agree with the analysis where the rule names them, and default to ['Unknown columns'] and 'Unknown type' where the analysis uses [] and 'unknown' |

## Left out

- Rounding: `round(..., 2)`, `round(..., 4)` and `round(..., 1)` in the percentages, rates and quality score are not modelled. The values are exact reals before rounding. `Kpi.Percent`, `Kpi.ContextOf` and `Kpi.KpiAnalyzer.GetQualityScore` state their bounds on those reals.
- Kpi.KpiAnalyzer.GetSummaryMetrics: the SQL coverage is returned as the number, not as the `f"{...}%"` string.
- Floating-point statistics are not modelled: the min/max/mean/std of numeric profiles and the Pearson correlations. The correlations enter `RuleGen.GenerateRules` as a parameter.
- `pd.to_datetime` is the parameter `isDate`. `str()` of a non-string value inside an f-string is the parameter `render`. The clock readings are the parameters `now` and `timestamp`. Because the numeric branch of type inference is taken only when the first non-null value does not parse as a date, and `pd.to_datetime` accepts most numbers as epoch offsets, that branch is reached in practice mainly by boolean columns or by numbers the parser rejects; `DataAnalysis.NumericTypeSeesWholeColumn` assumes `1.0` does not parse for this reason.
- `is_numeric_dtype` holds of every dtype but object. The comparison `dtype == int` holds of the int64 dtype only.
- The OpenAI helper is not part of this model. Its two replies are arbitrary JSON inputs of `RuleGen.GenerateRules`.
- The Streamlit page itself is not modelled: the expanders, columns and the download button. `SqlExport.ViewRule` models what is shown for one rule; the loop over categories at main.py:330-332 is not modelled.
- SqlExport.ViewRule: the fixed headings and captions the page writes ("Rule Description", "Affected Columns", "Validation Type", "Implementation") are implied by the view's case and not carried as text. A `st.code` call that might raise on a non-string SQL value is not modelled.
- `export_kpi_report` and `export_rules_to_json` are not modelled. They are `json.dumps` of the state with a timestamp and carry no further logic.
- `Text.Upper` and `Text.Title` cover ASCII letters only. Python's Unicode case mapping is not modelled.
- Dict keys in the KPI counters use structural equality of JSON values. Python's `True == 1 == 1.0` is modelled only in `nunique` and in the boolean-literal test of type inference. Elsewhere the model keeps such keys apart: a `columns` list `[1, True]` gives one key with count 2 in Python's column-coverage counter but two keys with count 1 in the model.
- Kpi.KpiAnalyzer.AnalyzeRules: after a run that raised, the state is only stated to be sane, not which partial counts it holds. The page rebuilds the analyzer on each script run and catches the error, so those partial counts are never read.
- RuleGen.GenerateRules: the in-place update of the first reply's "rules" dict is modelled as a new value. Aliasing between that dict and the reply is not modelled.
- SqlExport.ExportSql: on a TypeError the partially built text is discarded instead of returned.
- The call at main.py:217 passes `user_context` to `generate_rules`, which takes no such argument, so the call raises a TypeError. The model follows the signature at utils/rule_generator.py:9.

Three behaviours of the code worth noting:
- The merge does no defaulting (utils/rule_generator.py:31-32). A reply without "cross_column_rules" makes `generate_rules` raise; it does not give an empty list. The merge also does no coercion to lists and no SQL repair, and keeps whatever keys the first reply has.
- Category diversity in the quality score counts every list-valued category, empty ones included (utils/kpi_analyzer.py:215).
- A numeric column is integer when its dtype is int or the whole column equals its rounding, not only when the sampled values are whole (utils/data_analyzer.py:37).
