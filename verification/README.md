# Benchmark result classification and aggregation — a Dafny model

This project models the core of `csvlib.py`, the library that reads a
verification tool's tab-separated benchmark results and summarises them. It
covers four parts:

- the classifier `Stats.determine_answer`. It turns free-text tool output into
  one of five outcomes (OOM, UNKNOWN, TIMEOUT, SAFE, UNSAFE) by a
  priority-ordered, case-sensitive substring test.
- the per-row step `Stats.add_row`, which has two row shapes.
- the read-only views `getrow`, `solved_benchmarks` and `get_scatter_row`.
- the pure row handling of `Tool` and `ToolCollection`: the header drop of
  `read`, `benchmarks`, `stats`, `stats_starting_with` and `same_benchmarks`.

`Stats` is an immutable datatype. It is built by folding `AddRow` over the
rows in order. Every place where csvlib.py stops the process becomes an
`Error` value:

- the `exit(1)` of an unclassifiable text;
- the ground-truth assertion;
- Python's IndexError on a missing field;
- Python's ValueError from `float`;
- the TypeError of `get_scatter_row` on an absent name.

Because every member is deterministic and has no side effects, aggregating
the same rows twice gives the same result by construction.

Modules:

- `Results` (`wrappers.dfy`): `Option` and `Result`.
- `Seqs` (`seqs.dfy`): two general facts about sequence concatenation.
- `Outcomes` (`outcomes.dfy`): the `Outcome` datatype, Python's substring
  test `Contains`, and `Classify`.
- `BenchStats` (`stats.dfy`): `Error`, `Record`, `Stats`, `ParseRow`,
  `Accumulate`, `AddRow`, `Fold`, the consistency invariant, and the three
  views.
- `Tools` (`tool.dfy`): `Row`, the `read` post-processing (`ReadAll`), `Tool`,
  `Benchmarks`, `StatsOf`, `StatsStartingWith`, `ToolCollection` and
  `SameBenchmarks`.

Behaviour of `csvlib.py` worth knowing before reading the model:

- Marker matching is case-sensitive (csvlib.py:81-92), so the row
  `["b1","TRUE","TRUE","0","1.23"]` fails on `TRUE` and the row
  `["b2","FALSE","TIMEOUT","4","900.0"]` fails on `FALSE`
  (`BenchStats.ExampleUpperCaseRows`). The row `["b1","true","true","0","1.23"]`
  gives one SAFE/SAFE record, a SAFE count of 1, a SAFE-answer count of 1 and a
  total time of 1.23 (`BenchStats.ExampleFiveFieldRow`).
- The three header rows are dropped from each file separately, not once from
  the concatenation (csvlib.py:167; `Tools.ReadAllConcat`).
- The ground truth of a row whose field 2 is a number is always UNSAFE
  (csvlib.py:44).
- A name lookup that misses is non-fatal for `getrow`, but `get_scatter_row`
  fails on it (csvlib.py:114-116).

## Model

| member | source | states |
|---|---|---|
| Outcomes.ContainsIffOccurs | csvlib.py:81-92 | `Contains`, the model of Python's `t in s`, holds exactly when some window of `s` equals `t` |
| Outcomes.Classify | csvlib.py:93-95 | a text that is not classified fails carrying that very text, instead of exiting |
| Outcomes.ClassifyPriority | csvlib.py:80-95 | the result is outcome `o` exactly when a marker of `o` occurs and no marker of a higher-priority outcome occurs (OOM, then UNKNOWN, TIMEOUT, SAFE, UNSAFE); it fails exactly when no marker of any outcome occurs |
| Outcomes.OomDominates | csvlib.py:81-84 | text containing `KILL` or `OUT OF MEM` is OOM whatever text surrounds it, including other markers |
| Outcomes.UpperCaseVerdictsUnclassified | csvlib.py:89-95 | `TRUE` and `FALSE` contain no marker, so they are classification errors |
| BenchStats.Empty | csvlib.py:12-36 | a fresh aggregate is bound to its tool, holds no records, and its counters and times are consistent with that empty list (so all zero) |
| BenchStats.Field | csvlib.py:42-51 | reading field `k` succeeds exactly when the row has more than `k` fields, with that field; otherwise it fails with MissingField(k), Python's IndexError |
| BenchStats.ParseTime | csvlib.py:46-51 | the time succeeds exactly when field `k` exists and parses as a float, with the parsed value; an absent field fails with MissingField(k), an unparsable one with NotANumber of its text |
| BenchStats.Verdict | csvlib.py:93-95 | a row field classifies exactly as `determine_answer` classifies it; the exit on an unclassifiable field becomes Unclassified of that field |
| Outcomes.LowerCaseVerdicts | csvlib.py:89-92 | `true` classifies as SAFE and `false` as UNSAFE |
| BenchStats.ParseRow | csvlib.py:42-51 | field 2 must exist. If it is a number: ground truth UNSAFE, answer from field 1, time from field 3. Otherwise: ground truth from field 1, answer from field 2, time from field 4. The name is field 0. The row parses exactly when the classified fields classify and the time field exists and parses. A rejected row reports the first fault in source order: an unclassifiable field 1, then (five-field shape) an unclassifiable field 2, then a missing time field, then an unparsable time |
| BenchStats.ParseRowName | csvlib.py:43-48 | a parsed record is named after field 0 of its row |
| BenchStats.Accumulate | csvlib.py:58-78 | succeeds exactly when the ground truth is SAFE or UNSAFE (else the assertion error). It appends the record and adds its time to the total and to its ground truth's time and count. It raises exactly one answer counter, the one for the record's answer; the other counters stay unchanged |
| BenchStats.AddRow | csvlib.py:39-78 | succeeds exactly when the row parses with a verdict ground truth. On failure it returns that row's error; on success it appends that row's record |
| BenchStats.AddRowKeepsConsistent | csvlib.py:58-78 | `add_row` keeps every counter and time equal to the matching count or sum over the record list |
| BenchStats.Fold | csvlib.py:172-176 | folding rows succeeds exactly when every row is accepted by `add_row` |
| BenchStats.FoldFailsAtFirstBadRow | csvlib.py:172-176 | a failing fold reports the error of the first row `add_row` rejects |
| BenchStats.FoldAppendsRecords | csvlib.py:58 | a successful fold keeps the tool and appends one record per row, in row order |
| BenchStats.RecordAt | csvlib.py:58 | record `i` of the rows' records is the one row `i` parses to |
| BenchStats.FoldKeepsConsistent | csvlib.py:172-176 | a successful fold from a consistent aggregate ends consistent |
| BenchStats.TruthsPartition | csvlib.py:61-67 | when every ground truth is a verdict, the SAFE and UNSAFE counts add up to the record count, and the SAFE and UNSAFE times add up to the total time |
| BenchStats.AnswersPartition | csvlib.py:69-78 | the five answer counts add up to the number of records |
| BenchStats.Conservation | csvlib.py:59-78 | in a consistent aggregate: safe + unsafe benchmarks = records; time_safe + time_unsafe = total_time; the five answer counters sum to the record count |
| BenchStats.GetRow | csvlib.py:97-100 | returns nothing exactly when no record has the name; otherwise returns the first record with that name |
| BenchStats.ScatterRowOf | csvlib.py:113-125 | fails with NotFound exactly when the name is absent. Otherwise it carries the tool name, puts the first matching record's time in the bucket of its answer (SAFE or UNSAFE count as correct) and `*` in the other three |
| BenchStats.AnsweredNamesMembers | csvlib.py:102-110 | a name is listed for outcome `o` exactly when some record with that name was answered `o` |
| BenchStats.AnsweredNamesCount | csvlib.py:75-78 | the list of names answered `o` is as long as the number of records answered `o` |
| BenchStats.SolvedBenchmarks | csvlib.py:102-110 | returns the names answered SAFE and the names answered UNSAFE, in record order, ground truth ignored; in a consistent aggregate their lengths equal `num_safe_answers` and `num_unsafe_answers` |
| BenchStats.ExampleFourFieldRow | csvlib.py:42-46 | `["b3","false","1","3.5"]` gives record (b3, UNSAFE, UNSAFE, 3.5) |
| BenchStats.ExampleUpperCaseRows | csvlib.py:47-50 | `["b1","TRUE","TRUE","0","1.23"]` fails as Unclassified(`TRUE`) and `["b2","FALSE","TIMEOUT","4","900.0"]` as Unclassified(`FALSE`), on their ground-truth field |
| BenchStats.ExampleFiveFieldRow | csvlib.py:47-78 | `["b1","true","true","0","1.23"]` from an empty aggregate gives one SAFE/SAFE record, one SAFE benchmark, one SAFE answer, total and safe time 1.23 |
| Tools.NonBlank | csvlib.py:162-166 | as many rows survive as there are rows with at least one field |
| Tools.NonBlankMembers | csvlib.py:162-166 | a row survives blank-row skipping exactly when it is a row of the file with at least one field |
| Tools.NonBlankOne | csvlib.py:162-166 | a single row survives blank-row skipping exactly when it has at least one field |
| Tools.NonBlankConcat | csvlib.py:162-166 | skipping blank rows in `a + b` is skipping them in `a` and then in `b`, so the surviving rows keep their file order and multiplicity |
| Tools.DropHeader | csvlib.py:157-167 | drops the first three rows, and yields nothing when there are at most three |
| Tools.ReadAll | csvlib.py:156-167 | the content length is the sum over files of max(0, non-blank rows − 3) |
| Tools.ReadOneFile | csvlib.py:162-167 | one file contributes exactly `rows[3:]` of its non-blank rows |
| Tools.ReadAllFromFiles | csvlib.py:159-167 | every content row is a row of one of the files |
| Tools.ReadAllConcat | csvlib.py:159-167 | reading files `a + b` gives the content of `a` followed by that of `b`, so the header is dropped per file and file order is kept |
| Tools.ShortFileContributesNothing | csvlib.py:167 | a file with at most three non-blank rows adds no content |
| Tools.Load | csvlib.py:151-167 | a loaded tool keeps its name and file list, and its content has the sum over files of max(0, non-blank rows − 3) rows; which rows those are is fixed by `Tools.ReadOneFile` (one file gives its non-blank rows after the first three), `Tools.NonBlankConcat`/`Tools.NonBlankOne` (the non-blank rows in file order) and `Tools.ReadAllConcat` (files in order) |
| Tools.Benchmarks | csvlib.py:169-170 | one name per content row, in content order, each the row's first field; `Tools.StatsNamesAreBenchmarks` ties them to the records of `stats` |
| Tools.StatsOf | csvlib.py:172-176 | a tool's statistics succeed exactly when `add_row` accepts every content row; `Tools.StatsConservation` and `Tools.StatsNamesAreBenchmarks` state what a success holds |
| Tools.StatsConservation | csvlib.py:172-176 | a tool's successful statistics are bound to the tool's name and satisfy both conservation laws over the tool's content |
| Tools.StatsNamesAreBenchmarks | csvlib.py:169-176 | record `i` of a tool's successful statistics is named `benchmarks()[i]`, and there are as many records as benchmarks |
| Tools.WithPrefix | csvlib.py:181 | keeps exactly the rows whose name starts with the prefix |
| Tools.FoldWhere | csvlib.py:178-183 | the selective loop succeeds exactly when every row whose name starts with the prefix is accepted; rejected rows without the prefix do not matter |
| Tools.StatsStartingWith | csvlib.py:178-183 | the prefix-filtered statistics succeed exactly when every content row with the prefix is accepted; `Tools.StatsStartingWithFilters` gives the full result |
| Tools.FoldWhereIsFilteredFold | csvlib.py:178-183 | folding while skipping rows without the prefix is the same as folding over the filtered rows |
| Tools.StatsStartingWithFilters | csvlib.py:178-183 | `stats_starting_with(pref)` equals the plain fold over the content filtered by `name.startswith(pref)` |
| Tools.WithEmptyPrefix | csvlib.py:181 | every name starts with the empty prefix |
| Tools.EmptyPrefixIsStats | csvlib.py:172-183 | statistics filtered by the empty prefix are the unfiltered statistics |
| Tools.SameBenchmarks | csvlib.py:197-203 | reports agreement exactly when every tool's benchmark set equals the ground-truth set. Otherwise it names the first tool that differs, with a nonempty difference holding exactly the names in one list and not the other |

## Left out

- File I/O in `Tool.read` (csvlib.py:160-161): opening files and the csv reader with its tab delimiter. Each file arrives as the sequence of rows the reader yields for it, and `Tools.Load` takes one such sequence per path.
- Number parsing (csvlib.py:4-8, 46, 51): `float(text)` is the parameter `parse: string -> Option<real>`, which is `None` where `float` raises; it stands for `float` on finite results only (see "Non-finite times" below). `is_float(text)` is `parse(text).Some?`, which is what `float(n) != None` amounts to. Python's float grammar is not modelled.
- Floating-point arithmetic: times are `real`, so the time conservation law holds exactly. IEEE rounding of the sums is not modelled.
- Non-finite times: `float` also accepts texts such as `nan`, `inf` and `1e400`, whose values have no `real` counterpart, so no choice of `parse` reproduces what csvlib.py does with such rows. In csvlib.py a NaN time makes `total_time` NaN (csvlib.py:59-66), and then `time_safe + time_unsafe == total_time` is false. `BenchStats.Conservation` and `Tools.StatsConservation` hold only for the finite times the model represents.
- Output: `Stats.print`, `print_benchmarks`, `Stats.__str__`, `Tool.__str__`, the debug print at csvlib.py:41 and the diagnostic print at csvlib.py:94.
- `make_diagram`: it calls `venny4py`, which is never imported.
- `scatter_v2`, `scatter_v1`, `to_stream`: they only emit plot text. `to_stream` also returns nothing, and `scatter_v1` calls it with too few arguments (csvlib.py:295).
- `analyze-tool.py`: command-line glue. It passes three arguments to `Tool`, whose constructor takes two (csvlib.py:151).
- The `!= None` assertions of `add_row` (csvlib.py:54-57) always hold, and so does the UNKNOWN assertion of `get_scatter_row` (csvlib.py:124), because the outcome match is exhaustive. None of them is a separate error.
- `add_row` appends the record and adds to `total_time` before its ground-truth assertion fails (csvlib.py:58-65). The model fails the whole step instead. The difference cannot be seen, because the exception ends the fold.
- `ToolCollection.add_tool` is modelled as `Tools.AddTool`, an append to the tool list; nothing is proved about it.
