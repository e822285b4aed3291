# KM-Eval ingestion and metrics, modelled in Dafny

KM-Eval scores a knowledge-management prototype against a baseline system. Each test subject
does each task once under each condition (`prototype` or `baseline`). The runs are logged as
JSONL files of two kinds:

- **Subject-Task** files hold one pre-aggregated line per session.
- **State-Transition** files hold a stream of timestamped state changes, from which the
  loader derives the session totals.

A `task_metadata.csv` file gives each task's optimal time, maximum score and optional
passing score.

This project models three parts of the system:

- the schema checks (`eval_utils/validate_utils.py`);
- the loaders and the directory merge (`eval_utils/file_utils.py`);
- the metrics computed over the merged records (`eval_utils/metrics_utils.py`).

It proves what each operation returns, which inputs it rejects and what the results mean.

Modules, in dependency order:

- `Wrappers` — `Option` and `Result`. `Err` stands for a raised exception.
- `Json` — parsed JSON values. It also covers Python's `isinstance` (where `bool` is an
  `int`), Python's `==` (where `1 == 1.0 == True` and dictionary order is ignored), and the
  `"{subject}_{condition}_{task}"` session key.
- `Schema` — the presence and type checks, the transition table and the timestamp-order rule.
  It also holds the CSV header check (`VerifyColumnNames`) and the row conversion
  (`VerifyRowTypes`).
- `Sessions` — which event sequences the State-Transition loader accepts for one session key,
  and the time totals it derives. This is the specification the loader's loop is proved
  against.
- `Lines` — the loaders' errors, the check that one decoded line goes through, and
  whole-file decoding.
- `Transitions` — `load_state_transitions_file` as a fold with per-key state, proved against
  `Sessions`.
- `Loaders` — dictionaries where the last line wins, `load_subject_task_file`, and the
  classification `load_jsonl_file` does.
- `Metadata` — `load_csv_file`.
- `Directory` — `os.path.splitext`, the cross-file merge and `load_directory`.
- `Metrics` — `filter_jsonl_input`, the averages and the reductions.

The program's inputs are modelled as values:

- A directory listing is a sequence of entries.
- A JSONL file is its lines, already decoded by `json.loads`.
- A CSV file is its rows, already split by `csv.reader`.
- ISO-8601 parsing, `float()` and `int()` on strings are function parameters.
- Timestamps are integer microseconds.
- Python floats are `real`.

Python dictionaries are `map`s. The loops visit their keys in an unspecified order, and every
result that does not depend on that order is proved not to.

## Model

| member | source | states |
|---|---|---|
| Json.AsNumber | eval_utils/file_utils.py:64-68 | a value has a numeric reading iff it is a bool, an int or a float: the values on which the warning test (the subtraction, `abs` and the comparison with the threshold) runs without raising |
| Json.PyEqReflexive | eval_utils/file_utils.py:86 | Python `==` on JSON values is reflexive, through nested lists and objects |
| Json.PyEqSymmetric | eval_utils/file_utils.py:86 | Python `==` on JSON values is symmetric, so which record of a merge is compared against which does not matter |
| Json.ObjEqSymmetric | eval_utils/file_utils.py:95 | dictionary equality as the merge uses it is symmetric |
| Json.SessionKeyInjective | eval_utils/file_utils.py:200 | when subject and condition contain no `_`, equal session keys imply equal subject, condition and task text |
| Json.SessionKeyCollision | eval_utils/file_utils.py:261 | two different sessions, `A`/`prototype`/`baseline_T` and `A_prototype`/`baseline`/`T`, get the same key |
| Schema.Lookup | eval_utils/validate_utils.py:88-92 | `schema[attr]` is found iff the schema lists `attr`, and the result is that entry's type |
| Schema.FirstMissing | eval_utils/validate_utils.py:70-72 | no field is reported iff every required field is present; otherwise the reported field is required, absent, and the first such field in schema order |
| Schema.SubjectTaskPresence | eval_utils/validate_utils.py:63-72 | the Subject-Task presence check passes iff all twelve fields other than `optional_content` are present, and it only ever reports one of them |
| Schema.StateTransitionPresence | eval_utils/validate_utils.py:130-140 | the State-Transition presence check passes iff its five required fields are present, and it only ever reports one of them |
| Schema.ExtraFieldsNeverMissing | eval_utils/validate_utils.py:70-72 | adding a field never makes a passing presence check fail |
| Schema.SubjectTaskTypesMeaning | eval_utils/validate_utils.py:46-60 | after a passing Subject-Task type check, `condition` is `"prototype"` or `"baseline"`, `task_start_time` is a parsed instant, and the identifiers, totals, grade, timeout flag and `optional_content` have their schema types when present |
| Schema.SubjectTaskTypesReject | eval_utils/validate_utils.py:82-90 | a bad `condition`, or any present schema field of the wrong type, makes the Subject-Task check fail |
| Schema.SubjectTaskUnknownFieldSkipped | eval_utils/validate_utils.py:88-92 | a field outside the schema is skipped: adding it keeps a passing check passing |
| Schema.StateTransitionTypesMeaning | eval_utils/validate_utils.py:149-162 | after a passing State-Transition type check, `state_id` is one of the five names, `condition` is one of the two, and the other fields have their schema types |
| Schema.StateTransitionRejectsUnknownState | eval_utils/validate_utils.py:151-153 | a `state_id` outside the five names fails the check |
| Schema.StateTransitionUnknownFieldSkipped | eval_utils/validate_utils.py:157-162 | a field outside the State-Transition schema is skipped |
| Schema.LegalEdgeRule | eval_utils/validate_utils.py:110-125 | the fourteen listed transitions are exactly the pairs in which nothing leaves `task_conclusion`, nothing enters `task_initialized`, and only `task_execution` follows itself |
| Schema.EdgesDistinct | eval_utils/validate_utils.py:110-125 | the table has fourteen entries and none repeats |
| Schema.EdgeShape | eval_utils/validate_utils.py:184-195 | the only self-loop is `task_execution`; `task_conclusion` is terminal; `task_initialized` is never re-entered; every other state may conclude |
| Schema.OrderingRule | eval_utils/validate_utils.py:165-181 | timestamps are in order iff the earlier one is strictly smaller or the previous state is `task_initialized` |
| Schema.VerifyColumnNames | eval_utils/validate_utils.py:231-254 | the header passes iff it names every required column and only required or optional ones; missing columns are reported first, then extra ones, each as the exact set |
| Schema.VerifyRowTypes | eval_utils/validate_utils.py:257-285 | the row is converted in place, exactly as `ConvertedRow` describes, so it fails iff a cell does not parse or the row has fewer than three cells |
| Schema.ConvertedRow | eval_utils/validate_utils.py:257-285 | a row converts iff it has at least three cells, cell 1 parses as a float, cell 2 as an int, and cell 3, when present and non-empty, as a float; the converted row keeps its length and `task_id`, holds exactly those parsed values, keeps an empty cell 3 as `""`, and leaves later cells unchanged |
| Sessions.EventsOfAppend | eval_utils/file_utils.py:262-298 | the events of one session key in a concatenated stream are the concatenation of that key's events in each part |
| Sessions.TotalTelescopes | eval_utils/file_utils.py:289-292 | the accumulated `task_total_time` equals the time from the first event to the last |
| Sessions.TotalPartition | eval_utils/file_utils.py:291-296 | the total time is the sum of the time spent in each of the five states |
| Sessions.SessionChecks | eval_utils/file_utils.py:262-312 | a key's events are accepted iff the first state is `task_initialized`, every step passes the order and transition checks, and the last state is `task_conclusion` |
| Sessions.TimeInNonNegative | eval_utils/validate_utils.py:178 | in an accepted prefix, the time spent in any state other than `task_initialized` is non-negative |
| Sessions.TimeInPositive | eval_utils/validate_utils.py:178 | time spent in a state other than `task_initialized` that a later event leaves is positive |
| Sessions.InitialAndTerminal | eval_utils/validate_utils.py:110-125 | in an accepted prefix, `task_initialized` occurs only first and `task_conclusion` only last |
| Sessions.InitialShare | eval_utils/file_utils.py:291-296 | the time attributed to `task_initialized` is the first gap, and `task_conclusion` gets none |
| Sessions.SessionTotals | eval_utils/file_utils.py:289-296 | total time is the first gap plus the time in the other states; the pull, push and execution times are non-negative |
| Sessions.ScenarioA | eval_utils/file_utils.py:289-296 | initialised at 0 s, pull at 0 s, execution at 30 s, conclusion at 90 s: accepted, 90 s total, 30 s of pull, no push |
| Sessions.BoundarySessions | eval_utils/file_utils.py:286-312 | a lone `task_initialized`, a session not starting at `task_initialized`, and a repeated `km_pull_activity` are all rejected |
| Sessions.BackwardsSessionAccepted | eval_utils/validate_utils.py:178 | a conclusion timestamped before its `task_initialized` is accepted and gives a negative total |
| Lines.ParseEventErrors | eval_utils/file_utils.py:252-257 | checks apply to a State-Transition line in order: it must be an object, then have its fields present, then a parseable timestamp, then pass the type check |
| Lines.ParseEventOk | eval_utils/file_utils.py:252-261 | an accepted line yields an event whose record is the line with its timestamp parsed, whose fields are type-correct, and whose key is the session key |
| Lines.ParseSubjectTaskErrors | eval_utils/file_utils.py:194-199 | checks apply to a Subject-Task line in order: object, presence, `task_start_time` parse, then type check |
| Lines.ParseSubjectTaskOk | eval_utils/file_utils.py:194-201 | an accepted line is stored with `task_start_time` parsed, type-correct, under its session key |
| Lines.ParseAll | eval_utils/file_utils.py:190-205 | decoding succeeds iff every line does; the error is the first failing line's |
| Lines.ParseAllFirstError | eval_utils/file_utils.py:193-199 | the reported error is that of the first bad line, whatever follows it |
| Loaders.LastWinsLookup | eval_utils/file_utils.py:201 | a key is stored iff some line has it, and its value is that of the last line with that key |
| Loaders.LoadKeyed | eval_utils/file_utils.py:189-206 | the line-by-line loop returns exactly the keyed-records specification |
| Loaders.LoadSubjectTaskFile | eval_utils/file_utils.py:169-206 | `load_subject_task_file` returns the Subject-Task lines keyed by session key, or the first line's error |
| Loaders.SubjectTaskFileRecord | eval_utils/file_utils.py:197-201 | every stored Subject-Task record is type-correct, with its timestamp parsed, under its own session key |
| Loaders.KeyedRecordLine | eval_utils/file_utils.py:201 | the record under a key comes from a line with that key, and no later line has that key |
| Loaders.Classify | eval_utils/file_utils.py:117-136 | the first line selects Subject-Task iff it passes that presence check, otherwise State-Transition iff it passes that one; the error names both missing fields |
| Loaders.ClassifyByKeys | eval_utils/file_utils.py:126-136 | classification depends only on the first line's field names |
| Loaders.ClassifyStateTransition | eval_utils/file_utils.py:126-132 | a line carrying all State-Transition fields is classified as State-Transition iff it lacks some Subject-Task field |
| Loaders.LoadJsonlFile | eval_utils/file_utils.py:108-147 | an empty file fails; a first line that fits neither shape fails; otherwise the selected loader reads the whole file |
| Transitions.CheckStep | eval_utils/file_utils.py:262-286 | a new event is accepted iff it follows its key's previous event (order, then edge) or starts a new key with `task_initialized`; each failure is reported with the right error |
| Transitions.FoldEvents | eval_utils/file_utils.py:244-314 | the loop succeeds iff every line decodes and every key's events form a session; its result is the per-key summary of the stream |
| Transitions.LoadStateTransitionsFile | eval_utils/file_utils.py:209-314 | `load_state_transitions_file` returns the summaries of a valid stream, and fails otherwise |
| Transitions.AdvanceSummarizes | eval_utils/file_utils.py:289-298 | one incremental update of a key's running record equals the summary of that key's events including the new one |
| Transitions.FirstUnconcluded | eval_utils/file_utils.py:308-312 | the final scan finds a key whose last state is not `task_conclusion` iff there is one |
| Metadata.RowAttributesLookup | eval_utils/file_utils.py:339-344 | with distinct column names, a row's attributes are its cells after the first, each under its column name, and `task_id` is not among them |
| Metadata.LoadCsvFile | eval_utils/file_utils.py:317-347 | an empty file gives no tasks; a bad header fails with the sets its check reports; otherwise each row is stored under its `task_id`, the last row winning |
| Metadata.ReadRows | eval_utils/file_utils.py:333-345 | the row loop returns exactly the keyed-records specification of the data rows |
| Metadata.ReadRow | eval_utils/file_utils.py:338-345 | one row is converted in place and its attributes built, or it fails with its row number |
| Directory.LastDot | eval_utils/file_utils.py:46 | finds the last `.` in the name, or reports that there is none |
| Directory.JsonlExtension | eval_utils/file_utils.py:46-48 | a name ending in `.jsonl`, after a stem that is not all dots, is loaded as JSONL |
| Directory.JsonIsNotJsonl | eval_utils/file_utils.py:46-48 | a `.json` file is never loaded as JSONL |
| Directory.TimeWarnings | eval_utils/file_utils.py:64-71 | a warning is printed for a total exactly when the two values differ by more than one second, and it carries both values and both files |
| Directory.ComplementaryMerge | eval_utils/file_utils.py:74-80 | a record with `state_transitions` and one without merge without comparison; the result is the one without the list, given the other's list and the plain record's file |
| Directory.ComplementaryOrderIndependent | eval_utils/file_utils.py:74-80 | complementary records merge to the same record, `file_source` included, whichever file comes first |
| Directory.SameKindMerge | eval_utils/file_utils.py:83-98 | two records of the same kind merge iff they are equal apart from `file_source`; the stored record is then kept, otherwise a conflict is raised |
| Directory.WarningIsNotFatal | eval_utils/file_utils.py:64-67 | totals 5 s apart still merge, with one warning |
| Directory.MergeAll | eval_utils/file_utils.py:50-98 | merging a file succeeds iff every shared key merges; the keys are the union, and keys the file does not mention are untouched |
| Directory.MergeFile | eval_utils/file_utils.py:50-98 | the merge loop computes `MergeAll`; every warning it prints concerns a shared key, and on success it prints all of them |
| Directory.FailureIsFinal | eval_utils/file_utils.py:44-103 | once a file of the listing raises, the whole load fails |
| Directory.JsonFileIgnored | eval_utils/file_utils.py:48-100 | a `.json` file leaves both dictionaries unchanged |
| Directory.LoadDirectory | eval_utils/file_utils.py:31-105 | the directory loop computes `DirectoryRecords`; every warning exceeds the one-second threshold and was printed while merging a shared key of some file of the listing; on success every such warning was printed |
| Directory.LoadEntry | eval_utils/file_utils.py:44-103 | one listing entry is merged, loaded as metadata or ignored, exactly as `Step` describes; its warnings are exactly the merge's warnings for that file, all of them when the entry loads |
| Directory.LoadAndMerge | eval_utils/file_utils.py:48-98 | a `.jsonl` entry loads iff its file loads and every shared key merges, giving `MergeAll`; its warnings are warnings of that merge, all of them on success |
| Directory.SameFileTwice | eval_utils/file_utils.py:50-98 | a file whose keys were not yet stored, merged twice in a row: the second merge succeeds and leaves the records, `file_source` included, exactly as the first merge left them |
| Directory.SameRecordTwice | eval_utils/file_utils.py:83-98 | a stored record and a second copy of it from another file merge without a conflict, and the stored record, `file_source` included, is kept |
| Directory.PlainThenListsConflict | eval_utils/file_utils.py:74-89 | a graded Subject-Task record merged before two identical State-Transition records makes the third merge raise |
| Directory.ListsThenPlainMerge | eval_utils/file_utils.py:74-89 | the same records with the Subject-Task record last merge, to that record with the list and its own `file_source` |
| Directory.JsonlListing | eval_utils/file_utils.py:44-98 | a listing of `.jsonl` files that all load gives the merge of their records in listing order, with no metadata |
| Directory.ListingPlainFirstRaises | eval_utils/file_utils.py:44-89 | a listing with the Subject-Task file before two identical State-Transition files fails |
| Directory.ListingPlainLastLoads | eval_utils/file_utils.py:44-89 | the same three files with the Subject-Task file last load, and the key holds the graded record with the list |
| Metrics.FilterJsonlInput | eval_utils/metrics_utils.py:28-43 | keeps exactly the records whose key starts with `subject_`, contains `_condition_` and ends with `_task` (empty filters ignored), with their values unchanged |
| Metrics.FilterCommutes | eval_utils/metrics_utils.py:36-41 | two filters applied in either order give the same result |
| Metrics.FilterIdempotent | eval_utils/metrics_utils.py:36-41 | filtering twice with the same arguments is the same as filtering once |
| Metrics.SessionKeyMatches | eval_utils/metrics_utils.py:35-41 | the key of a session always matches that session's own subject, condition and task |
| Metrics.SumOverPick | eval_utils/metrics_utils.py:59-63 | the sum over a dictionary's records can take any record first, so it does not depend on iteration order |
| Metrics.SumOverBounds | eval_utils/metrics_utils.py:59-63 | if every reading is in `[lo, hi]`, the sum over n records is in `[n*lo, n*hi]` |
| Metrics.MeanBounds | eval_utils/metrics_utils.py:63 | if every reading is in `[lo, hi]`, so is their mean |
| Metrics.KmFraction | eval_utils/metrics_utils.py:61 | the fraction is defined iff both totals are numbers and the total time is non-zero, and the fraction times the total time is the pull time |
| Metrics.Average | eval_utils/metrics_utils.py:51-77 | the averaging loop returns the mean of the readings; it fails on an empty input (division by zero) or with some record's error |
| Metrics.ReductionMeaning | eval_utils/metrics_utils.py:103-112 | zero baseline: 0 iff prototype is 0, else −1; otherwise positive iff prototype is below baseline, zero iff equal, −1 iff at least twice the baseline, and in [−1, 1] for non-negative inputs |
| Metrics.ReductionMonotone | eval_utils/metrics_utils.py:103-112 | a larger prototype value never gives a larger reduction |
| Metrics.RelativeTime | eval_utils/metrics_utils.py:139-145 | over float times (the optimum included), the formula divides by zero iff the prototype is not slower and the baseline equals the optimum, or it is slower and the baseline is zero; a slower prototype is clamped at −1 |
| Metrics.RelativeTimeMeaning | eval_utils/metrics_utils.py:139-145 | at or below the baseline, the result times the baseline-to-optimum distance is the baseline minus p: p's place on the scale from the baseline (0) to the optimum (1), in [0, 1] between them, 1 exactly at the optimum and 0 exactly at the baseline; above a positive baseline it is below 0, the excess over the baseline as a negated fraction of it up to twice the baseline, and exactly −1 from twice the baseline on |
| Metrics.GroupMean | eval_utils/metrics_utils.py:89-101 | no record of the task under the condition is `NoData`; otherwise the mean over exactly those records |
| Metrics.KmTimeProportionalReduction | eval_utils/metrics_utils.py:80-112 | missing prototype data fails first, then missing baseline data; otherwise the result is the reduction of the two mean KM fractions |
| Metrics.PrototypeTimeRelativeToBaselineAndOptimal | eval_utils/metrics_utils.py:115-145 | the same error order; otherwise the relative time of the two mean total times |
| Metrics.FailureRateBounds | eval_utils/metrics_utils.py:163-168 | grades in `[0, max]` give a failure rate in [0, 1] |
| Metrics.AverageFailureRate | eval_utils/metrics_utils.py:153-168 | the loop returns `(max - mean grade) / max` over the graded records, or fails with a division error or a bad grade |
| Metrics.SumGrades | eval_utils/metrics_utils.py:159-163 | the grade loop succeeds iff every present grade is a number, and returns their sum and count |
| Metrics.GroupFailureRate | eval_utils/metrics_utils.py:185-197 | `NoData` when the condition has no record of the task; otherwise the failure rate of exactly those records |
| Metrics.ProportionalTaskFailureRateReduction | eval_utils/metrics_utils.py:171-208 | an empty input fails; a first record without `task_grade` is `NotSubjectTask`; then no prototype record is `NoData(prototype)`, and a prototype rate followed by no baseline record is `NoData(baseline)`; otherwise the reduction of the two failure rates |
| Metrics.BinarizedRecord | eval_utils/metrics_utils.py:229-231 | with a non-zero passing score, a grade at or above it becomes the maximum score and any other grade 0; other fields and records without a grade are unchanged; a non-numeric grade fails |
| Metrics.BinarizeGrades | eval_utils/metrics_utils.py:228-231 | the loop over the deep copy returns `Binarized`, or some record's error |
| Metrics.BinarizedProportionalTaskFailureRateReduction | eval_utils/metrics_utils.py:211-236 | a blank passing score fails; otherwise the failure-rate reduction of the binarised records |
| Metrics.BinarySum | eval_utils/metrics_utils.py:163 | over binarised grades, the sum is the number of passes times the maximum score |
| Metrics.BinarizedFailureRate | eval_utils/metrics_utils.py:163-168 | over binarised grades, the failure rate is the share of graded records that failed |
| Metrics.Productivity | eval_utils/metrics_utils.py:244-266 | the loop returns the summed grades over the summed minutes; zero summed time raises only once every record has been read |
| Metrics.ProductivityBetweenRates | eval_utils/metrics_utils.py:244-266 | productivity is a rate over the whole group: when every record scores between `lo` and `hi` grade points per minute of its own non-negative time, the group's productivity is between `lo` and `hi` too |
| Metrics.IncreaseOver | eval_utils/metrics_utils.py:295-299 | a zero baseline gives +infinity; otherwise the increase times the baseline is the difference; it is positive iff the prototype is higher, zero iff equal, and at least −1 for non-negative inputs |
| Metrics.GroupProductivity | eval_utils/metrics_utils.py:281-293 | `NoData` when the condition has no record of the task; otherwise the productivity of exactly those records |
| Metrics.ProportionalIncreaseInProductivity | eval_utils/metrics_utils.py:269-299 | an empty input fails; a first record without `task_grade` is `NotSubjectTask`; then no prototype record is `NoData(prototype)`, and a prototype productivity followed by no baseline record is `NoData(baseline)`; otherwise the increase from baseline to prototype productivity |

## Behaviour a reader may not expect

Each item sets what a docstring or comment of the source suggests against what its code does.
The model follows the code.

- **Ordering after `task_initialized`.** The docstring of `verify_timestamps_inorder` says
  timestamps must occur sequentially. The code exempts any step that leaves `task_initialized`,
  including a step back in time. A session can then have a negative `task_total_time`
  (`Sessions.BackwardsSessionAccepted`).
- **`file_source` after a merge.** The comment in `load_directory` says the Subject-Task
  version of a record is kept and the list is added to it. When the record with
  `state_transitions` is stored first, the plain record replaces it and `file_source` becomes
  the new file. In the opposite order, the stored plain record only gains the list. Either way
  the result names the plain record's file (`Directory.ComplementaryOrderIndependent`). When
  both records carry a list, or neither does, `file_source` is never updated.
- **Records of the same kind must be identical.** The comment says such records raise when
  they "do not contain the same data". That includes the totals: two records whose totals
  differ by a fraction of a second still raise. The one-second tolerance only decides whether
  a warning is printed.
- **The listing order can decide whether loading raises.** `os.listdir` returns the files in
  no fixed order, and the docstring of `load_directory` promises one merged dictionary. Take
  three files sharing a key: a Subject-Task file with a graded record, and two identical
  State-Transition files. Listed with the Subject-Task file first, the first State-Transition
  file adds its list to the graded record. The second is then compared with that combined
  record, which has a grade, and raises (`Directory.ListingPlainFirstRaises`). Listed with the
  Subject-Task file last, the two copies agree and the graded record takes the list
  (`Directory.ListingPlainLastLoads`).
- **The same file loaded twice is harmless only in a narrow case.** When a file whose keys
  were not yet stored is merged twice in a row, the second copy changes nothing and raises
  nothing (`Directory.SameFileTwice`). Otherwise a second copy can raise. Take a
  State-Transition file and a graded Subject-Task record for one of its keys. The
  Subject-Task record may be merged before the first copy or between the two copies. Either
  way, the key ends up holding the Subject-Task record with the list, and the second copy is
  then compared with that combined record. It has no grade, so the merge raises.
  `Directory.ListingPlainFirstRaises` proves the first of these orders.
- **A passing score of 0 binarises nothing.** The docstring of
  `get_binarized_proportional_task_failure_rate_reduction` says every grade is recast to 0 or
  the maximum score before the calculation. The loop recasts a grade only when the passing
  score is truthy, so with a passing score of 0 every grade is kept as it is
  (`Metrics.BinarizedRecord`).
- **Only `task_metadata.csv` is read.** The docstring of `load_directory` says all CSV files
  are loaded. The code reads only the file with that exact name and ignores every other
  non-JSONL file (`Directory.JsonFileIgnored`).
- **An empty `task_metadata.csv`** gives an empty dictionary without the header check.
- **CSV attribute names are positional.** The docstring of `load_csv_file` shows each task's
  attributes by column name. The code stores each cell under the column name at the same
  position in the header, so a row longer than the header raises (an `IndexError`).
- **Session keys can collide.** The docstrings index records as `"subject_condition_task"`.
  Subject, condition and task are joined by `_`, so identifiers that contain `_` can produce
  the same key (`Json.SessionKeyCollision`).
- **The filter is by substring.** The docstring of `filter_jsonl_input` promises the records
  that match the given subject, condition and task. The code matches on the key text, so a
  task id ending in `_T` also matches a filter for task `T`.

## Left out

- Reading files, `os.listdir`, `json.loads` and `csv.reader` are left out. The model takes their
  outputs as inputs: entries, decoded lines and split rows.
- `datetime.fromisoformat`, `float()` and `int()` on strings are parameters, not models.
- Floats are `real`. IEEE rounding, `inf` arithmetic and `NaN` are not modelled.
- Dictionary and set iteration order is not modelled. So the model leaves these unspecified:
  which conflicting key is reported, the order of warnings across keys, which field a type
  error names, and which record's error a metric reports.
- A line that is not a JSON object is modelled as the error `NotAnObject(n)`. In Python the
  failure depends on the value. A number, `null` or a boolean makes the presence check's `in`
  test raise a `TypeError`. A string or list that lacks some field name fails the presence
  check as missing that field. On the first line, both cases leave the file type unidentified.
  A string or list that contains every field name passes the presence check. The chosen loader
  then raises when it indexes the line by a field name (`eval_utils/file_utils.py:198` and
  `:256`).
- Timestamps are integer instants, so a mix of timezone-aware and naive `datetime` values
  cannot be written down. In Python, comparing two such values raises a `TypeError`
  (`eval_utils/validate_utils.py:178`), and so does subtracting them
  (`eval_utils/file_utils.py:291`). The model never fails at either point.
- `Directory.MergeRecord`: a missing or non-numeric total is the single error `BadTotals`. In
  Python it is a `KeyError` or a `TypeError`.
- `Metrics.BinarizedProportionalTaskFailureRateReduction`: a passing score that is neither
  numeric nor the empty string is not modelled. `PassingScore` is either blank or a number.
- `next(iter(jsonl_input))` is the parameter `first`, required to be a key of a non-empty input.
  Insertion order is not modelled.
- The printed text of warnings and error messages is left out. Warnings and errors are
  datatypes carrying the values the messages mention.
- `save_jsonl` is left out because it only writes files. `statistics_utils.py`,
  `summary_utils.py` and the command-line scripts are not part of this model.
