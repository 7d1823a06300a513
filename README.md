# Modular ETL pipeline — a Dafny model of its record-level core

A batch sensor pipeline runs in four stages:

- **Ingest** reads the configured CSV and JSON observation files into `ObservationRecord`s.
- **Validate** splits the records into valid records and typed `ValidationIssue`s.
- **Normalize** turns every record into a flat row over a fixed seven-column schema.
- **Write** writes the rows as parquet, or as CSV when parquet is not asked for or fails, together with a JSON run summary.

This project models each stage's logic in Dafny and proves what the code promises about it. Files and library calls are replaced by inputs.

Modules, one per part of the program:

| module | models |
|---|---|
| `Wrappers` | `Option` and `Result`, for the code's exceptions |
| `Text` | Python's `str.strip` (with `str.isspace`'s whitespace) and `str.lower` |
| `Paths` | the part of `pathlib` the writer uses: `suffix`, `stem`, `with_suffix`, and `str.lstrip(".")` |
| `Collect` | running a failing step over a sequence and stopping at the first error, as a loop that raises does |
| `Counter` | `dict(collections.Counter(xs))`: one entry per distinct element, in order of first occurrence |
| `Screening` | the shape of `validate_records`' loop over an abstract per-item check |
| `Config` | `PipelineConfig`, with every field the core reads |
| `Records` | `ObservationRecord`, `datetime` with an optional offset, and `parse_timestamp` |
| `CsvReader` | `read_observations_csv` over the rows its `DictReader` yields |
| `JsonReader` | `read_observations_json` over the value `json.loads` returned |
| `Ingest` | `ingest_all` |
| `Validator` | `validate_records`, `_check_range`, `_issue`, and the counts of `write_validation_report` |
| `Normalize` | `COLUMNS` and `normalize_records` |
| `Writer` | `write_outputs`, `_try_write_parquet`, `_write_csv` and `_write_summary` over a map from paths to file contents (class `Disk`) |

How the main operations are stated:

- **Loops.** Every `for` statement of the source is a Dafny method with a loop. The generator expression that feeds `Counter` (`src/etl/load/writer.py:68`) is a function, `Collect.MapResults` followed by `Counter.Tally`. Its `ensures` ties the result to a specification function on the inputs; lemmas then prove the source's promises about that function.
- **Exceptions.** A Python exception is a `Failure` result carrying the cause. A library conversion that may raise is an `Option`-valued function parameter:
  - `int()` and `float()`;
  - `datetime.fromisoformat`;
  - `datetime.isoformat`, which is a string-valued parameter.
- **Parquet.** Whether the parquet write succeeds is a boolean input.
- **Rows.** A normalized row is an insertion-ordered dictionary (a sequence of key/value pairs). `get` finds the first matching key.
- **CSV output.** A CSV file is its sequence of lines, each the sequence of cells `DictWriter` writes.

Where the code and its description disagree, the model follows the code:

- **Exceptions the writer can raise.**
  - `_write_csv` raises on a row with a key outside the schema, because `DictWriter` raises by default. The run then stops after a partial file.
  - `_write_summary` raises on a row without `source_format`.

  The model keeps both failures. Rows made by the normalizer never trigger them; `Writer.NormalizedRowsSucceed` proves this.
- **Configuration fields.** `PipelineConfig` as declared in `src/etl/config.py:8-16` lacks seven fields the core reads:
  - `allowed_sites`;
  - `temp_c_min`, `temp_c_max`, `humidity_min` and `humidity_max`;
  - `run_id` and `output_basename`.

  The model's `Config.PipelineConfig` carries them as plain fields.

## Model

| member | source | states |
|---|---|---|
| Text.Strip | src/etl/ingest/models.py:13 | the result has no leading or trailing whitespace and is the input with a whitespace-only prefix and suffix removed |
| Text.Lower | src/etl/load/writer.py:20 | `str.lower` on ASCII letters: each `A`-`Z` becomes its lower-case letter, every other character is kept |
| Text.StripIdempotent | src/etl/ingest/models.py:13 | stripping a stripped string changes nothing |
| Text.StripUnique | src/etl/ingest/models.py:13 | a trimmed string surrounded by whitespace strips to itself, so strip is determined by what it keeps |
| Text.StripLowerCommute | src/etl/load/writer.py:20 | lower-casing then stripping equals stripping then lower-casing |
| Records.PrepareTimestamp | src/etl/ingest/models.py:13-15 | the string handed to `fromisoformat`: the stripped input, with a trailing `Z` replaced by `+00:00` |
| Records.ParseTimestamp | src/etl/ingest/models.py:7-19 | `parse_timestamp`: `None` where `fromisoformat` raises; otherwise its result, with UTC attached to a naive time |
| Records.PrepareTimestampShape | src/etl/ingest/models.py:13-15 | the input is stripped first; a trailing `Z` becomes `+00:00` and every other character is kept; without a trailing `Z` the stripped input is passed on unchanged; the prepared string never ends in `Z` and has no surrounding whitespace |
| Records.ParseTimestampAware | src/etl/ingest/models.py:16-19 | parsing fails exactly when `fromisoformat` rejects the prepared string; every parsed result is timezone-aware, keeps the parsed wall clock, keeps an explicit offset, and gives a naive time UTC |
| Records.PrepareIdempotent | src/etl/ingest/models.py:13-15 | preparing an already prepared string changes nothing |
| Records.ParsePrepared | src/etl/ingest/models.py:13-16 | a timestamp parses to the same value whether given as written or already prepared |
| Records.ParseIgnoresSurroundingSpace | src/etl/ingest/models.py:13 | whitespace around the input never changes the parsed value |
| Records.PrepareZulu | src/etl/ingest/models.py:14-15 | `t + "Z"` is prepared as `t` without its leading whitespace, followed by `+00:00` |
| Records.PrepareUtcOffset | src/etl/ingest/models.py:14-16 | `t + "+00:00"` reaches the parser as `t` without its leading whitespace, followed by `+00:00` |
| Records.ZuluIsUtcOffset | src/etl/ingest/models.py:7-19 | the two documented spellings, trailing `Z` and `+00:00`, parse to the same value for every parser |
| CsvReader.CellText | src/etl/ingest/csv_reader.py:18 | `str()` of a cell: its text, or "None" for the cell a short row lacks |
| CsvReader.RecordOf | src/etl/ingest/csv_reader.py:15-22 | the record one row becomes, reading `id`, `timestamp`, `site`, `temp_c` in that order and failing at the first missing or unconvertible one |
| CsvReader.CsvRecords | src/etl/ingest/csv_reader.py:14-25 | the rows' records in row order, or the first failing row's error |
| CsvReader.RecordOfShape | src/etl/ingest/csv_reader.py:15-22 | a row becomes a record exactly when `id`, `timestamp`, `site` and `temp_c` are present and `id`, `timestamp`, `temp_c` convert; the record holds the converted cells, the raw `site` text, metrics `{temp_c}` only, the file's path and format "csv"; a failure names one of the four fields, and a missing key is one the row lacks |
| CsvReader.ReadObservationsCsv | src/etl/ingest/csv_reader.py:9-25 | the loop returns exactly the per-row mapping over all rows, stopping at the first failing row |
| CsvReader.CsvRecordsShape | src/etl/ingest/csv_reader.py:14-23 | the read succeeds exactly when every row converts, with one record per row in row order; a failure is the error of the first failing row, and every earlier row converts |
| CsvReader.CsvRecordsProvenance | src/etl/ingest/csv_reader.py:19-21 | every record of a successful read has format "csv", the file's path, and exactly the metric key `temp_c` |
| JsonReader.TypeName | src/etl/ingest/json_reader.py:13 | `type(raw).__name__` of a decoded value: `NoneType`, `bool`, `int`, `float`, `str`, `list` or `dict` |
| JsonReader.RecordOf | src/etl/ingest/json_reader.py:17-24 | the record one item becomes: `NotAnObject` for a non-object, otherwise reading `id`, `timestamp`, `site`, `humidity` in that order and failing at the first missing or unconvertible one |
| JsonReader.SiteIsJsonText | src/etl/ingest/json_reader.py:20 | when `str()` leaves a JSON string unchanged, as Python's does, a record's site is the item's site text as written |
| JsonReader.JsonRecords | src/etl/ingest/json_reader.py:12-27 | `NotAList` with the path and type name for a value that is not a list; otherwise the items' records in list order, or the first failing item's error |
| JsonReader.RecordOfShape | src/etl/ingest/json_reader.py:17-24 | an item becomes a record exactly when it is an object whose `id`, `timestamp`, `site`, `humidity` are present and convert; the record holds the converted values, metrics `{humidity}` only, the file's path and format "json"; a non-object item fails with `NotAnObject`, and a missing key is one the object lacks |
| JsonReader.ReadObservationsJson | src/etl/ingest/json_reader.py:9-27 | the method returns exactly the list check followed by the per-item mapping, stopping at the first failing item |
| JsonReader.JsonRecordsShape | src/etl/ingest/json_reader.py:12-27 | a top-level value that is not a list fails with an error naming the path and the value's type; otherwise the read succeeds exactly when every item converts, with one record per item in list order; a failure is the first failing item's error |
| JsonReader.JsonRecordsProvenance | src/etl/ingest/json_reader.py:21-23 | every record of a successful read has format "json", the file's path, and exactly the metric key `humidity` |
| Ingest.Ingested | src/etl/ingest/__init__.py:9-18 | the CSV files' records concatenated in configured order, followed by the JSON files', or the first failing file's error |
| Ingest.IngestAll | src/etl/ingest/__init__.py:9-18 | the method returns exactly the CSV files' concatenated results followed by the JSON files', or the first error |
| Ingest.ReadCsvFiles | src/etl/ingest/__init__.py:12-13 | the first loop extends the list with each CSV file's records in configured order, or stops at the first failing file |
| Ingest.ReadJsonFiles | src/etl/ingest/__init__.py:15-16 | the second loop does the same for the JSON files |
| Ingest.IngestNoFiles | src/etl/ingest/__init__.py:10-18 | with no files configured the result is the empty list |
| Ingest.IngestSucceedsIff | src/etl/ingest/__init__.py:12-16 | ingest succeeds exactly when every configured CSV and JSON file reads |
| Ingest.IngestFailureIsFirst | src/etl/ingest/__init__.py:12-16 | a failed ingest returns no records and reports the first failing file's error, CSV files before JSON files |
| Ingest.IngestConcatenation | src/etl/ingest/__init__.py:10-18 | a successful result is every CSV file's records in configured order followed by every JSON file's; its length is the sum of the files' record counts |
| Ingest.FromCsvIsCsv | src/etl/ingest/__init__.py:12-13 | every record from the CSV files has format "csv" |
| Ingest.FromJsonIsJson | src/etl/ingest/__init__.py:15-16 | every record from the JSON files has format "json" |
| Ingest.IngestCsvBeforeJson | src/etl/ingest/__init__.py:12-16 | every ingested record has format "csv" or "json", and no JSON record precedes a CSV record |
| Validator.Issue | src/etl/validate/validator.py:69-76 | an issue about a field of a record, copying the record's id, file and format |
| Validator.CheckRange | src/etl/validate/validator.py:79-88 | one "is required" issue on `metrics.<key>` when the metric is absent, one between-issue when it lies outside the inclusive bounds, none otherwise |
| Validator.IdIssues | src/etl/validate/validator.py:21-22 | one "must be > 0" issue when `id <= 0` |
| Validator.SiteIssues | src/etl/validate/validator.py:24-27 | one "must be non-empty" issue for an empty site, else one allow-list issue for a site outside the allow-list |
| Validator.MetricIssues | src/etl/validate/validator.py:30-37 | the `temp_c` range check for "csv", the `humidity` range check for "json", one "unknown source_format" issue otherwise |
| Validator.RecordIssues | src/etl/validate/validator.py:18-37 | the id, site and metric rules' issues, in that order |
| Validator.Accepted | src/etl/validate/validator.py:39-42 | the records without issues, in input order |
| Validator.AllIssues | src/etl/validate/validator.py:39-40 | every record's issues, in input order |
| Validator.RejectedCount | src/etl/validate/validator.py:39-40 | the number of records with at least one issue |
| Validator.Counts | src/etl/validate/validator.py:58-62 | the report's counts: `total`, `valid`, and `invalid = total - valid` |
| Validator.ValidateRecords | src/etl/validate/validator.py:11-44 | the loop returns the issue-free records in input order and every record's issues in input order |
| Validator.CheckRangeSpec | src/etl/validate/validator.py:79-88 | at most one issue, on field `metrics.<key>`; none exactly when the metric is present and within the inclusive bounds; "is required" when it is absent; the between-message with the bounds when it is outside them |
| Validator.RuleFields | src/etl/validate/validator.py:20-37 | the id rule reports only on `id`, the site rule only on `site`, the metric rule only on its format's field |
| Validator.ByField | src/etl/validate/validator.py:18-37 | a record's issues about one field are exactly those of the rule that reports on that field |
| Validator.IdRule | src/etl/validate/validator.py:21-22 | a record with `id <= 0` has exactly one `id` issue, "must be > 0"; any other record has none |
| Validator.SiteRule | src/etl/validate/validator.py:24-27 | at most one `site` issue: "must be non-empty" for an empty site; otherwise the allow-list message exactly when the site is not allowed |
| Validator.MetricRule | src/etl/validate/validator.py:30-37 | "csv" checks only `metrics.temp_c` against the temperature bounds; "json" checks only `metrics.humidity` against the humidity bounds; any other format gets exactly one "unknown source_format" issue and no metric issue |
| Validator.RecordIssuesShape | src/etl/validate/validator.py:18-37 | no rule short-circuits another: the record's issues are the three rules' issues in order, at most one each and so at most three; each copies the record's id, file and format |
| Validator.AllRulesFire | src/etl/validate/validator.py:18-37 | a record breaking all three rules carries all three issues, in rule order |
| Validator.TemperatureOutOfRange | src/etl/validate/validator.py:30-31 | a CSV record that passes the id and site rules but is too hot carries exactly one issue, the range issue on `metrics.temp_c` |
| Validator.ValidateConcat | src/etl/validate/validator.py:17-44 | validating a concatenation is validating its parts, so input order is kept |
| Validator.IssuesAreConcatenation | src/etl/validate/validator.py:39-44 | the issues are the in-order concatenation of the records' issue lists |
| Validator.AcceptedIsSelection | src/etl/validate/validator.py:17-42 | the valid records are picked out of the input by strictly increasing positions, and a position is picked exactly when its record has no issue |
| Validator.PartitionCounts | src/etl/validate/validator.py:39-44 | valid and rejected records add up to the input, so there are never more valid records than records; the number of issues lies between the number of rejected records and three times it; there are no issues exactly when every record is valid |
| Validator.IssuesProvenance | src/etl/validate/validator.py:69-76 | every reported issue belongs to some input record and copies its id, file and format |
| Validator.ReportCountsOfValidation | src/etl/validate/validator.py:56-62 | for the validator's own results, the report's `invalid` is `total - valid` and equals the number of rejected records; it is never negative, and it is zero exactly when no issue was reported |
| Normalize.Metric | src/etl/transform/normalize.py:25-26 | `metrics.get(key)`: the metric's value when the record carries it, `None` otherwise |
| Normalize.ToRow | src/etl/transform/normalize.py:21-29 | the row of one record: its id, rendered timestamp, site, `temp_c` and `humidity` or `None`, file and format, under the schema's keys in order |
| Normalize.Lookup | src/etl/transform/normalize.py:25-26 | `dict.get`: the value of the first entry with the key, or `None` |
| Normalize.NormalizeRecords | src/etl/transform/normalize.py:16-32 | one row per record, and row `i` is made from record `i` |
| Normalize.ColumnsDistinct | src/etl/transform/normalize.py:5-13 | the schema has seven names, all distinct |
| Normalize.LookupDistinct | src/etl/transform/normalize.py:21-29 | in a row without repeated keys, `get` finds each key's own value and nothing for other keys |
| Normalize.ToRowKeys | src/etl/transform/normalize.py:21-29 | a row's keys are exactly the schema, in schema order, each once |
| Normalize.ToRowShape | src/etl/transform/normalize.py:21-29 | `id`, `site`, `source_file` and `source_format` are copied from the record; the timestamp is rendered; each metric column holds the metric when present and `None` otherwise; any other key is absent |
| Normalize.SingleMetricRow | src/etl/transform/normalize.py:25-26 | a record carrying only `temp_c` gets its temperature and an explicit `None` humidity, and one carrying only `humidity` its humidity and an explicit `None` temperature |
| Counter.Tally | src/etl/load/writer.py:68 | `Counter` over a sequence: each element raises its key's count, and a new key is appended with count one |
| Counter.TallySpec | src/etl/load/writer.py:68-73 | every entry's key occurs in the input and its count is its number of occurrences; every element has an entry; no key repeats; keys come in order of first occurrence; the counts add up to the input's length |
| Paths.Suffix | src/etl/load/writer.py:72 | `PurePath.suffix`: the name from its last dot on, unless that dot leads or ends the name |
| Paths.Stem | src/etl/load/writer.py:48 | `PurePath.stem`: the name without its suffix |
| Paths.WithSuffix | src/etl/load/writer.py:48 | `PurePath.with_suffix`: the same directory, the stem followed by the new suffix |
| Paths.LStripDots | src/etl/load/writer.py:72 | `str.lstrip(".")`: the input without its leading dots; what remains is a suffix of the input and does not start with a dot |
| Paths.SuffixOfExtension | src/etl/load/writer.py:48 | a non-empty stem followed by a dotted extension has that extension as its suffix and keeps its stem |
| Paths.WithSuffixOfExtension | src/etl/load/writer.py:48 | replacing such an extension gives the stem followed by the new one |
| Writer.BaseName | src/etl/load/writer.py:19 | `output_basename`, `_`, `run_id` |
| Writer.DesiredFormat | src/etl/load/writer.py:20 | the output format lower-cased, then stripped |
| Writer.SummaryPath | src/etl/load/writer.py:22 | `run_summary_<run_id>.json` in `reports_dir` |
| Writer.ParquetPath | src/etl/load/writer.py:25 | `<base>.parquet` in `processed_dir` |
| Writer.CsvPath | src/etl/load/writer.py:31 | `<base>.csv` in `processed_dir` |
| Writer.WritesParquet | src/etl/load/writer.py:24-44 | the parquet branch is taken and the parquet write succeeds |
| Writer.DataPath | src/etl/load/writer.py:24-34 | the parquet file when the desired format is "parquet" and the parquet write succeeds; its `.csv` sibling when that write fails; the CSV file for any other format |
| Writer.DataContent | src/etl/load/writer.py:24-51 | what the data file holds: the parquet table of the rows when parquet is written, the CSV lines otherwise |
| Writer.DataError | src/etl/load/writer.py:24-51 | what writing the data file raises: nothing for parquet, the CSV write's error otherwise |
| Writer.HeaderLine | src/etl/load/writer.py:57 | the header line: the schema's names in order |
| Writer.RowLine | src/etl/load/writer.py:59 | the line of one row: per schema name its value, or the empty default when the row lacks it |
| Writer.Cell | src/etl/load/writer.py:59 | the cell `writerow` writes for a schema name: the row's value, or the empty `restval` when the row lacks the key |
| Writer.RowLines | src/etl/load/writer.py:58-59 | the lines of the rows, one per row, in row order |
| Writer.ExtraKeys | src/etl/load/writer.py:59 | the row's keys outside the schema, which make `writerow` raise |
| Writer.FirstUnwritable | src/etl/load/writer.py:58-59 | the position of the first row with a key outside the schema, or the number of rows; every earlier row has only schema keys |
| Writer.CsvWritten | src/etl/load/writer.py:54-59 | the header followed by the lines of the rows before the first row with a key outside the schema |
| Writer.CsvError | src/etl/load/writer.py:59 | the error of the first row with a key outside the schema, if there is one |
| Writer.SourceFormat | src/etl/load/writer.py:68 | `r["source_format"]`: the row's format, or the missing-key error |
| Writer.Summary | src/etl/load/writer.py:62-75 | the summary payload, or the missing-key error of the first row without `source_format` |
| Writer.Outcome | src/etl/load/writer.py:15-34 | what `write_outputs` returns, the data path and the summary path, or the first error raised |
| Writer.Written | src/etl/load/writer.py:15-34 | the files afterwards: the data file, then the summary unless the call raised first |
| Writer.Disk.WriteCsv | src/etl/load/writer.py:54-59 | the file holds the header, then one line per row up to the first row with a key outside the schema; the method raises exactly there; nothing else changes |
| Writer.Disk.TryWriteParquet | src/etl/load/writer.py:37-51 | a successful parquet write returns its path and changes only that file; otherwise the rows go to the `.csv` sibling, whose path is returned |
| Writer.Disk.WriteSummary | src/etl/load/writer.py:62-79 | writes the summary payload to the summary path, or raises before writing when a row has no `source_format` |
| Writer.Disk.WriteOutputs | src/etl/load/writer.py:15-34 | returns or raises as the branch on the normalized format decides, and leaves exactly the files that branch writes |
| Writer.FallbackIsCsvPath | src/etl/load/writer.py:48 | the parquet fallback path is the very path the direct-CSV branch writes |
| Writer.DataPathChoice | src/etl/load/writer.py:24-34 | the data file lies in `processed_dir` and is the parquet file exactly when the format normalizes to "parquet" and the parquet write succeeds; it is the CSV file otherwise |
| Writer.SummaryPathIsNotDataPath | src/etl/load/writer.py:22 | the summary `run_summary_<run_id>.json` never overwrites the data file |
| Writer.BaseNameNonEmpty | src/etl/load/writer.py:19 | the base name is never empty: the character right after `output_basename` is the separator `_` |
| Writer.DesiredFormatTrimsAndLowers | src/etl/load/writer.py:20 | the format decision sees the lower-cased, trimmed format string, which is trimmed whichever order the two steps take |
| Writer.CsvFormat | src/etl/load/writer.py:72 | a file named `<stem>.csv` with a non-empty stem records format "csv" |
| Writer.ParquetFormat | src/etl/load/writer.py:72 | a file named `<stem>.parquet` with a non-empty stem records format "parquet" |
| Writer.OutputFormatIsSuffix | src/etl/load/writer.py:72 | the summary's format is "parquet" when parquet was written and "csv" otherwise, including after a fallback |
| Writer.SourceFormats | src/etl/load/writer.py:68 | the formats can be collected exactly when every row has a `source_format`, and they are then the rows' own, in order |
| Writer.SummaryCounts | src/etl/load/writer.py:68-75 | the summary exists exactly when every row has a `source_format`; it records the pipeline, the data path and its format, `len(rows)`, the schema, and per distinct format value the number of rows with that value, once each, in order of first appearance; every entry's format is some row's; the counts sum to `len(rows)` |
| Writer.CsvShape | src/etl/load/writer.py:54-59 | the CSV lines are the header, equal to the schema, followed by one line per row in order up to the first unwritable row; the write raises exactly when such a row exists, and otherwise there is one line per row |
| Writer.SchemaRowLine | src/etl/load/writer.py:59 | a row with exactly the schema's keys is written as its values in schema order |
| Writer.SchemaRowsSucceed | src/etl/load/writer.py:15-34 | rows with exactly the schema's keys are written without error on every branch: a full CSV, then the summary |
| Writer.NormalizedRowsSucceed | src/etl/load/writer.py:15-34 | the normalizer's rows are always written in full, with their summary |
| Writer.SummaryOfNoRows | src/etl/load/writer.py:68-75 | the summary of no rows counts no rows and no formats |
| Writer.WrittenFiles | src/etl/load/writer.py:26-34 | the data file holds what was written; on return the summary is written too and nothing else changes; when the call raises, only the data file has changed |
| Writer.CsvOfNoRows | src/etl/load/writer.py:54-59 | no rows give a CSV file of the header alone, and no error |
| Writer.EmptyRunSummary | src/etl/load/writer.py:68-75 | with no rows the summary records the data path and its actual format, zero rows and no formats |
| Writer.EmptyRunWritesSummary | src/etl/load/writer.py:26-34 | with no rows the run still returns both paths and writes the summary; a CSV then holds only the header |

## Left out

- File I/O is not modelled: opening, reading, `mkdir`, `write_text` and the `with` blocks. The readers take the rows or the decoded value a file yields. The writer's files are a map from paths to contents.
- Text handling by the libraries is not modelled: CSV quoting, `json.loads` and `json.dumps`, and text encoding. A CSV line is its sequence of cells, and a JSON file's content is the decoded value.
- `datetime.fromisoformat`, `datetime.isoformat`, `int()`, `float()` and `str()` of a JSON value are abstract function parameters. Their own parsing rules are library code.
- `str()` of a path is not modelled: a path is its directory and its name, and the summary records the `Path` value. Separators inside `output_basename` or `run_id` are not interpreted.
- The parquet table is not modelled. It holds the rows projected onto the schema; its encoding is pandas library code, and a partly written parquet file is not represented.
- Metric values are `real`, so there is no NaN and no infinity. Only `<=` comparisons are involved.
- Text.Lower lower-cases ASCII letters only. It is exact for the comparison with "parquet", because no other character lower-cases into one of that word's letters.
- Validator.Message keeps the bounds and the allow-list instead of the text of the two formatted messages. That text depends on Python's `repr` of floats and lists.
- Validator.ValidateRecords reports the records and issues. It does not model the aliasing of the record objects between the input list and `valid`; records are values.
- `write_validation_report`'s payload and file are not modelled; only its counts arithmetic is (`Validator.Counts`).
- `load_config` (TOML loading), `src/etl/__main__.py` (argument parsing, logging, exit status) and the Airflow DAG are not part of this model.
- Writer.Summary counts formats by equality of the model's cell values. Python's `Counter` groups numerically equal keys, so `1`, `1.0` and `True` would share one entry there but get separate entries here. The normalizer's rows only ever carry text formats (`Writer.NormalizedRowsSucceed`), and for text the two equalities agree.
- Logging calls are left out. They do not affect results.
- Exceptions carry a cause, not a message text.
- Ingest.IngestAll models the two `extend` loops as one list for the CSV files followed by one for the JSON files. This is the same final list, but the shared list is not built step by step across both loops.
