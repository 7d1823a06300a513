/**
 * The writer: the normalized rows go to one data file, parquet when asked for and the
 * parquet write succeeds, CSV otherwise; then a run summary describing that data file is
 * written beside it in the reports directory.
 */
module Writer {
  import opened Wrappers
  import Text
  import Collect
  import Counter
  import opened Config
  import opened Normalize
  import opened Paths

  /** Why a write raised. */
  datatype WriteError =
    | ExtraFields(fields: set<string>)  // `DictWriter.writerow`: keys outside the field names
    | MissingKey(key: string)           // `r["source_format"]` on a row without that key

  /** `f"{cfg.output_basename}_{cfg.run_id}"`. */
  function BaseName(cfg: PipelineConfig): string
  {
    cfg.outputBasename + "_" + cfg.runId
  }

  /** `cfg.output_format.lower().strip()`. */
  function DesiredFormat(cfg: PipelineConfig): string
  {
    Text.Strip(Text.Lower(cfg.outputFormat))
  }

  function SummaryPath(cfg: PipelineConfig): Path
  {
    Path(cfg.reportsDir, "run_summary_" + cfg.runId + ".json")
  }

  function ParquetPath(cfg: PipelineConfig): Path
  {
    Path(cfg.processedDir, BaseName(cfg) + ".parquet")
  }

  function CsvPath(cfg: PipelineConfig): Path
  {
    Path(cfg.processedDir, BaseName(cfg) + ".csv")
  }

  /** One line of CSV output, as the cells `DictWriter` writes on it. */
  type Line = seq<Value>

  /** `writeheader()`: the field names. */
  function HeaderLine(): Line
  {
    seq(|COLUMNS|, i requires 0 <= i < |COLUMNS| => TextValue(COLUMNS[i]))
  }

  /** The keys of a row that are not field names. */
  function ExtraKeys(row: Row): set<string>
  {
    set i | 0 <= i < |row| && row[i].0 !in COLUMNS :: row[i].0
  }

  /** The cell written for `key`: the row's value, or the empty `restval` when it lacks the key. */
  function Cell(row: Row, key: string): Value
  {
    match Lookup(row, key)
    case Some(v) => v
    case None => TextValue("")
  }

  /** `writerow(row)`: one cell per field name, in field order. */
  function RowLine(row: Row): Line
  {
    seq(|COLUMNS|, i requires 0 <= i < |COLUMNS| => Cell(row, COLUMNS[i]))
  }

  function RowLines(rows: seq<Row>): seq<Line>
  {
    seq(|rows|, i requires 0 <= i < |rows| => RowLine(rows[i]))
  }

  /** The position of the first row `writerow` rejects, or `|rows|` when it rejects none. */
  function FirstUnwritable(rows: seq<Row>): (k: nat)
    ensures k <= |rows|
    ensures forall j | 0 <= j < k :: ExtraKeys(rows[j]) == {}
    ensures k < |rows| ==> ExtraKeys(rows[k]) != {}
  {
    if rows == [] then 0
    else if ExtraKeys(rows[0]) != {} then 0
    else 1 + FirstUnwritable(rows[1..])
  }

  /** What `_write_csv` leaves in its file: the header, then the lines of the rows before the first rejected one. */
  function CsvWritten(rows: seq<Row>): seq<Line>
  {
    [HeaderLine()] + RowLines(rows[..FirstUnwritable(rows)])
  }

  /** What `_write_csv` raises, if anything. */
  function CsvError(rows: seq<Row>): Option<WriteError>
  {
    var k := FirstUnwritable(rows);
    if k < |rows| then Some(ExtraFields(ExtraKeys(rows[k]))) else None
  }

  /** The run summary `_write_summary` serializes. */
  datatype RunSummary = RunSummary(
    name: string,
    runId: string,
    outputPath: Path,
    outputFormat: string,
    rowCount: nat,
    bySourceFormat: seq<(Value, nat)>,
    columns: seq<string>)

  /** What a file written by the writer holds. */
  datatype FileContent =
    | CsvText(lines: seq<Line>)
    | ParquetTable(columns: seq<string>, rows: seq<Row>)
    | SummaryJson(summary: RunSummary)

  /** `r["source_format"]`. */
  function SourceFormat(row: Row): Result<Value, WriteError>
  {
    match Lookup(row, "source_format")
    case Some(v) => Success(v)
    case None => Failure(MissingKey("source_format"))
  }

  /** The payload of `_write_summary` for rows written to `dataPath`. */
  function Summary(cfg: PipelineConfig, rows: seq<Row>, dataPath: Path): Result<RunSummary, WriteError>
  {
    match Collect.MapResults(rows, SourceFormat)
    case Failure(e) => Failure(e)
    case Success(formats) =>
      Success(RunSummary(
        cfg.name, cfg.runId, dataPath, LStripDots(Suffix(dataPath.name)),
        |rows|, Counter.Tally(formats), COLUMNS))
  }

  /** Whether the parquet branch writes parquet: asked for, and the parquet write succeeds. */
  predicate WritesParquet(cfg: PipelineConfig, parquetOk: bool)
  {
    DesiredFormat(cfg) == "parquet" && parquetOk
  }

  /** The data file `write_outputs` writes. */
  function DataPath(cfg: PipelineConfig, parquetOk: bool): Path
  {
    if DesiredFormat(cfg) == "parquet" then
      if parquetOk then ParquetPath(cfg) else WithSuffix(ParquetPath(cfg), ".csv")
    else CsvPath(cfg)
  }

  /** What the data file holds afterwards. */
  function DataContent(cfg: PipelineConfig, rows: seq<Row>, parquetOk: bool): FileContent
  {
    if WritesParquet(cfg, parquetOk) then ParquetTable(COLUMNS, rows) else CsvText(CsvWritten(rows))
  }

  /** What writing the data file raises, if anything. */
  function DataError(cfg: PipelineConfig, rows: seq<Row>, parquetOk: bool): Option<WriteError>
  {
    if WritesParquet(cfg, parquetOk) then None else CsvError(rows)
  }

  /** What `write_outputs` returns or raises. */
  function Outcome(cfg: PipelineConfig, rows: seq<Row>, parquetOk: bool): Result<(Path, Path), WriteError>
  {
    match DataError(cfg, rows, parquetOk)
    case Some(e) => Failure(e)
    case None =>
      match Summary(cfg, rows, DataPath(cfg, parquetOk))
      case Failure(e) => Failure(e)
      case Success(_) => Success((DataPath(cfg, parquetOk), SummaryPath(cfg)))
  }

  /** The files after `write_outputs`: the data file, then the summary unless something raised first. */
  function Written(files: map<Path, FileContent>, cfg: PipelineConfig, rows: seq<Row>, parquetOk: bool): map<Path, FileContent>
  {
    var afterData := files[DataPath(cfg, parquetOk) := DataContent(cfg, rows, parquetOk)];
    if DataError(cfg, rows, parquetOk).Some? then afterData
    else
      match Summary(cfg, rows, DataPath(cfg, parquetOk))
      case Failure(_) => afterData
      case Success(s) => afterData[SummaryPath(cfg) := SummaryJson(s)]
  }

  /** The files the writer writes, by path. Directories are not modelled. */
  class Disk {
    var files: map<Path, FileContent>

    constructor ()
      ensures files == map[]
    {
      files := map[];
    }

    /** `_write_csv`: the header, then one line per row, until a row has a key outside the schema. */
    method WriteCsv(path: Path, rows: seq<Row>) returns (error: Option<WriteError>)
      modifies this
      ensures error == CsvError(rows)
      ensures files == old(files)[path := CsvText(CsvWritten(rows))]
    {
      var lines := [HeaderLine()];
      files := files[path := CsvText(lines)];
      for i := 0 to |rows|
        invariant i <= FirstUnwritable(rows)
        invariant lines == [HeaderLine()] + RowLines(rows[..i])
        invariant files == old(files)[path := CsvText(lines)]
      {
        var extra := ExtraKeys(rows[i]);
        if extra != {} {
          return Some(ExtraFields(extra));
        }
        assert RowLines(rows[..i + 1]) == RowLines(rows[..i]) + [RowLine(rows[i])];
        lines := lines + [RowLine(rows[i])];
        files := files[path := CsvText(lines)];
      }
      assert rows[..|rows|] == rows;
      error := None;
    }

    /** `_try_write_parquet`: parquet when that write succeeds, otherwise the rows as CSV beside it. */
    method TryWriteParquet(path: Path, rows: seq<Row>, parquetOk: bool) returns (dataPath: Path, error: Option<WriteError>)
      modifies this
      ensures parquetOk ==> dataPath == path && error == None
      ensures parquetOk ==> files == old(files)[path := ParquetTable(COLUMNS, rows)]
      ensures !parquetOk ==> dataPath == WithSuffix(path, ".csv") && error == CsvError(rows)
      ensures !parquetOk ==> files == old(files)[dataPath := CsvText(CsvWritten(rows))]
    {
      if parquetOk {
        files := files[path := ParquetTable(COLUMNS, rows)];
        return path, None;
      }
      dataPath := WithSuffix(path, ".csv");
      error := WriteCsv(dataPath, rows);
    }

    /** `_write_summary`: raises before writing when a row has no `source_format`. */
    method WriteSummary(path: Path, cfg: PipelineConfig, rows: seq<Row>, dataPath: Path) returns (error: Option<WriteError>)
      modifies this
      ensures Summary(cfg, rows, dataPath).Failure? ==>
        error == Some(Summary(cfg, rows, dataPath).error) && files == old(files)
      ensures Summary(cfg, rows, dataPath).Success? ==>
        error == None && files == old(files)[path := SummaryJson(Summary(cfg, rows, dataPath).value)]
    {
      var payload := Summary(cfg, rows, dataPath);
      if payload.Failure? {
        return Some(payload.error);
      }
      files := files[path := SummaryJson(payload.value)];
      error := None;
    }

    /** `write_outputs`: returns the data path and the summary path. */
    method WriteOutputs(cfg: PipelineConfig, rows: seq<Row>, parquetOk: bool) returns (r: Result<(Path, Path), WriteError>)
      modifies this
      ensures r == Outcome(cfg, rows, parquetOk)
      ensures files == Written(old(files), cfg, rows, parquetOk)
    {
      var base := BaseName(cfg);
      var desired := DesiredFormat(cfg);
      var summaryFile := SummaryPath(cfg);
      var dataPath: Path;
      var error: Option<WriteError>;
      if desired == "parquet" {
        var parquetPath := Path(cfg.processedDir, base + ".parquet");
        dataPath, error := TryWriteParquet(parquetPath, rows, parquetOk);
      } else {
        dataPath := Path(cfg.processedDir, base + ".csv");
        error := WriteCsv(dataPath, rows);
      }
      if error.Some? {
        return Failure(error.value);
      }
      error := WriteSummary(summaryFile, cfg, rows, dataPath);
      if error.Some? {
        return Failure(error.value);
      }
      r := Success((dataPath, summaryFile));
    }
  }

  /** The base name is never empty: it holds at least the separator. */
  lemma BaseNameNonEmpty(cfg: PipelineConfig)
    ensures |BaseName(cfg)| >= 1 && BaseName(cfg)[|cfg.outputBasename|] == '_'
  {
  }

  /** The parquet fallback is the `.csv` sibling, the very path the CSV branch writes. */
  lemma FallbackIsCsvPath(cfg: PipelineConfig)
    ensures WithSuffix(ParquetPath(cfg), ".csv") == CsvPath(cfg)
  {
    BaseNameNonEmpty(cfg);
    WithSuffixOfExtension(cfg.processedDir, BaseName(cfg), ".parquet", ".csv");
  }

  /**
   * The data file lies in the processed directory and is named after the base name: it is
   * the parquet file exactly when the desired format is "parquet" and the parquet write
   * succeeds, and the CSV file otherwise, whether CSV was asked for or the parquet write
   * failed.
   */
  lemma DataPathChoice(cfg: PipelineConfig, parquetOk: bool)
    ensures DataPath(cfg, parquetOk).dir == cfg.processedDir
    ensures WritesParquet(cfg, parquetOk) ==> DataPath(cfg, parquetOk) == ParquetPath(cfg)
    ensures !WritesParquet(cfg, parquetOk) ==> DataPath(cfg, parquetOk) == CsvPath(cfg)
    ensures DataPath(cfg, parquetOk) == ParquetPath(cfg) <==> WritesParquet(cfg, parquetOk)
  {
    FallbackIsCsvPath(cfg);
    var p, c := ParquetPath(cfg).name, CsvPath(cfg).name;
    assert p[|p| - 1] == 't' && c[|c| - 1] == 'v';
  }

  /** The summary never overwrites the data file: their names end differently. */
  lemma SummaryPathIsNotDataPath(cfg: PipelineConfig, parquetOk: bool)
    ensures SummaryPath(cfg) != DataPath(cfg, parquetOk)
  {
    DataPathChoice(cfg, parquetOk);
    var s, p, c := SummaryPath(cfg).name, ParquetPath(cfg).name, CsvPath(cfg).name;
    assert s[|s| - 1] == 'n' && p[|p| - 1] == 't' && c[|c| - 1] == 'v';
  }

  /** The parquet branch is taken for any spelling that lower-cases and trims to "parquet". */
  lemma DesiredFormatTrimsAndLowers(cfg: PipelineConfig)
    ensures DesiredFormat(cfg) == Text.Lower(Text.Strip(cfg.outputFormat))
    ensures Text.Trimmed(DesiredFormat(cfg))
  {
    Text.StripLowerCommute(cfg.outputFormat);
  }

  /** The format recorded for a file named `stem.csv` is "csv". */
  lemma CsvFormat(stem: string)
    requires stem != []
    ensures LStripDots(Suffix(stem + ".csv")) == "csv"
  {
    SuffixOfExtension(stem, ".csv");
    LStripOneDot(".csv");
    assert ".csv"[1..] == "csv";
  }

  /** The format recorded for a file named `stem.parquet` is "parquet". */
  lemma ParquetFormat(stem: string)
    requires stem != []
    ensures LStripDots(Suffix(stem + ".parquet")) == "parquet"
  {
    SuffixOfExtension(stem, ".parquet");
    LStripOneDot(".parquet");
    assert ".parquet"[1..] == "parquet";
  }

  /** The summary's `output.format` is the data file's suffix without its dot. */
  lemma OutputFormatIsSuffix(cfg: PipelineConfig, parquetOk: bool)
    ensures LStripDots(Suffix(DataPath(cfg, parquetOk).name)) == if WritesParquet(cfg, parquetOk) then "parquet" else "csv"
  {
    DataPathChoice(cfg, parquetOk);
    BaseNameNonEmpty(cfg);
    if WritesParquet(cfg, parquetOk) {
      ParquetFormat(BaseName(cfg));
    } else {
      CsvFormat(BaseName(cfg));
    }
  }

  /** Every row has a `source_format` exactly when the formats can be collected; they are then the rows' own, in order. */
  lemma SourceFormats(rows: seq<Row>)
    ensures Collect.MapResults(rows, SourceFormat).Success? <==>
      forall i | 0 <= i < |rows| :: Lookup(rows[i], "source_format").Some?
    ensures Collect.MapResults(rows, SourceFormat).Success? ==>
      var formats := Collect.MapResults(rows, SourceFormat).value;
      |formats| == |rows| && forall i | 0 <= i < |rows| :: Lookup(rows[i], "source_format") == Some(formats[i])
  {
    Collect.MapResultsSucceeds(rows, SourceFormat);
    assert forall i | 0 <= i < |rows| :: SourceFormat(rows[i]).Success? <==> Lookup(rows[i], "source_format").Some?;
  }

  /**
   * The summary exists exactly when every row has a `source_format`. It then records the
   * data path, the row count, the schema, and per format the number of rows with that
   * format, once per format in order of first appearance; those counts add up to the row
   * count.
   */
  lemma SummaryCounts(cfg: PipelineConfig, rows: seq<Row>, dataPath: Path)
    ensures Summary(cfg, rows, dataPath).Success? <==>
      forall i | 0 <= i < |rows| :: Lookup(rows[i], "source_format").Some?
    ensures Summary(cfg, rows, dataPath).Success? ==>
      var s := Summary(cfg, rows, dataPath).value;
      var formats := Collect.MapResults(rows, SourceFormat).value;
      && s.name == cfg.name && s.runId == cfg.runId
      && s.outputPath == dataPath && s.outputFormat == LStripDots(Suffix(dataPath.name))
      && s.rowCount == |rows| && s.columns == COLUMNS
      && |formats| == |rows|
      && (forall i | 0 <= i < |rows| :: Lookup(rows[i], "source_format") == Some(formats[i]))
      && (forall k | 0 <= k < |s.bySourceFormat| :: s.bySourceFormat[k].0 in formats)
      && (forall k | 0 <= k < |s.bySourceFormat| ::
            s.bySourceFormat[k].1 == Counter.Occurrences(formats, s.bySourceFormat[k].0))
      && (forall i | 0 <= i < |rows| :: Counter.Find(s.bySourceFormat, formats[i]) < |s.bySourceFormat|)
      && (forall k, l | 0 <= k < l < |s.bySourceFormat| :: s.bySourceFormat[k].0 != s.bySourceFormat[l].0)
      && (forall k, l | 0 <= k < l < |s.bySourceFormat| ::
            Counter.FirstIndex(formats, s.bySourceFormat[k].0) < Counter.FirstIndex(formats, s.bySourceFormat[l].0))
      && Counter.Total(s.bySourceFormat) == |rows|
  {
    SourceFormats(rows);
    var m := Collect.MapResults(rows, SourceFormat);
    if m.Success? {
      var formats := m.value;
      Counter.TallySpec(formats);
      assert forall i | 0 <= i < |formats| :: formats[i] in formats;
    }
  }

  /**
   * What `_write_csv` leaves: the header, equal to the schema, followed by one line per row in
   * input order up to the first row with a key outside the schema; it raises exactly when
   * there is such a row, and otherwise writes exactly one line per row.
   */
  lemma CsvShape(rows: seq<Row>)
    ensures var lines, k := CsvWritten(rows), FirstUnwritable(rows);
      && |lines| == 1 + k
      && |lines[0]| == |COLUMNS|
      && (forall j | 0 <= j < |COLUMNS| :: lines[0][j] == TextValue(COLUMNS[j]))
      && (forall i | 0 <= i < k :: lines[i + 1] == RowLine(rows[i]))
      && (CsvError(rows) == None <==> forall i | 0 <= i < |rows| :: ExtraKeys(rows[i]) == {})
      && (CsvError(rows) == None ==> |lines| == |rows| + 1)
  {
  }

  /** A row whose keys are exactly the schema is written whole: its values, in schema order. */
  lemma SchemaRowLine(row: Row)
    requires Keys(row) == COLUMNS && DistinctKeys(row)
    ensures ExtraKeys(row) == {}
    ensures |RowLine(row)| == |row| && forall j | 0 <= j < |row| :: RowLine(row)[j] == row[j].1
  {
    forall j | 0 <= j < |row| ensures RowLine(row)[j] == row[j].1 {
      LookupDistinct(row, COLUMNS[j]);
      assert Keys(row)[j] == row[j].0;
    }
    forall i | 0 <= i < |row| ensures row[i].0 in COLUMNS {
      assert Keys(row)[i] == row[i].0;
    }
  }

  /**
   * Rows with exactly the schema's keys, as the normalizer makes them, are written without
   * error on every branch: the data file is written in full, and the summary is written too.
   */
  lemma SchemaRowsSucceed(cfg: PipelineConfig, rows: seq<Row>, parquetOk: bool)
    requires forall i | 0 <= i < |rows| :: Keys(rows[i]) == COLUMNS && DistinctKeys(rows[i])
    ensures Outcome(cfg, rows, parquetOk) == Success((DataPath(cfg, parquetOk), SummaryPath(cfg)))
    ensures CsvWritten(rows) == [HeaderLine()] + RowLines(rows)
  {
    forall i | 0 <= i < |rows| ensures ExtraKeys(rows[i]) == {} && Lookup(rows[i], "source_format").Some? {
      SchemaRowLine(rows[i]);
      LookupDistinct(rows[i], "source_format");
    }
    CsvShape(rows);
    assert rows[..FirstUnwritable(rows)] == rows;
    SummaryCounts(cfg, rows, DataPath(cfg, parquetOk));
  }

  /** The normalizer's rows are always written in full, with their summary. */
  lemma NormalizedRowsSucceed(cfg: PipelineConfig, records: seq<Records.ObservationRecord>,
                              isoformat: Records.DateTime -> string, parquetOk: bool)
    ensures var rows := seq(|records|, i requires 0 <= i < |records| => ToRow(records[i], isoformat));
      && Outcome(cfg, rows, parquetOk) == Success((DataPath(cfg, parquetOk), SummaryPath(cfg)))
      && CsvWritten(rows) == [HeaderLine()] + RowLines(rows)
  {
    var rows := seq(|records|, i requires 0 <= i < |records| => ToRow(records[i], isoformat));
    forall i | 0 <= i < |rows| ensures Keys(rows[i]) == COLUMNS && DistinctKeys(rows[i]) {
      ToRowKeys(records[i], isoformat);
    }
    SchemaRowsSucceed(cfg, rows, parquetOk);
  }

  /** The summary of no rows counts nothing. */
  lemma SummaryOfNoRows(cfg: PipelineConfig, dataPath: Path)
    ensures Summary(cfg, [], dataPath) ==
      Success(RunSummary(cfg.name, cfg.runId, dataPath, LStripDots(Suffix(dataPath.name)), 0, [], COLUMNS))
  {
    assert Collect.MapResults([], SourceFormat) == Success([]);
  }

  /**
   * After `write_outputs` the data file holds what was written to it; when the call
   * returns, the summary file holds the summary, and when it raises, nothing but the data
   * file has changed.
   */
  lemma WrittenFiles(files: map<Path, FileContent>, cfg: PipelineConfig, rows: seq<Row>, parquetOk: bool)
    ensures var out, p := Written(files, cfg, rows, parquetOk), DataPath(cfg, parquetOk);
      && p in out && out[p] == DataContent(cfg, rows, parquetOk)
      && (Outcome(cfg, rows, parquetOk).Success? ==>
            && Summary(cfg, rows, p).Success?
            && SummaryPath(cfg) in out && out[SummaryPath(cfg)] == SummaryJson(Summary(cfg, rows, p).value)
            && out == files[p := DataContent(cfg, rows, parquetOk)][SummaryPath(cfg) := SummaryJson(Summary(cfg, rows, p).value)])
      && (Outcome(cfg, rows, parquetOk).Failure? ==> out == files[p := DataContent(cfg, rows, parquetOk)])
  {
    SummaryPathIsNotDataPath(cfg, parquetOk);
  }

  /** No rows make a CSV file of the header alone, and nothing to raise. */
  lemma CsvOfNoRows()
    ensures CsvWritten([]) == [HeaderLine()]
    ensures CsvError([]) == None
  {
    assert FirstUnwritable([]) == 0;
    assert RowLines([]) == [];
  }

  /** With no rows the summary records the data path with its format, no rows and no formats. */
  lemma EmptyRunSummary(cfg: PipelineConfig, parquetOk: bool)
    ensures Summary(cfg, [], DataPath(cfg, parquetOk)) == Success(RunSummary(
      cfg.name, cfg.runId, DataPath(cfg, parquetOk), (if WritesParquet(cfg, parquetOk) then "parquet" else "csv"),
      0, [], COLUMNS))
  {
    OutputFormatIsSuffix(cfg, parquetOk);
    SummaryOfNoRows(cfg, DataPath(cfg, parquetOk));
  }

  /** With no rows the run still returns and writes its summary, counting no rows; a CSV holds only the header. */
  lemma EmptyRunWritesSummary(cfg: PipelineConfig, parquetOk: bool)
    ensures Outcome(cfg, [], parquetOk) == Success((DataPath(cfg, parquetOk), SummaryPath(cfg)))
    ensures Summary(cfg, [], DataPath(cfg, parquetOk)) == Success(RunSummary(
      cfg.name, cfg.runId, DataPath(cfg, parquetOk), (if WritesParquet(cfg, parquetOk) then "parquet" else "csv"),
      0, [], COLUMNS))
    ensures !WritesParquet(cfg, parquetOk) ==> DataContent(cfg, [], parquetOk) == CsvText([HeaderLine()])
  {
    CsvOfNoRows();
    EmptyRunSummary(cfg, parquetOk);
    assert DataError(cfg, [], parquetOk) == None;
  }
}
