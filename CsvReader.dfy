/**
 * The CSV reader: every data row that `csv.DictReader` yields becomes one record
 * carrying a `temp_c` metric; any row that cannot be converted aborts the file.
 */
module CsvReader {
  import opened Wrappers
  import opened Records
  import Collect

  /**
   * A data row keyed by the header's column names. A cell is `None` when the row is
   * shorter than the header, as `DictReader` fills missing cells with `None`.
   */
  type CsvRow = map<string, Option<string>>

  /** The library conversions the reader applies to cell text. */
  datatype CsvConversions = CsvConversions(
    toInt: string -> Option<int>,     // int(): None where it raises
    toFloat: string -> Option<real>,  // float(): None where it raises
    fromIso: IsoParser)

  /** `str()` of a cell: a short row's missing cell reads as "None". */
  function CellText(c: Option<string>): string
  {
    match c
    case Some(s) => s
    case None => "None"
  }

  /** Every required cell is present and converts. */
  predicate RowConverts(row: CsvRow, conv: CsvConversions)
  {
    && "id" in row && row["id"].Some? && conv.toInt(row["id"].value).Some?
    && "timestamp" in row && row["timestamp"].Some?
    && ParseTimestamp(row["timestamp"].value, conv.fromIso).Some?
    && "site" in row
    && "temp_c" in row && row["temp_c"].Some? && conv.toFloat(row["temp_c"].value).Some?
  }

  /**
   * The record one row becomes. Fields are read in the order `id`, `timestamp`, `site`,
   * `temp_c`, so the error names the first field that is missing or does not convert.
   */
  function RecordOf(path: string, row: CsvRow, conv: CsvConversions): Result<ObservationRecord, ReadError>
  {
    if "id" !in row then Failure(MissingKey("id"))
    else if row["id"].None? || conv.toInt(row["id"].value).None? then Failure(BadValue("id"))
    else if "timestamp" !in row then Failure(MissingKey("timestamp"))
    else if row["timestamp"].None? then Failure(BadValue("timestamp"))
    else
      match ParseTimestamp(row["timestamp"].value, conv.fromIso)
      case None => Failure(BadValue("timestamp"))
      case Some(ts) =>
        if "site" !in row then Failure(MissingKey("site"))
        else if "temp_c" !in row then Failure(MissingKey("temp_c"))
        else if row["temp_c"].None? || conv.toFloat(row["temp_c"].value).None? then Failure(BadValue("temp_c"))
        else
          Success(ObservationRecord(
            id := conv.toInt(row["id"].value).value,
            timestamp := ts,
            site := CellText(row["site"]),
            metrics := map["temp_c" := conv.toFloat(row["temp_c"].value).value],
            sourceFile := path,
            sourceFormat := "csv"))
  }

  /**
   * A row becomes a record exactly when every required cell is present and converts; the
   * record carries the converted cells, the file's path and format "csv". A failure names
   * one of the four fields the reader reads, and a missing key is one the row lacks.
   */
  lemma RecordOfShape(path: string, row: CsvRow, conv: CsvConversions)
    ensures var r := RecordOf(path, row, conv);
      && (r.Success? <==> RowConverts(row, conv))
      && (r.Success? ==>
            && r.value.id == conv.toInt(row["id"].value).value
            && r.value.timestamp == ParseTimestamp(row["timestamp"].value, conv.fromIso).value
            && r.value.site == CellText(row["site"])
            && r.value.metrics == map["temp_c" := conv.toFloat(row["temp_c"].value).value]
            && r.value.sourceFile == path
            && r.value.sourceFormat == "csv")
      && (r.Failure? ==>
            (r.error.MissingKey? || r.error.BadValue?) && r.error.key in {"id", "timestamp", "site", "temp_c"})
      && (r.Failure? && r.error.MissingKey? ==> r.error.key !in row)
  {
  }

  /** The per-row step of the reader for one file. */
  function RowReader(path: string, conv: CsvConversions): CsvRow -> Result<ObservationRecord, ReadError>
  {
    row => RecordOf(path, row, conv)
  }

  /** What reading one CSV file yields: its rows' records in order, or the first row's error. */
  function CsvRecords(path: string, rows: seq<CsvRow>, conv: CsvConversions): Result<seq<ObservationRecord>, ReadError>
  {
    Collect.MapResults(rows, RowReader(path, conv))
  }

  /** `read_observations_csv`, over the rows the file's `DictReader` yields. */
  method ReadObservationsCsv(path: string, rows: seq<CsvRow>, conv: CsvConversions)
    returns (r: Result<seq<ObservationRecord>, ReadError>)
    ensures r == CsvRecords(path, rows, conv)
  {
    var records: seq<ObservationRecord> := [];
    for i := 0 to |rows|
      invariant Collect.MapResults(rows[..i], RowReader(path, conv)) == Success(records)
    {
      var record := RecordOf(path, rows[i], conv);
      if record.Failure? {
        Collect.MapResultsSucceeds(rows[..i], RowReader(path, conv));
        assert forall j | 0 <= j < i :: rows[..i][j] == rows[j];
        Collect.MapResultsStopsAt(rows, RowReader(path, conv), i);
        return Failure(record.error);
      }
      Collect.MapResultsExtend(rows, RowReader(path, conv), i, records);
      records := records + [record.value];
    }
    assert rows[..|rows|] == rows;
    r := Success(records);
  }

  /** The shape of a CSV read: success iff every row converts; one record per row, in order. */
  lemma CsvRecordsShape(path: string, rows: seq<CsvRow>, conv: CsvConversions)
    ensures CsvRecords(path, rows, conv).Success? <==> forall i | 0 <= i < |rows| :: RowConverts(rows[i], conv)
    ensures CsvRecords(path, rows, conv).Success? ==>
      forall i | 0 <= i < |rows| :: CsvRecords(path, rows, conv).value[i] == RecordOf(path, rows[i], conv).value
    ensures CsvRecords(path, rows, conv).Failure? ==> exists k | 0 <= k < |rows| ::
      && RecordOf(path, rows[k], conv) == Failure(CsvRecords(path, rows, conv).error)
      && forall j | 0 <= j < k :: RowConverts(rows[j], conv)
  {
    var f := RowReader(path, conv);
    forall i | 0 <= i < |rows| ensures f(rows[i]).Success? <==> RowConverts(rows[i], conv) {
      RecordOfShape(path, rows[i], conv);
    }
    Collect.MapResultsSucceeds(rows, f);
    if CsvRecords(path, rows, conv).Failure? {
      Collect.MapResultsFailure(rows, f);
    }
  }

  /** Every record of a successful CSV read has format "csv", the file's path and only `temp_c`. */
  lemma CsvRecordsProvenance(path: string, rows: seq<CsvRow>, conv: CsvConversions)
    requires CsvRecords(path, rows, conv).Success?
    ensures forall rec | rec in CsvRecords(path, rows, conv).value ::
      rec.sourceFormat == "csv" && rec.sourceFile == path && rec.metrics.Keys == {"temp_c"}
  {
    CsvRecordsShape(path, rows, conv);
    var recs := CsvRecords(path, rows, conv).value;
    forall rec | rec in recs
      ensures rec.sourceFormat == "csv" && rec.sourceFile == path && rec.metrics.Keys == {"temp_c"}
    {
      var i :| 0 <= i < |recs| && recs[i] == rec;
      RecordOfShape(path, rows[i], conv);
    }
  }
}
