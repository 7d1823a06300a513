/**
 * The ingest coordinator: every configured CSV file in order, then every configured
 * JSON file in order, each file's records appended as they are read. The first reader
 * failure aborts the whole ingest.
 */
module Ingest {
  import opened Wrappers
  import opened Records
  import opened Config
  import Collect
  import CsvReader
  import JsonReader

  /** The files' contents as the readers see them: `DictReader` rows and decoded JSON values. */
  datatype Sources = Sources(
    csvRows: string -> seq<CsvReader.CsvRow>,
    jsonValue: string -> JsonReader.Json,
    csvConv: CsvReader.CsvConversions,
    jsonConv: JsonReader.JsonConversions)

  /** Reading one configured CSV file. */
  function CsvFile(src: Sources): string -> Result<seq<ObservationRecord>, ReadError>
  {
    p => CsvReader.CsvRecords(p, src.csvRows(p), src.csvConv)
  }

  /** Reading one configured JSON file. */
  function JsonFile(src: Sources): string -> Result<seq<ObservationRecord>, ReadError>
  {
    p => JsonReader.JsonRecords(p, src.jsonValue(p), src.jsonConv)
  }

  /** What `ingest_all` returns: all CSV records, then all JSON records, or the first error. */
  function Ingested(cfg: PipelineConfig, src: Sources): Result<seq<ObservationRecord>, ReadError>
  {
    match Collect.ConcatResults(cfg.csvFiles, CsvFile(src))
    case Failure(e) => Failure(e)
    case Success(fromCsv) =>
      match Collect.ConcatResults(cfg.jsonFiles, JsonFile(src))
      case Failure(e) => Failure(e)
      case Success(fromJson) => Success(fromCsv + fromJson)
  }

  /** `ingest_all`: reads the CSV files, then the JSON files, extending one record list. */
  method IngestAll(cfg: PipelineConfig, src: Sources) returns (r: Result<seq<ObservationRecord>, ReadError>)
    ensures r == Ingested(cfg, src)
  {
    var fromCsv := ReadCsvFiles(cfg.csvFiles, src);
    if fromCsv.Failure? {
      return Failure(fromCsv.error);
    }
    var fromJson := ReadJsonFiles(cfg.jsonFiles, src);
    if fromJson.Failure? {
      return Failure(fromJson.error);
    }
    r := Success(fromCsv.value + fromJson.value);
  }

  /** The first loop of `ingest_all`: extends an empty list with each CSV file's records in order. */
  method ReadCsvFiles(paths: seq<string>, src: Sources) returns (r: Result<seq<ObservationRecord>, ReadError>)
    ensures r == Collect.ConcatResults(paths, CsvFile(src))
  {
    var records: seq<ObservationRecord> := [];
    ghost var parts: seq<seq<ObservationRecord>> := [];
    for i := 0 to |paths|
      invariant Collect.MapResults(paths[..i], CsvFile(src)) == Success(parts)
      invariant records == Collect.Flatten(parts)
    {
      var p := paths[i];
      var fileRecords := CsvReader.ReadObservationsCsv(p, src.csvRows(p), src.csvConv);
      assert fileRecords == CsvFile(src)(p);
      if fileRecords.Failure? {
        StopAt(paths, CsvFile(src), i);
        return Failure(fileRecords.error);
      }
      Collect.MapResultsExtend(paths, CsvFile(src), i, parts);
      Collect.FlattenSnoc(parts, fileRecords.value);
      parts := parts + [fileRecords.value];
      records := records + fileRecords.value;
    }
    assert paths[..|paths|] == paths;
    r := Success(records);
  }

  /** The second loop of `ingest_all`: the records of each JSON file, in order. */
  method ReadJsonFiles(paths: seq<string>, src: Sources) returns (r: Result<seq<ObservationRecord>, ReadError>)
    ensures r == Collect.ConcatResults(paths, JsonFile(src))
  {
    var records: seq<ObservationRecord> := [];
    ghost var parts: seq<seq<ObservationRecord>> := [];
    for i := 0 to |paths|
      invariant Collect.MapResults(paths[..i], JsonFile(src)) == Success(parts)
      invariant records == Collect.Flatten(parts)
    {
      var p := paths[i];
      var fileRecords := JsonReader.ReadObservationsJson(p, src.jsonValue(p), src.jsonConv);
      assert fileRecords == JsonFile(src)(p);
      if fileRecords.Failure? {
        StopAt(paths, JsonFile(src), i);
        return Failure(fileRecords.error);
      }
      Collect.MapResultsExtend(paths, JsonFile(src), i, parts);
      Collect.FlattenSnoc(parts, fileRecords.value);
      parts := parts + [fileRecords.value];
      records := records + fileRecords.value;
    }
    assert paths[..|paths|] == paths;
    r := Success(records);
  }

  /** A file that fails after a successful prefix fails the whole list with its error. */
  lemma StopAt(paths: seq<string>, read: string -> Result<seq<ObservationRecord>, ReadError>, i: nat)
    requires i < |paths| && read(paths[i]).Failure?
    requires Collect.MapResults(paths[..i], read).Success?
    ensures Collect.ConcatResults(paths, read) == Failure(read(paths[i]).error)
  {
    Collect.MapResultsSucceeds(paths[..i], read);
    assert forall j | 0 <= j < i :: paths[..i][j] == paths[j];
    Collect.MapResultsStopsAt(paths, read, i);
  }

  /** With no files configured, ingest succeeds with no records. */
  lemma IngestNoFiles(cfg: PipelineConfig, src: Sources)
    requires cfg.csvFiles == [] && cfg.jsonFiles == []
    ensures Ingested(cfg, src) == Success([])
  {
    assert Collect.ConcatResults(cfg.csvFiles, CsvFile(src)) == Success([]);
    assert Collect.ConcatResults(cfg.jsonFiles, JsonFile(src)) == Success([]);
    var none: seq<ObservationRecord> := [];
    assert none + none == none;
  }

  /** Ingest succeeds exactly when every configured file reads successfully. */
  lemma IngestSucceedsIff(cfg: PipelineConfig, src: Sources)
    ensures Ingested(cfg, src).Success? <==>
      && (forall i | 0 <= i < |cfg.csvFiles| :: CsvFile(src)(cfg.csvFiles[i]).Success?)
      && (forall i | 0 <= i < |cfg.jsonFiles| :: JsonFile(src)(cfg.jsonFiles[i]).Success?)
  {
    Collect.MapResultsSucceeds(cfg.csvFiles, CsvFile(src));
    Collect.MapResultsSucceeds(cfg.jsonFiles, JsonFile(src));
  }

  /**
   * A failed ingest reports the first failing file: a CSV file whose predecessors all read,
   * or, with every CSV file read, a JSON file whose predecessors all read.
   */
  lemma IngestFailureIsFirst(cfg: PipelineConfig, src: Sources)
    requires Ingested(cfg, src).Failure?
    ensures
      || (exists k | 0 <= k < |cfg.csvFiles| ::
            && CsvFile(src)(cfg.csvFiles[k]) == Failure(Ingested(cfg, src).error)
            && forall j | 0 <= j < k :: CsvFile(src)(cfg.csvFiles[j]).Success?)
      || (&& (forall i | 0 <= i < |cfg.csvFiles| :: CsvFile(src)(cfg.csvFiles[i]).Success?)
          && exists k | 0 <= k < |cfg.jsonFiles| ::
               && JsonFile(src)(cfg.jsonFiles[k]) == Failure(Ingested(cfg, src).error)
               && forall j | 0 <= j < k :: JsonFile(src)(cfg.jsonFiles[j]).Success?)
  {
    var csv := Collect.MapResults(cfg.csvFiles, CsvFile(src));
    if csv.Failure? {
      Collect.MapResultsFailure(cfg.csvFiles, CsvFile(src));
    } else {
      Collect.MapResultsSucceeds(cfg.csvFiles, CsvFile(src));
      Collect.MapResultsFailure(cfg.jsonFiles, JsonFile(src));
    }
  }

  /**
   * A successful ingest is the concatenation of the per-file results, CSV files first,
   * each in configured order; its length is the sum of the files' record counts.
   */
  lemma IngestConcatenation(cfg: PipelineConfig, src: Sources)
    requires Ingested(cfg, src).Success?
    ensures var csvParts := Collect.MapResults(cfg.csvFiles, CsvFile(src));
      var jsonParts := Collect.MapResults(cfg.jsonFiles, JsonFile(src));
      && csvParts.Success? && jsonParts.Success?
      && (forall i | 0 <= i < |cfg.csvFiles| ::
            CsvFile(src)(cfg.csvFiles[i]).Success? && csvParts.value[i] == CsvFile(src)(cfg.csvFiles[i]).value)
      && (forall i | 0 <= i < |cfg.jsonFiles| ::
            JsonFile(src)(cfg.jsonFiles[i]).Success? && jsonParts.value[i] == JsonFile(src)(cfg.jsonFiles[i]).value)
      && Ingested(cfg, src).value == Collect.Flatten(csvParts.value) + Collect.Flatten(jsonParts.value)
      && |Ingested(cfg, src).value| == Collect.TotalLength(csvParts.value) + Collect.TotalLength(jsonParts.value)
  {
    var csvParts := Collect.MapResults(cfg.csvFiles, CsvFile(src));
    var jsonParts := Collect.MapResults(cfg.jsonFiles, JsonFile(src));
    Collect.MapResultsSucceeds(cfg.csvFiles, CsvFile(src));
    Collect.MapResultsSucceeds(cfg.jsonFiles, JsonFile(src));
    Collect.FlattenLength(csvParts.value);
    Collect.FlattenLength(jsonParts.value);
  }

  /** Every record read from the configured CSV files has format "csv". */
  lemma FromCsvIsCsv(cfg: PipelineConfig, src: Sources)
    requires Collect.MapResults(cfg.csvFiles, CsvFile(src)).Success?
    ensures forall x | x in Collect.Flatten(Collect.MapResults(cfg.csvFiles, CsvFile(src)).value) ::
      x.sourceFormat == "csv"
  {
    var parts := Collect.MapResults(cfg.csvFiles, CsvFile(src)).value;
    Collect.MapResultsSucceeds(cfg.csvFiles, CsvFile(src));
    forall x: ObservationRecord | x in Collect.Flatten(parts) ensures x.sourceFormat == "csv" {
      Collect.FlattenMember(parts, x);
      var k :| 0 <= k < |parts| && x in parts[k];
      var p := cfg.csvFiles[k];
      CsvReader.CsvRecordsProvenance(p, src.csvRows(p), src.csvConv);
    }
  }

  /** Every record read from the configured JSON files has format "json". */
  lemma FromJsonIsJson(cfg: PipelineConfig, src: Sources)
    requires Collect.MapResults(cfg.jsonFiles, JsonFile(src)).Success?
    ensures forall x | x in Collect.Flatten(Collect.MapResults(cfg.jsonFiles, JsonFile(src)).value) ::
      x.sourceFormat == "json"
  {
    var parts := Collect.MapResults(cfg.jsonFiles, JsonFile(src)).value;
    Collect.MapResultsSucceeds(cfg.jsonFiles, JsonFile(src));
    forall x: ObservationRecord | x in Collect.Flatten(parts) ensures x.sourceFormat == "json" {
      Collect.FlattenMember(parts, x);
      var k :| 0 <= k < |parts| && x in parts[k];
      var p := cfg.jsonFiles[k];
      JsonReader.JsonRecordsProvenance(p, src.jsonValue(p), src.jsonConv);
    }
  }

  /** Every ingested record has format "csv" or "json", and every CSV record precedes every JSON record. */
  lemma IngestCsvBeforeJson(cfg: PipelineConfig, src: Sources)
    requires Ingested(cfg, src).Success?
    ensures var recs := Ingested(cfg, src).value;
      && (forall i | 0 <= i < |recs| :: recs[i].sourceFormat in {"csv", "json"})
      && forall i, j | 0 <= i < j < |recs| :: !(recs[i].sourceFormat == "json" && recs[j].sourceFormat == "csv")
  {
    var a := Collect.Flatten(Collect.MapResults(cfg.csvFiles, CsvFile(src)).value);
    var b := Collect.Flatten(Collect.MapResults(cfg.jsonFiles, JsonFile(src)).value);
    FromCsvIsCsv(cfg, src);
    FromJsonIsJson(cfg, src);
    var recs := Ingested(cfg, src).value;
    assert recs == a + b;
    forall i | 0 <= i < |recs| ensures (i < |a| && recs[i].sourceFormat == "csv") || (i >= |a| && recs[i].sourceFormat == "json")
    {
      if i < |a| { assert recs[i] == a[i]; assert a[i] in a; } else { assert recs[i] == b[i - |a|]; assert b[i - |a|] in b; }
    }
  }
}
