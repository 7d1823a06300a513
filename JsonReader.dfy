/**
 * The JSON reader: the decoded document must be a list, and every item becomes one
 * record carrying a `humidity` metric; any item that cannot be converted aborts the file.
 */
module JsonReader {
  import opened Wrappers
  import opened Records
  import Collect

  /** A value as `json.loads` returns it. */
  datatype Json =
    | JNull
    | JBool(b: bool)
    | JInt(i: int)
    | JFloat(x: real)
    | JString(s: string)
    | JArray(items: seq<Json>)
    | JObject(fields: map<string, Json>)

  /** `type(value).__name__` of a decoded value. */
  function TypeName(j: Json): string
  {
    match j
    case JNull => "NoneType"
    case JBool(_) => "bool"
    case JInt(_) => "int"
    case JFloat(_) => "float"
    case JString(_) => "str"
    case JArray(_) => "list"
    case JObject(_) => "dict"
  }

  /** The library conversions the reader applies to item values. */
  datatype JsonConversions = JsonConversions(
    toInt: Json -> Option<int>,     // int(): None where it raises
    toFloat: Json -> Option<real>,  // float(): None where it raises
    toStr: Json -> string,          // str(), which never raises
    fromIso: IsoParser)

  /** Every required key is present and converts. */
  predicate ItemConverts(item: Json, conv: JsonConversions)
  {
    && item.JObject?
    && "id" in item.fields && conv.toInt(item.fields["id"]).Some?
    && "timestamp" in item.fields
    && ParseTimestamp(conv.toStr(item.fields["timestamp"]), conv.fromIso).Some?
    && "site" in item.fields
    && "humidity" in item.fields && conv.toFloat(item.fields["humidity"]).Some?
  }

  /**
   * The record one list item becomes. Keys are read in the order `id`, `timestamp`,
   * `site`, `humidity`, so the error names the first key that is missing or does not convert.
   */
  function RecordOf(path: string, item: Json, conv: JsonConversions): Result<ObservationRecord, ReadError>
  {
    if !item.JObject? then Failure(NotAnObject)
    else
      var fields := item.fields;
      if "id" !in fields then Failure(MissingKey("id"))
      else if conv.toInt(fields["id"]).None? then Failure(BadValue("id"))
      else if "timestamp" !in fields then Failure(MissingKey("timestamp"))
      else
        match ParseTimestamp(conv.toStr(fields["timestamp"]), conv.fromIso)
        case None => Failure(BadValue("timestamp"))
        case Some(ts) =>
          if "site" !in fields then Failure(MissingKey("site"))
          else if "humidity" !in fields then Failure(MissingKey("humidity"))
          else if conv.toFloat(fields["humidity"]).None? then Failure(BadValue("humidity"))
          else
            Success(ObservationRecord(
              id := conv.toInt(fields["id"]).value,
              timestamp := ts,
              site := conv.toStr(fields["site"]),
              metrics := map["humidity" := conv.toFloat(fields["humidity"]).value],
              sourceFile := path,
              sourceFormat := "json"))
  }

  /**
   * An item becomes a record exactly when it is an object whose required keys are present
   * and convert; the record carries the converted values, the file's path and format
   * "json". `NotAnObject` is reported exactly for a non-object item, a missing key is one
   * the object lacks, and an item's failure is never the whole-file `NotAList`.
   */
  lemma RecordOfShape(path: string, item: Json, conv: JsonConversions)
    ensures var r := RecordOf(path, item, conv);
      && (r.Success? <==> ItemConverts(item, conv))
      && (r.Success? ==>
            && r.value.id == conv.toInt(item.fields["id"]).value
            && r.value.timestamp == ParseTimestamp(conv.toStr(item.fields["timestamp"]), conv.fromIso).value
            && r.value.site == conv.toStr(item.fields["site"])
            && r.value.metrics == map["humidity" := conv.toFloat(item.fields["humidity"]).value]
            && r.value.sourceFile == path
            && r.value.sourceFormat == "json")
      && (r.Failure? ==> (r.error == NotAnObject <==> !item.JObject?))
      && (r.Failure? && r.error.MissingKey? ==> item.JObject? && r.error.key !in item.fields)
      && (r.Failure? ==> !r.error.NotAList?)
  {
  }

  /**
   * When `str()` leaves a JSON string as it is, as Python's does, the record's site is the
   * item's site text unchanged.
   */
  lemma SiteIsJsonText(path: string, item: Json, conv: JsonConversions, s: string)
    requires item.JObject? && "site" in item.fields && item.fields["site"] == JString(s)
    requires conv.toStr(JString(s)) == s
    requires RecordOf(path, item, conv).Success?
    ensures RecordOf(path, item, conv).value.site == s
  {
    RecordOfShape(path, item, conv);
  }

  /** The per-item step of the reader for one file. */
  function ItemReader(path: string, conv: JsonConversions): Json -> Result<ObservationRecord, ReadError>
  {
    item => RecordOf(path, item, conv)
  }

  /** What reading one JSON file yields, given the value its text decodes to. */
  function JsonRecords(path: string, raw: Json, conv: JsonConversions): Result<seq<ObservationRecord>, ReadError>
  {
    if raw.JArray? then Collect.MapResults(raw.items, ItemReader(path, conv))
    else Failure(NotAList(path, TypeName(raw)))
  }

  /** `read_observations_json`, over the value `json.loads` returned for the file. */
  method ReadObservationsJson(path: string, raw: Json, conv: JsonConversions)
    returns (r: Result<seq<ObservationRecord>, ReadError>)
    ensures r == JsonRecords(path, raw, conv)
  {
    if !raw.JArray? {
      return Failure(NotAList(path, TypeName(raw)));
    }
    var items := raw.items;
    var records: seq<ObservationRecord> := [];
    for i := 0 to |items|
      invariant Collect.MapResults(items[..i], ItemReader(path, conv)) == Success(records)
    {
      var record := RecordOf(path, items[i], conv);
      if record.Failure? {
        Collect.MapResultsSucceeds(items[..i], ItemReader(path, conv));
        assert forall j | 0 <= j < i :: items[..i][j] == items[j];
        Collect.MapResultsStopsAt(items, ItemReader(path, conv), i);
        return Failure(record.error);
      }
      Collect.MapResultsExtend(items, ItemReader(path, conv), i, records);
      records := records + [record.value];
    }
    assert items[..|items|] == items;
    r := Success(records);
  }

  /** The shape of a JSON read: success iff the value is a list whose items all convert. */
  lemma JsonRecordsShape(path: string, raw: Json, conv: JsonConversions)
    ensures !raw.JArray? ==> JsonRecords(path, raw, conv) == Failure(NotAList(path, TypeName(raw)))
    ensures JsonRecords(path, raw, conv).Success? <==>
      raw.JArray? && forall i | 0 <= i < |raw.items| :: ItemConverts(raw.items[i], conv)
    ensures JsonRecords(path, raw, conv).Success? ==>
      && |JsonRecords(path, raw, conv).value| == |raw.items|
      && forall i | 0 <= i < |raw.items| ::
           JsonRecords(path, raw, conv).value[i] == RecordOf(path, raw.items[i], conv).value
    ensures raw.JArray? && JsonRecords(path, raw, conv).Failure? ==> exists k | 0 <= k < |raw.items| ::
      && RecordOf(path, raw.items[k], conv) == Failure(JsonRecords(path, raw, conv).error)
      && forall j | 0 <= j < k :: ItemConverts(raw.items[j], conv)
  {
    if raw.JArray? {
      var f := ItemReader(path, conv);
      forall i | 0 <= i < |raw.items| ensures f(raw.items[i]).Success? <==> ItemConverts(raw.items[i], conv) {
        RecordOfShape(path, raw.items[i], conv);
      }
      Collect.MapResultsSucceeds(raw.items, f);
      if JsonRecords(path, raw, conv).Failure? {
        Collect.MapResultsFailure(raw.items, f);
      }
    }
  }

  /** Every record of a successful JSON read has format "json", the file's path and only `humidity`. */
  lemma JsonRecordsProvenance(path: string, raw: Json, conv: JsonConversions)
    requires JsonRecords(path, raw, conv).Success?
    ensures forall rec | rec in JsonRecords(path, raw, conv).value ::
      rec.sourceFormat == "json" && rec.sourceFile == path && rec.metrics.Keys == {"humidity"}
  {
    JsonRecordsShape(path, raw, conv);
    var recs := JsonRecords(path, raw, conv).value;
    forall rec | rec in recs
      ensures rec.sourceFormat == "json" && rec.sourceFile == path && rec.metrics.Keys == {"humidity"}
    {
      var i :| 0 <= i < |recs| && recs[i] == rec;
      RecordOfShape(path, raw.items[i], conv);
    }
  }
}
