/**
 * The normalizer: every record becomes one flat row over the fixed output schema, in
 * input order; a metric the record does not carry is an explicit `None`.
 */
module Normalize {
  import opened Wrappers
  import opened Records

  /** The output schema, in column order. */
  const COLUMNS: seq<string> :=
    ["id", "timestamp", "site", "temp_c", "humidity", "source_file", "source_format"]

  /** A cell value of a row. */
  datatype Value =
    | IntValue(i: int)
    | TextValue(s: string)
    | RealValue(x: real)
    | NoneValue

  /** A row as an insertion-ordered dictionary: its keys in order, each with its value. */
  type Row = seq<(string, Value)>

  /** The row's keys in insertion order, as `list(row.keys())`. */
  function Keys(row: Row): seq<string>
  {
    seq(|row|, i requires 0 <= i < |row| => row[i].0)
  }

  /** `row.get(key)`: the value of the first entry with that key. */
  function Lookup(row: Row, key: string): Option<Value>
  {
    if row == [] then None
    else if row[0].0 == key then Some(row[0].1)
    else Lookup(row[1..], key)
  }

  /** No key occurs twice. */
  predicate DistinctKeys(row: Row)
  {
    forall i, j | 0 <= i < j < |row| :: row[i].0 != row[j].0
  }

  /** `metrics.get(key)`: the metric's value, or `None` when the record lacks it. */
  function Metric(metrics: map<string, real>, key: string): Value
  {
    if key in metrics then RealValue(metrics[key]) else NoneValue
  }

  /** The row one record becomes; `isoformat` renders the timestamp. */
  function ToRow(r: ObservationRecord, isoformat: DateTime -> string): Row
  {
    [ ("id", IntValue(r.id)),
      ("timestamp", TextValue(isoformat(r.timestamp))),
      ("site", TextValue(r.site)),
      ("temp_c", Metric(r.metrics, "temp_c")),
      ("humidity", Metric(r.metrics, "humidity")),
      ("source_file", TextValue(r.sourceFile)),
      ("source_format", TextValue(r.sourceFormat)) ]
  }

  /** `normalize_records`. */
  method NormalizeRecords(records: seq<ObservationRecord>, isoformat: DateTime -> string) returns (rows: seq<Row>)
    ensures |rows| == |records|
    ensures forall i | 0 <= i < |records| :: rows[i] == ToRow(records[i], isoformat)
  {
    rows := [];
    for i := 0 to |records|
      invariant |rows| == i
      invariant forall j | 0 <= j < i :: rows[j] == ToRow(records[j], isoformat)
    {
      rows := rows + [ToRow(records[i], isoformat)];
    }
  }

  /** The schema has seven distinct names. */
  lemma ColumnsDistinct()
    ensures |COLUMNS| == 7
    ensures forall i, j | 0 <= i < j < |COLUMNS| :: COLUMNS[i] != COLUMNS[j]
  {
  }

  /** In a row without repeated keys, `get` finds each entry's own value and nothing for other keys. */
  lemma {:induction false} LookupDistinct(row: Row, key: string)
    requires DistinctKeys(row)
    ensures Lookup(row, key).Some? <==> key in Keys(row)
    ensures forall i | 0 <= i < |row| && row[i].0 == key :: Lookup(row, key) == Some(row[i].1)
  {
    if row != [] {
      assert DistinctKeys(row[1..]) by {
        forall i, j | 0 <= i < j < |row| - 1 ensures row[1..][i].0 != row[1..][j].0 {
          assert row[1..][i] == row[i + 1] && row[1..][j] == row[j + 1];
        }
      }
      LookupDistinct(row[1..], key);
      assert Keys(row) == [row[0].0] + Keys(row[1..]);
      forall i | 1 <= i < |row| && row[i].0 == key ensures Lookup(row, key) == Some(row[i].1) {
        assert row[1..][i - 1] == row[i];
      }
    }
  }

  /** A normalized row has exactly the schema's keys, in schema order, each once. */
  lemma ToRowKeys(r: ObservationRecord, isoformat: DateTime -> string)
    ensures Keys(ToRow(r, isoformat)) == COLUMNS
    ensures DistinctKeys(ToRow(r, isoformat))
  {
    var row := ToRow(r, isoformat);
    assert Keys(row) == COLUMNS;
    ColumnsDistinct();
  }

  /**
   * A normalized row has exactly the schema's keys in schema order; `id`, `site`,
   * `source_file` and `source_format` are the record's own, the timestamp is rendered, and
   * each metric column holds the metric's value when the record carries it and `None`
   * otherwise.
   */
  lemma ToRowShape(r: ObservationRecord, isoformat: DateTime -> string)
    ensures var row := ToRow(r, isoformat);
      && Keys(row) == COLUMNS
      && DistinctKeys(row)
      && Lookup(row, "id") == Some(IntValue(r.id))
      && Lookup(row, "timestamp") == Some(TextValue(isoformat(r.timestamp)))
      && Lookup(row, "site") == Some(TextValue(r.site))
      && Lookup(row, "temp_c") == Some(if "temp_c" in r.metrics then RealValue(r.metrics["temp_c"]) else NoneValue)
      && Lookup(row, "humidity") == Some(if "humidity" in r.metrics then RealValue(r.metrics["humidity"]) else NoneValue)
      && Lookup(row, "source_file") == Some(TextValue(r.sourceFile))
      && Lookup(row, "source_format") == Some(TextValue(r.sourceFormat))
      && forall key | key !in COLUMNS :: Lookup(row, key) == None
  {
    var row := ToRow(r, isoformat);
    ToRowKeys(r, isoformat);
    forall key | key !in COLUMNS ensures Lookup(row, key) == None {
      LookupDistinct(row, key);
    }
    LookupDistinct(row, "id");
    LookupDistinct(row, "timestamp");
    LookupDistinct(row, "site");
    LookupDistinct(row, "temp_c");
    LookupDistinct(row, "humidity");
    LookupDistinct(row, "source_file");
    LookupDistinct(row, "source_format");
    assert row[0].0 == "id" && row[1].0 == "timestamp" && row[2].0 == "site" && row[3].0 == "temp_c";
    assert row[4].0 == "humidity" && row[5].0 == "source_file" && row[6].0 == "source_format";
  }

  /**
   * A record that carries exactly one of the two metrics, as every record a reader makes
   * does (CSV records `temp_c`, JSON records `humidity`), gets that metric's value and an
   * explicit `None` for the other.
   */
  lemma SingleMetricRow(r: ObservationRecord, isoformat: DateTime -> string, key: string, other: string)
    requires (key, other) == ("temp_c", "humidity") || (key, other) == ("humidity", "temp_c")
    requires r.metrics.Keys == {key}
    ensures Lookup(ToRow(r, isoformat), key) == Some(RealValue(r.metrics[key]))
    ensures Lookup(ToRow(r, isoformat), other) == Some(NoneValue)
  {
    ToRowShape(r, isoformat);
    assert other !in r.metrics;
  }
}
