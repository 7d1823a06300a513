/**
 * The validator: every record is checked against the id rule, the site rule and the
 * metric rule of its source format; records without issues are kept, in order, and the
 * issues of the others are collected, in order.
 */
module Validator {
  import opened Records
  import opened Config
  import Collect
  import Screening

  /**
   * An issue's message. The fixed messages are their exact text; the two formatted ones
   * keep what is formatted into them, since their rendering depends on Python's `repr`.
   */
  datatype Message =
    | Text(text: string)
    | OneOf(allowed: seq<string>)        // "must be one of {allowed_sites}"
    | Between(min: real, max: real)      // "must be between {min_v} and {max_v}"

  /** One rule violation of one record. */
  datatype ValidationIssue = ValidationIssue(
    recordId: int,
    sourceFile: string,
    sourceFormat: string,
    field: string,
    message: Message)

  /** `_issue`: an issue about `field` of record `r`. */
  function Issue(r: ObservationRecord, field: string, message: Message): ValidationIssue
  {
    ValidationIssue(r.id, r.sourceFile, r.sourceFormat, field, message)
  }

  /** `_check_range`: the metric `key` must be present and lie within `[minV, maxV]`. */
  function CheckRange(r: ObservationRecord, key: string, minV: real, maxV: real): seq<ValidationIssue>
  {
    if key !in r.metrics then [Issue(r, "metrics." + key, Text("is required"))]
    else if !(minV <= r.metrics[key] <= maxV) then [Issue(r, "metrics." + key, Between(minV, maxV))]
    else []
  }

  /** The id rule. */
  function IdIssues(r: ObservationRecord): seq<ValidationIssue>
  {
    if r.id <= 0 then [Issue(r, "id", Text("must be > 0"))] else []
  }

  /** The site rule: an empty site, or else a site outside the allow-list. */
  function SiteIssues(r: ObservationRecord, allowed: seq<string>): seq<ValidationIssue>
  {
    if r.site == "" then [Issue(r, "site", Text("must be non-empty"))]
    else if r.site !in allowed then [Issue(r, "site", OneOf(allowed))]
    else []
  }

  /** The metric rule, dispatched on the record's source format. */
  function MetricIssues(cfg: PipelineConfig, r: ObservationRecord): seq<ValidationIssue>
  {
    if r.sourceFormat == "csv" then CheckRange(r, "temp_c", cfg.tempCMin, cfg.tempCMax)
    else if r.sourceFormat == "json" then CheckRange(r, "humidity", cfg.humidityMin, cfg.humidityMax)
    else [Issue(r, "source_format", Text("unknown source_format"))]
  }

  /** The issues of one record: every rule runs, in the order id, site, metric. */
  function RecordIssues(cfg: PipelineConfig, r: ObservationRecord): seq<ValidationIssue>
  {
    IdIssues(r) + SiteIssues(r, cfg.allowedSites) + MetricIssues(cfg, r)
  }

  /** The validator's check of one record, as a function value. */
  function Checker(cfg: PipelineConfig): ObservationRecord -> seq<ValidationIssue>
  {
    r => RecordIssues(cfg, r)
  }

  /** The records kept by the validator: the issue-free ones, in input order. */
  function Accepted(cfg: PipelineConfig, records: seq<ObservationRecord>): seq<ObservationRecord>
  {
    Screening.Passing(records, Checker(cfg))
  }

  /** The issues reported by the validator: every record's issues, in input order. */
  function AllIssues(cfg: PipelineConfig, records: seq<ObservationRecord>): seq<ValidationIssue>
  {
    Screening.Findings(records, Checker(cfg))
  }

  /** How many records have at least one issue. */
  function RejectedCount(cfg: PipelineConfig, records: seq<ObservationRecord>): nat
  {
    Screening.FailingCount(records, Checker(cfg))
  }

  /** `validate_records`. */
  method ValidateRecords(cfg: PipelineConfig, records: seq<ObservationRecord>)
    returns (valid: seq<ObservationRecord>, issues: seq<ValidationIssue>)
    ensures valid == Accepted(cfg, records)
    ensures issues == AllIssues(cfg, records)
  {
    valid := [];
    issues := [];
    for i := 0 to |records|
      invariant valid == Accepted(cfg, records[..i])
      invariant issues == AllIssues(cfg, records[..i])
    {
      var r := records[i];
      var recordIssues: seq<ValidationIssue> := [];

      if r.id <= 0 {
        recordIssues := recordIssues + [Issue(r, "id", Text("must be > 0"))];
      }
      assert recordIssues == IdIssues(r);

      if r.site == "" {
        recordIssues := recordIssues + [Issue(r, "site", Text("must be non-empty"))];
      } else if r.site !in cfg.allowedSites {
        recordIssues := recordIssues + [Issue(r, "site", OneOf(cfg.allowedSites))];
      }
      assert recordIssues == IdIssues(r) + SiteIssues(r, cfg.allowedSites);

      if r.sourceFormat == "csv" {
        recordIssues := recordIssues + CheckRange(r, "temp_c", cfg.tempCMin, cfg.tempCMax);
      } else if r.sourceFormat == "json" {
        recordIssues := recordIssues + CheckRange(r, "humidity", cfg.humidityMin, cfg.humidityMax);
      } else {
        recordIssues := recordIssues + [Issue(r, "source_format", Text("unknown source_format"))];
      }
      assert recordIssues == RecordIssues(cfg, r);

      assert records[..i + 1] == records[..i] + [r];
      Screening.Snoc(records[..i], r, Checker(cfg));
      if recordIssues != [] {
        issues := issues + recordIssues;
      } else {
        valid := valid + [r];
      }
    }
    assert records[..|records|] == records;
  }

  /** The issues of `issues` whose field is `field`, in order. */
  function WithField(issues: seq<ValidationIssue>, field: string): seq<ValidationIssue>
  {
    if issues == [] then []
    else (if issues[0].field == field then [issues[0]] else []) + WithField(issues[1..], field)
  }

  lemma {:induction false} WithFieldConcat(a: seq<ValidationIssue>, b: seq<ValidationIssue>, field: string)
    ensures WithField(a + b, field) == WithField(a, field) + WithField(b, field)
  {
    if a != [] {
      var head := if a[0].field == field then [a[0]] else [];
      assert (a + b)[0] == a[0];
      assert (a + b)[1..] == a[1..] + b;
      WithFieldConcat(a[1..], b, field);
      calc {
        WithField(a + b, field);
        head + WithField(a[1..] + b, field);
        head + (WithField(a[1..], field) + WithField(b, field));
        (head + WithField(a[1..], field)) + WithField(b, field);
      }
    } else {
      assert a + b == b;
    }
  }

  /** Issues that all name field `g` are kept whole when `g` is asked for, and dropped otherwise. */
  lemma {:induction false} WithFieldUniform(issues: seq<ValidationIssue>, g: string, field: string)
    requires forall i | 0 <= i < |issues| :: issues[i].field == g
    ensures WithField(issues, field) == if g == field then issues else []
  {
    if issues != [] {
      assert forall i | 0 <= i < |issues| - 1 :: issues[1..][i] == issues[i + 1];
      WithFieldUniform(issues[1..], g, field);
    }
  }

  /**
   * `_check_range` reports at most one issue about `metrics.<key>`: "is required" when the
   * metric is absent, "must be between" when it lies outside the inclusive bounds, and
   * nothing exactly when it is present and within them.
   */
  lemma CheckRangeSpec(r: ObservationRecord, key: string, minV: real, maxV: real)
    ensures var found := CheckRange(r, key, minV, maxV);
      && |found| <= 1
      && (found == [] <==> key in r.metrics && minV <= r.metrics[key] <= maxV)
      && (forall x | x in found :: x.field == "metrics." + key)
      && (key !in r.metrics ==> found == [Issue(r, "metrics." + key, Text("is required"))])
      && (key in r.metrics && !(minV <= r.metrics[key] <= maxV) ==>
            found == [Issue(r, "metrics." + key, Between(minV, maxV))])
  {
  }

  /** The field the metric rule reports on, by source format. */
  function MetricField(r: ObservationRecord): string
  {
    if r.sourceFormat == "csv" then "metrics.temp_c"
    else if r.sourceFormat == "json" then "metrics.humidity"
    else "source_format"
  }

  /** Each rule reports on one field only. */
  lemma RuleFields(cfg: PipelineConfig, r: ObservationRecord)
    ensures forall i | 0 <= i < |IdIssues(r)| :: IdIssues(r)[i].field == "id"
    ensures forall i | 0 <= i < |SiteIssues(r, cfg.allowedSites)| :: SiteIssues(r, cfg.allowedSites)[i].field == "site"
    ensures forall i | 0 <= i < |MetricIssues(cfg, r)| :: MetricIssues(cfg, r)[i].field == MetricField(r)
  {
    assert "metrics." + "temp_c" == "metrics.temp_c";
    assert "metrics." + "humidity" == "metrics.humidity";
  }

  /**
   * The issues of a record about one field are those of the rule that reports on it: the
   * id rule for `id`, the site rule for `site`, and the metric rule for its own field.
   */
  lemma ByField(cfg: PipelineConfig, r: ObservationRecord, field: string)
    ensures WithField(RecordIssues(cfg, r), field) ==
      (if field == "id" then IdIssues(r) else [])
      + (if field == "site" then SiteIssues(r, cfg.allowedSites) else [])
      + (if field == MetricField(r) then MetricIssues(cfg, r) else [])
  {
    var a, b, c := IdIssues(r), SiteIssues(r, cfg.allowedSites), MetricIssues(cfg, r);
    RuleFields(cfg, r);
    WithFieldConcat(a + b, c, field);
    WithFieldConcat(a, b, field);
    WithFieldUniform(a, "id", field);
    WithFieldUniform(b, "site", field);
    WithFieldUniform(c, MetricField(r), field);
  }

  /** A record with a non-positive id gets exactly one `id` issue, "must be > 0"; others get none. */
  lemma IdRule(cfg: PipelineConfig, r: ObservationRecord)
    ensures r.id <= 0 ==> WithField(RecordIssues(cfg, r), "id") == [Issue(r, "id", Text("must be > 0"))]
    ensures r.id > 0 ==> WithField(RecordIssues(cfg, r), "id") == []
  {
    ByField(cfg, r, "id");
  }

  /**
   * A record gets at most one `site` issue: "must be non-empty" for an empty site,
   * otherwise the allow-list message exactly when the site is not allowed.
   */
  lemma SiteRule(cfg: PipelineConfig, r: ObservationRecord)
    ensures var s := WithField(RecordIssues(cfg, r), "site");
      && |s| <= 1
      && (r.site == "" ==> s == [Issue(r, "site", Text("must be non-empty"))])
      && (r.site != "" ==> (s == [] <==> r.site in cfg.allowedSites))
      && (r.site != "" && r.site !in cfg.allowedSites ==> s == [Issue(r, "site", OneOf(cfg.allowedSites))])
  {
    ByField(cfg, r, "site");
  }

  /**
   * The metric rule by source format: "csv" checks only `temp_c`, "json" checks only
   * `humidity`, and any other format gets exactly one "unknown source_format" issue and no
   * metric check.
   */
  lemma MetricRule(cfg: PipelineConfig, r: ObservationRecord)
    ensures var found := RecordIssues(cfg, r);
      && (r.sourceFormat == "csv" ==>
            && WithField(found, "metrics.temp_c") == CheckRange(r, "temp_c", cfg.tempCMin, cfg.tempCMax)
            && WithField(found, "metrics.humidity") == []
            && WithField(found, "source_format") == [])
      && (r.sourceFormat == "json" ==>
            && WithField(found, "metrics.humidity") == CheckRange(r, "humidity", cfg.humidityMin, cfg.humidityMax)
            && WithField(found, "metrics.temp_c") == []
            && WithField(found, "source_format") == [])
      && (r.sourceFormat != "csv" && r.sourceFormat != "json" ==>
            && WithField(found, "source_format") == [Issue(r, "source_format", Text("unknown source_format"))]
            && WithField(found, "metrics.temp_c") == []
            && WithField(found, "metrics.humidity") == [])
  {
    ByField(cfg, r, "metrics.temp_c");
    ByField(cfg, r, "metrics.humidity");
    ByField(cfg, r, "source_format");
  }

  /**
   * No rule short-circuits another: the record's issues are the three rules' issues side by
   * side, at most one each, so at most three; each copies the record's id, file and format.
   */
  lemma RecordIssuesShape(cfg: PipelineConfig, r: ObservationRecord)
    ensures var found := RecordIssues(cfg, r);
      && |found| == |IdIssues(r)| + |SiteIssues(r, cfg.allowedSites)| + |MetricIssues(cfg, r)|
      && |IdIssues(r)| <= 1 && |SiteIssues(r, cfg.allowedSites)| <= 1 && |MetricIssues(cfg, r)| <= 1
      && |found| <= 3
      && (found == [] <==>
            && r.id > 0
            && r.site != "" && r.site in cfg.allowedSites
            && (r.sourceFormat == "csv" || r.sourceFormat == "json")
            && (r.sourceFormat == "csv" ==>
                  "temp_c" in r.metrics && cfg.tempCMin <= r.metrics["temp_c"] <= cfg.tempCMax)
            && (r.sourceFormat == "json" ==>
                  "humidity" in r.metrics && cfg.humidityMin <= r.metrics["humidity"] <= cfg.humidityMax))
      && forall x | x in found ::
           x.recordId == r.id && x.sourceFile == r.sourceFile && x.sourceFormat == r.sourceFormat
  {
    CheckRangeSpec(r, "temp_c", cfg.tempCMin, cfg.tempCMax);
    CheckRangeSpec(r, "humidity", cfg.humidityMin, cfg.humidityMax);
  }

  /** A record that breaks all three rules carries all three issues, in rule order. */
  lemma AllRulesFire(cfg: PipelineConfig, r: ObservationRecord)
    requires r.id <= 0 && r.site == "" && r.sourceFormat != "csv" && r.sourceFormat != "json"
    ensures RecordIssues(cfg, r) == [
      Issue(r, "id", Text("must be > 0")),
      Issue(r, "site", Text("must be non-empty")),
      Issue(r, "source_format", Text("unknown source_format"))]
  {
  }

  /**
   * A CSV record that passes the id and site rules but whose temperature lies above the
   * configured maximum carries exactly one issue, the range issue on `metrics.temp_c`.
   */
  lemma TemperatureOutOfRange(cfg: PipelineConfig, r: ObservationRecord)
    requires r.id > 0 && r.site != "" && r.site in cfg.allowedSites && r.sourceFormat == "csv"
    requires "temp_c" in r.metrics && r.metrics["temp_c"] > cfg.tempCMax
    ensures RecordIssues(cfg, r) == [Issue(r, "metrics.temp_c", Between(cfg.tempCMin, cfg.tempCMax))]
  {
    assert "metrics." + "temp_c" == "metrics.temp_c";
  }

  /** Validating a concatenation is validating the parts: the validator keeps input order. */
  lemma ValidateConcat(cfg: PipelineConfig, xs: seq<ObservationRecord>, ys: seq<ObservationRecord>)
    ensures Accepted(cfg, xs + ys) == Accepted(cfg, xs) + Accepted(cfg, ys)
    ensures AllIssues(cfg, xs + ys) == AllIssues(cfg, xs) + AllIssues(cfg, ys)
    ensures RejectedCount(cfg, xs + ys) == RejectedCount(cfg, xs) + RejectedCount(cfg, ys)
  {
    Screening.Concat(xs, ys, Checker(cfg));
  }

  /** The issues are the in-order concatenation of every record's issue list. */
  lemma IssuesAreConcatenation(cfg: PipelineConfig, records: seq<ObservationRecord>)
    ensures AllIssues(cfg, records) ==
      Collect.Flatten(seq(|records|, i requires 0 <= i < |records| => RecordIssues(cfg, records[i])))
  {
    Screening.FindingsFlatten(records, Checker(cfg));
    var viaChecker := Screening.FindingLists(records, Checker(cfg));
    var direct := seq(|records|, i requires 0 <= i < |records| => RecordIssues(cfg, records[i]));
    forall i | 0 <= i < |records| ensures viaChecker[i] == direct[i] {}
    assert viaChecker == direct;
  }

  /**
   * The kept records are exactly the issue-free ones, picked out in order: an increasing
   * selection of input positions names them, and a position is selected iff its record has
   * no issue.
   */
  lemma AcceptedIsSelection(cfg: PipelineConfig, records: seq<ObservationRecord>) returns (idx: seq<nat>)
    ensures var valid := Accepted(cfg, records);
      && |idx| == |valid|
      && (forall k | 0 <= k < |idx| :: idx[k] < |records| && valid[k] == records[idx[k]])
      && (forall k, l | 0 <= k < l < |idx| :: idx[k] < idx[l])
      && (forall j | 0 <= j < |records| :: RecordIssues(cfg, records[j]) == [] <==> j in idx)
  {
    idx := Screening.PassingIsSelection(records, Checker(cfg));
  }

  /**
   * Every record is kept or rejected, never both: the kept and rejected records add up to
   * the input, each rejected record contributes between one and three issues, and there are
   * no issues exactly when every record is kept.
   */
  lemma PartitionCounts(cfg: PipelineConfig, records: seq<ObservationRecord>)
    ensures |Accepted(cfg, records)| + RejectedCount(cfg, records) == |records|
    ensures RejectedCount(cfg, records) <= |AllIssues(cfg, records)| <= 3 * RejectedCount(cfg, records)
    ensures AllIssues(cfg, records) == [] <==> Accepted(cfg, records) == records
    ensures AllIssues(cfg, records) == [] <==> RejectedCount(cfg, records) == 0
  {
    forall i | 0 <= i < |records| ensures |Checker(cfg)(records[i])| <= 3 {
      RecordIssuesShape(cfg, records[i]);
    }
    Screening.Counts(records, Checker(cfg), 3);
  }

  /** Every reported issue is about some input record and copies its id, file and format. */
  lemma IssuesProvenance(cfg: PipelineConfig, records: seq<ObservationRecord>)
    ensures forall x | x in AllIssues(cfg, records) :: exists i | 0 <= i < |records| ::
      && x in RecordIssues(cfg, records[i])
      && x.recordId == records[i].id
      && x.sourceFile == records[i].sourceFile
      && x.sourceFormat == records[i].sourceFormat
  {
    var lists := seq(|records|, i requires 0 <= i < |records| => RecordIssues(cfg, records[i]));
    IssuesAreConcatenation(cfg, records);
    forall x | x in AllIssues(cfg, records)
      ensures exists i | 0 <= i < |records| ::
        && x in RecordIssues(cfg, records[i])
        && x.recordId == records[i].id
        && x.sourceFile == records[i].sourceFile
        && x.sourceFormat == records[i].sourceFormat
    {
      Collect.FlattenMember(lists, x);
      var i :| 0 <= i < |lists| && x in lists[i];
      RecordIssuesShape(cfg, records[i]);
    }
  }

  /** The `counts` block of the validation report. */
  datatype ReportCounts = ReportCounts(total: int, valid: int, invalid: int)

  /** The counts `write_validation_report` writes for the given totals. */
  function Counts(totalRecords: int, validRecords: int): ReportCounts
  {
    ReportCounts(totalRecords, validRecords, totalRecords - validRecords)
  }

  /**
   * For the validator's own results the report's `invalid` is the number of rejected
   * records: never negative, and zero exactly when no issue was reported.
   */
  lemma ReportCountsOfValidation(cfg: PipelineConfig, records: seq<ObservationRecord>)
    ensures var c := Counts(|records|, |Accepted(cfg, records)|);
      && c.total == c.valid + c.invalid
      && c.invalid == RejectedCount(cfg, records)
      && 0 <= c.invalid <= c.total
      && (c.invalid == 0 <==> AllIssues(cfg, records) == [])
  {
    PartitionCounts(cfg, records);
  }
}
