/**
 * The observation record and timestamp pre-processing of the ingest stage.
 * ISO 8601 parsing itself (`datetime.fromisoformat`) is a parameter of the model.
 */
module Records {
  import opened Wrappers
  import Text

  /** The wall-clock fields of a `datetime`. */
  datatype WallClock = WallClock(
    year: int, month: int, day: int,
    hour: int, minute: int, second: int, microsecond: int)

  /** A fixed offset from UTC, in seconds. */
  datatype Offset = Offset(seconds: int)

  const UTC := Offset(0)

  /** A `datetime`: naive when `tz` is `None`, timezone-aware otherwise. */
  datatype DateTime = DateTime(wall: WallClock, tz: Option<Offset>)

  /** `datetime.fromisoformat`: `None` where it raises. */
  type IsoParser = string -> Option<DateTime>

  /** One observation with its provenance, as a reader creates it. */
  datatype ObservationRecord = ObservationRecord(
    id: int,
    timestamp: DateTime,
    site: string,
    metrics: map<string, real>,
    sourceFile: string,
    sourceFormat: string)

  /** Why a reader gave up on a whole file. */
  datatype ReadError =
    | MissingKey(key: string)               // KeyError on a row or item
    | BadValue(key: string)                 // int(), float() or the timestamp parse raised
    | NotAnObject                           // a JSON list item that cannot be indexed by key
    | NotAList(path: string, typeName: string) // the JSON top-level value is not a list

  predicate EndsWithZ(s: string)
  {
    |s| > 0 && s[|s| - 1] == 'Z'
  }

  /**
   * The string handed to `fromisoformat`: the input stripped of surrounding whitespace,
   * with a trailing `Z` (the UTC designator of section 5.6 of RFC 3339) spelled `+00:00`.
   */
  function PrepareTimestamp(value: string): string
  {
    var t := Text.Strip(value);
    if EndsWithZ(t) then t[..|t| - 1] + "+00:00" else t
  }

  /**
   * What preparation does to the stripped input: a trailing `Z` becomes `+00:00` and every
   * other character is kept; without a trailing `Z` the stripped input is passed on as it is.
   * The result never ends in `Z` and has no surrounding whitespace.
   */
  lemma PrepareTimestampShape(value: string)
    ensures var t, s := Text.Strip(value), PrepareTimestamp(value);
      && (EndsWithZ(t) ==> |s| == |t| + 5 && s[..|t| - 1] == t[..|t| - 1] && s[|t| - 1..] == "+00:00")
      && (!EndsWithZ(t) ==> s == t)
      && !EndsWithZ(s)
      && Text.Trimmed(s)
  {
    var t := Text.Strip(value);
    if EndsWithZ(t) {
      var s := t[..|t| - 1] + "+00:00";
      assert s[|s| - 1] == '0';
      assert |t| > 1 ==> s[0] == t[0];
      assert !Text.IsSpace('0') && !Text.IsSpace('+');
    }
  }

  /**
   * `parse_timestamp`: `None` where `fromisoformat` raises; a naive result is given UTC.
   */
  function ParseTimestamp(value: string, fromIso: IsoParser): Option<DateTime>
  {
    match fromIso(PrepareTimestamp(value))
    case None => None
    case Some(dt) => if dt.tz.None? then Some(dt.(tz := Some(UTC))) else Some(dt)
  }

  /**
   * Parsing fails exactly when `fromisoformat` rejects the prepared string; every parsed
   * instant is timezone-aware, keeps the wall clock, keeps an explicit offset and gives a
   * naive time UTC.
   */
  lemma ParseTimestampAware(value: string, fromIso: IsoParser)
    ensures var r := ParseTimestamp(value, fromIso);
      var parsed := fromIso(PrepareTimestamp(value));
      && (r.Some? <==> parsed.Some?)
      && (r.Some? ==>
            && r.value.tz.Some?
            && r.value.wall == parsed.value.wall
            && (parsed.value.tz.Some? ==> r.value.tz == parsed.value.tz)
            && (parsed.value.tz.None? ==> r.value.tz == Some(UTC)))
  {
  }

  /** Preparing a prepared string changes nothing: the prepared form is a normal form. */
  lemma PrepareIdempotent(value: string)
    ensures PrepareTimestamp(PrepareTimestamp(value)) == PrepareTimestamp(value)
  {
    var s := PrepareTimestamp(value);
    PrepareTimestampShape(value);
    Text.StripUniqueAt(s, [], s, []);
  }

  /** A timestamp parses to the same value whether given as written or already in the form handed to `fromisoformat`. */
  lemma ParsePrepared(value: string, fromIso: IsoParser)
    ensures ParseTimestamp(PrepareTimestamp(value), fromIso) == ParseTimestamp(value, fromIso)
  {
    PrepareIdempotent(value);
  }

  /** Whitespace around the input does not change what is parsed. */
  lemma ParseIgnoresSurroundingSpace(p: string, value: string, q: string, fromIso: IsoParser)
    requires Text.AllSpace(p) && Text.AllSpace(q)
    ensures ParseTimestamp(p + value + q, fromIso) == ParseTimestamp(value, fromIso)
  {
    Text.StripAbsorbs(p, value, q);
    assert PrepareTimestamp(p + value + q) == PrepareTimestamp(value);
  }

  /** A trailing `Z` is prepared as `+00:00` after the leading whitespace is dropped. */
  lemma PrepareZulu(t: string)
    ensures PrepareTimestamp(t + "Z") == t[Text.LeadingSpace(t)..] + "+00:00"
  {
    Text.StripAppend(t, "Z");
    var z := t[Text.LeadingSpace(t)..] + "Z";
    assert z[..|z| - 1] == t[Text.LeadingSpace(t)..];
  }

  /** An explicit `+00:00` is passed on after the leading whitespace is dropped. */
  lemma PrepareUtcOffset(t: string)
    ensures PrepareTimestamp(t + "+00:00") == t[Text.LeadingSpace(t)..] + "+00:00"
  {
    Text.StripAppend(t, "+00:00");
    var o := t[Text.LeadingSpace(t)..] + "+00:00";
    assert o[|o| - 1] == '0';
  }

  /** A trailing `Z` and an explicit `+00:00` denote the same instant. */
  lemma ZuluIsUtcOffset(t: string, fromIso: IsoParser)
    ensures ParseTimestamp(t + "Z", fromIso) == ParseTimestamp(t + "+00:00", fromIso)
  {
    PrepareZulu(t);
    PrepareUtcOffset(t);
  }
}
