/**
 * The two importers, `parseCSV` and `parseJSON`, as the loops they are: each
 * walks the rows or items, builds one record per usable row field by field,
 * and accumulates records, warnings and unmapped field names. Each is proved
 * to return exactly what its specification function describes.
 */
module ImportParsers {
  import opened Wrappers
  import opened JsText
  import opened FieldMapping
  import opened SmartwatchModel
  import opened JsonValue
  import opened ImportSpec

  /**
   * The body of the inner loop both importers share: the if-chain on the
   * normalised name of one field. `st` is the state the record, the flag and
   * the unmapped names so far stand for.
   */
  method ApplyFieldStep(record: ParsedRecord, hasTimestamp: bool, unmappedFields: seq<string>,
                        normalized: string, f: Field, p: JsPrimitives, ghost st: RowState)
    returns (record': ParsedRecord, hasTimestamp': bool, unmappedFields': seq<string>)
    requires normalized == NormalizeFieldName(f.key)
    requires st.record == record && st.hasTimestamp == hasTimestamp
    ensures record' == ApplyField(st, f, p).record
    ensures hasTimestamp' == ApplyField(st, f, p).hasTimestamp
    ensures IsCanonical(normalized) ==> unmappedFields' == unmappedFields
    ensures !IsCanonical(normalized) ==> unmappedFields' == SetAdd(unmappedFields, f.key)
  {
    record', hasTimestamp', unmappedFields' := record, hasTimestamp, unmappedFields;
    var value := f.value;
    if normalized == "timestamp" {
      ApplyTimestampField(st, f, p);
      var parsed := ParseTimestamp(value, p);
      if parsed.Some? {
        record' := record'.(timestamp := parsed.value);
        hasTimestamp' := true;
      }
    } else if normalized == "steps" {
      ApplyMetricField(st, f, p, Steps);
      var num := ParseNumber(value, p);
      if num.Some? { record' := record'.(steps := num); }
    } else if normalized == "heartrate" {
      ApplyMetricField(st, f, p, HeartRate);
      var num := ParseNumber(value, p);
      if num.Some? { record' := record'.(heartRate := num); }
    } else if normalized == "calories" {
      ApplyMetricField(st, f, p, Calories);
      var num := ParseNumber(value, p);
      if num.Some? { record' := record'.(calories := num); }
    } else if normalized == "distance" {
      ApplyMetricField(st, f, p, Distance);
      var num := ParseNumber(value, p);
      if num.Some? { record' := record'.(distance := num); }
    } else if normalized == "sleep" {
      ApplyMetricField(st, f, p, Sleep);
      var num := ParseNumber(value, p);
      if num.Some? { record' := record'.(sleep := num); }
    } else {
      ApplyUnmappedField(st, f, p);
      if f.key !in unmappedFields' {
        unmappedFields' := unmappedFields' + [f.key];
      }
    }
  }

  /**
   * The inner loop of `parseCSV` over the columns of one row: the record,
   * whether a timestamp was read, and the unmapped names with this row's
   * added.
   */
  method FillCsvRow(headers: seq<string>, normalizedHeaders: seq<string>, values: seq<string>,
                    unmappedFields: seq<string>, p: JsPrimitives, now: int)
    returns (record: ParsedRecord, hasTimestamp: bool, unmappedFields': seq<string>)
    requires |headers| == |values|
    requires normalizedHeaders == NormalizedHeaders(headers)
    ensures record == FillRow(Zip(headers, values), p, now).record
    ensures hasTimestamp == FillRow(Zip(headers, values), p, now).hasTimestamp
    ensures unmappedFields' == AddAll(unmappedFields, FillRow(Zip(headers, values), p, now).unmapped)
  {
    ghost var fields := Zip(headers, values);
    record := ParsedRecord(Valid(now), None, None, None, None, None);
    hasTimestamp := false;
    unmappedFields' := unmappedFields;
    var j := 0;
    while j < |headers|
      invariant 0 <= j <= |headers|
      invariant FillRow(fields[..j], p, now).record == record
      invariant FillRow(fields[..j], p, now).hasTimestamp == hasTimestamp
      invariant unmappedFields' == AddAll(unmappedFields, FillRow(fields[..j], p, now).unmapped)
    {
      FillStep(fields, j, p, now);
      ghost var st := FillRow(fields[..j], p, now);
      ApplyFieldUnmapped(st, fields[j], p);
      AddAllStep(unmappedFields, st.unmapped + [headers[j]], |st.unmapped|);
      assert (st.unmapped + [headers[j]])[..|st.unmapped|] == st.unmapped;
      record, hasTimestamp, unmappedFields' :=
        ApplyFieldStep(record, hasTimestamp, unmappedFields', normalizedHeaders[j], Field(headers[j], values[j]), p, st);
      j := j + 1;
    }
    assert fields[..|headers|] == fields;
  }

  /**
   * The body of the outer loop of `parseCSV`: data line `line`, row number
   * `n`, is skipped when blank, warned about and skipped when its column
   * count is wrong, and otherwise turned into a record, with a warning when
   * no timestamp was read.
   */
  method CsvRow(headers: seq<string>, normalizedHeaders: seq<string>, line: string, n: nat, p: JsPrimitives, now: int,
                records: seq<ParsedRecord>, warnings: seq<string>, unmappedFields: seq<string>)
    returns (records': seq<ParsedRecord>, warnings': seq<string>, unmappedFields': seq<string>)
    requires normalizedHeaders == NormalizedHeaders(headers)
    ensures records' == records + OutcomeRecords(CsvOutcome(headers, line, p, now))
    ensures warnings' == warnings + OutcomeWarnings(CsvOutcome(headers, line, p, now), "Row", n)
    ensures unmappedFields' == AddAll(unmappedFields, OutcomeUnmapped(CsvOutcome(headers, line, p, now)))
  {
    records', warnings', unmappedFields' := records, warnings, unmappedFields;
    var trimmed := Trim(line);
    if trimmed == "" {
      return;
    }
    var values := Cells(trimmed);
    if |values| != |headers| {
      warnings' := warnings' + [Notice("Row", n, MismatchReason)];
      return;
    }
    var record, hasTimestamp;
    record, hasTimestamp, unmappedFields' := FillCsvRow(headers, normalizedHeaders, values, unmappedFields', p, now);
    if !hasTimestamp {
      warnings' := warnings' + [Notice("Row", n, MissingTimestampReason)];
    }
    records' := records' + [record];
  }

  /**
   * The loop of `parseCSV` over the data lines, `data[k]` being row number
   * `k + 2`: the records, warnings and unmapped header names it gathers.
   */
  method CsvRows(headers: seq<string>, data: seq<string>, p: JsPrimitives, now: int) returns (r: ParseResult)
    ensures r == Collect(CsvOutcomes(headers, data, p, now), "Row", 2)
  {
    var normalizedHeaders := NormalizedHeaders(headers);
    ghost var os := CsvOutcomes(headers, data, p, now);
    var records: seq<ParsedRecord> := [];
    var warnings: seq<string> := [];
    var unmappedFields: seq<string> := [];
    var i := 0;
    while i < |data|
      invariant 0 <= i <= |data|
      invariant records == Records(os[..i])
      invariant warnings == Warnings(os[..i], "Row", 2)
      invariant unmappedFields == AddAll([], UnmappedKeys(os[..i]))
    {
      PrefixStep(os, i, "Row", 2);
      AddAllAppend([], UnmappedKeys(os[..i]), OutcomeUnmapped(os[i]));
      records, warnings, unmappedFields :=
        CsvRow(headers, normalizedHeaders, data[i], i + 2, p, now, records, warnings, unmappedFields);
      i := i + 1;
    }
    assert os[..|data|] == os;
    return ParseResult(records, warnings, unmappedFields);
  }

  /** `parseCSV(content)`, with `now` standing for every `new Date()` it takes. */
  method ParseCsv(content: string, p: JsPrimitives, now: int) returns (r: Result<ParseResult>)
    ensures r == CsvSpec(content, p, now)
  {
    var lines := Split(Trim(content), '\n');
    if |lines| < 2 {
      return Failure("CSV parsing error: " + TooShortMessage);
    }
    var headers := Cells(lines[0]);
    var result := CsvRows(headers, lines[1..], p, now);
    return Success(result);
  }

  /**
   * The inner loop of `parseJSON` over `Object.entries(item)`: each key is
   * normalised and its value converted with `String` before the shared
   * if-chain runs.
   */
  method FillJsonItem(item: Json, unmappedFields: seq<string>, p: JsPrimitives, now: int)
    returns (record: ParsedRecord, hasTimestamp: bool, unmappedFields': seq<string>)
    requires IsObject(item)
    ensures record == FillRow(JsonFields(item), p, now).record
    ensures hasTimestamp == FillRow(JsonFields(item), p, now).hasTimestamp
    ensures unmappedFields' == AddAll(unmappedFields, FillRow(JsonFields(item), p, now).unmapped)
  {
    ghost var fields := JsonFields(item);
    var entries := Entries(item);
    record := ParsedRecord(Valid(now), None, None, None, None, None);
    hasTimestamp := false;
    unmappedFields' := unmappedFields;
    var j := 0;
    while j < |entries|
      invariant 0 <= j <= |entries|
      invariant FillRow(fields[..j], p, now).record == record
      invariant FillRow(fields[..j], p, now).hasTimestamp == hasTimestamp
      invariant unmappedFields' == AddAll(unmappedFields, FillRow(fields[..j], p, now).unmapped)
    {
      var (key, value) := entries[j];
      var normalized := NormalizeFieldName(key);
      FillStep(fields, j, p, now);
      ghost var st := FillRow(fields[..j], p, now);
      ApplyFieldUnmapped(st, fields[j], p);
      AddAllStep(unmappedFields, st.unmapped + [key], |st.unmapped|);
      assert (st.unmapped + [key])[..|st.unmapped|] == st.unmapped;
      record, hasTimestamp, unmappedFields' :=
        ApplyFieldStep(record, hasTimestamp, unmappedFields', normalized, Field(key, ToJsString(value)), p, st);
      j := j + 1;
    }
    assert fields[..|entries|] == fields;
  }

  /**
   * The body of the outer loop of `parseJSON`: item number `n` is warned
   * about and skipped when it is not an object, and otherwise turned into a
   * record, with a warning when no timestamp was read.
   */
  method JsonItem(item: Json, n: nat, p: JsPrimitives, now: int,
                  records: seq<ParsedRecord>, warnings: seq<string>, unmappedFields: seq<string>)
    returns (records': seq<ParsedRecord>, warnings': seq<string>, unmappedFields': seq<string>)
    ensures records' == records + OutcomeRecords(JsonOutcome(item, p, now))
    ensures warnings' == warnings + OutcomeWarnings(JsonOutcome(item, p, now), "Item", n)
    ensures unmappedFields' == AddAll(unmappedFields, OutcomeUnmapped(JsonOutcome(item, p, now)))
  {
    records', warnings', unmappedFields' := records, warnings, unmappedFields;
    if !IsObject(item) {
      warnings' := warnings' + [Notice("Item", n, NotObjectReason)];
      return;
    }
    var record, hasTimestamp;
    record, hasTimestamp, unmappedFields' := FillJsonItem(item, unmappedFields', p, now);
    if !hasTimestamp {
      warnings' := warnings' + [Notice("Item", n, MissingTimestampReason)];
    }
    records' := records' + [record];
  }

  /** The loop of `parseJSON` over the items, `items[k]` being item number `k + 1`. */
  method JsonItems(items: seq<Json>, p: JsPrimitives, now: int) returns (r: ParseResult)
    ensures r == Collect(JsonOutcomes(items, p, now), "Item", 1)
  {
    ghost var os := JsonOutcomes(items, p, now);
    var records: seq<ParsedRecord> := [];
    var warnings: seq<string> := [];
    var unmappedFields: seq<string> := [];
    var i := 0;
    while i < |items|
      invariant 0 <= i <= |items|
      invariant records == Records(os[..i])
      invariant warnings == Warnings(os[..i], "Item", 1)
      invariant unmappedFields == AddAll([], UnmappedKeys(os[..i]))
    {
      PrefixStep(os, i, "Item", 1);
      AddAllAppend([], UnmappedKeys(os[..i]), OutcomeUnmapped(os[i]));
      records, warnings, unmappedFields := JsonItem(items[i], i + 1, p, now, records, warnings, unmappedFields);
      i := i + 1;
    }
    assert os[..|items|] == os;
    return ParseResult(records, warnings, unmappedFields);
  }

  /**
   * `parseJSON(content)`, given what `JSON.parse(content)` returns or the
   * message of the syntax error it throws, and with `now` standing for
   * every `new Date()` it takes.
   */
  method ParseJson(parsed: Result<Json>, p: JsPrimitives, now: int) returns (r: Result<ParseResult>)
    ensures r == JsonSpec(parsed, p, now)
  {
    if parsed.Failure? {
      return Failure("JSON parsing error: " + parsed.error);
    }
    var data := parsed.value;
    var items := if data.JArray? then data.elements else [data];
    var result := JsonItems(items, p, now);
    return Success(result);
  }
}
