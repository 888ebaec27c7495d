/**
 * What the CSV and JSON importers compute, stated as functions: how one
 * column or key updates the record being built, what each data line or item
 * turns into, and how the outcomes are gathered into records, warnings and
 * unmapped field names.
 */
module ImportSpec {
  import opened Wrappers
  import opened JsText
  import opened FieldMapping
  import opened SmartwatchModel
  import opened JsonValue

  /**
   * The JavaScript library calls the parsers rely on, given as functions:
   * `dateParse(v)` is `Some(t)` when the date parser reads `v` as the time
   * value `t`, milliseconds since the epoch, before the range check of
   * `new Date`, and `None` when it cannot read it; `parseInt10(v)` is
   * `parseInt(v, 10)` and `parseFloat(v)` is `parseFloat(v)`, each `None`
   * when the result is NaN.
   */
  datatype JsPrimitives = JsPrimitives(
    dateParse: string -> Option<int>,
    parseInt10: string -> Option<int>,
    parseFloat: string -> Option<real>)

  /** `!isNaN(new Date(v).getTime())`: the date parser reads `v` as a time within the range of `Date`. */
  predicate DateParses(value: string, p: JsPrimitives) {
    p.dateParse(value).Some? && NewDate(p.dateParse(value).value).Valid?
  }

  /**
   * `parseTimestamp`: nothing for the empty string; otherwise the string read
   * as a date if that gives a valid time, and failing that `new Date` of the
   * string read as an integral number of milliseconds, which may be an
   * Invalid Date.
   */
  function ParseTimestamp(value: string, p: JsPrimitives): (d: Option<Date>)
    ensures value == "" ==> d == None
    ensures d.Some? <==> value != "" && (DateParses(value, p) || p.parseInt10(value).Some?)
    ensures value != "" && DateParses(value, p) ==> d == Some(Valid(p.dateParse(value).value))
    ensures value != "" && !DateParses(value, p) && p.parseInt10(value).Some? ==> d == Some(NewDate(p.parseInt10(value).value))
  {
    if value == "" then None
    else if DateParses(value, p) then Some(NewDate(p.dateParse(value).value))
    else
      match p.parseInt10(value)
      case Some(n) => Some(NewDate(n))
      case None => None
  }

  /** `parseNumber`: nothing for the empty string, otherwise `parseFloat` unless that is NaN. */
  function ParseNumber(value: string, p: JsPrimitives): (x: Option<real>)
    ensures value == "" ==> x == None
    ensures value != "" ==> x == p.parseFloat(value)
  {
    if value == "" then None else p.parseFloat(value)
  }

  /** `headers.map(h => normalizeFieldName(h))`. */
  function NormalizedHeaders(headers: seq<string>): (normalized: seq<string>)
  {
    seq(|headers|, j requires 0 <= j < |headers| => NormalizeFieldName(headers[j]))
  }

  /** One column of a data row, or one key of a JSON item, with its value as text. */
  datatype Field = Field(key: string, value: string)

  /** The record being built for one row or item, whether a timestamp was read, and the names of its unmapped fields in order. */
  datatype RowState = RowState(record: ParsedRecord, hasTimestamp: bool, unmapped: seq<string>)

  /** A fresh record: timestamp now, no metrics. */
  function StartRow(now: int): RowState {
    RowState(ParsedRecord(Valid(now), None, None, None, None, None), false, [])
  }

  /** The metric a normalised field name selects, if any. */
  function MetricOf(normalized: string): (m: Option<Metric>)
    ensures m.Some? <==> normalized in CanonicalKeys && normalized != "timestamp"
    ensures m.Some? ==> MetricKey(m.value) == normalized
  {
    if normalized == "steps" then Some(Steps)
    else if normalized == "heartrate" then Some(HeartRate)
    else if normalized == "calories" then Some(Calories)
    else if normalized == "distance" then Some(Distance)
    else if normalized == "sleep" then Some(Sleep)
    else None
  }

  /**
   * One iteration of the inner loop: a timestamp field replaces the
   * timestamp when its value parses, a metric field sets its metric when its
   * value parses, and any other field is noted as unmapped.
   */
  function ApplyField(st: RowState, f: Field, p: JsPrimitives): RowState {
    var normalized := NormalizeFieldName(f.key);
    if normalized == "timestamp" then
      match ParseTimestamp(f.value, p)
      case Some(d) => st.(record := st.record.(timestamp := d), hasTimestamp := true)
      case None => st
    else
      match MetricOf(normalized)
      case Some(m) =>
        (match ParseNumber(f.value, p)
         case Some(x) => st.(record := Set(st.record, m, x))
         case None => st)
      case None => st.(unmapped := st.unmapped + [f.key])
  }

  /** The state after the fields of one row or item have been applied in order. */
  function FillRow(fields: seq<Field>, p: JsPrimitives, now: int): RowState {
    if |fields| == 0 then StartRow(now)
    else ApplyField(FillRow(fields[..|fields| - 1], p, now), fields[|fields| - 1], p)
  }

  /** What one data line or item turns into. */
  datatype Outcome = Blank | Skipped(reason: string) | Built(row: RowState)

  const MismatchReason: string := "Column count mismatch, skipping"
  const NotObjectReason: string := "Not an object, skipping"
  const MissingTimestampReason: string := "Missing or invalid timestamp, using current time"
  const TooShortMessage: string := "CSV file must contain at least a header row and one data row"

  /** A warning about row or item number `n`. */
  function Notice(kind: string, n: nat, reason: string): string {
    kind + " " + NatToString(n) + ": " + reason
  }

  /** The warnings one outcome contributes, numbered `n`. */
  function OutcomeWarnings(o: Outcome, kind: string, n: nat): seq<string> {
    match o
    case Blank => []
    case Skipped(reason) => [Notice(kind, n, reason)]
    case Built(row) => if row.hasTimestamp then [] else [Notice(kind, n, MissingTimestampReason)]
  }

  /** The record one outcome contributes: one for a built row, none otherwise. */
  function OutcomeRecords(o: Outcome): seq<ParsedRecord> {
    if o.Built? then [o.row.record] else []
  }

  /** The unmapped field names one outcome contributes, repeats included. */
  function OutcomeUnmapped(o: Outcome): seq<string> {
    if o.Built? then o.row.unmapped else []
  }

  /** The records of the built outcomes, in order. */
  function Records(os: seq<Outcome>): seq<ParsedRecord> {
    if |os| == 0 then [] else Records(os[..|os| - 1]) + OutcomeRecords(os[|os| - 1])
  }

  /** The warnings of all outcomes in order, the first numbered `first`. */
  function Warnings(os: seq<Outcome>, kind: string, first: nat): seq<string> {
    if |os| == 0 then []
    else Warnings(os[..|os| - 1], kind, first) + OutcomeWarnings(os[|os| - 1], kind, first + |os| - 1)
  }

  /** The unmapped field names of the built outcomes, in order, repeats included. */
  function UnmappedKeys(os: seq<Outcome>): seq<string> {
    if |os| == 0 then [] else UnmappedKeys(os[..|os| - 1]) + OutcomeUnmapped(os[|os| - 1])
  }

  /** `Set.prototype.add` on a set kept in insertion order. */
  function SetAdd(s: seq<string>, x: string): seq<string> {
    if x in s then s else s + [x]
  }

  /** Adds each of `xs` in turn. */
  function AddAll(s: seq<string>, xs: seq<string>): seq<string> {
    if |xs| == 0 then s else SetAdd(AddAll(s, xs[..|xs| - 1]), xs[|xs| - 1])
  }

  /** The result a parser returns for the given outcomes. */
  function Collect(os: seq<Outcome>, kind: string, first: nat): ParseResult {
    ParseResult(Records(os), Warnings(os, kind, first), AddAll([], UnmappedKeys(os)))
  }

  /** The columns of a data row, paired with the header above each. */
  function Zip(headers: seq<string>, values: seq<string>): (fields: seq<Field>)
    requires |headers| == |values|
    ensures |fields| == |headers|
    ensures forall k :: 0 <= k < |fields| ==> fields[k] == Field(headers[k], values[k])
  {
    seq(|headers|, k requires 0 <= k < |headers| => Field(headers[k], values[k]))
  }

  /** What one data line of a CSV file turns into. */
  function CsvOutcome(headers: seq<string>, line: string, p: JsPrimitives, now: int): Outcome {
    var trimmed := Trim(line);
    if trimmed == "" then Blank
    else
      var values := Cells(trimmed);
      if |values| != |headers| then Skipped(MismatchReason)
      else Built(FillRow(Zip(headers, values), p, now))
  }

  function CsvOutcomes(headers: seq<string>, data: seq<string>, p: JsPrimitives, now: int): (os: seq<Outcome>)
    ensures |os| == |data|
    ensures forall k :: 0 <= k < |os| ==> os[k] == CsvOutcome(headers, data[k], p, now)
  {
    seq(|data|, k requires 0 <= k < |data| => CsvOutcome(headers, data[k], p, now))
  }

  /** `parseCSV`: the trimmed content split into lines, the first the header row, rows numbered from 2. */
  function CsvSpec(content: string, p: JsPrimitives, now: int): Result<ParseResult> {
    var lines := Split(Trim(content), '\n');
    if |lines| < 2 then Failure("CSV parsing error: " + TooShortMessage)
    else Success(Collect(CsvOutcomes(Cells(lines[0]), lines[1..], p, now), "Row", 2))
  }

  /** The fields of a JSON item: its entries, each value converted with `String`. */
  function JsonFields(item: Json): (fields: seq<Field>)
    requires IsObject(item)
    ensures |fields| == |Entries(item)|
    ensures forall k :: 0 <= k < |fields| ==> fields[k] == Field(Entries(item)[k].0, ToJsString(Entries(item)[k].1))
  {
    var es := Entries(item);
    seq(|es|, k requires 0 <= k < |es| => Field(es[k].0, ToJsString(es[k].1)))
  }

  /** What one item of a JSON document turns into. */
  function JsonOutcome(item: Json, p: JsPrimitives, now: int): Outcome {
    if IsObject(item) then Built(FillRow(JsonFields(item), p, now)) else Skipped(NotObjectReason)
  }

  function JsonOutcomes(items: seq<Json>, p: JsPrimitives, now: int): (os: seq<Outcome>)
    ensures |os| == |items|
    ensures forall k :: 0 <= k < |os| ==> os[k] == JsonOutcome(items[k], p, now)
  {
    seq(|items|, k requires 0 <= k < |items| => JsonOutcome(items[k], p, now))
  }

  /** `parseJSON`, given what `JSON.parse` made of the content: a syntax error, or a value whose items are numbered from 1. */
  function JsonSpec(parsed: Result<Json>, p: JsPrimitives, now: int): Result<ParseResult> {
    match parsed
    case Failure(message) => Failure("JSON parsing error: " + message)
    case Success(data) => Success(Collect(JsonOutcomes(Items(data), p, now), "Item", 1))
  }

  /** `ApplyField` on a timestamp field. */
  lemma ApplyTimestampField(st: RowState, f: Field, p: JsPrimitives)
    requires NormalizeFieldName(f.key) == "timestamp"
    ensures ParseTimestamp(f.value, p).Some? ==>
      ApplyField(st, f, p) == st.(record := st.record.(timestamp := ParseTimestamp(f.value, p).value), hasTimestamp := true)
    ensures ParseTimestamp(f.value, p).None? ==> ApplyField(st, f, p) == st
  {
  }

  /** `ApplyField` on a field of metric `m`. */
  lemma ApplyMetricField(st: RowState, f: Field, p: JsPrimitives, m: Metric)
    requires NormalizeFieldName(f.key) == MetricKey(m)
    ensures ParseNumber(f.value, p).Some? ==> ApplyField(st, f, p) == st.(record := Set(st.record, m, ParseNumber(f.value, p).value))
    ensures ParseNumber(f.value, p).None? ==> ApplyField(st, f, p) == st
  {
  }

  /** A field adds its own name to the unmapped names exactly when it is not mapped. */
  lemma ApplyFieldUnmapped(st: RowState, f: Field, p: JsPrimitives)
    ensures IsCanonical(NormalizeFieldName(f.key)) ==> ApplyField(st, f, p).unmapped == st.unmapped
    ensures !IsCanonical(NormalizeFieldName(f.key)) ==> ApplyField(st, f, p).unmapped == st.unmapped + [f.key]
  {
  }

  /** `ApplyField` on a field no metric claims. */
  lemma ApplyUnmappedField(st: RowState, f: Field, p: JsPrimitives)
    requires !IsCanonical(NormalizeFieldName(f.key))
    ensures ApplyField(st, f, p) == st.(unmapped := st.unmapped + [f.key])
  {
  }

  /** Each projection of a prefix one longer is the shorter prefix's, extended by what the new outcome adds. */
  lemma PrefixStep(os: seq<Outcome>, k: int, kind: string, first: nat)
    requires 0 <= k < |os|
    ensures Records(os[..k + 1]) == Records(os[..k]) + OutcomeRecords(os[k])
    ensures Warnings(os[..k + 1], kind, first) == Warnings(os[..k], kind, first) + OutcomeWarnings(os[k], kind, first + k)
    ensures UnmappedKeys(os[..k + 1]) == UnmappedKeys(os[..k]) + OutcomeUnmapped(os[k])
  {
    assert os[..k + 1][..k] == os[..k];
  }

  /** Filling one more field is one more application of `ApplyField`. */
  lemma FillStep(fields: seq<Field>, j: int, p: JsPrimitives, now: int)
    requires 0 <= j < |fields|
    ensures FillRow(fields[..j + 1], p, now) == ApplyField(FillRow(fields[..j], p, now), fields[j], p)
  {
    assert fields[..j + 1][..j] == fields[..j];
  }

  /** Adding a concatenation is adding one part, then the other. */
  lemma {:induction false} AddAllAppend(s: seq<string>, xs: seq<string>, ys: seq<string>)
    ensures AddAll(s, xs + ys) == AddAll(AddAll(s, xs), ys)
  {
    if |ys| == 0 {
      assert xs + ys == xs;
    } else {
      assert (xs + ys)[..|xs + ys| - 1] == xs + ys[..|ys| - 1];
      AddAllAppend(s, xs, ys[..|ys| - 1]);
    }
  }

  /** Adding one more name is one more `SetAdd`. */
  lemma AddAllStep(s: seq<string>, xs: seq<string>, j: int)
    requires 0 <= j < |xs|
    ensures AddAll(s, xs[..j + 1]) == SetAdd(AddAll(s, xs[..j]), xs[j])
  {
    assert xs[..j + 1][..j] == xs[..j];
  }
}
