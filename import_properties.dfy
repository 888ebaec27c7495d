/**
 * What the importers promise, proved about their specification functions:
 * how a row's fields decide its metrics and timestamp, which names are
 * reported as unmapped and in what order, how rows are accounted for, and
 * what happens to blank lines, mismatched rows, non-objects and unparseable values.
 */
module ImportProperties {
  import opened Wrappers
  import opened JsText
  import opened FieldMapping
  import opened SmartwatchModel
  import opened JsonValue
  import opened ImportSpec

  /** Field `f` is mapped to metric `m` and its value parses as a number. */
  predicate SetsMetric(f: Field, m: Metric, p: JsPrimitives) {
    NormalizeFieldName(f.key) == MetricKey(m) && ParseNumber(f.value, p).Some?
  }

  /** Field `f` is mapped to the timestamp and its value parses as a date. */
  predicate SetsTimestamp(f: Field, p: JsPrimitives) {
    NormalizeFieldName(f.key) == "timestamp" && ParseTimestamp(f.value, p).Some?
  }

  /** A field that does not set metric `m` leaves it alone. */
  lemma ApplyFieldKeepsMetric(st: RowState, f: Field, p: JsPrimitives, m: Metric)
    requires !SetsMetric(f, m, p)
    ensures Get(ApplyField(st, f, p).record, m) == Get(st.record, m)
  {
  }

  /** A field that does not set the timestamp leaves the timestamp and the flag alone. */
  lemma ApplyFieldKeepsTimestamp(st: RowState, f: Field, p: JsPrimitives)
    requires !SetsTimestamp(f, p)
    ensures ApplyField(st, f, p).record.timestamp == st.record.timestamp
    ensures ApplyField(st, f, p).hasTimestamp == st.hasTimestamp
  {
  }

  /** One field makes a metric present when it sets it, and otherwise leaves its presence alone. */
  lemma ApplyFieldMetricPresence(st: RowState, f: Field, p: JsPrimitives, m: Metric)
    ensures Get(ApplyField(st, f, p).record, m).Some? <==> Get(st.record, m).Some? || SetsMetric(f, m, p)
  {
    if SetsMetric(f, m, p) {
      ApplyMetricField(st, f, p, m);
    } else {
      ApplyFieldKeepsMetric(st, f, p, m);
    }
  }

  /** A metric some field of the row sets is present in the record. */
  lemma {:induction false} SetMetricPresent(fields: seq<Field>, m: Metric, p: JsPrimitives, now: int, k: int)
    requires 0 <= k < |fields| && SetsMetric(fields[k], m, p)
    ensures Get(FillRow(fields, p, now).record, m).Some?
  {
    var init := fields[..|fields| - 1];
    if k < |init| {
      assert init[k] == fields[k];
      SetMetricPresent(init, m, p, now, k);
    }
    ApplyFieldMetricPresence(FillRow(init, p, now), fields[|fields| - 1], p, m);
  }

  /** A metric no field of the row sets is absent from the record. */
  lemma {:induction false} UnsetMetricAbsent(fields: seq<Field>, m: Metric, p: JsPrimitives, now: int)
    requires forall k :: 0 <= k < |fields| ==> !SetsMetric(fields[k], m, p)
    ensures Get(FillRow(fields, p, now).record, m).None?
  {
    if |fields| > 0 {
      var init := fields[..|fields| - 1];
      ApplyFieldMetricPresence(FillRow(init, p, now), fields[|fields| - 1], p, m);
      assert forall k :: 0 <= k < |init| ==> init[k] == fields[k];
      UnsetMetricAbsent(init, m, p, now);
    }
  }

  /** A metric is present in the record exactly when some field of the row sets it. */
  lemma MetricPresentIffSet(fields: seq<Field>, m: Metric, p: JsPrimitives, now: int)
    ensures Get(FillRow(fields, p, now).record, m).Some? <==> exists k :: 0 <= k < |fields| && SetsMetric(fields[k], m, p)
  {
    if k :| 0 <= k < |fields| && SetsMetric(fields[k], m, p) {
      SetMetricPresent(fields, m, p, now, k);
    } else {
      UnsetMetricAbsent(fields, m, p, now);
    }
  }

  /** When several fields set a metric, the last of them decides its value. */
  lemma {:induction false} LastMetricWins(fields: seq<Field>, m: Metric, p: JsPrimitives, now: int, k: int)
    requires 0 <= k < |fields| && SetsMetric(fields[k], m, p)
    requires forall l :: k < l < |fields| ==> !SetsMetric(fields[l], m, p)
    ensures Get(FillRow(fields, p, now).record, m) == ParseNumber(fields[k].value, p)
  {
    var init := fields[..|fields| - 1];
    var last := fields[|fields| - 1];
    if k == |fields| - 1 {
      ApplyMetricField(FillRow(init, p, now), last, p, m);
    } else {
      ApplyFieldKeepsMetric(FillRow(init, p, now), last, p, m);
      LastMetricWins(init, m, p, now, k);
    }
  }

  /** One field sets the timestamp flag when it sets the timestamp, and otherwise leaves flag and timestamp alone. */
  lemma ApplyFieldTimestampFlag(st: RowState, f: Field, p: JsPrimitives)
    ensures ApplyField(st, f, p).hasTimestamp <==> st.hasTimestamp || SetsTimestamp(f, p)
    ensures !SetsTimestamp(f, p) ==> ApplyField(st, f, p).record.timestamp == st.record.timestamp
  {
    if SetsTimestamp(f, p) {
      ApplyTimestampField(st, f, p);
    } else {
      ApplyFieldKeepsTimestamp(st, f, p);
    }
  }

  /** A row some field of which sets the timestamp is flagged as having one. */
  lemma {:induction false} SetTimestampFlagged(fields: seq<Field>, p: JsPrimitives, now: int, k: int)
    requires 0 <= k < |fields| && SetsTimestamp(fields[k], p)
    ensures FillRow(fields, p, now).hasTimestamp
  {
    var init := fields[..|fields| - 1];
    if k < |init| {
      assert init[k] == fields[k];
      SetTimestampFlagged(init, p, now, k);
    }
    ApplyFieldTimestampFlag(FillRow(init, p, now), fields[|fields| - 1], p);
  }

  /** A row no field of which sets the timestamp is flagged as having none and keeps the current time. */
  lemma {:induction false} UnsetTimestampDefaults(fields: seq<Field>, p: JsPrimitives, now: int)
    requires forall k :: 0 <= k < |fields| ==> !SetsTimestamp(fields[k], p)
    ensures !FillRow(fields, p, now).hasTimestamp
    ensures FillRow(fields, p, now).record.timestamp == Valid(now)
  {
    if |fields| > 0 {
      var init := fields[..|fields| - 1];
      ApplyFieldTimestampFlag(FillRow(init, p, now), fields[|fields| - 1], p);
      assert forall k :: 0 <= k < |init| ==> init[k] == fields[k];
      UnsetTimestampDefaults(init, p, now);
    }
  }

  /**
   * A record is flagged as having a timestamp exactly when some field of the
   * row sets it; otherwise it keeps the current time.
   */
  lemma TimestampSetIffSomeFieldSets(fields: seq<Field>, p: JsPrimitives, now: int)
    ensures FillRow(fields, p, now).hasTimestamp <==> exists k :: 0 <= k < |fields| && SetsTimestamp(fields[k], p)
    ensures !FillRow(fields, p, now).hasTimestamp ==> FillRow(fields, p, now).record.timestamp == Valid(now)
  {
    if k :| 0 <= k < |fields| && SetsTimestamp(fields[k], p) {
      SetTimestampFlagged(fields, p, now, k);
    } else {
      UnsetTimestampDefaults(fields, p, now);
    }
  }

  /** When several fields set the timestamp, the last of them decides it. */
  lemma {:induction false} LastTimestampWins(fields: seq<Field>, p: JsPrimitives, now: int, k: int)
    requires 0 <= k < |fields| && SetsTimestamp(fields[k], p)
    requires forall l :: k < l < |fields| ==> !SetsTimestamp(fields[l], p)
    ensures FillRow(fields, p, now).hasTimestamp
    ensures FillRow(fields, p, now).record.timestamp == ParseTimestamp(fields[k].value, p).value
  {
    var init := fields[..|fields| - 1];
    var last := fields[|fields| - 1];
    if k == |fields| - 1 {
      ApplyTimestampField(FillRow(init, p, now), last, p);
    } else {
      ApplyFieldKeepsTimestamp(FillRow(init, p, now), last, p);
      LastTimestampWins(init, p, now, k);
    }
  }

  /**
   * A timestamp value the date parser rejects but `parseInt` reads as a
   * millisecond count outside the range of `Date` yields an Invalid Date,
   * which is truthy: the row counts as stamped, keeps the Invalid Date, and
   * is not warned about.
   */
  lemma OutOfRangeMillisecondsStamp(f: Field, p: JsPrimitives, now: int, kind: string, n: nat)
    requires NormalizeFieldName(f.key) == "timestamp" && f.value != "" && !DateParses(f.value, p)
    requires p.parseInt10(f.value).Some? && !(-MaxTimeValue <= p.parseInt10(f.value).value <= MaxTimeValue)
    ensures FillRow([f], p, now).hasTimestamp
    ensures FillRow([f], p, now).record.timestamp == Invalid
    ensures OutcomeWarnings(Built(FillRow([f], p, now)), kind, n) == []
  {
    assert [f][..0] == [];
    ApplyTimestampField(StartRow(now), f, p);
  }

  /** A mapped field whose value is the empty string changes nothing: empty cells are never read as 0 or as a date. */
  lemma EmptyValueIgnored(st: RowState, f: Field, p: JsPrimitives)
    requires f.value == "" && IsCanonical(NormalizeFieldName(f.key))
    ensures ApplyField(st, f, p) == st
  {
  }

  /** The keys of the fields that map to no canonical key, in field order. */
  function NonCanonicalKeys(fields: seq<Field>): seq<string> {
    if |fields| == 0 then []
    else if IsCanonical(NormalizeFieldName(fields[|fields| - 1].key)) then NonCanonicalKeys(fields[..|fields| - 1])
    else NonCanonicalKeys(fields[..|fields| - 1]) + [fields[|fields| - 1].key]
  }

  /** A row's unmapped names are the keys of its non-canonical fields, in order, repeats included. */
  lemma {:induction false} RowUnmappedKeys(fields: seq<Field>, p: JsPrimitives, now: int)
    ensures FillRow(fields, p, now).unmapped == NonCanonicalKeys(fields)
  {
    if |fields| > 0 {
      var init := fields[..|fields| - 1];
      RowUnmappedKeys(init, p, now);
      ApplyFieldUnmapped(FillRow(init, p, now), fields[|fields| - 1], p);
    }
  }

  /** Every name in `NonCanonicalKeys` is the key of a field that maps to no canonical key. */
  lemma {:induction false} NonCanonicalOrigin(fields: seq<Field>, x: string) returns (k: int)
    requires x in NonCanonicalKeys(fields)
    ensures 0 <= k < |fields| && fields[k].key == x && !IsCanonical(NormalizeFieldName(x))
  {
    var init := fields[..|fields| - 1];
    if x in NonCanonicalKeys(init) {
      k := NonCanonicalOrigin(init, x);
      assert init[k] == fields[k];
    } else {
      k := |fields| - 1;
    }
  }

  /** The key of every non-canonical field is in `NonCanonicalKeys`. */
  lemma {:induction false} NonCanonicalKept(fields: seq<Field>, k: int)
    requires 0 <= k < |fields| && !IsCanonical(NormalizeFieldName(fields[k].key))
    ensures fields[k].key in NonCanonicalKeys(fields)
  {
    var init := fields[..|fields| - 1];
    if k < |init| {
      assert init[k] == fields[k];
      NonCanonicalKept(init, k);
    }
  }

  /** The unmapped names of a row are the keys of its fields that map to no canonical key. */
  lemma RowUnmappedIffNotCanonical(fields: seq<Field>, p: JsPrimitives, now: int, x: string)
    ensures x in FillRow(fields, p, now).unmapped <==>
      exists k :: 0 <= k < |fields| && fields[k].key == x && !IsCanonical(NormalizeFieldName(x))
  {
    RowUnmappedKeys(fields, p, now);
    if x in NonCanonicalKeys(fields) {
      var k := NonCanonicalOrigin(fields, x);
    }
    if k :| 0 <= k < |fields| && fields[k].key == x && !IsCanonical(NormalizeFieldName(x)) {
      NonCanonicalKept(fields, k);
    }
  }

  /** The number of outcomes that are records. */
  function CountBuilt(os: seq<Outcome>): nat {
    if |os| == 0 then 0 else CountBuilt(os[..|os| - 1]) + (if os[|os| - 1].Built? then 1 else 0)
  }

  /** The number of outcomes skipped with a warning. */
  function CountSkipped(os: seq<Outcome>): nat {
    if |os| == 0 then 0 else CountSkipped(os[..|os| - 1]) + (if os[|os| - 1].Skipped? then 1 else 0)
  }

  /** The number of outcomes skipped silently. */
  function CountBlank(os: seq<Outcome>): nat {
    if |os| == 0 then 0 else CountBlank(os[..|os| - 1]) + (if os[|os| - 1].Blank? then 1 else 0)
  }

  /** The number of records built without a timestamp. */
  function CountUnstamped(os: seq<Outcome>): nat {
    if |os| == 0 then 0 else CountUnstamped(os[..|os| - 1]) + (if os[|os| - 1].Built? && !os[|os| - 1].row.hasTimestamp then 1 else 0)
  }

  /**
   * Every row or item is accounted for: it is blank, skipped with one
   * warning, or a record, and a record costs one more warning exactly when
   * it has no timestamp.
   */
  lemma {:induction false} OutcomeAccounting(os: seq<Outcome>, kind: string, first: nat)
    ensures |Records(os)| == CountBuilt(os)
    ensures |Warnings(os, kind, first)| == CountSkipped(os) + CountUnstamped(os)
    ensures CountBuilt(os) + CountSkipped(os) + CountBlank(os) == |os|
  {
    if |os| > 0 {
      OutcomeAccounting(os[..|os| - 1], kind, first);
    }
  }

  /** The built outcomes' records appear in order: the record of outcome `k` comes after those of the outcomes before it. */
  lemma {:induction false} RecordsInOrder(os: seq<Outcome>, k: int)
    requires 0 <= k < |os| && os[k].Built?
    ensures CountBuilt(os[..k]) < |Records(os)|
    ensures Records(os)[CountBuilt(os[..k])] == os[k].row.record
  {
    var init := os[..|os| - 1];
    OutcomeAccounting(init, "", 0);
    OutcomeAccounting(os[..k], "", 0);
    if k < |init| {
      assert init[..k] == os[..k];
      RecordsInOrder(init, k);
    } else {
      assert os[..k] == init;
    }
  }

  /** An unmapped name comes from a record: some built outcome reported it. */
  lemma {:induction false} UnmappedKeyOrigin(os: seq<Outcome>, x: string) returns (k: int)
    requires x in UnmappedKeys(os)
    ensures 0 <= k < |os| && os[k].Built? && x in os[k].row.unmapped
  {
    var init := os[..|os| - 1];
    if x in UnmappedKeys(init) {
      k := UnmappedKeyOrigin(init, x);
      assert init[k] == os[k];
    } else {
      k := |os| - 1;
    }
  }

  /** Every name a built outcome reports is among the unmapped names. */
  lemma {:induction false} UnmappedKeyKept(os: seq<Outcome>, k: int, x: string)
    requires 0 <= k < |os| && os[k].Built? && x in os[k].row.unmapped
    ensures x in UnmappedKeys(os)
  {
    var init := os[..|os| - 1];
    if k < |init| {
      assert init[k] == os[k];
      UnmappedKeyKept(init, k, x);
    }
  }

  /** Outcome `k` is reported under its own number: a skipped one with its reason, a record without a timestamp as such. */
  lemma {:induction false} OutcomeWarned(os: seq<Outcome>, kind: string, first: nat, k: int)
    requires 0 <= k < |os|
    ensures os[k].Skipped? ==> Notice(kind, first + k, os[k].reason) in Warnings(os, kind, first)
    ensures os[k].Built? && !os[k].row.hasTimestamp ==> Notice(kind, first + k, MissingTimestampReason) in Warnings(os, kind, first)
  {
    var init := os[..|os| - 1];
    if k < |init| {
      assert init[k] == os[k];
      OutcomeWarned(init, kind, first, k);
    }
  }

  /** No name occurs twice. */
  predicate NoDuplicates(s: seq<string>) {
    forall i, j :: 0 <= i < j < |s| ==> s[i] != s[j]
  }

  /** The position of the first occurrence of `x`. */
  function FirstIndex(xs: seq<string>, x: string): (i: nat)
    requires x in xs
    ensures i < |xs| && xs[i] == x
  {
    if x in xs[..|xs| - 1] then FirstIndex(xs[..|xs| - 1], x) else |xs| - 1
  }

  /** Adding names keeps exactly the names already there and the names added. */
  lemma {:induction false} AddAllMembers(s: seq<string>, xs: seq<string>, x: string)
    ensures x in AddAll(s, xs) <==> x in s || x in xs
  {
    if |xs| > 0 {
      var init := xs[..|xs| - 1];
      AddAllMembers(s, init, x);
      assert xs == init + [xs[|xs| - 1]];
    }
  }

  /** Adding names never introduces a duplicate. */
  lemma {:induction false} AddAllNoDuplicates(s: seq<string>, xs: seq<string>)
    requires NoDuplicates(s)
    ensures NoDuplicates(AddAll(s, xs))
  {
    if |xs| > 0 {
      AddAllNoDuplicates(s, xs[..|xs| - 1]);
    }
  }

  /**
   * Adding names to an empty set lists each distinct name once, in the
   * order of its first occurrence: `Array.from(new Set(...))`.
   */
  lemma {:induction false} AddAllFirstSeenOrder(xs: seq<string>)
    ensures forall x :: x in AddAll([], xs) <==> x in xs
    ensures NoDuplicates(AddAll([], xs))
    ensures forall i, j :: 0 <= i < j < |AddAll([], xs)| ==>
      FirstIndex(xs, AddAll([], xs)[i]) < FirstIndex(xs, AddAll([], xs)[j])
  {
    forall x
      ensures x in AddAll([], xs) <==> x in xs
    {
      AddAllMembers([], xs, x);
    }
    AddAllNoDuplicates([], xs);
    if |xs| > 0 {
      var init := xs[..|xs| - 1];
      var x := xs[|xs| - 1];
      AddAllFirstSeenOrder(init);
      var r := AddAll([], init);
      assert forall y :: y in init ==> y in xs[..|xs| - 1];
      forall i, j | 0 <= i < j < |AddAll([], xs)|
        ensures FirstIndex(xs, AddAll([], xs)[i]) < FirstIndex(xs, AddAll([], xs)[j])
      {
        assert r[i] in init;
        if j < |r| {
          assert r[j] in init;
        }
      }
    }
  }

  /** Some outcome is a record when the count of records is positive. */
  lemma {:induction false} SomeBuilt(os: seq<Outcome>) returns (k: int)
    requires CountBuilt(os) > 0
    ensures 0 <= k < |os| && os[k].Built?
  {
    var init := os[..|os| - 1];
    if os[|os| - 1].Built? {
      k := |os| - 1;
    } else {
      k := SomeBuilt(init);
      assert init[k] == os[k];
    }
  }

  /** `parseCSV` fails exactly when the trimmed content is a single line, whatever its rows hold. */
  lemma CsvFailsIffSingleLine(content: string, p: JsPrimitives, now: int)
    ensures CsvSpec(content, p, now).Failure? <==> '\n' !in Trim(content)
    ensures CsvSpec(content, p, now).Failure? ==> CsvSpec(content, p, now).error == "CSV parsing error: " + TooShortMessage
  {
    SplitHasSeveralPieces(Trim(content), '\n');
  }

  /**
   * A data line is skipped silently exactly when it is all whitespace, is
   * skipped with the column-count warning exactly when its cell count
   * differs from the header's, and otherwise pairs its cells with the
   * headers.
   */
  lemma CsvOutcomeCases(headers: seq<string>, line: string, p: JsPrimitives, now: int)
    ensures CsvOutcome(headers, line, p, now).Blank? <==> forall m :: 0 <= m < |line| ==> IsWhitespace(line[m])
    ensures CsvOutcome(headers, line, p, now).Skipped? <==> Trim(line) != "" && |Split(Trim(line), ',')| != |headers|
    ensures CsvOutcome(headers, line, p, now).Skipped? ==> CsvOutcome(headers, line, p, now).reason == MismatchReason
    ensures CsvOutcome(headers, line, p, now).Built? ==>
      |Cells(Trim(line))| == |headers| && CsvOutcome(headers, line, p, now).row == FillRow(Zip(headers, Cells(Trim(line))), p, now)
  {
    TrimSpec(line);
  }

  /** The number of data lines that are not all whitespace. */
  function NonBlankLines(data: seq<string>): nat {
    if |data| == 0 then 0 else NonBlankLines(data[..|data| - 1]) + (if Trim(data[|data| - 1]) != "" then 1 else 0)
  }

  lemma {:induction false} CsvBlankCount(headers: seq<string>, data: seq<string>, p: JsPrimitives, now: int)
    ensures CountBlank(CsvOutcomes(headers, data, p, now)) + NonBlankLines(data) == |data|
  {
    if |data| > 0 {
      var init := data[..|data| - 1];
      CsvBlankCount(headers, init, p, now);
      assert CsvOutcomes(headers, data, p, now)[..|data| - 1] == CsvOutcomes(headers, init, p, now);
    }
  }

  /**
   * Row accounting for `parseCSV`: every non-blank data line is either a
   * record or a column-count warning, and the warnings are those plus one
   * per record without a timestamp.
   */
  lemma CsvRowAccounting(content: string, p: JsPrimitives, now: int)
    requires CsvSpec(content, p, now).Success?
    ensures var lines := Split(Trim(content), '\n');
      var os := CsvOutcomes(Cells(lines[0]), lines[1..], p, now);
      && |CsvSpec(content, p, now).value.records| + CountSkipped(os) == NonBlankLines(lines[1..])
      && |CsvSpec(content, p, now).value.warnings| == CountSkipped(os) + CountUnstamped(os)
  {
    var lines := Split(Trim(content), '\n');
    var os := CsvOutcomes(Cells(lines[0]), lines[1..], p, now);
    OutcomeAccounting(os, "Row", 2);
    CsvBlankCount(Cells(lines[0]), lines[1..], p, now);
  }

  /** An unmapped key of CSV outcomes is a non-canonical header, and some row was built. */
  lemma CsvUnmappedIsHeader(headers: seq<string>, data: seq<string>, p: JsPrimitives, now: int, x: string)
    requires x in UnmappedKeys(CsvOutcomes(headers, data, p, now))
    ensures CountBuilt(CsvOutcomes(headers, data, p, now)) > 0
    ensures x in headers && !IsCanonical(NormalizeFieldName(x))
  {
    var os := CsvOutcomes(headers, data, p, now);
    var k := UnmappedKeyOrigin(os, x);
    CsvOutcomeCases(headers, data[k], p, now);
    var fields := Zip(headers, Cells(Trim(data[k])));
    RowUnmappedKeys(fields, p, now);
    var j := NonCanonicalOrigin(fields, x);
    assert headers[j] == x;
    OutcomeAccounting(os, "Row", 2);
    RecordsInOrder(os, k);
  }

  /** Once some row is built, every non-canonical header is an unmapped key. */
  lemma CsvHeaderIsUnmapped(headers: seq<string>, data: seq<string>, p: JsPrimitives, now: int, x: string)
    requires CountBuilt(CsvOutcomes(headers, data, p, now)) > 0
    requires x in headers && !IsCanonical(NormalizeFieldName(x))
    ensures x in UnmappedKeys(CsvOutcomes(headers, data, p, now))
  {
    var os := CsvOutcomes(headers, data, p, now);
    var k := SomeBuilt(os);
    CsvOutcomeCases(headers, data[k], p, now);
    var fields := Zip(headers, Cells(Trim(data[k])));
    var j :| 0 <= j < |headers| && headers[j] == x;
    assert fields[j].key == x;
    NonCanonicalKept(fields, j);
    RowUnmappedKeys(fields, p, now);
    UnmappedKeyKept(os, k, x);
  }

  /**
   * The unmapped fields `parseCSV` reports are exactly the headers that map
   * to no canonical key, provided at least one row became a record.
   */
  lemma CsvUnmappedFields(content: string, p: JsPrimitives, now: int, x: string)
    requires CsvSpec(content, p, now).Success?
    ensures var lines := Split(Trim(content), '\n');
      var os := CsvOutcomes(Cells(lines[0]), lines[1..], p, now);
      x in CsvSpec(content, p, now).value.unmappedFields <==>
        CountBuilt(os) > 0 && x in Cells(lines[0]) && !IsCanonical(NormalizeFieldName(x))
  {
    var lines := Split(Trim(content), '\n');
    var headers := Cells(lines[0]);
    var os := CsvOutcomes(headers, lines[1..], p, now);
    AddAllMembers([], UnmappedKeys(os), x);
    if x in UnmappedKeys(os) {
      CsvUnmappedIsHeader(headers, lines[1..], p, now, x);
    }
    if CountBuilt(os) > 0 && x in headers && !IsCanonical(NormalizeFieldName(x)) {
      CsvHeaderIsUnmapped(headers, lines[1..], p, now, x);
    }
  }

  /** A top-level value that is not an array is read as a single item, item 1. */
  lemma JsonNonArrayIsOneItem(data: Json, p: JsPrimitives, now: int)
    requires !data.JArray?
    ensures JsonSpec(Success(data), p, now) == Success(Collect([JsonOutcome(data, p, now)], "Item", 1))
  {
    assert JsonOutcomes([data], p, now) == [JsonOutcome(data, p, now)];
  }

  /** `null`, booleans, numbers and strings are skipped, each with one warning; arrays and objects become records. */
  lemma JsonItemKinds(item: Json, p: JsPrimitives, now: int)
    ensures !IsObject(item) <==> item.JNull? || item.JBool? || item.JNumber? || item.JString?
    ensures !IsObject(item) ==> JsonOutcome(item, p, now) == Skipped(NotObjectReason)
    ensures IsObject(item) ==> JsonOutcome(item, p, now) == Built(FillRow(JsonFields(item), p, now))
  {
  }

  /** The warning for a skipped first item, spelled out. */
  lemma FirstItemNotice()
    ensures Notice("Item", 1, NotObjectReason) == "Item 1: Not an object, skipping"
  {
    assert NatToString(1) == "1";
  }

  /** A JSON document that is just `null` gives no record and the single warning "Item 1: Not an object, skipping". */
  lemma JsonNullDocument(p: JsPrimitives, now: int)
    ensures JsonSpec(Success(JNull), p, now) == Success(ParseResult([], ["Item 1: Not an object, skipping"], []))
  {
    JsonNonArrayIsOneItem(JNull, p, now);
    var os := [Skipped(NotObjectReason)];
    assert JsonOutcome(JNull, p, now) == os[0];
    assert os[..0] == [];
    assert Records(os) == [] && UnmappedKeys(os) == [];
    assert Warnings(os, "Item", 1) == [Notice("Item", 1, NotObjectReason)];
    FirstItemNotice();
  }

  /** An array item passes the object test; its fields are keyed "0", "1", ... in order. */
  lemma JsonArrayItemFields(elements: seq<Json>, k: int)
    requires 0 <= k < |elements|
    ensures |JsonFields(JArray(elements))| == |elements|
    ensures JsonFields(JArray(elements))[k] == Field(NatToString(k), ToJsString(elements[k]))
  {
  }

  /** Every item of a JSON document is a record or a "not an object" warning. */
  lemma {:induction false} JsonItemAccounting(items: seq<Json>, p: JsPrimitives, now: int)
    ensures CountBlank(JsonOutcomes(items, p, now)) == 0
    ensures CountBuilt(JsonOutcomes(items, p, now)) + CountSkipped(JsonOutcomes(items, p, now)) == |items|
  {
    var os := JsonOutcomes(items, p, now);
    OutcomeAccounting(os, "Item", 1);
    if |items| > 0 {
      JsonItemAccounting(items[..|items| - 1], p, now);
      assert os[..|items| - 1] == JsonOutcomes(items[..|items| - 1], p, now);
    }
  }
}
