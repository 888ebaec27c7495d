# Smartwatch import and analytics, modelled in Dafny

This project models the data-ingestion core of a smartwatch dataset tool.
The core turns a CSV or JSON export from a wearable device into typed health
records, and later summarises a (possibly date-filtered) set of stored
records. It has three parts:

- **Field normaliser** (`fieldMapping.ts`). A header or key is lower-cased and
  stripped of everything outside `[a-z0-9]`. It is then looked up in a
  synonym table that maps it onto one of six canonical keys: `timestamp`,
  `steps`, `heartrate`, `calories`, `distance` and `sleep`. An unrecognised
  name comes back verbatim.
- **Importers** (`importParsers.ts`):
  - `parseCSV` splits the trimmed text into lines. The first line is the
    header row. Blank lines are skipped silently. A line with the wrong
    number of cells is skipped with a warning. Every other line becomes a
    record.
  - `parseJSON` treats a parsed array as its items and any other value as a
    single item. A non-object is skipped with a warning. Every object becomes
    a record.
  - In both importers, a record for which no timestamp column parses is
    stamped with the current time and warned about.
  - Columns and keys that no canonical key claims are collected, without
    repeats and in order of first sight.
  - An error is re-raised with a `CSV parsing error: ` or
    `JSON parsing error: ` prefix.
- **Analytics** (`analytics.ts`):
  - `filterRecordsByDateRange` keeps the records whose nanosecond timestamp,
    read as a JavaScript `Date`, falls within an inclusive range.
  - `computeDerivedMetrics` totals steps, calories, distance and sleep, and
    takes the rounded average, the minimum and the maximum of the heart rate.
    Each figure is taken over only the records that carry that metric, and
    is null exactly when none does.

## How the code is modelled

The modules follow the source files:

| module | what it holds |
|---|---|
| `FieldMapping` and `FieldMappingProperties` | the normaliser |
| `ImportSpec`, `ImportParsers` and `ImportProperties` | the importers |
| `Analytics` and `AnalyticsProperties` | the analytics |
| `SmartwatchModel` | the record types |
| `JsonValue` | the value `JSON.parse` returns |
| `JsText` | the string primitives the importers use |
| `Wrappers` | `Option` and `Result` |

- **Importers.** The two importers are loops that build records field by field.
  - They are modelled as methods in `ImportParsers`, with one helper method per
    loop or loop body of the source. Each method is proved to return exactly
    what a specification function in `ImportSpec` describes.
  - `ApplyField` says what one column does to the record being built. `FillRow`
    folds `ApplyField` over the columns of one row.
  - `CsvOutcome` and `JsonOutcome` say what one line or item becomes: blank,
    skipped with a reason, or built.
  - `Collect` gathers the outcomes into a `ParseResult`.
  - `ImportProperties` proves what the importers promise about the result of
    those functions.
- **`computeDerivedMetrics`.** This is a loop over twelve accumulators.
  - It is modelled as the method `Analytics.ComputeDerivedMetrics`.
  - The method is proved to return `Summarize(records)`, a definition written
    from the readings of each metric: the sum, the count, and the minimum and
    maximum.
  - `AnalyticsProperties` proves the null semantics, the bounds and the
    rounding about `Summarize`.
- **The date filter** is pure and is modelled as functions.
- **JavaScript library calls** are given as the fields of `ImportSpec.JsPrimitives`:
  - `new Date(string)` parsing;
  - `parseInt(value, 10)`;
  - `parseFloat`.

  Each is a total function returning `None` for NaN.
  - `JSON.parse` is represented by its result: a `JsonValue.Json` value, or a
    `Failure` carrying the syntax error's message.
  - The current time that `new Date()` reads is a parameter `now`, in
    milliseconds.
- **Numbers.** `number` is modelled as an exact `real` and `bigint` as `int`.
  - `Math.round(x)` is `floor(x + 1/2)`.
  - `new Date(ms)` is valid exactly when `|ms| <= 8.64e15`. In the filter
    this applies to `Number(ts) / 1e6` truncated toward zero. A comparison
    involving an invalid date is false.

Points where the code's behaviour is easy to misread (the model follows the
code):

- `parseNumber` and `parseTimestamp` do not trim their argument. A CSV cell
  is trimmed before its quotes are removed, so a quoted cell keeps its inner
  whitespace (`" 5"` reaches `parseNumber` as ` 5`). JSON values are passed
  as `String(value)`, untrimmed.
- A timestamp that the date parser rejects but `parseInt` reads as a
  millisecond count outside ±8.64e15 gives an Invalid Date. Being an
  object, it is truthy, so the row counts as stamped: it keeps the Invalid
  Date and gets no warning (`ImportProperties.OutOfRangeMillisecondsStamp`).
- CSV input fails when the trimmed text has no line break. This is the
  lines-after-splitting test of `importParsers.ts:10-13`. It is equivalent
  to "fewer than two non-blank lines", because the first and last lines of
  trimmed text are never blank.
- The synonym table entries `heart_rate` and `sleep_duration` can never match,
  because the lookup key has its underscores removed
  (`FieldMapping.UnderscoreEntriesUnreachable`). Such names still reach their
  canonical key through `heartrate` and `sleepduration`.

## Model

| member | source | states |
|---|---|---|
| FieldMapping.NormalizeFieldName | src/frontend/src/lib/smartwatch/fieldMapping.ts:35-38 | the result is one of the six canonical keys or the name itself, unchanged |
| FieldMapping.LookupKey | src/frontend/src/lib/smartwatch/fieldMapping.ts:36 | defines the lookup key: the name lower-cased with everything outside `[a-z0-9]` removed, character by character (proved about it: `LookupKeyLowerAlnum`, `LookupKeyDrops`, `LookupKeyFixes`, `LookupKeyIgnoresCase`) |
| FieldMappingProperties.SynonymTable | src/frontend/src/lib/smartwatch/fieldMapping.ts:1-33 | the synonym table `FieldMappings` sends every spelling to one of the six canonical keys, and each canonical key to itself |
| FieldMapping.LookupKeyLowerAlnum | src/frontend/src/lib/smartwatch/fieldMapping.ts:36 | the lookup key of any name consists only of `[a-z0-9]` |
| FieldMapping.LookupKeyDrops | src/frontend/src/lib/smartwatch/fieldMapping.ts:36 | a name with no letter or digit has the empty lookup key |
| FieldMapping.LookupKeyFixes | src/frontend/src/lib/smartwatch/fieldMapping.ts:36 | a name already made of `[a-z0-9]` is its own lookup key |
| FieldMapping.LookupKeyIgnoresCase | src/frontend/src/lib/smartwatch/fieldMapping.ts:36 | two names that differ only in letter case have the same lookup key |
| FieldMapping.UnderscoreEntriesUnreachable | src/frontend/src/lib/smartwatch/fieldMapping.ts:13-31 | no name has the lookup key `heart_rate` or `sleep_duration`, so those table entries are dead |
| FieldMappingProperties.CanonicalKeysAreFixed | src/frontend/src/lib/smartwatch/fieldMapping.ts:1-33 | each canonical key looks itself up and normalises to itself |
| FieldMappingProperties.CanonicalIffRecognized | src/frontend/src/lib/smartwatch/fieldMapping.ts:35-38 | a name normalises to a canonical key exactly when its lookup key is in the synonym table |
| FieldMappingProperties.NormalizeIdempotent | src/frontend/src/lib/smartwatch/fieldMapping.ts:35-38 | normalising twice gives the same result as normalising once |
| FieldMappingProperties.NormalizeIgnoresCaseAndPunctuation | src/frontend/src/lib/smartwatch/fieldMapping.ts:36-37 | names with the same lookup key are both recognised or both not, and when recognised they get the same canonical key |
| FieldMappingProperties.NotRecognisedVerbatim | src/frontend/src/lib/smartwatch/fieldMapping.ts:37 | an unrecognised name is returned verbatim |
| FieldMappingProperties.HeartRateUnderscore | src/frontend/src/lib/smartwatch/fieldMapping.ts:13 | `Heart_Rate` normalises to `heartrate` |
| FieldMappingProperties.HeartRateDash | src/frontend/src/lib/smartwatch/fieldMapping.ts:13 | `heart-rate` normalises to `heartrate` |
| FieldMappingProperties.HeartRateCaps | src/frontend/src/lib/smartwatch/fieldMapping.ts:13 | `HEARTRATE` normalises to `heartrate` |
| FieldMappingProperties.HeartRateHr | src/frontend/src/lib/smartwatch/fieldMapping.ts:15 | `HR` normalises to `heartrate` |
| FieldMappingProperties.HeartRateBpm | src/frontend/src/lib/smartwatch/fieldMapping.ts:16 | `bpm` normalises to `heartrate` |
| FieldMappingProperties.HeartRatePulse | src/frontend/src/lib/smartwatch/fieldMapping.ts:17 | `Pulse` normalises to `heartrate` |
| FieldMappingProperties.CaloriesKcal | src/frontend/src/lib/smartwatch/fieldMapping.ts:21 | `kcal` normalises to `calories` |
| FieldMappingProperties.CaloriesEnergy | src/frontend/src/lib/smartwatch/fieldMapping.ts:22 | `Energy` normalises to `calories` |
| FieldMappingProperties.DistanceKm | src/frontend/src/lib/smartwatch/fieldMapping.ts:26 | `KM` normalises to `distance` |
| FieldMappingProperties.DistanceMiles | src/frontend/src/lib/smartwatch/fieldMapping.ts:27 | `miles` normalises to `distance` |
| FieldMappingProperties.TimestampDate | src/frontend/src/lib/smartwatch/fieldMapping.ts:4 | `Date` normalises to `timestamp` |
| FieldMappingProperties.TimestampCreated | src/frontend/src/lib/smartwatch/fieldMapping.ts:6 | `created` normalises to `timestamp` |
| FieldMappingProperties.StepsCapitalised | src/frontend/src/lib/smartwatch/fieldMapping.ts:9 | `Steps` normalises to `steps` |
| FieldMappingProperties.StepsStepCount | src/frontend/src/lib/smartwatch/fieldMapping.ts:11 | `StepCount` normalises to `steps` |
| FieldMappingProperties.DashesVerbatim | src/frontend/src/lib/smartwatch/fieldMapping.ts:37 | `---` (empty lookup key) is returned verbatim |
| FieldMappingProperties.TempVerbatim | src/frontend/src/lib/smartwatch/fieldMapping.ts:37 | `Temp` is not recognised and is returned verbatim |
| SmartwatchModel.NewDate | src/frontend/src/lib/smartwatch/importParsers.ts:153 | `new Date(ms)` is a valid date, holding `ms`, exactly when `ms` lies within ±8.64e15 |
| SmartwatchModel.Set | src/frontend/src/lib/smartwatch/importParsers.ts:41-55 | assigning one metric sets that metric and leaves the other metrics and the timestamp unchanged |
| JsonValue.Entries | src/frontend/src/lib/smartwatch/importParsers.ts:97 | an object's entries are its members in order; an array's entries are its elements under the keys "0", "1", … |
| JsonValue.Items | src/frontend/src/lib/smartwatch/importParsers.ts:85 | an array is its own list of items; any other value is a list of one |
| JsonValue.IsObject | src/frontend/src/lib/smartwatch/importParsers.ts:89 | defines `typeof item === 'object' && item !== null`: objects and arrays |
| JsonValue.ToJsString | src/frontend/src/lib/smartwatch/importParsers.ts:101 | defines `String(value)` on a parsed JSON value: `null`, `true`/`false`, the number text, the string, an array joined with commas (null elements empty), `[object Object]` |
| JsText.TrimSpec | src/frontend/src/lib/smartwatch/importParsers.ts:10 | trimming removes a whitespace prefix and suffix and nothing else; the result starts and ends with non-whitespace; it is empty exactly when the string is all whitespace |
| JsText.Trim | src/frontend/src/lib/smartwatch/importParsers.ts:10 | `String.prototype.trim`; never longer than its input (characterised by `TrimSpec`) |
| JsText.Split | src/frontend/src/lib/smartwatch/importParsers.ts:10 | `split` on one character; at least one piece (characterised by `SplitSpec`) |
| JsText.StripQuotes | src/frontend/src/lib/smartwatch/importParsers.ts:15 | the quote-stripping regular expression: removes at most one leading and one trailing quote, so the result is at most two characters shorter |
| JsText.Cell | src/frontend/src/lib/smartwatch/importParsers.ts:22 | defines one cleaned cell: trimmed, then stripped of its quotes |
| JsText.TrimIdempotent | src/frontend/src/lib/smartwatch/importParsers.ts:19 | trimming twice gives the same result as trimming once |
| JsText.SplitSpec | src/frontend/src/lib/smartwatch/importParsers.ts:10 | no piece contains the separator, and joining the pieces with it gives back the string |
| JsText.SplitHasSeveralPieces | src/frontend/src/lib/smartwatch/importParsers.ts:10-11 | splitting gives at least two pieces exactly when the separator occurs |
| JsText.StripQuotesOfQuoted | src/frontend/src/lib/smartwatch/importParsers.ts:15 | one leading and one trailing quote character are removed |
| JsText.StripQuotesOfUnquoted | src/frontend/src/lib/smartwatch/importParsers.ts:22 | a cell neither starting nor ending with a quote is unchanged |
| JsText.Cells | src/frontend/src/lib/smartwatch/importParsers.ts:22 | one cell per comma-separated piece, each trimmed and stripped of its quotes |
| JsText.NatToStringDecimal | src/frontend/src/lib/smartwatch/importParsers.ts:24 | the number in a warning is written in decimal digits with no leading zero, and reads back as the number |
| ImportSpec.ParseTimestamp | src/frontend/src/lib/smartwatch/importParsers.ts:143-157 | nothing for the empty string; otherwise the date parse if it is valid, else `new Date` of the integer parse, else nothing |
| ImportSpec.ParseNumber | src/frontend/src/lib/smartwatch/importParsers.ts:159-163 | nothing for the empty string, otherwise `parseFloat` (nothing when it is NaN) |
| ImportSpec.DateParses | src/frontend/src/lib/smartwatch/importParsers.ts:146-147 | defines `!isNaN(new Date(value).getTime())`: the date parser reads the value as a time within ±8.64e15 |
| ImportSpec.ApplyField | src/frontend/src/lib/smartwatch/importParsers.ts:32-58 | defines one pass of the column loop: the timestamp branch, the five metric branches and the unmapped branch (proved about it: `ApplyTimestampField`, `ApplyMetricField`, `ApplyUnmappedField`) |
| ImportSpec.FillRow | src/frontend/src/lib/smartwatch/importParsers.ts:28-59 | defines the record built from a row: `ApplyField` over its columns in order, starting from the current time and no flag (proved about it: `MetricPresentIffSet`, `TimestampSetIffSomeFieldSets`, `RowUnmappedKeys`) |
| ImportSpec.CsvOutcome | src/frontend/src/lib/smartwatch/importParsers.ts:19-65 | defines what one data line becomes: blank, skipped for a column-count mismatch, or built from its header/value pairs (characterised by `CsvOutcomeCases`) |
| ImportSpec.JsonOutcome | src/frontend/src/lib/smartwatch/importParsers.ts:88-130 | defines what one item becomes: skipped when not an object, otherwise built from its entries (characterised by `JsonItemKinds`) |
| ImportSpec.Notice | src/frontend/src/lib/smartwatch/importParsers.ts:24 | defines a warning: kind, number and reason, as in `Row ${i + 1}: …` (checked literally by `FirstItemNotice`) |
| ImportSpec.SetAdd | src/frontend/src/lib/smartwatch/importParsers.ts:57 | defines `Set.prototype.add` on a set kept in insertion order |
| ImportSpec.AddAll | src/frontend/src/lib/smartwatch/importParsers.ts:74 | defines the set after a sequence of adds (proved about it: `AddAllMembers`, `AddAllNoDuplicates`, `AddAllFirstSeenOrder`) |
| ImportSpec.Collect | src/frontend/src/lib/smartwatch/importParsers.ts:71-75 | defines the returned `ParseResult`: the built records in order, the warnings numbered from the first row or item, and the unmapped names through the set (proved about it: `OutcomeAccounting`, `RecordsInOrder`, `OutcomeWarned`) |
| ImportSpec.CsvSpec | src/frontend/src/lib/smartwatch/importParsers.ts:4-76 | defines `parseCSV`: the prefixed failure below two lines, otherwise `Collect` of the data lines with rows numbered from 2 (proved about it: `CsvFailsIffSingleLine`, `CsvRowAccounting`, `CsvUnmappedFields`) |
| ImportSpec.JsonSpec | src/frontend/src/lib/smartwatch/importParsers.ts:78-141 | defines `parseJSON`: the prefixed failure for a syntax error, otherwise `Collect` of the items with items numbered from 1 (proved about it: `JsonNonArrayIsOneItem`, `JsonItemAccounting`, `JsonNullDocument`) |
| ImportSpec.MetricOf | src/frontend/src/lib/smartwatch/importParsers.ts:41-55 | each canonical key other than `timestamp`, and only those, names a metric, the metric whose key it is |
| ImportSpec.ApplyTimestampField | src/frontend/src/lib/smartwatch/importParsers.ts:35-40 | a timestamp column that parses replaces the timestamp and sets the flag; otherwise the row state is unchanged |
| ImportSpec.ApplyMetricField | src/frontend/src/lib/smartwatch/importParsers.ts:41-55 | a metric column that parses sets that metric; otherwise the row state is unchanged |
| ImportSpec.ApplyUnmappedField | src/frontend/src/lib/smartwatch/importParsers.ts:56-58 | a column no canonical key claims only appends its header to the unmapped names |
| ImportSpec.ApplyFieldUnmapped | src/frontend/src/lib/smartwatch/importParsers.ts:35-58 | a column adds its own name to the unmapped names exactly when it is not canonical |
| ImportParsers.ApplyFieldStep | src/frontend/src/lib/smartwatch/importParsers.ts:32-58 | the if-chain of the inner loop computes `ApplyField` and adds an unmapped header to the set |
| ImportParsers.FillCsvRow | src/frontend/src/lib/smartwatch/importParsers.ts:28-59 | the column loop yields the record, flag and unmapped names of `FillRow` over the header/value pairs |
| ImportParsers.CsvRow | src/frontend/src/lib/smartwatch/importParsers.ts:19-65 | one pass of the line loop appends exactly the record, warnings and unmapped names of `CsvOutcome` |
| ImportParsers.CsvRows | src/frontend/src/lib/smartwatch/importParsers.ts:18-66 | the line loop returns `Collect` of the data lines' outcomes, rows numbered from 2 |
| ImportParsers.ParseCsv | src/frontend/src/lib/smartwatch/importParsers.ts:4-76 | `parseCSV` returns exactly `CsvSpec`, including its failure |
| ImportParsers.FillJsonItem | src/frontend/src/lib/smartwatch/importParsers.ts:94-124 | the entry loop yields the record, flag and unmapped names of `FillRow` over the item's entries |
| ImportParsers.JsonItem | src/frontend/src/lib/smartwatch/importParsers.ts:88-130 | one pass of the item loop appends exactly the record, warnings and unmapped names of `JsonOutcome` |
| ImportParsers.JsonItems | src/frontend/src/lib/smartwatch/importParsers.ts:87-131 | the item loop returns `Collect` of the items' outcomes, items numbered from 1 |
| ImportParsers.ParseJson | src/frontend/src/lib/smartwatch/importParsers.ts:78-141 | `parseJSON` returns exactly `JsonSpec`, including the syntax-error failure |
| ImportProperties.ApplyFieldKeepsMetric | src/frontend/src/lib/smartwatch/importParsers.ts:41-55 | a column that does not set metric m leaves m unchanged |
| ImportProperties.ApplyFieldKeepsTimestamp | src/frontend/src/lib/smartwatch/importParsers.ts:35-40 | a column that does not set the timestamp leaves the timestamp and its flag unchanged |
| ImportProperties.ApplyFieldMetricPresence | src/frontend/src/lib/smartwatch/importParsers.ts:41-55 | after a column, metric m is present exactly when it was before or the column sets it |
| ImportProperties.SetMetricPresent | src/frontend/src/lib/smartwatch/importParsers.ts:31-59 | if any column sets metric m, the record has m |
| ImportProperties.UnsetMetricAbsent | src/frontend/src/lib/smartwatch/importParsers.ts:28-59 | if no column sets metric m, the record lacks m (absent, not zero) |
| ImportProperties.MetricPresentIffSet | src/frontend/src/lib/smartwatch/importParsers.ts:28-59 | a record has metric m exactly when some column of its row sets m |
| ImportProperties.LastMetricWins | src/frontend/src/lib/smartwatch/importParsers.ts:41-55 | with several columns for one metric, the last one that parses gives its value |
| ImportProperties.ApplyFieldTimestampFlag | src/frontend/src/lib/smartwatch/importParsers.ts:35-40 | after a column the flag is set exactly when it was before or the column sets the timestamp |
| ImportProperties.SetTimestampFlagged | src/frontend/src/lib/smartwatch/importParsers.ts:29-40 | if any column yields a timestamp, the row is flagged as stamped |
| ImportProperties.UnsetTimestampDefaults | src/frontend/src/lib/smartwatch/importParsers.ts:28-29 | if no column yields a timestamp, the row is unflagged and stamped with the current time |
| ImportProperties.TimestampSetIffSomeFieldSets | src/frontend/src/lib/smartwatch/importParsers.ts:28-63 | a row is stamped exactly when some column yields a timestamp, and is otherwise stamped with the current time |
| ImportProperties.LastTimestampWins | src/frontend/src/lib/smartwatch/importParsers.ts:31-40 | with several timestamp columns, the last one that parses gives the timestamp |
| ImportProperties.OutOfRangeMillisecondsStamp | src/frontend/src/lib/smartwatch/importParsers.ts:151-153 | a millisecond count outside ±8.64e15 gives an Invalid Date that still counts as a timestamp: the row is stamped with it and gets no warning |
| ImportProperties.EmptyValueIgnored | src/frontend/src/lib/smartwatch/importParsers.ts:159-160 | an empty value in a canonical column changes nothing |
| ImportProperties.RowUnmappedKeys | src/frontend/src/lib/smartwatch/importParsers.ts:31-58 | a row's unmapped names are the headers of its non-canonical columns, in column order, repeats included |
| ImportProperties.NonCanonicalOrigin | src/frontend/src/lib/smartwatch/importParsers.ts:56-58 | every such name heads a column that no canonical key claims |
| ImportProperties.NonCanonicalKept | src/frontend/src/lib/smartwatch/importParsers.ts:56-58 | every column no canonical key claims contributes its header |
| ImportProperties.RowUnmappedIffNotCanonical | src/frontend/src/lib/smartwatch/importParsers.ts:31-58 | a name is unmapped in a row exactly when it heads a column that no canonical key claims |
| ImportProperties.OutcomeAccounting | src/frontend/src/lib/smartwatch/importParsers.ts:18-66 | every line or item is blank, skipped with one warning, or a record; a record costs one more warning exactly when it has no timestamp |
| ImportProperties.RecordsInOrder | src/frontend/src/lib/smartwatch/importParsers.ts:65 | the records come out in input order: a built row's record sits after those of the rows before it |
| ImportProperties.OutcomeWarned | src/frontend/src/lib/smartwatch/importParsers.ts:24-62 | a skipped row, and a record without a timestamp, each produce a warning carrying its own row or item number |
| ImportProperties.UnmappedKeyOrigin | src/frontend/src/lib/smartwatch/importParsers.ts:57 | every unmapped name was reported by a row that became a record |
| ImportProperties.UnmappedKeyKept | src/frontend/src/lib/smartwatch/importParsers.ts:57 | every name such a row reports is among the unmapped names |
| ImportProperties.AddAllMembers | src/frontend/src/lib/smartwatch/importParsers.ts:74 | the set keeps exactly the names it had and the names added |
| ImportProperties.AddAllNoDuplicates | src/frontend/src/lib/smartwatch/importParsers.ts:74 | adding names to a repeat-free list keeps it free of repeats |
| ImportProperties.AddAllFirstSeenOrder | src/frontend/src/lib/smartwatch/importParsers.ts:74 | `Array.from(set)` holds each added name once, in order of first addition |
| ImportProperties.CsvFailsIffSingleLine | src/frontend/src/lib/smartwatch/importParsers.ts:10-13 | CSV input fails exactly when its trimmed text has no line break, with the message `CSV parsing error: CSV file must contain at least a header row and one data row` |
| ImportProperties.CsvOutcomeCases | src/frontend/src/lib/smartwatch/importParsers.ts:19-26 | a line is blank exactly when it is all whitespace, skipped with the mismatch reason exactly when its cell count differs from the header's, and otherwise filled from its header/value pairs |
| ImportProperties.CsvBlankCount | src/frontend/src/lib/smartwatch/importParsers.ts:20 | the silently skipped lines are exactly the blank ones |
| ImportProperties.CsvRowAccounting | src/frontend/src/lib/smartwatch/importParsers.ts:18-66 | records plus mismatched rows make up all non-blank data lines; one warning per mismatched row plus one per record without a timestamp |
| ImportProperties.CsvUnmappedIsHeader | src/frontend/src/lib/smartwatch/importParsers.ts:56-58 | every unmapped name is a non-canonical header, and some row became a record |
| ImportProperties.CsvHeaderIsUnmapped | src/frontend/src/lib/smartwatch/importParsers.ts:56-58 | once any row becomes a record, every non-canonical header is unmapped |
| ImportProperties.CsvUnmappedFields | src/frontend/src/lib/smartwatch/importParsers.ts:15-74 | the CSV unmapped names are exactly the non-canonical headers if some row became a record, and none otherwise |
| ImportProperties.JsonNonArrayIsOneItem | src/frontend/src/lib/smartwatch/importParsers.ts:85 | a document that is not an array is imported as a single item |
| ImportProperties.JsonItemKinds | src/frontend/src/lib/smartwatch/importParsers.ts:89-97 | null, booleans, numbers and strings are skipped as not objects; objects and arrays are filled from their entries |
| ImportProperties.FirstItemNotice | src/frontend/src/lib/smartwatch/importParsers.ts:90 | the first item's warning reads `Item 1: Not an object, skipping` |
| ImportProperties.JsonNullDocument | src/frontend/src/lib/smartwatch/importParsers.ts:84-92 | the document `null` gives no records, one warning and no unmapped names |
| ImportProperties.JsonArrayItemFields | src/frontend/src/lib/smartwatch/importParsers.ts:97 | an array item's fields are its elements, each under its index and converted with `String` |
| ImportProperties.JsonItemAccounting | src/frontend/src/lib/smartwatch/importParsers.ts:87-131 | no JSON item is skipped silently: each is a record or skipped with a warning |
| Analytics.RecordDate | src/frontend/src/lib/smartwatch/analytics.ts:26-27 | the date of a nanosecond timestamp is valid exactly when the timestamp lies within ±8.64e21 |
| Analytics.InRange | src/frontend/src/lib/smartwatch/analytics.ts:28 | defines `date >= range.start && date <= range.end`: all three dates valid and the record's time between the bounds, both included |
| Analytics.Keeps | src/frontend/src/lib/smartwatch/analytics.ts:25-29 | defines the filter callback: the record's date is in range |
| Analytics.KeepInRange | src/frontend/src/lib/smartwatch/analytics.ts:25-29 | `records.filter(...)`; never longer than its input (characterised by `KeepInRangeMembers`, `KeepInRangeSubsequence`) |
| Analytics.FilterRecordsByDateRange | src/frontend/src/lib/smartwatch/analytics.ts:19-30 | no range returns the records unchanged; a range never adds records |
| Analytics.TallySteps | src/frontend/src/lib/smartwatch/analytics.ts:64-67 | the steps accumulators hold the sum and count of the step readings |
| Analytics.TallyHeartRate | src/frontend/src/lib/smartwatch/analytics.ts:69-80 | the heart-rate accumulators hold the sum, count, minimum and maximum of the heart-rate readings |
| Analytics.TallyCalories | src/frontend/src/lib/smartwatch/analytics.ts:82-85 | the calories accumulators hold the sum and count of the calorie readings |
| Analytics.TallyDistance | src/frontend/src/lib/smartwatch/analytics.ts:87-90 | the distance accumulators hold the sum and count of the distance readings |
| Analytics.TallySleep | src/frontend/src/lib/smartwatch/analytics.ts:92-95 | the sleep accumulators hold the sum and count of the sleep readings |
| Analytics.AddRecord | src/frontend/src/lib/smartwatch/analytics.ts:63-96 | defines one pass of the accumulator loop: each metric the record carries is added and counted, and the heart rate updates the running minimum and maximum |
| Analytics.Round | src/frontend/src/lib/smartwatch/analytics.ts:100 | defines `Math.round`: `floor(x + 1/2)` (proved about it: `RoundIsNearest`, `RoundMonotone`, `RoundOfInteger`) |
| Analytics.RoundToCents | src/frontend/src/lib/smartwatch/analytics.ts:104 | defines `Math.round(x * 100) / 100` (proved about it: `RoundedTotals`) |
| Analytics.Summarize | src/frontend/src/lib/smartwatch/analytics.ts:98-107 | defines the returned metrics from the readings of each metric: sums, the rounded mean, minimum and maximum heart rate, rounded calories and distance, each null without readings (proved about it: `NullIffNoContributor`, `HeartRateExtremes`, `AverageWithinExtremes`, `RoundedTotals`) |
| Analytics.FinishTally | src/frontend/src/lib/smartwatch/analytics.ts:98-107 | the returned object built from the final accumulators is `Summarize` of the records |
| Analytics.ComputeDerivedMetrics | src/frontend/src/lib/smartwatch/analytics.ts:32-108 | the method returns `Summarize(records)`, built from the per-metric readings |
| AnalyticsProperties.KeepInRangeMembers | src/frontend/src/lib/smartwatch/analytics.ts:25-29 | a record is kept exactly when it is an input record whose date is within the range |
| AnalyticsProperties.KeepInRangeSubsequence | src/frontend/src/lib/smartwatch/analytics.ts:25-29 | the result is the in-range records at increasing input positions, every in-range position included |
| AnalyticsProperties.FilterIdempotent | src/frontend/src/lib/smartwatch/analytics.ts:19-30 | filtering twice by the same range gives the same result as filtering once |
| AnalyticsProperties.RecordDateTruncates | src/frontend/src/lib/smartwatch/analytics.ts:26-27 | a valid record date holds the nanosecond timestamp divided by 1e6, truncated toward zero |
| AnalyticsProperties.InRangeBounds | src/frontend/src/lib/smartwatch/analytics.ts:25-29 | for a non-negative timestamp, a record is in range exactly when `start*1e6 <= ts < (end+1)*1e6` |
| AnalyticsProperties.InvalidBoundKeepsNothing | src/frontend/src/lib/smartwatch/analytics.ts:28 | a range with an invalid start or end keeps no record |
| AnalyticsProperties.IntReadingsEmpty | src/frontend/src/lib/smartwatch/analytics.ts:64-95 | there are no readings of an integer metric exactly when no record carries it |
| AnalyticsProperties.RealReadingsEmpty | src/frontend/src/lib/smartwatch/analytics.ts:82-90 | there are no readings of calories or distance exactly when no record carries it |
| AnalyticsProperties.IntReadingOrigin | src/frontend/src/lib/smartwatch/analytics.ts:64-95 | every reading is the value of some record |
| AnalyticsProperties.IntReadingPresent | src/frontend/src/lib/smartwatch/analytics.ts:64-95 | every record's value is among the readings |
| AnalyticsProperties.IntReadingsAppend | src/frontend/src/lib/smartwatch/analytics.ts:63 | the readings of two record lists joined are the two lists of readings joined |
| AnalyticsProperties.RealReadingsAppend | src/frontend/src/lib/smartwatch/analytics.ts:63 | the same for calories and distance |
| AnalyticsProperties.IntReadingsIgnoreAbsent | src/frontend/src/lib/smartwatch/analytics.ts:64-95 | records lacking a metric add no readings of it |
| AnalyticsProperties.RealReadingsIgnoreAbsent | src/frontend/src/lib/smartwatch/analytics.ts:82-90 | the same for calories and distance |
| AnalyticsProperties.EmptyInputAllNull | src/frontend/src/lib/smartwatch/analytics.ts:33-44 | no records give every metric null and a count of 0 |
| AnalyticsProperties.NullIffNoContributor | src/frontend/src/lib/smartwatch/analytics.ts:98-106 | each metric is null exactly when no record carries it; `recordCount` is the number of records |
| AnalyticsProperties.AbsentStepsIgnored | src/frontend/src/lib/smartwatch/analytics.ts:64-67 | records without steps do not change the steps total (they do not count as zero) |
| AnalyticsProperties.AbsentHeartRatesIgnored | src/frontend/src/lib/smartwatch/analytics.ts:69-80 | records without a heart rate do not change its average, minimum or maximum |
| AnalyticsProperties.AbsentCaloriesIgnored | src/frontend/src/lib/smartwatch/analytics.ts:82-85 | records without calories do not change the calories total |
| AnalyticsProperties.AbsentDistancesIgnored | src/frontend/src/lib/smartwatch/analytics.ts:87-90 | records without a distance do not change the distance total |
| AnalyticsProperties.AbsentSleepIgnored | src/frontend/src/lib/smartwatch/analytics.ts:92-95 | records without sleep do not change the sleep total |
| AnalyticsProperties.MinOfIsLeast | src/frontend/src/lib/smartwatch/analytics.ts:74-76 | the running minimum is one of the readings and no reading is smaller |
| AnalyticsProperties.MaxOfIsGreatest | src/frontend/src/lib/smartwatch/analytics.ts:77-79 | the running maximum is one of the readings and no reading is larger |
| AnalyticsProperties.HeartRateExtremes | src/frontend/src/lib/smartwatch/analytics.ts:69-80 | min and max are null together; each is the heart rate of some record; they bound every heart rate |
| AnalyticsProperties.RoundMonotone | src/frontend/src/lib/smartwatch/analytics.ts:100 | `Math.round` never decreases |
| AnalyticsProperties.RoundOfInteger | src/frontend/src/lib/smartwatch/analytics.ts:100 | `Math.round` leaves an integer unchanged |
| AnalyticsProperties.RoundIsNearest | src/frontend/src/lib/smartwatch/analytics.ts:100 | `Math.round(x)` is within one half of x, halves rounding up |
| AnalyticsProperties.AverageWithinExtremes | src/frontend/src/lib/smartwatch/analytics.ts:100-102 | when there is an average heart rate, it lies between the minimum and the maximum |
| AnalyticsProperties.RoundedTotals | src/frontend/src/lib/smartwatch/analytics.ts:100-104 | the average is within 0.5 of the exact mean, calories within 0.5 of the exact total, and distance is a whole number of hundredths within 0.005 of the exact total |
| AnalyticsProperties.StepsOfSomeRecords | src/frontend/src/lib/smartwatch/analytics.ts:64-67 | steps 100 and 300 plus records without steps give a total of 400 |
| AnalyticsProperties.HeartRatesOfThreeRecords | src/frontend/src/lib/smartwatch/analytics.ts:69-102 | heart rates 60, 80 and 100 give average 80, minimum 60 and maximum 100 |
| AnalyticsProperties.HalfRoundsUp | src/frontend/src/lib/smartwatch/analytics.ts:100 | heart rates 60 and 61 give average 61, the half rounding up |

## Left out

- The presentation layer (site components, dashboards, import dialogs, hooks), the record store behind `backend.d.ts`, the dataset summary type in `model.ts` and `exportJson.ts` are outside the modelled core.
- Library calls are parameters, not models. `new Date(string)`, `parseInt` and `parseFloat` are the functions in `ImportSpec.JsPrimitives`. `JSON.parse` is represented by its result. Their own parsing rules are not modelled.
- `new Date()` is one parameter `now`. The source reads the clock once per row, so rows of one import may in fact get slightly different instants.
- Floating point is not modelled. `number` is an exact real, and `Number(bigint)` is exact even above 2^53. So sums, averages, `Math.round` and the rounding to hundredths do not show binary rounding error. `Math.round` of a negative half-way value (-2.5 gives -2) does follow JavaScript.
- Strings are sequences of Unicode scalar values, not UTF-16 code units. Lone surrogates cannot be expressed.
- Of `toLowerCase`, only the characters that lower-case into `[a-z0-9]` are modelled (A–Z, U+0130, U+212A). Every other character is removed, as the regular expression does.
- `FieldMapping.NormalizeFieldName`: the lookup is modelled as a map, so a name whose lookup key is `constructor` returns itself. In the source the lookup finds the inherited `constructor` property (the `Object` function) and returns that. Both importers send such a column to the unmapped names either way.
- The optional `unmappedFields` property of `ParsedRecord` is never set by the core and is not modelled.
- Exceptions are `Failure` values. The message of a `JSON.parse` syntax error is whatever string the parse reports.
- `Analytics.FilterRecordsByDateRange` with no range returns an equal sequence. Whether it is the same array object (identity) is not expressible on values. Elsewhere the filter's result is a new sequence, as in the source.
- The loops of `parseCSV` and `parseJSON` are split into one method per loop and loop body. The behaviour is the same, but the `try`/`catch` structure is not reproduced.
