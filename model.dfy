/**
 * The record shapes the importer produces and the analytics consume.
 */
module SmartwatchModel {
  import opened Wrappers

  /** The largest time value, in milliseconds either side of the epoch, that a JavaScript `Date` can hold. */
  const MaxTimeValue: int := 8_640_000_000_000_000

  /** A JavaScript `Date`: a millisecond time value, or the invalid date whose time value is NaN. */
  datatype Date = Valid(ms: int) | Invalid

  /**
   * `new Date(ms)` for an integral number of milliseconds: the value is kept
   * when it is in range and the date is invalid otherwise.
   */
  function NewDate(ms: int): (d: Date)
    ensures d.Valid? <==> -MaxTimeValue <= ms <= MaxTimeValue
    ensures d.Valid? ==> d.ms == ms
  {
    if -MaxTimeValue <= ms <= MaxTimeValue then Valid(ms) else Invalid
  }

  /** One record as the import parsers build it; a metric that was never set is `None`. */
  datatype ParsedRecord = ParsedRecord(
    timestamp: Date,
    steps: Option<real>,
    heartRate: Option<real>,
    calories: Option<real>,
    distance: Option<real>,
    sleep: Option<real>)

  /** What a parser hands back: the records, the warnings and the header texts or keys no metric claimed. */
  datatype ParseResult = ParseResult(records: seq<ParsedRecord>, warnings: seq<string>, unmappedFields: seq<string>)

  /** One stored record: integral metrics are big integers, timestamps are nanoseconds since the epoch. */
  datatype SmartwatchRecord = SmartwatchRecord(
    calories: Option<real>,
    distance: Option<real>,
    sleep: Option<int>,
    steps: Option<int>,
    heartRate: Option<int>,
    timestamp: int)

  /** The five metrics a column or key can be mapped to. */
  datatype Metric = Steps | HeartRate | Calories | Distance | Sleep

  /** The canonical key of each metric, as the field normaliser produces it. */
  function MetricKey(m: Metric): string {
    match m
    case Steps => "steps"
    case HeartRate => "heartrate"
    case Calories => "calories"
    case Distance => "distance"
    case Sleep => "sleep"
  }

  function Get(r: ParsedRecord, m: Metric): Option<real> {
    match m
    case Steps => r.steps
    case HeartRate => r.heartRate
    case Calories => r.calories
    case Distance => r.distance
    case Sleep => r.sleep
  }

  /** The record with one metric replaced and everything else as it was. */
  function Set(r: ParsedRecord, m: Metric, x: real): (r': ParsedRecord)
    ensures Get(r', m) == Some(x)
    ensures forall n :: n != m ==> Get(r', n) == Get(r, n)
    ensures r'.timestamp == r.timestamp
  {
    match m
    case Steps => r.(steps := Some(x))
    case HeartRate => r.(heartRate := Some(x))
    case Calories => r.(calories := Some(x))
    case Distance => r.(distance := Some(x))
    case Sleep => r.(sleep := Some(x))
  }
}
