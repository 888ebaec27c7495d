/**
 * The dashboard's analytics over stored records: the date-range filter and
 * the derived-metrics aggregator. Record timestamps are nanoseconds since
 * the epoch; the bounds of a range are JavaScript dates in milliseconds.
 * Arithmetic is exact: `number` sums are sums of reals and `bigint`
 * readings are integers.
 */
module Analytics {
  import opened Wrappers
  import opened SmartwatchModel

  /** A date range; both ends are inclusive. */
  datatype DateRangeFilter = DateRangeFilter(start: Date, end: Date)

  /** The summary the aggregator returns; `None` is `null`. */
  datatype DerivedMetrics = DerivedMetrics(
    totalSteps: Option<int>,
    avgHeartRate: Option<int>,
    minHeartRate: Option<int>,
    maxHeartRate: Option<int>,
    totalCalories: Option<int>,
    totalDistance: Option<real>,
    totalSleep: Option<int>,
    recordCount: nat)

  /** Integer division that truncates toward zero. */
  function TruncDiv(a: int, d: int): int
    requires d > 0
  {
    if a >= 0 then a / d else -((-a) / d)
  }

  /** The time value of `new Date(Number(timestamp) / 1_000_000)`: out of range is invalid, a fraction is cut toward zero. */
  function RecordDate(timestamp: int): (d: Date)
    ensures d.Valid? <==> -MaxTimeValue * 1_000_000 <= timestamp <= MaxTimeValue * 1_000_000
  {
    if -MaxTimeValue * 1_000_000 <= timestamp <= MaxTimeValue * 1_000_000 then Valid(TruncDiv(timestamp, 1_000_000))
    else Invalid
  }

  /** `date >= range.start && date <= range.end`: compared by time value, and false whenever one of them is invalid. */
  predicate InRange(d: Date, range: DateRangeFilter) {
    && d.Valid? && range.start.Valid? && range.end.Valid?
    && range.start.ms <= d.ms <= range.end.ms
  }

  /** The predicate `filterRecordsByDateRange` passes to `Array.prototype.filter`. */
  predicate Keeps(range: DateRangeFilter, record: SmartwatchRecord) {
    InRange(RecordDate(record.timestamp), range)
  }

  /** `records.filter(...)` with the range's predicate. */
  function KeepInRange(records: seq<SmartwatchRecord>, range: DateRangeFilter): (r: seq<SmartwatchRecord>)
    ensures |r| <= |records|
  {
    if |records| == 0 then []
    else
      var last := records[|records| - 1];
      if Keeps(range, last) then KeepInRange(records[..|records| - 1], range) + [last] else KeepInRange(records[..|records| - 1], range)
  }

  /** `filterRecordsByDateRange(records, range)`: no range returns the records themselves. */
  function FilterRecordsByDateRange(records: seq<SmartwatchRecord>, range: Option<DateRangeFilter>): (r: seq<SmartwatchRecord>)
    ensures range.None? ==> r == records
    ensures |r| <= |records|
  {
    match range
    case None => records
    case Some(bounds) => KeepInRange(records, bounds)
  }

  /** The record fields the backend stores as `bigint`. */
  datatype BigIntField = StepsField | HeartRateField | SleepField

  /** The record fields the backend stores as `number`. */
  datatype NumberField = CaloriesField | DistanceField

  function BigIntValue(r: SmartwatchRecord, f: BigIntField): Option<int> {
    match f
    case StepsField => r.steps
    case HeartRateField => r.heartRate
    case SleepField => r.sleep
  }

  function NumberValue(r: SmartwatchRecord, f: NumberField): Option<real> {
    match f
    case CaloriesField => r.calories
    case DistanceField => r.distance
  }

  /** The readings of one `bigint` field, in record order, over the records that have it. */
  function IntReadings(records: seq<SmartwatchRecord>, f: BigIntField): (xs: seq<int>)
    ensures |xs| <= |records|
  {
    if |records| == 0 then []
    else
      var v := BigIntValue(records[|records| - 1], f);
      if v.Some? then IntReadings(records[..|records| - 1], f) + [v.value] else IntReadings(records[..|records| - 1], f)
  }

  /** The readings of one `number` field, in record order, over the records that have it. */
  function RealReadings(records: seq<SmartwatchRecord>, f: NumberField): (xs: seq<real>)
    ensures |xs| <= |records|
  {
    if |records| == 0 then []
    else
      var v := NumberValue(records[|records| - 1], f);
      if v.Some? then RealReadings(records[..|records| - 1], f) + [v.value] else RealReadings(records[..|records| - 1], f)
  }

  function Sum(xs: seq<int>): int {
    if |xs| == 0 then 0 else Sum(xs[..|xs| - 1]) + xs[|xs| - 1]
  }

  function RealSum(xs: seq<real>): real {
    if |xs| == 0 then 0.0 else RealSum(xs[..|xs| - 1]) + xs[|xs| - 1]
  }

  /** The running minimum: a later reading replaces it only when strictly smaller. */
  function MinOf(xs: seq<int>): int
    requires |xs| > 0
  {
    if |xs| == 1 then xs[0]
    else
      var m := MinOf(xs[..|xs| - 1]);
      if xs[|xs| - 1] < m then xs[|xs| - 1] else m
  }

  /** The running maximum: a later reading replaces it only when strictly larger. */
  function MaxOf(xs: seq<int>): int
    requires |xs| > 0
  {
    if |xs| == 1 then xs[0]
    else
      var m := MaxOf(xs[..|xs| - 1]);
      if xs[|xs| - 1] > m then xs[|xs| - 1] else m
  }

  function MinOrNone(xs: seq<int>): Option<int> {
    if |xs| == 0 then None else Some(MinOf(xs))
  }

  function MaxOrNone(xs: seq<int>): Option<int> {
    if |xs| == 0 then None else Some(MaxOf(xs))
  }

  /** `Math.round(x)`: the nearest integer, halves going up. */
  function Round(x: real): int {
    (x + 0.5).Floor
  }

  /** `Math.round(total / count)`. */
  function Average(total: int, count: int): int
    requires count > 0
  {
    Round(total as real / count as real)
  }

  /** `Math.round(x * 100) / 100`: two decimal places, halves going up. */
  function RoundToCents(x: real): real {
    Round(x * 100.0) as real / 100.0
  }

  /**
   * What `computeDerivedMetrics` returns, stated over the readings of each
   * field: a total when some record has the field, `null` otherwise.
   */
  function Summarize(records: seq<SmartwatchRecord>): DerivedMetrics {
    var steps := IntReadings(records, StepsField);
    var hr := IntReadings(records, HeartRateField);
    var cal := RealReadings(records, CaloriesField);
    var dist := RealReadings(records, DistanceField);
    var sleep := IntReadings(records, SleepField);
    DerivedMetrics(
      if |steps| > 0 then Some(Sum(steps)) else None,
      if |hr| > 0 then Some(Average(Sum(hr), |hr|)) else None,
      MinOrNone(hr),
      MaxOrNone(hr),
      if |cal| > 0 then Some(Round(RealSum(cal))) else None,
      if |dist| > 0 then Some(RoundToCents(RealSum(dist))) else None,
      if |sleep| > 0 then Some(Sum(sleep)) else None,
      |records|)
  }

  /** One more reading folds into the running minimum and maximum as the loop does. */
  lemma RunningMinMaxStep(xs: seq<int>, x: int)
    ensures MinOrNone(xs + [x]) == Some(if MinOrNone(xs).None? || x < MinOrNone(xs).value then x else MinOrNone(xs).value)
    ensures MaxOrNone(xs + [x]) == Some(if MaxOrNone(xs).None? || x > MaxOrNone(xs).value then x else MaxOrNone(xs).value)
  {
    assert (xs + [x])[..|xs|] == xs;
  }

  lemma SumStep(xs: seq<int>, x: int)
    ensures Sum(xs + [x]) == Sum(xs) + x
  {
    assert (xs + [x])[..|xs|] == xs;
  }

  lemma RealSumStep(xs: seq<real>, x: real)
    ensures RealSum(xs + [x]) == RealSum(xs) + x
  {
    assert (xs + [x])[..|xs|] == xs;
  }

  /** The loop's accumulators: a sum and a count per field, and the running heart-rate minimum and maximum. */
  datatype Tally = Tally(
    totalSteps: int, stepsCount: int,
    totalHeartRate: int, heartRateCount: int, minHeartRate: Option<int>, maxHeartRate: Option<int>,
    totalCalories: real, caloriesCount: int,
    totalDistance: real, distanceCount: int,
    totalSleep: int, sleepCount: int)

  /** The loop body: each field present in the record is added to its sum and count; a heart rate may also move the extremes. */
  function AddRecord(t: Tally, r: SmartwatchRecord): Tally {
    var hr := r.heartRate;
    Tally(
      if r.steps.Some? then t.totalSteps + r.steps.value else t.totalSteps,
      if r.steps.Some? then t.stepsCount + 1 else t.stepsCount,
      if hr.Some? then t.totalHeartRate + hr.value else t.totalHeartRate,
      if hr.Some? then t.heartRateCount + 1 else t.heartRateCount,
      if hr.Some? && (t.minHeartRate.None? || hr.value < t.minHeartRate.value) then hr else t.minHeartRate,
      if hr.Some? && (t.maxHeartRate.None? || hr.value > t.maxHeartRate.value) then hr else t.maxHeartRate,
      if r.calories.Some? then t.totalCalories + r.calories.value else t.totalCalories,
      if r.calories.Some? then t.caloriesCount + 1 else t.caloriesCount,
      if r.distance.Some? then t.totalDistance + r.distance.value else t.totalDistance,
      if r.distance.Some? then t.distanceCount + 1 else t.distanceCount,
      if r.sleep.Some? then t.totalSleep + r.sleep.value else t.totalSleep,
      if r.sleep.Some? then t.sleepCount + 1 else t.sleepCount)
  }

  /** The accumulators after the loop has seen the given records. */
  function TallyOf(records: seq<SmartwatchRecord>): Tally {
    if |records| == 0 then Tally(0, 0, 0, 0, None, None, 0.0, 0, 0.0, 0, 0, 0)
    else AddRecord(TallyOf(records[..|records| - 1]), records[|records| - 1])
  }

  lemma TallyStep(records: seq<SmartwatchRecord>, i: int)
    requires 0 <= i < |records|
    ensures TallyOf(records[..i + 1]) == AddRecord(TallyOf(records[..i]), records[i])
  {
    assert records[..i + 1][..i] == records[..i];
  }

  /** The accumulated steps are the sum and count of the steps readings; likewise below for each field. */
  lemma {:induction false} TallySteps(records: seq<SmartwatchRecord>)
    ensures TallyOf(records).totalSteps == Sum(IntReadings(records, StepsField))
    ensures TallyOf(records).stepsCount == |IntReadings(records, StepsField)|
  {
    if |records| > 0 {
      var init := records[..|records| - 1];
      var r := records[|records| - 1];
      TallySteps(init);
      if r.steps.Some? { SumStep(IntReadings(init, StepsField), r.steps.value); }
    }
  }

  lemma {:induction false} TallyHeartRate(records: seq<SmartwatchRecord>)
    ensures TallyOf(records).totalHeartRate == Sum(IntReadings(records, HeartRateField))
    ensures TallyOf(records).heartRateCount == |IntReadings(records, HeartRateField)|
    ensures TallyOf(records).minHeartRate == MinOrNone(IntReadings(records, HeartRateField))
    ensures TallyOf(records).maxHeartRate == MaxOrNone(IntReadings(records, HeartRateField))
  {
    if |records| > 0 {
      var init := records[..|records| - 1];
      var r := records[|records| - 1];
      TallyHeartRate(init);
      if r.heartRate.Some? {
        SumStep(IntReadings(init, HeartRateField), r.heartRate.value);
        RunningMinMaxStep(IntReadings(init, HeartRateField), r.heartRate.value);
      }
    }
  }

  lemma {:induction false} TallyCalories(records: seq<SmartwatchRecord>)
    ensures TallyOf(records).totalCalories == RealSum(RealReadings(records, CaloriesField))
    ensures TallyOf(records).caloriesCount == |RealReadings(records, CaloriesField)|
  {
    if |records| > 0 {
      var init := records[..|records| - 1];
      var r := records[|records| - 1];
      TallyCalories(init);
      if r.calories.Some? { RealSumStep(RealReadings(init, CaloriesField), r.calories.value); }
    }
  }

  lemma {:induction false} TallyDistance(records: seq<SmartwatchRecord>)
    ensures TallyOf(records).totalDistance == RealSum(RealReadings(records, DistanceField))
    ensures TallyOf(records).distanceCount == |RealReadings(records, DistanceField)|
  {
    if |records| > 0 {
      var init := records[..|records| - 1];
      var r := records[|records| - 1];
      TallyDistance(init);
      if r.distance.Some? { RealSumStep(RealReadings(init, DistanceField), r.distance.value); }
    }
  }

  lemma {:induction false} TallySleep(records: seq<SmartwatchRecord>)
    ensures TallyOf(records).totalSleep == Sum(IntReadings(records, SleepField))
    ensures TallyOf(records).sleepCount == |IntReadings(records, SleepField)|
  {
    if |records| > 0 {
      var init := records[..|records| - 1];
      var r := records[|records| - 1];
      TallySleep(init);
      if r.sleep.Some? { SumStep(IntReadings(init, SleepField), r.sleep.value); }
    }
  }

  /** What the method returns after the loop, read off the accumulators. */
  function Finish(t: Tally, recordCount: nat): DerivedMetrics {
    DerivedMetrics(
      if t.stepsCount > 0 then Some(t.totalSteps) else None,
      if t.heartRateCount > 0 then Some(Average(t.totalHeartRate, t.heartRateCount)) else None,
      t.minHeartRate,
      t.maxHeartRate,
      if t.caloriesCount > 0 then Some(Round(t.totalCalories)) else None,
      if t.distanceCount > 0 then Some(RoundToCents(t.totalDistance)) else None,
      if t.sleepCount > 0 then Some(t.totalSleep) else None,
      recordCount)
  }

  /** Read off the accumulators of a pass over all records, the result is the summary. */
  lemma FinishTally(records: seq<SmartwatchRecord>)
    ensures Finish(TallyOf(records), |records|) == Summarize(records)
  {
    TallySteps(records);
    TallyHeartRate(records);
    TallyCalories(records);
    TallyDistance(records);
    TallySleep(records);
  }

  /** `computeDerivedMetrics(records)`: one pass with a sum and a count per field and a running heart-rate minimum and maximum. */
  method ComputeDerivedMetrics(records: seq<SmartwatchRecord>) returns (m: DerivedMetrics)
    ensures m == Summarize(records)
  {
    if |records| == 0 {
      return DerivedMetrics(None, None, None, None, None, None, None, 0);
    }
    var totalSteps := 0;
    var stepsCount := 0;
    var totalHeartRate := 0;
    var heartRateCount := 0;
    var minHeartRate: Option<int> := None;
    var maxHeartRate: Option<int> := None;
    var totalCalories := 0.0;
    var caloriesCount := 0;
    var totalDistance := 0.0;
    var distanceCount := 0;
    var totalSleep := 0;
    var sleepCount := 0;

    var i := 0;
    assert records[..0] == [];
    while i < |records|
      invariant 0 <= i <= |records|
      invariant var t := TallyOf(records[..i]);
        && t.totalSteps == totalSteps && t.stepsCount == stepsCount
        && t.totalHeartRate == totalHeartRate && t.heartRateCount == heartRateCount
        && t.minHeartRate == minHeartRate && t.maxHeartRate == maxHeartRate
        && t.totalCalories == totalCalories && t.caloriesCount == caloriesCount
        && t.totalDistance == totalDistance && t.distanceCount == distanceCount
        && t.totalSleep == totalSleep && t.sleepCount == sleepCount
    {
      var record := records[i];
      TallyStep(records, i);
      if record.steps.Some? {
        totalSteps := totalSteps + record.steps.value;
        stepsCount := stepsCount + 1;
      }
      if record.heartRate.Some? {
        var hr := record.heartRate.value;
        totalHeartRate := totalHeartRate + hr;
        heartRateCount := heartRateCount + 1;
        if minHeartRate.None? || hr < minHeartRate.value {
          minHeartRate := Some(hr);
        }
        if maxHeartRate.None? || hr > maxHeartRate.value {
          maxHeartRate := Some(hr);
        }
      }
      if record.calories.Some? {
        totalCalories := totalCalories + record.calories.value;
        caloriesCount := caloriesCount + 1;
      }
      if record.distance.Some? {
        totalDistance := totalDistance + record.distance.value;
        distanceCount := distanceCount + 1;
      }
      if record.sleep.Some? {
        totalSleep := totalSleep + record.sleep.value;
        sleepCount := sleepCount + 1;
      }
      i := i + 1;
    }
    assert records[..i] == records;
    FinishTally(records);

    m := DerivedMetrics(
      if stepsCount > 0 then Some(totalSteps) else None,
      if heartRateCount > 0 then Some(Average(totalHeartRate, heartRateCount)) else None,
      minHeartRate,
      maxHeartRate,
      if caloriesCount > 0 then Some(Round(totalCalories)) else None,
      if distanceCount > 0 then Some(RoundToCents(totalDistance)) else None,
      if sleepCount > 0 then Some(totalSleep) else None,
      |records|);
  }
}
