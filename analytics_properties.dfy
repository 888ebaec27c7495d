/**
 * What the date-range filter and the derived-metrics aggregator promise,
 * proved about their specifications.
 */
module AnalyticsProperties {
  import opened Wrappers
  import opened SmartwatchModel
  import opened Analytics

  // ---------------------------------------------------------------------
  // The date-range filter
  // ---------------------------------------------------------------------

  /** A record survives the filter exactly when it is one of the input records and its date is in range. */
  lemma {:induction false} KeepInRangeMembers(records: seq<SmartwatchRecord>, range: DateRangeFilter, x: SmartwatchRecord)
    ensures x in KeepInRange(records, range) <==> x in records && Keeps(range, x)
  {
    if |records| > 0 {
      var init := records[..|records| - 1];
      KeepInRangeMembers(init, range, x);
      assert records == init + [records[|records| - 1]];
    }
  }

  /** A strictly increasing sequence of positions below `n`. */
  predicate Positions(idx: seq<int>, n: int) {
    && (forall k :: 0 <= k < |idx| ==> 0 <= idx[k] < n)
    && (forall k, l :: 0 <= k < l < |idx| ==> idx[k] < idx[l])
  }

  /**
   * The filter keeps the records at an increasing run of positions, and a
   * position is in that run exactly when its record's date is in range: the
   * result is the in-range records, in their original order.
   */
  lemma {:induction false} KeepInRangeSubsequence(records: seq<SmartwatchRecord>, range: DateRangeFilter)
    returns (idx: seq<int>)
    ensures Positions(idx, |records|)
    ensures |idx| == |KeepInRange(records, range)|
    ensures forall k :: 0 <= k < |idx| ==> KeepInRange(records, range)[k] == records[idx[k]]
    ensures forall i :: 0 <= i < |records| ==> (i in idx <==> Keeps(range, records[i]))
  {
    if |records| == 0 {
      idx := [];
    } else {
      var n := |records| - 1;
      var init := records[..n];
      var prev := KeepInRangeSubsequence(init, range);
      assert forall i :: 0 <= i < n ==> init[i] == records[i];
      if Keeps(range, records[n]) {
        idx := prev + [n];
      } else {
        idx := prev;
      }
    }
  }

  /** Filtering twice with the same range is filtering once. */
  lemma {:induction false} FilterIdempotent(records: seq<SmartwatchRecord>, range: Option<DateRangeFilter>)
    ensures FilterRecordsByDateRange(FilterRecordsByDateRange(records, range), range) == FilterRecordsByDateRange(records, range)
  {
    if range.Some? {
      KeepInRangeTwice(records, range.value);
    }
  }

  lemma {:induction false} KeepInRangeTwice(records: seq<SmartwatchRecord>, range: DateRangeFilter)
    ensures KeepInRange(KeepInRange(records, range), range) == KeepInRange(records, range)
  {
    if |records| > 0 {
      var init := records[..|records| - 1];
      var last := records[|records| - 1];
      KeepInRangeTwice(init, range);
      if Keeps(range, last) {
        var r := KeepInRange(init, range) + [last];
        assert r[..|r| - 1] == KeepInRange(init, range);
      }
    }
  }

  /** A real number cut toward zero, as `new Date` cuts a fractional time value. */
  function Truncate(x: real): int {
    if x >= 0.0 then x.Floor else -((-x).Floor)
  }

  lemma FloorOfQuotient(a: int, d: int)
    requires a >= 0 && d > 0
    ensures (a as real / d as real).Floor == a / d
  {
    var q := a / d;
    var r := a % d;
    assert a == q * d + r && 0 <= r < d;
    assert a as real == q as real * d as real + r as real;
    assert a as real / d as real == q as real + r as real / d as real;
    assert 0.0 <= r as real / d as real < 1.0;
  }

  /** A record's date is its nanosecond timestamp divided by a million, cut toward zero. */
  lemma RecordDateTruncates(timestamp: int)
    requires RecordDate(timestamp).Valid?
    ensures RecordDate(timestamp).ms == Truncate(timestamp as real / 1_000_000.0)
  {
    if timestamp >= 0 {
      FloorOfQuotient(timestamp, 1_000_000);
    } else {
      FloorOfQuotient(-timestamp, 1_000_000);
      assert (-timestamp) as real / 1_000_000.0 == -(timestamp as real / 1_000_000.0);
    }
  }

  /**
   * For a timestamp at or after the epoch, the range keeps it exactly when it
   * lies from the first nanosecond of the start's millisecond up to the last
   * nanosecond of the end's millisecond: both ends are inclusive.
   */
  lemma InRangeBounds(timestamp: int, range: DateRangeFilter)
    requires 0 <= timestamp <= MaxTimeValue * 1_000_000
    requires range.start.Valid? && range.end.Valid?
    ensures InRange(RecordDate(timestamp), range) <==>
      range.start.ms * 1_000_000 <= timestamp < (range.end.ms + 1) * 1_000_000
  {
  }

  /** A range whose ends are not both valid dates keeps nothing. */
  lemma InvalidBoundKeepsNothing(records: seq<SmartwatchRecord>, range: DateRangeFilter)
    requires range.start.Invalid? || range.end.Invalid?
    ensures FilterRecordsByDateRange(records, Some(range)) == []
  {
    if |KeepInRange(records, range)| > 0 {
      KeepInRangeMembers(records, range, KeepInRange(records, range)[0]);
    }
  }

  // ---------------------------------------------------------------------
  // Readings
  // ---------------------------------------------------------------------

  /** No readings exactly when no record has the field. */
  lemma {:induction false} IntReadingsEmpty(records: seq<SmartwatchRecord>, f: BigIntField)
    ensures |IntReadings(records, f)| == 0 <==> forall k :: 0 <= k < |records| ==> BigIntValue(records[k], f).None?
  {
    if |records| > 0 {
      var init := records[..|records| - 1];
      IntReadingsEmpty(init, f);
      assert forall k :: 0 <= k < |init| ==> init[k] == records[k];
    }
  }

  lemma {:induction false} RealReadingsEmpty(records: seq<SmartwatchRecord>, f: NumberField)
    ensures |RealReadings(records, f)| == 0 <==> forall k :: 0 <= k < |records| ==> NumberValue(records[k], f).None?
  {
    if |records| > 0 {
      var init := records[..|records| - 1];
      RealReadingsEmpty(init, f);
      assert forall k :: 0 <= k < |init| ==> init[k] == records[k];
    }
  }

  /** Every reading is the value of some record. */
  lemma {:induction false} IntReadingOrigin(records: seq<SmartwatchRecord>, f: BigIntField, x: int) returns (k: int)
    requires x in IntReadings(records, f)
    ensures 0 <= k < |records| && BigIntValue(records[k], f) == Some(x)
  {
    var n := |records| - 1;
    var init := records[..n];
    if x in IntReadings(init, f) {
      k := IntReadingOrigin(init, f, x);
      assert init[k] == records[k];
    } else {
      k := n;
    }
  }

  /** The value of every record that has the field is a reading. */
  lemma {:induction false} IntReadingPresent(records: seq<SmartwatchRecord>, f: BigIntField, k: int)
    requires 0 <= k < |records| && BigIntValue(records[k], f).Some?
    ensures BigIntValue(records[k], f).value in IntReadings(records, f)
  {
    var n := |records| - 1;
    var init := records[..n];
    if k < n {
      assert init[k] == records[k];
      IntReadingPresent(init, f, k);
    }
  }

  /** The readings of two runs of records are the readings of the first followed by those of the second. */
  lemma {:induction false} IntReadingsAppend(a: seq<SmartwatchRecord>, b: seq<SmartwatchRecord>, f: BigIntField)
    ensures IntReadings(a + b, f) == IntReadings(a, f) + IntReadings(b, f)
  {
    if |b| == 0 {
      assert a + b == a;
    } else {
      var init := b[..|b| - 1];
      IntReadingsAppend(a, init, f);
      assert (a + b)[..|a + b| - 1] == a + init;
    }
  }

  lemma {:induction false} RealReadingsAppend(a: seq<SmartwatchRecord>, b: seq<SmartwatchRecord>, f: NumberField)
    ensures RealReadings(a + b, f) == RealReadings(a, f) + RealReadings(b, f)
  {
    if |b| == 0 {
      assert a + b == a;
    } else {
      var init := b[..|b| - 1];
      RealReadingsAppend(a, init, f);
      assert (a + b)[..|a + b| - 1] == a + init;
    }
  }

  // ---------------------------------------------------------------------
  // Null results and record count
  // ---------------------------------------------------------------------

  /** No records give an all-`null` summary with a record count of zero. */
  lemma EmptyInputAllNull()
    ensures Summarize([]) == DerivedMetrics(None, None, None, None, None, None, None, 0)
  {
  }

  /**
   * Each metric is `null` exactly when no record has its field, and the
   * record count is the number of records whatever fields they have.
   */
  lemma NullIffNoContributor(records: seq<SmartwatchRecord>)
    ensures Summarize(records).totalSteps.None? <==> forall k :: 0 <= k < |records| ==> records[k].steps.None?
    ensures Summarize(records).avgHeartRate.None? <==> forall k :: 0 <= k < |records| ==> records[k].heartRate.None?
    ensures Summarize(records).minHeartRate.None? <==> forall k :: 0 <= k < |records| ==> records[k].heartRate.None?
    ensures Summarize(records).maxHeartRate.None? <==> forall k :: 0 <= k < |records| ==> records[k].heartRate.None?
    ensures Summarize(records).totalCalories.None? <==> forall k :: 0 <= k < |records| ==> records[k].calories.None?
    ensures Summarize(records).totalDistance.None? <==> forall k :: 0 <= k < |records| ==> records[k].distance.None?
    ensures Summarize(records).totalSleep.None? <==> forall k :: 0 <= k < |records| ==> records[k].sleep.None?
    ensures Summarize(records).recordCount == |records|
  {
    IntReadingsEmpty(records, StepsField);
    IntReadingsEmpty(records, HeartRateField);
    RealReadingsEmpty(records, CaloriesField);
    RealReadingsEmpty(records, DistanceField);
    IntReadingsEmpty(records, SleepField);
  }

  /** Records that lack a field add no readings of it. */
  lemma IntReadingsIgnoreAbsent(records: seq<SmartwatchRecord>, extra: seq<SmartwatchRecord>, f: BigIntField)
    requires forall k :: 0 <= k < |extra| ==> BigIntValue(extra[k], f).None?
    ensures IntReadings(records + extra, f) == IntReadings(records, f)
  {
    IntReadingsAppend(records, extra, f);
    IntReadingsEmpty(extra, f);
  }

  lemma RealReadingsIgnoreAbsent(records: seq<SmartwatchRecord>, extra: seq<SmartwatchRecord>, f: NumberField)
    requires forall k :: 0 <= k < |extra| ==> NumberValue(extra[k], f).None?
    ensures RealReadings(records + extra, f) == RealReadings(records, f)
  {
    RealReadingsAppend(records, extra, f);
    RealReadingsEmpty(extra, f);
  }

  /*
   * A record without a field is not counted for it: appending records that
   * lack a field leaves that field's metrics as they were.
   */

  lemma AbsentStepsIgnored(records: seq<SmartwatchRecord>, extra: seq<SmartwatchRecord>)
    requires forall k :: 0 <= k < |extra| ==> extra[k].steps.None?
    ensures Summarize(records + extra).totalSteps == Summarize(records).totalSteps
  {
    IntReadingsIgnoreAbsent(records, extra, StepsField);
  }

  lemma AbsentHeartRatesIgnored(records: seq<SmartwatchRecord>, extra: seq<SmartwatchRecord>)
    requires forall k :: 0 <= k < |extra| ==> extra[k].heartRate.None?
    ensures Summarize(records + extra).avgHeartRate == Summarize(records).avgHeartRate
    ensures Summarize(records + extra).minHeartRate == Summarize(records).minHeartRate
    ensures Summarize(records + extra).maxHeartRate == Summarize(records).maxHeartRate
  {
    IntReadingsIgnoreAbsent(records, extra, HeartRateField);
  }

  lemma AbsentCaloriesIgnored(records: seq<SmartwatchRecord>, extra: seq<SmartwatchRecord>)
    requires forall k :: 0 <= k < |extra| ==> extra[k].calories.None?
    ensures Summarize(records + extra).totalCalories == Summarize(records).totalCalories
  {
    RealReadingsIgnoreAbsent(records, extra, CaloriesField);
  }

  lemma AbsentDistancesIgnored(records: seq<SmartwatchRecord>, extra: seq<SmartwatchRecord>)
    requires forall k :: 0 <= k < |extra| ==> extra[k].distance.None?
    ensures Summarize(records + extra).totalDistance == Summarize(records).totalDistance
  {
    RealReadingsIgnoreAbsent(records, extra, DistanceField);
  }

  lemma AbsentSleepIgnored(records: seq<SmartwatchRecord>, extra: seq<SmartwatchRecord>)
    requires forall k :: 0 <= k < |extra| ==> extra[k].sleep.None?
    ensures Summarize(records + extra).totalSleep == Summarize(records).totalSleep
  {
    IntReadingsIgnoreAbsent(records, extra, SleepField);
  }

  // ---------------------------------------------------------------------
  // Heart-rate minimum, maximum and average
  // ---------------------------------------------------------------------

  lemma {:induction false} MinOfIsLeast(xs: seq<int>)
    requires |xs| > 0
    ensures MinOf(xs) in xs
    ensures forall x :: x in xs ==> MinOf(xs) <= x
  {
    if |xs| > 1 {
      var init := xs[..|xs| - 1];
      MinOfIsLeast(init);
      assert xs == init + [xs[|xs| - 1]];
    }
  }

  lemma {:induction false} MaxOfIsGreatest(xs: seq<int>)
    requires |xs| > 0
    ensures MaxOf(xs) in xs
    ensures forall x :: x in xs ==> x <= MaxOf(xs)
  {
    if |xs| > 1 {
      var init := xs[..|xs| - 1];
      MaxOfIsGreatest(init);
      assert xs == init + [xs[|xs| - 1]];
    }
  }

  /**
   * The minimum and maximum heart rates are readings of actual records, and
   * every record's heart rate lies between them.
   */
  lemma HeartRateExtremes(records: seq<SmartwatchRecord>)
    requires Summarize(records).minHeartRate.Some?
    ensures Summarize(records).maxHeartRate.Some?
    ensures exists k :: 0 <= k < |records| && records[k].heartRate == Summarize(records).minHeartRate
    ensures exists k :: 0 <= k < |records| && records[k].heartRate == Summarize(records).maxHeartRate
    ensures forall k :: 0 <= k < |records| && records[k].heartRate.Some? ==>
      Summarize(records).minHeartRate.value <= records[k].heartRate.value <= Summarize(records).maxHeartRate.value
  {
    var hr := IntReadings(records, HeartRateField);
    MinOfIsLeast(hr);
    MaxOfIsGreatest(hr);
    var i := IntReadingOrigin(records, HeartRateField, MinOf(hr));
    var j := IntReadingOrigin(records, HeartRateField, MaxOf(hr));
    forall k | 0 <= k < |records| && records[k].heartRate.Some?
      ensures MinOf(hr) <= records[k].heartRate.value <= MaxOf(hr)
    {
      IntReadingPresent(records, HeartRateField, k);
    }
  }

  /** A sum of readings within bounds is within the count times those bounds. */
  lemma {:induction false} SumWithin(xs: seq<int>, lo: int, hi: int)
    requires forall x :: x in xs ==> lo <= x <= hi
    ensures |xs| * lo <= Sum(xs) <= |xs| * hi
  {
    if |xs| > 0 {
      var init := xs[..|xs| - 1];
      var last := xs[|xs| - 1];
      assert forall x :: x in init ==> x in xs;
      SumWithin(init, lo, hi);
      assert last in xs;
      assert Sum(xs) == Sum(init) + last;
      assert |xs| * lo == |init| * lo + lo;
      assert |xs| * hi == |init| * hi + hi;
    }
  }

  lemma QuotientWithin(total: int, count: int, lo: int, hi: int)
    requires count > 0
    requires count * lo <= total <= count * hi
    ensures lo as real <= total as real / count as real <= hi as real
  {
    var q := total as real / count as real;
    assert q * count as real == total as real;
    assert (count * lo) as real == count as real * lo as real;
    assert (count * hi) as real == count as real * hi as real;
  }

  lemma RoundMonotone(x: real, y: real)
    requires x <= y
    ensures Round(x) <= Round(y)
  {
  }

  lemma RoundOfInteger(n: int)
    ensures Round(n as real) == n
  {
  }

  /** The average heart rate lies between the minimum and the maximum. */
  lemma AverageWithinExtremes(records: seq<SmartwatchRecord>)
    requires Summarize(records).avgHeartRate.Some?
    ensures Summarize(records).minHeartRate.Some? && Summarize(records).maxHeartRate.Some?
    ensures Summarize(records).minHeartRate.value <= Summarize(records).avgHeartRate.value <= Summarize(records).maxHeartRate.value
  {
    var hr := IntReadings(records, HeartRateField);
    MinOfIsLeast(hr);
    MaxOfIsGreatest(hr);
    SumWithin(hr, MinOf(hr), MaxOf(hr));
    QuotientWithin(Sum(hr), |hr|, MinOf(hr), MaxOf(hr));
    RoundMonotone(MinOf(hr) as real, Sum(hr) as real / |hr| as real);
    RoundMonotone(Sum(hr) as real / |hr| as real, MaxOf(hr) as real);
    RoundOfInteger(MinOf(hr));
    RoundOfInteger(MaxOf(hr));
  }

  // ---------------------------------------------------------------------
  // Rounding
  // ---------------------------------------------------------------------

  /** `Math.round` gives the nearest integer; a value halfway between two integers goes to the larger. */
  lemma RoundIsNearest(x: real)
    ensures Round(x) as real - 0.5 <= x < Round(x) as real + 0.5
  {
  }

  /**
   * The average is the mean of the readings rounded to the nearest integer,
   * the calorie total is the sum rounded to the nearest integer, and the
   * distance total is the sum rounded to two decimal places.
   */
  lemma RoundedTotals(records: seq<SmartwatchRecord>)
    ensures Summarize(records).avgHeartRate.Some? ==>
      var hr := IntReadings(records, HeartRateField);
      var a := Summarize(records).avgHeartRate.value as real;
      a - 0.5 <= Sum(hr) as real / |hr| as real < a + 0.5
    ensures Summarize(records).totalCalories.Some? ==>
      var c := Summarize(records).totalCalories.value as real;
      c - 0.5 <= RealSum(RealReadings(records, CaloriesField)) < c + 0.5
    ensures Summarize(records).totalDistance.Some? ==>
      var d := Summarize(records).totalDistance.value;
      && d * 100.0 == (d * 100.0).Floor as real
      && d - 0.005 <= RealSum(RealReadings(records, DistanceField)) < d + 0.005
  {
    var hr := IntReadings(records, HeartRateField);
    if |hr| > 0 {
      RoundIsNearest(Sum(hr) as real / |hr| as real);
    }
    RoundIsNearest(RealSum(RealReadings(records, CaloriesField)));
    RoundIsNearest(RealSum(RealReadings(records, DistanceField)) * 100.0);
  }

  // ---------------------------------------------------------------------
  // Worked examples
  // ---------------------------------------------------------------------

  /** A record with only steps and a heart rate, at the epoch. */
  function Reading(steps: Option<int>, heartRate: Option<int>): SmartwatchRecord {
    SmartwatchRecord(None, None, None, steps, heartRate, 0)
  }

  /** The readings after one more record. */
  lemma IntReadingsSnoc(records: seq<SmartwatchRecord>, r: SmartwatchRecord, f: BigIntField)
    ensures IntReadings(records + [r], f) ==
      if BigIntValue(r, f).Some? then IntReadings(records, f) + [BigIntValue(r, f).value] else IntReadings(records, f)
  {
    assert (records + [r])[..|records|] == records;
  }

  /** Steps of 100 and 300 among three records without steps total 400. */
  lemma StepsOfSomeRecords()
    ensures Summarize([Reading(Some(100), None), Reading(None, None), Reading(Some(300), None),
      Reading(None, None), Reading(None, None)]).totalSteps == Some(400)
  {
    var a, n, c := Reading(Some(100), None), Reading(None, None), Reading(Some(300), None);
    IntReadingsSnoc([], a, StepsField);
    assert [] + [a] == [a];
    IntReadingsSnoc([a], n, StepsField);
    assert [a] + [n] == [a, n];
    IntReadingsSnoc([a, n], c, StepsField);
    assert [a, n] + [c] == [a, n, c];
    IntReadingsIgnoreAbsent([a, n, c], [n, n], StepsField);
    assert [a, n, c] + [n, n] == [a, n, c, n, n];
    assert IntReadings([a, n, c, n, n], StepsField) == [100, 300];
    SumStep([], 100);
    SumStep([100], 300);
    assert [] + [100] == [100] && [100] + [300] == [100, 300];
  }

  /** Heart rates 60, 80 and 100 average 80, with minimum 60 and maximum 100. */
  lemma HeartRatesOfThreeRecords()
    ensures var m := Summarize([Reading(None, Some(60)), Reading(None, Some(80)), Reading(None, Some(100))]);
      m.avgHeartRate == Some(80) && m.minHeartRate == Some(60) && m.maxHeartRate == Some(100)
  {
    var a, b, c := Reading(None, Some(60)), Reading(None, Some(80)), Reading(None, Some(100));
    IntReadingsSnoc([], a, HeartRateField);
    assert [] + [a] == [a];
    IntReadingsSnoc([a], b, HeartRateField);
    assert [a] + [b] == [a, b];
    IntReadingsSnoc([a, b], c, HeartRateField);
    assert [a, b] + [c] == [a, b, c];
    assert [] + [60] == [60] && [60] + [80] == [60, 80] && [60, 80] + [100] == [60, 80, 100];
    assert IntReadings([a, b, c], HeartRateField) == [60, 80, 100];
    SumStep([], 60);
    SumStep([60], 80);
    SumStep([60, 80], 100);
    RunningMinMaxStep([], 60);
    RunningMinMaxStep([60], 80);
    RunningMinMaxStep([60, 80], 100);
    assert Average(240, 3) == 80;
  }

  /** Heart rates 60 and 61 average 60.5, which rounds up to 61. */
  lemma HalfRoundsUp()
    ensures Summarize([Reading(None, Some(60)), Reading(None, Some(61))]).avgHeartRate == Some(61)
  {
    var a, b := Reading(None, Some(60)), Reading(None, Some(61));
    IntReadingsSnoc([], a, HeartRateField);
    assert [] + [a] == [a];
    IntReadingsSnoc([a], b, HeartRateField);
    assert [a] + [b] == [a, b];
    assert [] + [60] == [60] && [60] + [61] == [60, 61];
    SumStep([], 60);
    SumStep([60], 61);
    assert Average(121, 2) == 61;
  }
}
