/**
 * The performance monitor: message and per-writer counters, the periodic
 * report that measures the messages since the previous report, and the final
 * assessment of the average throughput. Times are nanosecond counts passed
 * in by the caller; rates are exact reals.
 */
module Metrics {

  const NanosPerSecond: int := 1_000_000_000
  const NanosPerMinute: int := 60 * NanosPerSecond
  const NanosPerMilli: int := 1_000_000

  class Monitor {
    const startTime: int
    const intervalNanos: int
    const detailed: bool
    var lastReportTime: int
    var totalMessages: int
    var lastMessages: int
    var csvCount: int
    var parquetCount: int
    var kafkaCount: int
    var kafkaErrors: int

    /** NewMonitor at time `now`: every counter at zero, the interval in whole seconds. */
    constructor (interval: int, detailed: bool, now: int)
      ensures startTime == now && lastReportTime == now
      ensures intervalNanos == interval * NanosPerSecond && this.detailed == detailed
      ensures totalMessages == 0 && lastMessages == 0
      ensures csvCount == 0 && parquetCount == 0 && kafkaCount == 0 && kafkaErrors == 0
    {
      startTime := now;
      intervalNanos := interval * NanosPerSecond;
      this.detailed := detailed;
      lastReportTime := now;
      totalMessages := 0;
      lastMessages := 0;
      csvCount := 0;
      parquetCount := 0;
      kafkaCount := 0;
      kafkaErrors := 0;
    }

    method IncrementTotal(count: int)
      modifies this`totalMessages
      ensures totalMessages == old(totalMessages) + count
    {
      totalMessages := totalMessages + count;
    }

    method IncrementCsv(count: int)
      modifies this`csvCount
      ensures csvCount == old(csvCount) + count
    {
      csvCount := csvCount + count;
    }

    method IncrementParquet(count: int)
      modifies this`parquetCount
      ensures parquetCount == old(parquetCount) + count
    {
      parquetCount := parquetCount + count;
    }

    method IncrementKafka(count: int)
      modifies this`kafkaCount
      ensures kafkaCount == old(kafkaCount) + count
    {
      kafkaCount := kafkaCount + count;
    }

    method IncrementKafkaErrors(count: int)
      modifies this`kafkaErrors
      ensures kafkaErrors == old(kafkaErrors) + count
    {
      kafkaErrors := kafkaErrors + count;
    }

    /**
     * Report at time `now`: the total so far and the messages counted since
     * the previous report; the next report measures from here.
     */
    method Report(now: int) returns (total: int, current: int)
      modifies this`lastMessages, this`lastReportTime
      ensures total == totalMessages && current == old(totalMessages) - old(lastMessages)
      ensures lastMessages == totalMessages && lastReportTime == now
    {
      total := totalMessages;
      current := total - lastMessages;
      lastMessages := total;
      lastReportTime := now;
    }

    /** FinalReport at time `now`: the total and the assessment of the average rate since the start. */
    method FinalReport(now: int) returns (total: int, assessment: Assessment)
      ensures total == totalMessages
      ensures assessment == FinalAssessment(totalMessages, now - startTime)
    {
      total := totalMessages;
      var elapsed := now - startTime;
      if elapsed == 0 {
        assessment := if total > 0 then Excellent else Low;
      } else {
        var rate := total as real * NanosPerSecond as real / elapsed as real;
        if rate >= 30000.0 {
          assessment := Excellent;
        } else if rate >= 20000.0 {
          assessment := Good;
        } else if rate >= 10000.0 {
          assessment := Moderate;
        } else {
          assessment := Low;
        }
      }
    }
  }

  // ------------------------------------------------------ successive reports

  /** The `current` figures of successive reports, given the totals they see and the starting baseline. */
  function Currents(last: int, totals: seq<int>): seq<int>
    decreases |totals|
  {
    if totals == [] then [] else [totals[0] - last] + Currents(totals[0], totals[1..])
  }

  function Sum(xs: seq<int>): int
  {
    if xs == [] then 0 else xs[0] + Sum(xs[1..])
  }

  /**
   * Successive reports partition the messages: their `current` figures add
   * up to the last total seen minus the starting baseline, with nothing
   * counted twice or missed.
   */
  lemma {:induction false} CurrentsTelescope(last: int, totals: seq<int>)
    requires totals != []
    ensures |Currents(last, totals)| == |totals|
    ensures Sum(Currents(last, totals)) == totals[|totals| - 1] - last
    decreases |totals|
  {
    if |totals| > 1 {
      CurrentsTelescope(totals[0], totals[1..]);
    }
  }

  /** With only non-negative increments between reports, no report shows a negative count. */
  lemma {:induction false} CurrentsNonNegative(last: int, totals: seq<int>)
    requires totals != [] ==> last <= totals[0]
    requires forall i :: 0 < i < |totals| ==> totals[i - 1] <= totals[i]
    ensures |Currents(last, totals)| == |totals|
    ensures forall i :: 0 <= i < |totals| ==> Currents(last, totals)[i] >= 0
    decreases |totals|
  {
    if totals != [] {
      var rest := totals[1..];
      assert forall i :: 0 < i < |rest| ==> rest[i - 1] <= rest[i] by {
        forall i | 0 < i < |rest|
          ensures rest[i - 1] <= rest[i]
        {
          assert rest[i] == totals[i + 1] && rest[i - 1] == totals[i];
        }
      }
      if rest != [] {
        assert totals[0] <= rest[0] by { assert rest[0] == totals[1]; }
      }
      CurrentsNonNegative(totals[0], rest);
      assert Currents(last, totals) == [totals[0] - last] + Currents(totals[0], rest);
    }
  }

  // --------------------------------------------------------------- assessment

  datatype Assessment = Excellent | Good | Moderate | Low

  function Rank(a: Assessment): nat
  {
    match a
    case Low => 0
    case Moderate => 1
    case Good => 2
    case Excellent => 3
  }

  function AssessmentText(a: Assessment): string
  {
    match a
    case Excellent => "EXCELLENT: Exceeded 30K messages/sec target"
    case Good => "GOOD: Met 20K messages/sec target"
    case Moderate => "MODERATE: Performance below target (10K-20K/sec)"
    case Low => "LOW: Performance significantly below target (<10K/sec)"
  }

  /** The band for an average rate in messages per second. */
  function Assess(rate: real): Assessment
  {
    if rate >= 30000.0 then Excellent
    else if rate >= 20000.0 then Good
    else if rate >= 10000.0 then Moderate
    else Low
  }

  /** Each band is exactly its half-open interval of rates. */
  lemma AssessBands(rate: real)
    ensures Assess(rate) == Excellent <==> rate >= 30000.0
    ensures Assess(rate) == Good <==> 20000.0 <= rate < 30000.0
    ensures Assess(rate) == Moderate <==> 10000.0 <= rate < 20000.0
    ensures Assess(rate) == Low <==> rate < 10000.0
  {
  }

  /** A higher rate never gets a lower band. */
  lemma AssessMonotone(r1: real, r2: real)
    requires r1 <= r2
    ensures Rank(Assess(r1)) <= Rank(Assess(r2))
  {
  }

  /**
   * The final assessment of `total` messages over `elapsed` nanoseconds. A
   * zero elapsed time divides by zero in floating point: a positive total
   * gives +Inf, the top band, and zero gives NaN, which fails every
   * comparison and lands in the bottom band.
   */
  function FinalAssessment(total: int, elapsed: int): Assessment
  {
    if elapsed == 0 then (if total > 0 then Excellent else Low)
    else Assess(total as real * NanosPerSecond as real / elapsed as real)
  }

  /** Over a positive time, the final band is the band of total / seconds, and more messages never lower it. */
  lemma FinalAssessmentIsBandOfAverage(total: int, more: int, elapsed: int)
    requires elapsed > 0 && total <= more
    ensures FinalAssessment(total, elapsed) == Assess(total as real / (elapsed as real / NanosPerSecond as real))
    ensures Rank(FinalAssessment(total, elapsed)) <= Rank(FinalAssessment(more, elapsed))
  {
    var e := elapsed as real;
    var n := NanosPerSecond as real;
    assert total as real / (e / n) == total as real * n / e;
    assert total as real * n / e <= more as real * n / e by {
      assert total as real * n <= more as real * n;
    }
    AssessMonotone(total as real * n / e, more as real * n / e);
  }

  // ------------------------------------------------------------ formatting

  datatype DurationUnit = Milliseconds | Seconds | Minutes

  /** formatDuration's choice of unit for a duration in nanoseconds. */
  function DurationUnitOf(d: int): DurationUnit
  {
    if d < NanosPerSecond then Milliseconds
    else if d < NanosPerMinute then Seconds
    else Minutes
  }

  /** Go's integer division, truncating toward zero. */
  function TruncDiv(a: int, b: int): int
    requires b > 0
  {
    if a >= 0 then a / b else -((-a) / b)
  }

  /** The whole milliseconds formatDuration prints below one second. */
  function WholeMillis(d: int): (ms: int)
  {
    TruncDiv(d, NanosPerMilli)
  }

  /**
   * Milliseconds are used exactly below one second, seconds exactly below one
   * minute, and the unit never goes down as the duration grows; below one
   * second the printed count is under 1000 and counts whole milliseconds.
   */
  lemma DurationUnits(d: int, d2: int)
    ensures DurationUnitOf(d) == Milliseconds <==> d < NanosPerSecond
    ensures DurationUnitOf(d) == Seconds <==> NanosPerSecond <= d < NanosPerMinute
    ensures 0 <= d < NanosPerSecond ==>
      0 <= WholeMillis(d) < 1000 && WholeMillis(d) * NanosPerMilli <= d < (WholeMillis(d) + 1) * NanosPerMilli
    ensures d <= d2 && DurationUnitOf(d) == Minutes ==> DurationUnitOf(d2) == Minutes
    ensures d <= d2 && DurationUnitOf(d2) == Milliseconds ==> DurationUnitOf(d) == Milliseconds
  {
  }

  datatype RateUnit = Mega | Kilo | Plain

  /** formatRate's choice of unit. */
  function RateUnitOf(rate: real): RateUnit
  {
    if rate >= 1000000.0 then Mega
    else if rate >= 1000.0 then Kilo
    else Plain
  }

  /** The figure formatRate prints before rounding: the rate scaled to its unit. */
  function ScaledRate(rate: real): real
  {
    match RateUnitOf(rate)
    case Mega => rate / 1000000.0
    case Kilo => rate / 1000.0
    case Plain => rate
  }

  /** The K and M units only ever show a figure of at least 1, and K figures stay below 1000. */
  lemma RateUnits(rate: real)
    ensures RateUnitOf(rate) == Mega <==> rate >= 1000000.0
    ensures RateUnitOf(rate) == Kilo <==> 1000.0 <= rate < 1000000.0
    ensures RateUnitOf(rate) != Plain ==> ScaledRate(rate) >= 1.0
    ensures RateUnitOf(rate) == Kilo ==> ScaledRate(rate) < 1000.0
    ensures RateUnitOf(rate) == Plain ==> ScaledRate(rate) == rate < 1000.0
  {
  }
}
