/**
 * The decisions the producer's entry point makes: the log level, the
 * built-in defaults, continuous against fixed mode, which sinks are built,
 * where the reference data lives, how records reach the sinks, how the
 * monitor's total is fed, and the order of shutdown.
 */
module Lifecycle {
  import opened Common
  import opened Models
  import Config
  import Metrics

  // ---------------------------------------------------------------- log level

  /** slog's levels, with their numeric values. */
  datatype Level = Debug | Info | Warn | Error

  function LevelValue(l: Level): int
  {
    match l
    case Debug => -4
    case Info => 0
    case Warn => 4
    case Error => 8
  }

  /** The -log-level flag: the four names, and Info for anything else. */
  function LevelFor(name: string): Level
  {
    match name
    case "debug" => Debug
    case "info" => Info
    case "warn" => Warn
    case "error" => Error
    case _ => Info
  }

  function LevelName(l: Level): string
  {
    match l
    case Debug => "debug"
    case Info => "info"
    case Warn => "warn"
    case Error => "error"
  }

  /** Every level is selected by its name; an unknown name means Info; levels are ordered by severity. */
  lemma LevelForNames(l: Level, name: string)
    ensures LevelFor(LevelName(l)) == l
    ensures name !in {"debug", "info", "warn", "error"} ==> LevelFor(name) == Info
    ensures LevelValue(Debug) < LevelValue(Info) < LevelValue(Warn) < LevelValue(Error)
  {
  }

  // ---------------------------------------------------------------- defaults

  /** The configuration used when no configuration file exists, before overrides. */
  function DefaultConfig(): Config.Config
  {
    Config.Config(
      Config.ProducerConfig(0, 4, 10000),
      Config.OutputConfig("parquet", "/app/output",
        Config.CsvConfig(false, "transactions.csv", 10000),
        Config.ParquetConfig(false, "transactions.parquet", 50000, "snappy")),
      Config.KafkaConfig(false, ["localhost:9092"], "transactions", "snappy", 5000, 100, true),
      Config.DataConfig("/app/data/currency_rates.json", "/app/data/agents.json",
        "/app/data/game_categories.json", "/app/data/currencies.json"),
      Config.MetricsConfig(5, true))
  }

  /** The defaults pass validation, run in continuous mode and build no sink at all. */
  lemma DefaultsAreValid()
    ensures Config.Validate(DefaultConfig()) == None
    ensures Config.Valid(DefaultConfig())
    ensures ContinuousMode(DefaultConfig())
    ensures EnabledSinks(DefaultConfig()) == []
  {
    var c := DefaultConfig();
    assert c.output.format == "parquet";
    Config.ValidateAcceptsExactlyValid(c);
  }

  /** The default reference data lives in /app/data. */
  lemma DefaultDataPath()
    ensures DataPath(DefaultConfig().data.currencyRates) == Some("/app/data")
  {
    var path := DefaultConfig().data.currencyRates;
    assert |path| == 29;
    assert path[..9] == "/app/data";
  }

  // ------------------------------------------------------------ mode and sinks

  /** A message count of zero means generate until stopped. */
  predicate ContinuousMode(c: Config.Config)
  {
    c.producer.messageCount == 0
  }

  /** On a valid configuration, fixed mode always has a positive number of messages to make. */
  lemma FixedModeHasWork(c: Config.Config)
    requires Config.Valid(c)
    ensures !ContinuousMode(c) <==> c.producer.messageCount > 0
  {
    assert !Config.Violates(c, Config.NegativeMessageCount);
  }

  datatype Sink = Csv | Parquet | Kafka

  /** The sinks built, in registration order. */
  function EnabledSinks(c: Config.Config): seq<Sink>
  {
    (if c.output.csv.enabled && (c.output.format == "csv" || c.output.format == "both") then [Csv] else [])
    + (if c.output.parquet.enabled && (c.output.format == "parquet" || c.output.format == "both") then [Parquet] else [])
    + (if c.kafka.enabled then [Kafka] else [])
  }

  function Position(s: Sink): nat
  {
    match s
    case Csv => 0
    case Parquet => 1
    case Kafka => 2
  }

  /**
   * A file sink is built exactly when it is enabled and the format names it
   * (or is "both"); Kafka exactly when enabled, whatever the format. Each is
   * built at most once, CSV before Parquet before Kafka.
   */
  lemma SinkSelection(c: Config.Config)
    ensures Csv in EnabledSinks(c) <==> c.output.csv.enabled && c.output.format in {"csv", "both"}
    ensures Parquet in EnabledSinks(c) <==> c.output.parquet.enabled && c.output.format in {"parquet", "both"}
    ensures Kafka in EnabledSinks(c) <==> c.kafka.enabled
    ensures forall i, j :: 0 <= i < j < |EnabledSinks(c)| ==> Position(EnabledSinks(c)[i]) < Position(EnabledSinks(c)[j])
  {
  }

  // --------------------------------------------------------------- data path

  const CurrencyRatesSuffix: string := "/currency_rates.json"

  /**
   * The reference-data directory: the currency-rates path with its last
   * len("/currency_rates.json") characters cut off, without checking what
   * they are. A shorter path makes the slice panic (None).
   */
  function DataPath(currencyRates: string): (r: Option<string>)
    ensures r.Some? <==> |currencyRates| >= |CurrencyRatesSuffix|
  {
    if |currencyRates| < |CurrencyRatesSuffix| then None
    else Some(currencyRates[..|currencyRates| - |CurrencyRatesSuffix|])
  }

  /** A path ending in the usual file name gives its directory back. */
  lemma DataPathDropsSuffix(dir: string)
    ensures DataPath(dir + CurrencyRatesSuffix) == Some(dir)
  {
    assert (dir + CurrencyRatesSuffix)[..|dir|] == dir;
  }

  /** The cut is blind: whatever the last 20 characters are, they are dropped, and nothing else is. */
  lemma DataPathIgnoresFileName(currencyRates: string)
    requires |currencyRates| >= |CurrencyRatesSuffix|
    ensures |CurrencyRatesSuffix| == 20
    ensures DataPath(currencyRates).value + currencyRates[|currencyRates| - 20..] == currencyRates
  {
  }

  // ------------------------------------------------------------------ fan-out

  function SumLengths(xs: seq<seq<Transaction>>): nat
  {
    if xs == [] then 0 else SumLengths(xs[..|xs| - 1]) + |xs[|xs| - 1]|
  }

  predicate PicksFit(picks: seq<nat>, k: nat)
  {
    forall i :: 0 <= i < |picks| ==> picks[i] < k
  }

  /**
   * Every forwarder ranges over the one shared channel, so each record is
   * taken by exactly one of them: `picks[i]` is the forwarder that won
   * record i. The result is what each of the k sink channels receives.
   */
  function SharedFanOut(records: seq<Transaction>, picks: seq<nat>, k: nat): (out: seq<seq<Transaction>>)
    requires |picks| == |records| && PicksFit(picks, k)
    ensures |out| == k
  {
    if records == [] then Empties(k)
    else
      var n := |records| - 1;
      var prev := SharedFanOut(records[..n], picks[..n], k);
      prev[picks[n] := prev[picks[n]] + [records[n]]]
  }

  /** The forwarders as written: a loop handing each record to the forwarder that took it. */
  method Forward(records: seq<Transaction>, picks: seq<nat>, k: nat) returns (channels: seq<seq<Transaction>>)
    requires |picks| == |records| && PicksFit(picks, k)
    ensures channels == SharedFanOut(records, picks, k)
  {
    channels := Empties(k);
    for i := 0 to |records|
      invariant channels == SharedFanOut(records[..i], picks[..i], k)
    {
      assert records[..i + 1][..i] == records[..i] && picks[..i + 1][..i] == picks[..i];
      channels := channels[picks[i] := channels[picks[i]] + [records[i]]];
    }
    assert records[..|records|] == records && picks[..|picks|] == picks;
  }

  lemma {:induction false} SumLengthsUpdate(xs: seq<seq<Transaction>>, p: nat, t: Transaction)
    requires p < |xs|
    ensures SumLengths(xs[p := xs[p] + [t]]) == SumLengths(xs) + 1
  {
    var ys := xs[p := xs[p] + [t]];
    var n := |xs| - 1;
    if p == n {
      assert ys[..n] == xs[..n];
    } else {
      assert ys[..n] == xs[..n][p := xs[p] + [t]];
      SumLengthsUpdate(xs[..n], p, t);
    }
  }

  function Empties(k: nat): seq<seq<Transaction>>
  {
    seq(k, _ => [])
  }

  lemma {:induction false} SumLengthsOfEmpties(k: nat)
    ensures SumLengths(Empties(k)) == 0
  {
    if k > 0 {
      assert Empties(k)[..k - 1] == Empties(k - 1);
      SumLengthsOfEmpties(k - 1);
    }
  }

  /** The records, in stream order, that forwarder `j` took. */
  function Picked(records: seq<Transaction>, picks: seq<nat>, j: nat): seq<Transaction>
    requires |picks| == |records|
  {
    if records == [] then []
    else
      var n := |records| - 1;
      Picked(records[..n], picks[..n], j) + (if picks[n] == j then [records[n]] else [])
  }

  /**
   * The sinks' shares partition the stream: each sink receives, in order,
   * exactly the records its forwarder took, and the shares add up to the
   * stream, so nothing is duplicated and nothing is lost.
   */
  lemma {:induction false} SharedFanOutPartitions(records: seq<Transaction>, picks: seq<nat>, k: nat)
    requires |picks| == |records| && PicksFit(picks, k)
    ensures forall j :: 0 <= j < k ==> SharedFanOut(records, picks, k)[j] == Picked(records, picks, j)
    ensures SumLengths(SharedFanOut(records, picks, k)) == |records|
  {
    if records == [] {
      SumLengthsOfEmpties(k);
    } else {
      var n := |records| - 1;
      SharedFanOutPartitions(records[..n], picks[..n], k);
      SumLengthsUpdate(SharedFanOut(records[..n], picks[..n], k), picks[n], records[n]);
    }
  }

  /** Shares that add up to less than |xs| * m cannot all hold m records. */
  lemma {:induction false} SomeShareShort(xs: seq<seq<Transaction>>, m: nat)
    requires SumLengths(xs) < |xs| * m
    ensures exists j :: 0 <= j < |xs| && |xs[j]| < m
  {
    var n := |xs| - 1;
    if |xs[n]| >= m {
      assert |xs| * m == n * m + m;
      SomeShareShort(xs[..n], m);
      var j :| 0 <= j < n && |xs[..n][j]| < m;
      assert xs[j] == xs[..n][j];
    }
  }

  /**
   * With two or more sinks and at least one record, some sink misses part
   * of the stream: "both" formats, or a file sink beside Kafka, never each
   * get every record.
   */
  lemma SharedFanOutStarvesSomeSink(records: seq<Transaction>, picks: seq<nat>, k: nat)
    requires |picks| == |records| && PicksFit(picks, k)
    requires k >= 2 && records != []
    ensures exists j :: 0 <= j < k && |SharedFanOut(records, picks, k)[j]| < |records|
  {
    var out := SharedFanOut(records, picks, k);
    SharedFanOutPartitions(records, picks, k);
    MoreThanOnce(k, |records|);
    SomeShareShort(out, |records|);
  }

  lemma MoreThanOnce(k: nat, m: nat)
    requires k >= 2 && m >= 1
    ensures k * m > m
  {
    assert k * m == m + (k - 1) * m;
  }

  /** What each sink should receive: the whole stream, in order. */
  function Broadcast(records: seq<Transaction>, k: nat): (out: seq<seq<Transaction>>)
  {
    seq(k, _ => records)
  }

  /** Broadcasting gives every sink every record, so the shares add up to k copies of the stream. */
  lemma BroadcastDeliversAll(records: seq<Transaction>, k: nat)
    ensures |Broadcast(records, k)| == k
    ensures forall j :: 0 <= j < k ==> Broadcast(records, k)[j] == records
    ensures SumLengths(Broadcast(records, k)) == k * |records|
  {
    BroadcastSum(records, k);
  }

  lemma {:induction false} BroadcastSum(records: seq<Transaction>, k: nat)
    ensures SumLengths(Broadcast(records, k)) == k * |records|
  {
    if k > 0 {
      assert Broadcast(records, k)[..k - 1] == Broadcast(records, k - 1);
      BroadcastSum(records, k - 1);
    }
  }

  /** The forwarders with the shared channel replaced by one copy per sink. */
  method ForwardToAll(records: seq<Transaction>, k: nat) returns (channels: seq<seq<Transaction>>)
    ensures channels == Broadcast(records, k)
    ensures forall j :: 0 <= j < k ==> channels[j] == records
  {
    channels := Empties(k);
    assert records[..0] == [];
    for i := 0 to |records|
      invariant channels == Broadcast(records[..i], k)
    {
      assert records[..i + 1] == records[..i] + [records[i]];
      channels := seq(k, j requires 0 <= j < k => channels[j] + [records[i]]);
    }
    assert records[..|records|] == records;
  }

  // ------------------------------------------------------- the monitor's total

  /**
   * Continuous mode: once a second the ticker adds the messages generated
   * since its previous tick. `samples` are the generated counts the ticks
   * read.
   */
  method FeedTicks(m: Metrics.Monitor, samples: seq<int>)
    modifies m`totalMessages
    ensures m.totalMessages == old(m.totalMessages) + (if samples == [] then 0 else samples[|samples| - 1])
  {
    var lastCount := 0;
    for i := 0 to |samples|
      invariant lastCount == if i == 0 then 0 else samples[i - 1]
      invariant m.totalMessages == old(m.totalMessages) + lastCount
    {
      var current := samples[i];
      m.IncrementTotal(current - lastCount);
      lastCount := current;
    }
  }

  /**
   * Fixed mode: once Generate returns, the monitor's total grows by the
   * configured count, not by what was generated, so a cancelled run reports
   * more messages than it made.
   */
  method AccountFixedMode(m: Metrics.Monitor, c: Config.Config, generated: nat)
    requires generated <= c.producer.messageCount
    modifies m`totalMessages
    ensures m.totalMessages == old(m.totalMessages) + c.producer.messageCount
    ensures generated < c.producer.messageCount ==> m.totalMessages - old(m.totalMessages) > generated
  {
    m.IncrementTotal(c.producer.messageCount);
  }

  // ----------------------------------------------------------------- shutdown

  datatype Event = Closed(sink: Sink, ok: bool) | FinalReportRan

  /**
   * After every writer task has finished: close the writers in registration
   * order, whatever each close returns, then run the final report once.
   */
  method Shutdown(writers: seq<Sink>, closeOks: seq<bool>) returns (log: seq<Event>)
    requires |closeOks| == |writers|
    ensures |log| == |writers| + 1
    ensures forall i :: 0 <= i < |writers| ==> log[i] == Closed(writers[i], closeOks[i])
    ensures log[|writers|] == FinalReportRan
    ensures forall i :: 0 <= i < |writers| ==> log[i] != FinalReportRan
  {
    log := [];
    for i := 0 to |writers|
      invariant |log| == i
      invariant forall j :: 0 <= j < i ==> log[j] == Closed(writers[j], closeOks[j])
    {
      log := log + [Closed(writers[i], closeOks[i])];
    }
    log := log + [FinalReportRan];
  }
}
