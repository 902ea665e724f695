# mesage_producer — a verified model of the transaction producer

The producer generates synthetic casino transactions and pushes them to up to
three sinks: a CSV file, a Parquet file and a Kafka topic. A metrics monitor
counts what was produced and written. This project models that core in Dafny
and proves what it promises.

## What is modelled

- **Generation (`Generator`).** One transaction is built from the loaded
  reference tables, a shared sequence counter, and the random picks and clock
  readings of one call. The random picks and the clock are a `Draw` value.
  - Ids are `%08d` renderings of the sequence number.
  - Money is exact: amounts are integer millionths and multipliers are tenths.
  - `StringFixed(6)` is rendered by `Text.Fixed6` and read back by
    `Text.ParseFixed6`.
  - A fixed count is split into worker ranges. The workers are run one after
    another on a `Producer` class whose `sequence` field is the shared counter.
  - The three lookup indices are built by `LoadReferenceData`, with a loop for
    each.
- **Sink buffering (`SinkBuffer`).** The CSV and Parquet sinks share one
  discipline: append the record, flush once the buffer reaches its threshold,
  stop at the first failed flush, and flush once more at the end.
  - `SinkBuffer.Write` is a specification function for this discipline.
  - The `CsvWriter` and `ParquetWriter` classes are proved against it through
    their `State()`.
  - Each flush outcome is a boolean parameter.
- **CSV (`CsvSink`).** The 17-column header, one row per record (integers
  written with `%d`), a reader for rows, and the encoder's own buffer, which
  still holds the header until the first flush.
- **Parquet (`ParquetSink`).** Codec selection by name, and the buffered
  writer with its three-step close.
- **Kafka (`KafkaSink`).**
  - The producer settings.
  - One message per encodable record, keyed by its id. JSON encoding is a
    parameter.
  - The acknowledgement handler as a loop over an event list, with a
    counter for successes and one for failures.
- **Configuration (`Config`).**
  - `Validate`, with its checks in order.
  - The 25 environment overrides: one step method per kind of variable, and
    `ApplyEnvOverrides` calling them in the source's order.
  - `Load` after the file has been read and decoded.
- **Metrics (`Metrics`).**
  - The `Monitor` class with its counters, and the periodic and final
    reports.
  - The four throughput bands.
  - The unit choices of `formatDuration` and `formatRate`.
  - Times are nanosecond counts passed in by the caller.
- **Entry point (`Lifecycle`).**
  - The log level.
  - The built-in defaults.
  - Continuous or fixed mode.
  - Which sinks are built.
  - The data directory taken from the currency-rates path.
  - How records reach the sinks.
  - How the monitor's total is fed.
  - The shutdown order.

Two observations that are not modelled as defects:

- **Multiplier comment.** The multiplier menu is annotated "More losses than
  wins". It has four losing entries, one break-even entry and five winning
  ones (`Generator.MultiplierOutcomes`).
- **Fixed-mode total.** In fixed mode the monitor's total grows by the
  configured count once generation returns, even when a cancellation stopped
  generation early (`Lifecycle.AccountFixedMode`).

## Model

| member | source | states |
|---|---|---|
| Text.PadValue | internal/generator/producer.go:243-246 | `%08d` of n reads back as n; it is at least 8 characters wide, and exactly 8 when n < 10^8 |
| Text.PadInjective | internal/generator/producer.go:243-246 | two zero-padded numbers are the same text exactly when the numbers are equal |
| Text.IntTextRoundTrip | internal/writer/csv.go:93-100 | every `%d` rendering of an int parses back to that int |
| Text.Atoi | internal/config/loader.go:110-123 | strconv.Atoi accepts only an optional sign followed by digits whose value fits in 64 bits |
| Text.AtoiReadsIntText | internal/config/loader.go:110-123 | Atoi accepts the `%d` text of any 64-bit int and returns that int |
| Text.Fixed6RoundTrip | internal/generator/producer.go:256-258 | StringFixed(6) loses nothing: the six-decimal text reads back as the same number of millionths, negative values included |
| Text.Split | internal/config/loader.go:167-169 | strings.Split always yields at least one part, and no part contains the separator |
| Text.JoinSplit | internal/config/loader.go:167-169 | joining the parts of a split with the separator gives back the original value |
| Generator.ScaleBetByCurrency | internal/generator/producer.go:224-235 | BTC bets are the base / 10^4, ETH bets / 10^3, JPY bets × 100, CNY bets × 7, other currencies the base; every bet is positive and exact |
| Generator.WinAmountExact | internal/generator/producer.go:238-239 | win = bet × multiplier with no rounding |
| Generator.FixedAndBoundedFields | internal/generator/producer.go:207-259 | vendor line and house are 1; the vendor id is in 1..10; the vendor code comes from the menu; the category, currency and agent fields are copied from the drawn rows |
| Generator.MoneyIsExact | internal/generator/producer.go:227-258 | the three money strings read back as the scaled bet, bet × multiplier, and win − bet |
| Generator.AmountsAreExact | internal/generator/producer.go:224-240 | the bet is positive, and the win times 10 is the bet times the multiplier in tenths |
| Generator.WinLossIsWinMinusBet | internal/generator/producer.go:240-258 | the win_loss read back from a record equals its win_amount minus its bet_amount |
| Generator.WinLossSign | internal/generator/producer.go:238-240 | win − bet is negative exactly when the multiplier is below 1, and zero exactly at 1 |
| Generator.DrawLosesIffMultiplierBelowOne | internal/generator/producer.go:238-240 | a draw loses exactly when its multiplier is below 1, and breaks even exactly at 1 |
| Generator.RecordLosesIffMultiplierBelowOne | internal/generator/producer.go:238-258 | a record's win_loss text is negative exactly when its multiplier is below 1, and zero exactly at 1 |
| Generator.MultiplierOutcomes | internal/generator/producer.go:44 | the menu has four losing multipliers, one at 1 and five winning ones |
| Generator.IdsAreDistinct | internal/generator/producer.go:243-245 | bet ids, and transaction ids of one date, coincide only for equal sequence numbers |
| Generator.RoundIdGroupsByTen | internal/generator/producer.go:246 | two records share a round id exactly when their sequence numbers divided by 10 are equal |
| Generator.LastByKeyIsLastOccurrence | internal/generator/producer.go:63-65 | the currency index has exactly the ids that occur; each id maps to a currency with that id; with duplicates, the last currency wins |
| Generator.WithKeyFacts | internal/generator/producer.go:73-75 | the records filed under a key are exactly the input records with that key |
| Generator.GroupByKeyIsFilter | internal/generator/producer.go:73-75 | the grouped index has exactly the keys that occur; each key maps to the non-empty list of its records, in input order |
| Generator.ElementInOwnGroupOnly | internal/generator/producer.go:83-85 | each agent is filed under its own master agent and under no other |
| Generator.LoadReferenceData | internal/generator/producer.go:50-95 | the tables are kept and the three indices are built from them |
| Generator.AgentMatchesMaster | internal/generator/producer.go:210-218 | the chosen agent is in the table, belongs to the drawn master agent, and the record carries that master agent |
| Generator.WorkerRangesTile | internal/generator/producer.go:171-179 | worker ranges start at 0, end at count, are ordered, and each starts where the previous one ends |
| Generator.OwnerRangeHolds | internal/generator/producer.go:171-179 | every index below count lies in the range of a worker that exists |
| Generator.OnlyOwnerRangeHolds | internal/generator/producer.go:171-179 | a range that holds an index belongs to that index's owner |
| Generator.ExactlyOneWorker | internal/generator/producer.go:171-193 | each index is produced by exactly one worker |
| Generator.RangeLengthsSumToCount | internal/generator/producer.go:171-179 | the range lengths sum to count: no index is lost or duplicated, including the remainder |
| Generator.Producer.constructor | internal/generator/producer.go:31-47 | a new producer keeps the reference data and starts the counter at 0 |
| Generator.Producer.GenerateTransaction | internal/generator/producer.go:202-261 | one increment of the shared counter, then the record for the new number |
| Generator.Producer.Work | internal/generator/producer.go:181-194 | a worker yields one record per index, stops early on cancellation, and its output is the counter's run over the draws |
| Generator.Producer.Generate | internal/generator/producer.go:169-200 | Generate yields min(count, records before cancellation) records; the counter advances by that many; the records are numbered consecutively |
| Generator.RunStep | internal/generator/producer.go:202-203 | one more draw appends exactly one record, numbered one past the run so far |
| Generator.RunBetId | internal/generator/producer.go:245 | record k of a run carries the bet id of sequence number base + 1 + k |
| Generator.RunHasDistinctBetIds | internal/generator/producer.go:203-245 | the records of one run have pairwise distinct vendor bet ids |
| SinkBuffer.FlushConserves | internal/writer/csv.go:82-121 | a flush neither loses nor reorders records and keeps the counter exact; a success empties the buffer; a failure changes nothing |
| SinkBuffer.ReceiveKeepsBufferBelowThreshold | internal/writer/csv.go:72-77 | after a receive that does not fail, fewer than threshold records are buffered |
| SinkBuffer.WriteConserves | internal/writer/csv.go:61-80 | committed followed by buffered equals before plus the records taken in; an error-free Write took everything and left the buffer empty |
| SinkBuffer.CleanWriteCountsEverything | internal/writer/csv.go:61-80 | after an error-free Write, the count has grown by the old buffer plus every input record |
| SinkBuffer.WriteSucceedsWhenWritesDo | internal/writer/csv.go:61-80 | when every underlying write succeeds, Write returns no error |
| CsvSink.Row | internal/writer/csv.go:87-106 | a row has one cell per header column |
| CsvSink.RowFollowsHeader | internal/writer/csv.go:40-46 | every cell sits under the header name of the field it holds |
| CsvSink.RowRoundTrip | internal/writer/csv.go:87-106 | a row parses back to the transaction it was written from |
| CsvSink.RowsFor | internal/writer/csv.go:87-106 | flush's encoding loop produces one row per buffered record, in order |
| CsvSink.RowsReadBack | internal/writer/csv.go:87-116 | the data rows read back as exactly the committed transactions, in order |
| CsvSink.HeaderLostWhenNothingWritten | internal/writer/csv.go:124-130 | as written, while no row has been committed the encoder still holds the header, and the closed file is empty, without it |
| CsvSink.ClosedFileAsWrittenHasHeaderOnlyAfterRows | internal/writer/csv.go:124-130 | as written, the closed file is header plus rows exactly when some row was committed |
| CsvSink.ClosedFileHasHeaderAndRows | internal/writer/csv.go:26-46 | when the encoder is flushed on close, the file is always the header followed by the committed rows, which read back |
| CsvSink.CsvWriter.constructor | internal/writer/csv.go:26-58 | for a non-negative buffer size (a negative one panics at `make`), a new writer holds the header in the encoder, with nothing buffered or counted |
| CsvSink.CsvWriter.Flush | internal/writer/csv.go:82-121 | a flush is SinkBuffer.Flush on the writer's state, and it keeps the encoder invariant |
| CsvSink.CsvWriter.Write | internal/writer/csv.go:61-80 | Write is SinkBuffer.Write on the writer's state, with the same error |
| CsvSink.CsvWriter.Close | internal/writer/csv.go:124-130 | as written: a final flush, then the file is closed with the encoder's held rows dropped; the file is the header and the rows exactly when rows were committed, and is empty when none were |
| CsvSink.CsvWriter.CloseFlushingEncoder | internal/writer/csv.go:124-130 | corrected close: the file is the header followed by every committed row |
| CsvSink.CsvWriter.Count | internal/writer/csv.go:133-135 | in a consistent writer (the counter agrees with the shared buffer model's history), Count is the number of records committed by successful flushes |
| ParquetSink.CodecNameRoundTrip | internal/writer/parquet.go:39-51 | every codec is selected by its own name |
| ParquetSink.UnknownNamesAreUncompressed | internal/writer/parquet.go:39-51 | exactly the four known names select compression; any other name means uncompressed |
| ParquetSink.ParquetWriter.constructor | internal/writer/parquet.go:27-67 | for a non-negative row-group size (a negative one panics at `make`), a new writer has its codec chosen by name and nothing buffered |
| ParquetSink.ParquetWriter.Flush | internal/writer/parquet.go:91-104 | a flush is SinkBuffer.Flush on the writer's state |
| ParquetSink.ParquetWriter.Write | internal/writer/parquet.go:70-89 | Write is SinkBuffer.Write on the writer's state, with the same error |
| ParquetSink.ParquetWriter.Close | internal/writer/parquet.go:107-120 | a final flush, then the encoder and the file are both closed whatever fails; the first failure is reported |
| ParquetSink.ParquetWriter.Count | internal/writer/parquet.go:123-125 | in a consistent writer (the counter agrees with the shared buffer model's history), Count is the number of records the encoder accepted |
| KafkaSink.CompressionNameRoundTrip | internal/writer/kafka.go:34-45 | every compression is selected by its name; only the four known names compress |
| KafkaSink.SettingsAreConsistent | internal/writer/kafka.go:27-53 | the flush cap is at least the flush trigger exactly for a non-negative batch size; the flush timer runs exactly for a positive period and converts back to the configured milliseconds |
| KafkaSink.EveryRecordSentOrCounted | internal/writer/kafka.go:109-120 | every record is either queued on the topic, keyed by its id, or counted as an error |
| KafkaSink.AllEncodedAllSent | internal/writer/kafka.go:116-128 | when every encoding succeeds, there is one message per record, in order |
| KafkaSink.TallyAdditive | internal/writer/kafka.go:76-91 | acknowledgements are counted the same however they are batched, while both streams are open |
| KafkaSink.TallyStopsAtClose | internal/writer/kafka.go:76-91 | nothing after a closed stream is counted, and a failure does not stop the handler |
| KafkaSink.KafkaWriter.constructor | internal/writer/kafka.go:26-71 | a new writer has the settings from the configuration, zero counters and an empty history, so its counters agree with the history |
| KafkaSink.KafkaWriter.Write | internal/writer/kafka.go:97-131 | errors and the history's encoding failures grow by the failures of this batch; the queue grows by the encodable records, minus a last record abandoned on cancellation; the counters still agree with the history |
| KafkaSink.KafkaWriter.HandleResponses | internal/writer/kafka.go:73-94 | count and errors grow by the successes and failures before the first closed stream, the events before it join the history, and the counters still agree with the history |
| KafkaSink.KafkaWriter.Close | internal/writer/kafka.go:134-137 | the producer is closed and its error is reported |
| KafkaSink.KafkaWriter.Count | internal/writer/kafka.go:140-142 | in a consistent writer, Count is the number of successful deliveries among the acknowledgements handled so far |
| KafkaSink.KafkaWriter.Errors | internal/writer/kafka.go:145-147 | in a consistent writer, Errors is the encoding failures so far plus the failed deliveries among the acknowledgements handled |
| Config.ValidateAcceptsExactlyValid | internal/config/loader.go:216-243 | Validate returns nil exactly for configurations that break no rule |
| Config.ValidateReportsFirstFailure | internal/config/loader.go:216-243 | the error reported is the earliest check, in order, that fails |
| Config.DisabledKafkaIsNotChecked | internal/config/loader.go:233-240 | with Kafka disabled, its brokers and topic do not affect validation |
| Config.IntOverrideReadsIntText | internal/config/loader.go:110-124 | setting an int variable to the decimal text of a 64-bit int sets the field to that int |
| Config.IntOverrideIgnoresWideInt | internal/config/loader.go:110-124 | a number outside the 64-bit range leaves the field unchanged |
| Config.IntOverrideIgnoresNonNumber | internal/config/loader.go:110-124 | a value with a non-digit (other than a leading sign) leaves the field unchanged |
| Text.AtoiRejectsWideIntText | internal/config/loader.go:110-124 | Atoi refuses the decimal text of an int outside the 64-bit range |
| Text.AtoiRejectsInnerNonDigit | internal/config/loader.go:110-124 | Atoi refuses text with a non-digit after its first character |
| Config.BoolOverrideReadsBoolText | internal/config/loader.go:135-137 | setting a bool variable to "true" or "false" sets the field to that bool |
| Config.BoolOverrideOnlyLowerCaseTrue | internal/config/loader.go:135-137 | any set value other than exactly "true" turns the field off |
| Config.StringOverrideReadsBack | internal/config/loader.go:127-132 | a set string variable becomes the field as given, and setting it again changes nothing |
| Config.SingleVariable | internal/config/loader.go:108-213 | an environment that sets one variable changes exactly the field that variable names (by an independent per-section assignment), and an unlisted variable changes nothing |
| Config.BrokersOverride | internal/config/loader.go:167-169 | a non-empty KAFKA_BROKERS becomes a non-empty list whose comma-join is the value |
| Config.ApplyEnvOverrides | internal/config/loader.go:108-213 | applying the variables one at a time gives EnvOverrides of the configuration |
| Config.OnlyListedVariablesMatter | internal/config/loader.go:108-213 | environments that agree on the 25 listed variables give the same configuration |
| Config.EmptyEnvironmentChangesNothing | internal/config/loader.go:108-213 | when every listed variable is unset or empty, the configuration is unchanged |
| Config.OverridesAreIdempotent | internal/config/loader.go:108-213 | applying the same environment twice equals applying it once |
| Config.OverridesCompose | internal/config/loader.go:108-213 | applying two disjoint environments one after the other equals applying their union |
| Config.LoadReturnsOnlyValid | internal/config/loader.go:78-100 | Load returns only valid configurations (the file's, with overrides) and accepts every file the environment makes valid |
| Metrics.Monitor.constructor | internal/metrics/monitor.go:30-39 | a new monitor has zero counters and the interval in seconds |
| Metrics.Monitor.IncrementTotal | internal/metrics/monitor.go:42-44 | the total grows by the count, and no other counter changes |
| Metrics.Monitor.IncrementCsv | internal/metrics/monitor.go:47-49 | the CSV counter grows by the count |
| Metrics.Monitor.IncrementParquet | internal/metrics/monitor.go:52-54 | the Parquet counter grows by the count |
| Metrics.Monitor.IncrementKafka | internal/metrics/monitor.go:57-59 | the Kafka counter grows by the count |
| Metrics.Monitor.IncrementKafkaErrors | internal/metrics/monitor.go:62-64 | the Kafka error counter grows by the count |
| Metrics.Monitor.Report | internal/metrics/monitor.go:67-104 | a report shows the total and the messages since the previous report, and becomes the new baseline |
| Metrics.Monitor.FinalReport | internal/metrics/monitor.go:107-141 | the final report shows the total and the band of its average rate |
| Metrics.CurrentsTelescope | internal/metrics/monitor.go:77-78 | the per-interval figures of successive reports sum to the last total minus the starting baseline |
| Metrics.CurrentsNonNegative | internal/metrics/monitor.go:77-78 | with a non-decreasing total, no report shows a negative interval count |
| Metrics.AssessBands | internal/metrics/monitor.go:129-138 | each band is exactly its half-open interval of rates: ≥30K, 20–30K, 10–20K, <10K |
| Metrics.AssessMonotone | internal/metrics/monitor.go:129-138 | a higher rate never gets a lower band |
| Metrics.FinalAssessmentIsBandOfAverage | internal/metrics/monitor.go:108-138 | over positive time, the band is that of total / seconds, and more messages never lower it |
| Metrics.DurationUnits | internal/metrics/monitor.go:143-150 | ms exactly below 1 s; seconds exactly below 1 min; the unit only grows with the duration; below 1 s it prints the whole milliseconds, < 1000 |
| Metrics.RateUnits | internal/metrics/monitor.go:152-159 | M exactly from 10^6, K exactly from 10^3; K and M figures are ≥ 1; K figures are < 1000 |
| Lifecycle.LevelForNames | cmd/producer/main.go:28-40 | each level is selected by its name; any other name means info; levels are ordered by severity |
| Lifecycle.DefaultsAreValid | cmd/producer/main.go:56-104 | the built-in defaults pass Validate, run in continuous mode and build no sink |
| Lifecycle.DefaultDataPath | cmd/producer/main.go:87-137 | the defaults take their reference data from /app/data |
| Lifecycle.FixedModeHasWork | cmd/producer/main.go:114 | on a valid configuration, fixed mode always has a positive message count |
| Lifecycle.SinkSelection | cmd/producer/main.go:176-295 | a file sink is built exactly when enabled and named by the format (or "both"); Kafka exactly when enabled; order is CSV, Parquet, Kafka |
| Lifecycle.DataPath | cmd/producer/main.go:137 | the data directory is defined exactly when the path has at least 20 characters |
| Lifecycle.DataPathDropsSuffix | cmd/producer/main.go:137 | a path ending in /currency_rates.json gives its directory |
| Lifecycle.DataPathIgnoresFileName | cmd/producer/main.go:137 | the last 20 characters are dropped whatever they are |
| Lifecycle.SharedFanOut | cmd/producer/main.go:191-196 | as written, the shared channel yields one share per sink |
| Lifecycle.Forward | cmd/producer/main.go:191-196 | the forwarders hand each record only to the forwarder that took it |
| Lifecycle.SharedFanOutPartitions | cmd/producer/main.go:191-196 | each sink's share is, in stream order, exactly the records its forwarder took, and the shares' lengths add up to the stream's: nothing is duplicated or lost |
| Lifecycle.SharedFanOutStarvesSomeSink | cmd/producer/main.go:191-196 | with two or more sinks and at least one record, some sink misses part of the stream |
| Lifecycle.BroadcastDeliversAll | cmd/producer/main.go:191-196 | corrected fan-out: every sink receives the whole stream, in order |
| Lifecycle.ForwardToAll | cmd/producer/main.go:191-196 | corrected forwarders: every sink channel receives every record |
| Lifecycle.FeedTicks | cmd/producer/main.go:325-339 | the ticker's increments add up to the last generated count it read |
| Lifecycle.AccountFixedMode | cmd/producer/main.go:345-350 | fixed mode adds the configured count, which exceeds what was generated when cancellation stopped generation |
| Lifecycle.Shutdown | cmd/producer/main.go:353-372 | every writer is closed once, in order, whatever earlier closes return; the final report comes last |

## Findings

| source | as written | input that shows it | evidently intended | confidence | as-written member | corrected member |
|---|---|---|---|---|---|---|
| internal/writer/csv.go:124-130 | NewCSVWriter hands the header to csv.Writer's buffer. flush returns early on an empty record buffer, and Close only closes the file, so the encoder's buffer is never flushed | a CSV sink that commits no rows, for instance one cancelled before its first record: the file is empty, with no header | every CSV file begins with the header, as with any rows | not executed; high | CsvSink.HeaderLostWhenNothingWritten | CsvSink.ClosedFileHasHeaderAndRows |
| cmd/producer/main.go:191-196 | every sink's forwarder ranges over the one shared txnChan, so each record goes to exactly one sink | format "both" with CSV and Parquet enabled and two records: with picks [0, 1], each file receives one record | each enabled sink receives every generated record | not executed; medium | Lifecycle.SharedFanOutStarvesSomeSink | Lifecycle.BroadcastDeliversAll |

## Left out

- File, JSON and network I/O: loading a `.env` file into the environment (godotenv.Load at internal/config/loader.go:80, which does not replace variables already set; the environment parameter is the one after that load), reading the configuration file, the four reference tables and the YAML/JSON decoding, creating directories and files, the Parquet and CSV byte encodings, and the Kafka client. Their outcomes are parameters (success flags, decoded values, encoded JSON, acknowledgement events).
- Concurrency: goroutines, mutexes, atomics, channels, the WaitGroup and signal handling. Workers run one after another; fan-out is a choice of sink per record. The race in fixed mode, where `IncrementTotal` runs in a goroutine that `wg.Wait` does not cover and so may come after `FinalReport`, is not modelled.
- Randomness and the clock: each record's random indices, date and timestamp are a `Draw`, and report times are parameters.
- Logging and the text of log lines, including the `%.2f`/`%.0f` float formatting of rates and durations.
- StartReporting's ticker loop. time.NewTicker panics for a non-positive metrics interval, and Validate does not reject one.
- Float arithmetic: rates are exact reals. For a zero elapsed time, the final band is taken from Go's +Inf (a positive total) or NaN (no messages).
- CsvSink.CsvWriter.constructor, ParquetSink.ParquetWriter.constructor: a negative CSV buffer size or Parquet row-group size passes Validate but panics in `make` (internal/writer/csv.go:55, internal/writer/parquet.go:64); the constructors require a non-negative size, so the crash is not modelled. A size of 0 makes every record flush on its own.
- Partial writes: a failed flush is modelled as writing nothing.
- Integer width: counters and sequence numbers are unbounded; Go's int64 would wrap only after 2^63 records.
- Generator.Producer.GenerateTransaction: an empty currencies, game-categories or agents table makes `rng.Intn(0)` panic (internal/generator/producer.go:207-218), and LoadReferenceData does not reject an empty array; the model requires every draw to fit the tables (`DrawFits`), so the crash is not modelled. The same requirement holds for NewTransaction, Producer.Work, Producer.Generate and Run.
- GenerateSingle (the continuous-mode generator) is `Generator.Producer.GenerateTransaction` without the mutex.
- Lifecycle.DataPath: lengths and the cut are counted in characters, while cmd/producer/main.go:137 slices the Go string by UTF-8 bytes; for a path with non-ASCII characters the threshold and the cut differ (Go may cut inside a multi-byte character). The same holds for Lifecycle.DataPathIgnoresFileName.
- The Kafka `async` flag: NewKafkaWriter stores it but nothing reads it, so it is not modelled.
