/**
 * The producer's configuration: the record tree the YAML file decodes into,
 * the environment overrides applied on top of it, and the validation chain
 * run last. The environment is a map from variable name to value; a name
 * that is absent reads as "", as with os.Getenv.
 */
module Config {
  import opened Common
  import opened Text

  datatype ProducerConfig = ProducerConfig(messageCount: int, workers: int, bufferSize: int)
  datatype CsvConfig = CsvConfig(enabled: bool, filename: string, bufferSize: int)
  datatype ParquetConfig = ParquetConfig(enabled: bool, filename: string, rowGroupSize: int, compression: string)
  datatype OutputConfig = OutputConfig(format: string, directory: string, csv: CsvConfig, parquet: ParquetConfig)
  datatype KafkaConfig = KafkaConfig(
    enabled: bool,
    brokers: seq<string>,
    topic: string,
    compression: string,
    batchSize: int,
    flushFrequency: int,
    async: bool)
  datatype DataConfig = DataConfig(currencyRates: string, agents: string, gameCategories: string, currencies: string)
  datatype MetricsConfig = MetricsConfig(interval: int, detailed: bool)
  datatype Config = Config(
    producer: ProducerConfig,
    output: OutputConfig,
    kafka: KafkaConfig,
    data: DataConfig,
    metrics: MetricsConfig)

  // ---------------------------------------------------------------- Validate

  /** The checks Validate makes, in the order it makes them. */
  datatype ValidationError =
    | NegativeMessageCount
    | NonPositiveWorkers
    | NonPositiveBufferSize
    | UnknownFormat
    | NoBrokers
    | NoTopic

  function Rank(e: ValidationError): nat
  {
    match e
    case NegativeMessageCount => 0
    case NonPositiveWorkers => 1
    case NonPositiveBufferSize => 2
    case UnknownFormat => 3
    case NoBrokers => 4
    case NoTopic => 5
  }

  /** Whether the configuration violates the rule behind one check, taken on its own. */
  predicate Violates(c: Config, e: ValidationError)
  {
    match e
    case NegativeMessageCount => c.producer.messageCount < 0
    case NonPositiveWorkers => c.producer.workers <= 0
    case NonPositiveBufferSize => c.producer.bufferSize <= 0
    case UnknownFormat => c.output.format !in {"csv", "parquet", "both"}
    case NoBrokers => c.kafka.enabled && |c.kafka.brokers| == 0
    case NoTopic => c.kafka.enabled && c.kafka.topic == ""
  }

  /** A configuration the producer accepts. */
  predicate Valid(c: Config)
  {
    forall e: ValidationError :: !Violates(c, e)
  }

  /** Validate: None, or the first check that fails. */
  function Validate(c: Config): Option<ValidationError>
  {
    if c.producer.messageCount < 0 then Some(NegativeMessageCount)
    else if c.producer.workers <= 0 then Some(NonPositiveWorkers)
    else if c.producer.bufferSize <= 0 then Some(NonPositiveBufferSize)
    else if c.output.format != "csv" && c.output.format != "parquet" && c.output.format != "both" then Some(UnknownFormat)
    else if c.kafka.enabled then
      if |c.kafka.brokers| == 0 then Some(NoBrokers)
      else if c.kafka.topic == "" then Some(NoTopic)
      else None
    else None
  }

  /** Validate returns nil exactly for valid configurations. */
  lemma ValidateAcceptsExactlyValid(c: Config)
    ensures Validate(c) == None <==> Valid(c)
  {
    if Validate(c) != None {
      assert Violates(c, Validate(c).value);
    }
  }

  /** The error Validate returns is the earliest check, in order, that the configuration fails. */
  lemma ValidateReportsFirstFailure(c: Config, e: ValidationError)
    ensures Validate(c) == Some(e) <==>
      Violates(c, e) && forall e': ValidationError :: Rank(e') < Rank(e) ==> !Violates(c, e')
  {
    if Validate(c) == Some(e) {
      forall e': ValidationError | Rank(e') < Rank(e)
        ensures !Violates(c, e')
      {
        match e' {
          case NegativeMessageCount =>
          case NonPositiveWorkers =>
          case NonPositiveBufferSize =>
          case UnknownFormat =>
          case NoBrokers =>
          case NoTopic =>
        }
      }
    }
    if Violates(c, e) && forall e': ValidationError :: Rank(e') < Rank(e) ==> !Violates(c, e') {
      assert Rank(e) > 0 ==> !Violates(c, NegativeMessageCount);
      assert Rank(e) > 1 ==> !Violates(c, NonPositiveWorkers);
      assert Rank(e) > 2 ==> !Violates(c, NonPositiveBufferSize);
      assert Rank(e) > 3 ==> !Violates(c, UnknownFormat);
      assert Rank(e) > 4 ==> !Violates(c, NoBrokers);
    }
  }

  /** With Kafka disabled, its brokers and topic are never looked at. */
  lemma DisabledKafkaIsNotChecked(c: Config, k: KafkaConfig)
    requires !c.kafka.enabled && !k.enabled
    ensures Validate(c.(kafka := k)) == Validate(c)
  {
  }

  // ------------------------------------------------------- environment overrides

  /** The variables applyEnvOverrides reads. */
  const Keys: set<string> := {
    "PRODUCER_MESSAGE_COUNT", "PRODUCER_WORKERS", "PRODUCER_BUFFER_SIZE",
    "OUTPUT_FORMAT", "OUTPUT_DIRECTORY",
    "CSV_ENABLED", "CSV_FILENAME", "CSV_BUFFER_SIZE",
    "PARQUET_ENABLED", "PARQUET_FILENAME", "PARQUET_ROW_GROUP_SIZE", "PARQUET_COMPRESSION",
    "KAFKA_ENABLED", "KAFKA_BROKERS", "KAFKA_TOPIC", "KAFKA_COMPRESSION",
    "KAFKA_BATCH_SIZE", "KAFKA_FLUSH_FREQUENCY", "KAFKA_ASYNC",
    "DATA_CURRENCY_RATES", "DATA_AGENTS", "DATA_GAME_CATEGORIES", "DATA_CURRENCIES",
    "METRICS_INTERVAL", "METRICS_DETAILED"}

  /** os.Getenv: unset reads as "". */
  function Getenv(env: map<string, string>, key: string): string
  {
    if key in env then env[key] else ""
  }

  /** An int override: only a non-empty value that Atoi accepts replaces the field. */
  function IntOverride(v: string, current: int): (r: int)
    ensures v == "" ==> r == current
    ensures r == current || Atoi(v) == Some(r)
  {
    if v != "" then
      match Atoi(v)
      case Some(n) => n
      case None => current
    else current
  }

  /** A bool override: any non-empty value sets the field, to true only for "true". */
  function BoolOverride(v: string, current: bool): (r: bool)
    ensures r != current ==> v != ""
    ensures r ==> v == "true" || current
  {
    if v != "" then v == "true" else current
  }

  /** A string override: any non-empty value replaces the field. */
  function StringOverride(v: string, current: string): (r: string)
    ensures r == current || r == v
    ensures r == "" ==> current == ""
  {
    if v != "" then v else current
  }

  /** KAFKA_BROKERS: a non-empty value is split on ','. */
  function BrokersOverride(v: string, current: seq<string>): (r: seq<string>)
    ensures v == "" ==> r == current
    ensures v != "" ==> |r| >= 1 && Join(r, ',') == v
  {
    if v != "" then
      JoinSplit(v, ',');
      Split(v, ',')
    else current
  }

  function ProducerOverrides(p: ProducerConfig, env: map<string, string>): ProducerConfig
  {
    ProducerConfig(
      IntOverride(Getenv(env, "PRODUCER_MESSAGE_COUNT"), p.messageCount),
      IntOverride(Getenv(env, "PRODUCER_WORKERS"), p.workers),
      IntOverride(Getenv(env, "PRODUCER_BUFFER_SIZE"), p.bufferSize))
  }

  function OutputOverrides(o: OutputConfig, env: map<string, string>): OutputConfig
  {
    OutputConfig(
      StringOverride(Getenv(env, "OUTPUT_FORMAT"), o.format),
      StringOverride(Getenv(env, "OUTPUT_DIRECTORY"), o.directory),
      CsvConfig(
        BoolOverride(Getenv(env, "CSV_ENABLED"), o.csv.enabled),
        StringOverride(Getenv(env, "CSV_FILENAME"), o.csv.filename),
        IntOverride(Getenv(env, "CSV_BUFFER_SIZE"), o.csv.bufferSize)),
      ParquetConfig(
        BoolOverride(Getenv(env, "PARQUET_ENABLED"), o.parquet.enabled),
        StringOverride(Getenv(env, "PARQUET_FILENAME"), o.parquet.filename),
        IntOverride(Getenv(env, "PARQUET_ROW_GROUP_SIZE"), o.parquet.rowGroupSize),
        StringOverride(Getenv(env, "PARQUET_COMPRESSION"), o.parquet.compression)))
  }

  function KafkaOverrides(k: KafkaConfig, env: map<string, string>): KafkaConfig
  {
    KafkaConfig(
      BoolOverride(Getenv(env, "KAFKA_ENABLED"), k.enabled),
      BrokersOverride(Getenv(env, "KAFKA_BROKERS"), k.brokers),
      StringOverride(Getenv(env, "KAFKA_TOPIC"), k.topic),
      StringOverride(Getenv(env, "KAFKA_COMPRESSION"), k.compression),
      IntOverride(Getenv(env, "KAFKA_BATCH_SIZE"), k.batchSize),
      IntOverride(Getenv(env, "KAFKA_FLUSH_FREQUENCY"), k.flushFrequency),
      BoolOverride(Getenv(env, "KAFKA_ASYNC"), k.async))
  }

  function DataOverrides(d: DataConfig, env: map<string, string>): DataConfig
  {
    DataConfig(
      StringOverride(Getenv(env, "DATA_CURRENCY_RATES"), d.currencyRates),
      StringOverride(Getenv(env, "DATA_AGENTS"), d.agents),
      StringOverride(Getenv(env, "DATA_GAME_CATEGORIES"), d.gameCategories),
      StringOverride(Getenv(env, "DATA_CURRENCIES"), d.currencies))
  }

  function MetricsOverrides(m: MetricsConfig, env: map<string, string>): MetricsConfig
  {
    MetricsConfig(
      IntOverride(Getenv(env, "METRICS_INTERVAL"), m.interval),
      BoolOverride(Getenv(env, "METRICS_DETAILED"), m.detailed))
  }

  /** The configuration applyEnvOverrides leaves behind. */
  function EnvOverrides(c: Config, env: map<string, string>): Config
  {
    Config(
      ProducerOverrides(c.producer, env),
      OutputOverrides(c.output, env),
      KafkaOverrides(c.kafka, env),
      DataOverrides(c.data, env),
      MetricsOverrides(c.metrics, env))
  }

  /** Setting an int variable to the `%d` text of a 64-bit int sets the field to that int. */
  lemma IntOverrideReadsIntText(n: int, current: int)
    requires MinInt64 <= n <= MaxInt64
    ensures IntOverride(IntText(n), current) == n
  {
    AtoiReadsIntText(n);
  }

  /** A number that does not fit in 64 bits leaves the field as it was. */
  lemma IntOverrideIgnoresWideInt(n: int, current: int)
    requires n < MinInt64 || MaxInt64 < n
    ensures IntOverride(IntText(n), current) == current
  {
    AtoiRejectsWideIntText(n);
  }

  /**
   * A value that is not a number leaves the field as it was: one that starts
   * with neither a digit nor a sign, or has a non-digit after its first
   * character.
   */
  lemma IntOverrideIgnoresNonNumber(v: string, k: nat, current: int)
    requires k < |v| && !IsDigit(v[k])
    requires k == 0 ==> v[0] != '-' && v[0] != '+'
    ensures IntOverride(v, current) == current
  {
    if k > 0 {
      AtoiRejectsInnerNonDigit(v, k);
    }
  }

  /** Setting a bool variable to the text of a bool sets the field to it. */
  lemma BoolOverrideReadsBoolText(b: bool, current: bool)
    ensures BoolOverride(if b then "true" else "false", current) == b
  {
  }

  /** Any set value other than exactly "true" ("1", "TRUE", "yes" among them) turns the field off. */
  lemma BoolOverrideOnlyLowerCaseTrue(v: string, current: bool)
    requires v != "" && v != "true"
    ensures !BoolOverride(v, current)
  {
  }

  /** A set string variable is read back as given; applying it again changes nothing. */
  lemma StringOverrideReadsBack(v: string, current: string)
    requires v != ""
    ensures StringOverride(v, current) == v
    ensures StringOverride(v, StringOverride(v, current)) == StringOverride(v, current)
  {
  }

  const ProducerKeys: set<string> := {"PRODUCER_MESSAGE_COUNT", "PRODUCER_WORKERS", "PRODUCER_BUFFER_SIZE"}
  const OutputKeys: set<string> := {
    "OUTPUT_FORMAT", "OUTPUT_DIRECTORY",
    "CSV_ENABLED", "CSV_FILENAME", "CSV_BUFFER_SIZE",
    "PARQUET_ENABLED", "PARQUET_FILENAME", "PARQUET_ROW_GROUP_SIZE", "PARQUET_COMPRESSION"}
  const KafkaKeys: set<string> := {
    "KAFKA_ENABLED", "KAFKA_BROKERS", "KAFKA_TOPIC", "KAFKA_COMPRESSION",
    "KAFKA_BATCH_SIZE", "KAFKA_FLUSH_FREQUENCY", "KAFKA_ASYNC"}
  const DataKeys: set<string> := {"DATA_CURRENCY_RATES", "DATA_AGENTS", "DATA_GAME_CATEGORIES", "DATA_CURRENCIES"}
  const MetricsKeys: set<string> := {"METRICS_INTERVAL", "METRICS_DETAILED"}

  /** The field of `c` that the variable `key` names, updated from the value `v`; any other key changes nothing. */
  function Assign(c: Config, key: string, v: string): Config
  {
    if key in ProducerKeys then c.(producer := AssignProducer(c.producer, key, v))
    else if key in OutputKeys then c.(output := AssignOutput(c.output, key, v))
    else if key in KafkaKeys then c.(kafka := AssignKafka(c.kafka, key, v))
    else if key in DataKeys then c.(data := AssignData(c.data, key, v))
    else if key in MetricsKeys then c.(metrics := AssignMetrics(c.metrics, key, v))
    else c
  }

  function AssignProducer(p: ProducerConfig, key: string, v: string): ProducerConfig
  {
    if key == "PRODUCER_MESSAGE_COUNT" then p.(messageCount := IntOverride(v, p.messageCount))
    else if key == "PRODUCER_WORKERS" then p.(workers := IntOverride(v, p.workers))
    else p.(bufferSize := IntOverride(v, p.bufferSize))
  }

  function AssignOutput(o: OutputConfig, key: string, v: string): OutputConfig
  {
    if key == "OUTPUT_FORMAT" then o.(format := StringOverride(v, o.format))
    else if key == "OUTPUT_DIRECTORY" then o.(directory := StringOverride(v, o.directory))
    else if key == "CSV_ENABLED" then o.(csv := o.csv.(enabled := BoolOverride(v, o.csv.enabled)))
    else if key == "CSV_FILENAME" then o.(csv := o.csv.(filename := StringOverride(v, o.csv.filename)))
    else if key == "CSV_BUFFER_SIZE" then o.(csv := o.csv.(bufferSize := IntOverride(v, o.csv.bufferSize)))
    else if key == "PARQUET_ENABLED" then o.(parquet := o.parquet.(enabled := BoolOverride(v, o.parquet.enabled)))
    else if key == "PARQUET_FILENAME" then o.(parquet := o.parquet.(filename := StringOverride(v, o.parquet.filename)))
    else if key == "PARQUET_ROW_GROUP_SIZE" then o.(parquet := o.parquet.(rowGroupSize := IntOverride(v, o.parquet.rowGroupSize)))
    else o.(parquet := o.parquet.(compression := StringOverride(v, o.parquet.compression)))
  }

  function AssignKafka(k: KafkaConfig, key: string, v: string): KafkaConfig
  {
    if key == "KAFKA_ENABLED" then k.(enabled := BoolOverride(v, k.enabled))
    else if key == "KAFKA_BROKERS" then k.(brokers := BrokersOverride(v, k.brokers))
    else if key == "KAFKA_TOPIC" then k.(topic := StringOverride(v, k.topic))
    else if key == "KAFKA_COMPRESSION" then k.(compression := StringOverride(v, k.compression))
    else if key == "KAFKA_BATCH_SIZE" then k.(batchSize := IntOverride(v, k.batchSize))
    else if key == "KAFKA_FLUSH_FREQUENCY" then k.(flushFrequency := IntOverride(v, k.flushFrequency))
    else k.(async := BoolOverride(v, k.async))
  }

  function AssignData(d: DataConfig, key: string, v: string): DataConfig
  {
    if key == "DATA_CURRENCY_RATES" then d.(currencyRates := StringOverride(v, d.currencyRates))
    else if key == "DATA_AGENTS" then d.(agents := StringOverride(v, d.agents))
    else if key == "DATA_GAME_CATEGORIES" then d.(gameCategories := StringOverride(v, d.gameCategories))
    else d.(currencies := StringOverride(v, d.currencies))
  }

  function AssignMetrics(m: MetricsConfig, key: string, v: string): MetricsConfig
  {
    if key == "METRICS_INTERVAL" then m.(interval := IntOverride(v, m.interval))
    else m.(detailed := BoolOverride(v, m.detailed))
  }

  /** A variable outside a section's own leaves that section alone. */
  lemma SectionsUntouched(c: Config, key: string, v: string)
    ensures key !in ProducerKeys ==> ProducerOverrides(c.producer, map[key := v]) == c.producer
    ensures key !in OutputKeys ==> OutputOverrides(c.output, map[key := v]) == c.output
    ensures key !in KafkaKeys ==> KafkaOverrides(c.kafka, map[key := v]) == c.kafka
    ensures key !in DataKeys ==> DataOverrides(c.data, map[key := v]) == c.data
    ensures key !in MetricsKeys ==> MetricsOverrides(c.metrics, map[key := v]) == c.metrics
  {
  }

  /** A variable of a section sets exactly its own field of that section. */
  lemma SectionAssigns(c: Config, key: string, v: string)
    ensures key in ProducerKeys ==> ProducerOverrides(c.producer, map[key := v]) == AssignProducer(c.producer, key, v)
    ensures key in KafkaKeys ==> KafkaOverrides(c.kafka, map[key := v]) == AssignKafka(c.kafka, key, v)
    ensures key in DataKeys ==> DataOverrides(c.data, map[key := v]) == AssignData(c.data, key, v)
    ensures key in MetricsKeys ==> MetricsOverrides(c.metrics, map[key := v]) == AssignMetrics(c.metrics, key, v)
  {
  }

  lemma OutputAssigns(o: OutputConfig, key: string, v: string)
    requires key in OutputKeys
    ensures OutputOverrides(o, map[key := v]) == AssignOutput(o, key, v)
  {
  }

  /**
   * An environment that sets one variable changes the field that variable
   * names and nothing else; one that sets an unlisted variable changes nothing.
   */
  lemma SingleVariable(c: Config, key: string, v: string)
    ensures EnvOverrides(c, map[key := v]) == Assign(c, key, v)
  {
    var env := map[key := v];
    SectionsUntouched(c, key, v);
    SectionAssigns(c, key, v);
    SectionsAreDisjoint();
    var e := EnvOverrides(c, env);
    assert e == Config(ProducerOverrides(c.producer, env), OutputOverrides(c.output, env),
      KafkaOverrides(c.kafka, env), DataOverrides(c.data, env), MetricsOverrides(c.metrics, env));
    if key in OutputKeys {
      OutputAssigns(c.output, key, v);
    }
  }

  /** No variable belongs to two sections. */
  lemma SectionsAreDisjoint()
    ensures ProducerKeys !! OutputKeys && ProducerKeys !! KafkaKeys && ProducerKeys !! DataKeys && ProducerKeys !! MetricsKeys
    ensures OutputKeys !! KafkaKeys && OutputKeys !! DataKeys && OutputKeys !! MetricsKeys
    ensures KafkaKeys !! DataKeys && KafkaKeys !! MetricsKeys && DataKeys !! MetricsKeys
  {
    ProducerKeysAreOwn();
    OutputKeysAreOwn();
  }

  lemma ProducerKeysAreOwn()
    ensures ProducerKeys !! OutputKeys && ProducerKeys !! KafkaKeys && ProducerKeys !! DataKeys && ProducerKeys !! MetricsKeys
  {
  }

  lemma OutputKeysAreOwn()
    ensures OutputKeys !! KafkaKeys && OutputKeys !! DataKeys && OutputKeys !! MetricsKeys
  {
  }

  /** One int variable: a non-empty value that Atoi accepts replaces the field. */
  method ApplyIntOverride(v: string, current: int) returns (r: int)
    ensures r == IntOverride(v, current)
  {
    r := current;
    if v != "" {
      var n := Atoi(v);
      if n.Some? {
        r := n.value;
      }
    }
  }

  /** One bool variable: a non-empty value sets the field to whether it is "true". */
  method ApplyBoolOverride(v: string, current: bool) returns (r: bool)
    ensures r == BoolOverride(v, current)
  {
    r := current;
    if v != "" {
      r := v == "true";
    }
  }

  /** One string variable: a non-empty value replaces the field. */
  method ApplyStringOverride(v: string, current: string) returns (r: string)
    ensures r == StringOverride(v, current)
  {
    r := current;
    if v != "" {
      r := v;
    }
  }

  /** KAFKA_BROKERS: a non-empty value is split on ','. */
  method ApplyBrokersOverride(v: string, current: seq<string>) returns (r: seq<string>)
    ensures r == BrokersOverride(v, current)
  {
    r := current;
    if v != "" {
      r := Split(v, ',');
    }
  }

  /** applyEnvOverrides: one variable at a time, in the order the source checks them. */
  method ApplyEnvOverrides(c: Config, env: map<string, string>) returns (r: Config)
    ensures r == EnvOverrides(c, env)
  {
    r := c;
    var n: int, b: bool, v: string, bs: seq<string>;
    n := ApplyIntOverride(Getenv(env, "PRODUCER_MESSAGE_COUNT"), r.producer.messageCount);
    r := r.(producer := r.producer.(messageCount := n));
    n := ApplyIntOverride(Getenv(env, "PRODUCER_WORKERS"), r.producer.workers);
    r := r.(producer := r.producer.(workers := n));
    n := ApplyIntOverride(Getenv(env, "PRODUCER_BUFFER_SIZE"), r.producer.bufferSize);
    r := r.(producer := r.producer.(bufferSize := n));
    v := ApplyStringOverride(Getenv(env, "OUTPUT_FORMAT"), r.output.format);
    r := r.(output := r.output.(format := v));
    v := ApplyStringOverride(Getenv(env, "OUTPUT_DIRECTORY"), r.output.directory);
    r := r.(output := r.output.(directory := v));
    b := ApplyBoolOverride(Getenv(env, "CSV_ENABLED"), r.output.csv.enabled);
    r := r.(output := r.output.(csv := r.output.csv.(enabled := b)));
    v := ApplyStringOverride(Getenv(env, "CSV_FILENAME"), r.output.csv.filename);
    r := r.(output := r.output.(csv := r.output.csv.(filename := v)));
    n := ApplyIntOverride(Getenv(env, "CSV_BUFFER_SIZE"), r.output.csv.bufferSize);
    r := r.(output := r.output.(csv := r.output.csv.(bufferSize := n)));
    b := ApplyBoolOverride(Getenv(env, "PARQUET_ENABLED"), r.output.parquet.enabled);
    r := r.(output := r.output.(parquet := r.output.parquet.(enabled := b)));
    v := ApplyStringOverride(Getenv(env, "PARQUET_FILENAME"), r.output.parquet.filename);
    r := r.(output := r.output.(parquet := r.output.parquet.(filename := v)));
    n := ApplyIntOverride(Getenv(env, "PARQUET_ROW_GROUP_SIZE"), r.output.parquet.rowGroupSize);
    r := r.(output := r.output.(parquet := r.output.parquet.(rowGroupSize := n)));
    v := ApplyStringOverride(Getenv(env, "PARQUET_COMPRESSION"), r.output.parquet.compression);
    r := r.(output := r.output.(parquet := r.output.parquet.(compression := v)));
    b := ApplyBoolOverride(Getenv(env, "KAFKA_ENABLED"), r.kafka.enabled);
    r := r.(kafka := r.kafka.(enabled := b));
    bs := ApplyBrokersOverride(Getenv(env, "KAFKA_BROKERS"), r.kafka.brokers);
    r := r.(kafka := r.kafka.(brokers := bs));
    v := ApplyStringOverride(Getenv(env, "KAFKA_TOPIC"), r.kafka.topic);
    r := r.(kafka := r.kafka.(topic := v));
    v := ApplyStringOverride(Getenv(env, "KAFKA_COMPRESSION"), r.kafka.compression);
    r := r.(kafka := r.kafka.(compression := v));
    n := ApplyIntOverride(Getenv(env, "KAFKA_BATCH_SIZE"), r.kafka.batchSize);
    r := r.(kafka := r.kafka.(batchSize := n));
    n := ApplyIntOverride(Getenv(env, "KAFKA_FLUSH_FREQUENCY"), r.kafka.flushFrequency);
    r := r.(kafka := r.kafka.(flushFrequency := n));
    b := ApplyBoolOverride(Getenv(env, "KAFKA_ASYNC"), r.kafka.async);
    r := r.(kafka := r.kafka.(async := b));
    v := ApplyStringOverride(Getenv(env, "DATA_CURRENCY_RATES"), r.data.currencyRates);
    r := r.(data := r.data.(currencyRates := v));
    v := ApplyStringOverride(Getenv(env, "DATA_AGENTS"), r.data.agents);
    r := r.(data := r.data.(agents := v));
    v := ApplyStringOverride(Getenv(env, "DATA_GAME_CATEGORIES"), r.data.gameCategories);
    r := r.(data := r.data.(gameCategories := v));
    v := ApplyStringOverride(Getenv(env, "DATA_CURRENCIES"), r.data.currencies);
    r := r.(data := r.data.(currencies := v));
    n := ApplyIntOverride(Getenv(env, "METRICS_INTERVAL"), r.metrics.interval);
    r := r.(metrics := r.metrics.(interval := n));
    b := ApplyBoolOverride(Getenv(env, "METRICS_DETAILED"), r.metrics.detailed);
    r := r.(metrics := r.metrics.(detailed := b));
  }

  /** Only the listed variables matter: environments that agree on them give the same configuration. */
  lemma OnlyListedVariablesMatter(c: Config, env1: map<string, string>, env2: map<string, string>)
    requires forall key :: key in Keys ==> Getenv(env1, key) == Getenv(env2, key)
    ensures EnvOverrides(c, env1) == EnvOverrides(c, env2)
  {
  }

  /** With every listed variable unset or empty, the configuration is unchanged. */
  lemma EmptyEnvironmentChangesNothing(c: Config, env: map<string, string>)
    requires forall key :: key in Keys ==> Getenv(env, key) == ""
    ensures EnvOverrides(c, env) == c
  {
  }

  /** Applying the same environment twice is the same as applying it once. */
  lemma OverridesAreIdempotent(c: Config, env: map<string, string>)
    ensures EnvOverrides(EnvOverrides(c, env), env) == EnvOverrides(c, env)
  {
  }

  /**
   * Each variable acts on its own field alone: applying one part of an
   * environment and then a disjoint other part is applying both at once.
   */
  lemma OverridesCompose(c: Config, env1: map<string, string>, env2: map<string, string>)
    requires env1.Keys !! env2.Keys
    ensures EnvOverrides(EnvOverrides(c, env1), env2) == EnvOverrides(c, env1 + env2)
  {
    IntOverrideComposes(env1, env2, "PRODUCER_MESSAGE_COUNT", c.producer.messageCount);
    IntOverrideComposes(env1, env2, "PRODUCER_WORKERS", c.producer.workers);
    IntOverrideComposes(env1, env2, "PRODUCER_BUFFER_SIZE", c.producer.bufferSize);
    IntOverrideComposes(env1, env2, "CSV_BUFFER_SIZE", c.output.csv.bufferSize);
    IntOverrideComposes(env1, env2, "PARQUET_ROW_GROUP_SIZE", c.output.parquet.rowGroupSize);
    IntOverrideComposes(env1, env2, "KAFKA_BATCH_SIZE", c.kafka.batchSize);
    IntOverrideComposes(env1, env2, "KAFKA_FLUSH_FREQUENCY", c.kafka.flushFrequency);
    IntOverrideComposes(env1, env2, "METRICS_INTERVAL", c.metrics.interval);
    BoolOverrideComposes(env1, env2, "CSV_ENABLED", c.output.csv.enabled);
    BoolOverrideComposes(env1, env2, "PARQUET_ENABLED", c.output.parquet.enabled);
    BoolOverrideComposes(env1, env2, "KAFKA_ENABLED", c.kafka.enabled);
    BoolOverrideComposes(env1, env2, "KAFKA_ASYNC", c.kafka.async);
    BoolOverrideComposes(env1, env2, "METRICS_DETAILED", c.metrics.detailed);
    StringOverrideComposes(env1, env2, "OUTPUT_FORMAT", c.output.format);
    StringOverrideComposes(env1, env2, "OUTPUT_DIRECTORY", c.output.directory);
    StringOverrideComposes(env1, env2, "CSV_FILENAME", c.output.csv.filename);
    StringOverrideComposes(env1, env2, "PARQUET_FILENAME", c.output.parquet.filename);
    StringOverrideComposes(env1, env2, "PARQUET_COMPRESSION", c.output.parquet.compression);
    StringOverrideComposes(env1, env2, "KAFKA_TOPIC", c.kafka.topic);
    StringOverrideComposes(env1, env2, "KAFKA_COMPRESSION", c.kafka.compression);
    StringOverrideComposes(env1, env2, "DATA_CURRENCY_RATES", c.data.currencyRates);
    StringOverrideComposes(env1, env2, "DATA_AGENTS", c.data.agents);
    StringOverrideComposes(env1, env2, "DATA_GAME_CATEGORIES", c.data.gameCategories);
    StringOverrideComposes(env1, env2, "DATA_CURRENCIES", c.data.currencies);
    BrokersOverrideComposes(env1, env2, "KAFKA_BROKERS", c.kafka.brokers);
  }

  lemma IntOverrideComposes(env1: map<string, string>, env2: map<string, string>, key: string, x: int)
    requires env1.Keys !! env2.Keys
    ensures IntOverride(Getenv(env2, key), IntOverride(Getenv(env1, key), x)) == IntOverride(Getenv(env1 + env2, key), x)
  {
  }

  lemma BoolOverrideComposes(env1: map<string, string>, env2: map<string, string>, key: string, x: bool)
    requires env1.Keys !! env2.Keys
    ensures BoolOverride(Getenv(env2, key), BoolOverride(Getenv(env1, key), x)) == BoolOverride(Getenv(env1 + env2, key), x)
  {
  }

  lemma StringOverrideComposes(env1: map<string, string>, env2: map<string, string>, key: string, x: string)
    requires env1.Keys !! env2.Keys
    ensures StringOverride(Getenv(env2, key), StringOverride(Getenv(env1, key), x)) == StringOverride(Getenv(env1 + env2, key), x)
  {
  }

  lemma BrokersOverrideComposes(env1: map<string, string>, env2: map<string, string>, key: string, x: seq<string>)
    requires env1.Keys !! env2.Keys
    ensures BrokersOverride(Getenv(env2, key), BrokersOverride(Getenv(env1, key), x)) == BrokersOverride(Getenv(env1 + env2, key), x)
  {
  }

  // ---------------------------------------------------------------- Load

  /** Why Load failed: the file could not be read or decoded, or the result is not valid. */
  datatype LoadError = ReadFailed | ParseFailed | Invalid(error: ValidationError)

  /**
   * Load after the file is read and decoded (`parsed`): overrides first,
   * then Validate.
   */
  function Load(parsed: Result<Config, LoadError>, env: map<string, string>): Result<Config, LoadError>
  {
    match parsed
    case Err(e) => Err(e)
    case Ok(c) =>
      var c2 := EnvOverrides(c, env);
      match Validate(c2)
      case Some(e) => Err(Invalid(e))
      case None => Ok(c2)
  }

  /**
   * Every configuration Load returns is valid and is the file's with the
   * overrides applied; a file configuration the environment makes valid is
   * accepted, whatever it was before.
   */
  lemma LoadReturnsOnlyValid(parsed: Result<Config, LoadError>, env: map<string, string>)
    ensures Load(parsed, env).Ok? ==>
      parsed.Ok? && Valid(Load(parsed, env).value) && Load(parsed, env).value == EnvOverrides(parsed.value, env)
    ensures parsed.Ok? && Valid(EnvOverrides(parsed.value, env)) ==> Load(parsed, env).Ok?
    ensures parsed.Ok? && !Valid(EnvOverrides(parsed.value, env)) ==>
      Load(parsed, env) == Err(Invalid(Validate(EnvOverrides(parsed.value, env)).value))
  {
    if parsed.Ok? {
      ValidateAcceptsExactlyValid(EnvOverrides(parsed.value, env));
    }
  }
}
