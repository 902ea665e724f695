/**
 * The Kafka sink: producer settings derived from the configuration, one
 * message per received transaction (keyed by its id), and two counters that
 * the acknowledgement handler and the write loop keep.
 *
 * JSON encoding is a parameter (the encoded value, or None when encoding
 * fails); the broker's acknowledgements are an event list.
 */
module KafkaSink {
  import opened Common
  import opened Models

  datatype Compression = CompressionNone | CompressionGzip | CompressionSnappy | CompressionLz4 | CompressionZstd

  /** The compression for a configured name; any other name means none. */
  function CompressionFor(name: string): Compression
  {
    match name
    case "gzip" => CompressionGzip
    case "snappy" => CompressionSnappy
    case "lz4" => CompressionLz4
    case "zstd" => CompressionZstd
    case _ => CompressionNone
  }

  function CompressionName(c: Compression): string
  {
    match c
    case CompressionNone => "none"
    case CompressionGzip => "gzip"
    case CompressionSnappy => "snappy"
    case CompressionLz4 => "lz4"
    case CompressionZstd => "zstd"
  }

  /** Every compression is reachable by its name, and only the four known names compress. */
  lemma CompressionNameRoundTrip(c: Compression, name: string)
    ensures CompressionFor(CompressionName(c)) == c
    ensures CompressionFor(name) == CompressionNone <==> name !in {"gzip", "snappy", "lz4", "zstd"}
  {
  }

  datatype RequiredAcks = NoResponse | WaitForLocal | WaitForAll

  /** The producer options the sink sets; durations are in nanoseconds. */
  datatype ProducerSettings = ProducerSettings(
    returnSuccesses: bool,
    returnErrors: bool,
    requiredAcks: RequiredAcks,
    retryMax: int,
    compression: Compression,
    flushMessages: int,
    flushFrequencyNanos: int,
    flushMaxMessages: int,
    channelBufferSize: int)

  const NanosPerMilli: int := 1_000_000

  /** NewKafkaWriter's producer configuration. */
  function Settings(compression: string, batchSize: int, flushFreqMillis: int): ProducerSettings
  {
    ProducerSettings(true, true, WaitForLocal, 3, CompressionFor(compression),
      batchSize, flushFreqMillis * NanosPerMilli, batchSize * 2, 10000)
  }

  /**
   * The flush cap is never below the flush trigger exactly when the batch
   * size is not negative; the flush timer runs exactly for a positive period,
   * and converts back to the configured milliseconds.
   */
  lemma SettingsAreConsistent(compression: string, batchSize: int, flushFreqMillis: int)
    ensures var s := Settings(compression, batchSize, flushFreqMillis);
      && (s.flushMaxMessages >= s.flushMessages <==> batchSize >= 0)
      && (s.flushFrequencyNanos > 0 <==> flushFreqMillis > 0)
      && s.flushFrequencyNanos / NanosPerMilli == flushFreqMillis
  {
  }

  datatype Message = Message(topic: string, key: string, value: string)

  /** The message for a transaction: the writer's topic, keyed by the transaction id. */
  function MessageFor(topic: string, t: Transaction, json: string): Message
  {
    Message(topic, t.id, json)
  }

  /** The messages queued for `input`: one per record whose encoding succeeded, in order. */
  function Sent(topic: string, input: seq<Transaction>, encoded: seq<Option<string>>): seq<Message>
    requires |encoded| == |input|
  {
    if input == [] then []
    else
      var rest := Sent(topic, input[..|input| - 1], encoded[..|input| - 1]);
      match encoded[|input| - 1]
      case Some(json) => rest + [MessageFor(topic, input[|input| - 1], json)]
      case None => rest
  }

  /** The number of records whose encoding failed. */
  function EncodeFailures(encoded: seq<Option<string>>): nat
  {
    if encoded == [] then 0
    else EncodeFailures(encoded[..|encoded| - 1]) + (if encoded[|encoded| - 1].None? then 1 else 0)
  }

  /**
   * Every record is accounted for exactly once: it is either queued, as a
   * message on the writer's topic keyed by its own id, or counted as an error.
   */
  lemma {:induction false} EveryRecordSentOrCounted(topic: string, input: seq<Transaction>, encoded: seq<Option<string>>)
    requires |encoded| == |input|
    ensures |Sent(topic, input, encoded)| + EncodeFailures(encoded) == |input|
    ensures forall m :: m in Sent(topic, input, encoded) ==> m.topic == topic
    ensures forall m :: m in Sent(topic, input, encoded) ==>
      exists i :: 0 <= i < |input| && encoded[i] == Some(m.value) && m.key == input[i].id
  {
    if input != [] {
      var n := |input| - 1;
      EveryRecordSentOrCounted(topic, input[..n], encoded[..n]);
      forall m | m in Sent(topic, input, encoded)
        ensures exists i :: 0 <= i < |input| && encoded[i] == Some(m.value) && m.key == input[i].id
      {
        if m in Sent(topic, input[..n], encoded[..n]) {
          var i :| 0 <= i < n && encoded[..n][i] == Some(m.value) && m.key == input[..n][i].id;
          assert encoded[i] == Some(m.value) && m.key == input[i].id;
        } else {
          assert encoded[n] == Some(m.value) && m.key == input[n].id;
        }
      }
    }
  }

  /** When every encoding succeeds, the messages are exactly one per record, keyed by the records' ids in order. */
  lemma {:induction false} AllEncodedAllSent(topic: string, input: seq<Transaction>, encoded: seq<Option<string>>)
    requires |encoded| == |input|
    requires forall i :: 0 <= i < |encoded| ==> encoded[i].Some?
    ensures |Sent(topic, input, encoded)| == |input|
    ensures forall i :: 0 <= i < |input| ==> Sent(topic, input, encoded)[i] == MessageFor(topic, input[i], encoded[i].value)
  {
    if input != [] {
      var n := |input| - 1;
      AllEncodedAllSent(topic, input[..n], encoded[..n]);
    }
  }

  /** An acknowledgement event; a nil payload on an open stream counts for nothing. */
  datatype Ack = Success(present: bool) | Failure(present: bool) | StreamClosed

  datatype Tally = Tally(successes: nat, failures: nat)

  /** What the handler adds to the counters for `events`: it stops at the first closed stream. */
  function TallyOf(events: seq<Ack>): Tally
  {
    if events == [] then Tally(0, 0)
    else
      match events[0]
      case StreamClosed => Tally(0, 0)
      case Success(p) =>
        var r := TallyOf(events[1..]);
        r.(successes := r.successes + (if p then 1 else 0))
      case Failure(p) =>
        var r := TallyOf(events[1..]);
        r.(failures := r.failures + (if p then 1 else 0))
  }

  predicate NoClose(events: seq<Ack>)
  {
    forall i :: 0 <= i < |events| ==> !events[i].StreamClosed?
  }

  /** Acknowledgements are counted independently of how they are batched, as long as no stream has closed. */
  lemma {:induction false} TallyAdditive(a: seq<Ack>, b: seq<Ack>)
    requires NoClose(a)
    ensures TallyOf(a + b).successes == TallyOf(a).successes + TallyOf(b).successes
    ensures TallyOf(a + b).failures == TallyOf(a).failures + TallyOf(b).failures
  {
    if a == [] {
      assert a + b == b;
    } else {
      assert (a + b)[0] == a[0] && (a + b)[1..] == a[1..] + b;
      TallyAdditive(a[1..], b);
    }
  }

  /** Nothing after a closed stream is counted, and a failure never stops the handler. */
  lemma TallyStopsAtClose(a: seq<Ack>, b: seq<Ack>)
    requires NoClose(a)
    ensures TallyOf(a + [StreamClosed] + b) == TallyOf(a)
    ensures TallyOf(a + [Failure(true)] + b).failures == TallyOf(a).failures + 1 + TallyOf(b).failures
  {
    var closed := [StreamClosed] + b;
    TallyAdditive(a, closed);
    assert a + [StreamClosed] + b == a + closed;
    assert TallyOf(closed) == Tally(0, 0) by { assert closed[0] == StreamClosed; }
    var failed := [Failure(true)] + b;
    TallyAdditive(a, failed);
    assert a + [Failure(true)] + b == a + failed;
    assert failed[0] == Failure(true) && failed[1..] == b;
  }

  /** The events the handler consumes: everything before the first closed stream. */
  function Handled(events: seq<Ack>): seq<Ack>
  {
    if events == [] || events[0].StreamClosed? then [] else [events[0]] + Handled(events[1..])
  }

  /** The handled events contain no close and tally exactly as the whole event list does. */
  lemma {:induction false} HandledTalliesAll(events: seq<Ack>)
    ensures NoClose(Handled(events))
    ensures TallyOf(Handled(events)) == TallyOf(events)
  {
    if events != [] && !events[0].StreamClosed? {
      HandledTalliesAll(events[1..]);
      var h := Handled(events);
      assert h[0] == events[0] && h[1..] == Handled(events[1..]);
    }
  }

  /** Appending one acknowledgement other than a close adds exactly its own outcome to the tally. */
  lemma AckJoins(a: seq<Ack>, e: Ack)
    requires NoClose(a) && !e.StreamClosed?
    ensures NoClose(a + [e])
    ensures TallyOf(a + [e]).successes == TallyOf(a).successes + (if e == Success(true) then 1 else 0)
    ensures TallyOf(a + [e]).failures == TallyOf(a).failures + (if e == Failure(true) then 1 else 0)
  {
    TallyAdditive(a, [e]);
    assert [e][1..] == [];
  }

  /** Where the handler stops, what it has gone through is all it consumes. */
  lemma {:induction false} HandledPrefix(events: seq<Ack>, i: nat)
    requires i <= |events| && NoClose(events[..i])
    requires i == |events| || events[i].StreamClosed?
    ensures Handled(events) == events[..i]
  {
    if i > 0 {
      assert events[0] == events[..i][0];
      assert events[1..][..i - 1] == events[..i][1..];
      HandledPrefix(events[1..], i - 1);
    }
  }

  /** A history extended by the handled events tallies as the history plus the whole event list. */
  lemma HistoryTally(before: seq<Ack>, events: seq<Ack>)
    requires NoClose(before)
    ensures NoClose(before + Handled(events))
    ensures TallyOf(before + Handled(events)).successes == TallyOf(before).successes + TallyOf(events).successes
    ensures TallyOf(before + Handled(events)).failures == TallyOf(before).failures + TallyOf(events).failures
  {
    HandledTalliesAll(events);
    TallyAdditive(before, Handled(events));
  }

  class KafkaWriter {
    const topic: string
    const settings: ProducerSettings
    var count: int
    var errors: int
    /** The messages handed to the producer, in order. */
    var queued: seq<Message>
    var open: bool
    /** The acknowledgements the handler has consumed, in order. */
    ghost var acks: seq<Ack>
    /** The records whose encoding failed. */
    ghost var encodeFailures: nat

    /** The counters are exactly what the history of encodings and acknowledgements gives. */
    ghost predicate Valid()
      reads this
    {
      && NoClose(acks)
      && count == TallyOf(acks).successes
      && errors == encodeFailures + TallyOf(acks).failures
    }

    /** NewKafkaWriter once the producer exists: both counters at zero, nothing queued. */
    constructor (topic: string, compression: string, batchSize: int, flushFreqMillis: int)
      ensures Valid()
      ensures this.topic == topic && settings == Settings(compression, batchSize, flushFreqMillis)
      ensures count == 0 && errors == 0 && queued == [] && open
      ensures acks == [] && encodeFailures == 0
    {
      this.topic := topic;
      settings := Settings(compression, batchSize, flushFreqMillis);
      count := 0;
      errors := 0;
      queued := [];
      open := true;
      acks := [];
      encodeFailures := 0;
    }

    /**
     * Write: `input` is what arrived before the channel closed or the context
     * was cancelled, `encoded[i]` the JSON of input[i] or None when encoding
     * failed; `abandonLast` is a cancellation that arrives while the last
     * record waits to be queued. Write has no error result.
     */
    method Write(input: seq<Transaction>, encoded: seq<Option<string>>, abandonLast: bool)
      requires Valid() && |encoded| == |input|
      modifies this
      ensures Valid()
      ensures errors == old(errors) + EncodeFailures(encoded)
      ensures encodeFailures == old(encodeFailures) + EncodeFailures(encoded)
      ensures var n := if abandonLast && |input| > 0 then |input| - 1 else |input|;
        queued == old(queued) + Sent(topic, input[..n], encoded[..n])
      ensures count == old(count) && open == old(open) && acks == old(acks)
    {
      var i := 0;
      while i < |input|
        invariant 0 <= i <= |input|
        invariant errors == old(errors) + EncodeFailures(encoded[..i])
        invariant encodeFailures == old(encodeFailures) + EncodeFailures(encoded[..i])
        invariant queued == old(queued) + Sent(topic, input[..i], encoded[..i])
        invariant count == old(count) && open == old(open) && acks == old(acks)
        invariant abandonLast && 0 < i == |input| ==> encoded[i - 1].None?
      {
        assert input[..i + 1][..i] == input[..i] && encoded[..i + 1][..i] == encoded[..i];
        match encoded[i] {
          case None =>
            errors := errors + 1;
            encodeFailures := encodeFailures + 1;
          case Some(json) =>
            if abandonLast && i == |input| - 1 {
              assert EncodeFailures(encoded) == EncodeFailures(encoded[..i]);
              return;
            }
            queued := queued + [MessageFor(topic, input[i], json)];
        }
        i := i + 1;
      }
      assert encoded[..|input|] == encoded && input[..|input|] == input;
    }

    /**
     * handleResponses over an event list: each present success or failure
     * bumps its counter, until a stream closes; the events consumed join the
     * history.
     */
    method HandleResponses(events: seq<Ack>)
      requires Valid()
      modifies this
      ensures Valid()
      ensures count == old(count) + TallyOf(events).successes
      ensures errors == old(errors) + TallyOf(events).failures
      ensures acks == old(acks) + Handled(events)
      ensures queued == old(queued) && open == old(open) && encodeFailures == old(encodeFailures)
    {
      ghost var before := acks;
      var i := 0;
      while i < |events|
        invariant 0 <= i <= |events|
        invariant Valid()
        invariant acks == before + events[..i] && NoClose(events[..i])
        invariant queued == old(queued) && open == old(open) && encodeFailures == old(encodeFailures)
      {
        if events[i].StreamClosed? {
          break;
        }
        match events[i] {
          case Success(p) =>
            if p {
              count := count + 1;
            }
          case Failure(p) =>
            if p {
              errors := errors + 1;
            }
        }
        AckJoins(acks, events[i]);
        assert events[..i + 1] == events[..i] + [events[i]];
        acks := acks + [events[i]];
        i := i + 1;
      }
      HandledPrefix(events, i);
      HistoryTally(before, events);
    }

    /** Close: closes the producer and reports its error. */
    method Close(closeOk: bool) returns (failed: bool)
      requires Valid()
      modifies this
      ensures Valid()
      ensures !open && failed == !closeOk
      ensures count == old(count) && errors == old(errors) && queued == old(queued)
    {
      open := false;
      failed := !closeOk;
    }

    /** Count: the acknowledged deliveries the handler has seen. */
    function Count(): (c: int)
      reads this
      ensures Valid() ==> c == TallyOf(acks).successes
    {
      count
    }

    /** Errors: encoding failures plus the failed deliveries the handler has seen. */
    function Errors(): (e: int)
      reads this
      ensures Valid() ==> e == encodeFailures + TallyOf(acks).failures
    {
      errors
    }
  }
}
