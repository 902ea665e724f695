/**
 * The Parquet sink: the same buffer discipline as the CSV sink, with whole
 * buffers handed to the Parquet encoder, a compression codec
 * chosen by name, and a three-step close (flush, encoder, file).
 */
module ParquetSink {
  import opened Common
  import opened Models
  import SinkBuffer

  datatype Codec = Snappy | Gzip | Lz4Raw | Zstd | Uncompressed

  /** The codec for a configured compression name; any other name means no compression. */
  function CodecFor(name: string): Codec
  {
    match name
    case "snappy" => Snappy
    case "gzip" => Gzip
    case "lz4" => Lz4Raw
    case "zstd" => Zstd
    case _ => Uncompressed
  }

  /** A configuration name that selects each codec. */
  function CodecName(c: Codec): string
  {
    match c
    case Snappy => "snappy"
    case Gzip => "gzip"
    case Lz4Raw => "lz4"
    case Zstd => "zstd"
    case Uncompressed => "none"
  }

  /** Every codec is reachable by its name. */
  lemma CodecNameRoundTrip(c: Codec)
    ensures CodecFor(CodecName(c)) == c
  {
  }

  /** Exactly the four known names select compression; everything else, "" included, is uncompressed. */
  lemma UnknownNamesAreUncompressed(name: string)
    ensures CodecFor(name) == Uncompressed <==> name !in {"snappy", "gzip", "lz4", "zstd"}
    ensures CodecFor(name) != Uncompressed ==> CodecName(CodecFor(name)) == name
  {
  }

  class ParquetWriter {
    const rowGroupSize: int
    const codec: Codec
    var buffer: seq<Transaction>
    var count: int
    /** The records the encoder has accepted, in order. */
    ghost var written: seq<Transaction>
    var writerOpen: bool
    var fileOpen: bool

    ghost predicate Valid()
      reads this
    {
      SinkBuffer.Counted(State())
    }

    ghost function State(): SinkBuffer.State
      reads this
    {
      SinkBuffer.State(buffer, written, count)
    }

    /** NewParquetWriter once the file exists. */
    constructor (rowGroupSize: int, compression: string)
      requires rowGroupSize >= 0
      ensures Valid() && writerOpen && fileOpen
      ensures this.rowGroupSize == rowGroupSize && codec == CodecFor(compression)
      ensures State() == SinkBuffer.Empty()
    {
      this.rowGroupSize := rowGroupSize;
      codec := CodecFor(compression);
      buffer := [];
      count := 0;
      written := [];
      writerOpen := true;
      fileOpen := true;
    }

    /**
     * flush: an empty buffer is left alone; otherwise the whole buffer goes
     * to the encoder in one call, and on success the count grows by the rows
     * it took and the buffer is emptied. `ok` is the encoder's outcome.
     */
    method Flush(ok: bool) returns (failed: bool)
      requires Valid()
      modifies this
      ensures Valid()
      ensures State() == SinkBuffer.Flush(old(State()), ok)
      ensures failed == SinkBuffer.FlushFails(old(State()), ok)
      ensures writerOpen == old(writerOpen) && fileOpen == old(fileOpen)
    {
      if buffer == [] {
        return false;
      }
      if !ok {
        return true;
      }
      var n := |buffer|;
      written := written + buffer;
      count := count + n;
      buffer := [];
      failed := false;
    }

    /**
     * Write: `input` is what arrived before the channel closed or the context
     * was cancelled; `oks[i]` is the outcome of the flush that input[i] may
     * trigger, and the last flag that of the final flush.
     */
    method Write(input: seq<Transaction>, oks: seq<bool>) returns (failed: bool)
      requires Valid() && |oks| == |input| + 1
      modifies this
      ensures Valid()
      ensures State() == SinkBuffer.Write(old(State()), input, oks, rowGroupSize).state
      ensures failed == SinkBuffer.Write(old(State()), input, oks, rowGroupSize).failed
      ensures writerOpen == old(writerOpen) && fileOpen == old(fileOpen)
    {
      var i := 0;
      while i < |input|
        invariant 0 <= i <= |input|
        invariant Valid() && writerOpen == old(writerOpen) && fileOpen == old(fileOpen)
        invariant SinkBuffer.Write(State(), input[i..], oks[i..], rowGroupSize).state
               == SinkBuffer.Write(old(State()), input, oks, rowGroupSize).state
        invariant SinkBuffer.Write(State(), input[i..], oks[i..], rowGroupSize).failed
               == SinkBuffer.Write(old(State()), input, oks, rowGroupSize).failed
        decreases |input| - i
      {
        assert input[i..][0] == input[i] && oks[i..][0] == oks[i];
        assert input[i..][1..] == input[i + 1..] && oks[i..][1..] == oks[i + 1..];
        buffer := buffer + [input[i]];
        if |buffer| >= rowGroupSize {
          failed := Flush(oks[i]);
          if failed {
            return;
          }
        }
        i := i + 1;
      }
      assert oks[i..] == [oks[i]];
      failed := Flush(oks[i]);
    }

    /**
     * Close: a final flush, then the encoder is closed, then the file. Both
     * are closed whatever fails, and the first failure is the one reported.
     */
    method Close(flushOk: bool, writerCloseOk: bool, fileCloseOk: bool) returns (err: Option<SinkBuffer.CloseError>)
      requires Valid()
      modifies this
      ensures Valid()
      ensures State() == SinkBuffer.Flush(old(State()), flushOk)
      ensures !writerOpen && !fileOpen
      ensures err == if SinkBuffer.FlushFails(old(State()), flushOk) then Some(SinkBuffer.FlushFailed)
                     else if !writerCloseOk then Some(SinkBuffer.WriterCloseFailed)
                     else if !fileCloseOk then Some(SinkBuffer.FileCloseFailed)
                     else None
    {
      var failed := Flush(flushOk);
      if failed {
        writerOpen := false;
        fileOpen := false;
        return Some(SinkBuffer.FlushFailed);
      }
      writerOpen := false;
      if !writerCloseOk {
        fileOpen := false;
        return Some(SinkBuffer.WriterCloseFailed);
      }
      fileOpen := false;
      err := if fileCloseOk then None else Some(SinkBuffer.FileCloseFailed);
    }

    /** Count: the number of records the encoder has accepted. */
    function Count(): (c: int)
      reads this
      ensures Valid() ==> c == |written|
    {
      count
    }
  }
}
