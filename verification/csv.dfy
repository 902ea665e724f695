/**
 * The CSV sink: a header row written when the sink is created, then one row
 * per transaction, seventeen columns in header order, integers in `%d`.
 *
 * The csv.Writer between the sink and the file is modelled as two row lists:
 * rows already handed to the file and rows still held in its buffer. Only an
 * encoder flush moves held rows to the file, and closing the file drops what
 * the encoder still holds.
 */
module CsvSink {
  import opened Common
  import opened Text
  import opened Models
  import SinkBuffer

  const Header: seq<string> := [
    "id", "external_transaction_id", "vendor_bet_id", "round_id",
    "vendor_id", "vendor_code", "vendor_line_id", "game_category_id",
    "house_id", "master_agent_id", "agent_id", "currency_id",
    "currency_code", "bet_amount", "win_amount", "win_loss", "settled_at"]

  /** The row flush writes for one transaction. */
  function Row(t: Transaction): (r: seq<string>)
    ensures |r| == |Header|
  {
    [t.id, t.externalTransactionId, t.vendorBetId, t.roundId,
     IntText(t.vendorId), t.vendorCode, IntText(t.vendorLineId), IntText(t.gameCategoryId),
     IntText(t.houseId), IntText(t.masterAgentId), IntText(t.agentId), IntText(t.currencyId),
     t.currencyCode, t.betAmount, t.winAmount, t.winLoss, t.settledAt]
  }

  /** The text of a transaction's field under a header name; None for names that are not columns. */
  function Column(t: Transaction, name: string): Option<string>
  {
    match name
    case "id" => Some(t.id)
    case "external_transaction_id" => Some(t.externalTransactionId)
    case "vendor_bet_id" => Some(t.vendorBetId)
    case "round_id" => Some(t.roundId)
    case "vendor_id" => Some(IntText(t.vendorId))
    case "vendor_code" => Some(t.vendorCode)
    case "vendor_line_id" => Some(IntText(t.vendorLineId))
    case "game_category_id" => Some(IntText(t.gameCategoryId))
    case "house_id" => Some(IntText(t.houseId))
    case "master_agent_id" => Some(IntText(t.masterAgentId))
    case "agent_id" => Some(IntText(t.agentId))
    case "currency_id" => Some(IntText(t.currencyId))
    case "currency_code" => Some(t.currencyCode)
    case "bet_amount" => Some(t.betAmount)
    case "win_amount" => Some(t.winAmount)
    case "win_loss" => Some(t.winLoss)
    case "settled_at" => Some(t.settledAt)
    case _ => None
  }

  /** Every cell of a row sits under the header name of the field it holds. */
  lemma RowFollowsHeader(t: Transaction)
    ensures forall i :: 0 <= i < |Header| ==> Column(t, Header[i]) == Some(Row(t)[i])
  {
  }

  predicate IntCell(s: string) { ParseIntText(s).Some? }

  function IntCellValue(s: string): int
    requires IntCell(s)
  {
    ParseIntText(s).value
  }

  /** Reads a row back into a transaction: seventeen cells, the seven integer columns in `%d` form. */
  function ParseRow(r: seq<string>): Option<Transaction>
  {
    if |r| == |Header| && IntCell(r[4]) && IntCell(r[6]) && IntCell(r[7]) && IntCell(r[8])
       && IntCell(r[9]) && IntCell(r[10]) && IntCell(r[11])
    then
      Some(Transaction(r[0], r[1], r[2], r[3], IntCellValue(r[4]), r[5], IntCellValue(r[6]),
        IntCellValue(r[7]), IntCellValue(r[8]), IntCellValue(r[9]), IntCellValue(r[10]),
        IntCellValue(r[11]), r[12], r[13], r[14], r[15], r[16]))
    else None
  }

  /** A row loses nothing: it reads back as the transaction it was written from. */
  lemma RowRoundTrip(t: Transaction)
    ensures ParseRow(Row(t)) == Some(t)
  {
    var r := Row(t);
    IntCellReadsIntText(t.vendorId);
    IntCellReadsIntText(t.vendorLineId);
    IntCellReadsIntText(t.gameCategoryId);
    IntCellReadsIntText(t.houseId);
    IntCellReadsIntText(t.masterAgentId);
    IntCellReadsIntText(t.agentId);
    IntCellReadsIntText(t.currencyId);
    assert IntCell(r[4]) && IntCell(r[6]) && IntCell(r[7]) && IntCell(r[8]);
    assert IntCell(r[9]) && IntCell(r[10]) && IntCell(r[11]);
    assert ParseRow(r) == Some(Transaction(r[0], r[1], r[2], r[3], IntCellValue(r[4]), r[5], IntCellValue(r[6]),
        IntCellValue(r[7]), IntCellValue(r[8]), IntCellValue(r[9]), IntCellValue(r[10]),
        IntCellValue(r[11]), r[12], r[13], r[14], r[15], r[16]));
  }

  lemma IntCellReadsIntText(i: int)
    ensures IntCell(IntText(i)) && IntCellValue(IntText(i)) == i
  {
    IntTextRoundTrip(i);
  }

  function RowsOf(ts: seq<Transaction>): (rows: seq<seq<string>>)
  {
    seq(|ts|, i requires 0 <= i < |ts| => Row(ts[i]))
  }

  lemma RowsOfAppend(a: seq<Transaction>, b: seq<Transaction>)
    ensures RowsOf(a + b) == RowsOf(a) + RowsOf(b)
  {
  }

  /** The encoding loop of flush: one row per buffered record, in order. */
  method RowsFor(pending: seq<Transaction>) returns (rows: seq<seq<string>>)
    ensures |rows| == |pending|
    ensures forall k :: 0 <= k < |pending| ==> rows[k] == Row(pending[k])
  {
    rows := [];
    for k := 0 to |pending|
      invariant rows == RowsOf(pending[..k])
    {
      assert pending[..k + 1] == pending[..k] + [pending[k]];
      RowsOfAppend(pending[..k], [pending[k]]);
      rows := rows + [Row(pending[k])];
    }
    assert pending[..|pending|] == pending;
  }

  /** Reads data rows back, failing on the first row that does not parse. */
  function ParseRows(rows: seq<seq<string>>): Option<seq<Transaction>>
  {
    if rows == [] then Some([])
    else
      match (ParseRow(rows[0]), ParseRows(rows[1..]))
      case (Some(t), Some(ts)) => Some([t] + ts)
      case _ => None
  }

  /** The data rows of a file read back as exactly the transactions written, in order. */
  lemma {:induction false} RowsReadBack(ts: seq<Transaction>)
    ensures ParseRows(RowsOf(ts)) == Some(ts)
  {
    if ts != [] {
      RowRoundTrip(ts[0]);
      assert RowsOf(ts)[1..] == RowsOf(ts[1..]);
      RowsReadBack(ts[1..]);
      assert [ts[0]] + ts[1..] == ts;
    }
  }

  /**
   * What the file holds once it is closed, as Close is written: the rows the
   * encoder has handed over. Rows still held by the encoder are lost.
   */
  function ClosedFileAsWritten(onDisk: seq<seq<string>>, held: seq<seq<string>>): seq<seq<string>>
  {
    onDisk
  }

  /** What the file holds once it is closed when Close flushes the encoder first. */
  function ClosedFile(onDisk: seq<seq<string>>, held: seq<seq<string>>): seq<seq<string>>
  {
    onDisk + held
  }

  /**
   * The encoder's rows for a sink that has committed `written`: the header is
   * only held until the first successful flush hands it over with the first rows.
   */
  predicate EncoderHolds(onDisk: seq<seq<string>>, held: seq<seq<string>>, written: seq<Transaction>)
  {
    if written == [] then onDisk == [] && held == [Header]
    else onDisk == [Header] + RowsOf(written) && held == []
  }

  /** A successful flush of a non-empty buffer hands the held rows and the buffer's rows to the file. */
  lemma EncoderStep(onDisk: seq<seq<string>>, held: seq<seq<string>>, written: seq<Transaction>, buffer: seq<Transaction>)
    requires EncoderHolds(onDisk, held, written) && buffer != []
    ensures EncoderHolds(onDisk + held + RowsOf(buffer), [], written + buffer)
  {
    RowsOfAppend(written, buffer);
    if written == [] {
      assert written + buffer == buffer;
    }
  }

  /**
   * A sink that never commits a row leaves an empty file, without even its
   * header: the encoder still holds the header, and Close as written drops it.
   */
  lemma HeaderLostWhenNothingWritten(onDisk: seq<seq<string>>, held: seq<seq<string>>)
    requires EncoderHolds(onDisk, held, [])
    ensures held == [Header]
    ensures ClosedFileAsWritten(onDisk, held) == []
  {
  }

  /** As written, the closed file is the header followed by the rows exactly when some row was committed. */
  lemma ClosedFileAsWrittenHasHeaderOnlyAfterRows(onDisk: seq<seq<string>>, held: seq<seq<string>>, written: seq<Transaction>)
    requires EncoderHolds(onDisk, held, written)
    ensures ClosedFileAsWritten(onDisk, held) == [Header] + RowsOf(written) <==> written != []
  {
    if written == [] {
      assert |ClosedFileAsWritten(onDisk, held)| == 0;
    }
  }

  /** With the encoder flushed on close, the file is always the header followed by one row per committed record. */
  lemma ClosedFileHasHeaderAndRows(onDisk: seq<seq<string>>, held: seq<seq<string>>, written: seq<Transaction>)
    requires EncoderHolds(onDisk, held, written)
    ensures ClosedFile(onDisk, held) == [Header] + RowsOf(written)
    ensures ClosedFile(onDisk, held)[0] == Header
    ensures ParseRows(ClosedFile(onDisk, held)[1..]) == Some(written)
  {
    assert ClosedFile(onDisk, held)[1..] == RowsOf(written);
    RowsReadBack(written);
  }

  class CsvWriter {
    const bufferSize: int
    var buffer: seq<Transaction>
    var count: int
    /** The records committed by successful flushes, in order. */
    ghost var written: seq<Transaction>
    /** Rows the encoder has handed to the file. */
    var onDisk: seq<seq<string>>
    /** Rows the encoder still holds in its own buffer. */
    var held: seq<seq<string>>
    var fileOpen: bool

    ghost predicate Valid()
      reads this
    {
      SinkBuffer.Counted(State()) && EncoderHolds(onDisk, held, written)
    }

    ghost function State(): SinkBuffer.State
      reads this
    {
      SinkBuffer.State(buffer, written, count)
    }

    /** NewCSVWriter once the file exists: the header is handed to the encoder, nothing is buffered or counted. */
    constructor (bufferSize: int)
      requires bufferSize >= 0
      ensures Valid() && fileOpen
      ensures this.bufferSize == bufferSize
      ensures State() == SinkBuffer.Empty()
      ensures onDisk == [] && held == [Header]
    {
      this.bufferSize := bufferSize;
      buffer := [];
      count := 0;
      written := [];
      onDisk := [];
      held := [Header];
      fileOpen := true;
    }

    /**
     * flush: an empty buffer is left alone; otherwise every buffered record
     * becomes a row, the encoder is flushed, and on success the count grows
     * by the buffer's length and the buffer is emptied. `ok` is whether the
     * encoder's write reaches the file.
     */
    method Flush(ok: bool) returns (failed: bool)
      requires Valid()
      modifies this
      ensures Valid()
      ensures State() == SinkBuffer.Flush(old(State()), ok)
      ensures failed == SinkBuffer.FlushFails(old(State()), ok)
      ensures fileOpen == old(fileOpen)
    {
      if buffer == [] {
        return false;
      }
      var rows := RowsFor(buffer);
      assert rows == RowsOf(buffer);
      if !ok {
        return true;
      }
      EncoderStep(onDisk, held, written, buffer);
      onDisk := onDisk + held + rows;
      held := [];
      written := written + buffer;
      count := count + |buffer|;
      buffer := [];
      failed := false;
    }

    /**
     * Write: `input` is what arrived before the channel closed or the context
     * was cancelled; `oks[i]` is the outcome of the flush that input[i] may
     * trigger, and the last flag that of the final flush.
     */
    method Write(input: seq<Transaction>, oks: seq<bool>) returns (failed: bool)
      requires Valid() && |oks| == |input| + 1
      modifies this
      ensures Valid()
      ensures State() == SinkBuffer.Write(old(State()), input, oks, bufferSize).state
      ensures failed == SinkBuffer.Write(old(State()), input, oks, bufferSize).failed
      ensures fileOpen == old(fileOpen)
    {
      var i := 0;
      while i < |input|
        invariant 0 <= i <= |input|
        invariant Valid() && fileOpen == old(fileOpen)
        invariant SinkBuffer.Write(State(), input[i..], oks[i..], bufferSize).state
               == SinkBuffer.Write(old(State()), input, oks, bufferSize).state
        invariant SinkBuffer.Write(State(), input[i..], oks[i..], bufferSize).failed
               == SinkBuffer.Write(old(State()), input, oks, bufferSize).failed
        decreases |input| - i
      {
        assert input[i..][0] == input[i] && oks[i..][0] == oks[i];
        assert input[i..][1..] == input[i + 1..] && oks[i..][1..] == oks[i + 1..];
        buffer := buffer + [input[i]];
        if |buffer| >= bufferSize {
          failed := Flush(oks[i]);
          if failed {
            return;
          }
        }
        i := i + 1;
      }
      assert oks[i..] == [oks[i]];
      failed := Flush(oks[i]);
    }

    /**
     * Close as written: a final flush, then the file is closed; the flush
     * error wins over the file's. Rows the encoder still holds are dropped.
     */
    method Close(flushOk: bool, closeOk: bool) returns (err: Option<SinkBuffer.CloseError>)
      requires Valid()
      modifies this
      ensures State() == SinkBuffer.Flush(old(State()), flushOk)
      ensures err == if SinkBuffer.FlushFails(old(State()), flushOk) then Some(SinkBuffer.FlushFailed)
                     else if !closeOk then Some(SinkBuffer.FileCloseFailed) else None
      ensures !fileOpen && held == []
      ensures !SinkBuffer.FlushFails(old(State()), flushOk) ==> (onDisk == [Header] + RowsOf(written) <==> written != [])
      ensures written == [] ==> onDisk == []
    {
      var failed := Flush(flushOk);
      ClosedFileAsWrittenHasHeaderOnlyAfterRows(onDisk, held, written);
      if written == [] {
        HeaderLostWhenNothingWritten(onDisk, held);
      }
      onDisk := ClosedFileAsWritten(onDisk, held);
      held := [];
      fileOpen := false;
      if failed {
        err := Some(SinkBuffer.FlushFailed);
      } else if !closeOk {
        err := Some(SinkBuffer.FileCloseFailed);
      } else {
        err := None;
      }
    }

    /** Close with the encoder flushed before the file is closed: the header is never lost. */
    method CloseFlushingEncoder(flushOk: bool, closeOk: bool) returns (err: Option<SinkBuffer.CloseError>)
      requires Valid()
      modifies this
      ensures State() == SinkBuffer.Flush(old(State()), flushOk)
      ensures err == if SinkBuffer.FlushFails(old(State()), flushOk) then Some(SinkBuffer.FlushFailed)
                     else if !closeOk then Some(SinkBuffer.FileCloseFailed) else None
      ensures !fileOpen && held == []
      ensures !SinkBuffer.FlushFails(old(State()), flushOk) ==> onDisk == [Header] + RowsOf(written)
    {
      var failed := Flush(flushOk);
      ClosedFileHasHeaderAndRows(onDisk, held, written);
      if !failed {
        onDisk := ClosedFile(onDisk, held);
      }
      held := [];
      fileOpen := false;
      if failed {
        err := Some(SinkBuffer.FlushFailed);
      } else if !closeOk {
        err := Some(SinkBuffer.FileCloseFailed);
      } else {
        err := None;
      }
    }

    /** Count: the number of records committed so far. */
    function Count(): (c: int)
      reads this
      ensures Valid() ==> c == |written|
    {
      count
    }
  }
}
