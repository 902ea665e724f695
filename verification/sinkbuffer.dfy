/**
 * The buffer discipline the CSV and Parquet writers share. Each received
 * record is appended to the buffer; the buffer is flushed as soon as it holds
 * at least the threshold; end of input (the channel closed or the context
 * cancelled) flushes whatever remains. A flush of an empty buffer does
 * nothing; otherwise it either commits the whole buffer, in order, and adds
 * its length to the count, or fails and changes nothing.
 *
 * The outcome of each underlying write is a parameter: one flag per record
 * (used when that record fills the buffer) and one for the final flush.
 */
module SinkBuffer {
  import opened Models

  /**
   * buffer: received and not yet flushed; written: committed by successful
   * flushes, in commit order; count: the writer's counter.
   */
  datatype State = State(buffer: seq<Transaction>, written: seq<Transaction>, count: int)

  function Empty(): State { State([], [], 0) }

  /** The counter counts exactly the committed records. */
  predicate Counted(s: State) { s.count == |s.written| }

  /** flush, given whether the underlying write succeeds. */
  function Flush(s: State, ok: bool): State
  {
    if s.buffer == [] || !ok then s
    else State([], s.written + s.buffer, s.count + |s.buffer|)
  }

  /** flush returns an error exactly when there is something to write and the write fails. */
  predicate FlushFails(s: State, ok: bool)
  {
    s.buffer != [] && !ok
  }

  /** The Write loop body for one received record: append, then flush once the buffer is full. */
  function Receive(s: State, t: Transaction, threshold: int, ok: bool): State
  {
    var s1 := s.(buffer := s.buffer + [t]);
    if |s1.buffer| >= threshold then Flush(s1, ok) else s1
  }

  predicate ReceiveFails(s: State, t: Transaction, threshold: int, ok: bool)
  {
    var s1 := s.(buffer := s.buffer + [t]);
    |s1.buffer| >= threshold && FlushFails(s1, ok)
  }

  /** How Write ends: the final state, whether it returned an error, and how many records it took in. */
  datatype Outcome = Outcome(state: State, failed: bool, received: nat)

  /**
   * Write over the records received before the channel closed or the context
   * was cancelled: the first failed flush ends it with that error; otherwise
   * the final flush of the remaining buffer decides the result.
   */
  function Write(s: State, input: seq<Transaction>, oks: seq<bool>, threshold: int): Outcome
    requires |oks| == |input| + 1
    decreases |input|
  {
    if input == [] then Outcome(Flush(s, oks[0]), FlushFails(s, oks[0]), 0)
    else if ReceiveFails(s, input[0], threshold, oks[0]) then
      Outcome(Receive(s, input[0], threshold, oks[0]), true, 1)
    else
      var r := Write(Receive(s, input[0], threshold, oks[0]), input[1..], oks[1..], threshold);
      r.(received := r.received + 1)
  }

  /** A flush neither loses nor reorders records, and keeps the counter exact. */
  lemma FlushConserves(s: State, ok: bool)
    requires Counted(s)
    ensures Counted(Flush(s, ok))
    ensures Flush(s, ok).written + Flush(s, ok).buffer == s.written + s.buffer
    ensures !FlushFails(s, ok) ==> Flush(s, ok).buffer == []
    ensures FlushFails(s, ok) ==> Flush(s, ok) == s
  {
  }

  /**
   * A record is flushed as soon as the buffer reaches the threshold, so a
   * receive that does not fail leaves fewer than threshold records buffered
   * (none, for a threshold of 1 or less).
   */
  lemma ReceiveKeepsBufferBelowThreshold(s: State, t: Transaction, threshold: int, ok: bool)
    requires |s.buffer| < threshold || threshold <= 1
    requires !ReceiveFails(s, t, threshold, ok)
    ensures |Receive(s, t, threshold, ok).buffer| < threshold || Receive(s, t, threshold, ok).buffer == []
  {
  }

  /**
   * Write neither loses nor reorders records: what is committed followed by
   * what is still buffered is what was there before followed by the records
   * taken in, and the counter stays exact. A Write that returns no error has
   * taken in every record and left the buffer empty.
   */
  lemma {:induction false} WriteConserves(s: State, input: seq<Transaction>, oks: seq<bool>, threshold: int)
    requires |oks| == |input| + 1
    requires Counted(s)
    ensures var r := Write(s, input, oks, threshold);
      && Counted(r.state)
      && r.received <= |input|
      && r.state.written + r.state.buffer == s.written + s.buffer + input[..r.received]
      && (!r.failed ==> r.received == |input| && r.state.buffer == [])
    decreases |input|
  {
    if input == [] {
      FlushConserves(s, oks[0]);
    } else {
      var s1 := s.(buffer := s.buffer + [input[0]]);
      FlushConserves(s1, oks[0]);
      var next := Receive(s, input[0], threshold, oks[0]);
      assert next.written + next.buffer == s.written + s.buffer + [input[0]];
      if !ReceiveFails(s, input[0], threshold, oks[0]) {
        WriteConserves(next, input[1..], oks[1..], threshold);
        var r := Write(next, input[1..], oks[1..], threshold);
        assert input[..r.received + 1] == [input[0]] + input[1..][..r.received];
        assert s.written + s.buffer + input[..r.received + 1]
            == next.written + next.buffer + input[1..][..r.received];
      } else {
        assert input[..1] == [input[0]];
      }
    }
  }

  /** After a Write without error the counter has grown by the old buffer plus every record taken in. */
  lemma CleanWriteCountsEverything(s: State, input: seq<Transaction>, oks: seq<bool>, threshold: int)
    requires |oks| == |input| + 1
    requires Counted(s)
    requires !Write(s, input, oks, threshold).failed
    ensures Write(s, input, oks, threshold).state.count == s.count + |s.buffer| + |input|
    ensures Write(s, input, oks, threshold).state.written == s.written + s.buffer + input
  {
    WriteConserves(s, input, oks, threshold);
    assert input[..|input|] == input;
  }

  /** When every underlying write succeeds, Write returns no error. */
  lemma {:induction false} WriteSucceedsWhenWritesDo(s: State, input: seq<Transaction>, oks: seq<bool>, threshold: int)
    requires |oks| == |input| + 1
    requires forall i :: 0 <= i < |oks| ==> oks[i]
    ensures !Write(s, input, oks, threshold).failed
    decreases |input|
  {
    if input != [] {
      assert oks[0];
      WriteSucceedsWhenWritesDo(Receive(s, input[0], threshold, oks[0]), input[1..], oks[1..], threshold);
    }
  }

  /** Why Close failed, in the order Close checks. */
  datatype CloseError = FlushFailed | WriterCloseFailed | FileCloseFailed
}
