/**
  * `bulkWrite()`: rows buffered into batches that settle one after the other,
  * with back-pressure on the producer.
  */
module Bulk {
  import opened Basics

  type Row = nat

  datatype Enqueued = Admitted | Parked | WriterClosed | Aborted | WriterFailed | ValueRefused

  datatype Closing = Pending | Done | CloseAborted | CloseFailed

  predicate BatchesOk(batches: seq<seq<Row>>, maxBufferSize: nat)
  {
    forall i | 0 <= i < |batches| :: 0 < |batches[i]| <= if maxBufferSize > 0 then maxBufferSize else 1
  }

  /** How many values a batch binds. */
  function Values(rows: nat, columns: nat): nat { rows * columns }

  lemma DivBound(a: nat, b: nat)
    requires 0 < b <= a
    ensures a / b > 0 && Values(a / b, b) <= a
  {
  }

  lemma SmallDiv(a: nat, b: nat)
    requires a < b
    ensures a / b == 0
  {
  }

  lemma MulMono(a: nat, b: nat, c: nat)
    requires a <= b
    ensures Values(a, c) <= Values(b, c)
  {
  }

  /**
    * `queue` is the chain of batches not settled yet, its head running or about
    * to; `room` that a producer is parked. `enqueued`, `written` and `notWritten`
    * are the rows themselves, for the statements, and the first `cut` of the last are
    * the batch an abort cut short: they count as not written, but their statement
    * runs on.
    */
  class BulkWriter {
    const columns: nat
    const maxVariables: nat
    const maxBufferSize: nat
    const queueSize: nat
    var buffer: seq<Row>
    var queue: seq<seq<Row>>
    var running: bool
    var queuedRows: nat
    var rowsWritten: nat
    var rowsNotWritten: nat
    var failed: bool
    var aborted: bool
    var closed: bool
    var room: bool
    ghost var enqueued: seq<Row>
    ghost var written: seq<Row>
    ghost var notWritten: seq<Row>
    ghost var cut: nat

    /** Every row is where the counters say, in the order it was enqueued: written, not written, queued, buffered. */
    ghost predicate Valid()
      reads this
    {
      && enqueued == written + notWritten + Chained(queue) + buffer
      && rowsWritten == |written| && rowsNotWritten == |notWritten| && queuedRows == |Chained(queue)|
      && (notWritten != [] ==> failed || aborted)
      && cut <= |notWritten|
      && (if maxBufferSize == 0 then buffer == [] else |buffer| < maxBufferSize)
      && BatchesOk(queue, maxBufferSize)
      && queueSize > 0 && columns > 0 && maxBufferSize == maxVariables / columns
      && (room ==> queuedRows >= queueSize)
      && (running ==> queue != [] && !failed && notWritten == [])
    }

    constructor (columns: nat, maxVariables: nat, given: Option<nat>)
      requires columns > 0
      ensures Valid() && enqueued == buffer == [] && queue == [] && !closed && !aborted && !failed && !room
      ensures this.columns == columns && this.maxVariables == maxVariables && maxBufferSize == maxVariables / columns
      ensures queueSize == if given.Some? then (if given.value > 1 then given.value else 1)
                           else if 2 * maxBufferSize > 1 then 2 * maxBufferSize else 1
    {
      var n := maxVariables / columns;
      var q := if given.Some? then given.value else 2 * n;
      this.columns, this.maxVariables, maxBufferSize := columns, maxVariables, n;
      queueSize := if q > 1 then q else 1;
      buffer, queue, running := [], [], false;
      queuedRows, rowsWritten, rowsNotWritten := 0, 0, 0;
      failed, aborted, closed, room := false, false, false, false;
      enqueued, written, notWritten, cut := [], [], [], 0;
    }

    /** The buffer becomes the last batch of the chain. */
    method Flush()
      requires buffer != [] && |buffer| <= (if maxBufferSize > 0 then maxBufferSize else 1)
      requires BatchesOk(queue, maxBufferSize) && queuedRows == |Chained(queue)|
      modifies this`buffer, this`queue, this`queuedRows
      ensures buffer == [] && queue == old(queue) + [old(buffer)] && BatchesOk(queue, maxBufferSize)
      ensures Chained(queue) == old(Chained(queue) + buffer) && queuedRows == |Chained(queue)| >= old(queuedRows)
    {
      ChainedSnoc(queue, buffer);
      queue := queue + [buffer];
      queuedRows := queuedRows + |buffer|;
      buffer := [];
    }

    /** One row, or the reason it was not taken; a producer is parked only behind a batch that has not settled. */
    method Enqueue(row: Option<Row>) returns (r: Enqueued)
      requires Valid()
      modifies this`buffer, this`queue, this`queuedRows, this`room, this`enqueued
      ensures Valid()
      ensures r == if closed then WriterClosed else if aborted then Aborted else if failed then WriterFailed
                   else if row == None then ValueRefused else if queuedRows < queueSize then Admitted else Parked
      ensures r == Admitted || r == Parked ==> enqueued == old(enqueued) + [row.value]
      ensures r == Admitted || r == Parked ==>
                if |old(buffer)| + 1 >= maxBufferSize then buffer == [] && queue == old(queue) + [old(buffer) + [row.value]]
                else buffer == old(buffer) + [row.value] && queue == old(queue)
      ensures r != Admitted && r != Parked ==> enqueued == old(enqueued) && buffer == old(buffer) && queue == old(queue)
      ensures r == Parked <==> room && r != WriterClosed && r != Aborted && r != WriterFailed && r != ValueRefused
      ensures r == Parked ==> queue != []
    {
      if closed { return WriterClosed; }
      if aborted { return Aborted; }
      if failed { return WriterFailed; }
      if row == None { return ValueRefused; } // the mark is rolled back
      buffer := buffer + [row.value];
      enqueued := enqueued + [row.value];
      if |buffer| >= maxBufferSize { Flush(); }
      if queuedRows < queueSize { return Admitted; }
      room := true;
      r := Parked;
    }

    method Abort()
      requires Valid()
      modifies this`aborted, this`room
      ensures Valid() && aborted && !room
    {
      aborted, room := true, false;
    }

    /** The head of the chain starts: it is skipped once something failed or was aborted. */
    method Start()
      requires Valid() && queue != [] && !running
      modifies this
      ensures Valid() && enqueued == old(enqueued) && written == old(written)
      ensures running == !old(failed || aborted)
      ensures !running ==> queue == old(queue)[1..] && notWritten == old(notWritten + queue[0])
    {
      if failed || aborted {
        NotWritten();
        return;
      }
      running := true;
    }

    /** A batch the database refused, or that an abort cut: all of it is unwritten. */
    method NotWritten()
      requires queue != [] && queuedRows == |Chained(queue)| && rowsNotWritten == |notWritten|
      modifies this`queue, this`queuedRows, this`rowsNotWritten, this`notWritten, this`room
      ensures queue == old(queue)[1..] && notWritten == old(notWritten + queue[0])
      ensures queuedRows == |Chained(queue)| && rowsNotWritten == |notWritten|
      ensures room ==> old(room) && queuedRows >= queueSize
    {
      rowsNotWritten := rowsNotWritten + |queue[0]|;
      notWritten := notWritten + queue[0];
      Settled();
    }

    /** Every way a batch ends gives its rows back to the queue's count, and the producer its room. */
    method Settled()
      requires queue != [] && queuedRows == |Chained(queue)|
      modifies this`queue, this`queuedRows, this`room
      ensures queue == old(queue)[1..] && queuedRows == |Chained(queue)|
      ensures room ==> old(room) && queuedRows >= queueSize
    {
      queuedRows := queuedRows - |queue[0]|;
      queue := queue[1..];
      if queuedRows < queueSize { room := false; }
    }

    /**
      * The running batch ends: a statement is atomic, so all of it is written or none.
      * An abort is no failure, and only ends the wait: the statement may commit after all.
      */
    method Finish(ok: bool)
      requires Valid() && running
      modifies this
      ensures Valid() && enqueued == old(enqueued) && !running
      ensures ok ==> written == old(written + queue[0]) && notWritten == old(notWritten) && failed == old(failed)
      ensures !ok ==> written == old(written) && notWritten == old(notWritten + queue[0])
                      && failed == old(failed || !aborted) && cut == if old(aborted) then |old(queue[0])| else 0
      ensures queue == old(queue)[1..] && aborted == old(aborted)
    {
      running := false;
      if !ok {
        cut := if aborted then |queue[0]| else 0;
        if !aborted { failed := true; }
        NotWritten();
        return;
      }
      rowsWritten := rowsWritten + |queue[0]|;
      written := written + queue[0];
      Settled();
    }

    /** What `close()` asks for: the rest of the buffer is a batch of its own. `upTo` is how many rows it answers for. */
    method CloseCalled() returns (upTo: nat)
      requires Valid() && !closed
      modifies this`buffer, this`queue, this`queuedRows
      ensures Valid() && buffer == [] && upTo == |enqueued|
    {
      if buffer != [] { Flush(); }
      upTo := rowsWritten + rowsNotWritten + queuedRows;
    }

    /** Its answer, once the batches it waited for have settled: it says done only of rows that are all written. */
    method CloseAnswers(upTo: nat) returns (r: Closing)
      requires Valid() && upTo <= |enqueued|
      modifies this`closed
      ensures Valid()
      ensures r == Pending <==> rowsWritten + rowsNotWritten < upTo
      ensures r == Done ==> closed && upTo <= |written| && enqueued[..upTo] == written[..upTo] && notWritten == []
      ensures r == CloseAborted || r == CloseFailed ==> closed == old(closed) && (if r == CloseAborted then aborted else failed && !aborted)
    {
      if rowsWritten + rowsNotWritten < upTo { return Pending; }
      if aborted { return CloseAborted; }
      if failed { return CloseFailed; }
      closed := true;
      r := Done;
    }

    /** The rows written are the first enqueued, whatever failed or was aborted, and whether or not the batch cut short commits after all. */
    lemma WrittenArePrefix()
      requires Valid()
      ensures |written| <= |enqueued| && written == enqueued[..|written|]
      ensures IsPrefix(written + notWritten[..cut], enqueued)
      ensures |enqueued| == rowsWritten + rowsNotWritten + queuedRows + |buffer|
      ensures room ==> queue != []
    {
    }

    /** The batches queued bind at most `maxVariables` values each exactly when one row does. */
    lemma BatchesBindWithinIff()
      requires Valid() && queue != []
      ensures (forall i | 0 <= i < |queue| :: Values(|queue[i]|, columns) <= maxVariables) <==> columns <= maxVariables
    {
      var n := maxBufferSize;
      if columns <= maxVariables {
        DivBound(maxVariables, columns);
        forall i | 0 <= i < |queue|
          ensures Values(|queue[i]|, columns) <= maxVariables
        {
          assert 0 < |queue[i]| <= n;
          MulMono(|queue[i]|, n, columns);
        }
      } else {
        SmallDiv(maxVariables, columns);
        assert |queue[0]| == 1;
        assert Values(|queue[0]|, columns) == columns;
      }
    }
  }

  /** One row of two columns where a statement takes one variable: the writer starts a batch that binds both. */
  method WideRowStartsABatch(row: Row) returns (w: BulkWriter)
    ensures fresh(w) && w.Valid() && w.queue == [[row]]
    ensures Values(|w.queue[0]|, w.columns) == 2 > w.maxVariables
  {
    w := new BulkWriter(2, 1, None);
    SmallDiv(1, 2);
    var r := w.Enqueue(Some(row));
    assert r == Admitted || r == Parked;
    ghost var none: seq<seq<Row>>, empty: seq<Row> := [], [];
    assert w.queue == none + [empty + [row]];
    assert empty + [row] == [row] && none + [[row]] == [[row]];
    assert |w.queue[0]| == 1 && Values(1, 2) == 2;
  }
}
