/**
The collector object: an in-memory buffer that `Record` appends to and that a flush swaps out.
`Append` and `Drain` are its two locked sections; everything else runs outside the lock.
*/
module Collector {
  import opened Metering

  /** Whether one more transaction brings the buffer to the batch size. */
  predicate Fills(buffer: seq<Transaction>, batchSize: nat) {
    |buffer| + 1 >= batchSize
  }

  /** Where batches go: the batches stored, and those a failed insert has lost. */
  class Sink {
    var stored: seq<seq<Transaction>>
    var lost: seq<seq<Transaction>>

    constructor ()
      ensures stored == [] && lost == []
    {
      stored, lost := [], [];
    }

    method BatchInsert(batch: seq<Transaction>, ok: bool) returns (err: bool)
      modifies this
      ensures err == !ok
      ensures ok ==> stored == old(stored) + [batch] && lost == old(lost)
      ensures !ok ==> stored == old(stored) && lost == old(lost) + [batch]
    {
      if ok { stored := stored + [batch]; } else { lost := lost + [batch]; }
      err := !ok;
    }
  }

  class Collector {
    var buffer: seq<Transaction>
    const batchSize: nat

    constructor (batchSize: nat)
      ensures buffer == [] && this.batchSize == batchSize
    {
      this.batchSize, buffer := batchSize, [];
    }

    method Append(tx: Transaction) returns (shouldFlush: bool)
      modifies `buffer
      ensures buffer == old(buffer) + [tx]
      ensures shouldFlush <==> Fills(old(buffer), batchSize)
    {
      buffer := buffer + [tx];
      shouldFlush := |buffer| >= batchSize;
    }

    method Drain() returns (batch: seq<Transaction>)
      modifies `buffer
      ensures batch == old(buffer) && buffer == []
    {
      if |buffer| == 0 { return []; }
      batch := buffer;
      buffer := [];
    }

    /** A flush on its own: the whole buffer goes out as one batch; an empty buffer sends nothing. */
    method Flush(sink: Sink, ok: bool)
      modifies `buffer, sink
      ensures buffer == []
      ensures old(buffer) == [] ==> sink.stored == old(sink.stored) && sink.lost == old(sink.lost)
      ensures old(buffer) != [] && ok ==> sink.stored == old(sink.stored) + [old(buffer)] && sink.lost == old(sink.lost)
      ensures old(buffer) != [] && !ok ==>
                sink.stored == old(sink.stored) && sink.lost == old(sink.lost) + [old(buffer)]
    {
      var batch := Drain();
      if |batch| == 0 { return; }
      var _ := sink.BatchInsert(batch, ok);
    }

    /**
    A call of `Record` with no other thread around, whatever the buffer holds: the transaction joins
    the buffer, or leaves with all of it as one batch, in order; the buffer ends below the batch size.
    */
    method Record(tx: Transaction, sink: Sink, ok: bool)
      modifies `buffer, sink
      ensures buffer == [] || |buffer| < batchSize
      ensures !Fills(old(buffer), batchSize) ==>
                buffer == old(buffer) + [tx] && sink.stored == old(sink.stored) && sink.lost == old(sink.lost)
      ensures Fills(old(buffer), batchSize) && ok ==>
                buffer == [] && sink.stored == old(sink.stored) + [old(buffer) + [tx]] && sink.lost == old(sink.lost)
      ensures Fills(old(buffer), batchSize) && !ok ==>
                buffer == [] && sink.stored == old(sink.stored) && sink.lost == old(sink.lost) + [old(buffer) + [tx]]
    {
      var shouldFlush := Append(tx);
      if shouldFlush { Flush(sink, ok); }
    }
  }
}
