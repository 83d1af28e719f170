/** The batches in which the messages for one replica are sent. */
module Batching {
  import opened Streams

  /** A batch is full with maxSize messages; those that only wait for time may be flushed earlier. */
  datatype BatchMode = Fixed(size: nat) | Adaptive(size: nat) | Timed(size: nat) | Single {
    function MaxSize(): nat { if Single? then 1 else size }
  }

  ghost predicate AreBatches<T>(batches: seq<seq<T>>, maxSize: nat) {
    forall i :: 0 <= i < |batches| ==> 1 <= |batches[i]| <= maxSize
  }

  class Batcher<T> {
    const mode: BatchMode
    var buffer: seq<StreamElement<T>>
    var finished: bool
    var sent: seq<seq<StreamElement<T>>>   // the batches given to the channel

    constructor (mode: BatchMode)
      requires mode.MaxSize() > 0
      ensures Valid() && All() == [] && !finished && this.mode == mode
    {
      this.mode, buffer, finished, sent := mode, [], false, [];
    }

    ghost predicate Valid()
      reads this
    {
      |buffer| < mode.MaxSize() && AreBatches(sent, mode.MaxSize())
    }

    /** Every message given to the batcher, in order. */
    ghost function All(): seq<StreamElement<T>>
      reads this
    {
      Flatten(sent) + buffer
    }

    method Send(batch: seq<StreamElement<T>>)
      requires 1 <= |batch| <= mode.MaxSize() && AreBatches(sent, mode.MaxSize())
      modifies this`sent
      ensures sent == old(sent) + [batch] && AreBatches(sent, mode.MaxSize()) &&
        Flatten(sent) == old(Flatten(sent)) + batch
    {
      FlattenAppend(sent, batch);
      sent := sent + [batch];
    }

    /** `elapsed`: the time since the last flush is longer than the delay. */
    method Enqueue(message: StreamElement<T>, elapsed: bool)
      requires Valid()
      modifies this`buffer, this`sent
      ensures Valid() && All() == old(All()) + [message]
      ensures if mode.Single? || |old(buffer)| + 1 >= mode.size || (mode.Adaptive? && elapsed)
              then buffer == [] && sent == old(sent) + [old(buffer) + [message]]
              else buffer == old(buffer) + [message] && sent == old(sent)
    {
      if mode.Single? {
        assert buffer + [message] == [message] && Flatten(sent) + buffer == Flatten(sent);
        Send([message]);
        assert Flatten(sent) + buffer == Flatten(sent);
      } else {
        assert Flatten(sent) + (buffer + [message]) == (Flatten(sent) + buffer) + [message];
        buffer := buffer + [message];
        if |buffer| >= mode.size || (mode.Adaptive? && elapsed) { FlushAll(); }
      }
    }

    /** Send what there is, even a full buffer. */
    method FlushAll()
      requires |buffer| <= mode.MaxSize() && AreBatches(sent, mode.MaxSize())
      requires mode.MaxSize() > 0
      modifies this`buffer, this`sent
      ensures Valid() && All() == old(All()) && buffer == []
      ensures sent == old(sent) + if old(buffer) == [] then [] else [old(buffer)]
    {
      if buffer != [] {
        var batch := buffer;
        buffer := [];
        Send(batch);
      }
      assert Flatten(sent) + buffer == Flatten(sent);
    }

    method Flush()
      requires Valid()
      modifies this`buffer, this`sent
      ensures Valid() && All() == old(All()) && buffer == []
    {
      FlushAll();
    }

    /** From the timer thread: a batch that does not fit into the channel goes back into the buffer. */
    method TryFlush(full: bool) returns (done: bool)
      requires Valid()
      modifies this`buffer, this`sent
      ensures Valid() && All() == old(All())
      ensures done == (old(buffer) != [] && !full) && (done ==> buffer == [])
      ensures !done ==> buffer == old(buffer) && sent == old(sent)
    {
      if buffer == [] { return false; }
      var batch := buffer;
      buffer := [];
      if full {
        buffer := batch;
        return false;
      }
      Send(batch);
      assert Flatten(sent) + buffer == Flatten(sent);
      return true;
    }

    method End()
      requires Valid()
      modifies this
      ensures Valid() && All() == old(All()) && buffer == [] && finished
    {
      FlushAll();
      finished := true;
    }
  }

  // Any interleaving of a block and its timer ------------------------------------------------------

  /** What happens to a batcher, under its lock: calls of the block and of the timer thread. */
  datatype Call<T> = Push(message: StreamElement<T>, elapsed: bool) | FlushNow | Tick(full: bool)

  /** The messages of the block, in order. */
  function Pushed<T>(calls: seq<Call<T>>): seq<StreamElement<T>> {
    if calls == [] then []
    else Pushed(calls[..|calls| - 1]) + match calls[|calls| - 1] { case Push(m, _) => [m] case _ => [] }
  }

  /**
    Whatever the timer does and whenever the channel is full, the batches hold exactly the messages of
    the block, in order, and none is empty or too long.
   */
  method RunBatcher<T>(mode: BatchMode, calls: seq<Call<T>>) returns (batches: seq<seq<StreamElement<T>>>)
    requires mode.MaxSize() > 0
    ensures Flatten(batches) == Pushed(calls) && AreBatches(batches, mode.MaxSize())
  {
    var batcher := new Batcher<T>(mode);
    for i := 0 to |calls|
      invariant batcher.Valid() && fresh(batcher) && batcher.mode == mode && batcher.All() == Pushed(calls[..i])
    {
      assert calls[..i + 1][..i] == calls[..i];
      match calls[i] {
        case Push(m, elapsed) => batcher.Enqueue(m, elapsed);
        case FlushNow => batcher.Flush();
        case Tick(full) => var done := batcher.TryFlush(full);
      }
    }
    batcher.End();
    assert calls[..|calls|] == calls;
    assert Flatten(batcher.sent) + batcher.buffer == Flatten(batcher.sent);
    batches := batcher.sent;
  }
}
