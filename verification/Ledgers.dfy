/** The notification bookkeeping that connection.go keeps under notifyMu, in its own form. */
module Ledgers {
  import Feed

  class Ledger {
    const maxQueue: nat
    const maxBytes: nat
    var notificationBytes: nat
    var lastEnqueued: nat
    var completedSeq: nat
    var completed: set<nat>
    var queue: seq<Feed.Note>

    /** The completion index of the state machine. */
    ghost function Index(): Feed.Index
      reads this
    {
      Feed.Index(completedSeq, completed)
    }

    /** The part of the state machine's notifications that is kept here. */
    ghost predicate Shows(f: Feed.Feed)
      reads this
    {
      && lastEnqueued == f.lastEnqueued && queue == f.queue && Index() == f.index
      && notificationBytes == f.bytes
    }

    constructor (maxQueue: nat, maxBytes: nat)
      ensures Shows(Feed.EMPTY_FEED) && this.maxQueue == maxQueue && this.maxBytes == maxBytes
    {
      this.maxQueue, this.maxBytes := maxQueue, maxBytes;
      notificationBytes, lastEnqueued, completedSeq, completed, queue := 0, 0, 0, {}, [];
    }

    /** enqueueNotification under notifyMu. */
    method Enqueue(size: nat, barrier: int, after: nat, ghost f: Feed.Feed) returns (ok: bool)
      requires Shows(f)
      modifies `notificationBytes, `lastEnqueued, `queue
      ensures ok <==> f.bytes + size <= maxBytes && |f.queue| < maxQueue
      ensures Shows(if ok then Feed.Accept(f, size, barrier, after) else f)
    {
      if size > maxBytes - notificationBytes { return false; }
      var seqNo := lastEnqueued + 1;
      if |queue| < maxQueue {
        queue := queue + [Feed.Note(seqNo, size, barrier, after)];
        notificationBytes := notificationBytes + size;
        lastEnqueued := seqNo;
        return true;
      }
      return false;
    }

    /** A receive from the notification queue. */
    method Receive(ghost f: Feed.Feed) returns (n: Feed.Note)
      requires Shows(f) && f.queue != []
      modifies `queue
      ensures n == f.queue[0] && Shows(Feed.Dequeue(f))
    {
      n := queue[0];
      queue := queue[1..];
    }

    /** markNotificationComplete: the loop absorbs contiguous numbers into the watermark. */
    method MarkComplete(seqNo: nat)
      requires Feed.IndexOk(Index()) && !Feed.Complete(Index(), seqNo)
      modifies `completedSeq, `completed
      ensures Index() == Feed.Mark(old(Index()), seqNo)
      ensures Feed.IndexOk(Index())
      ensures forall n: nat :: Feed.Complete(Index(), n) <==> old(Feed.Complete(Index(), n)) || n == seqNo
    {
      Feed.MarkLaw(Index(), seqNo);
      completed := completed + {seqNo};
      while completedSeq + 1 in completed
        invariant Feed.Advance(completedSeq, completed) == Feed.Mark(old(Index()), seqNo)
        decreases |completed|
      {
        var next := completedSeq + 1;
        assert |completed - {next}| < |completed|;
        completed := completed - {next};
        completedSeq := next;
      }
    }

    /** notificationAlreadyProcessed. */
    method AlreadyProcessed(seqNo: nat) returns (b: bool)
      ensures b == Feed.Complete(Index(), seqNo)
    {
      if completedSeq >= seqNo { return true; }
      return seqNo in completed;
    }

    /** processNotification's deferred release. */
    method Release(size: nat, ghost f: Feed.Feed)
      requires Shows(f) && f.stack != [] && size == Feed.Top(f).note.size && f.bytes >= size
      modifies `notificationBytes
      ensures Shows(Feed.Pop(f))
    {
      notificationBytes := notificationBytes - size;
    }
  }
}
