/** Inbound notifications of one connection: the queue, the stack of notifications being
    processed (one inside the other when a handler waits for a response), the index of the
    finished ones and the byte budget. */
module Feed {
  import opened Results
  import opened Ids

  // ------------------------------------------------- the completion index

  /** completedNotificationSeq, and the finished numbers that are not yet contiguous. */
  datatype Index = Index(watermark: nat, ahead: set<nat>)

  /** notificationAlreadyProcessed. */
  predicate Complete(x: Index, n: nat) {
    n <= x.watermark || n in x.ahead
  }

  /** The watermark is maximal and the set lies strictly above it. */
  ghost predicate IndexOk(x: Index) {
    forall n | n in x.ahead :: n > x.watermark + 1
  }

  /** The loop of markNotificationComplete: absorb contiguous numbers into the watermark. */
  function Advance(watermark: nat, ahead: set<nat>): Index
    decreases |ahead|
  {
    if watermark + 1 in ahead then
      assert |ahead - {watermark + 1}| < |ahead|;
      Advance(watermark + 1, ahead - {watermark + 1})
    else Index(watermark, ahead)
  }

  function Mark(x: Index, n: nat): Index {
    Advance(x.watermark, x.ahead + {n})
  }

  lemma {:induction false} AdvanceLaw(watermark: nat, ahead: set<nat>)
    requires forall n | n in ahead :: n > watermark
    ensures var y := Advance(watermark, ahead);
            && IndexOk(y)
            && forall n: nat :: Complete(y, n) <==> n <= watermark || n in ahead
    decreases |ahead|
  {
    if watermark + 1 in ahead {
      assert |ahead - {watermark + 1}| < |ahead|;
      AdvanceLaw(watermark + 1, ahead - {watermark + 1});
    }
  }

  /** Marking adds exactly the marked number to the finished ones, in whatever order. */
  lemma MarkLaw(x: Index, n: nat)
    requires IndexOk(x) && !Complete(x, n)
    ensures IndexOk(Mark(x, n))
    ensures forall m: nat :: Complete(Mark(x, n), m) <==> Complete(x, m) || m == n
  {
    AdvanceLaw(x.watermark, x.ahead + {n});
  }

  /** The index is a canonical form: equal finished sets have equal indexes. */
  lemma IndexCanonical(x: Index, y: Index)
    requires IndexOk(x) && IndexOk(y)
    requires forall n: nat :: Complete(x, n) <==> Complete(y, n)
    ensures x == y
  {
    assert Complete(x, x.watermark) && Complete(y, y.watermark);
    assert !Complete(x, x.watermark + 1) && !Complete(y, y.watermark + 1);
    assert x.watermark == y.watermark;
    forall n: nat ensures n in x.ahead <==> n in y.ahead {
      assert Complete(x, n) <==> Complete(y, n);
      if n in x.ahead { assert n > x.watermark + 1; }
      if n in y.ahead { assert n > y.watermark + 1; }
    }
  }

  // ------------------------------------------------- notifications in progress

  /** A queued notification: its number, its size, the delivery that was last in the chain when
      it was accepted (-1: none), and how many gated responses had been chained by then. */
  datatype Note = Note(seqNo: nat, size: nat, barrier: int, after: nat)

  /** Where processNotification stands: walking the deliveries it has to wait for; running the
      handler, perhaps with the frame's mutex held by a waiter that drains later notifications;
      or finished, marked in the index or not yet. */
  datatype Stage =
    | Walking(cursor: int)
    | Running(returned: bool, holder: Option<WaitId>)
    | Ended(marked: bool)

  datatype Frame = Frame(note: Note, stage: Stage)

  /** handled and skipped record history: the last number whose handler was started, and whether
      any notification was finished without running its handler. */
  datatype Feed = Feed(
    lastEnqueued: nat,
    queue: seq<Note>,
    stack: seq<Frame>,
    index: Index,
    bytes: nat,
    handled: nat,
    skipped: bool)

  const EMPTY_FEED := Feed(0, [], [], Index(0, {}), 0, 0, false)

  function Started(f: Feed): int {
    f.lastEnqueued - |f.queue|
  }

  function Top(f: Feed): Frame
    requires f.stack != []
  {
    f.stack[|f.stack| - 1]
  }

  function QueueBytes(q: seq<Note>): nat {
    if q == [] then 0 else q[0].size + QueueBytes(q[1..])
  }

  function StackBytes(s: seq<Frame>): nat {
    if s == [] then 0 else StackBytes(s[..|s| - 1]) + s[|s| - 1].note.size
  }

  ghost predicate QueueOk(f: Feed) {
    && |f.queue| <= f.lastEnqueued
    && forall i | 0 <= i < |f.queue| :: f.queue[i].seqNo == Started(f) + 1 + i
  }

  ghost predicate StackOk(f: Feed) {
    && (forall i | 0 <= i < |f.stack| :: 1 <= f.stack[i].note.seqNo <= Started(f))
    && (forall i, j | 0 <= i < j < |f.stack| :: f.stack[i].note.seqNo < f.stack[j].note.seqNo)
    && (forall i | 0 <= i < |f.stack| - 1 :: f.stack[i].stage.Running? && f.stack[i].stage.holder.Some?)
    && (f.stack != [] && Top(f).stage.Walking? ==> Top(f).note.seqNo == Started(f))
  }

  /** n has been taken off the queue and its processing is not finished. */
  ghost predicate OnStack(f: Feed, n: nat) {
    exists i :: 0 <= i < |f.stack| && f.stack[i].note.seqNo == n && f.stack[i].stage != Ended(true)
  }

  ghost predicate IndexAgrees(f: Feed) {
    && IndexOk(f.index)
    && forall n: nat | n >= 1 :: Complete(f.index, n) <==> n <= Started(f) && !OnStack(f, n)
  }

  ghost predicate HandledOk(f: Feed) {
    !f.skipped ==> f.handled == if f.stack != [] && Top(f).stage.Walking? then Started(f) - 1 else Started(f)
  }

  ghost predicate FeedOk(f: Feed, maxQueue: nat, maxBytes: nat) {
    && QueueOk(f) && |f.queue| <= maxQueue
    && StackOk(f)
    && IndexAgrees(f)
    && HandledOk(f)
    && f.bytes == QueueBytes(f.queue) + StackBytes(f.stack) <= maxBytes
  }

  // ------------------------------------------------- steps

  /** The accepting branch of enqueueNotification. */
  function Accept(f: Feed, size: nat, barrier: int, after: nat): Feed {
    f.(queue := f.queue + [Note(f.lastEnqueued + 1, size, barrier, after)],
       lastEnqueued := f.lastEnqueued + 1,
       bytes := f.bytes + size)
  }

  /** A receive from notificationQueue, and the call of processNotification. */
  function Dequeue(f: Feed): Feed
    requires f.queue != []
  {
    var n := f.queue[0];
    f.(queue := f.queue[1..], stack := f.stack + [Frame(n, Walking(n.barrier))])
  }

  function SetStage(f: Feed, d: nat, s: Stage): Feed
    requires d < |f.stack|
  {
    f.(stack := f.stack[d := f.stack[d].(stage := s)])
  }

  function SetTop(f: Feed, s: Stage): Feed
    requires f.stack != []
  {
    SetStage(f, |f.stack| - 1, s)
  }

  function StartTop(f: Feed): Feed
    requires f.stack != []
  {
    SetTop(f, Running(false, None)).(handled := Top(f).note.seqNo)
  }

  function SkipTop(f: Feed): Feed
    requires f.stack != []
  {
    SetTop(f, Ended(false)).(skipped := true)
  }

  function MarkTop(f: Feed): Feed
    requires f.stack != []
  {
    SetTop(f, Ended(true)).(index := Mark(f.index, Top(f).note.seqNo))
  }

  /** The deferred release of the byte budget, and the return of processNotification. */
  function Pop(f: Feed): Feed
    requires f.stack != [] && f.bytes >= Top(f).note.size
  {
    f.(stack := f.stack[..|f.stack| - 1], bytes := f.bytes - Top(f).note.size)
  }

  // ------------------------------------------------- what every step keeps

  /** s is the number of a frame of this connection whose handler has been started. */
  predicate Begun(f: Feed, s: nat) {
    && 1 <= s <= Started(f)
    && forall i | 0 <= i < |f.stack| && f.stack[i].note.seqNo == s :: !f.stack[i].stage.Walking?
  }

  ghost predicate SameFrame(a: Frame, b: Frame) {
    a.note == b.note && b.stage.Running? && a.stage.Running? && a.stage.holder == b.stage.holder
  }

  /** f' is later than f, and w is the only waiter whose hold on a frame may differ. */
  ghost predicate Later(f: Feed, f': Feed, w: Option<WaitId>) {
    && f.lastEnqueued <= f'.lastEnqueued && Started(f) <= Started(f') && f.handled <= f'.handled
    && (forall n: nat :: Complete(f.index, n) ==> Complete(f'.index, n))
    && (forall s: nat :: Begun(f, s) ==> Begun(f', s))
    && (forall i | 0 <= i < |f.stack| && f.stack[i].stage.Running? && f.stack[i].stage.holder.Some?
                   && f.stack[i].stage.holder != w ::
          i < |f'.stack| && SameFrame(f.stack[i], f'.stack[i]))
    && (forall i | 0 <= i < |f'.stack| && f'.stack[i].stage.Running? && f'.stack[i].stage.holder.Some?
                   && f'.stack[i].stage.holder != w ::
          i < |f.stack| && SameFrame(f.stack[i], f'.stack[i]))
    && (f.skipped ==> f'.skipped)
  }

  lemma {:induction false} QueueBytesAppend(q: seq<Note>, n: Note)
    ensures QueueBytes(q + [n]) == QueueBytes(q) + n.size
    decreases |q|
  {
    if q == [] {
      assert q + [n] == [n];
    } else {
      QueueBytesAppend(q[1..], n);
      assert (q + [n])[1..] == q[1..] + [n];
    }
  }

  lemma AcceptKeeps(f: Feed, size: nat, barrier: int, after: nat, maxQueue: nat, maxBytes: nat)
    requires FeedOk(f, maxQueue, maxBytes)
    requires |f.queue| < maxQueue && size <= maxBytes - f.bytes
    ensures FeedOk(Accept(f, size, barrier, after), maxQueue, maxBytes)
    ensures Later(f, Accept(f, size, barrier, after), None)
  {
    var f' := Accept(f, size, barrier, after);
    QueueBytesAppend(f.queue, Note(f.lastEnqueued + 1, size, barrier, after));
    assert f'.stack == f.stack && Started(f') == Started(f);
    assert forall n: nat :: OnStack(f', n) <==> OnStack(f, n);
    assert forall s: nat :: Begun(f, s) ==> Begun(f', s);
  }

  lemma DequeueStack(f: Feed, n: nat)
    requires f.queue != []
    ensures OnStack(Dequeue(f), n) <==> OnStack(f, n) || n == f.queue[0].seqNo
  {
    var f' := Dequeue(f);
    var k := |f.stack|;
    if OnStack(f, n) {
      var i :| 0 <= i < k && f.stack[i].note.seqNo == n && f.stack[i].stage != Ended(true);
      assert f'.stack[i] == f.stack[i];
    }
    if n == f.queue[0].seqNo {
      assert f'.stack[k].note.seqNo == n;
    }
    if OnStack(f', n) && n != f.queue[0].seqNo {
      var i :| 0 <= i < |f'.stack| && f'.stack[i].note.seqNo == n && f'.stack[i].stage != Ended(true);
      assert f'.stack[i] == f.stack[i];
    }
  }

  lemma DequeueIndex(f: Feed)
    requires f.queue != [] && QueueOk(f) && StackOk(f) && IndexAgrees(f)
    ensures QueueOk(Dequeue(f)) && IndexAgrees(Dequeue(f))
  {
    var f' := Dequeue(f);
    assert Started(f') == Started(f) + 1 == f.queue[0].seqNo;
    forall n: nat | n >= 1
      ensures Complete(f'.index, n) <==> n <= Started(f') && !OnStack(f', n)
    {
      DequeueStack(f, n);
      assert Complete(f.index, n) <==> n <= Started(f) && !OnStack(f, n);
    }
  }

  lemma DequeueLater(f: Feed)
    requires f.queue != [] && QueueOk(f)
    ensures Later(f, Dequeue(f), None)
  {
    var f' := Dequeue(f);
    assert forall i | 0 <= i < |f.stack| :: f'.stack[i] == f.stack[i];
    assert Started(f') == Started(f) + 1 == f.queue[0].seqNo;
    forall s: nat | Begun(f, s) ensures Begun(f', s) {
      forall i | 0 <= i < |f'.stack| && f'.stack[i].note.seqNo == s ensures !f'.stack[i].stage.Walking? {
        assert i < |f.stack| ==> f.stack[i].note.seqNo == s;
      }
    }
  }

  lemma DequeueStackOk(f: Feed)
    requires QueueOk(f) && StackOk(f) && f.queue != []
    requires f.stack == [] || (Top(f).stage.Running? && Top(f).stage.holder.Some?)
    ensures StackOk(Dequeue(f)) && Started(Dequeue(f)) == Started(f) + 1
  {
    var f' := Dequeue(f);
    assert forall i | 0 <= i < |f.stack| :: f'.stack[i] == f.stack[i];
  }

  lemma DequeueRest(f: Feed)
    requires QueueOk(f) && StackOk(f) && HandledOk(f) && f.queue != []
    requires f.stack == [] || (Top(f).stage.Running? && Top(f).stage.holder.Some?)
    ensures StackOk(Dequeue(f)) && HandledOk(Dequeue(f))
    ensures QueueBytes(Dequeue(f).queue) + StackBytes(Dequeue(f).stack) == QueueBytes(f.queue) + StackBytes(f.stack)
  {
    DequeueStackOk(f);
    assert Dequeue(f).stack[..|f.stack|] == f.stack;
  }

  lemma DequeueKeeps(f: Feed, maxQueue: nat, maxBytes: nat)
    requires FeedOk(f, maxQueue, maxBytes) && f.queue != []
    requires f.stack == [] || (Top(f).stage.Running? && Top(f).stage.holder.Some?)
    ensures FeedOk(Dequeue(f), maxQueue, maxBytes)
    ensures Later(f, Dequeue(f), None)
  {
    DequeueIndex(f);
    DequeueLater(f);
    DequeueRest(f);
  }

  /** Changing the top frame's stage, short of marking it finished. */
  lemma SetTopKeeps(f: Feed, s: Stage, maxQueue: nat, maxBytes: nat)
    requires FeedOk(f, maxQueue, maxBytes) && f.stack != []
    requires s != Ended(true) && Top(f).stage != Ended(true)
    requires s.Walking? ==> Top(f).stage.Walking?
    ensures var f' := SetTop(f, s);
            && QueueOk(f') && StackOk(f') && IndexAgrees(f')
            && f'.bytes == QueueBytes(f'.queue) + StackBytes(f'.stack)
            && (forall n: nat :: Begun(f, n) ==> Begun(f', n))
  {
    var f' := SetTop(f, s);
    var k := |f.stack| - 1;
    assert f'.stack[..k] == f.stack[..k];
    RestagedOnStack(f, k, s);
    forall i | 0 <= i < |f'.stack| ensures f'.stack[i].note == f.stack[i].note {
    }
    forall n: nat | Begun(f, n) ensures Begun(f', n) {
      forall i | 0 <= i < |f'.stack| && f'.stack[i].note.seqNo == n ensures !f'.stack[i].stage.Walking? {
        assert f.stack[i].note.seqNo == n;
      }
    }
  }

  /** A frame that changes its stage, short of being marked, stays on the stack. */
  lemma RestagedOnStack(f: Feed, d: nat, s: Stage)
    requires d < |f.stack| && s != Ended(true) && f.stack[d].stage != Ended(true)
    ensures forall n: nat :: OnStack(SetStage(f, d, s), n) <==> OnStack(f, n)
  {
    var f' := SetStage(f, d, s);
    forall n: nat ensures OnStack(f', n) <==> OnStack(f, n) {
      if OnStack(f, n) {
        var i :| 0 <= i < |f.stack| && f.stack[i].note.seqNo == n && f.stack[i].stage != Ended(true);
        assert f'.stack[i].note == f.stack[i].note && f'.stack[i].stage != Ended(true);
      }
      if OnStack(f', n) {
        var i :| 0 <= i < |f'.stack| && f'.stack[i].note.seqNo == n && f'.stack[i].stage != Ended(true);
        assert f'.stack[i].note == f.stack[i].note && f.stack[i].stage != Ended(true);
      }
    }
  }

  lemma WalkKeeps(f: Feed, cursor: int, maxQueue: nat, maxBytes: nat)
    requires FeedOk(f, maxQueue, maxBytes) && f.stack != [] && Top(f).stage.Walking?
    ensures FeedOk(SetTop(f, Walking(cursor)), maxQueue, maxBytes)
    ensures Later(f, SetTop(f, Walking(cursor)), None)
  {
    SetTopKeeps(f, Walking(cursor), maxQueue, maxBytes);
  }

  lemma StartTopKeeps(f: Feed, maxQueue: nat, maxBytes: nat)
    requires FeedOk(f, maxQueue, maxBytes) && f.stack != [] && Top(f).stage.Walking?
    requires !f.skipped
    ensures FeedOk(StartTop(f), maxQueue, maxBytes)
    ensures Later(f, StartTop(f), None)
  {
    SetTopKeeps(f, Running(false, None), maxQueue, maxBytes);
    Unmoved(SetTop(f, Running(false, None)), StartTop(f));
  }

  lemma SkipTopKeeps(f: Feed, maxQueue: nat, maxBytes: nat)
    requires FeedOk(f, maxQueue, maxBytes) && f.stack != [] && Top(f).stage.Walking?
    ensures FeedOk(SkipTop(f), maxQueue, maxBytes)
    ensures Later(f, SkipTop(f), None)
  {
    SetTopKeeps(f, Ended(false), maxQueue, maxBytes);
    Unmoved(SetTop(f, Ended(false)), SkipTop(f));
  }

  lemma EndTopKeeps(f: Feed, maxQueue: nat, maxBytes: nat)
    requires FeedOk(f, maxQueue, maxBytes) && f.stack != [] && Top(f).stage == Running(true, None)
    ensures FeedOk(SetTop(f, Ended(false)), maxQueue, maxBytes)
    ensures Later(f, SetTop(f, Ended(false)), None)
  {
    SetTopKeeps(f, Ended(false), maxQueue, maxBytes);
  }

  /** Only the history variables differ. */
  lemma Unmoved(f: Feed, f': Feed)
    requires f'.stack == f.stack && f'.queue == f.queue && f'.lastEnqueued == f.lastEnqueued
    requires f'.index == f.index
    ensures QueueOk(f) ==> QueueOk(f')
    ensures StackOk(f) ==> StackOk(f')
    ensures IndexAgrees(f) ==> IndexAgrees(f')
    ensures forall n: nat :: Begun(f, n) ==> Begun(f', n)
  {
    assert forall n: nat :: OnStack(f', n) <==> OnStack(f, n);
  }

  lemma RunningLater(f: Feed, d: nat, s: Stage, w: Option<WaitId>)
    requires d < |f.stack|
    requires f.stack[d].stage.Running? && s.Running?
    requires s.holder == f.stack[d].stage.holder ||
             (d == |f.stack| - 1 && w.Some?
              && (f.stack[d].stage.holder == None || f.stack[d].stage.holder == w)
              && (s.holder == None || s.holder == w))
    ensures Later(f, SetStage(f, d, s), w)
  {
    var f' := SetStage(f, d, s);
    RestagedOnStack(f, d, s);
    forall n: nat | Begun(f, n) ensures Begun(f', n) {
      forall i | 0 <= i < |f'.stack| && f'.stack[i].note.seqNo == n ensures !f'.stack[i].stage.Walking? {
        assert f.stack[i].note.seqNo == n;
      }
    }
  }

  /** The handler returns, or a waiter takes or gives back the mutex of the top frame. */
  lemma RunningKeeps(f: Feed, d: nat, s: Stage, w: Option<WaitId>, maxQueue: nat, maxBytes: nat)
    requires FeedOk(f, maxQueue, maxBytes) && d < |f.stack|
    requires f.stack[d].stage.Running? && s.Running?
    requires s.holder == f.stack[d].stage.holder ||
             (d == |f.stack| - 1 && w.Some?
              && (f.stack[d].stage.holder == None || f.stack[d].stage.holder == w)
              && (s.holder == None || s.holder == w))
    ensures FeedOk(SetStage(f, d, s), maxQueue, maxBytes)
    ensures Later(f, SetStage(f, d, s), w)
  {
    var f' := SetStage(f, d, s);
    forall i | 0 <= i < |f.stack| ensures f'.stack[i].note == f.stack[i].note {
    }
    RestagedOnStack(f, d, s);
    SameBytes(f.stack, f'.stack);
    assert f'.stack != [] && f.stack != [];
    assert Top(f').stage.Walking? <==> Top(f).stage.Walking?;
    RunningLater(f, d, s, w);
  }

  lemma {:induction false} SameBytes(s: seq<Frame>, t: seq<Frame>)
    requires |s| == |t| && forall i | 0 <= i < |s| :: s[i].note == t[i].note
    ensures StackBytes(s) == StackBytes(t)
    decreases |s|
  {
    if s != [] {
      SameBytes(s[..|s| - 1], t[..|t| - 1]);
    }
  }

  lemma MarkOnStack(f: Feed)
    requires f.stack != [] && Top(f).stage == Ended(false) && StackOk(f)
    ensures forall n: nat :: OnStack(MarkTop(f), n) <==> OnStack(f, n) && n != Top(f).note.seqNo
  {
    var f' := MarkTop(f);
    var k := |f.stack| - 1;
    forall n: nat ensures OnStack(f', n) <==> OnStack(f, n) && n != Top(f).note.seqNo {
      if OnStack(f, n) && n != Top(f).note.seqNo {
        var i :| 0 <= i < |f.stack| && f.stack[i].note.seqNo == n && f.stack[i].stage != Ended(true);
        assert f'.stack[i] == f.stack[i];
      }
      if OnStack(f', n) {
        var i :| 0 <= i < |f'.stack| && f'.stack[i].note.seqNo == n && f'.stack[i].stage != Ended(true);
        assert i != k && f'.stack[i] == f.stack[i];
      }
    }
  }

  lemma MarkTopKeeps(f: Feed, maxQueue: nat, maxBytes: nat)
    requires FeedOk(f, maxQueue, maxBytes) && f.stack != [] && Top(f).stage == Ended(false)
    ensures FeedOk(MarkTop(f), maxQueue, maxBytes)
    ensures Later(f, MarkTop(f), None)
  {
    var f' := MarkTop(f);
    assert f.stack[|f.stack| - 1].stage != Ended(true);
    assert OnStack(f, Top(f).note.seqNo);
    MarkLaw(f.index, Top(f).note.seqNo);
    SameBytes(f.stack, f'.stack);
    MarkOnStack(f);
    forall i | 0 <= i < |f.stack| ensures f'.stack[i].note == f.stack[i].note {
    }
    forall n: nat | Begun(f, n) ensures Begun(f', n) {
      forall i | 0 <= i < |f'.stack| && f'.stack[i].note.seqNo == n ensures !f'.stack[i].stage.Walking? {
        assert f.stack[i].note.seqNo == n;
      }
    }
  }

  lemma PopOnStack(f: Feed)
    requires f.stack != [] && Top(f).stage == Ended(true) && f.bytes >= Top(f).note.size
    ensures forall n: nat :: OnStack(Pop(f), n) <==> OnStack(f, n)
  {
    var f' := Pop(f);
    forall n: nat ensures OnStack(f', n) <==> OnStack(f, n) {
      if OnStack(f, n) {
        var i :| 0 <= i < |f.stack| && f.stack[i].note.seqNo == n && f.stack[i].stage != Ended(true);
        assert f'.stack[i] == f.stack[i];
      }
      if OnStack(f', n) {
        var i :| 0 <= i < |f'.stack| && f'.stack[i].note.seqNo == n && f'.stack[i].stage != Ended(true);
        assert f'.stack[i] == f.stack[i];
      }
    }
  }

  lemma PopKeeps(f: Feed, maxQueue: nat, maxBytes: nat)
    requires FeedOk(f, maxQueue, maxBytes) && f.stack != [] && Top(f).stage == Ended(true)
    ensures f.bytes >= Top(f).note.size
    ensures FeedOk(Pop(f), maxQueue, maxBytes)
    ensures Later(f, Pop(f), None)
  {
    PopOnStack(f);
    assert Pop(f).stack != [] ==> Top(Pop(f)) == f.stack[|f.stack| - 2];
    forall n: nat | Begun(f, n) ensures Begun(Pop(f), n) {
    }
  }

  /** What a waiter that drains from frame s needs next is at the head of the queue: while its
      frame is on top, every number beyond s that was ever taken off the queue is finished. */
  lemma NextIsHead(f: Feed, next: nat, maxQueue: nat, maxBytes: nat)
    requires FeedOk(f, maxQueue, maxBytes) && f.stack != []
    requires Top(f).note.seqNo < next <= f.lastEnqueued && !Complete(f.index, next)
    requires forall n: nat | Top(f).note.seqNo < n < next :: Complete(f.index, n)
    ensures f.queue != [] && f.queue[0].seqNo == next
  {
    assert next <= Started(f) ==> OnStack(f, next);
    var p := next - 1;
    assert Top(f).note.seqNo < p ==> Complete(f.index, p);
  }
}
