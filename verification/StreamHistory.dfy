/** What the gate and the notification index say about the run: which deliveries are finished, how
    many notifications were accepted before a response, which of them are over, and that a handler
    has run for each of them. */
module StreamHistory {
  import opened Results
  import opened Ids
  import opened Requests
  import opened Machine
  import opened Invariant
  import opened Runs
  import opened History
  import DeliveryLaws
  import Feed
  import Flags
  import Gate

  // ------------------------------------------------- finished deliveries

  /** The response of r was chained, and its delivery is finished. */
  predicate DeliveryDone(c: Conn, r: ReqId) {
    r in c.reqs && 0 <= c.reqs[r].node < |c.gate.nodes| && c.gate.nodes[c.reqs[r].node].done
  }

  /** release, or shutdown, closes the delivery of r. */
  predicate ClosesDelivery(c: Conn, a: Action, r: ReqId) {
    && r in c.reqs && c.reqs[r].gated
    && (a == Delivery(r, Machine.ReleaseClose) || a == Delivery(r, Machine.ShutdownClose))
  }

  /** The gate after the action has the same history, up to one delivery that is finished, or one
      that is added. */
  lemma DeliveryPosition(q: Req, d: DeliveryStep)
    ensures AfterDelivery(q, d).node == q.node
  {
    match d
    case ReleaseDiscard => assert AfterDelivery(q, d) == Requests.ReleaseDiscard(q);
    case ReleaseClose => assert AfterDelivery(q, d) == Requests.ReleaseClose(q);
    case ShutdownDiscard => assert AfterDelivery(q, d) == Requests.ShutdownDiscard(q);
    case ShutdownClose => assert AfterDelivery(q, d) == Requests.ShutdownClose(q);
  }

  lemma ClosingStep(c: Conn, t: ReqId, d: DeliveryStep, r: ReqId)
    requires GateLinked(c) && ReqsOk(c) && t in c.reqs && CanDeliver(c.reqs[t], d)
    ensures DeliveryDone(DoDeliver(c, t, d), r) <==> DeliveryDone(c, r) || ClosesDelivery(c, Delivery(t, d), r)
  {
    DeliveryKeys(c, t, d);
    if r in c.reqs {
      DeliveryAfter(c, t, d, r);
      assert ReqOk(c.reqs[t], c.cancelled) && LinkOk(c, r) && LinkOk(c, t);
      DeliveryGate(c, t, d);
      DeliveryPosition(c.reqs[r], d);
      SamePositions(c, DoDeliver(c, t, d), t, d, r);
    }
  }

  lemma SamePositions(c: Conn, c': Conn, t: ReqId, d: DeliveryStep, r: ReqId)
    requires t in c.reqs && r in c.reqs && r in c'.reqs && c'.reqs[r].node == c.reqs[r].node
    requires LinkOk(c, r) && LinkOk(c, t) && ReqOk(c.reqs[t], c.cancelled) && CanDeliver(c.reqs[t], d)
    requires |c'.gate.nodes| == |c.gate.nodes|
    requires forall p | 0 <= p < |c.gate.nodes| ::
               c'.gate.nodes[p].done == (c.gate.nodes[p].done || ((d.ReleaseClose? || d.ShutdownClose?) && p == c.reqs[t].node))
    ensures DeliveryDone(c', r) <==> DeliveryDone(c, r) || ClosesDelivery(c, Delivery(t, d), r)
  {
    if d.ReleaseClose? || d.ShutdownClose? { CloserIsChained(c.reqs[t], d, c.cancelled); }
  }

  lemma DeliveryGate(c: Conn, t: ReqId, d: DeliveryStep)
    requires t in c.reqs
    ensures var nodes := DoDeliver(c, t, d).gate.nodes;
            && |nodes| == |c.gate.nodes|
            && (forall p | 0 <= p < |nodes| ::
                  nodes[p].done == (c.gate.nodes[p].done || ((d.ReleaseClose? || d.ShutdownClose?) && p == c.reqs[t].node)))
  {
  }

  /** Whoever closes a delivery has seen the response of its request completed. */
  lemma CloserIsChained(q: Req, d: DeliveryStep, cancelled: bool)
    requires ReqOk(q, cancelled) && CanDeliver(q, d) && (d.ReleaseClose? || d.ShutdownClose?)
    ensures q.outcome.Answer? && (q.node >= 0 <==> q.gated)
  {
  }

  lemma ReadingStep(c: Conn, x: ReaderStep, r: ReqId)
    requires GateLinked(c) && ReaderOk(c) && CanRead(c, x)
    ensures DeliveryDone(DoRead(c, x), r) <==> DeliveryDone(c, r)
  {
    ReadKeys(c, x);
    if r in c.reqs {
      ReadAfter(c, x, r);
      assert LinkOk(c, r);
    }
  }

  lemma NodesKept(c: Conn, a: Action)
    requires Enabled(c, a) && !a.Delivery? && !a.Read?
    ensures Do(c, a).gate.nodes == c.gate.nodes
  {
  }

  lemma SectionKeepsPosition(q: Req, s: Step, cancelled: bool)
    requires ReqOk(q, cancelled) && CanStep(q, s, cancelled)
    ensures DoStep(q, s, cancelled).node == q.node
  {
    StepKeeps(q, s, cancelled);
  }

  lemma WaitKeepsPosition(c: Conn, w: WaitId, x: Waiter, q: Req, s: WaitStep)
    requires CanWait(c, x, q, s)
    ensures NextReq(c, w, x, q, s).node == q.node
  {
    match s
    case ReadyCheck =>
      assert FinishReady(q).node == q.node;
    case TakeOutcome =>
      assert FinishBroken(q).node == q.node;
    case Resolve =>
      assert Requests.ResolveStart(q, w).node == q.node;
    case Settle =>
      assert NextReq(c, w, x, q, s) == Requests.Settle(q, x.pc.pair, x.pc.retry);
    case _ =>
  }

  lemma PositionKept(c: Conn, a: Action, r: ReqId)
    requires Enabled(c, a) && !a.Delivery? && !a.Read? && r in c.reqs && ReqOk(c.reqs[r], c.cancelled)
    ensures After(c, a, r).node == c.reqs[r].node
  {
    if a.Request? {
      if a.r == r { SectionKeepsPosition(c.reqs[r], a.step, c.cancelled); }
    } else if a.Wait? {
      WaitKeepsPosition(c, a.w, c.waits[a.w], ReqOf(c, a.w), a.wait);
    }
  }

  lemma OtherStep(c: Conn, a: Action, r: ReqId)
    requires ReqsOk(c) && c.nextId + 1 !in c.reqs && Enabled(c, a) && !a.Delivery? && !a.Read?
    ensures DeliveryDone(Do(c, a), r) <==> DeliveryDone(c, r)
  {
    KeysAfter(c, a);
    NodesKept(c, a);
    if r in c.reqs {
      IsAfter(c, a, r);
      assert ReqOk(c.reqs[r], c.cancelled);
      PositionKept(c, a, r);
    }
  }

  lemma DeliveryDoneAfter(c: Conn, a: Action, r: ReqId)
    requires ReqsOk(c) && GateLinked(c) && ReaderOk(c) && Enabled(c, a)
    ensures DeliveryDone(Do(c, a), r) <==> DeliveryDone(c, r) || ClosesDelivery(c, a, r)
  {
    if a.Delivery? {
      ClosingStep(c, a.r, a.delivery, r);
    } else if a.Read? {
      ReadingStep(c, a.read, r);
    } else {
      NextIdFree(c);
      OtherStep(c, a, r);
    }
  }

  lemma DeliveryDoneInRun(states: seq<Conn>, acts: seq<Action>, k: nat, r: ReqId)
    requires IsRun(states, acts) && k < |acts|
    ensures DeliveryDone(states[k + 1], r) <==> DeliveryDone(states[k], r) || ClosesDelivery(states[k], acts[k], r)
  {
    RunInv(states, acts, k);
    DeliveryDoneAfter(states[k], acts[k], r);
  }

  /** In every run the delivery of a gated response is finished exactly from the moment on at which
      the request's release, or shutdown, has closed it. */
  lemma DeliveryDoneExactly(states: seq<Conn>, acts: seq<Action>, i: nat, r: ReqId)
    requires IsRun(states, acts) && i < |states|
    ensures DeliveryDone(states[i], r) <==> exists k :: 0 <= k < i && ClosesDelivery(states[k], acts[k], r)
  {
    var flags := seq(|states|, k requires 0 <= k < |states| => DeliveryDone(states[k], r));
    var events := seq(|acts|, k requires 0 <= k < |acts| => ClosesDelivery(states[k], acts[k], r));
    forall k | 0 <= k < |acts| ensures flags[k + 1] <==> flags[k] || events[k] {
      DeliveryDoneInRun(states, acts, k, r);
    }
    Flags.UpAfter(flags, events, i);
    forall k | 0 <= k < i ensures events[k] == ClosesDelivery(states[k], acts[k], r) {
    }
  }

  // ------------------------------------------------- accepted notifications

  /** How many notifications the first actions have accepted. */
  function NoteAccepts(acts: seq<Action>): nat {
    if acts == [] then 0
    else NoteAccepts(acts[..|acts| - 1]) + (if acts[|acts| - 1] == Read(NoteAccept) then 1 else 0)
  }

  lemma WorkAcceptsNone(c: Conn, x: WorkStep)
    requires CanWork(c, x)
    ensures DoWork(c, x).lastEnqueued == c.feed.lastEnqueued
  {
  }

  lemma AcceptMoves(c: Conn, a: Action)
    requires Enabled(c, a)
    ensures Do(c, a).feed.lastEnqueued == c.feed.lastEnqueued + (if a == Read(NoteAccept) then 1 else 0)
  {
    match a
    case Work(x) => WorkAcceptsNone(c, x);
    case Wait(w, s) => assert NextFeed(c, w, c.waits[w], ReqOf(c, w), s).lastEnqueued == c.feed.lastEnqueued;
    case _ =>
  }

  /** The number of the last notification is the count of those accepted so far. */
  lemma {:induction false} AcceptedCount(states: seq<Conn>, acts: seq<Action>, i: nat)
    requires IsRun(states, acts) && i <= |acts|
    ensures states[i].feed.lastEnqueued == NoteAccepts(acts[..i])
    decreases i
  {
    if i > 0 {
      AcceptedCount(states, acts, i - 1);
      AcceptMoves(states[i - 1], acts[i - 1]);
      assert acts[..i][..i - 1] == acts[..i - 1];
    }
  }

  lemma AnswerStays(c: Conn, d: Conn, r: ReqId)
    requires ReqsLater(c, d) && Known(HasAnswer, c, r)
    ensures r in d.reqs && d.reqs[r].outcome == c.reqs[r].outcome
  {
    assert Later(c.reqs[r], d.reqs[r]);
  }

  lemma DeliversMark(c: Conn, r: ReqId)
    requires ReaderOk(c) && CanRead(c, DeliverResponse) && c.reader.req == r
    ensures Known(HasAnswer, DoRead(c, DeliverResponse), r)
    ensures DoRead(c, DeliverResponse).reqs[r].outcome == Answer(c.feed.lastEnqueued)
  {
  }

  /** The watermark of a response is the number of notifications accepted before it. */
  lemma WatermarkCounts(states: seq<Conn>, acts: seq<Action>, i: nat, r: ReqId) returns (k: nat)
    requires IsRun(states, acts) && i < |states| && Known(HasAnswer, states[i], r)
    ensures k < i && acts[k] == Read(DeliverResponse) && EventAt(HasAnswer, states, acts, k, r)
    ensures states[i].reqs[r].outcome == Answer(NoteAccepts(acts[..k]))
  {
    FactsExplained(states, acts, i, r, HasAnswer);
    k :| 0 <= k < i && EventAt(HasAnswer, states, acts, k, r);
    RunInv(states, acts, k);
    DeliversMark(states[k], r);
    AcceptedCount(states, acts, k);
    RunPersists(states, acts, k + 1, i);
    AnswerStays(states[k + 1], states[i], r);
  }

  // ------------------------------------------------- finished notifications

  /** The processing of notification n is marked as complete. */
  predicate MarksNote(c: Conn, a: Action, n: nat) {
    a == Work(FrameMark) && c.feed.stack != [] && Feed.Top(c.feed).note.seqNo == n
  }

  lemma MarkCompletes(f: Feed.Feed, n: nat, maxQueue: nat, maxBytes: nat)
    requires Feed.FeedOk(f, maxQueue, maxBytes) && TopIs(f, Feed.Ended(false))
    ensures Feed.Complete(Feed.MarkTop(f).index, n) <==> Feed.Complete(f.index, n) || n == Feed.Top(f).note.seqNo
  {
    var top := Feed.Top(f).note.seqNo;
    assert f.stack[|f.stack| - 1].note.seqNo == top;
    assert Feed.OnStack(f, top);
    Feed.MarkLaw(f.index, top);
  }

  lemma IndexKept(c: Conn, a: Action)
    requires Enabled(c, a) && a != Work(FrameMark)
    ensures Do(c, a).feed.index == c.feed.index
  {
    match a
    case Work(x) => assert DoWork(c, x).index == c.feed.index;
    case Wait(w, s) => assert NextFeed(c, w, c.waits[w], ReqOf(c, w), s).index == c.feed.index;
    case _ =>
  }

  lemma CompleteInRun(states: seq<Conn>, acts: seq<Action>, k: nat, n: nat)
    requires IsRun(states, acts) && k < |acts|
    ensures Feed.Complete(states[k + 1].feed.index, n)
            <==> Feed.Complete(states[k].feed.index, n) || MarksNote(states[k], acts[k], n)
  {
    RunInv(states, acts, k);
    if acts[k] == Work(FrameMark) {
      MarkCompletes(states[k].feed, n, states[k].limits.queue, states[k].limits.bytes);
    } else {
      IndexKept(states[k], acts[k]);
    }
  }

  /** In every run a notification counts as finished exactly from the moment on at which its
      processing has been marked as complete. */
  lemma FinishedExactly(states: seq<Conn>, acts: seq<Action>, i: nat, n: nat)
    requires IsRun(states, acts) && i < |states| && n >= 1
    ensures Feed.Complete(states[i].feed.index, n) <==> exists k :: 0 <= k < i && MarksNote(states[k], acts[k], n)
  {
    var flags := seq(|states|, k requires 0 <= k < |states| => Feed.Complete(states[k].feed.index, n));
    var events := seq(|acts|, k requires 0 <= k < |acts| => MarksNote(states[k], acts[k], n));
    forall k | 0 <= k < |acts| ensures flags[k + 1] <==> flags[k] || events[k] {
      CompleteInRun(states, acts, k, n);
    }
    Flags.UpAfter(flags, events, i);
    forall k | 0 <= k < i ensures events[k] == MarksNote(states[k], acts[k], n) {
    }
  }

  // ------------------------------------------------- a handler for each of them

  lemma {:induction false} NthStart(acts: seq<Action>, n: nat) returns (k: nat)
    requires 1 <= n <= DeliveryLaws.HandlerStarts(acts)
    ensures k < |acts| && acts[k] == Work(HandlerStart) && DeliveryLaws.HandlerStarts(acts[..k]) == n - 1
    decreases |acts|
  {
    var m := |acts| - 1;
    if n <= DeliveryLaws.HandlerStarts(acts[..m]) {
      k := NthStart(acts[..m], n);
      assert acts[..m][..k] == acts[..k];
    } else {
      k := m;
    }
  }

  lemma CompleteIsHandled(c: Conn, n: nat)
    requires Inv(c) && !c.cancelled && n >= 1 && Feed.Complete(c.feed.index, n)
    ensures c.feed.handled >= n
  {
    DeliveryLaws.BegunIsHandled(c.feed, None, n, c.limits.queue, c.limits.bytes);
  }

  lemma StarterHasTop(c: Conn)
    requires Enabled(c, Work(HandlerStart))
    ensures DeliveryLaws.StartsHandler(c, Work(HandlerStart), Feed.Top(c.feed).note.seqNo)
  {
  }

  /** As long as the connection lives, every notification that counts as finished has had its
      handler run: started, and returned. */
  lemma HandlersHaveRun(states: seq<Conn>, acts: seq<Action>, i: nat, n: nat) returns (k: nat, m: nat)
    requires IsRun(states, acts) && i < |states| && n >= 1
    requires !states[i].cancelled && Feed.Complete(states[i].feed.index, n)
    ensures k < m < i && DeliveryLaws.StartsHandler(states[k], acts[k], n) && DeliveryLaws.ReturnsHandler(states[m], acts[m], n)
  {
    RunInv(states, acts, i);
    CompleteIsHandled(states[i], n);
    DeliveryLaws.HandledCounts(states, acts, i);
    k := NthStart(acts[..i], n);
    assert acts[..i][..k] == acts[..k];
    StarterHasTop(states[k]);
    DeliveryLaws.HandlersInWireOrder(states, acts, k, Feed.Top(states[k].feed).note.seqNo);
    if forall j | k < j < i :: !DeliveryLaws.ReturnsHandler(states[j], acts[j], n) {
      DeliveryLaws.NeverReturned(states, acts, k, i, n);
      DeliveryLaws.InHandlerIncomplete(states[i].feed, n, states[i].limits.queue, states[i].limits.bytes);
      assert false;
    }
    m :| k < m < i && DeliveryLaws.ReturnsHandler(states[m], acts[m], n);
  }
}
