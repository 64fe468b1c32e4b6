/** Ordered delivery over whole runs: where handlers, observers and hooks stand in the order in
    which the peer's messages arrived. */
module DeliveryLaws {
  import opened Results
  import opened Ids
  import opened Requests
  import opened Machine
  import opened Invariant
  import opened Runs
  import Feed
  import Gate

  /** The action starts the observer or the typed hook of request r. */
  predicate StartsResolution(c: Conn, a: Action, r: ReqId) {
    a.Wait? && (a.wait == ObserverStart || a.wait == HookStart) && a.w in c.waits && c.waits[a.w].req == r
  }

  /** The action starts the handler of notification n. */
  predicate StartsHandler(c: Conn, a: Action, n: nat) {
    a == Work(HandlerStart) && c.feed.stack != [] && Feed.Top(c.feed).note.seqNo == n
  }

  /** The action is the return of notification n's handler. */
  predicate ReturnsHandler(c: Conn, a: Action, n: nat) {
    && a.Work? && a.work.HandlerReturn? && a.work.depth < |c.feed.stack|
    && c.feed.stack[a.work.depth].note.seqNo == n
  }

  // ------------------------------------------------- later notifications wait for the response

  /** A response that was chained before notification n was accepted is done when n's handler
      may start, and the request is beyond its observer and hook for good. */
  lemma StartNeedsQuiet(c: Conn, r: ReqId)
    requires ReqsOk(c) && GateLinked(c) && NotesOk(c) && CanWork(c, HandlerStart)
    requires r in c.reqs && c.reqs[r].gated && c.reqs[r].outcome.Answer?
    requires c.reqs[r].outcome.watermark < Feed.Top(c.feed).note.seqNo
    ensures Quiet(c.reqs[r])
  {
    var n := Feed.Top(c.feed).note;
    var p := c.reqs[r].node;
    assert ReqOk(c.reqs[r], c.cancelled) && LinkOk(c, r);
    assert NoteOk(c.gate.nodes, n, -1);
    assert c.gate.nodes[p].mark < n.seqNo;
    assert NodeOk(c, p);
  }

  lemma ResolvingIsNotQuiet(q: Req, q': Req)
    requires Later(q, q') && q'.resolver.Some?
    ensures !Quiet(q)
    ensures q.outcome.Answer? ==> q'.outcome == q.outcome
  {
  }

  lemma AnsweredBeforeStart(c: Conn, q': Req, r: ReqId)
    requires Inv(c) && CanWork(c, HandlerStart)
    requires r in c.reqs && c.reqs[r].outcome.Answer? && Later(c.reqs[r], q') && q'.resolver.Some? && q'.gated
    ensures q'.outcome.Answer? && q'.outcome.watermark >= Feed.Top(c.feed).note.seqNo
  {
    ResolvingIsNotQuiet(c.reqs[r], q');
    if c.reqs[r].outcome.watermark < Feed.Top(c.feed).note.seqNo { StartNeedsQuiet(c, r); }
  }

  lemma StartResolves(c: Conn, a: Action, r: ReqId)
    requires WaitsOk(c) && StartsResolution(c, a, r) && Alive(c, a.w) && CanWait(c, c.waits[a.w], ReqOf(c, a.w), a.wait)
    ensures r in c.reqs && c.reqs[r].outcome.Answer? && c.reqs[r].resolver.Some?
  {
    ResolverAnswered(c, a.w);
  }

  /** Once the handler of notification n has started, the observer and the hook of a gated
      response received before n never start; so they had finished, or can never run. */
  lemma HandlerWaitsForResponses(states: seq<Conn>, acts: seq<Action>, i: nat, j: nat, n: nat, r: ReqId)
    requires IsRun(states, acts) && i < j < |acts|
    requires StartsHandler(states[i], acts[i], n)
    requires StartsResolution(states[j], acts[j], r)
    requires r in states[j].reqs && states[j].reqs[r].gated
    ensures states[j].reqs[r].outcome.Answer? && states[j].reqs[r].outcome.watermark >= n
  {
    RunPair(states, acts, i, j);
    StartThenStartResolution(states[i], acts[i], states[j], acts[j], n, r);
  }

  lemma StartThenStartResolution(c: Conn, a: Action, d: Conn, b: Action, n: nat, r: ReqId)
    requires Inv(c) && CanWork(c, HandlerStart) && StartsHandler(c, a, n) && Persists(c, d)
    requires WaitsOk(d) && Enabled(d, b) && StartsResolution(d, b, r)
    requires r in d.reqs && d.reqs[r].gated
    ensures d.reqs[r].outcome.Answer? && d.reqs[r].outcome.watermark >= n
  {
    StartResolves(d, b, r);
    StartThenResolve(c, d, r);
  }

  lemma StartThenResolve(c: Conn, d: Conn, r: ReqId)
    requires Inv(c) && CanWork(c, HandlerStart) && ReqsLater(c, d) && NewAnswersLate(c, d)
    requires r in d.reqs && d.reqs[r].gated && d.reqs[r].outcome.Answer? && d.reqs[r].resolver.Some?
    ensures d.reqs[r].outcome.watermark >= Feed.Top(c.feed).note.seqNo
  {
    if r in c.reqs && c.reqs[r].outcome.Answer? {
      AnsweredBeforeStart(c, d.reqs[r], r);
    } else {
      TopIsEnqueued(c);
    }
  }

  lemma ResolverAnswered(c: Conn, w: WaitId)
    requires WaitsOk(c) && Alive(c, w) && Resolver(c.waits[w].pc)
    ensures ReqOf(c, w).outcome.Answer? && ReqOf(c, w).resolver == Some(w)
  {
    assert WaitOk(w, c.waits[w], ReqOf(c, w), c.feed);
  }

  lemma TopIsEnqueued(c: Conn)
    requires Inv(c) && c.feed.stack != []
    ensures Feed.Top(c.feed).note.seqNo <= c.feed.lastEnqueued
  {
  }

  /** ... and none of them is running at that moment. */
  lemma NoResolutionWhileStarting(c: Conn, w: WaitId)
    requires Inv(c) && CanWork(c, HandlerStart) && Alive(c, w) && ReqOf(c, w).gated
    requires c.waits[w].pc == Observing || c.waits[w].pc == Hooking
    ensures ReqOf(c, w).outcome.Answer? && ReqOf(c, w).outcome.watermark >= Feed.Top(c.feed).note.seqNo
  {
    ResolverAnswered(c, w);
    if ReqOf(c, w).outcome.watermark < Feed.Top(c.feed).note.seqNo {
      StartNeedsQuiet(c, c.waits[w].req);
    }
  }

  // ------------------------------------------------- the response waits for earlier notifications

  /** The processing of n's handler has started and the handler has not returned. */
  ghost predicate InHandler(f: Feed.Feed, n: nat) {
    exists d :: 0 <= d < |f.stack| && f.stack[d].note.seqNo == n
                && f.stack[d].stage.Running? && !f.stack[d].stage.returned
  }

  lemma KeepsHandler(f: Feed.Feed, f': Feed.Feed, n: nat, k: nat)
    requires InHandler(f, n) && |f.stack| <= |f'.stack| + 1 && k <= |f.stack|
    requires k + 1 == |f.stack| ==> !f.stack[k].stage.Running? || f.stack[k].stage.returned
    requires forall d | 0 <= d < k :: d < |f'.stack| && f'.stack[d] == f.stack[d]
    requires k + 1 >= |f.stack|
    ensures InHandler(f', n)
  {
    var d :| 0 <= d < |f.stack| && f.stack[d].note.seqNo == n && f.stack[d].stage.Running? && !f.stack[d].stage.returned;
    assert d < k && f'.stack[d] == f.stack[d];
  }

  lemma RestagedHandler(f: Feed.Feed, d: nat, s: Feed.Stage, n: nat)
    requires InHandler(f, n) && d < |f.stack| && f.stack[d].stage.Running? && s.Running?
    requires s.returned == f.stack[d].stage.returned || f.stack[d].note.seqNo != n
    ensures InHandler(Feed.SetStage(f, d, s), n)
  {
    var f' := Feed.SetStage(f, d, s);
    var e :| 0 <= e < |f.stack| && f.stack[e].note.seqNo == n && f.stack[e].stage.Running? && !f.stack[e].stage.returned;
    assert f'.stack[e].note == f.stack[e].note && f'.stack[e].stage.Running? && !f'.stack[e].stage.returned;
  }

  lemma WorkKeepsHandler(c: Conn, x: WorkStep, n: nat)
    requires CanWork(c, x) && InHandler(c.feed, n) && !ReturnsHandler(c, Work(x), n)
    ensures InHandler(DoWork(c, x), n)
  {
    var f, f' := c.feed, DoWork(c, x);
    match x
    case HandlerReturn(d) => RestagedHandler(f, d, f.stack[d].stage.(returned := true), n);
    case Take => assert false;
    case _ => KeepsHandler(f, f', n, |f.stack| - 1);
  }

  lemma WaitKeepsHandler(c: Conn, w: WaitId, x: Waiter, q: Req, s: WaitStep, n: nat)
    requires CanWait(c, x, q, s) && InHandler(c.feed, n)
    ensures InHandler(NextFeed(c, w, x, q, s), n)
  {
    var f := c.feed;
    match s
    case OrderDrain(d) => RestagedHandler(f, d, f.stack[d].stage.(holder := Some(w)), n);
    case DrainTake => KeepsHandler(f, Feed.Dequeue(f), n, |f.stack|);
    case DrainViolation => RestagedHandler(f, x.pc.depth, f.stack[x.pc.depth].stage.(holder := None), n);
    case DrainEnd => RestagedHandler(f, x.pc.depth, f.stack[x.pc.depth].stage.(holder := None), n);
    case DrainFail => RestagedHandler(f, x.pc.depth, f.stack[x.pc.depth].stage.(holder := None), n);
    case _ =>
  }

  lemma StaysInHandler(c: Conn, a: Action, n: nat)
    requires Enabled(c, a) && InHandler(c.feed, n) && !ReturnsHandler(c, a, n)
    ensures InHandler(Do(c, a).feed, n)
  {
    match a
    case Work(x) => WorkKeepsHandler(c, x, n);
    case Wait(w, s) => WaitKeepsHandler(c, w, c.waits[w], ReqOf(c, w), s, n);
    case _ => assert Do(c, a).feed.stack == c.feed.stack;
  }

  lemma {:induction false} NeverReturned(states: seq<Conn>, acts: seq<Action>, i: nat, j: nat, n: nat)
    requires IsRun(states, acts) && i < j < |states| && StartsHandler(states[i], acts[i], n)
    requires forall k | i < k < j :: !ReturnsHandler(states[k], acts[k], n)
    ensures InHandler(states[j].feed, n)
    decreases j
  {
    if i + 1 == j {
      var f := states[j].feed;
      assert f.stack[|f.stack| - 1].note.seqNo == n;
    } else {
      NeverReturned(states, acts, i, j - 1, n);
      StaysInHandler(states[j - 1], acts[j - 1], n);
    }
  }

  /** A waiter is about to start the observer or the hook. */
  predicate CanResolve(c: Conn, w: WaitId) {
    Alive(c, w) && (CanWait(c, c.waits[w], ReqOf(c, w), ObserverStart) || CanWait(c, c.waits[w], ReqOf(c, w), HookStart))
  }

  lemma OrderedAt(f: Feed.Feed, frame: Option<nat>, watermark: nat, n: nat, maxQueue: nat, maxBytes: nat)
    requires Feed.FeedOk(f, maxQueue, maxBytes) && OrderMet(f, frame, watermark) && 1 <= n <= watermark
    requires frame.Some? ==> Feed.Begun(f, frame.value)
    ensures Feed.Complete(f.index, n) || (frame.Some? && n <= frame.value && Feed.OnStack(f, n))
  {
    assert Feed.Complete(f.index, n) <==> n <= Feed.Started(f) && !Feed.OnStack(f, n);
  }

  lemma ResolvableIsOrdered(c: Conn, w: WaitId)
    requires WaitsOk(c) && CanResolve(c, w)
    ensures ReqOf(c, w).outcome.Answer? && OrderMet(c.feed, c.waits[w].frame, ReqOf(c, w).outcome.watermark)
    ensures c.waits[w].frame.Some? ==> Feed.Begun(c.feed, c.waits[w].frame.value)
  {
    assert WaitOk(w, c.waits[w], ReqOf(c, w), c.feed);
  }

  /** When an observer or hook may start, every notification up to the response's watermark is
      finished or is on the call stack at or below the waiter's own frame. */
  lemma ResolutionOrdered(c: Conn, w: WaitId, n: nat)
    requires Feed.FeedOk(c.feed, c.limits.queue, c.limits.bytes) && WaitsOk(c)
    requires CanResolve(c, w)
    ensures ReqOf(c, w).outcome.Answer?
    ensures 1 <= n <= ReqOf(c, w).outcome.watermark ==>
              || Feed.Complete(c.feed.index, n)
              || (c.waits[w].frame.Some? && n <= c.waits[w].frame.value && Feed.OnStack(c.feed, n))
  {
    ResolvableIsOrdered(c, w);
    var x, q := c.waits[w], ReqOf(c, w);
    if 1 <= n <= q.outcome.watermark {
      OrderedAt(c.feed, x.frame, q.outcome.watermark, n, c.limits.queue, c.limits.bytes);
    }
  }

  lemma InHandlerIncomplete(f: Feed.Feed, n: nat, maxQueue: nat, maxBytes: nat)
    requires Feed.FeedOk(f, maxQueue, maxBytes) && InHandler(f, n)
    ensures n >= 1 && !Feed.Complete(f.index, n)
  {
    var d :| 0 <= d < |f.stack| && f.stack[d].note.seqNo == n && f.stack[d].stage.Running? && !f.stack[d].stage.returned;
    assert Feed.OnStack(f, n);
  }

  /** An observer or hook starts only after the handlers of all notifications accepted before its
      response have returned, except those on the waiter's own call stack. */
  lemma ResolutionWaitsForHandlers(states: seq<Conn>, acts: seq<Action>, i: nat, j: nat, n: nat, r: ReqId)
    requires IsRun(states, acts) && i < j < |acts|
    requires StartsHandler(states[i], acts[i], n) && StartsResolution(states[j], acts[j], r)
    requires r in states[j].reqs && states[j].reqs[r].outcome.Answer? && n <= states[j].reqs[r].outcome.watermark
    ensures || (exists k :: i < k < j && ReturnsHandler(states[k], acts[k], n))
            || (states[j].waits[acts[j].w].frame.Some? && n <= states[j].waits[acts[j].w].frame.value
                && Feed.OnStack(states[j].feed, n))
  {
    if forall k | i < k < j :: !ReturnsHandler(states[k], acts[k], n) {
      NeverReturned(states, acts, i, j, n);
      RunPair(states, acts, j, j);
      ResolvesWithinHandler(states[j], acts[j], n, r);
    }
  }

  lemma ResolvesWithinHandler(c: Conn, a: Action, n: nat, r: ReqId)
    requires Feed.FeedOk(c.feed, c.limits.queue, c.limits.bytes) && WaitsOk(c)
    requires Enabled(c, a) && StartsResolution(c, a, r) && InHandler(c.feed, n)
    requires c.reqs[r].outcome.Answer? && n <= c.reqs[r].outcome.watermark
    ensures c.waits[a.w].frame.Some? && n <= c.waits[a.w].frame.value && Feed.OnStack(c.feed, n)
  {
    InHandlerIncomplete(c.feed, n, c.limits.queue, c.limits.bytes);
    ResolutionOrdered(c, a.w, n);
  }

  /** After an observer or hook has started, no handler of a notification accepted before its
      response starts any more. */
  lemma EarlierHandlersStartedBefore(states: seq<Conn>, acts: seq<Action>, j: nat, k: nat, n: nat, r: ReqId)
    requires IsRun(states, acts) && j < k < |acts|
    requires StartsResolution(states[j], acts[j], r) && StartsHandler(states[k], acts[k], n)
    requires r in states[j].reqs && states[j].reqs[r].outcome.Answer?
    ensures n > states[j].reqs[r].outcome.watermark
  {
    RunPair(states, acts, j, k);
    StartResolutionThenStart(states[j], acts[j], states[k], acts[k], n, r);
  }

  lemma StartResolutionThenStart(c: Conn, a: Action, d: Conn, b: Action, n: nat, r: ReqId)
    requires Inv(c) && Enabled(c, a) && StartsResolution(c, a, r)
    requires r in c.reqs && c.reqs[r].outcome.Answer?
    requires Inv(d) && Enabled(d, b) && StartsHandler(d, b, n) && Persists(c, d)
    ensures n > c.reqs[r].outcome.watermark
  {
    ResolveThenStart(c, d, a.w);
  }

  lemma ResolveThenStart(c: Conn, d: Conn, w: WaitId)
    requires Feed.FeedOk(c.feed, c.limits.queue, c.limits.bytes) && WaitsOk(c) && CanResolve(c, w)
    requires ReqOf(c, w).outcome.Answer? && !c.feed.skipped
    requires Feed.HandledOk(d.feed) && Feed.StackOk(d.feed) && CanWork(d, HandlerStart) && FeedLater(c.feed, d.feed) && !d.feed.skipped
    ensures Feed.Top(d.feed).note.seqNo > ReqOf(c, w).outcome.watermark
  {
    StartIsNext(d);
    if ReqOf(c, w).outcome.watermark >= 1 { AllBegun(c, w); }
  }

  /** When a resolution starts before shutdown, the handlers of all notifications up to the
      watermark have been started. */
  lemma AllBegun(c: Conn, w: WaitId)
    requires Feed.FeedOk(c.feed, c.limits.queue, c.limits.bytes) && WaitsOk(c)
    requires CanResolve(c, w)
    requires ReqOf(c, w).outcome.Answer? && ReqOf(c, w).outcome.watermark >= 1 && !c.feed.skipped
    ensures c.feed.handled >= ReqOf(c, w).outcome.watermark
  {
    ResolutionOrdered(c, w, ReqOf(c, w).outcome.watermark);
    assert WaitOk(w, c.waits[w], ReqOf(c, w), c.feed);
    BegunIsHandled(c.feed, c.waits[w].frame, ReqOf(c, w).outcome.watermark, c.limits.queue, c.limits.bytes);
  }

  lemma BegunIsHandled(f: Feed.Feed, frame: Option<nat>, m: nat, maxQueue: nat, maxBytes: nat)
    requires Feed.FeedOk(f, maxQueue, maxBytes) && !f.skipped && m >= 1
    requires Feed.Complete(f.index, m) || (frame.Some? && m <= frame.value)
    requires frame.Some? ==> Feed.Begun(f, frame.value)
    ensures f.handled >= m
  {
    if Feed.Complete(f.index, m) {
      assert m <= Feed.Started(f) && !Feed.OnStack(f, m);
    }
    if f.stack != [] && Feed.Top(f).stage.Walking? {
      var k := |f.stack| - 1;
      assert f.stack[k].note.seqNo == Feed.Started(f) && f.stack[k].stage != Feed.Ended(true);
      assert Feed.OnStack(f, Feed.Started(f));
    }
  }

  // ------------------------------------------------- handlers run in wire order

  /** The handler that may start is that of the number after the last one started. */
  lemma StartIsNext(c: Conn)
    requires Feed.HandledOk(c.feed) && CanWork(c, HandlerStart) && !c.feed.skipped && Feed.StackOk(c.feed)
    ensures Feed.Top(c.feed).note.seqNo == c.feed.handled + 1
  {
  }

  /** How many handlers the first k actions have started. */
  function HandlerStarts(acts: seq<Action>): nat {
    if acts == [] then 0
    else HandlerStarts(acts[..|acts| - 1]) + (if acts[|acts| - 1] == Work(HandlerStart) then 1 else 0)
  }

  lemma HandledMoves(c: Conn, a: Action)
    requires Inv(c) && Enabled(c, a)
    ensures Do(c, a).feed.handled == if a == Work(HandlerStart) then c.feed.handled + 1 else c.feed.handled
  {
    if a == Work(HandlerStart) {
      StartIsNext(c);
    } else {
      OthersHandleNone(c, a);
    }
  }

  lemma OthersHandleNone(c: Conn, a: Action)
    requires Enabled(c, a) && a != Work(HandlerStart)
    ensures Do(c, a).feed.handled == c.feed.handled
  {
    match a
    case Work(x) => WorkHandlesNone(c, x);
    case Wait(w, s) => assert NextFeed(c, w, c.waits[w], ReqOf(c, w), s).handled == c.feed.handled;
    case _ =>
  }

  lemma WorkHandlesNone(c: Conn, x: WorkStep)
    requires CanWork(c, x) && !x.HandlerStart?
    ensures DoWork(c, x).handled == c.feed.handled
  {
  }

  lemma RunHandled(states: seq<Conn>, acts: seq<Action>, i: nat)
    requires IsRun(states, acts) && i < |acts|
    ensures states[i + 1].feed.handled ==
            if acts[i] == Work(HandlerStart) then states[i].feed.handled + 1 else states[i].feed.handled
  {
    RunInv(states, acts, i);
    HandledMoves(states[i], acts[i]);
  }

  lemma {:induction false} HandledCounts(states: seq<Conn>, acts: seq<Action>, i: nat)
    requires IsRun(states, acts) && i <= |acts|
    ensures states[i].feed.handled == HandlerStarts(acts[..i])
    decreases i
  {
    if i > 0 {
      HandledCounts(states, acts, i - 1);
      RunHandled(states, acts, i - 1);
      assert acts[..i][..i - 1] == acts[..i - 1];
    }
  }

  /** Handlers start in strictly consecutive wire order: the one that starts after k others is
      that of notification k + 1. */
  lemma HandlersInWireOrder(states: seq<Conn>, acts: seq<Action>, i: nat, n: nat)
    requires IsRun(states, acts) && i < |acts| && StartsHandler(states[i], acts[i], n)
    ensures n == HandlerStarts(acts[..i]) + 1
  {
    RunPair(states, acts, i, i);
    HandledCounts(states, acts, i);
    StartsNext(states[i], acts[i], n);
  }

  lemma StartsNext(c: Conn, a: Action, n: nat)
    requires Inv(c) && Enabled(c, a) && StartsHandler(c, a, n)
    ensures n == c.feed.handled + 1
  {
    StartIsNext(c);
  }

  /** The queue is the interval of the numbers not yet taken, and the frames in progress are
      strictly increasing. */
  lemma QueueAndStack(f: Feed.Feed, maxQueue: nat, maxBytes: nat)
    requires Feed.FeedOk(f, maxQueue, maxBytes)
    ensures forall i | 0 <= i < |f.queue| :: f.queue[i].seqNo == Feed.Started(f) + 1 + i
    ensures f.queue != [] ==> f.queue[|f.queue| - 1].seqNo == f.lastEnqueued
    ensures forall i, j | 0 <= i < j < |f.stack| :: f.stack[i].note.seqNo < f.stack[j].note.seqNo
  {
    if f.queue != [] {
      assert f.queue[|f.queue| - 1].seqNo == Feed.Started(f) + |f.queue|;
    }
  }

  /** A notification is taken off the queue only by a waiter called from the frame on top, or by
      the worker while no frame is in progress: never by two of them. */
  lemma OnlyTopTakes(c: Conn, w: WaitId)
    requires WaitsOk(c) && Enabled(c, Wait(w, DrainTake))
    ensures c.feed.stack != [] && c.waits[w].frame == Some(Feed.Top(c.feed).note.seqNo)
    ensures !Enabled(c, Work(Take))
    ensures forall v | v != w :: !Enabled(c, Wait(v, DrainTake))
  {
    assert WaitOk(w, c.waits[w], ReqOf(c, w), c.feed);
    forall v | Enabled(c, Wait(v, DrainTake)) ensures v == w {
      assert WaitOk(v, c.waits[v], ReqOf(c, v), c.feed);
    }
  }

  /** For frames of this connection a re-entrant receive never finds the queue empty and never
      finds another number than the one it needs. */
  lemma DrainFindsNext(c: Conn, w: WaitId)
    requires Feed.FeedOk(c.feed, c.limits.queue, c.limits.bytes) && WaitsOk(c) && GateLinked(c)
    requires Alive(c, w) && ReqOf(c, w).outcome.Answer?
    requires NeedsNext(c.feed, c.waits[w], ReqOf(c, w).outcome.watermark)
    ensures c.feed.queue != [] && c.feed.queue[0].seqNo == c.waits[w].pc.next
    ensures !Enabled(c, Wait(w, DrainViolation))
  {
    assert WaitOk(w, c.waits[w], ReqOf(c, w), c.feed);
    assert LinkOk(c, c.waits[w].req);
    Feed.NextIsHead(c.feed, c.waits[w].pc.next, c.limits.queue, c.limits.bytes);
  }

  lemma ViolationNeedsAnswer(c: Conn, w: WaitId)
    requires WaitsOk(c) && Enabled(c, Wait(w, DrainViolation))
    ensures ReqOf(c, w).outcome.Answer? && NeedsNext(c.feed, c.waits[w], ReqOf(c, w).outcome.watermark)
  {
    assert WaitOk(w, c.waits[w], ReqOf(c, w), c.feed);
  }

  lemma SequenceInvariantNeverViolated(states: seq<Conn>, acts: seq<Action>, i: nat)
    requires IsRun(states, acts) && i < |acts|
    ensures !(acts[i].Wait? && acts[i].wait == DrainViolation)
  {
    RunInv(states, acts, i);
    if acts[i].Wait? && acts[i].wait == DrainViolation {
      ViolationNeedsAnswer(states[i], acts[i].w);
      DrainFindsNext(states[i], acts[i].w);
    }
  }

  // ------------------------------------------------- budgets, slots, the table

  /** The gated requests whose delivery has neither been discarded nor pruned. */
  ghost function Tokens(c: Conn): set<ReqId> {
    set r | r in c.reqs && c.reqs[r].gated && !c.reqs[r].discarded
            && (c.reqs[r].node < 0 || c.reqs[r].node in c.gate.chain)
  }

  ghost function ChainReqs(g: Gate.Gate, k: nat): set<ReqId>
    requires k <= |g.chain| && forall i | 0 <= i < |g.chain| :: g.chain[i] < |g.nodes|
  {
    set i | 0 <= i < k :: g.nodes[g.chain[i]].req
  }

  lemma ChainReqsStep(c: Conn, k: nat)
    requires GateLinked(c) && k < |c.gate.chain|
    ensures c.gate.nodes[c.gate.chain[k]].req !in ChainReqs(c.gate, k)
  {
    forall i | 0 <= i < k ensures c.gate.nodes[c.gate.chain[i]].req != c.gate.nodes[c.gate.chain[k]].req {
      Gate.ChainAscends(c.gate, i, k);
      assert NodeOk(c, c.gate.chain[i]) && NodeOk(c, c.gate.chain[k]);
    }
  }

  lemma ChainReqsGrow(g: Gate.Gate, k: nat)
    requires k < |g.chain| && forall i | 0 <= i < |g.chain| :: g.chain[i] < |g.nodes|
    ensures ChainReqs(g, k + 1) == ChainReqs(g, k) + {g.nodes[g.chain[k]].req}
  {
  }

  lemma {:induction false} ChainReqsCount(c: Conn, k: nat)
    requires GateLinked(c) && k <= |c.gate.chain|
    ensures |ChainReqs(c.gate, k)| == k
    decreases k
  {
    if k > 0 {
      ChainReqsCount(c, k - 1);
      ChainReqsStep(c, k - 1);
      ChainReqsGrow(c.gate, k - 1);
    }
  }

  lemma ChainReqsAt(c: Conn, r: ReqId)
    requires GateLinked(c) && r in c.reqs
    ensures r in ChainReqs(c.gate, |c.gate.chain|) <==> c.reqs[r].node in c.gate.chain
  {
    assert LinkOk(c, r);
    if r in ChainReqs(c.gate, |c.gate.chain|) {
      var i :| 0 <= i < |c.gate.chain| && c.gate.nodes[c.gate.chain[i]].req == r;
      assert NodeOk(c, c.gate.chain[i]);
    }
    if c.reqs[r].node in c.gate.chain {
      var i :| 0 <= i < |c.gate.chain| && c.gate.chain[i] == c.reqs[r].node;
      assert c.gate.nodes[c.gate.chain[i]].req == r;
    }
  }

  lemma ChainReqsKnown(c: Conn, r: ReqId)
    requires GateLinked(c) && r in ChainReqs(c.gate, |c.gate.chain|)
    ensures r in c.reqs
  {
    var i :| 0 <= i < |c.gate.chain| && c.gate.nodes[c.gate.chain[i]].req == r;
    assert NodeOk(c, c.gate.chain[i]);
  }

  lemma TokenIs(c: Conn, r: ReqId)
    requires GateLinked(c) && r in c.reqs && PendingOk(c.reqs[r], c.cancelled)
    ensures r in Tokens(c) <==> r in c.gate.held || c.reqs[r].node in c.gate.chain
    ensures r in c.gate.held ==> c.reqs[r].node !in c.gate.chain
  {
    assert LinkOk(c, r);
  }

  lemma TokenSet(c: Conn, r: ReqId)
    requires GateLinked(c) && ReqsOk(c)
    ensures r in Tokens(c) <==> r in c.gate.held || r in ChainReqs(c.gate, |c.gate.chain|)
    ensures !(r in c.gate.held && r in ChainReqs(c.gate, |c.gate.chain|))
  {
    if r in ChainReqs(c.gate, |c.gate.chain|) { ChainReqsKnown(c, r); }
    if r in c.reqs {
      assert ReqOk(c.reqs[r], c.cancelled);
      ChainReqsAt(c, r);
      TokenIs(c, r);
    }
  }

  lemma UnionSize(u: set<ReqId>, s: set<ReqId>, t: set<ReqId>)
    requires forall r :: r in u <==> r in s || r in t
    requires s !! t
    ensures |u| == |s| + |t|
  {
    assert u == s + t;
  }

  /** Slot conservation: the tokens taken are exactly the gated deliveries neither discarded nor
      pruned, and never more than the limit. */
  lemma SlotsConserved(c: Conn)
    requires GateLinked(c) && ReqsOk(c)
    ensures c.gate.slots == |Tokens(c)| <= c.limits.pending
  {
    var chained := ChainReqs(c.gate, |c.gate.chain|);
    ChainReqsCount(c, |c.gate.chain|);
    forall r ensures (r in Tokens(c) <==> r in c.gate.held || r in chained) && !(r in c.gate.held && r in chained) {
      TokenSet(c, r);
    }
    UnionSize(Tokens(c), c.gate.held, chained);
  }

  lemma TokenStillHeld(c: Conn, r: ReqId)
    requires GateLinked(c) && r in c.reqs && c.reqs[r].gated && c.reqs[r].node < 0 && !c.reqs[r].discarded
    ensures r in c.gate.held && c.gate.slots > 0
  {
    assert LinkOk(c, r);
    Gate.DropKeeps(c.gate, r, c.limits.pending);
  }

  lemma DiscardedNeverChained(c: Conn, r: ReqId)
    requires r in c.reqs && PendingOk(c.reqs[r], c.cancelled) && c.reqs[r].discarded
    ensures c.reqs[r].node < 0 && !CanRead(c, MatchResponse(r))
  {
  }

  /** Neither receive from the slot channel can block: a delivery that is about to be discarded
      still has its token, and so has every delivery on the chain. A discarded delivery was never
      chained and its response is never accepted, so its token cannot come back by pruning too. */
  lemma SlotReceivesNeverBlock(c: Conn, r: ReqId, d: DeliveryStep)
    requires ReqsOk(c) && GateLinked(c) && r in c.reqs && c.reqs[r].gated && CanDeliver(c.reqs[r], d)
    ensures d.ReleaseDiscard? || d.ShutdownDiscard? ==>
              c.reqs[r].discarded || (r in c.gate.held && c.gate.slots > 0)
    ensures c.gate.chain != [] ==> c.gate.slots > 0
    ensures c.reqs[r].discarded ==> c.reqs[r].node < 0 && !CanRead(c, MatchResponse(r))
  {
    assert ReqOk(c.reqs[r], c.cancelled);
    if c.reqs[r].discarded {
      DiscardedNeverChained(c, r);
    } else if d.ReleaseDiscard? || d.ShutdownDiscard? {
      DiscardsUnchained(c.reqs[r], d, c.cancelled);
      TokenStillHeld(c, r);
    }
  }

  lemma DiscardsUnchained(q: Req, d: DeliveryStep, cancelled: bool)
    requires PendingOk(q, cancelled) && ReleaseOk(q) && CanDeliver(q, d) && (d.ReleaseDiscard? || d.ShutdownDiscard?)
    ensures q.node < 0
  {
  }

  /** Every gated response ever received is done or still on the chain, in arrival order. */
  lemma ChainRefinesHistory(c: Conn, r: ReqId)
    requires Inv(c) && r in c.reqs && c.reqs[r].node >= 0
    ensures c.reqs[r].node < |c.gate.nodes|
    ensures c.gate.nodes[c.reqs[r].node].done || c.reqs[r].node in c.gate.chain
    ensures forall i, j | 0 <= i < j < |c.gate.chain| :: c.gate.chain[i] < c.gate.chain[j]
  {
    assert LinkOk(c, r);
    Gate.HistoryOnChain(c.gate, c.reqs[r].node);
  }

  /** The pending table is bounded, and empty for good once shutdown has begun. */
  lemma TableBounded(c: Conn)
    requires Inv(c)
    ensures |Table(c)| <= c.limits.pending
    ensures c.cancelled ==> Table(c) == {}
  {
    forall r | r in c.reqs ensures c.cancelled ==> !c.reqs[r].inTable {
      assert ReqOk(c.reqs[r], c.cancelled);
    }
  }

  /** The action completes the pending entry of r. */
  predicate Completes(c: Conn, a: Action, r: ReqId) {
    || a == Request(r, ReleaseCompleteStep) || a == Request(r, ShutdownCompleteStep)
    || (a == Read(DeliverResponse) && c.reader.Marked? && c.reader.req == r)
  }

  /** A pending entry is completed at most once, and with its response if it was marked
      responded; nothing else ever changes how it was completed. */
  lemma CompletedOnce(states: seq<Conn>, acts: seq<Action>, i: nat, r: ReqId)
    requires IsRun(states, acts) && i < |acts| && Completes(states[i], acts[i], r)
    ensures r in states[i].reqs && states[i].reqs[r].outcome.Waiting?
    ensures !states[i + 1].reqs[r].outcome.Waiting?
    ensures states[i].reqs[r].responded <==> states[i + 1].reqs[r].outcome.Answer?
    ensures forall j | i < j < |acts| :: !Completes(states[j], acts[j], r)
  {
    RunInv(states, acts, i);
    CompletesWaiting(states[i], acts[i], r);
    forall j | i < j < |acts| ensures !Completes(states[j], acts[j], r) {
      if Completes(states[j], acts[j], r) {
        RunInv(states, acts, j);
        RunPersists(states, acts, i + 1, j);
        CompletesWaiting(states[j], acts[j], r);
      }
    }
  }

  lemma CompletesWaiting(c: Conn, a: Action, r: ReqId)
    requires ReqsOk(c) && GateLinked(c) && Enabled(c, a) && Completes(c, a, r)
    ensures r in c.reqs && c.reqs[r].outcome.Waiting?
    ensures r in Do(c, a).reqs && !Do(c, a).reqs[r].outcome.Waiting?
    ensures c.reqs[r].responded <==> Do(c, a).reqs[r].outcome.Answer?
  {
    assert ReqOk(c.reqs[r], c.cancelled) && LinkOk(c, r);
    if a.Read? {
      DeliverCompletes(c, r);
    } else {
      StepCompletes(c.reqs[r], a.step, c.cancelled);
    }
  }

  lemma DeliverCompletes(c: Conn, r: ReqId)
    requires r in c.reqs && LinkOk(c, r) && CanRead(c, DeliverResponse) && c.reader.req == r
    ensures c.reqs[r].outcome.Waiting? && c.reqs[r].responded
    ensures r in DoRead(c, DeliverResponse).reqs && DoRead(c, DeliverResponse).reqs[r].outcome.Answer?
  {
  }

  lemma StepCompletes(q: Req, s: Step, cancelled: bool)
    requires PendingOk(q, cancelled) && ReleaseOk(q) && CanStep(q, s, cancelled)
    requires s == ReleaseCompleteStep || s == ShutdownCompleteStep
    ensures q.outcome.Waiting? && !q.responded && DoStep(q, s, cancelled).outcome.Broken?
  {
  }

  /** A registered entry that has left the table is completed, or someone is under way to
      completing it: the reader with its response, a release, or shutdown. */
  lemma NoneForgotten(c: Conn, r: ReqId)
    requires Inv(c) && r in c.reqs && !c.reqs[r].inTable && c.reqs[r].outcome.Waiting?
    ensures Reads(c.reader, r) || Completing(c.reqs[r])
  {
    assert ReqOk(c.reqs[r], c.cancelled) && LinkOk(c, r);
  }
}
