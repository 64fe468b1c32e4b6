/** One connection as a state machine: the reader, the notification worker and its re-entrant
    drains, the writer, and any number of calls of Dispatch, Wait, Abandon and Close. Every
    action is one critical section or one channel operation; whatever the environment decides
    (scheduling, cancellation of a caller's context, results of handlers, hooks and writes) is an
    argument of the action. */
module Machine {
  import opened Results
  import opened Ids
  import opened Requests
  import Feed
  import Gate

  datatype Limits = Limits(pending: nat, queue: nat, bytes: nat)

  /** The goroutine that reads frames: between frames; in enqueueNotification behind the barrier
      section; in handleResponse behind each of its sections; or gone. */
  datatype Reader =
    | Reading
    | AtBarrier(size: nat, barrier: int)
    | Matched(req: ReqId)
    | Chained(req: ReqId)
    | Marked(req: ReqId, watermark: nat)
    | Stopped

  /** What a Wait returns: the pair of a resolved request, or an error with its classification
      (None stands for a nil error). */
  datatype WaitResult = Got(pair: Pair) | Refused(verdict: Option<Submission>)

  datatype WaitPc =
    | Entering | SawReady | SawDispatching | AtResponse
    | Resolving | OnAttempt(attempt: nat)
    | Ordering | Draining(next: nat, depth: nat) | Polling
    | Cleared | Observing | Checked | Hooking
    | Settling(pair: Pair, retry: bool)
    | Freeing(pair: Pair) | Leaving(pair: Pair)
    | Gone(result: WaitResult)

  /** One call of Wait; frame is the notification whose handler's context it was called with. */
  datatype Waiter = Waiter(req: ReqId, cancelled: bool, frame: Option<nat>, pc: WaitPc)

  datatype Conn = Conn(
    limits: Limits,
    cancelled: bool,
    feed: Feed.Feed,
    gate: Gate.Gate,
    reqs: map<ReqId, Req>,
    waits: map<WaitId, Waiter>,
    reader: Reader,
    nextId: nat)

  function Initial(limits: Limits): Conn {
    Conn(limits, false, Feed.EMPTY_FEED, Gate.EMPTY_GATE, map[], map[], Reading, 0)
  }

  /** Connection.pending. */
  function Table(c: Conn): set<ReqId> {
    set r | r in c.reqs && c.reqs[r].inTable
  }

  /** The parts of release and shutdown that touch a request's delivery. */
  datatype DeliveryStep = ReleaseDiscard | ReleaseClose | ShutdownDiscard | ShutdownClose

  datatype ReaderStep =
    | NoteBegin(size: nat) | NoteAccept | NoteReject
    | MatchResponse(r: ReqId) | ChainResponse | ReadWatermark | DeliverResponse

  datatype WorkStep =
    | Take | Walk | Skip | HandlerStart | HandlerReturn(depth: nat) | FrameEnd | FrameMark | FramePop

  datatype WaitStep =
    | Cancel | ReadPhase | ReadyCheck | DispatchSeen | GiveUp | TakeOutcome
    | Resolve | AttemptOver
    | OrderPoll | OrderDrain(depth: nat)
    | DrainSkip | DrainTake | DrainViolation | DrainEnd | DrainFail
    | PollEnd | PollFail
    | ObserverStart | ObserverSkip | ObserverEnd(ok: bool)
    | Decode(pair: Pair) | HookStart | HookEnd(ok: bool)
    | Settle | CallRelease | Leave

  datatype Action =
    | Prepare(gated: bool, hook: bool)
    | Request(r: ReqId, step: Requests.Step)
    | Delivery(r: ReqId, delivery: DeliveryStep)
    | Sweep
    | Shutdown
    | Read(read: ReaderStep)
    | Work(work: WorkStep)
    | WaitStart(w: WaitId, r: ReqId, frame: Option<nat>)
    | Wait(w: WaitId, wait: WaitStep)

  // ------------------------------------------------- helpers

  function SetReq(c: Conn, r: ReqId, q: Req): Conn {
    c.(reqs := c.reqs[r := q])
  }

  /** A section under deliveryMu starts by pruning. */
  function Pruned(g: Gate.Gate): Gate.Gate {
    if |g.chain| <= g.slots && forall i | 0 <= i < |g.chain| :: g.chain[i] < |g.nodes| then Gate.Prune(g) else g
  }

  /** discardResponseDelivery; the once-guard makes a second call void. */
  function Dropped(g: Gate.Gate, r: ReqId): Gate.Gate {
    if r in g.held && g.slots > 0 then Gate.Drop(g, r) else g
  }

  function Closed(g: Gate.Gate, p: int): Gate.Gate {
    if 0 <= p < |g.nodes| then Gate.Close(g, p) else g
  }

  predicate TopIs(f: Feed.Feed, s: Feed.Stage) {
    f.stack != [] && Feed.Top(f).stage == s
  }

  predicate TopWalking(f: Feed.Feed) {
    f.stack != [] && Feed.Top(f).stage.Walking?
  }

  /** The frame n is still active: its handler's processing has not passed `active = false`. */
  predicate Active(f: Feed.Feed, n: nat) {
    exists i :: 0 <= i < |f.stack| && f.stack[i].note.seqNo == n && f.stack[i].stage.Running?
  }

  predicate Alive(c: Conn, w: WaitId) {
    w in c.waits && c.waits[w].req in c.reqs
  }

  /** The request a waiter waits for. */
  function ReqOf(c: Conn, w: WaitId): Req
    requires Alive(c, w)
  {
    c.reqs[c.waits[w].req]
  }

  function Unlock(f: Feed.Feed, depth: nat): Feed.Feed
    requires depth < |f.stack| && f.stack[depth].stage.Running?
  {
    Feed.SetStage(f, depth, f.stack[depth].stage.(holder := None))
  }

  // ------------------------------------------------- release, shutdown, registration

  predicate CanDeliver(q: Req, d: DeliveryStep) {
    match d
    case ReleaseDiscard => q.release == Taken || q.release == Unanswered
    case ReleaseClose => q.release == Answered && !q.outcome.Waiting?
    case ShutdownDiscard => q.shutdown == Failed
    case ShutdownClose => q.shutdown == Swept && q.responded && !q.outcome.Waiting?
  }

  function DoDeliver(c: Conn, r: ReqId, d: DeliveryStep): Conn
    requires r in c.reqs
  {
    var q := c.reqs[r];
    match d
    case ReleaseDiscard => SetReq(c, r, Requests.ReleaseDiscard(q)).(gate := Dropped(c.gate, r))
    case ReleaseClose => SetReq(c, r, Requests.ReleaseClose(q)).(gate := Closed(c.gate, q.node))
    case ShutdownDiscard => SetReq(c, r, Requests.ShutdownDiscard(q)).(gate := Dropped(c.gate, r))
    case ShutdownClose => SetReq(c, r, Requests.ShutdownClose(q)).(gate := Closed(c.gate, q.node))
  }

  /** addPending's section under Connection.mu succeeds. */
  predicate CanPrepare(c: Conn, gated: bool) {
    !c.cancelled && |Table(c)| < c.limits.pending && (gated ==> c.gate.slots < c.limits.pending)
  }

  function DoPrepare(c: Conn, gated: bool, hook: bool): Conn {
    var r := c.nextId + 1;
    c.(reqs := c.reqs[r := Fresh(gated, hook)],
       gate := if gated then Gate.Grab(c.gate, r) else c.gate,
       nextId := r)
  }

  /** shutdown's section under Connection.mu: cancel, and empty the table. */
  function DoShutdown(c: Conn): Conn {
    c.(cancelled := true, reqs := map r | r in c.reqs :: Requests.ShutdownTake(c.reqs[r]))
  }

  // ------------------------------------------------- the reader

  /** The admission test of enqueueNotification. */
  predicate Fits(c: Conn, size: nat) {
    size <= c.limits.bytes - c.feed.bytes && |c.feed.queue| < c.limits.queue
  }

  predicate CanRead(c: Conn, x: ReaderStep) {
    match x
    case NoteBegin(_) => c.reader == Reading
    case NoteAccept => c.reader.AtBarrier? && Fits(c, c.reader.size)
    case NoteReject => c.reader.AtBarrier? && !Fits(c, c.reader.size)
    case MatchResponse(r) =>
      c.reader == Reading && r in c.reqs && c.reqs[r].inTable && c.reqs[r].admitted && !c.reqs[r].responded
    case ChainResponse => c.reader.Matched? && c.reader.req in c.reqs
    case ReadWatermark => c.reader.Chained?
    case DeliverResponse => c.reader.Marked? && c.reader.req in c.reqs
  }

  function DoChain(c: Conn, r: ReqId): Conn
    requires r in c.reqs
  {
    if c.reqs[r].gated then
      var g := Pruned(c.gate);
      SetReq(c, r, Requests.Chain(c.reqs[r], |g.nodes|))
        .(gate := Gate.Push(g, r, c.feed.lastEnqueued), reader := Chained(r))
    else c.(reader := Chained(r))
  }

  function DoRead(c: Conn, x: ReaderStep): Conn
    requires CanRead(c, x)
  {
    match x
    case NoteBegin(size) =>
      var g := Pruned(c.gate);
      c.(gate := g, reader := AtBarrier(size, Gate.Last(g)))
    case NoteAccept =>
      c.(feed := Feed.Accept(c.feed, c.reader.size, c.reader.barrier, |c.gate.nodes|), reader := Reading)
    case NoteReject => c.(reader := Stopped)
    case MatchResponse(r) => SetReq(c, r, Requests.Match(c.reqs[r])).(reader := Matched(r))
    case ChainResponse => DoChain(c, c.reader.req)
    case ReadWatermark => c.(reader := Marked(c.reader.req, c.feed.lastEnqueued))
    case DeliverResponse =>
      SetReq(c, c.reader.req, Requests.Deliver(c.reqs[c.reader.req], c.reader.watermark)).(reader := Reading)
  }

  // ------------------------------------------------- processNotification

  predicate CanWork(c: Conn, x: WorkStep) {
    match x
    case Take => c.feed.stack == [] && c.feed.queue != []
    case Walk =>
      && !c.cancelled && TopWalking(c.feed)
      && 0 <= Feed.Top(c.feed).stage.cursor < |c.gate.nodes|
      && c.gate.nodes[Feed.Top(c.feed).stage.cursor].done
    case Skip => c.cancelled && TopWalking(c.feed)
    case HandlerStart => !c.cancelled && TopIs(c.feed, Feed.Walking(-1))
    case HandlerReturn(d) => d < |c.feed.stack| && c.feed.stack[d].stage.Running? && !c.feed.stack[d].stage.returned
    case FrameEnd => TopIs(c.feed, Feed.Running(true, None))
    case FrameMark => TopIs(c.feed, Feed.Ended(false))
    case FramePop => TopIs(c.feed, Feed.Ended(true)) && c.feed.bytes >= Feed.Top(c.feed).note.size
  }

  function DoWork(c: Conn, x: WorkStep): Feed.Feed
    requires CanWork(c, x)
  {
    var f := c.feed;
    match x
    case Take => Feed.Dequeue(f)
    case Walk => Feed.SetTop(f, Feed.Walking(c.gate.nodes[Feed.Top(f).stage.cursor].prev))
    case Skip => Feed.SkipTop(f)
    case HandlerStart => Feed.StartTop(f)
    case HandlerReturn(d) => Feed.SetStage(f, d, f.stack[d].stage.(returned := true))
    case FrameEnd => Feed.SetTop(f, Feed.Ended(false))
    case FrameMark => Feed.MarkTop(f)
    case FramePop => Feed.Pop(f)
  }

  // ------------------------------------------------- Wait

  /** The waiter drains, its frame is on top, and it stands before number next <= watermark. */
  predicate DrainsAt(f: Feed.Feed, x: Waiter) {
    x.pc.Draining? && x.pc.depth + 1 == |f.stack| && f.stack[x.pc.depth].stage.Running?
  }

  predicate NeedsNext(f: Feed.Feed, x: Waiter, watermark: nat) {
    DrainsAt(f, x) && x.pc.next <= watermark && !Feed.Complete(f.index, x.pc.next)
  }

  /** What a step of waiter x needs, given its request q. */
  predicate CanWait(c: Conn, x: Waiter, q: Req, s: WaitStep) {
    var f := c.feed;
    var mark := if q.outcome.Answer? then q.outcome.watermark else 0;
    match s
    case Cancel => true
    case ReadPhase => x.pc == Entering
    case ReadyCheck => x.pc == SawReady
    case DispatchSeen => x.pc == SawDispatching && DispatchDone(q)
    case GiveUp =>
      && x.cancelled
      && (x.pc == SawDispatching || x.pc.OnAttempt? || (x.pc == AtResponse && !(q.inTable && q.responded)))
    case TakeOutcome => x.pc == AtResponse && !q.outcome.Waiting?
    case Resolve => x.pc == Resolving
    case AttemptOver => x.pc.OnAttempt? && (q.resolver.None? || q.attempt != x.pc.attempt)
    case OrderPoll =>
      x.pc == Ordering && (x.frame.Some? && mark >= x.frame.value ==> !Active(f, x.frame.value))
    case OrderDrain(d) =>
      && x.pc == Ordering && d < |f.stack| && x.frame == Some(f.stack[d].note.seqNo)
      && mark >= f.stack[d].note.seqNo
      && f.stack[d].stage.Running? && f.stack[d].stage.holder == None
    case DrainSkip => DrainsAt(f, x) && x.pc.next <= mark && Feed.Complete(f.index, x.pc.next)
    case DrainTake => NeedsNext(f, x, mark) && f.queue != [] && f.queue[0].seqNo == x.pc.next
    case DrainViolation => NeedsNext(f, x, mark) && f.queue != [] && f.queue[0].seqNo != x.pc.next
    case DrainEnd => DrainsAt(f, x) && x.pc.next > mark
    case DrainFail => NeedsNext(f, x, mark) && (x.cancelled || c.cancelled)
    case PollEnd => x.pc == Polling && f.index.watermark >= mark
    case PollFail => x.pc == Polling && (x.cancelled || c.cancelled)
    case ObserverStart => x.pc == Cleared && q.observer
    case ObserverSkip => x.pc == Cleared && !q.observer
    case ObserverEnd(_) => x.pc == Observing
    case Decode(pair) =>
      x.pc == Checked && (pair == RpcFailed || pair == DecodeFailed || (pair == Delivered && !q.hook))
    case HookStart => x.pc == Checked && q.hook
    case HookEnd(_) => x.pc == Hooking
    case Settle => x.pc.Settling?
    case CallRelease => x.pc.Freeing?
    case Leave => x.pc.Leaving? && q.release == Released
  }

  /** What Wait does next, by the phase it has read. */
  function AfterRead(q: Req): WaitPc {
    match q.phase
    case Ready => SawReady
    case Dispatching => SawDispatching
    case DispatchFailed => Gone(Refused(q.dispatchErr))
    case Abandoned => Gone(Refused(Some(Classify(q))))
    case Dispatched => AtResponse
    case Finished => AtResponse
  }

  /** resolveResponse's section at the top of its loop. */
  function AfterResolve(q: Req): WaitPc {
    if q.resolved then Gone(Got(q.final))
    else if q.phase == Abandoned then Gone(Refused(Some(q.submission)))
    else if q.resolver.Some? then OnAttempt(q.attempt)
    else Ordering
  }

  /** The failure of waitNotificationsUpTo: retryable exactly when the waiter's context is done. */
  function OrderingFailed(x: Waiter): WaitPc {
    Settling(OrderFailed, x.cancelled)
  }

  /** Where the step takes the waiter. */
  function NextPc(c: Conn, x: Waiter, q: Req, s: WaitStep): WaitPc
    requires CanWait(c, x, q, s)
  {
    match s
    case Cancel => x.pc
    case ReadPhase => AfterRead(q)
    case ReadyCheck => Gone(Refused(Some(if q.outcome.Broken? then NotStarted else Pending)))
    case DispatchSeen => Entering
    case GiveUp => Gone(Refused(Some(Classify(q))))
    case TakeOutcome => if q.outcome.Broken? then Gone(Refused(Some(Classify(FinishBroken(q))))) else Resolving
    case Resolve => AfterResolve(q)
    case AttemptOver => Resolving
    case OrderPoll => Polling
    case OrderDrain(d) => Draining(c.feed.stack[d].note.seqNo + 1, d)
    case DrainSkip => Draining(x.pc.next + 1, x.pc.depth)
    case DrainTake => x.pc
    case DrainViolation => OrderingFailed(x)
    case DrainEnd => Cleared
    case DrainFail => OrderingFailed(x)
    case PollEnd => Cleared
    case PollFail => OrderingFailed(x)
    case ObserverStart => Observing
    case ObserverSkip => Checked
    case ObserverEnd(ok) => if ok then Checked else Settling(ObserverFailed, false)
    case Decode(pair) => Settling(pair, false)
    case HookStart => Hooking
    case HookEnd(ok) => Settling(if ok then Delivered else HookFailed, false)
    case Settle =>
      var q' := Requests.Settle(q, x.pc.pair, x.pc.retry);
      if q'.resolved then Freeing(q'.final) else Gone(Refused(Some(Possible)))
    case CallRelease => Leaving(x.pc.pair)
    case Leave => Gone(Got(x.pc.pair))
  }

  /** What the step does to the request. */
  function NextReq(c: Conn, w: WaitId, x: Waiter, q: Req, s: WaitStep): (p: Req)
    requires CanWait(c, x, q, s)
    ensures p.submission == q.submission && p.dispatch == q.dispatch
  {
    match s
    case ReadyCheck => if q.outcome.Broken? then FinishReady(q) else q
    case TakeOutcome => if q.outcome.Broken? then FinishBroken(q) else q
    case Resolve => if AfterResolve(q) == Ordering then Requests.ResolveStart(q, w) else q
    case ObserverStart => Requests.ObserverStart(q)
    case HookStart => Requests.HookStart(q)
    case Settle => Requests.Settle(q, x.pc.pair, x.pc.retry)
    case CallRelease => Requests.CallRelease(q)
    case _ => q
  }

  /** What the step does to the notifications in progress. */
  function NextFeed(c: Conn, w: WaitId, x: Waiter, q: Req, s: WaitStep): Feed.Feed
    requires CanWait(c, x, q, s)
  {
    match s
    case OrderDrain(d) => Feed.SetStage(c.feed, d, c.feed.stack[d].stage.(holder := Some(w)))
    case DrainTake => Feed.Dequeue(c.feed)
    case DrainViolation => Unlock(c.feed, x.pc.depth)
    case DrainEnd => Unlock(c.feed, x.pc.depth)
    case DrainFail => Unlock(c.feed, x.pc.depth)
    case _ => c.feed
  }

  function DoWait(c: Conn, w: WaitId, s: WaitStep): Conn
    requires Alive(c, w) && CanWait(c, c.waits[w], ReqOf(c, w), s)
  {
    var x, q := c.waits[w], ReqOf(c, w);
    c.(reqs := c.reqs[x.req := NextReq(c, w, x, q, s)],
       feed := NextFeed(c, w, x, q, s),
       waits := c.waits[w := x.(pc := NextPc(c, x, q, s), cancelled := x.cancelled || s.Cancel?)])
  }

  // ------------------------------------------------- the whole connection

  predicate Enabled(c: Conn, a: Action) {
    match a
    case Prepare(gated, _) => CanPrepare(c, gated)
    case Request(r, s) => r in c.reqs && CanStep(c.reqs[r], s, c.cancelled)
    case Delivery(r, d) => r in c.reqs && CanDeliver(c.reqs[r], d)
    case Sweep => true
    case Shutdown => !c.cancelled
    case Read(x) => CanRead(c, x)
    case Work(x) => CanWork(c, x)
    case WaitStart(w, r, frame) =>
      w !in c.waits && r in c.reqs && (frame.Some? ==> Feed.Begun(c.feed, frame.value))
    case Wait(w, s) => Alive(c, w) && CanWait(c, c.waits[w], ReqOf(c, w), s)
  }

  function Do(c: Conn, a: Action): Conn
    requires Enabled(c, a)
  {
    match a
    case Prepare(gated, hook) => DoPrepare(c, gated, hook)
    case Request(r, s) => SetReq(c, r, DoStep(c.reqs[r], s, c.cancelled))
    case Delivery(r, d) => DoDeliver(c, r, d)
    case Sweep => c.(gate := Pruned(c.gate))
    case Shutdown => DoShutdown(c)
    case Read(x) => DoRead(c, x)
    case Work(x) => c.(feed := DoWork(c, x))
    case WaitStart(w, r, frame) => c.(waits := c.waits[w := Waiter(r, false, frame, Entering)])
    case Wait(w, s) => DoWait(c, w, s)
  }

  // ------------------------------------------------- runs

  ghost predicate IsRun(states: seq<Conn>, acts: seq<Action>) {
    && |states| == |acts| + 1
    && states[0] == Initial(states[0].limits)
    && forall i | 0 <= i < |acts| :: Enabled(states[i], acts[i]) && states[i + 1] == Do(states[i], acts[i])
  }
}
