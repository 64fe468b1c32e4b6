/** What is possible from every state that a run can reach: a dispatch that nobody disturbs succeeds,
    a response that arrives is recorded, a Wait delivers it, and a notification is handled. */
module Success {
  import opened Results
  import opened Ids
  import opened Requests
  import opened Machine
  import opened Invariant
  import opened Runs
  import History
  import Feed
  import Gate
  import Paths

  predicate Moves(c: Conn, a: Action, d: Conn) {
    Enabled(c, a) && d == Do(c, a)
  }

  /** Some of these actions lead from c to d. */
  ghost predicate Reaches(c: Conn, allowed: set<Action>, d: Conn) {
    Paths.Reaches(Moves, c, allowed, d)
  }

  lemma ReachesItself(c: Conn, allowed: set<Action>)
    ensures Reaches(c, allowed, c)
  {
    Paths.ReachesItself(Moves, c, allowed);
  }

  lemma ReachesNext(c: Conn, allowed: set<Action>, d: Conn, a: Action)
    requires Reaches(c, allowed, d) && a in allowed && Enabled(d, a)
    ensures Reaches(c, allowed, Do(d, a))
  {
    assert Moves(d, a, Do(d, a));
    Paths.ReachesNext(Moves, c, allowed, d, a, Do(d, a));
  }

  lemma SetTwice(c: Conn, r: ReqId, q: Req, q': Req)
    ensures SetReq(SetReq(c, r, q), r, q') == SetReq(c, r, q')
  {
    assert c.reqs[r := q][r := q'] == c.reqs[r := q'];
  }

  lemma SectionDoes(c: Conn, r: ReqId, q: Req, s: Step)
    requires CanStep(q, s, c.cancelled)
    ensures Enabled(SetReq(c, r, q), Request(r, s))
    ensures Do(SetReq(c, r, q), Request(r, s)) == SetReq(c, r, DoStep(q, s, c.cancelled))
  {
    SetTwice(c, r, q, DoStep(q, s, c.cancelled));
  }

  lemma ThenSection(c: Conn, allowed: set<Action>, r: ReqId, q: Req, s: Step)
    requires Reaches(c, allowed, SetReq(c, r, q)) && Request(r, s) in allowed && CanStep(q, s, c.cancelled)
    ensures Reaches(c, allowed, SetReq(c, r, DoStep(q, s, c.cancelled)))
  {
    SectionDoes(c, r, q, s);
    ReachesNext(c, allowed, SetReq(c, r, q), Request(r, s));
  }

  // ------------------------------------------------- Dispatch

  /** Nothing stands in the way of a dispatch. */
  predicate CanDispatch(c: Conn, r: ReqId) {
    r in c.reqs && c.reqs[r].phase == Ready && c.reqs[r].inTable && !c.reqs[r].dispatchCancelled && !c.cancelled
  }

  /** Dispatch and the writer, when the write is accepted. */
  function Undisturbed(r: ReqId): set<Action> {
    {Request(r, DispatchStartStep), Request(r, DispatchSendStep), Request(r, WriterBeginStep), Request(r, WriterInvokeStep),
     Request(r, WriterReportStep(true)), Request(r, DispatchResultStep), Request(r, DispatchCompleteStep)}
  }

  lemma IsQueued(c: Conn, r: ReqId) returns (q: Req)
    requires ReqsOk(c) && CanDispatch(c, r)
    ensures Reaches(c, Undisturbed(r), SetReq(c, r, q)) && q == DispatchSend(DispatchStart(c.reqs[r]))
  {
    q := c.reqs[r];
    assert ReqOk(q, c.cancelled);
    ReachesItself(c, Undisturbed(r));
    assert SetReq(c, r, q) == c;
    ThenSection(c, Undisturbed(r), r, q, DispatchStartStep);
    ThenSection(c, Undisturbed(r), r, DispatchStart(q), DispatchSendStep);
    q := DispatchSend(DispatchStart(q));
  }

  lemma IsWritten(c: Conn, r: ReqId, q: Req) returns (p: Req)
    requires Reaches(c, Undisturbed(r), SetReq(c, r, q)) && MayBegin(q, c.cancelled)
    ensures Reaches(c, Undisturbed(r), SetReq(c, r, p)) && p == WriterBegin(q).(write := Reported(true))
  {
    ThenSection(c, Undisturbed(r), r, q, WriterBeginStep);
    ThenSection(c, Undisturbed(r), r, WriterBegin(q), WriterInvokeStep);
    ThenSection(c, Undisturbed(r), r, WriterBegin(q).(write := Invoked), WriterReportStep(true));
    p := WriterBegin(q).(write := Reported(true));
  }

  lemma IsDispatched(c: Conn, r: ReqId, q: Req) returns (p: Req)
    requires Reaches(c, Undisturbed(r), SetReq(c, r, q))
    requires q.write == Reported(true) && q.phase == Dispatching && q.dispatch.Awaiting?
    ensures Reaches(c, Undisturbed(r), SetReq(c, r, p))
    ensures p == q.(phase := Dispatched, dispatchErr := None, dispatch := Returned)
  {
    ThenSection(c, Undisturbed(r), r, q, DispatchResultStep);
    ThenSection(c, Undisturbed(r), r, q.(dispatch := Ending(Dispatched, None)), DispatchCompleteStep);
    p := q.(phase := Dispatched, dispatchErr := None, dispatch := Returned);
  }

  lemma QueuedMayBegin(c: Conn, r: ReqId)
    requires ReqsOk(c) && CanDispatch(c, r)
    ensures MayBegin(DispatchSend(DispatchStart(c.reqs[r])), c.cancelled)
  {
    assert ReqOk(c.reqs[r], c.cancelled);
  }

  /** From every reachable state a request that is ready, on a live connection, can be dispatched:
      when the writer takes the write and accepts it, Dispatch returns nil, the phase is Dispatched
      and the request is admitted; and nothing else has changed. */
  lemma DispatchCanSucceed(c: Conn, r: ReqId) returns (p: Req)
    requires Inv(c) && CanDispatch(c, r)
    ensures Reaches(c, Undisturbed(r), SetReq(c, r, p))
    ensures p == c.reqs[r].(phase := Dispatched, dispatch := Returned, dispatchErr := None,
                            write := Reported(true), submission := Possible, admitted := true)
  {
    p := IsQueued(c, r);
    QueuedMayBegin(c, r);
    p := IsWritten(c, r, p);
    p := IsDispatched(c, r, p);
  }

  // ------------------------------------------------- the response

  /** The reader, on the response to r. */
  function Reading(r: ReqId): set<Action> {
    {Read(MatchResponse(r)), Read(ChainResponse), Read(ReadWatermark), Read(DeliverResponse)}
  }

  /** c with another state of request r, of the gate and of the reader. */
  function Arriving(c: Conn, r: ReqId, q: Req, g: Gate.Gate, x: Reader): Conn {
    c.(reqs := c.reqs[r := q], gate := g, reader := x)
  }

  lemma ArrivingAgain(c: Conn, r: ReqId, q: Req, g: Gate.Gate, x: Reader, q': Req, g': Gate.Gate, x': Reader)
    ensures Arriving(Arriving(c, r, q, g, x), r, q', g', x') == Arriving(c, r, q', g', x')
  {
    assert c.reqs[r := q][r := q'] == c.reqs[r := q'];
  }

  lemma ChainDoes(c: Conn, r: ReqId, q: Req, g: Gate.Gate) returns (p: Req, h: Gate.Gate)
    ensures DoRead(Arriving(c, r, q, g, Matched(r)), ChainResponse) == Arriving(c, r, p, h, Chained(r))
    ensures p == q.(node := p.node) && (q.gated ==> p.node >= 0)
  {
    if q.gated {
      p, h := Requests.Chain(q, |Pruned(g).nodes|), Gate.Push(Pruned(g), r, c.feed.lastEnqueued);
    } else {
      p, h := q, g;
    }
    ArrivingAgain(c, r, q, g, Matched(r), p, h, Chained(r));
  }

  lemma AnswerDoes(c: Conn, r: ReqId, q: Req, g: Gate.Gate, m: nat)
    ensures DoRead(Arriving(c, r, q, g, Marked(r, m)), DeliverResponse)
            == Arriving(c, r, q.(outcome := Answer(m)), g, Machine.Reading)
  {
    ArrivingAgain(c, r, q, g, Marked(r, m), q.(outcome := Answer(m)), g, Machine.Reading);
  }

  lemma IsMatched(c: Conn, r: ReqId)
    requires Enabled(c, Read(MatchResponse(r)))
    ensures Reaches(c, Reading(r), Arriving(c, r, c.reqs[r].(responded := true), c.gate, Matched(r)))
  {
    ReachesItself(c, Reading(r));
    ReachesNext(c, Reading(r), c, Read(MatchResponse(r)));
    assert Do(c, Read(MatchResponse(r))) == Arriving(c, r, c.reqs[r].(responded := true), c.gate, Matched(r));
  }

  lemma IsChained(c: Conn, r: ReqId, q: Req, g: Gate.Gate) returns (p: Req, h: Gate.Gate)
    requires Reaches(c, Reading(r), Arriving(c, r, q, g, Matched(r)))
    ensures Reaches(c, Reading(r), Arriving(c, r, p, h, Chained(r)))
    ensures p == q.(node := p.node) && (q.gated ==> p.node >= 0)
  {
    p, h := ChainDoes(c, r, q, g);
    ReachesNext(c, Reading(r), Arriving(c, r, q, g, Matched(r)), Read(ChainResponse));
  }

  lemma IsRecorded(c: Conn, r: ReqId, p: Req, g: Gate.Gate)
    requires Reaches(c, Reading(r), Arriving(c, r, p, g, Chained(r)))
    ensures Reaches(c, Reading(r), Arriving(c, r, p.(outcome := Answer(c.feed.lastEnqueued)), g, Machine.Reading))
  {
    ReachesNext(c, Reading(r), Arriving(c, r, p, g, Chained(r)), Read(ReadWatermark));
    ArrivingAgain(c, r, p, g, Chained(r), p, g, Marked(r, c.feed.lastEnqueued));
    AnswerDoes(c, r, p, g, c.feed.lastEnqueued);
    ReachesNext(c, Reading(r), Arriving(c, r, p, g, Marked(r, c.feed.lastEnqueued)), Read(DeliverResponse));
  }

  /** From every reachable state in which the reader is between two frames, the response to an
      admitted request in the table is recorded as its answer, with the number of the last
      notification, and if gated on the chain; nothing else but the chain is touched. */
  lemma ResponseCanArrive(c: Conn, r: ReqId) returns (p: Req, g: Gate.Gate)
    requires Enabled(c, Read(MatchResponse(r)))
    ensures Reaches(c, Reading(r), Arriving(c, r, p, g, Machine.Reading))
    ensures p == c.reqs[r].(responded := true, node := p.node, outcome := Answer(c.feed.lastEnqueued)) && (p.gated ==> p.node >= 0)
  {
    var q := c.reqs[r].(responded := true);
    IsMatched(c, r);
    p, g := IsChained(c, r, q, c.gate);
    IsRecorded(c, r, p, g);
    p := p.(outcome := Answer(c.feed.lastEnqueued));
  }

  // ------------------------------------------------- the Wait

  /** c with another state of request r and of waiter w. */
  function At(c: Conn, w: WaitId, r: ReqId, q: Req, x: Waiter): Conn {
    c.(reqs := c.reqs[r := q], waits := c.waits[w := x])
  }

  lemma AtAgain(c: Conn, w: WaitId, r: ReqId, q: Req, x: Waiter, q': Req, x': Waiter)
    ensures At(At(c, w, r, q, x), w, r, q', x') == At(c, w, r, q', x')
  {
    assert c.reqs[r := q][r := q'] == c.reqs[r := q'];
    assert c.waits[w := x][w := x'] == c.waits[w := x'];
  }

  lemma WaitDoes(c: Conn, w: WaitId, r: ReqId, q: Req, x: Waiter, s: WaitStep, q': Req, pc: WaitPc)
    requires var d := At(c, w, r, q, x);
             && x.req == r && !s.Cancel? && CanWait(d, x, q, s) && NextFeed(d, w, x, q, s) == c.feed
             && q' == NextReq(d, w, x, q, s) && pc == NextPc(d, x, q, s)
    ensures Enabled(At(c, w, r, q, x), Wait(w, s))
    ensures Do(At(c, w, r, q, x), Wait(w, s)) == At(c, w, r, q', x.(pc := pc))
  {
    var d := At(c, w, r, q, x);
    AtAgain(c, w, r, q, x, q', x.(pc := pc));
    assert DoWait(d, w, s) == At(d, w, r, q', x.(pc := pc));
  }

  lemma ThenWait(c: Conn, allowed: set<Action>, w: WaitId, r: ReqId, q: Req, x: Waiter, s: WaitStep, q': Req, pc: WaitPc)
    requires Reaches(c, allowed, At(c, w, r, q, x)) && Wait(w, s) in allowed
    requires var d := At(c, w, r, q, x);
             && x.req == r && !s.Cancel? && CanWait(d, x, q, s) && NextFeed(d, w, x, q, s) == c.feed
             && q' == NextReq(d, w, x, q, s) && pc == NextPc(d, x, q, s)
    ensures Reaches(c, allowed, At(c, w, r, q', x.(pc := pc)))
  {
    WaitDoes(c, w, r, q, x, s, q', pc);
    ReachesNext(c, allowed, At(c, w, r, q, x), Wait(w, s));
  }

  /** A Wait whose observer, decoding and typed hook go well, and the release it calls. */
  function Delivering(w: WaitId, r: ReqId): set<Action> {
    {Wait(w, Resolve), Wait(w, OrderPoll), Wait(w, PollEnd),
     Wait(w, Machine.ObserverStart), Wait(w, ObserverEnd(true)), Wait(w, ObserverSkip),
     Wait(w, Decode(Delivered)), Wait(w, Machine.HookStart), Wait(w, HookEnd(true)),
     Wait(w, Machine.Settle), Wait(w, Machine.CallRelease), Wait(w, Leave),
     Request(r, ReleaseTakeStep), Delivery(r, Machine.ReleaseClose)}
  }

  /** The response of waiter w's request is there, open, and all notifications before it are over. */
  predicate CanDeliverNow(c: Conn, w: WaitId) {
    && Alive(c, w) && c.waits[w].pc == Resolving && c.waits[w].frame.None?
    && ReqOf(c, w).outcome.Answer? && ReqOf(c, w).outcome.watermark <= c.feed.index.watermark
    && !ReqOf(c, w).resolved && ReqOf(c, w).phase == Dispatched && ReqOf(c, w).resolver.None?
  }

  lemma GetsCleared(c: Conn, w: WaitId) returns (q: Req, x: Waiter)
    requires CanDeliverNow(c, w)
    ensures q == Requests.ResolveStart(ReqOf(c, w), w) && x == c.waits[w].(pc := Cleared)
    ensures Reaches(c, Delivering(w, c.waits[w].req), At(c, w, c.waits[w].req, q, x))
  {
    x := c.waits[w];
    var r := x.req;
    q := ReqOf(c, w);
    var p := Requests.ResolveStart(q, w);
    ReachesItself(c, Delivering(w, r));
    assert At(c, w, r, q, x) == c;
    ThenWait(c, Delivering(w, r), w, r, q, x, Resolve, p, Ordering);
    ThenWait(c, Delivering(w, r), w, r, p, x.(pc := Ordering), OrderPoll, p, Polling);
    ThenWait(c, Delivering(w, r), w, r, p, x.(pc := Polling), PollEnd, p, Cleared);
    q, x := p, x.(pc := Cleared);
  }

  function One(installed: bool): nat {
    if installed then 1 else 0
  }

  /** The observer, if there is one, has run. */
  function ObserverDone(q: Req): Req {
    q.(observed := q.observed + One(q.observer))
  }

  /** The typed hook, if there is one, has run. */
  function HookDone(q: Req): Req {
    q.(hooked := q.hooked + One(q.hook))
  }

  lemma GetsObserved(c: Conn, w: WaitId, r: ReqId, q: Req, x: Waiter)
    requires x.req == r && x.pc == Cleared && q.observer && Reaches(c, Delivering(w, r), At(c, w, r, q, x))
    ensures Reaches(c, Delivering(w, r), At(c, w, r, Requests.ObserverStart(q), x.(pc := Checked)))
  {
    var p := Requests.ObserverStart(q);
    ThenWait(c, Delivering(w, r), w, r, q, x, Machine.ObserverStart, p, Observing);
    ThenWait(c, Delivering(w, r), w, r, p, x.(pc := Observing), ObserverEnd(true), p, Checked);
  }

  lemma GetsChecked(c: Conn, w: WaitId, r: ReqId, q: Req, x: Waiter) returns (p: Req)
    requires x.req == r && x.pc == Cleared && Reaches(c, Delivering(w, r), At(c, w, r, q, x))
    ensures Reaches(c, Delivering(w, r), At(c, w, r, p, x.(pc := Checked)))
    ensures p == ObserverDone(q)
  {
    if q.observer {
      p := Requests.ObserverStart(q);
      GetsObserved(c, w, r, q, x);
    } else {
      p := q;
      assert ObserverDone(q) == q;
      ThenWait(c, Delivering(w, r), w, r, q, x, ObserverSkip, q, Checked);
    }
  }

  lemma GetsHooked(c: Conn, w: WaitId, r: ReqId, q: Req, x: Waiter)
    requires x.req == r && x.pc == Checked && q.hook && Reaches(c, Delivering(w, r), At(c, w, r, q, x))
    ensures Reaches(c, Delivering(w, r), At(c, w, r, Requests.HookStart(q), x.(pc := Settling(Delivered, false))))
  {
    var p := Requests.HookStart(q);
    ThenWait(c, Delivering(w, r), w, r, q, x, Machine.HookStart, p, Hooking);
    ThenWait(c, Delivering(w, r), w, r, p, x.(pc := Hooking), HookEnd(true), p, Settling(Delivered, false));
  }

  lemma GetsDecided(c: Conn, w: WaitId, r: ReqId, q: Req, x: Waiter) returns (p: Req)
    requires x.req == r && x.pc == Checked && Reaches(c, Delivering(w, r), At(c, w, r, q, x))
    ensures Reaches(c, Delivering(w, r), At(c, w, r, p, x.(pc := Settling(Delivered, false))))
    ensures p == HookDone(q)
  {
    if q.hook {
      p := Requests.HookStart(q);
      GetsHooked(c, w, r, q, x);
    } else {
      p := q;
      assert HookDone(q) == q;
      ThenWait(c, Delivering(w, r), w, r, q, x, Decode(Delivered), q, Settling(Delivered, false));
    }
  }

  /** The request when its result is decided and its release called. */
  function SettledWell(q: Req): Req {
    q.(resolver := None, resolved := true, phase := Finished, final := Delivered, releaseCalled := true)
  }

  /** The request when its entry is removed and its delivery finished. */
  function Freed(q: Req): Req {
    q.(inTable := false, release := Released)
  }

  lemma GetsSettled(c: Conn, w: WaitId, r: ReqId, q: Req, x: Waiter) returns (p: Req)
    requires x.req == r && x.pc == Settling(Delivered, false) && q.phase != Abandoned
    requires Reaches(c, Delivering(w, r), At(c, w, r, q, x))
    ensures Reaches(c, Delivering(w, r), At(c, w, r, p, x.(pc := Leaving(Delivered))))
    ensures p == SettledWell(q)
  {
    p := q.(resolver := None, resolved := true, phase := Finished, final := Delivered);
    ThenWait(c, Delivering(w, r), w, r, q, x, Machine.Settle, p, Freeing(Delivered));
    ThenWait(c, Delivering(w, r), w, r, p, x.(pc := Freeing(Delivered)), Machine.CallRelease, Requests.CallRelease(p), Leaving(Delivered));
    p := Requests.CallRelease(p);
  }

  lemma AnsweredIsUnreleased(q: Req, cancelled: bool)
    requires ReqOk(q, cancelled) && q.outcome.Answer? && !q.resolved && q.phase == Dispatched && q.resolver.None?
    ensures q.release == Unreleased && q.responded && (q.gated ==> q.node >= 0)
  {
  }

  lemma ReleasedAt(c: Conn, w: WaitId, r: ReqId, q: Req, x: Waiter)
    requires q.release == Answered && q.outcome.Answer?
    ensures var d := At(c, w, r, q, x);
            && Enabled(d, Delivery(r, Machine.ReleaseClose))
            && Do(d, Delivery(r, Machine.ReleaseClose))
               == At(c.(gate := Closed(c.gate, q.node)), w, r, q.(release := Released), x)
  {
    assert c.reqs[r := q][r := q.(release := Released)] == c.reqs[r := q.(release := Released)];
  }

  lemma TakenAt(c: Conn, w: WaitId, r: ReqId, q: Req, x: Waiter)
    requires q.releaseCalled && q.release == Unreleased && q.responded
    ensures var d := At(c, w, r, q, x);
            && Enabled(d, Request(r, ReleaseTakeStep))
            && Do(d, Request(r, ReleaseTakeStep)) == At(c, w, r, q.(inTable := false, release := Answered), x)
  {
    assert DoStep(q, ReleaseTakeStep, c.cancelled) == q.(inTable := false, release := Answered);
    assert c.reqs[r := q][r := q.(inTable := false, release := Answered)] == c.reqs[r := q.(inTable := false, release := Answered)];
  }

  lemma GetsReleased(c: Conn, w: WaitId, r: ReqId, q: Req, x: Waiter) returns (p: Req)
    requires Reaches(c, Delivering(w, r), At(c, w, r, q, x))
    requires q.releaseCalled && q.release == Unreleased && q.responded && q.outcome.Answer?
    ensures p == Freed(q)
    ensures Reaches(c, Delivering(w, r), At(c.(gate := Closed(c.gate, q.node)), w, r, p, x))
  {
    TakenAt(c, w, r, q, x);
    ReachesNext(c, Delivering(w, r), At(c, w, r, q, x), Request(r, ReleaseTakeStep));
    p := q.(inTable := false, release := Answered);
    ReleasedAt(c, w, r, p, x);
    ReachesNext(c, Delivering(w, r), At(c, w, r, p, x), Delivery(r, Machine.ReleaseClose));
    p := p.(release := Released);
  }

  lemma Leaves(c: Conn, allowed: set<Action>, b: Conn, w: WaitId, r: ReqId, q: Req, x: Waiter)
    requires Reaches(c, allowed, At(b, w, r, q, x)) && Wait(w, Leave) in allowed
    requires x.req == r && x.pc == Leaving(Delivered) && q.release == Released
    ensures Reaches(c, allowed, At(b, w, r, q, x.(pc := Gone(Got(Delivered)))))
  {
    WaitDoes(b, w, r, q, x, Leave, q, Gone(Got(Delivered)));
    ReachesNext(c, allowed, At(b, w, r, q, x), Wait(w, Leave));
  }

  /** What a Wait that has delivered the response leaves behind. */
  predicate IsDelivered(q: Req, p: Req) {
    && p.resolved && p.final == Delivered && p.phase == Finished && p.release == Released && !p.inTable
    && p.observed == q.observed + One(q.observer) && p.hooked == q.hooked + One(q.hook)
  }

  function RunThrough(q: Req, w: WaitId): Req {
    HookDone(ObserverDone(Requests.ResolveStart(q, w)))
  }

  lemma DecidesWell(c: Conn, w: WaitId)
    requires CanDeliverNow(c, w)
    ensures var r, x := c.waits[w].req, c.waits[w];
            Reaches(c, Delivering(w, r), At(c, w, r, RunThrough(c.reqs[r], w), x.(pc := Settling(Delivered, false))))
  {
    var r := c.waits[w].req;
    var p, x := GetsCleared(c, w);
    p := GetsChecked(c, w, r, p, x);
    p := GetsDecided(c, w, r, p, x.(pc := Checked));
  }

  lemma SettlesAndLeaves(c: Conn, w: WaitId, r: ReqId, q: Req, x: Waiter)
    requires x.req == r && x.pc == Settling(Delivered, false) && Reaches(c, Delivering(w, r), At(c, w, r, q, x))
    requires q.phase != Abandoned && q.release == Unreleased && q.responded && q.outcome.Answer?
    ensures Reaches(c, Delivering(w, r),
                    At(c.(gate := Closed(c.gate, q.node)), w, r, Freed(SettledWell(q)), x.(pc := Gone(Got(Delivered)))))
  {
    var p := GetsSettled(c, w, r, q, x);
    var y := x.(pc := Leaving(Delivered));
    p := GetsReleased(c, w, r, p, y);
    Leaves(c, Delivering(w, r), c.(gate := Closed(c.gate, q.node)), w, r, p, y);
  }

  lemma DeliversOpen(c: Conn, w: WaitId) returns (p: Req)
    requires CanDeliverNow(c, w) && ReqOf(c, w).release == Unreleased && ReqOf(c, w).responded
    ensures p == Freed(SettledWell(RunThrough(ReqOf(c, w), w)))
    ensures Reaches(c, Delivering(w, c.waits[w].req),
                    At(c.(gate := Closed(c.gate, ReqOf(c, w).node)), w, c.waits[w].req, p, c.waits[w].(pc := Gone(Got(Delivered)))))
  {
    var x := c.waits[w];
    var q := RunThrough(ReqOf(c, w), w);
    DecidesWell(c, w);
    SettlesAndLeaves(c, w, x.req, q, x.(pc := Settling(Delivered, false)));
    p := Freed(SettledWell(q));
  }

  /** From every reachable state in which the response is there, nobody resolves it yet, and the
      notifications before it are over, a Wait can deliver it: the observer and the typed hook that
      are installed run once each, the Wait returns success, and the delivery is finished. */
  lemma WaitCanDeliver(c: Conn, w: WaitId) returns (d: Conn)
    requires Inv(c) && CanDeliverNow(c, w)
    ensures var r := c.waits[w].req;
            && Reaches(c, Delivering(w, r), d) && Alive(d, w) && d.waits[w].req == r && d.waits[w].pc == Gone(Got(Delivered))
            && r in d.reqs && IsDelivered(c.reqs[r], d.reqs[r]) && d.feed == c.feed
            && (c.reqs[r].gated ==> 0 <= c.reqs[r].node < |d.gate.nodes| && d.gate.nodes[c.reqs[r].node].done)
  {
    var r := c.waits[w].req;
    assert ReqOk(c.reqs[r], c.cancelled) && LinkOk(c, r);
    AnsweredIsUnreleased(c.reqs[r], c.cancelled);
    var p := DeliversOpen(c, w);
    d := At(c.(gate := Closed(c.gate, c.reqs[r].node)), w, r, p, c.waits[w].(pc := Gone(Got(Delivered))));
  }

  // ------------------------------------------------- notifications

  const WALKS := {Work(Walk)}

  lemma ThenWork(c: Conn, allowed: set<Action>, f: Feed.Feed, x: WorkStep)
    requires Reaches(c, allowed, c.(feed := f)) && Work(x) in allowed && CanWork(c.(feed := f), x)
    ensures Reaches(c, allowed, c.(feed := DoWork(c.(feed := f), x)))
  {
    ReachesNext(c, allowed, c.(feed := f), Work(x));
  }

  /** The barrier walk gets through if every response on its way is done. */
  lemma {:induction false} WalkGetsThrough(c: Conn, f: Feed.Feed, after: nat)
    requires Reaches(c, WALKS, c.(feed := f)) && !c.cancelled && TopWalking(f) && Gate.Linked(c.gate)
    requires after <= |c.gate.nodes| && Gate.GapDone(c.gate.nodes, -1, after) && -1 <= Feed.Top(f).stage.cursor < after
    ensures Reaches(c, WALKS, c.(feed := Feed.SetTop(f, Feed.Walking(-1))))
    decreases Feed.Top(f).stage.cursor
  {
    var p := Feed.Top(f).stage.cursor;
    if p >= 0 {
      assert Gate.PrevOk(c.gate.nodes, p);
      ThenWork(c, WALKS, f, Walk);
      var g := Feed.SetTop(f, Feed.Walking(c.gate.nodes[p].prev));
      WalkGetsThrough(c, g, after);
      assert Feed.SetTop(g, Feed.Walking(-1)) == Feed.SetTop(f, Feed.Walking(-1));
    } else {
      assert Feed.SetTop(f, Feed.Walking(-1)) == f;
    }
  }

  ghost predicate SameButFeed(c: Conn, d: Conn) {
    && d == c.(feed := d.feed) && |d.feed.stack| == |c.feed.stack|
    && (c.feed.stack != [] ==> Feed.Top(d.feed).note == Feed.Top(c.feed).note)
  }

  lemma WalkIsSame(c: Conn, e: Conn)
    requires SameButFeed(c, e) && Enabled(e, Work(Walk))
    ensures SameButFeed(c, Do(e, Work(Walk)))
  {
  }

  lemma WalkMoves(c: Conn, s: Conn, a: Action, t: Conn)
    requires a in WALKS && Inv(s) && SameButFeed(c, s) && Moves(s, a, t)
    ensures Inv(t) && SameButFeed(c, t)
  {
    assert a == Work(Walk);
    ActionKeeps(s, a);
    WalkIsSame(c, s);
  }

  lemma WalksKeep(c: Conn, d: Conn)
    requires Inv(c) && Reaches(c, WALKS, d)
    ensures Inv(d) && SameButFeed(c, d)
  {
    forall s, a, t | a in WALKS && Inv(s) && SameButFeed(c, s) && Moves(s, a, t) ensures Inv(t) && SameButFeed(c, t) {
      WalkMoves(c, s, a, t);
    }
    Paths.ReachesKeeps(Moves, s => Inv(s) && SameButFeed(c, s), c, WALKS, d);
  }

  lemma StarterIsClear(d: Conn)
    requires NotesOk(d) && Enabled(d, Work(HandlerStart))
    ensures Gate.GapDone(d.gate.nodes, -1, Feed.Top(d.feed).note.after)
  {
    assert NoteOk(d.gate.nodes, Feed.Top(d.feed).note, -1);
  }

  lemma WalkerIsPlaced(c: Conn)
    requires NotesOk(c) && TopWalking(c.feed)
    ensures var top := Feed.Top(c.feed);
            -1 <= top.stage.cursor < top.note.after <= |c.gate.nodes|
  {
    assert NoteOk(c.gate.nodes, Feed.Top(c.feed).note, Feed.Top(c.feed).stage.cursor);
  }

  lemma WalksToStart(c: Conn)
    requires Inv(c) && !c.cancelled && TopWalking(c.feed) && Gate.GapDone(c.gate.nodes, -1, Feed.Top(c.feed).note.after)
    ensures Reaches(c, WALKS, c.(feed := Feed.SetTop(c.feed, Feed.Walking(-1))))
  {
    ReachesItself(c, WALKS);
    assert c.(feed := c.feed) == c;
    WalkerIsPlaced(c);
    WalkGetsThrough(c, c.feed, Feed.Top(c.feed).note.after);
  }

  /** On a live connection the walk behind the barrier leads a notification to its handler exactly if
      every gated response received before it is done. */
  lemma BarrierOpensExactly(c: Conn)
    requires Inv(c) && !c.cancelled && TopWalking(c.feed)
    ensures (exists d :: Reaches(c, WALKS, d) && Enabled(d, Work(HandlerStart)))
            <==> Gate.GapDone(c.gate.nodes, -1, Feed.Top(c.feed).note.after)
  {
    if Gate.GapDone(c.gate.nodes, -1, Feed.Top(c.feed).note.after) {
      WalksToStart(c);
      assert Enabled(c.(feed := Feed.SetTop(c.feed, Feed.Walking(-1))), Work(HandlerStart));
    }
    if exists d :: Reaches(c, WALKS, d) && Enabled(d, Work(HandlerStart)) {
      var d :| Reaches(c, WALKS, d) && Enabled(d, Work(HandlerStart));
      WalksKeep(c, d);
      StarterIsClear(d);
    }
  }

  /** The steps of a handler that returns, on the top frame at depth d. */
  function Handling(d: nat): set<Action> {
    {Work(HandlerStart), Work(HandlerReturn(d)), Work(FrameEnd), Work(FrameMark), Work(FramePop)}
  }

  lemma RestageTop(f: Feed.Feed, s: Feed.Stage, t: Feed.Stage)
    requires f.stack != []
    ensures Feed.SetTop(Feed.SetTop(f, s), t) == Feed.SetTop(f, t)
  {
    assert Feed.SetTop(Feed.SetTop(f, s), t).stack == Feed.SetTop(f, t).stack;
  }

  lemma HandlerRuns(c: Conn, f: Feed.Feed) returns (g: Feed.Feed)
    requires TopIs(f, Feed.Walking(-1)) && !c.cancelled && Reaches(c, Handling(|f.stack| - 1), c.(feed := f))
    ensures Reaches(c, Handling(|f.stack| - 1), c.(feed := g))
    ensures g == Feed.SetTop(f, Feed.Ended(false)).(handled := Feed.Top(f).note.seqNo)
  {
    var d := |f.stack| - 1;
    ThenWork(c, Handling(d), f, HandlerStart);
    g := Feed.StartTop(f);
    ThenWork(c, Handling(d), g, HandlerReturn(d));
    var h := Feed.SetTop(g, Feed.Running(true, None));
    assert h == Feed.SetStage(g, d, g.stack[d].stage.(returned := true));
    ThenWork(c, Handling(d), h, FrameEnd);
    RestageTop(g, Feed.Running(true, None), Feed.Ended(false));
    RestageTop(f, Feed.Running(false, None), Feed.Ended(false));
    g := Feed.SetTop(h, Feed.Ended(false));
  }

  lemma FrameGoes(c: Conn, f: Feed.Feed, d: nat) returns (g: Feed.Feed)
    requires Reaches(c, Handling(d), c.(feed := f)) && TopIs(f, Feed.Ended(false)) && f.bytes >= Feed.Top(f).note.size
    ensures Reaches(c, Handling(d), c.(feed := g))
    ensures g == f.(stack := f.stack[..|f.stack| - 1], bytes := f.bytes - Feed.Top(f).note.size,
                    index := Feed.Mark(f.index, Feed.Top(f).note.seqNo))
  {
    ThenWork(c, Handling(d), f, FrameMark);
    g := Feed.MarkTop(f);
    ThenWork(c, Handling(d), g, FramePop);
    assert g.stack[..|f.stack| - 1] == f.stack[..|f.stack| - 1];
    g := Feed.Pop(g);
  }

  /** What the processing of f's top notification leaves behind: the handler started, the number
      finished, the frame gone and its bytes given back. */
  ghost predicate IsHandled(f: Feed.Feed, g: Feed.Feed)
    requires f.stack != []
  {
    var note := Feed.Top(f).note;
    && g.handled == note.seqNo && g.stack == f.stack[..|f.stack| - 1] && g.bytes == f.bytes - note.size
    && g.queue == f.queue && g.lastEnqueued == f.lastEnqueued
    && forall m: nat :: Feed.Complete(g.index, m) <==> Feed.Complete(f.index, m) || m == note.seqNo
  }

  lemma WalkerIsUnfinished(f: Feed.Feed, maxQueue: nat, maxBytes: nat)
    requires Feed.FeedOk(f, maxQueue, maxBytes) && TopIs(f, Feed.Walking(-1))
    ensures !Feed.Complete(f.index, Feed.Top(f).note.seqNo) && f.bytes >= Feed.Top(f).note.size
  {
    var k := |f.stack| - 1;
    assert f.stack[k].note.seqNo >= 1 && f.stack[k].stage != Feed.Ended(true);
    assert Feed.OnStack(f, f.stack[k].note.seqNo);
  }

  lemma HandledLeaves(f: Feed.Feed, g: Feed.Feed, maxQueue: nat, maxBytes: nat)
    requires Feed.FeedOk(f, maxQueue, maxBytes) && TopIs(f, Feed.Walking(-1)) && f.bytes >= Feed.Top(f).note.size
    requires g.handled == Feed.Top(f).note.seqNo && g.stack == f.stack[..|f.stack| - 1]
    requires g.bytes == f.bytes - Feed.Top(f).note.size && g.queue == f.queue && g.lastEnqueued == f.lastEnqueued
    requires g.index == Feed.Mark(f.index, Feed.Top(f).note.seqNo)
    ensures IsHandled(f, g)
  {
    WalkerIsUnfinished(f, maxQueue, maxBytes);
    Feed.MarkLaw(f.index, Feed.Top(f).note.seqNo);
  }

  /** From every reachable state a notification that is past its barrier can be handled to the end:
      its handler runs, its number is finished, its frame and its bytes are given back. */
  lemma NotificationCanBeHandled(c: Conn) returns (g: Feed.Feed)
    requires Inv(c) && Enabled(c, Work(HandlerStart))
    ensures Reaches(c, Handling(|c.feed.stack| - 1), c.(feed := g)) && IsHandled(c.feed, g)
  {
    var f := c.feed;
    WalkerIsUnfinished(f, c.limits.queue, c.limits.bytes);
    ReachesItself(c, Handling(|f.stack| - 1));
    assert c.(feed := f) == c;
    g := HandlerRuns(c, f);
    assert g.stack[..|f.stack| - 1] == f.stack[..|f.stack| - 1];
    g := FrameGoes(c, g, |f.stack| - 1);
    HandledLeaves(f, g, c.limits.queue, c.limits.bytes);
  }

  // ------------------------------------------------- from the registration to the result

  lemma ReachesOn(c: Conn, allowed: set<Action>, d: Conn, more: set<Action>, e: Conn)
    requires Reaches(c, allowed, d) && Reaches(d, more, e)
    ensures Reaches(c, allowed + more, e)
  {
    Paths.ReachesOn(Moves, c, allowed, d, more, e);
  }

  lemma MovesKeep()
    ensures forall s, a, t | Inv(s) && Moves(s, a, t) :: Inv(t)
  {
    forall s, a, t | Inv(s) && Moves(s, a, t) ensures Inv(t) {
      ActionKeeps(s, a);
    }
  }

  lemma ReachesInv(c: Conn, allowed: set<Action>, d: Conn)
    requires Inv(c) && Reaches(c, allowed, d)
    ensures Inv(d)
  {
    MovesKeep();
    Paths.ReachesKeeps(Moves, Inv, c, allowed, d);
  }

  /** The registration of the next request, and the Wait that goes to its response. */
  function Registering(gated: bool, hook: bool): set<Action> {
    {Prepare(gated, hook)}
  }

  function Calling(w: WaitId, r: ReqId): set<Action> {
    {WaitStart(w, r, None), Wait(w, ReadPhase), Wait(w, TakeOutcome)}
  }

  lemma IsRegistered(c: Conn, gated: bool, hook: bool) returns (d: Conn)
    requires CanPrepare(c, gated)
    ensures Reaches(c, Registering(gated, hook), d) && d == DoPrepare(c, gated, hook)
    ensures CanDispatch(d, c.nextId + 1) && d.reqs[c.nextId + 1] == Fresh(gated, hook)
    ensures d.reader == c.reader && d.waits == c.waits && d.feed == c.feed && d.cancelled == c.cancelled
  {
    d := DoPrepare(c, gated, hook);
    ReachesItself(c, Registering(gated, hook));
    ReachesNext(c, Registering(gated, hook), c, Prepare(gated, hook));
  }

  lemma WaiterArrives(c: Conn, w: WaitId, r: ReqId)
    requires w !in c.waits && r in c.reqs && c.reqs[r].phase == Dispatched && c.reqs[r].outcome.Answer?
    ensures Reaches(c, Calling(w, r), c.(waits := c.waits[w := Waiter(r, false, None, Resolving)]))
  {
    var q := c.reqs[r];
    var x := Waiter(r, false, None, Entering);
    assert c.(waits := c.waits[w := x]) == At(c, w, r, q, x);
    ReachesItself(c, Calling(w, r));
    ReachesNext(c, Calling(w, r), c, WaitStart(w, r, None));
    ThenWait(c, Calling(w, r), w, r, q, x, ReadPhase, q, AtResponse);
    ThenWait(c, Calling(w, r), w, r, q, x.(pc := AtResponse), TakeOutcome, q, Resolving);
    assert At(c, w, r, q, x.(pc := Resolving)) == c.(waits := c.waits[w := Waiter(r, false, None, Resolving)]);
  }

  lemma IsOut(c: Conn, r: ReqId) returns (d: Conn)
    requires Inv(c) && CanDispatch(c, r)
    ensures Inv(d) && Reaches(c, Undisturbed(r), d)
    ensures d == SetReq(c, r, c.reqs[r].(phase := Dispatched, dispatch := Returned, dispatchErr := None,
                                         write := Reported(true), submission := Possible, admitted := true))
  {
    var p := DispatchCanSucceed(c, r);
    d := SetReq(c, r, p);
    ReachesInv(c, Undisturbed(r), d);
  }

  predicate IsAnswered(c: Conn, r: ReqId, hook: bool) {
    && r in c.reqs && c.reqs[r].hook == hook && !c.reqs[r].observer && c.reqs[r].phase == Dispatched
    && c.reqs[r].outcome == Answer(c.feed.lastEnqueued) && !c.reqs[r].resolved && c.reqs[r].resolver.None?
    && c.reqs[r].hooked == 0
  }

  predicate IsSent(c: Conn, r: ReqId, hook: bool) {
    && r in c.reqs && c.reqs[r].inTable && c.reqs[r].admitted && !c.reqs[r].responded
    && c.reqs[r].hook == hook && !c.reqs[r].observer
    && c.reqs[r].phase == Dispatched && !c.reqs[r].resolved && c.reqs[r].resolver.None? && c.reqs[r].hooked == 0
  }

  lemma IsSentOut(c: Conn, gated: bool, hook: bool) returns (d: Conn)
    requires Inv(c) && CanPrepare(c, gated)
    ensures Inv(d) && Reaches(c, Registering(gated, hook) + Undisturbed(c.nextId + 1), d) && IsSent(d, c.nextId + 1, hook)
    ensures d.reader == c.reader && d.waits == c.waits && d.feed == c.feed
  {
    var r := c.nextId + 1;
    var b := IsRegistered(c, gated, hook);
    ReachesInv(c, Registering(gated, hook), b);
    d := IsOut(b, r);
    ReachesOn(c, Registering(gated, hook), b, Undisturbed(r), d);
  }

  lemma IsThere(c: Conn, r: ReqId, hook: bool) returns (d: Conn)
    requires Inv(c) && c.reader == Machine.Reading && IsSent(c, r, hook)
    ensures Inv(d) && Reaches(c, Reading(r), d) && IsAnswered(d, r, hook) && d.feed == c.feed && d.waits == c.waits
  {
    var p, g := ResponseCanArrive(c, r);
    d := Arriving(c, r, p, g, Machine.Reading);
    ReachesInv(c, Reading(r), d);
  }

  /** The Wait has returned the result of r, and nothing of r is left in the table. */
  predicate IsServed(c: Conn, r: ReqId, hook: bool, w: WaitId) {
    && Alive(c, w) && c.waits[w].req == r && c.waits[w].pc == Gone(Got(Delivered))
    && c.reqs[r].final == Delivered && c.reqs[r].hooked == One(hook) && !c.reqs[r].inTable
  }

  lemma IsFetched(c: Conn, r: ReqId, w: WaitId, hook: bool) returns (d: Conn)
    requires Inv(c) && IsAnswered(c, r, hook) && w !in c.waits && c.feed.lastEnqueued <= c.feed.index.watermark
    ensures Reaches(c, Calling(w, r) + Delivering(w, r), d) && IsServed(d, r, hook, w)
  {
    WaiterArrives(c, w, r);
    var b := c.(waits := c.waits[w := Waiter(r, false, None, Resolving)]);
    ReachesInv(c, Calling(w, r), b);
    d := WaitCanDeliver(b, w);
    ReachesOn(c, Calling(w, r), b, Delivering(w, r), d);
  }

  /** All that happens to a request that goes through. */
  function Serving(r: ReqId, gated: bool, hook: bool, w: WaitId): set<Action> {
    Registering(gated, hook) + Undisturbed(r) + Reading(r) + (Calling(w, r) + Delivering(w, r))
  }

  lemma ThreePaths(c: Conn, xs: set<Action>, a: Conn, ys: set<Action>, b: Conn, zs: set<Action>, d: Conn)
    requires Reaches(c, xs, a) && Reaches(a, ys, b) && Reaches(b, zs, d)
    ensures Reaches(c, xs + ys + zs, d)
  {
    ReachesOn(c, xs, a, ys, b);
    ReachesOn(c, xs + ys, b, zs, d);
  }

  /** From every reachable state of a live connection with room for a request, whose reader is between
      two frames and whose notifications are all over: a request can be registered, dispatched,
      answered and delivered. Its Wait returns success, its typed hook has run once if it has one, and
      nothing of it is left in the table. */
  lemma RequestCanBeServed(c: Conn, gated: bool, hook: bool, w: WaitId) returns (d: Conn)
    requires Inv(c) && CanPrepare(c, gated) && c.reader == Machine.Reading && w !in c.waits
    requires c.feed.lastEnqueued <= c.feed.index.watermark
    ensures Reaches(c, Serving(c.nextId + 1, gated, hook, w), d)
    ensures IsServed(d, c.nextId + 1, hook, w)
  {
    var r := c.nextId + 1;
    var a := IsSentOut(c, gated, hook);
    var b := IsThere(a, r, hook);
    d := IsFetched(b, r, w, hook);
    ThreePaths(c, Registering(gated, hook) + Undisturbed(r), a, Reading(r), b, Calling(w, r) + Delivering(w, r), d);
  }

  /** It can be done in the very first state. */
  lemma FirstRequestCanBeServed(limits: Limits, gated: bool, hook: bool, w: WaitId) returns (d: Conn)
    requires limits.pending > 0
    ensures Reaches(Machine.Initial(limits), Serving(1, gated, hook, w), d)
    ensures IsServed(d, 1, hook, w)
  {
    InitialInv(limits);
    assert Table(Machine.Initial(limits)) == {};
    d := RequestCanBeServed(Machine.Initial(limits), gated, hook, w);
  }
}
