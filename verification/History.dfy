/** What the state of a connection says about the run that led to it: facts about a request, a
    delivery or a notification hold exactly if certain actions have happened before. */
module History {
  import opened Results
  import opened Ids
  import opened Requests
  import opened Machine
  import opened Invariant
  import opened Runs
  import Feed
  import Flags
  import Gate

  // ------------------------------------------------- tools

  /** What the action makes of request r. */
  function After(c: Conn, a: Action, r: ReqId): Req
    requires Enabled(c, a) && r in c.reqs
  {
    match a
    case Request(t, s) => if t == r then DoStep(c.reqs[r], s, c.cancelled) else c.reqs[r]
    case Delivery(t, d) => if t == r then AfterDelivery(c.reqs[r], d) else c.reqs[r]
    case Shutdown => Requests.ShutdownTake(c.reqs[r])
    case Read(x) => AfterRead(c, x, r)
    case Wait(w, s) => if c.waits[w].req == r then NextReq(c, w, c.waits[w], c.reqs[r], s) else c.reqs[r]
    case _ => c.reqs[r]
  }

  function AfterDelivery(q: Req, d: DeliveryStep): Req {
    match d
    case ReleaseDiscard => Requests.ReleaseDiscard(q)
    case ReleaseClose => Requests.ReleaseClose(q)
    case ShutdownDiscard => Requests.ShutdownDiscard(q)
    case ShutdownClose => Requests.ShutdownClose(q)
  }

  function AfterRead(c: Conn, x: ReaderStep, r: ReqId): Req
    requires CanRead(c, x) && r in c.reqs
  {
    var q := c.reqs[r];
    match x
    case MatchResponse(t) => if t == r then Requests.Match(q) else q
    case ChainResponse => if c.reader.req == r && q.gated then Requests.Chain(q, |Pruned(c.gate).nodes|) else q
    case DeliverResponse => if c.reader.req == r then Requests.Deliver(q, c.reader.watermark) else q
    case _ => q
  }

  lemma DeliveryAfter(c: Conn, t: ReqId, d: DeliveryStep, r: ReqId)
    requires t in c.reqs && r in c.reqs
    ensures r in DoDeliver(c, t, d).reqs
    ensures DoDeliver(c, t, d).reqs[r] == if t == r then AfterDelivery(c.reqs[r], d) else c.reqs[r]
  {
  }

  lemma ReadAfter(c: Conn, x: ReaderStep, r: ReqId)
    requires CanRead(c, x) && r in c.reqs
    ensures r in DoRead(c, x).reqs && DoRead(c, x).reqs[r] == AfterRead(c, x, r)
  {
  }

  lemma IsAfter(c: Conn, a: Action, r: ReqId)
    requires Enabled(c, a) && r in c.reqs && c.nextId + 1 !in c.reqs
    ensures r in Do(c, a).reqs && Do(c, a).reqs[r] == After(c, a, r)
  {
    match a
    case Delivery(t, d) => DeliveryAfter(c, t, d, r);
    case Read(x) => ReadAfter(c, x, r);
    case _ =>
  }

  lemma KeysAfter(c: Conn, a: Action)
    requires Enabled(c, a)
    ensures Do(c, a).reqs.Keys == c.reqs.Keys + (if a.Prepare? then {c.nextId + 1} else {})
    ensures a.Prepare? ==> Do(c, a).reqs[c.nextId + 1] == Fresh(a.gated, a.hook)
  {
    match a
    case Delivery(t, d) => DeliveryKeys(c, t, d);
    case Read(x) => ReadKeys(c, x);
    case _ =>
  }

  lemma DeliveryKeys(c: Conn, t: ReqId, d: DeliveryStep)
    requires t in c.reqs
    ensures DoDeliver(c, t, d).reqs.Keys == c.reqs.Keys
  {
  }

  lemma ReadKeys(c: Conn, x: ReaderStep)
    requires CanRead(c, x) && (c.reader.Marked? ==> c.reader.req in c.reqs)
    ensures DoRead(c, x).reqs.Keys == c.reqs.Keys
  {
  }

  // ------------------------------------------------- facts about a request

  /** What can be said about a request, and is said for good. */
  datatype Fact =
    | Observed | Started | Began | WriteAccepted | WriteRefused
    | DispatchGood | DispatchBad | DispatchOver | AbortCalled
    | GivenUp | PhaseDecided | CancelAllowed
    | Responded | PutOnChain | HasAnswer | EntryFailed
    | LeftTable | ReleaseAsked | ReleaseOver | SlotDropped
    | ObserverRan | HookRan | IsResolved

  predicate Holds(f: Fact, q: Req) {
    match f
    case Observed => q.observer
    case Started => !q.dispatch.Idle?
    case Began => q.submission == Possible
    case WriteAccepted => q.write == Reported(true)
    case WriteRefused => q.write == Reported(false)
    case DispatchGood => (q.dispatch.Ending? && q.dispatch.err.None?) || (DispatchDone(q) && q.dispatchErr.None?)
    case DispatchBad => DispatchBroken(q)
    case DispatchOver => DispatchDone(q)
    case AbortCalled => q.aborts > 0
    case GivenUp => q.abandonClosed
    case PhaseDecided => q.phase != Ready && q.phase != Dispatching
    case CancelAllowed => q.cancelling
    case Responded => q.responded
    case PutOnChain => q.node >= 0
    case HasAnswer => q.outcome.Answer?
    case EntryFailed => q.outcome.Broken?
    case LeftTable => !q.inTable
    case ReleaseAsked => q.releaseCalled
    case ReleaseOver => q.release == Released
    case SlotDropped => q.discarded
    case ObserverRan => q.observed > 0
    case HookRan => q.hooked > 0
    case IsResolved => q.resolved
  }

  /** Abandon comes early enough. */
  predicate Abandons(q: Req, s: Step) {
    s == AbandonStep && !q.resolved && q.phase != Finished
  }

  /** The section of the request itself that makes the fact true. */
  predicate StepEvent(f: Fact, q: Req, s: Step) {
    match f
    case Observed => s == ObserveStep
    case Started => s == DispatchStartStep
    case Began => s == WriterBeginStep
    case WriteAccepted => s == WriterReportStep(true)
    case WriteRefused => s == WriterReportStep(false) || s == WriterRefuseStep
    case DispatchGood => s == DispatchResultStep && q.phase != Abandoned && q.write == Reported(true)
    case DispatchBad =>
      || s == DispatchFailStep || s == DispatchSeeAbandonStep
      || (s == DispatchResultStep && (q.phase == Abandoned || q.write == Reported(false)))
    case DispatchOver => s == DispatchCompleteStep
    case AbortCalled => s == DispatchAbortStep
    case GivenUp => Abandons(q, s)
    case PhaseDecided =>
      || (s == DispatchFailStep && q.phase != Abandoned && q.submission == NotStarted)
      || s == DispatchCompleteStep || Abandons(q, s)
    case CancelAllowed => s == CancelReadStep
    case EntryFailed => s == ReleaseCompleteStep || s == ShutdownCompleteStep
    case LeftTable => s == ReleaseTakeStep || s == DetachStep
    case ReleaseAsked => s == DispatchReleaseStep || (Abandons(q, s) && q.resolver.None?)
    case ReleaseOver => s == ReleaseCompleteStep
    case _ => false
  }

  /** The fact holds afterwards exactly if it did before or the event makes it true. */
  predicate Adds(f: Fact, q: Req, q': Req, event: bool) {
    Holds(f, q') == (Holds(f, q) || event)
  }

  predicate Explains(f: Fact, q: Req, q': Req, s: Step) {
    Adds(f, q, q', StepEvent(f, q, s))
  }

  lemma DispatchStartFacts(f: Fact, q: Req, cancelled: bool)
    requires ReqOk(q, cancelled) && CanStep(q, DispatchStartStep, cancelled)
    ensures Explains(f, q, DispatchStart(q), DispatchStartStep)
  {
  }

  lemma DispatchCancelFacts(f: Fact, q: Req, cancelled: bool)
    requires ReqOk(q, cancelled) && CanStep(q, DispatchCancelStep, cancelled)
    ensures Explains(f, q, q.(dispatchCancelled := true), DispatchCancelStep)
  {
  }

  lemma DispatchSendFacts(f: Fact, q: Req, cancelled: bool)
    requires ReqOk(q, cancelled) && CanStep(q, DispatchSendStep, cancelled)
    ensures Explains(f, q, DispatchSend(q), DispatchSendStep)
  {
  }

  lemma FailAbandoned(f: Fact, q: Req, cancelled: bool)
    requires ReqOk(q, cancelled) && CanStep(q, DispatchFailStep, cancelled) && q.phase == Abandoned
    ensures Explains(f, q, q.(dispatch := Ending(Abandoned, Some(Classify(q)))), DispatchFailStep)
  {
  }

  lemma FailUnsent(f: Fact, q: Req, cancelled: bool)
    requires ReqOk(q, cancelled) && CanStep(q, DispatchFailStep, cancelled) && q.phase != Abandoned && q.submission == NotStarted
    ensures Explains(f, q, q.(phase := DispatchFailed, dispatch := Failing(NotStarted)), DispatchFailStep)
  {
  }

  lemma FailSent(f: Fact, q: Req, cancelled: bool)
    requires ReqOk(q, cancelled) && CanStep(q, DispatchFailStep, cancelled) && q.phase != Abandoned && q.submission != NotStarted
    ensures Explains(f, q, q.(dispatch := Failing(q.submission)), DispatchFailStep)
  {
  }

  lemma DispatchFailFacts(f: Fact, q: Req, cancelled: bool)
    requires ReqOk(q, cancelled) && CanStep(q, DispatchFailStep, cancelled)
    ensures Explains(f, q, DispatchFail(q), DispatchFailStep)
  {
    if q.phase == Abandoned {
      FailAbandoned(f, q, cancelled);
    } else if q.submission == NotStarted {
      FailUnsent(f, q, cancelled);
    } else {
      FailSent(f, q, cancelled);
    }
  }

  lemma DispatchSeeAbandonFacts(f: Fact, q: Req, cancelled: bool)
    requires ReqOk(q, cancelled) && CanStep(q, DispatchSeeAbandonStep, cancelled)
    ensures Explains(f, q, DispatchSeeAbandon(q), DispatchSeeAbandonStep)
  {
  }

  lemma ResultSeenAbandoned(f: Fact, q: Req, cancelled: bool)
    requires ReqOk(q, cancelled) && CanStep(q, DispatchResultStep, cancelled) && q.phase == Abandoned
    ensures Explains(f, q, q.(dispatch := Ending(Abandoned, Some(q.submission))), DispatchResultStep)
  {
  }

  lemma ResultRefused(f: Fact, q: Req, cancelled: bool)
    requires ReqOk(q, cancelled) && CanStep(q, DispatchResultStep, cancelled) && q.phase != Abandoned && q.write == Reported(false)
    ensures Explains(f, q, q.(dispatch := Failing(q.submission)), DispatchResultStep)
  {
  }

  lemma ResultAccepted(f: Fact, q: Req, cancelled: bool)
    requires ReqOk(q, cancelled) && CanStep(q, DispatchResultStep, cancelled) && q.phase != Abandoned && q.write == Reported(true)
    ensures Explains(f, q, q.(dispatch := Ending(Dispatched, None)), DispatchResultStep)
  {
  }

  lemma DispatchResultFacts(f: Fact, q: Req, cancelled: bool)
    requires ReqOk(q, cancelled) && CanStep(q, DispatchResultStep, cancelled)
    ensures Explains(f, q, DispatchResult(q), DispatchResultStep)
  {
    if q.phase == Abandoned {
      ResultSeenAbandoned(f, q, cancelled);
    } else if !q.write.ok {
      ResultRefused(f, q, cancelled);
    } else {
      ResultAccepted(f, q, cancelled);
    }
  }

  lemma DispatchAbortFacts(f: Fact, q: Req, cancelled: bool)
    requires ReqOk(q, cancelled) && CanStep(q, DispatchAbortStep, cancelled)
    ensures Explains(f, q, DispatchAbort(q), DispatchAbortStep)
  {
  }

  lemma DispatchReleaseFacts(f: Fact, q: Req, cancelled: bool)
    requires ReqOk(q, cancelled) && CanStep(q, DispatchReleaseStep, cancelled)
    ensures Explains(f, q, DispatchRelease(q), DispatchReleaseStep)
  {
  }

  lemma DispatchUnwindFacts(f: Fact, q: Req, cancelled: bool)
    requires ReqOk(q, cancelled) && CanStep(q, DispatchUnwindStep, cancelled)
    ensures Explains(f, q, DispatchUnwind(q), DispatchUnwindStep)
  {
  }

  lemma CompleteAsPlanned(f: Fact, q: Req, cancelled: bool)
    requires ReqOk(q, cancelled) && CanStep(q, DispatchCompleteStep, cancelled)
    requires q.phase != Abandoned || q.dispatch.phase == Abandoned
    ensures Explains(f, q, q.(phase := q.dispatch.phase, dispatchErr := q.dispatch.err, dispatch := Returned), DispatchCompleteStep)
  {
  }

  lemma CompleteAbandoned(f: Fact, q: Req, cancelled: bool)
    requires ReqOk(q, cancelled) && CanStep(q, DispatchCompleteStep, cancelled) && q.phase == Abandoned
    ensures Explains(f, q, q.(dispatchErr := q.dispatch.err, dispatch := Returned), DispatchCompleteStep)
  {
  }

  lemma DispatchCompleteFacts(f: Fact, q: Req, cancelled: bool)
    requires ReqOk(q, cancelled) && CanStep(q, DispatchCompleteStep, cancelled)
    ensures Explains(f, q, DispatchComplete(q), DispatchCompleteStep)
  {
    if q.phase != Abandoned || q.dispatch.phase == Abandoned {
      CompleteAsPlanned(f, q, cancelled);
    } else {
      CompleteAbandoned(f, q, cancelled);
    }
  }

  lemma WriterRefuseFacts(f: Fact, q: Req, cancelled: bool)
    requires ReqOk(q, cancelled) && CanStep(q, WriterRefuseStep, cancelled)
    ensures Explains(f, q, q.(write := Reported(false)), WriterRefuseStep)
  {
  }

  lemma WriterBeginFacts(f: Fact, q: Req, cancelled: bool)
    requires ReqOk(q, cancelled) && CanStep(q, WriterBeginStep, cancelled)
    ensures Explains(f, q, WriterBegin(q), WriterBeginStep)
  {
  }

  lemma WriterInvokeFacts(f: Fact, q: Req, cancelled: bool)
    requires ReqOk(q, cancelled) && CanStep(q, WriterInvokeStep, cancelled)
    ensures Explains(f, q, q.(write := Invoked), WriterInvokeStep)
  {
  }

  lemma WriterReportFacts(f: Fact, q: Req, cancelled: bool, ok: bool)
    requires ReqOk(q, cancelled) && CanStep(q, WriterReportStep(ok), cancelled)
    ensures Explains(f, q, q.(write := Reported(ok)), WriterReportStep(ok))
  {
  }

  lemma ObserveFacts(f: Fact, q: Req, cancelled: bool)
    requires ReqOk(q, cancelled) && CanStep(q, ObserveStep, cancelled)
    ensures Explains(f, q, Observe(q), ObserveStep)
  {
  }

  lemma AbandonedLate(f: Fact, q: Req, cancelled: bool)
    requires ReqOk(q, cancelled) && CanStep(q, AbandonStep, cancelled) && (q.resolved || q.phase == Finished)
    ensures Explains(f, q, q, AbandonStep)
  {
  }

  lemma AbandonedResolving(f: Fact, q: Req, cancelled: bool)
    requires ReqOk(q, cancelled) && CanStep(q, AbandonStep, cancelled) && !q.resolved && q.phase != Finished && q.resolver.Some?
    ensures Explains(f, q, q.(phase := Abandoned, abandonClosed := true, detach := true), AbandonStep)
  {
  }

  lemma AbandonedOpen(f: Fact, q: Req, cancelled: bool)
    requires ReqOk(q, cancelled) && CanStep(q, AbandonStep, cancelled) && !q.resolved && q.phase != Finished && q.resolver.None?
    ensures Explains(f, q, q.(phase := Abandoned, abandonClosed := true, releaseCalled := true), AbandonStep)
  {
  }

  lemma AbandonFacts(f: Fact, q: Req, cancelled: bool)
    requires ReqOk(q, cancelled) && CanStep(q, AbandonStep, cancelled)
    ensures Explains(f, q, Abandon(q), AbandonStep)
  {
    if q.resolved || q.phase == Finished {
      AbandonedLate(f, q, cancelled);
    } else if q.resolver.Some? {
      AbandonedResolving(f, q, cancelled);
    } else {
      AbandonedOpen(f, q, cancelled);
    }
  }

  lemma DetachFacts(f: Fact, q: Req, cancelled: bool)
    requires ReqOk(q, cancelled) && CanStep(q, DetachStep, cancelled)
    ensures Explains(f, q, q.(inTable := false, detach := false), DetachStep)
  {
  }

  lemma CancelReadFacts(f: Fact, q: Req, cancelled: bool)
    requires ReqOk(q, cancelled) && CanStep(q, CancelReadStep, cancelled)
    ensures Explains(f, q, q.(cancelling := true), CancelReadStep)
  {
  }

  lemma TakenFacts(f: Fact, q: Req, v: Release)
    requires q.release == Unreleased && v != Released
    ensures Explains(f, q, q.(inTable := false, release := v), ReleaseTakeStep)
  {
  }

  lemma ReleaseTakeFacts(f: Fact, q: Req, cancelled: bool)
    requires ReqOk(q, cancelled) && CanStep(q, ReleaseTakeStep, cancelled)
    ensures Explains(f, q, ReleaseTake(q), ReleaseTakeStep)
  {
    TakenFacts(f, q, Claimed(q));
    assert ReleaseTake(q) == q.(inTable := false, release := Claimed(q));
  }

  lemma ReleaseCompleteFacts(f: Fact, q: Req, cancelled: bool)
    requires ReqOk(q, cancelled) && CanStep(q, ReleaseCompleteStep, cancelled)
    ensures Explains(f, q, ReleaseComplete(q), ReleaseCompleteStep)
  {
  }

  lemma ShutdownCompleteFacts(f: Fact, q: Req, cancelled: bool)
    requires ReqOk(q, cancelled) && CanStep(q, ShutdownCompleteStep, cancelled)
    ensures Explains(f, q, ShutdownComplete(q), ShutdownCompleteStep)
  {
  }

  lemma ByDispatchFacts(f: Fact, q: Req, s: Step, cancelled: bool)
    requires ReqOk(q, cancelled) && CanStep(q, s, cancelled) && ByDispatch(s) && !Unwinds(s)
    ensures Explains(f, q, DoStep(q, s, cancelled), s)
  {
    match s
    case DispatchStartStep =>
      DispatchStartFacts(f, q, cancelled);
      assert DoStep(q, s, cancelled) == DispatchStart(q);
    case DispatchCancelStep =>
      DispatchCancelFacts(f, q, cancelled);
      assert DoStep(q, s, cancelled) == q.(dispatchCancelled := true);
    case DispatchSendStep =>
      DispatchSendFacts(f, q, cancelled);
      assert DoStep(q, s, cancelled) == DispatchSend(q);
    case DispatchFailStep =>
      DispatchFailFacts(f, q, cancelled);
      assert DoStep(q, s, cancelled) == DispatchFail(q);
    case DispatchSeeAbandonStep =>
      DispatchSeeAbandonFacts(f, q, cancelled);
      assert DoStep(q, s, cancelled) == DispatchSeeAbandon(q);
    case DispatchResultStep =>
      DispatchResultFacts(f, q, cancelled);
      assert DoStep(q, s, cancelled) == DispatchResult(q);
  }

  lemma ByUnwindingFacts(f: Fact, q: Req, s: Step, cancelled: bool)
    requires ReqOk(q, cancelled) && CanStep(q, s, cancelled) && ByDispatch(s) && Unwinds(s)
    ensures Explains(f, q, DoStep(q, s, cancelled), s)
  {
    match s
    case DispatchAbortStep =>
      DispatchAbortFacts(f, q, cancelled);
      assert DoStep(q, s, cancelled) == DispatchAbort(q);
    case DispatchReleaseStep =>
      DispatchReleaseFacts(f, q, cancelled);
      assert DoStep(q, s, cancelled) == DispatchRelease(q);
    case DispatchUnwindStep =>
      DispatchUnwindFacts(f, q, cancelled);
      assert DoStep(q, s, cancelled) == DispatchUnwind(q);
    case DispatchCompleteStep =>
      DispatchCompleteFacts(f, q, cancelled);
      assert DoStep(q, s, cancelled) == DispatchComplete(q);
  }

  lemma ByWriterFacts(f: Fact, q: Req, s: Step, cancelled: bool)
    requires ReqOk(q, cancelled) && CanStep(q, s, cancelled) && ByWriter(s)
    ensures Explains(f, q, DoStep(q, s, cancelled), s)
  {
    if s.WriterRefuseStep? || s.WriterBeginStep? {
      ByWriterFirst(f, q, s, cancelled);
    } else {
      ByWriterNext(f, q, s, cancelled);
    }
  }

  lemma ByWriterFirst(f: Fact, q: Req, s: Step, cancelled: bool)
    requires ReqOk(q, cancelled) && CanStep(q, s, cancelled) && (s.WriterRefuseStep? || s.WriterBeginStep?)
    ensures Explains(f, q, DoStep(q, s, cancelled), s)
  {
    if s.WriterRefuseStep? {
      WriterRefuseFacts(f, q, cancelled);
      assert DoStep(q, s, cancelled) == q.(write := Reported(false));
    } else {
      WriterBeginFacts(f, q, cancelled);
      assert DoStep(q, s, cancelled) == WriterBegin(q);
    }
  }

  lemma ByWriterNext(f: Fact, q: Req, s: Step, cancelled: bool)
    requires ReqOk(q, cancelled) && CanStep(q, s, cancelled) && (s.WriterInvokeStep? || s.WriterReportStep?)
    ensures Explains(f, q, DoStep(q, s, cancelled), s)
  {
    if s.WriterInvokeStep? {
      WriterInvokeFacts(f, q, cancelled);
      assert DoStep(q, s, cancelled) == q.(write := Invoked);
    } else {
      WriterReportFacts(f, q, cancelled, s.ok);
      assert DoStep(q, s, cancelled) == q.(write := Reported(s.ok));
    }
  }

  lemma ByOtherFacts(f: Fact, q: Req, s: Step, cancelled: bool)
    requires ReqOk(q, cancelled) && CanStep(q, s, cancelled) && !ByDispatch(s) && !ByWriter(s) && !OnlyReports(s)
    ensures Explains(f, q, DoStep(q, s, cancelled), s)
  {
    match s
    case ObserveStep =>
      ObserveFacts(f, q, cancelled);
      assert DoStep(q, s, cancelled) == Observe(q);
    case AbandonStep =>
      AbandonFacts(f, q, cancelled);
      assert DoStep(q, s, cancelled) == Abandon(q);
    case DetachStep =>
      DetachFacts(f, q, cancelled);
      assert DoStep(q, s, cancelled) == q.(inTable := false, detach := false);
    case CancelReadStep =>
      CancelReadFacts(f, q, cancelled);
      assert DoStep(q, s, cancelled) == q.(cancelling := true);
    case ReleaseTakeStep =>
      ReleaseTakeFacts(f, q, cancelled);
      assert DoStep(q, s, cancelled) == ReleaseTake(q);
    case ReleaseCompleteStep =>
      ReleaseCompleteFacts(f, q, cancelled);
      assert DoStep(q, s, cancelled) == ReleaseComplete(q);
    case ShutdownCompleteStep =>
      ShutdownCompleteFacts(f, q, cancelled);
      assert DoStep(q, s, cancelled) == ShutdownComplete(q);
  }

  lemma StepFacts(f: Fact, q: Req, s: Step, cancelled: bool)
    requires ReqOk(q, cancelled) && CanStep(q, s, cancelled)
    ensures Explains(f, q, DoStep(q, s, cancelled), s)
  {
    if Unwinds(s) {
      ByUnwindingFacts(f, q, s, cancelled);
    } else if ByDispatch(s) {
      ByDispatchFacts(f, q, s, cancelled);
    } else if ByWriter(s) {
      ByWriterFacts(f, q, s, cancelled);
    } else if OnlyReports(s) {
      assert DoStep(q, s, cancelled) == q;
    } else {
      ByOtherFacts(f, q, s, cancelled);
    }
  }

  /** The step of a Wait that makes the fact true. */
  predicate WaitEvent(f: Fact, x: Waiter, q: Req, s: WaitStep) {
    match f
    case PhaseDecided => s == ReadyCheck && q.outcome.Broken? && q.phase == Ready
    case ReleaseAsked => s == Machine.CallRelease
    case ObserverRan => s == Machine.ObserverStart
    case HookRan => s == Machine.HookStart
    case IsResolved => s == Machine.Settle && x.pc.Settling? && (!x.pc.retry || q.phase == Abandoned)
    case _ => false
  }

  predicate DeliveryEvent(f: Fact, q: Req, d: DeliveryStep) {
    match f
    case SlotDropped => q.gated && (d.ReleaseDiscard? || d.ShutdownDiscard?)
    case ReleaseOver => d.ReleaseClose? || (d.ReleaseDiscard? && q.release != Taken)
    case _ => false
  }

  predicate ReadEvent(f: Fact, c: Conn, x: ReaderStep, r: ReqId)
    requires CanRead(c, x) && r in c.reqs
  {
    match f
    case Responded => x == MatchResponse(r)
    case PutOnChain => x == ChainResponse && c.reader.req == r && c.reqs[r].gated
    case HasAnswer => x == DeliverResponse && c.reader.req == r
    case _ => false
  }

  lemma ReadyFacts(f: Fact, q: Req, cancelled: bool)
    requires ReqOk(q, cancelled) && q.outcome.Broken?
    ensures Adds(f, q, FinishReady(q), f == PhaseDecided && q.phase == Ready)
  {
    if q.phase == Ready {
      assert FinishReady(q) == q.(phase := Finished);
    } else {
      assert FinishReady(q) == q;
    }
  }

  lemma BrokenFacts(f: Fact, q: Req, cancelled: bool)
    requires ReqOk(q, cancelled) && q.outcome.Broken? && Sent(q)
    ensures Adds(f, q, FinishBroken(q), false)
  {
  }

  lemma ResolvingFacts(f: Fact, w: WaitId, q: Req, cancelled: bool)
    requires ReqOk(q, cancelled) && q.resolver.None?
    ensures Adds(f, q, Requests.ResolveStart(q, w), false)
  {
  }

  lemma ObservingFacts(f: Fact, q: Req, cancelled: bool)
    ensures Adds(f, q, Requests.ObserverStart(q), f == ObserverRan)
  {
  }

  lemma HookingFacts(f: Fact, q: Req, cancelled: bool)
    ensures Adds(f, q, Requests.HookStart(q), f == HookRan)
  {
  }

  lemma ReleasingFacts(f: Fact, q: Req, cancelled: bool)
    requires ReqOk(q, cancelled) && q.resolved
    ensures Adds(f, q, Requests.CallRelease(q), f == ReleaseAsked)
  {
  }

  lemma SettledOpen(f: Fact, q: Req, cancelled: bool)
    requires ReqOk(q, cancelled) && q.resolver.Some? && q.phase != Abandoned
    ensures Adds(f, q, q.(resolver := None), false)
  {
  }

  lemma SettledGivenUp(f: Fact, q: Req, cancelled: bool)
    requires ReqOk(q, cancelled) && q.resolver.Some?
    ensures Adds(f, q, q.(resolver := None, resolved := true, final := WasAbandoned), f == IsResolved)
  {
  }

  lemma SettledFinally(f: Fact, pair: Pair, q: Req, cancelled: bool)
    requires ReqOk(q, cancelled) && q.resolver.Some?
    ensures Adds(f, q, q.(resolver := None, resolved := true, phase := Finished, final := pair), f == IsResolved)
  {
  }

  lemma SettleFacts(f: Fact, q: Req, cancelled: bool, pair: Pair, retry: bool)
    requires ReqOk(q, cancelled) && q.resolver.Some?
    ensures Adds(f, q, Requests.Settle(q, pair, retry), f == IsResolved && (!retry || q.phase == Abandoned))
  {
    if retry && q.phase != Abandoned {
      SettledOpen(f, q, cancelled);
    } else if retry {
      SettledGivenUp(f, q, cancelled);
    } else {
      SettledFinally(f, if q.phase == Abandoned then WasAbandoned else pair, q, cancelled);
    }
  }

  lemma EndingFacts(f: Fact, c: Conn, w: WaitId, x: Waiter, q: Req, s: WaitStep, q': Req)
    requires ReqOk(q, c.cancelled) && WaitOk(w, x, q, c.feed) && CanWait(c, x, q, s) && q' == NextReq(c, w, x, q, s) && (s.ReadyCheck? || s.TakeOutcome?)
    ensures Adds(f, q, q', WaitEvent(f, x, q, s))
  {
    if !q.outcome.Broken? {
      assert q' == q;
    } else if s.ReadyCheck? {
      ReadyFacts(f, q, c.cancelled);
      assert q' == FinishReady(q);
    } else {
      BrokenFacts(f, q, c.cancelled);
      assert q' == FinishBroken(q);
    }
  }

  lemma LeaverResolves(w: WaitId, x: Waiter, q: Req, f: Feed.Feed)
    requires WaitOk(w, x, q, f)
    ensures x.pc.Settling? ==> q.resolver.Some?
    ensures x.pc.Freeing? ==> q.resolved
  {
  }

  lemma SettlingFacts(f: Fact, x: Waiter, q: Req, q': Req, cancelled: bool)
    requires ReqOk(q, cancelled) && q.resolver.Some? && x.pc.Settling? && q' == Requests.Settle(q, x.pc.pair, x.pc.retry)
    ensures Adds(f, q, q', WaitEvent(f, x, q, Machine.Settle))
  {
    SettleFacts(f, q, cancelled, x.pc.pair, x.pc.retry);
    assert WaitEvent(f, x, q, Machine.Settle) == (f == IsResolved && (!x.pc.retry || q.phase == Abandoned));
  }

  lemma FreeingFacts(f: Fact, x: Waiter, q: Req, q': Req, cancelled: bool)
    requires ReqOk(q, cancelled) && q.resolved && q' == Requests.CallRelease(q)
    ensures Adds(f, q, q', WaitEvent(f, x, q, Machine.CallRelease))
  {
    ReleasingFacts(f, q, cancelled);
    assert WaitEvent(f, x, q, Machine.CallRelease) == (f == ReleaseAsked);
  }

  lemma IdleFacts(f: Fact, c: Conn, w: WaitId, x: Waiter, q: Req, s: WaitStep, q': Req)
    requires CanWait(c, x, q, s) && q' == NextReq(c, w, x, q, s)
    requires !s.ReadyCheck? && !s.TakeOutcome? && !s.Settle? && !s.CallRelease? && !s.ObserverStart? && !s.HookStart?
    requires !(s.Resolve? && AfterResolve(q) == Ordering)
    ensures Adds(f, q, q', WaitEvent(f, x, q, s))
  {
    assert q' == q && !WaitEvent(f, x, q, s);
  }

  lemma StartingFacts(f: Fact, c: Conn, w: WaitId, x: Waiter, q: Req, s: WaitStep, q': Req)
    requires ReqOk(q, c.cancelled) && CanWait(c, x, q, s) && q' == NextReq(c, w, x, q, s)
    requires (s.Resolve? && AfterResolve(q) == Ordering) || s.ObserverStart? || s.HookStart?
    ensures Adds(f, q, q', WaitEvent(f, x, q, s))
  {
    match s
    case Resolve =>
      ResolvingFacts(f, w, q, c.cancelled);
      assert q' == Requests.ResolveStart(q, w) && !WaitEvent(f, x, q, s);
    case ObserverStart =>
      ObservingFacts(f, q, c.cancelled);
      assert q' == Requests.ObserverStart(q) && WaitEvent(f, x, q, s) == (f == ObserverRan);
    case HookStart =>
      HookingFacts(f, q, c.cancelled);
      assert q' == Requests.HookStart(q) && WaitEvent(f, x, q, s) == (f == HookRan);
  }

  lemma WaitStepFacts(f: Fact, c: Conn, w: WaitId, x: Waiter, q: Req, s: WaitStep, q': Req)
    requires ReqOk(q, c.cancelled) && WaitOk(w, x, q, c.feed) && CanWait(c, x, q, s) && q' == NextReq(c, w, x, q, s)
    ensures Adds(f, q, q', WaitEvent(f, x, q, s))
  {
    if s.ReadyCheck? || s.TakeOutcome? {
      EndingFacts(f, c, w, x, q, s, q');
    } else if s.Settle? {
      LeaverResolves(w, x, q, c.feed);
      SettlingFacts(f, x, q, q', c.cancelled);
    } else if s.CallRelease? {
      LeaverResolves(w, x, q, c.feed);
      FreeingFacts(f, x, q, q', c.cancelled);
    } else if s.ObserverStart? || s.HookStart? || (s.Resolve? && AfterResolve(q) == Ordering) {
      StartingFacts(f, c, w, x, q, s, q');
    } else {
      IdleFacts(f, c, w, x, q, s, q');
    }
  }

  lemma ReleaseDiscardFacts(f: Fact, q: Req, cancelled: bool)
    requires ReqOk(q, cancelled) && CanDeliver(q, Machine.ReleaseDiscard)
    ensures Adds(f, q, Requests.ReleaseDiscard(q), DeliveryEvent(f, q, Machine.ReleaseDiscard))
  {
  }

  lemma ReleaseCloseFacts(f: Fact, q: Req, cancelled: bool)
    requires ReqOk(q, cancelled) && CanDeliver(q, Machine.ReleaseClose)
    ensures Adds(f, q, Requests.ReleaseClose(q), DeliveryEvent(f, q, Machine.ReleaseClose))
  {
  }

  lemma ShutdownDiscardFacts(f: Fact, q: Req, cancelled: bool)
    requires ReqOk(q, cancelled) && CanDeliver(q, Machine.ShutdownDiscard)
    ensures Adds(f, q, Requests.ShutdownDiscard(q), DeliveryEvent(f, q, Machine.ShutdownDiscard))
  {
  }

  lemma ShutdownCloseFacts(f: Fact, q: Req, cancelled: bool)
    requires ReqOk(q, cancelled) && CanDeliver(q, Machine.ShutdownClose)
    ensures Adds(f, q, Requests.ShutdownClose(q), DeliveryEvent(f, q, Machine.ShutdownClose))
  {
  }

  lemma DeliveryFacts(f: Fact, q: Req, d: DeliveryStep, cancelled: bool)
    requires ReqOk(q, cancelled) && CanDeliver(q, d)
    ensures Adds(f, q, AfterDelivery(q, d), DeliveryEvent(f, q, d))
  {
    match d
    case ReleaseDiscard =>
      ReleaseDiscardFacts(f, q, cancelled);
      assert AfterDelivery(q, d) == Requests.ReleaseDiscard(q);
    case ReleaseClose =>
      ReleaseCloseFacts(f, q, cancelled);
      assert AfterDelivery(q, d) == Requests.ReleaseClose(q);
    case ShutdownDiscard =>
      ShutdownDiscardFacts(f, q, cancelled);
      assert AfterDelivery(q, d) == Requests.ShutdownDiscard(q);
    case ShutdownClose =>
      ShutdownCloseFacts(f, q, cancelled);
      assert AfterDelivery(q, d) == Requests.ShutdownClose(q);
  }

  lemma ReadFacts(f: Fact, c: Conn, x: ReaderStep, r: ReqId)
    requires r in c.reqs && ReqOk(c.reqs[r], c.cancelled) && ReaderOk(c) && CanRead(c, x)
    ensures Adds(f, c.reqs[r], AfterRead(c, x, r), ReadEvent(f, c, x, r))
  {
  }

  lemma ShutdownFacts(f: Fact, q: Req, cancelled: bool)
    requires ReqOk(q, cancelled)
    ensures Adds(f, q, Requests.ShutdownTake(q), f == LeftTable)
  {
    if q.inTable {
      SweptFacts(f, q);
    } else {
      assert Requests.ShutdownTake(q) == q;
    }
  }

  lemma SweptFacts(f: Fact, q: Req)
    ensures Adds(f, q, q.(inTable := false, shutdown := Swept), f == LeftTable)
  {
  }

  // ------------------------------------------------- over whole runs

  /** The action makes the fact true of request r. */
  predicate Event(f: Fact, c: Conn, a: Action, r: ReqId)
    requires Enabled(c, a)
  {
    r in c.reqs &&
    match a
    case Request(t, s) => t == r && StepEvent(f, c.reqs[r], s)
    case Delivery(t, d) => t == r && DeliveryEvent(f, c.reqs[r], d)
    case Shutdown => f == LeftTable
    case Read(x) => ReadEvent(f, c, x, r)
    case Wait(w, s) => c.waits[w].req == r && WaitEvent(f, c.waits[w], c.reqs[r], s)
    case _ => false
  }

  lemma WaiterFacts(f: Fact, c: Conn, w: WaitId, s: WaitStep)
    requires ReqsOk(c) && WaitsOk(c) && Enabled(c, Wait(w, s))
    ensures var r := c.waits[w].req; Adds(f, c.reqs[r], After(c, Wait(w, s), r), Event(f, c, Wait(w, s), r))
  {
    var r := c.waits[w].req;
    assert ReqOk(c.reqs[r], c.cancelled) && WaitOk(w, c.waits[w], c.reqs[r], c.feed);
    WaitStepFacts(f, c, w, c.waits[w], c.reqs[r], s, After(c, Wait(w, s), r));
  }

  lemma SharedFacts(f: Fact, c: Conn, a: Action, r: ReqId)
    requires ReaderOk(c) && Enabled(c, a) && r in c.reqs && ReqOk(c.reqs[r], c.cancelled) && !a.Request? && !a.Wait?
    ensures Adds(f, c.reqs[r], After(c, a, r), Event(f, c, a, r))
  {
    match a
    case Delivery(t, d) => if t == r { DeliveryFacts(f, c.reqs[r], d, c.cancelled); }
    case Shutdown => ShutdownFacts(f, c.reqs[r], c.cancelled);
    case Read(x) => ReadFacts(f, c, x, r);
    case _ =>
  }

  lemma SectionFacts(f: Fact, c: Conn, t: ReqId, s: Step, r: ReqId)
    requires ReqsOk(c) && Enabled(c, Request(t, s)) && r in c.reqs
    ensures Adds(f, c.reqs[r], After(c, Request(t, s), r), Event(f, c, Request(t, s), r))
  {
    assert ReqOk(c.reqs[r], c.cancelled);
    if t == r { StepFacts(f, c.reqs[r], s, c.cancelled); }
  }

  lemma AfterFacts(f: Fact, c: Conn, a: Action, r: ReqId)
    requires ReqsOk(c) && WaitsOk(c) && ReaderOk(c) && Enabled(c, a) && r in c.reqs
    ensures Adds(f, c.reqs[r], After(c, a, r), Event(f, c, a, r))
  {
    assert ReqOk(c.reqs[r], c.cancelled);
    if a.Request? {
      SectionFacts(f, c, a.r, a.step, r);
    } else if a.Wait? {
      if c.waits[a.w].req == r { WaiterFacts(f, c, a.w, a.wait); }
    } else {
      SharedFacts(f, c, a, r);
    }
  }

  /** The fact holds of a request that exists. */
  predicate Known(f: Fact, c: Conn, r: ReqId) {
    r in c.reqs && Holds(f, c.reqs[r])
  }

  lemma KnownStays(f: Fact, c: Conn, a: Action, r: ReqId)
    requires ReqsOk(c) && WaitsOk(c) && ReaderOk(c) && Enabled(c, a) && r in c.reqs && c.nextId + 1 !in c.reqs
    ensures Known(f, Do(c, a), r) == (Known(f, c, r) || Event(f, c, a, r))
  {
    IsAfter(c, a, r);
    AfterFacts(f, c, a, r);
  }

  lemma NothingKnown(f: Fact, c: Conn, a: Action, r: ReqId)
    requires Enabled(c, a) && r !in c.reqs
    ensures !Known(f, Do(c, a), r)
  {
    KeysAfter(c, a);
    if a.Prepare? { FreshKnowsNothing(f, a.gated, a.hook); }
  }

  lemma FreshKnowsNothing(f: Fact, gated: bool, hook: bool)
    ensures !Holds(f, Fresh(gated, hook))
  {
  }

  lemma KnownAfter(f: Fact, c: Conn, a: Action, r: ReqId)
    requires Inv(c) && Enabled(c, a)
    ensures Known(f, Do(c, a), r) == (Known(f, c, r) || Event(f, c, a, r))
  {
    NextIdFree(c);
    if r in c.reqs {
      KnownStays(f, c, a, r);
    } else {
      NothingKnown(f, c, a, r);
    }
  }

  lemma KnownInRun(states: seq<Conn>, acts: seq<Action>, k: nat, r: ReqId, f: Fact)
    requires IsRun(states, acts) && k < |acts|
    ensures Enabled(states[k], acts[k])
    ensures Known(f, states[k + 1], r) == (Known(f, states[k], r) || Event(f, states[k], acts[k], r))
  {
    RunInv(states, acts, k);
    KnownAfter(f, states[k], acts[k], r);
  }

  /** The action k of the run makes the fact true of request r. */
  predicate EventAt(f: Fact, states: seq<Conn>, acts: seq<Action>, k: nat, r: ReqId)
    requires |states| == |acts| + 1 && k < |acts| && Enabled(states[k], acts[k])
  {
    Event(f, states[k], acts[k], r)
  }

  /** In every run a fact holds of a request exactly if one of its events has happened before. */
  lemma FactsExplained(states: seq<Conn>, acts: seq<Action>, i: nat, r: ReqId, f: Fact)
    requires IsRun(states, acts) && i < |states|
    ensures Known(f, states[i], r) <==> exists k :: 0 <= k < i && EventAt(f, states, acts, k, r)
  {
    var flags := seq(|states|, k requires 0 <= k < |states| => Known(f, states[k], r));
    var events := seq(|acts|, k requires 0 <= k < |acts| => EventAt(f, states, acts, k, r));
    forall k | 0 <= k < |acts| ensures flags[k + 1] <==> flags[k] || events[k] {
      KnownInRun(states, acts, k, r, f);
    }
    Flags.UpAfter(flags, events, i);
    forall k | 0 <= k < i ensures events[k] == EventAt(f, states, acts, k, r) {
    }
  }
}
