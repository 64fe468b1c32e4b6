/** One outbound request: its pendingResponse (guarded by Connection.mu) and its PreparedRequest
    (guarded by the request's own mutex), with one step per critical section or channel
    operation of Dispatch, the writer goroutine, Wait, Abandon and shutdown. */
module Requests {
  import opened Results
  import opened Ids

  datatype Phase = Ready | Dispatching | Dispatched | DispatchFailed | Abandoned | Finished

  /** The numeric order of preparedRequestPhase. */
  function Rank(p: Phase): nat {
    match p
    case Ready => 0
    case Dispatching => 1
    case Dispatched => 2
    case DispatchFailed => 3
    case Abandoned => 4
    case Finished => 5
  }

  /** RequestSubmissionState. The stored state is never Pending. */
  datatype Submission = NotStarted | Possible | Pending

  /** pendingResponse.done and its result: an answer carries its notification watermark. */
  datatype Outcome = Waiting | Answer(watermark: nat) | Broken

  /** Where the goroutine that called Dispatch stands. */
  datatype Dispatch =
    | Idle
    | Sending                                       // about to put the write on the queue
    | Awaiting                                      // waiting for the write's result
    | Failing(state: Submission)                    // failure decided, Abort not yet called
    | Aborted                                       // Abort has returned
    | Releasing(state: Submission)                  // inside releasePending
    | Ending(phase: Phase, err: Option<Submission>) // about to call completeDispatch
    | Returned

  /** The queuedWrite of the request. Begun: beginWrite succeeded; Invoked: inside Write. */
  datatype Write = Unqueued | Queued | Begun | Invoked | Reported(ok: bool)

  /** releasePending runs once: None yet, after abandonPending's or finishPending's section
      under Connection.mu, and the channel operations that follow it. */
  datatype Release = Unreleased | Taken | Discarded | Answered | Unanswered | Released

  /** What shutdown still has to do for a request it took out of the table. */
  datatype Shutdown = Untouched | Swept | Failed | Done

  /** The (result, error) pair a resolution ends with, up to payload. */
  datatype Pair =
    | Delivered
    | OrderFailed | ObserverFailed | RpcFailed | DecodeFailed | HookFailed | WasAbandoned

  datatype Req = Req(
    gated: bool,
    // pendingResponse
    inTable: bool, admitted: bool, responded: bool, outcome: Outcome,
    discarded: bool,                // its delivery was closed without being chained
    node: int,                      // its position in the delivery history, -1 before chaining
    // PreparedRequest
    phase: Phase, submission: Submission, observer: bool, hook: bool,
    abandonClosed: bool,
    dispatch: Dispatch, dispatchCancelled: bool, write: Write,
    dispatchErr: Option<Submission>,  // None stands for nil
    resolver: Option<WaitId>,       // resolving, and on whose behalf
    attempt: nat, resolved: bool, final: Pair,
    releaseCalled: bool, release: Release,
    detach: bool,                   // Abandon still has to call detachPending
    shutdown: Shutdown,
    cancelling: bool,               // a CancelRequest has read a phase that lets it send
    // history
    aborts: nat, observed: nat, hooked: nat)

  function Fresh(gated: bool, hook: bool): Req {
    Req(gated, true, false, false, Waiting, false, -1,
        Ready, NotStarted, false, hook, false, Idle, false, Unqueued, None,
        None, 0, false, Delivered, false, Unreleased, false, Untouched, false, 0, 0, 0)
  }

  predicate DispatchDone(q: Req) {
    q.dispatch.Returned?
  }

  /** submissionStateLocked. */
  function Classify(q: Req): Submission {
    if q.submission == Possible then Possible
    else if q.phase == Ready || q.phase == Dispatching then Pending
    else NotStarted
  }

  // ------------------------------------------------- three facts that never stop holding

  /** The writer has not been invoked for q, and never will be. */
  predicate Sealed(q: Req) {
    && q.submission == NotStarted
    && ((q.phase != Ready && q.phase != Dispatching) || q.write.Reported? || !q.inTable)
  }

  /** A Wait may go on to the response: the dispatch succeeded, or there was none and never
      will be. */
  predicate Sent(q: Req) {
    || (q.dispatch.Returned? && q.dispatchErr.None?)
    || (q.dispatch.Idle? && q.outcome.Broken? && q.phase == Finished)
  }

  predicate DispatchBroken(q: Req) {
    || q.dispatch.Failing? || q.dispatch.Aborted? || q.dispatch.Releasing?
    || (q.dispatch.Ending? && q.dispatch.err.Some?)
    || (q.dispatch.Returned? && q.dispatchErr.Some?)
  }

  /** No observer or hook of q is running, and none will ever start. */
  predicate Quiet(q: Req) {
    && q.resolver.None?
    && (q.resolved || q.phase == Abandoned || DispatchBroken(q) || q.outcome.Broken?)
  }

  // ------------------------------------------------- the invariant of one request

  predicate PhaseOk(q: Req) {
    && q.submission != Pending
    && (q.phase == Ready ==> q.dispatch.Idle?)
    && (q.phase == Dispatching ==> !q.dispatch.Idle? && !q.dispatch.Returned?)
    && (q.phase == Dispatched ==> q.dispatch.Returned? && q.dispatchErr.None?)
    && (q.phase == DispatchFailed ==> DispatchBroken(q))
    && (q.phase == Finished ==> Sent(q) && (q.resolved || q.outcome.Broken?))
    && (q.abandonClosed <==> q.phase == Abandoned || (q.phase == Finished && q.abandonClosed))
    && (q.dispatch.Idle? ==> q.phase == Ready || q.phase == Abandoned || q.phase == Finished)
    && (q.dispatch.Sending? || q.dispatch.Awaiting? ==> q.phase == Dispatching || q.phase == Abandoned)
    && (DispatchBroken(q) ==> q.phase == Dispatching || q.phase == DispatchFailed || q.phase == Abandoned)
    && (q.dispatch.Returned? && q.phase == Dispatching ==> false)
    && (q.dispatch.Ending? && q.dispatch.err.None? ==>
          q.dispatch.phase == Dispatched && q.submission == Possible
          && (q.phase == Dispatching || q.phase == Abandoned))
    && (q.dispatch.Ending? && q.dispatch.err.Some? ==>
          || q.dispatch.phase == DispatchFailed
          || (q.dispatch.phase == Abandoned && q.phase == Abandoned))
    && (!q.dispatch.Returned? ==> q.dispatchErr.None?)
    && (q.cancelling ==> Sent(q))
  }

  /** A failed dispatch is classified NotStarted only when the request is sealed, and Abort was
      called at most once and only when the writer had been invoked. */
  predicate VerdictOk(q: Req) {
    && (q.dispatch.Failing? || q.dispatch.Releasing? ==> Stands(q, q.dispatch.state))
    && (q.dispatch.Aborted? ==> q.submission == Possible)
    && (q.dispatch.Ending? && q.dispatch.err.Some? ==> Stands(q, q.dispatch.err.value))
    && (q.dispatchErr.Some? ==> Stands(q, q.dispatchErr.value))
    && q.aborts <= 1 && (q.aborts == 1 ==> q.submission == Possible)
    && (q.dispatch.Idle? || q.dispatch.Sending? || q.dispatch.Awaiting? || q.dispatch.Failing? ==> q.aborts == 0)
  }

  /** The classification s is true of q now and will stay true. */
  predicate Stands(q: Req, s: Submission) {
    match s
    case NotStarted => Sealed(q)
    case Possible => q.submission == Possible
    case Pending => true
  }

  predicate WriteOk(q: Req) {
    && (q.dispatch.Idle? || q.dispatch.Sending? ==> q.write.Unqueued?)
    && (q.write.Begun? || q.write.Invoked? || q.write == Reported(true) ==> q.submission == Possible)
    && (q.submission == Possible ==> q.write.Begun? || q.write.Invoked? || q.write.Reported?)
    && (q.admitted <==> q.submission == Possible)
    && (q.dispatch.Returned? && q.dispatchErr.None? ==> q.submission == Possible)
  }

  predicate PendingOk(q: Req, cancelled: bool) {
    && (q.responded ==> q.admitted)
    && (q.outcome.Answer? ==> q.responded && (q.gated ==> q.node >= 0))
    && (q.outcome.Broken? ==> !q.responded && !q.inTable)
    && (q.discarded ==> q.gated && !q.responded && !q.inTable)
    && q.node >= -1 && (q.node >= 0 ==> q.gated && q.responded)
    && (q.inTable ==> !cancelled)
    && (q.detach ==> q.outcome.Answer?)
    && (q.shutdown != Untouched ==> cancelled && !q.inTable)
    && (q.shutdown == Swept && !q.responded ==> q.outcome.Waiting?)
    && (q.shutdown == Failed ==> q.outcome.Broken?)
    && (q.outcome.Waiting? && !q.inTable && !q.responded ==> Completing(q))
  }

  /** Some goroutine is under way to completing q without a response. */
  predicate Completing(q: Req) {
    q.release == Taken || q.release == Discarded || q.shutdown == Swept
  }

  predicate ReleaseOk(q: Req) {
    && (q.releaseCalled ==> Quiet(q))
    && (q.release != Unreleased ==> q.releaseCalled && !q.inTable)
    && (q.release == Taken || q.release == Discarded ==>
          !q.responded && q.outcome.Waiting? && q.shutdown == Untouched)
    && (q.release == Answered ==> q.responded)
    && (q.release == Unanswered ==> !q.responded)
  }

  predicate ResolutionOk(q: Req) {
    && (q.resolver.Some? ==>
          q.outcome.Answer? && !q.resolved && Sent(q) && !DispatchBroken(q)
          && (q.phase == Dispatched || q.phase == Abandoned))
    && (q.resolved ==> q.outcome.Answer? && Sent(q))
    && q.observed <= 1 && q.hooked <= 1
    && (q.resolver.None? && !q.resolved ==> q.observed == 0 && q.hooked == 0)
  }

  predicate ReqOk(q: Req, cancelled: bool) {
    PhaseOk(q) && VerdictOk(q) && WriteOk(q) && PendingOk(q, cancelled) && ReleaseOk(q) && ResolutionOk(q)
  }

  /** q' is a later state of the same request. */
  predicate Later(q: Req, q': Req) {
    && q'.gated == q.gated && q'.hook == q.hook
    && Rank(q.phase) <= Rank(q'.phase)
    && (q.submission == Possible ==> q'.submission == Possible)
    && (q.responded ==> q'.responded)
    && (q'.inTable ==> q.inTable)
    && (!q.outcome.Waiting? ==> q'.outcome == q.outcome)
    && (q.node >= 0 ==> q'.node == q.node)
    && (q.resolved ==> q'.resolved && q'.final == q.final)
    && (q.releaseCalled ==> q'.releaseCalled)
    && (DispatchDone(q) ==> DispatchDone(q') && q'.dispatchErr == q.dispatchErr)
    && (Sent(q) ==> Sent(q'))
    && (Sealed(q) ==> Sealed(q'))
    && (Quiet(q) ==> Quiet(q') && q'.observed == q.observed && q'.hooked == q.hooked)
    && q.aborts <= q'.aborts && q.observed <= q'.observed && q.hooked <= q'.hooked
  }

  // ------------------------------------------------- Dispatch

  function Observe(q: Req): Req {
    q.(observer := true)
  }

  function DispatchStart(q: Req): Req {
    q.(phase := Dispatching, dispatch := Sending)
  }

  function DispatchSend(q: Req): Req {
    q.(dispatch := Awaiting, write := Queued)
  }

  /** failDispatch's first section; an abandoned request ends like completeAbandonedDispatch. */
  function DispatchFail(q: Req): (p: Req)
    ensures p.submission == q.submission && !p.dispatch.Returned? && !p.dispatch.Idle?
  {
    if q.phase == Abandoned then q.(dispatch := Ending(Abandoned, Some(Classify(q))))
    else if q.submission == NotStarted then q.(phase := DispatchFailed, dispatch := Failing(NotStarted))
    else q.(dispatch := Failing(q.submission))
  }

  function DispatchSeeAbandon(q: Req): Req {
    q.(dispatch := Ending(Abandoned, Some(Classify(q))))
  }

  /** completeWrite's first section, on the result of the write. */
  function DispatchResult(q: Req): (p: Req)
    requires q.write.Reported?
    ensures p.submission == q.submission && !p.dispatch.Returned? && !p.dispatch.Idle?
  {
    if q.phase == Abandoned then q.(dispatch := Ending(Abandoned, Some(q.submission)))
    else if !q.write.ok then q.(dispatch := Failing(q.submission))
    else q.(dispatch := Ending(Dispatched, None))
  }

  function DispatchAbort(q: Req): Req {
    q.(dispatch := Aborted, aborts := q.aborts + 1)
  }

  function DispatchRelease(q: Req): Req
    requires q.dispatch.Failing? || q.dispatch.Aborted?
  {
    q.(dispatch := Releasing(if q.dispatch.Failing? then q.dispatch.state else Possible), releaseCalled := true)
  }

  function DispatchUnwind(q: Req): Req
    requires q.dispatch.Releasing?
  {
    q.(dispatch := Ending(DispatchFailed, Some(q.dispatch.state)))
  }

  /** completeDispatch. */
  function DispatchComplete(q: Req): (p: Req)
    requires q.dispatch.Ending?
    ensures p.submission == q.submission && p.dispatch.Returned? && p.dispatchErr == q.dispatch.err
  {
    if q.phase != Abandoned || q.dispatch.phase == Abandoned
    then q.(phase := q.dispatch.phase, dispatchErr := q.dispatch.err, dispatch := Returned)
    else q.(dispatchErr := q.dispatch.err, dispatch := Returned)
  }

  // ------------------------------------------------- the writer

  /** The conditions under which beginWrite lets the writer go on. */
  predicate MayBegin(q: Req, cancelled: bool) {
    q.write.Queued? && q.phase == Dispatching && !q.dispatchCancelled && !cancelled && q.inTable
  }

  function WriterBegin(q: Req): Req {
    q.(write := Begun, admitted := true, submission := Possible)
  }

  // ------------------------------------------------- Abandon and release

  function Abandon(q: Req): (p: Req)
    ensures p.submission == q.submission && p.dispatch == q.dispatch
  {
    if q.resolved || q.phase == Finished then q
    else if q.resolver.Some? then
      q.(phase := Abandoned, abandonClosed := true, detach := true)
    else
      q.(phase := Abandoned, abandonClosed := true, releaseCalled := true)
  }

  function Claimed(q: Req): Release {
    if q.inTable && !q.responded then Taken else if q.responded then Answered else Unanswered
  }

  /** The sections of abandonPending and finishPending under Connection.mu. */
  function ReleaseTake(q: Req): (p: Req)
    ensures p.submission == q.submission && p.dispatch == q.dispatch
  {
    q.(inTable := false, release := Claimed(q))
  }

  /** discardResponseDelivery inside releasePending; the once-guard makes a second call void. */
  function ReleaseDiscard(q: Req): Req {
    q.(discarded := q.gated, release := if q.release == Taken then Discarded else Released)
  }

  function ReleaseComplete(q: Req): Req {
    q.(outcome := Broken, release := Released)
  }

  /** finishPending after it has seen the response's done channel closed. */
  function ReleaseClose(q: Req): Req {
    q.(release := Released)
  }

  // ------------------------------------------------- shutdown

  function ShutdownTake(q: Req): Req {
    if q.inTable then q.(inTable := false, shutdown := Swept) else q
  }

  function ShutdownComplete(q: Req): Req {
    q.(outcome := Broken, shutdown := Failed)
  }

  function ShutdownDiscard(q: Req): Req {
    q.(discarded := q.gated, shutdown := Done)
  }

  function ShutdownClose(q: Req): Req {
    q.(shutdown := Done)
  }

  // ------------------------------------------------- the reader

  function Match(q: Req): Req {
    q.(responded := true)
  }

  function Chain(q: Req, position: nat): Req {
    q.(node := position)
  }

  function Deliver(q: Req, watermark: nat): Req {
    q.(outcome := Answer(watermark))
  }

  // ------------------------------------------------- Wait

  /** Wait on a request that was never dispatched and whose pending entry failed. */
  function FinishReady(q: Req): (p: Req)
    ensures p.submission == q.submission && p.dispatch == q.dispatch
  {
    if q.phase == Ready then q.(phase := Finished) else q
  }

  /** waitResponse's error exit. */
  function FinishBroken(q: Req): Req {
    q.(phase := Finished)
  }

  function ResolveStart(q: Req, w: WaitId): Req {
    q.(resolver := Some(w), attempt := q.attempt + 1)
  }

  function ObserverStart(q: Req): Req {
    q.(observed := q.observed + 1)
  }

  function HookStart(q: Req): Req {
    q.(hooked := q.hooked + 1)
  }

  /** The section after completeResponse. A retryable failure leaves the request open, unless it
      was abandoned meanwhile; any other end is final, and abandonment overrides its result. */
  function Settle(q: Req, pair: Pair, retry: bool): (p: Req)
    ensures p.submission == q.submission && p.dispatch == q.dispatch
    ensures p.resolver.None?
    ensures p.node == q.node && p.discarded == q.discarded && p.inTable == q.inTable
    ensures p.responded == q.responded && p.outcome == q.outcome
  {
    if retry && q.phase != Abandoned then q.(resolver := None)
    else if retry then q.(resolver := None, resolved := true, final := WasAbandoned)
    else q.(resolver := None, resolved := true, phase := Finished,
            final := if q.phase == Abandoned then WasAbandoned else pair)
  }

  function CallRelease(q: Req): Req {
    q.(releaseCalled := true)
  }

  // ------------------------------------------------- the sections that touch only the request

  datatype Step =
    | ObserveStep
    | DispatchStartStep | DispatchRefusedStep | DispatchCancelStep | DispatchSendStep
    | DispatchFailStep | DispatchSeeAbandonStep | DispatchResultStep
    | DispatchAbortStep | DispatchReleaseStep | DispatchUnwindStep | DispatchCompleteStep
    | WriterRefuseStep | WriterBeginStep | WriterInvokeStep | WriterReportStep(ok: bool)
    | AbandonStep | DetachStep | CancelRefusedStep | CancelReadStep | CancelFailStep
    | ReleaseTakeStep | ReleaseCompleteStep
    | ShutdownCompleteStep

  predicate CanStep(q: Req, s: Step, cancelled: bool) {
    match s
    case ObserveStep => q.phase == Ready && !q.observer
    case DispatchStartStep => q.phase == Ready
    case DispatchRefusedStep => q.phase != Ready
    case DispatchCancelStep => true
    case DispatchSendStep => q.dispatch.Sending?
    case DispatchFailStep => (q.dispatch.Sending? || q.dispatch.Awaiting?) && (q.dispatchCancelled || cancelled)
    case DispatchSeeAbandonStep => (q.dispatch.Sending? || q.dispatch.Awaiting?) && q.abandonClosed
    case DispatchResultStep => q.dispatch.Awaiting? && q.write.Reported?
    case DispatchAbortStep => q.dispatch == Failing(Possible)
    case DispatchReleaseStep => q.dispatch.Failing? || q.dispatch.Aborted?
    case DispatchUnwindStep => q.dispatch.Releasing? && q.release == Released
    case DispatchCompleteStep => q.dispatch.Ending?
    case WriterRefuseStep => q.write.Queued? && !MayBegin(q, cancelled)
    case WriterBeginStep => MayBegin(q, cancelled)
    case WriterInvokeStep => q.write.Begun?
    case WriterReportStep(_) => q.write.Invoked?
    case AbandonStep => true
    case DetachStep => q.detach
    case CancelRefusedStep => q.phase != Dispatched && q.phase != Finished
    case CancelReadStep => q.phase == Dispatched || q.phase == Finished
    case CancelFailStep => q.cancelling
    case ReleaseTakeStep => q.releaseCalled && q.release == Unreleased
    case ReleaseCompleteStep => q.release == Discarded
    case ShutdownCompleteStep => q.shutdown == Swept && !q.responded
  }

  predicate ByDispatch(s: Step) {
    || s.DispatchStartStep? || s.DispatchCancelStep? || s.DispatchSendStep?
    || s.DispatchFailStep? || s.DispatchSeeAbandonStep? || s.DispatchResultStep? || s.DispatchAbortStep?
    || s.DispatchReleaseStep? || s.DispatchUnwindStep? || s.DispatchCompleteStep?
  }

  predicate ByWriter(s: Step) {
    s.WriterRefuseStep? || s.WriterBeginStep? || s.WriterInvokeStep? || s.WriterReportStep?
  }

  /** A step that only reports changes nothing. */
  predicate OnlyReports(s: Step) {
    s.DispatchRefusedStep? || s.CancelRefusedStep? || s.CancelFailStep?
  }

  function DispatchStep(q: Req, s: Step, cancelled: bool): (p: Req)
    requires CanStep(q, s, cancelled) && ByDispatch(s)
    ensures p.submission == q.submission
    ensures p.dispatch.Idle? <==> q.dispatch.Idle? && s != DispatchStartStep
    ensures s != DispatchCompleteStep ==> (p.dispatch.Returned? ==> q.dispatch.Returned?)
  {
    match s
    case DispatchStartStep => DispatchStart(q)
    case DispatchCancelStep => q.(dispatchCancelled := true)
    case DispatchSendStep => DispatchSend(q)
    case DispatchFailStep => DispatchFail(q)
    case DispatchSeeAbandonStep => DispatchSeeAbandon(q)
    case DispatchResultStep => DispatchResult(q)
    case DispatchAbortStep => DispatchAbort(q)
    case DispatchReleaseStep => DispatchRelease(q)
    case DispatchUnwindStep => DispatchUnwind(q)
    case DispatchCompleteStep => DispatchComplete(q)
  }

  function WriterStep(q: Req, s: Step, cancelled: bool): (p: Req)
    requires CanStep(q, s, cancelled) && ByWriter(s)
    ensures p.dispatch == q.dispatch && (s != WriterBeginStep ==> p.submission == q.submission)
  {
    match s
    case WriterRefuseStep => q.(write := Reported(false))
    case WriterBeginStep => WriterBegin(q)
    case WriterInvokeStep => q.(write := Invoked)
    case WriterReportStep(ok) => q.(write := Reported(ok))
  }

  function OtherStep(q: Req, s: Step, cancelled: bool): (p: Req)
    requires CanStep(q, s, cancelled) && !ByDispatch(s) && !ByWriter(s) && !OnlyReports(s)
    ensures p.dispatch == q.dispatch && p.submission == q.submission
  {
    match s
    case ObserveStep => Observe(q)
    case AbandonStep => Abandon(q)
    case DetachStep => q.(inTable := false, detach := false)
    case CancelReadStep => q.(cancelling := true)
    case ReleaseTakeStep => ReleaseTake(q)
    case ReleaseCompleteStep => ReleaseComplete(q)
    case ShutdownCompleteStep => ShutdownComplete(q)
  }

  function DoStep(q: Req, s: Step, cancelled: bool): (p: Req)
    requires CanStep(q, s, cancelled)
    ensures s != WriterBeginStep ==> p.submission == q.submission
    ensures p.dispatch.Idle? <==> q.dispatch.Idle? && s != DispatchStartStep
    ensures s != DispatchCompleteStep ==> (p.dispatch.Returned? ==> q.dispatch.Returned?)
  {
    if OnlyReports(s) then q
    else if ByDispatch(s) then DispatchStep(q, s, cancelled)
    else if ByWriter(s) then WriterStep(q, s, cancelled)
    else OtherStep(q, s, cancelled)
  }

  /** The classification a section reports to its caller, if it reports one. */
  function Reports(q: Req, s: Step): Option<Submission> {
    match s
    case DispatchRefusedStep => Some(Classify(q))
    case DispatchCompleteStep => if q.dispatch.Ending? then q.dispatch.err else None
    case AbandonStep => Some(q.submission)
    case CancelRefusedStep => Some(Classify(q))
    case CancelFailStep => Some(Possible)
    case _ => None
  }

  /** What a local section leaves alone as far as the rest of the connection is concerned. */
  predicate SameLinks(q: Req, q': Req) {
    && q'.gated == q.gated && q'.node == q.node && q'.discarded == q.discarded
    && q'.resolver == q.resolver && q'.responded == q.responded
    && (q'.outcome == q.outcome || !q.responded)
    && (q'.inTable ==> q.inTable)
    && q'.observed == q.observed && q'.hooked == q.hooked
    && (q.outcome.Answer? || q'.outcome.Answer? ==> q'.outcome == q.outcome)
  }

  // ------------------------------------------------- every section keeps the invariant

  lemma ObserveKeeps(q: Req, cancelled: bool)
    requires ReqOk(q, cancelled)
    requires q.phase == Ready
    ensures ReqOk(Observe(q), cancelled) && Later(q, Observe(q))
    ensures SameLinks(q, Observe(q))
  {
  }

  lemma DispatchStartKeeps(q: Req, cancelled: bool)
    requires ReqOk(q, cancelled)
    requires q.phase == Ready
    ensures ReqOk(DispatchStart(q), cancelled) && Later(q, DispatchStart(q))
    ensures SameLinks(q, DispatchStart(q))
  {
  }

  lemma DispatchSendKeeps(q: Req, cancelled: bool)
    requires ReqOk(q, cancelled)
    requires q.dispatch.Sending?
    ensures ReqOk(DispatchSend(q), cancelled) && Later(q, DispatchSend(q))
    ensures SameLinks(q, DispatchSend(q))
  {
  }

  lemma DispatchSeeAbandonKeeps(q: Req, cancelled: bool)
    requires ReqOk(q, cancelled)
    requires (q.dispatch.Sending? || q.dispatch.Awaiting?) && q.abandonClosed
    ensures ReqOk(DispatchSeeAbandon(q), cancelled) && Later(q, DispatchSeeAbandon(q))
    ensures SameLinks(q, DispatchSeeAbandon(q))
  {
  }

  lemma FailUnsentKeeps(q: Req, cancelled: bool)
    requires ReqOk(q, cancelled)
    requires (q.dispatch.Sending? || q.dispatch.Awaiting?) && q.phase == Dispatching && q.submission == NotStarted
    ensures var r := q.(phase := DispatchFailed, dispatch := Failing(NotStarted));
            ReqOk(r, cancelled) && Later(q, r) && SameLinks(q, r)
  {
  }

  lemma FailSentKeeps(q: Req, cancelled: bool)
    requires ReqOk(q, cancelled)
    requires (q.dispatch.Sending? || q.dispatch.Awaiting?) && q.phase == Dispatching
    requires q.submission == Possible || q.write == Reported(false)
    ensures var r := q.(dispatch := Failing(q.submission));
            ReqOk(r, cancelled) && Later(q, r) && SameLinks(q, r)
  {
  }

  lemma DispatchFailKeeps(q: Req, cancelled: bool)
    requires ReqOk(q, cancelled)
    requires q.dispatch.Sending? || q.dispatch.Awaiting?
    ensures ReqOk(DispatchFail(q), cancelled) && Later(q, DispatchFail(q))
    ensures SameLinks(q, DispatchFail(q))
  {
    if q.phase == Abandoned {
      DispatchSeeAbandonKeeps(q, cancelled);
    } else if q.submission == NotStarted {
      FailUnsentKeeps(q, cancelled);
    } else {
      FailSentKeeps(q, cancelled);
    }
  }

  lemma SucceedKeeps(q: Req, cancelled: bool)
    requires ReqOk(q, cancelled)
    requires q.dispatch.Awaiting? && q.phase == Dispatching && q.write == Reported(true)
    ensures var r := q.(dispatch := Ending(Dispatched, None));
            ReqOk(r, cancelled) && Later(q, r) && SameLinks(q, r)
  {
  }

  lemma DispatchResultKeeps(q: Req, cancelled: bool)
    requires ReqOk(q, cancelled)
    requires q.dispatch.Awaiting? && q.write.Reported?
    ensures ReqOk(DispatchResult(q), cancelled) && Later(q, DispatchResult(q))
    ensures SameLinks(q, DispatchResult(q))
  {
    if q.phase == Abandoned {
      DispatchSeeAbandonKeeps(q, cancelled);
    } else if !q.write.ok {
      FailSentKeeps(q, cancelled);
    } else {
      SucceedKeeps(q, cancelled);
    }
  }

  lemma DispatchAbortKeeps(q: Req, cancelled: bool)
    requires ReqOk(q, cancelled)
    requires q.dispatch == Failing(Possible)
    ensures ReqOk(DispatchAbort(q), cancelled) && Later(q, DispatchAbort(q))
    ensures SameLinks(q, DispatchAbort(q))
  {
  }

  lemma DispatchReleaseKeeps(q: Req, cancelled: bool)
    requires ReqOk(q, cancelled)
    requires q.dispatch.Failing? || q.dispatch.Aborted?
    ensures ReqOk(DispatchRelease(q), cancelled) && Later(q, DispatchRelease(q))
    ensures SameLinks(q, DispatchRelease(q))
  {
  }

  lemma DispatchUnwindKeeps(q: Req, cancelled: bool)
    requires ReqOk(q, cancelled)
    requires q.dispatch.Releasing?
    ensures ReqOk(DispatchUnwind(q), cancelled) && Later(q, DispatchUnwind(q))
    ensures SameLinks(q, DispatchUnwind(q))
  {
  }

  lemma CompletePhaseKeeps(q: Req, cancelled: bool)
    requires ReqOk(q, cancelled)
    requires q.dispatch.Ending? && (q.phase != Abandoned || q.dispatch.phase == Abandoned)
    ensures var r := q.(phase := q.dispatch.phase, dispatchErr := q.dispatch.err, dispatch := Returned);
            ReqOk(r, cancelled) && Later(q, r) && SameLinks(q, r)
  {
  }

  lemma CompleteAbandonedKeeps(q: Req, cancelled: bool)
    requires ReqOk(q, cancelled)
    requires q.dispatch.Ending? && q.phase == Abandoned
    ensures var r := q.(dispatchErr := q.dispatch.err, dispatch := Returned);
            ReqOk(r, cancelled) && Later(q, r) && SameLinks(q, r)
  {
  }

  lemma DispatchCompleteKeeps(q: Req, cancelled: bool)
    requires ReqOk(q, cancelled)
    requires q.dispatch.Ending?
    ensures ReqOk(DispatchComplete(q), cancelled) && Later(q, DispatchComplete(q))
    ensures SameLinks(q, DispatchComplete(q))
  {
    if q.phase != Abandoned || q.dispatch.phase == Abandoned {
      CompletePhaseKeeps(q, cancelled);
    } else {
      CompleteAbandonedKeeps(q, cancelled);
    }
  }

  lemma WriterBeginKeeps(q: Req, cancelled: bool)
    requires ReqOk(q, cancelled)
    requires MayBegin(q, cancelled)
    ensures ReqOk(WriterBegin(q), cancelled) && Later(q, WriterBegin(q))
    ensures SameLinks(q, WriterBegin(q))
  {
  }

  lemma WriterRefuseKeeps(q: Req, cancelled: bool)
    requires ReqOk(q, cancelled)
    requires q.write.Queued?
    ensures ReqOk(q.(write := Reported(false)), cancelled) && Later(q, q.(write := Reported(false)))
    ensures SameLinks(q, q.(write := Reported(false)))
  {
  }

  lemma WriterInvokeKeeps(q: Req, cancelled: bool)
    requires ReqOk(q, cancelled)
    requires q.write.Begun?
    ensures ReqOk(q.(write := Invoked), cancelled) && Later(q, q.(write := Invoked))
    ensures SameLinks(q, q.(write := Invoked))
  {
  }

  lemma WriterReportKeeps(q: Req, cancelled: bool, ok: bool)
    requires ReqOk(q, cancelled)
    requires q.write.Invoked?
    ensures ReqOk(q.(write := Reported(ok)), cancelled) && Later(q, q.(write := Reported(ok)))
    ensures SameLinks(q, q.(write := Reported(ok)))
  {
  }

  lemma AbandonResolvingKeeps(q: Req, cancelled: bool)
    requires ReqOk(q, cancelled)
    requires q.phase != Finished && !q.resolved && q.resolver.Some?
    ensures var r := q.(phase := Abandoned, abandonClosed := true, detach := true);
            ReqOk(r, cancelled) && Later(q, r) && SameLinks(q, r)
  {
  }

  lemma AbandonIdleKeeps(q: Req, cancelled: bool)
    requires ReqOk(q, cancelled)
    requires q.phase != Finished && !q.resolved && q.resolver.None?
    ensures var r := q.(phase := Abandoned, abandonClosed := true, releaseCalled := true);
            ReqOk(r, cancelled) && Later(q, r) && SameLinks(q, r)
  {
  }

  lemma AbandonKeeps(q: Req, cancelled: bool)
    requires ReqOk(q, cancelled)
    ensures ReqOk(Abandon(q), cancelled) && Later(q, Abandon(q))
    ensures SameLinks(q, Abandon(q))
  {
    if q.resolved || q.phase == Finished {
      assert Abandon(q) == q;
    } else if q.resolver.Some? {
      AbandonResolvingKeeps(q, cancelled);
    } else {
      AbandonIdleKeeps(q, cancelled);
    }
  }

  lemma DetachKeeps(q: Req, cancelled: bool)
    requires ReqOk(q, cancelled)
    requires q.detach
    ensures ReqOk(q.(inTable := false, detach := false), cancelled) && Later(q, q.(inTable := false, detach := false))
    ensures SameLinks(q, q.(inTable := false, detach := false))
  {
  }

  lemma ReleaseTakeKeeps(q: Req, cancelled: bool)
    requires ReqOk(q, cancelled)
    requires q.releaseCalled && q.release == Unreleased
    ensures ReqOk(ReleaseTake(q), cancelled) && Later(q, ReleaseTake(q))
    ensures SameLinks(q, ReleaseTake(q))
  {
  }

  lemma ReleaseDiscardKeeps(q: Req, cancelled: bool)
    requires ReqOk(q, cancelled)
    requires q.release == Taken || q.release == Unanswered
    ensures ReqOk(ReleaseDiscard(q), cancelled) && Later(q, ReleaseDiscard(q))
  {
  }

  lemma ReleaseCompleteKeeps(q: Req, cancelled: bool)
    requires ReqOk(q, cancelled)
    requires q.release == Discarded
    ensures ReqOk(ReleaseComplete(q), cancelled) && Later(q, ReleaseComplete(q))
    ensures SameLinks(q, ReleaseComplete(q))
  {
  }

  lemma ReleaseCloseKeeps(q: Req, cancelled: bool)
    requires ReqOk(q, cancelled)
    requires q.release == Answered
    ensures ReqOk(ReleaseClose(q), cancelled) && Later(q, ReleaseClose(q))
  {
  }

  lemma ShutdownTakeKeeps(q: Req)
    requires ReqOk(q, false)
    ensures ReqOk(ShutdownTake(q), true) && Later(q, ShutdownTake(q))
  {
    assert !q.inTable ==> ShutdownTake(q) == q;
  }

  lemma ShutdownCompleteKeeps(q: Req, cancelled: bool)
    requires ReqOk(q, cancelled)
    requires q.shutdown == Swept && !q.responded
    ensures ReqOk(ShutdownComplete(q), cancelled) && Later(q, ShutdownComplete(q))
    ensures SameLinks(q, ShutdownComplete(q))
  {
  }

  lemma ShutdownDiscardKeeps(q: Req, cancelled: bool)
    requires ReqOk(q, cancelled)
    requires q.shutdown == Failed
    ensures ReqOk(ShutdownDiscard(q), cancelled) && Later(q, ShutdownDiscard(q))
  {
  }

  lemma ShutdownCloseKeeps(q: Req, cancelled: bool)
    requires ReqOk(q, cancelled)
    requires q.shutdown == Swept && q.responded
    ensures ReqOk(ShutdownClose(q), cancelled) && Later(q, ShutdownClose(q))
  {
  }

  lemma MatchKeeps(q: Req, cancelled: bool)
    requires ReqOk(q, cancelled)
    requires q.inTable && q.admitted && !q.responded
    ensures ReqOk(Match(q), cancelled) && Later(q, Match(q))
  {
  }

  lemma ChainKeeps(q: Req, cancelled: bool, position: nat)
    requires ReqOk(q, cancelled)
    requires q.gated && q.responded && q.outcome.Waiting? && q.node == -1
    ensures ReqOk(Chain(q, position), cancelled) && Later(q, Chain(q, position))
  {
  }

  lemma DeliverKeeps(q: Req, cancelled: bool, watermark: nat)
    requires ReqOk(q, cancelled)
    requires q.responded && q.outcome.Waiting? && (q.gated ==> q.node >= 0)
    ensures ReqOk(Deliver(q, watermark), cancelled) && Later(q, Deliver(q, watermark))
  {
  }

  lemma FinishUnsentKeeps(q: Req, cancelled: bool)
    requires ReqOk(q, cancelled)
    requires q.outcome.Broken? && q.phase == Ready
    ensures ReqOk(q.(phase := Finished), cancelled) && Later(q, q.(phase := Finished))
  {
  }

  lemma FinishReadyKeeps(q: Req, cancelled: bool)
    requires ReqOk(q, cancelled)
    requires q.outcome.Broken?
    ensures ReqOk(FinishReady(q), cancelled) && Later(q, FinishReady(q))
  {
    if q.phase == Ready {
      FinishUnsentKeeps(q, cancelled);
    } else {
      assert FinishReady(q) == q;
    }
  }

  lemma FinishBrokenKeeps(q: Req, cancelled: bool)
    requires ReqOk(q, cancelled)
    requires q.outcome.Broken? && Sent(q)
    ensures ReqOk(FinishBroken(q), cancelled) && Later(q, FinishBroken(q))
  {
  }

  lemma ResolveStartKeeps(q: Req, cancelled: bool, w: WaitId)
    requires ReqOk(q, cancelled)
    requires q.resolver.None? && !q.resolved && q.phase != Abandoned && q.outcome.Answer? && Sent(q)
    ensures ReqOk(ResolveStart(q, w), cancelled) && Later(q, ResolveStart(q, w))
  {
  }

  lemma ObserverStartKeeps(q: Req, cancelled: bool)
    requires ReqOk(q, cancelled)
    requires q.resolver.Some? && q.observed == 0
    ensures ReqOk(ObserverStart(q), cancelled) && Later(q, ObserverStart(q))
  {
  }

  lemma HookStartKeeps(q: Req, cancelled: bool)
    requires ReqOk(q, cancelled)
    requires q.resolver.Some? && q.hooked == 0
    ensures ReqOk(HookStart(q), cancelled) && Later(q, HookStart(q))
  {
  }

  lemma SettleRetryKeeps(q: Req, cancelled: bool)
    requires ReqOk(q, cancelled)
    requires q.resolver.Some? && q.phase != Abandoned && q.observed == 0 && q.hooked == 0
    ensures ReqOk(q.(resolver := None), cancelled) && Later(q, q.(resolver := None))
  {
  }

  lemma SettleAbandonedKeeps(q: Req, cancelled: bool)
    requires ReqOk(q, cancelled)
    requires q.resolver.Some? && q.phase == Abandoned
    ensures ReqOk(q.(resolver := None, resolved := true, final := WasAbandoned), cancelled) && Later(q, q.(resolver := None, resolved := true, final := WasAbandoned))
  {
  }

  lemma SettleFinalKeeps(q: Req, cancelled: bool, pair: Pair)
    requires ReqOk(q, cancelled)
    requires q.resolver.Some?
    ensures ReqOk(q.(resolver := None, resolved := true, phase := Finished, final := pair), cancelled) && Later(q, q.(resolver := None, resolved := true, phase := Finished, final := pair))
  {
  }

  lemma SettleKeeps(q: Req, cancelled: bool, pair: Pair, retry: bool)
    requires ReqOk(q, cancelled)
    requires q.resolver.Some? && (retry ==> q.observed == 0 && q.hooked == 0)
    ensures ReqOk(Settle(q, pair, retry), cancelled) && Later(q, Settle(q, pair, retry))
  {
    if retry && q.phase != Abandoned {
      SettleRetryKeeps(q, cancelled);
    } else if retry {
      SettleAbandonedKeeps(q, cancelled);
    } else if q.phase == Abandoned {
      SettleFinalKeeps(q, cancelled, WasAbandoned);
    } else {
      SettleFinalKeeps(q, cancelled, pair);
    }
  }

  lemma CallReleaseKeeps(q: Req, cancelled: bool)
    requires ReqOk(q, cancelled)
    requires q.resolved
    ensures ReqOk(CallRelease(q), cancelled) && Later(q, CallRelease(q))
  {
  }

  lemma DispatchCancelKeeps(q: Req, cancelled: bool)
    requires ReqOk(q, cancelled)
    ensures ReqOk(q.(dispatchCancelled := true), cancelled) && Later(q, q.(dispatchCancelled := true))
    ensures SameLinks(q, q.(dispatchCancelled := true))
  {
  }

  lemma CancelReadKeeps(q: Req, cancelled: bool)
    requires ReqOk(q, cancelled)
    requires q.phase == Dispatched || q.phase == Finished
    ensures ReqOk(q.(cancelling := true), cancelled) && Later(q, q.(cancelling := true))
    ensures SameLinks(q, q.(cancelling := true))
  {
  }

  /** Behind the first section of failDispatch. */
  predicate Unwinds(s: Step) {
    s.DispatchAbortStep? || s.DispatchReleaseStep? || s.DispatchUnwindStep? || s.DispatchCompleteStep?
  }

  lemma ByDispatchKeeps(q: Req, s: Step, cancelled: bool)
    requires ReqOk(q, cancelled) && CanStep(q, s, cancelled) && ByDispatch(s) && !Unwinds(s)
    ensures var q' := DoStep(q, s, cancelled); ReqOk(q', cancelled) && Later(q, q') && SameLinks(q, q')
  {
    match s
    case DispatchStartStep =>
      DispatchStartKeeps(q, cancelled);
      assert DoStep(q, s, cancelled) == DispatchStart(q);
    case DispatchCancelStep =>
      DispatchCancelKeeps(q, cancelled);
      assert DoStep(q, s, cancelled) == q.(dispatchCancelled := true);
    case DispatchSendStep =>
      DispatchSendKeeps(q, cancelled);
      assert DoStep(q, s, cancelled) == DispatchSend(q);
    case DispatchFailStep =>
      DispatchFailKeeps(q, cancelled);
      assert DoStep(q, s, cancelled) == DispatchFail(q);
    case DispatchSeeAbandonStep =>
      DispatchSeeAbandonKeeps(q, cancelled);
      assert DoStep(q, s, cancelled) == DispatchSeeAbandon(q);
    case DispatchResultStep =>
      DispatchResultKeeps(q, cancelled);
      assert DoStep(q, s, cancelled) == DispatchResult(q);
  }

  lemma ByUnwindingKeeps(q: Req, s: Step, cancelled: bool)
    requires ReqOk(q, cancelled) && CanStep(q, s, cancelled) && ByDispatch(s) && Unwinds(s)
    ensures var q' := DoStep(q, s, cancelled); ReqOk(q', cancelled) && Later(q, q') && SameLinks(q, q')
  {
    match s
    case DispatchAbortStep =>
      DispatchAbortKeeps(q, cancelled);
      assert DoStep(q, s, cancelled) == DispatchAbort(q);
    case DispatchReleaseStep =>
      DispatchReleaseKeeps(q, cancelled);
      assert DoStep(q, s, cancelled) == DispatchRelease(q);
    case DispatchUnwindStep =>
      DispatchUnwindKeeps(q, cancelled);
      assert DoStep(q, s, cancelled) == DispatchUnwind(q);
    case DispatchCompleteStep =>
      DispatchCompleteKeeps(q, cancelled);
      assert DoStep(q, s, cancelled) == DispatchComplete(q);
  }

  lemma ByWriterKeeps(q: Req, s: Step, cancelled: bool)
    requires ReqOk(q, cancelled) && CanStep(q, s, cancelled) && ByWriter(s)
    ensures var q' := DoStep(q, s, cancelled); ReqOk(q', cancelled) && Later(q, q') && SameLinks(q, q')
  {
    match s
    case WriterRefuseStep =>
      WriterRefuseKeeps(q, cancelled);
      assert DoStep(q, s, cancelled) == q.(write := Reported(false));
    case WriterBeginStep =>
      WriterBeginKeeps(q, cancelled);
      assert DoStep(q, s, cancelled) == WriterBegin(q);
    case WriterInvokeStep =>
      WriterInvokeKeeps(q, cancelled);
      assert DoStep(q, s, cancelled) == q.(write := Invoked);
    case WriterReportStep(ok) =>
      WriterReportKeeps(q, cancelled, ok);
      assert DoStep(q, s, cancelled) == q.(write := Reported(ok));
  }

  predicate ByRelease(s: Step) {
    s.DetachStep? || s.ReleaseTakeStep? || s.ReleaseCompleteStep? || s.ShutdownCompleteStep?
  }

  lemma ByReleaseKeeps(q: Req, s: Step, cancelled: bool)
    requires ReqOk(q, cancelled) && CanStep(q, s, cancelled) && ByRelease(s)
    ensures var q' := DoStep(q, s, cancelled); ReqOk(q', cancelled) && Later(q, q') && SameLinks(q, q')
  {
    match s
    case DetachStep =>
      DetachKeeps(q, cancelled);
      assert DoStep(q, s, cancelled) == q.(inTable := false, detach := false);
    case ReleaseTakeStep =>
      ReleaseTakeKeeps(q, cancelled);
      assert DoStep(q, s, cancelled) == ReleaseTake(q);
    case ReleaseCompleteStep =>
      ReleaseCompleteKeeps(q, cancelled);
      assert DoStep(q, s, cancelled) == ReleaseComplete(q);
    case ShutdownCompleteStep =>
      ShutdownCompleteKeeps(q, cancelled);
      assert DoStep(q, s, cancelled) == ShutdownComplete(q);
  }

  predicate ByCaller(s: Step) {
    s.ObserveStep? || s.AbandonStep? || s.CancelReadStep?
  }

  lemma ByCallerKeeps(q: Req, s: Step, cancelled: bool)
    requires ReqOk(q, cancelled) && CanStep(q, s, cancelled) && ByCaller(s)
    ensures var q' := DoStep(q, s, cancelled); ReqOk(q', cancelled) && Later(q, q') && SameLinks(q, q')
  {
    match s
    case ObserveStep =>
      ObserveKeeps(q, cancelled);
      assert DoStep(q, s, cancelled) == Observe(q);
    case AbandonStep =>
      AbandonKeeps(q, cancelled);
      assert DoStep(q, s, cancelled) == Abandon(q);
    case CancelReadStep =>
      CancelReadKeeps(q, cancelled);
      assert DoStep(q, s, cancelled) == q.(cancelling := true);
  }

  lemma ReportKeeps(q: Req, s: Step, cancelled: bool)
    requires ReqOk(q, cancelled) && CanStep(q, s, cancelled) && OnlyReports(s)
    ensures var q' := DoStep(q, s, cancelled); ReqOk(q', cancelled) && Later(q, q') && SameLinks(q, q')
  {
    assert DoStep(q, s, cancelled) == q;
    LaterReflexive(q);
    SameLinksReflexive(q);
  }

  lemma SameLinksReflexive(q: Req)
    ensures SameLinks(q, q)
  {
  }

  /** Every section that touches only the request keeps its invariant. */
  lemma StepKeeps(q: Req, s: Step, cancelled: bool)
    requires ReqOk(q, cancelled) && CanStep(q, s, cancelled)
    ensures var q' := DoStep(q, s, cancelled); ReqOk(q', cancelled) && Later(q, q') && SameLinks(q, q')
  {
    if OnlyReports(s) {
      ReportKeeps(q, s, cancelled);
    } else if Unwinds(s) {
      ByUnwindingKeeps(q, s, cancelled);
    } else if ByDispatch(s) {
      ByDispatchKeeps(q, s, cancelled);
    } else if ByWriter(s) {
      ByWriterKeeps(q, s, cancelled);
    } else if ByRelease(s) {
      ByReleaseKeeps(q, s, cancelled);
    } else {
      ByCallerKeeps(q, s, cancelled);
    }
  }

  lemma LaterReflexive(q: Req)
    ensures Later(q, q)
  {
  }

  lemma LaterTransitive(q: Req, q': Req, q'': Req)
    requires Later(q, q') && Later(q', q'')
    ensures Later(q, q'')
  {
  }
}
