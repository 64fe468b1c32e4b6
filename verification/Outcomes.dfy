/** How the operations on a prepared request end, as a matter of what happened in the run: when
    Dispatch succeeds and when it aborts, how a request is classified, and what a Wait returns. */
module Outcomes {
  import opened Results
  import opened Ids
  import opened Requests
  import opened Machine
  import opened Invariant
  import opened Runs
  import opened History
  import DeliveryLaws
  import SubmissionLaws
  import Feed

  /** Some event of the fact happened before moment i. */
  ghost predicate Happened(f: Fact, states: seq<Conn>, acts: seq<Action>, i: nat, r: ReqId)
    requires IsRun(states, acts) && i < |states|
  {
    exists k :: 0 <= k < i && EventAt(f, states, acts, k, r)
  }

  // ------------------------------------------------- Dispatch

  /** The result of the write is seen: it was accepted, and the request is not abandoned. */
  ghost predicate SeesAccepted(states: seq<Conn>, acts: seq<Action>, k: nat, r: ReqId)
    requires IsRun(states, acts) && k < |acts|
  {
    && acts[k] == Request(r, DispatchResultStep) && r in states[k].reqs && states[k].reqs[r].phase != Abandoned
    && exists j :: 0 <= j < k && acts[j] == Request(r, WriterReportStep(true))
  }

  lemma AcceptedWasReported(states: seq<Conn>, acts: seq<Action>, k: nat, r: ReqId)
    requires IsRun(states, acts) && k < |acts| && r in states[k].reqs && acts[k] == Request(r, DispatchResultStep)
    ensures states[k].reqs[r].write == Reported(true)
            <==> exists j :: 0 <= j < k && acts[j] == Request(r, WriterReportStep(true))
  {
    FactsExplained(states, acts, k, r, WriteAccepted);
    if exists j :: 0 <= j < k && acts[j] == Request(r, WriterReportStep(true)) {
      var j :| 0 <= j < k && acts[j] == Request(r, WriterReportStep(true));
      assert EventAt(WriteAccepted, states, acts, j, r);
    }
  }

  lemma GoodEvent(states: seq<Conn>, acts: seq<Action>, k: nat, r: ReqId)
    requires IsRun(states, acts) && k < |acts|
    ensures EventAt(DispatchGood, states, acts, k, r) <==> SeesAccepted(states, acts, k, r)
  {
    if acts[k] == Request(r, DispatchResultStep) && r in states[k].reqs {
      AcceptedWasReported(states, acts, k, r);
    }
  }

  lemma GoodBefore(states: seq<Conn>, acts: seq<Action>, i: nat, r: ReqId)
    requires IsRun(states, acts) && i < |states|
    ensures Known(DispatchGood, states[i], r) <==> exists k :: 0 <= k < i && SeesAccepted(states, acts, k, r)
  {
    FactsExplained(states, acts, i, r, DispatchGood);
    forall k | 0 <= k < i ensures EventAt(DispatchGood, states, acts, k, r) <==> SeesAccepted(states, acts, k, r) {
      GoodEvent(states, acts, k, r);
    }
  }

  /** A Dispatch that ends returns nil exactly if its write was reported as accepted before it saw
      the result, and the request was not abandoned by then. The phase is Dispatched afterwards,
      unless the request has been abandoned in the meantime. */
  lemma DispatchSucceedsExactly(states: seq<Conn>, acts: seq<Action>, i: nat, r: ReqId)
    requires IsRun(states, acts) && i < |acts| && acts[i] == Request(r, DispatchCompleteStep)
    ensures SubmissionLaws.ReturnsNil(states[i], acts[i], r) <==> exists k :: 0 <= k < i && SeesAccepted(states, acts, k, r)
    ensures SubmissionLaws.ReturnsNil(states[i], acts[i], r) ==>
              && r in states[i].reqs && r in states[i + 1].reqs
              && states[i + 1].reqs[r].phase == (if states[i].reqs[r].phase == Abandoned then Abandoned else Dispatched)
  {
    RunPair(states, acts, i, i);
    GoodBefore(states, acts, i, r);
    NilMeansDispatched(states[i], r);
  }

  lemma GoodEndsNil(q: Req)
    requires q.dispatch.Ending?
    ensures q.dispatch.err.None? <==> Holds(DispatchGood, q)
  {
  }

  lemma NilCompletes(q: Req)
    requires q.dispatch.Ending? && q.dispatch.phase == Dispatched
    ensures DispatchComplete(q).phase == if q.phase == Abandoned then Abandoned else Dispatched
  {
    if q.phase != Abandoned {
      assert DispatchComplete(q) == q.(phase := Dispatched, dispatchErr := q.dispatch.err, dispatch := Returned);
    } else {
      assert DispatchComplete(q) == q.(dispatchErr := q.dispatch.err, dispatch := Returned);
    }
  }

  lemma NilEndsDispatched(q: Req)
    requires PhaseOk(q) && q.dispatch.Ending? && q.dispatch.err.None?
    ensures q.dispatch.phase == Dispatched
  {
  }

  lemma NilCompletion(q: Req)
    requires PhaseOk(q) && q.dispatch.Ending?
    ensures q.dispatch.err.None? <==> Holds(DispatchGood, q)
    ensures q.dispatch.err.None? ==> DispatchComplete(q).phase == if q.phase == Abandoned then Abandoned else Dispatched
  {
    GoodEndsNil(q);
    if q.dispatch.err.None? {
      NilEndsDispatched(q);
      NilCompletes(q);
    }
  }

  lemma NilMeansDispatched(c: Conn, r: ReqId)
    requires ReqsOk(c) && Enabled(c, Request(r, DispatchCompleteStep))
    ensures SubmissionLaws.ReturnsNil(c, Request(r, DispatchCompleteStep), r) <==> Known(DispatchGood, c, r)
    ensures SubmissionLaws.ReturnsNil(c, Request(r, DispatchCompleteStep), r) ==>
              Do(c, Request(r, DispatchCompleteStep)).reqs[r].phase
              == if c.reqs[r].phase == Abandoned then Abandoned else Dispatched
  {
    assert ReqOk(c.reqs[r], c.cancelled);
    NilCompletion(c.reqs[r]);
    assert Do(c, Request(r, DispatchCompleteStep)).reqs[r] == DispatchComplete(c.reqs[r]);
  }

  // ------------------------------------------------- Abort

  predicate IsFailing(c: Conn, r: ReqId) {
    r in c.reqs && c.reqs[r].dispatch.Failing?
  }

  /** Dispatch decides to fail: its context or the connection is done, or the write was refused. */
  predicate DecidesToFail(c: Conn, a: Action, r: ReqId) {
    || a == Request(r, DispatchFailStep)
    || (a == Request(r, DispatchResultStep) && r in c.reqs && c.reqs[r].write == Reported(false))
  }

  lemma DispatchFails(q: Req, s: Step, cancelled: bool)
    requires CanStep(q, s, cancelled) && ByDispatch(s) && DispatchStep(q, s, cancelled).dispatch.Failing? && !q.dispatch.Failing?
    ensures s == DispatchFailStep || (s == DispatchResultStep && q.write == Reported(false))
  {
  }

  lemma OthersKeepDispatch(q: Req, s: Step, cancelled: bool)
    requires CanStep(q, s, cancelled)
    ensures !ByDispatch(s) ==> DoStep(q, s, cancelled).dispatch == q.dispatch
  {
  }

  lemma SectionFails(q: Req, s: Step, cancelled: bool)
    requires CanStep(q, s, cancelled) && DoStep(q, s, cancelled).dispatch.Failing? && !q.dispatch.Failing?
    ensures s == DispatchFailStep || (s == DispatchResultStep && q.write == Reported(false))
  {
    OthersKeepDispatch(q, s, cancelled);
    if ByDispatch(s) { DispatchFails(q, s, cancelled); }
  }

  lemma OnlyFailureFails(c: Conn, a: Action, r: ReqId)
    requires Enabled(c, a) && c.nextId + 1 !in c.reqs && IsFailing(Do(c, a), r) && !IsFailing(c, r)
    ensures DecidesToFail(c, a, r)
  {
    KeysAfter(c, a);
    IsAfter(c, a, r);
    if a.Request? {
      SectionFails(c.reqs[r], a.step, c.cancelled);
    }
  }

  lemma FailureStep(states: seq<Conn>, acts: seq<Action>, k: nat, r: ReqId)
    requires IsRun(states, acts) && k < |acts| && IsFailing(states[k + 1], r) && !IsFailing(states[k], r)
    ensures DecidesToFail(states[k], acts[k], r)
  {
    RunInv(states, acts, k);
    NextIdFree(states[k]);
    OnlyFailureFails(states[k], acts[k], r);
  }

  lemma AborterFails(c: Conn, r: ReqId)
    requires Enabled(c, Request(r, DispatchAbortStep))
    ensures IsFailing(c, r) && !Known(DispatchGood, c, r)
  {
  }

  lemma FailingWasDecided(states: seq<Conn>, acts: seq<Action>, i: nat, r: ReqId)
    requires IsRun(states, acts) && i < |states| && IsFailing(states[i], r)
    ensures exists k :: 0 <= k < i && DecidesToFail(states[k], acts[k], r)
  {
    var flags := seq(|states|, j requires 0 <= j < |states| => IsFailing(states[j], r));
    var k := SubmissionLaws.WentUp(flags, i);
    FailureStep(states, acts, k, r);
  }

  /** Abort is called only by a Dispatch that has failed: its context or the connection was done, or
      the write was reported as refused. An accepted write never leads to it. */
  lemma AbortNeedsFailure(states: seq<Conn>, acts: seq<Action>, i: nat, r: ReqId)
    requires IsRun(states, acts) && i < |acts| && acts[i] == Request(r, DispatchAbortStep)
    ensures exists k :: 0 <= k < i && DecidesToFail(states[k], acts[k], r)
    ensures !exists k :: 0 <= k < i && SeesAccepted(states, acts, k, r)
  {
    RunPair(states, acts, i, i);
    AborterFails(states[i], r);
    FailingWasDecided(states, acts, i, r);
    GoodBefore(states, acts, i, r);
  }

  // ------------------------------------------------- classification

  /** The classification of a request is Possible exactly once the writer has begun; before that it
      is NotStarted exactly if something has decided its phase: a Dispatch that failed unsent or
      ended, an Abandon, or a Wait that met a failed entry; and Pending if nothing has. */
  lemma ClassifiedExactly(states: seq<Conn>, acts: seq<Action>, i: nat, r: ReqId)
    requires IsRun(states, acts) && i < |states| && r in states[i].reqs
    ensures Classify(states[i].reqs[r])
            == if Happened(Began, states, acts, i, r) then Possible
               else if Happened(PhaseDecided, states, acts, i, r) then NotStarted else Pending
  {
    KnownHappened(states, acts, i, r, Began);
    KnownHappened(states, acts, i, r, PhaseDecided);
    ClassifiedByFacts(states[i].reqs[r]);
  }

  lemma ClassifiedByFacts(q: Req)
    ensures Classify(q) == if Holds(Began, q) then Possible else if Holds(PhaseDecided, q) then NotStarted else Pending
  {
  }

  lemma KnownHappened(states: seq<Conn>, acts: seq<Action>, i: nat, r: ReqId, f: Fact)
    requires IsRun(states, acts) && i < |states|
    ensures Known(f, states[i], r) <==> Happened(f, states, acts, i, r)
  {
    FactsExplained(states, acts, i, r, f);
  }

  // ------------------------------------------------- what a Wait settles

  /** The pair that a step of Wait decides on, if it decides. */
  function Says(s: WaitStep): Option<Pair> {
    match s
    case DrainFail => Some(OrderFailed)
    case DrainViolation => Some(OrderFailed)
    case PollFail => Some(OrderFailed)
    case ObserverEnd(ok) => if ok then None else Some(ObserverFailed)
    case Decode(pair) => Some(pair)
    case HookEnd(ok) => Some(if ok then Delivered else HookFailed)
    case _ => None
  }

  /** The waiter decides on this pair; only a failure to wait for notifications in a Wait whose
      context is done may be retried. */
  predicate Decides(c: Conn, a: Action, w: WaitId, pair: Pair, retry: bool) {
    && a.Wait? && a.w == w && Says(a.wait) == Some(pair)
    && w in c.waits && retry == (pair == OrderFailed && c.waits[w].cancelled)
  }

  lemma WaitDecides(c: Conn, w: WaitId, x: Waiter, q: Req, s: WaitStep, pair: Pair, retry: bool)
    requires CanWait(c, x, q, s) && !s.Cancel?
    ensures NextPc(c, x, q, s) == Settling(pair, retry)
            <==> Says(s) == Some(pair) && retry == (pair == OrderFailed && x.cancelled)
  {
  }

  predicate IsAt(c: Conn, w: WaitId, pc: WaitPc) {
    w in c.waits && c.waits[w].pc == pc
  }

  /** The waiter's own step leads to this point. */
  predicate LeadsTo(c: Conn, a: Action, w: WaitId, pc: WaitPc)
    requires Enabled(c, a)
  {
    a.Wait? && a.w == w && !a.wait.Cancel? && NextPc(c, c.waits[w], ReqOf(c, w), a.wait) == pc
  }

  lemma DeliveryWaits(c: Conn, t: ReqId, d: DeliveryStep)
    requires t in c.reqs
    ensures DoDeliver(c, t, d).waits == c.waits
  {
  }

  lemma ReadWaits(c: Conn, x: ReaderStep)
    requires CanRead(c, x)
    ensures DoRead(c, x).waits == c.waits
  {
  }

  lemma OwnStepOnly(c: Conn, a: Action, w: WaitId, pc: WaitPc)
    requires Enabled(c, a) && IsAt(Do(c, a), w, pc) && !IsAt(c, w, pc) && pc != Entering
    ensures LeadsTo(c, a, w, pc)
  {
    if a.Read? {
      ReadWaits(c, a.read);
    } else if a.Delivery? {
      DeliveryWaits(c, a.r, a.delivery);
    }
  }

  lemma {:induction false} Rose(flags: seq<bool>, i: nat) returns (k: nat)
    requires i < |flags| && flags[i] && !flags[0]
    ensures k < i && !flags[k] && forall j | k < j <= i :: flags[j]
    decreases i
  {
    if flags[i - 1] { k := Rose(flags, i - 1); } else { k := i - 1; }
  }

  /** How a waiter came to where it is: by its own last step. */
  lemma CameTo(states: seq<Conn>, acts: seq<Action>, i: nat, w: WaitId, pc: WaitPc) returns (k: nat)
    requires IsRun(states, acts) && i < |states| && IsAt(states[i], w, pc) && pc != Entering
    ensures k < i && Enabled(states[k], acts[k]) && LeadsTo(states[k], acts[k], w, pc)
    ensures forall j | k < j <= i :: IsAt(states[j], w, pc)
  {
    var flags := seq(|states|, j requires 0 <= j < |states| => IsAt(states[j], w, pc));
    k := Rose(flags, i);
    assert flags[k + 1];
    forall j | k < j <= i ensures IsAt(states[j], w, pc) {
      assert flags[j];
    }
    OwnStepOnly(states[k], acts[k], w, pc);
  }

  /** A waiter that settles has decided on its pair before, and done nothing since. */
  lemma SettledIsDecided(states: seq<Conn>, acts: seq<Action>, i: nat, w: WaitId) returns (k: nat)
    requires IsRun(states, acts) && i < |states| && w in states[i].waits && states[i].waits[w].pc.Settling?
    ensures var pc := states[i].waits[w].pc;
            k < i && Decides(states[k], acts[k], w, pc.pair, pc.retry) && forall j | k < j <= i :: IsAt(states[j], w, pc)
  {
    var pc := states[i].waits[w].pc;
    k := CameTo(states, acts, i, w, pc);
    WaitDecides(states[k], w, states[k].waits[w], ReqOf(states[k], w), acts[k].wait, pc.pair, pc.retry);
  }

  /** The settling of request r by waiter w at k, whose pair is the one decided on, or abandonment. */
  predicate Resolves(c: Conn, a: Action, w: WaitId, r: ReqId, pair: Pair) {
    && a == Wait(w, Machine.Settle) && w in c.waits && c.waits[w].req == r && r in c.reqs && c.waits[w].pc.Settling?
    && (!c.waits[w].pc.retry || c.reqs[r].phase == Abandoned)
    && pair == if c.reqs[r].phase == Abandoned then WasAbandoned else c.waits[w].pc.pair
  }

  lemma SettledFinal(q: Req, pair: Pair, retry: bool)
    requires !retry || q.phase == Abandoned
    ensures var p := Requests.Settle(q, pair, retry);
            p.resolved && p.final == if q.phase == Abandoned then WasAbandoned else pair
  {
  }

  lemma SettleIsFinal(c: Conn, a: Action, r: ReqId)
    requires WaitsOk(c) && Enabled(c, a) && c.nextId + 1 !in c.reqs && Event(IsResolved, c, a, r)
    ensures a.Wait? && r in Do(c, a).reqs && Do(c, a).reqs[r].resolved
    ensures Resolves(c, a, a.w, r, Do(c, a).reqs[r].final)
  {
    var q, x := c.reqs[r], c.waits[a.w];
    IsAfter(c, a, r);
    LeaverResolves(a.w, x, q, c.feed);
    SettledFinal(q, x.pc.pair, x.pc.retry);
    assert Do(c, a).reqs[r] == Requests.Settle(q, x.pc.pair, x.pc.retry);
  }

  lemma SettleIsFinalIn(c: Conn, a: Action, r: ReqId)
    requires Inv(c) && Enabled(c, a) && Event(IsResolved, c, a, r)
    ensures a.Wait? && Known(IsResolved, Do(c, a), r) && Resolves(c, a, a.w, r, Do(c, a).reqs[r].final)
  {
    NextIdFree(c);
    SettleIsFinal(c, a, r);
  }

  lemma ResolvedNext(states: seq<Conn>, acts: seq<Action>, k: nat, r: ReqId)
    requires IsRun(states, acts) && k < |acts| && EventAt(IsResolved, states, acts, k, r)
    ensures acts[k].Wait? && Known(IsResolved, states[k + 1], r)
    ensures Resolves(states[k], acts[k], acts[k].w, r, states[k + 1].reqs[r].final)
  {
    RunInv(states, acts, k);
    SettleIsFinalIn(states[k], acts[k], r);
  }

  lemma ResolvedAt(states: seq<Conn>, acts: seq<Action>, k: nat, i: nat, r: ReqId)
    requires IsRun(states, acts) && k < i < |states| && EventAt(IsResolved, states, acts, k, r)
    ensures acts[k].Wait? && r in states[i].reqs && Resolves(states[k], acts[k], acts[k].w, r, states[i].reqs[r].final)
  {
    ResolvedNext(states, acts, k, r);
    FinalInRun(states, acts, k + 1, i, r);
  }

  lemma FinalInRun(states: seq<Conn>, acts: seq<Action>, k: nat, i: nat, r: ReqId)
    requires IsRun(states, acts) && k <= i < |states| && Known(IsResolved, states[k], r)
    ensures r in states[i].reqs && states[i].reqs[r].final == states[k].reqs[r].final
  {
    RunPersists(states, acts, k, i);
    FinalPersists(states[k], states[i], r);
  }

  lemma FinalPersists(c: Conn, d: Conn, r: ReqId)
    requires Persists(c, d) && Known(IsResolved, c, r)
    ensures r in d.reqs && d.reqs[r].final == c.reqs[r].final
  {
    SubmissionLaws.FinalStays(c, d, r);
  }

  /** What every Wait on a resolved request returns is what the waiter that resolved it had decided
      on last, by its observer, the decoding or the typed hook; unless the request was abandoned
      before that waiter settled it. */
  lemma ResultExplained(states: seq<Conn>, acts: seq<Action>, i: nat, r: ReqId) returns (j: nat, k: nat, w: WaitId)
    requires IsRun(states, acts) && i < |states| && Known(IsResolved, states[i], r)
    ensures j < k < i && Resolves(states[k], acts[k], w, r, states[i].reqs[r].final)
    ensures Decides(states[j], acts[j], w, states[k].waits[w].pc.pair, states[k].waits[w].pc.retry)
  {
    FactsExplained(states, acts, i, r, IsResolved);
    k :| 0 <= k < i && EventAt(IsResolved, states, acts, k, r);
    w := acts[k].w;
    ResolvedAt(states, acts, k, i, r);
    j := SettledIsDecided(states, acts, k, w);
  }

  // ------------------------------------------------- what success takes

  lemma DeliveredBy(c: Conn, a: Action, w: WaitId)
    requires Enabled(c, a) && Decides(c, a, w, Delivered, false)
    ensures (a.wait == HookEnd(true) && c.waits[w].pc == Hooking)
            || (a.wait == Decode(Delivered) && c.waits[w].pc == Checked && !ReqOf(c, w).hook)
  {
  }

  lemma HookingFrom(c: Conn, a: Action, w: WaitId)
    requires Enabled(c, a) && LeadsTo(c, a, w, Hooking)
    ensures c.waits[w].pc == Checked && ReqOf(c, w).hook
  {
  }

  lemma CheckedFrom(c: Conn, a: Action, w: WaitId)
    requires Enabled(c, a) && LeadsTo(c, a, w, Checked)
    ensures a.wait == ObserverEnd(true) || (c.waits[w].pc == Cleared && !ReqOf(c, w).observer)
  {
  }

  lemma WaiterKept(c: Conn, d: Conn, w: WaitId)
    requires WaitsLater(c, d) && ReqsLater(c, d) && Alive(c, w)
    ensures Alive(d, w) && d.waits[w].req == c.waits[w].req && ReqOf(d, w).hook == ReqOf(c, w).hook
  {
    assert Later(ReqOf(c, w), d.reqs[c.waits[w].req]);
  }

  /** The request was dispatched or given up, so no observer can be installed any more. */
  predicate PastReady(c: Conn, r: ReqId) {
    r in c.reqs && c.reqs[r].phase != Ready
  }

  lemma StaysPastReady(c: Conn, d: Conn, r: ReqId)
    requires PastReady(c, r) && ReqsLater(c, d)
    ensures PastReady(d, r)
  {
    assert Later(c.reqs[r], d.reqs[r]);
  }

  lemma NoObserveLater(states: seq<Conn>, acts: seq<Action>, k: nat, m: nat, r: ReqId)
    requires IsRun(states, acts) && k <= m < |acts| && PastReady(states[k], r)
    ensures !EventAt(Observed, states, acts, m, r)
  {
    RunPersists(states, acts, k, m);
    StaysPastReady(states[k], states[m], r);
  }

  lemma NoLateObserver(states: seq<Conn>, acts: seq<Action>, k: nat, i: nat, r: ReqId)
    requires IsRun(states, acts) && k <= i < |states| && PastReady(states[k], r) && !Known(Observed, states[k], r)
    ensures !Known(Observed, states[i], r)
  {
    FactsExplained(states, acts, k, r, Observed);
    FactsExplained(states, acts, i, r, Observed);
    forall m | 0 <= m < i ensures !EventAt(Observed, states, acts, m, r) {
      if m >= k { NoObserveLater(states, acts, k, m, r); }
    }
  }

  lemma ClearedIsPastReady(c: Conn, w: WaitId)
    requires ReqsOk(c) && WaitsOk(c) && Alive(c, w) && c.waits[w].pc == Cleared
    ensures PastReady(c, c.waits[w].req)
  {
    assert ReqOk(ReqOf(c, w), c.cancelled) && WaitOk(w, c.waits[w], ReqOf(c, w), c.feed);
  }

  lemma UnobservedStays(states: seq<Conn>, acts: seq<Action>, k: nat, i: nat, w: WaitId)
    requires IsRun(states, acts) && k <= i < |states| && Alive(states[k], w) && states[k].waits[w].pc == Cleared
    requires !ReqOf(states[k], w).observer
    ensures Alive(states[i], w) && !ReqOf(states[i], w).observer
  {
    RunInv(states, acts, k);
    RunPersists(states, acts, k, i);
    ClearedIsPastReady(states[k], w);
    WaiterKept(states[k], states[i], w);
    NoLateObserver(states, acts, k, i, states[k].waits[w].req);
  }

  /** The installed observer has accepted the response of the waiter's request. */
  ghost predicate ObserverPassed(states: seq<Conn>, acts: seq<Action>, i: nat, w: WaitId)
    requires IsRun(states, acts) && i < |states| && Alive(states[i], w)
  {
    ReqOf(states[i], w).observer ==> exists k :: 0 <= k < i && acts[k] == Wait(w, ObserverEnd(true))
  }

  lemma CheckedPassed(states: seq<Conn>, acts: seq<Action>, i: nat, w: WaitId)
    requires IsRun(states, acts) && i < |states| && Alive(states[i], w) && states[i].waits[w].pc == Checked
    ensures ObserverPassed(states, acts, i, w)
  {
    var k := CameTo(states, acts, i, w, Checked);
    CheckedFrom(states[k], acts[k], w);
    if acts[k].wait != ObserverEnd(true) { UnobservedStays(states, acts, k, i, w); }
  }

  lemma PassedStays(states: seq<Conn>, acts: seq<Action>, k: nat, i: nat, w: WaitId)
    requires IsRun(states, acts) && k <= i < |states| && Alive(states[k], w) && ObserverPassed(states, acts, k, w)
    requires PastReady(states[k], states[k].waits[w].req)
    ensures Alive(states[i], w) && ObserverPassed(states, acts, i, w)
  {
    RunPersists(states, acts, k, i);
    WaiterKept(states[k], states[i], w);
    if !ReqOf(states[k], w).observer { NoLateObserver(states, acts, k, i, states[k].waits[w].req); }
  }

  lemma ResolvingIsPastReady(c: Conn, w: WaitId)
    requires ReqsOk(c) && WaitsOk(c) && w in c.waits && Resolver(c.waits[w].pc)
    ensures Alive(c, w) && PastReady(c, c.waits[w].req)
  {
    assert Alive(c, w) && WaitOk(w, c.waits[w], ReqOf(c, w), c.feed);
    assert ReqOk(ReqOf(c, w), c.cancelled);
  }

  /** A waiter that decides on success at j: the observer has passed, and the typed hook, if there is
      one, accepts now; otherwise the result has just been decoded. */
  lemma DecidedOnSuccess(states: seq<Conn>, acts: seq<Action>, j: nat, w: WaitId)
    requires IsRun(states, acts) && j < |acts| && Decides(states[j], acts[j], w, Delivered, false)
    ensures Alive(states[j], w) && ObserverPassed(states, acts, j, w) && PastReady(states[j], states[j].waits[w].req)
    ensures acts[j] == Wait(w, if ReqOf(states[j], w).hook then HookEnd(true) else Decode(Delivered))
  {
    RunInv(states, acts, j);
    DeliveredBy(states[j], acts[j], w);
    ResolvingIsPastReady(states[j], w);
    if states[j].waits[w].pc == Checked {
      CheckedPassed(states, acts, j, w);
    } else {
      var k := CameTo(states, acts, j, w, Hooking);
      HookingFrom(states[k], acts[k], w);
      RunInv(states, acts, k);
      ResolvingIsPastReady(states[k], w);
      CheckedPassed(states, acts, k, w);
      PassedStays(states, acts, k, j, w);
      RunPersists(states, acts, k, j);
      WaiterKept(states[k], states[j], w);
    }
  }

  /** A request is delivered successfully only if one and the same Wait has run all there is to run:
      the observer, if one is installed, and the typed hook, if there is one, both without error;
      and without a hook it has decoded the result. */
  lemma SuccessMeansAllRan(states: seq<Conn>, acts: seq<Action>, i: nat, r: ReqId) returns (w: WaitId)
    requires IsRun(states, acts) && i < |states| && Known(IsResolved, states[i], r) && states[i].reqs[r].final == Delivered
    ensures Alive(states[i], w) && states[i].waits[w].req == r && ObserverPassed(states, acts, i, w)
    ensures exists j :: 0 <= j < i && acts[j] == Wait(w, if states[i].reqs[r].hook then HookEnd(true) else Decode(Delivered))
  {
    var j, k;
    j, k, w := ResultExplained(states, acts, i, r);
    DecidedOnSuccess(states, acts, j, w);
    RunPersists(states, acts, j, k);
    WaiterKept(states[j], states[k], w);
    RunPersists(states, acts, j, i);
    WaiterKept(states[j], states[i], w);
    PassedStays(states, acts, j, i, w);
  }

  lemma OrderFailedBy(c: Conn, a: Action, w: WaitId, retry: bool)
    requires Enabled(c, a) && Decides(c, a, w, OrderFailed, retry)
    ensures a == Wait(w, DrainViolation) || c.cancelled || c.waits[w].cancelled
  {
  }

  /** Waiting for the earlier notifications fails only for a Wait whose context is done, or on a
      connection that is. */
  lemma OrderFailureNeedsEnd(states: seq<Conn>, acts: seq<Action>, j: nat, w: WaitId, retry: bool)
    requires IsRun(states, acts) && j < |acts| && Decides(states[j], acts[j], w, OrderFailed, retry)
    ensures states[j].cancelled || states[j].waits[w].cancelled
  {
    OrderFailedBy(states[j], acts[j], w, retry);
    DeliveryLaws.SequenceInvariantNeverViolated(states, acts, j);
  }

  /** What a failed result says is what happened: the observer or the typed hook has failed, the
      decoding has found that error, waiting was cut short, or the request was abandoned. */
  lemma FailureExplained(states: seq<Conn>, acts: seq<Action>, i: nat, r: ReqId) returns (j: nat, w: WaitId)
    requires IsRun(states, acts) && i < |states| && Known(IsResolved, states[i], r) && states[i].reqs[r].final != Delivered
    ensures j < i && w in states[j].waits && states[j].waits[w].req == r
    ensures match states[i].reqs[r].final
            case ObserverFailed => acts[j] == Wait(w, ObserverEnd(false))
            case HookFailed => acts[j] == Wait(w, HookEnd(false))
            case RpcFailed => acts[j] == Wait(w, Decode(RpcFailed))
            case DecodeFailed => acts[j] == Wait(w, Decode(DecodeFailed))
            case OrderFailed => states[j].cancelled || states[j].waits[w].cancelled
            case WasAbandoned => Known(GivenUp, states[i], r)
  {
    var k;
    j, k, w := ResultExplained(states, acts, i, r);
    RunPair(states, acts, j, k);
    RunPersists(states, acts, j, k);
    RunPersists(states, acts, k, i);
    SameRequest(states[j], states[k], w);
    var pc := states[k].waits[w].pc;
    if states[k].reqs[r].phase == Abandoned {
      AbandonedIsGivenUp(states[k], r);
      FactsExplained(states, acts, k, r, GivenUp);
      FactsExplained(states, acts, i, r, GivenUp);
    } else if pc.pair == OrderFailed {
      OrderFailureNeedsEnd(states, acts, j, w, pc.retry);
    } else {
      FailedBy(states[j], acts[j], w, pc.pair, pc.retry);
    }
  }

  lemma SameRequest(c: Conn, d: Conn, w: WaitId)
    requires WaitsLater(c, d) && w in c.waits
    ensures w in d.waits && d.waits[w].req == c.waits[w].req
  {
  }

  lemma AbandonedIsGivenUp(c: Conn, r: ReqId)
    requires ReqsOk(c) && r in c.reqs && c.reqs[r].phase == Abandoned
    ensures Known(GivenUp, c, r)
  {
    assert ReqOk(c.reqs[r], c.cancelled);
  }

  lemma FailedBy(c: Conn, a: Action, w: WaitId, pair: Pair, retry: bool)
    requires Enabled(c, a) && Decides(c, a, w, pair, retry)
    ensures pair != WasAbandoned
    ensures pair == ObserverFailed ==> a == Wait(w, ObserverEnd(false))
    ensures pair == HookFailed ==> a == Wait(w, HookEnd(false))
    ensures pair == RpcFailed || pair == DecodeFailed ==> a == Wait(w, Decode(pair))
  {
  }
}
