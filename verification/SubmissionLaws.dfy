/** What a prepared request reports about its submission, and how it is resolved, over whole runs:
    under any interleaving of Dispatch, the writer, any number of Waits, Abandon and shutdown. */
module SubmissionLaws {
  import opened Results
  import opened Ids
  import opened Requests
  import opened Machine
  import opened Invariant
  import opened Runs
  import InvariantWaits
  import Feed
  import Gate

  /** The writer goes ahead with request r: beginWrite succeeds, or Write is called. */
  predicate Writes(a: Action, r: ReqId) {
    a == Request(r, WriterBeginStep) || a == Request(r, WriterInvokeStep)
  }

  /** The classification that an operation on r ends with, if this action ends one with an error
      or with Abandon's result. */
  function Verdict(c: Conn, a: Action, r: ReqId): Option<Submission>
    requires Enabled(c, a)
  {
    match a
    case Request(t, s) => if t == r then Reports(c.reqs[r], s) else None
    case Wait(w, s) => if c.waits[w].req == r then WaitVerdict(c, c.waits[w], c.reqs[r], s) else None
    case _ => None
  }

  function WaitVerdict(c: Conn, x: Waiter, q: Req, s: WaitStep): Option<Submission>
    requires CanWait(c, x, q, s)
  {
    var pc := NextPc(c, x, q, s);
    if pc == x.pc || !pc.Gone? then None
    else if pc.result.Refused? then pc.result.verdict
    else PairVerdict(q, pc.result.pair)
  }

  /** The classification in the error of a resolved request: all errors of completeResponse say
      Possible, and abandonment overrides them with the classification of that moment. */
  function PairVerdict(q: Req, pair: Pair): Option<Submission> {
    match pair
    case Delivered => None
    case WasAbandoned => Some(Classify(q))
    case _ => Some(Possible)
  }

  /** The check of a Wait that read the phase Ready. */
  predicate IsReadyCheck(a: Action) {
    a.Wait? && a.wait == ReadyCheck
  }

  /** A CancelRequest ends with the error of its notification. */
  predicate IsCancelFailure(a: Action) {
    a.Request? && a.step == CancelFailStep
  }

  /** The two exits whose classification is a constant that does not look at the submission. */
  predicate ReportsBlindly(a: Action) {
    IsReadyCheck(a) || IsCancelFailure(a)
  }

  // ------------------------------------------------- a verdict is true when it is given

  lemma SectionVerdict(q: Req, s: Step, cancelled: bool)
    requires ReqOk(q, cancelled) && CanStep(q, s, cancelled) && Reports(q, s).Some? && s != CancelFailStep
    ensures Stands(DoStep(q, s, cancelled), Reports(q, s).value)
  {
    match s
    case AbandonStep =>
      AbandonVerdict(q, cancelled);
      assert DoStep(q, s, cancelled) == Abandon(q);
    case DispatchCompleteStep =>
      CompletionVerdict(q, cancelled);
      assert DoStep(q, s, cancelled) == DispatchComplete(q);
    case DispatchRefusedStep => RefusedVerdict(q, cancelled);
    case CancelRefusedStep => RefusedVerdict(q, cancelled);
  }

  lemma CompletionVerdict(q: Req, cancelled: bool)
    requires ReqOk(q, cancelled) && q.dispatch.Ending? && q.dispatch.err.Some?
    ensures Stands(DispatchComplete(q), q.dispatch.err.value)
  {
  }

  lemma RefusedVerdict(q: Req, cancelled: bool)
    requires ReqOk(q, cancelled)
    ensures Stands(q, Classify(q))
  {
  }

  lemma AbandonVerdict(q: Req, cancelled: bool)
    requires ReqOk(q, cancelled)
    ensures Stands(Abandon(q), q.submission)
  {
  }

  lemma WaitVerdictStands(c: Conn, x: Waiter, q: Req, w: WaitId, s: WaitStep)
    requires ReqOk(q, c.cancelled) && WaitOk(w, x, q, c.feed) && CanWait(c, x, q, s) && s != ReadyCheck
    requires WaitVerdict(c, x, q, s).Some?
    ensures Stands(NextReq(c, w, x, q, s), WaitVerdict(c, x, q, s).value)
  {
    match s
    case Settle => AnsweredIsPossible(q, c.cancelled);
    case Resolve => ResolvedVerdict(q, c.cancelled);
    case Leave => ResolvedVerdict(q, c.cancelled);
    case _ =>
  }

  lemma ResolvedVerdict(q: Req, cancelled: bool)
    requires ReqOk(q, cancelled)
    ensures q.resolved ==> q.submission == Possible && Classify(q) == Possible
  {
  }

  /** responded implies admitted implies Possible. */
  lemma AnsweredIsPossible(q: Req, cancelled: bool)
    requires ReqOk(q, cancelled)
    ensures q.outcome.Answer? ==> q.responded
    ensures q.responded ==> q.admitted
    ensures q.admitted <==> q.submission == Possible
  {
  }

  lemma RequestVerdictStands(c: Conn, r: ReqId, s: Step)
    requires ReqsOk(c) && Enabled(c, Request(r, s)) && Verdict(c, Request(r, s), r).Some? && s != CancelFailStep
    ensures Stands(Do(c, Request(r, s)).reqs[r], Verdict(c, Request(r, s), r).value)
  {
    assert ReqOk(c.reqs[r], c.cancelled);
    SectionVerdict(c.reqs[r], s, c.cancelled);
    assert Do(c, Request(r, s)).reqs[r] == DoStep(c.reqs[r], s, c.cancelled);
  }

  lemma WaiterVerdictStands(c: Conn, w: WaitId, s: WaitStep)
    requires ReqsOk(c) && WaitsOk(c) && Enabled(c, Wait(w, s)) && s != ReadyCheck
    requires Verdict(c, Wait(w, s), c.waits[w].req).Some?
    ensures Stands(Do(c, Wait(w, s)).reqs[c.waits[w].req], Verdict(c, Wait(w, s), c.waits[w].req).value)
  {
    var r := c.waits[w].req;
    assert ReqOk(c.reqs[r], c.cancelled) && WaitOk(w, c.waits[w], c.reqs[r], c.feed);
    WaitVerdictStands(c, c.waits[w], c.reqs[r], w, s);
    assert Do(c, Wait(w, s)).reqs[r] == NextReq(c, w, c.waits[w], c.reqs[r], s);
  }

  lemma VerdictStands(c: Conn, a: Action, r: ReqId)
    requires Inv(c) && Enabled(c, a) && Verdict(c, a, r).Some? && !ReportsBlindly(a)
    ensures r in Do(c, a).reqs && Stands(Do(c, a).reqs[r], Verdict(c, a, r).value)
  {
    match a
    case Request(_, s) => RequestVerdictStands(c, r, s);
    case Wait(w, s) => WaiterVerdictStands(c, w, s);
  }

  // ------------------------------------------------- and for the whole run

  lemma SealedNeverWrites(c: Conn, a: Action, r: ReqId)
    requires ReqsOk(c) && r in c.reqs && Sealed(c.reqs[r]) && Writes(a, r)
    ensures !Enabled(c, a)
  {
    assert ReqOk(c.reqs[r], c.cancelled);
  }

  lemma StepWrites(q: Req, s: Step, cancelled: bool)
    requires WriteOk(q) && CanStep(q, s, cancelled) && (s == WriterBeginStep || s == WriterInvokeStep)
    ensures DoStep(q, s, cancelled).submission == Possible
  {
  }

  lemma WriteMeansPossible(c: Conn, a: Action, r: ReqId)
    requires ReqsOk(c) && Enabled(c, a) && Writes(a, r)
    ensures r in Do(c, a).reqs && Do(c, a).reqs[r].submission == Possible
  {
    assert ReqOk(c.reqs[r], c.cancelled);
    StepWrites(c.reqs[r], a.step, c.cancelled);
  }

  lemma WroteThenNotSealed(states: seq<Conn>, acts: seq<Action>, i: nat, j: nat, r: ReqId)
    requires IsRun(states, acts) && i < j < |states| && Writes(acts[i], r)
    ensures r in states[j].reqs && states[j].reqs[r].submission == Possible
  {
    RunPair(states, acts, i, i);
    WriteMeansPossible(states[i], acts[i], r);
    RunPersists(states, acts, i + 1, j);
    PossibleStays(states[i + 1], states[j], r);
  }

  lemma PossibleStays(c: Conn, d: Conn, r: ReqId)
    requires ReqsLater(c, d) && r in c.reqs && c.reqs[r].submission == Possible
    ensures r in d.reqs && d.reqs[r].submission == Possible
  {
    assert Later(c.reqs[r], d.reqs[r]);
  }

  lemma SealedStays(c: Conn, d: Conn, r: ReqId)
    requires ReqsLater(c, d) && r in c.reqs && Sealed(c.reqs[r])
    ensures r in d.reqs && Sealed(d.reqs[r])
  {
    assert Later(c.reqs[r], d.reqs[r]);
  }

  /** A request that is sealed at one moment is not written at any moment of the run. */
  lemma SealedMeansNeverWritten(states: seq<Conn>, acts: seq<Action>, i: nat, r: ReqId)
    requires IsRun(states, acts) && i < |states| && r in states[i].reqs && Sealed(states[i].reqs[r])
    ensures forall j | 0 <= j < |acts| :: !Writes(acts[j], r)
  {
    forall j | 0 <= j < |acts| ensures !Writes(acts[j], r) {
      if j < i {
        if Writes(acts[j], r) { WroteThenNotSealed(states, acts, j, i, r); }
      } else {
        RunPair(states, acts, j, j);
        RunPersists(states, acts, i, j);
        SealedStays(states[i], states[j], r);
        if Writes(acts[j], r) { SealedNeverWrites(states[j], acts[j], r); }
      }
    }
  }

  /** Submission proof: an operation that ends with NotStarted proves that the writer was never
      invoked for the request, and never will be. The one exception is a Wait that read the
      phase Ready; see ReadyCheckExact. */
  lemma NotStartedProved(states: seq<Conn>, acts: seq<Action>, i: nat, r: ReqId)
    requires IsRun(states, acts) && i < |acts|
    requires Enabled(states[i], acts[i]) && Verdict(states[i], acts[i], r) == Some(NotStarted)
    requires !IsReadyCheck(acts[i])
    ensures forall j | 0 <= j < |acts| :: !Writes(acts[j], r)
  {
    RunPair(states, acts, i, i);
    VerdictStands(states[i], acts[i], r);
    SealedMeansNeverWritten(states, acts, i + 1, r);
  }

  // ------------------------------------------------- only the writer makes a request Possible

  predicate IsPossible(c: Conn, r: ReqId) {
    r in c.reqs && c.reqs[r].submission == Possible
  }

  lemma DeliverySubmission(c: Conn, t: ReqId, d: DeliveryStep, r: ReqId)
    requires t in c.reqs
    ensures IsPossible(DoDeliver(c, t, d), r) <==> IsPossible(c, r)
  {
  }

  lemma ReadSubmission(c: Conn, x: ReaderStep, r: ReqId)
    requires CanRead(c, x)
    ensures IsPossible(DoRead(c, x), r) <==> IsPossible(c, r)
  {
  }

  lemma OnlyWriterSubmits(c: Conn, a: Action, r: ReqId)
    requires Enabled(c, a) && IsPossible(Do(c, a), r) && !IsPossible(c, r)
    ensures a == Request(r, WriterBeginStep)
  {
    match a
    case Delivery(t, d) => DeliverySubmission(c, t, d, r);
    case Read(x) => ReadSubmission(c, x, r);
    case _ =>
  }

  lemma PossibleStep(states: seq<Conn>, acts: seq<Action>, i: nat, r: ReqId)
    requires IsRun(states, acts) && i < |acts| && IsPossible(states[i + 1], r)
    ensures IsPossible(states[i], r) || acts[i] == Request(r, WriterBeginStep)
  {
    if !IsPossible(states[i], r) { OnlyWriterSubmits(states[i], acts[i], r); }
  }

  /** A flag that is up at i and was down at the start went up at some moment before i. */
  lemma {:induction false} WentUp(flags: seq<bool>, i: nat) returns (k: nat)
    requires i < |flags| && flags[i] && !flags[0]
    ensures k < i && !flags[k] && flags[k + 1]
    decreases i
  {
    if flags[i - 1] { k := WentUp(flags, i - 1); } else { k := i - 1; }
  }

  lemma PossibleMeansWritten(states: seq<Conn>, acts: seq<Action>, i: nat, r: ReqId)
    requires IsRun(states, acts) && i < |states| && IsPossible(states[i], r)
    ensures exists k :: 0 <= k < i && acts[k] == Request(r, WriterBeginStep)
  {
    var flags := seq(|states|, j requires 0 <= j < |states| => IsPossible(states[j], r));
    var k := WentUp(flags, i);
    PossibleStep(states, acts, k, r);
  }

  /** Conversely, an operation ends with Possible only after the writer began the request. The one
      exception is a CancelRequest whose notification failed; see CancelFailureExact. */
  lemma PossibleProved(states: seq<Conn>, acts: seq<Action>, i: nat, r: ReqId)
    requires IsRun(states, acts) && i < |acts|
    requires Enabled(states[i], acts[i]) && Verdict(states[i], acts[i], r) == Some(Possible)
    requires !IsCancelFailure(acts[i])
    ensures exists k :: 0 <= k < i && acts[k] == Request(r, WriterBeginStep)
  {
    RunPair(states, acts, i, i);
    PossibleVerdict(states[i], acts[i], r);
    PossibleMeansWritten(states, acts, i, r);
  }

  lemma ReadyCheckVerdict(c: Conn, a: Action, r: ReqId)
    requires Enabled(c, a) && IsReadyCheck(a)
    ensures Verdict(c, a, r) != Some(Possible)
  {
  }

  lemma WriterReportsNothing(c: Conn, r: ReqId)
    requires Enabled(c, Request(r, WriterBeginStep))
    ensures Verdict(c, Request(r, WriterBeginStep), r) == None
  {
  }

  lemma PossibleVerdict(c: Conn, a: Action, r: ReqId)
    requires Inv(c) && Enabled(c, a) && Verdict(c, a, r) == Some(Possible) && !IsCancelFailure(a)
    ensures IsPossible(c, r)
  {
    if IsReadyCheck(a) { ReadyCheckVerdict(c, a, r); }
    VerdictStands(c, a, r);
    if !IsPossible(c, r) {
      OnlyWriterSubmits(c, a, r);
      WriterReportsNothing(c, r);
    }
  }

  // ------------------------------------------------- the Wait that read Ready

  /** Its NotStarted is right exactly when the submission is still NotStarted at the check: the
      phase it read may be out of date, and it does not look at the submission again. */
  lemma ReadyCheckExact(states: seq<Conn>, acts: seq<Action>, i: nat, r: ReqId)
    requires IsRun(states, acts) && i < |acts|
    requires Enabled(states[i], acts[i]) && IsReadyCheck(acts[i])
    requires Verdict(states[i], acts[i], r) == Some(NotStarted)
    ensures r in states[i].reqs
    ensures (forall j | 0 <= j < |acts| :: !Writes(acts[j], r)) <==> states[i].reqs[r].submission == NotStarted
  {
    RunPair(states, acts, i, i);
    ReadyCheckBroken(states[i], acts[i], r);
    if states[i].reqs[r].submission == NotStarted {
      SealedMeansNeverWritten(states, acts, i, r);
    } else {
      PossibleMeansWritten(states, acts, i, r);
      var k :| 0 <= k < i && acts[k] == Request(r, WriterBeginStep);
      assert Writes(acts[k], r);
    }
  }

  /** In particular it is right for a caller that has not called Dispatch yet. */
  lemma ReadyCheckBeforeDispatch(states: seq<Conn>, acts: seq<Action>, i: nat, r: ReqId)
    requires IsRun(states, acts) && i < |acts|
    requires Enabled(states[i], acts[i]) && IsReadyCheck(acts[i])
    requires Verdict(states[i], acts[i], r) == Some(NotStarted)
    requires forall k | 0 <= k < i :: acts[k] != Request(r, DispatchStartStep)
    ensures forall j | 0 <= j < |acts| :: !Writes(acts[j], r)
  {
    RunPair(states, acts, i, i);
    ReadyCheckExact(states, acts, i, r);
    StartedMeansCalled(states, acts, i, r);
    UncalledIsNotStarted(states[i], r);
  }

  lemma UncalledIsNotStarted(c: Conn, r: ReqId)
    requires ReqsOk(c) && r in c.reqs && !HasStarted(c, r)
    ensures c.reqs[r].submission == NotStarted
  {
    assert ReqOk(c.reqs[r], c.cancelled);
  }

  lemma ReadyCheckBroken(c: Conn, a: Action, r: ReqId)
    requires ReqsOk(c) && Enabled(c, a) && IsReadyCheck(a) && Verdict(c, a, r) == Some(NotStarted)
    ensures r in c.reqs
    ensures c.reqs[r].submission == NotStarted ==> Sealed(c.reqs[r])
    ensures c.reqs[r].submission != NotStarted ==> IsPossible(c, r)
  {
    assert ReqOk(c.reqs[r], c.cancelled);
  }

  // ------------------------------------------------- when Dispatch was called and when it returned

  predicate HasStarted(c: Conn, r: ReqId) {
    r in c.reqs && !c.reqs[r].dispatch.Idle?
  }

  predicate HasReturned(c: Conn, r: ReqId) {
    r in c.reqs && DispatchDone(c.reqs[r])
  }

  lemma DeliveryDispatch(c: Conn, t: ReqId, d: DeliveryStep, r: ReqId)
    requires t in c.reqs
    ensures HasStarted(DoDeliver(c, t, d), r) <==> HasStarted(c, r)
    ensures HasReturned(DoDeliver(c, t, d), r) <==> HasReturned(c, r)
  {
  }

  lemma ReadDispatch(c: Conn, x: ReaderStep, r: ReqId)
    requires CanRead(c, x)
    ensures HasStarted(DoRead(c, x), r) <==> HasStarted(c, r)
    ensures HasReturned(DoRead(c, x), r) <==> HasReturned(c, r)
  {
  }

  lemma OnlyDispatchMoves(c: Conn, a: Action, r: ReqId)
    requires Enabled(c, a) && c.nextId + 1 !in c.reqs
    ensures HasStarted(Do(c, a), r) <==> (HasStarted(c, r) || a == Request(r, DispatchStartStep))
    ensures HasReturned(Do(c, a), r) && !HasReturned(c, r) ==> a == Request(r, DispatchCompleteStep)
  {
    match a
    case Delivery(t, d) => DeliveryDispatch(c, t, d, r);
    case Read(x) => ReadDispatch(c, x, r);
    case _ =>
  }

  lemma DispatchMoves(states: seq<Conn>, acts: seq<Action>, i: nat, r: ReqId)
    requires IsRun(states, acts) && i < |acts|
    ensures HasStarted(states[i + 1], r) <==> HasStarted(states[i], r) || acts[i] == Request(r, DispatchStartStep)
    ensures HasReturned(states[i + 1], r) && !HasReturned(states[i], r) ==> acts[i] == Request(r, DispatchCompleteStep)
  {
    RunInv(states, acts, i);
    NextIdFree(states[i]);
    OnlyDispatchMoves(states[i], acts[i], r);
  }

  lemma {:induction false} StaysUp(flags: seq<bool>, k: nat, i: nat)
    requires k <= i < |flags| && flags[k]
    requires forall j {:trigger flags[j]} | 0 <= j < |flags| - 1 && flags[j] :: flags[j + 1]
    ensures flags[i]
    decreases i - k
  {
    if k < i { StaysUp(flags, k + 1, i); }
  }

  /** Dispatch has been called before a moment exactly if the request shows it. */
  lemma CalledMeansStarted(states: seq<Conn>, acts: seq<Action>, k: nat, i: nat, r: ReqId)
    requires IsRun(states, acts) && k < i < |states| && acts[k] == Request(r, DispatchStartStep)
    ensures HasStarted(states[i], r)
  {
    var flags := seq(|states|, j requires 0 <= j < |states| => HasStarted(states[j], r));
    forall j | 0 <= j < |acts| ensures (flags[j] || acts[j] == Request(r, DispatchStartStep)) ==> flags[j + 1] {
      DispatchMoves(states, acts, j, r);
    }
    StaysUp(flags, k + 1, i);
  }

  lemma StartedMeansCalled(states: seq<Conn>, acts: seq<Action>, i: nat, r: ReqId)
    requires IsRun(states, acts) && i < |states|
    ensures HasStarted(states[i], r) <==> exists k :: 0 <= k < i && acts[k] == Request(r, DispatchStartStep)
  {
    if HasStarted(states[i], r) {
      var flags := seq(|states|, j requires 0 <= j < |states| => HasStarted(states[j], r));
      var k := WentUp(flags, i);
      DispatchMoves(states, acts, k, r);
    }
    if exists k :: 0 <= k < i && acts[k] == Request(r, DispatchStartStep) {
      var k :| 0 <= k < i && acts[k] == Request(r, DispatchStartStep);
      CalledMeansStarted(states, acts, k, i, r);
    }
  }

  lemma ReturnedMeansCompleted(states: seq<Conn>, acts: seq<Action>, i: nat, r: ReqId)
    requires IsRun(states, acts) && i < |states| && HasReturned(states[i], r)
    ensures exists k :: 0 <= k < i && acts[k] == Request(r, DispatchCompleteStep)
  {
    var flags := seq(|states|, j requires 0 <= j < |states| => HasReturned(states[j], r));
    var k := WentUp(flags, i);
    DispatchMoves(states, acts, k, r);
  }

  /** The action is the end of a Dispatch of r that returns nil. */
  predicate ReturnsNil(c: Conn, a: Action, r: ReqId) {
    a == Request(r, DispatchCompleteStep) && r in c.reqs && c.reqs[r].dispatch.Ending? && c.reqs[r].dispatch.err.None?
  }

  lemma CompletionReturns(c: Conn, r: ReqId)
    requires Enabled(c, Request(r, DispatchCompleteStep))
    ensures var d := Do(c, Request(r, DispatchCompleteStep));
            HasReturned(d, r) && (ReturnsNil(c, Request(r, DispatchCompleteStep), r) <==> d.reqs[r].dispatchErr.None?)
  {
    assert DoStep(c.reqs[r], DispatchCompleteStep, c.cancelled) == DispatchComplete(c.reqs[r]);
  }

  lemma ReturnedStays(c: Conn, d: Conn, r: ReqId)
    requires ReqsOk(d) && HasReturned(c, r) && ReqsLater(c, d)
    ensures HasReturned(d, r) && d.reqs[r].dispatchErr == c.reqs[r].dispatchErr
    ensures d.reqs[r].dispatchErr.None? ==> IsPossible(d, r)
  {
    assert Later(c.reqs[r], d.reqs[r]);
    assert ReqOk(d.reqs[r], d.cancelled);
  }

  lemma CompletedThen(states: seq<Conn>, acts: seq<Action>, k: nat, i: nat, r: ReqId)
    requires IsRun(states, acts) && k < i < |states| && acts[k] == Request(r, DispatchCompleteStep)
    ensures HasReturned(states[i], r) && (ReturnsNil(states[k], acts[k], r) <==> states[i].reqs[r].dispatchErr.None?)
    ensures ReturnsNil(states[k], acts[k], r) ==> IsPossible(states[i], r)
  {
    RunPair(states, acts, k, k);
    RunInv(states, acts, i);
    RunPersists(states, acts, k + 1, i);
    CompletionReturns(states[k], r);
    ReturnedStays(states[k + 1], states[i], r);
  }

  // ------------------------------------------------- the CancelRequest whose notification failed

  /** Its Possible is right, that is, the writer began the request before, exactly when Dispatch had
      returned nil before; or, what is the same here, when Dispatch was ever called. The phase
      Finished alone does not say so: a Wait on a request that was never dispatched leads there too. */
  lemma CancelFailureExact(states: seq<Conn>, acts: seq<Action>, i: nat, r: ReqId)
    requires IsRun(states, acts) && i < |acts| && acts[i] == Request(r, CancelFailStep)
    ensures (exists k :: 0 <= k < i && acts[k] == Request(r, WriterBeginStep))
            <==> (exists k :: 0 <= k < i && ReturnsNil(states[k], acts[k], r))
    ensures (exists k :: 0 <= k < i && acts[k] == Request(r, WriterBeginStep))
            <==> (exists k :: 0 <= k < i && acts[k] == Request(r, DispatchStartStep))
  {
    RunPair(states, acts, i, i);
    CancelFailureSent(states[i], r);
    StartedMeansCalled(states, acts, i, r);
    if exists k :: 0 <= k < i && acts[k] == Request(r, WriterBeginStep) {
      var k :| 0 <= k < i && acts[k] == Request(r, WriterBeginStep);
      WroteThenNotSealed(states, acts, k, i, r);
    }
    if IsPossible(states[i], r) {
      PossibleMeansWritten(states, acts, i, r);
      NilReturnFound(states, acts, i, r);
    }
    if exists k :: 0 <= k < i && ReturnsNil(states[k], acts[k], r) {
      var k :| 0 <= k < i && ReturnsNil(states[k], acts[k], r);
      CompletedThen(states, acts, k, i, r);
    }
  }

  lemma CancelFailureSent(c: Conn, r: ReqId)
    requires ReqsOk(c) && Enabled(c, Request(r, CancelFailStep))
    ensures IsPossible(c, r) <==> HasReturned(c, r) && c.reqs[r].dispatchErr.None?
    ensures IsPossible(c, r) <==> HasStarted(c, r)
  {
    assert ReqOk(c.reqs[r], c.cancelled);
  }

  lemma NilReturnFound(states: seq<Conn>, acts: seq<Action>, i: nat, r: ReqId)
    requires IsRun(states, acts) && i < |states| && HasReturned(states[i], r) && states[i].reqs[r].dispatchErr.None?
    ensures exists k :: 0 <= k < i && ReturnsNil(states[k], acts[k], r)
  {
    ReturnedMeansCompleted(states, acts, i, r);
    var k :| 0 <= k < i && acts[k] == Request(r, DispatchCompleteStep);
    CompletedThen(states, acts, k, i, r);
  }

  // ------------------------------------------------- concrete runs

  /** One request, one waiter, no notifications. */
  function Lone(q: Req, x: Waiter, cancelled: bool): Conn {
    Conn(Limits(1, 1, 1), cancelled, Feed.EMPTY_FEED, Gate.EMPTY_GATE, map[1 := q], map[7 := x], Reading, 1)
  }

  lemma Extend(states: seq<Conn>, acts: seq<Action>, a: Action, d: Conn)
    requires IsRun(states, acts) && Enabled(states[|acts|], a) && d == Do(states[|acts|], a)
    ensures IsRun(states + [d], acts + [a])
  {
  }

  lemma LoneStart() returns (states: seq<Conn>, acts: seq<Action>)
    ensures IsRun(states, acts) && acts == [Prepare(false, false), WaitStart(7, 1, None)]
    ensures states[2] == Lone(Fresh(false, false), Waiter(1, false, None, Entering), false)
  {
    var c := Initial(Limits(1, 1, 1));
    var d := c.(reqs := map[1 := Fresh(false, false)], nextId := 1);
    var e := Lone(Fresh(false, false), Waiter(1, false, None, Entering), false);
    assert Table(c) == {};
    assert Do(c, Prepare(false, false)) == d;
    assert Do(d, WaitStart(7, 1, None)) == e;
    Extend([c], [], Prepare(false, false), d);
    Extend([c] + [d], [] + [Prepare(false, false)], WaitStart(7, 1, None), e);
    states, acts := [c, d, e], [Prepare(false, false), WaitStart(7, 1, None)];
    assert states == [c] + [d] + [e] && acts == [] + [Prepare(false, false)] + [WaitStart(7, 1, None)];
  }

  lemma LoneStep(states: seq<Conn>, acts: seq<Action>, q: Req, x: Waiter, cancelled: bool, s: Step)
    requires IsRun(states, acts) && states[|acts|] == Lone(q, x, cancelled) && CanStep(q, s, cancelled)
    ensures IsRun(states + [Lone(DoStep(q, s, cancelled), x, cancelled)], acts + [Request(1, s)])
  {
    var d := Lone(DoStep(q, s, cancelled), x, cancelled);
    assert d.reqs == Lone(q, x, cancelled).reqs[1 := DoStep(q, s, cancelled)];
    Extend(states, acts, Request(1, s), d);
  }

  lemma LoneWait(states: seq<Conn>, acts: seq<Action>, q: Req, x: Waiter, cancelled: bool, s: WaitStep)
    requires IsRun(states, acts) && states[|acts|] == Lone(q, x, cancelled) && x.req == 1
    requires (s == ReadPhase && x.pc == Entering) || (s == ReadyCheck && x.pc == SawReady)
    ensures var c := Lone(q, x, cancelled);
            IsRun(states + [Lone(NextReq(c, 7, x, q, s), x.(pc := NextPc(c, x, q, s)), cancelled)], acts + [Wait(7, s)])
  {
    var c := Lone(q, x, cancelled);
    var d := Lone(NextReq(c, 7, x, q, s), x.(pc := NextPc(c, x, q, s)), cancelled);
    assert d.reqs == c.reqs[1 := NextReq(c, 7, x, q, s)];
    assert d.waits == c.waits[7 := x.(pc := NextPc(c, x, q, s))];
    Extend(states, acts, Wait(7, s), d);
  }

  lemma LoneShutdown(states: seq<Conn>, acts: seq<Action>, q: Req, x: Waiter)
    requires IsRun(states, acts) && states[|acts|] == Lone(q, x, false)
    ensures IsRun(states + [Lone(ShutdownTake(q), x, true)], acts + [Shutdown])
  {
    assert DoShutdown(Lone(q, x, false)).reqs == Lone(ShutdownTake(q), x, true).reqs;
    Extend(states, acts, Shutdown, Lone(ShutdownTake(q), x, true));
  }

  lemma LoneWritten() returns (states: seq<Conn>, acts: seq<Action>, q: Req)
    ensures IsRun(states, acts) && |acts| == 8 && Writes(acts[5], 1)
    ensures states[8] == Lone(q, Waiter(1, false, None, SawReady), true) && q.outcome.Broken?
  {
    var y := Waiter(1, false, None, SawReady);
    states, acts := LoneReady();
    states, acts, q := LoneSubmit(states, acts, Fresh(false, false), y);
    states, acts, q := LoneFail(states, acts, q, y);
  }

  /** A Wait reads the phase Ready; then the request is dispatched and the writer begins it; then
      shutdown fails the pending entry; and the Wait ends with NotStarted. */
  lemma ReadyCheckCanBeWrong() returns (states: seq<Conn>, acts: seq<Action>)
    ensures IsRun(states, acts) && |acts| == 9 && Enabled(states[8], acts[8]) && IsReadyCheck(acts[8])
    ensures Verdict(states[8], acts[8], 1) == Some(NotStarted)
    ensures Writes(acts[5], 1)
  {
    var q;
    states, acts, q := LoneWritten();
    states, acts := LoneReport(states, acts, q);
  }

  lemma LoneReady() returns (states: seq<Conn>, acts: seq<Action>)
    ensures IsRun(states, acts) && |acts| == 3
    ensures states[3] == Lone(Fresh(false, false), Waiter(1, false, None, SawReady), false)
  {
    states, acts := LoneStart();
    LoneWait(states, acts, Fresh(false, false), Waiter(1, false, None, Entering), false, ReadPhase);
    states, acts := states + [Lone(Fresh(false, false), Waiter(1, false, None, SawReady), false)], acts + [Wait(7, ReadPhase)];
  }

  lemma LoneReport(states: seq<Conn>, acts: seq<Action>, q: Req)
    returns (states': seq<Conn>, acts': seq<Action>)
    requires IsRun(states, acts) && states[|acts|] == Lone(q, Waiter(1, false, None, SawReady), true)
    requires q.outcome.Broken?
    ensures IsRun(states', acts') && acts' == acts + [Wait(7, ReadyCheck)]
    ensures Enabled(states'[|acts|], acts'[|acts|])
    ensures Verdict(states'[|acts|], acts'[|acts|], 1) == Some(NotStarted)
    ensures states'[|acts'|].reqs.Keys == {1} && states'[|acts'|].reqs[1] == FinishReady(q)
    ensures exists z :: states'[|acts'|] == Lone(FinishReady(q), z, true)
  {
    var z := Waiter(1, false, None, Gone(Refused(Some(NotStarted))));
    LoneWait(states, acts, q, Waiter(1, false, None, SawReady), true, ReadyCheck);
    states', acts' := states + [Lone(FinishReady(q), z, true)], acts + [Wait(7, ReadyCheck)];
  }

  lemma LoneSweep(states: seq<Conn>, acts: seq<Action>, q: Req, x: Waiter)
    returns (states': seq<Conn>, acts': seq<Action>)
    requires IsRun(states, acts) && states[|acts|] == Lone(q, x, false)
    ensures IsRun(states', acts') && acts' == acts + [Shutdown] && states'[|acts'|] == Lone(ShutdownTake(q), x, true)
  {
    LoneShutdown(states, acts, q, x);
    states', acts' := states + [Lone(ShutdownTake(q), x, true)], acts + [Shutdown];
  }

  lemma LoneFail(states: seq<Conn>, acts: seq<Action>, q: Req, x: Waiter)
    returns (states': seq<Conn>, acts': seq<Action>, q': Req)
    requires IsRun(states, acts) && states[|acts|] == Lone(q, x, false) && q.inTable && !q.responded
    ensures IsRun(states', acts') && states'[|acts'|] == Lone(q', x, true)
    ensures acts' == acts + [Shutdown, Request(1, ShutdownCompleteStep)] && q'.outcome.Broken?
    ensures q'.phase == q.phase && q'.submission == q.submission
  {
    states', acts' := LoneSweep(states, acts, q, x);
    q' := ShutdownComplete(ShutdownTake(q));
    LoneStep(states', acts', ShutdownTake(q), x, true, ShutdownCompleteStep);
    states', acts' := states' + [Lone(q', x, true)], acts' + [Request(1, ShutdownCompleteStep)];
  }

  lemma LoneSubmit(states: seq<Conn>, acts: seq<Action>, q: Req, x: Waiter)
    returns (states': seq<Conn>, acts': seq<Action>, q': Req)
    requires IsRun(states, acts) && states[|acts|] == Lone(q, x, false) && q == Fresh(false, false)
    ensures IsRun(states', acts') && states'[|acts'|] == Lone(q', x, false)
    ensures acts' == acts + [Request(1, DispatchStartStep), Request(1, DispatchSendStep), Request(1, WriterBeginStep)]
    ensures q' == WriterBegin(DispatchSend(DispatchStart(q)))
  {
    LoneStep(states, acts, q, x, false, DispatchStartStep);
    states', acts' := states + [Lone(DispatchStart(q), x, false)], acts + [Request(1, DispatchStartStep)];
    LoneStep(states', acts', DispatchStart(q), x, false, DispatchSendStep);
    q' := DispatchSend(DispatchStart(q));
    states', acts' := states' + [Lone(q', x, false)], acts' + [Request(1, DispatchSendStep)];
    LoneStep(states', acts', q', x, false, WriterBeginStep);
    q' := WriterBegin(q');
    states', acts' := states' + [Lone(q', x, false)], acts' + [Request(1, WriterBeginStep)];
  }

  lemma LoneCancelRequest(states: seq<Conn>, acts: seq<Action>, q: Req, z: Waiter)
    returns (states': seq<Conn>, acts': seq<Action>)
    requires IsRun(states, acts) && states[|acts|] == Lone(q, z, true) && q.phase == Finished
    ensures IsRun(states', acts') && acts' == acts + [Request(1, CancelReadStep), Request(1, CancelFailStep)]
    ensures var c := Lone(q.(cancelling := true), z, true);
            && states'[|acts| + 1] == c && states'[|acts| + 2] == c
            && Enabled(c, Request(1, CancelFailStep)) && Verdict(c, Request(1, CancelFailStep), 1) == Some(Possible)
  {
    var c := Lone(q.(cancelling := true), z, true);
    LoneStep(states, acts, q, z, true, CancelReadStep);
    states', acts' := states + [c], acts + [Request(1, CancelReadStep)];
    LoneStep(states', acts', q.(cancelling := true), z, true, CancelFailStep);
    states', acts' := states' + [c], acts' + [Request(1, CancelFailStep)];
  }

  /** A request is never dispatched; shutdown fails its entry, and a Wait takes it to Finished; then
      CancelRequest is let through, its notification fails, and it ends with Possible. The writer is
      not invoked in the whole run. */
  lemma CancelFailureCanBeWrong() returns (states: seq<Conn>, acts: seq<Action>)
    ensures IsRun(states, acts) && |acts| == 8 && acts[7] == Request(1, CancelFailStep)
    ensures Enabled(states[7], acts[7]) && Verdict(states[7], acts[7], 1) == Some(Possible)
    ensures forall j | 0 <= j < |acts| :: !Writes(acts[j], 1)
  {
    var q, z;
    states, acts := LoneReady();
    states, acts, q := LoneFail(states, acts, Fresh(false, false), Waiter(1, false, None, SawReady));
    states, acts, q, z := LoneFinish(states, acts, q);
    states, acts := LoneCancelRequest(states, acts, q, z);
    SealedMeansNeverWritten(states, acts, 8, 1);
  }

  lemma LoneFinish(states: seq<Conn>, acts: seq<Action>, q: Req)
    returns (states': seq<Conn>, acts': seq<Action>, q': Req, z: Waiter)
    requires IsRun(states, acts) && states[|acts|] == Lone(q, Waiter(1, false, None, SawReady), true)
    requires q.outcome.Broken? && q.phase == Ready && q.submission == NotStarted
    ensures IsRun(states', acts') && |acts'| == |acts| + 1 && states'[|acts'|] == Lone(q', z, true)
    ensures q'.phase == Finished && q'.submission == NotStarted
  {
    states', acts' := LoneReport(states, acts, q);
    z :| states'[|acts'|] == Lone(FinishReady(q), z, true);
    q' := FinishReady(q);
  }

  // ------------------------------------------------- the error of a failed dispatch

  /** A Wait that reads the phase DispatchFailed returns a nil error exactly when Dispatch has
      not finished yet: the phase is set before the error. */
  lemma FailedDispatchError(c: Conn, w: WaitId)
    requires ReqsOk(c) && Enabled(c, Wait(w, ReadPhase)) && ReqOf(c, w).phase == DispatchFailed
    ensures Do(c, Wait(w, ReadPhase)).waits[w].pc == Gone(Refused(ReqOf(c, w).dispatchErr))
    ensures ReqOf(c, w).dispatchErr == None <==> !DispatchDone(ReqOf(c, w))
  {
    assert ReqOk(ReqOf(c, w), c.cancelled);
  }

  /** ... and no other exit of Wait returns a nil error without a response. */
  lemma NilErrorNeedsFailedDispatch(c: Conn, w: WaitId, s: WaitStep)
    requires Enabled(c, Wait(w, s)) && !c.waits[w].pc.Gone?
    requires NextPc(c, c.waits[w], ReqOf(c, w), s) == Gone(Refused(None))
    ensures s == ReadPhase && ReqOf(c, w).phase == DispatchFailed
  {
  }

  /** The race happens: Dispatch fails before the write, and a Wait reads between the two steps. */
  lemma FailedDispatchCanReadNil() returns (states: seq<Conn>, acts: seq<Action>)
    ensures IsRun(states, acts) && |acts| == 6
    ensures states[6].waits.Keys == {7} && states[6].waits[7].pc == Gone(Refused(None))
  {
    var x := Waiter(1, false, None, Entering);
    var q := Fresh(false, false);
    states, acts := LoneStart();
    states, acts, q := LoneCancel(states, acts, q, x);
    LoneWait(states, acts, q, x, false, ReadPhase);
    states, acts := states + [Lone(q, x.(pc := Gone(Refused(None))), false)], acts + [Wait(7, ReadPhase)];
  }

  lemma LoneCancel(states: seq<Conn>, acts: seq<Action>, q: Req, x: Waiter)
    returns (states': seq<Conn>, acts': seq<Action>, q': Req)
    requires IsRun(states, acts) && states[|acts|] == Lone(q, x, false) && q == Fresh(false, false)
    ensures IsRun(states', acts') && states'[|acts'|] == Lone(q', x, false) && |acts'| == |acts| + 3
    ensures q'.phase == DispatchFailed && q'.dispatchErr.None?
  {
    LoneStep(states, acts, q, x, false, DispatchStartStep);
    q' := DispatchStart(q);
    states', acts' := states + [Lone(q', x, false)], acts + [Request(1, DispatchStartStep)];
    LoneStep(states', acts', q', x, false, DispatchCancelStep);
    q' := q'.(dispatchCancelled := true);
    states', acts' := states' + [Lone(q', x, false)], acts' + [Request(1, DispatchCancelStep)];
    LoneStep(states', acts', q', x, false, DispatchFailStep);
    q' := DispatchFail(q');
    states', acts' := states' + [Lone(q', x, false)], acts' + [Request(1, DispatchFailStep)];
  }

  // ------------------------------------------------- Abort, and the phases

  /** Abort is called at most once, and only after the writer began the request. */
  lemma AbortedOnce(states: seq<Conn>, acts: seq<Action>, i: nat, r: ReqId)
    requires IsRun(states, acts) && i < |acts| && acts[i] == Request(r, DispatchAbortStep)
    ensures exists k :: 0 <= k < i && acts[k] == Request(r, WriterBeginStep)
    ensures forall j | i < j < |acts| :: acts[j] != Request(r, DispatchAbortStep)
  {
    RunPair(states, acts, i, i);
    AbortIsFirst(states[i], r);
    PossibleMeansWritten(states, acts, i, r);
    forall j | i < j < |acts| ensures acts[j] != Request(r, DispatchAbortStep) {
      if acts[j] == Request(r, DispatchAbortStep) {
        RunPair(states, acts, j, j);
        AbortIsFirst(states[j], r);
        RunPersists(states, acts, i + 1, j);
        AbortsStay(states[i + 1], states[j], r);
      }
    }
  }

  lemma AbortIsFirst(c: Conn, r: ReqId)
    requires ReqsOk(c) && Enabled(c, Request(r, DispatchAbortStep))
    ensures c.reqs[r].aborts == 0 && IsPossible(c, r)
    ensures Do(c, Request(r, DispatchAbortStep)).reqs[r].aborts == 1
  {
    assert ReqOk(c.reqs[r], c.cancelled);
  }

  lemma AbortsStay(c: Conn, d: Conn, r: ReqId)
    requires ReqsLater(c, d) && r in c.reqs
    ensures r in d.reqs && d.reqs[r].aborts >= c.reqs[r].aborts
  {
    assert Later(c.reqs[r], d.reqs[r]);
  }

  /** A request never goes back to an earlier phase, and never from Possible to NotStarted. */
  lemma PhasesAdvance(states: seq<Conn>, acts: seq<Action>, i: nat, j: nat, r: ReqId)
    requires IsRun(states, acts) && i <= j < |states| && r in states[i].reqs
    ensures r in states[j].reqs && Rank(states[i].reqs[r].phase) <= Rank(states[j].reqs[r].phase)
    ensures states[i].reqs[r].submission == Possible ==> states[j].reqs[r].submission == Possible
  {
    RunPersists(states, acts, i, j);
    LaterAdvances(states[i], states[j], r);
  }

  lemma LaterAdvances(c: Conn, d: Conn, r: ReqId)
    requires ReqsLater(c, d) && r in c.reqs
    ensures r in d.reqs && Rank(c.reqs[r].phase) <= Rank(d.reqs[r].phase)
    ensures c.reqs[r].submission == Possible ==> d.reqs[r].submission == Possible
  {
    assert Later(c.reqs[r], d.reqs[r]);
  }

  // ------------------------------------------------- single resolution

  predicate StartsObserver(c: Conn, a: Action, r: ReqId) {
    a.Wait? && a.wait == ObserverStart && a.w in c.waits && c.waits[a.w].req == r
  }

  predicate StartsHook(c: Conn, a: Action, r: ReqId) {
    a.Wait? && a.wait == HookStart && a.w in c.waits && c.waits[a.w].req == r
  }

  lemma ObserverIsFirst(c: Conn, a: Action, r: ReqId)
    requires WaitsOk(c) && Enabled(c, a) && StartsObserver(c, a, r)
    ensures r in c.reqs && c.reqs[r].observed == 0
    ensures r in Do(c, a).reqs && Do(c, a).reqs[r].observed == 1
  {
    assert WaitOk(a.w, c.waits[a.w], ReqOf(c, a.w), c.feed);
  }

  lemma HookIsFirst(c: Conn, a: Action, r: ReqId)
    requires WaitsOk(c) && Enabled(c, a) && StartsHook(c, a, r)
    ensures r in c.reqs && c.reqs[r].hooked == 0
    ensures r in Do(c, a).reqs && Do(c, a).reqs[r].hooked == 1
  {
    assert WaitOk(a.w, c.waits[a.w], ReqOf(c, a.w), c.feed);
  }

  lemma CountsStay(c: Conn, d: Conn, r: ReqId)
    requires ReqsLater(c, d) && r in c.reqs
    ensures r in d.reqs && d.reqs[r].observed >= c.reqs[r].observed && d.reqs[r].hooked >= c.reqs[r].hooked
  {
    assert Later(c.reqs[r], d.reqs[r]);
  }

  lemma ObservedOnce(states: seq<Conn>, acts: seq<Action>, i: nat, j: nat, r: ReqId)
    requires IsRun(states, acts) && i < j < |acts|
    ensures !(StartsObserver(states[i], acts[i], r) && StartsObserver(states[j], acts[j], r))
  {
    RunPair(states, acts, i, i);
    RunPair(states, acts, j, j);
    RunPersists(states, acts, i + 1, j);
    if StartsObserver(states[i], acts[i], r) {
      ObserverIsFirst(states[i], acts[i], r);
      CountsStay(states[i + 1], states[j], r);
      if StartsObserver(states[j], acts[j], r) { ObserverIsFirst(states[j], acts[j], r); }
    }
  }

  lemma HookedOnce(states: seq<Conn>, acts: seq<Action>, i: nat, j: nat, r: ReqId)
    requires IsRun(states, acts) && i < j < |acts|
    ensures !(StartsHook(states[i], acts[i], r) && StartsHook(states[j], acts[j], r))
  {
    RunPair(states, acts, i, i);
    RunPair(states, acts, j, j);
    RunPersists(states, acts, i + 1, j);
    if StartsHook(states[i], acts[i], r) {
      HookIsFirst(states[i], acts[i], r);
      CountsStay(states[i + 1], states[j], r);
      if StartsHook(states[j], acts[j], r) { HookIsFirst(states[j], acts[j], r); }
    }
  }

  /** However many Waits there are and however often they are retried, a request's observer and
      its typed hook start at most once each. */
  lemma ResolvedOnce(states: seq<Conn>, acts: seq<Action>, i: nat, j: nat, r: ReqId)
    requires IsRun(states, acts) && i < j < |acts|
    ensures !(StartsObserver(states[i], acts[i], r) && StartsObserver(states[j], acts[j], r))
    ensures !(StartsHook(states[i], acts[i], r) && StartsHook(states[j], acts[j], r))
  {
    ObservedOnce(states, acts, i, j, r);
    HookedOnce(states, acts, i, j, r);
  }

  /** At most one Wait resolves a request at any moment; while it does, the request's delivery
      stays undone on the chain, even if the request is abandoned, unless the connection is shut
      down. */
  lemma OneResolver(c: Conn, w: WaitId)
    requires Inv(c) && w in c.waits && Resolver(c.waits[w].pc)
    ensures forall v | v in c.waits && c.waits[v].req == c.waits[w].req && Resolver(c.waits[v].pc) :: v == w
    ensures Alive(c, w) && ReqOf(c, w).outcome.Answer?
    ensures ReqOf(c, w).gated && !c.cancelled ==>
              0 <= ReqOf(c, w).node < |c.gate.nodes| && !c.gate.nodes[ReqOf(c, w).node].done
              && ReqOf(c, w).node in c.gate.chain
  {
    ResolversAgree(c, w);
    assert ReqOk(ReqOf(c, w), c.cancelled) && LinkOk(c, c.waits[w].req);
    if ReqOf(c, w).gated {
      assert NodeOk(c, ReqOf(c, w).node);
      Gate.HistoryOnChain(c.gate, ReqOf(c, w).node);
    }
  }

  lemma ResolversAgree(c: Conn, w: WaitId)
    requires WaitsOk(c) && w in c.waits && Resolver(c.waits[w].pc)
    ensures forall v | v in c.waits && c.waits[v].req == c.waits[w].req && Resolver(c.waits[v].pc) :: v == w
    ensures Alive(c, w) && ReqOf(c, w).resolver == Some(w)
  {
    assert WaitOk(w, c.waits[w], ReqOf(c, w), c.feed);
    forall v | v in c.waits && c.waits[v].req == c.waits[w].req && Resolver(c.waits[v].pc) ensures v == w {
      assert WaitOk(v, c.waits[v], ReqOf(c, v), c.feed);
    }
  }

  lemma GotIsFinal(c: Conn, w: WaitId)
    requires WaitsOk(c) && w in c.waits && c.waits[w].pc.Gone? && c.waits[w].pc.result.Got?
    ensures Alive(c, w) && ReqOf(c, w).resolved && ReqOf(c, w).final == c.waits[w].pc.result.pair
  {
    assert WaitOk(w, c.waits[w], ReqOf(c, w), c.feed);
  }

  lemma FinalStays(c: Conn, d: Conn, r: ReqId)
    requires ReqsLater(c, d) && r in c.reqs && c.reqs[r].resolved
    ensures r in d.reqs && d.reqs[r].resolved && d.reqs[r].final == c.reqs[r].final
  {
    assert Later(c.reqs[r], d.reqs[r]);
  }

  /** Every Wait that reads a resolved request gets the same pair, whatever happens in between:
      a later Abandon in particular. */
  lemma WaitsReadTheSame(states: seq<Conn>, acts: seq<Action>, i: nat, j: nat, w: WaitId, v: WaitId)
    requires IsRun(states, acts) && i <= j < |states|
    requires w in states[i].waits && states[i].waits[w].pc.Gone? && states[i].waits[w].pc.result.Got?
    requires v in states[j].waits && states[j].waits[v].pc.Gone? && states[j].waits[v].pc.result.Got?
    requires states[i].waits[w].req == states[j].waits[v].req
    ensures states[i].waits[w].pc == states[j].waits[v].pc
  {
    RunInv(states, acts, i);
    RunInv(states, acts, j);
    RunPersists(states, acts, i, j);
    GotIsFinal(states[i], w);
    GotIsFinal(states[j], v);
    FinalStays(states[i], states[j], states[i].waits[w].req);
  }

  /** Once a request is resolved, Abandon changes nothing at all. */
  lemma AbandonTooLate(q: Req, cancelled: bool)
    requires ReqOk(q, cancelled) && q.resolved
    ensures Abandon(q) == q && q.submission == Possible
  {
  }
}
