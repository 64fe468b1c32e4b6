/** The critical sections of prepared_request.go and connection.go that guard a request, as methods
    that update the fields under the mutex. Each is proved to do to the request exactly
    what the step of the state machine does. */
module Sections {
  import opened Results
  import opened Ids
  import opened Requests
  import Machine
  import Chains
  import Gate

  /** What the request's mutex guards. */
  datatype Guarded = Guarded(
    phase: Phase, submission: Submission, observer: bool,
    dispatchDone: bool, dispatchErr: Option<Submission>, abandoned: bool,
    resolving: bool, attempt: nat, resolved: bool, pair: Pair)

  predicate Matches(g: Guarded, q: Req) {
    && g.phase == q.phase && g.submission == q.submission && g.observer == q.observer
    && g.dispatchDone == q.dispatch.Returned? && g.dispatchErr == q.dispatchErr && g.abandoned == q.abandonClosed
    && g.resolving == q.resolver.Some? && g.attempt == q.attempt && g.resolved == q.resolved && g.pair == q.final
  }

  // ------------------------------------------------- the steps, branch by branch

  lemma FailsAbandoned(g: Guarded, q: Req)
    requires Matches(g, q) && !g.dispatchDone && g.phase == Abandoned
    ensures Matches(g, DispatchFail(q)) && DispatchFail(q).dispatch.Ending?
  {
  }

  lemma FailsUnsent(g: Guarded, q: Req)
    requires Matches(g, q) && !g.dispatchDone && g.phase != Abandoned && g.submission == NotStarted
    ensures Matches(g.(phase := DispatchFailed), DispatchFail(q))
    ensures DispatchFail(q).dispatch == Failing(g.submission)
  {
  }

  lemma Begins(g: Guarded, q: Req)
    requires Matches(g, q)
    ensures Matches(g.(submission := Possible), WriterBegin(q))
  {
  }

  lemma FailsSent(g: Guarded, q: Req)
    requires Matches(g, q) && !g.dispatchDone && g.phase != Abandoned && g.submission != NotStarted
    ensures Matches(g, DispatchFail(q)) && DispatchFail(q).dispatch == Failing(g.submission)
  {
  }

  lemma CompletesTo(g: Guarded, q: Req)
    requires Matches(g, q) && q.dispatch.Ending? && (g.phase != Abandoned || q.dispatch.phase == Abandoned)
    ensures Matches(g.(phase := q.dispatch.phase, dispatchErr := q.dispatch.err, dispatchDone := true), DispatchComplete(q))
  {
  }

  lemma CompletesAbandoned(g: Guarded, q: Req)
    requires Matches(g, q) && q.dispatch.Ending? && g.phase == Abandoned && q.dispatch.phase != Abandoned
    ensures Matches(g.(dispatchErr := q.dispatch.err, dispatchDone := true), DispatchComplete(q))
  {
  }

  lemma SettlesOpen(g: Guarded, q: Req, p: Pair)
    requires Matches(g, q) && g.phase != Abandoned
    ensures Matches(g.(resolving := false), Settle(q, p, true)) && Settle(q, p, true).resolved == q.resolved
  {
  }

  lemma SettlesAbandoned(g: Guarded, q: Req, p: Pair)
    requires Matches(g, q) && g.phase == Abandoned
    ensures Matches(g.(resolving := false, resolved := true, pair := WasAbandoned), Settle(q, p, true))
  {
  }

  lemma SettlesFinally(g: Guarded, q: Req, p: Pair)
    requires Matches(g, q)
    ensures var pair := if g.phase == Abandoned then WasAbandoned else p;
            Matches(g.(resolving := false, resolved := true, phase := Finished, pair := pair), Settle(q, p, false))
  {
  }

  lemma AbandonsLate(g: Guarded, q: Req)
    requires Matches(g, q) && (g.resolved || g.phase == Finished)
    ensures Matches(g, Requests.Abandon(q))
    ensures Requests.Abandon(q).detach == q.detach && Requests.Abandon(q).releaseCalled == q.releaseCalled
  {
  }

  lemma AbandonsResolving(g: Guarded, q: Req)
    requires Matches(g, q) && !g.resolved && g.phase != Finished && g.resolving
    ensures Matches(g.(phase := Abandoned, abandoned := true), Requests.Abandon(q))
    ensures Requests.Abandon(q).detach && Requests.Abandon(q).releaseCalled == q.releaseCalled
  {
  }

  lemma AbandonsOpen(g: Guarded, q: Req)
    requires Matches(g, q) && !g.resolved && g.phase != Finished && !g.resolving
    ensures Matches(g.(phase := Abandoned, abandoned := true), Requests.Abandon(q))
    ensures Requests.Abandon(q).releaseCalled && Requests.Abandon(q).detach == q.detach
  {
  }

  /** As far as the table is concerned, p is q taken out of it. */
  predicate TakenOut(q: Req, p: Req) {
    !p.inTable && p.admitted == q.admitted && p.responded == q.responded
  }

  lemma TakesUnanswered(q: Req)
    requires q.inTable && !q.responded
    ensures TakenOut(q, ReleaseTake(q)) && ReleaseTake(q).release == Taken
  {
  }

  lemma TakesNothing(q: Req)
    requires !q.inTable || q.responded
    ensures TakenOut(q, ReleaseTake(q)) && ReleaseTake(q).release == if q.responded then Answered else Unanswered
  {
  }

  lemma SweepsEntry(q: Req)
    requires q.inTable
    ensures TakenOut(q, ShutdownTake(q))
  {
  }

  lemma SweepsNothing(q: Req)
    requires !q.inTable
    ensures TakenOut(q, ShutdownTake(q))
  {
  }

  lemma Sweeps(q: Req)
    ensures TakenOut(q, ShutdownTake(q))
  {
    if q.inTable { SweepsEntry(q); } else { SweepsNothing(q); }
  }

  /** The fields of PreparedRequest guarded by its mutex. */
  class PreparedRequest {
    var phase: Phase
    var submission: Submission
    var observer: bool
    var dispatchDone: bool
    var dispatchErr: Option<Submission>
    var abandoned: bool
    var resolving: bool
    var attempt: nat
    var resolved: bool
    var pair: Pair

    ghost function Now(): Guarded
      reads this
    {
      Guarded(phase, submission, observer, dispatchDone, dispatchErr, abandoned, resolving, attempt, resolved, pair)
    }

    ghost predicate Shows(q: Req)
      reads this
    {
      Matches(Now(), q)
    }

    constructor (gated: bool, hook: bool)
      ensures Shows(Fresh(gated, hook))
    {
      phase, submission, observer := Ready, NotStarted, false;
      dispatchDone, dispatchErr, abandoned := false, None, false;
      resolving, attempt, resolved, pair := false, 0, false, Delivered;
    }

    /** submissionStateLocked. */
    method SubmissionState(ghost q: Req) returns (s: Submission)
      requires Shows(q)
      ensures s == Classify(q)
    {
      if submission == Possible { return Possible; }
      if phase == Ready || phase == Dispatching { return Pending; }
      return NotStarted;
    }

    /** ObserveResponse. */
    method ObserveResponse(ghost q: Req) returns (ok: bool)
      requires Shows(q)
      modifies `observer
      ensures ok <==> CanStep(q, ObserveStep, false)
      ensures Shows(if ok then Observe(q) else q)
    {
      if phase != Ready { return false; }
      if observer { return false; }
      observer := true;
      return true;
    }

    /** Dispatch's first section. */
    method BeginDispatch(ghost q: Req) returns (refused: Option<Submission>)
      requires Shows(q)
      modifies `phase
      ensures refused.None? <==> CanStep(q, DispatchStartStep, false)
      ensures refused.None? ==> Shows(DispatchStart(q).(dispatch := q.dispatch))
      ensures refused.Some? ==> Shows(q) && refused == Reports(q, DispatchRefusedStep)
    {
      if phase != Ready {
        var s := SubmissionState(q);
        return Some(s);
      }
      phase := Dispatching;
      return None;
    }

    /** beginWrite, which takes the connection's mutex inside the request's. */
    method BeginWrite(table: Table, r: ReqId, p: Pending, contextDone: bool, ghost q: Req) returns (ok: bool)
      requires Shows(q) && table.ShowsOne(r, p, q) && q.write.Queued? && contextDone == q.dispatchCancelled
      modifies `submission, p`admitted
      ensures ok <==> MayBegin(q, table.cancelled)
      ensures Shows(if ok then WriterBegin(q) else q)
      ensures table.ShowsOne(r, p, if ok then WriterBegin(q) else q)
    {
      if phase != Dispatching { return false; }
      if contextDone { return false; }
      var admitted := table.AdmitPending(r, p, q);
      if !admitted { return false; }
      Begins(Now(), q);
      submission := Possible;
      return true;
    }

    /** failDispatch's first section: it goes on as completeAbandonedDispatch, or with the state. */
    method FailDispatch(ghost q: Req) returns (abandonedFirst: bool, state: Submission)
      requires Shows(q) && !q.dispatch.Returned?
      modifies `phase
      ensures Shows(DispatchFail(q))
      ensures abandonedFirst ==> DispatchFail(q).dispatch.Ending?
      ensures !abandonedFirst ==> DispatchFail(q).dispatch == Failing(state)
    {
      state := submission;
      if phase == Abandoned {
        FailsAbandoned(Now(), q);
        return true, state;
      }
      if state == NotStarted {
        FailsUnsent(Now(), q);
        phase := DispatchFailed;
      } else {
        FailsSent(Now(), q);
      }
      return false, state;
    }

    /** completeDispatch, as the only call of this request. */
    method CompleteDispatch(err: Option<Submission>, to: Phase, ghost q: Req) returns (result: Option<Submission>)
      requires Shows(q) && q.dispatch == Ending(to, err)
      modifies `phase, `dispatchErr, `dispatchDone
      ensures Shows(DispatchComplete(q)) && result == err
    {
      ghost var g := Now();
      if !dispatchDone {
        dispatchErr := err;
        dispatchDone := true;
        if phase != Abandoned || to == Abandoned {
          CompletesTo(g, q);
          phase := to;
        } else {
          CompletesAbandoned(g, q);
        }
      }
      return dispatchErr;
    }

    /** CancelRequest's section: it lets the notification be sent, or reports the classification. */
    method BeginCancel(ghost q: Req) returns (refused: Option<Submission>)
      requires Shows(q)
      ensures refused.None? <==> CanStep(q, CancelReadStep, false)
      ensures refused.Some? ==> CanStep(q, CancelRefusedStep, false) && refused == Reports(q, CancelRefusedStep)
    {
      var state := SubmissionState(q);
      if phase != Dispatched && phase != Finished { return Some(state); }
      return None;
    }

    /** The section at the top of Wait's loop, and where it leads. */
    method ReadPhase(ghost q: Req) returns (pc: Machine.WaitPc)
      requires Shows(q)
      ensures pc == Machine.AfterRead(q)
    {
      var state := SubmissionState(q);
      match phase
      case Ready => pc := Machine.SawReady;
      case Dispatching => pc := Machine.SawDispatching;
      case DispatchFailed => pc := Machine.Gone(Machine.Refused(dispatchErr));
      case Abandoned => pc := Machine.Gone(Machine.Refused(Some(state)));
      case _ => pc := Machine.AtResponse;
    }

    /** The section of Wait behind a failed pending entry it saw while Ready. */
    method FailReady(ghost q: Req)
      requires Shows(q)
      modifies `phase
      ensures Shows(FinishReady(q))
    {
      if phase == Ready { phase := Finished; }
    }

    /** The section at the top of resolveResponse's loop. */
    method BeginResolve(w: WaitId, ghost q: Req) returns (pc: Machine.WaitPc)
      requires Shows(q)
      modifies `resolving, `attempt
      ensures pc == Machine.AfterResolve(q)
      ensures Shows(if pc == Machine.Ordering then ResolveStart(q, w) else q)
    {
      if resolved { return Machine.Gone(Machine.Got(pair)); }
      if phase == Abandoned { return Machine.Gone(Machine.Refused(Some(submission))); }
      if resolving { return Machine.OnAttempt(attempt); }
      resolving := true;
      attempt := attempt + 1;
      return Machine.Ordering;
    }

    /** The section after completeResponse; release says whether releasePending is called next. */
    method EndResolve(p: Pair, retryable: bool, ghost q: Req) returns (release: bool)
      requires Shows(q)
      modifies `resolving, `resolved, `phase, `pair
      ensures Shows(Settle(q, p, retryable))
      ensures release <==> !retryable || q.phase == Abandoned
    {
      ghost var g := Now();
      resolving := false;
      if !retryable {
        SettlesFinally(g, q, p);
        pair := if phase == Abandoned then WasAbandoned else p;
        resolved := true;
        phase := Finished;
        return true;
      }
      if phase == Abandoned {
        SettlesAbandoned(g, q, p);
        resolved := true;
        pair := WasAbandoned;
        return true;
      }
      SettlesOpen(g, q, p);
      return false;
    }

    /** Abandon's section: what it returns, and whether it detaches or releases next. */
    method Abandon(ghost q: Req) returns (state: Submission, detach: bool, release: bool)
      requires Shows(q) && (q.phase == Abandoned ==> q.abandonClosed)
      modifies `phase, `abandoned
      ensures Shows(Requests.Abandon(q)) && Some(state) == Reports(q, AbandonStep)
      ensures q.resolved || q.phase == Finished ==> !detach && !release
      ensures !q.resolved && q.phase != Finished ==> detach == q.resolver.Some? && release == q.resolver.None?
    {
      ghost var g := Now();
      state, detach, release := submission, false, false;
      if resolved || phase == Finished {
        AbandonsLate(g, q);
        return;
      }
      if resolving {
        AbandonsResolving(g, q);
        detach := true;
      } else {
        AbandonsOpen(g, q);
        release := true;
      }
      if phase != Abandoned {
        phase := Abandoned;
        abandoned := true;
      }
    }
  }

  /** pendingResponse, as far as Connection.mu guards it; a gated one has a delivery. */
  class Pending {
    const delivery: Chains.Delivery?
    var admitted: bool
    var responded: bool

    constructor (delivery: Chains.Delivery?)
      ensures !admitted && !responded && this.delivery == delivery
    {
      this.delivery := delivery;
      admitted, responded := false, false;
    }
  }

  /** Connection.pending and the cancellation of the connection's context, under Connection.mu. */
  class Table {
    const maxPending: nat
    var cancelled: bool
    var pending: map<ReqId, Pending>

    /** Request r, whose entry is p, is in the state q as far as the table shows it. */
    ghost predicate ShowsOne(r: ReqId, p: Pending, q: Req)
      reads this, p
    {
      && (q.inTable <==> r in pending && pending[r] == p)
      && p.admitted == q.admitted && p.responded == q.responded
    }

    /** The table shows the requests reqs, whose entries are owner. */
    ghost predicate Shows(reqs: map<ReqId, Req>, owner: map<ReqId, Pending>)
      reads this, owner.Values
    {
      && owner.Keys == reqs.Keys && pending.Keys <= reqs.Keys
      && (forall r | r in pending :: pending[r] == owner[r])
      && (forall r | r in reqs :: r in owner && owner[r] in owner.Values && ShowsOne(r, owner[r], reqs[r]))
    }

    constructor (maxPending: nat)
      ensures Shows(map[], map[]) && !cancelled && this.maxPending == maxPending
    {
      this.maxPending, cancelled, pending := maxPending, false, map[];
    }

    /** addPending: a gated request first prunes the chain, in a section of its own; then it is
        registered with a slot of the chain for its delivery, or not at all. */
    method AddPending(r: ReqId, gated: bool, chain: Chains.Chain) returns (p: Pending?)
      requires chain.Valid() && r !in pending && r !in chain.gate.held
      modifies `pending, chain`last, chain`slots, chain`gate
      ensures chain.Valid() && chain.history == old(chain.history)
      ensures var g := if gated then Gate.Prune(old(chain.gate)) else old(chain.gate);
              && (p != null <==> !cancelled && old(|pending|) < maxPending && (gated ==> g.slots < chain.limit))
              && chain.gate == if p != null && gated then Gate.Grab(g, r) else g
      ensures p != null ==> fresh(p) && pending == old(pending)[r := p] && (p.delivery != null <==> gated)
      ensures p != null && gated ==> fresh(p.delivery) && !p.delivery.done && p.delivery !in chain.history
      ensures p != null ==> forall hook :: ShowsOne(r, p, Fresh(gated, hook))
      ensures p == null ==> pending == old(pending)
    {
      if gated { chain.Prune(); }
      if cancelled { return null; }
      if |pending| >= maxPending { return null; }
      var delivery: Chains.Delivery? := null;
      if gated {
        delivery := chain.Reserve(r);
        if delivery == null { return null; }
      }
      p := new Pending(delivery);
      pending := pending[r := p];
    }

    method AdmitPending(r: ReqId, p: Pending, ghost q: Req) returns (ok: bool)
      requires ShowsOne(r, p, q)
      modifies p`admitted
      ensures ok <==> !cancelled && q.inTable
      ensures ShowsOne(r, p, if ok then q.(admitted := true) else q)
    {
      if cancelled { return false; }
      if r !in pending || pending[r] != p { return false; }
      p.admitted := true;
      return true;
    }

    /** handleResponse's section: the entry that this response answers, if any. */
    method MatchResponse(r: ReqId, ghost p: Pending, ghost q: Req) returns (found: Pending?)
      requires ShowsOne(r, p, q) && (r in pending ==> pending[r] == p)
      modifies p`responded
      ensures found != null <==> q.inTable && q.admitted && !q.responded
      ensures found != null ==> found == p && ShowsOne(r, p, Match(q))
      ensures found == null ==> ShowsOne(r, p, q)
    {
      if r in pending && pending[r].admitted && !pending[r].responded {
        found := pending[r];
        found.responded := true;
      } else {
        found := null;
      }
    }

    /** abandonPending's section. */
    method AbandonPending(r: ReqId, p: Pending, ghost q: Req) returns (taken: bool)
      requires ShowsOne(r, p, q) && q.release.Unreleased?
      modifies `pending
      ensures taken <==> ReleaseTake(q).release == Taken
      ensures taken ==> ShowsOne(r, p, ReleaseTake(q)) && pending == old(pending) - {r}
      ensures !taken ==> ShowsOne(r, p, q) && pending == old(pending)
    {
      if r !in pending || pending[r] != p || p.responded {
        TakesNothing(q);
        return false;
      }
      TakesUnanswered(q);
      pending := pending - {r};
      return true;
    }

    /** finishPending's section, which follows when abandonPending refused. */
    method FinishPending(r: ReqId, p: Pending, ghost q: Req) returns (responded: bool)
      requires ShowsOne(r, p, q) && (!q.inTable || q.responded)
      modifies `pending
      ensures ShowsOne(r, p, ReleaseTake(q)) && responded == (ReleaseTake(q).release == Answered)
      ensures pending == if q.inTable then old(pending) - {r} else old(pending)
    {
      responded := p.responded;
      TakesNothing(q);
      if r in pending && pending[r] == p { pending := pending - {r}; }
    }

    method DetachPending(r: ReqId, p: Pending, ghost q: Req)
      requires ShowsOne(r, p, q)
      modifies `pending
      ensures ShowsOne(r, p, q.(inTable := false, detach := false))
      ensures pending == if q.inTable then old(pending) - {r} else old(pending)
    {
      if r in pending && pending[r] == p { pending := pending - {r}; }
    }

    /** The loop of shutdown that moves every entry out of the table. */
    method TakeAll() returns (swept: seq<Pending>)
      modifies `pending
      ensures pending == map[]
      ensures forall p :: p in swept <==> p in old(pending.Values)
    {
      swept := [];
      while pending != map[]
        invariant pending.Keys <= old(pending).Keys
        invariant forall r | r in pending :: pending[r] == old(pending)[r]
        invariant forall r | r in old(pending) && r !in pending :: old(pending)[r] in swept
        invariant forall p | p in swept :: p in old(pending).Values
        decreases |pending|
      {
        var r :| r in pending;
        var p := pending[r];
        assert pending == (pending - {r})[r := p];
        pending := pending - {r};
        assert p in old(pending).Values;
        swept := swept + [p];
      }
    }

    /** shutdown's section: cancel, and empty the table. */
    method Shutdown(ghost reqs: map<ReqId, Req>, ghost owner: map<ReqId, Pending>) returns (swept: seq<Pending>)
      requires Shows(reqs, owner)
      modifies this
      ensures cancelled && pending == map[]
      ensures forall r | r in reqs :: r in owner && ShowsOne(r, owner[r], ShutdownTake(reqs[r]))
      ensures forall p :: p in swept <==> p in old(pending.Values)
    {
      cancelled := true;
      swept := TakeAll();
      forall r | r in reqs ensures ShowsOne(r, owner[r], ShutdownTake(reqs[r])) {
        assert old(ShowsOne(r, owner[r], reqs[r]));
        Sweeps(reqs[r]);
      }
    }
  }
}
