/** What becomes of a request and of its after-response callback, over whole runs: nothing is lost,
    nothing is done twice, and the order of the two queues is kept. */
module CallbackLaws {
  import opened Results
  import opened Inbound
  import opened InboundInvariant
  import opened InboundLaws
  import opened InboundHistory
  import Flags
  import G = Goroutines

  /** An event of the fact about request j has happened before moment k. */
  ghost predicate Happened(f: Fact, states: seq<State>, acts: seq<Option<Action>>, k: nat, j: JobId)
    requires k < |states| == |acts| + 1
  {
    exists m :: 0 <= m < k && Happens(f, states[m], acts[m], j)
  }

  ghost predicate HappenedTo(f: BatchFact, states: seq<State>, acts: seq<Option<Action>>, k: nat, b: BatchId)
    requires k < |states| == |acts| + 1
  {
    exists m :: 0 <= m < k && HappensTo(f, states[m], acts[m], b)
  }

  // ------------------------------------------------- tools

  lemma MovePersists(s: State, a: Option<Action>, t: State)
    requires Inv(s) && Moves(s, a, t)
    ensures Persists(s, t)
  {
    if a.Some? { ActionPersists(s, a.value); } else { PersistsReflexive(s); }
  }

  lemma HistoryPersists(states: seq<State>, acts: seq<Option<Action>>, i: nat, k: nat)
    requires IsHistory(states, acts) && i <= k < |states|
    ensures Persists(states[i], states[k])
  {
    forall m | 0 <= m < |states| - 1 ensures Persists(states[m], states[m + 1]) {
      HistoryInv(states, acts, m);
      MovePersists(states[m], acts[m], states[m + 1]);
    }
    Telescope(states, i, k);
  }

  lemma JobStays(states: seq<State>, acts: seq<Option<Action>>, i: nat, k: nat, j: JobId)
    requires IsHistory(states, acts) && i <= k < |states| && j in states[i].jobs
    ensures j in states[k].jobs && JobLater(states[i].jobs[j], states[k].jobs[j])
  {
    HistoryPersists(states, acts, i, k);
  }

  /** What is known of a request stays known. */
  lemma StaysKnown(states: seq<State>, acts: seq<Option<Action>>, i: nat, k: nat, f: Fact, j: JobId)
    requires IsHistory(states, acts) && i <= k < |states| && Known(f, states[i], j)
    ensures Known(f, states[k], j)
  {
    FactsExplained(states, acts, i, j, f);
    FactsExplained(states, acts, k, j, f);
  }

  lemma StaysKnownOf(states: seq<State>, acts: seq<Option<Action>>, i: nat, k: nat, f: BatchFact, b: BatchId)
    requires IsHistory(states, acts) && i <= k < |states| && KnownOf(f, states[i], b)
    ensures KnownOf(f, states[k], b)
  {
    BatchFactsExplained(states, acts, i, b, f);
    BatchFactsExplained(states, acts, k, b, f);
  }

  lemma Moment(states: seq<State>, acts: seq<Option<Action>>, k: nat, a: Action)
    requires IsHistory(states, acts) && k < |acts| && acts[k] == Some(a)
    ensures Inv(states[k]) && HandlersOk(states[k]) && Enabled(states[k], a) && states[k + 1] == Do(states[k], a)
  {
    HistoryInv(states, acts, k);
    assert Moves(states[k], acts[k], states[k + 1]);
  }

  // ------------------------------------------------- what a handler has registered

  lemma SealedIs(q: Job)
    requires StageOk(q) && HandlerOk(q)
    ensures q.callback == Sealed <==> Holds(HasCallback, q) && Holds(Succeeded, q) && !Holds(HandedOn, q)
  {
  }

  lemma TokenIs(q: Job)
    ensures HasToken(q) <==> q.slot.Some? && Holds(HasCallback, q) && !Holds(CallbackOver, q)
  {
  }

  /** A callback is sealed exactly from the moment the handler that registered it has returned with
      success until the callback is passed on, or called behind a single response. */
  lemma SealedExactly(states: seq<State>, acts: seq<Option<Action>>, k: nat, j: JobId)
    requires IsHistory(states, acts) && k < |states|
    ensures (j in states[k].jobs && states[k].jobs[j].callback == Sealed)
            <==> Happened(HasCallback, states, acts, k, j) && Happened(Succeeded, states, acts, k, j)
                 && !Happened(HandedOn, states, acts, k, j)
  {
    FactsExplained(states, acts, k, j, HasCallback);
    FactsExplained(states, acts, k, j, Succeeded);
    FactsExplained(states, acts, k, j, HandedOn);
    HistoryInv(states, acts, k);
    if j in states[k].jobs {
      assert StageOk(states[k].jobs[j]);
      SealedIs(states[k].jobs[j]);
    }
  }

  /** A request of a batch holds a token exactly from the registration of its callback until that is
      dropped, or its call has returned. */
  lemma TokenHeldExactly(states: seq<State>, acts: seq<Option<Action>>, k: nat, j: JobId)
    requires IsHistory(states, acts) && k < |states| && j in states[k].jobs && states[k].jobs[j].slot.Some?
    ensures HasToken(states[k].jobs[j])
            <==> Happened(HasCallback, states, acts, k, j) && !Happened(CallbackOver, states, acts, k, j)
  {
    FactsExplained(states, acts, k, j, HasCallback);
    FactsExplained(states, acts, k, j, CallbackOver);
    TokenIs(states[k].jobs[j]);
  }

  /** Passing on: behind an array that was sent the callback goes to the end of the callback queue and
      keeps its token; otherwise it is dropped and its token given back. */
  lemma HandQueues(s: State, a: Action, j: JobId)
    requires Inv(s) && Enabled(s, a) && Hands(s, a, j)
    ensures j in s.jobs && s.jobs[j].slot == Some((a.b, s.batches[a.b].flush.next)) && j in Do(s, a).jobs
    ensures FlushOk(s.batches[a.b].flush) ==>
              Do(s, a).callbacks == s.callbacks + [j] && Do(s, a).jobs[j].callback == Waiting && Do(s, a).tokens == s.tokens
    ensures !FlushOk(s.batches[a.b].flush) ==>
              Do(s, a).callbacks == s.callbacks && Do(s, a).jobs[j].callback == Gone && Do(s, a).tokens == s.tokens - 1
  {
    DueHeld(s, a.b, j);
    DueHasToken(s, a.b, j);
    HandIs(s, a.b, j);
  }

  lemma AllHandedOf(s: State, b: BatchId, j: JobId)
    requires JobsOk(s) && BatchesOk(s) && KnownOf(AllHanded, s, b) && j in s.jobs && s.jobs[j].slot.Some?
    requires s.jobs[j].slot.value.0 == b
    ensures s.jobs[j].callback != Sealed
  {
    assert StageOk(s.jobs[j]) && LinkOk(s.batches, j, s.jobs[j]);
    MissingZero(s.batches[b].slots);
  }

  lemma BatchedIsHanded(s: State, a: Action, j: JobId)
    requires JobsOk(s) && j in s.jobs && s.jobs[j].slot.Some? && Enabled(s, a) && Event(HandedOn, s, a, j)
    ensures Hands(s, a, j)
  {
    assert StageOk(s.jobs[j]);
  }

  lemma EventNeedsJob(states: seq<State>, acts: seq<Option<Action>>, m: nat, k: nat, f: Fact, j: JobId)
    requires IsHistory(states, acts) && m < k < |states| && Happens(f, states[m], acts[m], j)
    ensures j in states[m].jobs && j in states[k].jobs && JobLater(states[m].jobs[j], states[k].jobs[j])
  {
    Moment(states, acts, m, acts[m].value);
    if j !in states[m].jobs { NoEvent(f, states[m], acts[m].value, j); }
    JobStays(states, acts, m, k, j);
  }

  /** When the flush of a batch is over, every callback that a successful handler of the batch has
      registered has been passed on, or dropped, at the position of its slot. */
  lemma FlushHandsAll(states: seq<State>, acts: seq<Option<Action>>, k: nat, b: BatchId, j: JobId)
    requires IsHistory(states, acts) && k < |states| && HappenedTo(AllHanded, states, acts, k, b)
    requires j in states[k].jobs && states[k].jobs[j].slot.Some? && states[k].jobs[j].slot.value.0 == b
    requires Happened(HasCallback, states, acts, k, j) && Happened(Succeeded, states, acts, k, j)
    ensures exists m :: 0 <= m < k && acts[m].Some? && Hands(states[m], acts[m].value, j)
  {
    BatchFactsExplained(states, acts, k, b, AllHanded);
    HistoryInv(states, acts, k);
    AllHandedOf(states[k], b, j);
    SealedExactly(states, acts, k, j);
    var m :| 0 <= m < k && Happens(HandedOn, states[m], acts[m], j);
    EventNeedsJob(states, acts, m, k, HandedOn, j);
    Moment(states, acts, m, acts[m].value);
    BatchedIsHanded(states[m], acts[m].value, j);
  }

  // ------------------------------------------------- the callback of a single request

  predicate AwaitsCall(s: State, j: JobId) {
    At(s, j, Committed) && s.jobs[j].callback == Sealed
  }

  lemma OnlyCallingChanges(s: State, a: Action, j: JobId)
    requires Enabled(s, a) && AwaitsCall(s, j) && !Hands(s, a, j) && a != CallPlain(j) && a != Start(j)
    requires CallbacksOk(s.jobs, s.callbacks, s.caller)
    ensures After(s, a, j).stage.Committed? && After(s, a, j).callback == Sealed
  {
  }

  lemma OnlyCalling(s: State, a: Action, j: JobId)
    requires Inv(s) && Enabled(s, a) && AwaitsCall(s, j) && !AwaitsCall(Do(s, a), j)
    ensures a == CallPlain(j)
  {
    IsAfter(s, a, j);
    StartsQueued(s, a, j);
    if Hands(s, a, j) {
      DueHeld(s, a.b, j);
    } else if a != CallPlain(j) {
      OnlyCallingChanges(s, a, j);
    }
  }

  lemma AnsweringSealed(q: Job)
    requires StageOk(q) && HandlerOk(q) && q.stage.Answering?
    ensures q.callback == Sealed <==> Holds(HasCallback, q) && Holds(Succeeded, q)
  {
  }

  lemma WrittenAwaits(s: State, j: JobId)
    requires Inv(s) && HandlersOk(s) && Enabled(s, Write(j, true))
    ensures AwaitsCall(Do(s, Write(j, true)), j) <==> Holds(HasCallback, s.jobs[j]) && Holds(Succeeded, s.jobs[j])
  {
    IsAfter(s, Write(j, true), j);
    assert StageOk(s.jobs[j]);
    AnsweringSealed(s.jobs[j]);
  }

  lemma CalledBetween(states: seq<State>, acts: seq<Option<Action>>, i: nat, k: nat, j: JobId)
    requires IsHistory(states, acts) && i < k < |acts| && acts[i] == Some(Write(j, true)) && acts[k] == Some(End(j))
    requires AwaitsCall(states[i + 1], j)
    ensures exists m :: i < m < k && acts[m] == Some(CallPlain(j))
  {
    Moment(states, acts, k, End(j));
    var flags := seq(|states|, m requires 0 <= m < |states| => AwaitsCall(states[m], j));
    var m := Flags.WentDown(flags, i + 1, k);
    HistoryInv(states, acts, m);
    assert Moves(states[m], acts[m], states[m + 1]);
    if acts[m].Some? { OnlyCalling(states[m], acts[m].value, j); }
  }

  lemma HandlerEventRuns(f: Fact, s: State, a: Action, j: JobId)
    requires Enabled(s, a) && Event(f, s, a, j) && (f == HasCallback || f == Succeeded)
    ensures At(s, j, Running)
  {
  }

  /** What a handler does, it does before it has returned. */
  lemma EarlierThanReturn(states: seq<State>, acts: seq<Option<Action>>, i: nat, n: nat, f: Fact, j: JobId)
    requires IsHistory(states, acts) && i < |states| && n < |acts| && Known(HandlerOver, states[i], j)
    requires (f == HasCallback || f == Succeeded) && Happens(f, states[n], acts[n], j)
    ensures n < i
  {
    Moment(states, acts, n, acts[n].value);
    HandlerEventRuns(f, states[n], acts[n].value, j);
    if n >= i { StaysKnown(states, acts, i, n, HandlerOver, j); }
  }

  /** Registration and return come before the write of the response. */
  lemma EarlierThanWrite(states: seq<State>, acts: seq<Option<Action>>, i: nat, m: nat, f: Fact, j: JobId)
    requires IsHistory(states, acts) && i <= m < |states| && i < |acts| && acts[i] == Some(Write(j, true))
    requires f == HasCallback || f == Succeeded
    ensures Known(f, states[m], j) <==> Known(f, states[i], j)
  {
    Moment(states, acts, i, Write(j, true));
    if Known(f, states[i], j) { StaysKnown(states, acts, i, m, f, j); }
    if Known(f, states[m], j) {
      FactsExplained(states, acts, m, j, f);
      var n :| 0 <= n < m && Happens(f, states[n], acts[n], j);
      EarlierThanReturn(states, acts, i, n, f, j);
      FactsExplained(states, acts, i, j, f);
    }
  }

  /** The callback of a single request is called, between the write of its response and the end of the
      request, exactly if the handler registered it and succeeded; and never twice. */
  lemma SingleCalledExactly(states: seq<State>, acts: seq<Option<Action>>, i: nat, k: nat, j: JobId)
    requires IsHistory(states, acts) && i < k < |acts| && acts[i] == Some(Write(j, true)) && acts[k] == Some(End(j))
    ensures (exists m :: i < m < k && acts[m] == Some(CallPlain(j)))
            <==> Happened(HasCallback, states, acts, i, j) && Happened(Succeeded, states, acts, i, j)
    ensures forall m, n | 0 <= m < n < |acts| && acts[m] == Some(CallPlain(j)) :: acts[n] != Some(CallPlain(j))
  {
    FactsExplained(states, acts, i, j, HasCallback);
    FactsExplained(states, acts, i, j, Succeeded);
    Moment(states, acts, i, Write(j, true));
    WrittenAwaits(states[i], j);
    if AwaitsCall(states[i + 1], j) { CalledBetween(states, acts, i, k, j); }
    forall m | i < m < k && acts[m] == Some(CallPlain(j)) ensures Known(HasCallback, states[i], j) && Known(Succeeded, states[i], j) {
      Moment(states, acts, m, CallPlain(j));
      assert StageOk(states[m].jobs[j]);
      EarlierThanWrite(states, acts, i, m, HasCallback, j);
      EarlierThanWrite(states, acts, i, m, Succeeded, j);
    }
    PlainOnce(states, acts, j);
  }

  lemma PlainOnce(states: seq<State>, acts: seq<Option<Action>>, j: JobId)
    requires IsHistory(states, acts)
    ensures forall m, n | 0 <= m < n < |acts| && acts[m] == Some(CallPlain(j)) :: acts[n] != Some(CallPlain(j))
  {
    forall m, n | 0 <= m < n < |acts| && acts[m] == Some(CallPlain(j)) ensures acts[n] != Some(CallPlain(j)) {
      if acts[n] == Some(CallPlain(j)) {
        Moment(states, acts, n, CallPlain(j));
        assert Happens(CallbackOver, states[m], acts[m], j);
        FactsExplained(states, acts, n, j, CallbackOver);
      }
    }
  }

  // ------------------------------------------------- the order of the queues

  /** The request that the action puts on the request queue, and the one that it takes off. */
  function PutOn(a: Option<Action>): seq<JobId> {
    if a.Some? && a.value.Enqueue? then [a.value.j] else []
  }

  function TakenOff(a: Option<Action>): seq<JobId> {
    if a.Some? && a.value.Start? then [a.value.j] else []
  }

  function AllPutOn(acts: seq<Option<Action>>): seq<JobId> {
    if acts == [] then [] else AllPutOn(acts[..|acts| - 1]) + PutOn(acts[|acts| - 1])
  }

  function AllTakenOff(acts: seq<Option<Action>>): seq<JobId> {
    if acts == [] then [] else AllTakenOff(acts[..|acts| - 1]) + TakenOff(acts[|acts| - 1])
  }

  lemma OneMore(passed: seq<JobId>, taken: seq<JobId>, queue: seq<JobId>, p: seq<JobId>, t: seq<JobId>, queue': seq<JobId>)
    requires passed == taken + queue && t + queue' == queue + p
    ensures passed + p == (taken + t) + queue'
  {
    assert passed + p == taken + (queue + p) == taken + (t + queue');
  }

  lemma OtherQueue(s: State, a: Action)
    requires Enabled(s, a) && !a.Retire? && !a.Hand? && !a.Return?
    ensures TakenOff(Some(a)) + Do(s, a).queue == s.queue + PutOn(Some(a))
  {
  }

  lemma QueueStep(s: State, a: Action)
    requires Enabled(s, a)
    ensures TakenOff(Some(a)) + Do(s, a).queue == s.queue + PutOn(Some(a))
  {
    if a.Retire? {
      RetireQueue(s, a.b);
    } else if a.Hand? {
      HandQueue(s, a.b);
    } else if a.Return? {
      ReturnQueue(s, a.j, a.succeeded);
    } else {
      OtherQueue(s, a);
    }
  }

  lemma QueueMove(s: State, a: Option<Action>, t: State)
    requires Moves(s, a, t)
    ensures TakenOff(a) + t.queue == s.queue + PutOn(a)
  {
    if a.Some? { QueueStep(s, a.value); }
  }

  lemma RetireQueue(s: State, b: BatchId)
    requires Enabled(s, Retire(b))
    ensures DoRetire(s, b).queue == s.queue
  {
  }

  lemma HandQueue(s: State, b: BatchId)
    requires Enabled(s, Hand(b))
    ensures DoHand(s, b).queue == s.queue
  {
  }

  lemma ReturnQueue(s: State, j: JobId, succeeded: bool)
    requires Enabled(s, Return(j, succeeded))
    ensures DoReturn(s, j, succeeded).queue == s.queue
  {
  }

  /** The handlers start in the order in which the reader queued their requests; none is lost. */
  lemma {:induction false} StartsInOrder(states: seq<State>, acts: seq<Option<Action>>, k: nat)
    requires IsHistory(states, acts) && k < |states|
    ensures AllPutOn(acts[..k]) == AllTakenOff(acts[..k]) + states[k].queue
    decreases k
  {
    if k > 0 {
      var n := k - 1;
      StartsInOrder(states, acts, n);
      assert acts[..k][..n] == acts[..n];
      QueueMove(states[n], acts[n], states[n + 1]);
      OneMore(AllPutOn(acts[..n]), AllTakenOff(acts[..n]), states[n].queue, PutOn(acts[n]), TakenOff(acts[n]), states[k].queue);
    }
  }

  /** The callback that the action passes on to the callback worker, and the one that it takes up. */
  function PassedOn(s: State, a: Option<Action>): seq<JobId> {
    if a.Some? && a.value.Hand? && a.value.b in s.batches && s.batches[a.value.b].flush.Handing?
       && s.batches[a.value.b].flush.ok && Due(s, a.value.b).Some?
    then [Due(s, a.value.b).value] else []
  }

  function TakenUp(s: State, a: Option<Action>): seq<JobId> {
    if a == Some(Call) && s.callbacks != [] then [s.callbacks[0]] else []
  }

  function AllPassedOn(states: seq<State>, acts: seq<Option<Action>>): seq<JobId>
    requires |states| >= |acts|
  {
    if acts == [] then []
    else
      var n := |acts| - 1;
      AllPassedOn(states[..n], acts[..n]) + PassedOn(states[n], acts[n])
  }

  function AllTakenUp(states: seq<State>, acts: seq<Option<Action>>): seq<JobId>
    requires |states| >= |acts|
  {
    if acts == [] then []
    else
      var n := |acts| - 1;
      AllTakenUp(states[..n], acts[..n]) + TakenUp(states[n], acts[n])
  }

  lemma HandCallbacks(s: State, b: BatchId)
    requires Enabled(s, Hand(b))
    ensures DoHand(s, b).callbacks == s.callbacks + PassedOn(s, Some(Hand(b)))
  {
  }

  lemma ReturnCallbacks(s: State, j: JobId, succeeded: bool)
    requires Enabled(s, Return(j, succeeded))
    ensures DoReturn(s, j, succeeded).callbacks == s.callbacks
  {
  }

  lemma RetireCallbacks(s: State, b: BatchId)
    requires Enabled(s, Retire(b))
    ensures DoRetire(s, b).callbacks == s.callbacks
  {
  }

  lemma OtherCallbacks(s: State, a: Action)
    requires Enabled(s, a) && !a.Hand? && !a.Return? && !a.Retire?
    ensures TakenUp(s, Some(a)) + Do(s, a).callbacks == s.callbacks
  {
  }

  lemma CallbackStep(s: State, a: Action)
    requires Enabled(s, a)
    ensures TakenUp(s, Some(a)) + Do(s, a).callbacks == s.callbacks + PassedOn(s, Some(a))
  {
    if a.Hand? {
      HandCallbacks(s, a.b);
    } else if a.Return? {
      ReturnCallbacks(s, a.j, a.succeeded);
    } else if a.Retire? {
      RetireCallbacks(s, a.b);
    } else {
      OtherCallbacks(s, a);
    }
  }

  lemma CallbackMove(s: State, a: Option<Action>, t: State)
    requires Moves(s, a, t)
    ensures TakenUp(s, a) + t.callbacks == s.callbacks + PassedOn(s, a)
  {
    if a.Some? { CallbackStep(s, a.value); }
  }

  /** The callbacks of batches are called in the order in which they were passed on; none is lost. */
  lemma {:induction false} CallsInOrder(states: seq<State>, acts: seq<Option<Action>>, k: nat)
    requires IsHistory(states, acts) && k < |states|
    ensures AllPassedOn(states[..k], acts[..k]) == AllTakenUp(states[..k], acts[..k]) + states[k].callbacks
    decreases k
  {
    if k > 0 {
      var n := k - 1;
      CallsInOrder(states, acts, n);
      assert acts[..k][..n] == acts[..n] && states[..k][..n] == states[..n];
      CallbackMove(states[n], acts[n], states[n + 1]);
      OneMore(AllPassedOn(states[..n], acts[..n]), AllTakenUp(states[..n], acts[..n]), states[n].callbacks,
              PassedOn(states[n], acts[n]), TakenUp(states[n], acts[n]), states[k].callbacks);
    }
  }

  // ------------------------------------------------- when the connection's Wait returns

  function Inner(states: seq<G.Group>): seq<State> {
    seq(|states|, i requires 0 <= i < |states| => states[i].inbound)
  }

  /** The action of the inbound side that a step of the goroutines performs. */
  function ActionOf(s: G.Step): Option<Action> {
    match s
    case By(_, a) => Some(a)
    case Outside(a) => Some(a)
    case _ => None
  }

  function Actions(steps: seq<G.Step>): seq<Option<Action>> {
    seq(|steps|, i requires 0 <= i < |steps| => ActionOf(steps[i]))
  }

  lemma RunIsHistory(states: seq<G.Group>, steps: seq<G.Step>, workers: nat)
    requires G.IsRun(states, steps, workers)
    ensures IsHistory(Inner(states), Actions(steps))
  {
    forall i | 0 <= i < |steps| ensures Moves(Inner(states)[i], Actions(steps)[i], Inner(states)[i + 1]) {
      assert G.Can(states[i], steps[i]) && states[i + 1] == G.Next(states[i], steps[i]);
    }
  }

  /** Step m calls the callback of request j. */
  predicate CallAt(states: seq<State>, acts: seq<Option<Action>>, m: nat, j: JobId)
    requires m < |states| && m < |acts|
  {
    TakenUp(states[m], acts[m]) == [j]
  }

  predicate IsCalling(s: State, j: JobId) {
    j in s.jobs && s.jobs[j].callback == Calling
  }

  lemma CallingChanges(s: State, a: Action, j: JobId)
    requires Enabled(s, a) && j in s.jobs && s.jobs[j].callback != Calling && After(s, a, j).callback == Calling
    ensures a == Call && s.callbacks[0] == j
  {
  }

  lemma CallingBegins(s: State, a: Action, j: JobId)
    requires JobsOk(s) && Enabled(s, a) && !IsCalling(s, j) && IsCalling(Do(s, a), j)
    ensures a == Call && s.callbacks[0] == j
  {
    KeysAfter(s, a);
    if j in s.jobs {
      IsAfter(s, a, j);
      CallingChanges(s, a, j);
    }
  }

  lemma WasTakenUp(states: seq<State>, acts: seq<Option<Action>>, k: nat, j: JobId)
    requires IsHistory(states, acts) && k < |states| && IsCalling(states[k], j)
    ensures exists m :: 0 <= m < k && CallAt(states, acts, m, j)
  {
    var flags := seq(|states|, m requires 0 <= m < |states| => !IsCalling(states[m], j));
    var m := Flags.WentDown(flags, 0, k);
    HistoryInv(states, acts, m);
    assert Moves(states[m], acts[m], states[m + 1]);
    if acts[m].Some? { CallingBegins(states[m], acts[m].value, j); }
    assert CallAt(states, acts, m, j);
  }

  lemma ReturnsOnce(states: seq<State>, acts: seq<Option<Action>>, m: nat, n: nat, j: JobId, x: bool, y: bool)
    requires IsHistory(states, acts) && m < |acts| && n < |acts| && acts[m] == Some(Return(j, x)) && acts[n] == Some(Return(j, y))
    ensures m >= n
  {
    Moment(states, acts, n, Return(j, y));
    if m < n {
      assert Happens(HandlerOver, states[m], acts[m], j);
      FactsExplained(states, acts, n, j, HandlerOver);
    }
  }

  lemma SentOnce(states: seq<State>, acts: seq<Option<Action>>, m: nat, n: nat, b: BatchId)
    requires IsHistory(states, acts) && m < |acts| && n < |acts| && acts[m] == Some(Send(b, true))
    ensures KnownOf(ArrayGiven, states[n], b) ==> KnownOf(ArraySent, states[n], b)
  {
    Moment(states, acts, m, Send(b, true));
    if m < n {
      assert HappensTo(ArraySent, states[m], acts[m], b);
      BatchFactsExplained(states, acts, n, b, ArraySent);
    } else if KnownOf(ArrayGiven, states[n], b) {
      StaysKnownOf(states, acts, n, m, ArrayGiven, b);
    }
  }

  lemma EndsHow(s: State, a: Action, j: JobId)
    requires JobsOk(s) && BatchesOk(s) && CallbacksOk(s.jobs, s.callbacks, s.caller)
    requires Enabled(s, a) && Event(CallbackOver, s, a, j) && j in s.jobs && s.jobs[j].slot.Some?
    ensures a == Return(j, false) || IsCalling(s, j)
            || (KnownOf(ArrayGiven, s, s.jobs[j].slot.value.0) && !KnownOf(ArraySent, s, s.jobs[j].slot.value.0))
  {
    assert StageOk(s.jobs[j]);
    if Hands(s, a, j) { DueHeld(s, a.b, j); }
  }

  lemma NotReturnedBadly(states: seq<State>, acts: seq<Option<Action>>, m: nat, k: nat, j: JobId)
    requires IsHistory(states, acts) && m < k < |states| && Happened(Succeeded, states, acts, k, j)
    ensures acts[m] != Some(Return(j, false))
  {
    var n :| 0 <= n < k && Happens(Succeeded, states[n], acts[n], j);
    if acts[m] == Some(Return(j, false)) {
      ReturnsOnce(states, acts, m, n, j, false, true);
      ReturnsOnce(states, acts, n, m, j, true, false);
    }
  }

  /** Of the ways in which a callback ends only its call is left. */
  lemma EndedByCall(states: seq<State>, acts: seq<Option<Action>>, m: nat, k: nat, b: BatchId, j: JobId)
    requires IsHistory(states, acts) && m < k < |states| && Happens(CallbackOver, states[m], acts[m], j)
    requires j in states[k].jobs && states[k].jobs[j].slot.Some? && states[k].jobs[j].slot.value.0 == b
    requires Happened(Succeeded, states, acts, k, j) && HappenedTo(ArraySent, states, acts, k, b)
    ensures exists n :: 0 <= n < m && CallAt(states, acts, n, j)
  {
    HistoryInv(states, acts, m);
    assert Moves(states[m], acts[m], states[m + 1]);
    EventNeedsJob(states, acts, m, k, CallbackOver, j);
    EndsHow(states[m], acts[m].value, j);
    NotReturnedBadly(states, acts, m, k, j);
    var n :| 0 <= n < k && HappensTo(ArraySent, states[n], acts[n], b);
    SentOnce(states, acts, n, m, b);
    WasTakenUp(states, acts, m, j);
  }

  lemma DrainedIsOver(c: G.Group, b: BatchId, j: JobId)
    requires G.GroupInv(c) && c.drained && HandlersOk(c.inbound)
    requires j in c.inbound.jobs && c.inbound.jobs[j].slot.Some? && c.inbound.jobs[j].slot.value.0 == b
    requires Known(HasCallback, c.inbound, j) && Known(Succeeded, c.inbound, j) && KnownOf(ArraySent, c.inbound, b)
    ensures Known(CallbackOver, c.inbound, j)
  {
    assert StageOk(c.inbound.jobs[j]) && HandlerOk(c.inbound.jobs[j]);
    G.ClosedIsQuiet(c);
    if HasToken(c.inbound.jobs[j]) {
      G.UnfinishedToken(c.inbound, j);
    }
  }

  lemma CallNeedsSuccess(states: seq<State>, acts: seq<Option<Action>>, m: nat, k: nat, b: BatchId, j: JobId)
    requires IsHistory(states, acts) && m < k < |states| && CallAt(states, acts, m, j)
    requires j in states[k].jobs && states[k].jobs[j].slot.Some? && states[k].jobs[j].slot.value.0 == b
    ensures Known(HasCallback, states[k], j) && Known(Succeeded, states[k], j) && KnownOf(ArraySent, states[k], b)
  {
    HistoryInv(states, acts, m);
    CalledOnlyAfterSuccess(states[m], j);
    JobStays(states, acts, m, k, j);
    StaysKnown(states, acts, m, k, HasCallback, j);
    StaysKnown(states, acts, m, k, Succeeded, j);
    StaysKnownOf(states, acts, m, k, ArraySent, b);
  }

  lemma CallStarts(s: State, j: JobId)
    requires Enabled(s, Call) && s.callbacks[0] == j
    ensures IsCalling(Do(s, Call), j)
  {
  }

  lemma TakenStarts(states: seq<State>, acts: seq<Option<Action>>, m: nat, j: JobId)
    requires IsHistory(states, acts) && m < |acts| && CallAt(states, acts, m, j)
    ensures IsCalling(states[m + 1], j)
  {
    Moment(states, acts, m, Call);
    CallStarts(states[m], j);
  }

  lemma CallsOnce(states: seq<State>, acts: seq<Option<Action>>, m: nat, n: nat, j: JobId)
    requires IsHistory(states, acts) && m < n < |acts| && CallAt(states, acts, m, j)
    ensures !CallAt(states, acts, n, j)
  {
    TakenStarts(states, acts, m, j);
    HistoryPersists(states, acts, m + 1, n);
    CallbacksInHistory(states, acts, n);
    LaterCallback(states[m + 1], states[n], j);
  }

  lemma CallbacksInHistory(states: seq<State>, acts: seq<Option<Action>>, n: nat)
    requires IsHistory(states, acts) && n < |states|
    ensures CallbacksOk(states[n].jobs, states[n].callbacks, states[n].caller)
  {
    HistoryInv(states, acts, n);
  }

  /** When the connection's Wait returns, the callback of a request of a batch has been called, exactly
      once, and its call has returned, if and only if the handler registered it and succeeded and the
      array of the batch was sent. */
  lemma CalledExactly(states: seq<G.Group>, steps: seq<G.Step>, workers: nat, k: nat, b: BatchId, j: JobId)
    requires G.IsRun(states, steps, workers) && k < |states| && states[k].drained
    requires j in states[k].inbound.jobs && states[k].inbound.jobs[j].slot.Some?
    requires states[k].inbound.jobs[j].slot.value.0 == b
    ensures var inner, acts := Inner(states), Actions(steps);
            && ((exists m :: 0 <= m < k && CallAt(inner, acts, m, j))
                <==> Happened(HasCallback, inner, acts, k, j) && Happened(Succeeded, inner, acts, k, j)
                     && HappenedTo(ArraySent, inner, acts, k, b))
            && (forall m, n | 0 <= m < n < |acts| && CallAt(inner, acts, m, j) :: !CallAt(inner, acts, n, j))
            && ((exists m :: 0 <= m < k && CallAt(inner, acts, m, j)) ==> states[k].inbound.jobs[j].callback == Gone)
  {
    var inner, acts := Inner(states), Actions(steps);
    RunIsHistory(states, steps, workers);
    G.RunAttended(states, steps, workers, k);
    HistoryInv(inner, acts, k);
    FactsExplained(inner, acts, k, j, HasCallback);
    FactsExplained(inner, acts, k, j, Succeeded);
    FactsExplained(inner, acts, k, j, CallbackOver);
    BatchFactsExplained(inner, acts, k, b, ArraySent);
    if Known(HasCallback, inner[k], j) && Known(Succeeded, inner[k], j) && KnownOf(ArraySent, inner[k], b) {
      DrainedIsOver(states[k], b, j);
      var m :| 0 <= m < k && Happens(CallbackOver, inner[m], acts[m], j);
      EndedByCall(inner, acts, m, k, b, j);
    }
    forall m | 0 <= m < k && CallAt(inner, acts, m, j)
      ensures Known(HasCallback, inner[k], j) && Known(Succeeded, inner[k], j) && KnownOf(ArraySent, inner[k], b)
    {
      CallNeedsSuccess(inner, acts, m, k, b, j);
    }
    forall m, n | 0 <= m < n < |acts| && CallAt(inner, acts, m, j) ensures !CallAt(inner, acts, n, j) {
      CallsOnce(inner, acts, m, n, j);
    }
  }

  // ------------------------------------------------- nobody is stuck

  /** What the reader, or a worker, can do next with the request it is at. */
  function NextAction(q: Job, j: JobId, reply: nat, good: bool): Action {
    match q.stage
    case Admitted => Refuse(j)
    case Refused => AnswerRefused(j, reply)
    case Running => Return(j, good)
    case Returned => Action.Fill(j, reply)
    case Answering => Write(j, good)
    case Committed => if q.callback == Sealed then CallPlain(j) else End(j)
    case _ => End(j)
  }

  /** What a goroutine at the flush of a batch can do next. */
  function NextTurnOf(c: Collector, b: BatchId, good: bool): Action {
    match c.flush
    case Sending => Send(b, good)
    case Retiring(_, _) => Retire(b)
    case _ => Hand(b)
  }

  lemma RequestGoesOn(s: State, g: G.Agent, j: JobId, reply: nat, good: bool)
    requires JobsOk(s) && j in s.jobs && G.HeldBy(g, s.jobs[j].stage)
    ensures Enabled(s, NextAction(s.jobs[j], j, reply, good))
    ensures G.May(g, G.Handling(j), NextAction(s.jobs[j], j, reply, good))
  {
    assert StageOk(s.jobs[j]) && LinkOk(s.batches, j, s.jobs[j]);
  }

  lemma FlushGoesOn(s: State, g: G.Agent, b: BatchId, good: bool)
    requires Inv(s) && b in s.batches && G.InFlush(s.batches[b].flush)
    ensures Enabled(s, NextTurnOf(s.batches[b], b, good)) && G.May(g, G.Flushing(b), NextTurnOf(s.batches[b], b, good))
  {
    if s.batches[b].flush.Handing? { HandNeverBlocks(s, b); }
  }

  /** Whatever the reply, and however the handler or the write ends, goroutine g can go on with what it
      is at; and the reader can queue a request it has admitted exactly while the queue has room. */
  predicate CanGoOn(c: G.Group, g: G.Agent, reply: nat, good: bool)
    requires g in c.tasks
  {
    match c.tasks[g]
    case Handling(j) =>
      && j in c.inbound.jobs && G.Can(c, G.By(g, NextAction(c.inbound.jobs[j], j, reply, good)))
      && (c.inbound.jobs[j].stage.Admitted? ==>
            (G.Can(c, G.By(g, Enqueue(j))) <==> |c.inbound.queue| < c.inbound.queueLimit))
    case Flushing(b) =>
      b in c.inbound.batches && G.Can(c, G.By(g, NextTurnOf(c.inbound.batches[b], b, good)))
    case _ => true
  }

  lemma HandlerGoesOn(c: G.Group, g: G.Agent, j: JobId, reply: nat, good: bool)
    requires JobsOk(c.inbound) && g in c.tasks && c.tasks[g] == G.Handling(j)
    requires j in c.inbound.jobs && G.HeldBy(g, c.inbound.jobs[j].stage)
    ensures CanGoOn(c, g, reply, good)
  {
    RequestGoesOn(c.inbound, g, j, reply, good);
  }

  lemma FlusherGoesOn(c: G.Group, g: G.Agent, b: BatchId, reply: nat, good: bool)
    requires Inv(c.inbound) && g in c.tasks && c.tasks[g] == G.Flushing(b)
    requires b in c.inbound.batches && G.InFlush(c.inbound.batches[b].flush)
    ensures CanGoOn(c, g, reply, good)
  {
    FlushGoesOn(c.inbound, g, b, good);
  }

  lemma TaskFits(c: G.Group, g: G.Agent)
    requires G.AllAttended(c) && g in c.tasks
    ensures G.Fits(c.inbound.jobs, c.inbound.batches, g, c.tasks[g])
  {
  }

  /** In every run a goroutine that is at a request, or at a flush, can go on with it. */
  lemma NeverStuck(states: seq<G.Group>, steps: seq<G.Step>, workers: nat, i: nat, g: G.Agent, reply: nat, good: bool)
    requires G.IsRun(states, steps, workers) && i < |states| && g in states[i].tasks
    ensures CanGoOn(states[i], g, reply, good)
  {
    G.RunAttended(states, steps, workers, i);
    var c := states[i];
    TaskFits(c, g);
    if c.tasks[g].Handling? {
      HandlerGoesOn(c, g, c.tasks[g].j, reply, good);
    } else if c.tasks[g].Flushing? {
      FlusherGoesOn(c, g, c.tasks[g].b, reply, good);
    }
  }

  lemma CallerGoesOn(s: State)
    requires CallbacksOk(s.jobs, s.callbacks, s.caller) && (s.caller.Some? ==> s.tokens > 0)
    ensures s.caller.Some? ==> Enabled(s, Called)
    ensures s.caller.None? && s.callbacks != [] ==> Enabled(s, Call)
  {
  }

  lemma CallerHasToken(c: G.Group)
    requires Inv(c.inbound)
    ensures CallbacksOk(c.inbound.jobs, c.inbound.callbacks, c.inbound.caller)
    ensures c.inbound.caller.Some? ==> c.inbound.tokens > 0
  {
    TokensAccounted(c.inbound);
  }

  /** The worker of the callback queue is never stuck either: it can take up the next callback, or
      return from the one it calls, or end behind the closed and empty queue. */
  lemma CallbacksGoOn(states: seq<G.Group>, steps: seq<G.Step>, workers: nat, i: nat)
    requires G.IsRun(states, steps, workers) && i < |states|
    ensures var c := states[i];
            && (c.inbound.caller.Some? ==> Enabled(c.inbound, Called))
            && (c.inbound.caller.None? && c.inbound.callbacks != [] ==> Enabled(c.inbound, Call))
            && (c.inbound.caller.None? && c.inbound.callbacks == [] && c.queueClosed ==> G.Can(c, G.EndCallbacks))
  {
    G.RunAttended(states, steps, workers, i);
    CallerHasToken(states[i]);
    CallerGoesOn(states[i].inbound);
  }

  /** In every run a request is admitted exactly if no live request has its id and, in a batch, a slot
      is left. */
  lemma AdmittedExactly(states: seq<State>, acts: seq<Option<Action>>, i: nat, key: Key, batch: Option<BatchId>)
    requires IsHistory(states, acts) && i < |states|
    ensures Enabled(states[i], Admit(key, batch))
            <==> && (forall j | j in states[i].jobs && states[i].jobs[j].key == key :: states[i].jobs[j].finished)
                 && (batch.Some? ==> batch.value in states[i].batches
                                     && states[i].batches[batch.value].next < |states[i].batches[batch.value].slots|)
  {
    HistoryInv(states, acts, i);
    if key in states[i].inflight { assert states[i].inflight[key] in states[i].jobs; }
  }
}
