/** What the state of the inbound side says about the run that led to it: facts about a request, its
    callback and its batch hold exactly if certain actions have happened before. */
module InboundHistory {
  import opened Results
  import opened Inbound
  import opened InboundInvariant
  import opened InboundLaws
  import Flags

  // ------------------------------------------------- runs

  predicate Moves(s: State, a: Option<Action>, t: State) {
    if a.Some? then Enabled(s, a.value) && t == Do(s, a.value) else t == s
  }

  /** A run in which moments may pass without an action of the inbound side. */
  ghost predicate IsHistory(states: seq<State>, acts: seq<Option<Action>>) {
    && |states| == |acts| + 1
    && states[0] == Initial(states[0].limit, states[0].queueLimit)
    && forall i | 0 <= i < |acts| :: Moves(states[i], acts[i], states[i + 1])
  }

  // ------------------------------------------------- one request

  function Returned(q: Job, succeeded: bool): Job {
    q.(stage := if q.slot.Some? then Stage.Returned else Answering, succeeded := succeeded,
       callback := if q.callback != Registered then q.callback else if succeeded then Sealed else Gone)
  }

  /** The flush retires request j, or passes its callback on. */
  predicate Retires(s: State, a: Action, j: JobId) {
    && a.Retire? && a.b in s.batches && s.batches[a.b].flush.Retiring?
    && s.batches[a.b].flush.next < |s.batches[a.b].slots| && JobAt(s, a.b, s.batches[a.b].flush.next) == Some(j)
  }

  predicate Hands(s: State, a: Action, j: JobId) {
    a.Hand? && a.b in s.batches && s.batches[a.b].flush.Handing? && Due(s, a.b) == Some(j)
  }

  /** What the action makes of request j. */
  function After(s: State, a: Action, j: JobId): Job
    requires Enabled(s, a) && j in s.jobs
  {
    var q := s.jobs[j];
    match a
    case Enqueue(i) => if i == j then q.(stage := Queued) else q
    case Refuse(i) => if i == j then q.(stage := Refused, finished := true) else q
    case AnswerRefused(i, _) => if i == j then q.(stage := Left) else q
    case Start(i) => if i == j then q.(stage := Running) else q
    case Register(i) => if i == j then q.(callback := Registered) else q
    case Return(i, succeeded) => if i == j then Returned(q, succeeded) else q
    case Fill(i, _) => if i == j then q.(stage := Held) else q
    case Write(i, ok) => if i != j then q else if ok then q.(stage := Committed, finished := true) else q.(stage := Failed)
    case CallPlain(i) => if i == j then q.(callback := Gone) else q
    case End(i) => if i == j then q.(stage := Left, finished := true) else q
    case Retire(_) => if Retires(s, a, j) then q.(finished := true) else q
    case Hand(b) => if Hands(s, a, j) then q.(callback := if s.batches[b].flush.ok then Waiting else Gone) else q
    case Call => if s.callbacks[0] == j then q.(callback := Calling) else q
    case Called => if s.caller.value == j then q.(callback := Gone) else q
    case _ => q
  }

  lemma ReturnAfter(s: State, i: JobId, succeeded: bool, j: JobId)
    requires Enabled(s, Return(i, succeeded)) && j in s.jobs
    ensures DoReturn(s, i, succeeded).jobs == s.jobs[i := Returned(s.jobs[i], succeeded)]
  {
  }

  lemma RetireAfter(s: State, b: BatchId, j: JobId)
    requires Enabled(s, Retire(b)) && j in s.jobs
    ensures j in DoRetire(s, b).jobs && DoRetire(s, b).jobs[j] == After(s, Retire(b), j)
  {
  }

  lemma HandAfter(s: State, b: BatchId, j: JobId)
    requires Enabled(s, Hand(b)) && j in s.jobs
    ensures j in DoHand(s, b).jobs && DoHand(s, b).jobs[j] == After(s, Hand(b), j)
  {
  }

  lemma CompletionAfter(s: State, a: Action, j: JobId)
    requires Enabled(s, a) && j in s.jobs && (a.AnswerRefused? || a.Fill?)
    ensures j in Do(s, a).jobs && Do(s, a).jobs[j] == After(s, a, j)
  {
  }

  lemma EndingAfter(s: State, a: Action, j: JobId)
    requires JobsOk(s) && Enabled(s, a) && j in s.jobs && (a.Write? || a.End?)
    ensures j in Do(s, a).jobs && Do(s, a).jobs[j] == After(s, a, j)
  {
    assert StageOk(s.jobs[a.j]);
  }

  lemma OtherAfter(s: State, a: Action, j: JobId)
    requires JobsOk(s) && Enabled(s, a) && j in s.jobs
    requires !a.Return? && !a.Retire? && !a.Hand? && !a.AnswerRefused? && !a.Fill? && !a.Write? && !a.End?
    ensures j in Do(s, a).jobs && Do(s, a).jobs[j] == After(s, a, j)
  {
  }

  lemma ReplyAfter(s: State, a: Action, j: JobId)
    requires JobsOk(s) && Enabled(s, a) && j in s.jobs
    requires a.AnswerRefused? || a.Fill? || a.Write? || a.End?
    ensures j in Do(s, a).jobs && Do(s, a).jobs[j] == After(s, a, j)
  {
    if a.AnswerRefused? || a.Fill? { CompletionAfter(s, a, j); } else { EndingAfter(s, a, j); }
  }

  lemma IsAfter(s: State, a: Action, j: JobId)
    requires JobsOk(s) && Enabled(s, a) && j in s.jobs
    ensures j in Do(s, a).jobs && Do(s, a).jobs[j] == After(s, a, j)
  {
    if a.Return? {
      ReturnAfter(s, a.j, a.succeeded, j);
    } else if a.Retire? {
      RetireAfter(s, a.b, j);
    } else if a.Hand? {
      HandAfter(s, a.b, j);
    } else if a.AnswerRefused? || a.Fill? || a.Write? || a.End? {
      ReplyAfter(s, a, j);
    } else {
      OtherAfter(s, a, j);
    }
  }

  lemma KeysAfter(s: State, a: Action)
    requires Enabled(s, a)
    ensures Do(s, a).jobs.Keys == s.jobs.Keys + (if a.Admit? then {s.nextJob} else {})
    ensures a.Admit? ==> Do(s, a).jobs[s.nextJob].stage.Admitted? && Do(s, a).jobs[s.nextJob].callback == NoCallback
                         && !Do(s, a).jobs[s.nextJob].succeeded && !Do(s, a).jobs[s.nextJob].finished
  {
    match a
    case Return(i, succeeded) => ReturnAfter(s, i, succeeded, i);
    case Retire(b) => RetireKeys(s, b);
    case Hand(b) => HandKeys(s, b);
    case Admit(key, batch) => AdmitKeys(s, key, batch);
    case AnswerRefused(_, _) => CompletionKeys(s, a);
    case Fill(_, _) => CompletionKeys(s, a);
    case _ => OtherKeys(s, a);
  }

  lemma CompletionKeys(s: State, a: Action)
    requires Enabled(s, a) && (a.AnswerRefused? || a.Fill?)
    ensures Do(s, a).jobs.Keys == s.jobs.Keys
  {
  }

  lemma OtherKeys(s: State, a: Action)
    requires Enabled(s, a) && !a.Return? && !a.Retire? && !a.Hand? && !a.AnswerRefused? && !a.Fill? && !a.Admit?
    ensures Do(s, a).jobs.Keys == s.jobs.Keys
  {
  }

  lemma AdmitKeys(s: State, key: Key, batch: Option<BatchId>)
    requires Enabled(s, Admit(key, batch))
    ensures var t := DoAdmit(s, key, batch);
            && t.jobs.Keys == s.jobs.Keys + {s.nextJob} && t.jobs[s.nextJob].stage.Admitted?
            && t.jobs[s.nextJob].callback == NoCallback && !t.jobs[s.nextJob].succeeded && !t.jobs[s.nextJob].finished
  {
  }

  lemma RetireKeys(s: State, b: BatchId)
    requires Enabled(s, Retire(b))
    ensures DoRetire(s, b).jobs.Keys == s.jobs.Keys
  {
  }

  lemma HandKeys(s: State, b: BatchId)
    requires Enabled(s, Hand(b))
    ensures DoHand(s, b).jobs.Keys == s.jobs.Keys
  {
  }

  // ------------------------------------------------- before and after the handler

  /** Before its handler has returned a request has not succeeded; what a handler that succeeded has
      registered stays sealed until the reply is out. */
  predicate HandlerOk(q: Job) {
    && (q.stage.Admitted? || q.stage.Queued? || q.stage.Running? || q.stage.Refused? ==>
          !q.succeeded && (q.callback == NoCallback || q.callback == Registered))
    && (q.succeeded && (q.stage.Returned? || q.stage.Answering? || q.stage.Failed?) ==>
          q.callback == NoCallback || q.callback == Sealed)
  }

  predicate HandlersOk(s: State) {
    forall j | j in s.jobs :: HandlerOk(s.jobs[j])
  }

  lemma StartsQueued(s: State, a: Action, j: JobId)
    requires QueueOk(s) && Enabled(s, a)
    ensures a == Start(j) ==> At(s, j, Queued)
  {
    if a == Start(j) { assert At(s, s.queue[0], Queued); }
  }

  lemma WorkerStep(s: State, a: Action, j: JobId)
    requires Enabled(s, a) && j in s.jobs && HandlerOk(s.jobs[j]) && StageOk(s.jobs[j])
    requires a == Start(j) ==> At(s, j, Queued)
    requires !a.Hand? && a != Call && a != Called
    ensures HandlerOk(After(s, a, j))
  {
  }

  lemma HandlerStep(s: State, a: Action, j: JobId)
    requires JobsOk(s) && CallbacksOk(s.jobs, s.callbacks, s.caller) && BatchesOk(s) && QueueOk(s)
    requires Enabled(s, a) && j in s.jobs && HandlerOk(s.jobs[j])
    ensures HandlerOk(After(s, a, j))
  {
    assert StageOk(s.jobs[j]);
    if a.Hand? {
      if Hands(s, a, j) { DueHeld(s, a.b, j); }
    } else if a != Call && a != Called {
      StartsQueued(s, a, j);
      WorkerStep(s, a, j);
    }
  }

  lemma HandlersKeep(s: State, a: Action)
    requires Inv(s) && HandlersOk(s) && Enabled(s, a)
    ensures HandlersOk(Do(s, a))
  {
    KeysAfter(s, a);
    forall j | j in s.jobs ensures HandlerOk(Do(s, a).jobs[j]) {
      IsAfter(s, a, j);
      HandlerStep(s, a, j);
    }
  }

  lemma {:induction false} HistoryInv(states: seq<State>, acts: seq<Option<Action>>, i: nat)
    requires IsHistory(states, acts) && i < |states|
    ensures Inv(states[i]) && HandlersOk(states[i])
    decreases i
  {
    if i == 0 {
      InitialInv(states[0].limit, states[0].queueLimit);
    } else {
      HistoryInv(states, acts, i - 1);
      assert Moves(states[i - 1], acts[i - 1], states[i]);
      if acts[i - 1].Some? {
        ActionKeeps(states[i - 1], acts[i - 1].value);
        HandlersKeep(states[i - 1], acts[i - 1].value);
      }
    }
  }

  // ------------------------------------------------- facts about a request

  /** What can be said about a request, and is said for good: how far it is; whether its handler
      succeeded and its reservation is given back; and how far its callback is. HandedOn: the callback
      is not in its collector any more; CallbackOver: it was dropped, or its call has returned. */
  datatype Fact =
    | LeftReader | HandlerBegun | HandlerOver | Replied | IsOver
    | Succeeded | IsReleased
    | HasCallback | HandedOn | CallbackOver

  predicate Holds(f: Fact, q: Job) {
    match f
    case LeftReader => !q.stage.Admitted?
    case HandlerBegun => !q.stage.Admitted? && !q.stage.Queued? && !q.stage.Refused?
    case HandlerOver => !Owes(q) || q.stage.Returned?
    case Replied => q.stage.Held? || q.stage.Committed? || q.stage.Failed? || q.stage.Left?
    case IsOver => q.stage.Left?
    case HasCallback => q.callback != NoCallback
    case Succeeded => q.succeeded
    case IsReleased => q.finished
    case HandedOn => q.succeeded && (q.callback == Waiting || q.callback == Calling || q.callback == Gone)
    case CallbackOver => q.callback == Gone
  }

  /** The action makes the fact true of request j. */
  predicate Event(f: Fact, s: State, a: Action, j: JobId) {
    match f
    case LeftReader => a == Enqueue(j) || a == Refuse(j)
    case HandlerBegun => a == Start(j) || (a.AnswerRefused? && a.j == j)
    case HandlerOver => (a.Return? || a.AnswerRefused?) && a.j == j
    case Replied => (a.Fill? || a.Write? || a.AnswerRefused?) && a.j == j
    case IsOver => (a.End? || a.AnswerRefused?) && a.j == j
    case HasCallback => a == Register(j)
    case Succeeded => a == Return(j, true)
    case IsReleased => a == Refuse(j) || a == Write(j, true) || (a == End(j) && At(s, j, Failed)) || Retires(s, a, j)
    case HandedOn => a == CallPlain(j) || Hands(s, a, j)
    case CallbackOver =>
      || (a == Return(j, false) && j in s.jobs && s.jobs[j].callback == Registered)
      || a == CallPlain(j)
      || (Hands(s, a, j) && !s.batches[a.b].flush.ok)
      || (a == Called && s.caller == Some(j))
  }

  predicate Known(f: Fact, s: State, j: JobId) {
    j in s.jobs && Holds(f, s.jobs[j])
  }

  predicate Happens(f: Fact, s: State, a: Option<Action>, j: JobId) {
    a.Some? && Event(f, s, a.value, j)
  }

  lemma CallbackFacts(f: Fact, s: State, a: Action, j: JobId)
    requires CallbacksOk(s.jobs, s.callbacks, s.caller) && Enabled(s, a) && j in s.jobs && StageOk(s.jobs[j])
    requires a == Call || a == Called
    ensures Holds(f, After(s, a, j)) == (Holds(f, s.jobs[j]) || Event(f, s, a, j))
  {
  }

  lemma FlushFacts(f: Fact, s: State, a: Action, j: JobId)
    requires JobsOk(s) && BatchesOk(s) && Enabled(s, a) && j in s.jobs && (a.Retire? || a.Hand?)
    ensures Holds(f, After(s, a, j)) == (Holds(f, s.jobs[j]) || Event(f, s, a, j))
  {
    assert StageOk(s.jobs[j]);
    if Hands(s, a, j) { DueHeld(s, a.b, j); }
  }

  lemma RequestFacts(f: Fact, s: State, a: Action, j: JobId)
    requires JobsOk(s) && Enabled(s, a) && j in s.jobs && HandlerOk(s.jobs[j])
    requires a.Refuse? || a.AnswerRefused? || a.Register? || a.Fill?
    ensures Holds(f, After(s, a, j)) == (Holds(f, s.jobs[j]) || Event(f, s, a, j))
  {
  }

  lemma QueueFacts(f: Fact, s: State, a: Action, j: JobId)
    requires Enabled(s, a) && j in s.jobs && (a.Enqueue? || a.Start?)
    requires a == Start(j) ==> At(s, j, Queued)
    ensures Holds(f, After(s, a, j)) == (Holds(f, s.jobs[j]) || Event(f, s, a, j))
  {
  }

  lemma FreshFacts(f: Fact, q: Job)
    requires q.stage.Admitted? && q.callback == NoCallback && !q.succeeded && !q.finished
    ensures !Holds(f, q)
  {
  }

  lemma OtherFacts(f: Fact, s: State, a: Action, j: JobId)
    requires Enabled(s, a) && j in s.jobs
    requires a.OpenBatch? || a.AnswerSlot? || a.Admit? || a.Send? || a.Close?
    ensures Holds(f, After(s, a, j)) == (Holds(f, s.jobs[j]) || Event(f, s, a, j))
  {
  }

  lemma ReplyFacts(f: Fact, s: State, a: Action, j: JobId)
    requires Enabled(s, a) && j in s.jobs && HandlerOk(s.jobs[j]) && StageOk(s.jobs[j]) && (a.Write? || a.End? || a.CallPlain?)
    ensures Holds(f, After(s, a, j)) == (Holds(f, s.jobs[j]) || Event(f, s, a, j))
  {
  }

  lemma ReturnFacts(f: Fact, s: State, a: Action, j: JobId)
    requires Enabled(s, a) && a.Return? && j in s.jobs && HandlerOk(s.jobs[j])
    ensures Holds(f, After(s, a, j)) == (Holds(f, s.jobs[j]) || Event(f, s, a, j))
  {
  }

  lemma JobFacts(f: Fact, s: State, a: Action, j: JobId)
    requires JobsOk(s) && BatchesOk(s) && QueueOk(s) && CallbacksOk(s.jobs, s.callbacks, s.caller) && Enabled(s, a)
    requires j in s.jobs && HandlerOk(s.jobs[j])
    ensures Holds(f, After(s, a, j)) == (Holds(f, s.jobs[j]) || Event(f, s, a, j))
  {
    assert StageOk(s.jobs[j]);
    if a.Retire? || a.Hand? {
      FlushFacts(f, s, a, j);
    } else if a == Call || a == Called {
      CallbackFacts(f, s, a, j);
    } else if a.Return? {
      ReturnFacts(f, s, a, j);
    } else if a.Write? || a.End? || a.CallPlain? {
      ReplyFacts(f, s, a, j);
    } else if a.OpenBatch? || a.AnswerSlot? || a.Admit? || a.Send? || a.Close? {
      OtherFacts(f, s, a, j);
    } else if a.Enqueue? || a.Start? {
      StartsQueued(s, a, j);
      QueueFacts(f, s, a, j);
    } else {
      RequestFacts(f, s, a, j);
    }
  }

  lemma StepFacts(f: Fact, s: State, a: Action, j: JobId)
    requires Inv(s) && HandlersOk(s) && Enabled(s, a)
    ensures Known(f, Do(s, a), j) == (Known(f, s, j) || Event(f, s, a, j))
  {
    KeysAfter(s, a);
    if j in s.jobs {
      IsAfter(s, a, j);
      JobFacts(f, s, a, j);
    } else {
      NoEvent(f, s, a, j);
      if j in Do(s, a).jobs { FreshFacts(f, Do(s, a).jobs[j]); }
    }
  }

  lemma NoFlushEvent(s: State, a: Action, j: JobId)
    requires JobsOk(s) && BatchesOk(s) && j !in s.jobs
    ensures !Retires(s, a, j) && !Hands(s, a, j)
  {
    if Retires(s, a, j) { JobAtHeld(s, a.b, s.batches[a.b].flush.next); }
  }

  lemma NoOwnEvent(f: Fact, s: State, a: Action, j: JobId)
    requires Enabled(s, a) && j !in s.jobs && !Retires(s, a, j) && !Hands(s, a, j)
    ensures !Event(f, s, a, j)
  {
  }

  lemma NoEvent(f: Fact, s: State, a: Action, j: JobId)
    requires JobsOk(s) && BatchesOk(s) && Enabled(s, a) && j !in s.jobs
    ensures !Event(f, s, a, j)
  {
    NoFlushEvent(s, a, j);
    NoOwnEvent(f, s, a, j);
  }

  lemma MomentFacts(states: seq<State>, acts: seq<Option<Action>>, k: nat, f: Fact, j: JobId)
    requires IsHistory(states, acts) && k < |acts|
    ensures Known(f, states[k + 1], j) == (Known(f, states[k], j) || Happens(f, states[k], acts[k], j))
  {
    HistoryInv(states, acts, k);
    assert Moves(states[k], acts[k], states[k + 1]);
    if acts[k].Some? { StepFacts(f, states[k], acts[k].value, j); }
  }

  /** In every run a fact holds of a request exactly if one of its events has happened before: it has
      succeeded exactly if its handler returned so, its reservation is given back exactly after the
      refusal, the written or failed single response or the retirement behind the flush, and so on. */
  lemma FactsExplained(states: seq<State>, acts: seq<Option<Action>>, i: nat, j: JobId, f: Fact)
    requires IsHistory(states, acts) && i < |states|
    ensures Known(f, states[i], j) <==> exists k :: 0 <= k < i && Happens(f, states[k], acts[k], j)
  {
    var flags := seq(|states|, k requires 0 <= k < |states| => Known(f, states[k], j));
    var events := seq(|acts|, k requires 0 <= k < |acts| => Happens(f, states[k], acts[k], j));
    forall k | 0 <= k < |acts| ensures flags[k + 1] <==> flags[k] || events[k] {
      MomentFacts(states, acts, k, f, j);
    }
    Flags.UpAfter(flags, events, i);
    forall k | 0 <= k < i ensures events[k] == Happens(f, states[k], acts[k], j) {
    }
  }

  // ------------------------------------------------- facts about a batch

  /** What can be said about a batch, and is said for good. */
  datatype BatchFact = IsFilled(k: nat) | ArrayGiven | ArraySent | AllRetired | AllHanded

  predicate HoldsOf(f: BatchFact, c: Collector) {
    match f
    case IsFilled(k) => k < |c.slots| && c.slots[k].Filled?
    case ArrayGiven => FlushRank(c.flush) >= 2
    case ArraySent => FlushOk(c.flush)
    case AllRetired => FlushRank(c.flush) >= 3
    case AllHanded => c.flush.Flushed?
  }

  /** The action completes slot k of batch b: the reader answers it, or a request of that slot. */
  predicate Completes(s: State, a: Action, b: BatchId, k: nat) {
    || (a.AnswerSlot? && a.b == b && b in s.batches && s.batches[b].next == k)
    || ((a.AnswerRefused? || a.Fill?) && a.j in s.jobs && s.jobs[a.j].slot == Some((b, k)))
  }

  /** The loop that is at this position has come to the end of the slots. */
  predicate AtEnd(s: State, b: BatchId) {
    && b in s.batches && (s.batches[b].flush.Retiring? || s.batches[b].flush.Handing?)
    && s.batches[b].flush.next == |s.batches[b].slots|
  }

  predicate BatchEvent(f: BatchFact, s: State, a: Action, b: BatchId) {
    match f
    case IsFilled(k) => Completes(s, a, b, k)
    case ArrayGiven => a.Send? && a.b == b
    case ArraySent => a == Send(b, true)
    case AllRetired => a == Retire(b) && AtEnd(s, b)
    case AllHanded => a == Hand(b) && AtEnd(s, b)
  }

  /** What the action makes of batch b. */
  function BatchAfter(s: State, a: Action, b: BatchId): Collector
    requires Enabled(s, a) && b in s.batches
  {
    var c := s.batches[b];
    match a
    case AnswerSlot(i, reply) => if i == b then Complete(c, c.next, reply, None).(next := c.next + 1) else c
    case Admit(_, batch) => if batch == Some(b) then c.(next := c.next + 1) else c
    case AnswerRefused(j, reply) => CompletedBy(c, s.jobs[j].slot, b, reply, None)
    case Fill(j, reply) => CompletedBy(c, s.jobs[j].slot, b, reply, Some(j))
    case Send(i, ok) => if i == b then c.(flush := Retiring(0, ok)) else c
    case Retire(i) => if i == b then c.(flush := NextTurn(c)) else c
    case Hand(i) => if i == b then c.(flush := NextTurn(c)) else c
    case _ => c
  }

  function CompletedBy(c: Collector, slot: Option<(BatchId, nat)>, b: BatchId, reply: nat, job: Option<JobId>): Collector {
    if slot.Some? && slot.value.0 == b then Complete(c, slot.value.1, reply, job) else c
  }

  /** The flush after one turn of its loop. */
  function NextTurn(c: Collector): Flush
    requires c.flush.Retiring? || c.flush.Handing?
  {
    var n, ok := c.flush.next, c.flush.ok;
    if c.flush.Retiring? then if n < |c.slots| then Retiring(n + 1, ok) else Handing(0, ok)
    else if n < |c.slots| then Handing(n + 1, ok) else Flushed(ok)
  }

  lemma RetireTurns(s: State, i: BatchId)
    requires Enabled(s, Retire(i))
    ensures DoRetire(s, i).batches == s.batches[i := s.batches[i].(flush := NextTurn(s.batches[i]))]
  {
  }

  lemma HandTurns(s: State, i: BatchId)
    requires Enabled(s, Hand(i))
    ensures DoHand(s, i).batches == s.batches[i := s.batches[i].(flush := NextTurn(s.batches[i]))]
  {
  }

  lemma ReturnSpares(s: State, j: JobId, succeeded: bool)
    requires Enabled(s, Return(j, succeeded))
    ensures DoReturn(s, j, succeeded).batches == s.batches
  {
  }

  lemma CompletionBatch(s: State, a: Action, b: BatchId)
    requires Enabled(s, a) && b in s.batches && (a.AnswerSlot? || a.AnswerRefused? || a.Fill?)
    ensures Do(s, a).batches.Keys == s.batches.Keys && Do(s, a).batches[b] == BatchAfter(s, a, b)
  {
  }

  lemma OtherBatch(s: State, a: Action, b: BatchId)
    requires BatchesOk(s) && Enabled(s, a) && b in s.batches && !a.AnswerSlot? && !a.AnswerRefused? && !a.Fill?
    requires !a.Retire? && !a.Hand? && !a.Return?
    ensures b in Do(s, a).batches && Do(s, a).batches[b] == BatchAfter(s, a, b)
  {
  }

  lemma IsBatchAfter(s: State, a: Action, b: BatchId)
    requires BatchesOk(s) && Enabled(s, a) && b in s.batches
    ensures b in Do(s, a).batches && Do(s, a).batches[b] == BatchAfter(s, a, b)
  {
    if a.Retire? {
      RetireTurns(s, a.b);
    } else if a.Hand? {
      HandTurns(s, a.b);
    } else if a.Return? {
      ReturnSpares(s, a.j, a.succeeded);
    } else if a.AnswerSlot? || a.AnswerRefused? || a.Fill? {
      CompletionBatch(s, a, b);
    } else {
      OtherBatch(s, a, b);
    }
  }

  lemma CompletionBatchKeys(s: State, a: Action)
    requires Enabled(s, a) && (a.AnswerSlot? || a.AnswerRefused? || a.Fill?)
    ensures Do(s, a).batches.Keys == s.batches.Keys
  {
  }

  lemma OtherBatchKeys(s: State, a: Action)
    requires Enabled(s, a) && !a.AnswerSlot? && !a.AnswerRefused? && !a.Fill? && !a.Retire? && !a.Hand? && !a.Return?
    ensures Do(s, a).batches.Keys == s.batches.Keys + (if a.OpenBatch? then {s.nextBatch} else {})
    ensures a.OpenBatch? ==> Do(s, a).batches[s.nextBatch].flush.Open?
                             && forall k | 0 <= k < |Do(s, a).batches[s.nextBatch].slots| :: Do(s, a).batches[s.nextBatch].slots[k].Empty?
  {
  }

  lemma BatchKeysAfter(s: State, a: Action)
    requires Enabled(s, a)
    ensures Do(s, a).batches.Keys == s.batches.Keys + (if a.OpenBatch? then {s.nextBatch} else {})
    ensures a.OpenBatch? ==> Do(s, a).batches[s.nextBatch].flush.Open?
                             && forall k | 0 <= k < |Do(s, a).batches[s.nextBatch].slots| :: Do(s, a).batches[s.nextBatch].slots[k].Empty?
  {
    if a.Retire? {
      RetireTurns(s, a.b);
    } else if a.Hand? {
      HandTurns(s, a.b);
    } else if a.Return? {
      ReturnSpares(s, a.j, a.succeeded);
    } else if a.AnswerSlot? || a.AnswerRefused? || a.Fill? {
      CompletionBatchKeys(s, a);
    } else {
      OtherBatchKeys(s, a);
    }
  }

  predicate KnownOf(f: BatchFact, s: State, b: BatchId) {
    b in s.batches && HoldsOf(f, s.batches[b])
  }

  predicate HappensTo(f: BatchFact, s: State, a: Option<Action>, b: BatchId) {
    a.Some? && BatchEvent(f, s, a.value, b)
  }

  lemma TurnFacts(f: BatchFact, s: State, a: Action, b: BatchId)
    requires Enabled(s, a) && b in s.batches && BatchOk(s.jobs, b, s.batches[b]) && (a.Send? || a.Retire? || a.Hand?)
    ensures HoldsOf(f, BatchAfter(s, a, b)) == (HoldsOf(f, s.batches[b]) || BatchEvent(f, s, a, b))
  {
  }

  /** A completion finds its slot of the collector free, and takes it. */
  lemma CompleteTakes(f: BatchFact, c: Collector, k: nat, reply: nat, job: Option<JobId>)
    requires k < |c.slots| && c.slots[k].Empty? && c.flush.Open? && c.remaining > 0
    ensures HoldsOf(f, Complete(c, k, reply, job)) == (HoldsOf(f, c) || f == IsFilled(k))
  {
  }

  lemma SlotOpen(s: State, a: Action, b: BatchId, k: nat)
    requires JobsOk(s) && BatchesOk(s) && Enabled(s, a) && Completes(s, a, b, k)
    ensures b in s.batches && k < |s.batches[b].slots| && s.batches[b].slots[k].Empty?
    ensures s.batches[b].flush.Open? && s.batches[b].remaining > 0
  {
    SlotIsFree(s, a, b, k, a.reply);
  }

  lemma CompletionFacts(f: BatchFact, s: State, a: Action, b: BatchId)
    requires JobsOk(s) && BatchesOk(s) && Enabled(s, a) && b in s.batches && (a.AnswerSlot? || a.AnswerRefused? || a.Fill?)
    ensures HoldsOf(f, BatchAfter(s, a, b)) == (HoldsOf(f, s.batches[b]) || BatchEvent(f, s, a, b))
  {
    var c := s.batches[b];
    if a.AnswerSlot? {
      if a.b == b {
        SlotOpen(s, a, b, c.next);
        CompleteTakes(f, c, c.next, a.reply, None);
      }
    } else if s.jobs[a.j].slot.Some? && s.jobs[a.j].slot.value.0 == b {
      var k := s.jobs[a.j].slot.value.1;
      SlotOpen(s, a, b, k);
      CompleteTakes(f, c, k, a.reply, if a.Fill? then Some(a.j) else None);
    }
  }

  lemma SettledFacts(f: BatchFact, s: State, a: Action, b: BatchId)
    requires Enabled(s, a) && b in s.batches
    requires !a.AnswerSlot? && !a.AnswerRefused? && !a.Fill? && !a.Send? && !a.Retire? && !a.Hand?
    ensures HoldsOf(f, BatchAfter(s, a, b)) == (HoldsOf(f, s.batches[b]) || BatchEvent(f, s, a, b))
  {
  }

  lemma CollectorFacts(f: BatchFact, s: State, a: Action, b: BatchId)
    requires JobsOk(s) && BatchesOk(s) && Enabled(s, a) && b in s.batches
    ensures HoldsOf(f, BatchAfter(s, a, b)) == (HoldsOf(f, s.batches[b]) || BatchEvent(f, s, a, b))
  {
    if a.AnswerSlot? || a.AnswerRefused? || a.Fill? {
      CompletionFacts(f, s, a, b);
    } else if a.Send? || a.Retire? || a.Hand? {
      TurnFacts(f, s, a, b);
    } else {
      SettledFacts(f, s, a, b);
    }
  }

  lemma NoBatchEvent(f: BatchFact, s: State, a: Action, b: BatchId)
    requires JobsOk(s) && Enabled(s, a) && b !in s.batches
    ensures !BatchEvent(f, s, a, b)
  {
    if a.AnswerRefused? || a.Fill? { assert LinkOk(s.batches, a.j, s.jobs[a.j]); }
  }

  lemma BatchStepFacts(f: BatchFact, s: State, a: Action, b: BatchId)
    requires Inv(s) && Enabled(s, a)
    ensures KnownOf(f, Do(s, a), b) == (KnownOf(f, s, b) || BatchEvent(f, s, a, b))
  {
    BatchKeysAfter(s, a);
    if b in s.batches {
      IsBatchAfter(s, a, b);
      CollectorFacts(f, s, a, b);
    } else {
      NoBatchEvent(f, s, a, b);
    }
  }

  lemma BatchMoment(states: seq<State>, acts: seq<Option<Action>>, k: nat, f: BatchFact, b: BatchId)
    requires IsHistory(states, acts) && k < |acts|
    ensures KnownOf(f, states[k + 1], b) == (KnownOf(f, states[k], b) || HappensTo(f, states[k], acts[k], b))
  {
    HistoryInv(states, acts, k);
    assert Moves(states[k], acts[k], states[k + 1]);
    if acts[k].Some? { BatchStepFacts(f, states[k], acts[k].value, b); }
  }

  /** In every run a fact holds of a batch exactly if one of its events has happened before: a slot is
      filled exactly if it was completed, the array was sent exactly if the transport took it, and the
      requests are all retired, and their callbacks all passed on, exactly if the loops came to the end. */
  lemma BatchFactsExplained(states: seq<State>, acts: seq<Option<Action>>, i: nat, b: BatchId, f: BatchFact)
    requires IsHistory(states, acts) && i < |states|
    ensures KnownOf(f, states[i], b) <==> exists k :: 0 <= k < i && HappensTo(f, states[k], acts[k], b)
  {
    var flags := seq(|states|, k requires 0 <= k < |states| => KnownOf(f, states[k], b));
    var events := seq(|acts|, k requires 0 <= k < |acts| => HappensTo(f, states[k], acts[k], b));
    forall k | 0 <= k < |acts| ensures flags[k + 1] <==> flags[k] || events[k] {
      BatchMoment(states, acts, k, f, b);
    }
    Flags.UpAfter(flags, events, i);
    forall k | 0 <= k < i ensures events[k] == HappensTo(f, states[k], acts[k], b) {
    }
  }
}
