/** Inbound requests of one connection as a state machine: admission under the id table, the
    request queue, the handlers, the reply collectors of batches and the callbacks that run after
    a response. Every action is one critical section or one channel operation. */
module Inbound {
  import opened Results

  type JobId = nat
  type BatchId = nat
  type Key = string

  /** An admitted request. The stages behind the handler differ for a request of a batch
      (Returned, then Held in the collector) and a single one (Answering, then Committed when
      the response was written or Failed when it was not). Refused: the queue was full. */
  datatype Stage =
    | Admitted | Queued | Running
    | Returned | Held
    | Answering | Committed | Failed
    | Refused | Left

  /** The after-response callback: registered by the handler; sealed when the handler returned;
      waiting in the callback queue, or called by its worker; gone. */
  datatype Callback = NoCallback | Registered | Sealed | Waiting | Calling | Gone

  /** finished is the once-guard of finish; succeeded: the handler's result was encoded. */
  datatype Job = Job(key: Key, slot: Option<(BatchId, nat)>, stage: Stage, callback: Callback,
                     finished: bool, succeeded: bool)

  /** One slot of a collector: the reply, and the request whose completion came with it. */
  datatype Fill = Empty | Filled(reply: nat, job: Option<JobId>)

  /** What the goroutine that filled the last slot does next. */
  datatype Flush = Open | Sending | Retiring(next: nat, ok: bool) | Handing(next: nat, ok: bool) | Flushed(ok: bool)

  /** batchReply; next: the slots the reader has dispatched so far. */
  datatype Collector = Collector(slots: seq<Fill>, remaining: nat, next: nat, flush: Flush)

  /** sent records the arrays given to the transport, and whether that succeeded. */
  datatype State = State(
    limit: nat, queueLimit: nat, closed: bool,
    inflight: map<Key, JobId>,
    jobs: map<JobId, Job>, batches: map<BatchId, Collector>,
    queue: seq<JobId>,
    tokens: nat, callbacks: seq<JobId>, caller: Option<JobId>,
    nextJob: nat, nextBatch: nat,
    sent: seq<(BatchId, seq<Fill>, bool)>)

  function Initial(limit: nat, queueLimit: nat): State {
    State(limit, queueLimit, false, map[], map[], map[], [], 0, [], None, 0, 0, [])
  }

  // ------------------------------------------------- pieces

  function Missing(slots: seq<Fill>): nat {
    if slots == [] then 0
    else Missing(slots[..|slots| - 1]) + (if slots[|slots| - 1].Empty? then 1 else 0)
  }

  /** batchReply.complete up to the end of its critical section. */
  function Complete(c: Collector, k: nat, reply: nat, job: Option<JobId>): Collector {
    if k >= |c.slots| || c.slots[k].Filled? || c.remaining == 0 then c
    else c.(slots := c.slots[k := Filled(reply, job)], remaining := c.remaining - 1,
            flush := if c.remaining == 1 then Sending else c.flush)
  }

  predicate Takes(c: Collector, k: nat) {
    k < |c.slots| && c.slots[k].Empty? && c.remaining > 0
  }

  /** finish: remove the reservation of the key, the first time only. */
  function Finish(s: State, j: JobId): State
    requires j in s.jobs
  {
    if s.jobs[j].finished then s
    else s.(inflight := s.inflight - {s.jobs[j].key}, jobs := s.jobs[j := s.jobs[j].(finished := true)])
  }

  function SetJob(s: State, j: JobId, job: Job): State {
    s.(jobs := s.jobs[j := job])
  }

  function SetBatch(s: State, b: BatchId, c: Collector): State {
    s.(batches := s.batches[b := c])
  }

  /** The job holds a token of batchCallbackSlots. */
  predicate HasToken(job: Job) {
    job.slot.Some? && (job.callback == Registered || job.callback == Sealed || job.callback == Waiting || job.callback == Calling)
  }

  function Tokened(jobs: map<JobId, Job>): set<JobId> {
    set j | j in jobs && HasToken(jobs[j])
  }

  // ------------------------------------------------- actions

  datatype Action =
    | OpenBatch(size: nat)
    | AnswerSlot(b: BatchId, reply: nat)
    | Admit(key: Key, batch: Option<BatchId>)
    | Enqueue(j: JobId)
    | Refuse(j: JobId)
    | AnswerRefused(j: JobId, reply: nat)
    | Start(j: JobId)
    | Register(j: JobId)
    | Return(j: JobId, succeeded: bool)
    | Fill(j: JobId, reply: nat)
    | Write(j: JobId, ok: bool)
    | CallPlain(j: JobId)
    | End(j: JobId)
    | Send(b: BatchId, ok: bool)
    | Retire(b: BatchId)
    | Hand(b: BatchId)
    | Call
    | Called
    | Close

  predicate At(s: State, j: JobId, stage: Stage) {
    j in s.jobs && s.jobs[j].stage == stage
  }

  /** The request whose completion stands at position n of collector b. */
  function JobAt(s: State, b: BatchId, n: nat): Option<JobId>
    requires b in s.batches && n < |s.batches[b].slots|
  {
    if s.batches[b].slots[n].Filled? then s.batches[b].slots[n].job else None
  }

  predicate Enabled(s: State, a: Action) {
    match a
    case OpenBatch(n) => n > 0
    case AnswerSlot(b, _) => b in s.batches && s.batches[b].next < |s.batches[b].slots|
    case Admit(key, batch) =>
      && key !in s.inflight
      && (batch.Some? ==> batch.value in s.batches && s.batches[batch.value].next < |s.batches[batch.value].slots|)
    case Enqueue(j) => At(s, j, Admitted) && |s.queue| < s.queueLimit
    case Refuse(j) => At(s, j, Admitted)
    case AnswerRefused(j, _) => At(s, j, Refused)
    case Start(j) => s.queue != [] && s.queue[0] == j && j in s.jobs
    case Register(j) =>
      && At(s, j, Running) && s.jobs[j].callback == NoCallback
      && (s.jobs[j].slot.Some? ==> s.tokens < s.limit)
    case Return(j, _) => At(s, j, Running)
    case Fill(j, _) => At(s, j, Returned) && s.jobs[j].slot.Some? && s.jobs[j].slot.value.0 in s.batches
    case Write(j, _) => At(s, j, Answering)
    case CallPlain(j) => At(s, j, Committed) && s.jobs[j].callback == Sealed
    case End(j) => At(s, j, Failed) || (At(s, j, Committed) && s.jobs[j].callback != Sealed)
    case Send(b, _) => b in s.batches && s.batches[b].flush.Sending?
    case Retire(b) => b in s.batches && s.batches[b].flush.Retiring?
    case Hand(b) => b in s.batches && s.batches[b].flush.Handing? && !HandBlocks(s, b)
    case Call => s.callbacks != [] && s.caller.None? && s.callbacks[0] in s.jobs
    case Called => s.caller.Some? && s.caller.value in s.jobs && s.tokens > 0
    case Close => !s.closed
  }

  /** The callback that Hand has to pass on or to drop, if there is one at its position. */
  function Due(s: State, b: BatchId): Option<JobId>
    requires b in s.batches && s.batches[b].flush.Handing?
  {
    var n := s.batches[b].flush.next;
    if n < |s.batches[b].slots| && JobAt(s, b, n).Some? && JobAt(s, b, n).value in s.jobs
       && s.jobs[JobAt(s, b, n).value].callback == Sealed
    then JobAt(s, b, n) else None
  }

  /** The channel operation of Hand would block: a send on a full callback queue, or a receive
      from the empty token channel. */
  predicate HandBlocks(s: State, b: BatchId)
    requires b in s.batches && s.batches[b].flush.Handing?
  {
    Due(s, b).Some? && if s.batches[b].flush.ok then |s.callbacks| >= s.limit else s.tokens == 0
  }

  function DoAdmit(s: State, key: Key, batch: Option<BatchId>): State
    requires Enabled(s, Admit(key, batch))
  {
    var j := s.nextJob;
    var slot := if batch.Some? then Some((batch.value, s.batches[batch.value].next)) else None;
    var t := s.(inflight := s.inflight[key := j], nextJob := j + 1,
                jobs := s.jobs[j := Job(key, slot, Admitted, NoCallback, false, false)]);
    if batch.Some? then
      var c := s.batches[batch.value];
      SetBatch(t, batch.value, c.(next := c.next + 1))
    else t
  }

  /** A handler returns: its state is sealed, and a failed request of a batch gives its callback
      token back at once. */
  function DoReturn(s: State, j: JobId, succeeded: bool): State
    requires At(s, j, Running)
  {
    var q := s.jobs[j];
    var stage := if q.slot.Some? then Returned else Answering;
    if q.callback != Registered then SetJob(s, j, q.(stage := stage, succeeded := succeeded))
    else if succeeded then SetJob(s, j, q.(stage := stage, succeeded := true, callback := Sealed))
    else
      SetJob(s, j, q.(stage := stage, succeeded := false, callback := Gone))
        .(tokens := if q.slot.Some? && s.tokens > 0 then s.tokens - 1 else s.tokens)
  }

  function CompleteSlot(s: State, slot: (BatchId, nat), reply: nat, job: Option<JobId>): State {
    if slot.0 in s.batches then SetBatch(s, slot.0, Complete(s.batches[slot.0], slot.1, reply, job)) else s
  }

  /** The loop that retires every request, one turn. */
  function DoRetire(s: State, b: BatchId): State
    requires b in s.batches && s.batches[b].flush.Retiring?
  {
    var c := s.batches[b];
    var n, ok := c.flush.next, c.flush.ok;
    if n >= |c.slots| then SetBatch(s, b, c.(flush := Handing(0, ok)))
    else
      var t := SetBatch(s, b, c.(flush := Retiring(n + 1, ok)));
      if JobAt(s, b, n).Some? && JobAt(s, b, n).value in s.jobs then Finish(t, JobAt(s, b, n).value) else t
  }

  /** The loop that passes the callbacks on, or drops them when the array was not sent, one turn. */
  function DoHand(s: State, b: BatchId): State
    requires b in s.batches && s.batches[b].flush.Handing? && !HandBlocks(s, b)
  {
    var c := s.batches[b];
    var n, ok := c.flush.next, c.flush.ok;
    if n >= |c.slots| then SetBatch(s, b, c.(flush := Flushed(ok)))
    else
      var t := SetBatch(s, b, c.(flush := Handing(n + 1, ok)));
      if Due(s, b).None? then t
      else if ok then
        SetJob(t, Due(s, b).value, s.jobs[Due(s, b).value].(callback := Waiting))
          .(callbacks := s.callbacks + [Due(s, b).value])
      else
        SetJob(t, Due(s, b).value, s.jobs[Due(s, b).value].(callback := Gone)).(tokens := s.tokens - 1)
  }

  function Do(s: State, a: Action): State
    requires Enabled(s, a)
  {
    match a
    case OpenBatch(n) =>
      s.(batches := s.batches[s.nextBatch := Collector(seq(n, i => Empty), n, 0, Open)], nextBatch := s.nextBatch + 1)
    case AnswerSlot(b, reply) =>
      var c := s.batches[b];
      SetBatch(s, b, Complete(c, c.next, reply, None).(next := c.next + 1))
    case Admit(key, batch) => DoAdmit(s, key, batch)
    case Enqueue(j) => SetJob(s, j, s.jobs[j].(stage := Queued)).(queue := s.queue + [j])
    case Refuse(j) =>
      SetJob(s, j, s.jobs[j].(stage := Refused, finished := true)).(inflight := s.inflight - {s.jobs[j].key})
    case AnswerRefused(j, reply) =>
      var t := SetJob(s, j, s.jobs[j].(stage := Left));
      if s.jobs[j].slot.Some? then CompleteSlot(t, s.jobs[j].slot.value, reply, None) else t
    case Start(j) => SetJob(s, j, s.jobs[j].(stage := Running)).(queue := s.queue[1..])
    case Register(j) =>
      SetJob(s, j, s.jobs[j].(callback := Registered))
        .(tokens := if s.jobs[j].slot.Some? then s.tokens + 1 else s.tokens)
    case Return(j, succeeded) => DoReturn(s, j, succeeded)
    case Fill(j, reply) =>
      CompleteSlot(SetJob(s, j, s.jobs[j].(stage := Held)), s.jobs[j].slot.value, reply, Some(j))
    case Write(j, ok) =>
      if ok then Finish(SetJob(s, j, s.jobs[j].(stage := Committed)), j)
      else SetJob(s, j, s.jobs[j].(stage := Failed))
    case CallPlain(j) => SetJob(s, j, s.jobs[j].(callback := Gone))
    case End(j) => Finish(SetJob(s, j, s.jobs[j].(stage := Left)), j)
    case Send(b, ok) =>
      SetBatch(s, b, s.batches[b].(flush := Retiring(0, ok))).(sent := s.sent + [(b, s.batches[b].slots, ok)])
    case Retire(b) => DoRetire(s, b)
    case Hand(b) => DoHand(s, b)
    case Call =>
      SetJob(s, s.callbacks[0], s.jobs[s.callbacks[0]].(callback := Calling))
        .(callbacks := s.callbacks[1..], caller := Some(s.callbacks[0]))
    case Called =>
      SetJob(s, s.caller.value, s.jobs[s.caller.value].(callback := Gone)).(caller := None, tokens := s.tokens - 1)
    case Close => s.(closed := true)
  }

  ghost predicate IsRun(states: seq<State>, acts: seq<Action>) {
    && |states| == |acts| + 1
    && states[0] == Initial(states[0].limit, states[0].queueLimit)
    && forall i | 0 <= i < |acts| :: Enabled(states[i], acts[i]) && states[i + 1] == Do(states[i], acts[i])
  }
}
