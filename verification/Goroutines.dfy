/** Who performs the actions of the inbound side: the reader, the request workers, and the worker of
    the callback queue, which is closed when the others have ended. Each action is done by the
    goroutine that is at that point; none is done for a goroutine that has ended. */
module Goroutines {
  import opened Results
  import opened Inbound
  import opened InboundInvariant
  import opened InboundLaws
  import Flags

  datatype Agent = Reader | Worker(n: nat)

  /** What a goroutine is at: between two frames or in the select; at a request; at the end of
      batchReply.complete, which it has called for the last free slot. */
  datatype Task = Idle | Handling(j: JobId) | Flushing(b: BatchId) | Over

  /** drained: the callback worker has ended and waitDone is closed. */
  datatype Group = Group(inbound: State, tasks: map<Agent, Task>, queueClosed: bool, drained: bool)

  datatype Step =
    | By(g: Agent, a: Action)
    | Outside(a: Action)
    | Leave(g: Agent)
    | CloseQueue
    | EndCallbacks

  function Agents(workers: nat): set<Agent> {
    {Reader} + set n | 0 <= n < workers :: Worker(n)
  }

  function Begin(limit: nat, queueLimit: nat, workers: nat): Group {
    Group(Inbound.Initial(limit, queueLimit), map g | g in Agents(workers) :: Idle, false, false)
  }

  /** The action is the next one of a goroutine that is at this task. */
  predicate May(g: Agent, t: Task, a: Action) {
    match a
    case OpenBatch(_) => g.Reader? && t.Idle?
    case AnswerSlot(_, _) => g.Reader? && t.Idle?
    case Admit(_, _) => g.Reader? && t.Idle?
    case Enqueue(j) => g.Reader? && t == Handling(j)
    case Refuse(j) => g.Reader? && t == Handling(j)
    case AnswerRefused(j, _) => g.Reader? && t == Handling(j)
    case Start(_) => g.Worker? && t.Idle?
    case Return(j, _) => g.Worker? && t == Handling(j)
    case Fill(j, _) => g.Worker? && t == Handling(j)
    case Write(j, _) => g.Worker? && t == Handling(j)
    case CallPlain(j) => g.Worker? && t == Handling(j)
    case End(j) => g.Worker? && t == Handling(j)
    case Send(b, _) => t == Flushing(b)
    case Retire(b) => t == Flushing(b)
    case Hand(b) => t == Flushing(b)
    case _ => false
  }

  /** A handler, or what it started, registers; the callback worker; anyone who closes. */
  predicate IsOutside(a: Action) {
    a.Register? || a.Call? || a.Called? || a.Close?
  }

  predicate InFlush(f: Flush) {
    f.Sending? || f.Retiring? || f.Handing?
  }

  /** The completion that filled the last slot goes on to flush. */
  function AfterCompletion(s: State, t: State, b: BatchId): Task {
    if b in s.batches && b in t.batches && s.batches[b].flush.Open? && t.batches[b].flush.Sending? then Flushing(b) else Idle
  }

  function After(s: State, a: Action): Task
    requires Enabled(s, a)
  {
    match a
    case Admit(_, _) => Handling(s.nextJob)
    case Refuse(j) => Handling(j)
    case AnswerSlot(b, _) => AfterCompletion(s, Do(s, a), b)
    case AnswerRefused(j, _) => if s.jobs[j].slot.Some? then AfterCompletion(s, Do(s, a), s.jobs[j].slot.value.0) else Idle
    case Start(j) => Handling(j)
    case Return(j, _) => Handling(j)
    case Write(j, _) => Handling(j)
    case CallPlain(j) => Handling(j)
    case Fill(j, _) => AfterCompletion(s, Do(s, a), s.jobs[j].slot.value.0)
    case Send(b, _) => Flushing(b)
    case Retire(b) => Flushing(b)
    case Hand(b) => if b in Do(s, a).batches && Do(s, a).batches[b].flush.Handing? then Flushing(b) else Idle
    case _ => Idle
  }

  predicate Can(c: Group, s: Step) {
    match s
    case By(g, a) => g in c.tasks && Enabled(c.inbound, a) && May(g, c.tasks[g], a)
    case Outside(a) => IsOutside(a) && Enabled(c.inbound, a)
    case Leave(g) => g in c.tasks && c.tasks[g].Idle? && c.inbound.closed
    case CloseQueue => !c.queueClosed && forall g | g in c.tasks :: c.tasks[g].Over?
    case EndCallbacks => c.queueClosed && c.inbound.callbacks == [] && c.inbound.caller.None?
  }

  function Next(c: Group, s: Step): Group
    requires Can(c, s)
  {
    match s
    case By(g, a) => c.(inbound := Do(c.inbound, a), tasks := c.tasks[g := After(c.inbound, a)])
    case Outside(a) => c.(inbound := Do(c.inbound, a))
    case Leave(g) => c.(tasks := c.tasks[g := Over])
    case CloseQueue => c.(queueClosed := true)
    case EndCallbacks => c.(drained := true)
  }

  ghost predicate IsRun(states: seq<Group>, steps: seq<Step>, workers: nat) {
    && |states| == |steps| + 1
    && states[0] == Begin(states[0].inbound.limit, states[0].inbound.queueLimit, workers)
    && forall i | 0 <= i < |steps| :: Can(states[i], steps[i]) && states[i + 1] == Next(states[i], steps[i])
  }

  // ------------------------------------------------- who has what

  /** The request is at the reader, or at a worker. */
  predicate HeldBy(g: Agent, stage: Stage) {
    match g
    case Reader => stage.Admitted? || stage.Refused?
    case Worker(_) => stage.Running? || stage.Returned? || stage.Answering? || stage.Committed? || stage.Failed?
  }

  predicate Fits(jobs: map<JobId, Job>, batches: map<BatchId, Collector>, g: Agent, t: Task) {
    match t
    case Handling(j) => j in jobs && HeldBy(g, jobs[j].stage)
    case Flushing(b) => b in batches && InFlush(batches[b].flush)
    case _ => true
  }

  predicate Has(tasks: map<Agent, Task>, t: Task) {
    exists g :: g in tasks && tasks[g] == t
  }

  predicate InHands(stage: Stage) {
    HeldBy(Reader, stage) || HeldBy(Worker(0), stage)
  }

  /** Every goroutine is at a request or a flush that is there, no two at the same, and somebody is at
      every request in hands and at every flush that has begun. */
  predicate Attended(jobs: map<JobId, Job>, batches: map<BatchId, Collector>, tasks: map<Agent, Task>) {
    && (forall g | g in tasks :: Fits(jobs, batches, g, tasks[g]))
    && (forall g, h | g in tasks && h in tasks && tasks[g] == tasks[h] && !tasks[g].Idle? && !tasks[g].Over? :: g == h)
    && (forall j | j in jobs && InHands(jobs[j].stage) :: Has(tasks, Handling(j)))
    && (forall b | b in batches && InFlush(batches[b].flush) :: Has(tasks, Flushing(b)))
  }

  predicate AllAttended(c: Group) {
    Attended(c.inbound.jobs, c.inbound.batches, c.tasks)
  }

  predicate GroupInv(c: Group) {
    && Inv(c.inbound) && AllAttended(c)
    && (c.queueClosed ==> forall g | g in c.tasks :: c.tasks[g].Over?)
    && (c.drained ==> c.queueClosed && c.inbound.callbacks == [] && c.inbound.caller.None?)
  }

  // ------------------------------------------------- what an action touches

  /** The request whose stage the action changes, and the batch whose flush it changes. */
  function JobOf(s: State, a: Action): Option<JobId> {
    match a
    case Admit(_, _) => Some(s.nextJob)
    case Enqueue(j) => Some(j)
    case Refuse(j) => Some(j)
    case AnswerRefused(j, _) => Some(j)
    case Start(j) => Some(j)
    case Return(j, _) => Some(j)
    case Fill(j, _) => Some(j)
    case Write(j, _) => Some(j)
    case End(j) => Some(j)
    case _ => None
  }

  function BatchOf(s: State, a: Action): Option<BatchId>
    requires Enabled(s, a)
  {
    match a
    case OpenBatch(_) => Some(s.nextBatch)
    case AnswerSlot(b, _) => Some(b)
    case AnswerRefused(j, _) => if s.jobs[j].slot.Some? then Some(s.jobs[j].slot.value.0) else None
    case Fill(j, _) => Some(s.jobs[j].slot.value.0)
    case Send(b, _) => Some(b)
    case Retire(b) => Some(b)
    case Hand(b) => Some(b)
    case _ => None
  }

  /** All requests but one keep their stage, all batches but one their flush. */
  predicate Touches(jobs: map<JobId, Job>, batches: map<BatchId, Collector>, jobs': map<JobId, Job>,
                    batches': map<BatchId, Collector>, j: Option<JobId>, b: Option<BatchId>) {
    && jobs.Keys <= jobs'.Keys && batches.Keys <= batches'.Keys
    && (forall i | i in jobs' && j != Some(i) :: i in jobs && jobs'[i].stage == jobs[i].stage)
    && (forall k | k in batches' && b != Some(k) :: k in batches && batches'[k].flush == batches[k].flush)
  }

  /** The goroutine takes over and lets go of what it touches, and of nothing else. */
  predicate Proper(jobs: map<JobId, Job>, batches: map<BatchId, Collector>, jobs': map<JobId, Job>,
                   batches': map<BatchId, Collector>, g: Agent, t: Task, t': Task, j: Option<JobId>, b: Option<BatchId>) {
    && Fits(jobs', batches', g, t')
    && (forall i | i in jobs && InHands(jobs[i].stage) && j == Some(i) :: t == Handling(i))
    && (forall i | i in jobs' && InHands(jobs'[i].stage) && j == Some(i) :: t' == Handling(i))
    && (forall k | k in batches && InFlush(batches[k].flush) && b == Some(k) :: t == Flushing(k))
    && (forall k | k in batches' && InFlush(batches'[k].flush) && b == Some(k) :: t' == Flushing(k))
    && (t != t' && t.Handling? ==> j == Some(t.j))
    && (t != t' && t.Flushing? ==> b == Some(t.b))
    && (t != t' && t'.Handling? ==> j == Some(t'.j))
    && (t != t' && t'.Flushing? ==> b == Some(t'.b))
  }

  lemma OthersFit(jobs: map<JobId, Job>, batches: map<BatchId, Collector>, jobs': map<JobId, Job>,
                  batches': map<BatchId, Collector>, tasks: map<Agent, Task>, g: Agent, t': Task,
                  j: Option<JobId>, b: Option<BatchId>, h: Agent)
    requires Attended(jobs, batches, tasks) && g in tasks && Touches(jobs, batches, jobs', batches', j, b)
    requires Proper(jobs, batches, jobs', batches', g, tasks[g], t', j, b) && h in tasks && h != g
    ensures Fits(jobs', batches', h, tasks[h]) && (tasks[h] == t' ==> t'.Idle? || t'.Over?)
  {
    assert Fits(jobs, batches, h, tasks[h]);
    match tasks[h]
    case Handling(i) => assert InHands(jobs[i].stage);
    case Flushing(k) => assert k in batches && InFlush(batches[k].flush);
    case _ =>
  }

  lemma HandsAttended(jobs: map<JobId, Job>, jobs': map<JobId, Job>, tasks: map<Agent, Task>, g: Agent, t': Task, j: Option<JobId>)
    requires forall i | i in jobs && InHands(jobs[i].stage) :: Has(tasks, Handling(i))
    requires forall i | i in jobs' && j != Some(i) :: i in jobs && jobs'[i].stage == jobs[i].stage
    requires forall i | i in jobs' && InHands(jobs'[i].stage) && j == Some(i) :: t' == Handling(i)
    requires g in tasks && (tasks[g] != t' && tasks[g].Handling? ==> j == Some(tasks[g].j))
    ensures forall i | i in jobs' && InHands(jobs'[i].stage) :: Has(tasks[g := t'], Handling(i))
  {
    forall i | i in jobs' && InHands(jobs'[i].stage) ensures Has(tasks[g := t'], Handling(i)) {
      if j == Some(i) {
        assert tasks[g := t'][g] == Handling(i);
      } else {
        var h :| h in tasks && tasks[h] == Handling(i);
        assert tasks[g := t'][h] == Handling(i);
      }
    }
  }

  lemma FlushesAttended(batches: map<BatchId, Collector>, batches': map<BatchId, Collector>, tasks: map<Agent, Task>, g: Agent,
                        t': Task, b: Option<BatchId>)
    requires forall k | k in batches && InFlush(batches[k].flush) :: Has(tasks, Flushing(k))
    requires forall k | k in batches' && b != Some(k) :: k in batches && batches'[k].flush == batches[k].flush
    requires forall k | k in batches' && InFlush(batches'[k].flush) && b == Some(k) :: t' == Flushing(k)
    requires g in tasks && (tasks[g] != t' && tasks[g].Flushing? ==> b == Some(tasks[g].b))
    ensures forall k | k in batches' && InFlush(batches'[k].flush) :: Has(tasks[g := t'], Flushing(k))
  {
    forall k | k in batches' && InFlush(batches'[k].flush) ensures Has(tasks[g := t'], Flushing(k)) {
      if b == Some(k) {
        assert tasks[g := t'][g] == Flushing(k);
      } else {
        var h :| h in tasks && tasks[h] == Flushing(k);
        assert tasks[g := t'][h] == Flushing(k);
      }
    }
  }

  lemma TaskChanges(jobs: map<JobId, Job>, batches: map<BatchId, Collector>, jobs': map<JobId, Job>,
                    batches': map<BatchId, Collector>, tasks: map<Agent, Task>, g: Agent, t': Task,
                    j: Option<JobId>, b: Option<BatchId>)
    requires Attended(jobs, batches, tasks) && g in tasks && Touches(jobs, batches, jobs', batches', j, b)
    requires Proper(jobs, batches, jobs', batches', g, tasks[g], t', j, b)
    ensures Attended(jobs', batches', tasks[g := t'])
  {
    forall h | h in tasks && h != g ensures Fits(jobs', batches', h, tasks[h]) && (tasks[h] == t' ==> t'.Idle? || t'.Over?) {
      OthersFit(jobs, batches, jobs', batches', tasks, g, t', j, b, h);
    }
    HandsAttended(jobs, jobs', tasks, g, t', j);
    FlushesAttended(batches, batches', tasks, g, t', b);
  }

  // ------------------------------------------------- every action is proper

  /** The action touches one request and one batch at most. */
  predicate Local(s: State, a: Action)
    requires Enabled(s, a)
  {
    Touches(s.jobs, s.batches, Do(s, a).jobs, Do(s, a).batches, JobOf(s, a), BatchOf(s, a))
  }

  /** ... and what its goroutine is at afterwards accounts for both. */
  predicate Accounted(s: State, a: Action, g: Agent, t: Task)
    requires Enabled(s, a)
  {
    && Local(s, a)
    && Proper(s.jobs, s.batches, Do(s, a).jobs, Do(s, a).batches, g, t, After(s, a), JobOf(s, a), BatchOf(s, a))
  }

  /** All requests keep their stage. */
  predicate SameStages(jobs: map<JobId, Job>, jobs': map<JobId, Job>) {
    jobs'.Keys == jobs.Keys && forall i | i in jobs :: jobs'[i].stage == jobs[i].stage
  }

  /** Request j is new or moves to this stage, and the others keep theirs. */
  predicate StageSet(jobs: map<JobId, Job>, jobs': map<JobId, Job>, j: JobId, stage: Stage) {
    && jobs'.Keys == jobs.Keys + {j} && jobs'[j].stage == stage
    && forall i | i in jobs && i != j :: jobs'[i].stage == jobs[i].stage
  }

  lemma RequestProper(jobs: map<JobId, Job>, batches: map<BatchId, Collector>, jobs': map<JobId, Job>, g: Agent, t: Task,
                      t': Task, j: JobId, stage: Stage)
    requires StageSet(jobs, jobs', j, stage) && (t == Handling(j) || (t.Idle? && (j in jobs ==> !InHands(jobs[j].stage))))
    requires if InHands(stage) then t' == Handling(j) && HeldBy(g, stage) else t'.Idle?
    ensures Touches(jobs, batches, jobs', batches, Some(j), None)
    ensures Proper(jobs, batches, jobs', batches, g, t, t', Some(j), None)
  {
  }

  lemma FlushProper(jobs: map<JobId, Job>, batches: map<BatchId, Collector>, jobs': map<JobId, Job>,
                    batches': map<BatchId, Collector>, g: Agent, t: Task, t': Task, b: BatchId)
    requires SameStages(jobs, jobs') && b in batches && b in batches' && batches' == batches[b := batches'[b]]
    requires t == Flushing(b) || (t.Idle? && !InFlush(batches[b].flush))
    requires if InFlush(batches'[b].flush) then t' == Flushing(b) else t'.Idle?
    ensures Touches(jobs, batches, jobs', batches', None, Some(b))
    ensures Proper(jobs, batches, jobs', batches', g, t, t', None, Some(b))
  {
  }

  lemma CompletionProper(jobs: map<JobId, Job>, batches: map<BatchId, Collector>, jobs': map<JobId, Job>,
                         batches': map<BatchId, Collector>, g: Agent, t: Task, t': Task, j: JobId, stage: Stage, b: BatchId)
    requires StageSet(jobs, jobs', j, stage) && t == Handling(j) && !InHands(stage)
    requires b in batches && b in batches' && batches' == batches[b := batches'[b]] && !InFlush(batches[b].flush)
    requires if InFlush(batches'[b].flush) then t' == Flushing(b) else t'.Idle?
    ensures Touches(jobs, batches, jobs', batches', Some(j), Some(b))
    ensures Proper(jobs, batches, jobs', batches', g, t, t', Some(j), Some(b))
  {
  }

  lemma FinishStages(s: State, j: JobId)
    requires j in s.jobs
    ensures SameStages(s.jobs, Finish(s, j).jobs) && Finish(s, j).batches == s.batches
  {
  }

  lemma FinishSets(s: State, j: JobId, stage: Stage)
    requires j in s.jobs
    ensures var t := Finish(SetJob(s, j, s.jobs[j].(stage := stage)), j);
            StageSet(s.jobs, t.jobs, j, stage) && t.batches == s.batches
  {
    FinishStages(SetJob(s, j, s.jobs[j].(stage := stage)), j);
  }

  lemma CompletedFlush(s: State, slot: (BatchId, nat), reply: nat, job: Option<JobId>)
    requires slot.0 in s.batches && s.batches[slot.0].flush.Open?
    ensures var t := CompleteSlot(s, slot, reply, job);
            && t.jobs == s.jobs && t.batches == s.batches[slot.0 := t.batches[slot.0]]
            && (t.batches[slot.0].flush.Open? || t.batches[slot.0].flush.Sending?)
  {
  }

  lemma RetireStages(s: State, b: BatchId)
    requires Enabled(s, Retire(b))
    ensures var t := DoRetire(s, b);
            && SameStages(s.jobs, t.jobs) && b in t.batches && t.batches == s.batches[b := t.batches[b]]
            && (t.batches[b].flush.Retiring? || t.batches[b].flush.Handing?)
  {
    var c := s.batches[b];
    var n, ok := c.flush.next, c.flush.ok;
    if n < |c.slots| && JobAt(s, b, n).Some? && JobAt(s, b, n).value in s.jobs {
      FinishStages(SetBatch(s, b, c.(flush := Retiring(n + 1, ok))), JobAt(s, b, n).value);
    }
  }

  lemma CallbackStages(jobs: map<JobId, Job>, j: JobId, callback: Callback)
    requires j in jobs
    ensures SameStages(jobs, jobs[j := jobs[j].(callback := callback)])
  {
  }

  lemma HandStages(s: State, b: BatchId)
    requires Enabled(s, Hand(b))
    ensures var t := DoHand(s, b);
            && SameStages(s.jobs, t.jobs) && b in t.batches && t.batches == s.batches[b := t.batches[b]]
            && (t.batches[b].flush.Handing? || t.batches[b].flush.Flushed?)
  {
    if Due(s, b).Some? {
      CallbackStages(s.jobs, Due(s, b).value, Waiting);
      CallbackStages(s.jobs, Due(s, b).value, Gone);
    }
  }

  lemma AdmitAccounted(s: State, key: Key, batch: Option<BatchId>, g: Agent, t: Task)
    requires Enabled(s, Admit(key, batch)) && May(g, t, Admit(key, batch)) && s.nextJob !in s.jobs
    ensures Accounted(s, Admit(key, batch), g, t)
  {
  }

  lemma EnqueueAccounted(s: State, j: JobId, g: Agent, t: Task)
    requires Enabled(s, Enqueue(j)) && May(g, t, Enqueue(j))
    ensures Accounted(s, Enqueue(j), g, t)
  {
    RequestProper(s.jobs, s.batches, Do(s, Enqueue(j)).jobs, g, t, After(s, Enqueue(j)), j, Queued);
  }

  lemma RefuseAccounted(s: State, j: JobId, g: Agent, t: Task)
    requires Enabled(s, Refuse(j)) && May(g, t, Refuse(j))
    ensures Accounted(s, Refuse(j), g, t)
  {
    RequestProper(s.jobs, s.batches, Do(s, Refuse(j)).jobs, g, t, After(s, Refuse(j)), j, Refused);
  }

  lemma CallPlainAccounted(s: State, j: JobId, g: Agent, t: Task)
    requires Enabled(s, CallPlain(j)) && May(g, t, CallPlain(j))
    ensures Accounted(s, CallPlain(j), g, t)
  {
  }

  lemma EndAccounted(s: State, j: JobId, g: Agent, t: Task)
    requires Enabled(s, End(j)) && May(g, t, End(j))
    ensures Accounted(s, End(j), g, t)
  {
    FinishSets(s, j, Left);
    RequestProper(s.jobs, s.batches, Do(s, End(j)).jobs, g, t, After(s, End(j)), j, Left);
  }

  lemma StartAccounted(s: State, j: JobId, g: Agent, t: Task)
    requires Enabled(s, Start(j)) && May(g, t, Start(j)) && At(s, j, Queued)
    ensures Accounted(s, Start(j), g, t)
  {
    RequestProper(s.jobs, s.batches, Do(s, Start(j)).jobs, g, t, After(s, Start(j)), j, Running);
  }

  lemma ReturnSets(s: State, j: JobId, succeeded: bool)
    requires At(s, j, Running)
    ensures var t := DoReturn(s, j, succeeded);
            && StageSet(s.jobs, t.jobs, j, if s.jobs[j].slot.Some? then Returned else Answering) && t.batches == s.batches
  {
  }

  lemma ReturnAccounted(s: State, j: JobId, succeeded: bool, g: Agent, t: Task)
    requires Enabled(s, Return(j, succeeded)) && May(g, t, Return(j, succeeded))
    ensures Accounted(s, Return(j, succeeded), g, t)
  {
    ReturnSets(s, j, succeeded);
    RequestProper(s.jobs, s.batches, Do(s, Return(j, succeeded)).jobs, g, t, After(s, Return(j, succeeded)), j,
                  if s.jobs[j].slot.Some? then Returned else Answering);
  }

  lemma WriteAccounted(s: State, j: JobId, ok: bool, g: Agent, t: Task)
    requires Enabled(s, Write(j, ok)) && May(g, t, Write(j, ok))
    ensures Accounted(s, Write(j, ok), g, t)
  {
    if ok { FinishSets(s, j, Committed); }
    RequestProper(s.jobs, s.batches, Do(s, Write(j, ok)).jobs, g, t, After(s, Write(j, ok)), j, if ok then Committed else Failed);
  }

  lemma OpenBatchAccounted(s: State, n: nat, g: Agent, t: Task)
    requires Enabled(s, OpenBatch(n)) && May(g, t, OpenBatch(n)) && s.nextBatch !in s.batches
    ensures Accounted(s, OpenBatch(n), g, t)
  {
  }

  lemma AnswerSlotAccounted(s: State, b: BatchId, reply: nat, g: Agent, t: Task)
    requires Enabled(s, AnswerSlot(b, reply)) && May(g, t, AnswerSlot(b, reply))
             && Takes(s.batches[b], s.batches[b].next) && s.batches[b].flush.Open?
    ensures Accounted(s, AnswerSlot(b, reply), g, t)
  {
  }

  lemma AnswerRefusedAccounted(s: State, j: JobId, reply: nat, g: Agent, t: Task)
    requires Enabled(s, AnswerRefused(j, reply)) && May(g, t, AnswerRefused(j, reply))
             && (s.jobs[j].slot.Some? ==> s.jobs[j].slot.value.0 in s.batches && s.batches[s.jobs[j].slot.value.0].flush.Open?)
    ensures Accounted(s, AnswerRefused(j, reply), g, t)
  {
    var t' := Do(s, AnswerRefused(j, reply));
    if s.jobs[j].slot.Some? {
      var b := s.jobs[j].slot.value.0;
      CompletedFlush(SetJob(s, j, s.jobs[j].(stage := Left)), s.jobs[j].slot.value, reply, None);
      CompletionProper(s.jobs, s.batches, t'.jobs, t'.batches, g, t, After(s, AnswerRefused(j, reply)), j, Left, b);
    } else {
      RequestProper(s.jobs, s.batches, t'.jobs, g, t, Idle, j, Left);
    }
  }

  lemma FillAccounted(s: State, j: JobId, reply: nat, g: Agent, t: Task)
    requires Enabled(s, Fill(j, reply)) && May(g, t, Fill(j, reply))
             && s.batches[s.jobs[j].slot.value.0].flush.Open?
    ensures Accounted(s, Fill(j, reply), g, t)
  {
    var b := s.jobs[j].slot.value.0;
    var t' := Do(s, Fill(j, reply));
    CompletedFlush(SetJob(s, j, s.jobs[j].(stage := Held)), s.jobs[j].slot.value, reply, Some(j));
    CompletionProper(s.jobs, s.batches, t'.jobs, t'.batches, g, t, After(s, Fill(j, reply)), j, Held, b);
  }

  lemma SendAccounted(s: State, b: BatchId, ok: bool, g: Agent, t: Task)
    requires Enabled(s, Send(b, ok)) && May(g, t, Send(b, ok))
    ensures Accounted(s, Send(b, ok), g, t)
  {
  }

  lemma RetireAccounted(s: State, b: BatchId, g: Agent, t: Task)
    requires Enabled(s, Retire(b)) && May(g, t, Retire(b))
    ensures Accounted(s, Retire(b), g, t)
  {
    RetireStages(s, b);
    FlushProper(s.jobs, s.batches, DoRetire(s, b).jobs, DoRetire(s, b).batches, g, t, Flushing(b), b);
  }

  lemma HandAccounted(s: State, b: BatchId, g: Agent, t: Task)
    requires Enabled(s, Hand(b)) && May(g, t, Hand(b))
    ensures Accounted(s, Hand(b), g, t)
  {
    HandStages(s, b);
    FlushProper(s.jobs, s.batches, DoHand(s, b).jobs, DoHand(s, b).batches, g, t, After(s, Hand(b)), b);
  }

  lemma OpenSlot(s: State, a: Action, b: BatchId, k: nat, reply: nat)
    requires JobsOk(s) && BatchesOk(s) && Enabled(s, a) && CompletesSlot(s, a, b, k, reply)
    ensures b in s.batches && k < |s.batches[b].slots| && Takes(s.batches[b], k) && s.batches[b].flush.Open?
  {
    SlotIsFree(s, a, b, k, reply);
    assert BatchOk(s.jobs, b, s.batches[b]);
  }

  lemma CompletionAccounted(s: State, a: Action, g: Agent, t: Task)
    requires JobsOk(s) && BatchesOk(s) && Enabled(s, a) && May(g, t, a)
    requires a.OpenBatch? || a.AnswerSlot? || a.AnswerRefused? || a.Fill?
    ensures Accounted(s, a, g, t)
  {
    match a
    case OpenBatch(n) => OpenBatchAccounted(s, n, g, t);
    case AnswerSlot(b, reply) =>
      OpenSlot(s, a, b, s.batches[b].next, reply);
      AnswerSlotAccounted(s, b, reply, g, t);
    case AnswerRefused(j, reply) =>
      if s.jobs[j].slot.Some? { OpenSlot(s, a, s.jobs[j].slot.value.0, s.jobs[j].slot.value.1, reply); }
      AnswerRefusedAccounted(s, j, reply, g, t);
    case Fill(j, reply) =>
      OpenSlot(s, a, s.jobs[j].slot.value.0, s.jobs[j].slot.value.1, reply);
      FillAccounted(s, j, reply, g, t);
  }

  lemma RequestAccounted(s: State, a: Action, g: Agent, t: Task)
    requires JobsOk(s) && InboundInvariant.QueueOk(s) && Enabled(s, a) && May(g, t, a)
    requires a.Admit? || a.Enqueue? || a.Refuse? || a.Start? || a.Return? || a.Write? || a.CallPlain? || a.End?
    ensures Accounted(s, a, g, t)
  {
    match a
    case Admit(key, batch) => AdmitAccounted(s, key, batch, g, t);
    case Enqueue(j) => EnqueueAccounted(s, j, g, t);
    case Refuse(j) => RefuseAccounted(s, j, g, t);
    case Start(j) => StartAccounted(s, j, g, t);
    case Return(j, succeeded) => ReturnAccounted(s, j, succeeded, g, t);
    case Write(j, ok) => WriteAccounted(s, j, ok, g, t);
    case CallPlain(j) => CallPlainAccounted(s, j, g, t);
    case End(j) => EndAccounted(s, j, g, t);
  }

  lemma FlushAccounted(s: State, a: Action, g: Agent, t: Task)
    requires Enabled(s, a) && May(g, t, a) && (a.Send? || a.Retire? || a.Hand?)
    ensures Accounted(s, a, g, t)
  {
    match a
    case Send(b, ok) => SendAccounted(s, b, ok, g, t);
    case Retire(b) => RetireAccounted(s, b, g, t);
    case Hand(b) => HandAccounted(s, b, g, t);
  }

  lemma ActionAccounted(s: State, a: Action, g: Agent, t: Task)
    requires JobsOk(s) && BatchesOk(s) && InboundInvariant.QueueOk(s) && Enabled(s, a) && May(g, t, a)
    ensures Accounted(s, a, g, t)
  {
    if a.Send? || a.Retire? || a.Hand? {
      FlushAccounted(s, a, g, t);
    } else if a.OpenBatch? || a.AnswerSlot? || a.AnswerRefused? || a.Fill? {
      CompletionAccounted(s, a, g, t);
    } else {
      RequestAccounted(s, a, g, t);
    }
  }

  // ------------------------------------------------- every step, every run

  lemma ByKeeps(c: Group, g: Agent, a: Action)
    requires GroupInv(c) && Can(c, By(g, a))
    ensures GroupInv(Next(c, By(g, a)))
  {
    ActionKeeps(c.inbound, a);
    ActionAccounted(c.inbound, a, g, c.tasks[g]);
    var t := Do(c.inbound, a);
    TaskChanges(c.inbound.jobs, c.inbound.batches, t.jobs, t.batches, c.tasks, g, After(c.inbound, a),
                JobOf(c.inbound, a), BatchOf(c.inbound, a));
  }

  lemma OutsideStages(s: State, a: Action)
    requires Enabled(s, a) && IsOutside(a)
    requires CallbacksOk(s.jobs, s.callbacks, s.caller)
    ensures SameStages(s.jobs, Do(s, a).jobs) && Do(s, a).batches == s.batches
  {
    match a
    case Register(j) => CallbackStages(s.jobs, j, Registered);
    case Call => CallbackStages(s.jobs, s.callbacks[0], Calling);
    case Called => CallbackStages(s.jobs, s.caller.value, Gone);
    case Close =>
  }

  lemma OutsideAddsNone(s: State, a: Action)
    requires Enabled(s, a) && IsOutside(a) && s.callbacks == [] && s.caller.None?
    ensures Do(s, a).callbacks == [] && Do(s, a).caller.None?
  {
  }

  lemma OutsideKeeps(c: Group, a: Action)
    requires GroupInv(c) && Can(c, Outside(a))
    ensures GroupInv(Next(c, Outside(a)))
  {
    ActionKeeps(c.inbound, a);
    OutsideStages(c.inbound, a);
    SameAttended(c.inbound.jobs, Do(c.inbound, a).jobs, c.inbound.batches, c.tasks);
    if c.drained { OutsideAddsNone(c.inbound, a); }
  }

  lemma SameAttended(jobs: map<JobId, Job>, jobs': map<JobId, Job>, batches: map<BatchId, Collector>, tasks: map<Agent, Task>)
    requires Attended(jobs, batches, tasks) && SameStages(jobs, jobs')
    ensures Attended(jobs', batches, tasks)
  {
    forall g | g in tasks ensures Fits(jobs', batches, g, tasks[g]) {
      assert Fits(jobs, batches, g, tasks[g]);
    }
  }

  lemma LeaveKeeps(c: Group, g: Agent)
    requires GroupInv(c) && Can(c, Leave(g))
    ensures GroupInv(Next(c, Leave(g)))
  {
    TaskChanges(c.inbound.jobs, c.inbound.batches, c.inbound.jobs, c.inbound.batches, c.tasks, g, Over, None, None);
  }

  lemma StepKeeps(c: Group, s: Step)
    requires GroupInv(c) && Can(c, s)
    ensures GroupInv(Next(c, s))
  {
    match s
    case By(g, a) => ByKeeps(c, g, a);
    case Outside(a) => OutsideKeeps(c, a);
    case Leave(g) => LeaveKeeps(c, g);
    case CloseQueue =>
    case EndCallbacks =>
  }

  lemma BeginInv(limit: nat, queueLimit: nat, workers: nat)
    ensures GroupInv(Begin(limit, queueLimit, workers))
  {
    InitialInv(limit, queueLimit);
  }

  /** In every state of every run each request in hands is at exactly one goroutine, the reader or a
      worker as its stage says; each flush that has begun is done by exactly one; and no goroutine is
      at anything else. */
  lemma {:induction false} RunAttended(states: seq<Group>, steps: seq<Step>, workers: nat, i: nat)
    requires IsRun(states, steps, workers) && i < |states|
    ensures GroupInv(states[i])
    decreases i
  {
    if i == 0 {
      BeginInv(states[0].inbound.limit, states[0].inbound.queueLimit, workers);
    } else {
      RunAttended(states, steps, workers, i - 1);
      StepKeeps(states[i - 1], steps[i - 1]);
    }
  }

  // ------------------------------------------------- nothing waits for a goroutine that is gone

  /** An action that goes on with something already begun. */
  predicate GoesOn(a: Action) {
    !IsOutside(a) && !a.OpenBatch? && !a.AnswerSlot? && !a.Admit? && !a.Start?
  }

  predicate SomebodyMay(tasks: map<Agent, Task>, a: Action) {
    exists g :: g in tasks && May(g, tasks[g], a)
  }

  lemma AtRequest(c: Group, j: JobId, a: Action)
    requires AllAttended(c) && j in c.inbound.jobs && InHands(c.inbound.jobs[j].stage)
    requires forall g | HeldBy(g, c.inbound.jobs[j].stage) :: May(g, Handling(j), a)
    ensures SomebodyMay(c.tasks, a)
  {
    assert Has(c.tasks, Handling(j));
    var g :| g in c.tasks && c.tasks[g] == Handling(j);
    assert Fits(c.inbound.jobs, c.inbound.batches, g, c.tasks[g]);
  }

  lemma AtFlush(c: Group, b: BatchId, a: Action)
    requires AllAttended(c) && b in c.inbound.batches && InFlush(c.inbound.batches[b].flush)
    requires forall g :: May(g, Flushing(b), a)
    ensures SomebodyMay(c.tasks, a)
  {
    assert Has(c.tasks, Flushing(b));
  }

  lemma ReaderAttends(c: Group, a: Action)
    requires AllAttended(c) && Enabled(c.inbound, a) && (a.Enqueue? || a.Refuse? || a.AnswerRefused?)
    ensures SomebodyMay(c.tasks, a)
  {
    AtRequest(c, a.j, a);
  }

  lemma WorkerAttends(c: Group, a: Action)
    requires AllAttended(c) && Enabled(c.inbound, a) && (a.Return? || a.Fill? || a.Write? || a.CallPlain? || a.End?)
    ensures SomebodyMay(c.tasks, a)
  {
    AtRequest(c, a.j, a);
  }

  lemma FlusherAttends(c: Group, a: Action)
    requires AllAttended(c) && Enabled(c.inbound, a) && (a.Send? || a.Retire? || a.Hand?)
    ensures SomebodyMay(c.tasks, a)
  {
    AtFlush(c, a.b, a);
  }

  lemma Attends(c: Group, a: Action)
    requires AllAttended(c) && Enabled(c.inbound, a) && GoesOn(a)
    ensures SomebodyMay(c.tasks, a)
  {
    if a.Enqueue? || a.Refuse? || a.AnswerRefused? {
      ReaderAttends(c, a);
    } else if a.Send? || a.Retire? || a.Hand? {
      FlusherAttends(c, a);
    } else {
      WorkerAttends(c, a);
    }
  }

  /** In every run, whatever has been begun has a goroutine that is about to go on with it: a worker
      or the reader never ends in the middle of a request or of a flush. */
  lemma NothingAbandoned(states: seq<Group>, steps: seq<Step>, workers: nat, i: nat, a: Action)
    requires IsRun(states, steps, workers) && i < |states|
    requires Enabled(states[i].inbound, a) && GoesOn(a)
    ensures exists g :: Can(states[i], By(g, a))
  {
    RunAttended(states, steps, workers, i);
    Attends(states[i], a);
    var g :| g in states[i].tasks && May(g, states[i].tasks[g], a);
    assert Can(states[i], By(g, a));
  }

  // ------------------------------------------------- the closed queue

  lemma ClosedIsQuiet(c: Group)
    requires AllAttended(c) && forall g | g in c.tasks :: c.tasks[g].Over?
    ensures forall j | j in c.inbound.jobs :: !InHands(c.inbound.jobs[j].stage)
    ensures forall b | b in c.inbound.batches :: !InFlush(c.inbound.batches[b].flush)
  {
    forall j | j in c.inbound.jobs ensures !InHands(c.inbound.jobs[j].stage) {
      assert !Has(c.tasks, Handling(j));
    }
    forall b | b in c.inbound.batches ensures !InFlush(c.inbound.batches[b].flush) {
      assert !Has(c.tasks, Flushing(b));
    }
  }

  lemma ClosedMeansOver(c: Group)
    requires AllAttended(c) && forall g | g in c.tasks :: c.tasks[g].Over?
    ensures forall b | b in c.inbound.batches :: c.inbound.batches[b].flush.Open? || c.inbound.batches[b].flush.Flushed?
    ensures forall b :: !Enabled(c.inbound, Hand(b))
    ensures forall g, a :: !Can(c, By(g, a))
  {
    ClosedIsQuiet(c);
    forall b | b in c.inbound.batches ensures c.inbound.batches[b].flush.Open? || c.inbound.batches[b].flush.Flushed? {
      assert !InFlush(c.inbound.batches[b].flush);
    }
    forall g, a ensures !Can(c, By(g, a)) {
      assert !May(g, Over, a);
    }
  }

  lemma {:induction false} StaysClosed(states: seq<Group>, steps: seq<Step>, workers: nat, i: nat, k: nat)
    requires IsRun(states, steps, workers) && i <= k < |states|
    ensures states[i].queueClosed ==> states[k].queueClosed
    ensures states[i].drained ==> states[k].drained
    decreases k
  {
    if i < k { StaysClosed(states, steps, workers, i, k - 1); }
  }

  /** No run sends on the closed callback queue: once it is closed no collector is being flushed, so
      nothing is there to be passed on, and neither the reader nor a worker does anything any more. */
  lemma NoSendOnClosedQueue(states: seq<Group>, steps: seq<Step>, workers: nat, i: nat, k: nat)
    requires IsRun(states, steps, workers) && i <= k < |states| && states[i].queueClosed
    ensures forall b | b in states[k].inbound.batches ::
              states[k].inbound.batches[b].flush.Open? || states[k].inbound.batches[b].flush.Flushed?
    ensures forall b :: !Enabled(states[k].inbound, Hand(b))
    ensures k < |steps| ==> !steps[k].By?
  {
    RunAttended(states, steps, workers, k);
    StaysClosed(states, steps, workers, i, k);
    ClosedMeansOver(states[k]);
  }

  /** When the connection's Wait returns, no callback is queued or running, and the only tokens out
      are those of callbacks in collectors that were never completed. */
  lemma OnlyUnfinishedBatchesKeepTokens(states: seq<Group>, steps: seq<Step>, workers: nat, i: nat, j: JobId)
    requires IsRun(states, steps, workers) && i < |states| && states[i].drained
    requires j in states[i].inbound.jobs && HasToken(states[i].inbound.jobs[j])
    ensures states[i].inbound.jobs[j].callback == Sealed && states[i].inbound.jobs[j].slot.value.0 in states[i].inbound.batches
    ensures states[i].inbound.batches[states[i].inbound.jobs[j].slot.value.0].flush.Open?
  {
    RunAttended(states, steps, workers, i);
    ClosedIsQuiet(states[i]);
    UnfinishedToken(states[i].inbound, j);
  }

  lemma UnfinishedToken(s: State, j: JobId)
    requires JobsOk(s) && CallbacksOk(s.jobs, s.callbacks, s.caller) && s.callbacks == [] && s.caller.None?
    requires j in s.jobs && HasToken(s.jobs[j]) && !InHands(s.jobs[j].stage)
    requires forall b | b in s.batches :: !InFlush(s.batches[b].flush)
    ensures s.jobs[j].callback == Sealed && s.jobs[j].slot.value.0 in s.batches
    ensures s.batches[s.jobs[j].slot.value.0].flush.Open?
  {
    assert StageOk(s.jobs[j]) && LinkOk(s.batches, j, s.jobs[j]);
    assert !InFlush(s.batches[s.jobs[j].slot.value.0].flush);
  }

  // ------------------------------------------------- what was passed on is called

  predicate IsWaiting(s: State, j: JobId) {
    j in s.jobs && s.jobs[j].callback == Waiting
  }

  predicate CallsIt(c: Group, s: Step, j: JobId) {
    s == Outside(Call) && c.inbound.callbacks != [] && c.inbound.callbacks[0] == j
  }

  predicate AnswersRequest(a: Action) {
    a.AnswerRefused? || a.Return? || a.Fill? || a.Write? || a.End?
  }

  lemma CompletionSparesWaiting(s: State, a: Action, j: JobId)
    requires Enabled(s, a) && (a.AnswerRefused? || a.Fill?) && IsWaiting(s, j) && s.jobs[j].stage.Held?
    ensures IsWaiting(Do(s, a), j)
  {
  }

  lemma ReturnSparesWaiting(s: State, a: Action, j: JobId)
    requires Enabled(s, a) && a.Return? && IsWaiting(s, j) && s.jobs[j].stage.Held?
    ensures IsWaiting(Do(s, a), j)
  {
  }

  lemma ReplySparesWaiting(s: State, a: Action, j: JobId)
    requires Enabled(s, a) && (a.Write? || a.End?) && IsWaiting(s, j) && s.jobs[j].stage.Held?
    ensures IsWaiting(Do(s, a), j)
  {
  }

  lemma FlushSparesWaiting(s: State, b: BatchId, j: JobId)
    requires IsWaiting(s, j)
    ensures Enabled(s, Retire(b)) ==> IsWaiting(DoRetire(s, b), j)
    ensures Enabled(s, Hand(b)) ==> IsWaiting(DoHand(s, b), j)
  {
  }

  lemma OthersSpareWaiting(s: State, a: Action, j: JobId)
    requires Enabled(s, a) && !AnswersRequest(a) && !a.Retire? && !a.Hand?
    requires IsWaiting(s, j) && s.jobs[j].stage.Held? && s.nextJob !in s.jobs && s.caller != Some(j)
    requires a == Call ==> s.callbacks[0] != j
    ensures IsWaiting(Do(s, a), j)
  {
  }

  lemma WaitingStays(s: State, a: Action, j: JobId)
    requires JobsOk(s) && CallbacksOk(s.jobs, s.callbacks, s.caller) && Enabled(s, a) && IsWaiting(s, j)
    requires a == Call ==> s.callbacks[0] != j
    ensures IsWaiting(Do(s, a), j)
  {
    assert StageOk(s.jobs[j]);
    if a.AnswerRefused? || a.Fill? {
      CompletionSparesWaiting(s, a, j);
    } else if a.Return? {
      ReturnSparesWaiting(s, a, j);
    } else if a.Write? || a.End? {
      ReplySparesWaiting(s, a, j);
    } else if a.Retire? || a.Hand? {
      FlushSparesWaiting(s, a.b, j);
    } else {
      OthersSpareWaiting(s, a, j);
    }
  }

  lemma StepSparesWaiting(c: Group, s: Step, j: JobId)
    requires GroupInv(c) && Can(c, s) && IsWaiting(c.inbound, j) && !IsWaiting(Next(c, s).inbound, j)
    ensures CallsIt(c, s, j)
  {
    if !CallsIt(c, s, j) && (s.By? || s.Outside?) {
      WaitingStays(c.inbound, s.a, j);
    }
  }

  lemma DrainedWaitsForNone(c: Group, j: JobId)
    requires GroupInv(c) && c.drained
    ensures !IsWaiting(c.inbound, j)
  {
  }

  /** A callback that was passed on has been called when the connection's Wait returns. */
  lemma CalledBeforeWaitReturns(states: seq<Group>, steps: seq<Step>, workers: nat, i: nat, k: nat, j: JobId)
    requires IsRun(states, steps, workers) && i <= k < |states| && IsWaiting(states[i].inbound, j) && states[k].drained
    ensures exists m :: i <= m < k && CallsIt(states[m], steps[m], j)
  {
    RunAttended(states, steps, workers, k);
    DrainedWaitsForNone(states[k], j);
    var flags := seq(|states|, m requires 0 <= m < |states| => IsWaiting(states[m].inbound, j));
    var m := Flags.WentDown(flags, i, k);
    GroupPair(states, steps, workers, m);
    StepSparesWaiting(states[m], steps[m], j);
  }

  lemma GroupPair(states: seq<Group>, steps: seq<Step>, workers: nat, i: nat)
    requires IsRun(states, steps, workers) && i < |steps|
    ensures GroupInv(states[i]) && Can(states[i], steps[i]) && states[i + 1] == Next(states[i], steps[i])
  {
    RunAttended(states, steps, workers, i);
  }
}
