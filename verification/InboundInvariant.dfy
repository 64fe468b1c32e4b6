/** The invariant of the inbound side, and that every action keeps it. */
module InboundInvariant {
  import opened Results
  import opened Inbound

  // ------------------------------------------------- the clauses

  /** What a request's stage says about its guard and its callback. */
  predicate StageOk(job: Job) {
    && (Owes(job) && !job.stage.Refused? ==> !job.finished)
    && (job.stage.Answering? || job.stage.Failed? ==> !job.finished)
    && (job.stage.Refused? || job.stage.Committed? || job.stage.Left? ==> job.finished)
    && (job.stage.Returned? || job.stage.Held? ==> job.slot.Some?)
    && (job.stage.Answering? || job.stage.Committed? || job.stage.Failed? ==> job.slot.None?)
    && (job.stage.Admitted? || job.stage.Queued? || job.stage.Refused? ==> job.callback == NoCallback)
    && (job.callback == Registered ==> job.stage.Running?)
    && (job.callback == Sealed ==> job.succeeded && !job.stage.Running?)
    && (job.callback == Waiting || job.callback == Calling ==> job.stage.Held? && job.succeeded)
    && (job.stage.Left? && job.slot.Some? ==> job.callback == NoCallback)
  }

  /** The slot is still to be filled by this request. */
  predicate Owes(job: Job) {
    job.stage.Admitted? || job.stage.Queued? || job.stage.Running? || job.stage.Returned? || job.stage.Refused?
  }

  /** The retiring loop of the flush has passed position k; so has the callback loop. */
  predicate Retired(f: Flush, k: nat) {
    (f.Retiring? && k < f.next) || f.Handing? || f.Flushed?
  }

  predicate Handed(f: Flush, k: nat) {
    (f.Handing? && k < f.next) || f.Flushed?
  }

  predicate HeldOk(job: Job, f: Flush, k: nat) {
    && (job.finished <==> Retired(f, k))
    && (job.callback == Sealed ==> !Handed(f, k))
    && (job.callback == Waiting || job.callback == Calling ==> Handed(f, k) && f.ok)
  }

  /** A request of a batch owes its slot, or is held there, or was refused into it. */
  predicate LinkOk(batches: map<BatchId, Collector>, j: JobId, job: Job) {
    job.slot.Some? ==>
      var b, k := job.slot.value.0, job.slot.value.1;
      && b in batches && k < batches[b].next <= |batches[b].slots|
      && (Owes(job) ==> batches[b].slots[k].Empty?)
      && (job.stage.Held? ==> batches[b].slots[k].Filled? && batches[b].slots[k].job == Some(j) && HeldOk(job, batches[b].flush, k))
  }

  predicate FillOk(jobs: map<JobId, Job>, b: BatchId, k: nat, f: Fill) {
    f.Filled? && f.job.Some? ==>
      f.job.value in jobs && jobs[f.job.value].slot == Some((b, k)) && jobs[f.job.value].stage.Held?
  }

  predicate BatchOk(jobs: map<JobId, Job>, b: BatchId, c: Collector) {
    && c.next <= |c.slots|
    && (forall k | c.next <= k < |c.slots| :: c.slots[k].Empty?)
    && (forall k | 0 <= k < |c.slots| :: FillOk(jobs, b, k, c.slots[k]))
    && c.remaining == Missing(c.slots)
    && (c.flush.Open? <==> c.remaining > 0)
    && (c.flush.Retiring? || c.flush.Handing? ==> c.flush.next <= |c.slots|)
  }

  /** The id table reserves exactly the keys of the unfinished requests. */
  predicate ReservationsOk(inflight: map<Key, JobId>, jobs: map<JobId, Job>) {
    && (forall j | j in jobs :: !jobs[j].finished <==> jobs[j].key in inflight && inflight[jobs[j].key] == j)
    && (forall key | key in inflight :: inflight[key] in jobs && jobs[inflight[key]].key == key)
  }

  predicate JobsOk(s: State) {
    forall j | j in s.jobs :: j < s.nextJob && StageOk(s.jobs[j]) && LinkOk(s.batches, j, s.jobs[j])
  }

  predicate BatchesOk(s: State) {
    forall b | b in s.batches :: b < s.nextBatch && BatchOk(s.jobs, b, s.batches[b])
  }

  /** No slot was given to two requests. */
  predicate SlotsUnique(jobs: map<JobId, Job>) {
    forall i, j | i in jobs && j in jobs && jobs[i].slot.Some? && jobs[i].slot == jobs[j].slot :: i == j
  }

  predicate QueueOk(s: State) {
    && |s.queue| <= s.queueLimit
    && (forall i | 0 <= i < |s.queue| :: At(s, s.queue[i], Queued))
    && (forall i, k | 0 <= i < k < |s.queue| :: s.queue[i] != s.queue[k])
  }

  /** The callback queue holds exactly the waiting requests, and the worker has the one it calls. */
  predicate CallbacksOk(jobs: map<JobId, Job>, callbacks: seq<JobId>, caller: Option<JobId>) {
    && (forall i | 0 <= i < |callbacks| :: callbacks[i] in jobs && jobs[callbacks[i]].callback == Waiting)
    && (forall i, k | 0 <= i < k < |callbacks| :: callbacks[i] != callbacks[k])
    && (forall j | j in jobs && jobs[j].callback == Waiting :: j in callbacks)
    && (forall j | j in jobs :: jobs[j].callback == Calling <==> caller == Some(j))
    && (caller.Some? ==> caller.value in jobs)
  }

  predicate TokensOk(s: State) {
    s.tokens == |Tokened(s.jobs)| <= s.limit
  }

  predicate Inv(s: State) {
    && ReservationsOk(s.inflight, s.jobs)
    && JobsOk(s) && BatchesOk(s) && SlotsUnique(s.jobs)
    && QueueOk(s) && CallbacksOk(s.jobs, s.callbacks, s.caller) && TokensOk(s)
  }

  lemma InitialInv(limit: nat, queueLimit: nat)
    ensures Inv(Initial(limit, queueLimit))
  {
    assert Tokened(map[]) == {};
  }

  // ------------------------------------------------- tools

  lemma TokenSame(jobs: map<JobId, Job>, j: JobId, job: Job)
    requires j in jobs && (HasToken(job) <==> HasToken(jobs[j]))
    ensures Tokened(jobs[j := job]) == Tokened(jobs)
  {
  }

  lemma TokenTaken(jobs: map<JobId, Job>, j: JobId, job: Job)
    requires j in jobs && HasToken(job) && !HasToken(jobs[j])
    ensures |Tokened(jobs[j := job])| == |Tokened(jobs)| + 1
  {
    assert Tokened(jobs[j := job]) == Tokened(jobs) + {j};
  }

  lemma TokenGiven(jobs: map<JobId, Job>, j: JobId, job: Job)
    requires j in jobs && !HasToken(job) && HasToken(jobs[j])
    ensures |Tokened(jobs)| > 0 && |Tokened(jobs[j := job])| == |Tokened(jobs)| - 1
  {
    assert Tokened(jobs) == Tokened(jobs[j := job]) + {j};
  }

  /** A request changes, but not its key, its slot or whether it is held. */
  predicate JobStep(job: Job, job': Job) {
    job'.key == job.key && job'.slot == job.slot && (job.stage.Held? ==> job'.stage.Held?)
  }

  lemma JobMoves(s: State, j: JobId, job': Job)
    requires JobsOk(s) && BatchesOk(s) && SlotsUnique(s.jobs) && j in s.jobs && JobStep(s.jobs[j], job')
    requires StageOk(job') && LinkOk(s.batches, j, job')
    ensures JobsOk(SetJob(s, j, job')) && BatchesOk(SetJob(s, j, job')) && SlotsUnique(SetJob(s, j, job').jobs)
  {
    var t := SetJob(s, j, job');
    forall b | b in t.batches ensures BatchOk(t.jobs, b, t.batches[b]) {
      BatchKept(s.jobs, t.jobs, b, s.batches[b]);
    }
  }

  lemma BatchKept(jobs: map<JobId, Job>, jobs': map<JobId, Job>, b: BatchId, c: Collector)
    requires BatchOk(jobs, b, c) && jobs.Keys <= jobs'.Keys
    requires forall j | j in jobs :: jobs'[j].slot == jobs[j].slot && (jobs[j].stage.Held? ==> jobs'[j].stage.Held?)
    ensures BatchOk(jobs', b, c)
  {
    forall k | 0 <= k < |c.slots| ensures FillOk(jobs', b, k, c.slots[k]) {
      assert FillOk(jobs, b, k, c.slots[k]);
    }
  }

  lemma QueueKept(s: State, t: State, j: JobId)
    requires QueueOk(s) && t.queue == s.queue && t.queueLimit == s.queueLimit && j in s.jobs && !s.jobs[j].stage.Queued?
    requires j in t.jobs && t.jobs == s.jobs[j := t.jobs[j]]
    ensures QueueOk(t)
  {
    forall i | 0 <= i < |t.queue| ensures At(t, t.queue[i], Queued) {
      assert At(s, s.queue[i], Queued);
    }
  }

  lemma CallbacksKept(s: State, j: JobId, job': Job)
    requires CallbacksOk(s.jobs, s.callbacks, s.caller) && j in s.jobs
    requires s.jobs[j].callback != Waiting && s.jobs[j].callback != Calling
    requires job'.callback != Waiting && job'.callback != Calling
    ensures CallbacksOk(s.jobs[j := job'], s.callbacks, s.caller)
  {
    forall i | 0 <= i < |s.callbacks|
      ensures s.callbacks[i] in s.jobs && s.callbacks[i] != j && s.jobs[s.callbacks[i]].callback == Waiting
    {
    }
  }

  lemma ReservationKept(inflight: map<Key, JobId>, jobs: map<JobId, Job>, j: JobId, job': Job)
    requires ReservationsOk(inflight, jobs) && j in jobs && job'.key == jobs[j].key && job'.finished == jobs[j].finished
    ensures ReservationsOk(inflight, jobs[j := job'])
  {
  }

  /** The first finish of a request removes its own reservation and no other. */
  lemma FinishReservations(inflight: map<Key, JobId>, jobs: map<JobId, Job>, j: JobId, job': Job)
    requires ReservationsOk(inflight, jobs) && j in jobs && !jobs[j].finished
    requires job'.key == jobs[j].key && job'.finished
    ensures ReservationsOk(inflight - {jobs[j].key}, jobs[j := job'])
  {
  }

  // ------------------------------------------------- collectors

  lemma {:induction false} MissingUpdate(slots: seq<Inbound.Fill>, k: nat, f: Inbound.Fill)
    requires k < |slots| && slots[k].Empty? && f.Filled?
    ensures Missing(slots) > 0 && Missing(slots[k := f]) == Missing(slots) - 1
    decreases |slots|
  {
    var n := |slots| - 1;
    if k == n {
      assert slots[k := f][..n] == slots[..n];
    } else {
      MissingUpdate(slots[..n], k, f);
      assert slots[k := f][..n] == slots[..n][k := f];
    }
  }

  lemma {:induction false} MissingZero(slots: seq<Inbound.Fill>)
    ensures Missing(slots) == 0 <==> forall k | 0 <= k < |slots| :: slots[k].Filled?
  {
    if slots != [] {
      var n := |slots| - 1;
      MissingZero(slots[..n]);
      if forall k | 0 <= k < n :: slots[..n][k].Filled? {
        assert forall k | 0 <= k < n :: slots[k] == slots[..n][k];
      } else {
        var k :| 0 <= k < n && slots[..n][k].Empty?;
        assert slots[k].Empty?;
      }
    }
  }

  lemma {:induction false} MissingAll(n: nat)
    ensures Missing(seq(n, i => Empty)) == n
  {
    if n > 0 {
      MissingAll(n - 1);
      assert seq(n, i => Empty)[..n - 1] == seq(n - 1, i => Empty);
    }
  }

  lemma OpenBatches(s: State, n: nat)
    requires BatchesOk(s) && n > 0
    ensures BatchesOk(Do(s, OpenBatch(n)))
  {
    MissingAll(n);
  }

  lemma OpenBatchKeeps(s: State, n: nat)
    requires Inv(s) && n > 0
    ensures Inv(Do(s, OpenBatch(n)))
  {
    var t := Do(s, OpenBatch(n));
    forall j | j in t.jobs ensures LinkOk(t.batches, j, t.jobs[j]) {
      assert LinkOk(s.batches, j, s.jobs[j]);
    }
    OpenBatches(s, n);
  }

  /** What filling an empty slot does to the collector itself. */
  lemma CompleteIs(c: Collector, k: nat, reply: nat, job: Option<JobId>)
    requires k < |c.slots| && c.slots[k].Empty? && c.remaining == Missing(c.slots)
    requires c.flush.Open? <==> c.remaining > 0
    ensures var d := Complete(c, k, reply, job);
            && d.slots == c.slots[k := Filled(reply, job)] && d.next == c.next
            && d.remaining == c.remaining - 1 == Missing(d.slots)
            && d.flush == if d.remaining == 0 then Sending else Open
  {
    MissingUpdate(c.slots, k, Filled(reply, job));
  }

  lemma CompleteLinks(s: State, b: BatchId, c': Collector, k: nat)
    requires JobsOk(s) && b in s.batches && k < |s.batches[b].slots| && s.batches[b].slots[k].Empty?
    requires |c'.slots| == |s.batches[b].slots| && c'.next >= s.batches[b].next && c'.next <= |c'.slots|
    requires forall i | 0 <= i < |c'.slots| && i != k :: c'.slots[i] == s.batches[b].slots[i]
    requires s.batches[b].flush.Open? && (c'.flush.Open? || c'.flush.Sending?)
    requires forall j | j in s.jobs && s.jobs[j].slot == Some((b, k)) :: !Owes(s.jobs[j])
    ensures JobsOk(SetBatch(s, b, c'))
  {
    forall j | j in s.jobs ensures LinkOk(SetBatch(s, b, c').batches, j, s.jobs[j]) {
      assert LinkOk(s.batches, j, s.jobs[j]);
      if s.jobs[j].slot.Some? && s.jobs[j].slot.value.0 == b && s.jobs[j].stage.Held? {
        var i := s.jobs[j].slot.value.1;
        assert s.batches[b].slots[i].Filled?;
        assert c'.slots[i] == s.batches[b].slots[i];
      }
    }
  }

  /** Filling a slot whose owner, if any, no longer owes it. */
  lemma CompleteKeeps(s: State, b: BatchId, k: nat, reply: nat)
    requires JobsOk(s) && BatchesOk(s) && b in s.batches
    requires k < s.batches[b].next && s.batches[b].slots[k].Empty?
    requires forall j | j in s.jobs && s.jobs[j].slot == Some((b, k)) :: !Owes(s.jobs[j])
    ensures JobsOk(CompleteSlot(s, (b, k), reply, None)) && BatchesOk(CompleteSlot(s, (b, k), reply, None))
  {
    var c := s.batches[b];
    MissingZero(c.slots);
    CompleteIs(c, k, reply, None);
    CompleteLinks(s, b, Complete(c, k, reply, None), k);
  }

  lemma AnswerSlotBatch(s: State, b: BatchId, reply: nat)
    requires BatchesOk(s) && Enabled(s, AnswerSlot(b, reply))
    ensures var c := s.batches[b]; var c' := Complete(c, c.next, reply, None).(next := c.next + 1);
            && c.slots[c.next].Empty? && c.flush.Open? && BatchOk(s.jobs, b, c') && (c'.flush.Open? || c'.flush.Sending?)
            && c'.slots == c.slots[c.next := Filled(reply, None)]
  {
    var c := s.batches[b];
    assert BatchOk(s.jobs, b, c);
    MissingZero(c.slots);
    CompleteIs(c, c.next, reply, None);
  }

  lemma AnswerSlotCore(s: State, b: BatchId, reply: nat)
    requires JobsOk(s) && BatchesOk(s) && Enabled(s, AnswerSlot(b, reply))
    ensures var c := s.batches[b]; var t := SetBatch(s, b, Complete(c, c.next, reply, None).(next := c.next + 1));
            JobsOk(t) && BatchesOk(t)
  {
    var c := s.batches[b];
    var c' := Complete(c, c.next, reply, None).(next := c.next + 1);
    forall j | j in s.jobs ensures s.jobs[j].slot != Some((b, c.next)) {
      assert LinkOk(s.batches, j, s.jobs[j]);
    }
    AnswerSlotBatch(s, b, reply);
    CompleteLinks(s, b, c', c.next);
  }

  lemma AnswerSlotKeeps(s: State, b: BatchId, reply: nat)
    requires Inv(s) && Enabled(s, AnswerSlot(b, reply))
    ensures Inv(Do(s, AnswerSlot(b, reply)))
  {
    AnswerSlotCore(s, b, reply);
    QueueSame(s, Do(s, AnswerSlot(b, reply)));
  }

  lemma QueueSame(s: State, t: State)
    requires QueueOk(s) && t.queue == s.queue && t.queueLimit == s.queueLimit && t.jobs == s.jobs
    ensures QueueOk(t)
  {
    forall i | 0 <= i < |t.queue| ensures At(t, t.queue[i], Queued) {
      assert At(s, s.queue[i], Queued);
    }
  }

  // ------------------------------------------------- admission and the request queue

  lemma AdmitUnique(s: State, key: Key, batch: Option<BatchId>)
    requires JobsOk(s) && SlotsUnique(s.jobs) && s.nextJob !in s.jobs && Enabled(s, Admit(key, batch))
    ensures SlotsUnique(DoAdmit(s, key, batch).jobs)
  {
    var t := DoAdmit(s, key, batch);
    forall j | j in s.jobs && t.jobs[s.nextJob].slot.Some? ensures s.jobs[j].slot != t.jobs[s.nextJob].slot {
      assert LinkOk(s.batches, j, s.jobs[j]);
    }
  }

  lemma AdmitLinks(s: State, key: Key, batch: Option<BatchId>)
    requires JobsOk(s) && BatchesOk(s) && Enabled(s, Admit(key, batch)) && s.nextJob !in s.jobs
    ensures JobsOk(DoAdmit(s, key, batch))
  {
    var t := DoAdmit(s, key, batch);
    forall j | j in s.jobs ensures LinkOk(t.batches, j, s.jobs[j]) {
      assert LinkOk(s.batches, j, s.jobs[j]);
    }
    if batch.Some? { assert BatchOk(s.jobs, batch.value, s.batches[batch.value]); }
  }

  lemma AdmitBatches(s: State, key: Key, batch: Option<BatchId>)
    requires BatchesOk(s) && s.nextJob !in s.jobs && Enabled(s, Admit(key, batch))
    ensures BatchesOk(DoAdmit(s, key, batch))
  {
    var t := DoAdmit(s, key, batch);
    forall b | b in t.batches ensures BatchOk(t.jobs, b, t.batches[b]) {
      BatchKept(s.jobs, t.jobs, b, s.batches[b]);
    }
  }

  lemma AdmitQueues(s: State, key: Key, batch: Option<BatchId>)
    requires QueueOk(s) && CallbacksOk(s.jobs, s.callbacks, s.caller) && TokensOk(s) && s.nextJob !in s.jobs
    requires Enabled(s, Admit(key, batch))
    ensures var t := DoAdmit(s, key, batch);
            QueueOk(t) && CallbacksOk(t.jobs, t.callbacks, t.caller) && TokensOk(t)
  {
    var t := DoAdmit(s, key, batch);
    assert Tokened(t.jobs) == Tokened(s.jobs);
    forall i | 0 <= i < |t.queue| ensures At(t, t.queue[i], Queued) {
      assert At(s, s.queue[i], Queued);
    }
  }

  lemma AdmitReserves(inflight: map<Key, JobId>, jobs: map<JobId, Job>, j: JobId, job: Job)
    requires ReservationsOk(inflight, jobs) && j !in jobs && job.key !in inflight && !job.finished
    ensures ReservationsOk(inflight[job.key := j], jobs[j := job])
  {
  }

  lemma AdmitKeeps(s: State, key: Key, batch: Option<BatchId>)
    requires Inv(s) && Enabled(s, Admit(key, batch))
    ensures Inv(DoAdmit(s, key, batch))
  {
    var t := DoAdmit(s, key, batch);
    assert s.nextJob !in s.jobs;
    AdmitLinks(s, key, batch);
    AdmitUnique(s, key, batch);
    AdmitBatches(s, key, batch);
    AdmitQueues(s, key, batch);
    AdmitReserves(s.inflight, s.jobs, s.nextJob, t.jobs[s.nextJob]);
  }

  /** A request changes; its reservation, its callback and its token do not. */
  lemma PlainStep(s: State, j: JobId, job': Job, queue: seq<JobId>)
    requires Inv(s) && j in s.jobs && JobStep(s.jobs[j], job')
    requires StageOk(job') && LinkOk(s.batches, j, job')
    requires job'.finished == s.jobs[j].finished && job'.callback == s.jobs[j].callback
    requires !s.jobs[j].stage.Held?
    requires QueueOk(SetJob(s, j, job').(queue := queue))
    ensures Inv(SetJob(s, j, job').(queue := queue))
  {
    JobMoves(s, j, job');
    ReservationKept(s.inflight, s.jobs, j, job');
    TokenSame(s.jobs, j, job');
    CallbacksKept(s, j, job');
  }

  lemma QueueGrows(s: State, j: JobId)
    requires QueueOk(s) && Enabled(s, Enqueue(j))
    ensures QueueOk(Do(s, Enqueue(j)))
  {
    var t := Do(s, Enqueue(j));
    forall i | 0 <= i < |s.queue| ensures At(t, s.queue[i], Queued) && s.queue[i] != j {
      assert At(s, s.queue[i], Queued);
    }
  }

  lemma EnqueueKeeps(s: State, j: JobId)
    requires Inv(s) && Enabled(s, Enqueue(j))
    ensures Inv(Do(s, Enqueue(j)))
  {
    var job' := s.jobs[j].(stage := Queued);
    assert LinkOk(s.batches, j, s.jobs[j]) && StageOk(s.jobs[j]);
    QueueGrows(s, j);
    PlainStep(s, j, job', s.queue + [j]);
    assert Do(s, Enqueue(j)) == SetJob(s, j, job').(queue := s.queue + [j]);
  }

  lemma StartKeeps(s: State, j: JobId)
    requires Inv(s) && Enabled(s, Start(j))
    ensures Inv(Do(s, Start(j)))
  {
    var t := Do(s, Start(j));
    assert At(s, s.queue[0], Queued);
    forall i | 0 <= i < |t.queue| ensures At(t, t.queue[i], Queued) {
      assert At(s, s.queue[i + 1], Queued) && s.queue[0] != s.queue[i + 1];
    }
    assert LinkOk(s.batches, j, s.jobs[j]) && StageOk(s.jobs[j]);
    PlainStep(s, j, s.jobs[j].(stage := Running), s.queue[1..]);
  }

  lemma RefuseKeeps(s: State, j: JobId)
    requires Inv(s) && Enabled(s, Refuse(j))
    ensures Inv(Do(s, Refuse(j)))
  {
    var job' := s.jobs[j].(stage := Refused, finished := true);
    assert LinkOk(s.batches, j, s.jobs[j]) && StageOk(s.jobs[j]);
    JobMoves(s, j, job');
    FinishReservations(s.inflight, s.jobs, j, job');
    TokenSame(s.jobs, j, job');
    CallbacksKept(s, j, job');
    QueueKept(s, Do(s, Refuse(j)), j);
  }

  lemma AnswerRefusedKeeps(s: State, j: JobId, reply: nat)
    requires Inv(s) && Enabled(s, AnswerRefused(j, reply))
    ensures Inv(Do(s, AnswerRefused(j, reply)))
  {
    var job' := s.jobs[j].(stage := Left);
    var t := SetJob(s, j, job');
    assert LinkOk(s.batches, j, s.jobs[j]) && StageOk(s.jobs[j]);
    QueueKept(s, t, j);
    PlainStep(s, j, job', s.queue);
    if s.jobs[j].slot.Some? {
      var b, k := s.jobs[j].slot.value.0, s.jobs[j].slot.value.1;
      CompleteKeeps(t, b, k, reply);
      QueueSame(t, Do(s, AnswerRefused(j, reply)));
    }
  }

  // ------------------------------------------------- handlers

  lemma CountsChanged(s: State, tokens: nat)
    requires ReservationsOk(s.inflight, s.jobs) && JobsOk(s) && BatchesOk(s) && SlotsUnique(s.jobs)
    requires QueueOk(s) && CallbacksOk(s.jobs, s.callbacks, s.caller) && tokens == |Tokened(s.jobs)| <= s.limit
    ensures Inv(s.(tokens := tokens))
  {
    SameCore(s, s.(tokens := tokens));
    QueueSame(s, s.(tokens := tokens));
  }

  lemma RegisterKeeps(s: State, j: JobId)
    requires Inv(s) && Enabled(s, Register(j))
    ensures Inv(Do(s, Register(j)))
  {
    var job' := s.jobs[j].(callback := Registered);
    var t := SetJob(s, j, job');
    assert LinkOk(s.batches, j, s.jobs[j]) && StageOk(s.jobs[j]);
    JobMoves(s, j, job');
    ReservationKept(s.inflight, s.jobs, j, job');
    CallbacksKept(s, j, job');
    QueueKept(s, t, j);
    if job'.slot.Some? {
      TokenTaken(s.jobs, j, job');
      CountsChanged(t, s.tokens + 1);
      assert Do(s, Register(j)) == t.(tokens := s.tokens + 1);
    } else {
      TokenSame(s.jobs, j, job');
      assert Do(s, Register(j)) == t;
    }
  }

  lemma ReturnJob(s: State, j: JobId, job': Job)
    requires Inv(s) && At(s, j, Running) && JobStep(s.jobs[j], job') && !job'.finished
    requires job'.stage == if job'.slot.Some? then Returned else Answering
    requires job'.callback != Waiting && job'.callback != Calling && job'.callback != Registered
    requires job'.callback == Sealed ==> job'.succeeded
    ensures var t := SetJob(s, j, job'); JobsOk(t) && BatchesOk(t) && SlotsUnique(t.jobs)
    ensures QueueOk(SetJob(s, j, job')) && ReservationsOk(s.inflight, s.jobs[j := job'])
    ensures CallbacksOk(s.jobs[j := job'], s.callbacks, s.caller)
  {
    assert LinkOk(s.batches, j, s.jobs[j]) && StageOk(s.jobs[j]);
    JobMoves(s, j, job');
    ReservationKept(s.inflight, s.jobs, j, job');
    CallbacksKept(s, j, job');
    QueueKept(s, SetJob(s, j, job'), j);
  }

  lemma ReturnPlain(s: State, j: JobId, job': Job)
    requires Inv(s) && At(s, j, Running) && JobStep(s.jobs[j], job') && !job'.finished
    requires job'.stage == if job'.slot.Some? then Returned else Answering
    requires job'.callback == if s.jobs[j].callback == Registered then Sealed else s.jobs[j].callback
    requires job'.callback == Sealed ==> job'.succeeded
    ensures Inv(SetJob(s, j, job'))
  {
    assert StageOk(s.jobs[j]);
    ReturnJob(s, j, job');
    TokenSame(s.jobs, j, job');
  }

  lemma ReturnTokens(s: State, j: JobId, job': Job)
    requires TokensOk(s) && At(s, j, Running) && s.jobs[j].callback == Registered
    requires job'.slot == s.jobs[j].slot && job'.callback == Gone
    ensures TokensOk(SetJob(s, j, job').(tokens := if job'.slot.Some? && s.tokens > 0 then s.tokens - 1 else s.tokens))
  {
    if job'.slot.Some? { TokenGiven(s.jobs, j, job'); } else { TokenSame(s.jobs, j, job'); }
  }

  lemma ReturnFailed(s: State, j: JobId)
    requires Inv(s) && At(s, j, Running) && s.jobs[j].callback == Registered
    ensures Inv(DoReturn(s, j, false))
  {
    var q := s.jobs[j];
    var job' := q.(stage := if q.slot.Some? then Returned else Answering, succeeded := false, callback := Gone);
    assert !q.finished by { assert StageOk(q); }
    ReturnJob(s, j, job');
    ReturnTokens(s, j, job');
    SameCore(SetJob(s, j, job'), DoReturn(s, j, false));
    QueueSame(SetJob(s, j, job'), DoReturn(s, j, false));
  }

  lemma ReturnKeeps(s: State, j: JobId, succeeded: bool)
    requires Inv(s) && Enabled(s, Return(j, succeeded))
    ensures Inv(DoReturn(s, j, succeeded))
  {
    var q := s.jobs[j];
    var stage := if q.slot.Some? then Returned else Answering;
    assert StageOk(q);
    if q.callback != Registered {
      ReturnPlain(s, j, q.(stage := stage, succeeded := succeeded));
    } else if succeeded {
      ReturnPlain(s, j, q.(stage := stage, succeeded := true, callback := Sealed));
    } else {
      ReturnFailed(s, j);
    }
  }

  // ------------------------------------------------- completions

  lemma FillJobs(s: State, j: JobId, b: BatchId, k: nat, job': Job, c': Collector)
    requires JobsOk(s) && SlotsUnique(s.jobs) && At(s, j, Returned) && s.jobs[j].slot == Some((b, k))
    requires job' == s.jobs[j].(stage := Held)
    requires b in s.batches && k < s.batches[b].next && s.batches[b].next <= |s.batches[b].slots| == |c'.slots|
    requires c'.slots[k].Filled? && c'.slots[k].job == Some(j) && c'.next == s.batches[b].next
    requires forall i | 0 <= i < |c'.slots| && i != k :: c'.slots[i] == s.batches[b].slots[i]
    requires s.batches[b].flush.Open? && (c'.flush.Open? || c'.flush.Sending?)
    ensures JobsOk(SetBatch(SetJob(s, j, job'), b, c'))
  {
    var t := SetBatch(SetJob(s, j, job'), b, c');
    forall i | i in t.jobs ensures i < t.nextJob && StageOk(t.jobs[i]) && LinkOk(t.batches, i, t.jobs[i]) {
      assert StageOk(s.jobs[i]) && LinkOk(s.batches, i, s.jobs[i]);
    }
  }

  lemma FillBatches(s: State, j: JobId, b: BatchId, k: nat, job': Job, c': Collector)
    requires BatchesOk(s) && At(s, j, Returned) && s.jobs[j].slot == Some((b, k))
    requires job' == s.jobs[j].(stage := Held) && b in s.batches && |c'.slots| == |s.batches[b].slots|
    requires k < |c'.slots| && c'.slots[k].Filled? && c'.slots[k].job == Some(j)
    requires forall i | 0 <= i < |c'.slots| && i != k :: c'.slots[i] == s.batches[b].slots[i]
    requires k < c'.next == s.batches[b].next && c'.remaining == Missing(c'.slots)
    requires (c'.flush.Open? <==> c'.remaining > 0) && !c'.flush.Retiring? && !c'.flush.Handing?
    ensures BatchesOk(SetBatch(SetJob(s, j, job'), b, c'))
  {
    var t := SetBatch(SetJob(s, j, job'), b, c');
    forall d | d in t.batches ensures BatchOk(t.jobs, d, t.batches[d]) {
      BatchKept(s.jobs, t.jobs, d, s.batches[d]);
      if d == b {
        forall i | 0 <= i < |c'.slots| ensures FillOk(t.jobs, b, i, c'.slots[i]) {
          assert i != k ==> FillOk(t.jobs, b, i, s.batches[b].slots[i]);
        }
      }
    }
  }

  lemma FillKeeps(s: State, j: JobId, reply: nat)
    requires Inv(s) && Enabled(s, Fill(j, reply))
    ensures Inv(Do(s, Fill(j, reply)))
  {
    var b, k := s.jobs[j].slot.value.0, s.jobs[j].slot.value.1;
    var job' := s.jobs[j].(stage := Held);
    assert LinkOk(s.batches, j, s.jobs[j]) && StageOk(s.jobs[j]);
    MissingZero(s.batches[b].slots);
    CompleteIs(s.batches[b], k, reply, Some(j));
    FillJobs(s, j, b, k, job', Complete(s.batches[b], k, reply, Some(j)));
    FillBatches(s, j, b, k, job', Complete(s.batches[b], k, reply, Some(j)));
    FillRest(s, j, Do(s, Fill(j, reply)));
  }

  lemma FillRest(s: State, j: JobId, t: State)
    requires ReservationsOk(s.inflight, s.jobs) && QueueOk(s) && CallbacksOk(s.jobs, s.callbacks, s.caller) && TokensOk(s)
    requires SlotsUnique(s.jobs) && At(s, j, Returned)
    requires s.jobs[j].callback != Waiting && s.jobs[j].callback != Calling && t.jobs == s.jobs[j := s.jobs[j].(stage := Held)]
    requires t == s.(jobs := t.jobs, batches := t.batches) && JobsOk(t) && BatchesOk(t)
    ensures Inv(t)
  {
    var job' := s.jobs[j].(stage := Held);
    ReservationKept(s.inflight, s.jobs, j, job');
    TokenSame(s.jobs, j, job');
    CallbacksKept(s, j, job');
    QueueKept(s, t, j);
  }

  // ------------------------------------------------- single requests

  lemma SingleStep(s: State, j: JobId, job': Job)
    requires Inv(s) && j in s.jobs && s.jobs[j].slot.None? && JobStep(s.jobs[j], job') && StageOk(job')
    requires job'.finished == s.jobs[j].finished && !s.jobs[j].stage.Queued? && !s.jobs[j].stage.Held?
    requires job'.callback != Waiting && job'.callback != Calling
    ensures Inv(SetJob(s, j, job'))
  {
    assert StageOk(s.jobs[j]);
    JobMoves(s, j, job');
    ReservationKept(s.inflight, s.jobs, j, job');
    TokenSame(s.jobs, j, job');
    CallbacksKept(s, j, job');
    QueueKept(s, SetJob(s, j, job'), j);
  }

  lemma SingleFinish(s: State, j: JobId, job': Job)
    requires Inv(s) && j in s.jobs && s.jobs[j].slot.None? && JobStep(s.jobs[j], job') && StageOk(job')
    requires !s.jobs[j].finished && job'.finished && !s.jobs[j].stage.Queued? && !s.jobs[j].stage.Held?
    requires job'.callback != Waiting && job'.callback != Calling
    ensures Inv(SetJob(s, j, job').(inflight := s.inflight - {s.jobs[j].key}))
  {
    assert StageOk(s.jobs[j]);
    JobMoves(s, j, job');
    FinishReservations(s.inflight, s.jobs, j, job');
    TokenSame(s.jobs, j, job');
    CallbacksKept(s, j, job');
    QueueKept(s, SetJob(s, j, job'), j);
  }

  lemma WriteKeeps(s: State, j: JobId, ok: bool)
    requires Inv(s) && Enabled(s, Write(j, ok))
    ensures Inv(Do(s, Write(j, ok)))
  {
    assert StageOk(s.jobs[j]);
    if ok {
      SingleFinish(s, j, s.jobs[j].(stage := Committed, finished := true));
      FinishFirst(s, j, Committed);
    } else {
      SingleStep(s, j, s.jobs[j].(stage := Failed));
    }
  }

  lemma FinishFirst(s: State, j: JobId, stage: Stage)
    requires j in s.jobs && !s.jobs[j].finished
    ensures Finish(SetJob(s, j, s.jobs[j].(stage := stage)), j) ==
            SetJob(s, j, s.jobs[j].(stage := stage, finished := true)).(inflight := s.inflight - {s.jobs[j].key})
  {
    assert s.jobs[j := s.jobs[j].(stage := stage)][j := s.jobs[j].(stage := stage, finished := true)]
           == s.jobs[j := s.jobs[j].(stage := stage, finished := true)];
  }

  lemma EndKeeps(s: State, j: JobId)
    requires Inv(s) && Enabled(s, End(j))
    ensures Inv(Do(s, End(j)))
  {
    assert StageOk(s.jobs[j]);
    if s.jobs[j].finished {
      SingleStep(s, j, s.jobs[j].(stage := Left));
    } else {
      SingleFinish(s, j, s.jobs[j].(stage := Left, finished := true));
      FinishFirst(s, j, Left);
    }
  }

  lemma CallPlainKeeps(s: State, j: JobId)
    requires Inv(s) && Enabled(s, CallPlain(j))
    ensures Inv(Do(s, CallPlain(j)))
  {
    assert StageOk(s.jobs[j]);
    SingleStep(s, j, s.jobs[j].(callback := Gone));
  }

  // ------------------------------------------------- the flush

  /** A collector's flush moves on, without passing anything that a request depends on. */
  lemma FlushMoves(s: State, b: BatchId, f: Flush)
    requires Inv(s) && b in s.batches && !s.batches[b].flush.Open? && !f.Open?
    requires f.Retiring? || f.Handing? ==> f.next <= |s.batches[b].slots|
    requires forall j | j in s.jobs && s.jobs[j].slot.Some? && s.jobs[j].slot.value.0 == b && s.jobs[j].stage.Held? ::
               HeldOk(s.jobs[j], f, s.jobs[j].slot.value.1)
    ensures Inv(SetBatch(s, b, s.batches[b].(flush := f)))
  {
    var t := SetBatch(s, b, s.batches[b].(flush := f));
    forall j | j in t.jobs ensures LinkOk(t.batches, j, t.jobs[j]) {
      assert LinkOk(s.batches, j, s.jobs[j]);
    }
    QueueSame(s, t);
  }

  lemma SendKeeps(s: State, b: BatchId, ok: bool)
    requires Inv(s) && Enabled(s, Send(b, ok))
    ensures Inv(Do(s, Send(b, ok)))
  {
    forall j | j in s.jobs && s.jobs[j].slot.Some? && s.jobs[j].slot.value.0 == b && s.jobs[j].stage.Held?
      ensures HeldOk(s.jobs[j], Retiring(0, ok), s.jobs[j].slot.value.1)
    {
      assert LinkOk(s.batches, j, s.jobs[j]);
    }
    FlushMoves(s, b, Retiring(0, ok));
    QueueSame(s, Do(s, Send(b, ok)));
  }

  lemma PassedJobs(s: State, b: BatchId, f: Flush, j: JobId, job': Job)
    requires JobsOk(s) && BatchesOk(s)
    requires b in s.batches && !s.batches[b].flush.Open? && !f.Open?
    requires f.Retiring? || f.Handing? ==> f.next <= |s.batches[b].slots|
    requires At(s, j, Held) && s.jobs[j].slot.Some? && s.jobs[j].slot.value.0 == b
    requires JobStep(s.jobs[j], job') && job'.stage.Held?
    requires StageOk(job') && HeldOk(job', f, job'.slot.value.1)
    requires forall i | i in s.jobs && i != j && s.jobs[i].slot.Some? && s.jobs[i].slot.value.0 == b && s.jobs[i].stage.Held? ::
               HeldOk(s.jobs[i], f, s.jobs[i].slot.value.1)
    ensures JobsOk(SetBatch(SetJob(s, j, job'), b, s.batches[b].(flush := f)))
  {
    var t := SetBatch(SetJob(s, j, job'), b, s.batches[b].(flush := f));
    forall i | i in t.jobs ensures i < t.nextJob && StageOk(t.jobs[i]) && LinkOk(t.batches, i, t.jobs[i]) {
      assert StageOk(s.jobs[i]) && LinkOk(s.batches, i, s.jobs[i]);
    }
  }

  lemma PassedBatches(s: State, b: BatchId, f: Flush, j: JobId, job': Job)
    requires JobsOk(s) && BatchesOk(s)
    requires b in s.batches && !s.batches[b].flush.Open? && !f.Open?
    requires f.Retiring? || f.Handing? ==> f.next <= |s.batches[b].slots|
    requires At(s, j, Held) && s.jobs[j].slot.Some? && s.jobs[j].slot.value.0 == b
    requires JobStep(s.jobs[j], job') && job'.stage.Held?
    ensures BatchesOk(SetBatch(SetJob(s, j, job'), b, s.batches[b].(flush := f)))
  {
    var t := SetBatch(SetJob(s, j, job'), b, s.batches[b].(flush := f));
    forall d | d in t.batches ensures BatchOk(t.jobs, d, t.batches[d]) {
      BatchKept(s.jobs, t.jobs, d, s.batches[d]);
      if d == b { BatchReflushed(t.jobs, b, s.batches[b], f); }
    }
  }

  /** The flush moves on over the position of request j, which changes with it. */
  lemma FlushPasses(s: State, b: BatchId, f: Flush, j: JobId, job': Job)
    requires JobsOk(s) && BatchesOk(s) && SlotsUnique(s.jobs)
    requires b in s.batches && !s.batches[b].flush.Open? && !f.Open?
    requires f.Retiring? || f.Handing? ==> f.next <= |s.batches[b].slots|
    requires At(s, j, Held) && s.jobs[j].slot.Some? && s.jobs[j].slot.value.0 == b
    requires JobStep(s.jobs[j], job') && job'.stage.Held? && StageOk(job') && HeldOk(job', f, job'.slot.value.1)
    requires forall i | i in s.jobs && i != j && s.jobs[i].slot.Some? && s.jobs[i].slot.value.0 == b && s.jobs[i].stage.Held? ::
               HeldOk(s.jobs[i], f, s.jobs[i].slot.value.1)
    ensures var t := SetBatch(SetJob(s, j, job'), b, s.batches[b].(flush := f));
            JobsOk(t) && BatchesOk(t) && SlotsUnique(t.jobs)
  {
    PassedJobs(s, b, f, j, job');
    PassedBatches(s, b, f, j, job');
  }

  lemma BatchReflushed(jobs: map<JobId, Job>, b: BatchId, c: Collector, f: Flush)
    requires BatchOk(jobs, b, c) && !c.flush.Open? && !f.Open?
    requires f.Retiring? || f.Handing? ==> f.next <= |c.slots|
    ensures BatchOk(jobs, b, c.(flush := f))
  {
  }

  /** The positions of the other held requests of b are behind or ahead of n as before. */
  lemma OthersHeld(s: State, b: BatchId, n: nat, f: Flush, f': Flush, j: Option<JobId>)
    requires JobsOk(s) && b in s.batches && s.batches[b].flush == f && n < |s.batches[b].slots|
    requires (f.Retiring? && f.next == n && f' == Retiring(n + 1, f.ok)) || (f.Handing? && f.next == n && f' == Handing(n + 1, f.ok))
    requires JobAt(s, b, n).Some? ==>
               j == JobAt(s, b, n) || (f.Handing? && j.None? && JobAt(s, b, n).value in s.jobs && s.jobs[JobAt(s, b, n).value].callback != Sealed)
    ensures forall i | i in s.jobs && Some(i) != j && s.jobs[i].slot.Some? && s.jobs[i].slot.value.0 == b && s.jobs[i].stage.Held? ::
              HeldOk(s.jobs[i], f', s.jobs[i].slot.value.1)
  {
    forall i | i in s.jobs && Some(i) != j && s.jobs[i].slot.Some? && s.jobs[i].slot.value.0 == b && s.jobs[i].stage.Held?
      ensures HeldOk(s.jobs[i], f', s.jobs[i].slot.value.1)
    {
      assert LinkOk(s.batches, i, s.jobs[i]);
    }
  }

  lemma JobAtHeld(s: State, b: BatchId, n: nat)
    requires JobsOk(s) && BatchesOk(s) && b in s.batches && n < |s.batches[b].slots| && JobAt(s, b, n).Some?
    ensures var j := JobAt(s, b, n).value;
            && j in s.jobs && s.jobs[j].slot == Some((b, n)) && s.jobs[j].stage.Held?
            && HeldOk(s.jobs[j], s.batches[b].flush, n) && StageOk(s.jobs[j])
  {
    assert FillOk(s.jobs, b, n, s.batches[b].slots[n]);
    assert LinkOk(s.batches, JobAt(s, b, n).value, s.jobs[JobAt(s, b, n).value]);
  }

  lemma AllRetired(s: State, b: BatchId, f: Flush, f': Flush)
    requires JobsOk(s) && b in s.batches && s.batches[b].flush == f && (f.Retiring? || f.Handing?)
    requires f.next >= |s.batches[b].slots|
    requires f' == if f.Retiring? then Handing(0, f.ok) else Flushed(f.ok)
    ensures forall i | i in s.jobs && s.jobs[i].slot.Some? && s.jobs[i].slot.value.0 == b && s.jobs[i].stage.Held? ::
              HeldOk(s.jobs[i], f', s.jobs[i].slot.value.1)
  {
    forall i | i in s.jobs && s.jobs[i].slot.Some? && s.jobs[i].slot.value.0 == b && s.jobs[i].stage.Held?
      ensures HeldOk(s.jobs[i], f', s.jobs[i].slot.value.1)
    {
      assert LinkOk(s.batches, i, s.jobs[i]);
    }
  }

  function RetiredOne(s: State, b: BatchId, j: JobId): State
    requires b in s.batches && s.batches[b].flush.Retiring? && j in s.jobs
  {
    var c := s.batches[b];
    SetBatch(SetJob(s, j, s.jobs[j].(finished := true)), b, c.(flush := Retiring(c.flush.next + 1, c.flush.ok)))
      .(inflight := s.inflight - {s.jobs[j].key})
  }

  lemma RetireIs(s: State, b: BatchId, j: JobId)
    requires Enabled(s, Retire(b)) && s.batches[b].flush.next < |s.batches[b].slots| && j in s.jobs && !s.jobs[j].finished
    requires JobAt(s, b, s.batches[b].flush.next) == Some(j)
    ensures DoRetire(s, b) == RetiredOne(s, b, j)
  {
  }

  lemma RetireCore(s: State, b: BatchId, j: JobId)
    requires JobsOk(s) && BatchesOk(s) && SlotsUnique(s.jobs)
    requires b in s.batches && s.batches[b].flush.Retiring? && s.batches[b].flush.next < |s.batches[b].slots|
    requires JobAt(s, b, s.batches[b].flush.next) == Some(j) && j in s.jobs
    ensures At(s, j, Held) && !s.jobs[j].finished
    ensures JobsOk(RetiredOne(s, b, j)) && BatchesOk(RetiredOne(s, b, j)) && SlotsUnique(RetiredOne(s, b, j).jobs)
  {
    var c := s.batches[b];
    var n, f' := c.flush.next, Retiring(c.flush.next + 1, c.flush.ok);
    JobAtHeld(s, b, n);
    OthersHeld(s, b, n, c.flush, f', Some(j));
    FlushPasses(s, b, f', j, s.jobs[j].(finished := true));
    SameCore(SetBatch(SetJob(s, j, s.jobs[j].(finished := true)), b, c.(flush := f')), RetiredOne(s, b, j));
  }

  lemma RetireOne(s: State, b: BatchId, j: JobId)
    requires Inv(s) && b in s.batches && s.batches[b].flush.Retiring? && s.batches[b].flush.next < |s.batches[b].slots|
    requires JobAt(s, b, s.batches[b].flush.next) == Some(j) && j in s.jobs
    ensures Inv(RetiredOne(s, b, j)) && !s.jobs[j].finished
  {
    RetireCore(s, b, j);
    RetireRest(s, b, j, RetiredOne(s, b, j));
  }

  lemma SameCore(s: State, t: State)
    requires t.jobs == s.jobs && t.batches == s.batches && t.nextJob == s.nextJob && t.nextBatch == s.nextBatch
    ensures JobsOk(s) ==> JobsOk(t)
    ensures BatchesOk(s) ==> BatchesOk(t)
  {
  }

  lemma RetireRest(s: State, b: BatchId, j: JobId, t: State)
    requires ReservationsOk(s.inflight, s.jobs) && QueueOk(s) && CallbacksOk(s.jobs, s.callbacks, s.caller) && TokensOk(s)
    requires At(s, j, Held) && !s.jobs[j].finished
    requires t == s.(jobs := s.jobs[j := s.jobs[j].(finished := true)], batches := t.batches, inflight := s.inflight - {s.jobs[j].key})
    requires JobsOk(t) && BatchesOk(t) && SlotsUnique(t.jobs)
    ensures Inv(t)
  {
    var job' := s.jobs[j].(finished := true);
    FinishReservations(s.inflight, s.jobs, j, job');
    TokenSame(s.jobs, j, job');
    QueueKept(s, t, j);
    CallbacksFinished(s.jobs, s.callbacks, s.caller, j, job');
  }

  lemma CallbacksFinished(jobs: map<JobId, Job>, callbacks: seq<JobId>, caller: Option<JobId>, j: JobId, job': Job)
    requires CallbacksOk(jobs, callbacks, caller) && j in jobs && job'.callback == jobs[j].callback
    ensures CallbacksOk(jobs[j := job'], callbacks, caller)
  {
  }

  lemma RetireEnds(s: State, b: BatchId, f: Flush)
    requires Inv(s) && b in s.batches && s.batches[b].flush == f && f.Retiring? && f.next >= |s.batches[b].slots|
    ensures Inv(SetBatch(s, b, s.batches[b].(flush := Handing(0, f.ok))))
  {
    AllRetired(s, b, f, Handing(0, f.ok));
    FlushMoves(s, b, Handing(0, f.ok));
  }

  lemma RetireSkips(s: State, b: BatchId, f: Flush)
    requires Inv(s) && b in s.batches && s.batches[b].flush == f && f.Retiring? && f.next < |s.batches[b].slots|
    requires JobAt(s, b, f.next).None?
    ensures Inv(SetBatch(s, b, s.batches[b].(flush := Retiring(f.next + 1, f.ok))))
  {
    OthersHeld(s, b, f.next, f, Retiring(f.next + 1, f.ok), None);
    FlushMoves(s, b, Retiring(f.next + 1, f.ok));
  }

  lemma RetireSkipsIs(s: State, b: BatchId, f: Flush)
    requires b in s.batches && s.batches[b].flush == f && f.Retiring?
    ensures f.next >= |s.batches[b].slots| ==> DoRetire(s, b) == SetBatch(s, b, s.batches[b].(flush := Handing(0, f.ok)))
    ensures f.next < |s.batches[b].slots| && JobAt(s, b, f.next).None? ==>
              DoRetire(s, b) == SetBatch(s, b, s.batches[b].(flush := Retiring(f.next + 1, f.ok)))
  {
  }

  lemma RetireKeeps(s: State, b: BatchId)
    requires Inv(s) && Enabled(s, Retire(b))
    ensures Inv(DoRetire(s, b))
  {
    var f := s.batches[b].flush;
    RetireSkipsIs(s, b, f);
    if f.next >= |s.batches[b].slots| {
      RetireEnds(s, b, f);
    } else if JobAt(s, b, f.next).None? {
      RetireSkips(s, b, f);
    } else {
      JobAtHeld(s, b, f.next);
      RetireOne(s, b, JobAt(s, b, f.next).value);
      RetireIs(s, b, JobAt(s, b, f.next).value);
    }
  }

  lemma DueIs(s: State, b: BatchId)
    requires JobsOk(s) && BatchesOk(s) && b in s.batches && s.batches[b].flush.Handing?
    ensures var n := s.batches[b].flush.next;
            && (Due(s, b).Some? ==> n < |s.batches[b].slots| && Due(s, b) == JobAt(s, b, n)
                                    && Due(s, b).value in s.jobs && s.jobs[Due(s, b).value].callback == Sealed)
            && (Due(s, b).None? && n < |s.batches[b].slots| && JobAt(s, b, n).Some? ==>
                  JobAt(s, b, n).value in s.jobs && s.jobs[JobAt(s, b, n).value].callback != Sealed)
  {
    var n := s.batches[b].flush.next;
    if n < |s.batches[b].slots| && JobAt(s, b, n).Some? { JobAtHeld(s, b, n); }
  }

  function HandedOne(s: State, b: BatchId, j: JobId): State
    requires b in s.batches && s.batches[b].flush.Handing? && j in s.jobs && s.tokens > 0
  {
    var c := s.batches[b];
    var f' := Handing(c.flush.next + 1, c.flush.ok);
    var t := SetBatch(SetJob(s, j, s.jobs[j].(callback := if c.flush.ok then Waiting else Gone)), b, c.(flush := f'));
    if c.flush.ok then t.(callbacks := s.callbacks + [j]) else t.(tokens := s.tokens - 1)
  }

  lemma HandIs(s: State, b: BatchId, j: JobId)
    requires Enabled(s, Hand(b)) && Due(s, b) == Some(j) && s.tokens > 0
    ensures j in s.jobs && DoHand(s, b) == HandedOne(s, b, j)
  {
  }

  lemma DueHeld(s: State, b: BatchId, j: JobId)
    requires JobsOk(s) && BatchesOk(s) && b in s.batches && s.batches[b].flush.Handing? && Due(s, b) == Some(j)
    ensures At(s, j, Held) && s.jobs[j].callback == Sealed && s.jobs[j].slot == Some((b, s.batches[b].flush.next))
    ensures s.batches[b].flush.next < |s.batches[b].slots| && JobAt(s, b, s.batches[b].flush.next) == Some(j)
    ensures StageOk(s.jobs[j]) && HeldOk(s.jobs[j], s.batches[b].flush, s.batches[b].flush.next)
  {
    DueIs(s, b);
    JobAtHeld(s, b, s.batches[b].flush.next);
    assert StageOk(s.jobs[j]) && LinkOk(s.batches, j, s.jobs[j]);
  }

  lemma HandCore(s: State, b: BatchId, j: JobId)
    requires JobsOk(s) && BatchesOk(s) && SlotsUnique(s.jobs) && s.tokens > 0
    requires b in s.batches && s.batches[b].flush.Handing? && Due(s, b) == Some(j)
    ensures At(s, j, Held) && s.jobs[j].callback == Sealed && s.jobs[j].slot.Some?
    ensures JobsOk(HandedOne(s, b, j)) && BatchesOk(HandedOne(s, b, j)) && SlotsUnique(HandedOne(s, b, j).jobs)
  {
    var c := s.batches[b];
    var n, f' := c.flush.next, Handing(c.flush.next + 1, c.flush.ok);
    DueHeld(s, b, j);
    var job' := s.jobs[j].(callback := if c.flush.ok then Waiting else Gone);
    OthersHeld(s, b, n, c.flush, f', Some(j));
    FlushPasses(s, b, f', j, job');
    SameCore(SetBatch(SetJob(s, j, job'), b, c.(flush := f')), HandedOne(s, b, j));
  }

  lemma DueHasToken(s: State, b: BatchId, j: JobId)
    requires TokensOk(s) && JobsOk(s) && BatchesOk(s)
    requires b in s.batches && s.batches[b].flush.Handing? && Due(s, b) == Some(j)
    ensures s.tokens > 0 && j in s.jobs && HasToken(s.jobs[j])
  {
    DueIs(s, b);
    JobAtHeld(s, b, s.batches[b].flush.next);
    assert j in Tokened(s.jobs);
  }

  lemma HandOne(s: State, b: BatchId, j: JobId)
    requires Inv(s) && b in s.batches && s.batches[b].flush.Handing? && Due(s, b) == Some(j) && s.tokens > 0
    ensures j in s.jobs && Inv(HandedOne(s, b, j))
  {
    HandCore(s, b, j);
    if s.batches[b].flush.ok { HandedRest(s, j, HandedOne(s, b, j)); } else { DroppedRest(s, j, HandedOne(s, b, j)); }
  }

  lemma HandedRest(s: State, j: JobId, t: State)
    requires ReservationsOk(s.inflight, s.jobs) && QueueOk(s) && CallbacksOk(s.jobs, s.callbacks, s.caller) && TokensOk(s)
    requires At(s, j, Held) && s.jobs[j].callback == Sealed && s.jobs[j].slot.Some?
    requires t == s.(jobs := s.jobs[j := s.jobs[j].(callback := Waiting)], batches := t.batches, callbacks := s.callbacks + [j])
    requires JobsOk(t) && BatchesOk(t) && SlotsUnique(t.jobs)
    ensures Inv(t)
  {
    var job' := s.jobs[j].(callback := Waiting);
    ReservationKept(s.inflight, s.jobs, j, job');
    TokenSame(s.jobs, j, job');
    QueueKept(s, t, j);
    CallbacksGrow(s.jobs, s.callbacks, s.caller, j);
  }

  lemma CallbacksGrow(jobs: map<JobId, Job>, callbacks: seq<JobId>, caller: Option<JobId>, j: JobId)
    requires CallbacksOk(jobs, callbacks, caller) && j in jobs && jobs[j].callback == Sealed
    ensures CallbacksOk(jobs[j := jobs[j].(callback := Waiting)], callbacks + [j], caller)
  {
    forall i | 0 <= i < |callbacks| ensures callbacks[i] != j {
    }
  }

  lemma DroppedRest(s: State, j: JobId, t: State)
    requires ReservationsOk(s.inflight, s.jobs) && QueueOk(s) && CallbacksOk(s.jobs, s.callbacks, s.caller) && TokensOk(s)
    requires At(s, j, Held) && s.jobs[j].callback == Sealed && s.jobs[j].slot.Some? && s.tokens > 0
    requires t == s.(jobs := s.jobs[j := s.jobs[j].(callback := Gone)], batches := t.batches, tokens := s.tokens - 1)
    requires JobsOk(t) && BatchesOk(t) && SlotsUnique(t.jobs)
    ensures Inv(t)
  {
    var job' := s.jobs[j].(callback := Gone);
    ReservationKept(s.inflight, s.jobs, j, job');
    TokenGiven(s.jobs, j, job');
    QueueKept(s, t, j);
    CallbacksKept(s, j, job');
  }

  lemma HandEnds(s: State, b: BatchId, f: Flush)
    requires Inv(s) && b in s.batches && s.batches[b].flush == f && f.Handing? && f.next >= |s.batches[b].slots|
    ensures Inv(SetBatch(s, b, s.batches[b].(flush := Flushed(f.ok))))
  {
    AllRetired(s, b, f, Flushed(f.ok));
    FlushMoves(s, b, Flushed(f.ok));
  }

  lemma HandSkips(s: State, b: BatchId, f: Flush)
    requires Inv(s) && b in s.batches && s.batches[b].flush == f && f.Handing? && f.next < |s.batches[b].slots|
    requires Due(s, b).None?
    ensures Inv(SetBatch(s, b, s.batches[b].(flush := Handing(f.next + 1, f.ok))))
  {
    DueIs(s, b);
    OthersHeld(s, b, f.next, f, Handing(f.next + 1, f.ok), None);
    FlushMoves(s, b, Handing(f.next + 1, f.ok));
  }

  lemma HandSkipsIs(s: State, b: BatchId, f: Flush)
    requires b in s.batches && s.batches[b].flush == f && f.Handing? && Due(s, b).None?
    ensures f.next >= |s.batches[b].slots| ==> DoHand(s, b) == SetBatch(s, b, s.batches[b].(flush := Flushed(f.ok)))
    ensures f.next < |s.batches[b].slots| ==> DoHand(s, b) == SetBatch(s, b, s.batches[b].(flush := Handing(f.next + 1, f.ok)))
  {
  }

  lemma HandKeeps(s: State, b: BatchId)
    requires Inv(s) && Enabled(s, Hand(b))
    ensures Inv(DoHand(s, b))
  {
    if Due(s, b).Some? {
      DueHasToken(s, b, Due(s, b).value);
      HandOne(s, b, Due(s, b).value);
      HandIs(s, b, Due(s, b).value);
    } else {
      var f := s.batches[b].flush;
      HandSkipsIs(s, b, f);
      if f.next < |s.batches[b].slots| { HandSkips(s, b, f); } else { HandEnds(s, b, f); }
    }
  }

  // ------------------------------------------------- the callback worker

  /** A held request's callback moves on without the collector. */
  lemma CallbackMoves(s: State, j: JobId, callback: Callback)
    requires Inv(s) && j in s.jobs && (s.jobs[j].callback == Waiting || s.jobs[j].callback == Calling)
    requires callback == Calling || callback == Gone
    ensures var t := SetJob(s, j, s.jobs[j].(callback := callback));
            && ReservationsOk(t.inflight, t.jobs) && JobsOk(t) && BatchesOk(t) && SlotsUnique(t.jobs) && QueueOk(t)
    ensures HasToken(s.jobs[j])
  {
    var job' := s.jobs[j].(callback := callback);
    assert StageOk(s.jobs[j]) && LinkOk(s.batches, j, s.jobs[j]);
    JobMoves(s, j, job');
    ReservationKept(s.inflight, s.jobs, j, job');
    QueueKept(s, SetJob(s, j, job'), j);
  }

  lemma CallKeeps(s: State)
    requires Inv(s) && Enabled(s, Call)
    ensures Inv(Do(s, Call))
  {
    var j := s.callbacks[0];
    CallbackMoves(s, j, Calling);
    TokenSame(s.jobs, j, s.jobs[j].(callback := Calling));
    CallbacksShift(s.jobs, s.callbacks);
    QueueSame(SetJob(s, j, s.jobs[j].(callback := Calling)), Do(s, Call));
  }

  lemma CallbacksShift(jobs: map<JobId, Job>, callbacks: seq<JobId>)
    requires CallbacksOk(jobs, callbacks, None) && callbacks != []
    ensures CallbacksOk(jobs[callbacks[0] := jobs[callbacks[0]].(callback := Calling)], callbacks[1..], Some(callbacks[0]))
  {
    var j := callbacks[0];
    forall i | i in jobs && i != j && jobs[i].callback == Waiting ensures i in callbacks[1..] {
      var k :| 0 <= k < |callbacks| && callbacks[k] == i;
      assert callbacks[1..][k - 1] == i;
    }
  }

  lemma CallbacksEnd(jobs: map<JobId, Job>, callbacks: seq<JobId>, j: JobId)
    requires CallbacksOk(jobs, callbacks, Some(j))
    ensures CallbacksOk(jobs[j := jobs[j].(callback := Gone)], callbacks, None)
  {
    forall i | 0 <= i < |callbacks| ensures callbacks[i] != j {
    }
  }

  lemma CalledKeeps(s: State, j: JobId)
    requires Inv(s) && s.caller == Some(j) && j in s.jobs
    ensures s.tokens > 0
    ensures Inv(SetJob(s, j, s.jobs[j].(callback := Gone)).(caller := None, tokens := s.tokens - 1))
  {
    var job' := s.jobs[j].(callback := Gone);
    CallbackMoves(s, j, Gone);
    TokenGiven(s.jobs, j, job');
    CallbacksEnd(s.jobs, s.callbacks, j);
    SameCore(SetJob(s, j, job'), SetJob(s, j, job').(caller := None, tokens := s.tokens - 1));
    QueueSame(SetJob(s, j, job'), SetJob(s, j, job').(caller := None, tokens := s.tokens - 1));
  }

  // ------------------------------------------------- all actions, all runs

  lemma RequestKeeps(s: State, a: Action)
    requires Inv(s) && Enabled(s, a)
    requires a.Enqueue? || a.Refuse? || a.AnswerRefused? || a.Start? || a.Register? || a.Return? || a.Fill?
    ensures Inv(Do(s, a))
  {
    match a
    case Enqueue(j) => EnqueueKeeps(s, j);
    case Refuse(j) => RefuseKeeps(s, j);
    case AnswerRefused(j, reply) => AnswerRefusedKeeps(s, j, reply);
    case Start(j) => StartKeeps(s, j);
    case Register(j) => RegisterKeeps(s, j);
    case Return(j, succeeded) => ReturnKeeps(s, j, succeeded);
    case Fill(j, reply) => FillKeeps(s, j, reply);
  }

  lemma ReplyKeeps(s: State, a: Action)
    requires Inv(s) && Enabled(s, a) && (a.Write? || a.CallPlain? || a.End?)
    ensures Inv(Do(s, a))
  {
    match a
    case Write(j, ok) => WriteKeeps(s, j, ok);
    case CallPlain(j) => CallPlainKeeps(s, j);
    case End(j) => EndKeeps(s, j);
  }

  lemma FlushKeeps(s: State, a: Action)
    requires Inv(s) && Enabled(s, a) && (a.Send? || a.Retire? || a.Hand?)
    ensures Inv(Do(s, a))
  {
    match a
    case Send(b, ok) => SendKeeps(s, b, ok);
    case Retire(b) => RetireKeeps(s, b);
    case Hand(b) => HandKeeps(s, b);
  }

  lemma CallbackKeeps(s: State, a: Action)
    requires Inv(s) && Enabled(s, a) && (a.Call? || a.Called?)
    ensures Inv(Do(s, a))
  {
    match a
    case Call => CallKeeps(s);
    case Called => CalledKeeps(s, s.caller.value);
  }

  lemma CloseKeeps(s: State)
    requires Inv(s)
    ensures Inv(s.(closed := true))
  {
    QueueSame(s, s.(closed := true));
  }

  lemma AdmissionKeeps(s: State, a: Action)
    requires Inv(s) && Enabled(s, a) && (a.OpenBatch? || a.AnswerSlot? || a.Admit? || a.Close?)
    ensures Inv(Do(s, a))
  {
    match a
    case OpenBatch(n) => OpenBatchKeeps(s, n);
    case AnswerSlot(b, reply) => AnswerSlotKeeps(s, b, reply);
    case Admit(key, batch) => AdmitKeeps(s, key, batch);
    case Close => CloseKeeps(s);
  }

  lemma ActionKeeps(s: State, a: Action)
    requires Inv(s) && Enabled(s, a)
    ensures Inv(Do(s, a))
  {
    if a.OpenBatch? || a.AnswerSlot? || a.Admit? || a.Close? {
      AdmissionKeeps(s, a);
    } else if a.Write? || a.CallPlain? || a.End? {
      ReplyKeeps(s, a);
    } else if a.Send? || a.Retire? || a.Hand? {
      FlushKeeps(s, a);
    } else if a.Call? || a.Called? {
      CallbackKeeps(s, a);
    } else {
      RequestKeeps(s, a);
    }
  }

  lemma {:induction false} RunInv(states: seq<State>, acts: seq<Action>, i: nat)
    requires IsRun(states, acts) && i < |states|
    ensures Inv(states[i])
    decreases i
  {
    if i == 0 {
      InitialInv(states[0].limit, states[0].queueLimit);
    } else {
      RunInv(states, acts, i - 1);
      ActionKeeps(states[i - 1], acts[i - 1]);
    }
  }
}
