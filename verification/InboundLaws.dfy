/** What the invariant of the inbound side means: reservations of request ids, the slots and the
    single flush of a batch, and the tokens of its callbacks, over whole runs. */
module InboundLaws {
  import opened Results
  import opened Inbound
  import opened InboundInvariant

  // ------------------------------------------------- reservations

  /** No two live requests share a key, and each holds the reservation of its own. */
  lemma LiveKeysDistinct(s: State, i: JobId, j: JobId)
    requires ReservationsOk(s.inflight, s.jobs) && i in s.jobs && j in s.jobs
    requires !s.jobs[i].finished && !s.jobs[j].finished && s.jobs[i].key == s.jobs[j].key
    ensures i == j && s.jobs[j].key in s.inflight && s.inflight[s.jobs[j].key] == j
  {
  }

  /** Finishing a request, for the first time or again, leaves the reservations of all other live
      requests alone, even of a newer one with the same key. */
  lemma FinishSparesOthers(s: State, i: JobId, j: JobId)
    requires ReservationsOk(s.inflight, s.jobs) && i in s.jobs && j in s.jobs && i != j && !s.jobs[i].finished
    ensures var t := Finish(s, j); s.jobs[i].key in t.inflight && t.inflight[s.jobs[i].key] == i
    ensures Finish(Finish(s, j), j) == Finish(s, j)
  {
  }

  /** The action by which the reservation of j ends: the request was refused, its single response
      was written or could not be, or its batch is past the flush. */
  predicate EndsReservation(s: State, a: Action, j: JobId)
    requires j in s.jobs
  {
    || a == Refuse(j)
    || a == Write(j, true)
    || (a == End(j) && s.jobs[j].stage == Failed)
    || (a.Retire? && s.jobs[j].slot.Some? && a.b == s.jobs[j].slot.value.0
        && a.b in s.batches && forall k | 0 <= k < |s.batches[a.b].slots| :: s.batches[a.b].slots[k].Filled?)
  }

  /** A reservation lasts from admission until the request's single reply is committed or has
      failed; for a request of a batch, until the whole array was flushed. */
  lemma ReservationLasts(s: State, a: Action, j: JobId)
    requires Inv(s) && Enabled(s, a) && j in s.jobs && !s.jobs[j].finished
    ensures j in Do(s, a).jobs && (Do(s, a).jobs[j].finished ==> EndsReservation(s, a, j))
  {
    match a
    case Retire(b) => RetireFinishes(s, b, j);
    case End(i) => EndFinishes(s, i, j);
    case Hand(b) => HandFinishesNone(s, b, j);
    case Return(i, succeeded) => ReturnFinishesNone(s, i, succeeded, j);
    case Write(_, _) => WriteFinishes(s, a, j);
    case Fill(_, _) => CompletionFinishesNone(s, a, j);
    case AnswerRefused(_, _) => CompletionFinishesNone(s, a, j);
    case _ => OtherFinishes(s, a, j);
  }

  lemma WriteFinishes(s: State, a: Action, j: JobId)
    requires Enabled(s, a) && j in s.jobs && !s.jobs[j].finished && a.Write?
    ensures j in Do(s, a).jobs && (Do(s, a).jobs[j].finished ==> EndsReservation(s, a, j))
  {
  }

  lemma CompletionFinishesNone(s: State, a: Action, j: JobId)
    requires Enabled(s, a) && j in s.jobs && !s.jobs[j].finished && (a.Fill? || a.AnswerRefused?)
    ensures j in Do(s, a).jobs && !Do(s, a).jobs[j].finished
  {
  }

  lemma EndFinishes(s: State, i: JobId, j: JobId)
    requires JobsOk(s) && Enabled(s, End(i)) && j in s.jobs && !s.jobs[j].finished
    ensures j in Do(s, End(i)).jobs && (Do(s, End(i)).jobs[j].finished ==> EndsReservation(s, End(i), j))
  {
    assert StageOk(s.jobs[j]);
  }

  lemma OtherFinishes(s: State, a: Action, j: JobId)
    requires JobsOk(s) && Enabled(s, a) && j in s.jobs && !s.jobs[j].finished
    requires !a.Retire? && !a.End? && !a.Hand? && !a.Return? && !a.Write? && !a.Fill? && !a.AnswerRefused?
    ensures j in Do(s, a).jobs && (Do(s, a).jobs[j].finished ==> EndsReservation(s, a, j))
  {
  }

  lemma HandFinishesNone(s: State, b: BatchId, j: JobId)
    requires Enabled(s, Hand(b)) && j in s.jobs
    ensures j in DoHand(s, b).jobs && DoHand(s, b).jobs[j].finished == s.jobs[j].finished
  {
  }

  lemma ReturnFinishesNone(s: State, i: JobId, succeeded: bool, j: JobId)
    requires Enabled(s, Return(i, succeeded)) && j in s.jobs
    ensures j in DoReturn(s, i, succeeded).jobs && DoReturn(s, i, succeeded).jobs[j].finished == s.jobs[j].finished
  {
  }

  lemma RetireFinishes(s: State, b: BatchId, j: JobId)
    requires JobsOk(s) && BatchesOk(s) && Enabled(s, Retire(b)) && j in s.jobs && !s.jobs[j].finished
    ensures j in DoRetire(s, b).jobs
    ensures DoRetire(s, b).jobs[j].finished ==> EndsReservation(s, Retire(b), j)
  {
    var n := s.batches[b].flush.next;
    MissingZero(s.batches[b].slots);
    if n < |s.batches[b].slots| && JobAt(s, b, n).Some? { JobAtHeld(s, b, n); }
  }

  // ------------------------------------------------- batches

  /** The action completes slot k of batch b with this reply. */
  predicate CompletesSlot(s: State, a: Action, b: BatchId, k: nat, reply: nat) {
    || (a == AnswerSlot(b, reply) && b in s.batches && s.batches[b].next == k)
    || (a.AnswerRefused? && a.reply == reply && a.j in s.jobs && s.jobs[a.j].slot == Some((b, k)))
    || (a.Fill? && a.reply == reply && a.j in s.jobs && s.jobs[a.j].slot == Some((b, k)))
  }

  lemma SlotIsFree(s: State, a: Action, b: BatchId, k: nat, reply: nat)
    requires JobsOk(s) && BatchesOk(s) && Enabled(s, a) && CompletesSlot(s, a, b, k, reply)
    ensures b in s.batches && k < |s.batches[b].slots| && Takes(s.batches[b], k)
  {
    if !a.AnswerSlot? { assert LinkOk(s.batches, a.j, s.jobs[a.j]); }
    MissingZero(s.batches[b].slots);
  }

  /** Every completion finds its slot free, and puts its reply there. */
  lemma CompletionTakesSlot(s: State, a: Action, b: BatchId, k: nat, reply: nat)
    requires JobsOk(s) && BatchesOk(s) && Enabled(s, a) && CompletesSlot(s, a, b, k, reply)
    ensures b in s.batches && k < |s.batches[b].slots| && s.batches[b].slots[k].Empty?
    ensures b in Do(s, a).batches && k < |Do(s, a).batches[b].slots|
    ensures Do(s, a).batches[b].slots[k].Filled? && Do(s, a).batches[b].slots[k].reply == reply
  {
    SlotIsFree(s, a, b, k, reply);
  }

  function FlushRank(f: Flush): nat {
    match f
    case Open => 0
    case Sending => 1
    case Retiring(_, _) => 2
    case Handing(_, _) => 3
    case Flushed(_) => 4
  }

  function CallbackRank(c: Callback): nat {
    match c
    case NoCallback => 0
    case Registered => 1
    case Sealed => 2
    case Waiting => 3
    case Calling => 4
    case Gone => 5
  }

  predicate FlushOk(f: Flush) {
    (f.Retiring? || f.Handing? || f.Flushed?) && f.ok
  }

  predicate JobLater(q: Job, q': Job) {
    && q'.key == q.key && q'.slot == q.slot && (q.finished ==> q'.finished)
    && CallbackRank(q.callback) <= CallbackRank(q'.callback)
  }

  predicate CollectorLater(c: Collector, c': Collector) {
    && |c'.slots| == |c.slots|
    && (forall k | 0 <= k < |c.slots| && c.slots[k].Filled? :: c'.slots[k] == c.slots[k])
    && FlushRank(c.flush) <= FlushRank(c'.flush)
    && (FlushRank(c.flush) >= 2 ==> (FlushOk(c'.flush) <==> FlushOk(c.flush)))
  }

  predicate Persists(s: State, t: State) {
    && (forall j | j in s.jobs :: j in t.jobs && JobLater(s.jobs[j], t.jobs[j]))
    && (forall b | b in s.batches :: b in t.batches && CollectorLater(s.batches[b], t.batches[b]))
    && s.sent <= t.sent
  }

  lemma CompleteLater(c: Collector, k: nat, reply: nat, job: Option<JobId>)
    requires c.flush.Open? <==> c.remaining > 0
    ensures CollectorLater(c, Complete(c, k, reply, job))
  {
  }

  lemma JobsLater(s: State, j: JobId, q': Job)
    requires j in s.jobs ==> JobLater(s.jobs[j], q')
    ensures Persists(s, SetJob(s, j, q'))
  {
  }

  lemma BatchLater(s: State, b: BatchId, c': Collector)
    requires b in s.batches ==> CollectorLater(s.batches[b], c')
    ensures Persists(s, SetBatch(s, b, c'))
  {
  }

  lemma PersistsTransitive(r: State, s: State, t: State)
    requires Persists(r, s) && Persists(s, t)
    ensures Persists(r, t)
  {
    forall b | b in r.batches ensures b in t.batches && CollectorLater(r.batches[b], t.batches[b]) {
      assert CollectorLater(r.batches[b], s.batches[b]) && CollectorLater(s.batches[b], t.batches[b]);
    }
  }

  lemma PersistsSame(s: State, t: State, u: State)
    requires Persists(s, t) && u.jobs == t.jobs && u.batches == t.batches && t.sent <= u.sent
    ensures Persists(s, u)
  {
  }

  lemma CompleteSlotPersists(s: State, slot: (BatchId, nat), reply: nat, job: Option<JobId>)
    requires slot.0 in s.batches ==> (s.batches[slot.0].flush.Open? <==> s.batches[slot.0].remaining > 0)
    ensures Persists(s, CompleteSlot(s, slot, reply, job))
  {
    if slot.0 in s.batches {
      CompleteLater(s.batches[slot.0], slot.1, reply, job);
      BatchLater(s, slot.0, Complete(s.batches[slot.0], slot.1, reply, job));
    }
  }

  lemma FinishPersists(s: State, j: JobId)
    requires j in s.jobs
    ensures Persists(s, Finish(s, j))
  {
  }

  lemma AdmitPersists(s: State, key: Key, batch: Option<BatchId>)
    requires Enabled(s, Admit(key, batch)) && s.nextJob !in s.jobs
    ensures Persists(s, DoAdmit(s, key, batch))
  {
  }

  lemma AnswerSlotPersists(s: State, b: BatchId, reply: nat)
    requires BatchesOk(s) && Enabled(s, AnswerSlot(b, reply))
    ensures Persists(s, Do(s, AnswerSlot(b, reply)))
  {
    var c := s.batches[b];
    CompleteLater(c, c.next, reply, None);
    BatchLater(s, b, Complete(c, c.next, reply, None).(next := c.next + 1));
  }

  lemma FillPersists(s: State, j: JobId, stage: Stage, reply: nat, job: Option<JobId>)
    requires BatchesOk(s) && j in s.jobs && s.jobs[j].slot.Some?
    ensures Persists(s, CompleteSlot(SetJob(s, j, s.jobs[j].(stage := stage)), s.jobs[j].slot.value, reply, job))
  {
    var t := SetJob(s, j, s.jobs[j].(stage := stage));
    JobsLater(s, j, s.jobs[j].(stage := stage));
    CompleteSlotPersists(t, s.jobs[j].slot.value, reply, job);
    PersistsTransitive(s, t, CompleteSlot(t, s.jobs[j].slot.value, reply, job));
  }

  lemma EndingPersists(s: State, j: JobId, stage: Stage)
    requires j in s.jobs
    ensures Persists(s, Finish(SetJob(s, j, s.jobs[j].(stage := stage)), j))
  {
    var t := SetJob(s, j, s.jobs[j].(stage := stage));
    JobsLater(s, j, s.jobs[j].(stage := stage));
    FinishPersists(t, j);
    PersistsTransitive(s, t, Finish(t, j));
  }

  lemma RetireOnePersists(s: State, t: State, b: BatchId, j: JobId)
    requires Enabled(s, Retire(b)) && s.batches[b].flush.next < |s.batches[b].slots|
    requires JobAt(s, b, s.batches[b].flush.next) == Some(j) && j in s.jobs && Persists(s, t)
    requires t == SetBatch(s, b, s.batches[b].(flush := Retiring(s.batches[b].flush.next + 1, s.batches[b].flush.ok)))
    ensures Persists(s, DoRetire(s, b))
  {
    FinishPersists(t, j);
    PersistsTransitive(s, t, Finish(t, j));
    assert DoRetire(s, b) == Finish(t, j);
  }

  lemma RetirePersists(s: State, b: BatchId)
    requires Enabled(s, Retire(b))
    ensures Persists(s, DoRetire(s, b))
  {
    var c := s.batches[b];
    var n, ok := c.flush.next, c.flush.ok;
    var t := SetBatch(s, b, c.(flush := if n >= |c.slots| then Handing(0, ok) else Retiring(n + 1, ok)));
    BatchLater(s, b, t.batches[b]);
    if n < |c.slots| && JobAt(s, b, n).Some? && JobAt(s, b, n).value in s.jobs {
      RetireOnePersists(s, t, b, JobAt(s, b, n).value);
    } else {
      assert DoRetire(s, b) == t;
    }
  }

  lemma HandOnePersists(s: State, t: State, b: BatchId, j: JobId, ok: bool)
    requires Enabled(s, Hand(b)) && Due(s, b) == Some(j) && Persists(s, t) && t.jobs == s.jobs && t.sent == s.sent
    requires ok == s.batches[b].flush.ok
    requires t == SetBatch(s, b, s.batches[b].(flush := Handing(s.batches[b].flush.next + 1, ok)))
    ensures j in s.jobs && Persists(s, DoHand(s, b))
  {
    var q' := s.jobs[j].(callback := if ok then Waiting else Gone);
    JobsLater(t, j, q');
    PersistsTransitive(s, t, SetJob(t, j, q'));
    PersistsSame(s, SetJob(t, j, q'), DoHand(s, b));
  }

  lemma HandPersists(s: State, b: BatchId)
    requires Enabled(s, Hand(b))
    ensures Persists(s, DoHand(s, b))
  {
    var c := s.batches[b];
    var n, ok := c.flush.next, c.flush.ok;
    if n >= |c.slots| {
      BatchLater(s, b, c.(flush := Flushed(ok)));
    } else {
      var t := SetBatch(s, b, c.(flush := Handing(n + 1, ok)));
      BatchLater(s, b, c.(flush := Handing(n + 1, ok)));
      if Due(s, b).Some? {
        HandOnePersists(s, t, b, Due(s, b).value, ok);
      }
    }
  }

  lemma ReturnPersists(s: State, j: JobId, succeeded: bool)
    requires Enabled(s, Return(j, succeeded))
    ensures Persists(s, DoReturn(s, j, succeeded))
  {
    var q := s.jobs[j];
    var stage := if q.slot.Some? then Returned else Answering;
    if q.callback != Registered {
      JobsLater(s, j, q.(stage := stage, succeeded := succeeded));
    } else if succeeded {
      JobsLater(s, j, q.(stage := stage, succeeded := true, callback := Sealed));
    } else {
      JobsLater(s, j, q.(stage := stage, succeeded := false, callback := Gone));
      PersistsSame(s, SetJob(s, j, q.(stage := stage, succeeded := false, callback := Gone)), DoReturn(s, j, false));
    }
  }

  lemma CallbackPersists(s: State, a: Action)
    requires CallbacksOk(s.jobs, s.callbacks, s.caller) && Enabled(s, a) && (a == Call || a == Called)
    ensures Persists(s, Do(s, a))
  {
    if a == Call {
      JobsLater(s, s.callbacks[0], s.jobs[s.callbacks[0]].(callback := Calling));
    } else {
      JobsLater(s, s.caller.value, s.jobs[s.caller.value].(callback := Gone));
    }
  }

  lemma StagePersists(s: State, a: Action)
    requires Enabled(s, a) && (a.Enqueue? || a.Refuse? || a.Start? || a.Register? || a.CallPlain?)
    ensures Persists(s, Do(s, a))
  {
  }

  lemma RequestPersists(s: State, a: Action)
    requires Inv(s) && Enabled(s, a) && (a.AnswerRefused? || a.Return? || a.Fill? || a.Write? || a.End?)
    ensures Persists(s, Do(s, a))
  {
    match a
    case AnswerRefused(j, reply) =>
      if s.jobs[j].slot.Some? { FillPersists(s, j, Left, reply, None); } else { JobsLater(s, j, s.jobs[j].(stage := Left)); }
    case Return(j, succeeded) => ReturnPersists(s, j, succeeded);
    case Fill(j, reply) => FillPersists(s, j, Held, reply, Some(j));
    case Write(j, ok) => if ok { EndingPersists(s, j, Committed); } else { JobsLater(s, j, s.jobs[j].(stage := Failed)); }
    case End(j) => EndingPersists(s, j, Left);
  }

  lemma SendPersists(s: State, b: BatchId, ok: bool)
    requires Enabled(s, Send(b, ok))
    ensures Persists(s, Do(s, Send(b, ok)))
  {
    BatchLater(s, b, s.batches[b].(flush := Retiring(0, ok)));
  }

  lemma OpenPersists(s: State, n: nat)
    requires BatchesOk(s) && n > 0
    ensures Persists(s, Do(s, OpenBatch(n)))
  {
  }

  lemma PersistsReflexive(s: State)
    ensures Persists(s, s)
  {
  }

  lemma CollectorPersists(s: State, a: Action)
    requires Inv(s) && Enabled(s, a) && (a.OpenBatch? || a.AnswerSlot? || a.Send? || a.Retire? || a.Hand?)
    ensures Persists(s, Do(s, a))
  {
    match a
    case OpenBatch(n) => OpenPersists(s, n);
    case AnswerSlot(b, reply) => AnswerSlotPersists(s, b, reply);
    case Send(b, ok) => SendPersists(s, b, ok);
    case Retire(b) => RetirePersists(s, b);
    case Hand(b) => HandPersists(s, b);
  }

  lemma ActionPersists(s: State, a: Action)
    requires Inv(s) && Enabled(s, a)
    ensures Persists(s, Do(s, a))
  {
    if a.OpenBatch? || a.AnswerSlot? || a.Send? || a.Retire? || a.Hand? {
      CollectorPersists(s, a);
    } else if a.Enqueue? || a.Refuse? || a.Start? || a.Register? || a.CallPlain? {
      StagePersists(s, a);
    } else if a == Call || a == Called {
      CallbackPersists(s, a);
    } else if a.Admit? {
      AdmitPersists(s, a.key, a.batch);
    } else if a == Close {
      PersistsReflexive(s);
      PersistsSame(s, s, Do(s, a));
    } else {
      RequestPersists(s, a);
    }
  }

  predicate StepsPersist(states: seq<State>) {
    forall k {:trigger states[k]} | 0 <= k < |states| - 1 :: Persists(states[k], states[k + 1])
  }

  lemma {:induction false} Telescope(states: seq<State>, i: nat, j: nat)
    requires StepsPersist(states) && i <= j < |states|
    ensures Persists(states[i], states[j])
    decreases j - i
  {
    if i == j {
      PersistsReflexive(states[i]);
    } else {
      Telescope(states, i + 1, j);
      PersistsTransitive(states[i], states[i + 1], states[j]);
    }
  }

  lemma RunPersists(states: seq<State>, acts: seq<Action>, i: nat, j: nat)
    requires IsRun(states, acts) && i <= j < |states|
    ensures Persists(states[i], states[j])
  {
    forall k | 0 <= k < |states| - 1 ensures Persists(states[k], states[k + 1]) {
      RunStep(states, acts, k);
    }
    Telescope(states, i, j);
  }

  lemma RunStep(states: seq<State>, acts: seq<Action>, i: nat)
    requires IsRun(states, acts) && i < |acts|
    ensures Inv(states[i]) && Enabled(states[i], acts[i]) && Persists(states[i], states[i + 1])
  {
    RunInv(states, acts, i);
    ActionPersists(states[i], acts[i]);
  }

  lemma FilledStays(s: State, t: State, b: BatchId, k: nat)
    requires Persists(s, t) && b in s.batches && k < |s.batches[b].slots| && s.batches[b].slots[k].Filled?
    ensures b in t.batches && k < |t.batches[b].slots| && t.batches[b].slots[k] == s.batches[b].slots[k]
  {
    assert CollectorLater(s.batches[b], t.batches[b]);
  }

  /** A slot is completed at most once in a run, and keeps the reply it was completed with. */
  lemma SlotCompletedOnce(states: seq<State>, acts: seq<Action>, i: nat, b: BatchId, k: nat, reply: nat)
    requires IsRun(states, acts) && i < |acts| && CompletesSlot(states[i], acts[i], b, k, reply)
    ensures forall j, other | i < j < |acts| :: !CompletesSlot(states[j], acts[j], b, k, other)
    ensures forall j | i < j < |states| ::
              b in states[j].batches && k < |states[j].batches[b].slots|
              && states[j].batches[b].slots[k].Filled? && states[j].batches[b].slots[k].reply == reply
  {
    RunStep(states, acts, i);
    CompletionTakesSlot(states[i], acts[i], b, k, reply);
    forall j | i < j < |states|
      ensures b in states[j].batches && k < |states[j].batches[b].slots|
              && states[j].batches[b].slots[k].Filled? && states[j].batches[b].slots[k].reply == reply
    {
      RunPersists(states, acts, i + 1, j);
      FilledStays(states[i + 1], states[j], b, k);
    }
    forall j, other | i < j < |acts| ensures !CompletesSlot(states[j], acts[j], b, k, other) {
      if CompletesSlot(states[j], acts[j], b, k, other) {
        RunStep(states, acts, j);
        SlotIsFree(states[j], acts[j], b, k, other);
      }
    }
  }

  /** `remaining` is the number of unfilled slots, and the flush begins exactly when none is left. */
  lemma FlushWhenFull(s: State, b: BatchId)
    requires BatchesOk(s) && b in s.batches
    ensures s.batches[b].remaining == Missing(s.batches[b].slots)
    ensures !s.batches[b].flush.Open? <==> forall k | 0 <= k < |s.batches[b].slots| :: s.batches[b].slots[k].Filled?
  {
    MissingZero(s.batches[b].slots);
  }

  /** The array of a batch goes out at most once, when every slot is filled, with the replies in
      slot order; and the slots it was made of never change again. */
  lemma FlushedOnce(states: seq<State>, acts: seq<Action>, i: nat, b: BatchId, ok: bool)
    requires IsRun(states, acts) && i < |acts| && acts[i] == Send(b, ok)
    ensures b in states[i].batches && forall k | 0 <= k < |states[i].batches[b].slots| :: states[i].batches[b].slots[k].Filled?
    ensures states[i + 1].sent == states[i].sent + [(b, states[i].batches[b].slots, ok)]
    ensures forall j | i < j < |states| :: b in states[j].batches && states[j].batches[b].slots == states[i].batches[b].slots
    ensures forall j, again | i < j < |acts| :: acts[j] != Send(b, again)
  {
    RunStep(states, acts, i);
    FlushWhenFull(states[i], b);
    SendRecords(states[i], b, ok);
    forall j | i < j < |states| ensures SentStays(states[i], states[j], b) {
      RunPersists(states, acts, i + 1, j);
      SentLater(states[i], states[i + 1], states[j], b);
    }
    forall j, again | i < j < |acts| ensures acts[j] != Send(b, again) {
      assert SentStays(states[i], states[j], b);
    }
  }

  predicate SentStays(s: State, t: State, b: BatchId) {
    && b in s.batches && b in t.batches && t.batches[b].slots == s.batches[b].slots
    && FlushRank(t.batches[b].flush) >= 2
  }

  lemma SendRecords(s: State, b: BatchId, ok: bool)
    requires Enabled(s, Send(b, ok))
    ensures var t := Do(s, Send(b, ok));
            t.sent == s.sent + [(b, s.batches[b].slots, ok)] && SentStays(s, t, b)
  {
  }

  lemma SentLater(s: State, t: State, u: State, b: BatchId)
    requires SentStays(s, t, b) && Persists(t, u)
    requires forall k | 0 <= k < |s.batches[b].slots| :: s.batches[b].slots[k].Filled?
    ensures SentStays(s, u, b)
  {
    SlotsStay(t, u, b);
  }

  lemma SlotsStay(s: State, t: State, b: BatchId)
    requires Persists(s, t) && b in s.batches && forall k | 0 <= k < |s.batches[b].slots| :: s.batches[b].slots[k].Filled?
    ensures b in t.batches && t.batches[b].slots == s.batches[b].slots
    ensures FlushRank(t.batches[b].flush) >= FlushRank(s.batches[b].flush)
  {
    assert CollectorLater(s.batches[b], t.batches[b]);
  }

  /** All requests of a batch are retired before any of its callbacks is handed on. */
  lemma RetiredBeforeCallbacks(s: State, b: BatchId, j: JobId)
    requires JobsOk(s) && BatchesOk(s) && b in s.batches && (s.batches[b].flush.Handing? || s.batches[b].flush.Flushed?)
    requires j in s.jobs && s.jobs[j].slot.Some? && s.jobs[j].slot.value.0 == b
    ensures s.jobs[j].finished
  {
    FlushWhenFull(s, b);
    assert StageOk(s.jobs[j]) && LinkOk(s.batches, j, s.jobs[j]);
  }

  // ------------------------------------------------- callbacks

  lemma {:induction false} DistinctSubset(q: seq<JobId>, t: set<JobId>)
    requires forall i, k | 0 <= i < k < |q| :: q[i] != q[k]
    requires forall i | 0 <= i < |q| :: q[i] in t
    ensures |q| <= |t|
    decreases |q|
  {
    if q != [] {
      var n := |q| - 1;
      DistinctSubset(q[..n], t - {q[n]});
    }
  }

  /** Registration reserved capacity: handing a callback on never blocks, and neither does giving
      a token back. */
  lemma HandNeverBlocks(s: State, b: BatchId)
    requires Inv(s) && b in s.batches && s.batches[b].flush.Handing?
    ensures !HandBlocks(s, b) && Enabled(s, Hand(b))
  {
    if Due(s, b).Some? {
      var j := Due(s, b).value;
      DueHasToken(s, b, j);
      CapacityLeft(s, j);
    }
  }

  lemma CapacityLeft(s: State, j: JobId)
    requires CallbacksOk(s.jobs, s.callbacks, s.caller) && TokensOk(s)
    requires j in s.jobs && s.jobs[j].callback == Sealed && HasToken(s.jobs[j])
    requires forall i | i in s.jobs && s.jobs[i].callback == Waiting :: HasToken(s.jobs[i])
    ensures |s.callbacks| < s.limit
  {
    DistinctSubset(s.callbacks, Tokened(s.jobs) - {j});
    assert j in Tokened(s.jobs);
  }

  lemma WaitingHasToken(s: State, j: JobId)
    requires JobsOk(s) && j in s.jobs && (s.jobs[j].callback == Waiting || s.jobs[j].callback == Calling)
    ensures HasToken(s.jobs[j])
  {
    assert StageOk(s.jobs[j]);
  }

  /** The tokens taken are the callbacks registered by running handlers of batch requests, sealed
      in collectors, queued, or running; never more than the limit. */
  lemma TokensAccounted(s: State)
    requires Inv(s)
    ensures s.tokens == |Tokened(s.jobs)| <= s.limit && |s.callbacks| <= s.tokens
    ensures forall j | j in s.jobs && HasToken(s.jobs[j]) ::
              || s.jobs[j].stage.Running?
              || s.jobs[j].callback == Sealed
              || j in s.callbacks || s.caller == Some(j)
    ensures s.caller.Some? ==> s.tokens > 0
  {
    forall j | j in s.jobs && (s.jobs[j].callback == Waiting || s.jobs[j].callback == Calling) ensures j in Tokened(s.jobs) {
      WaitingHasToken(s, j);
    }
    DistinctSubset(s.callbacks, Tokened(s.jobs));
    forall j | j in s.jobs && s.jobs[j].callback == Registered ensures s.jobs[j].stage.Running? {
      assert StageOk(s.jobs[j]);
    }
  }

  /** A batch callback is called only if its request succeeded and its array was sent. */
  lemma CalledOnlyAfterSuccess(s: State, j: JobId)
    requires JobsOk(s) && j in s.jobs && (s.jobs[j].callback == Waiting || s.jobs[j].callback == Calling)
    ensures s.jobs[j].succeeded && s.jobs[j].slot.Some?
    ensures s.jobs[j].slot.value.0 in s.batches && FlushOk(s.batches[s.jobs[j].slot.value.0].flush)
  {
    assert StageOk(s.jobs[j]) && LinkOk(s.batches, j, s.jobs[j]);
  }

  /** It is called at most once, and never after its token was given back. */
  lemma CalledOnce(states: seq<State>, acts: seq<Action>, i: nat, j: JobId)
    requires IsRun(states, acts) && i < |states| && j in states[i].jobs && CallbackRank(states[i].jobs[j].callback) >= 4
    ensures forall k | i <= k < |acts| :: !(acts[k] == Call && states[k].callbacks[0] == j)
  {
    forall k | i <= k < |acts| ensures !(acts[k] == Call && states[k].callbacks[0] == j) {
      RunStep(states, acts, k);
      RunPersists(states, acts, i, k);
      LaterCallback(states[i], states[k], j);
    }
  }

  lemma LaterCallback(s: State, t: State, j: JobId)
    requires Persists(s, t) && j in s.jobs && CallbackRank(s.jobs[j].callback) >= 4
    requires CallbacksOk(t.jobs, t.callbacks, t.caller)
    ensures t.callbacks != [] ==> t.callbacks[0] != j
  {
    assert JobLater(s.jobs[j], t.jobs[j]);
  }

  // ------------------------------------------------- in every run

  /** No two live requests ever share a key, and each holds the reservation of its own. */
  lemma ReservationsUnique(states: seq<State>, acts: seq<Action>, i: nat, j: JobId, k: JobId)
    requires IsRun(states, acts) && i < |states| && j in states[i].jobs && k in states[i].jobs
    requires !states[i].jobs[j].finished && !states[i].jobs[k].finished && states[i].jobs[j].key == states[i].jobs[k].key
    ensures j == k && states[i].jobs[j].key in states[i].inflight && states[i].inflight[states[i].jobs[j].key] == j
  {
    RunInv(states, acts, i);
    LiveKeysDistinct(states[i], j, k);
  }

  /** Whatever happens to other requests, a live request keeps its reservation until one of the
      actions that end it. */
  lemma ReservationKeptUntilReply(states: seq<State>, acts: seq<Action>, i: nat, j: JobId)
    requires IsRun(states, acts) && i < |acts| && j in states[i].jobs && !states[i].jobs[j].finished
    requires !EndsReservation(states[i], acts[i], j)
    ensures j in states[i + 1].jobs && !states[i + 1].jobs[j].finished && states[i + 1].jobs[j].key == states[i].jobs[j].key
    ensures states[i + 1].jobs[j].key in states[i + 1].inflight && states[i + 1].inflight[states[i + 1].jobs[j].key] == j
  {
    RunStep(states, acts, i);
    ReservationLasts(states[i], acts[i], j);
    RunInv(states, acts, i + 1);
    KeyStays(states[i], states[i + 1], j);
    LiveKeysDistinct(states[i + 1], j, j);
  }

  lemma KeyStays(s: State, t: State, j: JobId)
    requires Persists(s, t) && j in s.jobs
    ensures j in t.jobs && t.jobs[j].key == s.jobs[j].key
  {
    assert JobLater(s.jobs[j], t.jobs[j]);
  }

  predicate SameBatch(jobs: map<JobId, Job>, j: JobId, k: JobId) {
    && j in jobs && k in jobs && jobs[j].slot.Some? && jobs[k].slot.Some?
    && jobs[j].slot.value.0 == jobs[k].slot.value.0
  }

  /** In every run a callback that is queued or called belongs to a request that succeeded, of a
      batch whose array was sent and all of whose requests are retired. */
  lemma CallbacksAfterFlush(states: seq<State>, acts: seq<Action>, i: nat, j: JobId, k: JobId)
    requires IsRun(states, acts) && i < |states| && j in states[i].jobs
    requires states[i].jobs[j].callback == Waiting || states[i].jobs[j].callback == Calling
    ensures states[i].jobs[j].succeeded && states[i].jobs[j].slot.Some?
    ensures states[i].jobs[j].slot.value.0 in states[i].batches
            && FlushOk(states[i].batches[states[i].jobs[j].slot.value.0].flush)
    ensures SameBatch(states[i].jobs, j, k) ==> states[i].jobs[k].finished
  {
    RunInv(states, acts, i);
    CalledOnlyAfterSuccess(states[i], j);
    HandedMeansHanding(states[i], j);
    if SameBatch(states[i].jobs, j, k) {
      RetiredBeforeCallbacks(states[i], states[i].jobs[j].slot.value.0, k);
    }
  }

  lemma HandedMeansHanding(s: State, j: JobId)
    requires JobsOk(s) && j in s.jobs && (s.jobs[j].callback == Waiting || s.jobs[j].callback == Calling)
    ensures s.jobs[j].slot.Some? && s.jobs[j].slot.value.0 in s.batches
    ensures s.batches[s.jobs[j].slot.value.0].flush.Handing? || s.batches[s.jobs[j].slot.value.0].flush.Flushed?
  {
    assert StageOk(s.jobs[j]) && LinkOk(s.batches, j, s.jobs[j]);
  }

  /** In every run the tokens are the callbacks registered by running handlers of batch requests,
      sealed in collectors, queued, or running, never more than the limit; and what the flush does
      with a callback next never blocks. */
  lemma TokensInEveryRun(states: seq<State>, acts: seq<Action>, i: nat, b: BatchId)
    requires IsRun(states, acts) && i < |states|
    ensures states[i].tokens == |Tokened(states[i].jobs)| <= states[i].limit && |states[i].callbacks| <= states[i].tokens
    ensures forall j | j in states[i].jobs && HasToken(states[i].jobs[j]) ::
              || states[i].jobs[j].stage.Running?
              || states[i].jobs[j].callback == Sealed
              || j in states[i].callbacks || states[i].caller == Some(j)
    ensures b in states[i].batches && states[i].batches[b].flush.Handing? ==> !HandBlocks(states[i], b)
  {
    RunInv(states, acts, i);
    TokensAccounted(states[i]);
    if b in states[i].batches && states[i].batches[b].flush.Handing? { HandNeverBlocks(states[i], b); }
  }

  /** In every run `remaining` is the number of unfilled slots, and the flush has begun exactly when
      there is none. */
  lemma RemainingCounts(states: seq<State>, acts: seq<Action>, i: nat, b: BatchId)
    requires IsRun(states, acts) && i < |states| && b in states[i].batches
    ensures states[i].batches[b].remaining == Missing(states[i].batches[b].slots)
    ensures !states[i].batches[b].flush.Open? <==>
            forall k | 0 <= k < |states[i].batches[b].slots| :: states[i].batches[b].slots[k].Filled?
  {
    RunInv(states, acts, i);
    FlushWhenFull(states[i], b);
  }
}
