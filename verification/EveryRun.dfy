/** What holds at every moment of every run of a connection. */
module EveryRun {
  import opened Results
  import opened Ids
  import opened Requests
  import opened Machine
  import opened Invariant
  import opened Runs
  import DeliveryLaws
  import SubmissionLaws
  import Feed
  import Gate

  /** The queue is the interval of the numbers not yet taken, up to the last accepted; frames in
      progress strictly increase; and the byte budget is the sum over all of them. */
  lemma NotificationsAccounted(states: seq<Conn>, acts: seq<Action>, i: nat)
    requires IsRun(states, acts) && i < |states|
    ensures var f := states[i].feed;
            && (forall k | 0 <= k < |f.queue| :: f.queue[k].seqNo == Feed.Started(f) + 1 + k)
            && (f.queue != [] ==> f.queue[|f.queue| - 1].seqNo == f.lastEnqueued)
            && (forall k, j | 0 <= k < j < |f.stack| :: f.stack[k].note.seqNo < f.stack[j].note.seqNo)
            && |f.queue| <= states[i].limits.queue
            && f.bytes == Feed.QueueBytes(f.queue) + Feed.StackBytes(f.stack) <= states[i].limits.bytes
  {
    RunInv(states, acts, i);
    DeliveryLaws.QueueAndStack(states[i].feed, states[i].limits.queue, states[i].limits.bytes);
  }

  /** The completion index represents exactly the finished notifications: those taken off the queue
      whose processing is over. */
  lemma IndexIsFinished(states: seq<Conn>, acts: seq<Action>, i: nat, n: nat)
    requires IsRun(states, acts) && i < |states| && n >= 1
    ensures var f := states[i].feed;
            && (Feed.Complete(f.index, n) <==> n <= Feed.Started(f) && !Feed.OnStack(f, n))
            && !Feed.Complete(f.index, f.index.watermark + 1)
            && (n in f.index.ahead ==> n > f.index.watermark + 1)
  {
    RunInv(states, acts, i);
    IndexFacts(states[i].feed, states[i].limits.queue, states[i].limits.bytes, n);
  }

  lemma IndexFacts(f: Feed.Feed, maxQueue: nat, maxBytes: nat, n: nat)
    requires Feed.FeedOk(f, maxQueue, maxBytes) && n >= 1
    ensures Feed.Complete(f.index, n) <==> n <= Feed.Started(f) && !Feed.OnStack(f, n)
    ensures !Feed.Complete(f.index, f.index.watermark + 1)
    ensures n in f.index.ahead ==> n > f.index.watermark + 1
  {
    assert Feed.Complete(f.index, n) <==> n <= Feed.Started(f) && !Feed.OnStack(f, n);
  }

  /** A notification is taken off the queue only by a waiter called from the frame on top, or by
      the worker while no frame is in progress: never by two of them. */
  lemma OnlyTopTakes(states: seq<Conn>, acts: seq<Action>, i: nat, w: WaitId)
    requires IsRun(states, acts) && i < |states| && Enabled(states[i], Wait(w, DrainTake))
    ensures states[i].feed.stack != [] && states[i].waits[w].frame == Some(Feed.Top(states[i].feed).note.seqNo)
    ensures !Enabled(states[i], Work(Take))
    ensures forall v | v != w :: !Enabled(states[i], Wait(v, DrainTake))
  {
    RunInv(states, acts, i);
    DeliveryLaws.OnlyTopTakes(states[i], w);
  }

  /** A re-entrant receive never finds the queue empty, and never another number than it needs. */
  lemma DrainFindsNext(states: seq<Conn>, acts: seq<Action>, i: nat, w: WaitId)
    requires IsRun(states, acts) && i < |states| && Alive(states[i], w) && ReqOf(states[i], w).outcome.Answer?
    requires NeedsNext(states[i].feed, states[i].waits[w], ReqOf(states[i], w).outcome.watermark)
    ensures states[i].feed.queue != [] && states[i].feed.queue[0].seqNo == states[i].waits[w].pc.next
  {
    RunInv(states, acts, i);
    DeliveryLaws.DrainFindsNext(states[i], w);
  }

  lemma DrainChoice(c: Conn, w: WaitId)
    requires Alive(c, w) && ReqOf(c, w).outcome.Answer? && DrainsAt(c.feed, c.waits[w])
    requires NeedsNext(c.feed, c.waits[w], ReqOf(c, w).outcome.watermark) ==>
               c.feed.queue != [] && c.feed.queue[0].seqNo == c.waits[w].pc.next
    ensures Enabled(c, Wait(w, if c.waits[w].pc.next > ReqOf(c, w).outcome.watermark then DrainEnd
                               else if Feed.Complete(c.feed.index, c.waits[w].pc.next) then DrainSkip else DrainTake))
  {
  }

  /** A draining waiter whose frame is on top is never stuck: past the watermark it is through, a
      finished number it skips, and any other it finds and takes. */
  lemma DrainGoesOn(states: seq<Conn>, acts: seq<Action>, i: nat, w: WaitId)
    requires IsRun(states, acts) && i < |states| && Alive(states[i], w) && ReqOf(states[i], w).outcome.Answer?
    requires DrainsAt(states[i].feed, states[i].waits[w])
    ensures var c := states[i];
            Enabled(c, Wait(w, if c.waits[w].pc.next > ReqOf(c, w).outcome.watermark then DrainEnd
                               else if Feed.Complete(c.feed.index, c.waits[w].pc.next) then DrainSkip else DrainTake))
  {
    if NeedsNext(states[i].feed, states[i].waits[w], ReqOf(states[i], w).outcome.watermark) { DrainFindsNext(states, acts, i, w); }
    DrainChoice(states[i], w);
  }

  /** When an observer or hook may start, every notification up to the response's watermark is
      finished or is on the call stack at or below the waiter's own frame. */
  lemma ResolutionOrdered(states: seq<Conn>, acts: seq<Action>, i: nat, w: WaitId, n: nat)
    requires IsRun(states, acts) && i < |states| && DeliveryLaws.CanResolve(states[i], w)
    ensures ReqOf(states[i], w).outcome.Answer?
    ensures 1 <= n <= ReqOf(states[i], w).outcome.watermark ==>
              || Feed.Complete(states[i].feed.index, n)
              || (states[i].waits[w].frame.Some? && n <= states[i].waits[w].frame.value && Feed.OnStack(states[i].feed, n))
  {
    RunInv(states, acts, i);
    DeliveryLaws.ResolutionOrdered(states[i], w, n);
  }

  /** When a handler may start, no observer or hook of a gated response received before its
      notification is running. */
  lemma NoResolutionWhileStarting(states: seq<Conn>, acts: seq<Action>, i: nat, w: WaitId)
    requires IsRun(states, acts) && i < |states| && CanWork(states[i], HandlerStart)
    requires Alive(states[i], w) && ReqOf(states[i], w).gated
    requires states[i].waits[w].pc == Observing || states[i].waits[w].pc == Hooking
    ensures ReqOf(states[i], w).outcome.Answer?
            && ReqOf(states[i], w).outcome.watermark >= Feed.Top(states[i].feed).note.seqNo
  {
    RunInv(states, acts, i);
    DeliveryLaws.NoResolutionWhileStarting(states[i], w);
  }

  /** The tokens taken are exactly the gated deliveries neither discarded nor pruned, and never
      more than the limit. */
  lemma SlotsConserved(states: seq<Conn>, acts: seq<Action>, i: nat)
    requires IsRun(states, acts) && i < |states|
    ensures states[i].gate.slots == |DeliveryLaws.Tokens(states[i])| <= states[i].limits.pending
  {
    RunInv(states, acts, i);
    DeliveryLaws.SlotsConserved(states[i]);
  }

  /** A delivery about to be discarded still has its token, and so has every one on the chain: no
      receive from the slot channel blocks. A discarded delivery was never chained. */
  lemma SlotReceivesNeverBlock(states: seq<Conn>, acts: seq<Action>, i: nat, r: ReqId, d: DeliveryStep)
    requires IsRun(states, acts) && i < |states| && Enabled(states[i], Delivery(r, d)) && states[i].reqs[r].gated
    ensures d.ReleaseDiscard? || d.ShutdownDiscard? ==>
              states[i].reqs[r].discarded || (r in states[i].gate.held && states[i].gate.slots > 0)
    ensures states[i].gate.chain != [] ==> states[i].gate.slots > 0
    ensures states[i].reqs[r].discarded ==> states[i].reqs[r].node < 0 && !CanRead(states[i], MatchResponse(r))
  {
    RunInv(states, acts, i);
    DeliveryLaws.SlotReceivesNeverBlock(states[i], r, d);
  }

  /** Every gated response ever chained is done or still on the chain, in arrival order. */
  lemma ChainRefinesHistory(states: seq<Conn>, acts: seq<Action>, i: nat, r: ReqId)
    requires IsRun(states, acts) && i < |states| && r in states[i].reqs && states[i].reqs[r].node >= 0
    ensures var g := states[i].gate;
            && states[i].reqs[r].node < |g.nodes|
            && (g.nodes[states[i].reqs[r].node].done || states[i].reqs[r].node in g.chain)
            && forall k, j | 0 <= k < j < |g.chain| :: g.chain[k] < g.chain[j]
  {
    RunInv(states, acts, i);
    DeliveryLaws.ChainRefinesHistory(states[i], r);
  }

  /** The pending table is bounded, and once shutdown has emptied it it stays empty for good. */
  lemma TableBounded(states: seq<Conn>, acts: seq<Action>, i: nat, j: nat)
    requires IsRun(states, acts) && i <= j < |states|
    ensures |Table(states[j])| <= states[j].limits.pending
    ensures states[i].cancelled ==> Table(states[j]) == {}
  {
    RunInv(states, acts, j);
    RunPersists(states, acts, i, j);
    DeliveryLaws.TableBounded(states[j]);
  }

  /** An entry that has left the table uncompleted is being completed by someone. */
  lemma NoneForgotten(states: seq<Conn>, acts: seq<Action>, i: nat, r: ReqId)
    requires IsRun(states, acts) && i < |states|
    requires r in states[i].reqs && !states[i].reqs[r].inTable && states[i].reqs[r].outcome.Waiting?
    ensures Reads(states[i].reader, r) || Completing(states[i].reqs[r])
  {
    RunInv(states, acts, i);
    DeliveryLaws.NoneForgotten(states[i], r);
  }

  /** At most one Wait resolves a request at any moment; while it does, the request's delivery
      stays undone on the chain, even if the request is abandoned, unless the connection is shut
      down. */
  lemma OneResolver(states: seq<Conn>, acts: seq<Action>, i: nat, w: WaitId)
    requires IsRun(states, acts) && i < |states| && w in states[i].waits && Resolver(states[i].waits[w].pc)
    ensures var c := states[i];
            && (forall v | v in c.waits && c.waits[v].req == c.waits[w].req && Resolver(c.waits[v].pc) :: v == w)
            && Alive(c, w)
            && (ReqOf(c, w).gated && !c.cancelled ==>
                  0 <= ReqOf(c, w).node < |c.gate.nodes| && !c.gate.nodes[ReqOf(c, w).node].done
                  && ReqOf(c, w).node in c.gate.chain)
  {
    RunInv(states, acts, i);
    SubmissionLaws.OneResolver(states[i], w);
  }

  /** An answer implies a response was accepted, that the request was admitted, and that it is
      Possible; and admitted requests are exactly the Possible ones. */
  lemma AnsweredIsPossible(states: seq<Conn>, acts: seq<Action>, i: nat, r: ReqId)
    requires IsRun(states, acts) && i < |states| && r in states[i].reqs
    ensures var q := states[i].reqs[r];
            && (q.outcome.Answer? ==> q.responded) && (q.responded ==> q.admitted)
            && (q.admitted <==> q.submission == Possible)
  {
    RunInv(states, acts, i);
    SubmissionLaws.AnsweredIsPossible(states[i].reqs[r], states[i].cancelled);
  }

  /** A Wait that reads the phase DispatchFailed returns a nil error exactly when Dispatch has not
      finished yet. */
  lemma FailedDispatchError(states: seq<Conn>, acts: seq<Action>, i: nat, w: WaitId)
    requires IsRun(states, acts) && i < |states|
    requires Enabled(states[i], Wait(w, ReadPhase)) && ReqOf(states[i], w).phase == DispatchFailed
    ensures Do(states[i], Wait(w, ReadPhase)).waits[w].pc == Gone(Refused(ReqOf(states[i], w).dispatchErr))
    ensures ReqOf(states[i], w).dispatchErr == None <==> !DispatchDone(ReqOf(states[i], w))
  {
    RunInv(states, acts, i);
    SubmissionLaws.FailedDispatchError(states[i], w);
  }

  /** A classification that an operation ends with is true of the request from then on: NotStarted
      means sealed, Possible means that the writer began. Excepted are the two exits that report a
      constant: the check of a Wait that read the phase Ready, and a CancelRequest whose
      notification failed. */
  lemma VerdictsStand(states: seq<Conn>, acts: seq<Action>, i: nat, j: nat, r: ReqId)
    requires IsRun(states, acts) && i < j < |states|
    requires Enabled(states[i], acts[i]) && SubmissionLaws.Verdict(states[i], acts[i], r).Some?
    requires !SubmissionLaws.ReportsBlindly(acts[i])
    ensures r in states[j].reqs
            && Stands(states[j].reqs[r], SubmissionLaws.Verdict(states[i], acts[i], r).value)
  {
    RunPair(states, acts, i, i);
    SubmissionLaws.VerdictStands(states[i], acts[i], r);
    RunPersists(states, acts, i + 1, j);
    StandsLater(states[i + 1], states[j], r, SubmissionLaws.Verdict(states[i], acts[i], r).value);
  }

  lemma StandsLater(c: Conn, d: Conn, r: ReqId, s: Submission)
    requires ReqsLater(c, d) && r in c.reqs && Stands(c.reqs[r], s)
    ensures r in d.reqs && Stands(d.reqs[r], s)
  {
    assert Later(c.reqs[r], d.reqs[r]);
  }
}
