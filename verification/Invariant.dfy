/** The invariant of a connection, and that every action keeps it. */
module Invariant {
  import opened Results
  import opened Ids
  import opened Requests
  import opened Machine
  import Feed
  import Gate

  // ------------------------------------------------- the clauses

  /** Delivery p belongs to the request that has it; it is done only because the request's
      release was called or the connection is shut down; its mark is a past queue end. */
  ghost predicate NodeOk(c: Conn, p: nat)
    requires p < |c.gate.nodes|
  {
    var n := c.gate.nodes[p];
    && n.req in c.reqs && c.reqs[n.req].node == p
    && (n.done ==> c.cancelled || c.reqs[n.req].releaseCalled)
    && n.mark <= c.feed.lastEnqueued
  }

  /** A request's delivery position, its slot and its watermark agree with the gate. */
  ghost predicate LinkOk(c: Conn, r: ReqId)
    requires r in c.reqs
  {
    var q := c.reqs[r];
    && r <= c.nextId
    && (q.node >= 0 ==> q.node < |c.gate.nodes| && c.gate.nodes[q.node].req == r)
    && (r in c.gate.held <==> q.gated && q.node < 0 && !q.discarded)
    && (q.outcome.Answer? ==> q.outcome.watermark <= c.feed.lastEnqueued)
    && (q.outcome.Answer? && q.node >= 0 ==> c.gate.nodes[q.node].mark == q.outcome.watermark)
    && (q.responded && q.outcome.Waiting? <==> Reads(c.reader, r))
  }

  predicate Reads(x: Reader, r: ReqId) {
    (x.Matched? || x.Chained? || x.Marked?) && x.req == r
  }

  ghost predicate GateLinked(c: Conn) {
    && Gate.GateOk(c.gate, c.limits.pending)
    && (forall p | 0 <= p < |c.gate.nodes| :: NodeOk(c, p))
    && (forall r | r in c.reqs :: LinkOk(c, r))
    && (forall r | r in c.gate.held :: r in c.reqs)
  }

  ghost predicate ReaderOk(c: Conn) {
    match c.reader
    case Reading => true
    case Stopped => true
    case AtBarrier(_, b) => -1 <= b < |c.gate.nodes| && Gate.GapDone(c.gate.nodes, b, |c.gate.nodes|)
    case Matched(r) => r in c.reqs && c.reqs[r].responded && c.reqs[r].outcome.Waiting? && c.reqs[r].node < 0
    case Chained(r) =>
      && r in c.reqs && c.reqs[r].responded && c.reqs[r].outcome.Waiting?
      && (c.reqs[r].gated ==>
            0 <= c.reqs[r].node < |c.gate.nodes| && c.gate.nodes[c.reqs[r].node].mark == c.feed.lastEnqueued)
    case Marked(r, m) =>
      && r in c.reqs && c.reqs[r].responded && c.reqs[r].outcome.Waiting? && m == c.feed.lastEnqueued
      && (c.reqs[r].gated ==>
            0 <= c.reqs[r].node < |c.gate.nodes| && c.gate.nodes[c.reqs[r].node].mark == m)
  }

  /** The responses chained before note n was accepted are exactly the first n.after of the
      history, and those behind the cursor on the way from n's barrier are done. */
  ghost predicate NoteOk(nodes: seq<Gate.Node>, n: Feed.Note, cursor: int) {
    && -1 <= cursor < n.after <= |nodes|
    && Gate.GapDone(nodes, cursor, n.after)
    && (forall p | 0 <= p < |nodes| :: p < n.after <==> nodes[p].mark < n.seqNo)
  }

  ghost predicate NotesOk(c: Conn) {
    && (forall i | 0 <= i < |c.feed.queue| :: NoteOk(c.gate.nodes, c.feed.queue[i], c.feed.queue[i].barrier))
    && (forall i | 0 <= i < |c.feed.stack| && c.feed.stack[i].stage.Walking? ::
          NoteOk(c.gate.nodes, c.feed.stack[i].note, c.feed.stack[i].stage.cursor))
  }

  /** Every notification up to the watermark is finished, or is at or below the waiter's frame. */
  ghost predicate OrderMet(f: Feed.Feed, frame: Option<nat>, watermark: nat) {
    forall n: nat | 1 <= n <= watermark :: Feed.Complete(f.index, n) || (frame.Some? && n <= frame.value)
  }

  predicate Resolver(pc: WaitPc) {
    || pc.Ordering? || pc.Draining? || pc.Polling? || pc.Cleared?
    || pc.Observing? || pc.Checked? || pc.Hooking? || pc.Settling?
  }

  predicate AtAnswer(pc: WaitPc) {
    Resolver(pc) || pc.Resolving? || pc.OnAttempt?
  }

  ghost predicate WaitOk(w: WaitId, x: Waiter, q: Req, f: Feed.Feed) {
    && (x.frame.Some? ==> Feed.Begun(f, x.frame.value))
    && (Resolver(x.pc) <==> q.resolver == Some(w))
    && (x.pc.AtResponse? || AtAnswer(x.pc) ==> Sent(q))
    && (AtAnswer(x.pc) ==> q.outcome.Answer?)
    && (x.pc.Draining? ==> DrainOk(w, x, q, f))
    && (x.pc.Cleared? || x.pc.Observing? || x.pc.Checked? || x.pc.Hooking? ==>
          q.outcome.Answer? && OrderMet(f, x.frame, q.outcome.watermark))
    && (x.pc.Ordering? || x.pc.Draining? || x.pc.Polling? || x.pc.Cleared? ==>
          q.observed == 0 && q.hooked == 0)
    && (x.pc.Observing? || x.pc.Checked? ==> q.hooked == 0)
    && (x.pc.Settling? && x.pc.retry ==> q.observed == 0 && q.hooked == 0)
    && (x.pc.Freeing? || x.pc.Leaving? ==> q.resolved && q.final == x.pc.pair)
    && (x.pc.Gone? && x.pc.result.Got? ==> q.resolved && q.final == x.pc.result.pair)
  }

  /** The waiter holds the mutex of its frame, and everything between the frame and the number
      it needs next is finished. */
  ghost predicate DrainOk(w: WaitId, x: Waiter, q: Req, f: Feed.Feed)
    requires x.pc.Draining?
  {
    var d := x.pc.depth;
    && d < |f.stack| && f.stack[d].stage.Running? && f.stack[d].stage.holder == Some(w)
    && x.frame == Some(f.stack[d].note.seqNo) && x.frame.value < x.pc.next
    && q.outcome.Answer? && x.pc.next <= q.outcome.watermark + 1
    && (forall n: nat | x.frame.value < n < x.pc.next :: Feed.Complete(f.index, n))
  }

  ghost predicate WaitsOk(c: Conn) {
    && (forall w | w in c.waits :: Alive(c, w) && WaitOk(w, c.waits[w], ReqOf(c, w), c.feed))
    && (forall r | r in c.reqs && c.reqs[r].resolver.Some? ::
          var w := c.reqs[r].resolver.value; w in c.waits && c.waits[w].req == r)
  }

  /** Whoever holds the mutex of a frame is draining from it. */
  ghost predicate HoldersOk(c: Conn) {
    forall d | 0 <= d < |c.feed.stack| && c.feed.stack[d].stage.Running? && c.feed.stack[d].stage.holder.Some? ::
      var w := c.feed.stack[d].stage.holder.value;
      w in c.waits && c.waits[w].pc.Draining? && c.waits[w].pc.depth == d
  }

  ghost predicate ReqsOk(c: Conn) {
    forall r | r in c.reqs :: ReqOk(c.reqs[r], c.cancelled)
  }

  ghost predicate Inv(c: Conn) {
    && Feed.FeedOk(c.feed, c.limits.queue, c.limits.bytes)
    && (c.feed.skipped ==> c.cancelled)
    && ReqsOk(c)
    && |Table(c)| <= c.limits.pending
    && GateLinked(c)
    && ReaderOk(c)
    && NotesOk(c)
    && WaitsOk(c)
    && HoldersOk(c)
  }

  lemma InitialInv(limits: Limits)
    ensures Inv(Initial(limits))
  {
    var c := Initial(limits);
    assert Table(c) == {};
    assert forall n: nat :: !Feed.OnStack(c.feed, n);
  }

  // ------------------------------------------------- tools

  lemma FeedLaterReflexive(f: Feed.Feed, v: Option<WaitId>)
    ensures Feed.Later(f, f, v)
  {
  }

  /** A waiter whose own position does not change is untouched by what others do. */
  lemma WaitStays(w: WaitId, x: Waiter, q: Req, q': Req, f: Feed.Feed, f': Feed.Feed, v: Option<WaitId>)
    requires WaitOk(w, x, q, f) && Later(q, q') && Feed.Later(f, f', v) && v != Some(w)
    requires q'.resolver == Some(w) <==> q.resolver == Some(w)
    requires q.resolver == Some(w) ==> q'.observed == q.observed && q'.hooked == q.hooked
    ensures WaitOk(w, x, q', f')
  {
  }

  lemma SubsetSize(s: set<ReqId>, t: set<ReqId>)
    requires s <= t
    ensures |s| <= |t|
  {
    assert t == s + (t - s);
  }

  /** The request has moved on, but not to or from a resolver. */
  predicate Moved(q: Req, q': Req) {
    Later(q, q') && q'.resolver == q.resolver && q'.observed == q.observed && q'.hooked == q.hooked
  }

  ghost predicate ReqsMove(c: Conn, c': Conn) {
    && c.reqs.Keys <= c'.reqs.Keys
    && (forall r | r in c.reqs :: Moved(c.reqs[r], c'.reqs[r]))
    && (forall r | r in c'.reqs && r !in c.reqs :: c'.reqs[r].resolver.None?)
  }

  lemma OneMoves(c: Conn, r: ReqId, c': Conn)
    requires r in c.reqs && r in c'.reqs && c'.reqs == c.reqs[r := c'.reqs[r]]
    requires Moved(c.reqs[r], c'.reqs[r])
    ensures ReqsMove(c, c')
  {
    forall t | t in c.reqs ensures Moved(c.reqs[t], c'.reqs[t]) {
      if t != r { LaterReflexive(c.reqs[t]); }
    }
  }

  lemma OneKept(c: Conn, r: ReqId, c': Conn)
    requires ReqsOk(c) && r in c'.reqs && c'.reqs == c.reqs[r := c'.reqs[r]] && c'.cancelled == c.cancelled
    requires ReqOk(c'.reqs[r], c.cancelled)
    ensures ReqsOk(c')
  {
  }

  /** All waiters stay when requests and notifications move on without them. */
  lemma WaitsStay(c: Conn, c': Conn)
    requires WaitsOk(c) && c'.waits == c.waits && ReqsMove(c, c')
    requires Feed.Later(c.feed, c'.feed, None)
    ensures WaitsOk(c')
  {
    forall w | w in c'.waits ensures Alive(c', w) && WaitOk(w, c'.waits[w], ReqOf(c', w), c'.feed) {
      assert Alive(c, w) && WaitOk(w, c.waits[w], ReqOf(c, w), c.feed);
      assert Moved(ReqOf(c, w), ReqOf(c', w));
      WaitStays(w, c.waits[w], ReqOf(c, w), ReqOf(c', w), c.feed, c'.feed, None);
    }
    forall r | r in c'.reqs && c'.reqs[r].resolver.Some?
      ensures var w := c'.reqs[r].resolver.value; w in c'.waits && c'.waits[w].req == r
    {
      assert r in c.reqs && Moved(c.reqs[r], c'.reqs[r]);
    }
  }

  lemma TableShrinks(c: Conn, c': Conn)
    requires ReqsMove(c, c') && c'.reqs.Keys == c.reqs.Keys
    ensures |Table(c')| <= |Table(c)|
  {
    forall r | r in Table(c') ensures r in Table(c) {
      assert Moved(c.reqs[r], c'.reqs[r]);
    }
    SubsetSize(Table(c'), Table(c));
  }

  // ------------------------------------------------- sections of one request

  lemma LocalLinks(c: Conn, r: ReqId, q': Req)
    requires GateLinked(c) && ReaderOk(c) && r in c.reqs
    requires SameLinks(c.reqs[r], q') && Later(c.reqs[r], q')
    ensures GateLinked(SetReq(c, r, q')) && ReaderOk(SetReq(c, r, q'))
  {
    var c' := SetReq(c, r, q');
    forall p | 0 <= p < |c'.gate.nodes| ensures NodeOk(c', p) {
      assert NodeOk(c, p);
    }
    forall s | s in c'.reqs ensures LinkOk(c', s) {
      assert LinkOk(c, s);
    }
  }

  lemma OneWaits(c: Conn, c': Conn)
    requires WaitsOk(c) && HoldersOk(c) && ReqsMove(c, c') && c'.waits == c.waits && c'.feed == c.feed
    ensures WaitsOk(c') && HoldersOk(c')
  {
    FeedLaterReflexive(c.feed, None);
    WaitsStay(c, c');
  }

  lemma MovedRest(c: Conn, c': Conn)
    requires WaitsOk(c) && HoldersOk(c) && ReqsMove(c, c') && c'.waits == c.waits && c'.feed == c.feed
    requires c'.reqs.Keys == c.reqs.Keys
    ensures WaitsOk(c') && HoldersOk(c') && |Table(c')| <= |Table(c)|
  {
    OneWaits(c, c');
    TableShrinks(c, c');
  }

  lemma OneRequestRest(c: Conn, r: ReqId, c': Conn)
    requires ReqsOk(c) && WaitsOk(c) && HoldersOk(c) && r in c.reqs && r in c'.reqs
    requires c'.reqs == c.reqs[r := c'.reqs[r]] && c'.waits == c.waits && c'.feed == c.feed
    requires c'.cancelled == c.cancelled
    requires ReqOk(c'.reqs[r], c.cancelled) && Moved(c.reqs[r], c'.reqs[r])
    ensures ReqsOk(c') && WaitsOk(c') && HoldersOk(c') && |Table(c')| <= |Table(c)|
  {
    OneKept(c, r, c');
    OneMoves(c, r, c');
    MovedRest(c, c');
  }

  /** What follows for the whole connection when one request, and perhaps the gate, changes. */
  lemma OneRequest(c: Conn, r: ReqId, c': Conn)
    requires Inv(c) && r in c.reqs && r in c'.reqs
    requires c' == SetReq(c, r, c'.reqs[r]).(gate := c'.gate)
    requires ReqOk(c'.reqs[r], c.cancelled) && Moved(c.reqs[r], c'.reqs[r])
    requires GateLinked(c') && ReaderOk(c') && NotesOk(c')
    ensures Inv(c')
  {
    OneRequestRest(c, r, c');
  }

  lemma RequestKeeps(c: Conn, r: ReqId, s: Step)
    requires Inv(c) && r in c.reqs && CanStep(c.reqs[r], s, c.cancelled)
    ensures Inv(SetReq(c, r, DoStep(c.reqs[r], s, c.cancelled)))
  {
    var q' := DoStep(c.reqs[r], s, c.cancelled);
    StepKeeps(c.reqs[r], s, c.cancelled);
    LocalLinks(c, r, q');
    OneRequest(c, r, SetReq(c, r, q'));
  }

  // ------------------------------------------------- deliveries

  lemma DropLinks(c: Conn, r: ReqId, q': Req)
    requires GateLinked(c) && ReaderOk(c) && r in c.reqs
    requires var q := c.reqs[r];
             && q.node < 0 && !q.responded
             && q' == q.(discarded := q.gated, release := q'.release, shutdown := q'.shutdown)
    ensures var c' := SetReq(c, r, q').(gate := Dropped(c.gate, r)); GateLinked(c') && ReaderOk(c')
  {
    var c' := SetReq(c, r, q').(gate := Dropped(c.gate, r));
    assert LinkOk(c, r);
    if r in c.gate.held {
      Gate.DropKeeps(c.gate, r, c.limits.pending);
    }
    forall p | 0 <= p < |c'.gate.nodes| ensures NodeOk(c', p) {
      assert NodeOk(c, p);
    }
    forall s | s in c'.reqs ensures LinkOk(c', s) {
      assert LinkOk(c, s);
    }
  }

  lemma CloseNotes(c: Conn, g: Gate.Gate)
    requires NotesOk(c) && |g.nodes| == |c.gate.nodes|
    requires forall p | 0 <= p < |g.nodes| :: g.nodes[p].mark == c.gate.nodes[p].mark
    requires forall lo, hi :: Gate.GapDone(c.gate.nodes, lo, hi) ==> Gate.GapDone(g.nodes, lo, hi)
    ensures NotesOk(c.(gate := g))
  {
    forall i | 0 <= i < |c.feed.queue|
      ensures NoteOk(g.nodes, c.feed.queue[i], c.feed.queue[i].barrier)
    {
      assert NoteOk(c.gate.nodes, c.feed.queue[i], c.feed.queue[i].barrier);
    }
    forall i | 0 <= i < |c.feed.stack| && c.feed.stack[i].stage.Walking?
      ensures NoteOk(g.nodes, c.feed.stack[i].note, c.feed.stack[i].stage.cursor)
    {
      assert NoteOk(c.gate.nodes, c.feed.stack[i].note, c.feed.stack[i].stage.cursor);
    }
  }

  lemma CloseLinks(c: Conn, r: ReqId, q': Req)
    requires GateLinked(c) && ReaderOk(c) && NotesOk(c) && r in c.reqs
    requires var q := c.reqs[r];
             && q.responded && !q.outcome.Waiting? && (c.cancelled || q.releaseCalled)
             && q' == q.(release := q'.release, shutdown := q'.shutdown)
    ensures var c' := SetReq(c, r, q').(gate := Closed(c.gate, c.reqs[r].node));
            GateLinked(c') && ReaderOk(c') && NotesOk(c')
  {
    var p := c.reqs[r].node;
    var c' := SetReq(c, r, q').(gate := Closed(c.gate, p));
    assert LinkOk(c, r);
    if p >= 0 {
      Gate.CloseKeeps(c.gate, p, c.limits.pending);
    }
    forall k | 0 <= k < |c'.gate.nodes| ensures NodeOk(c', k) {
      assert NodeOk(c, k);
    }
    forall s | s in c'.reqs ensures LinkOk(c', s) {
      assert LinkOk(c, s);
    }
    CloseNotes(c, c'.gate);
  }

  lemma DeliveryKeeps(c: Conn, r: ReqId, d: DeliveryStep)
    requires Inv(c) && r in c.reqs && CanDeliver(c.reqs[r], d)
    ensures Inv(DoDeliver(c, r, d))
  {
    match d
    case ReleaseDiscard => DiscardReleased(c, r);
    case ReleaseClose => CloseReleased(c, r);
    case ShutdownDiscard => DiscardShut(c, r);
    case ShutdownClose => CloseShut(c, r);
  }

  lemma DiscardReleased(c: Conn, r: ReqId)
    requires Inv(c) && r in c.reqs && CanDeliver(c.reqs[r], ReleaseDiscard)
    ensures Inv(DoDeliver(c, r, ReleaseDiscard))
  {
    ReleaseDiscardKeeps(c.reqs[r], c.cancelled);
    DropLinks(c, r, Requests.ReleaseDiscard(c.reqs[r]));
    OneRequest(c, r, DoDeliver(c, r, ReleaseDiscard));
  }

  lemma CloseReleased(c: Conn, r: ReqId)
    requires Inv(c) && r in c.reqs && CanDeliver(c.reqs[r], ReleaseClose)
    ensures Inv(DoDeliver(c, r, ReleaseClose))
  {
    ReleaseCloseKeeps(c.reqs[r], c.cancelled);
    CloseLinks(c, r, Requests.ReleaseClose(c.reqs[r]));
    OneRequest(c, r, DoDeliver(c, r, ReleaseClose));
  }

  lemma DiscardShut(c: Conn, r: ReqId)
    requires Inv(c) && r in c.reqs && CanDeliver(c.reqs[r], ShutdownDiscard)
    ensures Inv(DoDeliver(c, r, ShutdownDiscard))
  {
    ShutdownDiscardKeeps(c.reqs[r], c.cancelled);
    DropLinks(c, r, Requests.ShutdownDiscard(c.reqs[r]));
    OneRequest(c, r, DoDeliver(c, r, ShutdownDiscard));
  }

  lemma CloseShut(c: Conn, r: ReqId)
    requires Inv(c) && r in c.reqs && CanDeliver(c.reqs[r], ShutdownClose)
    ensures Inv(DoDeliver(c, r, ShutdownClose))
  {
    ShutdownCloseKeeps(c.reqs[r], c.cancelled);
    CloseLinks(c, r, Requests.ShutdownClose(c.reqs[r]));
    OneRequest(c, r, DoDeliver(c, r, ShutdownClose));
  }

  // ------------------------------------------------- registration, pruning, shutdown

  lemma NextIdFree(c: Conn)
    requires GateLinked(c)
    ensures c.nextId + 1 !in c.reqs
  {
    forall r | r in c.reqs ensures r <= c.nextId { assert LinkOk(c, r); }
  }


  lemma PrepareLinks(c: Conn, gated: bool, hook: bool)
    requires GateLinked(c) && ReaderOk(c) && CanPrepare(c, gated)
    ensures GateLinked(DoPrepare(c, gated, hook)) && ReaderOk(DoPrepare(c, gated, hook))
    ensures c.nextId + 1 !in c.reqs
  {
    var c' := DoPrepare(c, gated, hook);
    var r := c.nextId + 1;
    forall s | s in c.reqs ensures s <= c.nextId {
      assert LinkOk(c, s);
    }
    if gated { Gate.GrabKeeps(c.gate, r, c.limits.pending); }
    forall p | 0 <= p < |c'.gate.nodes| ensures NodeOk(c', p) {
      assert NodeOk(c, p);
    }
    forall s | s in c'.reqs ensures LinkOk(c', s) {
      if s != r { assert LinkOk(c, s); }
    }
  }

  lemma FreshOk(gated: bool, hook: bool)
    ensures ReqOk(Fresh(gated, hook), false)
  {
  }

  lemma PrepareMoves(c: Conn, r: ReqId, q: Req, c': Conn)
    requires r !in c.reqs && c'.reqs == c.reqs[r := q] && q.resolver.None?
    ensures ReqsMove(c, c')
  {
    forall t | t in c.reqs ensures Moved(c.reqs[t], c'.reqs[t]) {
      assert c'.reqs[t] == c.reqs[t];
      LaterReflexive(c.reqs[t]);
    }
  }

  lemma PrepareTable(c: Conn, r: ReqId, q: Req, c': Conn)
    requires r !in c.reqs && c'.reqs == c.reqs[r := q] && q.inTable
    ensures |Table(c')| == |Table(c)| + 1
  {
    assert Table(c') == Table(c) + {r};
  }

  lemma PrepareKeeps(c: Conn, gated: bool, hook: bool)
    requires Inv(c) && CanPrepare(c, gated)
    ensures Inv(DoPrepare(c, gated, hook))
  {
    var c' := DoPrepare(c, gated, hook);
    PrepareLinks(c, gated, hook);
    FreshOk(gated, hook);
    OneKept(c, c.nextId + 1, c');
    PrepareMoves(c, c.nextId + 1, Fresh(gated, hook), c');
    PrepareTable(c, c.nextId + 1, Fresh(gated, hook), c');
    FeedLaterReflexive(c.feed, None);
    WaitsStay(c, c');
  }

  lemma PrunedOk(c: Conn)
    requires Gate.GateOk(c.gate, c.limits.pending)
    ensures Pruned(c.gate) == Gate.Prune(c.gate) && Gate.GateOk(Pruned(c.gate), c.limits.pending)
    ensures Pruned(c.gate).nodes == c.gate.nodes && Pruned(c.gate).held == c.gate.held
  {
    Gate.PruneKeeps(c.gate, c.limits.pending);
  }

  lemma PruneLinks(c: Conn)
    requires GateLinked(c)
    ensures GateLinked(c.(gate := Pruned(c.gate)))
  {
    var c' := c.(gate := Pruned(c.gate));
    PrunedOk(c);
    forall p | 0 <= p < |c'.gate.nodes| ensures NodeOk(c', p) {
      assert NodeOk(c, p);
    }
    forall s | s in c'.reqs ensures LinkOk(c', s) {
      assert LinkOk(c, s);
    }
  }

  lemma SweepKeeps(c: Conn)
    requires Inv(c)
    ensures Inv(c.(gate := Pruned(c.gate)))
  {
    PruneLinks(c);
    PrunedOk(c);
    WaitsSame(c, c.(gate := Pruned(c.gate)));
  }

  lemma WaitsSame(c: Conn, c': Conn)
    requires WaitsOk(c) && HoldersOk(c) && c'.waits == c.waits && c'.reqs == c.reqs && c'.feed == c.feed
    ensures WaitsOk(c') && HoldersOk(c') && Table(c') == Table(c)
  {
    forall w | w in c'.waits ensures Alive(c', w) && WaitOk(w, c'.waits[w], ReqOf(c', w), c'.feed) {
      assert Alive(c, w) && WaitOk(w, c.waits[w], ReqOf(c, w), c.feed);
    }
  }

  lemma ShutdownReqs(c: Conn)
    requires ReqsOk(c) && !c.cancelled
    ensures ReqsOk(DoShutdown(c)) && ReqsMove(c, DoShutdown(c))
  {
    var c' := DoShutdown(c);
    forall r | r in c.reqs ensures ReqOk(c'.reqs[r], true) && Moved(c.reqs[r], c'.reqs[r]) {
      ShutdownTakeKeeps(c.reqs[r]);
    }
  }

  lemma ShutdownLinks(c: Conn)
    requires GateLinked(c) && ReaderOk(c)
    ensures GateLinked(DoShutdown(c)) && ReaderOk(DoShutdown(c))
  {
    var c' := DoShutdown(c);
    forall p | 0 <= p < |c'.gate.nodes| ensures NodeOk(c', p) {
      assert NodeOk(c, p);
    }
    forall s | s in c'.reqs ensures LinkOk(c', s) {
      assert LinkOk(c, s);
    }
  }

  lemma ShutdownRest(c: Conn)
    requires ReqsOk(c) && WaitsOk(c) && HoldersOk(c) && !c.cancelled
    ensures var c' := DoShutdown(c); ReqsOk(c') && WaitsOk(c') && HoldersOk(c') && Table(c') == {}
  {
    ShutdownReqs(c);
    FeedLaterReflexive(c.feed, None);
    WaitsStay(c, DoShutdown(c));
  }

  lemma ShutdownKeeps(c: Conn)
    requires Inv(c) && !c.cancelled
    ensures Inv(DoShutdown(c)) && Table(DoShutdown(c)) == {}
  {
    ShutdownRest(c);
    ShutdownLinks(c);
  }
}
