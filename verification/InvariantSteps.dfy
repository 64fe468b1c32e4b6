/** The reader, the notification worker and the waiters keep the invariant of the connection. */
module InvariantSteps {
  import opened Results
  import opened Ids
  import opened Requests
  import opened Machine
  import opened Invariant
  import Feed
  import Gate

  // ------------------------------------------------- the reader

  lemma ReaderMoves(c: Conn, x: Reader)
    requires Inv(c) && ReaderOk(c.(reader := x))
    requires forall r | r in c.reqs :: Reads(x, r) <==> Reads(c.reader, r)
    ensures Inv(c.(reader := x))
  {
    var c' := c.(reader := x);
    ReaderLinks(c, x);
    WaitsSame(c, c');
  }

  lemma ReaderLinks(c: Conn, x: Reader)
    requires GateLinked(c)
    requires forall r | r in c.reqs :: Reads(x, r) <==> Reads(c.reader, r)
    ensures GateLinked(c.(reader := x))
  {
    var c' := c.(reader := x);
    forall p | 0 <= p < |c'.gate.nodes| ensures NodeOk(c', p) {
      assert NodeOk(c, p);
    }
    forall s | s in c'.reqs ensures LinkOk(c', s) {
      assert LinkOk(c, s);
    }
  }

  lemma NoteBeginKeeps(c: Conn, size: nat)
    requires Inv(c) && c.reader == Reading
    ensures Inv(DoRead(c, NoteBegin(size)))
  {
    SweepKeeps(c);
    PrunedOk(c);
    var b := c.(gate := Pruned(c.gate));
    ReaderMoves(b, AtBarrier(size, Gate.Last(b.gate)));
  }

  lemma AcceptLinks(c: Conn, f: Feed.Feed)
    requires GateLinked(c) && c.reader.AtBarrier? && c.feed.lastEnqueued <= f.lastEnqueued
    ensures GateLinked(c.(feed := f, reader := Reading))
  {
    var c' := c.(feed := f, reader := Reading);
    forall p | 0 <= p < |c'.gate.nodes| ensures NodeOk(c', p) {
      assert NodeOk(c, p);
    }
    forall s | s in c'.reqs ensures LinkOk(c', s) {
      assert LinkOk(c, s);
    }
  }

  lemma AcceptNotes(c: Conn)
    requires NotesOk(c) && GateLinked(c) && ReaderOk(c) && c.reader.AtBarrier?
    ensures NotesOk(c.(feed := Feed.Accept(c.feed, c.reader.size, c.reader.barrier, |c.gate.nodes|)))
  {
    var f := Feed.Accept(c.feed, c.reader.size, c.reader.barrier, |c.gate.nodes|);
    var k := |c.feed.queue|;
    assert NoteOk(c.gate.nodes, f.queue[k], f.queue[k].barrier) by {
      forall p | 0 <= p < |c.gate.nodes| ensures c.gate.nodes[p].mark < f.queue[k].seqNo {
        assert NodeOk(c, p);
      }
    }
    assert forall i | 0 <= i < k :: f.queue[i] == c.feed.queue[i];
  }

  lemma MovesNowhere(c: Conn, c': Conn)
    requires c'.reqs == c.reqs
    ensures ReqsMove(c, c')
  {
    forall t | t in c.reqs ensures Moved(c.reqs[t], c'.reqs[t]) {
      LaterReflexive(c.reqs[t]);
    }
  }

  lemma HoldersStay(c: Conn, c': Conn)
    requires HoldersOk(c) && c'.waits == c.waits && Feed.Later(c.feed, c'.feed, None)
    ensures HoldersOk(c')
  {
  }

  lemma NoteAcceptKeeps(c: Conn)
    requires Inv(c) && CanRead(c, NoteAccept)
    ensures Inv(DoRead(c, NoteAccept))
  {
    var c' := DoRead(c, NoteAccept);
    Feed.AcceptKeeps(c.feed, c.reader.size, c.reader.barrier, |c.gate.nodes|, c.limits.queue, c.limits.bytes);
    AcceptLinks(c, c'.feed);
    AcceptNotes(c);
    FeedRest(c, c');
  }

  /** Waiters and holders, when only the notifications move on. */
  lemma FeedRest(c: Conn, c': Conn)
    requires ReqsOk(c) && WaitsOk(c) && HoldersOk(c)
    requires c'.waits == c.waits && c'.reqs == c.reqs && c'.cancelled == c.cancelled
    requires Feed.Later(c.feed, c'.feed, None)
    ensures ReqsOk(c') && WaitsOk(c') && HoldersOk(c') && Table(c') == Table(c)
  {
    MovesNowhere(c, c');
    WaitsStay(c, c');
    HoldersStay(c, c');
  }

  lemma MatchLinks(c: Conn, r: ReqId)
    requires GateLinked(c) && r in c.reqs && ReqOk(c.reqs[r], c.cancelled) && CanRead(c, MatchResponse(r))
    ensures var c' := DoRead(c, MatchResponse(r)); GateLinked(c') && ReaderOk(c')
  {
    var c' := DoRead(c, MatchResponse(r));
    forall p | 0 <= p < |c'.gate.nodes| ensures NodeOk(c', p) {
      assert NodeOk(c, p);
    }
    forall s | s in c'.reqs ensures LinkOk(c', s) {
      assert LinkOk(c, s);
    }
  }

  lemma MatchKeeps(c: Conn, r: ReqId)
    requires Inv(c) && CanRead(c, MatchResponse(r))
    ensures Inv(DoRead(c, MatchResponse(r)))
  {
    var c' := DoRead(c, MatchResponse(r));
    Requests.MatchKeeps(c.reqs[r], c.cancelled);
    MatchLinks(c, r);
    OneRequestRest(c, r, c');
  }

  lemma PushNotes(c: Conn, r: ReqId)
    requires NotesOk(c) && Feed.FeedOk(c.feed, c.limits.queue, c.limits.bytes)
    ensures NotesOk(c.(gate := Gate.Push(c.gate, r, c.feed.lastEnqueued)))
  {
    var g := Gate.Push(c.gate, r, c.feed.lastEnqueued);
    forall n: Feed.Note, cursor | NoteOk(c.gate.nodes, n, cursor) && n.seqNo <= c.feed.lastEnqueued
      ensures NoteOk(g.nodes, n, cursor)
    {
      assert forall p | 0 <= p < |c.gate.nodes| :: g.nodes[p] == c.gate.nodes[p];
    }
  }

  function Chain(c: Conn, r: ReqId): Conn
    requires r in c.reqs
  {
    SetReq(c, r, Requests.Chain(c.reqs[r], |c.gate.nodes|))
      .(gate := Gate.Push(c.gate, r, c.feed.lastEnqueued), reader := Chained(r))
  }

  lemma ChainNodes(c: Conn, r: ReqId)
    requires GateLinked(c) && r in c.reqs && c.reqs[r].node < 0
    ensures forall p | 0 <= p < |Chain(c, r).gate.nodes| :: NodeOk(Chain(c, r), p)
  {
    forall p | 0 <= p < |Chain(c, r).gate.nodes| ensures NodeOk(Chain(c, r), p) {
      if p < |c.gate.nodes| { assert NodeOk(c, p); }
    }
  }

  lemma ChainRequests(c: Conn, r: ReqId)
    requires GateLinked(c) && c.reader == Matched(r) && r in c.reqs && c.reqs[r].gated && c.reqs[r].outcome.Waiting?
    requires c.reqs[r].responded && c.reqs[r].node < 0
    ensures forall s | s in c.reqs :: LinkOk(Chain(c, r), s)
  {
    forall s | s in c.reqs ensures LinkOk(Chain(c, r), s) {
      assert LinkOk(c, s);
    }
  }

  lemma ChainLinks(c: Conn, r: ReqId)
    requires GateLinked(c) && ReaderOk(c) && c.reader == Matched(r) && c.reqs[r].gated && PendingOk(c.reqs[r], c.cancelled)
    ensures GateLinked(Chain(c, r)) && ReaderOk(Chain(c, r))
  {
    assert LinkOk(c, r);
    Gate.PushKeeps(c.gate, r, c.feed.lastEnqueued, c.limits.pending);
    ChainNodes(c, r);
    ChainRequests(c, r);
    assert Chain(c, r).reqs.Keys == c.reqs.Keys;
  }

  lemma ChainPrunedKeeps(c: Conn, r: ReqId)
    requires Inv(c) && c.reader == Matched(r) && c.reqs[r].gated
    ensures Inv(Chain(c, r))
  {
    assert c.reqs[r].node == -1;
    Requests.ChainKeeps(c.reqs[r], c.cancelled, |c.gate.nodes|);
    ChainLinks(c, r);
    PushNotes(c, r);
    OneRequestRest(c, r, Chain(c, r));
  }

  lemma ChainKeeps(c: Conn)
    requires Inv(c) && CanRead(c, ChainResponse)
    ensures Inv(DoRead(c, ChainResponse))
  {
    var r := c.reader.req;
    if c.reqs[r].gated {
      SweepKeeps(c);
      ChainPrunedKeeps(c.(gate := Pruned(c.gate)), r);
    } else {
      ReaderMoves(c, Chained(r));
    }
  }

  lemma WatermarkKeeps(c: Conn)
    requires Inv(c) && CanRead(c, ReadWatermark)
    ensures Inv(DoRead(c, ReadWatermark))
  {
    ReaderMoves(c, Marked(c.reader.req, c.feed.lastEnqueued));
  }

  lemma DeliverLinks(c: Conn, r: ReqId, m: nat)
    requires GateLinked(c) && ReaderOk(c) && c.reader == Marked(r, m) && ReqOk(c.reqs[r], c.cancelled)
    ensures var c' := SetReq(c, r, Requests.Deliver(c.reqs[r], m)).(reader := Reading);
            GateLinked(c') && ReaderOk(c')
  {
    var c' := SetReq(c, r, Requests.Deliver(c.reqs[r], m)).(reader := Reading);
    forall p | 0 <= p < |c'.gate.nodes| ensures NodeOk(c', p) {
      assert NodeOk(c, p);
    }
    forall s | s in c'.reqs ensures LinkOk(c', s) {
      assert LinkOk(c, s);
    }
  }

  lemma DeliverKeeps(c: Conn)
    requires Inv(c) && CanRead(c, DeliverResponse)
    ensures Inv(DoRead(c, DeliverResponse))
  {
    var r := c.reader.req;
    var q' := Requests.Deliver(c.reqs[r], c.reader.watermark);
    var c' := SetReq(c, r, q').(reader := Reading);
    Requests.DeliverKeeps(c.reqs[r], c.cancelled, c.reader.watermark);
    DeliverLinks(c, r, c.reader.watermark);
    OneRequestRest(c, r, c');
    assert DoRead(c, DeliverResponse) == c';
  }

  lemma NoteReadKeeps(c: Conn, x: ReaderStep)
    requires Inv(c) && CanRead(c, x) && (x.NoteBegin? || x.NoteAccept? || x.NoteReject?)
    ensures Inv(DoRead(c, x))
  {
    match x
    case NoteBegin(size) => NoteBeginKeeps(c, size);
    case NoteAccept => NoteAcceptKeeps(c);
    case NoteReject => ReaderMoves(c, Stopped);
  }

  lemma ReadKeeps(c: Conn, x: ReaderStep)
    requires Inv(c) && CanRead(c, x)
    ensures Inv(DoRead(c, x))
  {
    match x
    case MatchResponse(r) => MatchKeeps(c, r);
    case ChainResponse => ChainKeeps(c);
    case ReadWatermark => WatermarkKeeps(c);
    case DeliverResponse => DeliverKeeps(c);
    case _ => NoteReadKeeps(c, x);
  }

  // ------------------------------------------------- processNotification

  /** A step of the notifications alone. */
  lemma FeedStep(c: Conn, f: Feed.Feed)
    requires Inv(c) && Feed.FeedOk(f, c.limits.queue, c.limits.bytes)
    requires Feed.Later(c.feed, f, None) && f.lastEnqueued == c.feed.lastEnqueued
    requires f.skipped ==> c.cancelled
    requires NotesOk(c.(feed := f))
    ensures Inv(c.(feed := f))
  {
    var c' := c.(feed := f);
    FeedLinks(c, f);
    FeedRest(c, c');
  }

  lemma FeedLinks(c: Conn, f: Feed.Feed)
    requires GateLinked(c) && ReaderOk(c) && f.lastEnqueued == c.feed.lastEnqueued
    ensures GateLinked(c.(feed := f)) && ReaderOk(c.(feed := f))
  {
    var c' := c.(feed := f);
    forall p | 0 <= p < |c'.gate.nodes| ensures NodeOk(c', p) {
      assert NodeOk(c, p);
    }
    forall s | s in c'.reqs ensures LinkOk(c', s) {
      assert LinkOk(c, s);
    }
  }

  lemma TakeNotes(c: Conn)
    requires NotesOk(c) && c.feed.queue != []
    ensures NotesOk(c.(feed := Feed.Dequeue(c.feed)))
  {
    var f := Feed.Dequeue(c.feed);
    assert NoteOk(c.gate.nodes, c.feed.queue[0], c.feed.queue[0].barrier);
    assert forall i | 0 <= i < |f.queue| :: f.queue[i] == c.feed.queue[i + 1];
  }

  lemma WalkNotes(c: Conn)
    requires NotesOk(c) && Gate.Linked(c.gate) && CanWork(c, Walk)
    ensures NotesOk(c.(feed := DoWork(c, Walk)))
  {
    var k := |c.feed.stack| - 1;
    var n := c.feed.stack[k].note;
    var p := c.feed.stack[k].stage.cursor;
    assert NoteOk(c.gate.nodes, n, p);
    assert Gate.PrevOk(c.gate.nodes, p);
    assert NoteOk(c.gate.nodes, n, c.gate.nodes[p].prev);
  }

  lemma WorkNotes(c: Conn, x: WorkStep)
    requires NotesOk(c) && Gate.Linked(c.gate) && CanWork(c, x)
    ensures NotesOk(c.(feed := DoWork(c, x)))
  {
    match x
    case Take => TakeNotes(c);
    case Walk => WalkNotes(c);
    case _ =>
  }

  lemma WorkFeed(c: Conn, x: WorkStep)
    requires Feed.FeedOk(c.feed, c.limits.queue, c.limits.bytes) && (c.feed.skipped ==> c.cancelled)
    requires CanWork(c, x)
    ensures Feed.FeedOk(DoWork(c, x), c.limits.queue, c.limits.bytes)
    ensures Feed.Later(c.feed, DoWork(c, x), None)
    ensures DoWork(c, x).lastEnqueued == c.feed.lastEnqueued && (DoWork(c, x).skipped ==> c.cancelled)
  {
    var q, b := c.limits.queue, c.limits.bytes;
    match x
    case Take => Feed.DequeueKeeps(c.feed, q, b);
    case Walk => Feed.WalkKeeps(c.feed, c.gate.nodes[Feed.Top(c.feed).stage.cursor].prev, q, b);
    case Skip => Feed.SkipTopKeeps(c.feed, q, b);
    case HandlerStart => Feed.StartTopKeeps(c.feed, q, b);
    case HandlerReturn(d) => Feed.RunningKeeps(c.feed, d, c.feed.stack[d].stage.(returned := true), None, q, b);
    case FrameEnd => Feed.EndTopKeeps(c.feed, q, b);
    case FrameMark => Feed.MarkTopKeeps(c.feed, q, b);
    case FramePop => Feed.PopKeeps(c.feed, q, b);
  }

  lemma WorkKeeps(c: Conn, x: WorkStep)
    requires Inv(c) && CanWork(c, x)
    ensures Inv(c.(feed := DoWork(c, x)))
  {
    WorkFeed(c, x);
    WorkNotes(c, x);
    FeedStep(c, DoWork(c, x));
  }
}
