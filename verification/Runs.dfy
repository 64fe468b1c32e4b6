/** Whole runs of a connection: the invariant holds in every state, and what a state has settled
    stays settled. */
module Runs {
  import opened Results
  import opened Ids
  import opened Requests
  import opened Machine
  import opened Invariant
  import InvariantSteps
  import InvariantWaits
  import Feed
  import Gate

  // ------------------------------------------------- every action keeps the invariant

  lemma SectionKeeps(c: Conn, a: Action)
    requires Inv(c) && Enabled(c, a) && (a.Prepare? || a.Request? || a.Delivery? || a.Sweep? || a.Shutdown?)
    ensures Inv(Do(c, a))
  {
    match a
    case Prepare(gated, hook) => PrepareKeeps(c, gated, hook);
    case Request(r, s) => RequestKeeps(c, r, s);
    case Delivery(r, d) => DeliveryKeeps(c, r, d);
    case Sweep => SweepKeeps(c);
    case Shutdown => ShutdownKeeps(c);
  }

  lemma StreamKeeps(c: Conn, a: Action)
    requires Inv(c) && Enabled(c, a) && (a.Read? || a.Work?)
    ensures Inv(Do(c, a))
  {
    match a
    case Read(x) => InvariantSteps.ReadKeeps(c, x);
    case Work(x) => InvariantSteps.WorkKeeps(c, x);
  }

  lemma WaitingKeeps(c: Conn, a: Action)
    requires Inv(c) && Enabled(c, a) && (a.WaitStart? || a.Wait?)
    ensures Inv(Do(c, a))
  {
    match a
    case WaitStart(w, r, frame) => InvariantWaits.WaitStartKeeps(c, w, r, frame);
    case Wait(w, s) => InvariantWaits.WaitKeeps(c, w, s);
  }

  lemma ActionKeeps(c: Conn, a: Action)
    requires Inv(c) && Enabled(c, a)
    ensures Inv(Do(c, a))
  {
    if a.Read? || a.Work? {
      StreamKeeps(c, a);
    } else if a.WaitStart? || a.Wait? {
      WaitingKeeps(c, a);
    } else {
      SectionKeeps(c, a);
    }
  }

  lemma {:induction false} RunInv(states: seq<Conn>, acts: seq<Action>, i: nat)
    requires IsRun(states, acts) && i < |states|
    ensures Inv(states[i])
    decreases i
  {
    if i == 0 {
      InitialInv(states[0].limits);
    } else {
      RunInv(states, acts, i - 1);
      ActionKeeps(states[i - 1], acts[i - 1]);
    }
  }

  // ------------------------------------------------- what stays

  ghost predicate ReqsLater(c: Conn, c': Conn) {
    && c.reqs.Keys <= c'.reqs.Keys
    && forall r | r in c.reqs :: Later(c.reqs[r], c'.reqs[r])
  }

  ghost predicate FeedLater(f: Feed.Feed, f': Feed.Feed) {
    && f.lastEnqueued <= f'.lastEnqueued && f.handled <= f'.handled
    && (forall n: nat :: Feed.Complete(f.index, n) ==> Feed.Complete(f'.index, n))
  }

  ghost predicate WaitsLater(c: Conn, c': Conn) {
    && c.waits.Keys <= c'.waits.Keys
    && forall w | w in c.waits :: c'.waits[w].req == c.waits[w].req && c'.waits[w].frame == c.waits[w].frame
  }

  /** An answer that c does not have yet carries at least c's last notification number. */
  ghost predicate NewAnswersLate(c: Conn, c': Conn) {
    forall r | r in c'.reqs && c'.reqs[r].outcome.Answer? && !(r in c.reqs && c.reqs[r].outcome.Answer?) ::
      c'.reqs[r].outcome.watermark >= c.feed.lastEnqueued
  }

  ghost predicate Persists(c: Conn, c': Conn) {
    && c'.limits == c.limits
    && (c.cancelled ==> c'.cancelled)
    && ReqsLater(c, c') && FeedLater(c.feed, c'.feed) && WaitsLater(c, c') && NewAnswersLate(c, c')
  }

  lemma OneLater(c: Conn, r: ReqId, q': Req)
    requires r in c.reqs && Later(c.reqs[r], q')
    ensures ReqsLater(c, SetReq(c, r, q'))
  {
    var c' := SetReq(c, r, q');
    forall t | t in c.reqs ensures Later(c.reqs[t], c'.reqs[t]) {
      if t != r { LaterReflexive(c.reqs[t]); }
    }
  }

  lemma NoneLater(c: Conn, c': Conn)
    requires c'.reqs == c.reqs
    ensures ReqsLater(c, c')
  {
    forall t | t in c.reqs ensures Later(c.reqs[t], c'.reqs[t]) {
      LaterReflexive(c.reqs[t]);
    }
  }

  /** One request moves on, without being answered; nothing else of what Persists looks at does. */
  lemma OnePersists(c: Conn, r: ReqId, c': Conn)
    requires r in c.reqs && r in c'.reqs && c'.reqs == c.reqs[r := c'.reqs[r]] && Later(c.reqs[r], c'.reqs[r])
    requires c'.reqs[r].outcome.Answer? ==> c.reqs[r].outcome.Answer?
    requires c'.feed == c.feed && c'.waits == c.waits && c'.limits == c.limits && c'.cancelled == c.cancelled
    ensures Persists(c, c')
  {
    OneLater(c, r, c'.reqs[r]);
  }

  lemma RequestPersists(c: Conn, r: ReqId, s: Step)
    requires ReqsOk(c) && r in c.reqs && CanStep(c.reqs[r], s, c.cancelled)
    ensures Persists(c, SetReq(c, r, DoStep(c.reqs[r], s, c.cancelled)))
  {
    StepKeeps(c.reqs[r], s, c.cancelled);
    OnePersists(c, r, SetReq(c, r, DoStep(c.reqs[r], s, c.cancelled)));
  }

  lemma DeliveryLater(q: Req, d: DeliveryStep, cancelled: bool)
    requires ReqOk(q, cancelled) && CanDeliver(q, d)
    ensures match d
            case ReleaseDiscard => Later(q, Requests.ReleaseDiscard(q))
            case ReleaseClose => Later(q, Requests.ReleaseClose(q))
            case ShutdownDiscard => Later(q, Requests.ShutdownDiscard(q))
            case ShutdownClose => Later(q, Requests.ShutdownClose(q))
  {
    match d
    case ReleaseDiscard => ReleaseDiscardKeeps(q, cancelled);
    case ReleaseClose => ReleaseCloseKeeps(q, cancelled);
    case ShutdownDiscard => ShutdownDiscardKeeps(q, cancelled);
    case ShutdownClose => ShutdownCloseKeeps(q, cancelled);
  }

  lemma DeliveryPersists(c: Conn, r: ReqId, d: DeliveryStep)
    requires ReqsOk(c) && r in c.reqs && CanDeliver(c.reqs[r], d)
    ensures Persists(c, DoDeliver(c, r, d))
  {
    DeliveryLater(c.reqs[r], d, c.cancelled);
    OnePersists(c, r, DoDeliver(c, r, d));
  }

  lemma PreparePersists(c: Conn, gated: bool, hook: bool)
    requires GateLinked(c) && ReaderOk(c) && CanPrepare(c, gated)
    ensures Persists(c, DoPrepare(c, gated, hook))
  {
    var c' := DoPrepare(c, gated, hook);
    PrepareLinks(c, gated, hook);
    forall t | t in c.reqs ensures Later(c.reqs[t], c'.reqs[t]) {
      LaterReflexive(c.reqs[t]);
    }
  }

  lemma ShutdownAnswers(c: Conn)
    ensures NewAnswersLate(c, DoShutdown(c))
  {
    forall t | t in c.reqs ensures DoShutdown(c).reqs[t].outcome == c.reqs[t].outcome {
    }
  }

  lemma ShutdownPersists(c: Conn)
    requires ReqsOk(c) && !c.cancelled
    ensures Persists(c, DoShutdown(c))
  {
    ShutdownReqs(c);
    MovesAreLater(c, DoShutdown(c));
    ShutdownAnswers(c);
  }

  lemma MovesAreLater(c: Conn, c': Conn)
    requires ReqsMove(c, c')
    ensures ReqsLater(c, c')
  {
    forall t | t in c.reqs ensures Later(c.reqs[t], c'.reqs[t]) {
      assert Moved(c.reqs[t], c'.reqs[t]);
    }
  }

  lemma ChainPersists(c: Conn)
    requires ReqsOk(c) && ReaderOk(c) && CanRead(c, ChainResponse)
    ensures Persists(c, DoRead(c, ChainResponse))
  {
    var r := c.reader.req;
    if c.reqs[r].gated {
      Requests.ChainKeeps(c.reqs[r], c.cancelled, |Pruned(c.gate).nodes|);
      OnePersists(c, r, DoRead(c, ChainResponse));
    } else {
      NoneLater(c, DoRead(c, ChainResponse));
    }
  }

  lemma AnswerPersists(c: Conn, r: ReqId, c': Conn)
    requires r in c.reqs && r in c'.reqs && c'.reqs == c.reqs[r := c'.reqs[r]] && Later(c.reqs[r], c'.reqs[r])
    requires c'.reqs[r].outcome == Answer(c.feed.lastEnqueued)
    requires c'.feed == c.feed && c'.waits == c.waits && c'.limits == c.limits && c'.cancelled == c.cancelled
    ensures Persists(c, c')
  {
    OneLater(c, r, c'.reqs[r]);
  }

  lemma DeliverPersists(c: Conn)
    requires ReqsOk(c) && ReaderOk(c) && CanRead(c, DeliverResponse)
    ensures Persists(c, DoRead(c, DeliverResponse))
  {
    var r := c.reader.req;
    assert ReqOk(c.reqs[r], c.cancelled);
    Requests.DeliverKeeps(c.reqs[r], c.cancelled, c.reader.watermark);
    AnswerPersists(c, r, DoRead(c, DeliverResponse));
  }

  lemma MatchPersists(c: Conn, r: ReqId)
    requires ReqsOk(c) && CanRead(c, MatchResponse(r))
    ensures Persists(c, DoRead(c, MatchResponse(r)))
  {
    Requests.MatchKeeps(c.reqs[r], c.cancelled);
    OnePersists(c, r, DoRead(c, MatchResponse(r)));
  }

  lemma ReadPersists(c: Conn, x: ReaderStep)
    requires ReqsOk(c) && ReaderOk(c) && CanRead(c, x)
    requires x.DeliverResponse? ==> c.reqs[c.reader.req].gated ==> c.reqs[c.reader.req].node >= 0
    ensures Persists(c, DoRead(c, x))
  {
    match x
    case MatchResponse(r) => MatchPersists(c, r);
    case ChainResponse => ChainPersists(c);
    case DeliverResponse => DeliverPersists(c);
    case _ => NoneLater(c, DoRead(c, x));
  }

  lemma WorkPersists(c: Conn, x: WorkStep)
    requires Feed.FeedOk(c.feed, c.limits.queue, c.limits.bytes) && (c.feed.skipped ==> c.cancelled)
    requires CanWork(c, x)
    ensures Persists(c, c.(feed := DoWork(c, x)))
  {
    InvariantSteps.WorkFeed(c, x);
    NoneLater(c, c.(feed := DoWork(c, x)));
  }

  lemma WaitReqLater(c: Conn, w: WaitId, s: WaitStep)
    requires ReqsOk(c) && WaitsOk(c) && Alive(c, w) && CanWait(c, c.waits[w], ReqOf(c, w), s)
    ensures var q' := NextReq(c, w, c.waits[w], ReqOf(c, w), s);
            Later(ReqOf(c, w), q') && q'.outcome == ReqOf(c, w).outcome
  {
    var x, q := c.waits[w], ReqOf(c, w);
    assert WaitOk(w, x, q, c.feed);
    if InvariantWaits.ChangesRequest(q, s) {
      InvariantWaits.ChangedRequest(c, w, x, q, s);
      InvariantWaits.ChangedMoves(c, w, x, q, s);
    } else {
      LaterReflexive(q);
    }
  }

  lemma WaitFeedLater(c: Conn, w: WaitId, s: WaitStep)
    requires Alive(c, w) && CanWait(c, c.waits[w], ReqOf(c, w), s)
    ensures FeedLater(c.feed, NextFeed(c, w, c.waits[w], ReqOf(c, w), s))
  {
  }

  lemma WaitPersists(c: Conn, w: WaitId, s: WaitStep)
    requires ReqsOk(c) && WaitsOk(c) && Alive(c, w) && CanWait(c, c.waits[w], ReqOf(c, w), s)
    ensures Persists(c, DoWait(c, w, s))
  {
    var q' := NextReq(c, w, c.waits[w], ReqOf(c, w), s);
    WaitReqLater(c, w, s);
    WaitFeedLater(c, w, s);
    OneLater(c, c.waits[w].req, q');
    InvariantWaits.DoWaitIs(c, w, s);
    AfterPersists(c, w, InvariantWaits.NextWaiter(c, c.waits[w], ReqOf(c, w), s), q',
                  NextFeed(c, w, c.waits[w], ReqOf(c, w), s));
  }

  lemma AfterPersists(c: Conn, w: WaitId, x': Waiter, q': Req, f': Feed.Feed)
    requires Alive(c, w) && Later(ReqOf(c, w), q') && q'.outcome == ReqOf(c, w).outcome
    requires FeedLater(c.feed, f') && x'.req == c.waits[w].req && x'.frame == c.waits[w].frame
    ensures Persists(c, InvariantWaits.After(c, w, x', q', f'))
  {
    OneLater(c, c.waits[w].req, q');
    assert InvariantWaits.After(c, w, x', q', f').reqs == SetReq(c, c.waits[w].req, q').reqs;
  }

  lemma WaitStartPersists(c: Conn, w: WaitId, x: Waiter)
    requires w !in c.waits
    ensures Persists(c, c.(waits := c.waits[w := x]))
  {
    NoneLater(c, c.(waits := c.waits[w := x]));
  }

  lemma SweepPersists(c: Conn)
    ensures Persists(c, c.(gate := Pruned(c.gate)))
  {
    NoneLater(c, c.(gate := Pruned(c.gate)));
  }

  lemma SectionPersists(c: Conn, a: Action)
    requires Inv(c) && Enabled(c, a) && (a.Prepare? || a.Request? || a.Delivery? || a.Sweep? || a.Shutdown?)
    ensures Persists(c, Do(c, a))
  {
    match a
    case Prepare(gated, hook) => PreparePersists(c, gated, hook);
    case Request(r, s) => RequestPersists(c, r, s);
    case Delivery(r, d) => DeliveryPersists(c, r, d);
    case Sweep => SweepPersists(c);
    case Shutdown => ShutdownPersists(c);
  }

  lemma StreamPersists(c: Conn, a: Action)
    requires Inv(c) && Enabled(c, a) && (a.Read? || a.Work?)
    ensures Persists(c, Do(c, a))
  {
    match a
    case Read(x) => ReadPersists(c, x);
    case Work(x) => WorkPersists(c, x);
  }

  lemma WaitingPersists(c: Conn, a: Action)
    requires Inv(c) && Enabled(c, a) && (a.WaitStart? || a.Wait?)
    ensures Persists(c, Do(c, a))
  {
    match a
    case WaitStart(w, r, frame) => WaitStartPersists(c, w, Waiter(r, false, frame, Entering));
    case Wait(w, s) => WaitPersists(c, w, s);
  }

  lemma ActionPersists(c: Conn, a: Action)
    requires Inv(c) && Enabled(c, a)
    ensures Persists(c, Do(c, a))
  {
    if a.Read? || a.Work? {
      StreamPersists(c, a);
    } else if a.WaitStart? || a.Wait? {
      WaitingPersists(c, a);
    } else {
      SectionPersists(c, a);
    }
  }

  lemma PersistsReflexive(c: Conn)
    ensures Persists(c, c)
  {
    NoneLater(c, c);
  }

  lemma PersistsTransitive(a: Conn, b: Conn, c: Conn)
    requires Persists(a, b) && Persists(b, c)
    ensures Persists(a, c)
  {
    forall r | r in a.reqs ensures Later(a.reqs[r], c.reqs[r]) {
      LaterTransitive(a.reqs[r], b.reqs[r], c.reqs[r]);
    }
  }

  ghost predicate StepsPersist(states: seq<Conn>) {
    forall k {:trigger states[k]} | 0 <= k < |states| - 1 :: Persists(states[k], states[k + 1])
  }

  lemma {:induction false} Telescope(states: seq<Conn>, i: nat, j: nat)
    requires StepsPersist(states) && i <= j < |states|
    ensures Persists(states[i], states[j])
    decreases j - i
  {
    if i == j {
      PersistsReflexive(states[i]);
    } else {
      Telescope(states, i + 1, j);
      PersistsTransitive(states[i], states[i + 1], states[j]);
    }
  }

  lemma StepPersists(states: seq<Conn>, acts: seq<Action>, k: nat)
    requires IsRun(states, acts) && k < |acts|
    ensures Persists(states[k], states[k + 1])
  {
    RunInv(states, acts, k);
    ActionPersists(states[k], acts[k]);
  }

  lemma RunPersists(states: seq<Conn>, acts: seq<Action>, i: nat, j: nat)
    requires IsRun(states, acts) && i <= j < |states|
    ensures Persists(states[i], states[j])
  {
    forall k | 0 <= k < |states| - 1 ensures Persists(states[k], states[k + 1]) {
      StepPersists(states, acts, k);
    }
    Telescope(states, i, j);
  }

  /** Two moments of a run, the second not before the first. */
  lemma RunPair(states: seq<Conn>, acts: seq<Action>, i: nat, j: nat)
    requires IsRun(states, acts) && i <= j < |acts|
    ensures Inv(states[i]) && Enabled(states[i], acts[i])
    ensures Inv(states[j]) && Enabled(states[j], acts[j])
    ensures Persists(states[i], states[j])
  {
    RunInv(states, acts, i);
    RunInv(states, acts, j);
    RunPersists(states, acts, i, j);
  }
}
