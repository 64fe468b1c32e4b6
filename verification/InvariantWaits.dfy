/** The steps of Wait keep the invariant of the connection. */
module InvariantWaits {
  import opened Results
  import opened Ids
  import opened Requests
  import opened Machine
  import opened Invariant
  import InvariantSteps
  import Feed
  import Gate

  // ------------------------------------------------- a step of one waiter

  /** What a waiter's step may change of its request. */
  predicate WaitMoves(w: WaitId, q: Req, q': Req) {
    && Later(q, q')
    && q'.node == q.node && q'.discarded == q.discarded && q'.responded == q.responded
    && q'.outcome == q.outcome && q'.inTable == q.inTable
    && (q'.resolver == q.resolver
        || (q.resolver.None? && q'.resolver == Some(w))
        || (q.resolver == Some(w) && q'.resolver.None?))
    && (q.resolver != Some(w) ==> q'.observed == q.observed && q'.hooked == q.hooked)
  }

  function After(c: Conn, w: WaitId, x': Waiter, q': Req, f': Feed.Feed): Conn
    requires w in c.waits
  {
    c.(reqs := c.reqs[c.waits[w].req := q'], feed := f', waits := c.waits[w := x'])
  }

  /** Another waiter, of the same request or of another one, is untouched. */
  lemma OtherWaiter(w: WaitId, v: WaitId, y: Waiter, p: Req, p': Req, f: Feed.Feed, f': Feed.Feed)
    requires v != w && WaitOk(v, y, p, f) && Feed.Later(f, f', Some(w))
    requires p' == p || WaitMoves(w, p, p')
    ensures WaitOk(v, y, p', f')
  {
    if p' == p { LaterReflexive(p); }
    WaitStays(v, y, p, p', f, f', Some(w));
  }

  lemma AfterWaits(c: Conn, w: WaitId, x': Waiter, q': Req, f': Feed.Feed)
    requires WaitsOk(c) && Alive(c, w) && x'.req == c.waits[w].req
    requires WaitMoves(w, ReqOf(c, w), q') && Feed.Later(c.feed, f', Some(w))
    requires WaitOk(w, x', q', f')
    ensures WaitsOk(After(c, w, x', q', f'))
  {
    var c' := After(c, w, x', q', f');
    forall v | v in c'.waits ensures Alive(c', v) && WaitOk(v, c'.waits[v], ReqOf(c', v), c'.feed) {
      if v != w {
        assert Alive(c, v) && WaitOk(v, c.waits[v], ReqOf(c, v), c.feed);
        OtherWaiter(w, v, c.waits[v], ReqOf(c, v), ReqOf(c', v), c.feed, f');
      }
    }
  }

  lemma AfterHolders(c: Conn, w: WaitId, x': Waiter, q': Req, f': Feed.Feed)
    requires HoldersOk(c) && Alive(c, w) && Feed.Later(c.feed, f', Some(w))
    requires HolderFollows(w, x', f')
    ensures HoldersOk(After(c, w, x', q', f'))
  {
  }

  lemma AfterLinks(c: Conn, w: WaitId, x': Waiter, q': Req, f': Feed.Feed)
    requires GateLinked(c) && ReaderOk(c) && Alive(c, w) && WaitMoves(w, ReqOf(c, w), q')
    requires f'.lastEnqueued == c.feed.lastEnqueued
    ensures GateLinked(After(c, w, x', q', f')) && ReaderOk(After(c, w, x', q', f'))
  {
    var c' := After(c, w, x', q', f');
    forall p | 0 <= p < |c'.gate.nodes| ensures NodeOk(c', p) {
      assert NodeOk(c, p);
    }
    forall s | s in c'.reqs ensures LinkOk(c', s) {
      assert LinkOk(c, s);
    }
  }

  lemma AfterTable(c: Conn, w: WaitId, x': Waiter, q': Req, f': Feed.Feed)
    requires Alive(c, w) && q'.inTable == ReqOf(c, w).inTable
    ensures Table(After(c, w, x', q', f')) == Table(c)
  {
  }

  lemma WaiterRest(c: Conn, w: WaitId, x': Waiter, q': Req, f': Feed.Feed)
    requires ReqsOk(c) && WaitsOk(c) && HoldersOk(c) && GateLinked(c) && ReaderOk(c)
    requires Alive(c, w) && x'.req == c.waits[w].req
    requires ReqOk(q', c.cancelled) && WaitMoves(w, ReqOf(c, w), q')
    requires Feed.Later(c.feed, f', Some(w)) && f'.lastEnqueued == c.feed.lastEnqueued
    requires WaitOk(w, x', q', f') && HolderFollows(w, x', f')
    ensures var c' := After(c, w, x', q', f');
            && ReqsOk(c') && WaitsOk(c') && HoldersOk(c') && GateLinked(c') && ReaderOk(c')
            && Table(c') == Table(c)
  {
    AfterWaits(c, w, x', q', f');
    AfterHolders(c, w, x', q', f');
    AfterLinks(c, w, x', q', f');
    AfterTable(c, w, x', q', f');
    OneKept(c, c.waits[w].req, After(c, w, x', q', f'));
  }

  /** If the waiter holds a frame's mutex, its position says so. */
  ghost predicate HolderFollows(w: WaitId, x: Waiter, f: Feed.Feed) {
    forall d | 0 <= d < |f.stack| && f.stack[d].stage.Running? && f.stack[d].stage.holder == Some(w) ::
      x.pc.Draining? && x.pc.depth == d
  }

  lemma WaiterStep(c: Conn, w: WaitId, x': Waiter, q': Req, f': Feed.Feed)
    requires Inv(c) && Alive(c, w) && x'.req == c.waits[w].req
    requires ReqOk(q', c.cancelled) && WaitMoves(w, ReqOf(c, w), q')
    requires Feed.FeedOk(f', c.limits.queue, c.limits.bytes) && Feed.Later(c.feed, f', Some(w))
    requires f'.lastEnqueued == c.feed.lastEnqueued && f'.skipped == c.feed.skipped
    requires NotesOk(c.(feed := f'))
    requires WaitOk(w, x', q', f') && HolderFollows(w, x', f')
    ensures Inv(After(c, w, x', q', f'))
  {
    WaiterRest(c, w, x', q', f');
  }

  /** The notifications stay where they are. */
  lemma WaiterOnly(c: Conn, w: WaitId, x': Waiter, q': Req)
    requires Inv(c) && Alive(c, w) && x'.req == c.waits[w].req
    requires ReqOk(q', c.cancelled) && WaitMoves(w, ReqOf(c, w), q')
    requires WaitOk(w, x', q', c.feed)
    requires c.waits[w].pc.Draining? ==> x'.pc.Draining? && x'.pc.depth == c.waits[w].pc.depth
    ensures Inv(After(c, w, x', q', c.feed))
  {
    FeedLaterReflexive(c.feed, Some(w));
    HolderStays(c, w, x');
    WaiterStep(c, w, x', q', c.feed);
  }

  lemma HolderStays(c: Conn, w: WaitId, x': Waiter)
    requires HoldersOk(c) && w in c.waits
    requires c.waits[w].pc.Draining? ==> x'.pc.Draining? && x'.pc.depth == c.waits[w].pc.depth
    ensures HolderFollows(w, x', c.feed)
  {
    forall d | 0 <= d < |c.feed.stack| && c.feed.stack[d].stage.Running? && c.feed.stack[d].stage.holder == Some(w)
      ensures x'.pc.Draining? && x'.pc.depth == d
    {
      assert c.waits[w].pc.Draining? && c.waits[w].pc.depth == d;
    }
  }

  // ------------------------------------------------- steps that move the waiter and nothing else

  predicate Early(q: Req, s: WaitStep) {
    || s.Cancel? || s.ReadPhase? || s.DispatchSeen? || s.GiveUp? || s.AttemptOver?
    || (s.ReadyCheck? && !q.outcome.Broken?) || (s.TakeOutcome? && !q.outcome.Broken?)
    || (s.Resolve? && AfterResolve(q) != Ordering)
  }

  predicate Late(s: WaitStep) {
    || s.OrderPoll? || s.DrainSkip? || s.PollEnd? || s.PollFail?
    || s.ObserverSkip? || s.ObserverEnd? || s.Decode? || s.HookEnd? || s.Leave?
  }

  /** The waiter after its step. */
  function NextWaiter(c: Conn, x: Waiter, q: Req, s: WaitStep): Waiter
    requires CanWait(c, x, q, s)
  {
    x.(pc := NextPc(c, x, q, s), cancelled := x.cancelled || s.Cancel?)
  }

  lemma EarlyAnswered(c: Conn, w: WaitId, x: Waiter, q: Req, s: WaitStep)
    requires WaitOk(w, x, q, c.feed) && ReqOk(q, c.cancelled) && CanWait(c, x, q, s) && Early(q, s)
    requires s.Resolve? || s.TakeOutcome? || s.AttemptOver?
    ensures WaitOk(w, NextWaiter(c, x, q, s), q, c.feed) && !x.pc.Draining?
    ensures NextReq(c, w, x, q, s) == q && NextFeed(c, w, x, q, s) == c.feed
  {
  }

  lemma EarlyLeft(c: Conn, w: WaitId, x: Waiter, q: Req, s: WaitStep)
    requires WaitOk(w, x, q, c.feed) && CanWait(c, x, q, s) && Early(q, s)
    requires s.Cancel? || s.DispatchSeen? || s.GiveUp? || s.ReadyCheck?
    ensures WaitOk(w, NextWaiter(c, x, q, s), q, c.feed)
    ensures x.pc.Draining? ==> NextPc(c, x, q, s) == x.pc
    ensures NextReq(c, w, x, q, s) == q && NextFeed(c, w, x, q, s) == c.feed
  {
  }

  lemma EarlyOk(c: Conn, w: WaitId, x: Waiter, q: Req, s: WaitStep)
    requires WaitOk(w, x, q, c.feed) && ReqOk(q, c.cancelled) && CanWait(c, x, q, s) && Early(q, s)
    ensures WaitOk(w, NextWaiter(c, x, q, s), q, c.feed)
    ensures x.pc.Draining? ==> NextPc(c, x, q, s) == x.pc
    ensures NextReq(c, w, x, q, s) == q && NextFeed(c, w, x, q, s) == c.feed
  {
    if s.ReadPhase? {
      PhaseRead(w, x, q, c.feed);
    } else if s.Resolve? || s.TakeOutcome? || s.AttemptOver? {
      EarlyAnswered(c, w, x, q, s);
    } else {
      EarlyLeft(c, w, x, q, s);
    }
  }

  lemma PhaseRead(w: WaitId, x: Waiter, q: Req, f: Feed.Feed)
    requires WaitOk(w, x, q, f) && PhaseOk(q) && x.pc == Entering
    ensures WaitOk(w, x.(pc := AfterRead(q)), q, f)
  {
  }

  lemma LateOrdering(c: Conn, w: WaitId, x: Waiter, q: Req, s: WaitStep)
    requires WaitOk(w, x, q, c.feed) && CanWait(c, x, q, s) && (s.OrderPoll? || s.DrainSkip? || s.PollEnd? || s.PollFail?)
    ensures WaitOk(w, NextWaiter(c, x, q, s), q, c.feed)
    ensures x.pc.Draining? ==> NextPc(c, x, q, s).Draining? && NextPc(c, x, q, s).depth == x.pc.depth
    ensures NextReq(c, w, x, q, s) == q && NextFeed(c, w, x, q, s) == c.feed
  {
  }

  lemma LateAnswered(c: Conn, w: WaitId, x: Waiter, q: Req, s: WaitStep)
    requires WaitOk(w, x, q, c.feed) && CanWait(c, x, q, s)
    requires s.ObserverSkip? || s.ObserverEnd? || s.Decode? || s.HookEnd? || s.Leave?
    ensures WaitOk(w, NextWaiter(c, x, q, s), q, c.feed) && !x.pc.Draining?
    ensures NextReq(c, w, x, q, s) == q && NextFeed(c, w, x, q, s) == c.feed
  {
  }

  lemma LateOk(c: Conn, w: WaitId, x: Waiter, q: Req, s: WaitStep)
    requires WaitOk(w, x, q, c.feed) && CanWait(c, x, q, s) && Late(s)
    ensures WaitOk(w, NextWaiter(c, x, q, s), q, c.feed)
    ensures x.pc.Draining? ==> NextPc(c, x, q, s).Draining? && NextPc(c, x, q, s).depth == x.pc.depth
    ensures NextReq(c, w, x, q, s) == q && NextFeed(c, w, x, q, s) == c.feed
  {
    if s.OrderPoll? || s.DrainSkip? || s.PollEnd? || s.PollFail? {
      LateOrdering(c, w, x, q, s);
    } else {
      LateAnswered(c, w, x, q, s);
    }
  }

  lemma DoWaitIs(c: Conn, w: WaitId, s: WaitStep)
    requires Alive(c, w) && CanWait(c, c.waits[w], ReqOf(c, w), s)
    ensures var x, q := c.waits[w], ReqOf(c, w);
            DoWait(c, w, s) ==
              After(c, w, NextWaiter(c, x, q, s), NextReq(c, w, x, q, s), NextFeed(c, w, x, q, s))
  {
  }

  lemma WaitMovesNowhere(w: WaitId, q: Req)
    ensures WaitMoves(w, q, q)
  {
    LaterReflexive(q);
  }

  lemma MovingKeeps(c: Conn, w: WaitId, s: WaitStep)
    requires Inv(c) && Alive(c, w) && CanWait(c, c.waits[w], ReqOf(c, w), s)
    requires Early(ReqOf(c, w), s) || Late(s)
    ensures Inv(DoWait(c, w, s))
  {
    var x, q := c.waits[w], ReqOf(c, w);
    if Late(s) {
      LateOk(c, w, x, q, s);
    } else {
      EarlyOk(c, w, x, q, s);
    }
    WaitMovesNowhere(w, q);
    DoWaitIs(c, w, s);
    WaiterOnly(c, w, NextWaiter(c, x, q, s), q);
  }

  // ------------------------------------------------- steps that change the request

  predicate ChangesRequest(q: Req, s: WaitStep) {
    || (s.ReadyCheck? && q.outcome.Broken?) || (s.TakeOutcome? && q.outcome.Broken?)
    || (s.Resolve? && AfterResolve(q) == Ordering)
    || s.ObserverStart? || s.HookStart? || s.Settle? || s.CallRelease?
  }

  lemma ChangedRequest(c: Conn, w: WaitId, x: Waiter, q: Req, s: WaitStep)
    requires WaitOk(w, x, q, c.feed) && ReqOk(q, c.cancelled) && CanWait(c, x, q, s) && ChangesRequest(q, s)
    ensures var q' := NextReq(c, w, x, q, s); ReqOk(q', c.cancelled) && Later(q, q')
  {
    match s
    case ReadyCheck => FinishReadyKeeps(q, c.cancelled);
    case TakeOutcome => FinishBrokenKeeps(q, c.cancelled);
    case Resolve => ResolveStartKeeps(q, c.cancelled, w);
    case ObserverStart => ObserverStartKeeps(q, c.cancelled);
    case HookStart => HookStartKeeps(q, c.cancelled);
    case Settle => SettleKeeps(q, c.cancelled, x.pc.pair, x.pc.retry);
    case CallRelease => CallReleaseKeeps(q, c.cancelled);
    case _ =>
  }

  lemma ReadyWaiter(c: Conn, w: WaitId, x: Waiter, q: Req)
    requires WaitOk(w, x, q, c.feed) && CanWait(c, x, q, ReadyCheck) && Later(q, FinishReady(q))
    ensures WaitOk(w, NextWaiter(c, x, q, ReadyCheck), FinishReady(q), c.feed)
  {
  }

  lemma BrokenWaiter(c: Conn, w: WaitId, x: Waiter, q: Req)
    requires WaitOk(w, x, q, c.feed) && CanWait(c, x, q, TakeOutcome) && q.outcome.Broken? && Later(q, FinishBroken(q))
    ensures WaitOk(w, NextWaiter(c, x, q, TakeOutcome), FinishBroken(q), c.feed)
  {
  }

  lemma ReleasingWaiter(c: Conn, w: WaitId, x: Waiter, q: Req)
    requires WaitOk(w, x, q, c.feed) && CanWait(c, x, q, Machine.CallRelease) && Later(q, Requests.CallRelease(q))
    ensures WaitOk(w, NextWaiter(c, x, q, Machine.CallRelease), Requests.CallRelease(q), c.feed)
  {
  }

  lemma FinishedWaiter(c: Conn, w: WaitId, x: Waiter, q: Req, s: WaitStep)
    requires WaitOk(w, x, q, c.feed) && CanWait(c, x, q, s)
    requires ChangesRequest(q, s) && (s.ReadyCheck? || s.TakeOutcome? || s.CallRelease?)
    requires Later(q, NextReq(c, w, x, q, s))
    ensures WaitOk(w, NextWaiter(c, x, q, s), NextReq(c, w, x, q, s), c.feed)
  {
    if s.ReadyCheck? {
      assert NextReq(c, w, x, q, s) == FinishReady(q);
      ReadyWaiter(c, w, x, q);
    } else if s.TakeOutcome? {
      assert NextReq(c, w, x, q, s) == FinishBroken(q);
      BrokenWaiter(c, w, x, q);
    } else {
      assert NextReq(c, w, x, q, s) == Requests.CallRelease(q);
      ReleasingWaiter(c, w, x, q);
    }
  }

  lemma ResolvingWaiter(c: Conn, w: WaitId, x: Waiter, q: Req)
    requires WaitOk(w, x, q, c.feed) && CanWait(c, x, q, Resolve) && ResolutionOk(q)
    requires AfterResolve(q) == Ordering
    requires Later(q, ResolveStart(q, w))
    ensures WaitOk(w, x.(pc := Ordering), ResolveStart(q, w), c.feed)
  {
  }

  lemma ObservingWaiter(c: Conn, w: WaitId, x: Waiter, q: Req)
    requires WaitOk(w, x, q, c.feed) && x.pc == Cleared && Later(q, Requests.ObserverStart(q))
    ensures WaitOk(w, x.(pc := Observing), Requests.ObserverStart(q), c.feed)
  {
  }

  lemma HookingWaiter(c: Conn, w: WaitId, x: Waiter, q: Req)
    requires WaitOk(w, x, q, c.feed) && x.pc == Checked && Later(q, Requests.HookStart(q))
    ensures WaitOk(w, x.(pc := Hooking), Requests.HookStart(q), c.feed)
  {
  }

  lemma SettlingWaiter(w: WaitId, x: Waiter, q: Req, q': Req, pc: WaitPc, f: Feed.Feed)
    requires WaitOk(w, x, q, f) && x.pc.Settling? && q'.resolver.None?
    requires pc == if q'.resolved then Freeing(q'.final) else Gone(Refused(Some(Possible)))
    ensures WaitOk(w, x.(pc := pc), q', f)
  {
  }

  lemma SettleFields(w: WaitId, q: Req, pair: Pair, retry: bool)
    requires Later(q, Requests.Settle(q, pair, retry)) && q.resolver == Some(w)
    ensures Requests.Settle(q, pair, retry).resolver.None?
    ensures WaitMoves(w, q, Requests.Settle(q, pair, retry))
  {
  }

  lemma StartingWaiter(c: Conn, w: WaitId, x: Waiter, q: Req, s: WaitStep)
    requires WaitOk(w, x, q, c.feed) && CanWait(c, x, q, s) && ResolutionOk(q) && ChangesRequest(q, s)
    requires s.Resolve? || s.ObserverStart? || s.HookStart?
    requires Later(q, NextReq(c, w, x, q, s))
    ensures WaitOk(w, NextWaiter(c, x, q, s), NextReq(c, w, x, q, s), c.feed)
  {
    match s
    case Resolve => ResolvingWaiter(c, w, x, q);
    case ObserverStart => ObservingWaiter(c, w, x, q);
    case HookStart => HookingWaiter(c, w, x, q);
  }

  lemma SettledWaiter(c: Conn, w: WaitId, x: Waiter, q: Req)
    requires WaitOk(w, x, q, c.feed) && CanWait(c, x, q, Settle)
    requires Later(q, NextReq(c, w, x, q, Settle))
    ensures WaitOk(w, NextWaiter(c, x, q, Settle), NextReq(c, w, x, q, Settle), c.feed)
  {
    SettleFields(w, q, x.pc.pair, x.pc.retry);
    SettlingWaiter(w, x, q, NextReq(c, w, x, q, Settle), NextPc(c, x, q, Settle), c.feed);
  }

  lemma ChangedWaiter(c: Conn, w: WaitId, x: Waiter, q: Req, s: WaitStep)
    requires WaitOk(w, x, q, c.feed) && CanWait(c, x, q, s) && ResolutionOk(q) && ChangesRequest(q, s)
    requires Later(q, NextReq(c, w, x, q, s))
    ensures WaitOk(w, NextWaiter(c, x, q, s), NextReq(c, w, x, q, s), c.feed)
  {
    if s.Settle? {
      SettledWaiter(c, w, x, q);
    } else if s.Resolve? || s.ObserverStart? || s.HookStart? {
      StartingWaiter(c, w, x, q, s);
    } else {
      FinishedWaiter(c, w, x, q, s);
    }
  }

  lemma FinishedMoves(w: WaitId, q: Req)
    requires Later(q, q.(phase := Finished))
    ensures WaitMoves(w, q, q.(phase := Finished))
  {
  }

  lemma ResolvingMoves(w: WaitId, q: Req)
    requires Later(q, ResolveStart(q, w)) && q.resolver.None?
    ensures WaitMoves(w, q, ResolveStart(q, w))
  {
  }

  lemma ObservingMoves(w: WaitId, q: Req)
    requires Later(q, Requests.ObserverStart(q)) && q.resolver == Some(w)
    ensures WaitMoves(w, q, Requests.ObserverStart(q))
  {
  }

  lemma HookingMoves(w: WaitId, q: Req)
    requires Later(q, Requests.HookStart(q)) && q.resolver == Some(w)
    ensures WaitMoves(w, q, Requests.HookStart(q))
  {
  }

  lemma ReleasingMoves(w: WaitId, q: Req)
    requires Later(q, Requests.CallRelease(q))
    ensures WaitMoves(w, q, Requests.CallRelease(q))
  {
  }

  lemma ReadyMoves(w: WaitId, q: Req)
    requires Later(q, FinishReady(q))
    ensures WaitMoves(w, q, FinishReady(q))
  {
    if q.phase == Ready {
      FinishedMoves(w, q);
    } else {
      assert FinishReady(q) == q;
    }
  }

  lemma ChangedMoves(c: Conn, w: WaitId, x: Waiter, q: Req, s: WaitStep)
    requires CanWait(c, x, q, s) && ChangesRequest(q, s)
    requires Resolver(x.pc) <==> q.resolver == Some(w)
    requires Later(q, NextReq(c, w, x, q, s))
    ensures WaitMoves(w, q, NextReq(c, w, x, q, s))
    ensures !x.pc.Draining? && NextFeed(c, w, x, q, s) == c.feed
  {
    match s
    case Settle => SettleFields(w, q, x.pc.pair, x.pc.retry);
    case ReadyCheck => ReadyMoves(w, q);
    case TakeOutcome => FinishedMoves(w, q);
    case Resolve => ResolvingMoves(w, q);
    case ObserverStart => ObservingMoves(w, q);
    case HookStart => HookingMoves(w, q);
    case CallRelease => ReleasingMoves(w, q);
    case _ =>
  }

  lemma ChangingKeeps(c: Conn, w: WaitId, s: WaitStep)
    requires Inv(c) && Alive(c, w) && CanWait(c, c.waits[w], ReqOf(c, w), s)
    requires ChangesRequest(ReqOf(c, w), s)
    ensures Inv(DoWait(c, w, s))
  {
    var x, q := c.waits[w], ReqOf(c, w);
    ChangedRequest(c, w, x, q, s);
    ChangedWaiter(c, w, x, q, s);
    ChangedMoves(c, w, x, q, s);
    DoWaitIs(c, w, s);
    WaiterOnly(c, w, NextWaiter(c, x, q, s), NextReq(c, w, x, q, s));
  }

  // ------------------------------------------------- steps that hold or free a frame

  lemma StackNotes(c: Conn, d: nat, stage: Feed.Stage)
    requires NotesOk(c) && d < |c.feed.stack| && !stage.Walking?
    ensures NotesOk(c.(feed := Feed.SetStage(c.feed, d, stage)))
  {
  }

  lemma HoldKeeps(c: Conn, w: WaitId, d: nat)
    requires Inv(c) && Alive(c, w) && CanWait(c, c.waits[w], ReqOf(c, w), OrderDrain(d))
    ensures Inv(DoWait(c, w, OrderDrain(d)))
  {
    var x, q := c.waits[w], ReqOf(c, w);
    var stage := c.feed.stack[d].stage.(holder := Some(w));
    var f' := Feed.SetStage(c.feed, d, stage);
    assert d == |c.feed.stack| - 1;
    Feed.RunningKeeps(c.feed, d, stage, Some(w), c.limits.queue, c.limits.bytes);
    StackNotes(c, d, stage);
    WaitMovesNowhere(w, q);
    DoWaitIs(c, w, OrderDrain(d));
    HoldOk(c, w, d);
    WaiterStep(c, w, NextWaiter(c, x, q, OrderDrain(d)), q, f');
  }

  lemma HoldOk(c: Conn, w: WaitId, d: nat)
    requires WaitsOk(c) && HoldersOk(c) && Alive(c, w) && CanWait(c, c.waits[w], ReqOf(c, w), OrderDrain(d))
    requires Feed.Later(c.feed, Feed.SetStage(c.feed, d, c.feed.stack[d].stage.(holder := Some(w))), Some(w))
    ensures var x, q := c.waits[w], ReqOf(c, w);
            var f' := Feed.SetStage(c.feed, d, c.feed.stack[d].stage.(holder := Some(w)));
            var x' := NextWaiter(c, x, q, OrderDrain(d));
            WaitOk(w, x', q, f') && HolderFollows(w, x', f')
  {
    var x, q := c.waits[w], ReqOf(c, w);
    var f' := Feed.SetStage(c.feed, d, c.feed.stack[d].stage.(holder := Some(w)));
    var x' := NextWaiter(c, x, q, OrderDrain(d));
    assert WaitOk(w, x, q, c.feed);
    forall e | 0 <= e < |f'.stack| && f'.stack[e].stage.Running? && e != d ensures f'.stack[e].stage.holder != Some(w) {
      assert f'.stack[e] == c.feed.stack[e];
    }
  }

  predicate Frees(s: WaitStep) {
    s.DrainViolation? || s.DrainEnd? || s.DrainFail?
  }

  lemma FreeOk(c: Conn, w: WaitId, s: WaitStep)
    requires WaitsOk(c) && HoldersOk(c) && Alive(c, w) && CanWait(c, c.waits[w], ReqOf(c, w), s) && Frees(s)
    requires Feed.Later(c.feed, Unlock(c.feed, c.waits[w].pc.depth), Some(w))
    ensures var x, q := c.waits[w], ReqOf(c, w);
            var f' := Unlock(c.feed, x.pc.depth);
            var x' := NextWaiter(c, x, q, s);
            WaitOk(w, x', q, f') && HolderFollows(w, x', f')
  {
    var x, q := c.waits[w], ReqOf(c, w);
    var f' := Unlock(c.feed, x.pc.depth);
    assert WaitOk(w, x, q, c.feed);
    forall e | 0 <= e < |f'.stack| && f'.stack[e].stage.Running? ensures f'.stack[e].stage.holder != Some(w) {
      assert e != x.pc.depth ==> f'.stack[e] == c.feed.stack[e];
    }
  }

  lemma FreeKeeps(c: Conn, w: WaitId, s: WaitStep)
    requires Inv(c) && Alive(c, w) && CanWait(c, c.waits[w], ReqOf(c, w), s) && Frees(s)
    ensures Inv(DoWait(c, w, s))
  {
    var x, q := c.waits[w], ReqOf(c, w);
    var d := x.pc.depth;
    var stage := c.feed.stack[d].stage.(holder := None);
    assert WaitOk(w, x, q, c.feed);
    Feed.RunningKeeps(c.feed, d, stage, Some(w), c.limits.queue, c.limits.bytes);
    StackNotes(c, d, stage);
    WaitMovesNowhere(w, q);
    DoWaitIs(c, w, s);
    FreeOk(c, w, s);
    WaiterStep(c, w, NextWaiter(c, x, q, s), q, Unlock(c.feed, d));
  }

  /** Taking the next notification inside a drain moves only the notifications. */
  lemma DrainTakeKeeps(c: Conn, w: WaitId)
    requires Inv(c) && Alive(c, w) && CanWait(c, c.waits[w], ReqOf(c, w), DrainTake)
    ensures Inv(DoWait(c, w, DrainTake))
  {
    DrainTakeIs(c, w);
    DrainTakeFeed(c, w);
    InvariantSteps.TakeNotes(c);
    InvariantSteps.FeedStep(c, Feed.Dequeue(c.feed));
  }

  lemma DrainTakeIs(c: Conn, w: WaitId)
    requires Alive(c, w) && CanWait(c, c.waits[w], ReqOf(c, w), DrainTake)
    ensures DoWait(c, w, DrainTake) == c.(feed := Feed.Dequeue(c.feed))
  {
    var x, q := c.waits[w], ReqOf(c, w);
    assert c.reqs[x.req := q] == c.reqs;
    assert c.waits[w := NextWaiter(c, x, q, DrainTake)] == c.waits;
  }

  lemma DrainTakeFeed(c: Conn, w: WaitId)
    requires Feed.FeedOk(c.feed, c.limits.queue, c.limits.bytes) && WaitsOk(c)
    requires Alive(c, w) && CanWait(c, c.waits[w], ReqOf(c, w), DrainTake)
    ensures Feed.FeedOk(Feed.Dequeue(c.feed), c.limits.queue, c.limits.bytes)
    ensures Feed.Later(c.feed, Feed.Dequeue(c.feed), None)
  {
    assert WaitOk(w, c.waits[w], ReqOf(c, w), c.feed);
    Feed.DequeueKeeps(c.feed, c.limits.queue, c.limits.bytes);
  }

  // ------------------------------------------------- all steps

  lemma WaitKeeps(c: Conn, w: WaitId, s: WaitStep)
    requires Inv(c) && Alive(c, w) && CanWait(c, c.waits[w], ReqOf(c, w), s)
    ensures Inv(DoWait(c, w, s))
  {
    if ChangesRequest(ReqOf(c, w), s) {
      ChangingKeeps(c, w, s);
    } else if Frees(s) {
      FreeKeeps(c, w, s);
    } else if s.OrderDrain? {
      HoldKeeps(c, w, s.depth);
    } else if s.DrainTake? {
      DrainTakeKeeps(c, w);
    } else {
      MovingKeeps(c, w, s);
    }
  }

  lemma WaitStartHolders(c: Conn, w: WaitId, x: Waiter)
    requires HoldersOk(c) && w !in c.waits
    ensures HoldersOk(c.(waits := c.waits[w := x]))
  {
  }

  lemma WaitStartWaits(c: Conn, w: WaitId, r: ReqId, frame: Option<nat>)
    requires WaitsOk(c) && HoldersOk(c) && Enabled(c, WaitStart(w, r, frame))
    ensures var c' := c.(waits := c.waits[w := Waiter(r, false, frame, Entering)]); WaitsOk(c') && HoldersOk(c')
  {
    WaitStartHolders(c, w, Waiter(r, false, frame, Entering));
    var x := Waiter(r, false, frame, Entering);
    var c' := c.(waits := c.waits[w := x]);
    assert WaitOk(w, x, c.reqs[r], c.feed);
    forall v | v in c'.waits ensures Alive(c', v) && WaitOk(v, c'.waits[v], ReqOf(c', v), c'.feed) {
      if v != w { assert Alive(c, v) && WaitOk(v, c.waits[v], ReqOf(c, v), c.feed); }
    }
  }

  lemma WaitStartLinks(c: Conn, waits: map<WaitId, Waiter>)
    requires GateLinked(c) && ReaderOk(c)
    ensures GateLinked(c.(waits := waits)) && ReaderOk(c.(waits := waits)) && Table(c.(waits := waits)) == Table(c)
  {
    var c' := c.(waits := waits);
    forall p | 0 <= p < |c'.gate.nodes| ensures NodeOk(c', p) {
      assert NodeOk(c, p);
    }
    forall s | s in c'.reqs ensures LinkOk(c', s) {
      assert LinkOk(c, s);
    }
  }

  lemma WaitStartKeeps(c: Conn, w: WaitId, r: ReqId, frame: Option<nat>)
    requires Inv(c) && Enabled(c, WaitStart(w, r, frame))
    ensures Inv(c.(waits := c.waits[w := Waiter(r, false, frame, Entering)]))
  {
    WaitStartWaits(c, w, r, frame);
    WaitStartLinks(c, c.waits[w := Waiter(r, false, frame, Entering)]);
  }
}
