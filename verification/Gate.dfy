/** The gated responses of one connection. Each gated response that has been received is a node
    of the delivery chain; `previous` pointers are positions in the full arrival history, -1
    being nil. Pruning takes finished nodes off the newest end only. */
module Gate {

  /** req is the request answered; mark records how many notifications had been accepted when
      the response was chained. */
  datatype Node = Node(req: nat, prev: int, done: bool, mark: nat)

  /** nodes: every gated response ever chained, in arrival order. chain: the positions met along
      `previous` from lastResponseDelivery, oldest first. held: the requests whose delivery has a
      slot but is not (or not yet) chained. slots: the tokens in responseDeliverySlots. */
  datatype Gate = Gate(nodes: seq<Node>, chain: seq<nat>, held: set<nat>, slots: nat)

  const EMPTY_GATE := Gate([], [], {}, 0)

  /** lastResponseDelivery. */
  function Last(g: Gate): int {
    if g.chain == [] then -1 else g.chain[|g.chain| - 1]
  }

  /** What lies below position i of the chain. */
  function Below(chain: seq<nat>, i: nat): int
    requires i < |chain|
  {
    if i == 0 then -1 else chain[i - 1]
  }

  /** Every response that arrived strictly between lo and hi is done. */
  ghost predicate GapDone(nodes: seq<Node>, lo: int, hi: int) {
    forall p | lo < p < hi && 0 <= p < |nodes| :: nodes[p].done
  }

  /** previous points back, and over done responses only. */
  ghost predicate PrevOk(nodes: seq<Node>, p: nat)
    requires p < |nodes|
  {
    -1 <= nodes[p].prev < p && GapDone(nodes, nodes[p].prev, p)
  }

  ghost predicate Linked(g: Gate) {
    && (forall i | 0 <= i < |g.chain| :: g.chain[i] < |g.nodes|)
    && (forall i {:trigger Below(g.chain, i)} | 0 <= i < |g.chain| ::
          g.nodes[g.chain[i]].prev == Below(g.chain, i))
    && (forall p | 0 <= p < |g.nodes| :: PrevOk(g.nodes, p))
    && GapDone(g.nodes, Last(g), |g.nodes|)
  }

  ghost predicate GateOk(g: Gate, limit: nat) {
    && Linked(g)
    && g.slots == |g.held| + |g.chain| <= limit
  }

  // ------------------------------------------------- steps

  /** Taking one finished delivery off the newest end. */
  function Pop(g: Gate): Gate
    requires g.chain != [] && g.slots > 0
  {
    g.(chain := g.chain[..|g.chain| - 1], slots := g.slots - 1)
  }

  /** pruneResponseDeliveriesLocked; every turn takes one token back. */
  function Prune(g: Gate): (h: Gate)
    requires |g.chain| <= g.slots && forall i | 0 <= i < |g.chain| :: g.chain[i] < |g.nodes|
    ensures h.nodes == g.nodes && h.held == g.held && h.chain <= g.chain
    ensures h.slots + |g.chain| == g.slots + |h.chain|
    ensures h.chain != [] ==> !h.nodes[Last(h)].done
    ensures forall i | |h.chain| <= i < |g.chain| :: g.nodes[g.chain[i]].done
    decreases |g.chain|
  {
    if g.chain != [] && g.nodes[Last(g)].done
    then Prune(Pop(g))
    else g
  }

  /** handleResponse's section under deliveryMu, after pruning. */
  function Push(g: Gate, req: nat, mark: nat): (h: Gate)
    ensures |h.nodes| == |g.nodes| + 1 && g.nodes <= h.nodes && Last(h) == |g.nodes|
    ensures var n := h.nodes[|g.nodes|]; n.req == req && n.mark == mark && n.prev == Last(g) && !n.done
    ensures req !in h.held && h.slots == g.slots
  {
    Gate(g.nodes + [Node(req, Last(g), false, mark)], g.chain + [|g.nodes|], g.held - {req}, g.slots)
  }

  /** The closing of a chained delivery's done channel. */
  function Close(g: Gate, p: nat): (h: Gate)
    requires p < |g.nodes|
    ensures h.chain == g.chain && h.held == g.held && h.slots == g.slots && |h.nodes| == |g.nodes|
    ensures forall q | 0 <= q < |g.nodes| ::
              h.nodes[q].done == (g.nodes[q].done || q == p) && h.nodes[q].(done := g.nodes[q].done) == g.nodes[q]
  {
    g.(nodes := g.nodes[p := g.nodes[p].(done := true)])
  }

  /** The slot taken by addPending for a gated request. */
  function Grab(g: Gate, req: nat): (h: Gate)
    ensures req in h.held && h.slots == g.slots + 1 && h.nodes == g.nodes
  {
    g.(held := g.held + {req}, slots := g.slots + 1)
  }

  /** discardResponseDelivery: the slot goes back without the delivery ever being chained. */
  function Drop(g: Gate, req: nat): (h: Gate)
    requires g.slots > 0
    ensures req !in h.held && h.slots == g.slots - 1 && h.nodes == g.nodes
  {
    g.(held := g.held - {req}, slots := g.slots - 1)
  }

  // ------------------------------------------------- what every step keeps

  lemma PopLast(g: Gate)
    requires Linked(g) && g.chain != [] && g.slots > 0
    ensures Last(Pop(g)) == g.nodes[Last(g)].prev
    ensures PrevOk(g.nodes, g.chain[|g.chain| - 1])
  {
    assert Below(g.chain, |g.chain| - 1) == Last(Pop(g));
    assert PrevOk(g.nodes, g.chain[|g.chain| - 1]);
  }

  lemma PopKeeps(g: Gate)
    requires Linked(g) && g.chain != [] && g.slots > 0 && g.nodes[Last(g)].done
    ensures Linked(Pop(g))
  {
    var h := Pop(g);
    PopLast(g);
    assert forall i | 0 <= i < |h.chain| :: h.chain[i] == g.chain[i];
    forall i | 0 <= i < |h.chain| ensures h.nodes[h.chain[i]].prev == Below(h.chain, i) {
      assert Below(g.chain, i) == Below(h.chain, i);
    }
  }

  lemma {:induction false} PruneKeeps(g: Gate, limit: nat)
    requires GateOk(g, limit)
    ensures GateOk(Prune(g), limit)
    decreases |g.chain|
  {
    if g.chain != [] && g.nodes[Last(g)].done {
      PopKeeps(g);
      PruneKeeps(Pop(g), limit);
    }
  }

  lemma PushKeeps(g: Gate, req: nat, mark: nat, limit: nat)
    requires GateOk(g, limit) && req in g.held
    ensures GateOk(Push(g, req, mark), limit)
  {
    var h := Push(g, req, mark);
    var n := |g.nodes|;
    assert forall p | 0 <= p < n :: h.nodes[p] == g.nodes[p];
    assert forall i | 0 <= i < |g.chain| :: h.chain[i] == g.chain[i];
    assert GapDone(h.nodes, Last(g), n);
    forall i | 0 <= i < |h.chain| ensures h.nodes[h.chain[i]].prev == Below(h.chain, i) {
      if i < |g.chain| { assert Below(g.chain, i) == Below(h.chain, i); }
    }
    forall p | 0 <= p < |h.nodes|
      ensures PrevOk(h.nodes, p)
    {
      if p < n { assert PrevOk(g.nodes, p); }
    }
    assert |h.held| == |g.held| - 1;
  }

  lemma CloseKeeps(g: Gate, p: nat, limit: nat)
    requires GateOk(g, limit) && p < |g.nodes|
    ensures GateOk(Close(g, p), limit)
    ensures Close(g, p).nodes[p].done && forall q | 0 <= q < |g.nodes| && q != p :: Close(g, p).nodes[q] == g.nodes[q]
    ensures forall lo, hi :: GapDone(g.nodes, lo, hi) ==> GapDone(Close(g, p).nodes, lo, hi)
  {
    var h := Close(g, p);
    forall lo, hi | GapDone(g.nodes, lo, hi) ensures GapDone(h.nodes, lo, hi) {
    }
    forall q | 0 <= q < |h.nodes|
      ensures PrevOk(h.nodes, q)
    {
      assert h.nodes[q].prev == g.nodes[q].prev;
      assert PrevOk(g.nodes, q);
    }
    forall i | 0 <= i < |h.chain| ensures h.nodes[h.chain[i]].prev == Below(h.chain, i) {
      assert Below(g.chain, i) == Below(h.chain, i);
    }
  }

  /** What is left after a delivery has finished: it is off the chain, and its slot is free, as soon
      as nothing unfinished was chained behind it. */
  lemma FinishedLeaves(g: Gate, p: nat, limit: nat)
    requires GateOk(g, limit) && p < |g.nodes|
    ensures GateOk(Close(g, p), limit)
    ensures var h := Prune(Close(g, p));
            && h.nodes[p].done && h.slots == |h.held| + |h.chain|
            && (p in h.chain <==> p in g.chain && exists q :: p < q < |h.nodes| && !h.nodes[q].done)
  {
    var c := Close(g, p);
    CloseKeeps(g, p, limit);
    PruneKeeps(c, limit);
    var h := Prune(c);
    if p in h.chain {
      var i :| 0 <= i < |h.chain| && h.chain[i] == p;
      assert Last(h) == h.chain[|h.chain| - 1] && i < |h.chain| - 1;
      ChainAscends(h, i, |h.chain| - 1);
    }
    if p in g.chain && exists q :: p < q < |h.nodes| && !h.nodes[q].done {
      var q :| p < q < |h.nodes| && !h.nodes[q].done;
      HistoryOnChain(h, q);
      BelowChained(c, h, p, q);
    }
  }

  lemma BelowChained(g: Gate, h: Gate, p: nat, q: nat)
    requires Linked(g) && h.chain <= g.chain && p in g.chain && q in h.chain && p < q
    ensures p in h.chain
  {
    var i :| 0 <= i < |g.chain| && g.chain[i] == p;
    var j :| 0 <= j < |h.chain| && h.chain[j] == q;
    assert g.chain[j] == q;
    if j < i { ChainAscends(g, j, i); }
    assert i < j && h.chain[i] == p;
  }

  lemma GrabKeeps(g: Gate, req: nat, limit: nat)
    requires GateOk(g, limit) && req !in g.held && g.slots < limit
    ensures GateOk(Grab(g, req), limit)
  {
    SameChain(g, Grab(g, req));
  }

  lemma SameChain(g: Gate, h: Gate)
    requires Linked(g) && h.nodes == g.nodes && h.chain == g.chain
    ensures Linked(h)
  {
    assert g.(held := h.held, slots := h.slots) == h;
  }

  lemma DropKeeps(g: Gate, req: nat, limit: nat)
    requires GateOk(g, limit) && req in g.held
    ensures g.slots > 0 && GateOk(Drop(g, req), limit)
  {
    assert |g.held - {req}| == |g.held| - 1;
    SameChain(g, Drop(g, req));
  }

  // ------------------------------------------------- what the chain is for

  lemma {:induction false} ChainAscends(g: Gate, i: nat, j: nat)
    requires Linked(g) && i < j < |g.chain|
    ensures g.chain[i] < g.chain[j]
    decreases j
  {
    assert g.nodes[g.chain[j]].prev == Below(g.chain, j);
    assert PrevOk(g.nodes, g.chain[j]);
    if i < j - 1 { ChainAscends(g, i, j - 1); }
  }

  /** The pruned chain refines the full history: every gated response ever received is done or
      still on the chain, and the chain is in arrival order. */
  lemma HistoryOnChain(g: Gate, p: nat)
    requires Linked(g) && p < |g.nodes|
    ensures g.nodes[p].done || p in g.chain
    ensures forall i, j | 0 <= i < j < |g.chain| :: g.chain[i] < g.chain[j]
  {
    forall i, j | 0 <= i < j < |g.chain| ensures g.chain[i] < g.chain[j] {
      ChainAscends(g, i, j);
    }
    if p <= Last(g) {
      OnChainOrDone(g, p, |g.chain| - 1);
    }
  }

  lemma {:induction false} OnChainOrDone(g: Gate, p: nat, i: nat)
    requires Linked(g) && i < |g.chain| && p <= g.chain[i]
    ensures g.nodes[p].done || p in g.chain
    decreases i
  {
    var c := g.chain[i];
    if p < c {
      assert PrevOk(g.nodes, c);
      assert g.nodes[c].prev == Below(g.chain, i);
      if i > 0 && p <= g.chain[i - 1] { OnChainOrDone(g, p, i - 1); }
    }
  }

  /** A walk along `previous` from barrier: the positions it stands at, one after the other. */
  ghost predicate IsWalk(nodes: seq<Node>, barrier: int, visited: seq<int>) {
    && visited != [] && visited[0] == barrier
    && (forall i | 0 <= i < |visited| :: -1 <= visited[i] < |nodes|)
    && (forall i | 0 <= i < |visited| - 1 ::
          visited[i] >= 0 && nodes[visited[i]].done && visited[i + 1] == nodes[visited[i]].prev)
  }

  /** A barrier walk that reaches nil has seen every gated response received before the barrier
      was taken done, including those the chain had already dropped. */
  lemma {:induction false} WalkCoversHistory(g: Gate, after: nat, visited: seq<int>)
    requires visited != [] && Linked(g) && after <= |g.nodes| && IsWalk(g.nodes, visited[0], visited)
    requires visited[0] < after && GapDone(g.nodes, visited[0], after)
    requires visited[|visited| - 1] == -1
    ensures GapDone(g.nodes, -1, after)
    decreases |visited|
  {
    if |visited| > 1 {
      var c, rest := visited[0], visited[1..];
      assert PrevOk(g.nodes, c);
      assert forall i | 0 <= i < |rest| :: rest[i] == visited[i + 1];
      assert GapDone(g.nodes, rest[0], after);
      WalkCoversHistory(g, after, rest);
    }
  }
}
