/** The linked chain of response deliveries that connection.go keeps under deliveryMu, on the heap
    and in its own form. Every method is proved against the corresponding function of Gate. */
module Chains {
  import Gate

  /** responseDelivery: done is its closed channel. */
  class Delivery {
    var done: bool
    var previous: Delivery?

    constructor ()
      ensures !done && previous == null
    {
      done, previous := false, null;
    }
  }

  /** lastResponseDelivery and responseDeliverySlots. history and gate are bookkeeping for the
      proof: every delivery ever chained in arrival order, and the abstract state. */
  class Chain {
    const limit: nat
    var last: Delivery?
    var slots: nat
    ghost var history: seq<Delivery>
    ghost var gate: Gate.Gate

    /** The delivery at a position of the history. */
    ghost function At(p: int): Delivery?
      requires -1 <= p < |history|
      reads this
    {
      if p == -1 then null else history[p]
    }

    ghost predicate Shaped()
      reads this
    {
      && |history| == |gate.nodes| && slots == gate.slots
      && Gate.GateOk(gate, limit)
      && (forall i, j | 0 <= i < j < |history| :: history[i] != history[j])
      && -1 <= Gate.Last(gate) < |history| && last == At(Gate.Last(gate))
    }

    ghost predicate Node(i: nat)
      requires i < |history| == |gate.nodes|
      reads this, history
    {
      && history[i].done == gate.nodes[i].done
      && -1 <= gate.nodes[i].prev < i && history[i].previous == At(gate.nodes[i].prev)
    }

    ghost predicate Valid()
      reads this, history
    {
      Shaped() && forall i | 0 <= i < |history| :: Node(i)
    }

    lemma UndoneBehind(p: nat)
      requires Valid()
      ensures (exists i :: p < i < |history| && !history[i].done) <==> (exists i :: p < i < |gate.nodes| && !gate.nodes[i].done)
    {
      forall i | 0 <= i < |history| ensures history[i].done == gate.nodes[i].done { assert Node(i); }
    }

    constructor (limit: nat)
      ensures Valid() && gate == Gate.EMPTY_GATE && this.limit == limit
    {
      this.limit := limit;
      last, slots, history, gate := null, 0, [], Gate.EMPTY_GATE;
    }

    /** pruneResponseDeliveriesLocked. */
    method Prune()
      requires Valid()
      modifies `last, `slots, `gate
      ensures Valid() && gate == Gate.Prune(old(gate))
      ensures last != null ==> !last.done
    {
      while last != null && last.done
        invariant Valid() && history == old(history)
        invariant |gate.chain| <= gate.slots && Gate.Prune(gate) == Gate.Prune(old(gate))
        decreases |gate.chain|
      {
        label Turn:
        assert Node(Gate.Last(gate));
        Gate.PopLast(gate);
        Gate.PopKeeps(gate);
        last := last.previous;
        slots := slots - 1;
        gate := Gate.Pop(gate);
        forall i | 0 <= i < |history| ensures Node(i) { assert old@Turn(Node(i)); }
      }
      if last != null { assert Node(Gate.Last(gate)); }
    }

    /** responseDeliveryBarrier. */
    method Barrier() returns (d: Delivery?)
      requires Valid()
      modifies `last, `slots, `gate
      ensures Valid() && gate == Gate.Prune(old(gate)) && d == At(Gate.Last(gate))
    {
      Prune();
      d := last;
    }

    /** The slot taken by addPending for a gated request. */
    method Reserve(req: nat) returns (d: Delivery?)
      requires Valid() && req !in gate.held
      modifies `slots, `gate
      ensures Valid()
      ensures d == null <==> old(slots) >= limit
      ensures d != null ==> fresh(d) && !d.done && d.previous == null && gate == Gate.Grab(old(gate), req)
      ensures d != null ==> d !in history && slots == old(slots) + 1
      ensures d == null ==> gate == old(gate) && slots == old(slots)
    {
      if slots >= limit { return null; }
      Gate.GrabKeeps(gate, req, limit);
      slots := slots + 1;
      gate := Gate.Grab(gate, req);
      d := new Delivery();
      forall i | 0 <= i < |history| ensures Node(i) { assert old(Node(i)); }
    }

    /** handleResponse under deliveryMu: prune, then put the delivery behind the last one. */
    method Push(d: Delivery, req: nat, mark: nat)
      requires Valid() && d !in history && !d.done && req in gate.held
      modifies `last, `slots, `gate, `history, d`previous
      ensures Valid() && gate == Gate.Push(Gate.Prune(old(gate)), req, mark)
      ensures history == old(history) + [d] && last == d && slots == |gate.held| + |gate.chain|
      ensures d.previous != null ==> !d.previous.done
    {
      Prune();
      Gate.PushKeeps(gate, req, mark, limit);
      label Pruned:
      d.previous := last;
      last := d;
      ghost var was, n := gate, |history|;
      history := history + [d];
      gate := Gate.Push(gate, req, mark);
      assert forall i | 0 <= i < n :: gate.nodes[i] == was.nodes[i] && history[i] == old(history)[i];
      forall i | 0 <= i < |history| ensures Node(i) {
        if i < n { assert old@Pruned(Node(i)); }
      }
    }

    /** finishResponseDelivery of the delivery at position p. */
    method Finish(d: Delivery, ghost p: nat)
      requires Valid() && p < |history| && history[p] == d
      modifies `last, `slots, `gate, d`done
      ensures Valid() && gate == Gate.Prune(Gate.Close(old(gate), p))
      ensures d.done && slots == |gate.held| + |gate.chain|
      ensures p in gate.chain <==> p in old(gate.chain) && exists i :: p < i < |history| && !history[i].done
    {
      Gate.CloseKeeps(gate, p, limit);
      Gate.FinishedLeaves(gate, p, limit);
      ghost var was := gate;
      d.done := true;
      gate := Gate.Close(gate, p);
      assert forall i | 0 <= i < |history| :: gate.nodes[i].prev == was.nodes[i].prev;
      forall i | 0 <= i < |history| ensures Node(i) {
        assert old(Node(i));
      }
      Prune();
      UndoneBehind(p);
    }

    /** discardResponseDelivery: only the first call closes, and gives the slot back. */
    method Discard(d: Delivery, ghost req: nat)
      requires Valid() && d !in history && (d.done || req in gate.held)
      modifies `slots, `gate, d`done
      ensures Valid() && d.done && slots == if old(d.done) then old(slots) else old(slots) - 1
      ensures gate == if old(d.done) then old(gate) else Gate.Drop(old(gate), req)
    {
      if !d.done {
        Gate.DropKeeps(gate, req, limit);
        d.done := true;
        slots := slots - 1;
        gate := Gate.Drop(gate, req);
        forall i | 0 <= i < |history| ensures Node(i) {
          assert old(Node(i));
        }
      }
    }

    /** waitResponseDelivery with nothing to wait for: it follows `previous` from a barrier over
        finished deliveries. When it gets through, every gated response that arrived before the
        barrier was taken is finished, whether or not it was on the way. */
    method Walk(barrier: Delivery?, ghost b: int, ghost after: nat) returns (through: bool)
      requires Valid() && -1 <= b < |history| && barrier == At(b)
      requires b < after <= |history| && Gate.GapDone(gate.nodes, b, after)
      ensures through ==> forall i | 0 <= i < after :: history[i].done
      ensures !through ==> exists i :: 0 <= i <= b && !history[i].done
    {
      var delivery := barrier;
      ghost var p := b;
      while delivery != null && delivery.done
        invariant -1 <= p <= b && delivery == At(p) && Gate.GapDone(gate.nodes, p, after)
        decreases p
      {
        assert Node(p) && Gate.PrevOk(gate.nodes, p);
        delivery := delivery.previous;
        p := gate.nodes[p].prev;
      }
      if delivery == null {
        forall i | 0 <= i < after ensures history[i].done { assert Node(i); }
      }
      return delivery == null;
    }
  }
}
