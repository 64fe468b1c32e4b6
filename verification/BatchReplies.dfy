/** batchReply in its own form: arrays filled in place. */
module BatchReplies {
  import opened Results
  import opened Inbound
  import InboundInvariant

  class BatchReply {
    const replies: array<nat>
    const present: array<bool>
    const completions: array<Option<JobId>>
    var remaining: nat

    /** The slots as the state machine sees them. */
    ghost function Slots(): (s: seq<Inbound.Fill>)
      requires Sized()
      reads replies, present, completions
      ensures |s| == replies.Length
    {
      seq(replies.Length, i requires 0 <= i < replies.Length reads replies, present, completions =>
        if present[i] then Filled(replies[i], completions[i]) else Empty)
    }

    ghost predicate Sized() {
      replies.Length == present.Length == completions.Length
    }

    ghost predicate Shows(c: Collector)
      reads this, replies, present, completions
    {
      Sized() && Slots() == c.slots && remaining == c.remaining
    }

    constructor (n: nat)
      ensures Shows(Collector(seq(n, i => Empty), n, 0, Open))
      ensures fresh(replies) && fresh(present) && fresh(completions)
    {
      replies := new nat[n](_ => 0);
      present := new bool[n](_ => false);
      completions := new Option<JobId>[n](_ => None);
      remaining := n;
    }

    /** complete, up to the end of its critical section: only the first completion of a slot
        counts, and whoever fills the last one flushes. */
    method Complete(index: int, msg: nat, completion: Option<JobId>, ghost c: Collector) returns (flush: bool)
      requires Shows(c) && c.remaining == Missing(c.slots) && (c.flush.Open? <==> c.remaining > 0)
      modifies `remaining, replies, present, completions
      ensures index < 0 ==> Shows(c) && !flush
      ensures index >= 0 ==> Shows(Inbound.Complete(c, index, msg, completion))
      ensures index >= 0 ==> (flush <==> c.flush.Open? && Inbound.Complete(c, index, msg, completion).flush.Sending?)
      ensures flush ==> forall i | 0 <= i < present.Length :: present[i]
    {
      if index < 0 || index >= replies.Length || present[index] {
        assert index >= 0 ==> Inbound.Complete(c, index, msg, completion) == c;
        return false;
      }
      assert c.slots[index].Empty?;
      InboundInvariant.CompleteIs(c, index, msg, completion);
      InboundInvariant.MissingZero(c.slots[index := Filled(msg, completion)]);
      InboundInvariant.MissingZero(c.slots);
      completions[index] := completion;
      replies[index] := msg;
      present[index] := true;
      remaining := remaining - 1;
      assert Slots() == c.slots[index := Filled(msg, completion)];
      if remaining == 0 {
        forall i | 0 <= i < present.Length ensures present[i] { assert Slots()[i].Filled?; }
      }
      return remaining == 0;
    }
  }
}
