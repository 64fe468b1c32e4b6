/** afterResponseState in its own form: the one callback a handler may register. */
module AfterResponses {
  import opened Results
  import opened Inbound

  /** The errors of registration. */
  datatype AddError = Unavailable | AlreadyRegistered | Closed | QueueFull

  /** batchCallbackSlots, and whether the connection is done. */
  class CallbackSlots {
    const limit: nat
    var taken: nat
    var closed: bool

    /** The part of the state machine that is kept here. */
    ghost predicate Shows(s: State)
      reads this
    {
      limit == s.limit && taken == s.tokens && closed == s.closed
    }

    constructor (limit: nat)
      ensures forall queueLimit :: Shows(Initial(limit, queueLimit))
    {
      this.limit, taken, closed := limit, 0, false;
    }

    /** reserveBatchCallback: two selects. seen is what the first one saw of Done; the connection may
        have closed since. */
    method Reserve(seen: bool) returns (r: Result<nat, AddError>)
      requires seen ==> closed
      modifies `taken
      ensures r.Ok? <==> !seen && old(taken) < limit
      ensures r == Err(Closed) <==> seen
      ensures r == Err(QueueFull) <==> !seen && old(taken) >= limit
      ensures taken == if r.Ok? then old(taken) + 1 else old(taken)
    {
      if seen { return Err(Closed); }
      if taken >= limit { return Err(QueueFull); }
      taken := taken + 1;
      return Ok(taken);
    }
  }

  class AfterResponse {
    const batch: bool
    var isSealed: bool
    var callback: bool

    /** The state shows a request of the state machine whose handler may still be running. */
    ghost predicate Shows(job: Job)
      reads this
    {
      && batch == job.slot.Some? && isSealed == !job.stage.Running?
      && callback == (job.stage.Running? && job.callback == Registered)
      && (job.stage.Running? ==> job.callback == NoCallback || job.callback == Registered)
    }

    constructor (batch: bool)
      ensures this.batch == batch && !isSealed && !callback
    {
      this.batch, isSealed, callback := batch, false, false;
    }

    /** add; a request of a batch reserves a token first. It registers exactly when the state machine
        can, unless Done was seen, and leaves the request and the tokens as the state machine does. */
    method Add(slots: CallbackSlots, j: JobId, seen: bool, ghost s: State) returns (r: Result<bool, AddError>)
      requires j in s.jobs && Shows(s.jobs[j]) && slots.Shows(s) && (seen ==> slots.closed)
      modifies `callback, slots`taken
      ensures r.Ok? <==> Enabled(s, Register(j)) && !(batch && seen)
      ensures r.Ok? ==> Shows(Do(s, Register(j)).jobs[j]) && slots.Shows(Do(s, Register(j)))
      ensures r.Err? ==> Shows(s.jobs[j]) && slots.Shows(s)
      ensures r == Err(Unavailable) <==> !s.jobs[j].stage.Running?
      ensures r == Err(AlreadyRegistered) <==> s.jobs[j].stage.Running? && s.jobs[j].callback == Registered
      ensures r == Err(Closed) || r == Err(QueueFull) ==> batch
      ensures r == Err(Closed) ==> seen && s.closed
      ensures r == Err(QueueFull) ==> !seen && s.tokens >= s.limit
    {
      if isSealed { return Err(Unavailable); }
      if callback { return Err(AlreadyRegistered); }
      if batch {
        var reserved := slots.Reserve(seen);
        if reserved.Err? { return Err(reserved.error); }
      }
      callback := true;
      return Ok(batch);
    }

    /** seal; after the handler has returned the callback is the caller's. */
    method Seal(ghost job: Job) returns (taken: bool)
      requires Shows(job) && job.stage.Running?
      modifies `isSealed, `callback
      ensures taken <==> job.callback == Registered
      ensures isSealed && !callback
    {
      isSealed := true;
      taken := callback;
      callback := false;
    }
  }
}
