/** Batch entries: which of them own a slot of the reply array, and what the reader does with
    each of them (section 6 of the JSON-RPC 2.0 specification). */
module Frames {
  import opened Results

  /** A decoded message, as far as dispatch looks at it; an id may be any JSON text. */
  datatype Message = Message(jsonrpc: string, id: Option<string>, name: string)

  /** A batch entry: the member names of its raw text, if that is a JSON object, with the raw id,
      and the decoded message, if decoding succeeded. Decoding ignores the case of member names
      and the raw lookup does not, so neither determines the other. */
  datatype Entry = Entry(members: Option<set<string>>, rawId: Option<string>, msg: Option<Message>)

  const VERSION := "2.0"
  const CANCEL := "$/cancel_request"

  predicate IsResponseOnlyRaw(e: Entry) {
    && e.members.Some?
    && "method" !in e.members.value && ("result" in e.members.value || "error" in e.members.value)
  }

  /** batchEntry.needsReply. */
  predicate NeedsReply(e: Entry) {
    match e.msg
    case None => !IsResponseOnlyRaw(e)
    case Some(m) =>
      if m.jsonrpc != VERSION then !IsResponseOnlyRaw(e)
      else if m.id.Some? && m.name == "" then false
      else if m.name != "" && m.id.Some? then true
      else if m.name != "" then false
      else true
  }

  /** batchEntry.replyID; null is the JSON text. */
  function ReplyId(e: Entry): string {
    if e.msg.Some? && e.msg.value.id.Some? then e.msg.value.id.value
    else if e.members.Some? && e.rawId.Some? then e.rawId.value
    else "null"
  }

  /** Where one turn of dispatchBatch's loop leads. Inside a batch the writer of the entry's slot
      is passed along; None as an answered id means that the error goes out on its own. */
  datatype Fate =
    | AnswerError(slot: bool)   // an error reply: into the slot, or as a message of its own
    | Dropped                   // response-shaped and undecodable
    | Cancel | Respond | Enqueue(slot: bool) | Notify

  /** dispatchBatch's loop body and dispatchMessage; slot tells whether a writer was given. */
  function Dispatch(e: Entry, slot: bool): Fate {
    match e.msg
    case None => if slot then AnswerError(true) else Dropped
    case Some(m) =>
      if m.jsonrpc != VERSION then AnswerError(slot)
      else if m.id.None? && m.name == CANCEL then Cancel
      else if m.id.Some? && m.name == "" then Respond
      else if m.name != "" && m.id.Some? then Enqueue(slot)
      else if m.name != "" then Notify
      else AnswerError(slot)
  }

  /** The fate answers through the writer it was given, at once or when the request is done. */
  predicate Answers(f: Fate) {
    f == AnswerError(true) || f == Enqueue(true)
  }

  /** The entries the specification answers: requests, and whatever is neither a notification
      nor shaped like a response. */
  predicate Answerable(e: Entry) {
    var valid := e.msg.Some? && e.msg.value.jsonrpc == VERSION;
    if valid then e.msg.value.id.Some? == (e.msg.value.name != "")
    else !IsResponseOnlyRaw(e)
  }

  /** needsReply and dispatchMessage agree: an entry that owns a slot is always answered through
      it, and an entry without one never touches the collector. */
  lemma SlotsAgree(e: Entry)
    ensures NeedsReply(e) <==> Answerable(e)
    ensures Answers(Dispatch(e, NeedsReply(e))) <==> NeedsReply(e)
    ensures !Answers(Dispatch(e, false))
  {
    if e.msg.Some? {
      var m := e.msg.value;
      assert m.name == CANCEL ==> m.name != "" by { assert |CANCEL| > 0; }
    }
  }

  /** The entry was decoded, and is a message of version 2.0. */
  predicate IsValid(e: Entry) {
    e.msg.Some? && e.msg.value.jsonrpc == "2.0"
  }

  /** What becomes of each kind of entry, with the slot that it owns: a request is queued for its
      handler, and answered through its slot; a notification goes to the notifications, unless it
      cancels a request; a response goes to its request; and everything else is answered with an error
      through its slot, but for what is only shaped like a response, which gets no answer in the batch. */
  lemma FatesInBatch(e: Entry)
    ensures var fate := Dispatch(e, NeedsReply(e));
            var named := IsValid(e) && e.msg.value.name != "";
            var withId := IsValid(e) && e.msg.value.id.Some?;
            && (fate == Enqueue(true) <==> named && withId)
            && (fate == Cancel <==> IsValid(e) && !withId && e.msg.value.name == "$/cancel_request")
            && (fate == Notify <==> named && !withId && e.msg.value.name != "$/cancel_request")
            && (fate == Respond <==> withId && !named)
            && (fate == AnswerError(true) <==> !named && !withId && (IsValid(e) || !IsResponseOnlyRaw(e)))
            && (fate == AnswerError(false) || fate == Dropped <==> !IsValid(e) && IsResponseOnlyRaw(e))
            && (fate == Dropped <==> e.msg.None? && IsResponseOnlyRaw(e))
            && fate != Enqueue(false)
  {
    if e.msg.Some? {
      assert e.msg.value.name == CANCEL ==> e.msg.value.name != "" by { assert |CANCEL| > 0; }
    }
  }

  /** The same for a decoded message outside a batch: nothing is dropped, and an error is a message of
      its own. */
  lemma FatesAlone(e: Entry)
    requires e.msg.Some?
    ensures var fate := Dispatch(e, false);
            var named := IsValid(e) && e.msg.value.name != "";
            var withId := IsValid(e) && e.msg.value.id.Some?;
            && (fate == Enqueue(false) <==> named && withId)
            && (fate == Cancel <==> IsValid(e) && !withId && e.msg.value.name == "$/cancel_request")
            && (fate == Notify <==> named && !withId && e.msg.value.name != "$/cancel_request")
            && (fate == Respond <==> withId && !named)
            && (fate == AnswerError(false) <==> !named && !withId)
  {
    assert e.msg.value.name == CANCEL ==> e.msg.value.name != "" by { assert |CANCEL| > 0; }
  }

  /** The id of the error reply that dispatch itself writes: jsonRPCIDOrNull of the decoded id, or
      replyID of an entry that could not be decoded. */
  function ErrorId(e: Entry): string {
    match e.msg
    case None => ReplyId(e)
    case Some(m) => if m.id.Some? then m.id.value else "null"
  }

  /** Both ways to find the id agree, as decoding never loses an id that the raw text has; so an
      error is always addressed to the entry's own id, and to null only if it has none. */
  lemma ErrorsNameTheirEntry(e: Entry)
    requires e.rawId.Some? ==> e.members.Some? && (e.msg.Some? ==> e.msg.value.id.Some?)
    ensures ErrorId(e) == ReplyId(e)
    ensures (e.rawId.Some? && e.msg.None? ==> ErrorId(e) == e.rawId.value)
            && (e.rawId.None? && (e.msg.Some? ==> e.msg.value.id.None?) ==> ErrorId(e) == "null")
  {
  }

  // ------------------------------------------------- slots

  /** How many of the entries own a slot. */
  function Count(entries: seq<Entry>): (n: nat)
    ensures n <= |entries|
  {
    if entries == [] then 0
    else Count(entries[..|entries| - 1]) + (if NeedsReply(entries[|entries| - 1]) then 1 else 0)
  }

  /** The slot of entry i, or -1. */
  function Slot(entries: seq<Entry>, i: nat): int
    requires i < |entries|
  {
    if NeedsReply(entries[i]) then Count(entries[..i]) else -1
  }

  /** The first loop of dispatchBatch. */
  method AssignSlots(entries: seq<Entry>) returns (replyIndexes: array<int>, replyCount: nat)
    ensures fresh(replyIndexes) && replyIndexes.Length == |entries| && replyCount == Count(entries)
    ensures forall i | 0 <= i < |entries| :: replyIndexes[i] == Slot(entries, i)
  {
    replyIndexes := new int[|entries|](_ => -1);
    replyCount := 0;
    var i := 0;
    while i < |entries|
      invariant 0 <= i <= |entries| && replyCount == Count(entries[..i])
      invariant forall j | 0 <= j < i :: replyIndexes[j] == Slot(entries, j)
    {
      replyIndexes[i] := -1;
      assert entries[..i + 1][..i] == entries[..i];
      if NeedsReply(entries[i]) {
        replyIndexes[i] := replyCount;
        replyCount := replyCount + 1;
      }
      i := i + 1;
    }
    assert entries[..i] == entries;
  }

  lemma {:induction false} CountMonotone(entries: seq<Entry>, i: nat, j: nat)
    requires i <= j <= |entries|
    ensures Count(entries[..i]) <= Count(entries[..j])
    decreases j
  {
    if i < j {
      CountMonotone(entries, i, j - 1);
      assert entries[..j][..j - 1] == entries[..j - 1];
    }
  }

  lemma CountNext(entries: seq<Entry>, i: nat)
    requires i < |entries|
    ensures Count(entries[..i + 1]) == Count(entries[..i]) + (if NeedsReply(entries[i]) then 1 else 0)
  {
    assert entries[..i + 1][..i] == entries[..i];
  }

  lemma WholePrefix(entries: seq<Entry>)
    ensures Count(entries[..|entries|]) == Count(entries)
  {
    assert entries[..|entries|] == entries;
  }

  /** Slots follow the order of the entries, without gaps. */
  lemma SlotsInOrder(entries: seq<Entry>, i: nat, j: nat)
    requires i < j < |entries| && NeedsReply(entries[i]) && NeedsReply(entries[j])
    ensures 0 <= Slot(entries, i) < Slot(entries, j) < Count(entries)
    ensures (forall k | i < k < j :: !NeedsReply(entries[k])) ==> Slot(entries, j) == Slot(entries, i) + 1
  {
    SlotBeforeCount(entries, i, j);
    SlotBeforeCount(entries, j, |entries|);
    WholePrefix(entries);
    if forall k | i < k < j :: !NeedsReply(entries[k]) { NoneBetween(entries, i + 1, j); }
  }

  /** Entry i has one of the slots given out before entry j, and the next free one comes behind it. */
  lemma SlotBeforeCount(entries: seq<Entry>, i: nat, j: nat)
    requires i < j <= |entries| && NeedsReply(entries[i])
    ensures 0 <= Slot(entries, i) < Count(entries[..j]) && Count(entries[..i + 1]) == Slot(entries, i) + 1
  {
    CountNext(entries, i);
    CountMonotone(entries, i + 1, j);
  }

  lemma {:induction false} NoneBetween(entries: seq<Entry>, i: nat, j: nat)
    requires i <= j <= |entries| && forall k | i <= k < j :: !NeedsReply(entries[k])
    ensures Count(entries[..i]) == Count(entries[..j])
    decreases j
  {
    if i < j {
      NoneBetween(entries, i, j - 1);
      assert entries[..j][..j - 1] == entries[..j - 1];
    }
  }

  /** Every slot belongs to exactly one entry. */
  lemma {:induction false} SlotHasEntry(entries: seq<Entry>, s: nat)
    requires s < Count(entries)
    ensures exists i :: 0 <= i < |entries| && Slot(entries, i) == s
    decreases |entries|
  {
    var k := |entries| - 1;
    if s < Count(entries[..k]) {
      SlotHasEntry(entries[..k], s);
      var i :| 0 <= i < k && Slot(entries[..k], i) == s;
      assert entries[..k][..i] == entries[..i];
      assert Slot(entries, i) == s;
    } else {
      assert Slot(entries, k) == s;
    }
  }
}
