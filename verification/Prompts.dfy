/** The per-session cancellation of prompts (agent_gen.go): the sessionCancels map in its own form,
    and whole runs of concurrent prompts. */
module Prompts {
  import Flags

  type Session = string
  type PromptId = nat

  // ------------------------------------------------- the map

  /** sessionPromptCancel: cancelled stands for the prompt's context. */
  class Entry {
    var cancelled: bool

    constructor ()
      ensures !cancelled
    {
      cancelled := false;
    }
  }

  class Agent {
    var sessionCancels: map<Session, Entry>

    constructor ()
      ensures sessionCancels == map[]
    {
      sessionCancels := map[];
    }

    /** session/prompt, before the agent is called: it supersedes the session's prompt. */
    method BeginPrompt(session: Session) returns (entry: Entry)
      modifies this, sessionCancels.Values
      ensures fresh(entry) && !entry.cancelled
      ensures sessionCancels == old(sessionCancels)[session := entry]
      ensures session in old(sessionCancels) ==> old(sessionCancels)[session].cancelled
      ensures forall e | e in old(sessionCancels.Values) && (session in old(sessionCancels) ==> e != old(sessionCancels)[session]) ::
                e.cancelled == old(e.cancelled)
    {
      entry := new Entry();
      if session in sessionCancels {
        var prev := sessionCancels[session];
        assert prev in sessionCancels.Values;
        prev.cancelled := true;
      }
      sessionCancels := sessionCancels[session := entry];
    }

    /** session/prompt, after the agent has returned: only its own entry is removed. */
    method EndPrompt(session: Session, entry: Entry)
      modifies `sessionCancels
      ensures sessionCancels == if session in old(sessionCancels) && old(sessionCancels)[session] == entry
                                then old(sessionCancels) - {session} else old(sessionCancels)
    {
      if session in sessionCancels && sessionCancels[session] == entry {
        sessionCancels := sessionCancels - {session};
      }
    }

    /** session/cancel. */
    method CancelSession(session: Session)
      modifies this, sessionCancels.Values
      ensures sessionCancels == old(sessionCancels) - {session}
      ensures session in old(sessionCancels) ==> old(sessionCancels)[session].cancelled
      ensures forall e | e in old(sessionCancels.Values) && (session in old(sessionCancels) ==> e != old(sessionCancels)[session]) ::
                e.cancelled == old(e.cancelled)
    {
      if session in sessionCancels {
        var cn := sessionCancels[session];
        assert cn in sessionCancels.Values;
        cn.cancelled := true;
        sessionCancels := sessionCancels - {session};
      }
    }
  }

  // ------------------------------------------------- runs

  /** A prompt: running until its section behind the agent's call; cancelled through its session,
      by session/cancel or by a newer prompt. */
  datatype Prompt = Prompt(session: Session, running: bool, cancelled: bool)

  datatype State = State(cancels: map<Session, PromptId>, prompts: map<PromptId, Prompt>)

  const EMPTY := State(map[], map[])

  datatype Action = Begin(p: PromptId, session: Session) | End(p: PromptId) | Cancel(session: Session)

  predicate Enabled(s: State, a: Action) {
    match a
    case Begin(p, _) => p !in s.prompts
    case End(p) => p in s.prompts && s.prompts[p].running
    case Cancel(_) => true
  }

  /** Cancelling whatever the map holds for the session. */
  function Cancelled(s: State, session: Session): map<PromptId, Prompt> {
    if session in s.cancels && s.cancels[session] in s.prompts
    then s.prompts[s.cancels[session] := s.prompts[s.cancels[session]].(cancelled := true)]
    else s.prompts
  }

  function Do(s: State, a: Action): State
    requires Enabled(s, a)
  {
    match a
    case Begin(p, session) =>
      State(s.cancels[session := p], Cancelled(s, session)[p := Prompt(session, true, false)])
    case End(p) =>
      var q := s.prompts[p];
      State(if q.session in s.cancels && s.cancels[q.session] == p then s.cancels - {q.session} else s.cancels,
            s.prompts[p := q.(running := false)])
    case Cancel(session) => State(s.cancels - {session}, Cancelled(s, session))
  }

  ghost predicate IsRun(states: seq<State>, acts: seq<Action>) {
    && |states| == |acts| + 1 && states[0] == EMPTY
    && forall i | 0 <= i < |acts| :: Enabled(states[i], acts[i]) && states[i + 1] == Do(states[i], acts[i])
  }

  /** The map holds exactly the running prompts that were not cancelled through their session. */
  predicate Exact(s: State) {
    && (forall session | session in s.cancels ::
          var p := s.cancels[session]; p in s.prompts && s.prompts[p] == Prompt(session, true, false))
    && (forall p | p in s.prompts && s.prompts[p].running && !s.prompts[p].cancelled ::
          s.prompts[p].session in s.cancels && s.cancels[s.prompts[p].session] == p)
  }

  lemma ActionKeeps(s: State, a: Action)
    requires Exact(s) && Enabled(s, a)
    ensures Exact(Do(s, a))
  {
  }

  lemma {:induction false} RunExact(states: seq<State>, acts: seq<Action>, i: nat)
    requires IsRun(states, acts) && i < |states|
    ensures Exact(states[i])
    decreases i
  {
    if i > 0 {
      RunExact(states, acts, i - 1);
      ActionKeeps(states[i - 1], acts[i - 1]);
    }
  }

  /** At most one prompt of a session is live: running and not cancelled through the session. */
  lemma OneLivePrompt(states: seq<State>, acts: seq<Action>, i: nat, p: PromptId, q: PromptId)
    requires IsRun(states, acts) && i < |states| && p in states[i].prompts && q in states[i].prompts
    requires states[i].prompts[p].session == states[i].prompts[q].session
    requires states[i].prompts[p].running && !states[i].prompts[p].cancelled
    requires states[i].prompts[q].running && !states[i].prompts[q].cancelled
    ensures p == q
  {
    RunExact(states, acts, i);
  }

  /** A prompt of session is in the map before and after another prompt ends, even one of the same
      session: a finishing old prompt never removes a newer entry. */
  lemma EndRemovesOnlyItself(s: State, p: PromptId, session: Session)
    requires Exact(s) && Enabled(s, End(p)) && session in s.cancels && s.cancels[session] != p
    ensures session in Do(s, End(p)).cancels && Do(s, End(p)).cancels[session] == s.cancels[session]
  {
  }

  /** A running prompt is cancelled through its session exactly by a newer prompt of the session or
      by session/cancel. */
  lemma CancelledOnlyBySession(s: State, a: Action, p: PromptId)
    requires Exact(s) && Enabled(s, a) && p in s.prompts && s.prompts[p].running && !s.prompts[p].cancelled
    ensures p in Do(s, a).prompts
    ensures Do(s, a).prompts[p].cancelled <==>
            a == Cancel(s.prompts[p].session) || (a.Begin? && a.session == s.prompts[p].session)
  {
  }

  /** Cancellation is for good. */
  lemma {:induction false} CancelledStays(states: seq<State>, acts: seq<Action>, i: nat, j: nat, p: PromptId)
    requires IsRun(states, acts) && i <= j < |states| && p in states[i].prompts
    ensures p in states[j].prompts && states[j].prompts[p].session == states[i].prompts[p].session
    ensures states[i].prompts[p].cancelled ==> states[j].prompts[p].cancelled
    ensures !states[i].prompts[p].running ==> !states[j].prompts[p].running
    decreases j
  {
    if i < j {
      CancelledStays(states, acts, i, j - 1, p);
      assert states[j] == Do(states[j - 1], acts[j - 1]);
    }
  }

  /** Once a newer prompt of its session has begun, an older prompt is cancelled or was over. */
  lemma NewPromptSupersedes(states: seq<State>, acts: seq<Action>, i: nat, j: nat, k: nat, p: PromptId, q: PromptId, session: Session)
    requires IsRun(states, acts) && i < j < |acts| && acts[i] == Begin(p, session) && acts[j] == Begin(q, session)
    requires j < k < |states|
    ensures p in states[k].prompts && (states[k].prompts[p].cancelled || !states[k].prompts[p].running)
  {
    assert states[i + 1] == Do(states[i], acts[i]);
    CancelledStays(states, acts, i + 1, j, p);
    RunExact(states, acts, j);
    assert states[j + 1] == Do(states[j], acts[j]);
    if states[j].prompts[p].running && !states[j].prompts[p].cancelled {
      CancelledOnlyBySession(states[j], acts[j], p);
    }
    CancelledStays(states, acts, j, j + 1, p);
    CancelledStays(states, acts, j + 1, k, p);
  }

  // ------------------------------------------------- what the state says about the run

  /** A prompt is known, with its session, exactly if it has begun for that session. */
  lemma BegunExactly(states: seq<State>, acts: seq<Action>, i: nat, p: PromptId, session: Session)
    requires IsRun(states, acts) && i < |states|
    ensures (p in states[i].prompts && states[i].prompts[p].session == session)
            <==> exists k :: 0 <= k < i && acts[k] == Begin(p, session)
  {
    var flags := seq(|states|, k requires 0 <= k < |states| => p in states[k].prompts && states[k].prompts[p].session == session);
    var events := seq(|acts|, k requires 0 <= k < |acts| => acts[k] == Begin(p, session));
    forall k | 0 <= k < |acts| ensures flags[k + 1] <==> flags[k] || events[k] {
      assert Enabled(states[k], acts[k]) && states[k + 1] == Do(states[k], acts[k]);
    }
    Flags.UpAfter(flags, events, i);
    forall k | 0 <= k < i ensures events[k] == (acts[k] == Begin(p, session)) {
    }
  }

  /** It is over exactly if it has ended. */
  lemma OverExactly(states: seq<State>, acts: seq<Action>, i: nat, p: PromptId)
    requires IsRun(states, acts) && i < |states|
    ensures (p in states[i].prompts && !states[i].prompts[p].running) <==> exists k :: 0 <= k < i && acts[k] == End(p)
  {
    var flags := seq(|states|, k requires 0 <= k < |states| => p in states[k].prompts && !states[k].prompts[p].running);
    var events := seq(|acts|, k requires 0 <= k < |acts| => acts[k] == End(p));
    forall k | 0 <= k < |acts| ensures flags[k + 1] <==> flags[k] || events[k] {
      assert Enabled(states[k], acts[k]) && states[k + 1] == Do(states[k], acts[k]);
    }
    Flags.UpAfter(flags, events, i);
    forall k | 0 <= k < i ensures events[k] == (acts[k] == End(p)) {
    }
  }

  /** The session of a running prompt is cancelled, or used for a newer prompt. */
  predicate Interrupts(s: State, a: Action, p: PromptId) {
    && p in s.prompts && s.prompts[p].running
    && (a == Cancel(s.prompts[p].session) || (a.Begin? && a.session == s.prompts[p].session))
  }

  lemma InterruptStep(s: State, a: Action, p: PromptId)
    requires Exact(s) && Enabled(s, a)
    ensures (p in Do(s, a).prompts && Do(s, a).prompts[p].cancelled)
            <==> (p in s.prompts && s.prompts[p].cancelled) || Interrupts(s, a, p)
  {
  }

  /** It is cancelled exactly if, while it was running, its session was cancelled or used for a newer
      prompt. */
  lemma CancelledExactly(states: seq<State>, acts: seq<Action>, i: nat, p: PromptId)
    requires IsRun(states, acts) && i < |states|
    ensures (p in states[i].prompts && states[i].prompts[p].cancelled)
            <==> exists k :: 0 <= k < i && Interrupts(states[k], acts[k], p)
  {
    var flags := seq(|states|, k requires 0 <= k < |states| => p in states[k].prompts && states[k].prompts[p].cancelled);
    var events := seq(|acts|, k requires 0 <= k < |acts| => Interrupts(states[k], acts[k], p));
    forall k | 0 <= k < |acts| ensures flags[k + 1] <==> flags[k] || events[k] {
      RunExact(states, acts, k);
      InterruptStep(states[k], acts[k], p);
    }
    Flags.UpAfter(flags, events, i);
    forall k | 0 <= k < i ensures events[k] == Interrupts(states[k], acts[k], p) {
    }
  }
}
