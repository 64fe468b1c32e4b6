/** The initialize handshake of the versioned surface: initialization.go's guarded state, the
    router that pins a version, and whole runs of concurrent calls. */
module Handshake {
  import opened Results
  import Flags

  /** The fields of `initialization`; selected is 0 until an initialize has succeeded. */
  datatype Pin = Pin(selected: nat, initialized: bool, initializing: bool, otherRequest: bool)

  const FRESH := Pin(0, false, false, false)

  /** begin's refusal. */
  predicate Refused(s: Pin, version: nat) {
    s.initializing || (s.initialized && s.selected == 0)
    || (s.selected != 0 && (s.selected != 2 || version != s.selected || s.otherRequest))
  }

  function Begun(s: Pin): Pin {
    s.(initialized := true, initializing := true)
  }

  function Finished(s: Pin, version: nat, ok: bool): Pin {
    s.(initializing := false, selected := if ok then version else s.selected)
  }

  /** A request, or a call of unknown kind, ends the window for a repeated initialize. */
  function Routed(s: Pin, request: bool): Pin {
    s.(otherRequest := s.otherRequest || (request && s.initialized))
  }

  class Initialization {
    var selected: nat
    var initialized: bool
    var initializing: bool
    var otherRequest: bool

    ghost function State(): Pin
      reads this
    {
      Pin(selected, initialized, initializing, otherRequest)
    }

    constructor ()
      ensures State() == FRESH
    {
      selected, initialized, initializing, otherRequest := 0, false, false, false;
    }

    method Begin(version: nat) returns (ok: bool)
      modifies this
      ensures ok <==> !Refused(old(State()), version)
      ensures State() == if ok then Begun(old(State())) else old(State())
    {
      if initializing || (initialized && selected == 0)
         || (selected != 0 && (selected != 2 || version != selected || otherRequest)) {
        return false;
      }
      initialized := true;
      initializing := true;
      return true;
    }

    method Finish(version: nat, ok: bool)
      modifies this
      ensures State() == Finished(old(State()), version, ok)
    {
      initializing := false;
      if ok { selected := version; }
    }

    method Route(request: bool) returns (version: nat, pending: bool)
      modifies `otherRequest
      ensures State() == Routed(old(State()), request)
      ensures version == old(selected) && pending == old(initializing)
    {
      if request && initialized { otherRequest := true; }
      return selected, initializing;
    }

    /** A check that passes gives what a repetition needs: with version 2 selected, a router that has
        version 2 selects it again exactly for the requested versions that pass. Otherwise the check
        never stands in the way. */
    method CheckRepeatVersion(requested: nat) returns (ok: bool)
      ensures selected == 2 ==> forall hasV1 :: ok <==> Select(hasV1, true, requested) == Some(selected)
      ensures selected != 2 ==> ok
    {
      return !(selected == 2 && requested < 2);
    }
  }

  // ------------------------------------------------- which version

  /** ProtocolRouter's choice; with V2 alone it is SelectProtocolVersion. */
  function Select(hasV1: bool, hasV2: bool, requested: nat): Option<nat> {
    if hasV1 && !hasV2 then Some(1)
    else if requested >= 2 && hasV2 then Some(2)
    else if requested >= 1 && hasV1 then Some(1)
    else None
  }

  predicate Implements(hasV1: bool, hasV2: bool, version: nat) {
    (version == 1 && hasV1) || (version == 2 && hasV2)
  }

  /** The router implements what it selects; it selects the highest version both sides know, or,
      with version 1 alone, version 1 whatever was requested; and it refuses when there is none. */
  lemma SelectsHighestCommon(hasV1: bool, hasV2: bool, requested: nat)
    ensures match Select(hasV1, hasV2, requested)
            case Some(v) =>
              && Implements(hasV1, hasV2, v)
              && (v <= requested || (hasV1 && !hasV2))
              && (forall w: nat | w <= requested && Implements(hasV1, hasV2, w) :: w <= v)
            case None => forall w: nat | w <= requested :: !Implements(hasV1, hasV2, w)
  {
  }

  // ------------------------------------------------- runs

  /** One initialize call of the router: before and after its version check, and in its handler. */
  datatype Call = Entered(requested: nat) | Checked(version: nat) | InHandler(version: nat) | Over

  /** forwarded records where the other methods went, in order; started counts the initialize
      calls that reached a handler. */
  datatype Router = Router(hasV1: bool, hasV2: bool, pin: Pin, calls: map<nat, Call>, forwarded: seq<nat>, started: nat)

  function Initial(hasV1: bool, hasV2: bool): Router {
    Router(hasV1, hasV2, FRESH, map[], [], 0)
  }

  /** valid: the request id is acceptable to version 2. Reject: any refusal before begin other
      than the two modelled ones. */
  datatype Action =
    | Other(request: bool, valid: bool)
    | Enter(i: nat, requested: nat)
    | Check(i: nat)
    | Reject(i: nat)
    | Begin(i: nat)
    | Finish(i: nat, ok: bool)

  predicate Enabled(r: Router, a: Action) {
    match a
    case Other(_, _) => true
    case Enter(i, _) => i !in r.calls
    case Check(i) => i in r.calls && r.calls[i].Entered?
    case Reject(i) => i in r.calls && r.calls[i].Checked?
    case Begin(i) => i in r.calls && r.calls[i].Checked?
    case Finish(i, _) => i in r.calls && r.calls[i].InHandler?
  }

  /** Where a method other than initialize is forwarded to, if anywhere. */
  function Forward(r: Router, valid: bool): Option<nat> {
    if r.pin.initializing || (r.pin.selected == 2 && !valid) then None
    else if r.pin.selected == 1 || r.pin.selected == 2 then Some(r.pin.selected)
    else None
  }

  function SetCall(r: Router, i: nat, c: Call): Router {
    r.(calls := r.calls[i := c])
  }

  function Do(r: Router, a: Action): Router
    requires Enabled(r, a)
  {
    match a
    case Other(request, valid) =>
      r.(pin := Routed(r.pin, request),
         forwarded := if Forward(r, valid).Some? then r.forwarded + [Forward(r, valid).value] else r.forwarded)
    case Enter(i, requested) => SetCall(r, i, Entered(requested))
    case Check(i) =>
      var requested := r.calls[i].requested;
      if (r.pin.selected == 2 && requested < 2) || Select(r.hasV1, r.hasV2, requested).None? then SetCall(r, i, Over)
      else SetCall(r, i, Checked(Select(r.hasV1, r.hasV2, requested).value))
    case Reject(i) => SetCall(r, i, Over)
    case Begin(i) =>
      if Refused(r.pin, r.calls[i].version) then SetCall(r, i, Over)
      else SetCall(r, i, InHandler(r.calls[i].version)).(pin := Begun(r.pin), started := r.started + 1)
    case Finish(i, ok) => SetCall(r, i, Over).(pin := Finished(r.pin, r.calls[i].version, ok))
  }

  ghost predicate IsRun(states: seq<Router>, acts: seq<Action>) {
    && |states| == |acts| + 1
    && states[0] == Initial(states[0].hasV1, states[0].hasV2)
    && forall i | 0 <= i < |acts| :: Enabled(states[i], acts[i]) && states[i + 1] == Do(states[i], acts[i])
  }

  /** A call in its handler is the only one, for the version already selected if there is one, and
      everything forwarded went to the selected version. */
  ghost predicate Inv(r: Router) {
    && (r.pin.initializing <==> exists i :: i in r.calls && r.calls[i].InHandler?)
    && (forall i, j | i in r.calls && j in r.calls && r.calls[i].InHandler? && r.calls[j].InHandler? :: i == j)
    && (forall i | i in r.calls && r.calls[i].InHandler? ::
          && (r.calls[i].version == 1 || r.calls[i].version == 2)
          && (r.pin.selected == 0 || r.pin.selected == r.calls[i].version))
    && (forall i | i in r.calls && r.calls[i].Checked? :: r.calls[i].version == 1 || r.calls[i].version == 2)
    && r.pin.selected <= 2
    && (r.pin.selected != 0 || r.pin.initializing ==> r.pin.initialized)
    && (r.pin.initialized <==> r.started > 0)
    && (r.forwarded != [] ==> r.pin.selected != 0)
    && (forall k | 0 <= k < |r.forwarded| :: r.forwarded[k] == r.pin.selected)
  }

  lemma CallMoves(r: Router, i: nat, c: Call)
    requires Inv(r) && !c.InHandler? && (i in r.calls ==> !r.calls[i].InHandler?)
    requires c.Checked? ==> c.version == 1 || c.version == 2
    ensures Inv(SetCall(r, i, c))
  {
    var t := SetCall(r, i, c);
    if r.pin.initializing {
      var k :| k in r.calls && r.calls[k].InHandler?;
      assert k in t.calls && t.calls[k].InHandler?;
    }
  }

  lemma BeginKeeps(r: Router, i: nat)
    requires Inv(r) && Enabled(r, Begin(i)) && !Refused(r.pin, r.calls[i].version)
    ensures Inv(Do(r, Begin(i)))
  {
    var t := Do(r, Begin(i));
    assert t.calls[i].InHandler?;
  }

  lemma FinishKeeps(r: Router, i: nat, ok: bool)
    requires Inv(r) && Enabled(r, Finish(i, ok))
    ensures Inv(Do(r, Finish(i, ok)))
  {
    assert r.pin.initializing;
  }

  lemma ActionKeeps(r: Router, a: Action)
    requires Inv(r) && Enabled(r, a)
    ensures Inv(Do(r, a))
  {
    match a
    case Other(_, _) =>
    case Enter(i, requested) => CallMoves(r, i, Entered(requested));
    case Check(i) => CallMoves(r, i, Do(r, a).calls[i]);
    case Reject(i) => CallMoves(r, i, Over);
    case Begin(i) => if Refused(r.pin, r.calls[i].version) { CallMoves(r, i, Over); } else { BeginKeeps(r, i); }
    case Finish(i, ok) => FinishKeeps(r, i, ok);
  }

  lemma {:induction false} RunInv(states: seq<Router>, acts: seq<Action>, i: nat)
    requires IsRun(states, acts) && i < |states|
    ensures Inv(states[i])
    decreases i
  {
    if i > 0 {
      RunInv(states, acts, i - 1);
      ActionKeeps(states[i - 1], acts[i - 1]);
    }
  }

  /** What no action undoes: the selected version, the flags, and a handshake that failed first. */
  predicate Later(s: Pin, t: Pin) {
    && (s.selected != 0 ==> t.selected == s.selected)
    && (s.initialized ==> t.initialized) && (s.otherRequest ==> t.otherRequest)
    && (s.initialized && !s.initializing && s.selected == 0 ==> t.initialized && !t.initializing && t.selected == 0)
  }

  lemma ActionLater(r: Router, a: Action)
    requires Inv(r) && Enabled(r, a)
    ensures Later(r.pin, Do(r, a).pin) && r.forwarded <= Do(r, a).forwarded
  {
  }

  lemma {:induction false} RunLater(states: seq<Router>, acts: seq<Action>, i: nat, j: nat)
    requires IsRun(states, acts) && i <= j < |states|
    ensures Later(states[i].pin, states[j].pin) && states[i].forwarded <= states[j].forwarded
    decreases j
  {
    if i < j {
      RunLater(states, acts, i, j - 1);
      RunInv(states, acts, j - 1);
      ActionLater(states[j - 1], acts[j - 1]);
    }
  }

  /** At most one initialize is in its handler at any moment. */
  lemma OneInFlight(states: seq<Router>, acts: seq<Action>, i: nat)
    requires IsRun(states, acts) && i < |states|
    ensures forall a, b | a in states[i].calls && b in states[i].calls
                          && states[i].calls[a].InHandler? && states[i].calls[b].InHandler? :: a == b
  {
    RunInv(states, acts, i);
  }

  /** The selected version leaves 0 at most once and then never changes. */
  lemma SelectedOnce(states: seq<Router>, acts: seq<Action>, i: nat, j: nat)
    requires IsRun(states, acts) && i <= j < |states| && states[i].pin.selected != 0
    ensures states[j].pin.selected == states[i].pin.selected
  {
    RunLater(states, acts, i, j);
  }

  /** The action lets an initialize into its handler. */
  predicate Starts(r: Router, a: Action) {
    a.Begin? && a.i in r.calls && r.calls[a.i].Checked? && !Refused(r.pin, r.calls[a.i].version)
  }

  /** No initialize starts once version 1 is selected, once a first attempt has failed, or, after
      selection, once another request was routed since the handshake began; and a repeated one
      starts only for version 2. */
  lemma WindowCloses(states: seq<Router>, acts: seq<Action>, i: nat, j: nat)
    requires IsRun(states, acts) && i <= j < |acts| && Starts(states[j], acts[j])
    ensures states[i].pin.selected != 1
    ensures !(states[i].pin.initialized && !states[i].pin.initializing && states[i].pin.selected == 0)
    ensures !(states[i].pin.selected != 0 && states[i].pin.otherRequest)
    ensures states[i].pin.selected != 0 ==> states[j].calls[acts[j].i].version == 2 == states[i].pin.selected
  {
    RunLater(states, acts, i, j);
    RunInv(states, acts, i);
  }

  /** A request routed while the handshake is under way or over counts as the other request. */
  lemma RoutedRequestCounts(states: seq<Router>, acts: seq<Action>, i: nat, j: nat)
    requires IsRun(states, acts) && i < j < |states| && acts[i].Other? && acts[i].request && states[i].pin.initialized
    ensures states[j].pin.otherRequest
  {
    assert states[i + 1] == Do(states[i], acts[i]);
    RunLater(states, acts, i + 1, j);
  }

  /** Every other method ever forwarded went to the version that is pinned for good. */
  lemma ForwardsToPinned(states: seq<Router>, acts: seq<Action>, i: nat, j: nat, k: nat)
    requires IsRun(states, acts) && i <= j < |states| && k < |states[i].forwarded|
    ensures k < |states[j].forwarded| && states[j].forwarded[k] == states[i].forwarded[k]
    ensures states[i].forwarded[k] == states[j].pin.selected != 0
  {
    RunLater(states, acts, i, j);
    RunInv(states, acts, i);
  }

  // ------------------------------------------------- what the state says about the run

  /** Initialize call i ends well in its handler, for this version. */
  predicate Selects(r: Router, a: Action, version: nat) {
    a.Finish? && a.ok && a.i in r.calls && r.calls[a.i] == InHandler(version)
  }

  ghost predicate Started(states: seq<Router>, acts: seq<Action>, k: nat)
    requires k < |states| == |acts| + 1
  {
    exists m :: 0 <= m < k && Starts(states[m], acts[m])
  }

  /** A request other than initialize is routed once a handshake has begun. */
  ghost predicate RoutesLate(states: seq<Router>, acts: seq<Action>, m: nat)
    requires m < |acts| && |states| == |acts| + 1
  {
    acts[m].Other? && acts[m].request && Started(states, acts, m)
  }

  lemma RunPair(states: seq<Router>, acts: seq<Action>, k: nat)
    requires IsRun(states, acts) && k < |acts|
    ensures Inv(states[k]) && Enabled(states[k], acts[k]) && states[k + 1] == Do(states[k], acts[k])
  {
    RunInv(states, acts, k);
  }

  /** A version is selected exactly if an initialize for it has ended well. */
  lemma SelectedExactly(states: seq<Router>, acts: seq<Action>, i: nat, version: nat)
    requires IsRun(states, acts) && i < |states| && version != 0
    ensures states[i].pin.selected == version <==> exists k :: 0 <= k < i && Selects(states[k], acts[k], version)
  {
    var flags := seq(|states|, k requires 0 <= k < |states| => states[k].pin.selected == version);
    var events := seq(|acts|, k requires 0 <= k < |acts| => Selects(states[k], acts[k], version));
    forall k | 0 <= k < |acts| ensures flags[k + 1] <==> flags[k] || events[k] {
      RunPair(states, acts, k);
    }
    Flags.UpAfter(flags, events, i);
    forall k | 0 <= k < i ensures events[k] == Selects(states[k], acts[k], version) {
    }
  }

  /** A handshake has begun exactly if an initialize has reached its handler. */
  lemma InitializedExactly(states: seq<Router>, acts: seq<Action>, i: nat)
    requires IsRun(states, acts) && i < |states|
    ensures states[i].pin.initialized <==> Started(states, acts, i)
  {
    var flags := seq(|states|, k requires 0 <= k < |states| => states[k].pin.initialized);
    var events := seq(|acts|, k requires 0 <= k < |acts| => Starts(states[k], acts[k]));
    forall k | 0 <= k < |acts| ensures flags[k + 1] <==> flags[k] || events[k] {
      RunPair(states, acts, k);
    }
    Flags.UpAfter(flags, events, i);
    forall k | 0 <= k < i ensures events[k] == Starts(states[k], acts[k]) {
    }
  }

  /** ... and another request counts exactly if it was routed after that. */
  lemma OtherRequestExactly(states: seq<Router>, acts: seq<Action>, i: nat)
    requires IsRun(states, acts) && i < |states|
    ensures states[i].pin.otherRequest <==> exists k :: 0 <= k < i && RoutesLate(states, acts, k)
  {
    var flags := seq(|states|, k requires 0 <= k < |states| => states[k].pin.otherRequest);
    var events := seq(|acts|, k requires 0 <= k < |acts| => acts[k].Other? && acts[k].request && states[k].pin.initialized);
    forall k | 0 <= k < |acts| ensures flags[k + 1] <==> flags[k] || events[k] {
      RunPair(states, acts, k);
    }
    Flags.UpAfter(flags, events, i);
    forall k | 0 <= k < i ensures events[k] == RoutesLate(states, acts, k) {
      InitializedExactly(states, acts, k);
    }
  }

  predicate StartsCall(r: Router, a: Action, c: nat) {
    Starts(r, a) && a.i == c
  }

  predicate FinishesCall(a: Action, c: nat) {
    a.Finish? && a.i == c
  }

  predicate IsIn(r: Router, c: nat) {
    c in r.calls && r.calls[c].InHandler?
  }

  lemma CallStep(r: Router, a: Action, c: nat)
    requires Enabled(r, a)
    ensures IsIn(Do(r, a), c) <==> (IsIn(r, c) && !FinishesCall(a, c)) || StartsCall(r, a, c)
    ensures (c in r.calls && r.calls[c].Over?) || FinishesCall(a, c) ==> c in Do(r, a).calls && Do(r, a).calls[c].Over?
    ensures StartsCall(r, a, c) ==> r.calls[c].Checked?
  {
  }

  /** An initialize call is in its handler exactly from its start to its end there. */
  lemma {:induction false} InHandlerExactly(states: seq<Router>, acts: seq<Action>, i: nat, c: nat)
    requires IsRun(states, acts) && i < |states|
    ensures IsIn(states[i], c) <==> && (exists k :: 0 <= k < i && StartsCall(states[k], acts[k], c))
                                    && !(exists k :: 0 <= k < i && FinishesCall(acts[k], c))
    ensures (exists k :: 0 <= k < i && FinishesCall(acts[k], c)) ==> c in states[i].calls && states[i].calls[c].Over?
    decreases i
  {
    if i > 0 {
      var n := i - 1;
      InHandlerExactly(states, acts, n, c);
      RunPair(states, acts, n);
      CallStep(states[n], acts[n], c);
    }
  }

  /** The action enters initialize call c with this request, or passes its check. */
  predicate Enters(a: Action, c: nat, requested: nat) {
    a == Enter(c, requested)
  }

  /** The call stands at what its request leads to: the version that the router selects for it. */
  predicate Answers(r: Router, c: nat, requested: nat) {
    c in r.calls ==>
      match r.calls[c]
      case Entered(n) => n == requested
      case Checked(v) => Select(r.hasV1, r.hasV2, requested) == Some(v)
      case InHandler(v) => Select(r.hasV1, r.hasV2, requested) == Some(v)
      case Over => true
  }

  lemma AnswersMove(r: Router, a: Action, t: Router, c: nat, requested: nat)
    requires Enabled(r, a) && t == Do(r, a)
    requires Enters(a, c, requested) || (c in r.calls && Answers(r, c, requested))
    ensures c in t.calls && Answers(t, c, requested)
  {
  }

  lemma {:induction false} CallAnswers(states: seq<Router>, acts: seq<Action>, i: nat, j: nat, c: nat, requested: nat)
    requires IsRun(states, acts) && i < j < |states| && Enters(acts[i], c, requested)
    ensures c in states[j].calls && Answers(states[j], c, requested)
    decreases j
  {
    if i + 1 < j { CallAnswers(states, acts, i, j - 1, c, requested); }
    RunPair(states, acts, j - 1);
    AnswersMove(states[j - 1], acts[j - 1], states[j - 1 + 1], c, requested);
  }

  /** A call that has entered is checked exactly against the router's choice: it is refused if the
      router has none, or has version 2 selected and the request asks for less; and otherwise goes on
      with the version chosen. */
  lemma CheckedExactly(states: seq<Router>, acts: seq<Action>, i: nat, j: nat, c: nat, requested: nat)
    requires IsRun(states, acts) && i < j < |acts| && Enters(acts[i], c, requested) && acts[j] == Check(c)
    ensures var r := states[j];
            c in states[j + 1].calls
            && states[j + 1].calls[c] ==
               match Select(r.hasV1, r.hasV2, requested)
               case Some(v) => if r.pin.selected == 2 && requested < 2 then Over else Checked(v)
               case None => Over
  {
    RunPair(states, acts, j);
    CallAnswers(states, acts, i, j, c, requested);
  }

  lemma NoneIn(r: Router)
    requires Inv(r)
    ensures r.pin.initializing <==> exists d :: IsIn(r, d)
  {
    if r.pin.initializing {
      var d :| d in r.calls && r.calls[d].InHandler?;
      assert IsIn(r, d);
    }
  }

  lemma MayStart(r: Router, c: nat)
    requires Inv(r) && Enabled(r, Begin(c))
    ensures Starts(r, Begin(c))
            <==> && (forall d :: !IsIn(r, d))
                 && (!r.pin.initialized || (r.pin.selected == 2 && r.calls[c].version == 2 && !r.pin.otherRequest))
  {
    NoneIn(r);
  }

  /** An initialize that has passed its checks reaches its handler if and only if none is in its handler
      and it is the first one, or a repetition of version 2 behind an initialize that selected version 2
      and before any other request. */
  lemma StartsExactly(states: seq<Router>, acts: seq<Action>, j: nat, c: nat)
    requires IsRun(states, acts) && j < |acts| && acts[j] == Begin(c)
    ensures c in states[j].calls && states[j].calls[c].Checked?
    ensures Starts(states[j], acts[j])
            <==> && (forall d :: !IsIn(states[j], d))
                 && (|| !Started(states, acts, j)
                     || (&& states[j].calls[c].version == 2
                         && (exists k :: 0 <= k < j && Selects(states[k], acts[k], 2))
                         && !(exists k :: 0 <= k < j && RoutesLate(states, acts, k))))
  {
    RunPair(states, acts, j);
    MayStart(states[j], c);
    InitializedExactly(states, acts, j);
    SelectedExactly(states, acts, j, 2);
    OtherRequestExactly(states, acts, j);
  }

  /** Another method is forwarded to version v if and only if an initialize has selected v, none is in
      its handler, and version 2 accepts the id; and otherwise it is forwarded nowhere. */
  lemma ForwardedExactly(states: seq<Router>, acts: seq<Action>, i: nat, request: bool, valid: bool)
    requires IsRun(states, acts) && i < |acts| && acts[i] == Other(request, valid)
    ensures var v := states[i].pin.selected;
            states[i + 1].forwarded ==
            if v != 0 && (forall d :: !IsIn(states[i], d)) && (v == 1 || valid)
            then states[i].forwarded + [v] else states[i].forwarded
  {
    RunPair(states, acts, i);
    NoneIn(states[i]);
  }
}
