/** Facts that come and go in the course of a run. */
module Flags {
  /** A flag that starts low and goes up exactly at certain events is up exactly after one of them. */
  lemma {:induction false} UpAfter(flags: seq<bool>, events: seq<bool>, i: nat)
    requires |flags| == |events| + 1 && i < |flags| && !flags[0]
    requires forall k | 0 <= k < |events| :: flags[k + 1] <==> flags[k] || events[k]
    ensures flags[i] <==> exists k :: 0 <= k < i && events[k]
    decreases i
  {
    if i > 0 { UpAfter(flags, events, i - 1); }
  }

  /** A flag that was up and is not any more went down somewhere in between. */
  lemma {:induction false} WentDown(flags: seq<bool>, i: nat, k: nat) returns (m: nat)
    requires i <= k < |flags| && flags[i] && !flags[k]
    ensures i <= m < k && flags[m] && !flags[m + 1]
    decreases k
  {
    if flags[k - 1] { m := k - 1; } else { m := WentDown(flags, i, k - 1); }
  }
}
