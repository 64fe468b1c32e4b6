/** Paths of a state machine whose moves are given as a relation. */
module Paths {
  /** The actions lead from c to d. */
  ghost predicate Leads<S(!new), A>(moves: (S, A, S) -> bool, c: S, acts: seq<A>, d: S)
    decreases |acts|
  {
    if acts == [] then c == d
    else
      var n := |acts| - 1;
      exists e :: Leads(moves, c, acts[..n], e) && moves(e, acts[n], d)
  }

  /** Some of these actions lead from c to d. */
  ghost predicate Reaches<S(!new), A(!new)>(moves: (S, A, S) -> bool, c: S, allowed: set<A>, d: S) {
    exists acts :: (forall i | 0 <= i < |acts| :: acts[i] in allowed) && Leads(moves, c, acts, d)
  }

  lemma ReachesItself<S(!new), A(!new)>(moves: (S, A, S) -> bool, c: S, allowed: set<A>)
    ensures Reaches(moves, c, allowed, c)
  {
    assert Leads(moves, c, [], c);
  }

  lemma ReachesNext<S(!new), A(!new)>(moves: (S, A, S) -> bool, c: S, allowed: set<A>, d: S, a: A, e: S)
    requires Reaches(moves, c, allowed, d) && a in allowed && moves(d, a, e)
    ensures Reaches(moves, c, allowed, e)
  {
    var acts :| (forall i | 0 <= i < |acts| :: acts[i] in allowed) && Leads(moves, c, acts, d);
    assert (acts + [a])[..|acts|] == acts && (acts + [a])[|acts|] == a;
    assert Leads(moves, c, acts + [a], e);
    assert forall i | 0 <= i < |acts + [a]| :: (acts + [a])[i] in allowed;
  }

  lemma {:induction false} LeadsOn<S(!new), A(!new)>(moves: (S, A, S) -> bool, c: S, xs: seq<A>, d: S, ys: seq<A>, e: S)
    requires Leads(moves, c, xs, d) && Leads(moves, d, ys, e)
    ensures Leads(moves, c, xs + ys, e)
    decreases |ys|
  {
    if ys == [] {
      assert xs + ys == xs;
    } else {
      var n := |ys| - 1;
      var b :| Leads(moves, d, ys[..n], b) && moves(b, ys[n], e);
      LeadsOn(moves, c, xs, d, ys[..n], b);
      assert (xs + ys)[..|xs + ys| - 1] == xs + ys[..n] && (xs + ys)[|xs + ys| - 1] == ys[n];
    }
  }

  /** One path behind another. */
  lemma ReachesOn<S(!new), A(!new)>(moves: (S, A, S) -> bool, c: S, allowed: set<A>, d: S, more: set<A>, e: S)
    requires Reaches(moves, c, allowed, d) && Reaches(moves, d, more, e)
    ensures Reaches(moves, c, allowed + more, e)
  {
    var xs :| (forall i | 0 <= i < |xs| :: xs[i] in allowed) && Leads(moves, c, xs, d);
    var ys :| (forall i | 0 <= i < |ys| :: ys[i] in more) && Leads(moves, d, ys, e);
    LeadsOn(moves, c, xs, d, ys, e);
    forall i | 0 <= i < |xs + ys| ensures (xs + ys)[i] in allowed + more {
      assert (xs + ys)[i] == if i < |xs| then xs[i] else ys[i - |xs|];
    }
  }

  lemma {:induction false} LeadsKeeps<S(!new), A(!new)>(moves: (S, A, S) -> bool, inv: S -> bool, c: S, acts: seq<A>, d: S)
    requires Leads(moves, c, acts, d) && inv(c)
    requires forall s, a, t :: a in acts && inv(s) && moves(s, a, t) ==> inv(t)
    ensures inv(d)
    decreases |acts|
  {
    if acts != [] {
      var n := |acts| - 1;
      var e :| Leads(moves, c, acts[..n], e) && moves(e, acts[n], d);
      LeadsKeeps(moves, inv, c, acts[..n], e);
    }
  }

  /** What every allowed move keeps holds at the end of the path. */
  lemma ReachesKeeps<S(!new), A(!new)>(moves: (S, A, S) -> bool, inv: S -> bool, c: S, allowed: set<A>, d: S)
    requires Reaches(moves, c, allowed, d) && inv(c)
    requires forall s, a, t :: a in allowed && inv(s) && moves(s, a, t) ==> inv(t)
    ensures inv(d)
  {
    var acts :| (forall i | 0 <= i < |acts| :: acts[i] in allowed) && Leads(moves, c, acts, d);
    LeadsKeeps(moves, inv, c, acts, d);
  }
}
