/** The merge of the stable and the unstable schema: the worklists of merge.go, each proved to
    compute the least set its rules allow, and the assembly of the combined schema. */
module Merge {
  import opened Results
  import opened Schemas

  datatype MergeError = NilInput | VersionMismatch | MissingDefinition(name: string) | AlreadyExists(name: string) | MethodConflict(key: string)

  predicate HasSuffix(s: string, suffix: string) {
    |suffix| <= |s| && s[|s| - |suffix|..] == suffix
  }

  /** An RPC root type of one of the given methods. */
  predicate IsRoot(n: string, d: Def, wires: set<string>) {
    && d.Def? && d.xMethod != "" && d.xSide != "" && d.xMethod in wires
    && (HasSuffix(n, "Request") || HasSuffix(n, "Response") || HasSuffix(n, "Notification"))
  }

  function Roots(s: Schema, wires: set<string>): set<string> {
    set n | n in s && IsRoot(n, s[n], wires)
  }

  /** Exactly which definitions are roots: those that are marked with a side and one of the methods, and
      whose name is that of a request, a response or a notification. */
  lemma RootsExactly(s: Schema, wires: set<string>, n: string)
    ensures n in Roots(s, wires)
            <==> && n in s && s[n].Def? && s[n].xSide != "" && s[n].xMethod != "" && s[n].xMethod in wires
                 && exists base: string :: n == base + "Request" || n == base + "Response" || n == base + "Notification"
  {
    SuffixIs(n, "Request");
    SuffixIs(n, "Response");
    SuffixIs(n, "Notification");
  }

  lemma SuffixIs(n: string, suffix: string)
    ensures HasSuffix(n, suffix) <==> exists base: string :: n == base + suffix
  {
    if HasSuffix(n, suffix) { assert n == n[..|n| - |suffix|] + suffix; }
    forall base: string | n == base + suffix ensures HasSuffix(n, suffix) {
      assert (base + suffix)[|base|..] == suffix;
    }
  }

  /** New in the unstable schema, or different from the stable one. */
  predicate Changed(stable: Schema, unstable: Schema, n: string) {
    n in unstable && (!Present(stable, n) || stable[n] != unstable[n])
  }

  // ------------------------------------------------- method maps

  /** What mergeUnstableOnlyMethods takes over from src. */
  predicate UnstableOnly(src: map<string, string>, stableWires: set<string>, key: string) {
    key in src && src[key] != "" && src[key] !in stableWires
  }

  function Taken(src: map<string, string>, stableWires: set<string>): map<string, string> {
    TakenBut(src, stableWires, {})
  }

  /** ... apart from the keys in todo. */
  function TakenBut(src: map<string, string>, stableWires: set<string>, todo: set<string>): map<string, string> {
    map key | key in src && key !in todo && UnstableOnly(src, stableWires, key) :: src[key]
  }

  lemma TakesOne(src: map<string, string>, stableWires: set<string>, todo: set<string>, key: string)
    requires key in todo && key in src
    ensures var t, t' := TakenBut(src, stableWires, todo), TakenBut(src, stableWires, todo - {key});
            if UnstableOnly(src, stableWires, key)
            then t' == t[key := src[key]] && t'.Values == t.Values + {src[key]} && key !in t
            else t' == t
  {
    if UnstableOnly(src, stableWires, key) {
      ValuesGrow(TakenBut(src, stableWires, todo), key, src[key]);
      assert TakenBut(src, stableWires, todo - {key}) == TakenBut(src, stableWires, todo)[key := src[key]];
    } else {
      assert TakenBut(src, stableWires, todo - {key}) == TakenBut(src, stableWires, todo);
    }
  }

  lemma TakesNone(src: map<string, string>, stableWires: set<string>)
    ensures TakenBut(src, stableWires, src.Keys) == map[]
  {
  }

  predicate Agree(a: map<string, string>, b: map<string, string>) {
    forall key | key in a && key in b :: a[key] == b[key]
  }

  /** mergeUnstableOnlyMethods: the stable mapping, extended by the methods that only the unstable
      one has, unless a key would have to mean both. */
  method MergeMethods(dst: map<string, string>, src: map<string, string>, stableWires: set<string>, only: set<string>)
    returns (r: Result<(map<string, string>, set<string>), MergeError>)
    ensures r.Ok? <==> Agree(Taken(src, stableWires), dst)
    ensures r.Ok? ==> r.value == (dst + Taken(src, stableWires), only + Taken(src, stableWires).Values)
    ensures r.Err? ==> r.error.MethodConflict? && r.error.key in Taken(src, stableWires)
                       && r.error.key in dst && dst[r.error.key] != src[r.error.key]
  {
    var out, wires := dst, only;
    var todo := src.Keys;
    TakesNone(src, stableWires);
    while todo != {}
      invariant todo <= src.Keys && MergedBut(dst, only, src, stableWires, todo, out, wires)
      decreases |todo|
    {
      var key :| key in todo;
      MergeStep(dst, only, src, stableWires, todo, key, out, wires);
      todo := todo - {key};
      if src[key] == "" || src[key] in stableWires { continue; }
      if key in out && out[key] != src[key] { return Err(MethodConflict(key)); }
      out := out[key := src[key]];
      wires := wires + {src[key]};
    }
    return Ok((out, wires));
  }

  /** What the loop has built when the keys in todo are still to come. */
  ghost predicate MergedBut(dst: map<string, string>, only: set<string>, src: map<string, string>, stableWires: set<string>,
                            todo: set<string>, out: map<string, string>, wires: set<string>) {
    && out == dst + TakenBut(src, stableWires, todo)
    && wires == only + TakenBut(src, stableWires, todo).Values
    && Agree(TakenBut(src, stableWires, todo), dst)
  }

  lemma MergeStep(dst: map<string, string>, only: set<string>, src: map<string, string>, stableWires: set<string>,
                  todo: set<string>, key: string, out: map<string, string>, wires: set<string>)
    requires MergedBut(dst, only, src, stableWires, todo, out, wires) && key in todo && key in src
    ensures !UnstableOnly(src, stableWires, key) ==> MergedBut(dst, only, src, stableWires, todo - {key}, out, wires)
    ensures UnstableOnly(src, stableWires, key) && (key in out ==> out[key] == src[key]) ==>
              MergedBut(dst, only, src, stableWires, todo - {key}, out[key := src[key]], wires + {src[key]})
    ensures UnstableOnly(src, stableWires, key) && key in out && out[key] != src[key] ==>
              key in Taken(src, stableWires) && key in dst && dst[key] != src[key] && !Agree(Taken(src, stableWires), dst)
  {
    TakesOne(src, stableWires, todo, key);
    if UnstableOnly(src, stableWires, key) {
      assert out[key := src[key]] == dst + TakenBut(src, stableWires, todo - {key});
    }
  }

  lemma ValuesGrow(m: map<string, string>, key: string, value: string)
    requires key !in m
    ensures m[key := value].Values == m.Values + {value}
  {
    var n := m[key := value];
    forall v | v in m.Values ensures v in n.Values {
      var k :| k in m && m[k] == v;
      assert n[k] == v;
    }
    assert n[key] == value;
  }

  // ------------------------------------------------- what the unstable roots reach

  /** A worklist: what was seen is done or waiting in the queue, once and not both. */
  ghost predicate Frontier(seen: set<string>, done: set<string>, queue: seq<string>) {
    && (forall n :: n in seen <==> n in done || n in queue)
    && (forall i, j | 0 <= i < j < |queue| :: queue[i] != queue[j])
    && (forall i | 0 <= i < |queue| :: queue[i] !in done)
  }

  lemma FrontierDone(seen: set<string>, done: set<string>)
    requires Frontier(seen, done, [])
    ensures seen == done
  {
  }

  /** Taking the head and queueing what it leads to. */
  lemma FrontierStep(seen: set<string>, done: set<string>, queue: seq<string>, found: set<string>, more: seq<string>)
    requires Frontier(seen, done, queue) && queue != [] && found !! seen
    requires (forall n :: n in more <==> n in found) && (forall i, j | 0 <= i < j < |more| :: more[i] != more[j])
    ensures queue[0] in seen && queue[0] !in done
    ensures Frontier(seen + found, done + {queue[0]}, queue[1..] + more)
  {
    var q := queue[1..] + more;
    forall n ensures n in queue <==> n == queue[0] || n in queue[1..] {
      if n in queue && n != queue[0] {
        var i :| 0 <= i < |queue| && queue[i] == n;
        assert queue[1..][i - 1] == n;
      }
    }
    forall i, j | 0 <= i < j < |q| ensures q[i] != q[j] {
      assert i < |queue| - 1 ==> q[i] == queue[i + 1] && q[i] in seen;
      assert j >= |queue| - 1 ==> q[j] in found;
    }
  }

  /** The seeding loop and the traversal of buildUnstableDuplicateSet. */
  method Traverse(unstable: Schema, roots: set<string>) returns (r: Result<set<string>, MergeError>)
    requires roots <= unstable.Keys
    ensures r.Ok? ==> Reached(unstable, roots, r.value) && forall n | n in r.value :: Present(unstable, n)
    ensures r.Err? ==> r.error.MissingDefinition? && r.error.name in unstable && unstable[r.error.name].Nil?
    ensures r.Err? ==> forall reach | Closed(unstable, roots, reach) :: r.error.name in reach
  {
    var reachable := roots;
    var queue := SeqOf(roots);
    var done: set<string> := {};
    while queue != []
      invariant roots <= reachable <= unstable.Keys && Frontier(reachable, done, queue)
      invariant forall n | n in done :: Present(unstable, n) && forall r | r in Refs(unstable[n]) && r in unstable :: r in reachable
      invariant forall other | Closed(unstable, roots, other) :: reachable <= other
      decreases unstable.Keys - done
    {
      var name := queue[0];
      assert name in reachable;
      var def := unstable[name];
      if def.Nil? { return Err(MissingDefinition(name)); }
      var found := set r | r in Refs(def) && r in unstable && r !in reachable;
      forall other | Closed(unstable, roots, other) ensures found <= other {
        assert name in other;
      }
      var more := SeqOf(found);
      FrontierStep(reachable, done, queue, found, more);
      reachable, queue, done := reachable + found, queue[1..] + more, done + {name};
    }
    return Ok(reachable);
  }

  /** Some order of a set: the order in which Go walks a map is arbitrary too. */
  method SeqOf(s: set<string>) returns (q: seq<string>)
    ensures forall n :: n in q <==> n in s
    ensures forall i, j | 0 <= i < j < |q| :: q[i] != q[j]
  {
    q := [];
    var todo := s;
    while todo != {}
      invariant todo <= s && forall n :: n in q <==> n in s && n !in todo
      invariant forall i, j | 0 <= i < j < |q| :: q[i] != q[j]
      decreases |todo|
    {
      var n :| n in todo;
      todo := todo - {n};
      q := q + [n];
    }
  }

  // ------------------------------------------------- what has to be duplicated

  /** Roots and changed definitions are duplicated, and whatever refers to a duplicated one. */
  ghost predicate DupClosed(stable: Schema, unstable: Schema, roots: set<string>, reach: set<string>, dup: set<string>) {
    && roots <= dup
    && (forall n | n in reach && Changed(stable, unstable, n) :: n in dup)
    && (forall n, r | n in reach && n in unstable && r in Refs(unstable[n]) && r in dup :: n in dup)
  }

  ghost predicate DupSet(stable: Schema, unstable: Schema, roots: set<string>, reach: set<string>, dup: set<string>) {
    && DupClosed(stable, unstable, roots, reach, dup) && dup <= reach
    && forall other | DupClosed(stable, unstable, roots, reach, other) :: dup <= other
  }

  /** Everything that every closed set holds too, and in reach. */
  ghost predicate NoMoreThanNeeded(stable: Schema, unstable: Schema, roots: set<string>, reach: set<string>, dup: set<string>) {
    dup <= reach && forall other | DupClosed(stable, unstable, roots, reach, other) :: dup <= other
  }

  lemma NeededToo(stable: Schema, unstable: Schema, roots: set<string>, reach: set<string>, dup: set<string>, name: string)
    requires NoMoreThanNeeded(stable, unstable, roots, reach, dup)
    requires name in reach && name in unstable && Refs(unstable[name]) * dup != {}
    ensures NoMoreThanNeeded(stable, unstable, roots, reach, dup + {name})
  {
    forall other | DupClosed(stable, unstable, roots, reach, other) ensures name in other {
      var r :| r in Refs(unstable[name]) * dup;
      assert r in other;
    }
  }

  /** One turn of the fixpoint loop: add whatever refers to a duplicated definition. */
  method DuplicateRound(stable: Schema, unstable: Schema, roots: set<string>, reach: set<string>, was: set<string>)
    returns (dup: set<string>, changed: bool)
    requires reach <= unstable.Keys && NoMoreThanNeeded(stable, unstable, roots, reach, was)
    ensures NoMoreThanNeeded(stable, unstable, roots, reach, dup) && was <= dup && (changed <==> was != dup)
    ensures !changed ==> forall n, r | n in reach && r in Refs(unstable[n]) && r in dup :: n in dup
  {
    dup, changed := was, false;
    var todo := reach;
    while todo != {}
      invariant todo <= reach && was <= dup && (changed <==> was != dup)
      invariant NoMoreThanNeeded(stable, unstable, roots, reach, dup)
      invariant !changed ==> forall n, r | n in reach && n !in todo && r in Refs(unstable[n]) && r in dup :: n in dup
      decreases |todo|
    {
      var name :| name in todo;
      todo := todo - {name};
      if name in dup { continue; }
      if Refs(unstable[name]) * dup != {} {
        NeededToo(stable, unstable, roots, reach, dup, name);
        dup := dup + {name};
        changed := true;
      } else {
        assert forall r | r in Refs(unstable[name]) :: r in dup ==> r in Refs(unstable[name]) * dup;
      }
    }
  }

  /** The fixpoint of buildUnstableDuplicateSet. */
  method Duplicate(stable: Schema, unstable: Schema, roots: set<string>, reach: set<string>) returns (dup: set<string>)
    requires roots <= reach && forall n | n in reach :: Present(unstable, n)
    ensures DupSet(stable, unstable, roots, reach, dup)
  {
    dup := roots + set n | n in reach && Changed(stable, unstable, n);
    var changed := true;
    while changed
      invariant NoMoreThanNeeded(stable, unstable, roots, reach, dup)
      invariant roots <= dup && forall n | n in reach && Changed(stable, unstable, n) :: n in dup
      invariant !changed ==> DupClosed(stable, unstable, roots, reach, dup)
      decreases reach - dup, changed
    {
      dup, changed := DuplicateRound(stable, unstable, roots, reach, dup);
    }
  }

  // ------------------------------------------------- stable roots that changed

  /** What the stable roots lead to in the unstable schema. */
  ghost predicate SharedClosed(unstable: Schema, roots: set<string>, seen: set<string>) {
    && roots <= seen
    && forall n, r | n in seen && Present(unstable, n) && r in Refs(unstable[n]) && Present(unstable, r) :: r in seen
  }

  ghost predicate Shared(unstable: Schema, roots: set<string>, seen: set<string>) {
    && SharedClosed(unstable, roots, seen)
    && forall other | SharedClosed(unstable, roots, other) :: seen <= other
  }

  /** A shared definition that changed is replaced by the unstable one. */
  predicate Promotes(stable: Schema, unstable: Schema, seen: set<string>, n: string) {
    n in seen && Present(unstable, n) && Changed(stable, unstable, n)
  }

  /** combined is before with the promoted names replaced by, or added from, the unstable schema. */
  predicate Replaced(before: Schema, unstable: Schema, promoted: set<string>, combined: Schema) {
    && combined.Keys == before.Keys + promoted
    && forall n | n in combined ::
         if n in promoted then n in unstable && combined[n] == unstable[n] else n in before && combined[n] == before[n]
  }

  lemma ReplaceOne(before: Schema, unstable: Schema, promoted: set<string>, combined: Schema, name: string)
    requires Replaced(before, unstable, promoted, combined) && name in unstable
    ensures Replaced(before, unstable, promoted + {name}, combined[name := unstable[name]])
  {
  }

  function PresentRefs(s: Schema, d: Def): set<string> {
    set r | r in Refs(d) && Present(s, r)
  }

  /** Where the worklist of promoteChangedSharedDefs stands. */
  ghost predicate Promoting(stable: Schema, unstable: Schema, roots: set<string>, done: set<string>, met: set<string>, promoted: set<string>) {
    && roots <= met <= roots + unstable.Keys
    && (forall n | n in done && Present(unstable, n) :: PresentRefs(unstable, unstable[n]) <= met)
    && (forall other | SharedClosed(unstable, roots, other) :: met <= other)
    && (forall n :: n in promoted <==> Promotes(stable, unstable, done, n))
  }

  lemma PromotingStep(stable: Schema, unstable: Schema, roots: set<string>, done: set<string>, met: set<string>, promoted: set<string>,
                      name: string)
    requires Promoting(stable, unstable, roots, done, met, promoted) && name in met
    ensures !Present(unstable, name) ==> Promoting(stable, unstable, roots, done + {name}, met, promoted)
    ensures Present(unstable, name) ==>
              Promoting(stable, unstable, roots, done + {name}, met + PresentRefs(unstable, unstable[name]),
                        if Changed(stable, unstable, name) then promoted + {name} else promoted)
  {
    forall other | SharedClosed(unstable, roots, other) ensures name in other {
    }
  }

  /** promoteChangedSharedDefs. */
  method Promote(combined0: Schema, stable: Schema, unstable: Schema, roots: set<string>)
    returns (combined: Schema, promoted: set<string>, ghost seen: set<string>)
    ensures Shared(unstable, roots, seen)
    ensures forall n :: n in promoted <==> Promotes(stable, unstable, seen, n)
    ensures Replaced(combined0, unstable, promoted, combined)
  {
    combined, promoted := combined0, {};
    var met := roots;
    var queue := SeqOf(roots);
    ghost var done: set<string> := {};
    while queue != []
      invariant Promoting(stable, unstable, roots, done, met, promoted) && Frontier(met, done, queue)
      invariant Replaced(combined0, unstable, promoted, combined)
      decreases roots + unstable.Keys - done
    {
      var name := queue[0];
      PromotingStep(stable, unstable, roots, done, met, promoted, name);
      if !Present(unstable, name) {
        FrontierStep(met, done, queue, {}, []);
        assert queue[1..] + [] == queue[1..];
        queue, done := queue[1..], done + {name};
        continue;
      }
      var udef := unstable[name];
      if !Present(stable, name) || stable[name] != udef {
        ReplaceOne(combined0, unstable, promoted, combined, name);
        combined := combined[name := udef];
        promoted := promoted + {name};
      }
      var found := set r | r in Refs(udef) && r !in met && Present(unstable, r);
      var more := SeqOf(found);
      FrontierStep(met, done, queue, found, more);
      assert met + found == met + PresentRefs(unstable, udef);
      met, queue, done := met + found, queue[1..] + more, done + {name};
    }
    seen := met;
    FrontierDone(seen, done);
  }

  // ------------------------------------------------- references of what was promoted

  /** The definition ensureRefsAvailable looks at for a name. */
  function Looked(combined: Schema, unstable: Schema, n: string): Def {
    if Present(combined, n) then combined[n] else if n in unstable then unstable[n] else Nil
  }

  /** combined extends before, by unstable definitions only. */
  predicate Extends(before: Schema, unstable: Schema, combined: Schema) {
    && (forall n | n in before :: n in combined && combined[n] == before[n])
    && (forall n | n in combined && n !in before :: Present(unstable, n) && combined[n] == unstable[n])
  }

  /** Additions do not change what is looked at. */
  lemma LookedSame(before: Schema, unstable: Schema, combined: Schema, n: string)
    requires Extends(before, unstable, combined)
    ensures Looked(combined, unstable, n) == Looked(before, unstable, n)
  {
  }

  /** met holds the roots and all references of the definitions looked at for its members. */
  ghost predicate MetClosed(before: Schema, unstable: Schema, roots: set<string>, met: set<string>) {
    roots <= met && forall n, r | n in met && r in Refs(Looked(before, unstable, n)) :: r in met
  }

  /** ... and is contained in whatever else does. */
  ghost predicate Met(before: Schema, unstable: Schema, roots: set<string>, met: set<string>) {
    MetClosed(before, unstable, roots, met) && forall other | MetClosed(before, unstable, roots, other) :: met <= other
  }

  /** m is missing, the unstable schema has it, and a member of done refers to it. */
  ghost predicate Supplies(before: Schema, unstable: Schema, done: set<string>, m: string) {
    m !in before && Present(unstable, m) && exists n :: n in done && m in Refs(Looked(before, unstable, n))
  }

  /** combined is before and exactly the definitions that done supplies. */
  ghost predicate Supplied(before: Schema, unstable: Schema, done: set<string>, combined: Schema) {
    && Extends(before, unstable, combined)
    && forall m :: m in combined && m !in before <==> Supplies(before, unstable, done, m)
  }

  function Supply(combined: Schema, unstable: Schema, refs: set<string>): Schema {
    combined + map r | r in refs && r !in combined && Present(unstable, r) :: unstable[r]
  }

  lemma SupplyStep(before: Schema, unstable: Schema, combined: Schema, done: set<string>, name: string)
    requires Supplied(before, unstable, done, combined)
    ensures Supplied(before, unstable, done + {name}, Supply(combined, unstable, Refs(Looked(before, unstable, name))))
  {
    var refs := Refs(Looked(before, unstable, name));
    var c := Supply(combined, unstable, refs);
    forall m ensures m in c && m !in before <==> Supplies(before, unstable, done + {name}, m) {
      SuppliesMore(before, unstable, done, name, m);
    }
  }

  lemma SuppliesMore(before: Schema, unstable: Schema, done: set<string>, name: string, m: string)
    ensures Supplies(before, unstable, done + {name}, m) <==>
            || Supplies(before, unstable, done, m)
            || (m !in before && Present(unstable, m) && m in Refs(Looked(before, unstable, name)))
  {
    if m !in before && Present(unstable, m) && m in Refs(Looked(before, unstable, name)) {
      assert name in done + {name};
    }
    if Supplies(before, unstable, done, m) {
      var n :| n in done && m in Refs(Looked(before, unstable, n));
      assert n in done + {name};
    }
  }

  /** Where the worklist of ensureRefsAvailable stands. */
  ghost predicate Ensuring(before: Schema, unstable: Schema, roots: set<string>, done: set<string>, seen: set<string>, combined: Schema) {
    && Supplied(before, unstable, done, combined)
    && roots <= seen && done <= seen <= Space(before, unstable, roots)
    && (forall n, r | n in done && r in Refs(Looked(before, unstable, n)) :: r in seen)
    && (forall other | MetClosed(before, unstable, roots, other) :: seen <= other)
  }

  lemma EnsureStep(before: Schema, unstable: Schema, roots: set<string>, done: set<string>, seen: set<string>, combined: Schema, name: string)
    requires Ensuring(before, unstable, roots, done, seen, combined) && name in seen
    ensures var refs := Refs(Looked(combined, unstable, name));
            Ensuring(before, unstable, roots, done + {name}, seen + refs, Supply(combined, unstable, refs))
  {
    LookedSame(before, unstable, combined, name);
    LookedInSpace(before, unstable, roots, name);
    SupplyStep(before, unstable, combined, done, name);
    forall other | MetClosed(before, unstable, roots, other) ensures Refs(Looked(before, unstable, name)) <= other {
      assert name in other;
    }
  }

  /** m is missing, the unstable schema has it, and something that the roots lead to refers to it. */
  ghost predicate Missing(before: Schema, unstable: Schema, roots: set<string>, m: string) {
    exists met :: Met(before, unstable, roots, met) && Supplies(before, unstable, met, m)
  }

  lemma SuppliesMissing(before: Schema, unstable: Schema, roots: set<string>, met: set<string>, combined: Schema)
    requires Met(before, unstable, roots, met) && Supplied(before, unstable, met, combined)
    ensures forall m :: m in combined && m !in before <==> Missing(before, unstable, roots, m)
  {
    forall m ensures m in combined && m !in before <==> Missing(before, unstable, roots, m) {
      if Missing(before, unstable, roots, m) {
        var other :| Met(before, unstable, roots, other) && Supplies(before, unstable, other, m);
        assert other == met;
      }
    }
  }

  lemma EnsuringDone(before: Schema, unstable: Schema, roots: set<string>, met: set<string>, combined: Schema)
    requires Ensuring(before, unstable, roots, met, met, combined)
    ensures Met(before, unstable, roots, met) && Supplied(before, unstable, met, combined)
    ensures forall m :: m in combined && m !in before <==> Missing(before, unstable, roots, m)
  {
    SuppliesMissing(before, unstable, roots, met, combined);
  }

  /** ensureRefsAvailable: it meets exactly what the roots lead to, and adds exactly the missing
      names among it that something met refers to and the unstable schema has. */
  method EnsureRefs(before: Schema, unstable: Schema, roots: set<string>)
    returns (combined: Schema, ghost met: set<string>)
    ensures Met(before, unstable, roots, met) && Supplied(before, unstable, met, combined)
    ensures forall m :: m in combined && m !in before <==> Missing(before, unstable, roots, m)
  {
    combined := before;
    var seen := roots;
    var queue := SeqOf(roots);
    ghost var done: set<string> := {};
    while queue != []
      invariant Ensuring(before, unstable, roots, done, seen, combined) && Frontier(seen, done, queue)
      decreases Space(before, unstable, roots) - done
    {
      var name := queue[0];
      EnsureStep(before, unstable, roots, done, seen, combined, name);
      var refs := Refs(Looked(combined, unstable, name));
      combined := Supply(combined, unstable, refs);
      var found := set r | r in refs && r !in seen;
      var more := SeqOf(found);
      FrontierStep(seen, done, queue, found, more);
      assert name in Space(before, unstable, roots) - done;
      assert seen + found == seen + refs;
      seen, queue, done := seen + found, queue[1..] + more, done + {name};
    }
    met := seen;
    FrontierDone(seen, done);
    EnsuringDone(before, unstable, roots, met, combined);
  }

  function AllRefs(s: Schema): set<string> {
    set n, r | n in s && r in Refs(s[n]) :: r
  }

  /** All names the traversal can meet. */
  function Space(before: Schema, unstable: Schema, roots: set<string>): set<string> {
    roots + AllRefs(before) + AllRefs(unstable)
  }

  lemma LookedInSpace(before: Schema, unstable: Schema, roots: set<string>, n: string)
    ensures Refs(Looked(before, unstable, n)) <= Space(before, unstable, roots)
  {
    forall r | r in Refs(Looked(before, unstable, n)) ensures r in Space(before, unstable, roots) {
      if Present(before, n) { assert r in AllRefs(before); } else { assert r in AllRefs(unstable); }
    }
  }

  // ------------------------------------------------- the copies

  function Copy(unstable: Schema, dup: set<string>, stableWires: set<string>, n: string): Def
    requires n in unstable
  {
    Strip(stableWires, Rewrite(dup, unstable[n]))
  }

  /** combined is before and, under their new names, the copies of the names in dup. */
  predicate WithCopies(before: Schema, unstable: Schema, dup: set<string>, stableWires: set<string>, names: set<string>, combined: Schema)
    requires names <= unstable.Keys
  {
    && (forall n | n in before :: n in combined && combined[n] == before[n])
    && (forall n | n in names :: UNSTABLE + n in combined && combined[UNSTABLE + n] == Copy(unstable, dup, stableWires, n))
    && (forall m | m in combined && m !in before :: IsNewName(names, m))
  }

  /** m is the new name of one of the names. */
  predicate IsNewName(names: set<string>, m: string) {
    |m| >= |UNSTABLE| && m[..|UNSTABLE|] == UNSTABLE && m[|UNSTABLE|..] in names
  }

  lemma NewName(n: string)
    ensures forall names :: IsNewName(names, UNSTABLE + n) <==> n in names
    ensures forall m :: UNSTABLE + m == UNSTABLE + n ==> m == n
  {
    assert (UNSTABLE + n)[|UNSTABLE|..] == n;
    forall m | UNSTABLE + m == UNSTABLE + n ensures m == n {
      assert (UNSTABLE + m)[|UNSTABLE|..] == m;
    }
  }

  /** A new name is taken only if it was before the copies, since no two names have the same. */
  lemma CopyStep(before: Schema, unstable: Schema, dup: set<string>, stableWires: set<string>, names: set<string>, combined: Schema,
                 n: string)
    requires names <= unstable.Keys && n in unstable && n !in names
    requires WithCopies(before, unstable, dup, stableWires, names, combined)
    ensures UNSTABLE + n in combined <==> UNSTABLE + n in before
    ensures UNSTABLE + n !in before ==>
              WithCopies(before, unstable, dup, stableWires, names + {n},
                         combined[UNSTABLE + n := Copy(unstable, dup, stableWires, n)])
  {
    NewName(n);
    var newName := UNSTABLE + n;
    if newName !in before {
      assert !IsNewName(names, newName);
      var c := combined[newName := Copy(unstable, dup, stableWires, n)];
      forall m | m in c && m !in before ensures IsNewName(names + {n}, m) {
        assert m == newName || IsNewName(names, m);
      }
    }
  }

  /** name is the new name of a duplicated definition, and taken. */
  predicate TakenName(before: Schema, dup: set<string>, name: string) {
    name in before && exists n :: n in dup && UNSTABLE + n == name
  }

  /** The last loop of MergeStableAndUnstable. */
  method AddCopies(before: Schema, unstable: Schema, dup: set<string>, stableWires: set<string>)
    returns (r: Result<Schema, MergeError>)
    requires dup <= unstable.Keys && forall n | n in dup :: Present(unstable, n)
    ensures r.Ok? <==> forall n | n in dup :: UNSTABLE + n !in before
    ensures r.Ok? ==> WithCopies(before, unstable, dup, stableWires, dup, r.value)
    ensures r.Err? ==> r.error.AlreadyExists? && TakenName(before, dup, r.error.name)
  {
    var combined := before;
    var todo := dup;
    while todo != {}
      invariant todo <= dup && forall n | n in dup && n !in todo :: UNSTABLE + n !in before
      invariant WithCopies(before, unstable, dup, stableWires, dup - todo, combined)
      decreases |todo|
    {
      var oldName :| oldName in todo;
      var newName := UNSTABLE + oldName;
      CopyStep(before, unstable, dup, stableWires, dup - todo, combined, oldName);
      if newName in combined { return Err(AlreadyExists(newName)); }
      var copyDef := Rewrite(dup, unstable[oldName]);
      if copyDef.xMethod != "" && copyDef.xMethod in stableWires {
        copyDef := copyDef.(xMethod := "", xSide := "");
      }
      assert dup - (todo - {oldName}) == dup - todo + {oldName};
      todo := todo - {oldName};
      combined := combined[newName := copyDef];
    }
    return Ok(combined);
  }

  // ------------------------------------------------- the merge

  datatype Meta = Meta(version: int, agent: map<string, string>, client: map<string, string>, protocol: map<string, string>)

  /** addWireMethods on all three maps. */
  function Wires(m: Meta): set<string> {
    set w | w in m.agent.Values + m.client.Values + m.protocol.Values && w != ""
  }

  /** The stages of the merge: what the unstable roots reach, what is duplicated, what the stable
      roots share, the promoted names, and the combined schema after each step. */
  datatype Stages = Stages(reach: set<string>, dup: set<string>, seen: set<string>, promoted: set<string>,
                           base: Schema, met: set<string>, ensured: Schema)

  ghost predicate Promoted(stable: Schema, unstable: Schema, stableWires: set<string>, p: Stages) {
    && Shared(unstable, Roots(stable, stableWires), p.seen)
    && (forall n :: n in p.promoted <==> Promotes(stable, unstable, p.seen, n))
    && Replaced(stable, unstable, p.promoted, p.base)
  }

  ghost predicate Ensured(unstable: Schema, p: Stages) {
    Met(p.base, unstable, p.promoted, p.met) && Supplied(p.base, unstable, p.met, p.ensured)
  }

  ghost predicate Duplicated(stable: Schema, unstable: Schema, only: set<string>, p: Stages) {
    && Reached(unstable, Roots(unstable, only), p.reach)
    && (forall n | n in p.reach :: Present(unstable, n))
    && DupSet(stable, unstable, Roots(unstable, only), p.reach, p.dup)
  }

  /** combined is the merge of the two schemas. */
  ghost predicate IsMerge(stable: Schema, unstable: Schema, stableWires: set<string>, only: set<string>, p: Stages, combined: Schema) {
    && Duplicated(stable, unstable, only, p)
    && Promoted(stable, unstable, stableWires, p)
    && Ensured(unstable, p)
    && p.dup <= unstable.Keys && WithCopies(p.ensured, unstable, p.dup, stableWires, p.dup, combined)
    && (forall n | n in p.dup :: UNSTABLE + n !in p.ensured)
  }

  /** w is a wire method of m, in whichever map. */
  predicate IsWire(m: Meta, w: string) {
    w != "" && (w in m.agent.Values || w in m.client.Values || w in m.protocol.Values)
  }

  /** The unstable map of one kind has, under this key, a method that is named and is no stable one of
      any kind. */
  predicate IsNew(stable: Meta, unstable: map<string, string>, key: string) {
    key in unstable && unstable[key] != "" && !IsWire(stable, unstable[key])
  }

  /** merged keeps the entries of the stable map, and has besides exactly the new ones of the unstable
      map of the same kind. */
  ghost predicate MapExtended(stableMeta: Meta, stable: map<string, string>, unstable: map<string, string>, merged: map<string, string>) {
    && (forall key | key in stable :: key in merged && merged[key] == stable[key])
    && (forall key | key !in stable :: key in merged <==> IsNew(stableMeta, unstable, key))
    && (forall key | key in merged && key !in stable :: merged[key] == unstable[key])
  }

  /** What the merge makes of the version and of each of the three maps. */
  ghost predicate MetaExtended(stable: Meta, unstable: Meta, merged: Meta) {
    && merged.version == stable.version
    && MapExtended(stable, stable.agent, unstable.agent, merged.agent)
    && MapExtended(stable, stable.client, unstable.client, merged.client)
    && MapExtended(stable, stable.protocol, unstable.protocol, merged.protocol)
  }

  /** A key that is in the stable map of a kind is new in the unstable one of that kind. */
  predicate Clashes(stable: Meta, unstable: Meta, key: string) {
    || (key in stable.agent && IsNew(stable, unstable.agent, key))
    || (key in stable.client && IsNew(stable, unstable.client, key))
    || (key in stable.protocol && IsNew(stable, unstable.protocol, key))
  }

  lemma WiresExactly(m: Meta, w: string)
    ensures w in Wires(m) <==> IsWire(m, w)
  {
  }

  lemma TakenIsNew(stable: Meta, unstable: map<string, string>, key: string)
    ensures key in Taken(unstable, Wires(stable)) <==> IsNew(stable, unstable, key)
    ensures key in Taken(unstable, Wires(stable)) ==> Taken(unstable, Wires(stable))[key] == unstable[key]
  {
    if key in unstable { WiresExactly(stable, unstable[key]); }
  }

  /** The maps of a kind agree unless a new key is a stable one: its stable method, even an unnamed one,
      is another. */
  lemma AgreesExactly(stable: Meta, ours: map<string, string>, theirs: map<string, string>)
    requires forall w | w in ours.Values && w != "" :: IsWire(stable, w)
    ensures Agree(Taken(theirs, Wires(stable)), ours) <==> forall key | key in ours :: !IsNew(stable, theirs, key)
  {
    forall key ensures key in Taken(theirs, Wires(stable)) <==> IsNew(stable, theirs, key) {
      TakenIsNew(stable, theirs, key);
    }
    forall key | key in ours ensures ours[key] != "" ==> IsWire(stable, ours[key]) {
      assert ours[key] in ours.Values;
    }
  }

  lemma MapIsExtended(stable: Meta, ours: map<string, string>, theirs: map<string, string>)
    requires forall key | key in ours :: !IsNew(stable, theirs, key)
    ensures MapExtended(stable, ours, theirs, ours + Taken(theirs, Wires(stable)))
  {
    forall key ensures key in Taken(theirs, Wires(stable)) <==> IsNew(stable, theirs, key) {
      TakenIsNew(stable, theirs, key);
    }
  }

  /** One of the three maps: it is merged as it should be, or the key in the error clashes. */
  method MergeKind(stable: Meta, ours: map<string, string>, theirs: map<string, string>, only: set<string>)
    returns (r: Result<(map<string, string>, set<string>), MergeError>)
    requires forall w | w in ours.Values && w != "" :: IsWire(stable, w)
    ensures r.Ok? <==> forall key | key in ours :: !IsNew(stable, theirs, key)
    ensures r.Ok? ==> r.value.1 == only + Taken(theirs, Wires(stable)).Values && MapExtended(stable, ours, theirs, r.value.0)
    ensures r.Err? ==> r.error.MethodConflict? && r.error.key in ours && IsNew(stable, theirs, r.error.key)
  {
    AgreesExactly(stable, ours, theirs);
    r := MergeMethods(ours, theirs, Wires(stable), only);
    if r.Ok? { MapIsExtended(stable, ours, theirs); } else { TakenIsNew(stable, theirs, r.error.key); }
  }

  method MergeMeta(stable: Meta, unstable: Meta) returns (r: Result<(Meta, set<string>), MergeError>)
    ensures r.Ok? ==> MetaExtended(stable, unstable, r.value.0) && r.value.1 == Wires(unstable) - Wires(stable)
    ensures r.Ok? <==> forall key :: !Clashes(stable, unstable, key)
    ensures r.Err? ==> r.error.MethodConflict? && Clashes(stable, unstable, r.error.key)
  {
    var agent := MergeKind(stable, stable.agent, unstable.agent, {});
    if agent.Err? {
      assert Clashes(stable, unstable, agent.error.key);
      return Err(agent.error);
    }
    var client := MergeKind(stable, stable.client, unstable.client, agent.value.1);
    if client.Err? {
      assert Clashes(stable, unstable, client.error.key);
      return Err(client.error);
    }
    var protocol := MergeKind(stable, stable.protocol, unstable.protocol, client.value.1);
    if protocol.Err? {
      assert Clashes(stable, unstable, protocol.error.key);
      return Err(protocol.error);
    }
    OnlyWires(unstable, Wires(stable));
    return Ok((Meta(stable.version, agent.value.0, client.value.0, protocol.value.0), protocol.value.1));
  }

  lemma TakenWires(src: map<string, string>, stableWires: set<string>)
    ensures forall w :: w in Taken(src, stableWires).Values <==> w in src.Values && w != "" && w !in stableWires
  {
    forall w | w in src.Values && w != "" && w !in stableWires ensures w in Taken(src, stableWires).Values {
      var key :| key in src && src[key] == w;
      assert Taken(src, stableWires)[key] == w;
    }
  }

  lemma OnlyWires(unstable: Meta, stableWires: set<string>)
    ensures {} + Taken(unstable.agent, stableWires).Values + Taken(unstable.client, stableWires).Values
            + Taken(unstable.protocol, stableWires).Values == Wires(unstable) - stableWires
  {
    TakenWires(unstable.agent, stableWires);
    TakenWires(unstable.client, stableWires);
    TakenWires(unstable.protocol, stableWires);
  }

  // ------------------------------------------------- when the merge succeeds

  predicate Compatible(stable: Meta, unstable: Meta) {
    stable.version == 0 || unstable.version == 0 || stable.version == unstable.version
  }

  /** What the roots lead to has no nil definition. */
  ghost predicate NothingNil(unstable: Schema, roots: set<string>) {
    exists reach :: Closed(unstable, roots, reach) && NilFree(unstable, reach)
  }

  predicate NilFree(unstable: Schema, reach: set<string>) {
    forall n | n in reach && n in unstable :: unstable[n].Def?
  }

  /** The stages before the copies are made. */
  ghost predicate Staged(stable: Schema, unstable: Schema, stableWires: set<string>, only: set<string>, p: Stages) {
    Duplicated(stable, unstable, only, p) && Promoted(stable, unstable, stableWires, p) && Ensured(unstable, p)
  }

  /** No new name of a duplicated definition is taken when the copies are made. */
  ghost predicate NewNamesFree(stable: Schema, unstable: Schema, stableWires: set<string>, only: set<string>) {
    forall p, n | Staged(stable, unstable, stableWires, only, p) && n in p.dup :: UNSTABLE + n !in p.ensured
  }

  lemma SameSupplied(before: Schema, unstable: Schema, met: set<string>, c: Schema, d: Schema)
    requires Supplied(before, unstable, met, c) && Supplied(before, unstable, met, d)
    ensures c == d
  {
    forall m ensures m in c <==> m in d {
      assert m !in before ==> (m in c <==> Supplies(before, unstable, met, m)) && (m in d <==> Supplies(before, unstable, met, m));
    }
  }

  lemma SamePromoted(stable: Schema, unstable: Schema, stableWires: set<string>, p: Stages, q: Stages)
    requires Promoted(stable, unstable, stableWires, p) && Promoted(stable, unstable, stableWires, q)
    ensures p.seen == q.seen && p.promoted == q.promoted && p.base == q.base
  {
    assert p.seen == q.seen;
    assert forall n :: n in p.promoted <==> n in q.promoted;
  }

  lemma SameDuplicated(stable: Schema, unstable: Schema, only: set<string>, p: Stages, q: Stages)
    requires Duplicated(stable, unstable, only, p) && Duplicated(stable, unstable, only, q)
    ensures p.reach == q.reach && p.dup == q.dup
  {
  }

  /** The stages are determined by the inputs. */
  lemma StagesUnique(stable: Schema, unstable: Schema, stableWires: set<string>, only: set<string>, p: Stages, q: Stages)
    requires Staged(stable, unstable, stableWires, only, p) && Staged(stable, unstable, stableWires, only, q)
    ensures p == q
  {
    SameDuplicated(stable, unstable, only, p, q);
    SamePromoted(stable, unstable, stableWires, p, q);
    SameMet(unstable, p, q);
    SameSupplied(p.base, unstable, p.met, p.ensured, q.ensured);
  }

  lemma SameMet(unstable: Schema, p: Stages, q: Stages)
    requires Ensured(unstable, p) && Ensured(unstable, q) && p.base == q.base && p.promoted == q.promoted
    ensures p.met == q.met
  {
  }

  /** The versions are compatible, the method maps agree, nothing reachable is nil and no new name is
      taken. */
  ghost predicate Mergeable(stableMeta: Meta, stable: Schema, unstableMeta: Meta, unstable: Schema) {
    var wires := Wires(stableMeta);
    var only := Wires(unstableMeta) - wires;
    && Compatible(stableMeta, unstableMeta)
    && (forall key :: !Clashes(stableMeta, unstableMeta, key))
    && NothingNil(unstable, Roots(unstable, only))
    && NewNamesFree(stable, unstable, wires, only)
  }

  /** What MergeStableAndUnstable returns on inputs that are not nil. */
  ghost predicate Merges(stableMeta: Meta, stable: Schema, unstableMeta: Meta, unstable: Schema,
                         r: Result<(Meta, Schema), MergeError>, p: Stages) {
    var wires := Wires(stableMeta);
    var only := Wires(unstableMeta) - wires;
    var roots := Roots(unstable, only);
    var compatible := Compatible(stableMeta, unstableMeta);
    var agree := forall key :: !Clashes(stableMeta, unstableMeta, key);
    match r
    case Ok((meta, combined)) =>
      && Mergeable(stableMeta, stable, unstableMeta, unstable)
      && MetaExtended(stableMeta, unstableMeta, meta) && IsMerge(stable, unstable, wires, only, p, combined)
    case Err(NilInput) => false
    case Err(VersionMismatch) => !compatible
    case Err(MethodConflict(key)) => compatible && Clashes(stableMeta, unstableMeta, key)
    case Err(MissingDefinition(n)) =>
      && compatible && agree && !NothingNil(unstable, roots)
      && n in unstable && unstable[n].Nil? && forall reach | Closed(unstable, roots, reach) :: n in reach
    case Err(AlreadyExists(name)) =>
      && compatible && agree && NothingNil(unstable, roots) && !NewNamesFree(stable, unstable, wires, only)
      && Staged(stable, unstable, wires, only, p) && TakenName(p.ensured, p.dup, name)
  }

  lemma NamesFree(stable: Schema, unstable: Schema, stableWires: set<string>, only: set<string>, p: Stages)
    requires Staged(stable, unstable, stableWires, only, p)
    ensures NewNamesFree(stable, unstable, stableWires, only) <==> forall n | n in p.dup :: UNSTABLE + n !in p.ensured
  {
    forall q | Staged(stable, unstable, stableWires, only, q) ensures q == p {
      StagesUnique(stable, unstable, stableWires, only, q, p);
    }
  }

  lemma TraversedNil(unstable: Schema, roots: set<string>, n: string)
    requires n in unstable && unstable[n].Nil? && forall reach | Closed(unstable, roots, reach) :: n in reach
    ensures !NothingNil(unstable, roots)
  {
  }

  lemma TraversedAll(unstable: Schema, roots: set<string>, reach: set<string>)
    requires Reached(unstable, roots, reach) && forall n | n in reach :: Present(unstable, n)
    ensures NothingNil(unstable, roots)
  {
    assert Closed(unstable, roots, reach) && NilFree(unstable, reach);
  }

  /** The schemas behind the checks of the method maps. */
  method MergeSchemas(stable: Schema, unstable: Schema, stableWires: set<string>, only: set<string>)
    returns (r: Result<Schema, MergeError>, ghost p: Stages)
    ensures r.Ok? ==> && NothingNil(unstable, Roots(unstable, only)) && NewNamesFree(stable, unstable, stableWires, only)
                      && IsMerge(stable, unstable, stableWires, only, p, r.value)
    ensures r.Err? ==> r.error.MissingDefinition? || r.error.AlreadyExists?
    ensures r.Err? && r.error.MissingDefinition? ==>
              && !NothingNil(unstable, Roots(unstable, only)) && r.error.name in unstable && unstable[r.error.name].Nil?
              && forall reach | Closed(unstable, Roots(unstable, only), reach) :: r.error.name in reach
    ensures r.Err? && r.error.AlreadyExists? ==>
              && NothingNil(unstable, Roots(unstable, only)) && !NewNamesFree(stable, unstable, stableWires, only)
              && Staged(stable, unstable, stableWires, only, p) && TakenName(p.ensured, p.dup, r.error.name)
  {
    p := Stages({}, {}, {}, {}, map[], {}, map[]);
    var roots := Roots(unstable, only);
    var reach := Traverse(unstable, roots);
    if reach.Err? {
      TraversedNil(unstable, roots, reach.error.name);
      return Err(reach.error), p;
    }
    TraversedAll(unstable, roots, reach.value);
    var dup := Duplicate(stable, unstable, roots, reach.value);
    var base, promoted;
    ghost var seen;
    base, promoted, seen := Promote(stable, stable, unstable, Roots(stable, stableWires));
    var ensured;
    ghost var met;
    ensured, met := EnsureRefs(base, unstable, promoted);
    p := Stages(reach.value, dup, seen, promoted, base, met, ensured);
    NamesFree(stable, unstable, stableWires, only, p);
    var combined := AddCopies(ensured, unstable, dup, stableWires);
    if combined.Err? { return Err(combined.error), p; }
    return Ok(combined.value), p;
  }

  /** MergeStableAndUnstable; None is a nil pointer. */
  method MergeStableAndUnstable(stableMeta: Option<Meta>, stable: Option<Schema>, unstableMeta: Option<Meta>, unstable: Option<Schema>)
    returns (r: Result<(Meta, Schema), MergeError>, ghost p: Stages)
    ensures r == Err(NilInput) <==> stableMeta.None? || stable.None? || unstableMeta.None? || unstable.None?
    ensures r != Err(NilInput) ==> (r.Ok? <==> Mergeable(stableMeta.value, stable.value, unstableMeta.value, unstable.value))
    ensures r != Err(NilInput) ==> Merges(stableMeta.value, stable.value, unstableMeta.value, unstable.value, r, p)
  {
    p := Stages({}, {}, {}, {}, map[], {}, map[]);
    if stableMeta.None? || stable.None? || unstableMeta.None? || unstable.None? { return Err(NilInput), p; }
    var sm, um := stableMeta.value, unstableMeta.value;
    if sm.version != 0 && um.version != 0 && sm.version != um.version { return Err(VersionMismatch), p; }
    var meta := MergeMeta(sm, um);
    if meta.Err? { return Err(meta.error), p; }
    var schema;
    schema, p := MergeSchemas(stable.value, unstable.value, Wires(sm), meta.value.1);
    if schema.Err? { return Err(schema.error), p; }
    return Ok((meta.value.0, schema.value)), p;
  }
}
