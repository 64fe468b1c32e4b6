/** What the merge means: unstable-only roots unfold under their new names as they did before, and
    no reference that resolved is left dangling. */
module MergeLaws {
  import opened Results
  import opened Schemas
  import opened Merge

  /** A reachable definition that is not duplicated stands in the combined schema as it is. */
  lemma SharedAsIs(stable: Schema, unstable: Schema, stableWires: set<string>, only: set<string>, p: Stages, combined: Schema, n: string)
    requires IsMerge(stable, unstable, stableWires, only, p, combined) && n in p.reach && n !in p.dup
    ensures Present(unstable, n) && n in combined && combined[n] == unstable[n] && Rewrite(p.dup, unstable[n]) == unstable[n]
  {
    assert !Changed(stable, unstable, n);
    RewriteNothing(p.dup, unstable[n]);
  }

  /** The pairing of duplicated names with their new ones, and of other reachable names with
      themselves, is a bisimulation. */
  lemma MergePairs(stable: Schema, unstable: Schema, stableWires: set<string>, only: set<string>, p: Stages, combined: Schema)
    requires IsMerge(stable, unstable, stableWires, only, p, combined)
    ensures Paired(unstable, combined, p.dup, p.reach)
  {
    forall n | n in p.reach
      ensures Present(unstable, n) && Present(combined, Rename(p.dup, n))
      ensures Plain(combined[Rename(p.dup, n)]) == Plain(Rewrite(p.dup, unstable[n]))
    {
      if n !in p.dup { SharedAsIs(stable, unstable, stableWires, only, p, combined, n); }
    }
  }

  /** r is a name of the combined schema that the unstable one does not have. */
  predicate Foreign(stable: Schema, dup: set<string>, r: string) {
    Present(stable, r) || exists n :: n in dup && r == UNSTABLE + n
  }

  lemma EnsuredNames(stable: Schema, unstable: Schema, stableWires: set<string>, p: Stages, r: string)
    requires Promoted(stable, unstable, stableWires, p) && Ensured(unstable, p) && r !in unstable
    ensures Present(p.ensured, r) <==> Present(stable, r)
  {
  }

  lemma ForeignIsPresent(stable: Schema, unstable: Schema, stableWires: set<string>, only: set<string>, p: Stages, combined: Schema, r: string)
    requires IsMerge(stable, unstable, stableWires, only, p, combined) && r !in unstable
    ensures Present(combined, r) <==> Foreign(stable, p.dup, r)
  {
    EnsuredNames(stable, unstable, stableWires, p, r);
    if r in combined && r !in p.ensured {
      assert r == UNSTABLE + r[|UNSTABLE|..];
    }
    if exists n :: n in p.dup && r == UNSTABLE + n {
      var n :| n in p.dup && r == UNSTABLE + n;
      assert Present(unstable, n);
    }
  }

  /** No reachable definition refers to a name that the unstable schema lacks and the merge supplies. */
  ghost predicate NoForeignRefs(stable: Schema, unstable: Schema, p: Stages) {
    forall n, r | n in p.reach && n in unstable && r in Refs(unstable[n]) && r !in unstable :: !Foreign(stable, p.dup, r)
  }

  /** A reference of a reachable definition resolves in the unstable schema or has no entry there;
      in the latter case it resolves in the combined schema exactly when it is foreign. */
  ghost predicate ForeignOnly(stable: Schema, unstable: Schema, combined: Schema, p: Stages, n: string, r: string) {
    && (!Present(unstable, r) <==> r !in unstable)
    && (r !in unstable ==> (Present(combined, r) <==> Foreign(stable, p.dup, r)))
  }

  lemma RefForeignOnly(stable: Schema, unstable: Schema, stableWires: set<string>, only: set<string>, p: Stages, combined: Schema,
                       n: string, r: string)
    requires IsMerge(stable, unstable, stableWires, only, p, combined)
    requires n in p.reach && n in unstable && r in Refs(unstable[n])
    ensures ForeignOnly(stable, unstable, combined, p, n, r)
  {
    assert r in unstable ==> r in p.reach;
    if r !in unstable { ForeignIsPresent(stable, unstable, stableWires, only, p, combined, r); }
  }

  lemma ForeignCaptures(stable: Schema, unstable: Schema, combined: Schema, p: Stages)
    requires forall n | n in p.reach :: Present(unstable, n)
    requires forall n, r | n in p.reach && n in unstable && r in Refs(unstable[n]) :: ForeignOnly(stable, unstable, combined, p, n, r)
    ensures NothingCaptured(unstable, combined, p.reach) <==> NoForeignRefs(stable, unstable, p)
  {
    if NothingCaptured(unstable, combined, p.reach) {
      forall n, r | n in p.reach && n in unstable && r in Refs(unstable[n]) && r !in unstable ensures !Foreign(stable, p.dup, r) {
        assert ForeignOnly(stable, unstable, combined, p, n, r);
      }
    }
    if NoForeignRefs(stable, unstable, p) {
      forall n, r | n in p.reach && Present(unstable, n) && r in Refs(unstable[n]) && !Present(unstable, r) ensures !Present(combined, r) {
        assert ForeignOnly(stable, unstable, combined, p, n, r);
      }
    }
  }

  lemma CaptureIsForeign(stable: Schema, unstable: Schema, stableWires: set<string>, only: set<string>, p: Stages, combined: Schema)
    requires IsMerge(stable, unstable, stableWires, only, p, combined)
    ensures NothingCaptured(unstable, combined, p.reach) <==> NoForeignRefs(stable, unstable, p)
  {
    forall n, r | n in p.reach && n in unstable && r in Refs(unstable[n]) ensures ForeignOnly(stable, unstable, combined, p, n, r) {
      RefForeignOnly(stable, unstable, stableWires, only, p, combined, n, r);
    }
    ForeignCaptures(stable, unstable, combined, p);
  }

  /** The merge preserves meaning: every unstable-only root unfolds in the combined schema under its
      new name exactly as in the unstable schema, to every depth, if and only if no reachable
      definition refers to a name that the unstable schema lacks and the merge supplies. */
  lemma MergePreservesMeaning(stable: Schema, unstable: Schema, stableWires: set<string>, only: set<string>, p: Stages, combined: Schema)
    requires IsMerge(stable, unstable, stableWires, only, p, combined)
    ensures Roots(unstable, only) <= p.dup
    ensures (forall n | n in Roots(unstable, only) :: SameMeaning(unstable, combined, p.dup, n))
            <==> NoForeignRefs(stable, unstable, p)
  {
    MergePairs(stable, unstable, stableWires, only, p, combined);
    MeaningKeptIff(unstable, combined, p.dup, Roots(unstable, only), p.reach);
    CaptureIsForeign(stable, unstable, stableWires, only, p, combined);
  }

  // ------------------------------------------------- nothing is left dangling

  /** A name that resolved in the stable schema still resolves, and unless it was promoted to the
      same definition. */
  lemma StableNamesStay(stable: Schema, unstable: Schema, stableWires: set<string>, only: set<string>, p: Stages, combined: Schema, n: string)
    requires IsMerge(stable, unstable, stableWires, only, p, combined) && Present(stable, n)
    ensures Present(combined, n)
    ensures combined[n] == if n in p.promoted then unstable[n] else stable[n]
    ensures n in p.promoted ==> n in unstable && stable[n] != unstable[n]
  {
  }

  /** All references of a promoted definition that resolved in the unstable schema resolve. */
  lemma PromotedRefsResolve(stable: Schema, unstable: Schema, stableWires: set<string>, only: set<string>, p: Stages, combined: Schema, n: string, r: string)
    requires IsMerge(stable, unstable, stableWires, only, p, combined)
    requires n in p.promoted && n in unstable && r in Refs(unstable[n]) && Present(unstable, r)
    ensures n in combined && combined[n] == unstable[n] && Present(combined, r)
  {
    assert r in p.seen;
    if !Changed(stable, unstable, r) {
      StableNamesStay(stable, unstable, stableWires, only, p, combined, r);
    }
  }

  lemma AddedIsMet(unstable: Schema, p: Stages, n: string)
    requires Ensured(unstable, p) && n in p.ensured && n !in p.base
    ensures n in p.met
  {
    assert Supplies(p.base, unstable, p.met, n);
    var m :| m in p.met && n in Refs(Looked(p.base, unstable, m));
  }

  /** So do those of a definition that was added for a reference, except a name that the stable
      schema has with a nil definition. */
  lemma AddedRefsResolve(stable: Schema, unstable: Schema, stableWires: set<string>, only: set<string>, p: Stages, combined: Schema, n: string, r: string)
    requires IsMerge(stable, unstable, stableWires, only, p, combined)
    requires n in p.ensured && n !in p.base && n in unstable && r in Refs(unstable[n]) && Present(unstable, r)
    ensures combined[n] == unstable[n]
    ensures Present(combined, r) <==> !(r in stable && stable[r].Nil? && r !in p.promoted)
  {
    assert Looked(p.base, unstable, n) == unstable[n];
    AddedIsMet(unstable, p, n);
    assert r !in p.base ==> Supplies(p.base, unstable, p.met, r);
  }

  /** Promotion alone leaves nothing to add: a definition is added only if some definition shared by
      the stable roots refers to a name that only the stable schema has. */
  lemma AddedThroughStableOnly(stable: Schema, unstable: Schema, stableWires: set<string>, p: Stages, t: string)
    requires Promoted(stable, unstable, stableWires, p) && Ensured(unstable, p)
    requires t in p.ensured && t !in p.base
    ensures exists n, r :: n in p.seen && RefersToStableOnly(stable, unstable, n, r)
  {
    var x := set n | n in p.met && (if Present(unstable, n) then n in p.seen else !Present(p.base, n));
    if forall n, r :: n in p.seen ==> !RefersToStableOnly(stable, unstable, n, r) {
      forall n, r | n in x && r in Refs(Looked(p.base, unstable, n)) ensures r in x {
        SharedLeadsToShared(stable, unstable, stableWires, p, n, r);
      }
      assert MetClosed(p.base, unstable, p.promoted, x);
      assert Supplies(p.base, unstable, p.met, t);
      var n :| n in p.met && t in Refs(Looked(p.base, unstable, n));
      assert n in x;
      SharedLeadsToShared(stable, unstable, stableWires, p, n, t);
      SharedIsThere(stable, unstable, stableWires, p, t);
    }
  }

  /** Definition n of the unstable schema refers to r, which only the stable schema defines. */
  predicate RefersToStableOnly(stable: Schema, unstable: Schema, n: string, r: string) {
    Present(unstable, n) && r in Refs(unstable[n]) && Present(stable, r) && !Present(unstable, r)
  }

  lemma SharedIsThere(stable: Schema, unstable: Schema, stableWires: set<string>, p: Stages, n: string)
    requires Promoted(stable, unstable, stableWires, p) && n in p.seen && Present(unstable, n)
    ensures n in p.base && p.base[n] == unstable[n]
  {
    assert Promotes(stable, unstable, p.seen, n) <==> n in p.promoted;
  }

  lemma SharedLeadsToShared(stable: Schema, unstable: Schema, stableWires: set<string>, p: Stages, n: string, r: string)
    requires Promoted(stable, unstable, stableWires, p) && r in Refs(Looked(p.base, unstable, n))
    requires if Present(unstable, n) then n in p.seen else !Present(p.base, n)
    requires !RefersToStableOnly(stable, unstable, n, r)
    ensures Present(unstable, n) && (if Present(unstable, r) then r in p.seen else !Present(p.base, r))
  {
    if Present(unstable, n) { SharedIsThere(stable, unstable, stableWires, p, n); }
    assert r in p.promoted ==> Present(unstable, r);
  }

  /** And those of the copies resolve under their new names. */
  lemma CopiedRefsResolve(stable: Schema, unstable: Schema, stableWires: set<string>, only: set<string>, p: Stages, combined: Schema, n: string, r: string)
    requires IsMerge(stable, unstable, stableWires, only, p, combined)
    requires n in p.dup && r in Refs(unstable[n]) && Present(unstable, r)
    ensures Rename(p.dup, r) in Refs(combined[UNSTABLE + n]) && Present(combined, Rename(p.dup, r))
  {
    MergePairs(stable, unstable, stableWires, only, p, combined);
    RewriteRenames(p.dup, unstable[n]);
    assert n in p.reach && r in p.reach;
  }

  /** No copy passes for an RPC root type of a stable method. */
  lemma CopiesAreNoStableRoots(stable: Schema, unstable: Schema, stableWires: set<string>, only: set<string>, p: Stages, combined: Schema, n: string)
    requires IsMerge(stable, unstable, stableWires, only, p, combined) && n in p.dup
    ensures UNSTABLE + n in combined && !IsRoot(UNSTABLE + n, combined[UNSTABLE + n], stableWires)
  {
  }

  lemma NewNameSuffix(n: string, suffix: string)
    requires HasSuffix(n, suffix)
    ensures HasSuffix("Unstable" + n, suffix)
  {
    assert ("Unstable" + n)[|"Unstable" + n| - |suffix|..] == n[|n| - |suffix|..];
  }

  /** The RPC root types of the unstable-only methods are in the combined schema, under their new names
      and with their method and side: what is generated for these methods finds them. */
  lemma CopiedRootsStayRoots(stable: Schema, unstable: Schema, stableWires: set<string>, only: set<string>, p: Stages, combined: Schema, n: string)
    requires IsMerge(stable, unstable, stableWires, only, p, combined) && stableWires !! only && n in Roots(unstable, only)
    ensures "Unstable" + n in Roots(combined, only)
    ensures combined["Unstable" + n].xMethod == unstable[n].xMethod && combined["Unstable" + n].xSide == unstable[n].xSide
  {
    assert n in p.dup && combined[UNSTABLE + n] == Copy(unstable, p.dup, stableWires, n);
    if HasSuffix(n, "Request") {
      NewNameSuffix(n, "Request");
    } else if HasSuffix(n, "Response") {
      NewNameSuffix(n, "Response");
    } else {
      NewNameSuffix(n, "Notification");
    }
  }

  // ------------------------------------------------- a captured reference

  const FOREIGN := Def("", "b", "", "", End)

  const CAPTURED := Def("#/$defs/Old", "b", "m", "agent", End)

  lemma CapturedMerges(p: Stages, u: Schema, s: Schema, c: Schema)
    requires p == Stages({"XRequest"}, {"XRequest"}, {}, {}, map["Old" := FOREIGN], {}, map["Old" := FOREIGN])
    requires u == map["XRequest" := CAPTURED] && s == map["Old" := FOREIGN]
    requires c == map["Old" := FOREIGN, "UnstableXRequest" := CAPTURED]
    ensures IsMerge(s, u, {}, {"m"}, p, c) && "XRequest" in Roots(u, {"m"})
  {
    assert UNSTABLE + "XRequest" == "UnstableXRequest";
    assert "XRequest"[1..] == "Request";
    assert Roots(u, {"m"}) == {"XRequest"};
    assert Roots(s, {}) == {};
    CapturedRefs();
    RewriteNothing(p.dup, CAPTURED);
  }

  lemma CapturedRefs()
    ensures Refs(CAPTURED) == {"Old"} && Target(CAPTURED.ref) == Some("Old")
  {
    assert PREFIX + "Old" == "#/$defs/Old";
    TargetOf("Old");
  }

  /** The condition is needed: an unstable root refers to a name that only the stable schema has. */
  lemma ReferenceCaptured(p: Stages)
    requires p == Stages({"XRequest"}, {"XRequest"}, {}, {}, map["Old" := FOREIGN], {}, map["Old" := FOREIGN])
    ensures var u: Schema := map["XRequest" := CAPTURED];
            var s: Schema := map["Old" := FOREIGN];
            var c: Schema := map["Old" := FOREIGN, "UnstableXRequest" := CAPTURED];
            && IsMerge(s, u, {}, {"m"}, p, c)
            && "XRequest" in Roots(u, {"m"})
            && !SameMeaning(u, c, p.dup, "XRequest")
  {
    var u: Schema := map["XRequest" := CAPTURED];
    var s: Schema := map["Old" := FOREIGN];
    var c: Schema := map["Old" := FOREIGN, "UnstableXRequest" := CAPTURED];
    CapturedMerges(p, u, s, c);
    CapturedRefs();
    assert UNSTABLE + "XRequest" == "UnstableXRequest";
    assert Expand(u, "XRequest", 2) == Node("", "b", "", "", Bare, Some(Missing("Old"))) by {
      assert Expand(u, "Old", 1) == Missing("Old");
    }
    assert Expand(c, "UnstableXRequest", 2) == Unfold(c, Plain(CAPTURED), 1);
    assert Expand(c, "Old", 1) == Unfold(c, Plain(FOREIGN), 0);
    UnfoldNotMissing(c, Plain(FOREIGN), 0);
  }

  // ------------------------------------------------- an added definition with a dangling reference

  const OLD_ROOT := Def("", "old", "m", "agent", End)
  const NEW_ROOT := Def("#/$defs/S", "new", "m", "agent", End)
  const STABLE_ONLY := Def("#/$defs/T", "b", "", "", End)
  const ADDED := Def("#/$defs/B", "b", "", "", End)
  const PLAIN := Def("", "b", "", "", End)

  /** The exception is real: the promoted root refers to S, which only the stable schema has, S refers
      to T, which only the unstable schema has and which is added; and T refers to B, which resolves in
      the unstable schema and which the stable one maps to nil. */
  lemma AddedReferenceDangles(p: Stages)
    requires var base: Schema := map["PRequest" := NEW_ROOT, "S" := STABLE_ONLY, "B" := Nil];
             p == Stages({}, {}, {"PRequest"}, {"PRequest"}, base, {"PRequest", "S", "T", "B"}, base["T" := ADDED])
    ensures var s: Schema := map["PRequest" := OLD_ROOT, "S" := STABLE_ONLY, "B" := Nil];
            var u: Schema := map["PRequest" := NEW_ROOT, "T" := ADDED, "B" := PLAIN];
            && IsMerge(s, u, {"m"}, {}, p, p.ensured)
            && "T" in p.ensured && "T" !in p.base && "B" in Refs(u["T"]) && Present(u, "B") && !Present(p.ensured, "B")
  {
    var s: Schema := map["PRequest" := OLD_ROOT, "S" := STABLE_ONLY, "B" := Nil];
    var u: Schema := map["PRequest" := NEW_ROOT, "T" := ADDED, "B" := PLAIN];
    DanglesRefs();
    DanglesShared(s, u, p);
    DanglesMet(u, p);
    assert Roots(u, {}) == {};
  }

  lemma DanglesRefs()
    ensures Refs(OLD_ROOT) == {} && Refs(PLAIN) == {}
    ensures Refs(NEW_ROOT) == {"S"} && Refs(STABLE_ONLY) == {"T"} && Refs(ADDED) == {"B"}
  {
    assert PREFIX + "S" == "#/$defs/S" && PREFIX + "T" == "#/$defs/T" && PREFIX + "B" == "#/$defs/B";
    TargetOf("S");
    TargetOf("T");
    TargetOf("B");
  }

  lemma DanglesRoots(s: Schema)
    requires s == map["PRequest" := OLD_ROOT, "S" := STABLE_ONLY, "B" := Nil]
    ensures Roots(s, {"m"}) == {"PRequest"}
  {
    assert "PRequest"[1..] == "Request";
  }

  lemma DanglesShared(s: Schema, u: Schema, p: Stages)
    requires s == map["PRequest" := OLD_ROOT, "S" := STABLE_ONLY, "B" := Nil]
    requires u == map["PRequest" := NEW_ROOT, "T" := ADDED, "B" := PLAIN]
    requires p.seen == {"PRequest"} == p.promoted && p.base == s["PRequest" := NEW_ROOT]
    ensures Promoted(s, u, {"m"}, p)
  {
    DanglesRefs();
    DanglesRoots(s);
    assert Shared(u, {"PRequest"}, p.seen) by {
      assert !Present(u, "S");
    }
    assert Replaced(s, u, p.promoted, p.base);
  }

  lemma DanglesMet(u: Schema, p: Stages)
    requires u == map["PRequest" := NEW_ROOT, "T" := ADDED, "B" := PLAIN]
    requires p.base == map["PRequest" := NEW_ROOT, "S" := STABLE_ONLY, "B" := Nil]
    requires p.promoted == {"PRequest"} && p.met == {"PRequest", "S", "T", "B"} && p.ensured == p.base["T" := ADDED]
    ensures Ensured(u, p)
  {
    DanglesRefs();
    forall other | MetClosed(p.base, u, p.promoted, other) ensures p.met <= other {
      assert "S" in Refs(Looked(p.base, u, "PRequest"));
      assert "T" in Refs(Looked(p.base, u, "S"));
      assert "B" in Refs(Looked(p.base, u, "T"));
    }
    forall m ensures m in p.ensured && m !in p.base <==> Supplies(p.base, u, p.met, m) {
      assert "S" in p.met && "T" in Refs(Looked(p.base, u, "S"));
    }
  }
}
