/** JSON schema definitions as the generator loads them: references, the renaming copy, and what
    a named definition unfolds to. */
module Schemas {
  import opened Results

  /** Where a sub-definition sits: only these places are visited. */
  datatype Place = Items | Property(name: string) | AnyOf(index: nat) | OneOf(index: nat) | AllOf(index: nat)

  /** A definition. Nil is the nil pointer; body stands for all the fields that are neither
      visited nor used, additionalProperties among them. */
  datatype Def =
    | Nil
    | Def(ref: string, body: string, xMethod: string, xSide: string, kids: Kids)

  datatype Kids = End | Kid(place: Place, def: Def, rest: Kids)

  type Schema = map<string, Def>

  const PREFIX := "#/$defs/"
  const UNSTABLE := "Unstable"

  /** The definition name a reference refers to, if it is a local one. */
  function Target(ref: string): (n: Option<string>)
    ensures n.Some? ==> ref == PREFIX + n.value && n.value != ""
  {
    if PREFIX < ref then
      assert ref == PREFIX + ref[|PREFIX|..];
      Some(ref[|PREFIX|..])
    else None
  }

  lemma TargetOf(n: string)
    requires n != ""
    ensures Target(PREFIX + n) == Some(n)
  {
    assert (PREFIX + n)[..|PREFIX|] == PREFIX;
    assert (PREFIX + n)[|PREFIX|..] == n;
  }

  /** The schema has a definition, not a nil pointer, under this name. */
  predicate Present(s: Schema, n: string) {
    n in s && s[n].Def?
  }

  // ------------------------------------------------- references

  /** collectDefinitionRefs. */
  function Refs(d: Def): set<string> {
    match d
    case Nil => {}
    case Def(ref, _, _, _, kids) => (if Target(ref).Some? then {Target(ref).value} else {}) + KidRefs(kids)
  }

  function KidRefs(k: Kids): set<string> {
    match k
    case End => {}
    case Kid(_, d, rest) => Refs(d) + KidRefs(rest)
  }

  /** The name a definition gets: duplicated ones move under the Unstable prefix. */
  function Rename(dup: set<string>, n: string): string {
    if n in dup then UNSTABLE + n else n
  }

  function RewriteRef(dup: set<string>, ref: string): string {
    if Target(ref).Some? && Target(ref).value in dup then PREFIX + Rename(dup, Target(ref).value) else ref
  }

  /** rewriteDefinitionRefs on a deep copy. */
  function Rewrite(dup: set<string>, d: Def): (e: Def)
    ensures e.Nil? <==> d.Nil?
  {
    match d
    case Nil => Nil
    case Def(ref, body, xMethod, xSide, kids) => Def(RewriteRef(dup, ref), body, xMethod, xSide, RewriteKids(dup, kids))
  }

  function RewriteKids(dup: set<string>, k: Kids): Kids {
    match k
    case End => End
    case Kid(place, d, rest) => Kid(place, Rewrite(dup, d), RewriteKids(dup, rest))
  }

  /** A copy that would pass for a stable root loses its method. */
  function Strip(stableWires: set<string>, d: Def): Def {
    if d.Def? && d.xMethod != "" && d.xMethod in stableWires then d.(xMethod := "", xSide := "") else d
  }

  lemma RewriteRefTarget(dup: set<string>, ref: string)
    ensures Target(RewriteRef(dup, ref)) ==
            if Target(ref).Some? then Some(Rename(dup, Target(ref).value)) else None
  {
    if Target(ref).Some? { TargetOf(Rename(dup, Target(ref).value)); }
  }

  /** A definition none of whose references is duplicated is copied as it is. */
  lemma {:induction false} RewriteNothing(dup: set<string>, d: Def)
    requires Refs(d) !! dup
    ensures Rewrite(dup, d) == d
    decreases d
  {
    if d.Def? { RewriteNothingInKids(dup, d.kids); }
  }

  lemma {:induction false} RewriteNothingInKids(dup: set<string>, k: Kids)
    requires KidRefs(k) !! dup
    ensures RewriteKids(dup, k) == k
    decreases k
  {
    if k.Kid? {
      RewriteNothing(dup, k.def);
      RewriteNothingInKids(dup, k.rest);
    }
  }

  /** The references of the copy are the renamed references. */
  lemma {:induction false} RewriteRenames(dup: set<string>, d: Def)
    ensures Refs(Rewrite(dup, d)) == set n | n in Refs(d) :: Rename(dup, n)
    decreases d
  {
    if d.Def? {
      RewriteRefTarget(dup, d.ref);
      RewriteRenamesInKids(dup, d.kids);
    }
  }

  lemma {:induction false} RewriteRenamesInKids(dup: set<string>, k: Kids)
    ensures KidRefs(RewriteKids(dup, k)) == set n | n in KidRefs(k) :: Rename(dup, n)
    decreases k
  {
    if k.Kid? {
      RewriteRenames(dup, k.def);
      RewriteRenamesInKids(dup, k.rest);
    }
  }

  // ------------------------------------------------- meaning

  /** What a definition unfolds to when its references are followed. A name shows only where it
      does not resolve. */
  datatype Tree =
    | Cut
    | Missing(name: string)
    | Absent
    | Node(text: string, body: string, xMethod: string, xSide: string, kids: Forest, target: Option<Tree>)

  datatype Forest = Bare | Branch(place: Place, tree: Tree, rest: Forest)

  /** The copy's method and side may be stripped, so they do not count at the top of a definition. */
  function Plain(d: Def): Def {
    if d.Def? then d.(xMethod := "", xSide := "") else d
  }

  /** Following references from definition d, at most depth of them one behind the other. */
  function Unfold(s: Schema, d: Def, depth: nat): Tree
    decreases depth, 1, d
  {
    match d
    case Nil => Absent
    case Def(ref, body, xMethod, xSide, kids) =>
      match Target(ref)
      case None => Node(ref, body, xMethod, xSide, UnfoldKids(s, kids, depth), None)
      case Some(n) => Node("", body, xMethod, xSide, UnfoldKids(s, kids, depth), Some(Expand(s, n, depth)))
  }

  function UnfoldKids(s: Schema, k: Kids, depth: nat): Forest
    decreases depth, 1, k
  {
    match k
    case End => Bare
    case Kid(place, d, rest) => Branch(place, Unfold(s, d, depth), UnfoldKids(s, rest, depth))
  }

  /** What the name n means in schema s, to a depth. */
  function Expand(s: Schema, n: string, depth: nat): Tree
    decreases depth, 0
  {
    if depth == 0 then Cut
    else if Present(s, n) then Unfold(s, Plain(s[n]), depth - 1)
    else Missing(n)
  }

  /** n means in u what its new name means in c. */
  ghost predicate SameMeaning(u: Schema, c: Schema, dup: set<string>, n: string) {
    forall depth: nat :: Expand(c, Rename(dup, n), depth) == Expand(u, n, depth)
  }

  // ------------------------------------------------- the bisimulation

  /** Every name of reach has in u a definition whose renamed copy it has in c, up to the method of
      the definition, and its references lead back into reach or nowhere in u. */
  ghost predicate Paired(u: Schema, c: Schema, dup: set<string>, reach: set<string>) {
    forall n | n in reach ::
      && Present(u, n) && Present(c, Rename(dup, n))
      && Plain(c[Rename(dup, n)]) == Plain(Rewrite(dup, u[n]))
      && forall r | r in Refs(u[n]) :: r in reach || (!Present(u, r) && r !in dup)
  }

  /** No reference of reach that leads nowhere in u resolves in c. */
  ghost predicate NothingCaptured(u: Schema, c: Schema, reach: set<string>) {
    forall n, r | n in reach && Present(u, n) && r in Refs(u[n]) && !Present(u, r) :: !Present(c, r)
  }

  lemma {:induction false} UnfoldSame(u: Schema, c: Schema, dup: set<string>, d: Def, depth: nat)
    requires forall r | r in Refs(d) :: Expand(c, Rename(dup, r), depth) == Expand(u, r, depth)
    ensures Unfold(c, Rewrite(dup, d), depth) == Unfold(u, d, depth)
    decreases d
  {
    if d.Def? {
      RewriteRefTarget(dup, d.ref);
      UnfoldSameKids(u, c, dup, d.kids, depth);
    }
  }

  lemma {:induction false} UnfoldSameKids(u: Schema, c: Schema, dup: set<string>, k: Kids, depth: nat)
    requires forall r | r in KidRefs(k) :: Expand(c, Rename(dup, r), depth) == Expand(u, r, depth)
    ensures UnfoldKids(c, RewriteKids(dup, k), depth) == UnfoldKids(u, k, depth)
    decreases k
  {
    if k.Kid? {
      UnfoldSame(u, c, dup, k.def, depth);
      UnfoldSameKids(u, c, dup, k.rest, depth);
    }
  }

  lemma PlainRewrite(dup: set<string>, d: Def)
    ensures Plain(Rewrite(dup, d)) == Rewrite(dup, Plain(d)) && Refs(Plain(d)) == Refs(d)
  {
  }

  lemma {:induction false} ExpandSame(u: Schema, c: Schema, dup: set<string>, reach: set<string>, n: string, depth: nat)
    requires Paired(u, c, dup, reach) && NothingCaptured(u, c, reach) && n in reach
    ensures Expand(c, Rename(dup, n), depth) == Expand(u, n, depth)
    decreases depth
  {
    if depth > 0 {
      forall r | r in Refs(u[n]) ensures Expand(c, Rename(dup, r), depth - 1) == Expand(u, r, depth - 1) {
        if r in reach { ExpandSame(u, c, dup, reach, r, depth - 1); }
      }
      PlainRewrite(dup, u[n]);
      UnfoldSame(u, c, dup, Plain(u[n]), depth - 1);
    }
  }

  /** Conversely, equal unfoldings have equal unfoldings at every reference. */
  lemma {:induction false} RefsSame(u: Schema, c: Schema, dup: set<string>, d: Def, depth: nat, r: string)
    requires Unfold(c, Rewrite(dup, d), depth) == Unfold(u, d, depth) && r in Refs(d)
    ensures Expand(c, Rename(dup, r), depth) == Expand(u, r, depth)
    decreases d
  {
    RewriteRefTarget(dup, d.ref);
    if r in KidRefs(d.kids) { KidRefsSame(u, c, dup, d.kids, depth, r); }
  }

  lemma {:induction false} KidRefsSame(u: Schema, c: Schema, dup: set<string>, k: Kids, depth: nat, r: string)
    requires UnfoldKids(c, RewriteKids(dup, k), depth) == UnfoldKids(u, k, depth) && r in KidRefs(k)
    ensures Expand(c, Rename(dup, r), depth) == Expand(u, r, depth)
    decreases k
  {
    if r in Refs(k.def) { RefsSame(u, c, dup, k.def, depth, r); } else { KidRefsSame(u, c, dup, k.rest, depth, r); }
  }

  lemma SameAtRefs(u: Schema, c: Schema, dup: set<string>, reach: set<string>, n: string, r: string)
    requires Paired(u, c, dup, reach) && n in reach && SameMeaning(u, c, dup, n) && r in Refs(u[n])
    ensures SameMeaning(u, c, dup, r)
  {
    PlainRewrite(dup, u[n]);
    forall depth: nat ensures Expand(c, Rename(dup, r), depth) == Expand(u, r, depth) {
      assert Expand(c, Rename(dup, n), depth + 1) == Expand(u, n, depth + 1);
      RefsSame(u, c, dup, Plain(u[n]), depth, r);
    }
  }

  /** reach is what roots lead to in u: closed, and contained in whatever else is closed. */
  ghost predicate Closed(u: Schema, roots: set<string>, reach: set<string>) {
    && roots <= reach
    && forall n, r | n in reach && n in u && r in Refs(u[n]) && r in u :: r in reach
  }

  ghost predicate Reached(u: Schema, roots: set<string>, reach: set<string>) {
    && Closed(u, roots, reach) && reach <= u.Keys
    && forall other | Closed(u, roots, other) :: reach <= other
  }

  /** Exactness: all roots keep their meaning if and only if nothing is captured. */
  lemma MeaningKeptIff(u: Schema, c: Schema, dup: set<string>, roots: set<string>, reach: set<string>)
    requires Reached(u, roots, reach) && Paired(u, c, dup, reach)
    ensures (forall n | n in roots :: SameMeaning(u, c, dup, n)) <==> NothingCaptured(u, c, reach)
  {
    if NothingCaptured(u, c, reach) {
      forall n, depth: nat | n in roots ensures Expand(c, Rename(dup, n), depth) == Expand(u, n, depth) {
        ExpandSame(u, c, dup, reach, n, depth);
      }
    }
    if forall n | n in roots :: SameMeaning(u, c, dup, n) {
      AllSame(u, c, dup, roots, reach);
      forall n, r | n in reach && Present(u, n) && r in Refs(u[n]) && !Present(u, r) ensures !Present(c, r) {
        SameAtRefs(u, c, dup, reach, n, r);
        assert r !in dup;
        assert Expand(c, Rename(dup, r), 1) == Expand(u, r, 1) == Missing(r);
        if Present(c, r) { UnfoldNotMissing(c, Plain(c[r]), 0); }
      }
    }
  }

  lemma UnfoldNotMissing(s: Schema, d: Def, depth: nat)
    ensures !Unfold(s, d, depth).Missing?
  {
  }

  lemma AllSame(u: Schema, c: Schema, dup: set<string>, roots: set<string>, reach: set<string>)
    requires Reached(u, roots, reach) && Paired(u, c, dup, reach)
    requires forall n | n in roots :: SameMeaning(u, c, dup, n)
    ensures forall n | n in reach :: SameMeaning(u, c, dup, n)
  {
    var same := set n | n in reach && SameMeaning(u, c, dup, n);
    forall n, r | n in same && n in u && r in Refs(u[n]) && r in u ensures r in same {
      SameAtRefs(u, c, dup, reach, n, r);
    }
    assert Closed(u, roots, same);
  }
}
