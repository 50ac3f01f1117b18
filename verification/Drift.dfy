/** A store whose parts have been moved into value leaves: how far its graph drifts from the
    finalised content, and why every further add keeps it there. */
module Drift {
  import opened Vocabulary
  import opened Closure
  import opened Hierarchy
  import opened Reach
  import opened YearSlicer
  import opened YearForm
  import opened StoreIndex
  import opened StoreFrame
  import opened ValueSlicer

  /** The slice a value leaf was grown from. */
  function Core(c: Cls): Cls {
    match c
    case ValueLeaf(_, of) => Core(of)
    case _ => c
  }

  /** The timeless class a class was sliced or grown from. */
  function RootClass(c: Cls): Cls {
    match c
    case Named(_) => c
    case Slice(b, _) => b
    case ValueLeaf(_, of) => RootClass(of)
  }

  /** Instances whose class the aggregation reads: those that are no part, and the elements. */
  function Fixed(a: Graph): set<Node> {
    set n | n in a.level && (n !in PartsOf(a.parts) || a.level[n] == Element)
  }

  /** Time and slice structure of a class grown from the slice of a lifted class. */
  ghost predicate Grown(lifted: set<(Cls, Scope)>, c: Cls) {
    IsSliceOf(lifted, Core(c))
  }

  /** The graph has the statements of `a`. */
  ghost predicate SameContent(a: Graph, g: Graph) {
    g.when == a.when && g.level == a.level && g.parts == a.parts && g.quality == a.quality && g.depth == a.depth
  }

  /** Nothing but value leaves gains an edge, an axis or a scope. */
  ghost predicate OnlyLeavesGain(f: Graph, g: Graph) {
    && f.sub <= g.sub && f.sliceOf <= g.sliceOf && f.axis <= g.axis && f.scope <= g.scope
    && (forall e {:trigger e in g.sub} :: e in g.sub && e !in f.sub ==> e.0.ValueLeaf?)
    && (forall e {:trigger e in g.sliceOf} :: e in g.sliceOf && e !in f.sliceOf ==> e.0.ValueLeaf?)
    && (forall e {:trigger e in g.axis} :: e in g.axis && e !in f.axis ==> e.0.ValueLeaf?)
    && (forall e {:trigger e in g.scope} :: e in g.scope && e !in f.scope ==> e.0.ValueLeaf?)
  }

  /** A leaf keeps the scope of the slice it was grown from. */
  ghost predicate ScopesGrown(lifted: set<(Cls, Scope)>, scopes: set<(Cls, Scope)>) {
    forall e {:trigger e in scopes} :: e in scopes && e.0.ValueLeaf? ==> Grown(lifted, e.0) && e.1 == Core(e.0).scope
  }

  /** A leaf slices the base of the slice it was grown from, or a timed class grown from it. */
  ghost predicate SlicesGrown(lifted: set<(Cls, Scope)>, sliceOf: Classes, timed: set<Cls>) {
    forall e {:trigger e in sliceOf} :: e in sliceOf && e.0.ValueLeaf? ==>
      Grown(lifted, e.0) && RootClass(e.1) == RootClass(e.0)
          && if e.1.Named? then e.1 == Core(e.0).base else e.1 in timed
  }

  /** Where a leaf leads: its own class, other classes of the same base, and the slices that
      the year slicer puts above them. */
  ghost predicate LeafLeadsUp(tax: Classes, lifted: set<(Cls, Scope)>, e: (Cls, Cls)) {
    && RootClass(e.1) in Closure.Reach(tax, {RootClass(e.0)})
    && (e.1.Slice? ==> IsSliceOf(lifted, e.1))
    && (e.1.ValueLeaf? ==> e.0.ValueLeaf? && e.0.of.ValueLeaf?)
  }

  ghost predicate EdgesGrown(tax: Classes, lifted: set<(Cls, Scope)>, sub: Classes) {
    forall e {:trigger LeafLeadsUp(tax, lifted, e)} :: e in sub && e.0.ValueLeaf? ==> LeafLeadsUp(tax, lifted, e)
  }

  ghost predicate LeavesGrown(lifted: set<(Cls, Scope)>, g: Graph) {
    ScopesGrown(lifted, g.scope) && SlicesGrown(lifted, g.sliceOf, Timed(g))
  }

  /** A leaf lies below the slice it was grown from. */
  ghost predicate LeafLeads(g: Graph, c: Cls) {
    Core(c) in Closure.Reach(g.sub, {c})
  }

  ghost predicate LeavesLead(g: Graph) {
    forall e {:trigger LeafLeads(g, e.1)} :: e in g.types && e.1.ValueLeaf? ==> LeafLeads(g, e.1)
  }

  /** What the type triple of an instance may be. */
  ghost predicate TypeKept(f: Graph, g: Graph, e: (Node, Cls)) {
    if e.1.ValueLeaf? then (e.0, Core(e.1)) in f.types && Core(e.1).Slice? && (e.1, YearAxis) in g.axis
        && e.1 in Timed(g)
    else e in f.types
  }

  /** Every instance keeps its authored class and, through its leaves, its slice. */
  ghost predicate TypesDrift(f: Graph, g: Graph) {
    && (forall e :: e in g.types ==> TypeKept(f, g, e))
    && (forall e {:trigger e in f.types} :: e in f.types && e.1.Named? ==> e in g.types)
    && (forall e {:trigger e in f.types} :: e in f.types ==> e.1 in Closure.Reach(g.sub, TypesAt(g, e.0)))
  }

  /** `f` is the finalised form of `a`. */
  ghost predicate Forms(frozen: Classes, a: Graph, f: Graph) {
    f == Form(frozen, a)
  }

  /** `g` is the finalised content `f` of `a`, but for value leaves. */
  ghost predicate Drifts(frozen: Classes, a: Graph, f: Graph, g: Graph) {
    && SameContent(a, g)
    && OnlyLeavesGain(f, g)
    && LeavesGrown(Lifted(frozen, a), g)
    && EdgesGrown(Tax(frozen, a), Lifted(frozen, a), g.sub)
    && TypesDrift(f, g)
    && LeavesLead(g)
  }

  ghost predicate Drifted(frozen: Classes, a: Graph, g: Graph) {
    forall f {:trigger Forms(frozen, a, f)} :: Forms(frozen, a, f) ==> Drifts(frozen, a, f, g)
  }

  lemma DriftedIs(frozen: Classes, a: Graph, g: Graph)
    ensures Drifted(frozen, a, g) <==> Drifts(frozen, a, Form(frozen, a), g)
  {
    assert Forms(frozen, a, Form(frozen, a));
  }

  /** The instance keeps its types. */
  ghost predicate Untouched(f: Graph, g: Graph, n: Node) {
    forall c :: (n, c) in f.types <==> (n, c) in g.types
  }

  /** `g` is the finalised content `a`, but for value leaves of instances that are not fixed. */
  ghost predicate Faithful(frozen: Classes, a: Graph, g: Graph) {
    Drifted(frozen, a, g) && forall n {:trigger Untouched(Form(frozen, a), g, n)} :: n in Fixed(a) ==>
        Untouched(Form(frozen, a), g, n)
  }

  lemma FormTypes(frozen: Classes, a: Graph, e: (Node, Cls))
    requires Plain(a)
    ensures e in Form(frozen, a).types
        <==> e in a.types || (e.1.Slice? && IsStamp(a, (e.0, e.1.base)) && e.1.scope == a.when[e.0])
  {
    StampedType(a, e.0, e.1);
  }

  lemma FormHasNoLeaf(frozen: Classes, a: Graph)
    requires Plain(a) && Timeless(frozen)
    ensures var f := Form(frozen, a);
            && (forall e :: e in f.types ==> !e.1.ValueLeaf?)
            && (forall e :: e in frozen + f.sub ==> !e.0.ValueLeaf? && !e.1.ValueLeaf?)
            && (forall e :: e in f.sliceOf ==>
                 e.0.Slice? && e.1 == e.0.base && e.1.Named? && IsSliceOf(Lifted(frozen, a), e.0))
            && (forall e :: e in f.scope ==> e.0.Slice? && e.1 == e.0.scope && IsSliceOf(Lifted(frozen, a), e.0))
            && (forall e :: e in f.axis ==> !e.0.ValueLeaf?)
  {
    LiftedNamed(frozen, a);
    assert forall e :: e in Tax(frozen, a) ==> e.0.Named? && e.1.Named?;
    assert Form(frozen, a).sliceOf == {} + Downs(Lifted(frozen, a));
  }

  /** The finalised content itself. */
  lemma FormDrifts(frozen: Classes, a: Graph)
    requires Plain(a) && Timeless(frozen)
    ensures Faithful(frozen, a, Form(frozen, a))
  {
    var f := Form(frozen, a);
    FormHasNoLeaf(frozen, a);
    forall e | e in f.types ensures e.1 in Closure.Reach(f.sub, TypesAt(f, e.0)) {
      assert e.1 in TypesAt(f, e.0);
    }
  }

  // ---- the year slicer on a drifted store ------------------------------------------------------

  /** A drifted store and a source with fresh instances. */
  ghost predicate Onto(frozen: Classes, a: Graph, s: Graph, g: Graph) {
    Plain(a) && Plain(s) && Disjoint(a, s) && Timeless(frozen) && Drifted(frozen, a, g)
  }

  lemma MarkedSlices(frozen: Classes, a: Graph, c: Cls)
    requires IsSliceOf(Lifted(frozen, a), c)
    ensures (c, YearAxis) in Form(frozen, a).axis
  {
    var m := (c.base, c.scope);
    assert m in Lifted(frozen, a) && (c, YearAxis) == (Slice(m.0, m.1), YearAxis);
    assert (c, YearAxis) in Axes(Lifted(frozen, a));
  }

  /** The year slicer mints exactly the authored stamps again. */
  lemma MintsStamps(frozen: Classes, a: Graph, s: Graph, g: Graph, e: (Node, Cls))
    requires Onto(frozen, a, s, g)
    ensures Mints(Union(g, s), e) <==> IsStamp(Union(a, s), e)
  {
    DriftedIs(frozen, a, g);
    if e.1.Named? {
      assert (e.1, YearAxis) !in g.axis by {
        DriftedIs(frozen, a, g);
        assert (e.1, YearAxis) !in Form(frozen, a).axis;
      }
      FormTypes(frozen, a, e);
    } else if e in g.types {
      assert (e.1, YearAxis) in g.axis by {
        DriftedIs(frozen, a, g);
        if e.1.Slice? {
          FormTypes(frozen, a, e);
          assert (e.0, e.1.base) in a.types && IsStamp(a, (e.0, e.1.base));
          LiftSelf(Tax(frozen, a), Stamped(a));
          assert (e.1.base, e.1.scope) in Stamped(a);
          MarkedSlices(frozen, a, e.1);
        }
      }
    }
  }

  lemma MintedAgain(frozen: Classes, a: Graph, s: Graph, g: Graph)
    requires Onto(frozen, a, s, g)
    ensures Minted(Union(g, s)) == Stamped(Union(a, s)) && MintedTypes(Union(g, s)) == StampedTypes(Union(a, s))
  {
    DriftedIs(frozen, a, g);
    forall e ensures Mints(Union(g, s), e) <==> IsStamp(Union(a, s), e) {
      MintsStamps(frozen, a, s, g, e);
    }
    SameStamps(Union(g, s), Union(a, s));
  }

  /** The store once the leaf slices are minted. */
  function WithStamps(g: Graph, s: Graph): Graph {
    var u := Union(g, s);
    YearSlicer.Apply(u, LeafSlices(u))
  }

  lemma DriftedTaxonomy(frozen: Classes, a: Graph, s: Graph, g: Graph)
    requires Onto(frozen, a, s, g)
    ensures AgreeAtBases(Taxonomy(frozen + WithStamps(g, s).sub), Tax(frozen, Union(a, s)))
  {
    DriftedIs(frozen, a, g);
    var tax := Taxonomy(frozen + WithStamps(g, s).sub);
    forall e | e in tax && e.0.Named? ensures e in Tax(frozen, Union(a, s)) {
      if e !in frozen {
        assert e in Union(a, s).sub by {
          DriftedIs(frozen, a, g);
          if e in g.sub {
            FormEdge(frozen, a, e);
          }
        }
      }
    }
    assert a.sub <= Form(frozen, a).sub <= g.sub;
  }

  /** Bases and scopes the slicer walks up from. */
  function Known0(frozen: Classes, a: Graph, s: Graph): set<(Cls, Scope)> {
    Lifted(frozen, a) + Stamped(Union(a, s))
  }

  lemma StampScopes(frozen: Classes, a: Graph, s: Graph, g: Graph)
    requires Onto(frozen, a, s, g)
    ensures var g1 := WithStamps(g, s);
            && g1.scope == g.scope + s.scope + Scopes(Stamped(Union(a, s)))
            && g1.sliceOf == g.sliceOf + s.sliceOf + Downs(Stamped(Union(a, s)))
            && g1.axis == g.axis + s.axis + Axes(Stamped(Union(a, s)))
            && g1.sub == g.sub + s.sub + Downs(Stamped(Union(a, s)))
            && g1.types == g.types + s.types + StampedTypes(Union(a, s))
  {
    MintedAgain(frozen, a, s, g);
  }

  lemma ScopeOfKnown(frozen: Classes, a: Graph, s: Graph, g: Graph, e: (Cls, Scope))
    requires Onto(frozen, a, s, g) && e in WithStamps(g, s).scope
    ensures e.0.Slice? || e.0.ValueLeaf?
    ensures e.0.Slice? ==> e.1 == e.0.scope && (e.0.base, e.0.scope) in Known0(frozen, a, s)
    ensures e.0.ValueLeaf? ==> e in g.scope
  {
    DriftedIs(frozen, a, g);
    StampScopes(frozen, a, s, g);
    ScopeMember(Stamped(Union(a, s)), e);
    ScopeMember(Lifted(frozen, a), e);
    FormHasNoLeaf(frozen, a);
  }

  /** Every entry is a slice of a known class, or a value leaf grown from one. */
  lemma EntryKnown(frozen: Classes, a: Graph, s: Graph, g: Graph, n: (Cls, Cls, Scope))
    requires Onto(frozen, a, s, g) && n in Entries(WithStamps(g, s))
    ensures (n.1, n.2) in Known0(frozen, a, s) && n.1.Named?
    ensures n.0 == Slice(n.1, n.2) || (n.0.ValueLeaf? && RootClass(n.0) == n.1)
  {
    DriftedIs(frozen, a, g);
    var g1 := WithStamps(g, s);
    var e, b :| e in g1.scope && b in g1.sliceOf && b.0 == e.0 && b.1 !in Timed(g1) && n == (e.0, b.1, e.1);
    ScopeOfKnown(frozen, a, s, g, e);
    assert (b.0.Slice? ==> b.1 == b.0.base) && (b.0.ValueLeaf? ==> b in g.sliceOf) by {
      DriftedIs(frozen, a, g);
      StampScopes(frozen, a, s, g);
      DownsMember(Stamped(Union(a, s)), b);
      FormHasNoLeaf(frozen, a);
    }
    KnownNamed(frozen, a, s);
    if e.0.ValueLeaf? {
      assert b.1.Named? by {
        StampScopes(frozen, a, s, g);
        assert forall x :: x in g.scope ==> x in g1.scope;
        assert b.1 !in Timed(g);
      }
    }
  }

  lemma KnownNamed(frozen: Classes, a: Graph, s: Graph)
    requires Plain(a) && Plain(s) && Disjoint(a, s) && Timeless(frozen)
    ensures forall m :: m in Known0(frozen, a, s) ==> m.0.Named?
  {
    PlainUnion(a, s);
    LiftedNamed(frozen, a);
    LiftedNamed(frozen, Union(a, s));
  }

  lemma KnownIsEntry(frozen: Classes, a: Graph, s: Graph, g: Graph, m: (Cls, Scope))
    requires Onto(frozen, a, s, g) && m in Known0(frozen, a, s)
    ensures (Slice(m.0, m.1), m.0, m.1) in Entries(WithStamps(g, s))
  {
    DriftedIs(frozen, a, g);
    var g1, c := WithStamps(g, s), Slice(m.0, m.1);
    StampScopes(frozen, a, s, g);
    KnownNamed(frozen, a, s);
    ScopeMember(Lifted(frozen, a), (c, m.1));
    ScopeMember(Stamped(Union(a, s)), (c, m.1));
    DownsMember(Lifted(frozen, a), (c, m.0));
    DownsMember(Stamped(Union(a, s)), (c, m.0));
    assert m.0 !in Timed(g1) by {
      forall e | e in g1.scope ensures e.0 != m.0 {
        ScopeOfKnown(frozen, a, s, g, e);
      }
    }
    var e, b := (c, m.1), (c, m.0);
    assert e in g1.scope && b in g1.sliceOf;
  }

  lemma MadeFromEntries(tax: Classes, authored: Classes, all: set<(Cls, Scope)>, entries: set<(Cls, Cls, Scope)>)
    requires AgreeAtBases(tax, authored) && forall m :: m in all ==> m.0.Named?
    requires EntriesAt(all) <= entries && forall n :: n in entries ==> (n.1, n.2) in all
    ensures all + AncestorsMade(tax, entries) == Lift(authored, all)
  {
    MadeIsLifted(tax, authored, all);
    forall n, m | n in entries && m in WalkMade(tax, n.1, n.2) ensures m in Lift(authored, all) {
      MadeWithin(tax, authored, all, (n.1, n.2));
    }
    assert AncestorsMade(tax, EntriesAt(all)) <= AncestorsMade(tax, entries);
  }

  lemma KnownLifts(frozen: Classes, a: Graph, s: Graph)
    requires Plain(a) && Plain(s) && Disjoint(a, s)
    ensures Lift(Tax(frozen, Union(a, s)), Known0(frozen, a, s)) == Lifted(frozen, Union(a, s))
  {
    UnionStamps(a, s);
    LiftAgain(Tax(frozen, a), Tax(frozen, Union(a, s)), Stamped(a), Stamped(Union(a, s)));
  }

  /** Walking up from every entry makes exactly the lifted slices. */
  lemma MadeAgain(frozen: Classes, a: Graph, s: Graph, g: Graph)
    requires Onto(frozen, a, s, g)
    ensures var g1 := WithStamps(g, s);
            Known0(frozen, a, s) + AncestorsMade(Taxonomy(frozen + g1.sub), Entries(g1)) == Lifted(frozen, Union(a, s))
  {
    var g1, all := WithStamps(g, s), Known0(frozen, a, s);
    DriftedTaxonomy(frozen, a, s, g);
    KnownNamed(frozen, a, s);
    KnownLifts(frozen, a, s);
    forall m | m in all ensures (Slice(m.0, m.1), m.0, m.1) in Entries(g1) {
      KnownIsEntry(frozen, a, s, g, m);
    }
    forall n | n in Entries(g1) ensures (n.1, n.2) in all {
      EntryKnown(frozen, a, s, g, n);
    }
    MadeFromEntries(Taxonomy(frozen + g1.sub), Tax(frozen, Union(a, s)), all, Entries(g1));
  }

  /** An edge of the year slicer copies the taxonomy, or leads from a leaf to a slice above. */
  ghost predicate WalkedUp(tax: Classes, lifted: set<(Cls, Scope)>, c: (Cls, Cls)) {
    c in Copies(tax, lifted) || (c.0.ValueLeaf? && LeafLeadsUp(tax, lifted, c))
  }

  lemma WalkGoesUp(tax: Classes, authored: Classes, all: set<(Cls, Scope)>, lifted: set<(Cls, Scope)>,
                   n: (Cls, Cls, Scope), c: (Cls, Cls))
    requires AgreeAtBases(tax, authored) && lifted == Lift(authored, all)
    requires (n.1, n.2) in all && n.1.Named? && c in WalkEdges(tax, n.0, n.1, n.2)
    requires n.0 == Slice(n.1, n.2) || (n.0.ValueLeaf? && RootClass(n.0) == n.1)
    ensures WalkedUp(authored, lifted, c)
  {
    assert
      && (c.0 == n.0 || c in Copies(authored, Lift(authored, all)))
      && c.1.Slice? && c.1.base in Closure.Reach(authored, {n.1}) && IsSliceOf(Lift(authored, all), c.1)
    by {
      ReachAtBase(tax, authored, n.1);
      ReachNamed(authored, n.1);
      var e :| e in tax && e.0 in Closure.Reach(tax, {n.1}) && c == (Child(n.0, n.1, e.0, n.2), Slice(e.1, n.2));
      assert (e.0, n.2) in Lift(authored, all);
      assert e.1 in Image(tax, Closure.Reach(tax, {n.1}));
      assert (e.1, n.2) in Lift(authored, all);
    }
    if n.0 == Slice(n.1, n.2) {
      EdgeIsCopy(tax, authored, all, (n.1, n.2), c);
    }
  }

  /** Walking up from every entry copies the taxonomy; only leaves gain edges besides. */
  lemma EdgesAgain(frozen: Classes, a: Graph, s: Graph, g: Graph)
    requires Onto(frozen, a, s, g)
    ensures var g1, u := WithStamps(g, s), Union(a, s);
            var made := AncestorEdges(Taxonomy(frozen + g1.sub), Entries(g1));
            && Copies(Tax(frozen, u), Lifted(frozen, u)) <= made
            && forall c :: c in made ==> WalkedUp(Tax(frozen, u), Lifted(frozen, u), c)
  {
    var g1, u, all := WithStamps(g, s), Union(a, s), Known0(frozen, a, s);
    var tax := Taxonomy(frozen + g1.sub);
    DriftedTaxonomy(frozen, a, s, g);
    KnownNamed(frozen, a, s);
    UnionStamps(a, s);
    LiftAgain(Tax(frozen, a), Tax(frozen, u), Stamped(a), Stamped(u));
    EdgesAreCopies(tax, Tax(frozen, u), all);
    forall m | m in all ensures (Slice(m.0, m.1), m.0, m.1) in Entries(g1) {
      KnownIsEntry(frozen, a, s, g, m);
    }
    assert AncestorEdges(tax, EntriesAt(all)) <= AncestorEdges(tax, Entries(g1));
    KnownLifts(frozen, a, s);
    forall n, c | n in Entries(g1) && c in WalkEdges(tax, n.0, n.1, n.2)
      ensures WalkedUp(Tax(frozen, u), Lifted(frozen, u), c)
    {
      EntryKnown(frozen, a, s, g, n);
      WalkGoesUp(tax, Tax(frozen, u), all, Lifted(frozen, u), n, c);
    }
  }

  /** The year slicer's graph, relation by relation. */
  lemma FinaliseShape(frozen: Classes, g: Graph, edges: Classes, made: set<(Cls, Scope)>)
    requires var g1 := YearSlicer.Apply(g, LeafSlices(g));
             edges == AncestorEdges(Taxonomy(frozen + g1.sub), Entries(g1))
                 && made == AncestorsMade(Taxonomy(frozen + g1.sub), Entries(g1))
    ensures var r := Finalise(frozen, g);
            && r.types == g.types + MintedTypes(g)
            && r.sub == g.sub + (Downs(Minted(g)) + edges + Downs(made))
            && r.sliceOf == g.sliceOf + (Downs(Minted(g)) + Downs(made))
            && r.axis == g.axis + (Axes(Minted(g)) + Axes(made))
            && r.scope == g.scope + (Scopes(Minted(g)) + Scopes(made))
            && r.when == g.when && r.level == g.level && r.parts == g.parts && r.quality == g.quality
                 && r.depth == g.depth
  {
  }

  lemma Absorbed<T>(g: set<T>, s: set<T>, x: set<T>, y: set<T>, e: set<T>, z: set<T>, all: set<T>)
    requires x <= g && x + y + z == all
    ensures g + s + (y + e + z) == g + s + all + e
    ensures g + s + (y + z) == g + s + all
  {
  }

  /** What finalising adds to a drifted store: the stamps, the lifted slices, and edges that
      are copies of the taxonomy or leave value leaves. */
  ghost predicate Refilled(frozen: Classes, u: Graph, g: Graph, s: Graph, edges: Classes, r: Graph) {
    var lifted := Lifted(frozen, u);
    && r.types == g.types + s.types + StampedTypes(u)
    && r.sub == g.sub + s.sub + Downs(lifted) + edges
    && r.sliceOf == g.sliceOf + s.sliceOf + Downs(lifted)
    && r.axis == g.axis + s.axis + Axes(lifted)
    && r.scope == g.scope + s.scope + Scopes(lifted)
    && SameContent(u, r)
    && Copies(Tax(frozen, u), lifted) <= edges
    && forall c :: c in edges ==> WalkedUp(Tax(frozen, u), lifted, c)
  }

  lemma FinaliseRefills(frozen: Classes, a: Graph, s: Graph, g: Graph) returns (edges: Classes)
    requires Onto(frozen, a, s, g)
    ensures Refilled(frozen, Union(a, s), g, s, edges, Finalise(frozen, Union(g, s)))
  {
    DriftedIs(frozen, a, g);
    var g1, u := WithStamps(g, s), Union(a, s);
    var known, minted, lifted := Lifted(frozen, a), Stamped(u), Lifted(frozen, u);
    var made := AncestorsMade(Taxonomy(frozen + g1.sub), Entries(g1));
    edges := AncestorEdges(Taxonomy(frozen + g1.sub), Entries(g1));
    MintedAgain(frozen, a, s, g);
    FinaliseShape(frozen, Union(g, s), edges, made);
    assert known + minted + made == lifted by {
      MadeAgain(frozen, a, s, g);
    }
    EdgesAgain(frozen, a, s, g);
    assert
      && Downs(Lifted(frozen, a)) <= g.sub && Downs(Lifted(frozen, a)) <= g.sliceOf
      && Axes(Lifted(frozen, a)) <= g.axis && Scopes(Lifted(frozen, a)) <= g.scope
    by {
      DriftedIs(frozen, a, g);
      var f := Form(frozen, a);
      assert Downs(Lifted(frozen, a)) <= f.sub && Downs(Lifted(frozen, a)) <= f.sliceOf;
    }
    assert Downs(known) + Downs(minted) + Downs(made) == Downs(lifted)
        && Axes(known) + Axes(minted) + Axes(made) == Axes(lifted)
           && Scopes(known) + Scopes(minted) + Scopes(made) == Scopes(lifted) by {
      SliceTriplesUnion(known, minted);
      SliceTriplesUnion(known + minted, made);
    }
    Absorbed(g.sub, s.sub, Downs(known), Downs(minted), edges, Downs(made), Downs(lifted));
    Absorbed(g.sliceOf, s.sliceOf, Downs(known), Downs(minted), {}, Downs(made), Downs(lifted));
    Absorbed(g.axis, s.axis, Axes(known), Axes(minted), {}, Axes(made), Axes(lifted));
    Absorbed(g.scope, s.scope, Scopes(known), Scopes(minted), {}, Scopes(made), Scopes(lifted));
  }

  lemma FormWider(frozen: Classes, a: Graph, s: Graph)
    requires Plain(a) && Plain(s) && Disjoint(a, s) && Timeless(frozen)
    ensures var f, h := Form(frozen, a), Form(frozen, Union(a, s));
            f.sub <= h.sub && f.sliceOf <= h.sliceOf && f.axis <= h.axis && f.scope <= h.scope
                && f.types + s.types <= h.types
    ensures Lifted(frozen, a) <= Lifted(frozen, Union(a, s))
  {
    LiftedMonotone(frozen, a, s);
    UnionStamps(a, s);
    CopiesMonotone(Tax(frozen, a), Tax(frozen, Union(a, s)), Lifted(frozen, a), Lifted(frozen, Union(a, s)));
  }

  lemma StillGrown(few: set<(Cls, Scope)>, lifted: set<(Cls, Scope)>, g: Graph, r: Graph)
    requires LeavesGrown(few, g) && few <= lifted
    requires r.scope == g.scope + {} + Scopes(lifted) && r.sliceOf == g.sliceOf + {} + Downs(lifted)
    ensures LeavesGrown(lifted, r)
  {
    forall e | e in r.scope && e.0.ValueLeaf? ensures e in g.scope {
      ScopeMember(lifted, e);
    }
    forall e | e in r.sliceOf && e.0.ValueLeaf? ensures e in g.sliceOf {
      DownsMember(lifted, e);
    }
    assert Timed(g) <= Timed(r);
  }

  /** The class relations of a refilled store. */
  lemma RefilledLeaves(frozen: Classes, a: Graph, s: Graph, g: Graph, edges: Classes, r: Graph)
    requires Onto(frozen, a, s, g) && Refilled(frozen, Union(a, s), g, s, edges, r)
    ensures OnlyLeavesGain(Form(frozen, Union(a, s)), r) && LeavesGrown(Lifted(frozen, Union(a, s)), r)
  {
    DriftedIs(frozen, a, g);
    FormWider(frozen, a, s);
    StillGrown(Lifted(frozen, a), Lifted(frozen, Union(a, s)), g, r);
    GainSub(frozen, a, s, g, edges, r);
    assert
      && (var h := Form(frozen, Union(a, s)); h.sliceOf <= r.sliceOf && h.axis <= r.axis && h.scope <= r.scope)
      && (forall e :: e in r.sliceOf && e !in Form(frozen, Union(a, s)).sliceOf ==> e.0.ValueLeaf?)
      && (forall e :: e in r.axis && e !in Form(frozen, Union(a, s)).axis ==> e.0.ValueLeaf?)
      && (forall e :: e in r.scope && e !in Form(frozen, Union(a, s)).scope ==> e.0.ValueLeaf?)
    by {
      DriftedIs(frozen, a, g);
      assert a.axis <= Form(frozen, a).axis <= g.axis;
    }
  }

  lemma GainSub(frozen: Classes, a: Graph, s: Graph, g: Graph, edges: Classes, r: Graph)
    requires Onto(frozen, a, s, g) && Refilled(frozen, Union(a, s), g, s, edges, r)
    requires Form(frozen, a).sub <= Form(frozen, Union(a, s)).sub
    ensures Form(frozen, Union(a, s)).sub <= r.sub
    ensures forall e :: e in r.sub && e !in Form(frozen, Union(a, s)).sub ==> e.0.ValueLeaf?
  {
    DriftedIs(frozen, a, g);
    assert a.sub <= Form(frozen, a).sub <= g.sub;
  }

  /** Leaves lead where they led when edges are added. */
  lemma StillLead(g: Graph, r: Graph)
    requires LeavesLead(g) && g.sub <= r.sub && forall e :: e in r.types && e.1.ValueLeaf? ==> e in g.types
    ensures LeavesLead(r)
  {
    forall e | e in r.types && e.1.ValueLeaf? ensures LeafLeads(r, e.1) {
      assert LeafLeads(g, e.1);
      ReachMonotone(g.sub, {e.1}, r.sub, {e.1});
    }
  }

  lemma OldTypeAgain(frozen: Classes, a: Graph, s: Graph, g: Graph, r: Graph, e: (Node, Cls))
    requires Onto(frozen, a, s, g) && e in g.types && g.axis <= r.axis && g.scope <= r.scope
    ensures TypeKept(Form(frozen, Union(a, s)), r, e)
    ensures e.0 in a.level && (e in Form(frozen, a).types ==> e in Form(frozen, Union(a, s)).types)
  {
    DriftedIs(frozen, a, g);
    FormWider(frozen, a, s);
    assert TypeKept(Form(frozen, a), g, e);
    FormTypes(frozen, a, e);
    FormTypes(frozen, a, (e.0, Core(e.1)));
    assert Timed(g) <= Timed(r);
  }

  lemma FormTypeAgain(frozen: Classes, a: Graph, s: Graph, g: Graph, r: Graph, e: (Node, Cls))
    requires Onto(frozen, a, s, g) && r.types == g.types + s.types + StampedTypes(Union(a, s))
    requires e in Form(frozen, Union(a, s)).types
    ensures e in r.types
  {
    DriftedIs(frozen, a, g);
    FormTypes(frozen, a, e);
  }

  lemma NewTypeAgain(frozen: Classes, a: Graph, s: Graph, r: Graph, e: (Node, Cls))
    requires Plain(a) && Plain(s) && Disjoint(a, s) && Timeless(frozen) && e in s.types + StampedTypes(Union(a, s))
    ensures e in Form(frozen, Union(a, s)).types && TypeKept(Form(frozen, Union(a, s)), r, e)
  {
    FormWider(frozen, a, s);
    PlainUnion(a, s);
    FormTypes(frozen, Union(a, s), e);
  }

  /** Finalising a drifted store with a new source drifts from the content of both, and gives
      every instance its slice back. */
  lemma FinaliseDrifts(frozen: Classes, a: Graph, s: Graph, g: Graph)
    requires Onto(frozen, a, s, g)
    ensures Drifted(frozen, Union(a, s), Finalise(frozen, Union(g, s)))
    ensures Form(frozen, Union(a, s)).types <= Finalise(frozen, Union(g, s)).types
  {
    var r := Finalise(frozen, Union(g, s));
    var edges := FinaliseRefills(frozen, a, s, g);
    RefilledLeaves(frozen, a, s, g, edges, r);
    assert TypesDrift(Form(frozen, Union(a, s)), r) && Form(frozen, Union(a, s)).types <= r.types by {
      var h := Form(frozen, Union(a, s));
      forall e | e in r.types ensures TypeKept(h, r, e) {
        if e in g.types {
          OldTypeAgain(frozen, a, s, g, r, e);
        } else {
          NewTypeAgain(frozen, a, s, r, e);
        }
      }
      forall e | e in h.types ensures e in r.types && e.1 in Closure.Reach(r.sub, TypesAt(r, e.0)) {
        FormTypeAgain(frozen, a, s, g, r, e);
        assert e.1 in TypesAt(r, e.0);
      }
    }
    assert EdgesGrown(Tax(frozen, Union(a, s)), Lifted(frozen, Union(a, s)), r.sub) by {
      DriftedIs(frozen, a, g);
      var u := Union(a, s);
      var tax, lifted := Tax(frozen, u), Lifted(frozen, u);
      LiftedMonotone(frozen, a, s);
      forall e | e in r.sub && e.0.ValueLeaf? ensures LeafLeadsUp(tax, lifted, e) {
        CopiesMember(tax, lifted, e);
        DownsMember(lifted, e);
        if e in g.sub {
          assert LeafLeadsUp(Tax(frozen, a), Lifted(frozen, a), e);
          assert LeafLeadsUp(tax, lifted, e) by {
            ReachMonotone(Tax(frozen, a), {RootClass(e.0)}, tax, {RootClass(e.0)});
          }
        } else {
          assert e in edges && WalkedUp(tax, lifted, e);
        }
      }
    }
    assert LeavesLead(r) by {
      DriftedIs(frozen, a, g);
      forall e | e in r.types && e.1.ValueLeaf? ensures e in g.types {
        StampedType(Union(a, s), e.0, e.1);
      }
      StillLead(g, r);
    }
  }

  /** A new instance, and an old one that kept its types, has the types of the content. */
  lemma UntouchedAgain(frozen: Classes, a: Graph, s: Graph, g: Graph, n: Node)
    requires Onto(frozen, a, s, g) && (n in s.level || Untouched(Form(frozen, a), g, n))
    ensures Untouched(Form(frozen, Union(a, s)), Finalise(frozen, Union(g, s)), n)
  {
    var h, r := Form(frozen, Union(a, s)), Finalise(frozen, Union(g, s));
    var edges := FinaliseRefills(frozen, a, s, g);
    forall c ensures (n, c) in h.types <==> (n, c) in r.types {
      if (n, c) in g.types {
        OldTypeAgain(frozen, a, s, g, r, (n, c));
      } else if (n, c) in r.types {
        NewTypeAgain(frozen, a, s, r, (n, c));
      }
      if (n, c) in h.types {
        FormTypeAgain(frozen, a, s, g, r, (n, c));
      }
    }
  }

  lemma FinaliseFaithful(frozen: Classes, a: Graph, s: Graph, g: Graph)
    requires Onto(frozen, a, s, g) && Faithful(frozen, a, g) && Wf(DagOf(a)) && Wf(DagOf(s))
    ensures Faithful(frozen, Union(a, s), Finalise(frozen, Union(g, s)))
  {
    FinaliseDrifts(frozen, a, s, g);
    forall n | n in Fixed(Union(a, s)) ensures Untouched(Form(frozen, Union(a, s)), Finalise(frozen, Union(g, s)), n) {
      UntouchedAgain(frozen, a, s, g, n);
    }
  }
}
