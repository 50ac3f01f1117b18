/** Year slicing in closed form: finalising is a closure operator, so slicing commutes with
    adding sources, is idempotent, and completes the taxonomy at every scope. */
module YearForm {
  import opened Vocabulary
  import opened Closure
  import opened Hierarchy
  import opened YearSlicer

  /** Authored content: instances typed by timeless classes, no slice yet. */
  ghost predicate Plain(g: Graph) {
    && (forall e {:trigger e in g.types} :: e in g.types ==> e.0 in g.level && e.1.Named?)
    && (forall n :: n in g.when ==> n in g.level)
    && (forall n :: n in g.parts ==> n in g.level)
    && (forall e {:trigger e in g.sub} :: e in g.sub ==> e.0.Named? && e.1.Named?)
    && g.sliceOf == {}
    && (forall e {:trigger e in g.axis} :: e in g.axis ==> e.0.Named? && e.1 != YearAxis)
    && g.scope == {}
  }

  ghost predicate Timeless(edges: set<(Cls, Cls)>) {
    forall e {:trigger e in edges} :: e in edges ==> e.0.Named? && e.1.Named?
  }

  function Tax(frozen: set<(Cls, Cls)>, g: Graph): set<(Cls, Cls)> {
    Taxonomy(frozen + g.sub)
  }

  predicate IsStamp(g: Graph, e: (Node, Cls)) {
    e in g.types && e.0 in g.when && e.1 !in LEVEL_ROOTS
  }

  /** The (class, scope) pairs the authored instances are stamped with. */
  function Stamped(g: Graph): set<(Cls, Scope)> {
    set e {:trigger e in g.types} | e in g.types && IsStamp(g, e) :: (e.1, g.when[e.0])
  }

  function StampedTypes(g: Graph): set<(Node, Cls)> {
    set e {:trigger e in g.types} | e in g.types && IsStamp(g, e) :: (e.0, Slice(e.1, g.when[e.0]))
  }

  /** Stamped classes and everything above them, at the same scope. */
  function Lift(tax: set<(Cls, Cls)>, stamps: set<(Cls, Scope)>): set<(Cls, Scope)> {
    set s, x {:trigger s in stamps, x in Closure.Reach(tax, {s.0})} | s in stamps && x in Closure.Reach(tax, {s.0}) ::
        (x, s.1)
  }

  function Lifted(frozen: set<(Cls, Cls)>, g: Graph): set<(Cls, Scope)> {
    Lift(Tax(frozen, g), Stamped(g))
  }

  /** The taxonomy, copied at each scope it is lifted to. */
  function Copies(tax: set<(Cls, Cls)>, lifted: set<(Cls, Scope)>): set<(Cls, Cls)> {
    set e, m {:trigger e in tax, m in lifted} | e in tax && m in lifted && e.0 == m.0 ::
        (Slice(e.0, m.1), Slice(e.1, m.1))
  }

  /** The finalised graph of authored content `g`. */
  function Form(frozen: set<(Cls, Cls)>, g: Graph): Graph {
    var tax, lifted := Tax(frozen, g), Lifted(frozen, g);
    g.(types := g.types + StampedTypes(g),
       sub := g.sub + Downs(lifted) + Copies(tax, lifted),
       sliceOf := g.sliceOf + Downs(lifted),
       axis := g.axis + Axes(lifted),
       scope := g.scope + Scopes(lifted))
  }

  /** One step of the store: the year slicer's triples are folded into the graph. */
  function Finalise(frozen: set<(Cls, Cls)>, g: Graph): Graph {
    Apply(g, Derived(frozen, g))
  }

  ghost predicate Disjoint(a: Graph, s: Graph) {
    a.level.Keys !! s.level.Keys
  }

  lemma PlainUnion(a: Graph, s: Graph)
    requires Plain(a) && Plain(s) && Disjoint(a, s)
    ensures Plain(Union(a, s))
  {
  }

  lemma LiftSelf(tax: set<(Cls, Cls)>, stamps: set<(Cls, Scope)>)
    ensures stamps <= Lift(tax, stamps)
  {
    forall s | s in stamps ensures s in Lift(tax, stamps) {
      assert s.0 in Closure.Reach(tax, {s.0});
    }
  }

  /** A reachable class is the start or one step from a reachable class. */
  lemma ReachStep<T>(edges: set<(T, T)>, x: T)
    ensures Closure.Reach(edges, {x}) == {x} + Image(edges, Closure.Reach(edges, {x}))
  {
    var r := Closure.Reach(edges, {x});
    var t := {x} + Image(edges, r);
    assert t <= r;
    assert Image(edges, t) <= Image(edges, r);
    ReachLeast(edges, {x}, t);
  }

  /** Edges out of classes that are never reached do not matter. */
  lemma ReachLocal<T>(small: set<(T, T)>, big: set<(T, T)>, x: T)
    requires small <= big
    requires forall e :: e in big && e.0 in Closure.Reach(small, {x}) ==> e in small
    ensures Closure.Reach(big, {x}) == Closure.Reach(small, {x})
  {
    assert Image(big, Closure.Reach(small, {x})) <= Image(small, Closure.Reach(small, {x}));
    ReachLeast(big, {x}, Closure.Reach(small, {x}));
    ReachMonotone(small, {x}, big, {x});
  }

  /** The graph a store holds when a source arrives: finalised content plus the source. */
  ghost predicate Incoming(frozen: set<(Cls, Cls)>, a: Graph, s: Graph, g: Graph) {
    && Plain(a) && Plain(s) && Disjoint(a, s) && Timeless(frozen)
    && g == Union(Form(frozen, a), s)
  }

  lemma UnionStamps(a: Graph, s: Graph)
    requires Plain(a) && Plain(s) && Disjoint(a, s)
    ensures Stamped(Union(a, s)) == Stamped(a) + Stamped(s)
    ensures StampedTypes(Union(a, s)) == StampedTypes(a) + StampedTypes(s)
  {
    forall e ensures IsStamp(Union(a, s), e) <==> IsStamp(a, e) || IsStamp(s, e)
      ensures IsStamp(a, e) ==> Union(a, s).when[e.0] == a.when[e.0]
      ensures IsStamp(s, e) ==> Union(a, s).when[e.0] == s.when[e.0]
    {
    }
  }

  /** A minted leaf type names a year slice the store already marks. */
  lemma StampedIsSliced(frozen: set<(Cls, Cls)>, a: Graph, e: (Node, Cls))
    requires e in StampedTypes(a)
    ensures (e.1, YearAxis) in Axes(Lifted(frozen, a)) && e.1.Slice?
  {
    var o :| o in a.types && IsStamp(a, o) && e == (o.0, Slice(o.1, a.when[o.0]));
    LiftSelf(Tax(frozen, a), Stamped(a));
    assert (o.1, a.when[o.0]) in Lifted(frozen, a);
  }

  /** On the incoming graph the slicer mints exactly the stamps of all authored content. */
  lemma MintedIsStamped(frozen: set<(Cls, Cls)>, a: Graph, s: Graph, g: Graph)
    requires Incoming(frozen, a, s, g)
    ensures Minted(g) == Stamped(Union(a, s))
    ensures MintedTypes(g) == StampedTypes(Union(a, s))
  {
    forall e ensures Mints(g, e) <==> IsStamp(Union(a, s), e) {
      assert Mints(g, e) <==> IsStamp(Union(a, s), e) by {
        if e in StampedTypes(a) {
          StampedIsSliced(frozen, a, e);
        } else if e.1.Named? {
          assert (e.1, YearAxis) !in g.axis;
        }
      }
    }
    SameStamps(g, Union(a, s));
  }

  lemma SameStamps(g: Graph, u: Graph)
    requires g.when == u.when && forall e :: Mints(g, e) <==> IsStamp(u, e)
    ensures Minted(g) == Stamped(u) && MintedTypes(g) == StampedTypes(u)
  {
    assert forall e :: Mints(g, e) ==> e in g.types;
    assert forall e :: IsStamp(u, e) ==> e in u.types;
  }

  lemma SliceTriplesUnion(a: set<(Cls, Scope)>, b: set<(Cls, Scope)>)
    ensures Downs(a + b) == Downs(a) + Downs(b)
    ensures Axes(a + b) == Axes(a) + Axes(b)
    ensures Scopes(a + b) == Scopes(a) + Scopes(b)
  {
  }

  /** From timeless classes the incoming graph's taxonomy is the authored one. */
  lemma TaxonomyAtBases(frozen: set<(Cls, Cls)>, a: Graph, s: Graph, g: Graph)
    requires Incoming(frozen, a, s, g)
    ensures var tax := Taxonomy(frozen + Apply(g, LeafSlices(g)).sub);
            && Tax(frozen, Union(a, s)) <= tax
            && forall e :: e in tax && e.0.Named? ==> e in Tax(frozen, Union(a, s))
  {
  }

  lemma ReachNamed(tax: set<(Cls, Cls)>, x: Cls)
    requires Timeless(tax) && x.Named?
    ensures forall y :: y in Closure.Reach(tax, {x}) ==> y.Named?
  {
    ReachTargets(tax, {x});
  }

  lemma EntriesFrom(g: Graph, authored: set<(Cls, Cls)>, all: set<(Cls, Scope)>)
    requires g.scope == Scopes(all) && g.sliceOf == authored + Downs(all)
    requires Timeless(authored) && forall m :: m in all ==> m.0.Named?
    ensures Entries(g) == set m | m in all :: (Slice(m.0, m.1), m.0, m.1)
  {
    assert forall c :: c in Timed(g) ==> c.Slice?;
    forall m | m in all ensures (Slice(m.0, m.1), m.0, m.1) in Entries(g) {
      assert (Slice(m.0, m.1), m.1) in g.scope && (Slice(m.0, m.1), m.0) in g.sliceOf;
    }
    forall n | n in Entries(g) ensures n.1 == n.0.base && n.2 == n.0.scope && (n.1, n.2) in all {
      var e, b :| e in g.scope && b in g.sliceOf && b.0 == e.0 && n == (e.0, b.1, e.1);
    }
  }

  lemma Regroup<T>(a: set<T>, x: set<T>, s: set<T>, y: set<T>)
    ensures a + x + s + y == a + s + (x + y)
  {
  }

  lemma Absorb<T>(a: set<T>, x: set<T>, s: set<T>, y: set<T>)
    requires x <= y
    ensures a + x + s + y == a + s + y
  {
  }

  /** The class triples of the incoming graph once its leaf slices are minted. */
  lemma WithLeaves(frozen: set<(Cls, Cls)>, a: Graph, s: Graph, g: Graph)
    requires Incoming(frozen, a, s, g)
    ensures var g1, all := Apply(g, LeafSlices(g)), Lifted(frozen, a) + Stamped(Union(a, s));
            && g1.scope == {} + {} + Scopes(all)
            && g1.sliceOf == a.sliceOf + s.sliceOf + Downs(all)
            && g1.axis == a.axis + s.axis + Axes(all)
            && g1.types == a.types + s.types + StampedTypes(Union(a, s))
  {
    var known, minted := Lifted(frozen, a), Stamped(Union(a, s));
    MintedIsStamped(frozen, a, s, g);
    SliceTriplesUnion(known, minted);
    Regroup(a.scope, Scopes(known), s.scope, Scopes(minted));
    Regroup(a.sliceOf, Downs(known), s.sliceOf, Downs(minted));
    Regroup(a.axis, Axes(known), s.axis, Axes(minted));
    UnionStamps(a, s);
    Absorb(a.types, StampedTypes(a), s.types, StampedTypes(Union(a, s)));
  }

  /** The slicer walks from every slice it knows: old ones and newly minted ones. */
  lemma EntriesOfIncoming(frozen: set<(Cls, Cls)>, a: Graph, s: Graph, g: Graph)
    requires Incoming(frozen, a, s, g)
    ensures Entries(Apply(g, LeafSlices(g)))
              == set m | m in Lifted(frozen, a) + Stamped(Union(a, s)) :: (Slice(m.0, m.1), m.0, m.1)
  {
    WithLeaves(frozen, a, s, g);
    LiftedNamed(frozen, a);
    PlainUnion(a, s);
    LiftedNamed(frozen, Union(a, s));
    EntriesFrom(Apply(g, LeafSlices(g)), a.sliceOf + s.sliceOf, Lifted(frozen, a) + Stamped(Union(a, s)));
  }

  lemma LiftedNamed(frozen: set<(Cls, Cls)>, g: Graph)
    requires Plain(g) && Timeless(frozen)
    ensures forall m :: m in Lifted(frozen, g) || m in Stamped(g) ==> m.0.Named?
  {
    forall m | m in Lifted(frozen, g) ensures m.0.Named? {
      var s :| s in Stamped(g) && m.0 in Closure.Reach(Tax(frozen, g), {s.0}) && m.1 == s.1;
      ReachNamed(Tax(frozen, g), s.0);
    }
  }

  lemma ReachAtBase(tax: set<(Cls, Cls)>, authored: set<(Cls, Cls)>, x: Cls)
    requires authored <= tax && Timeless(authored) && x.Named?
    requires forall e :: e in tax && e.0.Named? ==> e in authored
    ensures Closure.Reach(tax, {x}) == Closure.Reach(authored, {x})
  {
    ReachNamed(authored, x);
    ReachLocal(authored, tax, x);
  }

  /** Lifting again from lifted classes adds nothing. */
  lemma LiftAgain(small: set<(Cls, Cls)>, tax: set<(Cls, Cls)>, few: set<(Cls, Scope)>, stamps: set<(Cls, Scope)>)
    requires small <= tax && few <= stamps
    ensures Lift(small, few) <= Lift(tax, stamps)
    ensures Lift(tax, Lift(small, few) + stamps) == Lift(tax, stamps)
  {
    forall m | m in Lift(small, few) ensures m in Lift(tax, stamps) {
      var s :| s in few && m.0 in Closure.Reach(small, {s.0}) && m.1 == s.1;
      ReachMonotone(small, {s.0}, tax, {s.0});
    }
    forall m | m in Lift(tax, Lift(small, few) + stamps) ensures m in Lift(tax, stamps) {
      var x :| x in Lift(small, few) + stamps && m.0 in Closure.Reach(tax, {x.0}) && m.1 == x.1;
      LiftSelf(tax, stamps);
      var s :| s in stamps && x.0 in Closure.Reach(tax, {s.0}) && x.1 == s.1;
      ReachAbsorbs(tax, {s.0}, x.0);
    }
    assert Lift(tax, stamps) <= Lift(tax, Lift(small, few) + stamps);
  }

  function EntriesAt(all: set<(Cls, Scope)>): set<(Cls, Cls, Scope)> {
    set m {:trigger m in all} | m in all :: (Slice(m.0, m.1), m.0, m.1)
  }

  ghost predicate AgreeAtBases(tax: set<(Cls, Cls)>, authored: set<(Cls, Cls)>) {
    && authored <= tax && Timeless(authored)
    && forall e {:trigger e in tax} :: e in tax && e.0.Named? ==> e in authored
  }

  lemma MadeWithin(tax: set<(Cls, Cls)>, authored: set<(Cls, Cls)>, all: set<(Cls, Scope)>, b: (Cls, Scope))
    requires AgreeAtBases(tax, authored) && b in all && b.0.Named?
    ensures WalkMade(tax, b.0, b.1) <= Lift(authored, all)
  {
    ReachAtBase(tax, authored, b.0);
    ReachStep(tax, b.0);
    forall m | m in WalkMade(tax, b.0, b.1) ensures m in Lift(authored, all) {
      assert m.0 in Closure.Reach(authored, {b.0});
    }
  }

  /** Walking up from every entry makes every slice above, and nothing else. */
  lemma MadeIsLifted(tax: set<(Cls, Cls)>, authored: set<(Cls, Cls)>, all: set<(Cls, Scope)>)
    requires AgreeAtBases(tax, authored) && forall m :: m in all ==> m.0.Named?
    ensures all + AncestorsMade(tax, EntriesAt(all)) == Lift(authored, all)
  {
    LiftSelf(authored, all);
    forall n | n in EntriesAt(all) ensures WalkMade(tax, n.1, n.2) <= Lift(authored, all) {
      MadeWithin(tax, authored, all, (n.1, n.2));
    }
    forall m | m in Lift(authored, all) ensures m in all || m in AncestorsMade(tax, EntriesAt(all)) {
      assert m in all || m in AncestorsMade(tax, EntriesAt(all)) by {
        var s :| s in all && m.0 in Closure.Reach(authored, {s.0}) && m.1 == s.1;
        ReachAtBase(tax, authored, s.0);
        ReachStep(tax, s.0);
        if m.0 != s.0 {
          assert (Slice(s.0, s.1), s.0, s.1) in EntriesAt(all);
          assert m in WalkMade(tax, s.0, s.1);
        }
      }
    }
  }

  lemma EdgeIsCopy(tax: set<(Cls, Cls)>, authored: set<(Cls, Cls)>, all: set<(Cls, Scope)>, b: (Cls, Scope),
                   c: (Cls, Cls))
    requires AgreeAtBases(tax, authored) && b in all && b.0.Named?
    requires c in WalkEdges(tax, Slice(b.0, b.1), b.0, b.1)
    ensures c in Copies(authored, Lift(authored, all))
  {
    ReachAtBase(tax, authored, b.0);
    ReachNamed(authored, b.0);
    var e :| e in tax && e.0 in Closure.Reach(tax, {b.0})
        && c == (Child(Slice(b.0, b.1), b.0, e.0, b.1), Slice(e.1, b.1));
    assert (e.0, b.1) in Lift(authored, all);
  }

  /** Walking up from every entry copies every taxonomy edge above, at its scope. */
  lemma EdgesAreCopies(tax: set<(Cls, Cls)>, authored: set<(Cls, Cls)>, all: set<(Cls, Scope)>)
    requires AgreeAtBases(tax, authored) && forall m :: m in all ==> m.0.Named?
    ensures AncestorEdges(tax, EntriesAt(all)) == Copies(authored, Lift(authored, all))
  {
    forall n, c | n in EntriesAt(all) && c in WalkEdges(tax, n.0, n.1, n.2)
      ensures c in Copies(authored, Lift(authored, all))
    {
      EdgeIsCopy(tax, authored, all, (n.1, n.2), c);
    }
    forall c | c in Copies(authored, Lift(authored, all)) ensures c in AncestorEdges(tax, EntriesAt(all)) {
      assert c in AncestorEdges(tax, EntriesAt(all)) by {
        var e, m :| e in authored && m in Lift(authored, all) && e.0 == m.0 && c == (Slice(e.0, m.1), Slice(e.1, m.1));
        var s :| s in all && m.0 in Closure.Reach(authored, {s.0}) && m.1 == s.1;
        ReachAtBase(tax, authored, s.0);
        var n := (Slice(s.0, s.1), s.0, s.1);
        assert n in EntriesAt(all);
        assert c == (Child(n.0, n.1, e.0, n.2), Slice(e.1, n.2));
        assert c in WalkEdges(tax, n.0, n.1, n.2);
      }
    }
  }

  lemma CopiesMonotone(small: set<(Cls, Cls)>, tax: set<(Cls, Cls)>, few: set<(Cls, Scope)>, many: set<(Cls, Scope)>)
    requires small <= tax && few <= many
    ensures Copies(small, few) <= Copies(tax, many)
  {
  }

  /** What the slicer derives on the incoming graph, in closed form. */
  lemma DerivedOnIncoming(frozen: set<(Cls, Cls)>, a: Graph, s: Graph, g: Graph)
    requires Incoming(frozen, a, s, g)
    ensures var g1 := Apply(g, LeafSlices(g));
            var tax := Taxonomy(frozen + g1.sub);
            var u := Union(a, s);
            && Lifted(frozen, a) <= Lifted(frozen, u)
            && Lifted(frozen, a) + Minted(g) + AncestorsMade(tax, Entries(g1)) == Lifted(frozen, u)
            && AncestorEdges(tax, Entries(g1)) == Copies(Tax(frozen, u), Lifted(frozen, u))
  {
    var g1, u := Apply(g, LeafSlices(g)), Union(a, s);
    var tax, all := Taxonomy(frozen + g1.sub), Lifted(frozen, a) + Stamped(u);
    MintedIsStamped(frozen, a, s, g);
    EntriesOfIncoming(frozen, a, s, g);
    TaxonomyAtBases(frozen, a, s, g);
    PlainUnion(a, s);
    LiftedNamed(frozen, a);
    LiftedNamed(frozen, u);
    UnionStamps(a, s);
    LiftAgain(Tax(frozen, a), Tax(frozen, u), Stamped(a), Stamped(u));
    assert Entries(g1) == EntriesAt(all);
    MadeIsLifted(tax, Tax(frozen, u), all);
    EdgesAreCopies(tax, Tax(frozen, u), all);
  }

  lemma Rejoin<T>(a: set<T>, x: set<T>, s: set<T>, y: set<T>, z: set<T>, all: set<T>)
    requires x + y + z == all
    ensures a + x + s + (y + z) == a + s + all
  {
  }

  /** Finalising what a store holds plus a new source is finalising everything from scratch. */
  lemma FinaliseIncoming(frozen: set<(Cls, Cls)>, a: Graph, s: Graph, g: Graph)
    requires Incoming(frozen, a, s, g)
    ensures Finalise(frozen, g) == Form(frozen, Union(a, s))
  {
    var g1, u := Apply(g, LeafSlices(g)), Union(a, s);
    var tax := Taxonomy(frozen + g1.sub);
    var known, minted, made := Lifted(frozen, a), Minted(g), AncestorsMade(tax, Entries(g1));
    DerivedOnIncoming(frozen, a, s, g);
    SliceTriplesUnion(known, minted);
    SliceTriplesUnion(known + minted, made);
    Rejoin(a.sliceOf, Downs(known), s.sliceOf, Downs(minted), Downs(made), Downs(Lifted(frozen, u)));
    Rejoin(a.axis, Axes(known), s.axis, Axes(minted), Axes(made), Axes(Lifted(frozen, u)));
    Rejoin(a.scope, Scopes(known), s.scope, Scopes(minted), Scopes(made), Scopes(Lifted(frozen, u)));
    UnionStamps(a, s);
    MintedIsStamped(frozen, a, s, g);
    Absorb(a.types, StampedTypes(a), s.types, StampedTypes(u));
    CopiesMonotone(Tax(frozen, a), Tax(frozen, u), known, Lifted(frozen, u));
    FinalSub(a.sub, Downs(known), Copies(Tax(frozen, a), known), s.sub, Downs(minted),
             Copies(Tax(frozen, u), Lifted(frozen, u)), Downs(made), Downs(Lifted(frozen, u)));
  }

  lemma FinalSub<T>(a: set<T>, x: set<T>, c: set<T>, s: set<T>, y: set<T>, d: set<T>, z: set<T>, all: set<T>)
    requires x + y + z == all && c <= d
    ensures a + x + c + s + (y + d + z) == a + s + all + d
  {
  }

  lemma UnionEmptyRight(g: Graph)
    ensures Union(g, EMPTY) == g
  {
    assert g.when + EMPTY.when == g.when && g.level + EMPTY.level == g.level && g.depth + EMPTY.depth == g.depth;
    assert g.parts + EMPTY.parts == g.parts && g.quality + EMPTY.quality == g.quality;
  }

  lemma FormEmpty(frozen: set<(Cls, Cls)>)
    ensures Form(frozen, EMPTY) == EMPTY
  {
    assert Stamped(EMPTY) == {};
    assert Lifted(frozen, EMPTY) == {};
  }

  /** The empty store, then one source: the first build. */
  lemma FinaliseFirst(frozen: set<(Cls, Cls)>, s: Graph)
    requires Plain(s) && Timeless(frozen)
    ensures Finalise(frozen, s) == Form(frozen, s)
  {
    FormEmpty(frozen);
    FinaliseIncoming(frozen, EMPTY, s, s);
  }

  /** Year slicing is idempotent: a second `derive` adds no triple. */
  lemma FinaliseIdempotent(frozen: set<(Cls, Cls)>, a: Graph)
    requires Plain(a) && Timeless(frozen)
    ensures Finalise(frozen, Form(frozen, a)) == Form(frozen, a)
  {
    UnionEmptyRight(Form(frozen, a));
    UnionEmptyRight(a);
    FinaliseIncoming(frozen, a, EMPTY, Form(frozen, a));
  }

  // ---- slicing commutes with the taxonomy -----------------------------------------------

  /** Each taxonomy edge at or above a stamped class is copied at the stamp's scope, both
      slices point down to their timeless classes, and the copied parent is known. */
  lemma SlicesFollowTaxonomy(frozen: set<(Cls, Cls)>, g: Graph, x: Cls, p: Cls, t: Scope)
    requires (x, t) in Lifted(frozen, g) && (x, p) in Tax(frozen, g)
    ensures var f := Form(frozen, g);
            && (p, t) in Lifted(frozen, g)
            && (Slice(x, t), Slice(p, t)) in f.sub
            && (Slice(p, t), p) in f.sub && (Slice(p, t), p) in f.sliceOf
            && (Slice(p, t), t) in f.scope && (Slice(p, t), YearAxis) in f.axis
  {
    var s :| s in Stamped(g) && x in Closure.Reach(Tax(frozen, g), {s.0}) && t == s.1;
    assert p in Image(Tax(frozen, g), Closure.Reach(Tax(frozen, g), {s.0}));
    assert (p, t) in Lifted(frozen, g);
    assert (Slice(x, t), Slice(p, t)) in Copies(Tax(frozen, g), Lifted(frozen, g));
    assert (Slice(p, t), p) in Downs(Lifted(frozen, g));
  }

  /** A set closed under a copy of the taxonomy at `t` holds every class above and its slice. */
  lemma CopyClosure(tax: set<(Cls, Cls)>, b: Cls, t: Scope, edges: set<(Cls, Cls)>, r: set<Cls>)
    requires Slice(b, t) in r && Closed(edges, r)
    requires forall e :: e in tax && e.0 in Closure.Reach(tax, {b}) ==> (Slice(e.0, t), Slice(e.1, t)) in edges
    requires forall x :: x in Closure.Reach(tax, {b}) ==> (Slice(x, t), x) in edges
    ensures forall x :: x in Closure.Reach(tax, {b}) ==> Slice(x, t) in r && x in r
  {
    var above := Closure.Reach(tax, {b});
    var good := set x | x in above && Slice(x, t) in r;
    forall e | e in tax && e.0 in good ensures e.1 in good {
      assert Slice(e.1, t) in Image(edges, r);
      assert e.1 in Image(tax, above);
    }
    ReachLeast(tax, {b}, good);
    forall x | x in above ensures x in r {
      assert x in Image(edges, r);
    }
  }

  /** Above a stamped class, whatever is closed under the store's own edges and holds the
      leaf slice holds every class above and its slice. */
  lemma SliceClosure(frozen: set<(Cls, Cls)>, g: Graph, b: Cls, t: Scope, r: set<Cls>)
    requires (b, t) in Stamped(g) && Slice(b, t) in r && Closed(Form(frozen, g).sub, r)
    ensures forall x :: x in Closure.Reach(Tax(frozen, g), {b}) ==> Slice(x, t) in r && x in r
  {
    var tax, edges := Tax(frozen, g), Form(frozen, g).sub;
    forall x | x in Closure.Reach(tax, {b}) ensures (Slice(x, t), x) in edges {
      assert (x, t) in Lifted(frozen, g);
    }
    forall e | e in tax && e.0 in Closure.Reach(tax, {b}) ensures (Slice(e.0, t), Slice(e.1, t)) in edges {
      assert (e.0, t) in Lifted(frozen, g);
      SlicesFollowTaxonomy(frozen, g, e.0, e.1, t);
    }
    CopyClosure(tax, b, t, edges, r);
  }

  /** A stamped instance is entailed into the slice of every class above its own. */
  lemma InstanceEntailed(frozen: set<(Cls, Cls)>, g: Graph, e: (Node, Cls), a: Cls)
    requires IsStamp(g, e) && a in Closure.Reach(Tax(frozen, g), {e.1})
    ensures var t, f := g.when[e.0], Form(frozen, g);
            (e.0, Slice(e.1, t)) in f.types && Slice(a, t) in Closure.Reach(f.sub, {Slice(e.1, t)})
  {
    var t := g.when[e.0];
    assert (e.1, t) in Stamped(g);
    SliceClosure(frozen, g, e.1, t, Closure.Reach(Form(frozen, g).sub, {Slice(e.1, t)}));
  }
}
