/** The composition graph and the year slicer, which mints the leaf and ancestor year
    slices of every time-stamped instance. */
module YearSlicer {
  import opened Vocabulary
  import opened Closure
  import opened Hierarchy
  import opened Reach

  /** An axis is the strategy that combines its slices. */
  datatype Axis = YearAxis | ValueAxis(name: string)

  /** The composition graph: one relation per predicate. */
  datatype Graph = Graph(
    types: set<(Node, Cls)>,
    when: map<Node, Scope>,
    level: map<Node, Level>,
    parts: map<Node, seq<Edge>>,
    quality: map<(Node, Node), Quality>,
    depth: map<Node, nat>,
    sub: set<(Cls, Cls)>,
    sliceOf: set<(Cls, Cls)>,
    axis: set<(Cls, Axis)>,
    scope: set<(Cls, Scope)>)

  const EMPTY: Graph := Graph({}, map[], map[], map[], map[], map[], {}, {}, {}, {})

  function Union(g: Graph, h: Graph): Graph {
    Graph(g.types + h.types, g.when + h.when, g.level + h.level, g.parts + h.parts, g.quality + h.quality,
          g.depth + h.depth, g.sub + h.sub, g.sliceOf + h.sliceOf, g.axis + h.axis, g.scope + h.scope)
  }

  function TypesAt(g: Graph, n: Node): set<Cls> {
    set e {:trigger e in g.types} | e in g.types && e.0 == n :: e.1
  }

  /** What a slicer derives: new class triples and new types of instances. */
  datatype Slices = Slices(
    types: set<(Node, Cls)>,
    sub: set<(Cls, Cls)>,
    sliceOf: set<(Cls, Cls)>,
    axis: set<(Cls, Axis)>,
    scope: set<(Cls, Scope)>)

  function Apply(g: Graph, s: Slices): Graph {
    g.(types := g.types + s.types, sub := g.sub + s.sub, sliceOf := g.sliceOf + s.sliceOf,
       axis := g.axis + s.axis, scope := g.scope + s.scope)
  }

  // ---- what `derive` produces, for any graph ---------------------------------------------

  /** A type triple that mints a leaf slice: its instance has a time, its class is not a
      level root and is not itself a year slice. */
  predicate Mints(g: Graph, e: (Node, Cls)) {
    e in g.types && e.0 in g.when && e.1 !in LEVEL_ROOTS && (e.1, YearAxis) !in g.axis
  }

  /** Leaf slices, as (base, scope). */
  function Minted(g: Graph): set<(Cls, Scope)> {
    set e {:trigger e in g.types} | e in g.types && Mints(g, e) :: (e.1, g.when[e.0])
  }

  function MintedTypes(g: Graph): set<(Node, Cls)> {
    set e {:trigger e in g.types} | e in g.types && Mints(g, e) :: (e.0, Slice(e.1, g.when[e.0]))
  }

  /** The edge from each slice of `made` to the class it slices. */
  function Downs(made: set<(Cls, Scope)>): set<(Cls, Cls)> {
    set m {:trigger m in made} | m in made :: (Slice(m.0, m.1), m.0)
  }

  function Axes(made: set<(Cls, Scope)>): set<(Cls, Axis)> {
    set m {:trigger m in made} | m in made :: (Slice(m.0, m.1), YearAxis)
  }

  function Scopes(made: set<(Cls, Scope)>): set<(Cls, Scope)> {
    set m {:trigger m in made} | m in made :: (Slice(m.0, m.1), m.1)
  }

  function LeafSlices(g: Graph): Slices {
    Slices(MintedTypes(g), Downs(Minted(g)), Downs(Minted(g)), Axes(Minted(g)), Scopes(Minted(g)))
  }

  function Timed(g: Graph): set<Cls> {
    set e {:trigger e in g.scope} | e in g.scope :: e.0
  }

  /** Time-scoped slices with their scope and their timeless base. */
  function Entries(g: Graph): set<(Cls, Cls, Scope)> {
    set e, b {:trigger e in g.scope, b in g.sliceOf}
        | e in g.scope && b in g.sliceOf && b.0 == e.0 && b.1 !in Timed(g) :: (e.0, b.1, e.1)
  }

  function Child(slc: Cls, base: Cls, x: Cls, t: Scope): Cls {
    if x == base then slc else Slice(x, t)
  }

  /** Child slice to parent slice, for each taxonomy edge out of a visited class. */
  function EdgesFrom(tax: set<(Cls, Cls)>, slc: Cls, base: Cls, t: Scope, seen: set<Cls>): set<(Cls, Cls)> {
    set e {:trigger e in tax} | e in tax && e.0 in seen :: (Child(slc, base, e.0, t), Slice(e.1, t))
  }

  function MadeFrom(tax: set<(Cls, Cls)>, t: Scope, seen: set<Cls>): set<(Cls, Scope)> {
    set p | p in Image(tax, seen) :: (p, t)
  }

  /** The walk visits the base and everything above it. */
  function WalkEdges(tax: set<(Cls, Cls)>, slc: Cls, base: Cls, t: Scope): set<(Cls, Cls)> {
    EdgesFrom(tax, slc, base, t, Closure.Reach(tax, {base}))
  }

  /** The ancestor slices made on the walk. */
  function WalkMade(tax: set<(Cls, Cls)>, base: Cls, t: Scope): set<(Cls, Scope)> {
    MadeFrom(tax, t, Closure.Reach(tax, {base}))
  }

  lemma FromUnion(tax: set<(Cls, Cls)>, slc: Cls, base: Cls, t: Scope, a: set<Cls>, b: set<Cls>)
    ensures EdgesFrom(tax, slc, base, t, a + b) == EdgesFrom(tax, slc, base, t, a) + EdgesFrom(tax, slc, base, t, b)
    ensures MadeFrom(tax, t, a + b) == MadeFrom(tax, t, a) + MadeFrom(tax, t, b)
  {
    assert Image(tax, a + b) == Image(tax, a) + Image(tax, b);
  }

  function AncestorEdges(tax: set<(Cls, Cls)>, entries: set<(Cls, Cls, Scope)>): set<(Cls, Cls)> {
    set n, e {:trigger n in entries, e in WalkEdges(tax, n.0, n.1, n.2)}
        | n in entries && e in WalkEdges(tax, n.0, n.1, n.2) :: e
  }

  function AncestorsMade(tax: set<(Cls, Cls)>, entries: set<(Cls, Cls, Scope)>): set<(Cls, Scope)> {
    set n, m {:trigger n in entries, m in WalkMade(tax, n.1, n.2)} | n in entries && m in WalkMade(tax, n.1, n.2) :: m
  }

  /** `YearSlicer.derive`: the leaf slices, then the ancestor slices over graph and leaves. */
  function Derived(frozen: set<(Cls, Cls)>, g: Graph): Slices {
    var leaf := LeafSlices(g);
    var g1 := Apply(g, leaf);
    var tax := Taxonomy(frozen + g1.sub);
    var made := AncestorsMade(tax, Entries(g1));
    Slices(leaf.types, leaf.sub + AncestorEdges(tax, Entries(g1)) + Downs(made), leaf.sliceOf + Downs(made),
           leaf.axis + Axes(made), leaf.scope + Scopes(made))
  }

  // ---- the loops ------------------------------------------------------------------------------

  /** The stack walk up the taxonomy from one slice's base. */
  method WalkUp(tax: set<(Cls, Cls)>, slc: Cls, base: Cls, t: Scope)
    returns (edges: set<(Cls, Cls)>, made: set<(Cls, Scope)>)
    ensures edges == WalkEdges(tax, slc, base, t)
    ensures made == WalkMade(tax, base, t)
  {
    edges, made := {}, {};
    var stack, seen := [base], {};
    ghost var reach := Closure.Reach(tax, {base});
    while stack != []
      invariant seen <= reach && forall x :: x in stack ==> x in reach
      invariant base in seen || base in stack
      invariant forall e :: e in tax && e.0 in seen ==> e.1 in seen || e.1 in stack
      invariant edges == EdgesFrom(tax, slc, base, t, seen) && made == MadeFrom(tax, t, seen)
      decreases reach - seen, |stack|
    {
      var x, rest := stack[|stack| - 1], stack[..|stack| - 1];
      assert stack == rest + [x];
      if x in seen {
        stack := rest;
      } else {
        var parents := Image(tax, {x});
        assert parents <= Image(tax, reach);
        FromUnion(tax, slc, base, t, seen, {x});
        edges := edges + EdgesFrom(tax, slc, base, t, {x});
        made := made + MadeFrom(tax, t, {x});
        seen := seen + {x};
        stack := PushAll(rest, parents);
      }
    }
    assert Closed(tax, seen);
    ReachLeast(tax, {base}, seen);
    assert seen == reach;
  }

  method MintLeaves(g: Graph) returns (leaf: Slices)
    ensures leaf == LeafSlices(g)
  {
    var types, made := {}, {};
    var todo := g.types;
    while todo != {}
      invariant todo <= g.types
      invariant types == set e | e in g.types - todo && Mints(g, e) :: (e.0, Slice(e.1, g.when[e.0]))
      invariant made == set e | e in g.types - todo && Mints(g, e) :: (e.1, g.when[e.0])
      decreases todo
    {
      var e :| e in todo;
      if e.0 in g.when && e.1 !in LEVEL_ROOTS && (e.1, YearAxis) !in g.axis {
        types, made := types + {(e.0, Slice(e.1, g.when[e.0]))}, made + {(e.1, g.when[e.0])};
      }
      todo := todo - {e};
    }
    assert types == MintedTypes(g) && made == Minted(g);
    leaf := Slices(types, Downs(made), Downs(made), Axes(made), Scopes(made));
  }

  lemma OneEntryMore(tax: set<(Cls, Cls)>, entries: set<(Cls, Cls, Scope)>, n: (Cls, Cls, Scope))
    ensures AncestorEdges(tax, entries + {n}) == AncestorEdges(tax, entries) + WalkEdges(tax, n.0, n.1, n.2)
    ensures AncestorsMade(tax, entries + {n}) == AncestorsMade(tax, entries) + WalkMade(tax, n.1, n.2)
  {
    var more := entries + {n};
    assert n in more && forall m :: m in entries ==> m in more;
    assert forall m :: m in more ==> m in entries || m == n;
  }

  /** `YearSlicer.derive`. */
  method Derive(frozen: set<(Cls, Cls)>, g: Graph) returns (out: Slices)
    ensures out == Derived(frozen, g)
  {
    var leaf := MintLeaves(g);
    var g1 := Apply(g, leaf);
    var tax := Taxonomy(frozen + g1.sub);
    var edges, made := {}, {};
    var todo := Entries(g1);
    while todo != {}
      invariant todo <= Entries(g1)
      invariant edges == AncestorEdges(tax, Entries(g1) - todo)
      invariant made == AncestorsMade(tax, Entries(g1) - todo)
      decreases todo
    {
      var n :| n in todo;
      var es, ms := WalkUp(tax, n.0, n.1, n.2);
      OneEntryMore(tax, Entries(g1) - todo, n);
      assert Entries(g1) - (todo - {n}) == Entries(g1) - todo + {n};
      edges, made, todo := edges + es, made + ms, todo - {n};
    }
    assert Entries(g1) - todo == Entries(g1);
    out := Slices(leaf.types, leaf.sub + edges + Downs(made), leaf.sliceOf + Downs(made),
                  leaf.axis + Axes(made), leaf.scope + Scopes(made));
  }
}
