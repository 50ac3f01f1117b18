/** The value slicer on a drifted store: it moves parts further down their leaves and leaves
    every class the aggregation reads alone, unless a root or an element shares its base. */
module DriftSlice {
  import opened Vocabulary
  import opened Closure
  import opened Reach
  import opened YearSlicer
  import opened YearForm
  import opened StoreIndex
  import opened StoreFrame
  import opened ValueSlicer
  import opened Climbing
  import opened ValueLaws
  import opened Mixing
  import opened Drift
  import Rollup

  /** No root and no element shares its class with an instance of another drivetrain, whichever
      whole the part-of map keeps. */
  ghost predicate Steady(frozen: Classes, u: Graph) {
    forall parent {:trigger IsParentMap(u, parent)} :: IsParentMap(u, parent) ==>
      forall n {:trigger Mixed(frozen, u, parent, n)} :: n in Fixed(u) ==> !Mixed(frozen, u, parent, n)
  }

  // ---- roots ------------------------------------------------------------------------------------

  lemma {:induction false} RootUp(g: Graph, parent: map<Node, Node>, n: Node, seen: set<Node>)
    requires Wf(DagOf(g)) && IsParentMap(g, parent) && n in g.level && n in g.depth
    requires forall m :: m in seen ==> m in g.depth && g.depth[m] < g.depth[n]
    ensures RootOf(parent, n, seen) in g.level && RootOf(parent, n, seen) !in parent
    decreases parent.Keys - seen
  {
    if n in parent && n !in seen {
      RootUp(g, parent, parent[n], seen + {n});
    }
  }

  /** The climb of an acyclic graph ends at an instance that is no part. */
  lemma RootIsNoPart(g: Graph, parent: map<Node, Node>, n: Node)
    requires Wf(DagOf(g)) && g.depth.Keys == g.level.Keys && IsParentMap(g, parent) && n in g.level
    ensures RootOf(parent, n, {}) in g.level && RootOf(parent, n, {}) !in PartsOf(g.parts)
  {
    RootUp(g, parent, n, {});
    assert PartsOf(g.parts) <= parent.Keys by {
      forall w, i | w in g.parts && 0 <= i < |g.parts[w]| ensures g.parts[w][i].part in parent {
        assert (g.parts[w][i].part, w) in Holders(g);
      }
    }
  }

  // ---- values ----------------------------------------------------------------------------------

  /** Edges out of classes that are never reached do not matter. */
  lemma ReachInside<T>(small: set<(T, T)>, big: set<(T, T)>, s: set<T>, inside: T -> bool)
    requires small <= big && forall e :: e in big && e !in small ==> !inside(e.0)
    requires (forall x :: x in s ==> inside(x)) && forall e :: e in small ==> inside(e.1)
    ensures Closure.Reach(big, s) == Closure.Reach(small, s)
    ensures forall x :: x in Closure.Reach(small, s) ==> inside(x)
  {
    var r := Closure.Reach(small, s);
    ReachTargets(small, s);
    forall x | x in r ensures inside(x) {
      assert x in s || x in Targets(small);
    }
    forall e | e in big && e.0 in r ensures e.1 in r {
      assert e in small;
      assert e.1 in Image(small, r);
    }
    ReachLeast(big, s, r);
    ReachMonotone(small, s, big, s);
  }

  predicate NoLeaf(c: Cls) {
    !c.ValueLeaf?
  }

  /** What a store and its drifted graph reach from classes that are no leaves. */
  lemma DriftedReach(frozen: Classes, a: Graph, g: Graph, cs: set<Cls>)
    requires Plain(a) && Timeless(frozen) && Drifted(frozen, a, g) && forall c :: c in cs ==> NoLeaf(c)
    ensures Closure.Reach(frozen + g.sub, cs) == Closure.Reach(frozen + Form(frozen, a).sub, cs)
    ensures forall c :: c in Closure.Reach(frozen + g.sub, cs) ==> NoLeaf(c)
  {
    DriftedIs(frozen, a, g);
    FormHasNoLeaf(frozen, a);
    ReachInside(frozen + Form(frozen, a).sub, frozen + g.sub, cs, NoLeaf);
  }

  lemma UntouchedTypes(frozen: Classes, a: Graph, g: Graph, n: Node)
    requires Plain(a) && Timeless(frozen) && Untouched(Form(frozen, a), g, n)
    ensures TypesAt(g, n) == TypesAt(Form(frozen, a), n) && forall c :: c in TypesAt(g, n) ==> NoLeaf(c)
  {
    FormHasNoLeaf(frozen, a);
    forall c ensures c in TypesAt(g, n) <==> c in TypesAt(Form(frozen, a), n) {
      assert c in TypesAt(g, n) <==> (n, c) in g.types;
      assert c in TypesAt(Form(frozen, a), n) <==> (n, c) in Form(frozen, a).types;
    }
  }

  /** An instance whose root kept its types spans the values it spans in the finalised content. */
  lemma ValuesKept(frozen: Classes, a: Graph, g: Graph, axis: Axis, parent: map<Node, Node>, n: Node)
    requires Plain(a) && Timeless(frozen) && Drifted(frozen, a, g)
    requires Untouched(Form(frozen, a), g, RootOf(parent, n, {}))
    ensures ValuesOf(frozen, axis, g, parent, n) == ValuesOf(frozen, axis, Form(frozen, a), parent, n)
  {
    DriftedIs(frozen, a, g);
    var root, f := RootOf(parent, n, {}), Form(frozen, a);
    UntouchedTypes(frozen, a, g, root);
    DriftedReach(frozen, a, g, TypesAt(g, root));
  }

  lemma FixedValues(frozen: Classes, a: Graph, g: Graph, axis: Axis, parent: map<Node, Node>, n: Node)
    requires Authored(a) && Timeless(frozen) && Faithful(frozen, a, g) && IsParentMap(a, parent) && n in a.level
    ensures ValuesOf(frozen, axis, g, parent, n) == ValuesOf(frozen, axis, Form(frozen, a), parent, n)
  {
    RootIsNoPart(a, parent, n);
    ValuesKept(frozen, a, g, axis, parent, n);
  }

  /** The type triple of the finalised content a triple comes from. */
  function Origin(e: (Node, Cls)): (Node, Cls) {
    (e.0, Core(e.1))
  }

  lemma SharedKept(frozen: Classes, a: Graph, g: Graph, axis: Axis, parent: map<Node, Node>, b: Cls)
    requires Authored(a) && Timeless(frozen) && Faithful(frozen, a, g) && IsParentMap(a, parent) && b.Named?
    requires b in Shared(frozen, axis, g, parent)
    ensures b in Shared(frozen, axis, Form(frozen, a), parent)
  {
    var f := Form(frozen, a);
    assert var f := Form(frozen, a);
           Spanned(frozen, axis, g, parent, g.types, b) <= Spanned(frozen, axis, f, parent, f.types, b) by {
      var f := Form(frozen, a);
      forall e, v | e in g.types && (e.1, b) in g.sliceOf && v in ValuesOf(frozen, axis, g, parent, e.0)
        ensures v in Spanned(frozen, axis, f, parent, f.types, b)
      {
        assert Origin(e) in Form(frozen, a).types && (Core(e.1), b) in Form(frozen, a).sliceOf && e.0 in a.level by {
          DriftedIs(frozen, a, g);
          var f, lifted := Form(frozen, a), Lifted(frozen, a);
          FormHasNoLeaf(frozen, a);
          assert TypeKept(f, g, e);
          FormTypes(frozen, a, Origin(e));
          if e.1.ValueLeaf? {
            assert Grown(lifted, e.1) && b == Core(e.1).base;
            DownsMember(lifted, (Core(e.1), b));
            assert f.sliceOf == {} + Downs(lifted);
          } else {
            assert (e.1, b) in f.sliceOf;
          }
        }
        FixedValues(frozen, a, g, axis, parent, e.0);
        var o := Origin(e);
        assert o in f.types && (o.1, b) in f.sliceOf && v in ValuesOf(frozen, axis, f, parent, o.0);
      }
    }
    Rollup.SubsetSize(Spanned(frozen, axis, g, parent, g.types, b), Spanned(frozen, axis, f, parent, f.types, b));
    assert Spanned(frozen, axis, f, parent, f.types, b) != {};
  }

  // ---- moving --------------------------------------------------------------------------------

  lemma NoLeafSlice(frozen: Classes, a: Graph, g: Graph, c: Cls, b: Cls)
    requires Plain(a) && Timeless(frozen) && Drifted(frozen, a, g) && NoLeaf(c) && (c, b) in g.sliceOf
    ensures (c, b) in Form(frozen, a).sliceOf && b.Named?
  {
    DriftedIs(frozen, a, g);
    FormHasNoLeaf(frozen, a);
  }

  lemma FixedSlice(frozen: Classes, a: Graph, g: Graph, n: Node, c: Cls, b: Cls)
    requires Plain(a) && Timeless(frozen) && Drifted(frozen, a, g) && Untouched(Form(frozen, a), g, n)
    requires (n, c) in g.types && (c, b) in g.sliceOf
    ensures (n, c) in Form(frozen, a).types && (c, b) in Form(frozen, a).sliceOf && b.Named?
  {
    UntouchedTypes(frozen, a, g, n);
    assert c in TypesAt(g, n) by {
      var e := (n, c);
      assert e in g.types && e.0 == n;
    }
    NoLeafSlice(frozen, a, g, c, b);
  }

  lemma StillMoves(frozen: Classes, f: Graph, parent: map<Node, Node>, r: (Node, Cls, Cls), b: Cls)
    requires (r.0, r.1) in f.types && (r.1, b) in f.sliceOf && b in Shared(frozen, DRIVETRAIN, f, parent)
    requires HasValue(frozen, DRIVETRAIN, f, parent, r.0, r.2)
    ensures r in Retyped(frozen, DRIVETRAIN, f, parent)
  {
    assert r.2 in ValuesOf(frozen, DRIVETRAIN, f, parent, r.0);
    RetypedMember(frozen, DRIVETRAIN, f, parent, r);
  }

  /** A fixed instance that moves in the drifted graph moves in the finalised content too. */
  lemma FixedMoves(frozen: Classes, a: Graph, g: Graph, parent: map<Node, Node>, r: (Node, Cls, Cls))
    requires Authored(a) && Timeless(frozen) && Faithful(frozen, a, g) && IsParentMap(a, parent)
    requires r in Retyped(frozen, DRIVETRAIN, g, parent) && r.0 in Fixed(a)
    ensures r in Retyped(frozen, DRIVETRAIN, Form(frozen, a), parent)
  {
    RetypedMember(frozen, DRIVETRAIN, g, parent, r);
    var b :| b in Shared(frozen, DRIVETRAIN, g, parent) && (r.1, b) in g.sliceOf;
    assert Untouched(Form(frozen, a), g, r.0);
    FixedSlice(frozen, a, g, r.0, r.1, b);
    SharedKept(frozen, a, g, DRIVETRAIN, parent, b);
    FixedValues(frozen, a, g, DRIVETRAIN, parent, r.0);
    StillMoves(frozen, Form(frozen, a), parent, r, b);
  }

  lemma SliceMarks(frozen: Classes, a: Graph, g: Graph, c: Cls)
    requires Drifted(frozen, a, g) && c.Slice? && IsSliceOf(Lifted(frozen, a), c)
    ensures (c, YearAxis) in g.axis && c in Timed(g)
  {
    DriftedIs(frozen, a, g);
    MarkedSlices(frozen, a, c);
    ScopeMember(Lifted(frozen, a), (c, c.scope));
    assert (c, c.scope) in Form(frozen, a).scope && (c, c.scope) in g.scope;
  }

  /** A triple to move: its class is a lifted slice of the instance, or grown from one. */
  lemma MovesGrown(frozen: Classes, a: Graph, g: Graph, parent: map<Node, Node>, r: (Node, Cls, Cls))
    requires Plain(a) && Timeless(frozen) && Drifted(frozen, a, g) && r in Retyped(frozen, DRIVETRAIN, g, parent)
    ensures (r.0, r.1) in g.types && (r.0, Core(r.1)) in Form(frozen, a).types && !r.1.Named? && Core(r.1).Slice?
    ensures Grown(Lifted(frozen, a), r.1) && (r.1, YearAxis) in g.axis && r.1 in Timed(g)
    ensures exists b :: (r.1, b) in g.sliceOf
  {
    DriftedIs(frozen, a, g);
    RetypedMember(frozen, DRIVETRAIN, g, parent, r);
    var b :| b in Shared(frozen, DRIVETRAIN, g, parent) && (r.1, b) in g.sliceOf;
    FormHasNoLeaf(frozen, a);
    assert TypeKept(Form(frozen, a), g, (r.0, r.1));
    if !r.1.ValueLeaf? {
      assert (r.1, b) in Form(frozen, a).sliceOf;
      SliceMarks(frozen, a, g, r.1);
    }
  }

  /** Every triple to move sits in a slice of its instance, or in a leaf grown from one. */
  ghost predicate MovesParts(frozen: Classes, a: Graph, g: Graph, rs: Triples) {
    && Dropped(rs) <= g.types
    && (forall r {:trigger r in rs} :: r in rs ==>
         (r.0, Core(r.1)) in Form(frozen, a).types && !r.1.Named? && Core(r.1).Slice?)
    && (forall r {:trigger r in rs} :: r in rs ==>
         Grown(Lifted(frozen, a), r.1) && (r.1, YearAxis) in g.axis && r.1 in Timed(g))
    && (forall r {:trigger r in rs} :: r in rs ==> exists b :: (r.1, b) in g.sliceOf)
  }

  lemma RetypedMovesParts(frozen: Classes, a: Graph, g: Graph, parent: map<Node, Node>)
    requires Plain(a) && Timeless(frozen) && Drifted(frozen, a, g)
    ensures MovesParts(frozen, a, g, Retyped(frozen, DRIVETRAIN, g, parent))
  {
    var rs := Retyped(frozen, DRIVETRAIN, g, parent);
    DroppedOld(frozen, DRIVETRAIN, g, parent);
    forall r | r in rs
      ensures (r.0, Core(r.1)) in Form(frozen, a).types && !r.1.Named? && Core(r.1).Slice?
      ensures Grown(Lifted(frozen, a), r.1) && (r.1, YearAxis) in g.axis && r.1 in Timed(g)
      ensures exists b :: (r.1, b) in g.sliceOf
    {
      MovesGrown(frozen, a, g, parent, r);
    }
  }

  lemma LeafEdgeFrom(g: Graph, rs: Triples, e: (Cls, Cls)) returns (r: (Node, Cls, Cls))
    requires e in LeafEdges(g, rs)
    ensures r in rs && e.0 == LeafOf(r) && (e.1 == r.1 || (r.1, e.1) in g.sliceOf)
  {
    LeafEdge(g, rs, e);
    r :| r in rs && e.0 == LeafOf(r) && (e.1 == r.1 || (r.1, e.1) in g.sliceOf);
  }

  /** What a grown class slices. */
  lemma GrownSlices(frozen: Classes, a: Graph, g: Graph, c: Cls, d: Cls)
    requires Plain(a) && Timeless(frozen) && Drifted(frozen, a, g) && (c, d) in g.sliceOf && !c.Named?
    ensures RootClass(d) == RootClass(c) && if d.Named? then Core(c).Slice? && d == Core(c).base else d in Timed(g)
    ensures !d.Named? ==> c.ValueLeaf?
  {
    DriftedIs(frozen, a, g);
    FormHasNoLeaf(frozen, a);
    if c.Slice? {
      assert (c, d) in Form(frozen, a).sliceOf;
    }
  }

  lemma TimedSlice(frozen: Classes, a: Graph, g: Graph, c: Cls)
    requires Plain(a) && Timeless(frozen) && Drifted(frozen, a, g) && c in Timed(g) && c.Slice?
    ensures IsSliceOf(Lifted(frozen, a), c)
  {
    DriftedIs(frozen, a, g);
    FormHasNoLeaf(frozen, a);
    var e :| e in g.scope && e.0 == c;
    assert e in Form(frozen, a).scope;
  }

  lemma LeafEdgeGrown(frozen: Classes, a: Graph, g: Graph, rs: Triples, e: (Cls, Cls))
    requires Plain(a) && Timeless(frozen) && Drifted(frozen, a, g) && MovesParts(frozen, a, g, rs)
    requires e in LeafEdges(g, rs)
    ensures e.0.ValueLeaf? && Grown(Lifted(frozen, a), e.0) && RootClass(e.1) == RootClass(e.0)
    ensures if e.1.Named? then e.1 == Core(e.0).base else e.1 in Timed(g)
    ensures e.1.ValueLeaf? ==> e.0.of.ValueLeaf?
  {
    var r := LeafEdgeFrom(g, rs, e);
    assert Core(LeafOf(r)) == Core(r.1);
    if e.1 != r.1 {
      GrownSlices(frozen, a, g, r.1, e.1);
    }
  }

  lemma NewLeafLeads(g: Graph, h: Graph, rs: Triples, r: (Node, Cls, Cls))
    requires LeavesLead(g) && g.sub <= h.sub && LeafEdges(g, rs) <= h.sub
    requires r in rs && (r.0, r.1) in g.types && Core(r.1).Slice?
    ensures LeafLeads(h, LeafOf(r))
  {
    var all := Closure.Reach(h.sub, {LeafOf(r)});
    assert (LeafOf(r), r.1) in LeafEdges(g, rs);
    assert r.1 in Image(h.sub, all);
    ReachAbsorbs(h.sub, {LeafOf(r)}, r.1);
    ReachMonotone(g.sub, {r.1}, h.sub, {r.1});
    assert r.1.ValueLeaf? ==> Core(r.1) in Closure.Reach(g.sub, {r.1}) by {
      var e := (r.0, r.1);
      assert e in g.types && LeafLeads(g, e.1);
    }
  }

  lemma RewriteLeads(frozen: Classes, a: Graph, g: Graph, rs: Triples)
    requires Drifted(frozen, a, g) && MovesParts(frozen, a, g, rs)
    ensures LeavesLead(Rewrite(g, DRIVETRAIN, rs))
  {
    DriftedIs(frozen, a, g);
    var h := Rewrite(g, DRIVETRAIN, rs);
    forall e | e in h.types && e.1.ValueLeaf? ensures LeafLeads(h, e.1) {
      if e in Moved(rs) {
        var r := MovedFrom(rs, e);
        assert (r.0, r.1) in Dropped(rs);
        NewLeafLeads(g, h, rs, r);
      } else {
        assert LeafLeads(g, e.1);
        ReachMonotone(g.sub, {e.1}, h.sub, {e.1});
      }
    }
  }

  /** The scope of a grown class. */
  lemma GrownScope(frozen: Classes, a: Graph, g: Graph, c: Cls, t: Scope)
    requires Plain(a) && Timeless(frozen) && Drifted(frozen, a, g) && (c, t) in g.scope && !c.Named?
    ensures Core(c).Slice? && t == Core(c).scope
  {
    DriftedIs(frozen, a, g);
    FormHasNoLeaf(frozen, a);
    if c.Slice? {
      assert (c, t) in Form(frozen, a).scope;
    }
  }

  lemma LeafScopeFrom(g: Graph, rs: Triples, e: (Cls, Scope)) returns (r: (Node, Cls, Cls))
    requires e in LeafScopes(g, rs)
    ensures r in rs && e.0 == LeafOf(r) && (r.1, e.1) in g.scope
  {
    var o;
    r, o :| r in rs && o in g.scope && o.0 == r.1 && e == (LeafOf(r), o.1);
  }

  lemma LeafScopeGrown(frozen: Classes, a: Graph, g: Graph, rs: Triples, e: (Cls, Scope))
    requires Plain(a) && Timeless(frozen) && Drifted(frozen, a, g) && MovesParts(frozen, a, g, rs)
    requires e in LeafScopes(g, rs)
    ensures e.0.ValueLeaf? && Grown(Lifted(frozen, a), e.0) && e.1 == Core(e.0).scope
  {
    var r := LeafScopeFrom(g, rs, e);
    assert Core(LeafOf(r)) == Core(r.1);
    GrownScope(frozen, a, g, r.1, e.1);
  }

  lemma RewriteGains(frozen: Classes, a: Graph, g: Graph, rs: Triples)
    requires Plain(a) && Timeless(frozen) && Drifted(frozen, a, g) && MovesParts(frozen, a, g, rs)
    ensures OnlyLeavesGain(Form(frozen, a), Rewrite(g, DRIVETRAIN, rs))
  {
    DriftedIs(frozen, a, g);
    forall e | e in LeafEdges(g, rs) ensures e.0.ValueLeaf? {
      LeafEdgeGrown(frozen, a, g, rs, e);
    }
    forall e | e in LeafAxes(g, DRIVETRAIN, rs) ensures e.0.ValueLeaf? {
      LeafAxisMember(g, DRIVETRAIN, rs, e);
    }
    forall e | e in LeafScopes(g, rs) ensures e.0.ValueLeaf? {
      LeafScopeGrown(frozen, a, g, rs, e);
    }
  }

  lemma RewriteGrows(frozen: Classes, a: Graph, g: Graph, rs: Triples)
    requires Plain(a) && Timeless(frozen) && Drifted(frozen, a, g) && MovesParts(frozen, a, g, rs)
    ensures LeavesGrown(Lifted(frozen, a), Rewrite(g, DRIVETRAIN, rs))
  {
    DriftedIs(frozen, a, g);
    var h := Rewrite(g, DRIVETRAIN, rs);
    assert Timed(g) <= Timed(h);
    forall e | e in LeafEdges(g, rs)
      ensures Grown(Lifted(frozen, a), e.0) && RootClass(e.1) == RootClass(e.0)
      ensures if e.1.Named? then e.1 == Core(e.0).base else e.1 in Timed(h)
    {
      LeafEdgeGrown(frozen, a, g, rs, e);
    }
    forall e | e in LeafScopes(g, rs) ensures Grown(Lifted(frozen, a), e.0) && e.1 == Core(e.0).scope {
      LeafScopeGrown(frozen, a, g, rs, e);
    }
  }

  lemma MovedType(f: Graph, g: Graph, h: Graph, rs: Triples, r: (Node, Cls, Cls))
    requires r in rs && (r.0, Core(r.1)) in f.types && Core(r.1).Slice?
    requires (r.1, YearAxis) in g.axis && r.1 in Timed(g) && exists b :: (r.1, b) in g.sliceOf
    requires LeafAxes(g, DRIVETRAIN, rs) <= h.axis && LeafScopes(g, rs) <= h.scope
    ensures TypeKept(f, h, (r.0, LeafOf(r)))
  {
    assert Core(LeafOf(r)) == Core(r.1);
    assert
      && (LeafOf(r), YearAxis) in LeafAxes(g, DRIVETRAIN, rs)
      && (exists t :: (LeafOf(r), t) in LeafScopes(g, rs))
    by {
      var b :| (r.1, b) in g.sliceOf;
      var e, x := (r.1, b), (r.1, YearAxis);
      assert e in g.sliceOf && e.0 == r.1 && x in g.axis && x.0 == r.1;
      var o :| o in g.scope && o.0 == r.1;
      assert (LeafOf(r), o.1) in LeafScopes(g, rs);
    }
    var t :| (LeafOf(r), t) in LeafScopes(g, rs);
    assert (LeafOf(r), t) in h.scope;
  }

  lemma MovedFrom(rs: Triples, e: (Node, Cls)) returns (r: (Node, Cls, Cls))
    requires e in Moved(rs)
    ensures r in rs && e == (r.0, LeafOf(r))
  {
    r :| r in rs && e == (r.0, LeafOf(r));
  }

  lemma RewriteKeepsNamed(frozen: Classes, a: Graph, g: Graph, rs: Triples, e: (Node, Cls))
    requires Drifted(frozen, a, g) && MovesParts(frozen, a, g, rs) && e in Form(frozen, a).types && e.1.Named?
    ensures e in Rewrite(g, DRIVETRAIN, rs).types
  {
    DriftedIs(frozen, a, g);
    assert e in g.types;
    assert e !in Dropped(rs);
  }

  /** An instance without a triple to move keeps its types. */
  lemma RewriteLeaves(f: Graph, g: Graph, rs: Triples, n: Node)
    requires Untouched(f, g, n) && forall r :: r in rs ==> r.0 != n
    ensures Untouched(f, Rewrite(g, DRIVETRAIN, rs), n)
  {
    forall c ensures (n, c) in f.types <==> (n, c) in Rewrite(g, DRIVETRAIN, rs).types {
      assert (n, c) !in Dropped(rs) && (n, c) !in Moved(rs);
    }
  }

  /** Moving parts keeps every instance in its slice. */
  lemma RewriteKeepsSlice(frozen: Classes, a: Graph, g: Graph, rs: Triples, e: (Node, Cls))
    requires Drifted(frozen, a, g) && Dropped(rs) <= g.types && e in Form(frozen, a).types
    ensures var h := Rewrite(g, DRIVETRAIN, rs); e.1 in Closure.Reach(h.sub, TypesAt(h, e.0))
  {
    DriftedIs(frozen, a, g);
    MembersKept({}, g, DRIVETRAIN, rs, e.0);
    assert e.1 in Closure.Reach(Rewrite(g, DRIVETRAIN, rs).sub, TypesAt(Rewrite(g, DRIVETRAIN, rs), e.0)) by {
      assert {} + g.sub == g.sub && {} + Rewrite(g, DRIVETRAIN, rs).sub == Rewrite(g, DRIVETRAIN, rs).sub;
    }
  }

  /** Value slicing leaves a drifted store drifted. */
  lemma SliceDrifts(frozen: Classes, a: Graph, g: Graph, parent: map<Node, Node>)
    requires Plain(a) && Timeless(frozen) && Drifted(frozen, a, g)
    ensures Drifted(frozen, a, Resliced(frozen, DRIVETRAIN, g, parent))
  {
    var rs, h, f := Retyped(frozen, DRIVETRAIN, g, parent), Resliced(frozen, DRIVETRAIN, g, parent), Form(frozen, a);
    RetypedMovesParts(frozen, a, g, parent);
    RewriteGains(frozen, a, g, rs);
    RewriteGrows(frozen, a, g, rs);
    assert EdgesGrown(Tax(frozen, a), Lifted(frozen, a), Rewrite(g, DRIVETRAIN, rs).sub) by {
      DriftedIs(frozen, a, g);
      forall e | e in Rewrite(g, DRIVETRAIN, rs).sub && e.0.ValueLeaf?
        ensures LeafLeadsUp(Tax(frozen, a), Lifted(frozen, a), e)
      {
        if e !in g.sub {
          assert LeafLeadsUp(Tax(frozen, a), Lifted(frozen, a), e) by {
            LeafEdgeGrown(frozen, a, g, rs, e);
            if e.1.Slice? {
              TimedSlice(frozen, a, g, e.1);
            }
          }
        }
      }
    }
    RewriteLeads(frozen, a, g, rs);
    forall e | e in h.types ensures TypeKept(f, h, e) {
      assert TypeKept(Form(frozen, a), Rewrite(g, DRIVETRAIN, rs), e) by {
        DriftedIs(frozen, a, g);
        var f, h := Form(frozen, a), Rewrite(g, DRIVETRAIN, rs);
        if e in Moved(rs) {
          var r := MovedFrom(rs, e);
          MovedType(f, g, h, rs, r);
        }
      }
    }
    forall e | e in f.types && e.1.Named? ensures e in h.types {
      RewriteKeepsNamed(frozen, a, g, rs, e);
    }
    forall e | e in f.types ensures e.1 in Closure.Reach(h.sub, TypesAt(h, e.0)) {
      RewriteKeepsSlice(frozen, a, g, rs, e);
    }
  }

  /** When no root and no element is mixed it leaves them alone, however far the parts have
      drifted. */
  lemma SliceFaithful(frozen: Classes, a: Graph, g: Graph, parent: map<Node, Node>)
    requires Authored(a) && Timeless(frozen) && Faithful(frozen, a, g) && IsParentMap(g, parent) && Steady(frozen, a)
    ensures Faithful(frozen, a, Resliced(frozen, DRIVETRAIN, g, parent))
  {
    DriftedIs(frozen, a, g);
    DriftedIs(frozen, a, Resliced(frozen, DRIVETRAIN, g, parent));
    var rs, h, f := Retyped(frozen, DRIVETRAIN, g, parent), Resliced(frozen, DRIVETRAIN, g, parent), Form(frozen, a);
    SliceDrifts(frozen, a, g, parent);
    assert Holders(a) == Holders(g);
    assert IsParentMap(a, parent);
    assert forall r :: r in Retyped(frozen, DRIVETRAIN, g, parent) ==> r.0 !in Fixed(a) by {
      forall r | r in Retyped(frozen, DRIVETRAIN, g, parent) ensures r.0 !in Fixed(a) {
        if r.0 in Fixed(a) {
          FixedMoves(frozen, a, g, parent, r);
          MovedIsMixed(frozen, a, parent, r);
        }
      }
    }
    forall n | n in Fixed(a) ensures Untouched(f, h, n) {
      assert Untouched(f, g, n);
      RewriteLeaves(f, g, rs, n);
    }
  }
}
