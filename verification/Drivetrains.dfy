/** A root that shares its class with another drivetrain: it is served under a value leaf, which
    the affected set names exactly when it names the root's class. */
module Drivetrains {
  import opened Vocabulary
  import opened Closure
  import opened YearSlicer
  import opened YearForm
  import opened StoreIndex
  import opened Affected
  import opened ValueSlicer
  import opened ValueLaws
  import opened Mixing
  import opened Drift
  import opened DriftSlice
  import opened LevelLaws
  import opened Twice

  // ---- the affected set of a drifted store -------------------------------------------------------

  /** What the upward query can reach. */
  predicate UpIn(bases: set<Cls>, timed: set<Cls>, c: Cls) {
    if c.Named? then c in bases else RootClass(c) in timed
  }

  /** A leaf leads to classes of its base and to what lies above that. */
  lemma LeafUp(frozen: Classes, u: Graph, g: Graph, bases: set<Cls>, timed: set<Cls>, e: (Cls, Cls))
    requires Drifted(frozen, u, g) && e in Upward(g) && e.0.ValueLeaf?
    requires Closed(Tax(frozen, u), timed) && timed <= bases && UpIn(bases, timed, e.0)
    ensures UpIn(bases, timed, e.1)
  {
    DriftedIs(frozen, u, g);
    if e in g.sub {
      assert LeafLeadsUp(Tax(frozen, u), Lifted(frozen, u), e);
      ReachLeast(Tax(frozen, u), {RootClass(e.0)}, timed);
    }
    assert RootClass(e.1) in timed;
  }

  lemma DriftUp(frozen: Classes, u: Graph, g: Graph, bases: set<Cls>, timed: set<Cls>, e: (Cls, Cls))
    requires Plain(u) && Timeless(frozen) && Drifted(frozen, u, g) && e in Upward(g)
    requires Closed(u.sub, bases) && Closed(Tax(frozen, u), timed) && timed <= bases && UpIn(bases, timed, e.0)
    ensures UpIn(bases, timed, e.1)
  {
    DriftedIs(frozen, u, g);
    if e.0.ValueLeaf? {
      LeafUp(frozen, u, g, bases, timed, e);
    } else {
      var f := Form(frozen, u);
      assert f.sliceOf <= f.sub && (e in f.sub || e in f.sliceOf);
      assert UpIn(bases, timed, e.1) by {
        FormEdge(frozen, u, e);
        if e in u.sub {
          assert e.1 in Image(u.sub, bases);
        } else if IsCopy(Tax(frozen, u), Lifted(frozen, u), e) {
          assert e.1.base in Image(Tax(frozen, u), timed);
        } else {
          LiftedNamed(frozen, u);
        }
      }
    }
  }

  /** The classes whose root is an affected base. */
  predicate RootIn(bases: set<Cls>, c: Cls) {
    RootClass(c) in bases
  }

  lemma ReachWithin(edges: Classes, s: set<Cls>, inside: Cls -> bool)
    requires forall c :: c in s ==> inside(c)
    requires forall e :: e in edges && inside(e.0) ==> inside(e.1)
    ensures forall c :: c in Closure.Reach(edges, s) ==> inside(c)
  {
    var all := Closure.Reach(edges, s);
    var good := set c | c in all && inside(c);
    forall e | e in edges && e.0 in good ensures e.1 in good {
      assert e.1 in Image(edges, all);
    }
    ReachLeast(edges, s, good);
  }

  /** The affected set of a drifted store holds only classes grown from affected bases. */
  lemma AffectedRoots(frozen: Classes, u: Graph, g: Graph, wholes: set<Node>)
    requires Classified(u) && Timeless(frozen) && Drifted(frozen, u, g) && wholes <= u.level.Keys
    ensures forall c :: c in AffectedBy(g, wholes) ==> RootClass(c) in AffectedBases(frozen, u, wholes)
  {
    var bases, timed := AffectedBases(frozen, u, wholes), TimedReach(frozen, u, wholes);
    BasesNamed(frozen, u, wholes);
    forall c | c in ClassesAt(g, wholes) ensures UpIn(bases, timed, c) {
      var e :| e in g.types && e.0 in wholes && e.1 == c;
      assert UpIn(AffectedBases(frozen, u, wholes), TimedReach(frozen, u, wholes), e.1) by {
        DriftedIs(frozen, u, g);
        var o := (e.0, Core(e.1));
        assert TypeKept(Form(frozen, u), g, e);
        CoreRoot(e.1);
        FormTypes(frozen, u, o);
        if o in u.types {
          assert o.1 in ClassesAt(u, wholes);
        }
      }
    }
    forall e | e in Upward(g) && UpIn(bases, timed, e.0) ensures UpIn(bases, timed, e.1) {
      DriftUp(frozen, u, g, bases, timed, e);
    }
    ReachWithin(Upward(g), ClassesAt(g, wholes), c => UpIn(bases, timed, c));
    forall e | e in Downward(g) && RootIn(bases, e.0) ensures RootIn(bases, e.1) {
      assert RootClass(e.1) == RootClass(e.0) by {
        DriftedIs(frozen, u, g);
        assert (e.1, e.0) in g.sliceOf;
        if e.1.ValueLeaf? {
          assert Grown(Lifted(frozen, u), e.1);
        } else {
          FormSlices(frozen, u, e.1, e.0);
          LiftedNamed(frozen, u);
        }
      }
    }
    forall c | UpIn(bases, timed, c) ensures RootIn(bases, c) {
    }
    ReachWithin(Downward(g), Closure.Reach(Upward(g), ClassesAt(g, wholes)), c => RootIn(bases, c));
  }

  // ---- the class of a moved root -----------------------------------------------------------------

  /** What a pass moves of an instance that had kept its types: its one slice, to its one value. */
  lemma RootStamp(frozen: Classes, u: Graph, g: Graph, parent: map<Node, Node>, r: (Node, Cls, Cls)) returns (b: Cls)
    requires Classified(u) && Timeless(frozen) && Drifted(frozen, u, g) && Untouched(Form(frozen, u), g, r.0)
    requires r in Retyped(frozen, DRIVETRAIN, g, parent)
    ensures r.0 in u.level && r.0 in u.when && b == BaseOf(u, r.0) && r.1 == Slice(b, u.when[r.0])
    ensures (r.1, b) in g.sliceOf && b in Shared(frozen, DRIVETRAIN, g, parent)
    ensures HasValue(frozen, DRIVETRAIN, g, parent, r.0, r.2)
  {
    RetypedMember(frozen, DRIVETRAIN, g, parent, r);
    b :| b in Shared(frozen, DRIVETRAIN, g, parent) && (r.1, b) in g.sliceOf;
    FixedSlice(frozen, u, g, r.0, r.1, b);
    StampOfBase(frozen, u, r.0, r.1, b);
  }

  lemma MovedTypes(f: Graph, rs: Triples, r: (Node, Cls, Cls), b: Cls)
    requires r in rs && (forall q :: q in rs && q.0 == r.0 ==> q == r) && b != r.1 && b !in LEVEL_ROOTS
    requires forall c :: (r.0, c) in f.types <==> c == b || c == r.1
    ensures TypesOf(Rewrite(f, DRIVETRAIN, rs), r.0) == {b, LeafOf(r)}
  {
    forall c ensures (r.0, c) in Rewrite(f, DRIVETRAIN, rs).types <==> c in {b, LeafOf(r)} {
    }
    TypesExactly(Rewrite(f, DRIVETRAIN, rs), r.0, {b, LeafOf(r)});
  }

  lemma LeafIsPick(edges: Classes, b: Cls, leaf: Cls, t: Cls)
    requires leaf != b && (leaf, b) in edges && leaf !in Closure.Reach(edges, {b}) && Picks(edges, {b, leaf}, t)
    ensures t == leaf
  {
    OneStep(edges, leaf, b);
    LeafOfTwo(edges, leaf, b);
    assert IsLeafClass(edges, {b, leaf}, leaf);
  }

  lemma LeafBelowBase(frozen: Classes, u: Graph, g: Graph, parent: map<Node, Node>, r: (Node, Cls, Cls))
    requires Classified(u) && Timeless(frozen) && Drifted(frozen, u, g) && Untouched(Form(frozen, u), g, r.0)
    requires r in Retyped(frozen, DRIVETRAIN, g, parent) && r.0 in u.level
    ensures var h := Resliced(frozen, DRIVETRAIN, g, parent);
            (LeafOf(r), BaseOf(u, r.0)) in h.sub && (LeafOf(r), r.1) in h.sliceOf && (LeafOf(r), DRIVETRAIN) in h.axis
  {
    var b := RootStamp(frozen, u, g, parent, r);
    MovesGrown(frozen, u, g, parent, r);
  }

  /** A moved root aggregates under its leaf. */
  lemma MovedClass(frozen: Classes, u: Graph, g: Graph, parent: map<Node, Node>, r: (Node, Cls, Cls), c: Cls)
    requires Classified(u) && Timeless(frozen) && Drifted(frozen, u, g) && Untouched(Form(frozen, u), g, r.0)
    requires r in Retyped(frozen, DRIVETRAIN, g, parent) && r.0 in u.level
    requires var h := Resliced(frozen, DRIVETRAIN, g, parent); Picks(frozen + h.sub, TypesOf(h, r.0), c)
    ensures c == LeafOf(r)
  {
    var b, h := BaseOf(u, r.0), Resliced(frozen, DRIVETRAIN, g, parent);
    assert TypesOf(Resliced(frozen, DRIVETRAIN, g, parent), r.0) == {BaseOf(u, r.0), LeafOf(r)} by {
      var rs := Retyped(frozen, DRIVETRAIN, g, parent);
      var b := RootStamp(frozen, u, g, parent, r);
      forall q | q in rs && q.0 == r.0 ensures q == r {
        assert q == r by {
          var b := RootStamp(frozen, u, g, parent, r);
          var c := RootStamp(frozen, u, g, parent, q);
          OneValue(frozen, DRIVETRAIN, g, parent, r.0, r.2);
          OneValue(frozen, DRIVETRAIN, g, parent, r.0, q.2);
        }
      }
      forall c ensures (r.0, c) in g.types <==> c == b || c == r.1 {
        TypeOfForm(frozen, u, r.0, c);
      }
      MovedTypes(g, rs, r, b);
    }
    LeafBelowBase(frozen, u, g, parent, r);
    SliceDrifts(frozen, u, g, parent);
    assert LeafOf(r) !in Closure.Reach(frozen + h.sub, {b}) by {
      DriftedReach(frozen, u, h, {b});
    }
    LeafIsPick(frozen + h.sub, b, LeafOf(r), c);
  }

  // ---- moved is mixed, in a faithful store ---------------------------------------------------------

  /** A fixed instance of a faithful store with its slices back is moved exactly when it is mixed. */
  lemma FixedMovesIffMixed(frozen: Classes, u: Graph, g: Graph, parent: map<Node, Node>, n: Node)
    requires Authored(u) && Timeless(frozen) && Faithful(frozen, u, g) && IsParentMap(u, parent)
    requires Form(frozen, u).types <= g.types
    requires n in Fixed(u)
    ensures (exists r :: r in Retyped(frozen, DRIVETRAIN, g, parent) && r.0 == n) <==> Mixed(frozen, u, parent, n)
  {
    if r :| r in Retyped(frozen, DRIVETRAIN, g, parent) && r.0 == n {
      FixedMoves(frozen, u, g, parent, r);
      MovedIsMixed(frozen, u, parent, r);
    }
    if Mixed(frozen, u, parent, n) {
      var c, b, v := MixedSits(frozen, u, g, parent, n);
      StillMoves(frozen, g, parent, (n, c, v), b);
    }
  }

  /** The slice a moved root had leads down to its leaf. */
  lemma LeafAffected(h: Graph, wholes: set<Node>, leaf: Cls)
    requires leaf.ValueLeaf? && (leaf, leaf.of) in h.sliceOf && (leaf, DRIVETRAIN) in h.axis
    requires leaf.of in AffectedBy(h, wholes)
    ensures leaf in AffectedBy(h, wholes)
  {
    var e, x := (leaf, leaf.of), (leaf, DRIVETRAIN);
    assert e in h.sliceOf && x in h.axis && x.0 == e.0;
    assert (leaf.of, leaf) in Downward(h);
    assert leaf in Image(Downward(h), AffectedBy(h, wholes));
  }
}
