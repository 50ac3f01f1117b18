/** What the value-axis slicer keeps, what it changes, and when running it again is harmless. */
module ValueLaws {
  import opened Vocabulary
  import opened Closure
  import opened YearSlicer
  import opened ValueSlicer
  import Rollup

  type Triples = set<(Node, Cls, Cls)>

  /** Every class an instance is entailed into. */
  function Members(frozen: Classes, g: Graph, n: Node): set<Cls> {
    Closure.Reach(frozen + g.sub, TypesAt(g, n))
  }

  function NewLeaves(rs: Triples): set<Cls> {
    set r | r in rs :: LeafOf(r)
  }

  function LeavesAt(rs: Triples, n: Node): set<Cls> {
    set r {:trigger r in rs} | r in rs && r.0 == n :: LeafOf(r)
  }

  /** The leaf names are new: `<value>_<class>` names no class yet. */
  ghost predicate Fresh(frozen: Classes, g: Graph, rs: Triples) {
    && (forall e {:trigger e in g.types} :: e in g.types ==> e.1 !in NewLeaves(rs))
    && (forall e {:trigger e in frozen + g.sub} :: e in frozen + g.sub ==>
         e.0 !in NewLeaves(rs) && e.1 !in NewLeaves(rs))
  }

  lemma LeafEdge(g: Graph, rs: Triples, e: (Cls, Cls))
    ensures e in LeafEdges(g, rs) ==>
              exists r :: r in rs && e.0 == LeafOf(r)
                          && (e.1 == r.1 || ((r.1, e.1) in g.sliceOf && exists x :: x in g.axis && x.0 == r.1))
  {
    if r :| r in rs && e == (LeafOf(r), r.1) {
      assert r in rs;
    } else if e in LeafEdges(g, rs) {
      var r, f, x :| r in rs && f in g.sliceOf && f.0 == r.1 && x in g.axis && x.0 == r.1 && e == (LeafOf(r), f.1);
      assert (r.1, e.1) in g.sliceOf;
    }
  }

  lemma KeptOrMoved(g: Graph, axis: Axis, rs: Triples, n: Node, c: Cls)
    ensures (n, c) in Rewrite(g, axis, rs).types
        <==> ((n, c) in g.types && (n, c) !in Dropped(rs)) || c in LeavesAt(rs, n)
    ensures (n, c) in Dropped(rs) ==>
        exists r :: r in rs && r.0 == n && r.1 == c && (n, LeafOf(r)) in Rewrite(g, axis, rs).types
  {
  }

  lemma DownToClass(g: Graph, rs: Triples, r: (Node, Cls, Cls))
    requires r in rs
    ensures (LeafOf(r), r.1) in LeafEdges(g, rs)
  {
  }

  /** Rewriting loses no membership: a moved instance is in its old class through its leaf. */
  lemma MembersKept(frozen: Classes, g: Graph, axis: Axis, rs: Triples, n: Node)
    requires Dropped(rs) <= g.types
    ensures Members(frozen, g, n) + LeavesAt(rs, n) <= Members(frozen, Rewrite(g, axis, rs), n)
  {
    var h := Rewrite(g, axis, rs);
    var after := Members(frozen, h, n);
    forall c | c in TypesAt(g, n) ensures c in after {
      KeptOrMoved(g, axis, rs, n, c);
      if (n, c) in Dropped(rs) {
        var r :| r in rs && r.0 == n && r.1 == c && (n, LeafOf(r)) in h.types;
        DownToClass(g, rs, r);
        assert LeafOf(r) in TypesAt(h, n);
        assert c in Image(frozen + h.sub, after);
      } else {
        assert c in TypesAt(h, n);
      }
    }
    assert Image(frozen + g.sub, after) <= Image(frozen + h.sub, after);
    ReachLeast(frozen + g.sub, TypesAt(g, n), after);
    forall c | c in LeavesAt(rs, n) ensures c in TypesAt(h, n) {
      KeptOrMoved(g, axis, rs, n, c);
    }
  }

  /** Rewriting adds exactly the leaves: an instance is entailed into the classes it was
      entailed into before, and its own value leaves. */
  lemma MembersExact(frozen: Classes, g: Graph, axis: Axis, rs: Triples, n: Node)
    requires Dropped(rs) <= g.types && Fresh(frozen, g, rs) && g.sliceOf <= frozen + g.sub
    ensures Members(frozen, Rewrite(g, axis, rs), n) == Members(frozen, g, n) + LeavesAt(rs, n)
  {
    var h := Rewrite(g, axis, rs);
    var all := Members(frozen, g, n) + LeavesAt(rs, n);
    forall c | c in TypesAt(h, n) ensures c in all {
      KeptOrMoved(g, axis, rs, n, c);
      assert (n, c) in g.types ==> c in TypesAt(g, n);
    }
    forall e | e in frozen + h.sub && e.0 in all ensures e.1 in all {
      assert e.1 in Members(frozen, g, n) by {
        var before := Members(frozen, g, n);
        if e in frozen + g.sub {
          assert LeavesAt(rs, n) <= NewLeaves(rs);
          assert e.1 in Image(frozen + g.sub, before);
        } else {
          LeafEdge(g, rs, e);
          assert Members(frozen, g, n) !! NewLeaves(rs) by {
            ReachTargets(frozen + g.sub, TypesAt(g, n));
            forall c | c in Members(frozen, g, n) ensures c !in NewLeaves(rs) {
              assert c in TypesAt(g, n) || c in Targets(frozen + g.sub);
            }
          }
          var r :| r in rs && e.0 == LeafOf(r) && (e.1 == r.1 || (r.1, e.1) in g.sliceOf);
          assert LeafOf(r) in NewLeaves(rs);
          var q :| q in rs && q.0 == n && LeafOf(q) == e.0;
          assert (n, r.1) in Dropped(rs);
          assert r.1 in TypesAt(g, n);
          if e.1 != r.1 {
            assert (r.1, e.1) in frozen + g.sub;
            assert e.1 in Image(frozen + g.sub, before);
          }
        }
      }
    }
    ReachLeast(frozen + h.sub, TypesAt(h, n), all);
    MembersKept(frozen, g, axis, rs, n);
  }

  // ---- one application -----------------------------------------------------------------

  /** `r` is a type triple to replace: its instance has one value and its class slices a
      shared base. */
  ghost predicate Moves(frozen: Classes, axis: Axis, g: Graph, parent: map<Node, Node>, r: (Node, Cls, Cls)) {
    && (r.0, r.1) in g.types && r.2 in Values(g, axis)
    && ValuesOf(frozen, axis, g, parent, r.0) == {r.2}
    && SlicesShared(g, Shared(frozen, axis, g, parent), r.1)
  }

  lemma RetypedMember(frozen: Classes, axis: Axis, g: Graph, parent: map<Node, Node>, r: (Node, Cls, Cls))
    ensures r in Retyped(frozen, axis, g, parent) <==> Moves(frozen, axis, g, parent, r)
  {
    var e, v := (r.0, r.1), r.2;
    OneValue(frozen, axis, g, parent, r.0, r.2);
    assert Moves(frozen, axis, g, parent, r) ==> e in g.types && v in Values(g, axis);
  }

  lemma DroppedOld(frozen: Classes, axis: Axis, g: Graph, parent: map<Node, Node>)
    ensures Dropped(Retyped(frozen, axis, g, parent)) <= g.types
  {
    forall r | r in Retyped(frozen, axis, g, parent) ensures (r.0, r.1) in g.types {
      RetypedMember(frozen, axis, g, parent, r);
    }
  }

  /** The triples that go are the dropped ones: no leaf is one of them. */
  lemma DroppedGone(frozen: Classes, g: Graph, axis: Axis, rs: Triples, e: (Node, Cls))
    requires Dropped(rs) <= g.types && Fresh(frozen, g, rs)
    ensures e in g.types && e !in Rewrite(g, axis, rs).types <==> e in Dropped(rs)
  {
    assert e in Moved(rs) ==> e.1 in NewLeaves(rs);
  }

  /** Every type triple that goes belonged to an instance of one axis value and sliced a
      shared base, and every such triple goes. */
  lemma OnlyReplaced(frozen: Classes, axis: Axis, g: Graph, parent: map<Node, Node>, n: Node, c: Cls)
    requires Fresh(frozen, g, Retyped(frozen, axis, g, parent)) && (n, c) in g.types
    ensures (n, c) !in Resliced(frozen, axis, g, parent).types
        <==> exists v :: Moves(frozen, axis, g, parent, (n, c, v))
  {
    DroppedOld(frozen, axis, g, parent);
    DroppedGone(frozen, g, axis, Retyped(frozen, axis, g, parent), (n, c));
    assert (n, c) in Dropped(Retyped(frozen, axis, g, parent))
        <==> exists v :: Moves(frozen, axis, g, parent, (n, c, v)) by {
      var rs := Retyped(frozen, axis, g, parent);
      if (n, c) in Dropped(rs) {
        var r :| r in rs && (n, c) == (r.0, r.1);
        RetypedMember(frozen, axis, g, parent, r);
        assert r == (n, c, r.2);
      }
      if v :| Moves(frozen, axis, g, parent, (n, c, v)) {
        RetypedMember(frozen, axis, g, parent, (n, c, v));
        var r := (n, c, v);
        assert r in rs;
      }
    }
  }

  /** The replaced instance lands in the leaf of its one value, which slices its old class. */
  lemma LandsInLeaf(frozen: Classes, axis: Axis, g: Graph, parent: map<Node, Node>, n: Node, c: Cls, v: Cls)
    requires Moves(frozen, axis, g, parent, (n, c, v))
    ensures var h := Resliced(frozen, axis, g, parent);
            (n, ValueLeaf(v, c)) in h.types && (ValueLeaf(v, c), c) in h.sub && (ValueLeaf(v, c), c) in h.sliceOf
  {
    var rs, r := Retyped(frozen, axis, g, parent), (n, c, v);
    RetypedMember(frozen, axis, g, parent, r);
    DownToClass(g, rs, r);
    assert (r.0, LeafOf(r)) in Moved(rs);
  }

  /** Nothing shared, nothing changed. */
  lemma NothingRetyped(frozen: Classes, axis: Axis, g: Graph, parent: map<Node, Node>)
    requires Retyped(frozen, axis, g, parent) == {}
    ensures Resliced(frozen, axis, g, parent) == g
  {
    var rs: Triples := {};
    assert Dropped(rs) == {} && Moved(rs) == {};
    assert LeafEdges(g, rs) == {} && LeafAxes(g, axis, rs) == {} && LeafScopes(g, rs) == {};
  }

  lemma OneValueNothingShared(frozen: Classes, axis: Axis, g: Graph, parent: map<Node, Node>)
    requires |Values(g, axis)| <= 1
    ensures Retyped(frozen, axis, g, parent) == {}
  {
    forall b ensures |Spanned(frozen, axis, g, parent, g.types, b)| <= 1 {
      Rollup.SubsetSize(Spanned(frozen, axis, g, parent, g.types, b), Values(g, axis));
    }
    assert Shared(frozen, axis, g, parent) == {};
  }

  // ---- a second application ---------------------------------------------------------------

  lemma LeafAxisMember(g: Graph, axis: Axis, rs: Triples, e: (Cls, Axis))
    requires e in LeafAxes(g, axis, rs)
    ensures e.0 in NewLeaves(rs)
  {
  }

  lemma SpanMember(frozen: Classes, axis: Axis, g: Graph, parent: map<Node, Node>, n: Node, c: Cls, b: Cls, v: Cls)
    requires (n, c) in g.types && (c, b) in g.sliceOf && v in ValuesOf(frozen, axis, g, parent, n)
    ensures v in Spanned(frozen, axis, g, parent, g.types, b) && b in BasesOf(g, g.types)
  {
    var e, f := (n, c), (c, b);
    assert e in g.types && (e.1, b) in g.sliceOf && f in g.sliceOf && f.0 == e.1;
  }
}
