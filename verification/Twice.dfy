/** Finalising a store again: idempotent exactly when no instance is mixed, and a store with mixed
    parts changes with every pass. */
module Twice {
  import opened Vocabulary
  import opened Reach
  import opened YearSlicer
  import opened YearForm
  import opened StoreIndex
  import opened ValueSlicer
  import opened ValueLaws
  import opened Mixing
  import opened Drift
  import opened DriftSlice
  import Rollup

  ghost predicate YearSliced(frozen: Classes, g: Graph, f: Graph) {
    f == Finalise(frozen, g)
  }

  ghost predicate Moves(frozen: Classes, g: Graph, parent: map<Node, Node>, rs: Triples) {
    rs == Retyped(frozen, DRIVETRAIN, g, parent)
  }

  /** `h` is what the drivetrain slicer makes of `g`. */
  ghost predicate Reslices(frozen: Classes, g: Graph, parent: map<Node, Node>, h: Graph) {
    forall rs {:trigger Moves(frozen, g, parent, rs)} :: Moves(frozen, g, parent, rs) ==>
        h == Rewrite(g, DRIVETRAIN, rs)
  }

  lemma ReslicesIs(frozen: Classes, g: Graph, parent: map<Node, Node>, h: Graph)
    ensures Reslices(frozen, g, parent, h) <==> h == Resliced(frozen, DRIVETRAIN, g, parent)
  {
    assert Moves(frozen, g, parent, Retyped(frozen, DRIVETRAIN, g, parent));
  }

  /** Finalising `g` gives `r`: the year slicer, then the drivetrain slicer with the part-of map
      `parent` read off the result. */
  ghost predicate Pass(frozen: Classes, g: Graph, parent: map<Node, Node>, r: Graph) {
    forall f {:trigger YearSliced(frozen, g, f)} :: YearSliced(frozen, g, f) ==>
        IsParentMap(f, parent) && Reslices(frozen, f, parent, r)
  }

  lemma PassIs(frozen: Classes, g: Graph, parent: map<Node, Node>, r: Graph)
    ensures Pass(frozen, g, parent, r)
       <==> IsParentMap(Finalise(frozen, g), parent) && r == Resliced(frozen, DRIVETRAIN, Finalise(frozen, g), parent)
  {
    assert YearSliced(frozen, g, Finalise(frozen, g));
    ReslicesIs(frozen, Finalise(frozen, g), parent, r);
  }

  ghost predicate Finalises(frozen: Classes, g: Graph, r: Graph) {
    exists parent :: Pass(frozen, g, parent, r)
  }

  lemma SameHolders(g: Graph, h: Graph, parent: map<Node, Node>)
    requires g.parts == h.parts
    ensures IsParentMap(g, parent) <==> IsParentMap(h, parent)
  {
    assert Holders(g) == Holders(h);
  }

  // ---- what a pass leaves behind ----------------------------------------------------------------

  /** What a moved triple leaves behind: its leaf, with the scope and the base of its slice. */
  lemma LeafMade(frozen: Classes, a: Graph, parent: map<Node, Node>, r: (Node, Cls, Cls)) returns (b: Cls, t: Scope)
    requires Plain(a) && Timeless(frozen) && r in Retyped(frozen, DRIVETRAIN, Form(frozen, a), parent)
    ensures var f1 := Resliced(frozen, DRIVETRAIN, Form(frozen, a), parent);
            && r.1 == Slice(b, t) && b.Named? && IsStamp(a, (r.0, b)) && t == a.when[r.0]
            && (LeafOf(r), t) in f1.scope && (LeafOf(r), b) in f1.sliceOf && (LeafOf(r), b) in f1.sub
    ensures b in Shared(frozen, DRIVETRAIN, Form(frozen, a), parent) && RootValues(frozen, a, parent, r.0) == {r.2}
  {
    var f, rs := Form(frozen, a), Retyped(frozen, DRIVETRAIN, Form(frozen, a), parent);
    b := MovedStamp(frozen, a, parent, r);
    t := a.when[r.0];
    StampOfBase(frozen, a, r.0, r.1, b);
    FormSlices(frozen, a, r.1, b);
    FormDrifts(frozen, a);
    SliceMarks(frozen, a, f, r.1);
    InheritsEdge(f, rs, r, b);
    assert (r.1, t) in f.scope by {
      ScopeMember(Lifted(frozen, a), (r.1, t));
    }
    var o := (r.1, t);
    assert r in rs && o in f.scope && o.0 == r.1;
  }

  lemma InheritsEdge(g: Graph, rs: Triples, r: (Node, Cls, Cls), b: Cls)
    requires r in rs && (r.1, b) in g.sliceOf && (r.1, YearAxis) in g.axis
    ensures (LeafOf(r), b) in LeafEdges(g, rs)
  {
    var e, x := (r.1, b), (r.1, YearAxis);
    assert e in g.sliceOf && e.0 == r.1 && x in g.axis && x.0 == r.1;
  }

  // ---- a second pass ----------------------------------------------------------------------------

  /** The year slicer's next run: everything stays and every instance gets its slice back. */
  lemma SlicesAgain(frozen: Classes, a: Graph, g: Graph)
    requires Plain(a) && Timeless(frozen) && Drifted(frozen, a, g)
    ensures var r := Finalise(frozen, g);
            && Drifted(frozen, a, r) && Form(frozen, a).types <= r.types
            && g.types <= r.types && g.sliceOf <= r.sliceOf && g.axis <= r.axis
  {
    UnionEmptyRight(g);
    UnionEmptyRight(a);
    FinaliseDrifts(frozen, a, EMPTY, g);
    var edges := FinaliseRefills(frozen, a, EMPTY, g);
  }

  /** A slice slices its base only. */
  lemma SliceOfBase(frozen: Classes, a: Graph, g: Graph, b: Cls, t: Scope, x: Cls)
    requires Plain(a) && Timeless(frozen) && Drifted(frozen, a, g) && (Slice(b, t), x) in g.sliceOf
    ensures x == b
  {
    NoLeafSlice(frozen, a, g, Slice(b, t), x);
    FormSlices(frozen, a, Slice(b, t), x);
  }

  /** A slice that a pass moves away slices a shared base. */
  lemma SliceShares(frozen: Classes, a: Graph, g: Graph, q: map<Node, Node>, n: Node, b: Cls, t: Scope, v: Cls)
    requires Plain(a) && Timeless(frozen) && Drifted(frozen, a, g)
    requires (n, Slice(b, t), v) in Retyped(frozen, DRIVETRAIN, g, q)
    ensures b in Shared(frozen, DRIVETRAIN, g, q) && HasValue(frozen, DRIVETRAIN, g, q, n, v)
  {
    RetypedMember(frozen, DRIVETRAIN, g, q, (n, Slice(b, t), v));
    var x :| x in Shared(frozen, DRIVETRAIN, g, q) && (Slice(b, t), x) in g.sliceOf;
    SliceOfBase(frozen, a, g, b, t, x);
  }

  /** What the first pass leaves: the leaf types the instance and slices its base. */
  lemma LeafLeft(frozen: Classes, a: Graph, p: map<Node, Node>, r: (Node, Cls, Cls)) returns (b: Cls, t: Scope)
    requires Plain(a) && Timeless(frozen) && r in Retyped(frozen, DRIVETRAIN, Form(frozen, a), p)
    ensures var f1 := Resliced(frozen, DRIVETRAIN, Form(frozen, a), p);
            && Drifted(frozen, a, f1) && (r.0, LeafOf(r)) in f1.types && (LeafOf(r), b) in f1.sliceOf
    ensures r.1 == Slice(b, t) && (r.0, r.1) in Form(frozen, a).types
  {
    b, t := LeafMade(frozen, a, p, r);
    FormDrifts(frozen, a);
    SliceDrifts(frozen, a, Form(frozen, a), p);
    RetypedMember(frozen, DRIVETRAIN, Form(frozen, a), p, r);
    assert (r.0, LeafOf(r)) in Moved(Retyped(frozen, DRIVETRAIN, Form(frozen, a), p));
  }

  /** When the second pass moves the slice away again, it moves the leaf on. */
  lemma LeafMovesOn(frozen: Classes, a: Graph, g: Graph, q: map<Node, Node>, n: Node, b: Cls, t: Scope, leaf: Cls,
                    v: Cls)
    requires Plain(a) && Timeless(frozen) && Drifted(frozen, a, g)
    requires (n, Slice(b, t), v) in Retyped(frozen, DRIVETRAIN, g, q)
    requires (n, leaf) in g.types && (leaf, b) in g.sliceOf
    ensures (n, ValueLeaf(v, leaf)) in Resliced(frozen, DRIVETRAIN, g, q).types
  {
    SliceShares(frozen, a, g, q, n, b, t, v);
    var d := (n, leaf, v);
    StillMoves(frozen, g, q, d, b);
    assert (d.0, LeafOf(d)) in Moved(Retyped(frozen, DRIVETRAIN, g, q));
  }

  lemma SliceGone(f: Graph, rs: Triples, r: (Node, Cls, Cls))
    requires r in rs && !r.1.ValueLeaf?
    ensures (r.0, r.1) !in Rewrite(f, DRIVETRAIN, rs).types
  {
    assert (r.0, r.1) in Dropped(rs);
    if (r.0, r.1) in Moved(rs) {
      var q := MovedFrom(rs, (r.0, r.1));
    }
  }

  lemma KeptOrRetyped(g: Graph, rs: Triples, e: (Node, Cls)) returns (v: Cls)
    requires e in g.types
    ensures e in Rewrite(g, DRIVETRAIN, rs).types || (e.0, e.1, v) in rs
  {
    v := e.1;
    if e in Dropped(rs) {
      var r :| r in rs && (r.0, r.1) == e;
      v := r.2;
    }
  }

  /** A pass over a graph with the slice and the leaf of an instance keeps the slice, or moves
      the leaf on. */
  lemma SliceOrNext(frozen: Classes, a: Graph, g: Graph, q: map<Node, Node>, n: Node, b: Cls, t: Scope, leaf: Cls)
    returns (v: Cls)
    requires Plain(a) && Timeless(frozen) && Drifted(frozen, a, g)
    requires (n, Slice(b, t)) in g.types && (n, leaf) in g.types && (leaf, b) in g.sliceOf
    ensures var h := Resliced(frozen, DRIVETRAIN, g, q); (n, Slice(b, t)) in h.types || (n, ValueLeaf(v, leaf)) in h.types
  {
    v := KeptOrRetyped(g, Retyped(frozen, DRIVETRAIN, g, q), (n, Slice(b, t)));
    if (n, Slice(b, t), v) in Retyped(frozen, DRIVETRAIN, g, q) {
      LeafMovesOn(frozen, a, g, q, n, b, t, leaf, v);
    }
  }

  /** What the first pass moved, the second does not leave alone: it brings the slice back, or
      moves the leaf on. */
  lemma MovedDiffers(frozen: Classes, a: Graph, p: map<Node, Node>, f1: Graph, q: map<Node, Node>, r: (Node, Cls, Cls))
    requires Plain(a) && Timeless(frozen) && r in Retyped(frozen, DRIVETRAIN, Form(frozen, a), p)
    requires f1 == Resliced(frozen, DRIVETRAIN, Form(frozen, a), p)
    ensures Resliced(frozen, DRIVETRAIN, Finalise(frozen, f1), q) != f1
  {
    var b, t := LeafLeft(frozen, a, p, r);
    SlicesAgain(frozen, a, f1);
    var v := SliceOrNext(frozen, a, Finalise(frozen, f1), q, r.0, b, t, LeafOf(r));
    SliceGone(Form(frozen, a), Retyped(frozen, DRIVETRAIN, Form(frozen, a), p), r);
    assert (r.0, ValueLeaf(v, LeafOf(r))) !in Resliced(frozen, DRIVETRAIN, Form(frozen, a), p).types by {
      var f, rs := Form(frozen, a), Retyped(frozen, DRIVETRAIN, Form(frozen, a), p);
      FormHasNoLeaf(frozen, a);
      DroppedOld(frozen, DRIVETRAIN, f, p);
      if (r.0, ValueLeaf(v, LeafOf(r))) in Moved(rs) {
        var q := MovedFrom(rs, (r.0, ValueLeaf(v, LeafOf(r))));
      }
    }
  }

  // ---- idempotence --------------------------------------------------------------------------------

  /** No instance is mixed, with the given wholes. */
  ghost predicate UnmixedUnder(frozen: Classes, a: Graph, parent: map<Node, Node>) {
    forall n {:trigger Mixed(frozen, a, parent, n)} :: !Mixed(frozen, a, parent, n)
  }

  lemma NothingMoves(frozen: Classes, a: Graph, parent: map<Node, Node>)
    requires Plain(a) && Timeless(frozen) && UnmixedUnder(frozen, a, parent)
    ensures Resliced(frozen, DRIVETRAIN, Form(frozen, a), parent) == Form(frozen, a)
  {
    forall r | r in Retyped(frozen, DRIVETRAIN, Form(frozen, a), parent) ensures false {
      MovedIsMixed(frozen, a, parent, r);
    }
    NothingRetyped(frozen, DRIVETRAIN, Form(frozen, a), parent);
  }

  lemma SomethingMoves(frozen: Classes, a: Graph, parent: map<Node, Node>, r: (Node, Cls, Cls))
    requires Plain(a) && Timeless(frozen) && r in Retyped(frozen, DRIVETRAIN, Form(frozen, a), parent)
    ensures Resliced(frozen, DRIVETRAIN, Form(frozen, a), parent) != Form(frozen, a)
  {
    FormHasNoLeaf(frozen, a);
    var e := (r.0, LeafOf(r));
    assert e in Moved(Retyped(frozen, DRIVETRAIN, Form(frozen, a), parent));
    assert e.1.ValueLeaf?;
  }

  /** Finalising content and finalising the result again changes nothing exactly when no two
      timed instances of a class differ in their drivetrain, for either pass's part-of map. */
  lemma IdempotentIffUnmixed(frozen: Classes, a: Graph, p: map<Node, Node>, f1: Graph, q: map<Node, Node>, f2: Graph)
    requires Classified(a) && Timeless(frozen) && Pass(frozen, a, p, f1) && Pass(frozen, f1, q, f2)
    ensures f2 == f1 <==> UnmixedUnder(frozen, a, p) && UnmixedUnder(frozen, a, q)
  {
    PassIs(frozen, a, p, f1);
    PassIs(frozen, f1, q, f2);
    FinaliseFirst(frozen, a);
    FinaliseIdempotent(frozen, a);
    if n :| Mixed(frozen, a, p, n) {
      var r := MixedIsMoved(frozen, a, p, n);
      MovedDiffers(frozen, a, p, f1, q, r);
    } else {
      NothingMoves(frozen, a, p);
      if n :| Mixed(frozen, a, q, n) {
        var r := MixedIsMoved(frozen, a, q, n);
        SomethingMoves(frozen, a, q, r);
      } else {
        NothingMoves(frozen, a, q);
      }
    }
  }

  // ---- every further pass -------------------------------------------------------------------------

  function Height(c: Cls): nat {
    match c
    case ValueLeaf(_, of) => Height(of) + 1
    case _ => 0
  }

  lemma {:induction false} Highest(cs: set<Cls>) returns (top: Cls)
    requires cs != {}
    ensures top in cs && forall c :: c in cs ==> Height(c) <= Height(top)
  {
    top :| top in cs;
    if cs != {top} {
      var other := Highest(cs - {top});
      top := if Height(other) > Height(top) then other else top;
    }
  }

  /** No finite set of classes holds a leaf below each of its members. */
  lemma LeavesEnd(cs: set<Cls>, v: Cls) returns (c: Cls)
    requires cs != {}
    ensures c in cs && ValueLeaf(v, c) !in cs
  {
    c := Highest(cs);
    assert Height(ValueLeaf(v, c)) == Height(c) + 1;
  }

  /** The instance sits in a class that marks its base and is shared. */
  ghost predicate Sits(g: Graph, n: Node, c: Cls, b: Cls) {
    (n, c) in g.types && (c, b) in g.sliceOf && (c, YearAxis) in g.axis
  }

  /** A pass moves the instance into the leaf below. */
  lemma SitsDeeper(frozen: Classes, g: Graph, parent: map<Node, Node>, n: Node, c: Cls, b: Cls, v: Cls)
    requires Sits(g, n, c, b) && b in Shared(frozen, DRIVETRAIN, g, parent)
    requires HasValue(frozen, DRIVETRAIN, g, parent, n, v)
    ensures Sits(Resliced(frozen, DRIVETRAIN, g, parent), n, ValueLeaf(v, c), b)
  {
    var rs, r := Retyped(frozen, DRIVETRAIN, g, parent), (n, c, v);
    StillMoves(frozen, g, parent, r, b);
    assert (r.0, LeafOf(r)) in Moved(rs);
    InheritsEdge(g, rs, r, b);
  }

  /** The classes the instance sits in. */
  ghost function Seats(g: Graph, n: Node, b: Cls): set<Cls> {
    set e {:trigger e in g.types} | e in g.types && Sits(g, n, e.1, b) :: e.1
  }

  lemma SeatsMember(g: Graph, n: Node, c: Cls, b: Cls)
    ensures c in Seats(g, n, b) <==> Sits(g, n, c, b)
  {
    if Sits(g, n, c, b) {
      var e := (n, c);
      assert e in g.types && Sits(g, n, e.1, b);
    }
  }

  /** A pass gives the instance a class it did not sit in. */
  lemma SitsNowhere(frozen: Classes, g: Graph, r: Graph, parent: map<Node, Node>, n: Node, c: Cls, b: Cls, v: Cls)
    requires g.types <= r.types && g.sliceOf <= r.sliceOf && g.axis <= r.axis
    requires Sits(r, n, c, b) && b in Shared(frozen, DRIVETRAIN, r, parent)
    requires HasValue(frozen, DRIVETRAIN, r, parent, n, v)
    ensures Resliced(frozen, DRIVETRAIN, r, parent) != g
  {
    SeatsMember(r, n, c, b);
    var deep := LeavesEnd(Seats(r, n, b), v);
    SeatsMember(r, n, deep, b);
    SeatsMember(r, n, ValueLeaf(v, deep), b);
    SitsDeeper(frozen, r, parent, n, deep, b, v);
  }

  lemma SpanBack(frozen: Classes, a: Graph, g: Graph, parent: map<Node, Node>, b: Cls)
    requires Authored(a) && Timeless(frozen) && Faithful(frozen, a, g) && IsParentMap(a, parent)
    requires Form(frozen, a).types <= g.types
    ensures var f := Form(frozen, a);
            Spanned(frozen, DRIVETRAIN, f, parent, f.types, b) <= Spanned(frozen, DRIVETRAIN, g, parent, g.types, b)
  {
    DriftedIs(frozen, a, g);
    var f := Form(frozen, a);
    forall e, v | e in f.types && (e.1, b) in f.sliceOf && v in ValuesOf(frozen, DRIVETRAIN, f, parent, e.0)
      ensures v in Spanned(frozen, DRIVETRAIN, g, parent, g.types, b)
    {
      FormTypes(frozen, a, e);
      FixedValues(frozen, a, g, DRIVETRAIN, parent, e.0);
      SpanMember(frozen, DRIVETRAIN, g, parent, e.0, e.1, b, v);
    }
  }

  /** What the content shares, a faithful store shares once its slices are back. */
  lemma SharedBack(frozen: Classes, a: Graph, g: Graph, parent: map<Node, Node>, b: Cls)
    requires Authored(a) && Timeless(frozen) && Faithful(frozen, a, g) && IsParentMap(a, parent)
    requires Form(frozen, a).types <= g.types
    requires b in Shared(frozen, DRIVETRAIN, Form(frozen, a), parent)
    ensures b in Shared(frozen, DRIVETRAIN, g, parent)
  {
    DriftedIs(frozen, a, g);
    var f := Form(frozen, a);
    SpanBack(frozen, a, g, parent, b);
    Rollup.SubsetSize(Spanned(frozen, DRIVETRAIN, f, parent, f.types, b),
                      Spanned(frozen, DRIVETRAIN, g, parent, g.types, b));
    var e :| e in f.types && (e.1, b) in f.sliceOf;
    assert e in g.types && (e.1, b) in g.sliceOf;
  }

  /** Finalising a faithful store keeps it faithful. */
  lemma FaithfulAgain(frozen: Classes, a: Graph, g: Graph)
    requires Authored(a) && Timeless(frozen) && Faithful(frozen, a, g)
    ensures Faithful(frozen, a, Finalise(frozen, g)) && Form(frozen, a).types <= Finalise(frozen, g).types
  {
    UnionEmptyRight(g);
    UnionEmptyRight(a);
    assert Wf(DagOf(EMPTY));
    FinaliseFaithful(frozen, a, EMPTY, g);
    SlicesAgain(frozen, a, g);
  }

  lemma MixedSits(frozen: Classes, a: Graph, g: Graph, parent: map<Node, Node>, n: Node)
    returns (c: Cls, b: Cls, v: Cls)
    requires Authored(a) && Timeless(frozen) && Faithful(frozen, a, g) && IsParentMap(a, parent)
    requires Form(frozen, a).types <= g.types
    requires Mixed(frozen, a, parent, n)
    ensures Sits(g, n, c, b) && b in Shared(frozen, DRIVETRAIN, g, parent)
    ensures HasValue(frozen, DRIVETRAIN, g, parent, n, v)
  {
    DriftedIs(frozen, a, g);
    var r := MixedIsMoved(frozen, a, parent, n);
    b := MovedStamp(frozen, a, parent, r);
    c, v := r.1, r.2;
    StampOfBase(frozen, a, n, c, b);
    FormTypes(frozen, a, (n, b));
    SharedBack(frozen, a, g, parent, b);
    FixedValues(frozen, a, g, DRIVETRAIN, parent, n);
    FormValues(frozen, a, parent, n);
    FormSlices(frozen, a, c, b);
    SliceMarks(frozen, a, g, c);
  }

  /** As long as its roots stay, every pass changes a store with a mixed instance. */
  lemma PassChanges(frozen: Classes, a: Graph, g: Graph, parent: map<Node, Node>, h: Graph, n: Node)
    requires Authored(a) && Timeless(frozen) && Faithful(frozen, a, g) && Pass(frozen, g, parent, h)
    requires Mixed(frozen, a, parent, n)
    ensures h != g
  {
    DriftedIs(frozen, a, g);
    PassIs(frozen, g, parent, h);
    FaithfulAgain(frozen, a, g);
    SlicesAgain(frozen, a, g);
    SameHolders(Finalise(frozen, g), a, parent);
    var c, b, v := MixedSits(frozen, a, Finalise(frozen, g), parent, n);
    SitsNowhere(frozen, g, Finalise(frozen, g), parent, n, c, b, v);
  }

  /** Whichever whole the part-of map keeps, some instance is mixed. */
  ghost predicate SomeMixed(frozen: Classes, a: Graph) {
    forall parent {:trigger IsParentMap(a, parent)} :: IsParentMap(a, parent) ==>
        exists n :: Mixed(frozen, a, parent, n)
  }

  /** Each graph of the run is what finalising the one before it gives. */
  ghost predicate IsRun(frozen: Classes, run: seq<Graph>) {
    forall i {:trigger Follows(frozen, run, i)} :: 0 <= i < |run| - 1 ==> Follows(frozen, run, i)
  }

  ghost predicate Follows(frozen: Classes, run: seq<Graph>, i: nat)
    requires i + 1 < |run|
  {
    Finalises(frozen, run[i], run[i + 1])
  }

  lemma {:induction false} RunFaithful(frozen: Classes, a: Graph, run: seq<Graph>, i: nat)
    requires Authored(a) && Timeless(frozen) && Steady(frozen, a) && IsRun(frozen, run) && i < |run|
    requires Faithful(frozen, a, run[0])
    ensures Faithful(frozen, a, run[i])
  {
    if i > 0 {
      assert Faithful(frozen, a, run[i - 1]) by {
        RunFaithful(frozen, a, run, i - 1);
      }
      assert Follows(frozen, run, i - 1);
      assert Faithful(frozen, a, run[i]) by {
        var parent :| Pass(frozen, run[i - 1], parent, run[i]);
        PassIs(frozen, run[i - 1], parent, run[i]);
        FaithfulAgain(frozen, a, run[i - 1]);
        SliceFaithful(frozen, a, Finalise(frozen, run[i - 1]), parent);
      }
    }
  }

  /** A store whose roots and elements are unmixed, but some part is mixed, never settles: every
      pass of every run changes it. */
  lemma NeverSettles(frozen: Classes, a: Graph, run: seq<Graph>, i: nat)
    requires Authored(a) && Timeless(frozen) && Steady(frozen, a) && SomeMixed(frozen, a)
    requires IsRun(frozen, run) && i + 1 < |run| && Finalises(frozen, a, run[0])
    ensures run[i + 1] != run[i]
  {
    FirstFaithful(frozen, a, run[0]);
    RunFaithful(frozen, a, run, i);
    assert Follows(frozen, run, i);
    var parent :| Pass(frozen, run[i], parent, run[i + 1]);
    PassIs(frozen, run[i], parent, run[i + 1]);
    DriftedIs(frozen, a, run[i]);
    SameHolders(Finalise(frozen, run[i]), a, parent);
    var n :| Mixed(frozen, a, parent, n);
    PassChanges(frozen, a, run[i], parent, run[i + 1], n);
  }

  /** The first pass on steady content. */
  lemma FirstFaithful(frozen: Classes, a: Graph, g: Graph)
    requires Authored(a) && Timeless(frozen) && Steady(frozen, a) && Finalises(frozen, a, g)
    ensures Faithful(frozen, a, g)
  {
    var parent :| Pass(frozen, a, parent, g);
    PassIs(frozen, a, parent, g);
    FinaliseFirst(frozen, a);
    FormDrifts(frozen, a);
    SliceFaithful(frozen, a, Form(frozen, a), parent);
  }
}
