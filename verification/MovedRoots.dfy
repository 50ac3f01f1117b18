/** Why moving roots to value leaves changes no row outside the classes above them: the frame
    of a store with moved roots. */
module MovedRoots {
  import opened Vocabulary
  import opened Hierarchy
  import opened Rollup
  import opened Aggregate
  import opened StoreFrame
  import opened Frame
  import opened LeafFrame
  import opened Drivetrains
  import opened DriftView

  // ---- two indexes, one with moved roots -----------------------------------------------------------

  /** The root had and has a class of one of the bases. */
  ghost predicate TopMoved(small: Index, ix: Index, bases: set<Cls>, n: Node) {
    RootIn(bases, ClassOf(small, n)) && RootIn(bases, ClassOf(ix, n))
  }

  /** Taxonomy edges lead from classes of the bases to classes of the bases. */
  ghost predicate UpClosed(sup: set<(Cls, Cls)>, bases: set<Cls>) {
    forall e {:trigger e in Taxonomy(sup)} :: e in Taxonomy(sup) && RootIn(bases, e.0) ==> RootIn(bases, e.1)
  }

  /** The top keeps its class, its ancestors and the classes of the elements it holds. */
  ghost predicate TopStays(small: Index, ix: Index, n: Node) {
    SameTop(small, ix, n) && KeepsElements(small, ix, n)
  }

  /** The indexes agree but for roots of the bases. */
  ghost predicate Shifted(small: Index, ix: Index, bases: set<Cls>) {
    && AgreedClasses(small, ix)
    && Tops(ix) == Tops(small)
    && (forall n {:trigger TopStays(small, ix, n)} {:trigger TopMoved(small, ix, bases, n)} ::
          n in Tops(small) ==> TopStays(small, ix, n) || TopMoved(small, ix, bases, n))
    && UpClosed(small.sup, bases) && UpClosed(ix.sup, bases)
  }

  /** Classes an index may serve. */
  function Servable(ix: Index): set<Cls> {
    LeafClasses(ix) + AncestorClasses(ix)
  }

  /** The classes of the bases that either index may serve. */
  function Window(small: Index, ix: Index, bases: set<Cls>): set<Cls> {
    set c | c in Servable(small) + Servable(ix) && RootIn(bases, c)
  }

  lemma AboveInside(ix: Index, bases: set<Cls>, n: Node)
    requires UpClosed(ix.sup, bases) && RootIn(bases, ClassOf(ix, n))
    ensures forall x :: x in Above(ix, n) ==> RootIn(bases, x)
  {
    ReachWithin(Taxonomy(ix.sup), {ClassOf(ix, n)}, c => RootIn(bases, c));
  }

  lemma LeavesOutside(small: Index, ix: Index, bases: set<Cls>, c: Cls)
    requires Shifted(small, ix, bases) && !RootIn(bases, c)
    ensures c in LeafClasses(small) <==> c in LeafClasses(ix)
  {
    if n :| n in Tops(small) && ClassOf(small, n) == c {
      assert TopStays(small, ix, n) || TopMoved(small, ix, bases, n);
    }
    if n :| n in Tops(ix) && ClassOf(ix, n) == c {
      assert TopStays(small, ix, n) || TopMoved(small, ix, bases, n);
    }
  }

  /** Outside the bases every top has above it what it had. */
  lemma AboveOutside(small: Index, ix: Index, bases: set<Cls>, n: Node, x: Cls)
    requires Shifted(small, ix, bases) && n in Tops(small) && !RootIn(bases, x)
    ensures x in Above(small, n) <==> x in Above(ix, n)
  {
    if TopMoved(small, ix, bases, n) {
      AboveInside(small, bases, n);
      AboveInside(ix, bases, n);
    } else {
      assert TopStays(small, ix, n);
    }
  }

  lemma AncestorsOutside(small: Index, ix: Index, bases: set<Cls>, x: Cls)
    requires Shifted(small, ix, bases) && !RootIn(bases, x)
    ensures x in AncestorClasses(small) <==> x in AncestorClasses(ix)
  {
    AncestorsByTop(small);
    AncestorsByTop(ix);
    forall n | n in Tops(small) ensures x in Above(small, n) <==> x in Above(ix, n) {
      AboveOutside(small, ix, bases, n, x);
    }
  }

  lemma FamilyOutside(small: Index, ix: Index, bases: set<Cls>, x: Cls)
    requires Shifted(small, ix, bases) && !RootIn(bases, x)
    ensures x in FamilyPC(small) <==> x in FamilyPC(ix)
  {
    AncestorsByTop(small);
    AncestorsByTop(ix);
    forall n | n in Tops(small)
      ensures x in Above(small, n) <==> x in Above(ix, n)
      ensures n in TopsPC(small) <==> n in TopsPC(ix)
    {
      AboveOutside(small, ix, bases, n, x);
    }
  }

  lemma EffectiveInside(ix: Index, bases: set<Cls>, p: Cls, c: Cls)
    requires UpClosed(ix.sup, bases) && RootIn(bases, c) && p in AncestorClasses(ix) && Effective(HierOf(ix), p, c)
    ensures RootIn(bases, p)
  {
    var e := (c, p);
    assert e in Taxonomy(ix.sup) && RootIn(bases, e.0);
  }

  /** Nothing outside averages over a class of the bases. */
  lemma WindowShielded(ix: Index, bases: set<Cls>, w: set<Cls>)
    requires UpClosed(ix.sup, bases) && (forall c :: c in w ==> RootIn(bases, c))
    requires forall c :: c in AncestorClasses(ix) && RootIn(bases, c) ==> c in w
    ensures Shielded(HierOf(ix), w)
  {
    forall c, p | c in w && p in AncestorClasses(ix) && p !in w ensures !Effective(HierOf(ix), p, c) {
      if Effective(HierOf(ix), p, c) {
        EffectiveInside(ix, bases, p, c);
      }
    }
  }

  lemma RootsOutside(small: Index, ix: Index, bases: set<Cls>, c: Cls)
    requires Shifted(small, ix, bases) && !RootIn(bases, c)
    ensures RootsKept(small, ix, c)
  {
    var few := set n | n in Tops(small) && ClassOf(small, n) == c;
    var wide := set n | n in Tops(ix) && ClassOf(ix, n) == c;
    forall n | n in Tops(small) ensures n in few <==> n in wide {
      assert TopStays(small, ix, n) || TopMoved(small, ix, bases, n);
    }
    assert few == wide;
    OnlyMembers(small.nodes, few);
    forall n | n in Roots(small, c) ensures KeepsElements(small, ix, n) {
      assert TopStays(small, ix, n) || TopMoved(small, ix, bases, n);
    }
  }

  lemma GateOutside(small: Index, ix: Index, bases: set<Cls>, p: Cls, c: Cls)
    requires Shifted(small, ix, bases) && AllPlain(small) && !RootIn(bases, p) && p in Servable(small)
    requires c in Servable(small)
    ensures Effective(HierOf(small), p, c) <==> Effective(HierOf(ix), p, c)
  {
    FamilyOutside(small, ix, bases, p);
    GateAgrees(small, ix, p, c);
  }

  lemma WindowMember(small: Index, ix: Index, bases: set<Cls>, c: Cls)
    ensures c in Window(small, ix, bases) <==> c in Servable(small) + Servable(ix) && RootIn(bases, c)
  {
  }

  /** The two indexes differ only in the window. */
  lemma ShiftedFramed(small: Index, ix: Index, bases: set<Cls>)
    requires Shifted(small, ix, bases) && AllPlain(small)
    ensures Framed(small, ix, Window(small, ix, bases))
  {
    var w, h, g := Window(small, ix, bases), HierOf(small), HierOf(ix);
    WindowShielded(small, bases, w);
    WindowShielded(ix, bases, w);
    forall c ensures c in h.leaves - w <==> c in g.leaves - w {
      WindowMember(small, ix, bases, c);
      if !RootIn(bases, c) {
        LeavesOutside(small, ix, bases, c);
      }
    }
    forall c ensures c in h.ancestors - w <==> c in g.ancestors - w {
      WindowMember(small, ix, bases, c);
      if !RootIn(bases, c) {
        AncestorsOutside(small, ix, bases, c);
      }
    }
    forall c, p | c !in w && p !in w && p in h.ancestors && c in h.leaves + h.ancestors
      ensures Effective(h, p, c) <==> Effective(g, p, c)
    {
      WindowMember(small, ix, bases, p);
      GateOutside(small, ix, bases, p, c);
    }
    forall c | c !in w && c in LeafClasses(small) ensures RootsKept(small, ix, c) {
      WindowMember(small, ix, bases, c);
      RootsOutside(small, ix, bases, c);
    }
  }
}
