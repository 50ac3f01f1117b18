/** Every index of a drifted store gives the rows of the finalised content: the aggregation
    never looks at a value leaf. */
module DriftView {
  import opened Vocabulary
  import opened Closure
  import opened Hierarchy
  import opened Rollup
  import opened Reach
  import opened Aggregate
  import opened YearSlicer
  import opened YearForm
  import opened StoreIndex
  import opened StoreFrame
  import opened Affected
  import opened Frame
  import opened LeafFrame
  import opened Drift
  import opened DriftSlice
  import opened LevelLaws
  import opened ServedView
  import RowRollup

  lemma ReachesKept(frozen: set<(Cls, Cls)>, a: Graph, g: Graph, types: set<Cls>)
    requires Plain(a) && Timeless(frozen) && Drifted(frozen, a, g) && forall o :: o in types ==> NoLeaf(o)
    ensures forall o :: o in types ==>
        Closure.Reach(frozen + g.sub, {o}) == Closure.Reach(frozen + Form(frozen, a).sub, {o})
  {
    forall o | o in types
      ensures Closure.Reach(frozen + g.sub, {o}) == Closure.Reach(frozen + Form(frozen, a).sub, {o})
    {
      DriftedReach(frozen, a, g, {o});
    }
  }

  /** An instance that kept its types aggregates under its stamp. */
  lemma KeptClass(frozen: set<(Cls, Cls)>, a: Graph, g: Graph, n: Node, c: Cls)
    requires Authored(a) && Timeless(frozen) && Drifted(frozen, a, g) && Untouched(Form(frozen, a), g, n)
    requires n in a.level
    requires Picks(frozen + g.sub, TypesOf(g, n), c)
    ensures c == StampOf(a, n) && NoLeaf(c)
  {
    var f := Form(frozen, a);
    assert
      && (Untouched(Form(frozen, a), g, n) ==> TypesOf(g, n) == TypesOf(Form(frozen, a), n))
      && TypesOf(g, n) != {}
    by {
      DriftedIs(frozen, a, g);
      var b := BaseOf(a, n);
      assert (n, b) in Form(frozen, a).types;
      var e := (n, b);
      assert e in g.types && e.0 == n && e.1 !in LEVEL_ROOTS;
      if Untouched(Form(frozen, a), g, n) {
        forall c ensures c in TypesOf(g, n) <==> c in TypesOf(Form(frozen, a), n) {
          assert (n, c) in g.types <==> (n, c) in Form(frozen, a).types;
          assert c in TypesOf(g, n) <==> (n, c) in g.types && c !in LEVEL_ROOTS;
        }
      }
    }
    LeafClassOfForm(frozen, a, n);
    ReachesKept(frozen, a, g, TypesOf(f, n));
    assert c == StampOf(a, n) by {
      forall o
        ensures IsLeafClass(frozen + g.sub, TypesOf(f, n), o) <==> IsLeafClass(frozen + f.sub, TypesOf(f, n), o)
      {
      }
      assert IsLeafClass(frozen + f.sub, TypesOf(f, n), StampOf(a, n));
    }
  }

  // ---- what the two indexes have in common ---------------------------------------------------

  /** Two graphs agree on a class: same scopes, same slice parents. */
  ghost predicate SameTimes(f: Graph, g: Graph, c: Cls) {
    && (forall t :: (c, t) in g.scope <==> (c, t) in f.scope)
    && (forall p :: (c, p) in g.sliceOf <==> (c, p) in f.sliceOf)
  }

  ghost predicate SameEntry(small: Index, ix: Index, c: Cls) {
    (c in ix.time <==> c in small.time) && (c in ix.time ==> ix.time[c] == small.time[c])
  }

  /** The registry times a class that is no leaf as the finalised content does. */
  lemma TimeInDrift(env: Env, a: Graph, g: Graph, ix: Index, c: Cls)
    requires Authored(a) && Timeless(env.frozen) && Drifted(env.frozen, a, g) && AsAuthored(env, g, ix) && NoLeaf(c)
    ensures SameEntry(IndexOfForm(env, a), ix, c)
  {
    DriftedIs(env.frozen, a, g);
    var f := Form(env.frozen, a);
    TimeOfForm(env.frozen, a, c);
    assert SliceParents(g, c) == SliceParents(f, c) && (c in Timed(g) <==> c in Timed(f));
    if c in ix.time {
      assert (c, ix.time[c].scope) in f.scope;
      ScopeMember(Lifted(env.frozen, a), (c, ix.time[c].scope));
    }
  }

  lemma AncestorsNoLeaf(few: set<(Cls, Cls)>, wide: set<(Cls, Cls)>, c: Cls)
    requires few <= wide && (forall e :: e in wide && e !in few ==> e.0.ValueLeaf?)
    requires (forall e :: e in few ==> !e.1.ValueLeaf?)
    requires NoLeaf(c)
    ensures Ancestors(wide, c) == Ancestors(few, c)
  {
    ReachInside(Taxonomy(few), Taxonomy(wide), {c}, NoLeaf);
  }

  lemma SupInDrift(frozen: set<(Cls, Cls)>, a: Graph, g: Graph)
    requires Plain(a) && Timeless(frozen) && Drifted(frozen, a, g)
    ensures var few, wide := frozen + Form(frozen, a).sub, frozen + g.sub;
            && few <= wide && (forall e :: e in wide && e !in few ==> e.0.ValueLeaf?)
                 && (forall e :: e in few ==> !e.1.ValueLeaf?)
  {
    DriftedIs(frozen, a, g);
    FormHasNoLeaf(frozen, a);
  }

  /** Some timed class is a slice of `p`. */
  ghost predicate HasSlice(ix: Index, p: Cls) {
    exists c :: c in ix.time && p in ix.time[c].slices
  }

  /** A leaf makes no class a slice parent that its slice does not make one already. */
  lemma SliceParentInDrift(env: Env, a: Graph, g: Graph, ix: Index, p: Cls)
    requires Authored(a) && Timeless(env.frozen) && Drifted(env.frozen, a, g) && AsAuthored(env, g, ix) && p.Named?
    requires HasSlice(ix, p)
    ensures HasSlice(IndexOfForm(env, a), p)
  {
    var c :| c in ix.time && p in ix.time[c].slices;
    if c.ValueLeaf? {
      assert HasSlice(IndexOfForm(env, a), p) by {
        assert IsSliceOf(Lifted(env.frozen, a), Core(c)) && p == Core(c).base by {
          DriftedIs(env.frozen, a, g);
          assert Grown(Lifted(env.frozen, a), c);
        }
        TimeOfForm(env.frozen, a, Core(c));
        var small := IndexOfForm(env, a);
        assert Core(c) in small.time && p in small.time[Core(c)].slices;
      }
    } else {
      TimeInDrift(env, a, g, ix, c);
    }
  }

  /** What the gate can tell of the classes of two indexes, away from value leaves. */
  ghost predicate AgreedClasses(small: Index, ix: Index) {
    && IndexGrows(small, ix) && ix.strategy == small.strategy
    && (forall e: (Cls, Cls) :: NoLeaf(e.0) ==> (e in ix.sup <==> e in small.sup))
    && (forall c {:trigger SameEntry(small, ix, c)} :: NoLeaf(c) ==> SameEntry(small, ix, c))
    && (forall c :: c in small.time ==> NoLeaf(c))
    && (forall p: Cls :: p.Named? && HasSlice(ix, p) ==> HasSlice(small, p))
  }

  ghost predicate Agreed(small: Index, ix: Index) {
    AgreedClasses(small, ix) && SameTops(small, ix) && ElementsStay(small, ix)
  }

  ghost predicate SameTops(small: Index, ix: Index) {
    && Tops(ix) == Tops(small)
    && forall n :: n in Tops(small) ==> SameTop(small, ix, n)
  }

  lemma TopIsFixed(a: Graph, n: Node)
    requires Wf(DagOf(a)) && n in TopNodes(a)
    ensures n in Fixed(a)
  {
    PartsWithin(a);
  }

  /** A top's class and ancestors are what they were. */
  ghost predicate SameTop(small: Index, ix: Index, n: Node) {
    && n in small.dag.level && ClassOf(ix, n) == ClassOf(small, n) && NoLeaf(ClassOf(small, n))
    && Ancestors(ix.sup, ClassOf(ix, n)) == Ancestors(small.sup, ClassOf(small, n))
    && (IsProductOrComponent(ix, n) <==> IsProductOrComponent(small, n))
  }

  lemma TopInDrift(env: Env, a: Graph, g: Graph, ix: Index, n: Node)
    requires Authored(a) && Timeless(env.frozen) && Drifted(env.frozen, a, g) && AsAuthored(env, g, ix)
    requires n in TopNodes(a)
    requires Untouched(Form(env.frozen, a), g, n)
    ensures SameTop(IndexOfForm(env, a), ix, n)
  {
    DriftedIs(env.frozen, a, g);
    var small := IndexOfForm(env, a);
    PartsWithin(a);
    FormIndex(env, a);
    SupInDrift(env.frozen, a, g);
    KeptClass(env.frozen, a, g, n, ix.cls[n]);
    AncestorsNoLeaf(small.sup, ix.sup, ix.cls[n]);
  }

  /** An element that kept its types keeps its class. */
  lemma ElementInDrift(env: Env, a: Graph, g: Graph, ix: Index, n: Node)
    requires Authored(a) && Timeless(env.frozen) && Drifted(env.frozen, a, g) && AsAuthored(env, g, ix) && n in a.level
    requires Untouched(Form(env.frozen, a), g, n)
    ensures ClassOf(ix, n) == ClassOf(IndexOfForm(env, a), n)
  {
    DriftedIs(env.frozen, a, g);
    FormIndex(env, a);
    KeptClass(env.frozen, a, g, n, ix.cls[n]);
  }

  lemma AgreeInDrift(env: Env, a: Graph, g: Graph, ix: Index)
    requires Authored(a) && Timeless(env.frozen) && Faithful(env.frozen, a, g) && AsAuthored(env, g, ix)
    ensures Agreed(IndexOfForm(env, a), ix)
  {
    assert ElementsStay(IndexOfForm(env, a), ix) by {
      FormIndex(env, a);
      forall n | n in a.level && a.level[n] == Element ensures ClassOf(ix, n) == ClassOf(IndexOfForm(env, a), n) {
        assert n in Fixed(a) && Untouched(Form(env.frozen, a), g, n);
        ElementInDrift(env, a, g, ix, n);
      }
    }
    ClassesInDrift(env, a, g, ix);
    assert SameTops(IndexOfForm(env, a), ix) by {
      DriftedIs(env.frozen, a, g);
      var small := IndexOfForm(env, a);
      FormIndex(env, a);
      TopsOfIndex(ix, a);
      forall n | n in TopNodes(a) ensures SameTop(small, ix, n) {
        TopIsFixed(a, n);
        assert Untouched(Form(env.frozen, a), g, n);
        TopInDrift(env, a, g, ix, n);
      }
    }
  }

  lemma ClassesInDrift(env: Env, a: Graph, g: Graph, ix: Index)
    requires Authored(a) && Timeless(env.frozen) && Drifted(env.frozen, a, g) && AsAuthored(env, g, ix)
    ensures AgreedClasses(IndexOfForm(env, a), ix)
  {
    var small := IndexOfForm(env, a);
    assert IndexGrows(IndexOfForm(env, a), ix) by {
      DriftedIs(env.frozen, a, g);
      FormIndex(env, a);
    }
    SupInDrift(env.frozen, a, g);
    forall c | NoLeaf(c) ensures SameEntry(small, ix, c) {
      TimeInDrift(env, a, g, ix, c);
    }
    forall c | c in small.time ensures NoLeaf(c) {
      TimeOfForm(env.frozen, a, c);
    }
    forall p: Cls | p.Named? && HasSlice(ix, p) ensures HasSlice(small, p) {
      SliceParentInDrift(env, a, g, ix, p);
    }
  }

  // ---- the same rows ----------------------------------------------------------------------------

  lemma SameTopsSameClasses(small: Index, ix: Index)
    requires SameTops(small, ix)
    ensures LeafClasses(ix) == LeafClasses(small) && AncestorClasses(ix) == AncestorClasses(small)
    ensures FamilyPC(ix) == FamilyPC(small)
  {
    AncestorsByTop(small);
    AncestorsByTop(ix);
    assert TopsPC(ix) == TopsPC(small);
    forall n | n in Tops(small) ensures Above(ix, n) == Above(small, n) {
    }
  }

  lemma GateAgrees(small: Index, ix: Index, p: Cls, c: Cls)
    requires AgreedClasses(small, ix) && (p in FamilyPC(ix) <==> p in FamilyPC(small))
    requires NoLeaf(c) && NoLeaf(p) && (p.Slice? ==> p in small.time)
    ensures Effective(HierOf(small), p, c) <==> Effective(HierOf(ix), p, c)
  {
    assert Open(HierOf(ix), p) <==> Open(HierOf(small), p) by {
      assert SameEntry(small, ix, p);
      if c :| c in small.time && p in small.time[c].slices {
        assert SameEntry(small, ix, c);
      }
      assert p.Named? ==> (IsSliceParent(HierOf(ix), p) <==> IsSliceParent(HierOf(small), p));
    }
    assert SameEntry(small, ix, p) && SameEntry(small, ix, c);
    var e := (c, p);
    assert NoLeaf(e.0);
  }

  /** The classes an index of finalised content serves. */
  lemma UsedSlices(env: Env, a: Graph, small: Index, p: Cls)
    requires Authored(a) && Timeless(env.frozen) && small == IndexOfForm(env, a)
    requires p in LeafClasses(small) || p in AncestorClasses(small)
    ensures NoLeaf(p) && (p.Slice? ==> p in small.time)
  {
    SmallKnown(env, a, small, p);
    UsedNamed(env.frozen, a);
    TimeOfForm(env.frozen, a, p);
  }

  ghost predicate AllPlain(small: Index) {
    forall p :: p in LeafClasses(small) || p in AncestorClasses(small) ==> NoLeaf(p) && (p.Slice? ==> p in small.time)
  }

  lemma AgreedFramed(small: Index, ix: Index)
    requires Agreed(small, ix) && AllPlain(small)
    ensures Framed(small, ix, {})
  {
    SameTopsSameClasses(small, ix);
    forall c, p | p in AncestorClasses(small) && c in LeafClasses(small) + AncestorClasses(small)
      ensures Effective(HierOf(small), p, c) <==> Effective(HierOf(ix), p, c)
    {
      GateAgrees(small, ix, p, c);
    }
    forall c ensures RootsKept(small, ix, c) {
      assert RootsKept(small, ix, c) by {
        var few := set n | n in Tops(small) && ClassOf(small, n) == c;
        assert few == set n | n in Tops(ix) && ClassOf(ix, n) == c;
        OnlyMembers(small.nodes, few);
        forall n | n in Roots(small, c) ensures KeepsElements(small, ix, n) {
          assert SameTop(small, ix, n);
          StayKeeps(small, ix, n);
        }
      }
    }
  }

  lemma SameServed(sb: map<Cls, Amounts>, bb: map<Cls, Amounts>, su: map<Cls, Amounts>,
                   bu: map<Cls, Amounts>, sq: map<Cls, map<Cls, Quality>>, bq: map<Cls, map<Cls, Quality>>)
    requires LeavesAgree(sb, bb, {}) && LeavesAgree(su, bu, {}) && LeavesAgree(sq, bq, {})
    ensures Served(sb, su, sq) == Served(bb, bu, bq)
  {
    forall c
      ensures RowRollup.At(sb, c) == RowRollup.At(bb, c) && RowIn(su, c) == RowIn(bu, c) && RowIn(sq, c) == RowIn(bq, c)
    {
      assert c !in {};
      assert RowRollup.At(su, c) == RowRollup.At(bu, c) && RowRollup.At(sq, c) == RowRollup.At(bq, c);
    }
    forall c ensures RowRollup.At(Served(sb, su, sq), c) == RowRollup.At(Served(bb, bu, bq), c) {
      assert RowRollup.At(sb, c) == RowRollup.At(bb, c) && RowIn(su, c) == RowIn(bu, c) && RowIn(sq, c) == RowIn(bq, c);
    }
    Splice(Served(sb, su, sq), Served(bb, bu, bq), {});
    assert Served(sb, su, sq) - {} + Restrict(Served(bb, bu, bq), {}) == Served(sb, su, sq);
  }

  lemma AgreedView(small: Index, ix: Index, compound: bool)
    requires Framed(small, ix, {})
    ensures ViewOf(ix, compound) == ViewOf(small, compound)
  {
    TablesAgree(small, ix, Best, compound, {});
    var sb, bb := AmountTable(small, Best), AmountTable(ix, Best);
    SameServed(sb, bb, UncertaintyTable(small, compound, sb), UncertaintyTable(ix, compound, bb),
               QualityTable(small, sb), QualityTable(ix, bb));
  }

  lemma FramedInDrift(env: Env, a: Graph, g: Graph, ix: Index)
    requires Authored(a) && Timeless(env.frozen) && Faithful(env.frozen, a, g) && AsAuthored(env, g, ix)
    ensures Framed(IndexOfForm(env, a), ix, {})
  {
    var small := IndexOfForm(env, a);
    AgreeInDrift(env, a, g, ix);
    forall p | p in LeafClasses(small) || p in AncestorClasses(small)
      ensures NoLeaf(p) && (p.Slice? ==> p in small.time)
    {
      UsedSlices(env, a, small, p);
    }
    AgreedFramed(small, ix);
  }

  /** The rows of a drifted store are the rows of its content, whichever index is read off it. */
  lemma SameView(env: Env, compound: bool, a: Graph, g: Graph, ix: Index)
    requires Settled(env, a) && Faithful(env.frozen, a, g) && IsIndex(env, g, ix)
    ensures Wf(ix.dag) && Wf(IndexOfForm(env, a).dag)
    ensures ViewOf(ix, compound) == ViewOf(IndexOfForm(env, a), compound)
    ensures Untimed(ix) == Untimed(IndexOfForm(env, a))
  {
    IndexAsAuthored(env, a, g, ix);
    assert
      && Wf(ix.dag) && Wf(IndexOfForm(env, a).dag)
      && ViewOf(ix, compound) == ViewOf(IndexOfForm(env, a), compound)
    by {
      FramedInDrift(env, a, g, ix);
      AgreedView(IndexOfForm(env, a), ix, compound);
    }
    assert Untimed(ix) == Untimed(IndexOfForm(env, a)) by {
      AgreeInDrift(env, a, g, ix);
      AgreedRefusal(IndexOfForm(env, a), ix);
    }
  }

  lemma AgreedRefusal(small: Index, ix: Index)
    requires Agreed(small, ix)
    ensures Untimed(ix) == Untimed(small)
  {
    forall n | n in Tops(small) ensures ClassOf(small, n) in ix.time <==> ClassOf(small, n) in small.time {
      assert SameEntry(small, ix, ClassOf(small, n));
    }
  }

  lemma DriftOneScope(frozen: set<(Cls, Cls)>, a: Graph, g: Graph)
    requires Plain(a) && Timeless(frozen) && Drifted(frozen, a, g)
    ensures OneScope(g)
  {
    DriftedIs(frozen, a, g);
    FormHasNoLeaf(frozen, a);
    forall e | e in g.scope ensures e.1 == if e.0.Slice? then e.0.scope else Core(e.0).scope {
    }
  }

  lemma DerivesBy(env: Env, compound: bool, a: Graph, g: Graph, ix: Index)
    requires Settled(env, a) && Faithful(env.frozen, a, g) && IsIndex(env, g, ix)
    ensures Wf(ix.dag) && Derives(env, compound, a, Answers(ix, compound))
  {
    SameView(env, compound, a, g, ix);
  }

  lemma DriftDag(frozen: set<(Cls, Cls)>, a: Graph, g: Graph)
    requires Drifted(frozen, a, g)
    ensures DagOf(g) == DagOf(a)
  {
    DriftedIs(frozen, a, g);
    assert SameContent(a, g);
  }

  /** The full derive of whatever the store's graph has drifted to is the full derive of the
      authored content. */
  method DeriveView(env: Env, compound: bool, g: Graph, ghost a: Graph) returns (r: Result<View, set<Cls>>)
    requires Settled(env, a) && Faithful(env.frozen, a, g)
    ensures Derives(env, compound, a, r)
  {
    DriftOneScope(env.frozen, a, g);
    DriftDag(env.frozen, a, g);
    ghost var ix;
    r, ix := DeriveGraph(env, compound, g);
    DerivesBy(env, compound, a, g, ix);
  }

  // ---- the affected set of a drifted store ---------------------------------------------------

  /** The two queries find on a drifted store at least what they find on its content. */
  lemma AffectedInDrift(frozen: set<(Cls, Cls)>, a: Graph, g: Graph, wholes: set<Node>)
    requires Plain(a) && Drifted(frozen, a, g)
    ensures AffectedBy(Form(frozen, a), wholes) <= AffectedBy(g, wholes)
  {
    DriftedIs(frozen, a, g);
    var f := Form(frozen, a);
    var r := Closure.Reach(Upward(g), ClassesAt(g, wholes));
    assert ClassesAt(Form(frozen, a), wholes) <= Closure.Reach(Upward(g), ClassesAt(g, wholes)) by {
      DriftedIs(frozen, a, g);
      var f, r := Form(frozen, a), Closure.Reach(Upward(g), ClassesAt(g, wholes));
      forall e | e in f.types && e.0 in wholes ensures e.1 in r {
        forall c | c in TypesAt(g, e.0) ensures c in ClassesAt(g, wholes) {
          var t := (e.0, c);
          assert t in g.types && t.0 in wholes;
        }
        ReachMonotone(g.sub, TypesAt(g, e.0), Upward(g), ClassesAt(g, wholes));
      }
    }
    assert Upward(f) <= Upward(g);
    assert Image(Upward(f), r) <= Image(Upward(g), r);
    ReachLeast(Upward(f), ClassesAt(f, wholes), r);
    assert Downward(f) <= Downward(g);
    ReachMonotone(Downward(f), Closure.Reach(Upward(f), ClassesAt(f, wholes)), Downward(g), r);
  }

  /** On a drifted store too, the affected set holds every class a source can change when
      nothing is missed. */
  lemma DriftCovered(frozen: set<(Cls, Cls)>, a: Graph, s: Graph, g: Graph)
    requires Arrival(frozen, a, s) && Missed(frozen, a, s) == {} && Drifted(frozen, Union(a, s), g)
    ensures Touched(frozen, a, s) <= AffectedBy(g, NewWholes(s))
  {
    AuthoredUnion(a, s);
    CoveredIff(frozen, a, s);
    AffectedInDrift(frozen, Union(a, s), g, NewWholes(s));
  }
}
