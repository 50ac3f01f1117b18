/** Where the incremental refresh goes stale: a class the affected set misses and the store
    has not used before gets a row in the full derive only. */
module StaleView {
  import opened Vocabulary
  import opened Closure
  import opened Hierarchy
  import opened Rollup
  import opened Reach
  import opened Aggregate
  import opened YearSlicer
  import opened YearForm
  import opened StoreIndex
  import opened StoreFrame
  import opened Affected
  import opened ServedView
  import opened HeldElements
  import opened ValueSlicer
  import opened Mixing
  import opened Drift
  import opened DriftSlice
  import opened Twice
  import opened Drivetrains
  import opened LevelLaws
  import opened MixedRoots
  import opened DriftView
  import opened MixedStale
  import opened StoreAdds

  // ---- what a top instance feeds --------------------------------------------------------------

  lemma FeedStep(ix: Index, c: Cls, p: Cls)
    requires Covers(HierOf(ix)) && c in Computed(ix) && Effective(HierOf(ix), p, c)
    requires p in LeafClasses(ix) || p in AncestorClasses(ix)
    ensures p in Computed(ix)
  {
    if p in AncestorClasses(ix) {
      Saturated(HierOf(ix), p);
    }
  }

  lemma AboveTop(ix: Index, n: Node, x: Cls)
    requires n in Tops(ix) && x in Ancestors(ix.sup, ClassOf(ix, n))
    ensures x in LeafClasses(ix) || x in AncestorClasses(ix)
  {
    if x != ClassOf(ix, n) {
      assert x in Ancestors(ix.sup, ClassOf(ix, n)) - {ClassOf(ix, n)};
      assert ClassOf(ix, n) in LeafClasses(ix);
    }
  }

  lemma UntimedAbove(env: Env, g: Graph, n: Node, z: Cls)
    requires Authored(g) && Timeless(env.frozen) && n in UntimedTops(g) && n in g.level
    requires z in Closure.Reach(Tax(env.frozen, g), {BaseOf(g, n)})
    ensures z.Named? && (z in LeafClasses(IndexOfForm(env, g)) || z in AncestorClasses(IndexOfForm(env, g)))
  {
    var b := BaseOf(g, n);
    assert (n, b) in g.types && b.Named?;
    FormIndex(env, g);
    NamedAncestors(env.frozen, g, b);
    ReachNamed(Tax(env.frozen, g), b);
    AboveTop(IndexOfForm(env, g), n, z);
  }

  /** One step up from a class an untimed top feeds. */
  lemma UntimedStep(env: Env, g: Graph, n: Node, y: Cls, z: Cls)
    requires Authored(g) && Timeless(env.frozen) && FamilyTimed(g) && Covers(HierOf(IndexOfForm(env, g)))
    requires n in UntimedTops(g) && n in g.level && y in Closure.Reach(Tax(env.frozen, g), {BaseOf(g, n)})
    requires (y, z) in Tax(env.frozen, g) && y in Computed(IndexOfForm(env, g)) && z !in FamilyReach(env.frozen, g)
    ensures z in Computed(IndexOfForm(env, g))
  {
    var ix, tax := IndexOfForm(env, g), Tax(env.frozen, g);
    assert z in Image(tax, Closure.Reach(tax, {BaseOf(g, n)}));
    UntimedAbove(env, g, n, y);
    UntimedAbove(env, g, n, z);
    FamilyIsReach(env, g, z);
    assert Effective(HierOf(ix), z, y) by {
      FormIndex(env, g);
      SupEdge(env.frozen, g, (y, z));
    }
    FeedStep(ix, y, z);
  }

  /** An untimed top feeds every class above its own that is not above a Product or Component. */
  lemma UntimedFeeds(env: Env, g: Graph, n: Node, x: Cls)
    requires Authored(g) && Timeless(env.frozen) && FamilyTimed(g) && Covers(HierOf(IndexOfForm(env, g)))
    requires n in UntimedTops(g) && n in g.level && x in Closure.Reach(Tax(env.frozen, g), {BaseOf(g, n)})
    requires x !in FamilyReach(env.frozen, g)
    ensures x in Computed(IndexOfForm(env, g))
  {
    var ix, b, tax, family := IndexOfForm(env, g), BaseOf(g, n), Tax(env.frozen, g), FamilyReach(env.frozen, g);
    var r := Closure.Reach(tax, {b});
    FormIndex(env, g);
    assert b in LeafClasses(ix) by {
      assert ClassOf(ix, n) == b;
    }
    var fed := set y | y in r && (y in family || y in Computed(ix));
    forall e | e in tax && e.0 in fed ensures e.1 in fed {
      assert e.1 in Image(tax, r);
      if e.0 in family {
        assert e.1 in Image(tax, family);
      } else if e.1 !in family {
        UntimedStep(env, g, n, e.0, e.1);
      }
    }
    ReachLeast(tax, {b}, fed);
  }

  ghost predicate CopiedFrom(tax: set<(Cls, Cls)>, edges: set<(Cls, Cls)>, b: Cls, t: Scope) {
    forall e {:trigger e in tax} :: e in tax && e.0 in Closure.Reach(tax, {b}) ==>
        (Slice(e.0, t), Slice(e.1, t)) in edges
  }

  lemma SliceAbove(frozen: set<(Cls, Cls)>, g: Graph, b: Cls, t: Scope, x: Cls)
    requires (b, t) in Stamped(g) && x in Closure.Reach(Tax(frozen, g), {b})
    ensures Slice(x, t) in Ancestors(Sup(frozen, g), Slice(b, t))
  {
    assert CopiedFrom(Tax(frozen, g), Taxonomy(Sup(frozen, g)), b, t) by {
      var tax, edges := Tax(frozen, g), Taxonomy(Sup(frozen, g));
      forall e | e in tax && e.0 in Closure.Reach(tax, {b}) ensures (Slice(e.0, t), Slice(e.1, t)) in edges {
        assert (Slice(e.0, t), Slice(e.1, t)) in Taxonomy(Sup(frozen, g)) by {
          var c, tax, lifted := (Slice(e.0, t), Slice(e.1, t)), Tax(frozen, g), Lifted(frozen, g);
          assert (e.0, t) in lifted by {
          }
          assert IsCopy(tax, lifted, c) by {
            assert (c.0.base, c.1.base) == e;
          }
          assert c in Sup(frozen, g) by {
            FormEdge(frozen, g, c);
          }
        }
      }
    }
    SlicesReached(Tax(frozen, g), Taxonomy(Sup(frozen, g)), b, t);
  }

  lemma SlicesReached(tax: set<(Cls, Cls)>, edges: set<(Cls, Cls)>, b: Cls, t: Scope)
    requires CopiedFrom(tax, edges, b, t)
    ensures forall x :: x in Closure.Reach(tax, {b}) ==> Slice(x, t) in Closure.Reach(edges, {Slice(b, t)})
  {
    var r, all := Closure.Reach(tax, {b}), Closure.Reach(edges, {Slice(b, t)});
    var good := set x | x in r && Slice(x, t) in all;
    forall e | e in tax && e.0 in good ensures e.1 in good {
      assert e.1 in Image(tax, r);
      assert Slice(e.1, t) in Image(edges, all);
    }
    ReachLeast(tax, {b}, good);
  }

  lemma FedUp(tax: set<(Cls, Cls)>, b: Cls, t: Scope, done: set<Cls>, x: Cls)
    requires Slice(b, t) in done && x in Closure.Reach(tax, {b})
    requires forall y, z :: y in Closure.Reach(tax, {b}) && (y, z) in tax && Slice(y, t) in done ==> Slice(z, t) in done
    ensures Slice(x, t) in done
  {
    var r := Closure.Reach(tax, {b});
    var fed := set y | y in r && Slice(y, t) in done;
    forall e | e in tax && e.0 in fed ensures e.1 in fed {
      assert e.1 in Image(tax, r);
      assert (e.0, e.1) in tax;
    }
    ReachLeast(tax, {b}, fed);
  }

  /** A timed top feeds the slice at its scope of every class above its own. */
  lemma TimedFeeds(env: Env, g: Graph, n: Node, x: Cls)
    requires Authored(g) && Timeless(env.frozen) && Covers(HierOf(IndexOfForm(env, g)))
    requires n in TopNodes(g) && n in g.level && n in g.when && x in Closure.Reach(Tax(env.frozen, g), {BaseOf(g, n)})
    ensures Slice(x, g.when[n]) in Computed(IndexOfForm(env, g))
  {
    var b, t, tax, done := BaseOf(g, n), g.when[n], Tax(env.frozen, g), Computed(IndexOfForm(env, g));
    assert StampOf(g, n) in LeafClasses(IndexOfForm(env, g)) by {
      FormIndex(env, g);
      assert ClassOf(IndexOfForm(env, g), n) == StampOf(g, n);
    }
    forall y, z | y in Closure.Reach(tax, {b}) && (y, z) in tax && Slice(y, t) in done ensures Slice(z, t) in done {
      assert Slice(z, t) in Computed(IndexOfForm(env, g)) by {
        var ix, b, tax := IndexOfForm(env, g), BaseOf(g, n), Tax(env.frozen, g);
        StampIsLifted(env.frozen, g, n);
        assert (b, t) in Stamped(g) && (y, t) in Lifted(env.frozen, g);
        SlicesFollowTaxonomy(env.frozen, g, y, z, t);
        FormIndex(env, g);
        assert z in Image(tax, Closure.Reach(tax, {b}));
        SliceAbove(env.frozen, g, b, t, z);
        AboveTop(ix, n, Slice(z, t));
        TimeOfForm(env.frozen, g, Slice(y, t));
        TimeOfForm(env.frozen, g, Slice(z, t));
        FeedStep(ix, Slice(y, t), Slice(z, t));
      }
    }
    FedUp(tax, b, t, done, x);
  }

  // ---- exactness --------------------------------------------------------------------------------

  lemma BelowReach(frozen: set<(Cls, Cls)>, g: Graph, ns: set<Node>, x: Cls) returns (n: Node)
    requires Classified(g) && ns <= g.level.Keys && x in Closure.Reach(Tax(frozen, g), ClassesAt(g, ns))
    ensures n in ns && x in Closure.Reach(Tax(frozen, g), {BaseOf(g, n)})
  {
    var b := ReachFrom(Tax(frozen, g), ClassesAt(g, ns), x);
    var e :| e in g.types && e.0 in ns && e.1 == b;
    n := e.0;
    assert TypedBy(g, n, BaseOf(g, n));
  }

  lemma NewAboveTop(frozen: set<(Cls, Cls)>, a: Graph, s: Graph, x: Cls) returns (n: Node)
    requires Arrival(frozen, a, s) && Classified(Union(a, s)) && x in NewAbove(frozen, a, s)
    ensures n in TopNodes(a) && n in Union(a, s).level
    ensures x in Closure.Reach(Tax(frozen, Union(a, s)), {BaseOf(Union(a, s), n)})
  {
    var tax, few := Tax(frozen, Union(a, s)), Tax(frozen, a);
    var y := ReachFrom(tax, Targets(NewEdges(frozen, a, s)), x);
    var e :| e in NewEdges(frozen, a, s) && e.1 == y;
    assert TopNodes(a) <= a.level.Keys by {
      PartsWithin(a);
    }
    n := BelowReach(frozen, a, TopNodes(a), e.0);
    assert BaseOf(Union(a, s), n) == BaseOf(a, n) by {
      TypesUnion(a, s, n, BaseOf(a, n));
      assert (n, BaseOf(a, n)) in Union(a, s).types;
    }
    LiftedMonotone(frozen, a, s);
    assert x in Closure.Reach(tax, {BaseOf(a, n)}) by {
      ReachMonotone(few, {BaseOf(a, n)}, tax, {BaseOf(a, n)});
      assert e.1 in Image(tax, Closure.Reach(tax, {BaseOf(a, n)}));
      ReachAbsorbs(tax, {BaseOf(a, n)}, e.1);
    }
  }

  /** Below a class above an untimed top or a new edge there is a top that feeds it, or feeds a
      slice of it. */
  lemma FeederOf(frozen: set<(Cls, Cls)>, a: Graph, s: Graph, x: Cls) returns (n: Node)
    requires Arrival(frozen, a, s) && Authored(Union(a, s)) && FamilyTimed(Union(a, s))
    requires x in Loose(frozen, a, s) + NewAbove(frozen, a, s)
    ensures n in TopNodes(Union(a, s)) && n in Union(a, s).level
    ensures x in Closure.Reach(Tax(frozen, Union(a, s)), {BaseOf(Union(a, s), n)})
    ensures n in Union(a, s).when || x !in FamilyReach(frozen, Union(a, s))
  {
    var u := Union(a, s);
    PartsWithin(u);
    TopsOfUnion(a, s);
    if x in FamilyReach(frozen, u) {
      n := BelowReach(frozen, u, FamilyTops(u), x);
    } else if x in NewAbove(frozen, a, s) {
      n := NewAboveTop(frozen, a, s, x);
    } else {
      PartsWithin(s);
      TypesInUnion(a, s, UntimedTops(s));
      n := BelowReach(frozen, u, UntimedTops(s), x);
    }
  }

  /** What the affected bases do not hold, the affected set of the store's graph does not hold. */
  lemma OutsideAffected(frozen: set<(Cls, Cls)>, u: Graph, h: Graph, wholes: set<Node>, x: Cls)
    requires Classified(u) && Timeless(frozen) && Drifted(frozen, u, h) && wholes <= u.level.Keys
    requires x.Named? && x !in AffectedBases(frozen, u, wholes)
    ensures x !in AffectedBy(h, wholes) && forall t :: Slice(x, t) !in AffectedBy(h, wholes)
  {
    AffectedRoots(frozen, u, h, wholes);
    assert RootClass(x) == x && forall t :: RootClass(Slice(x, t)) == x;
  }

  lemma MissedNamed(frozen: set<(Cls, Cls)>, a: Graph, s: Graph)
    requires Plain(a) && Plain(s) && Timeless(frozen)
    ensures forall x :: x in Missed(frozen, a, s) ==> x.Named?
  {
    LooseNamed(frozen, a, s);
    assert forall e :: e in Tax(frozen, Union(a, s)) ==> e.1.Named?;
    ReachTargets(Tax(frozen, Union(a, s)), Targets(NewEdges(frozen, a, s)));
  }

  /** A missed class, or a slice of it, is computed and is not in the affected set. */
  lemma MissedIsServed(env: Env, a: Graph, s: Graph, h: Graph, x: Cls) returns (c: Cls)
    requires Arrival(env.frozen, a, s) && FamilyTimed(Union(a, s)) && Covers(HierOf(IndexOfForm(env, Union(a, s))))
    requires Drifted(env.frozen, Union(a, s), h) && x in Missed(env.frozen, a, s)
    ensures c in Computed(IndexOfForm(env, Union(a, s))) && c !in AffectedBy(h, NewWholes(s))
    ensures x.Named? && (c == x || (c.Slice? && c.base == x))
  {
    var u := Union(a, s);
    AuthoredUnion(a, s);
    MissedNamed(env.frozen, a, s);
    PartsWithin(s);
    OutsideAffected(env.frozen, u, h, NewWholes(s), x);
    var n := FeederOf(env.frozen, a, s, x);
    if n in u.when {
      TimedFeeds(env, u, n, x);
      c := Slice(x, u.when[n]);
    } else {
      UntimedFeeds(env, u, n, x);
      c := x;
    }
  }

  lemma FormReports(env: Env, u: Graph)
    requires Authored(u) && Timeless(env.frozen) && Substantial(u, TopNodes(u)) && Lists(IndexOfForm(env, u))
    ensures Wf(IndexOfForm(env, u).dag) && Reports(IndexOfForm(env, u))
  {
    FormIndex(env, u);
    TopsReport(IndexOfForm(env, u));
  }

  lemma UnusedUnserved(env: Env, compound: bool, a: Graph, x: Cls, c: Cls)
    requires Authored(a) && Timeless(env.frozen) && Wf(IndexOfForm(env, a).dag) && x !in Used(env.frozen, a)
    requires x.Named? && (c == x || (c.Slice? && c.base == x))
    ensures c !in ViewOf(IndexOfForm(env, a), compound)
  {
    if c in ViewOf(IndexOfForm(env, a), compound) {
      ServedIsUsed(env, compound, a, c);
      UsedNamed(env.frozen, a);
    }
  }

  /** A missed class that the store did not use before makes the refreshed view stale. */
  lemma MissedIsStale(env: Env, compound: bool, a: Graph, s: Graph, h: Graph, x: Cls)
    requires Arrival(env.frozen, a, s) && FamilyTimed(Union(a, s)) && Drifted(env.frozen, Union(a, s), h)
    requires Substantial(Union(a, s), TopNodes(Union(a, s))) && Lists(IndexOfForm(env, Union(a, s)))
    requires x in Missed(env.frozen, a, s) && x !in Used(env.frozen, a)
    ensures var small, big := IndexOfForm(env, a), IndexOfForm(env, Union(a, s));
            Wf(small.dag) && Wf(big.dag) && Outdated(small, big, compound, AffectedBy(h, NewWholes(s)))
  {
    var small, big := IndexOfForm(env, a), IndexOfForm(env, Union(a, s));
    var c := MissedIsServed(env, a, s, h, x);
    IndexesGrow(env, a, s);
    AuthoredUnion(a, s);
    FormReports(env, Union(a, s));
    ServedClasses(big, compound);
    UnusedUnserved(env, compound, a, x, c);
    Misses(ViewOf(small, compound), ViewOf(big, compound), AffectedBy(h, NewWholes(s)), c);
    OutdatedIs(small, big, compound, AffectedBy(h, NewWholes(s)));
  }

  lemma NothingMissedIsFull(env: Env, compound: bool, a: Graph, s: Graph, h: Graph)
    requires Arrival(env.frozen, a, s) && FamilyTimed(Union(a, s)) && Drifted(env.frozen, Union(a, s), h)
    requires Missed(env.frozen, a, s) == {}
    ensures var small, big := IndexOfForm(env, a), IndexOfForm(env, Union(a, s));
            && Wf(small.dag) && Wf(big.dag)
            && Spliced(ViewOf(small, compound), ViewOf(big, compound), AffectedBy(h, NewWholes(s)))
                 == ViewOf(big, compound)
  {
    DriftCovered(env.frozen, a, s, h);
    SpliceOver(env, compound, a, s, AffectedBy(h, NewWholes(s)));
  }

  /** Of a steady store the refreshed view is the full derive exactly when the add misses nothing,
      for sources whose missed classes the store did not use before. (A missed class already in use
      keeps its row or not according to the amounts.) */
  lemma IncrementalIffNothingMissed(env: Env, compound: bool, a: Graph, s: Graph, g: Graph, ix: Index, h: Graph,
                                    jx: Index)
    requires WfEnv(env) && Arrival(env.frozen, a, s) && FamilyTimed(Union(a, s)) && Steady(env.frozen, Union(a, s))
    requires Faithful(env.frozen, a, g) && Adds(env, g, ix, s, h, jx)
    requires Substantial(Union(a, s), TopNodes(Union(a, s))) && Lists(IndexOfForm(env, Union(a, s)))
    requires Missed(env.frozen, a, s) !! Used(env.frozen, a)
    ensures Wf(ix.dag) && Wf(jx.dag)
    ensures Spliced(ViewOf(ix, compound), ViewOf(jx, compound), AffectedBy(h, NewWholes(s))) == ViewOf(jx, compound)
       <==> Missed(env.frozen, a, s) == {}
  {
    AddFaithful(env.frozen, a, s, g, h);
    AuthoredUnion(a, s);
    SameView(env, compound, a, g, ix);
    SameView(env, compound, Union(a, s), h, jx);
    if Missed(env.frozen, a, s) == {} {
      NothingMissedIsFull(env, compound, a, s, h);
    } else {
      var x :| x in Missed(env.frozen, a, s);
      MissedIsStale(env, compound, a, s, h, x);
      OutdatedIs(IndexOfForm(env, a), IndexOfForm(env, Union(a, s)), compound, AffectedBy(h, NewWholes(s)));
    }
  }

  /** An add to a steady store leaves it faithful to what was authored. */
  lemma AddFaithful(frozen: set<(Cls, Cls)>, a: Graph, s: Graph, g: Graph, h: Graph)
    requires Arrival(frozen, a, s) && Steady(frozen, Union(a, s)) && Faithful(frozen, a, g)
    requires Finalises(frozen, Union(g, s), h)
    ensures Faithful(frozen, Union(a, s), h)
  {
    var parent :| Pass(frozen, Union(g, s), parent, h);
    PassIs(frozen, Union(g, s), parent, h);
    AddMade(frozen, a, s, g, parent, h);
    SliceFaithful(frozen, Union(a, s), Finalise(frozen, Union(g, s)), parent);
  }

  // ---- the index of levelled content ----------------------------------------------------------------

  /** Levelled content has one index. */
  lemma LevelledIndex(env: Env, a: Graph, ix: Index)
    requires Authored(a) && Timeless(env.frozen) && Levelled(env.frozen, a) && IsIndex(env, Form(env.frozen, a), ix)
    ensures ix == IndexOfForm(env, a)
  {
    FormDrifts(env.frozen, a);
    IndexAsAuthored(env, a, Form(env.frozen, a), ix);
    FormUnambiguous(env.frozen, a);
    OneIndex(env, Form(env.frozen, a), ix);
  }

  lemma UnionPositive(a: Graph, s: Graph)
    requires Wf(DagOf(a)) && Wf(DagOf(s)) && Disjoint(a, s) && AllPositive(DagOf(a)) && AllPositive(DagOf(s))
    ensures AllPositive(DagOf(Union(a, s)))
  {
    var u := DagOf(Union(a, s));
    forall n, i | n in u.level && 0 <= i < |Edges(u, n)| ensures Edges(u, n)[i].best > 0.0 {
      if n in s.parts {
        assert Edges(u, n) == Edges(DagOf(s), n);
      } else {
        assert Edges(u, n) == Edges(DagOf(a), n);
      }
    }
  }

  /** Content with a timed top that reports something has a view. */
  lemma HasView(env: Env, compound: bool, g: Graph)
    requires Authored(g) && Timeless(env.frozen) && FamilyTimed(g) && TopNodes(g) != {}
    requires Substantial(g, TopNodes(g)) && Lists(IndexOfForm(env, g))
    ensures var ix := IndexOfForm(env, g); Wf(ix.dag) && Untimed(ix) == {} && HasRows(ix, compound)
  {
    var ix := IndexOfForm(env, g);
    FormIndex(env, g);
    RefusedIff(env, g);
    FormReports(env, g);
    ServedClasses(ix, compound);
    var n :| n in TopNodes(g);
    assert ClassOf(ix, n) in LeafClasses(ix);
    assert ClassOf(ix, n) in ViewOf(ix, compound);
  }

  // ---- a store that goes stale on a mixed root ----------------------------------------------------------

  /** No instance of the store is mixed, whichever wholes the part-of map keeps. */
  ghost predicate NeverMixed(frozen: set<(Cls, Cls)>, a: Graph) {
    forall parent {:trigger IsParentMap(a, parent)} :: IsParentMap(a, parent) ==> UnmixedUnder(frozen, a, parent)
  }

  /** With the source the root is, whichever wholes it keeps. */
  ghost predicate AlwaysMixed(frozen: set<(Cls, Cls)>, u: Graph, n: Node) {
    forall parent {:trigger IsParentMap(u, parent)} :: IsParentMap(u, parent) ==> Mixed(frozen, u, parent, n)
  }

  ghost predicate ListsPasses(env: Env, u: Graph) {
    forall parent {:trigger IsParentMap(u, parent)} :: IsParentMap(u, parent) ==>
      ListsGraph(env, Resliced(env.frozen, DRIVETRAIN, Form(env.frozen, u), parent))
  }

  lemma UnmixedPass(frozen: set<(Cls, Cls)>, a: Graph, g: Graph)
    requires Plain(a) && Timeless(frozen) && NeverMixed(frozen, a) && Finalises(frozen, a, g)
    ensures g == Form(frozen, a)
  {
    var parent :| Pass(frozen, a, parent, g);
    PassIs(frozen, a, parent, g);
    FinaliseFirst(frozen, a);
    SameHolders(Form(frozen, a), a, parent);
    NothingMoves(frozen, a, parent);
  }

  /** What an add makes of the store's form. */
  lemma AddToForm(frozen: set<(Cls, Cls)>, a: Graph, s: Graph, h: Graph) returns (parent: map<Node, Node>)
    requires Arrival(frozen, a, s) && Finalises(frozen, Union(Form(frozen, a), s), h)
    ensures IsParentMap(Union(a, s), parent) && h == Resliced(frozen, DRIVETRAIN, Form(frozen, Union(a, s)), parent)
    ensures MadeBy(frozen, Union(a, s), Form(frozen, Union(a, s)), parent, h)
  {
    parent :| Pass(frozen, Union(Form(frozen, a), s), parent, h);
    PassIs(frozen, Union(Form(frozen, a), s), parent, h);
    FormDrifts(frozen, a);
    FinaliseIncoming(frozen, a, s, Union(Form(frozen, a), s));
    AddMade(frozen, a, s, Form(frozen, a), parent, h);
  }

  lemma MixedAddStale(env: Env, compound: bool, a: Graph, s: Graph, h: Graph, jx: Index, n: Node)
    requires WfEnv(env) && Arrival(env.frozen, a, s) && FamilyTimed(Union(a, s)) && AllPositive(DagOf(Union(a, s)))
    requires Passed(env.frozen, Union(a, s), NewWholes(s), n) && AlwaysMixed(env.frozen, Union(a, s), n)
    requires ListsPasses(env, Union(a, s))
    requires Finalises(env.frozen, Union(Form(env.frozen, a), s), h) && IsIndex(env, h, jx)
    ensures var small := IndexOfForm(env, a);
            Wf(small.dag) && Wf(jx.dag) && Untimed(jx) == {} && OneScope(h)
                && Outdated(small, jx, compound, AffectedBy(h, NewWholes(s)))
  {
    var u, f := Union(a, s), Form(env.frozen, Union(a, s));
    var parent := AddToForm(env.frozen, a, s, h);
    ListsIndex(env, h, h, jx);
    PassTimed(env, u, f, parent, h, jx);
    PassDrifts(env.frozen, u, f, parent, h);
    DriftOneScope(env.frozen, u, h);
    OldRootStale(env, compound, a, s, f, parent, h, jx, n);
  }

  /** A source that mixes an old root whose class the affected bases miss leaves the view stale. */
  lemma MixedGoesStale(env: Env, compound: bool, a: Graph, s: Graph, n: Node)
    requires WfEnv(env) && Arrival(env.frozen, a, s) && FamilyTimed(a) && FamilyTimed(Union(a, s))
    requires NeverMixed(env.frozen, a) && AlwaysMixed(env.frozen, Union(a, s), n)
    requires n in TopNodes(a) && Passed(env.frozen, Union(a, s), NewWholes(s), n)
    requires Substantial(a, TopNodes(a)) && AllPositive(DagOf(Union(a, s)))
    requires Lists(IndexOfForm(env, a)) && ListsPasses(env, Union(a, s))
    ensures GoesStale(env, compound, a, s)
  {
    HasView(env, compound, a);
    FormUnambiguous(env.frozen, a);
    forall g, ix, h, jx | Runs(env, a, s, g, ix, h, jx)
      ensures OneScope(g) && OneScope(h) && IsStale(compound, ix, jx, AffectedBy(h, NewWholes(s)))
    {
      UnmixedPass(env.frozen, a, g);
      assert ix == IndexOfForm(env, a) by {
        LevelledIndex(env, a, ix);
      }
      MixedAddStale(env, compound, a, s, h, jx, n);
    }
  }

  lemma SmallerForm(frozen: set<(Cls, Cls)>, a: Graph, s: Graph)
    requires Classified(a) && Classified(s) && Disjoint(a, s)
    ensures var f, h := Form(frozen, a), Form(frozen, Union(a, s)); f.types <= h.types && f.sub <= h.sub && f.level.Keys <= h.level.Keys
  {
    var f, h := Form(frozen, a), Form(frozen, Union(a, s));
    forall e | e in f.types ensures e in h.types {
      FormTypes(frozen, a, e);
      PlainUnion(a, s);
      FormTypes(frozen, Union(a, s), e);
    }
    LiftedMonotone(frozen, a, s);
    forall e | e in f.sub ensures e in h.sub {
      FormEdge(frozen, a, e);
      FormEdge(frozen, Union(a, s), e);
    }
  }

  lemma ListsLess(env: Env, h: Graph, big: Graph)
    requires ListsGraph(env, big) && h.types <= big.types && h.sub <= big.sub && h.level.Keys <= big.level.Keys
    ensures ListsGraph(env, h)
  {
    ReachMonotone(env.frozen + h.sub, AllTypes(h), env.frozen + big.sub, AllTypes(big));
  }

  /** One name order lists the store before and after. */
  lemma EnvForPass(frozen: set<(Cls, Cls)>, a: Graph, s: Graph, parent: map<Node, Node>) returns (env: Env)
    requires Arrival(frozen, a, s) && forall q {:trigger IsParentMap(Union(a, s), q)} :: IsParentMap(Union(a, s), q) ==>
        q == parent
    ensures env.frozen == frozen && WfEnv(env) && Lists(IndexOfForm(env, a)) && ListsPasses(env, Union(a, s))
  {
    var f := Form(frozen, Union(a, s));
    var h := Resliced(frozen, DRIVETRAIN, f, parent);
    var big := h.(types := h.types + f.types);
    env := EnvFor(frozen, big);
    ListsLess(env, h, big);
    SmallerForm(frozen, a, s);
    ListsLess(env, Form(frozen, a), big);
    assert IsIndex(env, Form(env.frozen, a), IndexOfForm(env, a)) by {
      var ix := SomeIndex(env, Form(env.frozen, a));
      LevelledIndex(env, a, ix);
    }
    ListsIndex(env, Form(frozen, a), Form(frozen, a), IndexOfForm(env, a));
  }
}
