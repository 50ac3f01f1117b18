/** A source that mixes roots or elements: the refreshed view is the full derive exactly when the
    affected set holds the class of every old root it stirs. */
module MixedStale {
  import opened Vocabulary
  import opened Closure
  import opened Rollup
  import opened Reach
  import opened Aggregate
  import opened YearSlicer
  import opened YearForm
  import opened StoreIndex
  import opened StoreFrame
  import opened Affected
  import opened Mixing
  import opened Drift
  import opened DriftSlice
  import opened Drivetrains
  import opened DriftView
  import opened MixedRoots
  import opened HeldElements
  import opened ServedView
  import EngineLaws
  import RowRollup
  import V = ValueSlicer

  type Classes = V.Classes

  /** No amount is zero and each of the given instances reaches an element. */
  ghost predicate Substantial(u: Graph, ns: set<Node>) {
    AllPositive(DagOf(u)) && forall n :: n in ns ==> Holds(DagOf(u), n)
  }

  lemma PassDag(env: Env, u: Graph, parent: map<Node, Node>, h: Graph, ix: Index)
    requires Remade(env, u, parent, h, ix)
    ensures Wf(ix.dag) && ix.dag == DagOf(u) && Tops(ix) == TopNodes(u)
  {
    DriftedIs(env.frozen, u, h);
    assert ix.dag == DagOf(u) by {
      assert SameContent(u, h);
    }
    TopsOfIndex(ix, u);
  }

  // ---- the derive is not refused ----------------------------------------------------------------

  lemma TopTimed(env: Env, u: Graph, parent: map<Node, Node>, h: Graph, ix: Index, n: Node)
    requires Remade(env, u, parent, h, ix) && n in TopNodes(u)
    ensures ClassOf(ix, n) in ix.time <==> n in u.when
  {
    if Mixed(env.frozen, u, parent, n) {
      MixedInLeaf(env, u, parent, h, ix, n);
    } else {
      assert ClassOf(ix, n) in ix.time <==> n in u.when by {
        PartsWithin(u);
        PassTop(env, u, parent, h, ix, n);
        TimedIff(env, u, n);
        TimeInDrift(env, u, h, ix, ClassOf(ix, n));
      }
    }
  }

  /** The derive after the pass is refused exactly when a Product or Component top has no time. */
  lemma PassTimed(env: Env, u: Graph, g: Graph, parent: map<Node, Node>, h: Graph, ix: Index)
    requires MadeBy(env.frozen, u, g, parent, h) && IsIndex(env, h, ix)
    ensures Untimed(ix) == {} <==> FamilyTimed(u)
  {
    PassRemade(env, u, g, parent, h, ix);
    PassDag(env, u, parent, h, ix);
    forall n | n in TopNodes(u)
      ensures ClassOf(ix, n) in ix.time <==> n in u.when
      ensures IsProductOrComponent(ix, n) <==> n in FamilyTops(u)
    {
      TopTimed(env, u, parent, h, ix, n);
    }
    UntimedByTop(ix);
  }

  lemma UntimedByTop(ix: Index)
    ensures Untimed(ix) == {}
        <==> forall n :: n in Tops(ix) && IsProductOrComponent(ix, n) ==> ClassOf(ix, n) in ix.time
  {
    if n :| n in Tops(ix) && IsProductOrComponent(ix, n) && ClassOf(ix, n) !in ix.time {
      assert ClassOf(ix, n) in Untimed(ix);
    }
  }

  // ---- a row the refresh does not reach ------------------------------------------------------------

  /** The row is a value leaf's, or lists one. */
  ghost predicate ShowsLeaf(view: View, c: Cls) {
    c in view && (c.ValueLeaf? || exists ec {:trigger ec in view[c].best} :: ec in view[c].best && ec.ValueLeaf?)
  }

  ghost predicate LeafFree(view: View) {
    forall c {:trigger ShowsLeaf(view, c)} :: !ShowsLeaf(view, c)
  }

  /** The view of `ix` shows a leaf at the class. */
  ghost predicate Shows(ix: Index, compound: bool, c: Cls) {
    forall v {:trigger Views(ix, compound, v)} :: Views(ix, compound, v) ==> ShowsLeaf(v, c)
  }

  ghost predicate Leafless(ix: Index, compound: bool) {
    forall v {:trigger Views(ix, compound, v)} :: Views(ix, compound, v) ==> LeafFree(v)
  }

  lemma LeafMissed(small: View, big: View, affected: set<Cls>, c: Cls)
    requires LeafFree(small) && ShowsLeaf(big, c) && c !in affected
    ensures Spliced(small, big, affected) != big
  {
    assert !ShowsLeaf(small, c);
    assert c in Spliced(small, big, affected) ==> c in small && Spliced(small, big, affected)[c] == small[c];
  }

  lemma ElementsPlain(env: Env, a: Graph, ec: Cls)
    requires Authored(a) && Timeless(env.frozen) && ec in ElementClasses(IndexOfForm(env, a))
    ensures !ec.ValueLeaf?
  {
    var ix := IndexOfForm(env, a);
    var cs := set n | n in ix.dag.level && ix.dag.level[n] == Element :: ClassOf(ix, n);
    OnlyMembers(ix.names, cs);
    var n :| n in ix.dag.level && ClassOf(ix, n) == ec;
  }

  lemma RowListed(ix: Index, c: Cls, ec: Cls)
    requires Wf(ix.dag) && c in AmountTable(ix, Best) && ec in AmountTable(ix, Best)[c]
    ensures ec in ElementClasses(ix)
  {
    TableListed(ElementClasses(ix), LeafRows(ix, Best), Schedule(HierOf(ix)));
  }

  lemma {:induction false} TableListed(elems: seq<Cls>, leaf: map<Cls, Amounts>, steps: seq<Step>)
    requires Within(elems, leaf)
    ensures Within(elems, RowRollup.MeanRows(elems, leaf, steps))
  {
    if steps != [] {
      TableListed(elems, leaf, steps[..|steps| - 1]);
    }
  }

  lemma PlainLeafless(ix: Index, compound: bool)
    requires Wf(ix.dag) && AllPlain(ix) && forall ec :: ec in ElementClasses(ix) ==> !ec.ValueLeaf?
    ensures Leafless(ix, compound)
  {
    ServedClasses(ix, compound);
    ComputedWithin(ix);
    forall c | c in ViewOf(ix, compound) ensures !ShowsLeaf(ViewOf(ix, compound), c) {
      forall ec | ec in ViewOf(ix, compound)[c].best ensures !ec.ValueLeaf? {
        RowListed(ix, c, ec);
      }
    }
  }

  /** A view of the content itself shows no leaf. */
  lemma FormLeafless(env: Env, compound: bool, a: Graph)
    requires Authored(a) && Timeless(env.frozen) && Wf(IndexOfForm(env, a).dag)
    ensures Leafless(IndexOfForm(env, a), compound)
  {
    FormPlain(env, a);
    forall ec | ec in ElementClasses(IndexOfForm(env, a)) ensures !ec.ValueLeaf? {
      ElementsPlain(env, a, ec);
    }
    PlainLeafless(IndexOfForm(env, a), compound);
  }

  // ---- an old root, or one that holds a moved element ---------------------------------------------------

  /** An index after an add to content that reports its amounts. */
  ghost predicate Adding(env: Env, u: Graph, wholes: set<Node>, parent: map<Node, Node>, h: Graph, ix: Index) {
    Remade(env, u, parent, h, ix) && wholes <= u.level.Keys && AllPositive(DagOf(u)) && Lists(ix)
  }

  /** The class of the top is not affected. */
  ghost predicate Passed(frozen: Classes, u: Graph, wholes: set<Node>, n: Node) {
    n in TopNodes(u) && Classified(u) && n in u.level && BaseOf(u, n) !in AffectedBases(frozen, u, wholes)
        && Holds(DagOf(u), n)
  }

  lemma PassedOutside(env: Env, u: Graph, wholes: set<Node>, parent: map<Node, Node>, h: Graph, ix: Index, n: Node)
    requires Adding(env, u, wholes, parent, h, ix) && Passed(env.frozen, u, wholes, n)
    ensures Wf(ix.dag) && ix.dag == DagOf(u) && n in Tops(ix) && ClassOf(ix, n) in LeafClasses(ix)
    ensures ClassOf(ix, n) !in AffectedBy(h, wholes)
  {
    DriftedIs(env.frozen, u, h);
    PassDag(env, u, parent, h, ix);
    assert h.level == u.level by {
      assert SameContent(u, h);
    }
    assert (n, ClassOf(ix, n)) in h.types;
    ClassRoot(env.frozen, u, h, n, ClassOf(ix, n));
    AffectedRoots(env.frozen, u, h, wholes);
  }

  lemma StirredBasesAbove(frozen: Classes, u: Graph, parent: map<Node, Node>)
    requires Plain(u) && Timeless(frozen)
    ensures Closed(Tax(frozen, u), StirredBases(frozen, u, parent)) && forall c ::
        c in StirredBases(frozen, u, parent) ==> c.Named?
  {
    StirredBasesNamed(frozen, u, parent);
  }

  /** Above a mixed root's leaf there are no other leaves ... */
  lemma MixedAbovePlain(env: Env, u: Graph, parent: map<Node, Node>, h: Graph, ix: Index, m: Node, c: Cls)
    requires Remade(env, u, parent, h, ix)
    requires m in TopNodes(u) && Mixed(env.frozen, u, parent, m) && c in Above(ix, m)
    ensures !c.ValueLeaf?
  {
    var bases := StirredBases(env.frozen, u, parent);
    assert InLeaf(ix, m, bases) by {
      MixedInLeaf(env, u, parent, h, ix, m);
    }
    assert ix.sup == env.frozen + h.sub && Plain(u) && Timeless(env.frozen);
    StirredBasesAbove(env.frozen, u, parent);
    assert !c.ValueLeaf? by {
      LeafServable(env.frozen, u, h, bases, ix, m, c);
    }
  }

  /** ... nor above any other root's class. */
  lemma AbovePlain(env: Env, u: Graph, parent: map<Node, Node>, h: Graph, ix: Index, m: Node, c: Cls)
    requires Remade(env, u, parent, h, ix)
    requires m in TopNodes(u) && c in Above(ix, m)
    ensures !c.ValueLeaf?
  {
    if Mixed(env.frozen, u, parent, m) {
      MixedAbovePlain(env, u, parent, h, ix, m, c);
    } else {
      PassTop(env, u, parent, h, ix, m);
      FormIndex(env, u);
      SameServable(IndexOfForm(env, u), ix, m, c);
      assert !c.ValueLeaf? by {
        UsedSlices(env, u, IndexOfForm(env, u), c);
      }
    }
  }

  lemma LeafNoAncestor(env: Env, u: Graph, parent: map<Node, Node>, h: Graph, ix: Index, c: Cls)
    requires Remade(env, u, parent, h, ix) && Tops(ix) == TopNodes(u)
    requires c.ValueLeaf?
    ensures c !in AncestorClasses(ix)
  {
    AncestorsByTop(ix);
    if c in AncestorClasses(ix) {
      var m :| m in Tops(ix) && c in Above(ix, m);
      AbovePlain(env, u, parent, h, ix, m, c);
    }
  }

  lemma HeldShown(ix: Index, compound: bool, n: Node, en: Node)
    requires Wf(ix.dag) && AllPositive(ix.dag) && Lists(ix) && n in Tops(ix) && ClassOf(ix, n) !in AncestorClasses(ix)
    requires n in ix.dag.level && IsElement(ix.dag, en) && Paths(ix.dag, n, en) != []
    requires ClassOf(ix, n).ValueLeaf? || ClassOf(ix, en).ValueLeaf?
    ensures Shows(ix, compound, ClassOf(ix, n))
  {
    HeldServed(ix, compound, n, en);
    assert ShowsLeaf(ViewOf(ix, compound), ClassOf(ix, n));
  }

  /** A mixed root has a row of its own, ... */
  lemma MixedRootShown(env: Env, compound: bool, u: Graph, wholes: set<Node>, parent: map<Node, Node>, h: Graph,
                       ix: Index, n: Node)
    requires Adding(env, u, wholes, parent, h, ix) && Passed(env.frozen, u, wholes, n)
    requires Mixed(env.frozen, u, parent, n)
    ensures Wf(ix.dag) && Shows(ix, compound, ClassOf(ix, n))
  {
    PassDag(env, u, parent, h, ix);
    MixedInLeaf(env, u, parent, h, ix, n);
    LeafNoAncestor(env, u, parent, h, ix, ClassOf(ix, n));
    var en :| IsElement(ix.dag, en) && Paths(ix.dag, n, en) != [];
    HeldShown(ix, compound, n, en);
  }

  lemma HeldServed(ix: Index, compound: bool, n: Node, en: Node)
    requires Wf(ix.dag) && AllPositive(ix.dag) && Lists(ix) && n in Tops(ix) && ClassOf(ix, n) !in AncestorClasses(ix)
    requires n in ix.dag.level && IsElement(ix.dag, en) && Paths(ix.dag, n, en) != []
    ensures ClassOf(ix, n) in ViewOf(ix, compound) && ClassOf(ix, en) in ViewOf(ix, compound)[ClassOf(ix, n)].best
  {
    HeldInRow(ix, n, en);
    assert ClassOf(ix, n) in ViewOf(ix, compound) && ClassOf(ix, en) in ViewOf(ix, compound)[ClassOf(ix, n)].best by {
      var h := HierOf(ix);
      ScheduleStable(h, |h.ancestors| + 1);
      ParentsCount(h, Schedule(h));
      RowRollup.MeanRowKeys(ElementClasses(ix), LeafRows(ix, Best), Schedule(h));
      assert AmountTable(ix, Best)[ClassOf(ix, n)] == LeafRow(ix, Best, ClassOf(ix, n));
    }
  }

  /** ... and the row of a root that holds a mixed element lists the element anew. */
  lemma HolderShown(env: Env, compound: bool, u: Graph, wholes: set<Node>, parent: map<Node, Node>, h: Graph, ix: Index,
                    n: Node, en: Node)
    requires Adding(env, u, wholes, parent, h, ix) && n in TopNodes(u) && n in u.level && EngineLaws.Antichain(ix)
    requires IsElement(DagOf(u), en) && Mixed(env.frozen, u, parent, en) && Paths(DagOf(u), n, en) != []
    ensures Wf(ix.dag) && Shows(ix, compound, ClassOf(ix, n))
  {
    PassDag(env, u, parent, h, ix);
    assert ClassOf(ix, n) in LeafClasses(ix);
    assert en in Fixed(u) && Settles(env.frozen, u, parent, h, ix, en);
    HeldShown(ix, compound, n, en);
  }

  // ---- exactness ------------------------------------------------------------------------------------------

  /** The classes of the store's roots that the source stirs. */
  ghost function OldStirred(frozen: Classes, a: Graph, s: Graph, parent: map<Node, Node>): set<Cls> {
    ClassesAt(a, StirredAmong(frozen, Union(a, s), parent, TopNodes(a)))
  }

  lemma StirredClass(frozen: Classes, a: Graph, s: Graph, parent: map<Node, Node>, e: (Node, Cls))
    requires Arrival(frozen, a, s)
    requires OldStirred(frozen, a, s, parent) <= AffectedBases(frozen, Union(a, s), NewWholes(s))
    requires e in Union(a, s).types && e.0 in TopNodes(a) + TopNodes(s) && Stirred(frozen, Union(a, s), parent, e.0)
    ensures e.1 in AffectedBases(frozen, Union(a, s), NewWholes(s))
  {
    if e.0 in TopNodes(a) {
      PartsWithin(a);
      assert e in a.types && e.1 in OldStirred(frozen, a, s, parent);
    } else {
      assert e.0 in NewWholes(s) && e.1 in ClassesAt(Union(a, s), NewWholes(s));
    }
  }

  lemma StirredCovered(frozen: Classes, a: Graph, s: Graph, parent: map<Node, Node>)
    requires Arrival(frozen, a, s) && Closed(Tax(frozen, Union(a, s)), AffectedBases(frozen, Union(a, s), NewWholes(s)))
    requires OldStirred(frozen, a, s, parent) <= AffectedBases(frozen, Union(a, s), NewWholes(s))
    ensures StirredMissed(frozen, a, s, parent) == {}
  {
    var u, bases := Union(a, s), AffectedBases(frozen, Union(a, s), NewWholes(s));
    var stirred := StirredAmong(frozen, u, parent, TopNodes(u));
    TopsOfUnion(a, s);
    forall c | c in ClassesAt(u, stirred) ensures c in bases {
      var e :| e in u.types && e.0 in stirred && e.1 == c;
      StirredClass(frozen, a, s, parent, e);
    }
    ReachLeast(Tax(frozen, u), ClassesAt(u, stirred), bases);
  }

  lemma StirredPassed(frozen: Classes, a: Graph, s: Graph, parent: map<Node, Node>, c: Cls) returns (n: Node)
    requires Arrival(frozen, a, s)
    requires c in OldStirred(frozen, a, s, parent) && c !in AffectedBases(frozen, Union(a, s), NewWholes(s))
    requires Substantial(Union(a, s), TopNodes(a))
    ensures Passed(frozen, Union(a, s), NewWholes(s), n) && Stirred(frozen, Union(a, s), parent, n)
  {
    var u := Union(a, s);
    var e :| e in a.types && e.0 in StirredAmong(frozen, u, parent, TopNodes(a)) && e.1 == c;
    n := e.0;
    assert Authored(u) by {
      AuthoredUnion(a, s);
    }
    assert n in TopNodes(u) by {
      TopsOfUnion(a, s);
    }
    assert e in u.types && n in u.level;
  }

  lemma ShownStale(small: Index, ix: Index, compound: bool, affected: set<Cls>, c: Cls)
    requires Leafless(small, compound) && Shows(ix, compound, c) && c !in affected
    ensures Outdated(small, ix, compound, affected)
  {
    forall v, w | Views(small, compound, v) && Views(ix, compound, w) ensures Spliced(v, w, affected) != w {
      LeafMissed(v, w, affected, c);
    }
  }

  lemma StirredStale(env: Env, compound: bool, small: Index, u: Graph, wholes: set<Node>, parent: map<Node, Node>,
                     h: Graph, ix: Index, n: Node)
    requires Adding(env, u, wholes, parent, h, ix) && Passed(env.frozen, u, wholes, n)
    requires Stirred(env.frozen, u, parent, n)
    requires Leafless(small, compound) && (Mixed(env.frozen, u, parent, n) || EngineLaws.Antichain(ix))
    ensures Wf(ix.dag) && Outdated(small, ix, compound, AffectedBy(h, wholes))
  {
    PassedOutside(env, u, wholes, parent, h, ix, n);
    if Mixed(env.frozen, u, parent, n) {
      MixedRootShown(env, compound, u, wholes, parent, h, ix, n);
    } else {
      var en :| IsElement(DagOf(u), en) && Mixed(env.frozen, u, parent, en) && Paths(DagOf(u), n, en) != [];
      HolderShown(env, compound, u, wholes, parent, h, ix, n, en);
    }
    ShownStale(small, ix, compound, AffectedBy(h, wholes), ClassOf(ix, n));
  }

  /** Where the affected bases are closed under the taxonomy, refreshing gives the full derive
      exactly when they hold the classes of all old roots the source stirs. */
  lemma SpliceIff(env: Env, compound: bool, a: Graph, s: Graph, g: Graph, parent: map<Node, Node>, h: Graph, ix: Index)
    requires Arrival(env.frozen, a, s) && FamilyTimed(Union(a, s)) && Missed(env.frozen, a, s) == {}
    requires MadeBy(env.frozen, Union(a, s), g, parent, h) && IsIndex(env, h, ix)
    requires Closed(Tax(env.frozen, Union(a, s)), AffectedBases(env.frozen, Union(a, s), NewWholes(s)))
    requires Substantial(Union(a, s), TopNodes(a)) && Lists(ix) && EngineLaws.Antichain(ix)
    ensures var small, affected := IndexOfForm(env, a), AffectedBy(h, NewWholes(s));
            && Wf(small.dag) && Wf(ix.dag) && Untimed(ix) == {}
            && (Spliced(ViewOf(small, compound), ViewOf(ix, compound), affected) == ViewOf(ix, compound)
                <==> OldStirred(env.frozen, a, s, parent) <= AffectedBases(env.frozen, Union(a, s), NewWholes(s)))
  {
    PassTimed(env, Union(a, s), g, parent, h, ix);
    if OldStirred(env.frozen, a, s, parent) <= AffectedBases(env.frozen, Union(a, s), NewWholes(s)) {
      StirredCovered(env.frozen, a, s, parent);
      RootsSplice(env, compound, a, s, g, parent, h, ix);
    } else {
      var c :| c in OldStirred(env.frozen, a, s, parent) && c !in AffectedBases(env.frozen, Union(a, s), NewWholes(s));
      var n := StirredPassed(env.frozen, a, s, parent, c);
      OldRootStale(env, compound, a, s, g, parent, h, ix, n);
      OutdatedIs(IndexOfForm(env, a), ix, compound, AffectedBy(h, NewWholes(s)));
    }
  }

  lemma OldRootStale(env: Env, compound: bool, a: Graph, s: Graph, g: Graph, parent: map<Node, Node>, h: Graph,
                     ix: Index, n: Node)
    requires Arrival(env.frozen, a, s) && MadeBy(env.frozen, Union(a, s), g, parent, h) && IsIndex(env, h, ix)
    requires AllPositive(DagOf(Union(a, s))) && Lists(ix)
    requires Passed(env.frozen, Union(a, s), NewWholes(s), n) && Stirred(env.frozen, Union(a, s), parent, n)
    requires Mixed(env.frozen, Union(a, s), parent, n) || EngineLaws.Antichain(ix)
    ensures Wf(IndexOfForm(env, a).dag) && Wf(ix.dag)
    ensures Outdated(IndexOfForm(env, a), ix, compound, AffectedBy(h, NewWholes(s)))
  {
    FormIndex(env, a);
    FormLeafless(env, compound, a);
    PartsWithin(s);
    PassRemade(env, Union(a, s), g, parent, h, ix);
    StirredStale(env, compound, IndexOfForm(env, a), Union(a, s), NewWholes(s), parent, h, ix, n);
  }

  /** A steady source stirs nothing. */
  lemma SteadyStirs(frozen: Classes, u: Graph, parent: map<Node, Node>)
    requires Authored(u) && Steady(frozen, u) && V.IsParentMap(u, parent)
    ensures StirredBases(frozen, u, parent) == {}
  {
    forall n | n in TopNodes(u) ensures !Stirred(frozen, u, parent, n) {
      TopIsFixed(u, n);
      forall en | en in u.level && u.level[en] == Element ensures !Mixed(frozen, u, parent, en) {
        assert en in Fixed(u);
      }
    }
    assert StirredAmong(frozen, u, parent, TopNodes(u)) == {};
    assert ClassesAt(u, {}) == {};
    ReachNothing(Tax(frozen, u), {});
  }
}
