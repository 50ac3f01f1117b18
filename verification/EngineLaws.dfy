/** What the three class tables mean, from the composition paths up to the top of the class
    tree: bounded uncertainty, conserved mass, nested time. */
module EngineLaws {
  import opened Vocabulary
  import opened Sums
  import opened Hierarchy
  import opened Rollup
  import opened RowRollup
  import opened RowLaws
  import opened Reach
  import opened MassBalance
  import opened TermMemo
  import opened Aggregate

  // ---- uncertainty --------------------------------------------------------------------------

  /** No fraction is negative. */
  ghost predicate NonNegative(d: Dag) {
    forall n, i :: n in d.level && 0 <= i < |Edges(d, n)| ==> Edges(d, n)[i].best >= 0.0
  }

  lemma {:induction false} PathWeightSign(d: Dag, n: Node, p: seq<nat>)
    requires Wf(d) && NonNegative(d) && n in d.level
    ensures PathWeight(d, Best, n, p) >= 0.0
    decreases |p|
  {
    if p != [] && p[0] < |Edges(d, n)| {
      var e := Edges(d, n)[p[0]];
      PathWeightSign(d, e.part, p[1..]);
      assert e.best >= 0.0;
    }
  }

  /** Every composition path from the roots of class `c` to an element of class `ec` has
      squared relative uncertainty at most `hi`. */
  ghost predicate TermsWithin(ix: Index, compound: bool, c: Cls, ec: Cls, hi: real)
    requires Wf(ix.dag)
  {
    forall n, en, p ::
        n in Roots(ix, c) && n in ix.dag.level && en in ElementNodes(ix, ec) && p in Paths(ix.dag, n, en) ==>
      PathVariance(ix.dag, compound, n, p) <= hi
  }

  lemma PathTermsWithin(d: Dag, compound: bool, n: Node, ps: seq<seq<nat>>, hi: real)
    requires Wf(d) && NonNegative(d) && n in d.level
    requires forall p :: p in ps ==> PathVariance(d, compound, n, p) <= hi
    ensures Weighted(TermList(d, compound, n, ps), 0.0, hi)
  {
    forall j | 0 <= j < |ps|
      ensures TermOf(d, compound, n, ps[j]).weight >= 0.0 && 0.0 <= TermOf(d, compound, n, ps[j]).x <= hi
    {
      PathWeightSign(d, n, ps[j]);
      assert PathVariance(d, compound, n, ps[j]) >= 0.0 by {
        CompoundPath(d, n, ps[j]);
      }
      assert ps[j] in ps;
    }
  }

  lemma {:induction false} NodeTermsWithin(ix: Index, compound: bool, n: Node, es: seq<Node>, hi: real)
    requires Wf(ix.dag) && NonNegative(ix.dag)
    requires n in ix.dag.level ==> forall en, p :: en in es && p in Paths(ix.dag, n, en) ==>
        PathVariance(ix.dag, compound, n, p) <= hi
    ensures Weighted(NodeTerms(ix, compound, n, es), 0.0, hi)
  {
    if es != [] && n in ix.dag.level {
      var init, en := es[..|es| - 1], es[|es| - 1];
      NodeTermsWithin(ix, compound, n, init, hi);
      PathTermsWithin(ix.dag, compound, n, Paths(ix.dag, n, en), hi);
    }
  }

  lemma {:induction false} PooledTermsWithin(ix: Index, compound: bool, roots: seq<Node>, k: nat, ec: Cls, hi: real)
    requires Wf(ix.dag) && NonNegative(ix.dag) && k > 0
    requires forall n, en, p :: n in roots && n in ix.dag.level && en in ElementNodes(ix, ec) && p in Paths(ix.dag, n, en) ==>
               PathVariance(ix.dag, compound, n, p) <= hi
    ensures Weighted(PooledTerms(ix, compound, roots, k, ec), 0.0, hi)
  {
    if roots != [] {
      var init, n := roots[..|roots| - 1], roots[|roots| - 1];
      PooledTermsWithin(ix, compound, init, k, ec, hi);
      NodeTermsWithin(ix, compound, n, ElementNodes(ix, ec), hi);
    }
  }

  /** Pooling paths never raises the relative uncertainty above the worst path's. */
  lemma RssWithin(ts: seq<Term>, hi: real)
    requires Weighted(ts, 0.0, hi) && hi >= 0.0 && Rss(ts).Some?
    ensures 0.0 <= Rss(ts).value <= hi
  {
    VarianceBound(ts, hi);
    ScaledVariance(Variance(ts), Weight(ts), Weight(ts), 1.0, hi);
  }

  /** A leaf class's relative uncertainty is at most its worst composition path's. */
  lemma LeafUncertaintyWithin(ix: Index, compound: bool, c: Cls, ec: Cls, hi: real)
    requires Wf(ix.dag) && NonNegative(ix.dag) && hi >= 0.0 && TermsWithin(ix, compound, c, ec, hi)
    requires ec in LeafUncertaintyRow(ix, compound, c)
    ensures 0.0 <= LeafUncertaintyRow(ix, compound, c)[ec] <= hi
  {
    var roots := Roots(ix, c);
    PooledTermsWithin(ix, compound, roots, |roots|, ec, hi);
    RssWithin(PooledTerms(ix, compound, roots, |roots|, ec), hi);
  }

  /** No class with instances of its own is also rolled up into. */
  ghost predicate Antichain(ix: Index) {
    LeafClasses(ix) !! AncestorClasses(ix)
  }

  lemma TablePositive(ix: Index)
    requires Wf(ix.dag)
    ensures Positive(LeafRows(ix, Best)) && Positive(AmountTable(ix, Best))
  {
    AmountPositive(ElementClasses(ix), LeafRows(ix, Best), Schedule(HierOf(ix)));
  }

  lemma OverlayIsBest(h: Hier, elems: seq<Cls>, leaf: map<Cls, Amounts>, steps: seq<Step>)
    requires leaf.Keys !! MeanRows(elems, leaf, steps).Keys
    ensures BestOf(h, elems, leaf, steps, leaf + MeanRows(elems, leaf, steps))
  {
  }

  lemma TableIsBest(ix: Index)
    requires Wf(ix.dag) && Antichain(ix)
    ensures Valid(HierOf(ix), Schedule(HierOf(ix)))
    ensures BestOf(HierOf(ix), ElementClasses(ix), LeafRows(ix, Best), Schedule(HierOf(ix)), AmountTable(ix, Best))
  {
    var h, leaf, elems := HierOf(ix), LeafRows(ix, Best), ElementClasses(ix);
    ScheduleStable(h, |h.ancestors| + 1);
    MeanRowKeys(elems, leaf, Schedule(h));
    ParentsCount(h, Schedule(h));
    OverlayIsBest(h, elems, leaf, Schedule(h));
  }

  /** Averaging never increases relative uncertainty: at every height of the class tree a
      class's entry is at most the worst composition path of the leaf classes below it. */
  lemma TableUncertaintyWithin(ix: Index, compound: bool, p: Cls, ec: Cls, hi: real)
    requires Wf(ix.dag) && NonNegative(ix.dag) && Antichain(ix) && hi >= 0.0
    requires forall l :: l in Below(LeafClasses(ix), Schedule(HierOf(ix)), p) && l in LeafClasses(ix) ==>
        TermsWithin(ix, compound, l, ec, hi)
    requires var t := UncertaintyTable(ix, compound, AmountTable(ix, Best)); p in t && ec in t[p]
    ensures 0.0 <= UncertaintyTable(ix, compound, AmountTable(ix, Best))[p][ec] <= hi
  {
    var h, elems, best := HierOf(ix), ElementClasses(ix), AmountTable(ix, Best);
    var leafU, steps := LeafUncertainties(ix, compound), Schedule(h);
    UncertaintyRowKeys(elems, leafU, best, steps);
    forall l | l in Below(h.leaves, steps, p) && l in leafU && ec in leafU[l] ensures 0.0 <= leafU[l][ec] <= hi {
      LeafUncertaintyWithin(ix, compound, l, ec, hi);
    }
    if p in UncertaintyRows(elems, leafU, best, steps) {
      TablePositive(ix);
      TableIsBest(ix);
      UncertaintyNeverGrows(h, elems, LeafRows(ix, Best), leafU, best, steps, p, ec, hi);
    }
  }

  /** The same values, each carrying no less uncertainty. */
  ghost predicate Dominates(a: seq<Term>, b: seq<Term>) {
    |a| == |b| && forall j :: 0 <= j < |a| ==> a[j].weight == b[j].weight && a[j].x <= b[j].x
  }

  lemma PathsDominate(d: Dag, n: Node, ps: seq<seq<nat>>)
    ensures Dominates(TermList(d, false, n, ps), TermList(d, true, n, ps))
  {
    forall j | 0 <= j < |ps| {
      CompoundPath(d, n, ps[j]);
    }
  }

  lemma {:induction false} NodesDominate(ix: Index, n: Node, es: seq<Node>)
    requires Wf(ix.dag)
    ensures Dominates(NodeTerms(ix, false, n, es), NodeTerms(ix, true, n, es))
  {
    if es != [] && n in ix.dag.level {
      NodesDominate(ix, n, es[..|es| - 1]);
      PathsDominate(ix.dag, n, Paths(ix.dag, n, es[|es| - 1]));
    }
  }

  lemma {:induction false} PoolsDominate(ix: Index, roots: seq<Node>, k: nat, ec: Cls)
    requires Wf(ix.dag) && k > 0
    ensures Dominates(PooledTerms(ix, false, roots, k, ec), PooledTerms(ix, true, roots, k, ec))
  {
    if roots != [] {
      var n, es := roots[|roots| - 1], ElementNodes(ix, ec);
      PoolsDominate(ix, roots[..|roots| - 1], k, ec);
      NodesDominate(ix, n, es);
    }
  }

  /** Compounding along paths never lowers a leaf class's pooled uncertainty. */
  lemma CompoundingNeverLowersLeaf(ix: Index, c: Cls)
    requires Wf(ix.dag)
    ensures var plain, along := LeafUncertaintyRow(ix, false, c), LeafUncertaintyRow(ix, true, c);
            plain.Keys == along.Keys && forall ec :: ec in plain ==> plain[ec] <= along[ec]
  {
    var roots := Roots(ix, c);
    forall ec ensures match (LeafUncertainty(ix, false, roots, ec), LeafUncertainty(ix, true, roots, ec))
        case (None, None) => true
        case (Some(x), Some(y)) => x <= y
        case _ => false
    {
      if roots != [] {
        var a, b := PooledTerms(ix, false, roots, |roots|, ec), PooledTerms(ix, true, roots, |roots|, ec);
        PoolsDominate(ix, roots, |roots|, ec);
        VarianceMonotone(a, b);
        if Weight(a) > 0.0 {
          RatioOrder(Variance(a), Variance(b), 1.0, Weight(a));
        }
      }
    }
  }

  // ---- data quality ----------------------------------------------------------------------------

  /** Every scored path from the roots of class `c` to an element of class `ec` has its mean
      in the bounds and its score at most `worst`. */
  ghost predicate ScoresWithin(ix: Index, c: Cls, ec: Cls, lo: real, hi: real, worst: int)
    requires Wf(ix.dag)
  {
    forall n, en, p ::
        n in Roots(ix, c) && n in ix.dag.level && en in ElementNodes(ix, ec) && p in Paths(ix.dag, n, en) ==>
      Scored(PathQuality(ix, n, p), lo, hi, worst)
  }

  ghost predicate Scored(q: Option<Quality>, lo: real, hi: real, worst: int) {
    q.Some? ==> lo <= q.value.mean <= hi && q.value.score <= worst
  }

  /** The pool's mean would lie in the bounds and its score below `worst`. */
  ghost predicate PoolWithin(pool: Pool, lo: real, hi: real, worst: int) {
    && pool.wtot >= 0.0
    && Times(pool.wtot, lo) <= pool.wsum <= Times(pool.wtot, hi)
    && (pool.worst.Some? ==> pool.worst.value <= worst)
  }

  lemma AddWithin(pool: Pool, w: real, q: Quality, lo: real, hi: real, worst: int)
    requires PoolWithin(pool, lo, hi, worst) && w >= 0.0 && Scored(Some(q), lo, hi, worst)
    ensures PoolWithin(pool.Add(w, q), lo, hi, worst)
  {
    MomentStep(pool.wtot, pool.wsum, w, q.mean, lo, hi);
  }

  lemma {:induction false} AddPathsWithin(ix: Index, n: Node, ps: seq<seq<nat>>, k: nat, pool: Pool, lo: real, hi: real,
                                          worst: int)
    requires Wf(ix.dag) && NonNegative(ix.dag) && n in ix.dag.level && k > 0 && PoolWithin(pool, lo, hi, worst)
    requires forall p :: p in ps ==> Scored(PathQuality(ix, n, p), lo, hi, worst)
    ensures PoolWithin(AddPaths(ix, n, ps, k, pool), lo, hi, worst)
  {
    if ps != [] {
      var init, p := ps[..|ps| - 1], ps[|ps| - 1];
      AddPathsWithin(ix, n, init, k, pool, lo, hi, worst);
      assert p in ps;
      if PathQuality(ix, n, p).Some? {
        PathWeightSign(ix.dag, n, p);
        assert PathWeight(ix.dag, Best, n, p) / k as real >= 0.0;
        AddWithin(AddPaths(ix, n, init, k, pool), PathWeight(ix.dag, Best, n, p) / k as real,
                  PathQuality(ix, n, p).value, lo, hi, worst);
      }
    }
  }

  lemma {:induction false} AddNodeWithin(ix: Index, n: Node, es: seq<Node>, k: nat, pool: Pool, lo: real, hi: real,
                                         worst: int)
    requires Wf(ix.dag) && NonNegative(ix.dag) && k > 0 && PoolWithin(pool, lo, hi, worst)
    requires n in ix.dag.level ==> forall en, p :: en in es && p in Paths(ix.dag, n, en) ==>
        Scored(PathQuality(ix, n, p), lo, hi, worst)
    ensures PoolWithin(AddNode(ix, n, es, k, pool), lo, hi, worst)
  {
    if es != [] && n in ix.dag.level {
      var init, en := es[..|es| - 1], es[|es| - 1];
      AddNodeWithin(ix, n, init, k, pool, lo, hi, worst);
      assert en in es;
      AddPathsWithin(ix, n, Paths(ix.dag, n, en), k, AddNode(ix, n, init, k, pool), lo, hi, worst);
    }
  }

  lemma {:induction false} PooledQualityWithin(ix: Index, roots: seq<Node>, k: nat, ec: Cls, lo: real, hi: real,
                                               worst: int)
    requires Wf(ix.dag) && NonNegative(ix.dag) && k > 0
    requires forall n, en, p :: n in roots && n in ix.dag.level && en in ElementNodes(ix, ec) && p in Paths(ix.dag, n, en) ==>
               Scored(PathQuality(ix, n, p), lo, hi, worst)
    ensures PoolWithin(PooledQuality(ix, roots, k, ec), lo, hi, worst)
  {
    if roots != [] {
      var init, n := roots[..|roots| - 1], roots[|roots| - 1];
      PooledQualityWithin(ix, init, k, ec, lo, hi, worst);
      assert n in roots;
      AddNodeWithin(ix, n, ElementNodes(ix, ec), k, PooledQuality(ix, init, k, ec), lo, hi, worst);
    }
  }

  lemma LeafQualityWithin(ix: Index, c: Cls, ec: Cls, lo: real, hi: real, worst: int)
    requires Wf(ix.dag) && NonNegative(ix.dag) && ScoresWithin(ix, c, ec, lo, hi, worst)
    requires ec in LeafQualityRow(ix, c)
    ensures Scored(Some(LeafQualityRow(ix, c)[ec]), lo, hi, worst)
  {
    var roots := Roots(ix, c);
    PooledQualityWithin(ix, roots, |roots|, ec, lo, hi, worst);
  }

  /** At every height of the class tree the mean data quality stays in the hull of the path
      means below, and the score never exceeds the worst of theirs. */
  lemma TableQualityWithin(ix: Index, p: Cls, ec: Cls, lo: real, hi: real, worst: int)
    requires Wf(ix.dag) && NonNegative(ix.dag)
    requires forall l :: l in Below(LeafClasses(ix), Schedule(HierOf(ix)), p) && l in LeafClasses(ix) ==>
        ScoresWithin(ix, l, ec, lo, hi, worst)
    requires var t := QualityTable(ix, AmountTable(ix, Best)); p in t && ec in t[p]
    ensures Scored(Some(QualityTable(ix, AmountTable(ix, Best))[p][ec]), lo, hi, worst)
  {
    var h, elems, best, leafQ := HierOf(ix), ElementClasses(ix), AmountTable(ix, Best), LeafQualities(ix);
    var steps := Schedule(h);
    ScheduleStable(h, |h.ancestors| + 1);
    QualityRowKeys(elems, leafQ, best, steps);
    forall l | l in Below(h.leaves, steps, p) && l in leafQ && ec in leafQ[l]
      ensures lo <= leafQ[l][ec].mean <= hi && leafQ[l][ec].score <= worst
    {
      LeafQualityWithin(ix, l, ec, lo, hi, worst);
    }
    if p in QualityRows(elems, leafQ, best, steps) {
      TablePositive(ix);
      QualityInHull(h, elems, leafQ, best, steps, p, ec, lo, hi, worst);
    }
  }

  // ---- nested time -----------------------------------------------------------------------------

  /** When every top instance is a Product or Component, a class with a time draws, through
      any number of rollup steps, only on leaf classes whose time lies inside its own. */
  lemma TableTimeNested(ix: Index, p: Cls, l: Cls)
    requires Wf(ix.dag) && p in ix.time
    requires forall n :: n in Tops(ix) ==> IsProductOrComponent(ix, n)
    requires l in Drawn(LeafClasses(ix), Schedule(HierOf(ix)), p)
    ensures l in ix.time && ix.time[l].scope.Within(ix.time[p].scope)
  {
    var h := HierOf(ix);
    ScheduleStable(h, |h.ancestors| + 1);
    forall a | a in AncestorClasses(ix) ensures a in FamilyPC(ix) {
      var c :| c in LeafClasses(ix) && a in Ancestors(ix.sup, c) - {c};
      var n :| n in Tops(ix) && ClassOf(ix, n) == c;
      assert IsProductOrComponent(ix, n) && a in Ancestors(ix.sup, ClassOf(ix, n)) - {ClassOf(ix, n)};
    }
    DrawnTimeNested(h, Schedule(h), p);
  }

  // ---- mass ------------------------------------------------------------------------------------

  function AmountOf(row: Amounts, ec: Cls): real {
    if ec in row then row[ec] else 0.0
  }

  /** The total of a row over the listed element classes. */
  function Total(row: Amounts, ecs: seq<Cls>): real {
    if ecs == [] then 0.0 else Total(row, ecs[..|ecs| - 1]) + AmountOf(row, ecs[|ecs| - 1])
  }

  /** The element nodes of the listed element classes. */
  function AllNodes(ix: Index, ecs: seq<Cls>): seq<Node> {
    if ecs == [] then [] else AllNodes(ix, ecs[..|ecs| - 1]) + ElementNodes(ix, ecs[|ecs| - 1])
  }

  lemma {:induction false} AllNodesMembers(ix: Index, ecs: seq<Cls>)
    requires Distinct(ecs) && Distinct(ix.nodes)
    ensures Distinct(AllNodes(ix, ecs))
    ensures forall en :: en in AllNodes(ix, ecs) <==> en in ix.nodes && IsElement(ix.dag, en) && ClassOf(ix, en) in ecs
  {
    if ecs != [] {
      var init, ec := ecs[..|ecs| - 1], ecs[|ecs| - 1];
      assert ecs == init + [ec];
      assert ec !in init;
      AllNodesMembers(ix, init);
      OnlyMembers(ix.nodes, set n | n in ix.dag.level && ix.dag.level[n] == Element && ClassOf(ix, n) == ec);
      DistinctAppend(AllNodes(ix, init), ElementNodes(ix, ec));
    }
  }

  lemma {:induction false} TotalAppend(d: Dag, use: Use, n: Node, a: seq<Node>, b: seq<Node>)
    requires Wf(d) && n in d.level
    ensures TotalReach(d, use, n, a + b) == TotalReach(d, use, n, a) + TotalReach(d, use, n, b)
  {
    if b == [] {
      assert a + b == a;
    } else {
      var init := b[..|b| - 1];
      TotalAppend(d, use, n, a, init);
      assert (a + b)[..|a + b| - 1] == a + init;
    }
  }

  function PooledTotal(ix: Index, use: Use, roots: seq<Node>, es: seq<Node>): real
    requires Wf(ix.dag)
  {
    if roots == [] then 0.0
    else
      var n := roots[|roots| - 1];
      PooledTotal(ix, use, roots[..|roots| - 1], es)
          + (if n in ix.dag.level then TotalReach(ix.dag, use, n, es) else 0.0)
  }

  lemma {:induction false} PooledTotalAppend(ix: Index, use: Use, roots: seq<Node>, a: seq<Node>, ec: Cls)
    requires Wf(ix.dag)
    ensures PooledTotal(ix, use, roots, a + ElementNodes(ix, ec))
        == PooledTotal(ix, use, roots, a) + PooledAmount(ix, use, roots, ec)
  {
    if roots != [] {
      var n := roots[|roots| - 1];
      PooledTotalAppend(ix, use, roots[..|roots| - 1], a, ec);
      if n in ix.dag.level {
        TotalAppend(ix.dag, use, n, a, ElementNodes(ix, ec));
      }
    }
  }

  lemma {:induction false} PooledTotalBound(ix: Index, use: Use, roots: seq<Node>, es: seq<Node>)
    requires Wf(ix.dag) && Balanced(ix.dag, use) && Distinct(es)
    ensures 0.0 <= PooledTotal(ix, use, roots, es) <= |roots| as real
  {
    if roots != [] {
      var init, n := roots[..|roots| - 1], roots[|roots| - 1];
      PooledTotalBound(ix, use, init, es);
      if n in ix.dag.level {
        assert NodeBalanced(ix.dag, use, n);
        ReachConserved(ix.dag, use, n, |Edges(ix.dag, n)|, es);
      }
    }
  }

  lemma {:induction false} PooledTotalExact(ix: Index, use: Use, roots: seq<Node>, es: seq<Node>)
    requires Wf(ix.dag) && Balanced(ix.dag, use) && Complete(ix.dag, use) && Distinct(es)
    requires forall en :: IsElement(ix.dag, en) ==> en in es
    requires forall n :: n in roots ==> n in ix.dag.level && !IsElement(ix.dag, n)
    ensures PooledTotal(ix, use, roots, es) == |roots| as real
  {
    if roots != [] {
      var init, n := roots[..|roots| - 1], roots[|roots| - 1];
      PooledTotalExact(ix, use, init, es);
      assert NodeComplete(ix.dag, use, n);
      ReachComplete(ix.dag, use, n, |Edges(ix.dag, n)|, es);
    }
  }

  /** A leaf entry is the mean of the pooled amounts; a missing entry is a zero mean. */
  lemma EntryIsMean(ix: Index, use: Use, c: Cls, ec: Cls)
    requires Wf(ix.dag) && Balanced(ix.dag, use) && Distinct(ix.nodes) && ec in ElementClasses(ix) && Roots(ix, c) != []
    ensures AmountOf(LeafRow(ix, use, c), ec) == PooledAmount(ix, use, Roots(ix, c), ec) / |Roots(ix, c)| as real
  {
    var roots, es := Roots(ix, c), ElementNodes(ix, ec);
    OnlyMembers(ix.nodes, set n | n in ix.dag.level && ix.dag.level[n] == Element && ClassOf(ix, n) == ec);
    PooledTotalAppend(ix, use, roots, [], ec);
    PooledTotalEmpty(ix, use, roots);
    assert [] + es == es;
    PooledTotalBound(ix, use, roots, es);
    DivBounds(PooledAmount(ix, use, roots, ec), |roots| as real, 0.0, 1.0);
  }

  lemma {:induction false} PooledTotalEmpty(ix: Index, use: Use, roots: seq<Node>)
    requires Wf(ix.dag)
    ensures PooledTotal(ix, use, roots, []) == 0.0
  {
    if roots != [] {
      PooledTotalEmpty(ix, use, roots[..|roots| - 1]);
    }
  }

  lemma SumOfQuotients(a: real, b: real, k: real)
    requires k > 0.0
    ensures (a + b) / k == a / k + b / k
  {
  }

  lemma {:induction false} RowTotal(ix: Index, use: Use, c: Cls, ecs: seq<Cls>)
    requires Wf(ix.dag) && Balanced(ix.dag, use) && Distinct(ix.nodes) && Roots(ix, c) != []
    requires forall ec :: ec in ecs ==> ec in ElementClasses(ix)
    ensures Total(LeafRow(ix, use, c), ecs)
        == PooledTotal(ix, use, Roots(ix, c), AllNodes(ix, ecs)) / |Roots(ix, c)| as real
  {
    var roots := Roots(ix, c);
    if ecs == [] {
      PooledTotalEmpty(ix, use, roots);
    } else {
      var init, ec := ecs[..|ecs| - 1], ecs[|ecs| - 1];
      RowTotal(ix, use, c, init);
      EntryIsMean(ix, use, c, ec);
      PooledTotalAppend(ix, use, roots, AllNodes(ix, init), ec);
      SumOfQuotients(PooledTotal(ix, use, roots, AllNodes(ix, init)), PooledAmount(ix, use, roots, ec),
                     |roots| as real);
    }
  }

  lemma ElementClassesDistinct(ix: Index)
    requires WfIndex(ix)
    ensures Distinct(ElementClasses(ix)) && Distinct(AllNodes(ix, ElementClasses(ix)))
  {
    OnlyMembers(ix.names, set n | n in ix.dag.level && ix.dag.level[n] == Element :: ClassOf(ix, n));
    AllNodesMembers(ix, ElementClasses(ix));
  }

  /** Mass conservation: a leaf class's element amounts sum to at most 1 ... */
  lemma LeafMassConserved(ix: Index, use: Use, c: Cls)
    requires WfIndex(ix) && Balanced(ix.dag, use) && Roots(ix, c) != []
    ensures 0.0 <= Total(LeafRow(ix, use, c), ElementClasses(ix)) <= 1.0
  {
    var roots, es := Roots(ix, c), AllNodes(ix, ElementClasses(ix));
    ElementClassesDistinct(ix);
    RowTotal(ix, use, c, ElementClasses(ix));
    PooledTotalBound(ix, use, roots, es);
    DivBounds(PooledTotal(ix, use, roots, es), |roots| as real, 0.0, 1.0);
  }

  /** The name orders list every element node and its class. */
  ghost predicate ListsElements(ix: Index) {
    forall en :: IsElement(ix.dag, en) ==> en in ix.nodes && ClassOf(ix, en) in ix.names
  }

  /** ... and to exactly 1 when everything below its instances is fully attributed. */
  lemma LeafMassComplete(ix: Index, use: Use, c: Cls)
    requires WfIndex(ix) && Balanced(ix.dag, use) && Complete(ix.dag, use) && ListsElements(ix) && Roots(ix, c) != []
    requires forall n :: n in Roots(ix, c) ==> n in ix.dag.level && !IsElement(ix.dag, n)
    ensures Total(LeafRow(ix, use, c), ElementClasses(ix)) == 1.0
  {
    ElementClassesDistinct(ix);
    assert forall en :: IsElement(ix.dag, en) ==> en in AllNodes(ix, ElementClasses(ix)) by {
      var ecs := set n | n in ix.dag.level && ix.dag.level[n] == Element :: ClassOf(ix, n);
      OnlyMembers(ix.names, ecs);
      AllNodesMembers(ix, ElementClasses(ix));
      forall en | IsElement(ix.dag, en) ensures ClassOf(ix, en) in ElementClasses(ix) {
        assert ClassOf(ix, en) in ecs;
      }
    }
    assert Total(LeafRow(ix, use, c), ElementClasses(ix))
             == PooledTotal(ix, use, Roots(ix, c), AllNodes(ix, ElementClasses(ix))) / |Roots(ix, c)| as real by {
      RowTotal(ix, use, c, ElementClasses(ix));
    }
    PooledTotalExact(ix, use, Roots(ix, c), AllNodes(ix, ElementClasses(ix)));
    WholeOfItself(|Roots(ix, c)|);
  }
}
