/** The data-quality score of a class is the worst score below it: it is reached, and nothing
    it draws on exceeds it. */
module QualityLaws {
  import opened Vocabulary
  import opened Sums
  import opened Rollup
  import opened RowRollup
  import opened RowLaws
  import opened Reach
  import opened MassBalance
  import opened Aggregate
  import opened EngineLaws

  // ---- an amount below is an amount above ----------------------------------------------------------

  lemma {:induction false} PresentHas(subs: seq<Cls>, leaf: map<Cls, Amounts>, computed: map<Cls, Amounts>, ec: Cls,
                                      s: Cls)
    requires s in subs && ec in Lookup(leaf, computed, s)
    ensures Present(subs, leaf, computed, ec) != []
  {
    var init, last := subs[..|subs| - 1], subs[|subs| - 1];
    assert subs == init + [last];
    if s != last {
      PresentHas(init, leaf, computed, ec, s);
    }
  }

  lemma {:induction false} DrawnFromLeaves(leaves: set<Cls>, steps: seq<Step>, p: Cls)
    ensures Drawn(leaves, steps, p) <= leaves
    decreases |steps|
  {
    if steps != [] {
      var init, last := steps[..|steps| - 1], steps[|steps| - 1];
      DrawnFromLeaves(leaves, init, p);
      forall c | c in last.subs ensures Drawn(leaves, init, c) <= leaves {
        DrawnFromLeaves(leaves, init, c);
      }
    }
  }

  /** The hierarchy's leaf classes are not rolled up into, and own the leaf rows. */
  ghost predicate Apart<V>(h: Hier, leaf: map<Cls, map<Cls, V>>) {
    leaf.Keys == h.leaves && h.leaves !! h.ancestors
  }

  lemma DrawnIsParent(h: Hier, steps: seq<Step>, p: Cls, l: Cls)
    requires Valid(h, steps) && l in Drawn(h.leaves, steps, p)
    ensures p in Parents(steps) && p in h.ancestors
    decreases |steps|
  {
    if steps != [] {
      var init, last := steps[..|steps| - 1], steps[|steps| - 1];
      SplitLast(h, steps);
      if last.parent != p {
        DrawnIsParent(h, init, p, l);
      }
    }
  }

  /** What a subclass's row holds: a leaf row is its own, an ancestor's the computed one. */
  lemma LookupBelow<V>(h: Hier, steps: seq<Step>, leaf: map<Cls, map<Cls, V>>, computed: map<Cls, map<Cls, V>>, c: Cls,
                       l: Cls, ec: Cls)
    requires Valid(h, steps) && Apart(h, leaf) && l in Below(h.leaves, steps, c) && l in leaf && ec in leaf[l]
    requires c != l ==> c in computed
    ensures Lookup(leaf, computed, c) == if c == l then leaf[l] else computed[c]
    ensures c != l ==> l in Drawn(h.leaves, steps, c)
  {
    if c != l {
      DrawnIsParent(h, steps, c, l);
    }
  }

  /** A class that draws on a leaf class with an element has the element. */
  lemma {:induction false} AmountCarried(h: Hier, elems: seq<Cls>, leaf: map<Cls, Amounts>, steps: seq<Step>, p: Cls,
                                         ec: Cls, l: Cls)
    requires Valid(h, steps) && Apart(h, leaf) && ec in elems
    requires l in Drawn(h.leaves, steps, p) && l in leaf && ec in leaf[l]
    ensures p in MeanRows(elems, leaf, steps) && ec in MeanRows(elems, leaf, steps)[p]
    decreases |steps|
  {
    var init, last := steps[..|steps| - 1], steps[|steps| - 1];
    SplitLast(h, steps);
    if last.parent != p {
      AmountCarried(h, elems, leaf, init, p, ec, l);
    } else {
      var computed := MeanRows(elems, leaf, init);
      var c :| c in last.subs && l in Below(h.leaves, init, c);
      if c != l {
        DrawnIsParent(h, init, c, l);
        AmountCarried(h, elems, leaf, init, c, ec, l);
      }
      LookupBelow(h, init, leaf, computed, c, l, ec);
      PresentHas(last.subs, leaf, computed, ec, c);
    }
  }

  // ---- a score below is no worse than the score above ---------------------------------------------

  /** The pool counts every scored subclass. */
  lemma {:induction false} PoolCounts(subs: seq<Cls>, leaf: map<Cls, map<Cls, Quality>>,
                                      computed: map<Cls, map<Cls, Quality>>,
                                      best: map<Cls, Amounts>, ec: Cls)
    requires Positive(best)
    ensures var pool := QualityPool(subs, leaf, computed, best, ec);
            && pool.wtot >= 0.0
            && forall s :: s in subs && HasQuality(s, leaf, computed, best, ec) ==>
                 pool.wtot > 0.0 && pool.worst.Some? && Lookup(leaf, computed, s)[ec].score <= pool.worst.value
  {
    if subs != [] {
      var init, last := subs[..|subs| - 1], subs[|subs| - 1];
      assert subs == init + [last];
      PoolCounts(init, leaf, computed, best, ec);
    }
  }

  /** What `aggregate` gave, and what each scored leaf class weighs. */
  ghost predicate Weighed(h: Hier, elems: seq<Cls>, leaf: map<Cls, map<Cls, Quality>>, amounts: map<Cls, Amounts>,
                          best: map<Cls, Amounts>, steps: seq<Step>) {
    && Apart(h, leaf) && Apart(h, amounts)
    && Positive(best) && BestOf(h, elems, amounts, steps, best)
    && forall l, ec :: l in leaf && ec in leaf[l] ==> ec in amounts[l]
  }

  lemma WeighedInit(h: Hier, elems: seq<Cls>, leaf: map<Cls, map<Cls, Quality>>, amounts: map<Cls, Amounts>,
                    best: map<Cls, Amounts>, steps: seq<Step>)
    requires Valid(h, steps) && steps != [] && Weighed(h, elems, leaf, amounts, best, steps)
    ensures Weighed(h, elems, leaf, amounts, best, steps[..|steps| - 1])
  {
    BestOfInit(h, elems, amounts, steps, best);
  }

  lemma HasWeight(h: Hier, elems: seq<Cls>, leaf: map<Cls, map<Cls, Quality>>, amounts: map<Cls, Amounts>,
                  best: map<Cls, Amounts>, steps: seq<Step>, c: Cls, ec: Cls, l: Cls)
    requires Valid(h, steps) && Weighed(h, elems, leaf, amounts, best, steps) && ec in elems
    requires l in Below(h.leaves, steps, c) && l in leaf && ec in leaf[l]
    ensures c in best && ec in best[c]
  {
    if c != l {
      AmountCarried(h, elems, amounts, steps, c, ec, l);
    }
  }

  /** No leaf class a class draws on has a worse score for an element than the class. */
  lemma {:induction false} ScoreIsMax(h: Hier, elems: seq<Cls>, leaf: map<Cls, map<Cls, Quality>>,
                                      amounts: map<Cls, Amounts>,
                                      best: map<Cls, Amounts>, steps: seq<Step>, p: Cls, ec: Cls, l: Cls)
    requires Valid(h, steps) && Weighed(h, elems, leaf, amounts, best, steps) && ec in elems
    requires l in Drawn(h.leaves, steps, p) && l in leaf && ec in leaf[l]
    ensures p in QualityRows(elems, leaf, best, steps) && ec in QualityRows(elems, leaf, best, steps)[p]
    ensures leaf[l][ec].score <= QualityRows(elems, leaf, best, steps)[p][ec].score
    decreases |steps|
  {
    var init, last := steps[..|steps| - 1], steps[|steps| - 1];
    SplitLast(h, steps);
    WeighedInit(h, elems, leaf, amounts, best, steps);
    if last.parent != p {
      ScoreIsMax(h, elems, leaf, amounts, best, init, p, ec, l);
    } else {
      var computed := QualityRows(elems, leaf, best, init);
      var c :| c in last.subs && l in Below(h.leaves, init, c);
      if c != l {
        ScoreIsMax(h, elems, leaf, amounts, best, init, c, ec, l);
      }
      LookupBelow(h, init, leaf, computed, c, l, ec);
      HasWeight(h, elems, leaf, amounts, best, init, c, ec, l);
      PoolCounts(last.subs, leaf, computed, best, ec);
    }
  }

  // ---- from the composition paths to the top of the class tree --------------------------------------

  /** What adding scored paths of total weight `extra` can do to a pool. */
  ghost predicate Grown(before: Pool, after: Pool, extra: real) {
    && before.wtot <= after.wtot <= before.wtot + extra
    && (before.worst.Some? ==> after.worst.Some? && before.worst.value <= after.worst.value)
  }

  lemma ShareSum(a: real, b: real, k: nat)
    requires k > 0 && a >= 0.0
    ensures (a + b) / k as real == a / k as real + b / k as real && a / k as real >= 0.0
    ensures a > 0.0 ==> a / k as real > 0.0
  {
    SumOfQuotients(a, b, k as real);
  }

  /** The weights of the paths from `n` to `en`, shared out over `k` instances. */
  function PathShare(ix: Index, n: Node, ps: seq<seq<nat>>, k: nat): real
    requires k > 0
  {
    Part(Sum(Weights(ix.dag, Best, n, ps)), k)
  }

  lemma TotalSplit(d: Dag, n: Node, es: seq<Node>)
    requires Wf(d) && n in d.level && es != []
    ensures TotalReach(d, Best, n, es) == TotalReach(d, Best, n, es[..|es| - 1]) + ReachOf(d, Best, n, es[|es| - 1])
  {
  }

  lemma PathShareStep(ix: Index, n: Node, ps: seq<seq<nat>>, k: nat)
    requires Wf(ix.dag) && NonNegative(ix.dag) && n in ix.dag.level && k > 0 && ps != []
    ensures var p := ps[|ps| - 1];
            && PathShare(ix, n, ps, k)
                 == PathShare(ix, n, ps[..|ps| - 1], k) + PathWeight(ix.dag, Best, n, p) / k as real
            && PathWeight(ix.dag, Best, n, p) / k as real >= 0.0
            && (PathWeight(ix.dag, Best, n, p) > 0.0 ==> PathWeight(ix.dag, Best, n, p) / k as real > 0.0)
  {
    var init, p := ps[..|ps| - 1], ps[|ps| - 1];
    PathWeightSign(ix.dag, n, p);
    var ws := Weights(ix.dag, Best, n, ps);
    assert ws[..|ws| - 1] == Weights(ix.dag, Best, n, init);
    ShareSum(PathWeight(ix.dag, Best, n, p), Sum(Weights(ix.dag, Best, n, init)), k);
  }

  lemma {:induction false} AddPathsGrows(ix: Index, n: Node, ps: seq<seq<nat>>, k: nat, pool: Pool)
    requires Wf(ix.dag) && NonNegative(ix.dag) && n in ix.dag.level && k > 0
    ensures Grown(pool, AddPaths(ix, n, ps, k, pool), PathShare(ix, n, ps, k))
  {
    if ps == [] {
      assert Weights(ix.dag, Best, n, ps) == [];
    } else {
      AddPathsGrows(ix, n, ps[..|ps| - 1], k, pool);
      PathShareStep(ix, n, ps, k);
    }
  }

  /** Division by `k`, kept away from the solver's arithmetic. */
  function Part(x: real, k: nat): real
    requires k > 0
  {
    x / k as real
  }

  lemma PartSum(a: real, b: real, sum: real, k: nat)
    requires k > 0 && sum == a + b
    ensures Part(sum, k) == Part(a, k) + Part(b, k)
  {
  }

  lemma NodeShare(ix: Index, n: Node, es: seq<Node>, k: nat)
    requires Wf(ix.dag) && n in ix.dag.level && k > 0 && es != []
    ensures Part(TotalReach(ix.dag, Best, n, es), k)
              == Part(TotalReach(ix.dag, Best, n, es[..|es| - 1]), k)
                  + PathShare(ix, n, Paths(ix.dag, n, es[|es| - 1]), k)
  {
    var init, en := es[..|es| - 1], es[|es| - 1];
    TotalSplit(ix.dag, n, es);
    assert PathShare(ix, n, Paths(ix.dag, n, en), k) == Part(ReachOf(ix.dag, Best, n, en), k) by {
      ReachOfIsPathSum(ix.dag, Best, n, en);
    }
    PartSum(TotalReach(ix.dag, Best, n, init), ReachOf(ix.dag, Best, n, en), TotalReach(ix.dag, Best, n, es), k);
  }

  lemma {:induction false} AddNodeGrows(ix: Index, n: Node, es: seq<Node>, k: nat, pool: Pool)
    requires Wf(ix.dag) && NonNegative(ix.dag) && k > 0
    ensures Grown(pool, AddNode(ix, n, es, k, pool), if n in ix.dag.level
        then Part(TotalReach(ix.dag, Best, n, es), k) else 0.0)
  {
    if es != [] && n in ix.dag.level {
      var init := es[..|es| - 1];
      AddNodeGrows(ix, n, init, k, pool);
      AddPathsGrows(ix, n, Paths(ix.dag, n, es[|es| - 1]), k, AddNode(ix, n, init, k, pool));
      NodeShare(ix, n, es, k);
    }
  }

  /** The scored paths of a class weigh at most its amount. */
  lemma {:induction false} PoolGrows(ix: Index, roots: seq<Node>, k: nat, ec: Cls)
    requires Wf(ix.dag) && NonNegative(ix.dag) && k > 0
    ensures 0.0 <= PooledQuality(ix, roots, k, ec).wtot <= PooledAmount(ix, Best, roots, ec) / k as real
  {
    if roots != [] {
      var init, n := roots[..|roots| - 1], roots[|roots| - 1];
      PoolGrows(ix, init, k, ec);
      AddNodeGrows(ix, n, ElementNodes(ix, ec), k, PooledQuality(ix, init, k, ec));
      SumOfQuotients(PooledAmount(ix, Best, init, ec),
                     if n in ix.dag.level then TotalReach(ix.dag, Best, n, ElementNodes(ix, ec)) else 0.0, k as real);
    }
  }

  /** A leaf class with a quality for an element has an amount of it. */
  lemma QualityHasAmount(ix: Index, c: Cls, ec: Cls)
    requires Wf(ix.dag) && NonNegative(ix.dag) && ec in LeafQualityRow(ix, c)
    ensures ec in LeafRow(ix, Best, c)
  {
    PoolGrows(ix, Roots(ix, c), |Roots(ix, c)|, ec);
  }

  lemma TableWeighed(ix: Index)
    requires Wf(ix.dag) && NonNegative(ix.dag) && Antichain(ix)
    ensures Weighed(HierOf(ix), ElementClasses(ix), LeafQualities(ix), LeafRows(ix, Best), AmountTable(ix, Best), Schedule(HierOf(ix)))
  {
    TablePositive(ix);
    TableIsBest(ix);
    forall l, ec | l in LeafQualities(ix) && ec in LeafQualities(ix)[l] ensures ec in LeafRows(ix, Best)[l] {
      QualityHasAmount(ix, l, ec);
    }
  }

  /** A class of the table has a quality for every element a leaf class below it has one for,
      and its score is no better than that leaf class's. */
  lemma TableScoreIsMax(ix: Index, p: Cls, ec: Cls, l: Cls)
    requires Wf(ix.dag) && NonNegative(ix.dag) && Antichain(ix)
    requires l in Drawn(LeafClasses(ix), Schedule(HierOf(ix)), p) && ec in LeafQualityRow(ix, l)
    ensures var t := QualityTable(ix, AmountTable(ix, Best));
            p in t && ec in t[p] && LeafQualityRow(ix, l)[ec].score <= t[p][ec].score
  {
    var h, elems, best, steps := HierOf(ix), ElementClasses(ix), AmountTable(ix, Best), Schedule(HierOf(ix));
    TableIsBest(ix);
    TableWeighed(ix);
    DrawnFromLeaves(h.leaves, steps, p);
    DrawnIsParent(h, steps, p, l);
    ScoreIsMax(h, elems, LeafQualities(ix), LeafRows(ix, Best), best, steps, p, ec, l);
  }

  // ---- the paths of one leaf class ------------------------------------------------------------------

  /** The pool has counted a path of weight `w` and score `score`. */
  ghost predicate Counted(pool: Pool, w: real, score: int) {
    pool.wtot >= w && pool.worst.Some? && score <= pool.worst.value
  }

  lemma {:induction false} AddPathsCounts(ix: Index, n: Node, ps: seq<seq<nat>>, k: nat, pool: Pool, p: seq<nat>)
    requires Wf(ix.dag) && NonNegative(ix.dag) && n in ix.dag.level && k > 0 && pool.wtot >= 0.0
    requires p in ps && PathQuality(ix, n, p).Some?
    ensures Counted(AddPaths(ix, n, ps, k, pool), PathWeight(ix.dag, Best, n, p) / k as real, PathQuality(ix, n, p).value.score)
  {
    var init := ps[..|ps| - 1];
    PathShareStep(ix, n, ps, k);
    AddPathsGrows(ix, n, init, k, pool);
    if p != ps[|ps| - 1] {
      AddPathsCounts(ix, n, init, k, pool, p);
    }
  }

  lemma {:induction false} AddNodeCounts(ix: Index, n: Node, es: seq<Node>, k: nat, pool: Pool, en: Node, p: seq<nat>)
    requires Wf(ix.dag) && NonNegative(ix.dag) && n in ix.dag.level && k > 0 && pool.wtot >= 0.0
    requires en in es && p in Paths(ix.dag, n, en) && PathQuality(ix, n, p).Some?
    ensures Counted(AddNode(ix, n, es, k, pool), PathWeight(ix.dag, Best, n, p) / k as real, PathQuality(ix, n, p).value.score)
  {
    var init, last := es[..|es| - 1], es[|es| - 1];
    AddNodeGrows(ix, n, init, k, pool);
    var before := AddNode(ix, n, init, k, pool);
    AddPathsGrows(ix, n, Paths(ix.dag, n, last), k, before);
    if en == last {
      AddPathsCounts(ix, n, Paths(ix.dag, n, en), k, before, p);
    } else {
      AddNodeCounts(ix, n, init, k, pool, en, p);
    }
  }

  lemma {:induction false} PoolCountsPath(ix: Index, roots: seq<Node>, k: nat, ec: Cls, n: Node, en: Node, p: seq<nat>)
    requires Wf(ix.dag) && NonNegative(ix.dag) && k > 0 && n in roots && n in ix.dag.level
    requires en in ElementNodes(ix, ec) && p in Paths(ix.dag, n, en) && PathQuality(ix, n, p).Some?
    ensures Counted(PooledQuality(ix, roots, k, ec), PathWeight(ix.dag, Best, n, p) / k as real, PathQuality(ix, n, p).value.score)
  {
    var init, last := roots[..|roots| - 1], roots[|roots| - 1];
    PoolGrows(ix, init, k, ec);
    var before := PooledQuality(ix, init, k, ec);
    AddNodeGrows(ix, last, ElementNodes(ix, ec), k, before);
    if n == last {
      AddNodeCounts(ix, n, ElementNodes(ix, ec), k, before, en, p);
    } else {
      PoolCountsPath(ix, init, k, ec, n, en, p);
    }
  }

  /** A composition path of an instance of class `l` that ends in a scored statement. */
  ghost predicate ScoredPath(ix: Index, l: Cls, ec: Cls, n: Node, en: Node, p: seq<nat>)
    requires Wf(ix.dag)
  {
    && n in Roots(ix, l) && n in ix.dag.level && en in ElementNodes(ix, ec) && p in Paths(ix.dag, n, en)
    && PathQuality(ix, n, p).Some? && PathWeight(ix.dag, Best, n, p) > 0.0
  }

  /** A scored path that carries mass gives its class a score no better than its own. */
  lemma LeafScoreIsMax(ix: Index, l: Cls, ec: Cls, n: Node, en: Node, p: seq<nat>)
    requires Wf(ix.dag) && NonNegative(ix.dag) && ec in ElementClasses(ix) && ScoredPath(ix, l, ec, n, en, p)
    ensures ec in LeafQualityRow(ix, l) && PathQuality(ix, n, p).value.score <= LeafQualityRow(ix, l)[ec].score
  {
    var k := |Roots(ix, l)|;
    PoolCountsPath(ix, Roots(ix, l), k, ec, n, en, p);
    ShareSum(PathWeight(ix.dag, Best, n, p), 0.0, k);
  }

  /** The score of every class of the table is at least as bad as that of each scored path,
      carrying mass, of every instance below it. */
  lemma TableScoreCoversPaths(ix: Index, c: Cls, ec: Cls, l: Cls, n: Node, en: Node, p: seq<nat>)
    requires Wf(ix.dag) && NonNegative(ix.dag) && Antichain(ix) && ec in ElementClasses(ix)
    requires l in Drawn(LeafClasses(ix), Schedule(HierOf(ix)), c) && ScoredPath(ix, l, ec, n, en, p)
    ensures var t := QualityTable(ix, AmountTable(ix, Best));
            c in t && ec in t[c] && PathQuality(ix, n, p).value.score <= t[c][ec].score
  {
    LeafScoreIsMax(ix, l, ec, n, en, p);
    TableScoreIsMax(ix, c, ec, l);
  }
}
