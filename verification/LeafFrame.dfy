/** The frame of the walks: adding nodes to the DAG changes no answer of an old node, so the
    rows of a leaf class whose instances are all old stay as they were. */
module LeafFrame {
  import opened Vocabulary
  import opened Rollup
  import opened RowRollup
  import opened Reach
  import opened MassBalance
  import opened TermMemo
  import opened Aggregate
  import opened Frame
  import opened TableFrame

  /** `big` has the nodes and edges of `small`, and old nodes gain no edge. */
  ghost predicate Grows(small: Dag, big: Dag) {
    && Wf(small) && Wf(big)
    && (forall n :: n in small.level ==>
         n in big.level && big.level[n] == small.level[n] && Edges(big, n) == Edges(small, n))
  }

  lemma OldPart(small: Dag, big: Dag, n: Node, i: nat)
    requires Grows(small, big) && n in small.level && i < |Edges(small, n)|
    ensures Edges(big, n)[i] == Edges(small, n)[i] && Edges(small, n)[i].part in small.level
    ensures small.depth[Edges(small, n)[i].part] < small.depth[n]
    ensures forall en :: Edges(small, n)[i].part == en ==> (IsElement(big, en) <==> IsElement(small, en))
  {
  }

  lemma {:induction false} PathsSame(small: Dag, big: Dag, n: Node, k: nat, en: Node)
    requires Grows(small, big) && n in small.level && k <= |Edges(small, n)|
    ensures PathsVia(big, n, k, en) == PathsVia(small, n, k, en)
    decreases small.depth[n], k
  {
    if k != 0 {
      var part := Edges(small, n)[k - 1].part;
      OldPart(small, big, n, k - 1);
      PathsSame(small, big, n, k - 1, en);
      TailsSame(small, big, part, en);
    }
  }

  lemma {:induction false} TailsSame(small: Dag, big: Dag, n: Node, en: Node)
    requires Grows(small, big) && n in small.level
    ensures Tails(big, n, en) == Tails(small, n, en) && Paths(big, n, en) == Paths(small, n, en)
    decreases small.depth[n], |Edges(small, n)| + 1
  {
    PathsSame(small, big, n, |Edges(small, n)|, en);
  }

  lemma {:induction false} ReachSame(small: Dag, big: Dag, use: Use, n: Node, k: nat, en: Node)
    requires Grows(small, big) && n in small.level && k <= |Edges(small, n)|
    ensures ReachVia(big, use, n, k, en) == ReachVia(small, use, n, k, en)
    decreases small.depth[n], k
  {
    if k != 0 {
      var part := Edges(small, n)[k - 1].part;
      OldPart(small, big, n, k - 1);
      ReachSame(small, big, use, n, k - 1, en);
      ContentSame(small, big, use, part, en);
    }
  }

  lemma {:induction false} ContentSame(small: Dag, big: Dag, use: Use, n: Node, en: Node)
    requires Grows(small, big) && n in small.level
    ensures Content(big, use, n, en) == Content(small, use, n, en)
    decreases small.depth[n], |Edges(small, n)| + 1
  {
    ReachSame(small, big, use, n, |Edges(small, n)|, en);
  }

  /** Old nodes do not reach new ones. */
  lemma {:induction false} NoPathToNew(d: Dag, n: Node, k: nat, en: Node)
    requires Wf(d) && n in d.level && k <= |Edges(d, n)| && en !in d.level
    ensures PathsVia(d, n, k, en) == []
    decreases d.depth[n], k
  {
    if k != 0 {
      var part := Edges(d, n)[k - 1].part;
      NoPathToNew(d, n, k - 1, en);
      NoPathToNew(d, part, |Edges(d, part)|, en);
      assert Tails(d, part, en) == [];
    }
  }

  lemma NoPathNoReach(d: Dag, use: Use, n: Node, en: Node)
    requires Wf(d) && n in d.level && Paths(d, n, en) == []
    ensures ReachVia(d, use, n, |Edges(d, n)|, en) == 0.0
  {
    ReachIsPathSum(d, use, n, |Edges(d, n)|, en);
    assert Weights(d, use, n, []) == [];
  }

  lemma {:induction false} WalkSame(small: Dag, big: Dag, use: Use, compound: bool, n: Node, p: seq<nat>)
    requires Grows(small, big) && n in small.level
    ensures PathWeight(big, use, n, p) == PathWeight(small, use, n, p)
    ensures PathVariance(big, compound, n, p) == PathVariance(small, compound, n, p)
    decreases |p|
  {
    if p != [] && p[0] < |Edges(small, n)| {
      OldPart(small, big, n, p[0]);
      WalkSame(small, big, use, compound, Edges(small, n)[p[0]].part, p[1..]);
    }
  }

  // ---- the index -----------------------------------------------------------------------------

  /** `big` extends `small`; an old instance keeps its statements. */
  ghost predicate IndexGrows(small: Index, big: Index) {
    && Grows(small.dag, big.dag)
    && small.nodes == big.nodes && small.names == big.names
    && small.cls.Keys == small.dag.level.Keys && big.cls.Keys == big.dag.level.Keys
    && (forall n, m :: n in small.dag.level ==>
          ((n, m) in big.quality <==> (n, m) in small.quality)
          && ((n, m) in small.quality ==> big.quality[(n, m)] == small.quality[(n, m)]))
  }

  function ElementSet(ix: Index, ec: Cls): set<Node> {
    set n | n in ix.dag.level && ix.dag.level[n] == Element && ClassOf(ix, n) == ec
  }

  /** No path of `n` leads to an element that changed its class. */
  ghost predicate KeepsElements(small: Index, big: Index, n: Node) {
    && Wf(small.dag) && n in small.dag.level
    && forall en {:trigger Paths(small.dag, n, en)} ::
         en in small.dag.level && small.dag.level[en] == Element && ClassOf(big, en) != ClassOf(small, en) ==>
             Paths(small.dag, n, en) == []
  }

  /** Every element keeps its class. */
  ghost predicate ElementsStay(small: Index, big: Index) {
    forall en :: en in small.dag.level && small.dag.level[en] == Element ==> ClassOf(big, en) == ClassOf(small, en)
  }

  lemma StayKeeps(small: Index, big: Index, n: Node)
    requires Wf(small.dag) && n in small.dag.level && ElementsStay(small, big)
    ensures KeepsElements(small, big, n)
  {
  }

  /** `n` reaches no node of which one set has and the other has not. */
  ghost predicate BlindTo(d: Dag, n: Node, a: set<Node>, b: set<Node>) {
    Wf(d) && n in d.level && forall en {:trigger Paths(d, n, en)} :: (en in a) != (en in b) ==> Paths(d, n, en) == []
  }

  lemma OnlySnoc<T>(s: seq<T>, keep: set<T>)
    requires s != []
    ensures var init, x := s[..|s| - 1], s[|s| - 1];
            Only(s, keep) == if x in keep then Only(init, keep) + [x] else Only(init, keep)
  {
  }

  /** Elements it does not reach contribute nothing to a node's totals, terms or scores. */
  lemma {:induction false} TotalsSame(small: Index, big: Index, use: Use, n: Node, names: seq<Node>, a: set<Node>,
                                      b: set<Node>)
    requires IndexGrows(small, big) && n in small.dag.level
    requires BlindTo(small.dag, n, a, b)
    ensures TotalVia(big.dag, use, n, |Edges(big.dag, n)|, Only(names, b))
         == TotalVia(small.dag, use, n, |Edges(small.dag, n)|, Only(names, a))
  {
    if names != [] {
      var init, en := names[..|names| - 1], names[|names| - 1];
      TotalsSame(small, big, use, n, init, a, b);
      OnlySnoc(names, a);
      OnlySnoc(names, b);
      ReachSame(small.dag, big.dag, use, n, |Edges(small.dag, n)|, en);
      if (en in a) != (en in b) {
        NoPathNoReach(small.dag, use, n, en);
      }
      TotalSnoc(big.dag, use, n, Only(init, b), en);
      TotalSnoc(small.dag, use, n, Only(init, a), en);
    }
  }

  lemma TotalSnoc(d: Dag, use: Use, n: Node, es: seq<Node>, en: Node)
    requires Wf(d) && n in d.level
    ensures var k := |Edges(d, n)|; TotalVia(d, use, n, k, es + [en]) == TotalVia(d, use, n, k, es) + ReachVia(d, use, n, k, en)
  {
    assert (es + [en])[..|es|] == es;
  }

  lemma TermsSnoc(ix: Index, compound: bool, n: Node, es: seq<Node>, en: Node)
    requires Wf(ix.dag) && n in ix.dag.level
    ensures NodeTerms(ix, compound, n, es + [en])
              == NodeTerms(ix, compound, n, es) + TermList(ix.dag, compound, n, Paths(ix.dag, n, en))
  {
    assert (es + [en])[..|es|] == es;
  }

  lemma {:induction false} TermsSame(small: Index, big: Index, compound: bool, n: Node, names: seq<Node>, a: set<Node>,
                                     b: set<Node>)
    requires IndexGrows(small, big) && n in small.dag.level
    requires BlindTo(small.dag, n, a, b)
    ensures NodeTerms(big, compound, n, Only(names, b)) == NodeTerms(small, compound, n, Only(names, a))
  {
    if names != [] {
      var init, en := names[..|names| - 1], names[|names| - 1];
      TermsSame(small, big, compound, n, init, a, b);
      OnlySnoc(names, a);
      OnlySnoc(names, b);
      assert TermList(big.dag, compound, n, Paths(big.dag, n, en))
          == TermList(small.dag, compound, n, Paths(small.dag, n, en)) by {
        TailsSame(small.dag, big.dag, n, en);
        var ps := Paths(small.dag, n, en);
        forall j | 0 <= j < |ps| ensures TermOf(big.dag, compound, n, ps[j]) == TermOf(small.dag, compound, n, ps[j]) {
          WalkSame(small.dag, big.dag, Best, compound, n, ps[j]);
        }
      }
      TermsSnoc(big, compound, n, Only(init, b), en);
      TermsSnoc(small, compound, n, Only(init, a), en);
      if (en in a) != (en in b) {
        var none := TermList(small.dag, compound, n, Paths(small.dag, n, en));
        assert none == [];
        assert NodeTerms(big, compound, n, Only(init, b)) + none == NodeTerms(big, compound, n, Only(init, b));
        assert NodeTerms(small, compound, n, Only(init, a)) + none == NodeTerms(small, compound, n, Only(init, a));
      }
    }
  }

  lemma {:induction false} PathQualitySame(small: Index, big: Index, n: Node, p: seq<nat>)
    requires IndexGrows(small, big) && n in small.dag.level
    ensures PathQuality(big, n, p) == PathQuality(small, n, p)
    decreases |p|
  {
    if p != [] && p[0] < |Edges(small.dag, n)| {
      OldPart(small.dag, big.dag, n, p[0]);
      PathQualitySame(small, big, Edges(small.dag, n)[p[0]].part, p[1..]);
    }
  }

  lemma {:induction false} AddPathsSame(small: Index, big: Index, n: Node, ps: seq<seq<nat>>, k: nat, pool: Pool)
    requires IndexGrows(small, big) && n in small.dag.level && k > 0
    ensures AddPaths(big, n, ps, k, pool) == AddPaths(small, n, ps, k, pool)
  {
    if ps != [] {
      AddPathsSame(small, big, n, ps[..|ps| - 1], k, pool);
      PathQualitySame(small, big, n, ps[|ps| - 1]);
      WalkSame(small.dag, big.dag, Best, false, n, ps[|ps| - 1]);
    }
  }

  lemma ScoresSnoc(ix: Index, n: Node, es: seq<Node>, en: Node, k: nat, pool: Pool)
    requires Wf(ix.dag) && n in ix.dag.level && k > 0
    ensures AddNode(ix, n, es + [en], k, pool) == AddPaths(ix, n, Paths(ix.dag, n, en), k, AddNode(ix, n, es, k, pool))
  {
    assert (es + [en])[..|es|] == es;
  }

  lemma {:induction false} ScoresSame(small: Index, big: Index, n: Node, names: seq<Node>, a: set<Node>, b: set<Node>,
                                      k: nat, pool: Pool)
    requires IndexGrows(small, big) && n in small.dag.level && k > 0
    requires BlindTo(small.dag, n, a, b)
    ensures AddNode(big, n, Only(names, b), k, pool) == AddNode(small, n, Only(names, a), k, pool)
  {
    if names != [] {
      var init, en := names[..|names| - 1], names[|names| - 1];
      ScoresSame(small, big, n, init, a, b, k, pool);
      OnlySnoc(names, a);
      OnlySnoc(names, b);
      TailsSame(small.dag, big.dag, n, en);
      ScoresSnoc(big, n, Only(init, b), en, k, pool);
      ScoresSnoc(small, n, Only(init, a), en, k, pool);
      AddPathsSame(small, big, n, Paths(small.dag, n, en), k, AddNode(small, n, Only(init, a), k, pool));
    }
  }

  // ---- pooled over the roots of a class -------------------------------------------------------

  /** The instances are old and reach no element that changed its class. */
  ghost predicate AllOld(small: Index, big: Index, roots: seq<Node>) {
    forall n :: n in roots ==> KeepsElements(small, big, n)
  }

  lemma {:induction false} PooledSame(small: Index, big: Index, use: Use, compound: bool, roots: seq<Node>, k: nat,
                                      ec: Cls)
    requires IndexGrows(small, big) && AllOld(small, big, roots) && k > 0
    ensures PooledAmount(big, use, roots, ec) == PooledAmount(small, use, roots, ec)
    ensures PooledTerms(big, compound, roots, k, ec) == PooledTerms(small, compound, roots, k, ec)
    ensures PooledQuality(big, roots, k, ec) == PooledQuality(small, roots, k, ec)
  {
    if roots != [] {
      var init, n := roots[..|roots| - 1], roots[|roots| - 1];
      assert n in roots;
      PooledSame(small, big, use, compound, init, k, ec);
      assert BlindTo(small.dag, n, ElementSet(small, ec), ElementSet(big, ec)) by {
        var a, b := ElementSet(small, ec), ElementSet(big, ec);
        forall en | (en in a) != (en in b) ensures Paths(small.dag, n, en) == [] {
          if en !in small.dag.level {
            NoPathToNew(small.dag, n, |Edges(small.dag, n)|, en);
          }
        }
      }
      var a, b := ElementSet(small, ec), ElementSet(big, ec);
      TotalsSame(small, big, use, n, small.nodes, a, b);
      TermsSame(small, big, compound, n, small.nodes, a, b);
      ScoresSame(small, big, n, small.nodes, a, b, k, PooledQuality(small, init, k, ec));
    }
  }

  lemma {:induction false} NothingPooled(ix: Index, use: Use, compound: bool, roots: seq<Node>, k: nat, ec: Cls)
    requires Wf(ix.dag) && ElementNodes(ix, ec) == [] && k > 0
    ensures PooledAmount(ix, use, roots, ec) == 0.0
    ensures PooledTerms(ix, compound, roots, k, ec) == []
    ensures PooledQuality(ix, roots, k, ec) == Pool(0.0, 0.0, None)
  {
    if roots != [] {
      NothingPooled(ix, use, compound, roots[..|roots| - 1], k, ec);
      assert Shared([], k) == [];
    }
  }

  lemma NoEntry(ix: Index, use: Use, compound: bool, roots: seq<Node>, ec: Cls)
    requires Wf(ix.dag) && ElementNodes(ix, ec) == []
    ensures LeafAmount(ix, use, roots, ec).None?
    ensures LeafUncertainty(ix, compound, roots, ec).None?
    ensures LeafQuality(ix, roots, ec).None?
  {
    if roots != [] {
      NothingPooled(ix, use, compound, roots, |roots|, ec);
    }
  }

  /** An element class that one index does not list has no elements in it. */
  lemma UnlistedClass(ix: Index, ec: Cls)
    requires ec in ix.names && ec !in ElementClasses(ix)
    ensures ElementNodes(ix, ec) == []
  {
    var cs := set n | n in ix.dag.level && ix.dag.level[n] == Element :: ClassOf(ix, n);
    OnlyMembers(ix.names, cs);
    assert ElementSet(ix, ec) == {};
    NothingKept(ix.nodes);
  }

  lemma ListedNames(ix: Index, ec: Cls)
    ensures ec in ElementClasses(ix) ==> ec in ix.names
  {
    OnlyMembers(ix.names, set n | n in ix.dag.level && ix.dag.level[n] == Element :: ClassOf(ix, n));
  }

  ghost predicate RootsKept(small: Index, big: Index, c: Cls) {
    Roots(big, c) == Roots(small, c) && AllOld(small, big, Roots(small, c))
  }

  /** Listed and present before exactly when listed and present after, with the same value. */
  ghost predicate SameEntry<V>(was: bool, before: Option<V>, now: bool, after: Option<V>) {
    before == after && (was && before.Some? <==> now && after.Some?)
  }

  lemma EntryAgrees(small: Index, big: Index, use: Use, compound: bool, roots: seq<Node>, ec: Cls)
    requires IndexGrows(small, big) && AllOld(small, big, roots)
    ensures var was, now := ec in ElementClasses(small), ec in ElementClasses(big);
            && SameEntry(was, LeafAmount(small, use, roots, ec), now, LeafAmount(big, use, roots, ec))
            && SameEntry(was, LeafUncertainty(small, compound, roots, ec), now, LeafUncertainty(big, compound, roots, ec))
            && SameEntry(was, LeafQuality(small, roots, ec), now, LeafQuality(big, roots, ec))
  {
    assert
      && LeafAmount(big, use, roots, ec) == LeafAmount(small, use, roots, ec)
      && LeafUncertainty(big, compound, roots, ec) == LeafUncertainty(small, compound, roots, ec)
      && LeafQuality(big, roots, ec) == LeafQuality(small, roots, ec)
    by {
      if roots != [] {
        PooledSame(small, big, use, compound, roots, |roots|, ec);
      }
    }
    ListedNames(small, ec);
    ListedNames(big, ec);
    if ec in ElementClasses(small) && ec !in ElementClasses(big) {
      UnlistedClass(big, ec);
      NoEntry(big, use, compound, roots, ec);
    }
    if ec in ElementClasses(big) && ec !in ElementClasses(small) {
      UnlistedClass(small, ec);
      NoEntry(small, use, compound, roots, ec);
    }
  }

  lemma UncertaintyRowSame(small: Index, big: Index, compound: bool, c: Cls)
    requires IndexGrows(small, big) && RootsKept(small, big, c)
    ensures LeafUncertaintyRow(big, compound, c) == LeafUncertaintyRow(small, compound, c)
  {
    var roots, few, wide := Roots(small, c), ElementClasses(small), ElementClasses(big);
    forall ec
      ensures SameEntry(ec in few, LeafUncertainty(small, compound, roots, ec), ec in wide, LeafUncertainty(big, compound, roots, ec))
    {
      EntryAgrees(small, big, Best, compound, roots, ec);
    }
  }
  lemma QualityRowSame(small: Index, big: Index, c: Cls)
    requires IndexGrows(small, big) && RootsKept(small, big, c)
    ensures LeafQualityRow(big, c) == LeafQualityRow(small, c)
  {
    var roots, few, wide := Roots(small, c), ElementClasses(small), ElementClasses(big);
    forall ec ensures SameEntry(ec in few, LeafQuality(small, roots, ec), ec in wide, LeafQuality(big, roots, ec)) {
      EntryAgrees(small, big, Best, false, roots, ec);
    }
  }
  /** The two indexes differ only inside `w`. */
  ghost predicate Framed(small: Index, big: Index, w: set<Cls>) {
    && IndexGrows(small, big)
    && SameOutside(HierOf(small), HierOf(big), w)
    && forall c :: c !in w && c in LeafClasses(small) ==> RootsKept(small, big, c)
  }

  lemma LeafTablesAgree(small: Index, big: Index, use: Use, compound: bool, w: set<Cls>)
    requires Framed(small, big, w)
    ensures LeavesAgree(LeafRows(small, use), LeafRows(big, use), w)
    ensures LeavesAgree(LeafUncertainties(small, compound), LeafUncertainties(big, compound), w)
    ensures LeavesAgree(LeafQualities(small), LeafQualities(big), w)
  {
    forall c | c !in w
      ensures RowRollup.At(LeafRows(small, use), c) == RowRollup.At(LeafRows(big, use), c)
      ensures RowRollup.At(LeafUncertainties(small, compound), c) == RowRollup.At(LeafUncertainties(big, compound), c)
      ensures RowRollup.At(LeafQualities(small), c) == RowRollup.At(LeafQualities(big), c)
    {
      assert c in LeafClasses(small) - w <==> c in LeafClasses(big) - w;
      if c in LeafClasses(small) {
        assert LeafRow(big, use, c) == LeafRow(small, use, c) by {
          var roots, few, wide := Roots(small, c), ElementClasses(small), ElementClasses(big);
          forall ec
            ensures SameEntry(ec in few, LeafAmount(small, use, roots, ec), ec in wide, LeafAmount(big, use, roots, ec))
          {
            EntryAgrees(small, big, use, false, roots, ec);
          }
        }
        UncertaintyRowSame(small, big, compound, c);
        QualityRowSame(small, big, c);
      }
    }
  }

  /** Listing the element classes of both indexes changes no table. */
  lemma TablesWider(ix: Index, use: Use, compound: bool, both: seq<Cls>)
    requires Wf(ix.dag) && forall ec :: ec in ElementClasses(ix) ==> ec in both
    ensures var steps, best := Schedule(HierOf(ix)), AmountTable(ix, Best);
            && AmountTable(ix, use) == LeafRows(ix, use) + MeanRows(both, LeafRows(ix, use), steps)
            && UncertaintyTable(ix, compound, best)
                 == LeafUncertainties(ix, compound)
                     + UncertaintyRows(both, LeafUncertainties(ix, compound), best, steps)
            && QualityTable(ix, best) == LeafQualities(ix) + QualityRows(both, LeafQualities(ix), best, steps)
  {
    var few, steps, best := ElementClasses(ix), Schedule(HierOf(ix)), AmountTable(ix, Best);
    MeansWider(few, both, LeafRows(ix, use), steps);
    UncertaintiesWider(few, both, LeafUncertainties(ix, compound), best, steps);
    QualitiesWider(few, both, LeafQualities(ix), best, steps);
  }

  /** Frame theorem: outside `w` all three class tables are the same before and after. */
  lemma TablesAgree(small: Index, big: Index, use: Use, compound: bool, w: set<Cls>)
    requires Framed(small, big, w)
    ensures LeavesAgree(AmountTable(small, use), AmountTable(big, use), w)
    ensures var sb, bb := AmountTable(small, Best), AmountTable(big, Best);
            && LeavesAgree(UncertaintyTable(small, compound, sb), UncertaintyTable(big, compound, bb), w)
            && LeavesAgree(QualityTable(small, sb), QualityTable(big, bb), w)
  {
    var h, g, both := HierOf(small), HierOf(big), ElementClasses(small) + ElementClasses(big);
    var sb, bb := AmountTable(small, Best), AmountTable(big, Best);
    TablesWider(small, use, compound, both);
    TablesWider(big, use, compound, both);
    TablesWider(small, Best, compound, both);
    TablesWider(big, Best, compound, both);
    LeafTablesAgree(small, big, use, compound, w);
    AmountsAgree(h, g, w, both, both, LeafRows(small, use), LeafRows(big, use));
    LeafTablesAgree(small, big, Best, compound, w);
    AmountsAgree(h, g, w, both, both, LeafRows(small, Best), LeafRows(big, Best));
    UncertaintiesAgree(h, g, w, both, both, LeafUncertainties(small, compound), LeafUncertainties(big, compound), sb,
                       bb);
    QualitiesAgree(h, g, w, both, both, LeafQualities(small), LeafQualities(big), sb, bb);
  }
}
