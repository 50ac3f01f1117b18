/** Which elements a class's row reports: with positive amounts everywhere, all those its top
    instances reach. */
module HeldElements {
  import opened Vocabulary
  import opened Sums
  import opened Rollup
  import opened Reach
  import opened MassBalance
  import opened Aggregate

  /** Every statement gives a positive amount. */
  ghost predicate AllPositive(d: Dag) {
    forall n, i :: n in d.level && 0 <= i < |Edges(d, n)| ==> Edges(d, n)[i].best > 0.0
  }

  lemma {:induction false} PathPositive(d: Dag, n: Node, p: seq<nat>)
    requires Wf(d) && AllPositive(d) && n in d.level
    ensures PathWeight(d, Best, n, p) > 0.0
    decreases |p|
  {
    if p != [] && p[0] < |Edges(d, n)| {
      var e := Edges(d, n)[p[0]];
      PathPositive(d, e.part, p[1..]);
    }
  }

  /** A node reaches exactly the elements a path leads to. */
  lemma ReachPositive(d: Dag, n: Node, en: Node)
    requires Wf(d) && AllPositive(d) && n in d.level
    ensures ReachOf(d, Best, n, en) >= 0.0
    ensures Paths(d, n, en) != [] ==> ReachOf(d, Best, n, en) > 0.0
  {
    var ps := Paths(d, n, en);
    ReachOfIsPathSum(d, Best, n, en);
    if ps != [] {
      forall j | 0 <= j < |ps| ensures Weights(d, Best, n, ps)[j] > 0.0 {
        PathPositive(d, n, ps[j]);
      }
      SumPositive(Weights(d, Best, n, ps));
    }
  }

  lemma {:induction false} TotalPositive(d: Dag, n: Node, es: seq<Node>, en: Node)
    requires Wf(d) && AllPositive(d) && n in d.level
    ensures TotalReach(d, Best, n, es) >= 0.0
    ensures en in es && Paths(d, n, en) != [] ==> TotalReach(d, Best, n, es) > 0.0
  {
    if es != [] {
      var init, last := es[..|es| - 1], es[|es| - 1];
      assert es == init + [last];
      TotalPositive(d, n, init, en);
      ReachPositive(d, n, last);
    }
  }

  lemma {:induction false} PooledPositive(ix: Index, roots: seq<Node>, ec: Cls, n: Node, en: Node)
    requires Wf(ix.dag) && AllPositive(ix.dag) && n in ix.dag.level && en in ElementNodes(ix, ec)
    ensures PooledAmount(ix, Best, roots, ec) >= 0.0
    ensures n in roots && Paths(ix.dag, n, en) != [] ==> PooledAmount(ix, Best, roots, ec) > 0.0
  {
    if roots != [] {
      var init, last := roots[..|roots| - 1], roots[|roots| - 1];
      assert roots == init + [last];
      PooledPositive(ix, init, ec, n, en);
      if last in ix.dag.level {
        TotalPositive(ix.dag, last, ElementNodes(ix, ec), en);
      }
    }
  }

  /** The name orders list everything the index has. */
  ghost predicate Lists(ix: Index) {
    && (forall n :: n in ix.dag.level ==> n in ix.nodes && ClassOf(ix, n) in ix.names)
    && Covers(HierOf(ix))
  }

  lemma PositiveMean(sum: real, k: nat)
    requires sum > 0.0 && k > 0
    ensures sum / k as real > 0.0
  {
  }

  /** A class's row reports every element one of its top instances reaches. */
  lemma HeldInRow(ix: Index, n: Node, en: Node)
    requires Wf(ix.dag) && AllPositive(ix.dag) && Lists(ix) && n in Tops(ix) && IsElement(ix.dag, en)
    requires n in ix.dag.level && Paths(ix.dag, n, en) != []
    ensures ClassOf(ix, en) in LeafRow(ix, Best, ClassOf(ix, n))
  {
    var c, ec := ClassOf(ix, n), ClassOf(ix, en);
    assert en in ElementNodes(ix, ClassOf(ix, en)) && ClassOf(ix, en) in ElementClasses(ix) by {
      var ec := ClassOf(ix, en);
      OnlyMembers(ix.nodes, set n | n in ix.dag.level && ix.dag.level[n] == Element && ClassOf(ix, n) == ec);
      var cs := set n | n in ix.dag.level && ix.dag.level[n] == Element :: ClassOf(ix, n);
      OnlyMembers(ix.names, cs);
      assert ec in cs;
    }
    OnlyMembers(ix.nodes, set m | m in Tops(ix) && ClassOf(ix, m) == c);
    assert n in Roots(ix, c);
    PooledPositive(ix, Roots(ix, c), ec, n, en);
    PositiveMean(PooledAmount(ix, Best, Roots(ix, c), ec), |Roots(ix, c)|);
  }

  /** The node reaches an element. */
  ghost predicate Holds(d: Dag, n: Node) {
    Wf(d) && n in d.level && exists en :: IsElement(d, en) && Paths(d, n, en) != []
  }

  /** No row of an index whose tops all reach an element is empty. */
  lemma TopsReport(ix: Index)
    requires Wf(ix.dag) && AllPositive(ix.dag) && Lists(ix) && forall n :: n in Tops(ix) ==> Holds(ix.dag, n)
    ensures forall c :: c in LeafClasses(ix) ==> LeafRow(ix, Best, c) != map[]
  {
    forall n | n in Tops(ix) ensures LeafRow(ix, Best, ClassOf(ix, n)) != map[] {
      var en :| IsElement(ix.dag, en) && Paths(ix.dag, n, en) != [];
      HeldInRow(ix, n, en);
    }
  }
}
