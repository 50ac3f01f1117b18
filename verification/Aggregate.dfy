/** The aggregation engine over a composition index: leaf classes are pooled over their
    top instances, ancestors are rolled up, for amounts, uncertainty and data quality. */
module Aggregate {
  import opened Vocabulary
  import opened Sums
  import opened Hierarchy
  import opened Rollup
  import opened RowRollup
  import opened Reach
  import opened MassBalance
  import opened ReachMemo
  import opened TermMemo

  /** The transient index. `nodes` and `names` list node and class names in name order. */
  datatype Index = Index(
    dag: Dag,
    cls: map<Node, Cls>,
    time: map<Cls, TimeEntry>,
    sup: set<(Cls, Cls)>,
    strategy: map<Cls, Strategy>,
    quality: map<(Node, Node), Quality>,
    nodes: seq<Node>,
    names: seq<Cls>)

  ghost predicate WfIndex(ix: Index) {
    Wf(ix.dag) && ix.cls.Keys == ix.dag.level.Keys && Distinct(ix.names) && Distinct(ix.nodes)
  }

  /** Wholes that are never a part. */
  function Tops(ix: Index): set<Node> {
    ix.dag.adj.Keys - set n, i | n in ix.dag.adj && 0 <= i < |ix.dag.adj[n]| :: ix.dag.adj[n][i].part
  }

  function ClassOf(ix: Index, n: Node): Cls {
    if n in ix.cls then ix.cls[n] else Named("")
  }

  function LeafClasses(ix: Index): set<Cls> {
    set n | n in Tops(ix) :: ClassOf(ix, n)
  }

  /** The top instances of a class, in name order. */
  function Roots(ix: Index, c: Cls): seq<Node> {
    Only(ix.nodes, set n | n in Tops(ix) && ClassOf(ix, n) == c)
  }

  function ElementNodes(ix: Index, ec: Cls): seq<Node> {
    Only(ix.nodes, set n | n in ix.dag.level && ix.dag.level[n] == Element && ClassOf(ix, n) == ec)
  }

  function ElementClasses(ix: Index): seq<Cls> {
    Only(ix.names, set n | n in ix.dag.level && ix.dag.level[n] == Element :: ClassOf(ix, n))
  }

  predicate IsProductOrComponent(ix: Index, n: Node) {
    n in ix.dag.level && (ix.dag.level[n] == Product || ix.dag.level[n] == Component)
  }

  /** Superclasses of some leaf class. */
  function AncestorClasses(ix: Index): set<Cls> {
    set c, a | c in LeafClasses(ix) && a in Ancestors(ix.sup, c) - {c} :: a
  }

  /** Superclasses of a leaf class that has a Product or Component top. */
  function FamilyPC(ix: Index): set<Cls> {
    set n, a
        | n in Tops(ix) && IsProductOrComponent(ix, n) && a in Ancestors(ix.sup, ClassOf(ix, n)) - {ClassOf(ix, n)} :: a
  }

  function HierOf(ix: Index): Hier {
    Hier(LeafClasses(ix), AncestorClasses(ix), ix.sup, ix.time, ix.strategy, FamilyPC(ix), ix.names)
  }

  /** Product or Component leaf classes without a time scope: `aggregate` refuses these. */
  function Untimed(ix: Index): set<Cls> {
    set n | n in Tops(ix) && IsProductOrComponent(ix, n) && ClassOf(ix, n) !in ix.time :: ClassOf(ix, n)
  }

  // ---- leaf rows -------------------------------------------------------------------------

  /** Total amount of an element class over a list of instances. */
  function PooledAmount(ix: Index, use: Use, roots: seq<Node>, ec: Cls): real
    requires Wf(ix.dag)
  {
    if roots == [] then 0.0
    else
      var n := roots[|roots| - 1];
      PooledAmount(ix, use, roots[..|roots| - 1], ec)
      + (if n in ix.dag.level then TotalReach(ix.dag, use, n, ElementNodes(ix, ec)) else 0.0)
  }

  /** The equal mean over the instances, reported when positive. */
  function LeafAmount(ix: Index, use: Use, roots: seq<Node>, ec: Cls): Option<real>
    requires Wf(ix.dag)
  {
    if roots == [] then None
    else
      var amount := PooledAmount(ix, use, roots, ec) / |roots| as real;
      if amount > 0.0 then Some(amount) else None
  }

  function LeafRow(ix: Index, use: Use, c: Cls): Amounts
    requires Wf(ix.dag)
  {
    map ec | ec in ElementClasses(ix) && LeafAmount(ix, use, Roots(ix, c), ec).Some? ::
      LeafAmount(ix, use, Roots(ix, c), ec).value
  }

  function LeafRows(ix: Index, use: Use): map<Cls, Amounts>
    requires Wf(ix.dag)
  {
    map c | c in LeafClasses(ix) :: LeafRow(ix, use, c)
  }

  function Shared(ts: seq<Term>, n: nat): (r: seq<Term>)
    requires n > 0
    ensures |r| == |ts| && forall j :: 0 <= j < |ts| ==> r[j] == Term(ts[j].weight / n as real, ts[j].x)
  {
    seq(|ts|, j requires 0 <= j < |ts| => Term(ts[j].weight / n as real, ts[j].x))
  }

  /** The path terms of one instance for the listed Element nodes. */
  function NodeTerms(ix: Index, compound: bool, n: Node, es: seq<Node>): seq<Term>
    requires Wf(ix.dag)
  {
    if es == [] || n !in ix.dag.level then []
    else NodeTerms(ix, compound, n, es[..|es| - 1])
         + TermList(ix.dag, compound, n, Paths(ix.dag, n, es[|es| - 1]))
  }

  /** Every instance's path terms, their values scaled by 1/k. */
  function PooledTerms(ix: Index, compound: bool, roots: seq<Node>, k: nat, ec: Cls): seq<Term>
    requires Wf(ix.dag) && k > 0
  {
    if roots == [] then []
    else PooledTerms(ix, compound, roots[..|roots| - 1], k, ec)
         + Shared(NodeTerms(ix, compound, roots[|roots| - 1], ElementNodes(ix, ec)), k)
  }

  /** Contribution-weighted relative RSS, squared. */
  function Rss(ts: seq<Term>): Option<real> {
    if ts == [] || Weight(ts) <= 0.0 then None else Some(SquaredRatio(Variance(ts), 1.0, Weight(ts)))
  }

  function LeafUncertainty(ix: Index, compound: bool, roots: seq<Node>, ec: Cls): Option<real>
    requires Wf(ix.dag)
  {
    if roots == [] then None else Rss(PooledTerms(ix, compound, roots, |roots|, ec))
  }

  function LeafUncertaintyRow(ix: Index, compound: bool, c: Cls): Amounts
    requires Wf(ix.dag)
  {
    map ec | ec in ElementClasses(ix) && LeafUncertainty(ix, compound, Roots(ix, c), ec).Some? ::
      LeafUncertainty(ix, compound, Roots(ix, c), ec).value
  }

  function LeafUncertainties(ix: Index, compound: bool): map<Cls, Amounts>
    requires Wf(ix.dag)
  {
    map c | c in LeafClasses(ix) :: LeafUncertaintyRow(ix, compound, c)
  }

  /** The data quality of the edge a path ends with. */
  function PathQuality(ix: Index, n: Node, p: seq<nat>): Option<Quality>
    decreases |p|
  {
    if p == [] || p[0] >= |Edges(ix.dag, n)| then None
    else
      var part := Edges(ix.dag, n)[p[0]].part;
      if |p| == 1 then (if (n, part) in ix.quality then Some(ix.quality[(n, part)]) else None)
      else PathQuality(ix, part, p[1..])
  }

  /** Fold the scored paths of one instance into a quality pool. */
  function AddPaths(ix: Index, n: Node, ps: seq<seq<nat>>, k: nat, pool: Pool): Pool
    requires k > 0
  {
    if ps == [] then pool
    else
      var before, p := AddPaths(ix, n, ps[..|ps| - 1], k, pool), ps[|ps| - 1];
      match PathQuality(ix, n, p)
      case None => before
      case Some(q) => before.Add(PathWeight(ix.dag, Best, n, p) / k as real, q)
  }

  function AddNode(ix: Index, n: Node, es: seq<Node>, k: nat, pool: Pool): Pool
    requires Wf(ix.dag) && k > 0
  {
    if es == [] || n !in ix.dag.level then pool
    else AddPaths(ix, n, Paths(ix.dag, n, es[|es| - 1]), k, AddNode(ix, n, es[..|es| - 1], k, pool))
  }

  function PooledQuality(ix: Index, roots: seq<Node>, k: nat, ec: Cls): Pool
    requires Wf(ix.dag) && k > 0
  {
    if roots == [] then Pool(0.0, 0.0, None)
    else AddNode(ix, roots[|roots| - 1], ElementNodes(ix, ec), k, PooledQuality(ix, roots[..|roots| - 1], k, ec))
  }

  function LeafQuality(ix: Index, roots: seq<Node>, ec: Cls): Option<Quality>
    requires Wf(ix.dag)
  {
    if roots == [] then None else PooledQuality(ix, roots, |roots|, ec).Entry()
  }

  function LeafQualityRow(ix: Index, c: Cls): map<Cls, Quality>
    requires Wf(ix.dag)
  {
    map ec | ec in ElementClasses(ix) && LeafQuality(ix, Roots(ix, c), ec).Some? ::
      LeafQuality(ix, Roots(ix, c), ec).value
  }

  function LeafQualities(ix: Index): map<Cls, map<Cls, Quality>>
    requires Wf(ix.dag)
  {
    map c | c in LeafClasses(ix) :: LeafQualityRow(ix, c)
  }

  // ---- the three class tables ----------------------------------------------------------------

  function AmountTable(ix: Index, use: Use): map<Cls, Amounts>
    requires Wf(ix.dag)
  {
    LeafRows(ix, use) + MeanRows(ElementClasses(ix), LeafRows(ix, use), Schedule(HierOf(ix)))
  }

  function UncertaintyTable(ix: Index, compound: bool, best: map<Cls, Amounts>): map<Cls, Amounts>
    requires Wf(ix.dag)
  {
    var leaf := LeafUncertainties(ix, compound);
    leaf + UncertaintyRows(ElementClasses(ix), leaf, best, Schedule(HierOf(ix)))
  }

  function QualityTable(ix: Index, best: map<Cls, Amounts>): map<Cls, map<Cls, Quality>>
    requires Wf(ix.dag)
  {
    LeafQualities(ix) + QualityRows(ElementClasses(ix), LeafQualities(ix), best, Schedule(HierOf(ix)))
  }

  /** Lockstep: the three tables have rows for the same classes, whatever the numbers. */
  lemma Lockstep(ix: Index, use: Use, compound: bool, best: map<Cls, Amounts>)
    requires Wf(ix.dag)
    ensures AmountTable(ix, use).Keys == LeafClasses(ix) + Parents(Schedule(HierOf(ix)))
    ensures UncertaintyTable(ix, compound, best).Keys == AmountTable(ix, use).Keys == QualityTable(ix, best).Keys
  {
    var steps, elems := Schedule(HierOf(ix)), ElementClasses(ix);
    MeanRowKeys(elems, LeafRows(ix, use), steps);
    UncertaintyRowKeys(elems, LeafUncertainties(ix, compound), best, steps);
    QualityRowKeys(elems, LeafQualities(ix), best, steps);
  }

  // ---- the engine ------------------------------------------------------------------------------

  /** The walk has visited every node. */
  ghost predicate Walked(d: Dag, use: Use, reach: map<Node, map<Node, real>>) {
    Wf(d) && forall n :: n in d.level ==> n in reach && IsVector(d, use, n, reach[n])
  }

  lemma EntryIsReach(d: Dag, use: Use, reach: map<Node, map<Node, real>>, n: Node, en: Node)
    requires Walked(d, use, reach) && n in d.level
    ensures GetOr(reach[n], en, 0.0) == ReachOf(d, use, n, en)
  {
    assert ReachMemo.At(reach[n], en) == if Paths(d, n, en) == [] then None else Some(ReachOf(d, use, n, en));
    if Paths(d, n, en) == [] {
      NoPathNoReach(d, use, n, |Edges(d, n)|, en);
    }
  }

  lemma TotalSnoc(d: Dag, use: Use, n: Node, es: seq<Node>, j: nat)
    requires Wf(d) && n in d.level && j < |es|
    ensures TotalReach(d, use, n, es[..j + 1]) == TotalReach(d, use, n, es[..j]) + ReachOf(d, use, n, es[j])
  {
    assert es[..j + 1][..j] == es[..j];
  }

  /** `element_in_whole`: the memoised reaches of one instance, summed over an element class. */
  method ElementInWhole(ix: Index, use: Use, reach: map<Node, map<Node, real>>, n: Node, ec: Cls) returns (acc: real)
    requires WfIndex(ix) && Walked(ix.dag, use, reach) && n in ix.dag.level
    ensures acc == TotalReach(ix.dag, use, n, ElementNodes(ix, ec))
  {
    acc := 0.0;
    var es := ElementNodes(ix, ec);
    for j := 0 to |es|
      invariant acc == TotalReach(ix.dag, use, n, es[..j])
    {
      TotalSnoc(ix.dag, use, n, es, j);
      EntryIsReach(ix.dag, use, reach, n, es[j]);
      acc := acc + GetOr(reach[n], es[j], 0.0);
    }
    assert es[..|es|] == es;
  }

  method PoolAmounts(ix: Index, use: Use, reach: map<Node, map<Node, real>>, roots: seq<Node>, ec: Cls)
    returns (acc: real)
    requires WfIndex(ix) && Walked(ix.dag, use, reach)
    ensures acc == PooledAmount(ix, use, roots, ec)
  {
    acc := 0.0;
    for j := 0 to |roots|
      invariant acc == PooledAmount(ix, use, roots[..j], ec)
    {
      assert roots[..j + 1][..j] == roots[..j];
      if roots[j] in ix.dag.level {
        var more := ElementInWhole(ix, use, reach, roots[j], ec);
        acc := acc + more;
      }
    }
    assert roots[..|roots|] == roots;
  }

  method LeafMeans(ix: Index, use: Use, reach: map<Node, map<Node, real>>, c: Cls) returns (row: Amounts)
    requires WfIndex(ix) && Walked(ix.dag, use, reach)
    ensures row == LeafRow(ix, use, c)
  {
    row := map[];
    var elems, roots := ElementClasses(ix), Roots(ix, c);
    for i := 0 to |elems|
      invariant forall ec :: RowRollup.At(row, ec) == if ec in elems[..i] then LeafAmount(ix, use, roots, ec) else None
    {
      assert elems[..i + 1] == elems[..i] + [elems[i]];
      var acc := PoolAmounts(ix, use, reach, roots, elems[i]);
      if |roots| != 0 && acc / |roots| as real > 0.0 {
        row := row[elems[i] := acc / |roots| as real];
      }
    }
    assert elems[..|elems|] == elems;
  }

  method Reaches(ix: Index, use: Use) returns (reach: map<Node, map<Node, real>>)
    requires WfIndex(ix)
    ensures Walked(ix.dag, use, reach)
  {
    var walk := new ReachWalk(ix.dag, use);
    walk.Run(ix.dag.level.Keys);
    reach := walk.memo;
  }

  /** `aggregate`: refuses untimed Product/Component leaf classes, else builds the table. */
  method Run(ix: Index, use: Use) returns (r: Result<map<Cls, Amounts>, set<Cls>>)
    requires WfIndex(ix)
    ensures r == if Untimed(ix) == {} then Ok(AmountTable(ix, use)) else Err(Untimed(ix))
  {
    var missing := Untimed(ix);
    if missing != {} {
      return Err(missing);
    }
    var reach := Reaches(ix, use);
    var leaf: map<Cls, Amounts> := map[];
    var todo := LeafClasses(ix);
    while todo != {}
      invariant todo <= LeafClasses(ix) && leaf.Keys == LeafClasses(ix) - todo
      invariant forall c :: c in leaf ==> leaf[c] == LeafRow(ix, use, c)
      decreases todo
    {
      var c :| c in todo;
      var row := LeafMeans(ix, use, reach, c);
      leaf, todo := leaf[c := row], todo - {c};
    }
    assert leaf == LeafRows(ix, use);
    var computed := RollUpAmounts(HierOf(ix), ElementClasses(ix), leaf);
    r := Ok(leaf + computed);
  }

  /** The walk has listed the path terms of every node. */
  ghost predicate Listed(d: Dag, compound: bool, terms: map<Node, map<Node, seq<Term>>>) {
    Wf(d) && forall n :: n in d.level ==> n in terms && IsTerms(d, compound, n, terms[n])
  }

  method Terms(ix: Index, compound: bool) returns (terms: map<Node, map<Node, seq<Term>>>)
    requires WfIndex(ix)
    ensures Listed(ix.dag, compound, terms)
  {
    var walk := new TermWalk(ix.dag, compound);
    walk.Run(ix.dag.level.Keys);
    terms := walk.memo;
  }

  lemma NodeTermsSnoc(ix: Index, compound: bool, n: Node, es: seq<Node>, j: nat)
    requires Wf(ix.dag) && n in ix.dag.level && j < |es|
    ensures NodeTerms(ix, compound, n, es[..j + 1])
         == NodeTerms(ix, compound, n, es[..j]) + TermList(ix.dag, compound, n, Paths(ix.dag, n, es[j]))
  {
    assert es[..j + 1][..j] == es[..j];
  }

  method ClassTerms(ix: Index, compound: bool, terms: map<Node, map<Node, seq<Term>>>, n: Node, ec: Cls)
    returns (ts: seq<Term>)
    requires WfIndex(ix) && Listed(ix.dag, compound, terms)
    ensures ts == NodeTerms(ix, compound, n, ElementNodes(ix, ec))
  {
    ts := [];
    if n !in ix.dag.level {
      return;
    }
    var es := ElementNodes(ix, ec);
    for j := 0 to |es|
      invariant ts == NodeTerms(ix, compound, n, es[..j])
    {
      NodeTermsSnoc(ix, compound, n, es, j);
      assert IsTerms(ix.dag, compound, n, terms[n]);
      ts := ts + GetOr(terms[n], es[j], []);
    }
    assert es[..|es|] == es;
  }

  method PoolTerms(ix: Index, compound: bool, terms: map<Node, map<Node, seq<Term>>>, roots: seq<Node>, ec: Cls)
    returns (ts: seq<Term>)
    requires WfIndex(ix) && Listed(ix.dag, compound, terms) && roots != []
    ensures ts == PooledTerms(ix, compound, roots, |roots|, ec)
  {
    ts := [];
    for j := 0 to |roots|
      invariant ts == PooledTerms(ix, compound, roots[..j], |roots|, ec)
    {
      assert roots[..j + 1][..j] == roots[..j];
      var own := ClassTerms(ix, compound, terms, roots[j], ec);
      ts := ts + Shared(own, |roots|);
    }
    assert roots[..|roots|] == roots;
  }

  method EntrySpread(ix: Index, compound: bool, terms: map<Node, map<Node, seq<Term>>>, roots: seq<Node>, ec: Cls)
    returns (spread: Option<real>)
    requires WfIndex(ix) && Listed(ix.dag, compound, terms)
    ensures spread == LeafUncertainty(ix, compound, roots, ec)
  {
    if roots == [] {
      return None;
    }
    var ts := PoolTerms(ix, compound, terms, roots, ec);
    spread := Rss(ts);
  }

  method LeafSpread(ix: Index, compound: bool, terms: map<Node, map<Node, seq<Term>>>, c: Cls) returns (row: Amounts)
    requires WfIndex(ix) && Listed(ix.dag, compound, terms)
    ensures row == LeafUncertaintyRow(ix, compound, c)
  {
    row := map[];
    var elems, roots := ElementClasses(ix), Roots(ix, c);
    for i := 0 to |elems|
      invariant forall ec ::
          RowRollup.At(row, ec) == if ec in elems[..i] then LeafUncertainty(ix, compound, roots, ec) else None
    {
      assert elems[..i + 1] == elems[..i] + [elems[i]];
      var spread := EntrySpread(ix, compound, terms, roots, elems[i]);
      if spread.Some? {
        row := row[elems[i] := spread.value];
      }
    }
    assert elems[..|elems|] == elems;
  }

  method LeafSpreads(ix: Index, compound: bool, terms: map<Node, map<Node, seq<Term>>>)
    returns (leaf: map<Cls, Amounts>)
    requires WfIndex(ix) && Listed(ix.dag, compound, terms)
    ensures leaf == LeafUncertainties(ix, compound)
  {
    leaf := map[];
    var todo := LeafClasses(ix);
    while todo != {}
      invariant todo <= LeafClasses(ix) && leaf.Keys == LeafClasses(ix) - todo
      invariant forall c :: c in leaf ==> leaf[c] == LeafUncertaintyRow(ix, compound, c)
      decreases todo
    {
      var c :| c in todo;
      var row := LeafSpread(ix, compound, terms, c);
      leaf, todo := leaf[c := row], todo - {c};
    }
  }

  /** `aggregate_uncertainty`, over the amounts `aggregate` gave. */
  method RunUncertainty(ix: Index, compound: bool, best: map<Cls, Amounts>) returns (table: map<Cls, Amounts>)
    requires WfIndex(ix)
    ensures table == UncertaintyTable(ix, compound, best)
  {
    var terms := Terms(ix, compound);
    var leaf := LeafSpreads(ix, compound, terms);
    var computed := RollUpUncertainty(HierOf(ix), ElementClasses(ix), leaf, best);
    table := leaf + computed;
  }
}
