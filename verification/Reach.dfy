/** Element reach: the memoised bottom-up walks over the composition DAG, and the path
    sums they compute. */
module Reach {
  import opened Vocabulary
  import opened Sums
  import opened Rollup

  /** One step-wise statement, as the walks read it. */
  datatype Edge = Edge(part: Node, best: real, lo: real, hi: real, floor: real)

  datatype Use = Best | Lo | Hi

  function Fraction(e: Edge, use: Use): real {
    match use
    case Best => e.best
    case Lo => e.lo
    case Hi => e.hi
  }

  /** The part of the index the walks read. `depth` witnesses that no node is below
      itself: the source recurses without a guard. */
  datatype Dag = Dag(adj: map<Node, seq<Edge>>, level: map<Node, Level>, depth: map<Node, nat>)

  ghost predicate Wf(d: Dag) {
    && (forall n :: n in d.level ==> n in d.depth)
    && (forall n :: n in d.adj ==> n in d.level)
    && (forall n, i :: n in d.adj && 0 <= i < |d.adj[n]| ==>
          d.adj[n][i].part in d.level && d.depth[d.adj[n][i].part] < d.depth[n])
  }

  /** Every statement joins levels at most one rank apart. */
  ghost predicate StepWise(d: Dag) {
    forall n, i :: n in d.level && 0 <= i < |Edges(d, n)| && Edges(d, n)[i].part in d.level ==>
      Near(d.level[n], d.level[Edges(d, n)[i].part])
  }

  function Edges(d: Dag, n: Node): seq<Edge> {
    if n in d.adj then d.adj[n] else []
  }

  predicate IsElement(d: Dag, n: Node) {
    n in d.level && d.level[n] == Element
  }

  // ---- paths: the reference definition ------------------------------------------------

  /** Following the edge positions `p` from `n` ends at the Element node `en`. */
  ghost predicate Leads(d: Dag, n: Node, p: seq<nat>, en: Node)
    decreases |p|
  {
    if p == [] then n == en && IsElement(d, en)
    else p[0] < |Edges(d, n)| && Leads(d, Edges(d, n)[p[0]].part, p[1..], en)
  }

  ghost predicate IsPath(d: Dag, n: Node, p: seq<nat>, en: Node) {
    p != [] && Leads(d, n, p, en)
  }

  function PathWeight(d: Dag, use: Use, n: Node, p: seq<nat>): real
    decreases |p|
  {
    if p == [] || p[0] >= |Edges(d, n)| then 1.0
    else Times(Fraction(Edges(d, n)[p[0]], use), PathWeight(d, use, Edges(d, n)[p[0]].part, p[1..]))
  }

  /** Prefix every path with one edge position. */
  function Under(i: nat, ps: seq<seq<nat>>): (r: seq<seq<nat>>)
    ensures |r| == |ps| && forall j :: 0 <= j < |ps| ==> r[j] == [i] + ps[j]
  {
    seq(|ps|, j requires 0 <= j < |ps| => [i] + ps[j])
  }

  /** All paths from `n` to `en` whose first edge is among the first `k`, in walk order. */
  function PathsVia(d: Dag, n: Node, k: nat, en: Node): seq<seq<nat>>
    requires Wf(d) && n in d.level && k <= |Edges(d, n)|
    decreases d.depth[n], k
  {
    if k == 0 then []
    else PathsVia(d, n, k - 1, en) + Under(k - 1, Tails(d, Edges(d, n)[k - 1].part, en))
  }

  function Paths(d: Dag, n: Node, en: Node): seq<seq<nat>>
    requires Wf(d) && n in d.level
    decreases d.depth[n], |Edges(d, n)| + 1
  {
    PathsVia(d, n, |Edges(d, n)|, en)
  }

  /** The ways to go on from a part: stop there, or follow a path. */
  function Tails(d: Dag, n: Node, en: Node): seq<seq<nat>>
    requires Wf(d) && n in d.level
    decreases d.depth[n], |Edges(d, n)| + 2
  {
    (if n == en && IsElement(d, en) then [[]] else []) + Paths(d, n, en)
  }

  lemma UnderExact(i: nat, ps: seq<seq<nat>>)
    ensures forall p :: p in Under(i, ps) <==> p != [] && p[0] == i && p[1..] in ps
    ensures Distinct(ps) ==> Distinct(Under(i, ps))
  {
    var r := Under(i, ps);
    forall p ensures p in r <==> p != [] && p[0] == i && p[1..] in ps {
      if p != [] && p[0] == i && p[1..] in ps {
        var j :| 0 <= j < |ps| && ps[j] == p[1..];
        assert p == r[j];
      }
      if p in r {
        var j :| 0 <= j < |r| && r[j] == p;
        assert p[1..] == ps[j];
      }
    }
    forall j, k | 0 <= j < k < |r| && Distinct(ps) ensures r[j] != r[k] {
      assert r[j][1..] == ps[j] && r[k][1..] == ps[k];
    }
  }

  lemma DistinctAppend<T>(a: seq<T>, b: seq<T>)
    requires Distinct(a) && Distinct(b) && forall x :: x in a ==> x !in b
    ensures Distinct(a + b)
  {
    forall i, j | 0 <= i < j < |a + b| ensures (a + b)[i] != (a + b)[j] {
      if i < |a| <= j {
        assert a[i] in a && b[j - |a|] in b;
      }
    }
  }

  lemma TailsExact(d: Dag, n: Node, en: Node)
    requires Wf(d) && n in d.level
    requires Distinct(Paths(d, n, en)) && forall p :: p in Paths(d, n, en) <==> IsPath(d, n, p, en)
    ensures Distinct(Tails(d, n, en)) && forall p :: p in Tails(d, n, en) <==> Leads(d, n, p, en)
  {
    var stop: seq<seq<nat>> := if n == en && IsElement(d, en) then [[]] else [];
    DistinctAppend(stop, Paths(d, n, en));
  }

  lemma LeadsVia(d: Dag, n: Node, i: nat, tails: seq<seq<nat>>, en: Node)
    requires i < |Edges(d, n)|
    requires forall p :: p in tails <==> Leads(d, Edges(d, n)[i].part, p, en)
    ensures forall p :: p in Under(i, tails) <==> IsPath(d, n, p, en) && p[0] == i
    ensures Distinct(tails) ==> Distinct(Under(i, tails))
  {
    UnderExact(i, tails);
  }

  /** The enumeration holds every path to an Element node exactly once. */
  lemma {:induction false} PathsExact(d: Dag, n: Node, k: nat, en: Node)
    requires Wf(d) && n in d.level && k <= |Edges(d, n)|
    ensures forall p :: p in PathsVia(d, n, k, en) <==> IsPath(d, n, p, en) && p[0] < k
    ensures Distinct(PathsVia(d, n, k, en))
    decreases d.depth[n], k
  {
    if k != 0 {
      var part := Edges(d, n)[k - 1].part;
      PathsExact(d, n, k - 1, en);
      PathsExact(d, part, |Edges(d, part)|, en);
      TailsExact(d, part, en);
      LeadsVia(d, n, k - 1, Tails(d, part, en), en);
      DistinctAppend(PathsVia(d, n, k - 1, en), Under(k - 1, Tails(d, part, en)));
    }
  }

  lemma AllPathsExact(d: Dag, n: Node, en: Node)
    requires Wf(d) && n in d.level
    ensures Distinct(Paths(d, n, en))
    ensures forall p :: p in Paths(d, n, en) <==> IsPath(d, n, p, en)
  {
    PathsExact(d, n, |Edges(d, n)|, en);
  }

  // ---- the reach as a recursion, and as a path sum --------------------------------------

  function ReachVia(d: Dag, use: Use, n: Node, k: nat, en: Node): real
    requires Wf(d) && n in d.level && k <= |Edges(d, n)|
    decreases d.depth[n], k
  {
    if k == 0 then 0.0
    else
      var e := Edges(d, n)[k - 1];
      ReachVia(d, use, n, k - 1, en) + Times(Fraction(e, use), Content(d, use, e.part, en))
  }

  /** Kilograms of `en` below `n` per kilogram of `n`. */
  function ReachOf(d: Dag, use: Use, n: Node, en: Node): real
    requires Wf(d) && n in d.level
    decreases d.depth[n], |Edges(d, n)| + 1
  {
    ReachVia(d, use, n, |Edges(d, n)|, en)
  }

  /** The same, counting `n` itself when it is `en`. */
  function Content(d: Dag, use: Use, n: Node, en: Node): real
    requires Wf(d) && n in d.level
    decreases d.depth[n], |Edges(d, n)| + 2
  {
    (if n == en && IsElement(d, en) then 1.0 else 0.0) + ReachOf(d, use, n, en)
  }

  function Weights(d: Dag, use: Use, n: Node, ps: seq<seq<nat>>): (r: seq<real>)
    ensures |r| == |ps| && forall j :: 0 <= j < |ps| ==> r[j] == PathWeight(d, use, n, ps[j])
  {
    seq(|ps|, j requires 0 <= j < |ps| => PathWeight(d, use, n, ps[j]))
  }

  lemma WeightsAppend(d: Dag, use: Use, n: Node, a: seq<seq<nat>>, b: seq<seq<nat>>)
    ensures Sum(Weights(d, use, n, a + b)) == Sum(Weights(d, use, n, a)) + Sum(Weights(d, use, n, b))
  {
    assert Weights(d, use, n, a + b) == Weights(d, use, n, a) + Weights(d, use, n, b);
    SumAppend(Weights(d, use, n, a), Weights(d, use, n, b));
  }

  lemma WeightsUnder(d: Dag, use: Use, n: Node, i: nat, ps: seq<seq<nat>>)
    requires i < |Edges(d, n)|
    ensures var e := Edges(d, n)[i];
            Sum(Weights(d, use, n, Under(i, ps))) == Times(Fraction(e, use), Sum(Weights(d, use, e.part, ps)))
  {
    var e := Edges(d, n)[i];
    forall j | 0 <= j < |ps|
      ensures PathWeight(d, use, n, Under(i, ps)[j]) == Times(Fraction(e, use), PathWeight(d, use, e.part, ps[j]))
    {
      PathUnder(d, use, n, i, ps[j]);
    }
    SumScale(Fraction(e, use), Weights(d, use, e.part, ps), Weights(d, use, n, Under(i, ps)));
  }

  lemma PathUnder(d: Dag, use: Use, n: Node, i: nat, p: seq<nat>)
    requires i < |Edges(d, n)|
    ensures var e := Edges(d, n)[i];
            PathWeight(d, use, n, [i] + p) == Times(Fraction(e, use), PathWeight(d, use, e.part, p))
  {
    assert ([i] + p)[1..] == p;
  }

  lemma PathsStep(d: Dag, use: Use, n: Node, i: nat, before: seq<seq<nat>>, tails: seq<seq<nat>>)
    requires i < |Edges(d, n)|
    ensures Sum(Weights(d, use, n, before + Under(i, tails)))
              == Sum(Weights(d, use, n, before))
                 + Times(Fraction(Edges(d, n)[i], use), Sum(Weights(d, use, Edges(d, n)[i].part, tails)))
  {
    WeightsUnder(d, use, n, i, tails);
    WeightsAppend(d, use, n, before, Under(i, tails));
  }

  lemma {:induction false} ReachIsPathSum(d: Dag, use: Use, n: Node, k: nat, en: Node)
    requires Wf(d) && n in d.level && k <= |Edges(d, n)|
    ensures ReachVia(d, use, n, k, en) == Sum(Weights(d, use, n, PathsVia(d, n, k, en)))
    decreases d.depth[n], k
  {
    if k == 0 {
      assert Weights(d, use, n, []) == [];
    } else {
      var i := k - 1;
      var part := Edges(d, n)[i].part;
      var before, tails := PathsVia(d, n, i, en), Tails(d, part, en);
      PathsStep(d, use, n, i, before, tails);
      assert Content(d, use, part, en) == Sum(Weights(d, use, part, tails)) by {
        ContentIsTailSum(d, use, part, en);
      }
      assert ReachVia(d, use, n, i, en) == Sum(Weights(d, use, n, before)) by {
        ReachIsPathSum(d, use, n, i, en);
      }
    }
  }

  lemma {:induction false} ContentIsTailSum(d: Dag, use: Use, n: Node, en: Node)
    requires Wf(d) && n in d.level
    ensures Content(d, use, n, en) == Sum(Weights(d, use, n, Tails(d, n, en)))
    decreases d.depth[n], |Edges(d, n)| + 2
  {
    ReachOfIsPathSum(d, use, n, en);
    var stop: seq<seq<nat>> := if n == en && IsElement(d, en) then [[]] else [];
    WeightsAppend(d, use, n, stop, Paths(d, n, en));
    assert Weights(d, use, n, []) == [];
    assert Weights(d, use, n, [[]]) == [1.0];
    assert [1.0][..0] == [];
  }

  /** The bottom-up recursion is the sum over all paths of the product of fractions. */
  lemma {:induction false} ReachOfIsPathSum(d: Dag, use: Use, n: Node, en: Node)
    requires Wf(d) && n in d.level
    ensures ReachOf(d, use, n, en) == Sum(Weights(d, use, n, Paths(d, n, en)))
    decreases d.depth[n], |Edges(d, n)| + 1
  {
    ReachIsPathSum(d, use, n, |Edges(d, n)|, en);
  }

  // ---- bracketing -------------------------------------------------------------------------

  ghost predicate Bracketed(d: Dag) {
    forall n, i :: n in d.adj && 0 <= i < |d.adj[n]| ==>
      0.0 <= d.adj[n][i].lo <= d.adj[n][i].best <= d.adj[n][i].hi
  }

  lemma ContentBracketed(d: Dag, n: Node, en: Node)
    requires Wf(d) && n in d.level
    requires var k := |Edges(d, n)|;
             0.0 <= ReachVia(d, Lo, n, k, en) <= ReachVia(d, Best, n, k, en) <= ReachVia(d, Hi, n, k, en)
    ensures 0.0 <= Content(d, Lo, n, en) <= Content(d, Best, n, en) <= Content(d, Hi, n, en)
  {
  }

  /** Per-edge lo <= best <= hi lifts to the reaches. */
  lemma {:induction false} ReachBracketed(d: Dag, n: Node, k: nat, en: Node)
    requires Wf(d) && Bracketed(d) && n in d.level && k <= |Edges(d, n)|
    ensures 0.0 <= ReachVia(d, Lo, n, k, en) <= ReachVia(d, Best, n, k, en) <= ReachVia(d, Hi, n, k, en)
    decreases d.depth[n], k
  {
    if k != 0 {
      var e := Edges(d, n)[k - 1];
      ReachBracketed(d, n, k - 1, en);
      ReachBracketed(d, e.part, |Edges(d, e.part)|, en);
      ContentBracketed(d, e.part, en);
      ProductOrder(e.lo, e.best, Content(d, Lo, e.part, en), Content(d, Best, e.part, en));
      ProductOrder(e.best, e.hi, Content(d, Best, e.part, en), Content(d, Hi, e.part, en));
    }
  }
}
