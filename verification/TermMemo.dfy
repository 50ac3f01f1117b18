/** The memoised walk `elem_reach_uncertainty`: one (value, relative uncertainty) term per
    path, over the same paths `elem_reach` sums. Relative uncertainties are squared. */
module TermMemo {
  import opened Vocabulary
  import opened Sums
  import opened Reach
  import opened ReachMemo

  /** Squared relative uncertainty of an edge: a rectangular half-width over the best value. */
  function EdgeVariance(e: Edge): real {
    if e.best != 0.0 && e.hi > e.best then
      var limit := (e.hi - e.best) / e.best;
      Times(limit, limit) / 3.0
    else 0.0
  }

  /** Squared relative uncertainty of a path: its last edge's, or the sum along it. */
  function PathVariance(d: Dag, compound: bool, n: Node, p: seq<nat>): real
    decreases |p|
  {
    if p == [] || p[0] >= |Edges(d, n)| then 0.0
    else
      var e := Edges(d, n)[p[0]];
      if |p| == 1 then EdgeVariance(e)
      else (if compound then EdgeVariance(e) else 0.0) + PathVariance(d, compound, e.part, p[1..])
  }

  /** The (value, squared relative uncertainty) pair of one path. */
  function TermOf(d: Dag, compound: bool, n: Node, p: seq<nat>): Term {
    Term(PathWeight(d, Best, n, p), PathVariance(d, compound, n, p))
  }

  function TermList(d: Dag, compound: bool, n: Node, ps: seq<seq<nat>>): (r: seq<Term>)
    ensures |r| == |ps| && forall j :: 0 <= j < |ps| ==> r[j] == TermOf(d, compound, n, ps[j])
  {
    seq(|ps|, j requires 0 <= j < |ps| => TermOf(d, compound, n, ps[j]))
  }

  function Lift(e: Edge, compound: bool, t: Term): Term {
    Term(Times(e.best, t.weight), (if compound then EdgeVariance(e) else 0.0) + t.x)
  }

  function LiftAll(e: Edge, compound: bool, ts: seq<Term>): (r: seq<Term>)
    ensures |r| == |ts| && forall j :: 0 <= j < |ts| ==> r[j] == Lift(e, compound, ts[j])
  {
    seq(|ts|, j requires 0 <= j < |ts| => Lift(e, compound, ts[j]))
  }

  function SelfTerm(d: Dag, e: Edge, en: Node): seq<Term> {
    if e.part == en && IsElement(d, en) then [Term(e.best, EdgeVariance(e))] else []
  }

  lemma TermUnder(d: Dag, compound: bool, n: Node, i: nat, p: seq<nat>)
    requires i < |Edges(d, n)|
    ensures var e := Edges(d, n)[i];
            TermOf(d, compound, n, [i] + p) == if p
                == [] then Term(e.best, EdgeVariance(e)) else Lift(e, compound, TermOf(d, compound, e.part, p))
  {
    PathUnder(d, Best, n, i, p);
    assert ([i] + p)[1..] == p;
  }

  /** Every path of an edge's part goes on, so none is the empty path. */
  lemma PathsNonEmpty(d: Dag, n: Node, en: Node)
    requires Wf(d) && n in d.level
    ensures forall p :: p in Paths(d, n, en) ==> p != []
  {
    AllPathsExact(d, n, en);
  }

  lemma TermsAppend(d: Dag, compound: bool, n: Node, a: seq<seq<nat>>, b: seq<seq<nat>>, c: seq<seq<nat>>)
    ensures TermList(d, compound, n, a + (b + c))
              == TermList(d, compound, n, a) + TermList(d, compound, n, b) + TermList(d, compound, n, c)
  {
  }

  /** What one edge adds to the term list of `en`: its own term, then the lifted sub-terms. */
  lemma TermsStep(d: Dag, compound: bool, n: Node, k: nat, en: Node)
    requires Wf(d) && n in d.level && k < |Edges(d, n)|
    ensures var e := Edges(d, n)[k];
            TermList(d, compound, n, PathsVia(d, n, k + 1, en))
              == TermList(d, compound, n, PathsVia(d, n, k, en)) + SelfTerm(d, e, en)
                   + LiftAll(e, compound, TermList(d, compound, e.part, Paths(d, e.part, en)))
  {
    var part := Edges(d, n)[k].part;
    var before, paths := PathsVia(d, n, k, en), Paths(d, part, en);
    var stop: seq<seq<nat>> := if part == en && IsElement(d, en) then [[]] else [];
    assert PathsVia(d, n, k + 1, en) == before + (Under(k, stop) + Under(k, paths)) by {
      EdgeStep(d, Best, n, k, en);
      assert Under(k, stop + paths) == Under(k, stop) + Under(k, paths);
    }
    PathsNonEmpty(d, part, en);
    assert var stop: seq<seq<nat>> := if Edges(d, n)[k].part == en && IsElement(d, en) then [[]] else [];
           TermList(d, compound, n, Under(k, stop)) == SelfTerm(d, Edges(d, n)[k], en) by {
      TermUnder(d, compound, n, k, []);
      assert [k] + [] == [k];
    }
    assert TermList(d, compound, n, Under(k, paths))
           == LiftAll(Edges(d, n)[k], compound, TermList(d, compound, Edges(d, n)[k].part, paths)) by {
      forall j | 0 <= j < |paths|
        ensures TermOf(d, compound, n, Under(k, paths)[j])
                  == Lift(Edges(d, n)[k], compound, TermOf(d, compound, Edges(d, n)[k].part, paths[j]))
      {
        assert paths[j] in paths;
        TermUnder(d, compound, n, k, paths[j]);
      }
    }
    TermsAppend(d, compound, n, before, Under(k, stop), Under(k, paths));
  }

  ghost predicate IsTermsVia(d: Dag, compound: bool, n: Node, k: nat, got: map<Node, seq<Term>>)
    requires Wf(d) && n in d.level && k <= |Edges(d, n)|
  {
    forall en :: GetOr(got, en, []) == TermList(d, compound, n, PathsVia(d, n, k, en))
  }

  /** One term per path to each Element, in walk order. */
  ghost predicate IsTerms(d: Dag, compound: bool, n: Node, got: map<Node, seq<Term>>)
    requires Wf(d) && n in d.level
  {
    forall en :: GetOr(got, en, []) == TermList(d, compound, n, Paths(d, n, en))
  }

  method LiftTerms(e: Edge, compound: bool, ts: seq<Term>) returns (r: seq<Term>)
    ensures r == LiftAll(e, compound, ts)
  {
    r := [];
    for j := 0 to |ts|
      invariant |r| == j && forall i :: 0 <= i < j ==> r[i] == Lift(e, compound, ts[i])
    {
      r := r + [Lift(e, compound, ts[j])];
    }
  }

  function Extended(direct: map<Node, seq<Term>>, e: Edge, compound: bool, sub: map<Node, seq<Term>>,
                    en: Node): seq<Term> {
    GetOr(direct, en, []) + LiftAll(e, compound, GetOr(sub, en, []))
  }

  method Extend(direct: map<Node, seq<Term>>, e: Edge, compound: bool, sub: map<Node, seq<Term>>)
    returns (got: map<Node, seq<Term>>)
    ensures forall en :: GetOr(got, en, []) == Extended(direct, e, compound, sub, en)
  {
    got := direct;
    var todo := sub.Keys;
    while todo != {}
      invariant todo <= sub.Keys
      invariant forall en ::
          GetOr(got, en, []) == if en in todo then GetOr(direct, en, []) else Extended(direct, e, compound, sub, en)
      decreases todo
    {
      var en :| en in todo;
      var lifted := LiftTerms(e, compound, sub[en]);
      got, todo := got[en := GetOr(got, en, []) + lifted], todo - {en};
    }
  }

  class TermWalk {
    const d: Dag
    const compound: bool
    var memo: map<Node, map<Node, seq<Term>>>

    ghost predicate Valid()
      reads this
    {
      Wf(d) && forall n :: n in memo ==> n in d.level && IsTerms(d, compound, n, memo[n])
    }

    constructor (d: Dag, compound: bool)
      requires Wf(d)
      ensures Valid() && this.d == d && this.compound == compound && memo == map[]
    {
      this.d, this.compound, memo := d, compound, map[];
    }

    method Vec(n: Node) returns (got: map<Node, seq<Term>>)
      requires Valid() && n in d.level
      modifies this
      ensures Valid() && IsTerms(d, compound, n, got)
      ensures n in memo && memo[n] == got
      ensures Kept(old(memo), memo)
      decreases d.depth[n]
    {
      if n in memo {
        return memo[n];
      }
      got := map[];
      var edges := Edges(d, n);
      for k := 0 to |edges|
        invariant Valid() && IsTermsVia(d, compound, n, k, got)
        invariant Kept(old(memo), memo)
      {
        var sub := Vec(edges[k].part);
        got := AddEdge(n, k, got, sub);
      }
      memo := memo[n := got];
    }

    method AddEdge(n: Node, k: nat, got0: map<Node, seq<Term>>, sub: map<Node, seq<Term>>)
      returns (got: map<Node, seq<Term>>)
      requires Wf(d) && n in d.level && k < |Edges(d, n)|
      requires IsTermsVia(d, compound, n, k, got0) && IsTerms(d, compound, Edges(d, n)[k].part, sub)
      ensures IsTermsVia(d, compound, n, k + 1, got)
    {
      var e := Edges(d, n)[k];
      var direct := got0;
      if d.level[e.part] == Element {
        direct := direct[e.part := GetOr(direct, e.part, []) + [Term(e.best, EdgeVariance(e))]];
      }
      got := Extend(direct, e, compound, sub);
      forall en ensures GetOr(got, en, []) == TermList(d, compound, n, PathsVia(d, n, k + 1, en)) {
        TermsStep(d, compound, n, k, en);
        assert GetOr(got0, en, []) == TermList(d, compound, n, PathsVia(d, n, k, en));
        assert GetOr(direct, en, []) == GetOr(got0, en, []) + SelfTerm(d, e, en);
      }
    }

    /** `elem_reach_uncertainty`: walk every node of the index. */
    method Run(nodes: set<Node>)
      requires Valid() && nodes <= d.level.Keys
      modifies this
      ensures Valid() && nodes <= memo.Keys
    {
      var todo := nodes;
      while todo != {}
        invariant Valid() && todo <= nodes && nodes - todo <= memo.Keys
        decreases todo
      {
        var n :| n in todo;
        var _ := Vec(n);
        todo := todo - {n};
      }
    }
  }

  // ---- what the terms say ------------------------------------------------------------------

  lemma {:induction false} WeightIsSum(d: Dag, compound: bool, n: Node, ps: seq<seq<nat>>)
    ensures Weight(TermList(d, compound, n, ps)) == Sum(Weights(d, Best, n, ps))
  {
    if ps != [] {
      var init := ps[..|ps| - 1];
      WeightIsSum(d, compound, n, init);
      assert TermList(d, compound, n, ps)[..|init|] == TermList(d, compound, n, init);
      assert Weights(d, Best, n, ps)[..|init|] == Weights(d, Best, n, init);
    }
  }

  /** The uncertainty terms' values sum to the very reach they annotate. */
  lemma TermsSumToReach(d: Dag, compound: bool, n: Node, en: Node)
    requires Wf(d) && n in d.level
    ensures Weight(TermList(d, compound, n, Paths(d, n, en))) == ReachOf(d, Best, n, en)
  {
    WeightIsSum(d, compound, n, Paths(d, n, en));
    ReachOfIsPathSum(d, Best, n, en);
  }

  lemma {:induction false} CompoundPath(d: Dag, n: Node, p: seq<nat>)
    ensures 0.0 <= PathVariance(d, false, n, p) <= PathVariance(d, true, n, p)
    decreases |p|
  {
    if p != [] && p[0] < |Edges(d, n)| {
      CompoundPath(d, Edges(d, n)[p[0]].part, p[1..]);
    }
  }

  /** Compounding along paths keeps every value and never lowers the pooled variance. */
  lemma CompoundingNeverLowers(d: Dag, n: Node, ps: seq<seq<nat>>)
    ensures var leafOnly, along := TermList(d, false, n, ps), TermList(d, true, n, ps);
            Weight(leafOnly) == Weight(along) && Variance(leafOnly) <= Variance(along)
  {
    forall j | 0 <= j < |ps| {
      CompoundPath(d, n, ps[j]);
    }
    VarianceMonotone(TermList(d, false, n, ps), TermList(d, true, n, ps));
  }
}
