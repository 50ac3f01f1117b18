/** The memoised walk `elem_reach`: each node is walked once and its answer kept, and every
    answer is the path sum of `Reach`. */
module ReachMemo {
  import opened Vocabulary
  import opened Sums
  import opened Reach

  function At<V>(m: map<Node, V>, k: Node): Option<V> {
    if k in m then Some(m[k]) else None
  }

  /** `got` holds the reach through the first `k` edges, for exactly the Elements reached. */
  ghost predicate IsVectorVia(d: Dag, use: Use, n: Node, k: nat, got: map<Node, real>)
    requires Wf(d) && n in d.level && k <= |Edges(d, n)|
  {
    forall en :: At(got, en) == if PathsVia(d, n, k, en) == [] then None else Some(ReachVia(d, use, n, k, en))
  }

  ghost predicate IsVector(d: Dag, use: Use, n: Node, got: map<Node, real>)
    requires Wf(d) && n in d.level
  {
    forall en :: At(got, en) == if Paths(d, n, en) == [] then None else Some(ReachOf(d, use, n, en))
  }

  function GetOr<V>(m: map<Node, V>, k: Node, default: V): V {
    if k in m then m[k] else default
  }

  /** Every memoised answer stays. */
  ghost predicate Kept<V>(before: map<Node, V>, after: map<Node, V>) {
    forall n :: n in before ==> n in after && after[n] == before[n]
  }

  /** Add a scaled vector into another, entry by entry. */
  method Merge(direct: map<Node, real>, f: real, sub: map<Node, real>) returns (got: map<Node, real>)
    ensures forall en ::
        At(got, en) == if en in sub then Some(GetOr(direct, en, 0.0) + Times(f, sub[en])) else At(direct, en)
  {
    got := direct;
    var todo := sub.Keys;
    while todo != {}
      invariant todo <= sub.Keys
      invariant forall en :: At(got, en) == if en in sub && en !in todo then Some(GetOr(direct, en, 0.0)
          + Times(f, sub[en])) else At(direct, en)
      decreases todo
    {
      var en :| en in todo;
      assert At(got, en) == At(direct, en);
      got, todo := got[en := GetOr(got, en, 0.0) + Times(f, sub[en])], todo - {en};
    }
  }

  lemma EdgeStep(d: Dag, use: Use, n: Node, k: nat, en: Node)
    requires Wf(d) && n in d.level && k < |Edges(d, n)|
    ensures var e := Edges(d, n)[k];
            && PathsVia(d, n, k + 1, en) == PathsVia(d, n, k, en) + Under(k, Tails(d, e.part, en))
            && ReachVia(d, use, n, k + 1, en)
                 == ReachVia(d, use, n, k, en) + Times(Fraction(e, use), Content(d, use, e.part, en))
  {
  }

  /** An entry without a path is zero. */
  lemma NoPathNoReach(d: Dag, use: Use, n: Node, k: nat, en: Node)
    requires Wf(d) && n in d.level && k <= |Edges(d, n)| && PathsVia(d, n, k, en) == []
    ensures ReachVia(d, use, n, k, en) == 0.0
  {
    ReachIsPathSum(d, use, n, k, en);
    assert Weights(d, use, n, []) == [];
  }

  /** The entry of `en` after one more edge: old entry, direct part, scaled sub-entry. */
  lemma EntryExact(d: Dag, use: Use, n: Node, k: nat, en: Node)
    requires Wf(d) && n in d.level && k < |Edges(d, n)|
    ensures var e := Edges(d, n)[k];
            var self := e.part == en && IsElement(d, en);
            && (PathsVia(d, n, k + 1, en) == [] <==> PathsVia(d, n, k, en) == [] && !self && Paths(d, e.part, en) == [])
            && ReachVia(d, use, n, k + 1, en)
                 == (if PathsVia(d, n, k, en) == [] then 0.0 else ReachVia(d, use, n, k, en))
                    + (if self then Fraction(e, use) else 0.0)
                    + (if Paths(d, e.part, en) == [] then 0.0 else Times(Fraction(e, use), ReachOf(d, use, e.part, en)))
  {
    var e := Edges(d, n)[k];
    EdgeStep(d, use, n, k, en);
    if Paths(d, e.part, en) == [] {
      NoPathNoReach(d, use, e.part, |Edges(d, e.part)|, en);
    }
    if PathsVia(d, n, k, en) == [] {
      NoPathNoReach(d, use, n, k, en);
    }
  }

  class ReachWalk {
    const d: Dag
    const use: Use
    var memo: map<Node, map<Node, real>>

    ghost predicate Valid()
      reads this
    {
      Wf(d) && forall n :: n in memo ==> n in d.level && IsVector(d, use, n, memo[n])
    }

    constructor (d: Dag, use: Use)
      requires Wf(d)
      ensures Valid() && this.d == d && this.use == use && memo == map[]
    {
      this.d, this.use, memo := d, use, map[];
    }

    method Vec(n: Node) returns (got: map<Node, real>)
      requires Valid() && n in d.level
      modifies this
      ensures Valid() && IsVector(d, use, n, got)
      ensures n in memo && memo[n] == got
      ensures Kept(old(memo), memo)
      decreases d.depth[n]
    {
      if n in memo {
        return memo[n];
      }
      got := map[];
      var edges := Edges(d, n);
      for k := 0 to |edges|
        invariant Valid() && IsVectorVia(d, use, n, k, got)
        invariant Kept(old(memo), memo)
      {
        var e := edges[k];
        var sub := Vec(e.part);
        got := AddEdge(n, k, got, sub);
      }
      memo := memo[n := got];
    }

    /** Fold one edge into the vector of `n`. */
    method AddEdge(n: Node, k: nat, got0: map<Node, real>, sub: map<Node, real>) returns (got: map<Node, real>)
      requires Wf(d) && n in d.level && k < |Edges(d, n)|
      requires IsVectorVia(d, use, n, k, got0) && IsVector(d, use, Edges(d, n)[k].part, sub)
      ensures IsVectorVia(d, use, n, k + 1, got)
    {
      var e := Edges(d, n)[k];
      var direct := got0;
      if d.level[e.part] == Element {
        direct := direct[e.part := GetOr(direct, e.part, 0.0) + Fraction(e, use)];
      }
      got := Merge(direct, Fraction(e, use), sub);
      forall en
        ensures At(got, en) == if PathsVia(d, n, k + 1, en) == [] then None else Some(ReachVia(d, use, n, k + 1, en))
      {
        EntryExact(d, use, n, k, en);
        assert At(got0, en) == if PathsVia(d, n, k, en) == [] then None else Some(ReachVia(d, use, n, k, en));
        assert At(sub, en) == if Paths(d, e.part, en) == [] then None else Some(ReachOf(d, use, e.part, en));
      }
    }

    /** `elem_reach`: walk every node of the index. */
    method Run(nodes: set<Node>)
      requires Valid() && nodes <= d.level.Keys
      modifies this
      ensures Valid() && nodes <= memo.Keys
    {
      var todo := nodes;
      while todo != {}
        invariant Valid() && todo <= nodes && nodes - todo <= memo.Keys
        decreases todo
      {
        var n :| n in todo;
        var _ := Vec(n);
        todo := todo - {n};
      }
    }
  }
}
