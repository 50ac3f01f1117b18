/** The memoised walk `elem_reach_dq`: one (value, quality) mark per path that ends with a scored
    edge, over the same paths `elem_reach` sums; and the data-quality table it gives. */
module QualityMemo {
  import opened Vocabulary
  import opened Sums
  import opened RowRollup
  import opened Reach
  import opened ReachMemo
  import opened TermMemo
  import opened Aggregate

  /** A path's value, and the data quality of the edge it ends with. */
  datatype Mark = Mark(value: real, quality: Quality)

  function MarkOf(ix: Index, n: Node, p: seq<nat>): seq<Mark> {
    match PathQuality(ix, n, p)
    case None => []
    case Some(q) => [Mark(PathWeight(ix.dag, Best, n, p), q)]
  }

  /** The marks of the scored paths, in walk order. */
  function Marks(ix: Index, n: Node, ps: seq<seq<nat>>): seq<Mark> {
    if ps == [] then [] else Marks(ix, n, ps[..|ps| - 1]) + MarkOf(ix, n, ps[|ps| - 1])
  }

  function LiftMarks(e: Edge, ms: seq<Mark>): (r: seq<Mark>)
    ensures |r| == |ms| && forall j :: 0 <= j < |ms| ==> r[j] == Mark(Times(e.best, ms[j].value), ms[j].quality)
  {
    seq(|ms|, j requires 0 <= j < |ms| => Mark(Times(e.best, ms[j].value), ms[j].quality))
  }

  function SelfMark(ix: Index, n: Node, e: Edge, en: Node): seq<Mark> {
    if e.part == en && IsElement(ix.dag, en) && (n, en) in ix.quality then [Mark(e.best, ix.quality[(n, en)])] else []
  }

  lemma MarksSnoc(ix: Index, n: Node, ps: seq<seq<nat>>, p: seq<nat>)
    ensures Marks(ix, n, ps + [p]) == Marks(ix, n, ps) + MarkOf(ix, n, p)
  {
    assert (ps + [p])[..|ps|] == ps;
  }

  lemma Regroup<T>(a: seq<T>, b: seq<T>, c: seq<T>)
    ensures a + (b + c) == (a + b) + c
  {
  }

  lemma {:induction false} MarksAppend(ix: Index, n: Node, a: seq<seq<nat>>, b: seq<seq<nat>>)
    ensures Marks(ix, n, a + b) == Marks(ix, n, a) + Marks(ix, n, b)
  {
    if b == [] {
      assert a + b == a;
    } else {
      var init, last := b[..|b| - 1], b[|b| - 1];
      assert b == init + [last];
      MarksAppend(ix, n, a, init);
      MarksSnoc(ix, n, init, last);
      Regroup(a, init, [last]);
      MarksSnoc(ix, n, a + init, last);
      Regroup(Marks(ix, n, a), Marks(ix, n, init), MarkOf(ix, n, last));
    }
  }

  lemma MarkUnder(ix: Index, n: Node, i: nat, p: seq<nat>)
    requires i < |Edges(ix.dag, n)|
    ensures var e := Edges(ix.dag, n)[i];
            MarkOf(ix, n, [i] + p)
              == if p != [] then LiftMarks(e, MarkOf(ix, e.part, p))
                 else if (n, e.part) in ix.quality then [Mark(e.best, ix.quality[(n, e.part)])] else []
  {
    PathUnder(ix.dag, Best, n, i, p);
    assert ([i] + p)[1..] == p;
  }

  lemma LiftAppend(e: Edge, a: seq<Mark>, b: seq<Mark>)
    ensures LiftMarks(e, a + b) == LiftMarks(e, a) + LiftMarks(e, b)
  {
  }

  lemma {:induction false} MarksUnder(ix: Index, n: Node, i: nat, ps: seq<seq<nat>>)
    requires i < |Edges(ix.dag, n)| && forall j :: 0 <= j < |ps| ==> ps[j] != []
    ensures Marks(ix, n, Under(i, ps)) == LiftMarks(Edges(ix.dag, n)[i], Marks(ix, Edges(ix.dag, n)[i].part, ps))
  {
    if ps != [] {
      var init, last, e := ps[..|ps| - 1], ps[|ps| - 1], Edges(ix.dag, n)[i];
      MarksUnder(ix, n, i, init);
      MarkUnder(ix, n, i, last);
      assert Under(i, ps) == Under(i, init) + [[i] + last];
      MarksSnoc(ix, n, Under(i, init), [i] + last);
      LiftAppend(e, Marks(ix, e.part, init), MarkOf(ix, e.part, last));
    }
  }

  function Stop(ix: Index, part: Node, en: Node): seq<seq<nat>> {
    if part == en && IsElement(ix.dag, en) then [[]] else []
  }

  lemma MarksStop(ix: Index, n: Node, i: nat, en: Node)
    requires i < |Edges(ix.dag, n)|
    ensures Marks(ix, n, Under(i, Stop(ix, Edges(ix.dag, n)[i].part, en))) == SelfMark(ix, n, Edges(ix.dag, n)[i], en)
  {
    MarkUnder(ix, n, i, []);
    assert [i] + [] == [i];
    assert Marks(ix, n, [[i]]) == Marks(ix, n, []) + MarkOf(ix, n, [i]);
  }

  lemma PathsStep(ix: Index, n: Node, k: nat, en: Node)
    requires Wf(ix.dag) && n in ix.dag.level && k < |Edges(ix.dag, n)|
    ensures var part := Edges(ix.dag, n)[k].part;
            PathsVia(ix.dag, n, k + 1, en)
              == PathsVia(ix.dag, n, k, en) + (Under(k, Stop(ix, part, en)) + Under(k, Paths(ix.dag, part, en)))
  {
    var part := Edges(ix.dag, n)[k].part;
    EdgeStep(ix.dag, Best, n, k, en);
    assert Under(k, Stop(ix, part, en) + Paths(ix.dag, part, en))
        == Under(k, Stop(ix, part, en)) + Under(k, Paths(ix.dag, part, en));
  }

  lemma MarksBelow(ix: Index, n: Node, k: nat, en: Node)
    requires Wf(ix.dag) && n in ix.dag.level && k < |Edges(ix.dag, n)|
    ensures var e := Edges(ix.dag, n)[k];
            Marks(ix, n, Under(k, Paths(ix.dag, e.part, en)))
                == LiftMarks(e, Marks(ix, e.part, Paths(ix.dag, e.part, en)))
  {
    var paths := Paths(ix.dag, Edges(ix.dag, n)[k].part, en);
    PathsNonEmpty(ix.dag, Edges(ix.dag, n)[k].part, en);
    assert forall j :: 0 <= j < |paths| ==> paths[j] in paths;
    MarksUnder(ix, n, k, paths);
  }

  lemma MarksThree(ix: Index, n: Node, a: seq<seq<nat>>, b: seq<seq<nat>>, c: seq<seq<nat>>)
    ensures Marks(ix, n, a + (b + c)) == Marks(ix, n, a) + Marks(ix, n, b) + Marks(ix, n, c)
  {
    MarksAppend(ix, n, a, b + c);
    MarksAppend(ix, n, b, c);
    Regroup(Marks(ix, n, a), Marks(ix, n, b), Marks(ix, n, c));
  }

  /** What one edge adds to the marks of `en`: its own mark, then the lifted marks below. */
  lemma MarksStep(ix: Index, n: Node, k: nat, en: Node)
    requires Wf(ix.dag) && n in ix.dag.level && k < |Edges(ix.dag, n)|
    ensures var e := Edges(ix.dag, n)[k];
            Marks(ix, n, PathsVia(ix.dag, n, k + 1, en))
              == Marks(ix, n, PathsVia(ix.dag, n, k, en)) + SelfMark(ix, n, e, en)
                   + LiftMarks(e, Marks(ix, e.part, Paths(ix.dag, e.part, en)))
  {
    var part := Edges(ix.dag, n)[k].part;
    PathsStep(ix, n, k, en);
    MarksStop(ix, n, k, en);
    MarksBelow(ix, n, k, en);
    MarksThree(ix, n, PathsVia(ix.dag, n, k, en), Under(k, Stop(ix, part, en)), Under(k, Paths(ix.dag, part, en)));
  }

  ghost predicate IsMarksVia(ix: Index, n: Node, k: nat, got: map<Node, seq<Mark>>)
    requires Wf(ix.dag) && n in ix.dag.level && k <= |Edges(ix.dag, n)|
  {
    forall en :: GetOr(got, en, []) == Marks(ix, n, PathsVia(ix.dag, n, k, en))
  }

  /** One mark per scored path to each Element, in walk order. */
  ghost predicate IsMarks(ix: Index, n: Node, got: map<Node, seq<Mark>>)
    requires Wf(ix.dag) && n in ix.dag.level
  {
    forall en :: GetOr(got, en, []) == Marks(ix, n, Paths(ix.dag, n, en))
  }

  lemma NoMarks(ix: Index, n: Node)
    requires Wf(ix.dag) && n in ix.dag.level
    ensures IsMarksVia(ix, n, 0, map[])
  {
  }

  method LiftEach(e: Edge, ms: seq<Mark>) returns (r: seq<Mark>)
    ensures r == LiftMarks(e, ms)
  {
    r := [];
    for j := 0 to |ms|
      invariant |r| == j && forall i :: 0 <= i < j ==> r[i] == LiftMarks(e, ms)[i]
    {
      r := r + [Mark(Times(e.best, ms[j].value), ms[j].quality)];
    }
  }

  function Extended(direct: map<Node, seq<Mark>>, e: Edge, sub: map<Node, seq<Mark>>, en: Node): seq<Mark> {
    GetOr(direct, en, []) + LiftMarks(e, GetOr(sub, en, []))
  }

  method ExtendMarks(direct: map<Node, seq<Mark>>, e: Edge, sub: map<Node, seq<Mark>>)
    returns (got: map<Node, seq<Mark>>)
    ensures forall en :: GetOr(got, en, []) == Extended(direct, e, sub, en)
  {
    got := direct;
    var todo := sub.Keys;
    while todo != {}
      invariant todo <= sub.Keys
      invariant forall en ::
          GetOr(got, en, []) == if en in todo then GetOr(direct, en, []) else Extended(direct, e, sub, en)
      decreases todo
    {
      var en :| en in todo;
      var lifted := LiftEach(e, sub[en]);
      got, todo := got[en := GetOr(got, en, []) + lifted], todo - {en};
    }
  }

  lemma PartBelow(d: Dag, n: Node, k: nat)
    requires Wf(d) && n in d.level && k < |Edges(d, n)|
    ensures Edges(d, n)[k].part in d.level && d.depth[Edges(d, n)[k].part] < d.depth[n]
  {
  }

  /** What is memoised is right. */
  ghost predicate Marked(ix: Index, memo: map<Node, map<Node, seq<Mark>>>) {
    Wf(ix.dag) && forall n :: n in memo ==> n in ix.dag.level && IsMarks(ix, n, memo[n])
  }

  lemma MarkedMore(ix: Index, memo: map<Node, map<Node, seq<Mark>>>, n: Node, got: map<Node, seq<Mark>>)
    requires Marked(ix, memo) && n in ix.dag.level && IsMarksVia(ix, n, |Edges(ix.dag, n)|, got)
    ensures Marked(ix, memo[n := got]) && IsMarks(ix, n, got)
  {
  }

  class QualityWalk {
    const ix: Index
    var memo: map<Node, map<Node, seq<Mark>>>

    ghost predicate Valid()
      reads this
    {
      Marked(ix, memo)
    }

    constructor (ix: Index)
      requires Wf(ix.dag)
      ensures Valid() && this.ix == ix && memo == map[]
    {
      this.ix, memo := ix, map[];
    }

    method Vec(n: Node) returns (got: map<Node, seq<Mark>>)
      requires Valid() && n in ix.dag.level
      modifies this
      ensures Valid() && IsMarks(ix, n, got)
      ensures n in memo && memo[n] == got
      ensures Kept(old(memo), memo)
      decreases ix.dag.depth[n]
    {
      if n in memo {
        return memo[n];
      }
      got := map[];
      NoMarks(ix, n);
      var edges := Edges(ix.dag, n);
      for k := 0 to |edges|
        invariant Valid() && IsMarksVia(ix, n, k, got)
        invariant Kept(old(memo), memo)
      {
        PartBelow(ix.dag, n, k);
        var sub := Vec(edges[k].part);
        got := AddEdge(n, k, got, sub);
      }
      MarkedMore(ix, memo, n, got);
      memo := memo[n := got];
    }

    method AddEdge(n: Node, k: nat, got0: map<Node, seq<Mark>>, sub: map<Node, seq<Mark>>)
      returns (got: map<Node, seq<Mark>>)
      requires Wf(ix.dag) && n in ix.dag.level && k < |Edges(ix.dag, n)|
      requires IsMarksVia(ix, n, k, got0) && IsMarks(ix, Edges(ix.dag, n)[k].part, sub)
      ensures IsMarksVia(ix, n, k + 1, got)
    {
      var e := Edges(ix.dag, n)[k];
      var direct := got0;
      if ix.dag.level[e.part] == Element && (n, e.part) in ix.quality {
        direct := direct[e.part := GetOr(direct, e.part, []) + [Mark(e.best, ix.quality[(n, e.part)])]];
      }
      got := ExtendMarks(direct, e, sub);
      forall en ensures GetOr(got, en, []) == Marks(ix, n, PathsVia(ix.dag, n, k + 1, en)) {
        MarksStep(ix, n, k, en);
        assert GetOr(got0, en, []) == Marks(ix, n, PathsVia(ix.dag, n, k, en));
        assert GetOr(direct, en, []) == GetOr(got0, en, []) + SelfMark(ix, n, e, en);
      }
    }

    /** `elem_reach_dq`: walk every node of the index. */
    method Run(nodes: set<Node>)
      requires Valid() && nodes <= ix.dag.level.Keys
      modifies this
      ensures Valid() && nodes <= memo.Keys
    {
      var todo := nodes;
      while todo != {}
        invariant Valid() && todo <= nodes && nodes - todo <= memo.Keys
        decreases todo
      {
        var n :| n in todo;
        var _ := Vec(n);
        todo := todo - {n};
      }
    }
  }

  // ---- pooled over the roots of a class ------------------------------------------------------

  /** Fold marks into a pool, their values shared among `k` instances. */
  function AddMarks(pool: Pool, ms: seq<Mark>, k: nat): Pool
    requires k > 0
  {
    if ms == [] then pool
    else AddMarks(pool, ms[..|ms| - 1], k).Add(ms[|ms| - 1].value / k as real, ms[|ms| - 1].quality)
  }

  lemma AddMark(pool: Pool, ms: seq<Mark>, m: Mark, k: nat)
    requires k > 0
    ensures AddMarks(pool, ms + [m], k) == AddMarks(pool, ms, k).Add(m.value / k as real, m.quality)
  {
    assert (ms + [m])[..|ms|] == ms;
  }

  /** Folding the marks is folding the scored paths. */
  lemma {:induction false} MarksFold(ix: Index, n: Node, ps: seq<seq<nat>>, k: nat, pool: Pool)
    requires k > 0
    ensures AddMarks(pool, Marks(ix, n, ps), k) == AddPaths(ix, n, ps, k, pool)
  {
    if ps != [] {
      var init, last := ps[..|ps| - 1], ps[|ps| - 1];
      MarksFold(ix, n, init, k, pool);
      match PathQuality(ix, n, last)
      case None =>
        assert Marks(ix, n, ps) == Marks(ix, n, init);
      case Some(q) =>
        AddMark(pool, Marks(ix, n, init), Mark(PathWeight(ix.dag, Best, n, last), q), k);
    }
  }

  /** The walk has marked the paths of every node. */
  ghost predicate AllMarked(ix: Index, marks: map<Node, map<Node, seq<Mark>>>) {
    Wf(ix.dag) && forall n :: n in ix.dag.level ==> n in marks && IsMarks(ix, n, marks[n])
  }

  method WalkMarks(ix: Index) returns (marks: map<Node, map<Node, seq<Mark>>>)
    requires WfIndex(ix)
    ensures AllMarked(ix, marks)
  {
    var walk := new QualityWalk(ix);
    walk.Run(ix.dag.level.Keys);
    marks := walk.memo;
  }

  method FoldMarks(pool0: Pool, ms: seq<Mark>, k: nat) returns (pool: Pool)
    requires k > 0
    ensures pool == AddMarks(pool0, ms, k)
  {
    pool := pool0;
    for j := 0 to |ms|
      invariant pool == AddMarks(pool0, ms[..j], k)
    {
      assert ms[..j + 1] == ms[..j] + [ms[j]];
      AddMark(pool0, ms[..j], ms[j], k);
      pool := pool.Add(ms[j].value / k as real, ms[j].quality);
    }
    assert ms[..|ms|] == ms;
  }

  lemma AddNodeSnoc(ix: Index, n: Node, es: seq<Node>, j: nat, k: nat, pool: Pool)
    requires Wf(ix.dag) && n in ix.dag.level && j < |es| && k > 0
    ensures AddNode(ix, n, es[..j + 1], k, pool)
        == AddPaths(ix, n, Paths(ix.dag, n, es[j]), k, AddNode(ix, n, es[..j], k, pool))
  {
    assert es[..j + 1][..j] == es[..j];
  }

  method PoolNode(ix: Index, marks: map<Node, map<Node, seq<Mark>>>, n: Node, ec: Cls, k: nat, pool0: Pool)
    returns (pool: Pool)
    requires WfIndex(ix) && AllMarked(ix, marks) && k > 0
    ensures pool == AddNode(ix, n, ElementNodes(ix, ec), k, pool0)
  {
    pool := pool0;
    var es := ElementNodes(ix, ec);
    if n !in ix.dag.level {
      return;
    }
    for j := 0 to |es|
      invariant pool == AddNode(ix, n, es[..j], k, pool0)
    {
      AddNodeSnoc(ix, n, es, j, k, pool0);
      assert IsMarks(ix, n, marks[n]);
      MarksFold(ix, n, Paths(ix.dag, n, es[j]), k, pool);
      pool := FoldMarks(pool, GetOr(marks[n], es[j], []), k);
    }
    assert es[..|es|] == es;
  }

  method PoolRoots(ix: Index, marks: map<Node, map<Node, seq<Mark>>>, roots: seq<Node>, ec: Cls) returns (pool: Pool)
    requires WfIndex(ix) && AllMarked(ix, marks) && roots != []
    ensures pool == PooledQuality(ix, roots, |roots|, ec)
  {
    pool := Pool(0.0, 0.0, None);
    for j := 0 to |roots|
      invariant pool == PooledQuality(ix, roots[..j], |roots|, ec)
    {
      assert roots[..j + 1][..j] == roots[..j];
      pool := PoolNode(ix, marks, roots[j], ec, |roots|, pool);
    }
    assert roots[..|roots|] == roots;
  }

  /** `element_dq_over_nodes`, for every element class: the leaf class's row. */
  method LeafScores(ix: Index, marks: map<Node, map<Node, seq<Mark>>>, c: Cls) returns (row: map<Cls, Quality>)
    requires WfIndex(ix) && AllMarked(ix, marks)
    ensures row == LeafQualityRow(ix, c)
  {
    row := map[];
    var elems, roots := ElementClasses(ix), Roots(ix, c);
    for i := 0 to |elems|
      invariant forall ec :: RowRollup.At(row, ec) == if ec in elems[..i] then LeafQuality(ix, roots, ec) else None
    {
      assert elems[..i + 1] == elems[..i] + [elems[i]];
      if roots != [] {
        var pool := PoolRoots(ix, marks, roots, elems[i]);
        if pool.Entry().Some? {
          row := row[elems[i] := pool.Entry().value];
        }
      }
    }
    assert elems[..|elems|] == elems;
  }

  /** `aggregate_dq`, over the amounts `aggregate` gave. */
  method RunQuality(ix: Index, best: map<Cls, Amounts>) returns (table: map<Cls, map<Cls, Quality>>)
    requires WfIndex(ix)
    ensures table == QualityTable(ix, best)
  {
    var marks := WalkMarks(ix);
    var leaf: map<Cls, map<Cls, Quality>> := map[];
    var todo := LeafClasses(ix);
    while todo != {}
      invariant todo <= LeafClasses(ix) && leaf.Keys == LeafClasses(ix) - todo
      invariant forall c :: c in leaf ==> leaf[c] == LeafQualityRow(ix, c)
      decreases todo
    {
      var c :| c in todo;
      var row := LeafScores(ix, marks, c);
      leaf, todo := leaf[c := row], todo - {c};
    }
    assert leaf == LeafQualities(ix);
    var computed := RollUpQuality(HierOf(ix), ElementClasses(ix), leaf, best);
    table := leaf + computed;
  }
}
