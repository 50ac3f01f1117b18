/** Flat content: materials that consist of one element each. What an index reads of it, which of
    its classes a view serves, and when it is levelled. */
module FlatContent {
  import opened Vocabulary
  import opened Closure
  import opened Hierarchy
  import opened Levels
  import opened Reach
  import opened Aggregate
  import opened YearSlicer
  import opened YearForm
  import opened StoreIndex
  import opened StoreFrame
  import opened Affected
  import opened Drift
  import opened LevelLaws
  import opened ServedView
  import opened HeldElements
  import opened MixedStale
  import opened StoreAdds
  import opened StaleView

  const FE: Cls := Named("Fe")

  /** The class and the one part of each whole. */
  type Lots = map<Node, (Cls, Node)>

  function AllOf(part: Node): Edge {
    Edge(part, 1.0, 1.0, 1.0, 0.0)
  }

  /** A material of class `c` that is all of one element. */
  ghost predicate IsWhole(u: Graph, n: Node, c: Cls, part: Node) {
    && n in u.level && u.level[n] == Material && (n, c) in u.types && n in u.parts && u.parts[n] == [AllOf(part)]
    && part in u.level && u.level[part] == Element && (part, FE) in u.types
  }

  ghost predicate Flat(u: Graph, lots: Lots) {
    && NoDrivetrain(u) && u.parts.Keys == lots.Keys && u.when.Keys <= lots.Keys
    && (forall n {:trigger n in lots} :: n in lots ==> IsWhole(u, n, lots[n].0, lots[n].1))
    && (forall n {:trigger n in u.level} :: n in u.level ==> n in lots || ((n, FE) in u.types && u.level[n] == Element))
  }

  function OneSource(n: Node, c: Cls, part: Node, when: map<Node, Scope>, sub: set<(Cls, Cls)>): Graph {
    EMPTY.(types := {(n, c), (part, FE)}, when := when, level := map[n := Material, part := Element],
           parts := map[n := [AllOf(part)]], depth := map[n := 1, part := 0], sub := sub)
  }

  lemma OneFlat(n: Node, c: Cls, part: Node, when: map<Node, Scope>, sub: set<(Cls, Cls)>)
    requires n != part && c.Named? && c !in LEVEL_ROOTS && when.Keys <= {n} && Timeless(sub)
    ensures Authored(OneSource(n, c, part, when, sub)) && Flat(OneSource(n, c, part, when, sub), map[n := (c, part)])
  {
    var g := OneSource(n, c, part, when, sub);
    assert TypedBy(g, n, c);
    assert FE !in LEVEL_ROOTS && TypedBy(g, part, FE);
    assert forall m :: m in g.level ==> HasOneType(g, m);
  }

  lemma FlatUnion(a: Graph, lots: Lots, s: Graph, more: Lots)
    requires Flat(a, lots) && Flat(s, more) && Disjoint(a, s)
    ensures Flat(Union(a, s), lots + more)
  {
    var all := lots + more;
    forall n | n in all ensures IsWhole(Union(a, s), n, all[n].0, all[n].1) {
    }
  }

  lemma FlatPair(a: Graph, lots: Lots, s: Graph, more: Lots) returns (u: Graph)
    requires Authored(a) && Authored(s) && Flat(a, lots) && Flat(s, more) && Disjoint(a, s)
    ensures u == Union(a, s) && Authored(u) && Flat(u, lots + more)
    ensures u.level.Keys == a.level.Keys + s.level.Keys && u.when == a.when + s.when && u.sub == a.sub + s.sub
  {
    u := Union(a, s);
    AuthoredUnion(a, s);
    FlatUnion(a, lots, s, more);
  }

  lemma FlatBase(u: Graph, lots: Lots, n: Node)
    requires Authored(u) && Flat(u, lots) && n in u.level
    ensures BaseOf(u, n) == if n in lots then lots[n].0 else FE
  {
  }

  /** All wholes are tops, and none is of a level that must carry a time. */
  lemma FlatTops(u: Graph, lots: Lots)
    requires Flat(u, lots)
    ensures TopNodes(u) == lots.Keys && FamilyTops(u) == {} && FamilyTimed(u)
  {
    forall p | p in PartsOf(u.parts) ensures p !in lots {
      var n, i :| n in u.parts && 0 <= i < |u.parts[n]| && u.parts[n][i].part == p;
      assert IsWhole(u, n, lots[n].0, lots[n].1);
    }
  }

  /** The whole is all of its part. */
  lemma OneHolds(d: Dag, n: Node, part: Node)
    requires Wf(d) && n in d.level && IsElement(d, part) && n in d.adj && d.adj[n] == [AllOf(part)]
    ensures Holds(d, n) && Paths(d, n, part) != []
  {
    AllPathsExact(d, n, part);
    assert Edges(d, n)[0].part == part && [0][1..] == [];
    assert Leads(d, part, [], part) && IsPath(d, n, [0], part);
    assert [0] in Paths(d, n, part);
  }

  lemma FlatSubstantial(u: Graph, lots: Lots)
    requires Wf(DagOf(u)) && Flat(u, lots)
    ensures Substantial(u, TopNodes(u))
  {
    FlatTops(u, lots);
    forall n | n in lots ensures Holds(DagOf(u), n) {
      OneHolds(DagOf(u), n, lots[n].1);
    }
    forall n, i | n in u.level && 0 <= i < |Edges(DagOf(u), n)| ensures Edges(DagOf(u), n)[i].best > 0.0 {
      assert n in lots && IsWhole(u, n, lots[n].0, lots[n].1);
    }
  }

  // ---- levels ----------------------------------------------------------------------------------------

  /** The edges put the class at materials, or, if it is `far`, nowhere or above. */
  ghost predicate PutAt(sup: set<(Cls, Cls)>, c: Cls, far: bool) {
    if far then LevelFrom(sup, c) == None || LevelFrom(sup, c) == Some(Component) else LevelFrom(sup, c) == Some(Material)
  }

  ghost predicate Puts(sup: set<(Cls, Cls)>, lots: Lots, far: set<Cls>) {
    LevelFrom(sup, FE) == Some(Element) && forall n {:trigger n in lots} :: n in lots ==>
        PutAt(sup, lots[n].0, lots[n].0 in far)
  }

  lemma FlatLevelled(frozen: set<(Cls, Cls)>, u: Graph, lots: Lots)
    requires Authored(u) && Flat(u, lots) && Puts(frozen + u.sub, lots, {})
    ensures Levelled(frozen, u)
  {
    forall n | n in u.level ensures LevelGiven(frozen + u.sub, u, n) {
      FlatBase(u, lots, n);
    }
    forall n, i | n in u.level && 0 <= i < |Edges(DagOf(u), n)|
      ensures Near(u.level[n], u.level[Edges(DagOf(u), n)[i].part])
    {
      assert n in lots && IsWhole(u, n, lots[n].0, lots[n].1);
    }
  }

  // ---- what an index reads -------------------------------------------------------------------------------

  /** The wholes of the far classes are not read; above a class there is at most its base. */
  ghost predicate FlatIndex(u: Graph, lots: Lots, far: set<Cls>, ix: Index) {
    && Wf(ix.dag)
    && ix.dag.adj == (map n | n in lots && lots[n].0 !in far :: [AllOf(lots[n].1)])
    && (forall n {:trigger n in ix.dag.adj} :: n in ix.dag.adj ==> FlatAt(u, lots[n].0, lots[n].1, ix, n))
  }

  ghost predicate FlatAt(u: Graph, c: Cls, part: Node, ix: Index, n: Node) {
    && n in ix.dag.level && ix.dag.level[n] == Material && IsElement(ix.dag, part)
    && ClassOf(ix, n) == (if n in u.when then Slice(c, u.when[n]) else c)
    && (forall x {:trigger x in Above(ix, n)} :: x in Above(ix, n) ==> n in u.when && x == c)
  }

  /** Whatever is read of a whole's one statement. */
  lemma ReadOne(g: Graph, level: map<Node, Level>, n: Node, e: Edge)
    requires n in g.parts && g.parts[n] == [e]
    ensures var d := ReadDag(g, level);
            if n in level && e.part in level && Near(level[n], level[e.part]) then n in d.adj
                && d.adj[n] == [e] else n !in d.adj
  {
    if n in level {
      assert [e][..0] == [];
      assert Steps(level, level[n], [e]) == Steps(level, level[n], []) + if e.part in level
          && Near(level[n], level[e.part]) then [e] else [];
    }
  }

  /** The DAG and the classes an index of the form reads. */
  lemma FormRead(env: Env, u: Graph, ix: Index)
    requires Authored(u) && Timeless(env.frozen) && FormIndexed(env, u, ix)
    ensures Wf(ix.dag) && ix.dag.adj == ReadDag(u, ix.dag.level).adj && ix.sup == Sup(env.frozen, u)
    ensures forall n :: n in ix.dag.level ==> n in u.level && ClassOf(ix, n) == StampOf(u, n)
  {
    var f := Form(env.frozen, u);
    FormIndexedIs(env, u, ix);
    ReadDagWf(f, ix.dag.level);
    forall n | n in ix.dag.level ensures n in u.level && ClassOf(ix, n) == StampOf(u, n) {
      LeafClassOfForm(env.frozen, u, n);
      assert IsLeafClass(env.frozen + f.sub, TypesOf(f, n), StampOf(u, n));
    }
  }

  lemma FormLevels(env: Env, u: Graph, ix: Index)
    requires Classified(u) && Timeless(env.frozen) && FormIndexed(env, u, ix)
    ensures forall n :: n in u.level ==> ReadsLevel(ix.dag.level, n, LevelFrom(env.frozen + u.sub, BaseOf(u, n)))
  {
    FormIndexedIs(env, u, ix);
    FormDrifts(env.frozen, u);
    LevelsInDrift(env, u, Form(env.frozen, u), ix);
  }

  /** Without a taxonomy a class has its base above it at most. */
  lemma FlatAncestors(frozen: set<(Cls, Cls)>, u: Graph, c: Cls)
    requires Plain(u) && Timeless(frozen) && Tax(frozen, u) == {}
    ensures forall x :: x in Ancestors(Sup(frozen, u), c) ==> x == c || (c.Slice? && x == c.base)
  {
    var tax := Taxonomy(Sup(frozen, u));
    forall e | e in tax ensures e.0.Slice? && e.1 == e.0.base && e.1.Named? {
      FormEdge(frozen, u, e);
      LiftedNamed(frozen, u);
      assert e in frozen + u.sub ==> e in Tax(frozen, u);
    }
    ReachLeast(tax, {c}, if c.Slice? && c.base.Named? then {c, c.base} else {c});
  }

  lemma StepRead(sup: set<(Cls, Cls)>, u: Graph, level: map<Node, Level>, n: Node, c: Cls, part: Node, far: bool)
    requires IsWhole(u, n, c, part) && PutAt(sup, c, far)
    requires ReadsLevel(level, n, LevelFrom(sup, c)) && ReadsLevel(level, part, Some(Element))
    ensures var d := ReadDag(u, level);
            if far then n !in d.adj else n in d.adj && d.adj[n] == [AllOf(part)] && n in level && level[n] == Material
  {
    ReadOne(u, level, n, AllOf(part));
  }

  lemma FlatStep(env: Env, u: Graph, lots: Lots, far: set<Cls>, ix: Index, n: Node)
    requires Authored(u) && Flat(u, lots) && Timeless(env.frozen) && FormIndexed(env, u, ix)
    requires Puts(env.frozen + u.sub, lots, far) && n in lots && ix.dag.adj == ReadDag(u, ix.dag.level).adj
    ensures lots[n].0 in far ==> n !in ix.dag.adj
    ensures lots[n].0 !in far ==> n in ix.dag.adj && ix.dag.adj[n] == [AllOf(lots[n].1)]
    ensures lots[n].0 !in far ==> n in ix.dag.level && ix.dag.level[n] == Material
    ensures IsElement(ix.dag, lots[n].1)
  {
    var c, part := lots[n].0, lots[n].1;
    assert IsWhole(u, n, c, part);
    FlatBase(u, lots, n);
    FlatBase(u, lots, part);
    FormLevels(env, u, ix);
    StepRead(env.frozen + u.sub, u, ix.dag.level, n, c, part, c in far);
  }

  lemma FlatAtOf(env: Env, u: Graph, ix: Index, n: Node, c: Cls, part: Node)
    requires Authored(u) && Timeless(env.frozen) && FormIndexed(env, u, ix) && Tax(env.frozen, u) == {}
    requires n in u.level && BaseOf(u, n) == c && n in ix.dag.level && ix.dag.level[n] == Material
    requires IsElement(ix.dag, part)
    ensures FlatAt(u, c, part, ix, n)
  {
    assert (n, c) in u.types && c.Named?;
    FormRead(env, u, ix);
    FlatAncestors(env.frozen, u, StampOf(u, n));
  }

  lemma FlatRead(env: Env, u: Graph, lots: Lots, far: set<Cls>, ix: Index, n: Node)
    requires Authored(u) && Flat(u, lots) && Timeless(env.frozen) && FormIndexed(env, u, ix)
    requires Puts(env.frozen + u.sub, lots, far) && Tax(env.frozen, u) == {} && n in lots
    ensures if lots[n].0 in far then n !in ix.dag.adj
            else n in ix.dag.adj && ix.dag.adj[n] == [AllOf(lots[n].1)] && FlatAt(u, lots[n].0, lots[n].1, ix, n)
  {
    assert ix.dag.adj == ReadDag(u, ix.dag.level).adj by {
      FormRead(env, u, ix);
    }
    FlatStep(env, u, lots, far, ix, n);
    if lots[n].0 !in far {
      FlatBase(u, lots, n);
      FlatAtOf(env, u, ix, n, lots[n].0, lots[n].1);
    }
  }

  lemma FlatIndexOf(env: Env, u: Graph, lots: Lots, far: set<Cls>, ix: Index)
    requires Authored(u) && Flat(u, lots) && Timeless(env.frozen) && FormIndexed(env, u, ix)
    requires Puts(env.frozen + u.sub, lots, far) && Tax(env.frozen, u) == {}
    ensures FlatIndex(u, lots, far, ix)
  {
    assert Wf(ix.dag) && ix.dag.adj.Keys <= lots.Keys by {
      FormRead(env, u, ix);
    }
    forall n | n in lots
      ensures if lots[n].0 in far then n !in ix.dag.adj
              else n in ix.dag.adj && ix.dag.adj[n] == [AllOf(lots[n].1)] && FlatAt(u, lots[n].0, lots[n].1, ix, n)
    {
      FlatRead(env, u, lots, far, ix, n);
    }
  }

  lemma FlatIndexTops(u: Graph, lots: Lots, far: set<Cls>, ix: Index)
    requires FlatIndex(u, lots, far, ix)
    ensures Tops(ix) == ix.dag.adj.Keys && Untimed(ix) == {} && AllPositive(ix.dag)
  {
    forall n, i | n in ix.dag.adj && 0 <= i < |ix.dag.adj[n]| ensures ix.dag.adj[n][i].part !in ix.dag.adj {
      assert FlatAt(u, lots[n].0, lots[n].1, ix, n);
    }
  }

  /** The classes of a view are those of the wholes the index reads, and the bases of their slices. */
  lemma FlatServed(compound: bool, u: Graph, lots: Lots, far: set<Cls>, ix: Index, c: Cls) returns (n: Node)
    requires FlatIndex(u, lots, far, ix) && c.Named? && (c in LeafClasses(ix) || c in AncestorClasses(ix))
    ensures n in ix.dag.adj && c == lots[n].0 && (c in AncestorClasses(ix) ==> n in u.when)
  {
    FlatIndexTops(u, lots, far, ix);
    AncestorsByTop(ix);
    if c in AncestorClasses(ix) {
      n :| n in Tops(ix) && c in Above(ix, n);
    } else {
      n :| n in Tops(ix) && ClassOf(ix, n) == c;
    }
  }

  /** No other whole has the class. */
  ghost predicate AloneIn(lots: Lots, n: Node) {
    n in lots && lots[n].0.Named? && forall m {:trigger m in lots} :: m in lots && m != n ==> lots[m].0 != lots[n].0
  }

  ghost predicate Serves(ix: Index, compound: bool, c: Cls, served: bool) {
    forall v {:trigger Views(ix, compound, v)} :: Views(ix, compound, v) ==> (c in v <==> served)
  }

  /** The class of an untimed whole is served exactly when it is not far. */
  lemma ServedIff(compound: bool, u: Graph, lots: Lots, far: set<Cls>, ix: Index, n: Node)
    requires FlatIndex(u, lots, far, ix) && Lists(ix) && AloneIn(lots, n) && n !in u.when
    ensures Serves(ix, compound, lots[n].0, lots[n].0 !in far)
  {
    var c := lots[n].0;
    FlatIndexTops(u, lots, far, ix);
    ServedClasses(ix, compound);
    ComputedWithin(ix);
    if c in LeafClasses(ix) || c in AncestorClasses(ix) {
      var m := FlatServed(compound, u, lots, far, ix, c);
    }
    if c !in far {
      OneHolds(ix.dag, n, lots[n].1);
      HeldServed(ix, compound, n, lots[n].1);
    }
  }

  // ---- stores that go stale ------------------------------------------------------------------------------------

  /** A class served before or after, but not both, that is not affected. */
  lemma TurnsStale(ix: Index, jx: Index, compound: bool, affected: set<Cls>, c: Cls, was: bool)
    requires Serves(ix, compound, c, was) && Serves(jx, compound, c, !was) && c !in affected
    ensures Outdated(ix, jx, compound, affected)
  {
    forall v, w | Views(ix, compound, v) && Views(jx, compound, w) ensures Spliced(v, w, affected) != w {
      Misses(v, w, affected, c);
    }
  }

  /** The name orders list both indexes. */
  lemma BothListed(env: Env, a: Graph, s: Graph, ix: Index, jx: Index)
    requires Authored(a) && Authored(s) && Disjoint(a, s) && ListsGraph(env, Form(env.frozen, Union(a, s)))
    requires FormIndexed(env, a, ix) && FormIndexed(env, Union(a, s), jx)
    ensures Lists(ix) && Lists(jx)
  {
    FormIndexedIs(env, a, ix);
    FormIndexedIs(env, Union(a, s), jx);
    SmallerForm(env.frozen, a, s);
    ListsIndex(env, Form(env.frozen, a), Form(env.frozen, Union(a, s)), ix);
    ListsIndex(env, Form(env.frozen, Union(a, s)), Form(env.frozen, Union(a, s)), jx);
  }

  /** Between two indexes that put the class of a whole differently. */
  lemma LevelStale(compound: bool, a: Graph, lots: Lots, far: set<Cls>, ix: Index, u: Graph, all: Lots, off: set<Cls>,
                   jx: Index,
                   n: Node, bar: Node, affected: set<Cls>)
    requires FlatIndex(a, lots, far, ix) && FlatIndex(u, all, off, jx) && Lists(ix) && Lists(jx)
    requires AloneIn(lots, n) && AloneIn(all, n) && lots[n] == all[n] && n !in a.when && n !in u.when
    requires AloneIn(lots, bar) && bar !in a.when && lots[bar].0 !in far
    requires (lots[n].0 in far) != (lots[n].0 in off) && lots[n].0 !in affected
    ensures IsStale(compound, ix, jx, affected)
  {
    FlatIndexTops(a, lots, far, ix);
    FlatIndexTops(u, all, off, jx);
    ServedIff(compound, a, lots, far, ix, n);
    ServedIff(compound, u, all, off, jx, n);
    ServedIff(compound, a, lots, far, ix, bar);
    TurnsStale(ix, jx, compound, affected, lots[n].0, lots[n].0 !in far);
  }

  /** The one class of a whole is all the affected bases hold when no edge leads on from it. */
  lemma BasesAlone(frozen: set<(Cls, Cls)>, g: Graph, n: Node, c: Cls)
    requires ClassesAt(g, {n}) == {c} && forall e :: e in g.sub ==> e.0 != c
    requires n in g.when ==> forall e :: e in Tax(frozen, g) ==> e.0 != c
    ensures AffectedBases(frozen, g, {n}) == {c}
  {
    var timed := TimedIn(g, {n});
    if n in g.when {
      assert n in timed && timed == {n};
      ReachNothing(Tax(frozen, g), {c});
    } else {
      assert timed == {} && ClassesAt(g, {}) == {};
      ReachNothing(Tax(frozen, g), {});
    }
    assert {c} + {} == {c} && {c} + {c} == {c};
    ReachNothing(g.sub, {c});
  }

  lemma FlatClassesAt(u: Graph, lots: Lots, n: Node)
    requires Authored(u) && Flat(u, lots) && n in lots
    ensures ClassesAt(u, {n}) == {lots[n].0}
  {
    FlatBase(u, lots, n);
    assert (n, lots[n].0) in u.types;
  }

  /** A source that changes where the class of an untimed whole is put leaves the view stale. */
  lemma LevelGoesStale(env: Env, compound: bool, a: Graph, lots: Lots, far: set<Cls>, s: Graph, more: Lots,
                       off: set<Cls>, n: Node, bar: Node)
    requires WfEnv(env) && Authored(a) && Authored(s) && Disjoint(a, s) && Flat(a, lots) && Flat(s, more)
    requires ListsGraph(env, Form(env.frozen, Union(a, s)))
    requires Puts(env.frozen + a.sub, lots, far) && Puts(env.frozen + (a.sub + s.sub), lots + more, off)
    requires Tax(env.frozen, a) == {} && Tax(env.frozen, Union(a, s)) == {}
    requires AloneIn(lots, n) && AloneIn(lots + more, n) && n !in more && n !in a.when
    requires AloneIn(lots, bar) && bar !in a.when && lots[bar].0 !in far && (lots[n].0 in far) != (lots[n].0 in off)
    requires lots[n].0 !in AffectedBases(env.frozen, Union(a, s), NewWholes(s))
    ensures GoesStale(env, compound, a, s)
  {
    var u := FlatPair(a, lots, s, more);
    var f := Form(env.frozen, u);
    FormDrifts(env.frozen, u);
    OutsideAffected(env.frozen, u, f, NewWholes(s), lots[n].0);
    forall ix, jx | FormIndexed(env, a, ix) && FormIndexed(env, u, jx)
      ensures IsStale(compound, ix, jx, AffectedBy(f, NewWholes(s)))
    {
      BothListed(env, a, s, ix, jx);
      FlatIndexOf(env, a, lots, far, ix);
      FlatIndexOf(env, u, lots + more, off, jx);
      LevelStale(compound, a, lots, far, ix, u, lots + more, off, jx, n, bar, AffectedBy(f, NewWholes(s)));
    }
    PlainGoesStale(env, compound, a, s);
  }

  /** Such a source does not leave the levels as they were. */
  lemma LevelsMove(frozen: set<(Cls, Cls)>, a: Graph, lots: Lots, far: set<Cls>, s: Graph, more: Lots,
                   off: set<Cls>, n: Node)
    requires Authored(a) && Flat(a, lots) && Puts(frozen + a.sub, lots, far) && n in lots
    requires Puts(frozen + (a.sub + s.sub), lots + more, off) && n !in more && (lots[n].0 in far) != (lots[n].0 in off)
    ensures !LevelsStay(frozen, a, s) && (Levelled(frozen, a) ==> lots[n].0 !in far)
  {
    assert IsWhole(a, n, lots[n].0, lots[n].1) && n in lots + more;
    FlatBase(a, lots, n);
    assert Levelled(frozen, a) ==> LevelGiven(frozen + a.sub, a, n);
  }

  // ---- a missed class -----------------------------------------------------------------------------------------------

  lemma FlatArrives(frozen: set<(Cls, Cls)>, a: Graph, lots: Lots, s: Graph, more: Lots)
    requires Authored(a) && Authored(s) && Disjoint(a, s) && Timeless(frozen) && Flat(a, lots) && Flat(s, more)
    requires Puts(frozen + a.sub, lots, {}) && Puts(frozen + (a.sub + s.sub), lots + more, {})
    ensures Arrival(frozen, a, s)
  {
    AuthoredUnion(a, s);
    FlatUnion(a, lots, s, more);
    FlatLevelled(frozen, a, lots);
    FlatLevelled(frozen, Union(a, s), lots + more);
  }

  lemma FlatView(env: Env, compound: bool, u: Graph, lots: Lots, ix: Index)
    requires Authored(u) && Flat(u, lots) && lots != map[] && WfEnv(env) && Levelled(env.frozen, u)
    requires FormIndexed(env, u, ix) && Lists(ix)
    ensures ix == IndexOfForm(env, u) && Wf(ix.dag) && Untimed(ix) == {} && HasRows(ix, compound)
  {
    FormIndexedIs(env, u, ix);
    LevelledIndex(env, u, ix);
    FlatTops(u, lots);
    FlatSubstantial(u, lots);
    HasView(env, compound, u);
  }

  lemma MissedBetween(env: Env, compound: bool, a: Graph, lots: Lots, ix: Index, s: Graph, u: Graph, all: Lots,
                      jx: Index, x: Cls)
    requires WfEnv(env) && Arrival(env.frozen, a, s) && Flat(a, lots) && u == Union(a, s) && Authored(u) && Flat(u, all)
    requires lots != map[] && all != map[] && ListsGraph(env, Form(env.frozen, u))
    requires FormIndexed(env, a, ix) && FormIndexed(env, u, jx) && x in Missed(env.frozen, a, s)
    requires x !in Used(env.frozen, a)
    ensures IsStale(compound, ix, jx, AffectedBy(Form(env.frozen, u), NewWholes(s)))
  {
    BothListed(env, a, s, ix, jx);
    FlatView(env, compound, a, lots, ix);
    FlatView(env, compound, u, all, jx);
    FlatTops(u, all);
    FlatSubstantial(u, all);
    FormDrifts(env.frozen, u);
    MissedIsStale(env, compound, a, s, Form(env.frozen, u), x);
  }

  /** Flat content whose source misses a class not in use before goes stale. */
  lemma MissedGoesStale(frozen: set<(Cls, Cls)>, compound: bool, a: Graph, lots: Lots, s: Graph, more: Lots, x: Cls)
    returns (env: Env)
    requires Arrival(frozen, a, s) && Flat(a, lots) && Flat(s, more) && lots != map[]
    requires x in Missed(frozen, a, s) && x !in Used(frozen, a)
    ensures env.frozen == frozen && GoesStale(env, compound, a, s)
  {
    var u := FlatPair(a, lots, s, more);
    env := EnvFor(frozen, Form(frozen, u));
    forall ix, jx | FormIndexed(env, a, ix) && FormIndexed(env, u, jx)
      ensures IsStale(compound, ix, jx, AffectedBy(Form(frozen, u), NewWholes(s)))
    {
      MissedBetween(env, compound, a, lots, ix, s, u, lots + more, jx, x);
    }
    PlainGoesStale(env, compound, a, s);
  }
}
