/** One add as the store makes it: the graph finalised again, whichever wholes the part-of map
    keeps, and whichever index is read off it; and the view refreshed from it. */
module StoreAdds {
  import opened Vocabulary
  import opened Closure
  import opened Hierarchy
  import opened Levels
  import opened Rollup
  import opened Reach
  import opened Aggregate
  import opened YearSlicer
  import opened YearForm
  import opened StoreIndex
  import opened StoreFrame
  import opened Affected
  import opened Mixing
  import opened Drift
  import opened Twice
  import opened DriftView
  import opened HeldElements
  import opened MovedRoots
  import opened MixedRoots
  import opened MixedStale
  import opened ServedView
  import EngineLaws
  import V = ValueSlicer
  import ValueLaws

  type Classes = V.Classes

  /** An add to the store's graph `g`, indexed by `ix`: finalising it with `s` in it gives `h`,
      indexed by `jx`. */
  ghost predicate Adds(env: Env, g: Graph, ix: Index, s: Graph, h: Graph, jx: Index) {
    && IsIndex(env, g, ix) && Finalises(env.frozen, Union(g, s), h) && IsIndex(env, h, jx)
  }

  // ---- every add of a faithful store -----------------------------------------------------------

  lemma AddMade(frozen: Classes, a: Graph, s: Graph, g: Graph, parent: map<Node, Node>, h: Graph)
    requires Arrival(frozen, a, s) && Faithful(frozen, a, g) && Pass(frozen, Union(g, s), parent, h)
    ensures MadeBy(frozen, Union(a, s), Finalise(frozen, Union(g, s)), parent, h)
  {
    DriftedIs(frozen, a, g);
    DriftedIs(frozen, Union(a, s), Finalise(frozen, Union(g, s)));
    var f := Finalise(frozen, Union(g, s));
    PassIs(frozen, Union(g, s), parent, h);
    AuthoredUnion(a, s);
    FinaliseFaithful(frozen, a, s, g);
    FinaliseDrifts(frozen, a, s, g);
    assert f.parts == Union(a, s).parts by {
      assert SameContent(Union(a, s), f);
    }
    SameHolders(f, Union(a, s), parent);
    ReslicesIs(frozen, f, parent, h);
  }

  /** The add of a source that mixes roots or elements: where the affected bases are closed under
      the taxonomy, the refreshed view is the full derive exactly when they hold the class of every
      old root the source stirs. */
  lemma AddIff(env: Env, compound: bool, a: Graph, s: Graph, g: Graph, ix: Index, parent: map<Node, Node>, h: Graph,
               jx: Index)
    requires WfEnv(env) && Arrival(env.frozen, a, s) && FamilyTimed(Union(a, s)) && Missed(env.frozen, a, s) == {}
    requires Faithful(env.frozen, a, g) && IsIndex(env, g, ix)
    requires Pass(env.frozen, Union(g, s), parent, h) && IsIndex(env, h, jx)
    requires Closed(Tax(env.frozen, Union(a, s)), AffectedBases(env.frozen, Union(a, s), NewWholes(s)))
    requires Substantial(Union(a, s), TopNodes(a)) && Lists(jx) && EngineLaws.Antichain(jx)
    ensures Wf(ix.dag) && Wf(jx.dag) && Untimed(jx) == {}
    ensures Spliced(ViewOf(ix, compound), ViewOf(jx, compound), AffectedBy(h, NewWholes(s))) == ViewOf(jx, compound)
       <==> OldStirred(env.frozen, a, s, parent) <= AffectedBases(env.frozen, Union(a, s), NewWholes(s))
  {
    AddMade(env.frozen, a, s, g, parent, h);
    SameView(env, compound, a, g, ix);
    SpliceIff(env, compound, a, s, Finalise(env.frozen, Union(g, s)), parent, h, jx);
  }

  /** In any case the affected bases suffice when they hold everything above the stirred roots. */
  lemma AddIsFull(env: Env, compound: bool, a: Graph, s: Graph, g: Graph, ix: Index, parent: map<Node, Node>, h: Graph,
                  jx: Index)
    requires WfEnv(env) && Arrival(env.frozen, a, s) && FamilyTimed(Union(a, s)) && Missed(env.frozen, a, s) == {}
    requires Faithful(env.frozen, a, g) && IsIndex(env, g, ix)
    requires Pass(env.frozen, Union(g, s), parent, h) && IsIndex(env, h, jx)
    requires StirredMissed(env.frozen, a, s, parent) == {}
    ensures Wf(ix.dag) && Wf(jx.dag) && Untimed(jx) == {}
    ensures Spliced(ViewOf(ix, compound), ViewOf(jx, compound), AffectedBy(h, NewWholes(s))) == ViewOf(jx, compound)
  {
    AddMade(env.frozen, a, s, g, parent, h);
    SameView(env, compound, a, g, ix);
    PassTimed(env, Union(a, s), Finalise(env.frozen, Union(g, s)), parent, h, jx);
    RootsSplice(env, compound, a, s, Finalise(env.frozen, Union(g, s)), parent, h, jx);
  }

  /** The classes whose rows an add can change at all: those the source touches, and those served
      before or after that lie over a root it stirs. */
  ghost function Changeable(env: Env, a: Graph, s: Graph, parent: map<Node, Node>, jx: Index): set<Cls> {
    Touched(env.frozen, a, s) + Window(IndexOfForm(env, Union(a, s)), jx, StirredBases(env.frozen, Union(a, s), parent))
  }

  lemma RowKept(small: View, full: View, changeable: set<Cls>, c: Cls)
    requires Spliced(small, full, changeable) == full && c !in changeable
    ensures RowOf(small, c) == RowOf(full, c)
  {
    assert RowOf(Spliced(small, full, changeable), c) == RowOf(small, c);
  }

  /** Class by class, whatever the source misses or mixes: a refreshed row differs from the full
      one exactly when the class is not affected, can change, and has other rows in the two derives. */
  lemma StaleRow(env: Env, compound: bool, a: Graph, s: Graph, g: Graph, ix: Index, parent: map<Node, Node>, h: Graph,
                 jx: Index, c: Cls)
    requires WfEnv(env) && Arrival(env.frozen, a, s) && FamilyTimed(Union(a, s))
    requires Faithful(env.frozen, a, g) && IsIndex(env, g, ix)
    requires Pass(env.frozen, Union(g, s), parent, h) && IsIndex(env, h, jx)
    ensures Wf(ix.dag) && Wf(jx.dag)
    ensures var was, full, affected := ViewOf(ix, compound), ViewOf(jx, compound), AffectedBy(h, NewWholes(s));
            RowOf(Spliced(was, full, affected), c) != RowOf(full, c)
            <==> c !in affected && c in Changeable(env, a, s, parent, jx) && RowOf(was, c) != RowOf(full, c)
  {
    var small, mid, changeable := IndexOfForm(env, a), IndexOfForm(env, Union(a, s)), Changeable(env, a, s, parent, jx);
    AddMade(env.frozen, a, s, g, parent, h);
    SameView(env, compound, a, g, ix);
    PassFramed(env, a, s, Finalise(env.frozen, Union(g, s)), parent, h, jx);
    SpliceThrough(small, mid, jx, compound, Touched(env.frozen, a, s),
                  Window(mid, jx, StirredBases(env.frozen, Union(a, s), parent)), changeable);
    if c !in changeable {
      RowKept(ViewOf(small, compound), ViewOf(jx, compound), changeable, c);
    }
    SplicedRow(ViewOf(ix, compound), ViewOf(jx, compound), AffectedBy(h, NewWholes(s)), c);
  }

  lemma SplicedRow(was: View, full: View, affected: set<Cls>, c: Cls)
    ensures RowOf(Spliced(was, full, affected), c) == if c in affected then RowOf(full, c) else RowOf(was, c)
  {
  }

  /** Without an untimed whole among the source's, and no edge out of a level class, the affected
      bases are closed under the taxonomy. */
  lemma TimedWholesClosed(frozen: Classes, u: Graph, wholes: set<Node>)
    requires wholes <= u.when.Keys && forall e :: e in frozen + u.sub ==> e.0 !in LEVEL_ROOTS
    ensures Closed(Tax(frozen, u), AffectedBases(frozen, u, wholes))
  {
    var timed := TimedReach(frozen, u, wholes);
    assert TimedIn(u, wholes) == wholes;
    forall e | e in u.sub && e.0 in timed + LEVEL_ROOTS ensures e.1 in timed + LEVEL_ROOTS {
      if e.1 !in LEVEL_ROOTS {
        assert e in Tax(frozen, u) && e.1 in Image(Tax(frozen, u), timed);
      }
    }
    ReachLeast(u.sub, ClassesAt(u, wholes) + timed, timed + LEVEL_ROOTS);
    forall e | e in Tax(frozen, u) && e.0 in AffectedBases(frozen, u, wholes)
      ensures e.1 in AffectedBases(frozen, u, wholes)
    {
      assert e in frozen + u.sub && e.0 in timed;
      assert e.1 in Image(Tax(frozen, u), timed);
    }
  }

  // ---- there is always an add --------------------------------------------------------------------

  ghost function WholeOf(holders: set<(Node, Node)>, n: Node): Node
    requires exists e :: e in holders && e.0 == n
    ensures (n, WholeOf(holders, n)) in holders
  {
    var e :| e in holders && e.0 == n;
    e.1
  }

  lemma SomeWholes(holders: set<(Node, Node)>) returns (parent: map<Node, Node>)
    ensures (forall e :: e in holders ==> e.0 in parent) && forall p :: p in parent ==> (p, parent[p]) in holders
  {
    var parts := set e | e in holders :: e.0;
    parent := map n | n in parts :: WholeOf(holders, n);
  }

  lemma SomeParents(f: Graph) returns (parent: map<Node, Node>)
    ensures V.IsParentMap(f, parent)
  {
    parent := SomeWholes(V.Holders(f));
  }

  lemma SomePass(frozen: Classes, g: Graph) returns (parent: map<Node, Node>, h: Graph)
    ensures Pass(frozen, g, parent, h)
  {
    parent := SomeParents(Finalise(frozen, g));
    h := V.Resliced(frozen, DRIVETRAIN, Finalise(frozen, g), parent);
    PassIs(frozen, g, parent, h);
  }

  ghost function SomeLevel(sup: Classes, types: set<Cls>): Level
    requires !Infers(sup, types, None)
    ensures Infers(sup, types, Some(SomeLevel(sup, types)))
  {
    var c :| c in types && LevelFrom(sup, c).Some?;
    LevelFrom(sup, c).value
  }

  ghost function SomePick(edges: Classes, types: set<Cls>): Cls
    requires types != {}
    ensures Picks(edges, types, SomePick(edges, types))
  {
    if exists o :: IsLeafClass(edges, types, o) then
      var o :| IsLeafClass(edges, types, o);
      o
    else
      var c :| c in types;
      c
  }

  lemma SomeLevels(frozen: Classes, g: Graph) returns (level: map<Node, Level>)
    ensures InfersAll(frozen, g, level)
  {
    var sup := frozen + g.sub;
    level := map n | n in g.level && TypesOf(g, n) != {} && !Infers(sup, TypesAt(g, n), None) ::
        SomeLevel(sup, TypesAt(g, n));
  }

  lemma SomeIndex(env: Env, g: Graph) returns (ix: Index)
    ensures IsIndex(env, g, ix)
  {
    var sup := env.frozen + g.sub;
    var level := SomeLevels(env.frozen, g);
    var cls := map n | n in level :: SomePick(sup, TypesOf(g, n));
    ix := Index(ReadDag(g, level), cls, TimeOf(g), sup, env.strategy, g.quality, env.nodes, env.names);
  }

  // ---- a store whose view goes stale --------------------------------------------------------------

  /** Neither derive is refused, there is a view to refresh, and refreshing it does not give the
      full derive. */
  ghost predicate IsStale(compound: bool, ix: Index, jx: Index, affected: set<Cls>) {
    && Wf(ix.dag) && Wf(jx.dag) && Untimed(ix) == {} && Untimed(jx) == {}
    && HasRows(ix, compound) && Outdated(ix, jx, compound, affected)
  }

  /** The store's first source is `a`, its second is `s`. */
  ghost predicate Runs(env: Env, a: Graph, s: Graph, g: Graph, ix: Index, h: Graph, jx: Index) {
    Finalises(env.frozen, a, g) && Adds(env, g, ix, s, h, jx)
  }

  /** However the store is finalised and indexed, its view is stale once `s` is added to `a`. */
  ghost predicate GoesStale(env: Env, compound: bool, a: Graph, s: Graph) {
    && WfEnv(env) && Authored(a) && Authored(s) && Disjoint(a, s)
    && forall g, ix, h, jx {:trigger Runs(env, a, s, g, ix, h, jx)} :: Runs(env, a, s, g, ix, h, jx) ==>
         OneScope(g) && OneScope(h) && IsStale(compound, ix, jx, AffectedBy(h, NewWholes(s)))
  }

  /** And there is a way to finalise and index it. */
  lemma StaleHappens(env: Env, compound: bool, a: Graph, s: Graph) returns (g: Graph, ix: Index, h: Graph, jx: Index)
    requires GoesStale(env, compound, a, s)
    ensures Runs(env, a, s, g, ix, h, jx) && IsStale(compound, ix, jx, AffectedBy(h, NewWholes(s)))
  {
    var p, q;
    p, g := SomePass(env.frozen, a);
    q, h := SomePass(env.frozen, Union(g, s));
    ix := SomeIndex(env, g);
    jx := SomeIndex(env, h);
    assert Runs(env, a, s, g, ix, h, jx);
  }

  /** `ix` is an index of the finalised form of `a`. */
  ghost predicate FormIndexed(env: Env, a: Graph, ix: Index) {
    forall f {:trigger Forms(env.frozen, a, f)} :: Forms(env.frozen, a, f) ==> IsIndex(env, f, ix)
  }

  lemma FormIndexedIs(env: Env, a: Graph, ix: Index)
    ensures FormIndexed(env, a, ix) <==> IsIndex(env, Form(env.frozen, a), ix)
  {
    assert Forms(env.frozen, a, Form(env.frozen, a));
  }

  // ---- content without drivetrains ----------------------------------------------------------------

  ghost predicate NoDrivetrain(a: Graph) {
    forall e {:trigger e in a.axis} :: e in a.axis ==> e.1 != DRIVETRAIN
  }

  lemma NothingShared(frozen: Classes, a: Graph, parent: map<Node, Node>)
    requires Plain(a) && NoDrivetrain(a)
    ensures V.Resliced(frozen, DRIVETRAIN, Form(frozen, a), parent) == Form(frozen, a)
  {
    ValuesOfForm(frozen, a);
    assert V.Values(a, DRIVETRAIN) == {};
    assert V.Retyped(frozen, DRIVETRAIN, Form(frozen, a), parent) == {};
    ValueLaws.NothingRetyped(frozen, DRIVETRAIN, Form(frozen, a), parent);
  }

  /** Where the year slicer gives the form of such content, so does the whole pass. */
  lemma PlainPass(frozen: Classes, u: Graph, g: Graph, h: Graph)
    requires Plain(u) && NoDrivetrain(u) && Finalise(frozen, g) == Form(frozen, u) && Finalises(frozen, g, h)
    ensures h == Form(frozen, u)
  {
    var parent :| Pass(frozen, g, parent, h);
    PassIs(frozen, g, parent, h);
    NothingShared(frozen, u, parent);
  }

  lemma PlainAdd(frozen: Classes, a: Graph, s: Graph, h: Graph)
    requires Plain(a) && Plain(s) && Disjoint(a, s) && Timeless(frozen) && NoDrivetrain(a) && NoDrivetrain(s)
    requires Finalises(frozen, Union(Form(frozen, a), s), h)
    ensures h == Form(frozen, Union(a, s))
  {
    PlainUnion(a, s);
    FinaliseIncoming(frozen, a, s, Union(Form(frozen, a), s));
    PlainPass(frozen, Union(a, s), Union(Form(frozen, a), s), h);
  }

  /** Such a store goes stale when the indexes of its forms show it. */
  lemma PlainGoesStale(env: Env, compound: bool, a: Graph, s: Graph)
    requires WfEnv(env) && Authored(a) && Authored(s) && Disjoint(a, s) && NoDrivetrain(a) && NoDrivetrain(s)
    requires forall ix, jx {:trigger FormIndexed(env, a, ix), FormIndexed(env, Union(a, s), jx)} ::
               FormIndexed(env, a, ix) && FormIndexed(env, Union(a, s), jx) ==>
                 IsStale(compound, ix, jx, AffectedBy(Form(env.frozen, Union(a, s)), NewWholes(s)))
    ensures GoesStale(env, compound, a, s)
  {
    AuthoredUnion(a, s);
    FormUnambiguous(env.frozen, a);
    FormUnambiguous(env.frozen, Union(a, s));
    forall g, ix, h, jx | Runs(env, a, s, g, ix, h, jx)
      ensures OneScope(g) && OneScope(h) && IsStale(compound, ix, jx, AffectedBy(h, NewWholes(s)))
    {
      FinaliseFirst(env.frozen, a);
      PlainPass(env.frozen, a, a, g);
      PlainAdd(env.frozen, a, s, h);
      FormIndexedIs(env, a, ix);
      FormIndexedIs(env, Union(a, s), jx);
    }
  }

  // ---- name orders ------------------------------------------------------------------------------------

  lemma {:induction false} Listing<T>(all: set<T>) returns (s: seq<T>)
    ensures Distinct(s) && forall x :: x in s <==> x in all
    decreases |all|
  {
    if all == {} {
      s := [];
    } else {
      var x :| x in all;
      var rest := Listing(all - {x});
      s := rest + [x];
      forall i, j | 0 <= i < j < |s| ensures s[i] != s[j] {
        assert rest[i] in rest;
      }
    }
  }

  function AllTypes(g: Graph): set<Cls> {
    set e {:trigger e in g.types} | e in g.types :: e.1
  }

  /** The name orders list the graph's instances, their classes and all superclasses. */
  ghost predicate ListsGraph(env: Env, h: Graph) {
    && (forall n :: n in h.level ==> n in env.nodes)
    && (forall c :: c in Closure.Reach(env.frozen + h.sub, AllTypes(h)) ==> c in env.names)
  }

  lemma EnvFor(frozen: Classes, h: Graph) returns (env: Env)
    requires Timeless(frozen)
    ensures env.frozen == frozen && WfEnv(env) && ListsGraph(env, h)
  {
    var nodes := Listing(h.level.Keys);
    var names := Listing(Closure.Reach(frozen + h.sub, AllTypes(h)));
    env := Env(frozen, map[], nodes, names);
  }

  /** They list every index of the graph, and of every smaller one. */
  lemma ListsIndex(env: Env, g: Graph, h: Graph, ix: Index)
    requires IsIndex(env, g, ix) && ListsGraph(env, h) && g.types <= h.types && g.sub <= h.sub
    requires g.level.Keys <= h.level.Keys
    ensures Lists(ix)
  {
    forall n | n in ix.dag.level ensures n in ix.nodes && ClassOf(ix, n) in AllTypes(h) && ClassOf(ix, n) in ix.names {
    }
    forall n | n in Tops(ix) ensures n in ix.dag.level {
    }
    forall c, x | c in LeafClasses(ix) && x in Ancestors(ix.sup, c) ensures x in ix.names {
      ReachMonotone(Taxonomy(ix.sup), {c}, env.frozen + h.sub, AllTypes(h));
    }
  }
}
