/** The composition store: sources are added one at a time and only the affected rows of the
    view are derived again; the view always equals a derive from scratch. */
module Store {
  import opened Vocabulary
  import opened Reach
  import opened Aggregate
  import opened YearSlicer
  import opened YearForm
  import opened StoreIndex
  import opened StoreFrame
  import opened Affected
  import opened ValueSlicer
  import opened ServedView
  import opened Mixing
  import opened Drift
  import opened DriftSlice
  import opened DriftView
  import opened LevelLaws
  import opened Twice
  import opened MixedRoots
  import opened MixedStale
  import opened StoreAdds
  import opened StaleView
  import opened Namespaces

  type Answer = Result<View, set<Cls>>

  /** `u` is the content of a store that holds `a` once `s` is added. */
  ghost predicate Merges(a: Graph, s: Graph, u: Graph) {
    u == Union(a, s)
  }

  /** A source the incremental add is sound for: its instances are fresh, the affected set
      misses nothing, and no root or element shares its class across drivetrains. */
  ghost predicate Addable(env: Env, a: Graph, s: Graph) {
    forall u {:trigger Merges(a, s, u)} :: Merges(a, s, u) ==>
      WfEnv(env) && Arrival(env.frozen, a, s) && Missed(env.frozen, a, s) == {} && Steady(env.frozen, u)
  }

  lemma AddableIs(env: Env, a: Graph, s: Graph)
    ensures Addable(env, a, s)
         <==> WfEnv(env) && Arrival(env.frozen, a, s) && Missed(env.frozen, a, s) == {} && Steady(env.frozen, Union(a, s))
  {
    assert Merges(a, s, Union(a, s));
  }

  /** What a caller can check before the call: fresh instances, no class in use changes its level,
      the source is levelled beside the store, nothing is missed and nothing fixed is mixed. */
  lemma AddableIff(env: Env, a: Graph, s: Graph)
    requires Settled(env, a) && Authored(s)
    ensures Addable(env, a, s)
       <==> && Disjoint(a, s) && LevelsStay(env.frozen, a, s) && LevelsBeside(env.frozen, a, s)
            && Missed(env.frozen, a, s) == {} && Steady(env.frozen, Union(a, s))
  {
    AddableIs(env, a, s);
    if Disjoint(a, s) {
      LevelledUnionIff(env.frozen, a, s);
    }
  }

  /** Whatever roots the source stirs, the affected set holds everything above them. */
  ghost predicate StirsFound(frozen: Classes, a: Graph, s: Graph) {
    forall parent {:trigger IsParentMap(Union(a, s), parent)} :: IsParentMap(Union(a, s), parent) ==>
      StirredMissed(frozen, a, s, parent) == {}
  }

  /** A source whose add answers with the full derive: as above, but it may mix roots and elements
      as long as the affected set finds what it stirs. */
  ghost predicate Sound(env: Env, a: Graph, s: Graph) {
    forall u {:trigger Merges(a, s, u)} :: Merges(a, s, u) ==>
      WfEnv(env) && Arrival(env.frozen, a, s) && Missed(env.frozen, a, s) == {} && StirsFound(env.frozen, a, s)
  }

  lemma SoundIs(env: Env, a: Graph, s: Graph)
    ensures Sound(env, a, s)
         <==> WfEnv(env) && Arrival(env.frozen, a, s) && Missed(env.frozen, a, s) == {} && StirsFound(env.frozen, a, s)
  {
    assert Merges(a, s, Union(a, s));
  }

  /** The graph `g` has drifted from the finalised form of `a` by value leaves of parts at most. */
  ghost predicate Carries(frozen: Classes, a: Graph, g: Graph) {
    forall f {:trigger Forms(frozen, a, f)} :: Forms(frozen, a, f) ==> Faithful(frozen, a, g)
  }

  lemma CarriesIs(frozen: Classes, a: Graph, g: Graph)
    ensures Carries(frozen, a, g) <==> Faithful(frozen, a, g)
  {
    assert Forms(frozen, a, Form(frozen, a));
  }

  // ---- one add -----------------------------------------------------------------------------

  /** `_finalise_store`: the year slicer, then the drivetrain slicer. */
  method FinaliseStore(frozen: Classes, g: Graph) returns (r: Graph, parent: map<Node, Node>)
    ensures IsParentMap(Finalise(frozen, g), parent)
    ensures r == Resliced(frozen, DRIVETRAIN, Finalise(frozen, g), parent)
  {
    var out := Derive(frozen, g);
    r, parent := ValueSlicer.Apply(frozen, DRIVETRAIN, YearSlicer.Apply(g, out));
  }

  /** `h` is what finalising the graph `g` with `s` in it gives. */
  ghost predicate Ingested(frozen: Classes, g: Graph, s: Graph, h: Graph) {
    forall u {:trigger Merges(g, s, u)} :: Merges(g, s, u) ==> Finalises(frozen, u, h)
  }

  lemma IngestedIs(frozen: Classes, g: Graph, s: Graph, h: Graph)
    ensures Ingested(frozen, g, s, h) <==> Finalises(frozen, Union(g, s), h)
  {
    assert Merges(g, s, Union(g, s));
  }

  /** Union a source into the store's graph and finalise again. */
  method Ingest(frozen: Classes, graph: Graph, s: Graph) returns (r: Graph)
    ensures Ingested(frozen, graph, s, r)
  {
    var parent;
    r, parent := FinaliseStore(frozen, Union(graph, s));
    PassIs(frozen, Union(graph, s), parent, r);
    assert Pass(frozen, Union(graph, s), parent, r);
    IngestedIs(frozen, graph, s, r);
  }

  /** A view that exists is the full derive of `a`, unless that is refused. */
  ghost predicate Current(env: Env, compound: bool, a: Graph, view: Option<View>) {
    forall r {:trigger Derives(env, compound, a, r)} :: Derives(env, compound, a, r) ==>
      (view.Some? && r.Ok? ==> view.value == r.value)
  }

  function Kept(view: Option<View>, r: Answer): Option<View> {
    if r.Ok? then Some(r.value) else view
  }

  /** A view that is what a full derive of `a` answers. */
  lemma CurrentIs(env: Env, compound: bool, a: Graph, view: Option<View>, r: Answer)
    requires Derives(env, compound, a, r)
    ensures Current(env, compound, a, view) <==> (view.Some? && r.Ok? ==> view.value == r.value)
  {
    forall q | Derives(env, compound, a, q) ensures q == r {
      DerivesOne(env, compound, a, q, r);
    }
  }

  /** An empty view is filled by the full derive; later adds splice the affected rows in. */
  method NextView(view: Option<View>, full: View, affected: set<Cls>) returns (r: View)
    requires view.Some? ==> (view.value - affected) + Restrict(full, affected) == full
    ensures r == full
  {
    if view.None? || view.value == map[] {
      return full;
    }
    r := Refresh(view.value, Restrict(full, affected), affected);
  }

  /** A derive that reads the graph `h` answers `r`. */
  ghost predicate Reads(env: Env, compound: bool, h: Graph, r: Answer) {
    exists ix {:trigger IsIndex(env, h, ix)} :: IsIndex(env, h, ix) && Wf(ix.dag) && r == Answers(ix, compound)
  }

  ghost predicate Answered(env: Env, compound: bool, h: Graph, r: Answer) {
    forall q {:trigger Same(q, r)} :: Same(q, r) ==> Reads(env, compound, h, q)
  }

  ghost predicate Same(q: Answer, r: Answer) {
    q == r
  }

  lemma AnsweredIs(env: Env, compound: bool, h: Graph, r: Answer)
    ensures Answered(env, compound, h, r)
       <==> exists ix :: IsIndex(env, h, ix) && Wf(ix.dag) && r == Answers(ix, compound)
  {
    assert Same(r, r);
  }

  lemma StirredSplice(env: Env, compound: bool, a: Graph, s: Graph, graph: Graph, h: Graph, jx: Index)
    requires Sound(env, a, s) && Carries(env.frozen, a, graph) && Ingested(env.frozen, graph, s, h)
    requires IsIndex(env, h, jx)
    ensures var small, affected := IndexOfForm(env, a), AffectedBy(h, NewWholes(s));
            && Wf(small.dag) && Wf(jx.dag) && (Untimed(jx) == {} <==> FamilyTimed(Union(a, s)))
            && (FamilyTimed(Union(a, s)) ==>
                  (ViewOf(small, compound) - affected) + Restrict(ViewOf(jx, compound), affected)
                      == ViewOf(jx, compound))
  {
    SoundIs(env, a, s);
    CarriesIs(env.frozen, a, graph);
    IngestedIs(env.frozen, graph, s, h);
    var parent :| Pass(env.frozen, Union(graph, s), parent, h);
    PassIs(env.frozen, Union(graph, s), parent, h);
    AddMade(env.frozen, a, s, graph, parent, h);
    FormIndex(env, a);
    PassRemade(env, Union(a, s), Finalise(env.frozen, Union(graph, s)), parent, h, jx);
    PassDag(env, Union(a, s), parent, h, jx);
    PassTimed(env, Union(a, s), Finalise(env.frozen, Union(graph, s)), parent, h, jx);
    if FamilyTimed(Union(a, s)) {
      RootsSplice(env, compound, a, s, Finalise(env.frozen, Union(graph, s)), parent, h, jx);
    }
  }

  lemma OldTimed(a: Graph, s: Graph)
    requires Authored(a) && Authored(s) && Disjoint(a, s) && FamilyTimed(Union(a, s))
    ensures FamilyTimed(a)
  {
    TopsOfUnion(a, s);
    PartsWithin(a);
    forall n | n in FamilyTops(a) ensures n in a.when {
      assert n in FamilyTops(Union(a, s));
    }
  }

  lemma CurrentView(env: Env, compound: bool, a: Graph, view: Option<View>)
    requires Authored(a) && Timeless(env.frozen) && FamilyTimed(a) && Current(env, compound, a, view) && view.Some?
    ensures Wf(IndexOfForm(env, a).dag) && view.value == ViewOf(IndexOfForm(env, a), compound)
  {
    var r := HasDerive(env, compound, a);
    DerivesIs(env, compound, a, r);
    RefusedIff(env, a);
  }

  lemma SpliceReady(env: Env, compound: bool, a: Graph, s: Graph, view: Option<View>, graph: Graph, h: Graph, jx: Index,
                    r: Answer)
    requires Sound(env, a, s) && Carries(env.frozen, a, graph) && Current(env, compound, a, view)
    requires Ingested(env.frozen, graph, s, h) && IsIndex(env, h, jx) && Wf(jx.dag) && r == Answers(jx, compound)
    ensures var affected := AffectedBy(h, NewWholes(s));
            r.Ok? && view.Some? ==> (view.value - affected) + Restrict(r.value, affected) == r.value
  {
    SoundIs(env, a, s);
    StirredSplice(env, compound, a, s, graph, h, jx);
    if r.Ok? && view.Some? {
      OldTimed(a, s);
      CurrentView(env, compound, a, view);
    }
  }

  lemma KeptIsCurrent(env: Env, compound: bool, a: Graph, view: Option<View>, r: Answer)
    requires Derives(env, compound, a, r)
    ensures Current(env, compound, a, Kept(view, r))
  {
    CurrentIs(env, compound, a, Kept(view, r), r);
  }

  lemma IngestedDag(env: Env, a: Graph, s: Graph, graph: Graph, h: Graph)
    requires Sound(env, a, s) && Carries(env.frozen, a, graph) && Ingested(env.frozen, graph, s, h)
    ensures OneScope(h) && Wf(DagOf(h))
  {
    SoundIs(env, a, s);
    CarriesIs(env.frozen, a, graph);
    IngestedIs(env.frozen, graph, s, h);
    var parent :| Pass(env.frozen, Union(graph, s), parent, h);
    PassIs(env.frozen, Union(graph, s), parent, h);
    AddMade(env.frozen, a, s, graph, parent, h);
    PassDrifts(env.frozen, Union(a, s), Finalise(env.frozen, Union(graph, s)), parent, h);
    DriftOneScope(env.frozen, Union(a, s), h);
    DriftDag(env.frozen, Union(a, s), h);
  }

  /** After a source that mixes nothing fixed the store still holds what was authored. */
  lemma IngestedCarries(env: Env, compound: bool, a: Graph, s: Graph, graph: Graph, h: Graph, jx: Index)
    requires Addable(env, a, s) && Carries(env.frozen, a, graph) && Ingested(env.frozen, graph, s, h)
    requires IsIndex(env, h, jx)
    ensures Carries(env.frozen, Union(a, s), h) && Wf(jx.dag)
    ensures Derives(env, compound, Union(a, s), Answers(jx, compound))
  {
    AddableIs(env, a, s);
    CarriesIs(env.frozen, a, graph);
    IngestedIs(env.frozen, graph, s, h);
    AddFaithful(env.frozen, a, s, graph, h);
    CarriesIs(env.frozen, Union(a, s), h);
    AuthoredUnion(a, s);
    DerivesBy(env, compound, Union(a, s), h, jx);
  }

  method DeriveAgain(env: Env, compound: bool, g: Graph, ghost a: Graph) returns (r: Answer)
    requires Settled(env, a) && Carries(env.frozen, a, g)
    ensures Derives(env, compound, a, r)
  {
    CarriesIs(env.frozen, a, g);
    r := DeriveView(env, compound, g, a);
  }

  /** One add on values: the new graph, the answer and the new view. */
  method Add(env: Env, compound: bool, graph: Graph, view: Option<View>, s: Graph, ghost a: Graph)
    returns (g: Graph, r: Answer, next: Option<View>)
    requires Sound(env, a, s) && Carries(env.frozen, a, graph) && Current(env, compound, a, view)
    ensures Ingested(env.frozen, graph, s, g) && Answered(env, compound, g, r) && next == Kept(view, r)
    ensures Addable(env, a, s) ==>
              Carries(env.frozen, Union(a, s), g) && Derives(env, compound, Union(a, s), r)
                  && Current(env, compound, Union(a, s), next)
  {
    SoundIs(env, a, s);
    g := Ingest(env.frozen, graph, s);
    var affected := AffectedClasses(g, NewWholes(s));
    IngestedDag(env, a, s, graph, g);
    ghost var ix;
    r, ix := DeriveGraph(env, compound, g);
    SpliceReady(env, compound, a, s, view, graph, g, ix, r);
    if r.Ok? {
      var served := NextView(view, r.value, affected);
      r := Ok(served);
    }
    next := Kept(view, r);
    if Addable(env, a, s) {
      IngestedCarries(env, compound, a, s, graph, g, ix);
      KeptIsCurrent(env, compound, Union(a, s), view, r);
    }
  }

  class CompositionStore {
    const env: Env
    const compound: bool
    var graph: Graph
    var view: Option<View>

    /** The store holds what was authored in `a`: a graph drifted from it by value leaves of
        parts at most, and a view that is the full derive of it. */
    ghost predicate Holds(a: Graph)
      reads this
    {
      Carries(env.frozen, a, graph) && Current(env, compound, a, view)
    }

    constructor (env: Env, compound: bool)
      requires WfEnv(env)
      ensures this.env == env && this.compound == compound && view == None && Holds(EMPTY)
    {
      this.env, this.compound, graph, view := env, compound, EMPTY, None;
      FormEmpty(env.frozen);
      FormDrifts(env.frozen, EMPTY);
      CarriesIs(env.frozen, EMPTY, EMPTY);
    }

    /** `add_source`: union, finalise, then re-derive only the affected rows. The answer, and the
        view unless it is refused, is the full derive of the new graph; and that is the full derive
        of everything added so far, unless a root or an element is mixed. */
    method AddSource(s: Graph, ghost a: Graph) returns (r: Answer)
      requires Holds(a) && Sound(env, a, s)
      modifies this
      ensures Ingested(env.frozen, old(graph), s, graph) && Answered(env, compound, graph, r)
      ensures view == Kept(old(view), r)
      ensures Addable(env, a, s) ==> Holds(Union(a, s)) && Derives(env, compound, Union(a, s), r)
    {
      var g, next;
      g, r, next := Add(env, compound, graph, view, s, a);
      graph, view := g, next;
    }
  }

  // ---- a run of adds ------------------------------------------------------------------------

  function UnionAll(sources: seq<Graph>): Graph {
    if sources == [] then EMPTY else Union(UnionAll(sources[..|sources| - 1]), sources[|sources| - 1])
  }

  /** Source `i` can be added after the ones before it. */
  ghost predicate AddableAt(env: Env, sources: seq<Graph>, i: nat)
    requires i < |sources|
  {
    Addable(env, UnionAll(sources[..i]), sources[i])
  }

  /** Every source can be added after the ones before it. */
  ghost predicate AllAddable(env: Env, sources: seq<Graph>) {
    forall i {:trigger AddableAt(env, sources, i)} :: 0 <= i < |sources| ==> AddableAt(env, sources, i)
  }

  lemma UnionAllSnoc(sources: seq<Graph>, i: nat)
    requires i < |sources|
    ensures UnionAll(sources[..i + 1]) == Union(UnionAll(sources[..i]), sources[i])
  {
    assert sources[..i + 1][..i] == sources[..i];
  }

  /** The full derive of `a` is refused for want of a time. */
  ghost predicate Refused(env: Env, compound: bool, a: Graph) {
    forall r {:trigger Derives(env, compound, a, r)} :: Derives(env, compound, a, r) ==> r.Err?
  }

  /** It is, exactly when a Product or Component top carries no time. */
  lemma RefusedIs(env: Env, compound: bool, a: Graph)
    requires Authored(a) && Timeless(env.frozen)
    ensures Refused(env, compound, a) <==> !FamilyTimed(a)
  {
    var r := HasDerive(env, compound, a);
    DerivesIs(env, compound, a, r);
    RefusedIff(env, a);
    forall q | Derives(env, compound, a, q) ensures q == r {
      DerivesOne(env, compound, a, q, r);
    }
  }

  /** A run that is refused once is refused to its end. */
  lemma {:induction false} RefusedToTheEnd(env: Env, compound: bool, sources: seq<Graph>, i: nat)
    requires AllAddable(env, sources) && i <= |sources| && Refused(env, compound, UnionAll(sources[..i]))
    ensures Refused(env, compound, UnionAll(sources))
    decreases |sources| - i
  {
    if i < |sources| {
      assert AddableAt(env, sources, i);
      assert Refused(env, compound, Union(UnionAll(sources[..i]), sources[i])) by {
        AddableIs(env, UnionAll(sources[..i]), sources[i]);
        var before := HasDerive(env, compound, UnionAll(sources[..i]));
        forall r | Derives(env, compound, Union(UnionAll(sources[..i]), sources[i]), r) ensures r.Err? {
          SpliceIsDerive(env, compound, UnionAll(sources[..i]), sources[i], before, r,
                         Touched(env.frozen, UnionAll(sources[..i]), sources[i]));
        }
      }
      UnionAllSnoc(sources, i);
      RefusedToTheEnd(env, compound, sources, i + 1);
    } else {
      assert sources[..i] == sources;
    }
  }

  lemma ErrToTheEnd(env: Env, compound: bool, sources: seq<Graph>, i: nat, r: Answer)
    requires AllAddable(env, sources) && i <= |sources| && r.Err?
    requires Derives(env, compound, UnionAll(sources[..i]), r)
    ensures Refused(env, compound, UnionAll(sources))
  {
    assert Refused(env, compound, UnionAll(sources[..i])) by {
      forall q | Derives(env, compound, UnionAll(sources[..i]), q) ensures q == r {
        DerivesOne(env, compound, UnionAll(sources[..i]), q, r);
      }
    }
    RefusedToTheEnd(env, compound, sources, i);
  }

  /** What a run of adds ends with: the full derive, in the answer and in the view. */
  ghost predicate Serves(store: CompositionStore, a: Graph, r: Answer)
    reads store
  {
    r.Ok? && store.Holds(a) && Derives(store.env, store.compound, a, r) && store.view == Some(r.value)
  }

  /** After `i` adds: the full derive so far, or a refusal that the whole run meets too. */
  ghost predicate InRun(store: CompositionStore, sources: seq<Graph>, i: nat, r: Answer)
    reads store
    requires i <= |sources|
  {
    if r.Ok? then Serves(store, UnionAll(sources[..i]), r) else Refused(store.env, store.compound, UnionAll(sources))
  }

  /** The next add of a run. */
  method AddNext(store: CompositionStore, sources: seq<Graph>, i: nat) returns (r: Answer)
    requires AllAddable(store.env, sources) && i < |sources|
    requires store.Holds(UnionAll(sources[..i]))
    modifies store
    ensures InRun(store, sources, i + 1, r)
  {
    ghost var a := UnionAll(sources[..i]);
    UnionAllSnoc(sources, i);
    assert AddableAt(store.env, sources, i);
    assert Sound(store.env, a, sources[i]) by {
      AddableIs(store.env, a, sources[i]);
      SoundIs(store.env, a, sources[i]);
      AuthoredUnion(a, sources[i]);
      forall parent | IsParentMap(Union(a, sources[i]), parent)
        ensures StirredMissed(store.env.frozen, a, sources[i], parent) == {}
      {
        SteadyStirs(store.env.frozen, Union(a, sources[i]), parent);
      }
    }
    r := store.AddSource(sources[i], a);
    if r.Err? {
      ErrToTheEnd(store.env, store.compound, sources, i + 1, r);
    }
  }

  method AddRest(store: CompositionStore, sources: seq<Graph>, first: Answer) returns (r: Answer)
    requires AllAddable(store.env, sources) && sources != [] && InRun(store, sources, 1, first)
    modifies store
    ensures InRun(store, sources, |sources|, r)
  {
    r := first;
    var i := 1;
    while i < |sources| && r.Ok?
      invariant 0 < i <= |sources| && InRun(store, sources, i, r)
    {
      r := AddNext(store, sources, i);
      i := i + 1;
    }
  }

  /** `add_sources`: any run of adds serves exactly what one full derive of all the sources
      would serve, and fails only when that is refused too. */
  method AddSources(env: Env, compound: bool, sources: seq<Graph>) returns (store: CompositionStore, r: Answer)
    requires WfEnv(env) && AllAddable(env, sources) && sources != []
    ensures fresh(store) && store.env == env && store.compound == compound
    ensures if r.Ok? then Serves(store, UnionAll(sources), r) else Refused(env, compound, UnionAll(sources))
  {
    store := new CompositionStore(env, compound);
    assert UnionAll(sources[..0]) == EMPTY;
    r := AddNext(store, sources, 0);
    r := AddRest(store, sources, r);
    assert sources[..|sources|] == sources;
  }

  lemma {:induction false} InstanceOf(sources: seq<Graph>, n: Node) returns (k: nat)
    requires n in UnionAll(sources).level
    ensures k < |sources| && n in sources[k].level
  {
    k := |sources| - 1;
    if n !in sources[k].level {
      k := InstanceOf(sources[..k], n);
    }
  }

  lemma LastApart(sources: seq<Graph>)
    requires AllDisjoint(sources) && sources != []
    ensures Disjoint(UnionAll(sources[..|sources| - 1]), sources[|sources| - 1])
  {
    var last := |sources| - 1;
    forall n | n in UnionAll(sources[..last]).level ensures n !in sources[last].level {
      var k := InstanceOf(sources[..last], n);
      assert Disjoint(sources[k], sources[last]);
    }
  }

  lemma {:induction false} MergedAuthored(sources: seq<Graph>)
    requires AllAuthored(sources) && AllDisjoint(sources)
    ensures Authored(UnionAll(sources))
  {
    if sources == [] {
      assert Wf(DagOf(EMPTY));
    } else {
      MergedAuthored(sources[..|sources| - 1]);
      LastApart(sources);
      AuthoredUnion(UnionAll(sources[..|sources| - 1]), sources[|sources| - 1]);
    }
  }

  /** The graphs of a store that is given the sources one by one. */
  ghost predicate IsHistory(frozen: Classes, sources: seq<Graph>, graphs: seq<Graph>) {
    && |graphs| == |sources| + 1 && graphs[0] == EMPTY
    && forall i {:trigger sources[i]} :: 0 <= i < |sources| ==> Ingested(frozen, graphs[i], sources[i], graphs[i + 1])
  }

  lemma NothingDrifts(frozen: Classes)
    requires Timeless(frozen)
    ensures Drifted(frozen, EMPTY, EMPTY)
  {
    FormEmpty(frozen);
    FormDrifts(frozen, EMPTY);
  }

  /** Whatever the sources mix, miss or change of the levels, the graph stays the finalised form of
      everything added, but for value leaves. */
  lemma {:induction false} EveryRunDrifts(frozen: Classes, sources: seq<Graph>, graphs: seq<Graph>)
    requires Timeless(frozen) && AllAuthored(sources) && AllDisjoint(sources) && IsHistory(frozen, sources, graphs)
    ensures Drifted(frozen, UnionAll(sources), graphs[|sources|])
  {
    if sources == [] {
      NothingDrifts(frozen);
    } else {
      var last := |sources| - 1;
      EveryRunDrifts(frozen, sources[..last], graphs[..last + 1]);
      LastApart(sources);
      MergedAuthored(sources[..last]);
      AddDrifts(frozen, UnionAll(sources[..last]), sources[last], graphs[last], graphs[last + 1]);
    }
  }

  lemma AddDrifts(frozen: Classes, a: Graph, s: Graph, g: Graph, h: Graph)
    requires Plain(a) && Plain(s) && Disjoint(a, s) && Timeless(frozen) && Drifted(frozen, a, g)
    requires Ingested(frozen, g, s, h)
    ensures Drifted(frozen, Union(a, s), h)
  {
    IngestedIs(frozen, g, s, h);
    var parent :| Pass(frozen, Union(g, s), parent, h);
    PassIs(frozen, Union(g, s), parent, h);
    FinaliseDrifts(frozen, a, s, g);
    PlainUnion(a, s);
    SliceDrifts(frozen, Union(a, s), Finalise(frozen, Union(g, s)), parent);
  }

  ghost predicate AllAuthored(sources: seq<Graph>) {
    forall i :: 0 <= i < |sources| ==> Authored(sources[i])
  }

  ghost predicate AllDisjoint(sources: seq<Graph>) {
    forall i, j :: 0 <= i < j < |sources| ==> Disjoint(sources[i], sources[j])
  }

  /** `merge_sources` then `derive_all`: pool everything, finalise once, derive once. */
  method DeriveAll(env: Env, compound: bool, sources: seq<Graph>) returns (g: Graph, r: Answer)
    requires WfEnv(env) && AllAuthored(sources) && AllDisjoint(sources)
    requires Levelled(env.frozen, UnionAll(sources)) && Steady(env.frozen, UnionAll(sources))
    ensures Carries(env.frozen, UnionAll(sources), g) && Derives(env, compound, UnionAll(sources), r)
  {
    var merged := EMPTY;
    for i := 0 to |sources|
      invariant merged == UnionAll(sources[..i])
    {
      UnionAllSnoc(sources, i);
      merged := Union(merged, sources[i]);
    }
    assert sources[..|sources|] == sources;
    MergedAuthored(sources);
    g := FinaliseOnce(env, merged);
    r := DeriveAgain(env, compound, g, merged);
  }

  method FinaliseOnce(env: Env, merged: Graph) returns (g: Graph)
    requires Settled(env, merged) && Steady(env.frozen, merged)
    ensures Carries(env.frozen, merged, g)
  {
    FinaliseFirst(env.frozen, merged);
    FormDrifts(env.frozen, merged);
    var parent;
    g, parent := FinaliseStore(env.frozen, merged);
    SliceFaithful(env.frozen, merged, Form(env.frozen, merged), parent);
    CarriesIs(env.frozen, merged, g);
  }

  // ---- namespaces ---------------------------------------------------------------------------

  /** No two of the ids give an instance the same IRI. */
  ghost predicate AllApart(ids: seq<string>) {
    forall i, j :: 0 <= i < j < |ids| ==> !Meet(ids[i], ids[j])
  }

  /** Each source, its instances namespaced by its id. */
  function NamespacedAll(ids: seq<string>, sources: seq<Graph>): (r: seq<Graph>)
    requires |ids| == |sources|
    ensures |r| == |ids| && forall i :: 0 <= i < |ids| ==> r[i] == Namespaced(ids[i], sources[i])
  {
    seq(|ids|, i requires 0 <= i < |ids| => Namespaced(ids[i], sources[i]))
  }

  /** Sources with ids that are pairwise apart keep their instances apart and stay authored. */
  lemma NamespacesApart(ids: seq<string>, sources: seq<Graph>)
    requires |ids| == |sources| && AllApart(ids) && AllAuthored(sources)
    ensures AllDisjoint(NamespacedAll(ids, sources)) && AllAuthored(NamespacedAll(ids, sources))
  {
    forall i, j | 0 <= i < j < |ids| ensures Disjoint(Namespaced(ids[i], sources[i]), Namespaced(ids[j], sources[j])) {
      ApartIffDisjoint(ids[i], ids[j]);
    }
    forall i | 0 <= i < |ids| ensures Authored(Namespaced(ids[i], sources[i])) {
      NamespacedAuthored(ids[i], sources[i]);
    }
  }
}
