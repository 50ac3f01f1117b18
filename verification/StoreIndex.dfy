/** Reading an index off the finalised composition graph: levels are inferred, statements that
    skip a level are set aside, and each instance gets one class. */
module StoreIndex {
  import opened Vocabulary
  import opened Closure
  import opened Levels
  import opened Rollup
  import opened Reach
  import opened Aggregate
  import opened YearSlicer
  import opened YearForm

  /** What does not change between sources: the frozen hierarchy, its declared strategies,
      and the name orders. */
  datatype Env = Env(frozen: set<(Cls, Cls)>, strategy: map<Cls, Strategy>, nodes: seq<Node>, names: seq<Cls>)

  function TypesOf(g: Graph, n: Node): set<Cls> {
    set e {:trigger e in g.types} | e in g.types && e.0 == n && e.1 !in LEVEL_ROOTS :: e.1
  }

  /** The classes of the given instances. */
  function ClassesAt(g: Graph, ns: set<Node>): set<Cls> {
    set e {:trigger e in g.types} | e in g.types && e.0 in ns :: e.1
  }

  /** `t` is a most specific type: no other type of the instance lies below it. */
  ghost predicate IsLeafClass(edges: set<(Cls, Cls)>, types: set<Cls>, t: Cls) {
    t in types && forall o :: o in types && o != t ==> t !in Closure.Reach(edges, {o})
  }

  ghost function LeafClass(edges: set<(Cls, Cls)>, types: set<Cls>): Cls {
    if exists t :: IsLeafClass(edges, types, t) then
      var t :| IsLeafClass(edges, types, t);
      t
    else Named("")
  }

  ghost function ScopeIn(g: Graph, c: Cls): Scope
    requires c in Timed(g)
  {
    var e :| e in g.scope && e.0 == c;
    e.1
  }

  function SliceParents(g: Graph, c: Cls): set<Cls> {
    set e {:trigger e in g.sliceOf} | e in g.sliceOf && e.0 == c :: e.1
  }

  ghost function TimeOf(g: Graph): map<Cls, TimeEntry> {
    map c | c in Timed(g) :: TimeEntry(ScopeIn(g, c), SliceParents(g, c))
  }

  ghost function ClassesOf(frozen: set<(Cls, Cls)>, g: Graph): map<Node, Cls> {
    map n | n in g.level :: LeafClass(frozen + g.sub, TypesOf(g, n))
  }

  function DagOf(g: Graph): Dag {
    Dag(g.parts, g.level, g.depth)
  }

  /** The index of a graph that leaves no choice. */
  ghost function IndexOf(env: Env, g: Graph): Index {
    Index(DagOf(g), ClassesOf(env.frozen, g), TimeOf(g), env.frozen
        + g.sub, env.strategy, g.quality, env.nodes, env.names)
  }

  ghost predicate IsOnlyLeafClass(edges: set<(Cls, Cls)>, types: set<Cls>, t: Cls) {
    forall o :: IsLeafClass(edges, types, o) <==> o == t
  }

  ghost predicate OneLeafClass(edges: set<(Cls, Cls)>, types: set<Cls>) {
    exists t :: IsOnlyLeafClass(edges, types, t)
  }

  predicate OneScope(g: Graph) {
    forall e, f {:trigger e in g.scope, f in g.scope} :: e in g.scope && f in g.scope && e.0 == f.0 ==> e.1 == f.1
  }

  /** The choices `build_index` makes are forced: one most specific type per instance and
      one scope per class. */
  ghost predicate Unambiguous(frozen: set<(Cls, Cls)>, g: Graph) {
    && (forall n :: n in g.level ==> OneLeafClass(frozen + g.sub, TypesOf(g, n)))
    && OneScope(g)
  }

  /** `_leaf_class`: the first type that no other type lies below, else any type. */
  method PickLeafClass(edges: set<(Cls, Cls)>, types: set<Cls>) returns (t: Option<Cls>)
    ensures t.None? <==> types == {}
    ensures t.Some? ==> t.value in types
    ensures (exists o :: IsLeafClass(edges, types, o)) ==> t.Some? && IsLeafClass(edges, types, t.value)
  {
    if types == {} {
      return None;
    }
    var todo := types;
    while todo != {}
      invariant todo <= types && forall o :: o in types - todo ==> !IsLeafClass(edges, types, o)
      decreases todo
    {
      var c :| c in todo;
      if forall o | o in types :: o != c ==> c !in Closure.Reach(edges, {o}) {
        return Some(c);
      }
      todo := todo - {c};
    }
    var c :| c in types;
    t := Some(c);
  }

  /** `t` is one of the types, and a most specific one if there is any. */
  ghost predicate Picks(edges: set<(Cls, Cls)>, types: set<Cls>, t: Cls) {
    t in types && ((exists o :: IsLeafClass(edges, types, o)) ==> IsLeafClass(edges, types, t))
  }

  /** The instances that get a level, and the one each gets. */
  ghost predicate InfersAll(frozen: set<(Cls, Cls)>, g: Graph, level: map<Node, Level>) {
    && (forall n :: n in level ==>
         n in g.level && TypesOf(g, n) != {} && Infers(frozen + g.sub, TypesAt(g, n), Some(level[n])))
    && (forall n :: n in g.level && TypesOf(g, n) != {} && n !in level ==> Infers(frozen + g.sub, TypesAt(g, n), None))
  }

  /** The step-wise statements of a whole at level `l`; the others are coarse. */
  function Steps(level: map<Node, Level>, l: Level, es: seq<Edge>): seq<Edge> {
    if es == [] then []
    else
      var init, e := es[..|es| - 1], es[|es| - 1];
      Steps(level, l, init) + if e.part in level && Near(l, level[e.part]) then [e] else []
  }

  /** The DAG the index keeps: the step-wise statements between instances that got a level. */
  function ReadDag(g: Graph, level: map<Node, Level>): Dag {
    Dag(map n | n in g.parts && n in level && Steps(level, level[n], g.parts[n]) != [] ::
        Steps(level, level[n], g.parts[n]),
        level, g.depth)
  }

  /** `ix` reads `g` with the levels `level` and the statements `dag`; where the graph leaves a
      choice of class or scope, `ix` makes one. Scores of coarse statements are never asked for. */
  ghost predicate IsRead(env: Env, g: Graph, dag: Dag, ix: Index) {
    && ix.dag == dag && ix.sup == env.frozen + g.sub && ix.strategy == env.strategy && ix.quality == g.quality
    && ix.nodes == env.nodes && ix.names == env.names
    && ix.cls.Keys == dag.level.Keys
    && (forall n :: n in dag.level ==> Picks(env.frozen + g.sub, TypesOf(g, n), ix.cls[n]))
    && ix.time.Keys == Timed(g)
    && (forall c :: c in Timed(g) ==> (c, ix.time[c].scope) in g.scope && ix.time[c].slices == SliceParents(g, c))
  }

  /** `ix` is an index of `g`. */
  ghost predicate IsIndex(env: Env, g: Graph, ix: Index) {
    InfersAll(env.frozen, g, ix.dag.level) && IsRead(env, g, ReadDag(g, ix.dag.level), ix)
  }

  /** `ix` is an index of `g` that takes the levels and statements as authored. */
  ghost predicate AsAuthored(env: Env, g: Graph, ix: Index) {
    IsRead(env, g, DagOf(g), ix)
  }

  lemma {:induction false} StepsAmong(level: map<Node, Level>, l: Level, es: seq<Edge>)
    ensures forall e :: e in Steps(level, l, es) ==> e in es && e.part in level
  {
    if es != [] {
      StepsAmong(level, l, es[..|es| - 1]);
      assert es == es[..|es| - 1] + [es[|es| - 1]];
    }
  }

  lemma ReadDagWf(g: Graph, level: map<Node, Level>)
    requires Wf(DagOf(g)) && level.Keys <= g.level.Keys
    ensures Wf(ReadDag(g, level))
  {
    var d := ReadDag(g, level);
    forall n, i | n in d.adj && 0 <= i < |d.adj[n]|
      ensures d.adj[n][i].part in d.level && d.depth[d.adj[n][i].part] < d.depth[n]
    {
      StepsAmong(level, level[n], g.parts[n]);
      assert d.adj[n][i] in d.adj[n];
      var j :| 0 <= j < |g.parts[n]| && g.parts[n][j] == d.adj[n][i];
    }
  }

  /** An index of acyclic statements can be walked. */
  lemma IndexWf(env: Env, g: Graph, ix: Index)
    requires IsIndex(env, g, ix) && Wf(DagOf(g)) && Distinct(env.names) && Distinct(env.nodes)
    ensures WfIndex(ix)
  {
    ReadDagWf(g, ix.dag.level);
  }

  method InferLevels(frozen: set<(Cls, Cls)>, g: Graph) returns (level: map<Node, Level>)
    ensures InfersAll(frozen, g, level)
  {
    level := map[];
    var todo := g.level.Keys;
    while todo != {}
      invariant todo <= g.level.Keys && level.Keys <= g.level.Keys - todo
      invariant forall n :: n in level ==> TypesOf(g, n) != {} && Infers(frozen + g.sub, TypesAt(g, n), Some(level[n]))
      invariant forall n :: n in g.level.Keys - todo && TypesOf(g, n) != {} && n !in level ==>
          Infers(frozen + g.sub, TypesAt(g, n), None)
      decreases todo
    {
      var n :| n in todo;
      var l := LevelOf(frozen + g.sub, TypesAt(g, n));
      if l.Some? && TypesOf(g, n) != {} {
        level := level[n := l.value];
      }
      todo := todo - {n};
    }
  }

  method PickClasses(env: Env, g: Graph, ns: set<Node>) returns (cls: map<Node, Cls>)
    requires forall n :: n in ns ==> TypesOf(g, n) != {}
    ensures cls.Keys == ns && forall n :: n in ns ==> Picks(env.frozen + g.sub, TypesOf(g, n), cls[n])
  {
    cls := map[];
    var todo := ns;
    while todo != {}
      invariant todo <= ns && cls.Keys == ns - todo
      invariant forall n :: n in cls ==> Picks(env.frozen + g.sub, TypesOf(g, n), cls[n])
      decreases todo
    {
      var n :| n in todo;
      var t := PickLeafClass(env.frozen + g.sub, TypesOf(g, n));
      cls, todo := cls[n := t.value], todo - {n};
    }
  }

  /** The scope of each timed class, or a class that has two. */
  method ReadScopes(g: Graph) returns (r: Result<map<Cls, Scope>, Cls>)
    ensures r.Err? <==> !OneScope(g)
    ensures r.Ok? ==> r.value.Keys == Timed(g) && forall c :: c in r.value ==> (c, r.value[c]) in g.scope
  {
    var time: map<Cls, Scope> := map[];
    var scopes := g.scope;
    while scopes != {}
      invariant scopes <= g.scope && forall c :: c in time ==> (c, time[c]) in g.scope - scopes
      invariant forall e :: e in g.scope - scopes ==> e.0 in time && time[e.0] == e.1
      decreases scopes
    {
      var e :| e in scopes;
      if e.0 in time && time[e.0] != e.1 {
        assert (e.0, time[e.0]) in g.scope;
        return Err(e.0);
      }
      time, scopes := time[e.0 := e.1], scopes - {e};
    }
    r := Ok(time);
  }

  /** `build_index`: two scopes on one class are an error. */
  method BuildIndex(env: Env, g: Graph) returns (r: Result<Index, Cls>)
    ensures r.Err? <==> !OneScope(g)
    ensures r.Ok? ==> IsIndex(env, g, r.value)
  {
    var time := ReadScopes(g);
    if time.Err? {
      return Err(time.error);
    }
    var level := InferLevels(env.frozen, g);
    var cls := PickClasses(env, g, level.Keys);
    var entries := map c | c in Timed(g) :: TimeEntry(time.value[c], SliceParents(g, c));
    r := Ok(Index(ReadDag(g, level), cls, entries, env.frozen + g.sub, env.strategy, g.quality, env.nodes, env.names));
  }

  /** An unambiguous graph has one index with the levels as authored. */
  lemma OneIndex(env: Env, g: Graph, ix: Index)
    requires Unambiguous(env.frozen, g) && AsAuthored(env, g, ix)
    ensures ix == IndexOf(env, g)
  {
    forall n | n in g.level ensures ix.cls[n] == LeafClass(env.frozen + g.sub, TypesOf(g, n)) {
      ghost var only :| IsOnlyLeafClass(env.frozen + g.sub, TypesOf(g, n), only);
      assert IsLeafClass(env.frozen + g.sub, TypesOf(g, n), only);
    }
    forall c | c in Timed(g) ensures ix.time[c] == TimeOf(g)[c] {
      assert (c, ScopeIn(g, c)) in g.scope;
    }
    assert ix.cls == ClassesOf(env.frozen, g) && ix.time == TimeOf(g);
  }

  // ---- levels as authored ------------------------------------------------------------------

  /** Every type of every instance gives the level it was authored at, and every statement is
      step-wise. */
  ghost predicate LevelsStand(frozen: set<(Cls, Cls)>, g: Graph) {
    && (forall n :: n in g.level ==> TypesOf(g, n) != {})
    && (forall n, c :: n in g.level && c in TypesAt(g, n) ==> LevelFrom(frozen + g.sub, c) == Some(g.level[n]))
    && StepWise(DagOf(g))
  }

  lemma {:induction false} AllSteps(level: map<Node, Level>, l: Level, es: seq<Edge>)
    requires forall e :: e in es ==> e.part in level && Near(l, level[e.part])
    ensures Steps(level, l, es) == es
  {
    if es != [] {
      AllSteps(level, l, es[..|es| - 1]);
      assert es == es[..|es| - 1] + [es[|es| - 1]];
    }
  }

  lemma DagRead(g: Graph)
    requires Wf(DagOf(g)) && StepWise(DagOf(g)) && forall n :: n in g.parts ==> g.parts[n] != []
    ensures ReadDag(g, g.level) == DagOf(g)
  {
    forall n | n in g.parts ensures Steps(g.level, g.level[n], g.parts[n]) == g.parts[n] {
      forall e | e in g.parts[n] ensures e.part in g.level && Near(g.level[n], g.level[e.part]) {
        var i :| 0 <= i < |g.parts[n]| && g.parts[n][i] == e;
        assert Edges(DagOf(g), n)[i].part == e.part;
      }
      AllSteps(g.level, g.level[n], g.parts[n]);
    }
  }

  /** Where the levels stand, an index takes them and the statements as authored. */
  lemma StandsAsAuthored(env: Env, g: Graph, ix: Index)
    requires LevelsStand(env.frozen, g) && Wf(DagOf(g)) && (forall n :: n in g.parts ==> g.parts[n] != [])
    requires IsIndex(env, g, ix)
    ensures AsAuthored(env, g, ix)
  {
    assert ix.dag.level == g.level by {
      forall n | n in g.level ensures n in ix.dag.level && ix.dag.level[n] == g.level[n] {
        OneLevel(env.frozen + g.sub, TypesAt(g, n), if n in ix.dag.level then Some(ix.dag.level[n]) else None,
                 g.level[n]);
      }
    }
    DagRead(g);
  }

  // ---- authored content -------------------------------------------------------------------

  /** `c` is the one class `n` is typed by. */
  ghost predicate TypedBy(g: Graph, n: Node, c: Cls) {
    c !in LEVEL_ROOTS && forall o :: (n, o) in g.types <==> o == c
  }

  ghost predicate HasOneType(g: Graph, n: Node) {
    exists c :: TypedBy(g, n, c)
  }

  /** Authored content whose instances have one class each. */
  ghost predicate Classified(g: Graph) {
    Plain(g) && forall n {:trigger HasOneType(g, n)} :: n in g.level ==> HasOneType(g, n)
  }

  /** Classified content whose statements form a DAG and state something of every whole. */
  ghost predicate Authored(g: Graph) {
    && Classified(g)
    && Wf(DagOf(g))
    && g.depth.Keys == g.level.Keys
    && (forall n :: n in g.parts ==> g.parts[n] != [])
    && (forall q {:trigger q in g.quality} :: q in g.quality ==> q.0 in g.level)
  }

  ghost function BaseOf(g: Graph, n: Node): Cls
    requires Classified(g) && n in g.level
    ensures TypedBy(g, n, BaseOf(g, n))
  {
    assert HasOneType(g, n);
    var c :| TypedBy(g, n, c);
    c
  }

  /** Under the subclass edges `sup` the class of `n` gives the level it is authored at. */
  ghost predicate LevelGiven(sup: set<(Cls, Cls)>, g: Graph, n: Node)
    requires Classified(g) && n in g.level
  {
    LevelFrom(sup, BaseOf(g, n)) == Some(g.level[n])
  }

  ghost predicate LevelsGiven(sup: set<(Cls, Cls)>, g: Graph)
    requires Classified(g)
  {
    forall n {:trigger LevelGiven(sup, g, n)} :: n in g.level ==> LevelGiven(sup, g, n)
  }

  /** Every instance gets the level it is authored at, and every statement is step-wise. */
  ghost predicate Levelled(frozen: set<(Cls, Cls)>, g: Graph) {
    Classified(g) && LevelsGiven(frozen + g.sub, g) && StepWise(DagOf(g))
  }

  /** The class an instance aggregates under: its year slice if it has a time. */
  ghost function StampOf(g: Graph, n: Node): Cls
    requires Classified(g) && n in g.level
  {
    if n in g.when then Slice(BaseOf(g, n), g.when[n]) else BaseOf(g, n)
  }

  // ---- the members of a finalised graph ---------------------------------------------------

  predicate IsDown(lifted: set<(Cls, Scope)>, e: (Cls, Cls)) {
    e.0.Slice? && e.1 == e.0.base && (e.0.base, e.0.scope) in lifted
  }

  predicate IsCopy(tax: set<(Cls, Cls)>, lifted: set<(Cls, Scope)>, e: (Cls, Cls)) {
    e.0.Slice? && e.1.Slice? && e.0.scope == e.1.scope && (e.0.base, e.1.base) in tax && (e.0.base, e.0.scope) in lifted
  }

  lemma DownsMember(lifted: set<(Cls, Scope)>, e: (Cls, Cls))
    ensures e in Downs(lifted) <==> IsDown(lifted, e)
  {
    if IsDown(lifted, e) {
      assert (e.0.base, e.0.scope) in lifted;
    }
  }

  lemma CopiesMember(tax: set<(Cls, Cls)>, lifted: set<(Cls, Scope)>, e: (Cls, Cls))
    ensures e in Copies(tax, lifted) <==> IsCopy(tax, lifted, e)
  {
    if IsCopy(tax, lifted, e) {
      var f, m := (e.0.base, e.1.base), (e.0.base, e.0.scope);
      assert f in tax && m in lifted && f.0 == m.0;
    }
  }

  /** A subclass edge of the finalised graph is authored, points down from a slice to the
      class it slices, or copies a taxonomy edge at a scope. */
  lemma FormEdge(frozen: set<(Cls, Cls)>, g: Graph, e: (Cls, Cls))
    ensures e in Form(frozen, g).sub
         <==> e in g.sub || IsDown(Lifted(frozen, g), e) || IsCopy(Tax(frozen, g), Lifted(frozen, g), e)
  {
    DownsMember(Lifted(frozen, g), e);
    CopiesMember(Tax(frozen, g), Lifted(frozen, g), e);
  }

  lemma StampedType(g: Graph, n: Node, c: Cls)
    ensures (n, c) in StampedTypes(g) <==> c.Slice? && IsStamp(g, (n, c.base)) && c.scope == g.when[n]
  {
    if c.Slice? && IsStamp(g, (n, c.base)) && c.scope == g.when[n] {
      var e := (n, c.base);
      assert e in g.types && IsStamp(g, e);
    }
  }

  lemma TypeOfForm(frozen: set<(Cls, Cls)>, g: Graph, n: Node, c: Cls)
    requires Classified(g) && n in g.level
    ensures var b := BaseOf(g, n); (n, c) in Form(frozen, g).types <==> c == b || (n in g.when && c == Slice(b, g.when[n]))
  {
    StampedType(g, n, c);
  }

  lemma TypesExactly(f: Graph, n: Node, types: set<Cls>)
    requires forall c :: (n, c) in f.types <==> c in types
    requires types !! LEVEL_ROOTS
    ensures TypesOf(f, n) == types
  {
    forall c | c in types ensures c in TypesOf(f, n) {
      assert (n, c) in f.types;
    }
  }

  lemma StampIsLifted(frozen: set<(Cls, Cls)>, g: Graph, n: Node)
    requires Classified(g) && n in g.level && n in g.when
    ensures (BaseOf(g, n), g.when[n]) in Stamped(g) && (BaseOf(g, n), g.when[n]) in Lifted(frozen, g)
  {
    assert IsStamp(g, (n, BaseOf(g, n)));
    LiftSelf(Tax(frozen, g), Stamped(g));
  }

  lemma SliceBelowBase(frozen: set<(Cls, Cls)>, g: Graph, b: Cls, t: Scope)
    requires (b, t) in Lifted(frozen, g)
    ensures b in Closure.Reach(frozen + Form(frozen, g).sub, {Slice(b, t)})
  {
    var edges, e := frozen + Form(frozen, g).sub, (Slice(b, t), b);
    FormEdge(frozen, g, e);
    OneStep(edges, e.0, e.1);
  }

  lemma OneStep<T>(edges: set<(T, T)>, x: T, y: T)
    requires (x, y) in edges
    ensures y in Closure.Reach(edges, {x})
  {
    assert y in Image(edges, Closure.Reach(edges, {x}));
  }

  lemma LeafOfTwo(edges: set<(Cls, Cls)>, low: Cls, high: Cls)
    requires low != high && high in Closure.Reach(edges, {low}) && low !in Closure.Reach(edges, {high})
    ensures IsOnlyLeafClass(edges, {high, low}, low)
  {
  }

  /** An instance's leaf class in the finalised graph is its stamp. */
  lemma LeafClassOfForm(frozen: set<(Cls, Cls)>, g: Graph, n: Node)
    requires Classified(g) && Timeless(frozen) && n in g.level
    ensures var edges, types := frozen + Form(frozen, g).sub, TypesOf(Form(frozen, g), n);
            IsOnlyLeafClass(edges, types, StampOf(g, n)) && LeafClass(edges, types) == StampOf(g, n)
  {
    var b := BaseOf(g, n);
    assert var b := BaseOf(g, n);
           TypesOf(Form(frozen, g), n) == if n in g.when then {b, Slice(b, g.when[n])} else {b} by {
      var b, f := BaseOf(g, n), Form(frozen, g);
      forall c ensures (n, c) in f.types <==> c == b || (n in g.when && c == Slice(b, g.when[n])) {
        TypeOfForm(frozen, g, n, c);
      }
      if n in g.when {
        TypesExactly(f, n, {b, Slice(b, g.when[n])});
      } else {
        TypesExactly(f, n, {b});
      }
    }
    if n in g.when {
      assert forall c :: c in Closure.Reach(frozen + Form(frozen, g).sub, {b}) ==> c.Named? by {
        var edges := frozen + Form(frozen, g).sub;
        var r := Closure.Reach(edges, {b});
        var named := set c | c in r && c.Named?;
        forall e | e in edges && e.0 in named ensures e.1 in named {
          FormEdge(frozen, g, e);
          assert e.1 in Image(edges, r);
        }
        ReachLeast(edges, {b}, named);
      }
      StampIsLifted(frozen, g, n);
      SliceBelowBase(frozen, g, b, g.when[n]);
      LeafOfTwo(frozen + Form(frozen, g).sub, Slice(b, g.when[n]), b);
    }
    assert LeafClass(frozen + Form(frozen, g).sub, TypesOf(Form(frozen, g), n)) == StampOf(g, n) by {
      assert IsLeafClass(frozen + Form(frozen, g).sub, TypesOf(Form(frozen, g), n), StampOf(g, n));
    }
  }

  lemma ScopeMember(lifted: set<(Cls, Scope)>, e: (Cls, Scope))
    ensures e in Scopes(lifted) <==> e.0.Slice? && e.1 == e.0.scope && (e.0.base, e.0.scope) in lifted
  {
    if e.0.Slice? && e.1 == e.0.scope && (e.0.base, e.0.scope) in lifted {
      var m := (e.0.base, e.0.scope);
      assert m in lifted && e == (Slice(m.0, m.1), m.1);
    }
  }

  /** The finalised graph is unambiguous, so `build_index` is a function of it. */
  lemma FormUnambiguous(frozen: set<(Cls, Cls)>, g: Graph)
    requires Classified(g) && Timeless(frozen)
    ensures Unambiguous(frozen, Form(frozen, g))
  {
    var f := Form(frozen, g);
    forall n | n in f.level ensures OneLeafClass(frozen + f.sub, TypesOf(f, n)) {
      LeafClassOfForm(frozen, g, n);
    }
    forall e | e in f.scope ensures e.0.Slice? && e.1 == e.0.scope {
      ScopeMember(Lifted(frozen, g), e);
    }
  }

  lemma ClassInForm(frozen: set<(Cls, Cls)>, g: Graph, n: Node)
    requires Classified(g) && Timeless(frozen) && n in g.level
    ensures ClassesOf(frozen, Form(frozen, g))[n] == StampOf(g, n)
  {
    LeafClassOfForm(frozen, g, n);
  }

  ghost predicate IsSliceOf(lifted: set<(Cls, Scope)>, c: Cls) {
    c.Slice? && (c.base, c.scope) in lifted
  }

  /** The timed classes of the finalised graph are the lifted slices. */
  lemma TimeOfForm(frozen: set<(Cls, Cls)>, g: Graph, c: Cls)
    requires Plain(g)
    ensures var time := TimeOf(Form(frozen, g));
            && (c in time <==> IsSliceOf(Lifted(frozen, g), c))
            && (c in time ==> time[c] == TimeEntry(c.scope, {c.base}))
  {
    var f, lifted := Form(frozen, g), Lifted(frozen, g);
    assert f.scope == Scopes(lifted);
    forall e: (Cls, Scope) | e.0 == c ensures e in f.scope <==> IsSliceOf(lifted, c) && e.1 == c.scope {
      ScopeMember(lifted, e);
    }
    if IsSliceOf(lifted, c) {
      assert (c, c.scope) in f.scope;
      assert SliceParents(Form(frozen, g), c) == {c.base} by {
        var f := Form(frozen, g);
        forall e: (Cls, Cls) | e.0 == c ensures e in f.sliceOf <==> e.1 == c.base {
          DownsMember(Lifted(frozen, g), e);
        }
        assert (c, c.base) in f.sliceOf;
      }
    }
  }
}
