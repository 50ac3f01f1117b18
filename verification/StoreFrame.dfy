/** Adding a source to a finalised store: which classes its new instances can reach, and
    why every other class keeps its rows. */
module StoreFrame {
  import opened Vocabulary
  import opened Closure
  import opened Hierarchy
  import opened Rollup
  import opened Reach
  import opened Aggregate
  import opened YearSlicer
  import opened YearForm
  import opened StoreIndex
  import opened Frame
  import opened LeafFrame

  /** Wholes that are never a part. */
  function TopNodes(g: Graph): set<Node> {
    g.parts.Keys - PartsOf(g.parts)
  }

  function PartsOf(parts: map<Node, seq<Edge>>): set<Node> {
    set n, i | n in parts && 0 <= i < |parts[n]| :: parts[n][i].part
  }

  function TimedTops(g: Graph): set<Node> {
    set n | n in TopNodes(g) && n in g.when
  }

  function UntimedTops(g: Graph): set<Node> {
    set n | n in TopNodes(g) && n !in g.when
  }

  /** Top instances of the levels that must carry a time. */
  function FamilyTops(g: Graph): set<Node> {
    set n | n in TopNodes(g) && n in g.level && (g.level[n] == Product || g.level[n] == Component)
  }

  /** The classes of the top instances and everything above them. */
  function Used(frozen: set<(Cls, Cls)>, g: Graph): set<Cls> {
    Closure.Reach(Tax(frozen, g), ClassesAt(g, TopNodes(g)))
  }

  /** Taxonomy edges the source puts above a class that is already in use. */
  function NewEdges(frozen: set<(Cls, Cls)>, a: Graph, s: Graph): set<(Cls, Cls)> {
    set e {:trigger e in Tax(frozen, Union(a, s))}
        | e in Tax(frozen, Union(a, s)) && e.0 in Used(frozen, a) && e !in Tax(frozen, a) :: e
  }

  /** Everything above the timed new top instances and above the new edges. */
  function Raised(frozen: set<(Cls, Cls)>, a: Graph, s: Graph): set<Cls> {
    Closure.Reach(Tax(frozen, Union(a, s)), ClassesAt(s, TimedTops(s)) + Targets(NewEdges(frozen, a, s)))
  }

  /** Everything above the classes of Product and Component tops. */
  function FamilyReach(frozen: set<(Cls, Cls)>, g: Graph): set<Cls> {
    Closure.Reach(Tax(frozen, g), ClassesAt(g, FamilyTops(g)))
  }

  /** Everything an untimed new top instance rolls up into: the gate admits no untimed class
      into a class above a Product or Component. */
  function Loose(frozen: set<(Cls, Cls)>, a: Graph, s: Graph): set<Cls> {
    Closure.Reach(Tax(frozen, Union(a, s)), ClassesAt(s, UntimedTops(s))) - FamilyReach(frozen, Union(a, s))
  }

  /** Classes together with their slices. */
  function AtScopes(cs: set<Cls>, lifted: set<(Cls, Scope)>): set<Cls> {
    cs + set m {:trigger m in lifted} | m in lifted && m.0 in cs :: Slice(m.0, m.1)
  }

  /** The raised classes at every scope. */
  function RaisedSlices(frozen: set<(Cls, Cls)>, a: Graph, s: Graph): set<Cls> {
    AtScopes(Raised(frozen, a, s), Lifted(frozen, Union(a, s)))
  }

  /** Every class whose row the source can change. */
  function Touched(frozen: set<(Cls, Cls)>, a: Graph, s: Graph): set<Cls> {
    RaisedSlices(frozen, a, s) + ClassesAt(s, UntimedTops(s)) + Loose(frozen, a, s)
  }

  /** A finalised store `a` and a source `s` with fresh instances; every instance gets the level
      it is authored at, before and after. */
  ghost predicate Arrival(frozen: set<(Cls, Cls)>, a: Graph, s: Graph) {
    && Authored(a) && Authored(s) && Disjoint(a, s) && Timeless(frozen)
    && Levelled(frozen, a) && Levelled(frozen, Union(a, s))
  }

  /** Every Product and Component top instance carries a time; without one the derive is refused. */
  ghost predicate FamilyTimed(g: Graph) {
    forall n :: n in FamilyTops(g) ==> n in g.when
  }

  ghost function IndexOfForm(env: Env, g: Graph): Index {
    IndexOf(env, Form(env.frozen, g))
  }

  // ---- the union of authored contents ----------------------------------------------------

  lemma TypesUnion(a: Graph, s: Graph, n: Node, c: Cls)
    requires Plain(a) && Plain(s) && Disjoint(a, s)
    ensures n in a.level ==> (TypedBy(Union(a, s), n, c) <==> TypedBy(a, n, c))
    ensures n in s.level ==> (TypedBy(Union(a, s), n, c) <==> TypedBy(s, n, c))
  {
    var u := Union(a, s);
    forall o ensures n in a.level ==> ((n, o) in u.types <==> (n, o) in a.types)
      ensures n in s.level ==> ((n, o) in u.types <==> (n, o) in s.types)
    {
    }
  }

  lemma ClassifiedUnion(a: Graph, s: Graph)
    requires Classified(a) && Classified(s) && Disjoint(a, s)
    ensures Classified(Union(a, s))
    ensures forall n :: n in a.level ==> StampOf(Union(a, s), n) == StampOf(a, n)
    ensures forall n :: n in s.level ==> StampOf(Union(a, s), n) == StampOf(s, n)
  {
    var u := Union(a, s);
    PlainUnion(a, s);
    forall n | n in u.level ensures HasOneType(u, n) {
      var g := if n in a.level then a else s;
      TypesUnion(a, s, n, BaseOf(g, n));
    }
    forall n | n in a.level ensures StampOf(u, n) == StampOf(a, n) {
      TypesUnion(a, s, n, BaseOf(a, n));
      SameStamp(u, a, n);
    }
    forall n | n in s.level ensures StampOf(u, n) == StampOf(s, n) {
      TypesUnion(a, s, n, BaseOf(s, n));
      SameStamp(u, s, n);
    }
  }

  lemma SameStamp(u: Graph, g: Graph, n: Node)
    requires Classified(u) && Classified(g) && n in u.level && n in g.level
    requires TypedBy(u, n, BaseOf(g, n))
    requires n in u.when <==> n in g.when
    requires n in g.when ==> u.when[n] == g.when[n]
    ensures StampOf(u, n) == StampOf(g, n)
  {
    assert (n, BaseOf(g, n)) in u.types;
  }

  lemma WfUnion(a: Graph, s: Graph)
    requires Wf(DagOf(a)) && Wf(DagOf(s)) && Disjoint(a, s)
    requires a.depth.Keys == a.level.Keys && s.depth.Keys == s.level.Keys
    ensures Wf(DagOf(Union(a, s)))
  {
    var u := Union(a, s);
    forall n, i | n in u.parts && 0 <= i < |u.parts[n]|
      ensures u.parts[n][i].part in u.level && u.depth[u.parts[n][i].part] < u.depth[n]
    {
      if n in s.parts {
        assert u.parts[n] == s.parts[n];
      } else {
        assert u.parts[n] == a.parts[n];
      }
    }
  }

  lemma GrowsUnion(a: Graph, s: Graph)
    requires Wf(DagOf(a)) && Wf(DagOf(s)) && Disjoint(a, s)
    requires a.depth.Keys == a.level.Keys && s.depth.Keys == s.level.Keys
    ensures Grows(DagOf(a), DagOf(Union(a, s)))
  {
    WfUnion(a, s);
    forall n | n in a.level ensures Edges(DagOf(Union(a, s)), n) == Edges(DagOf(a), n) {
      assert n !in s.parts;
    }
  }

  lemma AuthoredUnion(a: Graph, s: Graph)
    requires Authored(a) && Authored(s) && Disjoint(a, s)
    ensures Authored(Union(a, s))
  {
    assert Classified(Union(a, s)) by {
      ClassifiedUnion(a, s);
    }
    WfUnion(a, s);
  }

  // ---- known classes ---------------------------------------------------------------------

  /** In use, or the slice of a class in use. */
  ghost predicate Known(frozen: set<(Cls, Cls)>, g: Graph, c: Cls) {
    c in Used(frozen, g) || (IsSliceOf(Lifted(frozen, g), c) && c.base in Used(frozen, g))
  }

  lemma UsedNamed(frozen: set<(Cls, Cls)>, g: Graph)
    requires Plain(g) && Timeless(frozen)
    ensures forall c :: c in Used(frozen, g) ==> c.Named?
  {
    assert forall e :: e in Tax(frozen, g) ==> e.1.Named?;
    ReachTargets(Tax(frozen, g), ClassesAt(g, TopNodes(g)));
  }

  lemma RaisedNamed(frozen: set<(Cls, Cls)>, a: Graph, s: Graph)
    requires Plain(a) && Plain(s) && Timeless(frozen)
    ensures forall c :: c in Raised(frozen, a, s) ==> c.Named?
  {
    assert forall e :: e in Tax(frozen, Union(a, s)) ==> e.1.Named?;
    ReachTargets(Tax(frozen, Union(a, s)), ClassesAt(s, TimedTops(s)) + Targets(NewEdges(frozen, a, s)));
  }

  lemma LiftedMonotone(frozen: set<(Cls, Cls)>, a: Graph, s: Graph)
    requires Plain(a) && Plain(s) && Disjoint(a, s)
    ensures Lifted(frozen, a) <= Lifted(frozen, Union(a, s)) && Tax(frozen, a) <= Tax(frozen, Union(a, s))
  {
    UnionStamps(a, s);
    LiftAgain(Tax(frozen, a), Tax(frozen, Union(a, s)), Stamped(a), Stamped(Union(a, s)));
  }

  ghost function Sup(frozen: set<(Cls, Cls)>, g: Graph): set<(Cls, Cls)> {
    frozen + Form(frozen, g).sub
  }

  lemma SupMonotone(frozen: set<(Cls, Cls)>, a: Graph, s: Graph)
    requires Plain(a) && Plain(s) && Disjoint(a, s)
    ensures Sup(frozen, a) <= Sup(frozen, Union(a, s))
  {
    LiftedMonotone(frozen, a, s);
    forall e | e in Sup(frozen, a) ensures e in Sup(frozen, Union(a, s)) {
      FormEdge(frozen, a, e);
      FormEdge(frozen, Union(a, s), e);
    }
  }

  /** A superclass edge of the finalised graph, by the kind of class it leaves. */
  lemma SupEdge(frozen: set<(Cls, Cls)>, g: Graph, e: (Cls, Cls))
    requires Plain(g) && Timeless(frozen)
    ensures e.0.Named? && e.1 !in LEVEL_ROOTS ==> (e in Sup(frozen, g) <==> e in Tax(frozen, g))
    ensures e.0.Slice? ==>
        (e in Sup(frozen, g) <==> IsDown(Lifted(frozen, g), e) || IsCopy(Tax(frozen, g), Lifted(frozen, g), e))
    ensures e.0.ValueLeaf? ==> e !in Sup(frozen, g)
  {
    FormEdge(frozen, g, e);
  }

  lemma LiftedAbove(frozen: set<(Cls, Cls)>, g: Graph, x: Cls, p: Cls, t: Scope)
    requires (x, t) in Lifted(frozen, g) && (x, p) in Tax(frozen, g)
    ensures (p, t) in Lifted(frozen, g)
  {
    SlicesFollowTaxonomy(frozen, g, x, p, t);
  }

  lemma AtScopesMember(cs: set<Cls>, lifted: set<(Cls, Scope)>, c: Cls, t: Scope)
    requires c in cs && (c, t) in lifted
    ensures Slice(c, t) in AtScopes(cs, lifted)
  {
    var m := (c, t);
    assert m in lifted && m.0 in cs;
  }

  /** Classes closed under the taxonomy stay closed when their slices are added. */
  lemma SlicesClosed(frozen: set<(Cls, Cls)>, g: Graph, cs: set<Cls>, e: (Cls, Cls))
    requires Plain(g) && Timeless(frozen) && Closed(Tax(frozen, g), cs) && forall c :: c in cs ==> c.Named?
    requires e in Sup(frozen, g) && e.1 !in LEVEL_ROOTS && e.0 in AtScopes(cs, Lifted(frozen, g))
    ensures e.1 in AtScopes(cs, Lifted(frozen, g))
  {
    var tax, lifted := Tax(frozen, g), Lifted(frozen, g);
    SupEdge(frozen, g, e);
    if e.0.Named? {
      assert e.1 in Image(tax, cs);
    } else if IsCopy(tax, lifted, e) {
      assert (e.0.base, e.1.base) in tax && e.1.base in Image(tax, cs);
      LiftedAbove(frozen, g, e.0.base, e.1.base, e.0.scope);
      AtScopesMember(cs, lifted, e.1.base, e.0.scope);
    }
  }

  lemma RaisedUpward(frozen: set<(Cls, Cls)>, a: Graph, s: Graph, e: (Cls, Cls))
    requires Arrival(frozen, a, s) && e in Sup(frozen, Union(a, s)) && e.1 !in LEVEL_ROOTS
    requires e.0 in RaisedSlices(frozen, a, s)
    ensures e.1 in RaisedSlices(frozen, a, s)
  {
    PlainUnion(a, s);
    RaisedNamed(frozen, a, s);
    SlicesClosed(frozen, Union(a, s), Raised(frozen, a, s), e);
  }

  /** An edge out of a known class is old and leads to a known class, or leads to a raised one. */
  lemma KnownEdge(frozen: set<(Cls, Cls)>, a: Graph, s: Graph, e: (Cls, Cls))
    requires Arrival(frozen, a, s) && Known(frozen, a, e.0) && e.1 !in LEVEL_ROOTS
    requires e in Sup(frozen, Union(a, s))
    ensures (e in Sup(frozen, a) && Known(frozen, a, e.1)) || e.1 in RaisedSlices(frozen, a, s)
  {
    PlainUnion(a, s);
    UsedNamed(frozen, a);
    SupEdge(frozen, Union(a, s), e);
    SupEdge(frozen, a, e);
    if e.0.Named? {
      KnownNamedEdge(frozen, a, s, e);
    } else if IsCopy(Tax(frozen, Union(a, s)), Lifted(frozen, Union(a, s)), e) {
      KnownCopy(frozen, a, s, e);
    }
  }

  lemma KnownNamedEdge(frozen: set<(Cls, Cls)>, a: Graph, s: Graph, e: (Cls, Cls))
    requires e in Tax(frozen, Union(a, s)) && e.0 in Used(frozen, a)
    ensures (e in Tax(frozen, a) && e.1 in Used(frozen, a)) || e.1 in Raised(frozen, a, s)
  {
    if e in Tax(frozen, a) {
      assert e.1 in Image(Tax(frozen, a), Used(frozen, a));
    } else {
      assert e.1 in Raised(frozen, a, s) by {
        assert e in NewEdges(frozen, a, s);
        assert e.1 in Targets(NewEdges(frozen, a, s));
      }
    }
  }

  lemma KnownCopy(frozen: set<(Cls, Cls)>, a: Graph, s: Graph, e: (Cls, Cls))
    requires Arrival(frozen, a, s) && Known(frozen, a, e.0) && e.0.Slice? && e.0.base in Used(frozen, a)
    requires IsSliceOf(Lifted(frozen, a), e.0) && IsCopy(Tax(frozen, Union(a, s)), Lifted(frozen, Union(a, s)), e)
    ensures (IsCopy(Tax(frozen, a), Lifted(frozen, a), e) && Known(frozen, a, e.1)) || e.1 in RaisedSlices(frozen, a, s)
  {
    var x, y, t := e.0.base, e.1.base, e.0.scope;
    KnownNamedEdge(frozen, a, s, (x, y));
    if y in Raised(frozen, a, s) {
      LiftedAbove(frozen, Union(a, s), x, y, t);
      AtScopesMember(Raised(frozen, a, s), Lifted(frozen, Union(a, s)), y, t);
    } else {
      LiftedAbove(frozen, a, x, y, t);
    }
  }

  /** The old ancestors of a known class are known. */
  lemma ReachKnown(frozen: set<(Cls, Cls)>, a: Graph, c: Cls)
    requires Authored(a) && Timeless(frozen) && Known(frozen, a, c)
    ensures forall x :: x in Closure.Reach(Taxonomy(Sup(frozen, a)), {c}) ==> Known(frozen, a, x)
  {
    var few := Taxonomy(Sup(frozen, a));
    var used := Used(frozen, a);
    var all := AtScopes(used, Lifted(frozen, a));
    UsedNamed(frozen, a);
    if c !in used {
      AtScopesMember(used, Lifted(frozen, a), c.base, c.scope);
    }
    forall e | e in few && e.0 in all ensures e.1 in all {
      SlicesClosed(frozen, a, used, e);
    }
    ReachLeast(few, {c}, all);
  }

  lemma WideReach(small: set<(Cls, Cls)>, big: set<(Cls, Cls)>, c: Cls, raised: set<Cls>)
    requires small <= big
    requires forall e :: e in big && e.0 in Closure.Reach(small, {c}) ==> e in small || e.1 in raised
    requires forall e :: e in big && e.0 in raised ==> e.1 in raised
    ensures Closure.Reach(small, {c}) <= Closure.Reach(big, {c}) <= Closure.Reach(small, {c}) + raised
  {
    var r := Closure.Reach(small, {c});
    forall e | e in big && e.0 in r + raised ensures e.1 in r + raised {
      if e in small && e.0 in r {
        assert e.1 in Image(small, r);
      }
    }
    ReachLeast(big, {c}, r + raised);
    ReachMonotone(small, {c}, big, {c});
  }

  /** A known class keeps its ancestors; the ones it gains are raised. */
  lemma KnownAncestors(frozen: set<(Cls, Cls)>, a: Graph, s: Graph, c: Cls)
    requires Arrival(frozen, a, s) && Known(frozen, a, c)
    ensures var few := Ancestors(Sup(frozen, a), c);
            && few <= Ancestors(Sup(frozen, Union(a, s)), c) <= few + RaisedSlices(frozen, a, s)
            && forall x :: x in few ==> Known(frozen, a, x)
  {
    var few, wide := Taxonomy(Sup(frozen, a)), Taxonomy(Sup(frozen, Union(a, s)));
    SupMonotone(frozen, a, s);
    ReachKnown(frozen, a, c);
    forall e | e in wide && e.0 in Closure.Reach(few, {c}) ensures e in few || e.1 in RaisedSlices(frozen, a, s) {
      KnownEdge(frozen, a, s, e);
    }
    forall e | e in wide && e.0 in RaisedSlices(frozen, a, s) ensures e.1 in RaisedSlices(frozen, a, s) {
      RaisedUpward(frozen, a, s, e);
    }
    WideReach(few, wide, c, RaisedSlices(frozen, a, s));
  }

  lemma TopTyped(g: Graph, n: Node, tops: set<Node>)
    requires Classified(g) && n in g.level && n in tops
    ensures BaseOf(g, n) in ClassesAt(g, tops) && BaseOf(g, n) !in LEVEL_ROOTS && BaseOf(g, n).Named?
  {
    var e := (n, BaseOf(g, n));
    assert e in g.types && e.0 in tops;
  }

  lemma StampKnown(frozen: set<(Cls, Cls)>, g: Graph, n: Node)
    requires Classified(g) && n in TopNodes(g)
    ensures n in g.level && Known(frozen, g, StampOf(g, n)) && StampOf(g, n) !in LEVEL_ROOTS
  {
    TopTyped(g, n, TopNodes(g));
    if n in g.when {
      StampIsLifted(frozen, g, n);
    }
  }

  // ---- the index of a finalised graph -------------------------------------------------------

  lemma TopsOfIndex(ix: Index, g: Graph)
    requires ix.dag.adj == g.parts
    ensures Tops(ix) == TopNodes(g)
  {
  }

  lemma FormIndex(env: Env, g: Graph)
    requires Authored(g) && Timeless(env.frozen)
    ensures var ix := IndexOfForm(env, g);
            && ix.dag == DagOf(g) && ix.sup == Sup(env.frozen, g) && ix.quality == g.quality
            && ix.cls.Keys == g.level.Keys && Tops(ix) == TopNodes(g)
            && forall n :: n in g.level ==> ix.cls[n] == StampOf(g, n)
  {
    var ix := IndexOfForm(env, g);
    TopsOfIndex(ix, g);
    forall n | n in g.level ensures ix.cls[n] == StampOf(g, n) {
      ClassInForm(env.frozen, g, n);
    }
  }

  lemma PartsUnion(a: map<Node, seq<Edge>>, b: map<Node, seq<Edge>>)
    requires a.Keys !! b.Keys
    ensures PartsOf(a + b) == PartsOf(a) + PartsOf(b)
  {
    var u := a + b;
    forall n, i | n in a && 0 <= i < |a[n]| ensures a[n][i].part in PartsOf(u) {
      assert u[n] == a[n];
    }
    forall n, i | n in b && 0 <= i < |b[n]| ensures b[n][i].part in PartsOf(u) {
      assert u[n] == b[n];
    }
  }

  lemma PartsWithin(g: Graph)
    requires Wf(DagOf(g))
    ensures PartsOf(g.parts) <= g.level.Keys && g.parts.Keys <= g.level.Keys
  {
  }

  lemma TopsOfUnion(a: Graph, s: Graph)
    requires Authored(a) && Authored(s) && Disjoint(a, s)
    ensures TopNodes(Union(a, s)) == TopNodes(a) + TopNodes(s)
  {
    PartsWithin(a);
    PartsWithin(s);
    PartsUnion(a.parts, s.parts);
  }

  /** The source says nothing of the quality of the store's instances. */
  lemma QualityUnion(a: Graph, s: Graph, n: Node, m: Node)
    requires Disjoint(a, s) && n in a.level && forall q {:trigger q in s.quality} :: q in s.quality ==> q.0 in s.level
    ensures var u := Union(a, s);
            && ((n, m) in u.quality <==> (n, m) in a.quality)
            && ((n, m) in a.quality ==> u.quality[(n, m)] == a.quality[(n, m)])
  {
    assert (n, m) !in s.quality;
  }

  lemma IndexesGrow(env: Env, a: Graph, s: Graph)
    requires Arrival(env.frozen, a, s)
    ensures IndexGrows(IndexOfForm(env, a), IndexOfForm(env, Union(a, s)))
    ensures ElementsStay(IndexOfForm(env, a), IndexOfForm(env, Union(a, s)))
  {
    assert Authored(Union(a, s)) by {
      AuthoredUnion(a, s);
    }
    ClassifiedUnion(a, s);
    GrowsUnion(a, s);
    forall n, m | n in a.level
      ensures (n, m) in Union(a, s).quality <==> (n, m) in a.quality
      ensures (n, m) in a.quality ==> Union(a, s).quality[(n, m)] == a.quality[(n, m)]
    {
      QualityUnion(a, s, n, m);
    }
    FormIndex(env, a);
    FormIndex(env, Union(a, s));
  }

  lemma TimedIff(env: Env, g: Graph, n: Node)
    requires Authored(g) && Timeless(env.frozen) && n in g.level
    ensures var ix := IndexOfForm(env, g); n in g.when <==> ClassOf(ix, n) in ix.time
  {
    FormIndex(env, g);
    TimeOfForm(env.frozen, g, StampOf(g, n));
    if n in g.when {
      StampIsLifted(env.frozen, g, n);
    } else {
      assert (n, BaseOf(g, n)) in g.types;
    }
  }

  lemma FamilyTopPC(env: Env, g: Graph, n: Node)
    requires Authored(g) && Timeless(env.frozen)
    ensures n in FamilyTops(g) <==> n in Tops(IndexOfForm(env, g)) && IsProductOrComponent(IndexOfForm(env, g), n)
  {
    FormIndex(env, g);
  }

  /** The derive is refused exactly when a Product or Component top has no time. */
  lemma RefusedIff(env: Env, g: Graph)
    requires Authored(g) && Timeless(env.frozen)
    ensures Untimed(IndexOfForm(env, g)) == {} <==> FamilyTimed(g)
  {
    var ix := IndexOfForm(env, g);
    if n :| n in FamilyTops(g) && n !in g.when {
      FamilyTopPC(env, g, n);
      TimedIff(env, g, n);
      assert ClassOf(ix, n) in Untimed(ix);
    }
    if c :| c in Untimed(ix) {
      var n :| n in Tops(ix) && IsProductOrComponent(ix, n) && ClassOf(ix, n) !in ix.time;
      FamilyTopPC(env, g, n);
      TimedIff(env, g, n);
    }
  }

  // ---- the gate -----------------------------------------------------------------------------

  /** On a finalised graph the gate looks at the two classes alone: a timed subclass makes
      its own base a slice parent. */
  ghost predicate Lets(h: Hier, lifted: set<(Cls, Scope)>, p: Cls, c: Cls) {
    && (c, p) in h.sup
    && (p in h.pc ==>
          && IsSliceOf(lifted, c)
          && (IsSliceOf(lifted, p) ==> c.scope.Within(p.scope))
          && (!IsSliceOf(lifted, p) && p in h.strategy ==> h.strategy[p] == YearSliceMean))
  }

  /** The registry times a lifted slice, and nothing else, as a slice of its own base. */
  ghost predicate Registers(h: Hier, lifted: set<(Cls, Scope)>, c: Cls) {
    (c in h.time <==> IsSliceOf(lifted, c)) && (c in h.time ==> h.time[c] == TimeEntry(c.scope, {c.base}))
  }

  lemma GateLets(h: Hier, lifted: set<(Cls, Scope)>, p: Cls, c: Cls)
    requires Registers(h, lifted, p) && Registers(h, lifted, c)
    requires (c, p) in h.sup && IsSliceOf(lifted, c) && !IsSliceOf(lifted, p) ==> p == c.base
    ensures Effective(h, p, c) <==> Lets(h, lifted, p, c)
  {
    if Lets(h, lifted, p, c) && p in h.pc && !IsSliceOf(lifted, p) {
      assert c in h.time && p in h.time[c].slices;
      assert IsSliceParent(h, p);
    }
  }

  lemma EffectiveLets(env: Env, g: Graph, p: Cls, c: Cls)
    requires Authored(g) && Timeless(env.frozen)
    ensures var h := HierOf(IndexOfForm(env, g)); Effective(h, p, c) <==> Lets(h, Lifted(env.frozen, g), p, c)
  {
    var h, lifted := HierOf(IndexOfForm(env, g)), Lifted(env.frozen, g);
    assert Registers(h, lifted, p) && Registers(h, lifted, c) by {
      TimeOfForm(env.frozen, g, c);
      TimeOfForm(env.frozen, g, p);
    }
    assert h.sup == Sup(env.frozen, g);
    if (c, p) in h.sup && IsSliceOf(lifted, c) && !IsSliceOf(lifted, p) {
      assert p == c.base by {
        SupEdge(env.frozen, g, (c, p));
        if IsCopy(Tax(env.frozen, g), Lifted(env.frozen, g), (c, p)) {
          LiftedAbove(env.frozen, g, c.base, p.base, c.scope);
        }
      }
    }
    GateLets(h, lifted, p, c);
  }

  lemma KnownSlice(frozen: set<(Cls, Cls)>, a: Graph, s: Graph, c: Cls)
    requires Arrival(frozen, a, s) && Known(frozen, a, c)
    ensures IsSliceOf(Lifted(frozen, Union(a, s)), c) <==> IsSliceOf(Lifted(frozen, a), c)
  {
    UsedNamed(frozen, a);
    LiftedMonotone(frozen, a, s);
  }

  /** Between known classes below an untouched one the gate decides as before. */
  lemma SameGate(env: Env, a: Graph, s: Graph, p: Cls, c: Cls)
    requires Arrival(env.frozen, a, s) && Known(env.frozen, a, p) && Known(env.frozen, a, c) && p !in LEVEL_ROOTS
    requires p !in RaisedSlices(env.frozen, a, s)
    requires var h, g := HierOf(IndexOfForm(env, a)), HierOf(IndexOfForm(env, Union(a, s)));
             p in h.pc <==> p in g.pc
    ensures var h, g := HierOf(IndexOfForm(env, a)), HierOf(IndexOfForm(env, Union(a, s)));
            Effective(h, p, c) <==> Effective(g, p, c)
  {
    AuthoredUnion(a, s);
    EffectiveLets(env, a, p, c);
    EffectiveLets(env, Union(a, s), p, c);
    KnownSlice(env.frozen, a, s, p);
    KnownSlice(env.frozen, a, s, c);
    SupMonotone(env.frozen, a, s);
    if (c, p) in Sup(env.frozen, Union(a, s)) {
      KnownEdge(env.frozen, a, s, (c, p));
    }
  }

  // ---- what a top instance contributes ------------------------------------------------------

  /** An old top instance keeps its class and level, and gains only raised ancestors. */
  ghost predicate OldSplits(small: Index, big: Index, raised: set<Cls>, n: Node) {
    n in Tops(small) ==>
      && n in small.dag.level && n in Tops(big)
      && ClassOf(big, n) == ClassOf(small, n)
      && Ancestors(small.sup, ClassOf(small, n)) <= Ancestors(big.sup, ClassOf(big, n))
             <= Ancestors(small.sup, ClassOf(small, n)) + raised
      && (IsProductOrComponent(big, n) <==> IsProductOrComponent(small, n))
  }

  /** A new top instance rolls up into touched classes, unless it is untimed: then also into
      classes above Products and Components, whose gate refuses it. */
  ghost predicate NewSplits(small: Index, big: Index, w: set<Cls>, closed: set<Cls>, n: Node) {
    n in Tops(big) && n !in Tops(small) ==>
      && ClassOf(big, n) in w
      && Ancestors(big.sup, ClassOf(big, n)) <= w + closed
      && (IsProductOrComponent(big, n) ==> Ancestors(big.sup, ClassOf(big, n)) <= w)
  }

  lemma OldTop(env: Env, a: Graph, s: Graph, n: Node)
    requires Arrival(env.frozen, a, s)
    ensures OldSplits(IndexOfForm(env, a), IndexOfForm(env, Union(a, s)), RaisedSlices(env.frozen, a, s), n)
  {
    if n in Tops(IndexOfForm(env, a)) {
      AuthoredUnion(a, s);
      ClassifiedUnion(a, s);
      TopsOfUnion(a, s);
      FormIndex(env, a);
      FormIndex(env, Union(a, s));
      StampKnown(env.frozen, a, n);
      KnownAncestors(env.frozen, a, s, StampOf(a, n));
    }
  }

  /** A timed new top instance rolls up into raised classes and their slices. */
  lemma TimedTop(frozen: set<(Cls, Cls)>, a: Graph, s: Graph, n: Node)
    requires Arrival(frozen, a, s) && n in TimedTops(s) && Classified(Union(a, s)) && n in Union(a, s).level
    ensures StampOf(Union(a, s), n) in RaisedSlices(frozen, a, s)
    ensures Ancestors(Sup(frozen, Union(a, s)), StampOf(Union(a, s), n)) <= RaisedSlices(frozen, a, s)
  {
    var u := Union(a, s);
    var c, all, edges := StampOf(u, n), RaisedSlices(frozen, a, s), Taxonomy(Sup(frozen, u));
    ClassifiedUnion(a, s);
    TopTyped(s, n, TimedTops(s));
    StampIsLifted(frozen, u, n);
    AtScopesMember(Raised(frozen, a, s), Lifted(frozen, u), c.base, c.scope);
    forall e | e in edges && e.0 in all ensures e.1 in all {
      RaisedUpward(frozen, a, s, e);
    }
    ReachLeast(edges, {c}, all);
  }

  /** From a timeless class the finalised graph leads where the authored taxonomy leads. */
  lemma NamedAncestors(frozen: set<(Cls, Cls)>, g: Graph, b: Cls)
    requires Plain(g) && Timeless(frozen) && b.Named? && b !in LEVEL_ROOTS
    ensures Ancestors(Sup(frozen, g), b) == Closure.Reach(Tax(frozen, g), {b})
  {
    var tax, edges := Tax(frozen, g), Taxonomy(Sup(frozen, g));
    ReachNamed(tax, b);
    ReachTargets(tax, {b});
    assert tax <= edges;
    forall e | e in edges && e.0 in Closure.Reach(tax, {b}) ensures e in tax {
      SupEdge(frozen, g, e);
    }
    ReachLocal(tax, edges, b);
  }

  lemma UntimedTop(frozen: set<(Cls, Cls)>, a: Graph, s: Graph, n: Node)
    requires Arrival(frozen, a, s) && n in UntimedTops(s) && Classified(Union(a, s)) && n in Union(a, s).level
    ensures var c := StampOf(Union(a, s), n);
            && c in Touched(frozen, a, s)
            && Ancestors(Sup(frozen, Union(a, s)), c) <= Touched(frozen, a, s) + FamilyReach(frozen, Union(a, s))
  {
    var u := Union(a, s);
    var c := StampOf(u, n);
    ClassifiedUnion(a, s);
    TopTyped(s, n, UntimedTops(s));
    NamedAncestors(frozen, u, c);
    ReachMonotone(Tax(frozen, u), {c}, Tax(frozen, u), ClassesAt(s, UntimedTops(s)));
  }

  lemma TopOfUnion(env: Env, a: Graph, s: Graph, n: Node)
    requires Arrival(env.frozen, a, s)
    ensures var small, big := IndexOfForm(env, a), IndexOfForm(env, Union(a, s));
            n in Tops(big) && n !in Tops(small) ==>
              && (n in TimedTops(s) || n in UntimedTops(s))
              && Classified(Union(a, s)) && n in Union(a, s).level && ClassOf(big, n) == StampOf(Union(a, s), n)
              && (IsProductOrComponent(big, n) <==> n in FamilyTops(Union(a, s)))
              && (n in s.when <==> n in Union(a, s).when)
    ensures IndexOfForm(env, Union(a, s)).sup == Sup(env.frozen, Union(a, s))
  {
    AuthoredUnion(a, s);
    TopsOfUnion(a, s);
    FormIndex(env, a);
    FormIndex(env, Union(a, s));
  }

  lemma NewTop(env: Env, a: Graph, s: Graph, n: Node)
    requires Arrival(env.frozen, a, s) && FamilyTimed(Union(a, s))
    ensures NewSplits(IndexOfForm(env, a), IndexOfForm(env, Union(a, s)), Touched(env.frozen, a, s),
                      FamilyReach(env.frozen, Union(a, s)), n)
  {
    var small, big, u, w := IndexOfForm(env, a), IndexOfForm(env, Union(a, s)), Union(a, s), Touched(env.frozen, a, s);
    TopOfUnion(env, a, s, n);
    if n in Tops(big) && n !in Tops(small) {
      if n in TimedTops(s) {
        TimedTop(env.frozen, a, s, n);
        assert RaisedSlices(env.frozen, a, s) <= w;
      } else {
        UntimedTop(env.frozen, a, s, n);
      }
    }
  }

  // ---- classes above Products and Components ---------------------------------------------

  function Above(ix: Index, n: Node): set<Cls> {
    Ancestors(ix.sup, ClassOf(ix, n)) - {ClassOf(ix, n)}
  }

  /** The classes above the top instances in `ns`. */
  function AboveAll(ix: Index, ns: set<Node>): set<Cls> {
    set n, x | n in ns && x in Above(ix, n) :: x
  }

  function TopsPC(ix: Index): set<Node> {
    set n | n in Tops(ix) && IsProductOrComponent(ix, n)
  }

  lemma AncestorsByTop(ix: Index)
    ensures AncestorClasses(ix) == AboveAll(ix, Tops(ix)) && FamilyPC(ix) == AboveAll(ix, TopsPC(ix))
  {
    forall x | x in AncestorClasses(ix) ensures x in AboveAll(ix, Tops(ix)) {
      var c :| c in LeafClasses(ix) && x in Ancestors(ix.sup, c) - {c};
      var n :| n in Tops(ix) && ClassOf(ix, n) == c;
      assert x in Above(ix, n);
    }
    forall x | x in AboveAll(ix, Tops(ix)) ensures x in AncestorClasses(ix) {
      var n :| n in Tops(ix) && x in Above(ix, n);
      assert ClassOf(ix, n) in LeafClasses(ix);
    }
    forall x | x in FamilyPC(ix) ensures x in AboveAll(ix, TopsPC(ix)) {
      var n :| n in Tops(ix) && IsProductOrComponent(ix, n)
          && x in Ancestors(ix.sup, ClassOf(ix, n)) - {ClassOf(ix, n)};
      assert n in TopsPC(ix) && x in Above(ix, n);
    }
    assert AboveAll(ix, TopsPC(ix)) <= FamilyPC(ix);
  }

  lemma StampWithin(frozen: set<(Cls, Cls)>, g: Graph, b: Cls, t: Scope)
    requires Plain(g) && Timeless(frozen) && b.Named? && b !in LEVEL_ROOTS && (b, t) in Lifted(frozen, g)
    ensures Ancestors(Sup(frozen, g), Slice(b, t)) <= AtScopes(Closure.Reach(Tax(frozen, g), {b}), Lifted(frozen, g))
  {
    var tax, edges := Tax(frozen, g), Taxonomy(Sup(frozen, g));
    var above := Closure.Reach(tax, {b});
    var all := AtScopes(above, Lifted(frozen, g));
    ReachNamed(tax, b);
    AtScopesMember(above, Lifted(frozen, g), b, t);
    forall e | e in edges && e.0 in all ensures e.1 in all {
      SlicesClosed(frozen, g, above, e);
    }
    ReachLeast(edges, {Slice(b, t)}, all);
  }

  /** The timeless classes above a stamp are those the taxonomy leads to from its base. */
  lemma StampAbove(frozen: set<(Cls, Cls)>, g: Graph, n: Node, x: Cls)
    requires Classified(g) && Timeless(frozen) && n in g.level && n in g.when && x.Named?
    ensures x in Ancestors(Sup(frozen, g), StampOf(g, n)) <==> x in Closure.Reach(Tax(frozen, g), {BaseOf(g, n)})
  {
    var b, t := BaseOf(g, n), g.when[n];
    assert (n, b) in g.types;
    StampIsLifted(frozen, g, n);
    StampWithin(frozen, g, b, t);
    if x in Closure.Reach(Tax(frozen, g), {b}) {
      assert x in Ancestors(Sup(frozen, g), Slice(b, t)) by {
        var tax, edges := Tax(frozen, g), Taxonomy(Sup(frozen, g));
        var r := Closure.Reach(edges, {Slice(b, t)});
        SupEdge(frozen, g, (Slice(b, t), b));
        assert (Slice(b, t), b) in edges;
        OneStep(edges, Slice(b, t), b);
        ReachAbsorbs(edges, {Slice(b, t)}, b);
        NamedAncestors(frozen, g, b);
      }
    }
  }

  /** When every such top is timed, a timeless class is above one exactly when the taxonomy
      leads to it. */
  lemma FamilyIsReach(env: Env, g: Graph, x: Cls)
    requires Authored(g) && Timeless(env.frozen) && FamilyTimed(g) && x.Named?
    ensures x in FamilyPC(IndexOfForm(env, g)) <==> x in FamilyReach(env.frozen, g)
  {
    var ix, tax := IndexOfForm(env, g), Tax(env.frozen, g);
    AncestorsByTop(ix);
    FormIndex(env, g);
    forall n | n in FamilyTops(g)
      ensures x in Above(ix, n) <==> x in Closure.Reach(tax, {BaseOf(g, n)})
      ensures BaseOf(g, n) in ClassesAt(g, FamilyTops(g))
    {
      StampAbove(env.frozen, g, n, x);
      TopTyped(g, n, FamilyTops(g));
    }
    if x in FamilyReach(env.frozen, g) {
      var b := ReachFrom(tax, ClassesAt(g, FamilyTops(g)), x);
      var e :| e in g.types && e.0 in FamilyTops(g) && e.1 == b;
      assert b == BaseOf(g, e.0);
      FamilyTopPC(env, g, e.0);
    }
    if x in FamilyPC(ix) {
      var n :| n in TopsPC(ix) && x in Above(ix, n);
      FamilyTopPC(env, g, n);
      ReachMonotone(tax, {BaseOf(g, n)}, tax, ClassesAt(g, FamilyTops(g)));
    }
  }

  // ---- the two indexes differ only inside the touched set ---------------------------------

  /** What the index of a store and the index after an arrival have in common: `w` is touched,
      `raised` its part above timed tops and new edges, `closed` the classes whose gate
      refuses untimed subclasses. */
  ghost predicate Splits(small: Index, big: Index, w: set<Cls>, raised: set<Cls>, closed: set<Cls>) {
    && raised <= w
    && (forall n {:trigger OldSplits(small, big, raised, n)} :: OldSplits(small, big, raised, n))
    && (forall n {:trigger NewSplits(small, big, w, closed, n)} :: NewSplits(small, big, w, closed, n))
    && (forall x :: x in closed && x !in w ==> x in FamilyPC(big))
  }

  lemma IndexesSplit(env: Env, a: Graph, s: Graph)
    requires Arrival(env.frozen, a, s) && FamilyTimed(Union(a, s))
    ensures Splits(IndexOfForm(env, a), IndexOfForm(env, Union(a, s)), Touched(env.frozen, a, s),
                   RaisedSlices(env.frozen, a, s), FamilyReach(env.frozen, Union(a, s)))
  {
    var u := Union(a, s);
    AuthoredUnion(a, s);
    forall n ensures OldSplits(IndexOfForm(env, a), IndexOfForm(env, u), RaisedSlices(env.frozen, a, s), n) {
      OldTop(env, a, s, n);
    }
    forall n
      ensures NewSplits(IndexOfForm(env, a), IndexOfForm(env, u), Touched(env.frozen, a, s), FamilyReach(env.frozen, u), n)
    {
      NewTop(env, a, s, n);
    }
    forall x | x in FamilyReach(env.frozen, u) ensures x in FamilyPC(IndexOfForm(env, u)) {
      FamilyReachNamed(env.frozen, u);
      FamilyIsReach(env, u, x);
    }
  }

  lemma FamilyReachNamed(frozen: set<(Cls, Cls)>, g: Graph)
    requires Plain(g) && Timeless(frozen)
    ensures forall c :: c in FamilyReach(frozen, g) ==> c.Named?
  {
    assert forall e :: e in Tax(frozen, g) ==> e.1.Named?;
    ReachTargets(Tax(frozen, g), ClassesAt(g, FamilyTops(g)));
  }

  lemma LeavesOutside(small: Index, big: Index, w: set<Cls>, raised: set<Cls>, closed: set<Cls>)
    requires Splits(small, big, w, raised, closed)
    ensures LeafClasses(small) - w == LeafClasses(big) - w
  {
    forall n | n in Tops(small) ensures ClassOf(small, n) in LeafClasses(big) {
      assert OldSplits(small, big, raised, n);
    }
    forall n | n in Tops(big) ensures ClassOf(big, n) in LeafClasses(small) || ClassOf(big, n) in w {
      assert OldSplits(small, big, raised, n) && NewSplits(small, big, w, closed, n);
    }
  }

  /** Outside the touched set a class is above a Product or Component after exactly when it
      was before. */
  lemma FamilyOutside(small: Index, big: Index, w: set<Cls>, raised: set<Cls>, closed: set<Cls>)
    requires Splits(small, big, w, raised, closed)
    ensures FamilyPC(small) - w == FamilyPC(big) - w
  {
    AncestorsByTop(small);
    AncestorsByTop(big);
    forall n, x | n in TopsPC(small) && x in Above(small, n) ensures x in FamilyPC(big) {
      assert OldSplits(small, big, raised, n);
      assert n in TopsPC(big) && x in Above(big, n);
    }
    forall n, x | n in TopsPC(big) && x in Above(big, n) ensures x in w || x in FamilyPC(small) {
      assert OldSplits(small, big, raised, n) && NewSplits(small, big, w, closed, n);
      assert n in Tops(small) && x !in w ==> n in TopsPC(small) && x in Above(small, n);
    }
  }

  lemma AncestorsOutside(small: Index, big: Index, w: set<Cls>, raised: set<Cls>, closed: set<Cls>)
    requires Splits(small, big, w, raised, closed)
    ensures AncestorClasses(small) - w == AncestorClasses(big) - w
  {
    FamilyOutside(small, big, w, raised, closed);
    AncestorsByTop(small);
    AncestorsByTop(big);
    forall n, x | n in Tops(small) && x in Above(small, n) ensures x in AncestorClasses(big) {
      assert OldSplits(small, big, raised, n);
      assert x in Above(big, n);
    }
    assert FamilyPC(small) <= AncestorClasses(small) by {
      assert TopsPC(small) <= Tops(small);
    }
    forall n, x | n in Tops(big) && x in Above(big, n) ensures x in w || x in AncestorClasses(small) {
      assert OldSplits(small, big, raised, n) && NewSplits(small, big, w, closed, n);
      if n in Tops(small) {
        assert x !in w ==> x in Above(small, n);
      } else {
        assert x !in w ==> x in closed && x in FamilyPC(big) - w && x in FamilyPC(small) - w;
      }
    }
  }

  lemma RootsOutside(small: Index, big: Index, w: set<Cls>, raised: set<Cls>, closed: set<Cls>, c: Cls)
    requires Splits(small, big, w, raised, closed) && small.nodes == big.nodes && c !in w && Wf(small.dag)
    requires ElementsStay(small, big)
    ensures RootsKept(small, big, c)
  {
    var few, many := set n | n in Tops(small) && ClassOf(small, n) == c, set n | n in Tops(big) && ClassOf(big, n) == c;
    forall n ensures n in few <==> n in many {
      assert OldSplits(small, big, raised, n) && NewSplits(small, big, w, closed, n);
    }
    assert few == many;
    OnlyMembers(small.nodes, few);
    forall n | n in Roots(small, c) ensures KeepsElements(small, big, n) {
      assert OldSplits(small, big, raised, n);
      StayKeeps(small, big, n);
    }
  }

  lemma SmallKnown(env: Env, a: Graph, small: Index, c: Cls)
    requires Authored(a) && Timeless(env.frozen) && small == IndexOfForm(env, a)
    requires c in LeafClasses(small) || c in AncestorClasses(small)
    ensures Known(env.frozen, a, c)
  {
    AncestorsByTop(small);
    FormIndex(env, a);
    var n :| n in Tops(small) && (ClassOf(small, n) == c || c in Above(small, n));
    StampKnown(env.frozen, a, n);
    ReachKnown(env.frozen, a, StampOf(a, n));
  }

  lemma AncestorNotRoot(ix: Index, c: Cls)
    requires c in AncestorClasses(ix)
    ensures c !in LEVEL_ROOTS
  {
  }

  /** Above an untimed class that is touched only for being above an untimed top, the next
      class is touched too or closed to it. */
  lemma LooseUpward(frozen: set<(Cls, Cls)>, a: Graph, s: Graph, c: Cls, p: Cls)
    requires Arrival(frozen, a, s) && c in Touched(frozen, a, s) && c !in RaisedSlices(frozen, a, s)
    requires (c, p) in Sup(frozen, Union(a, s)) && p !in LEVEL_ROOTS && p !in Touched(frozen, a, s)
    ensures c.Named? && p in FamilyReach(frozen, Union(a, s))
  {
    var tax := Tax(frozen, Union(a, s));
    var r := Closure.Reach(tax, ClassesAt(s, UntimedTops(s)));
    PlainUnion(a, s);
    assert forall e :: e in tax ==> e.1.Named?;
    ReachTargets(tax, ClassesAt(s, UntimedTops(s)));
    assert c in r && c.Named?;
    SupEdge(frozen, Union(a, s), (c, p));
    assert p in Image(tax, r);
  }

  /** No class outside the touched set averages over a class inside it. */
  lemma TouchedShields(env: Env, a: Graph, s: Graph, g: Graph, ix: Index, c: Cls, p: Cls)
    requires Arrival(env.frozen, a, s) && (g == a || g == Union(a, s)) && ix == IndexOfForm(env, g)
    requires FamilyReach(env.frozen, Union(a, s)) - Touched(env.frozen, a, s) <= FamilyPC(ix)
    requires c in Touched(env.frozen, a, s) && p !in Touched(env.frozen, a, s) && p !in LEVEL_ROOTS
    ensures !Effective(HierOf(ix), p, c)
  {
    AuthoredUnion(a, s);
    SupMonotone(env.frozen, a, s);
    FormIndex(env, g);
    if (c, p) in ix.sup {
      if c in RaisedSlices(env.frozen, a, s) {
        RaisedUpward(env.frozen, a, s, (c, p));
      } else {
        LooseUpward(env.frozen, a, s, c, p);
        TimeOfForm(env.frozen, g, c);
      }
    }
  }

  lemma ShieldedBy(env: Env, a: Graph, s: Graph, g: Graph, ix: Index)
    requires Arrival(env.frozen, a, s) && (g == a || g == Union(a, s)) && ix == IndexOfForm(env, g)
    requires FamilyReach(env.frozen, Union(a, s)) - Touched(env.frozen, a, s) <= FamilyPC(ix)
    ensures Shielded(HierOf(ix), Touched(env.frozen, a, s))
  {
    var h, w := HierOf(ix), Touched(env.frozen, a, s);
    forall c, p | c in w && p in h.ancestors && p !in w ensures !Effective(h, p, c) {
      AncestorNotRoot(ix, p);
      TouchedShields(env, a, s, g, ix, c, p);
    }
  }

  lemma GateOutside(env: Env, a: Graph, s: Graph, small: Index, big: Index, w: set<Cls>, p: Cls, c: Cls)
    requires Arrival(env.frozen, a, s) && small == IndexOfForm(env, a) && big == IndexOfForm(env, Union(a, s))
    requires RaisedSlices(env.frozen, a, s) <= w && FamilyPC(small) - w == FamilyPC(big) - w && p !in w
    requires p in AncestorClasses(small) && c in LeafClasses(small) + AncestorClasses(small)
    ensures Effective(HierOf(small), p, c) <==> Effective(HierOf(big), p, c)
  {
    SmallKnown(env, a, small, c);
    SmallKnown(env, a, small, p);
    AncestorNotRoot(small, p);
    assert p in FamilyPC(small) - w <==> p in FamilyPC(big) - w;
    SameGate(env, a, s, p, c);
  }

  /** A source changes the index only inside the touched classes. */
  lemma ArrivalFramed(env: Env, a: Graph, s: Graph)
    requires Arrival(env.frozen, a, s) && FamilyTimed(Union(a, s))
    ensures Framed(IndexOfForm(env, a), IndexOfForm(env, Union(a, s)), Touched(env.frozen, a, s))
  {
    var small, big, w := IndexOfForm(env, a), IndexOfForm(env, Union(a, s)), Touched(env.frozen, a, s);
    var raised, closed := RaisedSlices(env.frozen, a, s), FamilyReach(env.frozen, Union(a, s));
    IndexesGrow(env, a, s);
    IndexesSplit(env, a, s);
    assert SameOutside(HierOf(small), HierOf(big), w) by {
      LeavesOutside(small, big, w, raised, closed);
      AncestorsOutside(small, big, w, raised, closed);
      FamilyOutside(small, big, w, raised, closed);
      assert closed - w <= FamilyPC(big) - w;
      ShieldedBy(env, a, s, a, small);
      ShieldedBy(env, a, s, Union(a, s), big);
      forall c, p | p !in w && p in AncestorClasses(small) && c in LeafClasses(small) + AncestorClasses(small)
        ensures Effective(HierOf(small), p, c) <==> Effective(HierOf(big), p, c)
      {
        GateOutside(env, a, s, small, big, w, p, c);
      }
    }
    forall c | c !in w ensures RootsKept(small, big, c) {
      RootsOutside(small, big, w, raised, closed, c);
    }
  }
}
