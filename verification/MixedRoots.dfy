/** A source that mixes roots or elements: refreshing the affected rows gives the full derive when
    the affected set holds everything above the roots it stirs. */
module MixedRoots {
  import opened Vocabulary
  import opened Closure
  import opened Hierarchy
  import opened Reach
  import opened Aggregate
  import opened YearSlicer
  import opened YearForm
  import opened StoreIndex
  import opened StoreFrame
  import opened Affected
  import opened Frame
  import opened LeafFrame
  import V = ValueSlicer
  import opened Mixing
  import opened Drift
  import opened DriftSlice
  import opened LevelLaws
  import opened Twice
  import opened Drivetrains
  import opened DriftView
  import opened MovedRoots
  import opened ServedView

  type Classes = V.Classes

  /** The top reaches a mixed element. */
  ghost predicate HoldsMixed(frozen: Classes, u: Graph, parent: map<Node, Node>, n: Node) {
    && Wf(DagOf(u)) && n in u.level
    && exists en ::
         en in u.level && u.level[en] == Element && Mixed(frozen, u, parent, en) && Paths(DagOf(u), n, en) != []
  }

  /** The top is mixed or reaches a mixed element. */
  ghost predicate Stirred(frozen: Classes, u: Graph, parent: map<Node, Node>, n: Node) {
    Mixed(frozen, u, parent, n) || HoldsMixed(frozen, u, parent, n)
  }

  ghost function StirredAmong(frozen: Classes, u: Graph, parent: map<Node, Node>, ns: set<Node>): set<Node> {
    set n | n in ns && Stirred(frozen, u, parent, n)
  }

  /** The classes of the stirred tops and everything above them. */
  ghost function StirredBases(frozen: Classes, u: Graph, parent: map<Node, Node>): set<Cls> {
    Closure.Reach(Tax(frozen, u), ClassesAt(u, StirredAmong(frozen, u, parent, TopNodes(u))))
  }

  /** `h` is what the drivetrain slicer makes of the year-sliced graph `g` of a store that holds
      `u` and whose roots and elements had kept their classes. */
  ghost predicate MadeBy(frozen: Classes, u: Graph, g: Graph, parent: map<Node, Node>, h: Graph) {
    && Authored(u) && Timeless(frozen) && Levelled(frozen, u)
    && Faithful(frozen, u, g) && Form(frozen, u).types <= g.types
    && V.IsParentMap(u, parent) && Reslices(frozen, g, parent, h)
  }

  /** Where the pass puts a mixed instance: in a leaf of its slice. */
  ghost predicate Landed(u: Graph, h: Graph, n: Node, leaf: Cls) {
    && Classified(u) && n in u.level && n in u.when
    && leaf.ValueLeaf? && leaf.of == Slice(BaseOf(u, n), u.when[n])
    && (leaf, leaf.of) in h.sliceOf && (leaf, DRIVETRAIN) in h.axis && leaf in Timed(h)
  }

  /** A mixed root or element is in its leaf, any other kept its types. */
  ghost predicate Settles(frozen: Classes, u: Graph, parent: map<Node, Node>, h: Graph, ix: Index, n: Node) {
    if Mixed(frozen, u, parent, n) then Landed(u, h, n, ClassOf(ix, n)) else Untouched(Form(frozen, u), h, n)
  }

  /** What matters of such a pass, and of an index of what it makes. */
  ghost predicate Remade(env: Env, u: Graph, parent: map<Node, Node>, h: Graph, ix: Index) {
    && Authored(u) && Timeless(env.frozen) && Drifted(env.frozen, u, h) && AsAuthored(env, h, ix)
    && forall n {:trigger Settles(env.frozen, u, parent, h, ix, n)} :: n in Fixed(u) ==>
         Settles(env.frozen, u, parent, h, ix, n)
  }

  // ---- the pass moves the mixed roots only ------------------------------------------------------------

  lemma UnmixedKept(frozen: Classes, u: Graph, g: Graph, parent: map<Node, Node>, h: Graph, n: Node)
    requires MadeBy(frozen, u, g, parent, h) && n in Fixed(u) && !Mixed(frozen, u, parent, n)
    ensures Untouched(Form(frozen, u), h, n)
  {
    ReslicesIs(frozen, g, parent, h);
    FixedMovesIffMixed(frozen, u, g, parent, n);
    RewriteLeaves(Form(frozen, u), g, V.Retyped(frozen, DRIVETRAIN, g, parent), n);
  }

  lemma PassDrifts(frozen: Classes, u: Graph, g: Graph, parent: map<Node, Node>, h: Graph)
    requires MadeBy(frozen, u, g, parent, h)
    ensures Drifted(frozen, u, h)
  {
    ReslicesIs(frozen, g, parent, h);
    SliceDrifts(frozen, u, g, parent);
  }

  lemma MixedLands(frozen: Classes, u: Graph, g: Graph, parent: map<Node, Node>, h: Graph, n: Node, c: Cls)
    requires MadeBy(frozen, u, g, parent, h) && n in Fixed(u) && Mixed(frozen, u, parent, n)
    requires Picks(frozen + h.sub, TypesOf(h, n), c)
    ensures Landed(u, h, n, c)
  {
    ReslicesIs(frozen, g, parent, h);
    FixedMovesIffMixed(frozen, u, g, parent, n);
    var r :| r in V.Retyped(frozen, DRIVETRAIN, g, parent) && r.0 == n;
    assert Untouched(Form(frozen, u), g, n);
    var b := RootStamp(frozen, u, g, parent, r);
    MovedClass(frozen, u, g, parent, r, c);
    LeafBelowBase(frozen, u, g, parent, r);
    StampIsLifted(frozen, u, n);
    assert (Slice(b, u.when[n]), u.when[n]) in g.scope by {
      DriftedIs(frozen, u, g);
      ScopeMember(Lifted(frozen, u), (Slice(b, u.when[n]), u.when[n]));
    }
    assert V.LeafOf(r) in Timed(V.Rewrite(g, DRIVETRAIN, V.Retyped(frozen, DRIVETRAIN, g, parent))) by {
      var e := (r.1, u.when[n]);
      assert r in V.Retyped(frozen, DRIVETRAIN, g, parent) && e in g.scope && e.0 == r.1;
      assert (V.LeafOf(r), u.when[n]) in V.LeafScopes(g, V.Retyped(frozen, DRIVETRAIN, g, parent));
    }
  }

  lemma PassRemade(env: Env, u: Graph, g: Graph, parent: map<Node, Node>, h: Graph, ix: Index)
    requires MadeBy(env.frozen, u, g, parent, h) && IsIndex(env, h, ix)
    ensures Remade(env, u, parent, h, ix)
  {
    PassDrifts(env.frozen, u, g, parent, h);
    IndexAsAuthored(env, u, h, ix);
    forall n | n in Fixed(u) ensures Settles(env.frozen, u, parent, h, ix, n) {
      if Mixed(env.frozen, u, parent, n) {
        assert n in h.level by {
          DriftedIs(env.frozen, u, h);
        }
        MixedLands(env.frozen, u, g, parent, h, n, ix.cls[n]);
      } else {
        UnmixedKept(env.frozen, u, g, parent, h, n);
      }
    }
  }

  /** Every class of an instance was sliced or grown from its authored class. */
  lemma ClassRoot(frozen: Classes, u: Graph, h: Graph, n: Node, c: Cls)
    requires Classified(u) && Timeless(frozen) && Drifted(frozen, u, h) && (n, c) in h.types
    ensures n in u.level && RootClass(c) == BaseOf(u, n)
  {
    BelowRoot(frozen, u, h, (n, c));
  }

  lemma InBases(frozen: Classes, u: Graph, parent: map<Node, Node>, n: Node)
    requires Classified(u) && n in TopNodes(u) && n in u.level && Stirred(frozen, u, parent, n)
    ensures BaseOf(u, n) in StirredBases(frozen, u, parent)
  {
    var e := (n, BaseOf(u, n));
    assert e in u.types && n in StirredAmong(frozen, u, parent, TopNodes(u));
    assert e.1 in ClassesAt(u, StirredAmong(frozen, u, parent, TopNodes(u)));
  }

  lemma StampRoot(u: Graph, n: Node)
    requires Classified(u) && n in u.level
    ensures RootClass(StampOf(u, n)) == BaseOf(u, n)
  {
    var e := (n, BaseOf(u, n));
    assert e in u.types;
  }

  /** A stirred top's class lies over its authored class before and after. */
  lemma StirredTopMoved(env: Env, u: Graph, parent: map<Node, Node>, h: Graph, ix: Index, n: Node)
    requires Remade(env, u, parent, h, ix)
    requires n in TopNodes(u) && Stirred(env.frozen, u, parent, n)
    ensures TopMoved(IndexOfForm(env, u), ix, StirredBases(env.frozen, u, parent), n)
  {
    DriftedIs(env.frozen, u, h);
    PartsWithin(u);
    FormIndex(env, u);
    InBases(env.frozen, u, parent, n);
    StampRoot(u, n);
    assert (n, ix.cls[n]) in h.types;
    ClassRoot(env.frozen, u, h, n, ix.cls[n]);
  }

  lemma DriftUpClosed(frozen: Classes, u: Graph, h: Graph, bases: set<Cls>)
    requires Plain(u) && Timeless(frozen) && Drifted(frozen, u, h) && Closed(Tax(frozen, u), bases)
    ensures UpClosed(frozen + h.sub, bases)
  {
    forall e | e in Taxonomy(frozen + h.sub) && RootIn(bases, e.0) ensures RootIn(bases, e.1) {
      EdgeRoot(frozen, u, h, e, bases);
    }
  }

  /** A top that is not mixed keeps its class. */
  lemma PassTop(env: Env, u: Graph, parent: map<Node, Node>, h: Graph, ix: Index, n: Node)
    requires Remade(env, u, parent, h, ix)
    requires n in TopNodes(u) && !Mixed(env.frozen, u, parent, n)
    ensures SameTop(IndexOfForm(env, u), ix, n)
  {
    TopIsFixed(u, n);
    assert Settles(env.frozen, u, parent, h, ix, n);
    TopInDrift(env, u, h, ix, n);
  }

  /** A top that reaches no mixed element finds the classes of its elements as they were. */
  lemma PassKeeps(env: Env, u: Graph, parent: map<Node, Node>, h: Graph, ix: Index, n: Node)
    requires Remade(env, u, parent, h, ix)
    requires n in u.level && !HoldsMixed(env.frozen, u, parent, n)
    ensures KeepsElements(IndexOfForm(env, u), ix, n)
  {
    var small := IndexOfForm(env, u);
    forall en | en in u.level && u.level[en] == Element && ClassOf(ix, en) != ClassOf(small, en)
      ensures Paths(DagOf(u), n, en) == []
    {
      assert Mixed(env.frozen, u, parent, en) by {
        if !Mixed(env.frozen, u, parent, en) {
          assert en in Fixed(u);
          assert Settles(env.frozen, u, parent, h, ix, en);
          ElementInDrift(env, u, h, ix, en);
        }
      }
    }
  }

  lemma TopSettled(env: Env, u: Graph, parent: map<Node, Node>, h: Graph, ix: Index, n: Node)
    requires Remade(env, u, parent, h, ix) && n in TopNodes(u)
    ensures var small := IndexOfForm(env, u);
            TopStays(small, ix, n) || TopMoved(small, ix, StirredBases(env.frozen, u, parent), n)
  {
    if Stirred(env.frozen, u, parent, n) {
      StirredTopMoved(env, u, parent, h, ix, n);
    } else {
      PartsWithin(u);
      PassTop(env, u, parent, h, ix, n);
      PassKeeps(env, u, parent, h, ix, n);
    }
  }

  /** The index after the pass agrees with that of the content but for the stirred roots. */
  lemma PassShifted(env: Env, u: Graph, g: Graph, parent: map<Node, Node>, h: Graph, ix: Index)
    requires MadeBy(env.frozen, u, g, parent, h) && IsIndex(env, h, ix)
    ensures Shifted(IndexOfForm(env, u), ix, StirredBases(env.frozen, u, parent))
  {
    var small, bases := IndexOfForm(env, u), StirredBases(env.frozen, u, parent);
    PassRemade(env, u, g, parent, h, ix);
    assert ix.dag == DagOf(u) by {
      DriftedIs(env.frozen, u, h);
    }
    ClassesInDrift(env, u, h, ix);
    FormIndex(env, u);
    TopsOfIndex(ix, u);
    forall n | n in Tops(small) ensures TopStays(small, ix, n) || TopMoved(small, ix, bases, n) {
      TopSettled(env, u, parent, h, ix, n);
    }
    assert UpClosed(IndexOfForm(env, u).sup, bases) && UpClosed(ix.sup, bases) by {
      FormDrifts(env.frozen, u);
      DriftUpClosed(env.frozen, u, Form(env.frozen, u), bases);
      DriftUpClosed(env.frozen, u, h, bases);
    }
  }

  lemma FormPlain(env: Env, u: Graph)
    requires Authored(u) && Timeless(env.frozen)
    ensures AllPlain(IndexOfForm(env, u))
  {
    var small := IndexOfForm(env, u);
    forall p | p in LeafClasses(small) || p in AncestorClasses(small)
      ensures NoLeaf(p) && (p.Slice? ==> p in small.time)
    {
      UsedSlices(env, u, small, p);
    }
  }

  // ---- what the window holds ---------------------------------------------------------------------------

  /** Above a leaf of a slice: the classes above its base, and their slices. */
  lemma LeafStep(frozen: Classes, u: Graph, h: Graph, bases: set<Cls>, leaf: Cls, e: (Cls, Cls))
    requires Plain(u) && Timeless(frozen) && Drifted(frozen, u, h) && Closed(Tax(frozen, u), bases) && forall c ::
        c in bases ==> c.Named?
    requires leaf.ValueLeaf? && !leaf.of.ValueLeaf? && RootIn(bases, leaf)
    requires e in Taxonomy(frozen + h.sub) && (e.0 == leaf || e.0 in AtScopes(bases, Lifted(frozen, u)))
    ensures e.1 in AtScopes(bases, Lifted(frozen, u))
  {
    DriftedIs(frozen, u, h);
    if e.0 == leaf {
      FormHasNoLeaf(frozen, u);
      assert LeafLeadsUp(Tax(frozen, u), Lifted(frozen, u), e);
      ReachLeast(Tax(frozen, u), {RootClass(leaf)}, bases);
      if e.1.Slice? {
        AtScopesMember(bases, Lifted(frozen, u), e.1.base, e.1.scope);
      }
    } else {
      assert e in frozen + Form(frozen, u).sub;
      SlicesClosed(frozen, u, bases, e);
    }
  }

  lemma AboveLeaf(frozen: Classes, u: Graph, h: Graph, bases: set<Cls>, leaf: Cls)
    requires Plain(u) && Timeless(frozen) && Drifted(frozen, u, h) && Closed(Tax(frozen, u), bases) && forall c ::
        c in bases ==> c.Named?
    requires leaf.ValueLeaf? && !leaf.of.ValueLeaf? && RootIn(bases, leaf)
    ensures forall x :: x in Closure.Reach(Taxonomy(frozen + h.sub), {leaf}) ==>
        x == leaf || x in AtScopes(bases, Lifted(frozen, u))
  {
    var all := AtScopes(bases, Lifted(frozen, u));
    forall e | e in Taxonomy(frozen + h.sub) && (e.0 == leaf || e.0 in all) ensures e.1 == leaf || e.1 in all {
      LeafStep(frozen, u, h, bases, leaf, e);
    }
    ReachWithin(Taxonomy(frozen + h.sub), {leaf}, c => c == leaf || c in all);
  }

  lemma StirredBasesNamed(frozen: Classes, u: Graph, parent: map<Node, Node>)
    requires Plain(u) && Timeless(frozen)
    ensures forall c :: c in StirredBases(frozen, u, parent) ==> c.Named?
  {
    assert forall e :: e in Tax(frozen, u) ==> e.1.Named?;
    ReachTargets(Tax(frozen, u), ClassesAt(u, StirredAmong(frozen, u, parent, TopNodes(u))));
  }

  /** The leaf a mixed root was moved to. */
  ghost predicate RootLeaf(frozen: Classes, u: Graph, parent: map<Node, Node>, h: Graph, c: Cls) {
    exists n {:trigger Landed(u, h, n, c)} :: n in TopNodes(u) && Mixed(frozen, u, parent, n) && Landed(u, h, n, c)
  }

  /** A class the content may serve, of the bases. */
  lemma SmallServable(env: Env, u: Graph, bases: set<Cls>, c: Cls)
    requires Authored(u) && Timeless(env.frozen) && c in Servable(IndexOfForm(env, u)) && RootIn(bases, c)
    ensures c in AtScopes(bases, Lifted(env.frozen, u))
  {
    SmallKnown(env, u, IndexOfForm(env, u), c);
    UsedNamed(env.frozen, u);
    if c.Slice? {
      AtScopesMember(bases, Lifted(env.frozen, u), c.base, c.scope);
    }
  }

  /** The top sits in a leaf of a slice of one of the bases. */
  ghost predicate InLeaf(ix: Index, n: Node, bases: set<Cls>) {
    ClassOf(ix, n).ValueLeaf? && !ClassOf(ix, n).of.ValueLeaf? && RootIn(bases, ClassOf(ix, n))
  }

  lemma MixedInLeaf(env: Env, u: Graph, parent: map<Node, Node>, h: Graph, ix: Index, n: Node)
    requires Remade(env, u, parent, h, ix) && n in TopNodes(u) && Mixed(env.frozen, u, parent, n)
    ensures Landed(u, h, n, ClassOf(ix, n)) && InLeaf(ix, n, StirredBases(env.frozen, u, parent))
  {
    TopIsFixed(u, n);
    assert Settles(env.frozen, u, parent, h, ix, n);
    InBases(env.frozen, u, parent, n);
    assert RootClass(ClassOf(ix, n).of) == BaseOf(u, n);
  }

  /** What lies above it. */
  lemma LeafServable(frozen: Classes, u: Graph, h: Graph, bases: set<Cls>, ix: Index, n: Node, c: Cls)
    requires Plain(u) && Timeless(frozen) && Drifted(frozen, u, h) && Closed(Tax(frozen, u), bases) && forall c ::
        c in bases ==> c.Named?
    requires InLeaf(ix, n, bases) && ix.sup == frozen + h.sub
    requires c == ClassOf(ix, n) || c in Above(ix, n)
    ensures c == ClassOf(ix, n) || c in AtScopes(bases, Lifted(frozen, u))
  {
    AboveLeaf(frozen, u, h, bases, ClassOf(ix, n));
  }

  lemma MixedServable(env: Env, u: Graph, parent: map<Node, Node>, h: Graph, ix: Index, n: Node, c: Cls)
    requires Remade(env, u, parent, h, ix)
    requires n in TopNodes(u) && Mixed(env.frozen, u, parent, n) && (c == ClassOf(ix, n) || c in Above(ix, n))
    ensures c in AtScopes(StirredBases(env.frozen, u, parent), Lifted(env.frozen, u)) || RootLeaf(env.frozen, u, parent, h, c)
  {
    MixedInLeaf(env, u, parent, h, ix, n);
    StirredBasesNamed(env.frozen, u, parent);
    LeafServable(env.frozen, u, h, StirredBases(env.frozen, u, parent), ix, n, c);
  }

  lemma TopServable(env: Env, u: Graph, parent: map<Node, Node>, h: Graph, ix: Index, n: Node, c: Cls)
    requires Remade(env, u, parent, h, ix)
    requires n in TopNodes(u) && (c == ClassOf(ix, n) || c in Above(ix, n))
    requires RootIn(StirredBases(env.frozen, u, parent), c)
    ensures c in AtScopes(StirredBases(env.frozen, u, parent), Lifted(env.frozen, u)) || RootLeaf(env.frozen, u, parent, h, c)
  {
    if Mixed(env.frozen, u, parent, n) {
      MixedServable(env, u, parent, h, ix, n, c);
    } else {
      PassTop(env, u, parent, h, ix, n);
      FormIndex(env, u);
      SameServable(IndexOfForm(env, u), ix, n, c);
      SmallServable(env, u, StirredBases(env.frozen, u, parent), c);
    }
  }

  lemma SameServable(small: Index, ix: Index, n: Node, c: Cls)
    requires SameTop(small, ix, n) && n in Tops(small) && (c == ClassOf(ix, n) || c in Above(ix, n))
    ensures c in Servable(small)
  {
    AncestorsByTop(small);
    if c == ClassOf(ix, n) {
      assert ClassOf(small, n) in LeafClasses(small);
    } else {
      assert c in Above(small, n);
    }
  }

  lemma ServableTop(ix: Index, c: Cls) returns (n: Node)
    requires c in Servable(ix)
    ensures n in Tops(ix) && (c == ClassOf(ix, n) || c in Above(ix, n))
  {
    AncestorsByTop(ix);
    n :| n in Tops(ix) && (c == ClassOf(ix, n) || c in Above(ix, n));
  }

  /** The window holds classes above the mixed roots, their slices, and the roots' leaves. */
  lemma WindowHolds(env: Env, u: Graph, parent: map<Node, Node>, h: Graph, ix: Index, c: Cls)
    requires Remade(env, u, parent, h, ix)
    requires c in Window(IndexOfForm(env, u), ix, StirredBases(env.frozen, u, parent))
    ensures c in AtScopes(StirredBases(env.frozen, u, parent), Lifted(env.frozen, u)) || RootLeaf(env.frozen, u, parent, h, c)
  {
    DriftedIs(env.frozen, u, h);
    var small, bases := IndexOfForm(env, u), StirredBases(env.frozen, u, parent);
    WindowMember(small, ix, bases, c);
    if c in Servable(small) {
      SmallServable(env, u, bases, c);
    } else {
      var n := ServableTop(ix, c);
      TopsOfIndex(ix, u);
      TopServable(env, u, parent, h, ix, n, c);
    }
  }

  // ---- the affected set covers the window ------------------------------------------------------------------

  /** What lies above the stirred tops and the affected bases do not hold. */
  ghost function StirredMissed(frozen: Classes, a: Graph, s: Graph, parent: map<Node, Node>): set<Cls> {
    StirredBases(frozen, Union(a, s), parent) - AffectedBases(frozen, Union(a, s), NewWholes(s))
  }

  lemma RootLeafAffected(frozen: Classes, u: Graph, parent: map<Node, Node>, h: Graph, wholes: set<Node>, c: Cls)
    requires RootLeaf(frozen, u, parent, h, c)
    requires AtScopes(StirredBases(frozen, u, parent), Lifted(frozen, u)) <= AffectedBy(h, wholes)
    ensures c in AffectedBy(h, wholes)
  {
    var n :| n in TopNodes(u) && Mixed(frozen, u, parent, n) && Landed(u, h, n, c);
    InBases(frozen, u, parent, n);
    StampIsLifted(frozen, u, n);
    AtScopesMember(StirredBases(frozen, u, parent), Lifted(frozen, u), BaseOf(u, n), u.when[n]);
    LeafAffected(h, wholes, c);
  }

  lemma WindowAffected(env: Env, a: Graph, s: Graph, parent: map<Node, Node>, h: Graph, ix: Index)
    requires Arrival(env.frozen, a, s) && Remade(env, Union(a, s), parent, h, ix)
    requires StirredMissed(env.frozen, a, s, parent) == {}
    ensures Window(IndexOfForm(env, Union(a, s)), ix, StirredBases(env.frozen, Union(a, s), parent)) <= AffectedBy(h, NewWholes(s))
  {
    var u, bases := Union(a, s), StirredBases(env.frozen, Union(a, s), parent);
    PartsWithin(s);
    forall c | c in bases ensures c in AffectedBases(env.frozen, u, NewWholes(s)) {
      assert c !in StirredMissed(env.frozen, a, s, parent);
    }
    assert AtScopes(bases, Lifted(env.frozen, u)) <= AffectedBy(h, NewWholes(s)) by {
      BasesFound(env.frozen, u, NewWholes(s));
      AffectedInDrift(env.frozen, u, h, NewWholes(s));
    }
    forall c | c in Window(IndexOfForm(env, u), ix, bases) ensures c in AffectedBy(h, NewWholes(s)) {
      WindowHolds(env, u, parent, h, ix, c);
      if RootLeaf(env.frozen, u, parent, h, c) {
        RootLeafAffected(env.frozen, u, parent, h, NewWholes(s), c);
      }
    }
  }

  // ---- incremental equals full ------------------------------------------------------------------------------

  lemma AgreeThrough<T>(a: map<Cls, T>, b: map<Cls, T>, c: map<Cls, T>, v: set<Cls>, w: set<Cls>, all: set<Cls>)
    requires LeavesAgree(a, b, v) && LeavesAgree(b, c, w) && v <= all && w <= all
    ensures LeavesAgree(a, c, all)
  {
  }

  /** Three indexes in a row: what the first two and the last two have in common, the outer two have. */
  lemma SpliceThrough(small: Index, mid: Index, ix: Index, compound: bool, v: set<Cls>, w: set<Cls>, affected: set<Cls>)
    requires Framed(small, mid, v) && Framed(mid, ix, w) && v <= affected && w <= affected
    ensures Wf(small.dag) && Wf(ix.dag)
    ensures Spliced(ViewOf(small, compound), ViewOf(ix, compound), affected) == ViewOf(ix, compound)
  {
    TablesAgree(small, mid, Best, compound, v);
    TablesAgree(mid, ix, Best, compound, w);
    var sb, mb, bb := AmountTable(small, Best), AmountTable(mid, Best), AmountTable(ix, Best);
    AgreeThrough(sb, mb, bb, v, w, affected);
    AgreeThrough(UncertaintyTable(small, compound, sb), UncertaintyTable(mid, compound, mb),
                 UncertaintyTable(ix, compound, bb), v, w, affected);
    AgreeThrough(QualityTable(small, sb), QualityTable(mid, mb), QualityTable(ix, bb), v, w, affected);
    RowsAgree(sb, bb, UncertaintyTable(small, compound, sb), UncertaintyTable(ix, compound, bb),
              QualityTable(small, sb), QualityTable(ix, bb), affected, affected);
  }

  /** Whatever the source is, only the touched classes and those over a stirred root can change. */
  lemma PassFramed(env: Env, a: Graph, s: Graph, g: Graph, parent: map<Node, Node>, h: Graph, ix: Index)
    requires Arrival(env.frozen, a, s) && FamilyTimed(Union(a, s))
    requires MadeBy(env.frozen, Union(a, s), g, parent, h) && IsIndex(env, h, ix)
    ensures var mid := IndexOfForm(env, Union(a, s));
            && Framed(IndexOfForm(env, a), mid, Touched(env.frozen, a, s))
            && Framed(mid, ix, Window(mid, ix, StirredBases(env.frozen, Union(a, s), parent)))
  {
    var u := Union(a, s);
    ArrivalFramed(env, a, s);
    PassShifted(env, u, g, parent, h, ix);
    FormPlain(env, u);
    ShiftedFramed(IndexOfForm(env, u), ix, StirredBases(env.frozen, u, parent));
  }

  /** Refreshing the affected rows gives the full derive even when roots or elements are mixed, as
      long as the affected set holds everything above the tops that are mixed or hold one. */
  lemma RootsSplice(env: Env, compound: bool, a: Graph, s: Graph, g: Graph, parent: map<Node, Node>, h: Graph,
                    ix: Index)
    requires Arrival(env.frozen, a, s) && FamilyTimed(Union(a, s)) && Missed(env.frozen, a, s) == {}
    requires MadeBy(env.frozen, Union(a, s), g, parent, h) && IsIndex(env, h, ix)
    requires StirredMissed(env.frozen, a, s, parent) == {}
    ensures var small, affected := IndexOfForm(env, a), AffectedBy(h, NewWholes(s));
            && Wf(small.dag) && Wf(ix.dag)
            && Spliced(ViewOf(small, compound), ViewOf(ix, compound), affected) == ViewOf(ix, compound)
  {
    var u := Union(a, s);
    var small, mid, bases := IndexOfForm(env, a), IndexOfForm(env, u), StirredBases(env.frozen, u, parent);
    PassFramed(env, a, s, g, parent, h, ix);
    PassRemade(env, u, g, parent, h, ix);
    WindowAffected(env, a, s, parent, h, ix);
    DriftCovered(env.frozen, a, s, h);
    SpliceThrough(small, mid, ix, compound, Touched(env.frozen, a, s), Window(mid, ix, bases),
                  AffectedBy(h, NewWholes(s)));
  }
}
