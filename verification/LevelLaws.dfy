/** Slicing gives instances more types and classes more superclasses. It changes no level, so the
    index of a sliced store has the levels and the statements of what was authored. */
module LevelLaws {
  import opened Vocabulary
  import opened Closure
  import opened Levels
  import opened Reach
  import opened YearSlicer
  import opened YearForm
  import opened StoreIndex
  import opened StoreFrame
  import opened ValueSlicer
  import opened Drift
  import Aggregate

  /** An edge of a drifted store stays above the same bases, or enters a level class. */
  lemma EdgeRoot(frozen: Classes, a: Graph, g: Graph, e: (Cls, Cls), high: set<Cls>)
    requires Plain(a) && Timeless(frozen) && Drifted(frozen, a, g) && e in frozen + g.sub
    requires Closed(Tax(frozen, a), high) && RootClass(e.0) in high
    ensures RootClass(e.1) in high || (e.0.Named? && e in frozen + a.sub && e.1 in LEVEL_ROOTS)
  {
    DriftedIs(frozen, a, g);
    if e.0.ValueLeaf? {
      assert LeafLeadsUp(Tax(frozen, a), Lifted(frozen, a), e);
      ReachLeast(Tax(frozen, a), {RootClass(e.0)}, high);
    } else {
      FormEdge(frozen, a, e);
      assert RootClass(e.1) in high || (e.0.Named? && e in frozen + a.sub && e.1 in LEVEL_ROOTS) by {
        LiftedNamed(frozen, a);
        if e in frozen + a.sub {
          if e.1 !in LEVEL_ROOTS {
            assert e in Tax(frozen, a);
            assert e.1 in Image(Tax(frozen, a), high);
          }
        } else if IsCopy(Tax(frozen, a), Lifted(frozen, a), e) {
          assert (e.0.base, e.1.base) in Tax(frozen, a);
          assert e.1.base in Image(Tax(frozen, a), high);
        }
      }
    }
  }

  /** Whatever authored class a class of a drifted store lies below, its base lies below too. */
  lemma RootsAbove(frozen: Classes, a: Graph, g: Graph, c: Cls)
    requires Plain(a) && Timeless(frozen) && Drifted(frozen, a, g)
    ensures forall x :: x in Closure.Reach(frozen + g.sub, {c}) ==>
        RootClass(x) in Closure.Reach(frozen + a.sub, {RootClass(c)})
  {
    var up, edges := frozen + a.sub, frozen + g.sub;
    var high, r := Closure.Reach(up, {RootClass(c)}), Closure.Reach(edges, {c});
    var good := set x | x in r && RootClass(x) in high;
    forall e | e in edges && e.0 in good ensures e.1 in good {
      assert e.1 in Image(edges, r);
      assert RootClass(e.1) in high by {
        assert Image(Tax(frozen, a), high) <= Image(frozen + a.sub, high);
        EdgeRoot(frozen, a, g, e, high);
        if e.0.Named? && e in frozen + a.sub {
          assert e.1 in Image(frozen + a.sub, high);
        }
      }
    }
    ReachLeast(edges, {c}, good);
  }

  /** A class that types an instance lies below its base. */
  lemma BelowRoot(frozen: Classes, a: Graph, g: Graph, e: (Node, Cls))
    requires Plain(a) && Timeless(frozen) && Drifted(frozen, a, g) && e in g.types
    ensures RootClass(e.1) in Closure.Reach(frozen + g.sub, {e.1})
    ensures e.0 in a.level && (e.0, RootClass(e.1)) in a.types
  {
    DriftedIs(frozen, a, g);
    var edges, core := frozen + g.sub, Core(e.1);
    assert TypeKept(Form(frozen, a), g, e);
    FormTypes(frozen, a, (e.0, core));
    assert core in Closure.Reach(edges, {e.1}) by {
      assert e.1.ValueLeaf? ==> LeafLeads(g, e.1);
      ReachMonotone(g.sub, {e.1}, edges, {e.1});
    }
    CoreRoot(e.1);
    if core.Slice? {
      StampLifted(frozen, a, e.0, core);
      SliceBelowBase(frozen, a, core.base, core.scope);
      ReachMonotone(frozen + Form(frozen, a).sub, {core}, edges, {core});
      ReachAbsorbs(edges, {e.1}, core);
    }
  }

  lemma {:induction false} CoreRoot(c: Cls)
    ensures RootClass(Core(c)) == RootClass(c) && !Core(c).ValueLeaf?
  {
    if c.ValueLeaf? {
      CoreRoot(c.of);
    }
  }

  lemma StampLifted(frozen: Classes, a: Graph, n: Node, c: Cls)
    requires c.Slice? && IsStamp(a, (n, c.base)) && c.scope == a.when[n]
    ensures (c.base, c.scope) in Lifted(frozen, a)
  {
    LiftSelf(Tax(frozen, a), Stamped(a));
    var e := (n, c.base);
    assert (e.1, a.when[e.0]) in Stamped(a);
  }

  /** Every class of an instance of a drifted store gives the level its authored class gives. */
  lemma LevelKept(frozen: Classes, a: Graph, g: Graph, e: (Node, Cls))
    requires Plain(a) && Timeless(frozen) && Drifted(frozen, a, g) && e in g.types
    ensures LevelFrom(frozen + g.sub, e.1) == LevelFrom(frozen + a.sub, RootClass(e.1))
  {
    DriftedIs(frozen, a, g);
    var b, edges, up := RootClass(e.1), frozen + g.sub, frozen + a.sub;
    RootsAbove(frozen, a, g, e.1);
    BelowRoot(frozen, a, g, e);
    ReachAbsorbs(edges, {e.1}, b);
    assert a.sub <= Form(frozen, a).sub <= g.sub;
    ReachMonotone(up, {b}, edges, {b});
    FirstOfSame(Closure.Reach(edges, {e.1}), Closure.Reach(up, {b}), LEVELS);
  }

  /** Level `l` is read off the instance, or none. */
  ghost predicate ReadsLevel(level: map<Node, Level>, n: Node, l: Option<Level>) {
    if l.Some? then n in level && level[n] == l.value else n !in level
  }

  lemma DriftLevel(frozen: Classes, a: Graph, g: Graph, n: Node, c: Cls)
    requires Classified(a) && Timeless(frozen) && Drifted(frozen, a, g) && n in a.level && c in TypesAt(g, n)
    ensures LevelFrom(frozen + g.sub, c) == LevelFrom(frozen + a.sub, BaseOf(a, n))
  {
    var e :| e in g.types && e.0 == n && e.1 == c;
    BelowRoot(frozen, a, g, e);
    LevelKept(frozen, a, g, e);
    assert RootClass(c) == BaseOf(a, n);
  }

  lemma HasBase(frozen: Classes, a: Graph, g: Graph, n: Node)
    requires Classified(a) && Drifted(frozen, a, g) && n in a.level
    ensures BaseOf(a, n) in TypesOf(g, n) && BaseOf(a, n) in TypesAt(g, n)
  {
    DriftedIs(frozen, a, g);
    var e := (n, BaseOf(a, n));
    assert e in Form(frozen, a).types && e in g.types;
  }

  /** However often content is sliced, the index reads the level each instance's authored class
      gives; an instance whose class gives none is left out. */
  lemma LevelsInDrift(env: Env, a: Graph, g: Graph, ix: Aggregate.Index)
    requires Classified(a) && Timeless(env.frozen) && Drifted(env.frozen, a, g) && IsIndex(env, g, ix)
    ensures forall n :: n in a.level ==> ReadsLevel(ix.dag.level, n, LevelFrom(env.frozen + a.sub, BaseOf(a, n)))
    ensures ix.dag.level.Keys <= a.level.Keys
  {
    DriftedIs(env.frozen, a, g);
    forall n | n in a.level ensures ReadsLevel(ix.dag.level, n, LevelFrom(env.frozen + a.sub, BaseOf(a, n))) {
      assert ReadsLevel(ix.dag.level, n, LevelFrom(env.frozen + a.sub, BaseOf(a, n))) by {
        DriftedIs(env.frozen, a, g);
        HasBase(env.frozen, a, g, n);
        forall c | c in TypesAt(g, n)
          ensures LevelFrom(env.frozen + g.sub, c) == LevelFrom(env.frozen + a.sub, BaseOf(a, n))
        {
          DriftLevel(env.frozen, a, g, n, c);
        }
      }
    }
  }

  /** However often levelled content is sliced, the index infers the levels it was authored at. */
  lemma LevelsStandInDrift(frozen: Classes, a: Graph, g: Graph)
    requires Timeless(frozen) && Levelled(frozen, a) && Drifted(frozen, a, g)
    ensures LevelsStand(frozen, g)
  {
    DriftedIs(frozen, a, g);
    forall n | n in g.level ensures TypesOf(g, n) != {} {
      HasBase(frozen, a, g, n);
    }
    forall n, c | n in g.level && c in TypesAt(g, n) ensures LevelFrom(frozen + g.sub, c) == Some(g.level[n]) {
      DriftLevel(frozen, a, g, n, c);
      assert LevelGiven(frozen + a.sub, a, n);
    }
  }

  /** So every index of a drifted store has the levels and the statements of its content. */
  lemma IndexAsAuthored(env: Env, a: Graph, g: Graph, ix: Aggregate.Index)
    requires Authored(a) && Timeless(env.frozen) && Levelled(env.frozen, a) && Drifted(env.frozen, a, g)
    requires IsIndex(env, g, ix)
    ensures AsAuthored(env, g, ix)
  {
    DriftedIs(env.frozen, a, g);
    LevelsStandInDrift(env.frozen, a, g);
    StandsAsAuthored(env, g, ix);
  }

  // ---- a new source ---------------------------------------------------------------------------

  /** The source's taxonomy changes the inferred level of no class the store has instances of. */
  ghost predicate LevelsStay(frozen: Classes, a: Graph, s: Graph)
    requires Classified(a)
  {
    forall n :: n in a.level ==>
        LevelFrom(frozen + (a.sub + s.sub), BaseOf(a, n)) == LevelFrom(frozen + a.sub, BaseOf(a, n))
  }

  /** Next to the store the source's own instances get the levels they are authored at. */
  ghost predicate LevelsBeside(frozen: Classes, a: Graph, s: Graph)
    requires Classified(s)
  {
    LevelsGiven(frozen + (a.sub + s.sub), s) && StepWise(DagOf(s))
  }

  lemma SameBase(g: Graph, u: Graph, n: Node)
    requires Classified(g) && Classified(u) && n in g.level && n in u.level
    requires forall c :: (n, c) in u.types <==> (n, c) in g.types
    ensures BaseOf(u, n) == BaseOf(g, n)
  {
    assert (n, BaseOf(u, n)) in u.types;
  }

  /** Every statement of the nodes of `d`, read in the wider `u`, is step-wise. */
  ghost predicate StepsWithin(d: Dag, u: Dag) {
    forall n, i :: n in d.level && n in u.level && 0 <= i < |Edges(u, n)| && Edges(u, n)[i].part in u.level ==>
      Near(u.level[n], u.level[Edges(u, n)[i].part])
  }

  lemma SameSteps(d: Dag, u: Dag)
    requires Wf(d) && forall n :: n in d.level ==>
        n in u.level && u.level[n] == d.level[n] && Edges(u, n) == Edges(d, n)
    ensures StepsWithin(d, u) <==> StepWise(d)
  {
    forall n, i | n in d.level && 0 <= i < |Edges(d, n)|
      ensures Edges(u, n)[i].part in d.level && Edges(u, n)[i] == Edges(d, n)[i]
    {
    }
  }

  lemma StepsUnion(a: Graph, s: Graph)
    requires Wf(DagOf(a)) && Wf(DagOf(s)) && Disjoint(a, s)
    ensures StepWise(DagOf(Union(a, s))) <==> StepWise(DagOf(a)) && StepWise(DagOf(s))
  {
    var u := Union(a, s);
    forall n | n in a.level
      ensures n in u.level && u.level[n] == a.level[n] && Edges(DagOf(u), n) == Edges(DagOf(a), n)
    {
    }
    forall n | n in s.level
      ensures n in u.level && u.level[n] == s.level[n] && Edges(DagOf(u), n) == Edges(DagOf(s), n)
    {
    }
    SameSteps(DagOf(a), DagOf(u));
    SameSteps(DagOf(s), DagOf(u));
  }

  lemma LevelsUnion(a: Graph, s: Graph)
    requires Authored(a) && Authored(s) && Disjoint(a, s)
    ensures Classified(Union(a, s)) && Union(a, s).level.Keys == a.level.Keys + s.level.Keys
    ensures forall n :: n in a.level ==> Union(a, s).level[n] == a.level[n] && BaseOf(Union(a, s), n) == BaseOf(a, n)
    ensures forall n :: n in s.level ==> Union(a, s).level[n] == s.level[n] && BaseOf(Union(a, s), n) == BaseOf(s, n)
  {
    var u := Union(a, s);
    ClassifiedUnion(a, s);
    forall n | n in a.level ensures BaseOf(u, n) == BaseOf(a, n) {
      SameBase(a, u, n);
    }
    forall n | n in s.level ensures BaseOf(u, n) == BaseOf(s, n) {
      SameBase(s, u, n);
    }
  }

  lemma GivenUnion(sup: Classes, a: Graph, s: Graph)
    requires Authored(a) && Authored(s) && Disjoint(a, s) && Classified(Union(a, s))
    ensures LevelsGiven(sup, Union(a, s)) <==> LevelsGiven(sup, a) && LevelsGiven(sup, s)
  {
    LevelsUnion(a, s);
    forall n | n in a.level ensures LevelGiven(sup, Union(a, s), n) <==> LevelGiven(sup, a, n) {
    }
    forall n | n in s.level ensures LevelGiven(sup, Union(a, s), n) <==> LevelGiven(sup, s, n) {
    }
  }

  /** With a source in it, levelled content stays levelled exactly when no class in use changes
      its level and the source is levelled beside it. */
  lemma LevelledUnionIff(frozen: Classes, a: Graph, s: Graph)
    requires Authored(a) && Authored(s) && Disjoint(a, s) && Levelled(frozen, a)
    ensures Classified(Union(a, s))
    ensures Levelled(frozen, Union(a, s)) <==> LevelsStay(frozen, a, s) && LevelsBeside(frozen, a, s)
  {
    ClassifiedUnion(a, s);
    GivenUnion(frozen + (a.sub + s.sub), a, s);
    assert LevelsGiven(frozen + (a.sub + s.sub), a) <==> LevelsStay(frozen, a, s) by {
      forall n | n in a.level
        ensures LevelGiven(frozen + (a.sub + s.sub), a, n)
           <==> LevelFrom(frozen + (a.sub + s.sub), BaseOf(a, n)) == LevelFrom(frozen + a.sub, BaseOf(a, n))
      {
        assert LevelGiven(frozen + a.sub, a, n);
      }
    }
    StepsUnion(a, s);
  }
}
