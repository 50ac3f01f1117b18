/** The affected set of an incremental add, and why it covers everything a new source can
    reach although it follows the store's own edges only. */
module Affected {
  import opened Vocabulary
  import opened Closure
  import opened YearSlicer
  import opened YearForm
  import opened StoreIndex
  import opened StoreFrame

  /** Subclass and slice edges of the store: the frozen taxonomy is not among them. */
  function Upward(g: Graph): set<(Cls, Cls)> {
    g.sub + g.sliceOf
  }

  /** From a base down to the slices that name an axis. */
  function Downward(g: Graph): set<(Cls, Cls)> {
    set e, x {:trigger e in g.sliceOf, x in g.axis} | e in g.sliceOf && x in g.axis && x.0 == e.0 :: (e.1, e.0)
  }

  function AffectedBy(g: Graph, wholes: set<Node>): set<Cls> {
    Closure.Reach(Downward(g), Closure.Reach(Upward(g), ClassesAt(g, wholes)))
  }

  /** `out` is reached from `start`, and only `frontier` still has edges to follow. */
  ghost predicate Descending(edges: set<(Cls, Cls)>, start: set<Cls>, out: set<Cls>, frontier: set<Cls>) {
    && start <= out <= Closure.Reach(edges, start)
    && frontier <= out
    && Image(edges, out - frontier) <= out
  }

  /** `affected_classes`: the upward query, then the descent into slices to a fixpoint. */
  method AffectedClasses(g: Graph, wholes: set<Node>) returns (out: set<Cls>)
    ensures out == AffectedBy(g, wholes)
  {
    var changed := ClassesAt(g, wholes);
    if changed == {} {
      ReachNothing(Upward(g), {});
      ReachNothing(Downward(g), {});
      return {};
    }
    out := Closure.Reach(Upward(g), changed);
    ghost var start := out;
    var edges, frontier := Downward(g), out;
    assert out - frontier == {} && Image(edges, {}) == {};
    while frontier != {}
      invariant Descending(edges, start, out, frontier)
      decreases Closure.Reach(edges, start) - out, frontier
    {
      assert var next := Image(edges, frontier) - out;
             && Descending(edges, start, out + next, next)
             && (next != {} ==> Closure.Reach(edges, start) - (out + next) < Closure.Reach(edges, start) - out) by {
        var next, all := Image(edges, frontier) - out, Closure.Reach(edges, start);
        assert Image(edges, frontier) <= Image(edges, all);
        assert out + next - next == out;
        assert Image(edges, out) <= out + next;
        if next != {} {
          var x :| x in next;
          assert x in all - out && x !in all - (out + next);
        }
      }
      var next := Image(edges, frontier) - out;
      assert next == {} ==> out + next == out;
      out, frontier := out + next, next;
    }
    assert out == Closure.Reach(edges, start) by {
      assert out - {} == out;
      ReachLeast(edges, start, out);
    }
  }

  /** The wholes of a source's relations. */
  function NewWholes(s: Graph): set<Node> {
    s.parts.Keys
  }

  // ---- the affected set in closed form --------------------------------------------------------

  /** The timeless affected classes: what the store's own subclass edges reach from the classes
      of the wholes, and from everything above a timed one of them. */
  function AffectedBases(frozen: set<(Cls, Cls)>, g: Graph, wholes: set<Node>): set<Cls> {
    Closure.Reach(g.sub, ClassesAt(g, wholes) + TimedReach(frozen, g, wholes))
  }

  function TimedIn(g: Graph, wholes: set<Node>): set<Node> {
    set n | n in wholes && n in g.when
  }

  function TimedReach(frozen: set<(Cls, Cls)>, g: Graph, wholes: set<Node>): set<Cls> {
    Closure.Reach(Tax(frozen, g), ClassesAt(g, TimedIn(g, wholes)))
  }

  lemma BasesNamed(frozen: set<(Cls, Cls)>, g: Graph, wholes: set<Node>)
    requires Plain(g) && Timeless(frozen)
    ensures forall c :: c in TimedReach(frozen, g, wholes) || c in AffectedBases(frozen, g, wholes) ==> c.Named?
  {
    assert forall e :: e in Tax(frozen, g) ==> e.1.Named?;
    ReachTargets(Tax(frozen, g), ClassesAt(g, TimedIn(g, wholes)));
    ReachTargets(g.sub, ClassesAt(g, wholes) + TimedReach(frozen, g, wholes));
  }

  /** One step of the upward query. */
  lemma UpwardEdge(frozen: set<(Cls, Cls)>, g: Graph, bases: set<Cls>, timed: set<Cls>, e: (Cls, Cls))
    requires Plain(g) && Closed(g.sub, bases) && Closed(Tax(frozen, g), timed) && timed <= bases
    requires forall c :: c in bases ==> c.Named?
    requires e in Form(frozen, g).sub && e.0 in bases + AtScopes(timed, Lifted(frozen, g))
    ensures e.1 in bases + AtScopes(timed, Lifted(frozen, g))
  {
    var lifted := Lifted(frozen, g);
    FormEdge(frozen, g, e);
    if e in g.sub {
      assert e.1 in Image(g.sub, bases);
    } else if IsCopy(Tax(frozen, g), lifted, e) {
      assert e.1.base in Image(Tax(frozen, g), timed);
      LiftedAbove(frozen, g, e.0.base, e.1.base, e.0.scope);
      AtScopesMember(timed, lifted, e.1.base, e.0.scope);
    }
  }

  /** The upward query stays within the affected bases and the slices above timed wholes. */
  lemma UpwardWithin(frozen: set<(Cls, Cls)>, g: Graph, wholes: set<Node>)
    requires Classified(g) && Timeless(frozen) && wholes <= g.level.Keys
    ensures Closure.Reach(Upward(Form(frozen, g)), ClassesAt(Form(frozen, g), wholes))
              <= AffectedBases(frozen, g, wholes) + AtScopes(TimedReach(frozen, g, wholes), Lifted(frozen, g))
  {
    var f, lifted := Form(frozen, g), Lifted(frozen, g);
    var bases, timed := AffectedBases(frozen, g, wholes), TimedReach(frozen, g, wholes);
    var all := bases + AtScopes(timed, lifted);
    BasesNamed(frozen, g, wholes);
    forall c | c in ClassesAt(f, wholes) ensures c in all {
      assert c in ClassesAt(g, wholes) || c in AtScopes(TimedReach(frozen, g, wholes), Lifted(frozen, g)) by {
        var e :| e in Form(frozen, g).types && e.0 in wholes && e.1 == c;
        if e !in g.types {
          StampedType(g, e.0, c);
          var timed := TimedIn(g, wholes);
          TopTyped(g, e.0, timed);
          StampIsLifted(frozen, g, e.0);
          AtScopesMember(TimedReach(frozen, g, wholes), Lifted(frozen, g), c.base, c.scope);
        }
      }
    }
    forall e | e in Upward(f) && e.0 in all ensures e.1 in all {
      assert e in f.sub;
      UpwardEdge(frozen, g, bases, timed, e);
    }
    ReachLeast(Upward(f), ClassesAt(f, wholes), all);
  }

  lemma DownEdge(frozen: set<(Cls, Cls)>, g: Graph, e: (Cls, Cls))
    requires Plain(g)
    ensures e in Downward(Form(frozen, g)) <==> IsDown(Lifted(frozen, g), (e.1, e.0))
  {
    var f, lifted := Form(frozen, g), Lifted(frozen, g);
    DownsMember(lifted, (e.1, e.0));
    assert f.sliceOf == {} + Downs(lifted);
    if IsDown(lifted, (e.1, e.0)) {
      var d, m, x := (e.1, e.0), (e.1.base, e.1.scope), (e.1, YearAxis);
      assert m in lifted && x == (Slice(m.0, m.1), YearAxis);
      assert x in Axes(lifted) && x in f.axis && d in f.sliceOf;
    }
  }

  /** The upward query finds everything above a timed whole. */
  lemma TimedFound(frozen: set<(Cls, Cls)>, g: Graph, wholes: set<Node>)
    requires Classified(g) && Timeless(frozen) && wholes <= g.level.Keys
    ensures TimedReach(frozen, g, wholes) <= Closure.Reach(Upward(Form(frozen, g)), ClassesAt(Form(frozen, g), wholes))
  {
    var f, timed := Form(frozen, g), TimedIn(g, wholes);
    var r := Closure.Reach(Upward(f), ClassesAt(f, wholes));
    assert Closed(f.sub, r) by {
      assert Image(f.sub, r) <= Image(Upward(f), r);
    }
    forall x | x in TimedReach(frozen, g, wholes) ensures x in r {
      var b := ReachFrom(Tax(frozen, g), ClassesAt(g, timed), x);
      var e :| e in g.types && e.0 in timed && e.1 == b;
      var t := g.when[e.0];
      StampIsLifted(frozen, g, e.0);
      StampedType(g, e.0, Slice(b, t));
      var l := (e.0, Slice(b, t));
      assert l in f.types && l.0 in wholes;
      SliceClosure(frozen, g, b, t, r);
    }
  }

  lemma BasesUpward(frozen: set<(Cls, Cls)>, g: Graph, wholes: set<Node>)
    requires Classified(g) && Timeless(frozen) && wholes <= g.level.Keys
    ensures AffectedBases(frozen, g, wholes) <= Closure.Reach(Upward(Form(frozen, g)), ClassesAt(Form(frozen, g), wholes))
  {
    var f := Form(frozen, g);
    var r := Closure.Reach(Upward(f), ClassesAt(f, wholes));
    TimedFound(frozen, g, wholes);
    assert Image(g.sub, r) <= Image(Upward(f), r);
    assert ClassesAt(g, wholes) <= ClassesAt(f, wholes);
    ReachLeast(g.sub, ClassesAt(g, wholes) + TimedReach(frozen, g, wholes), r);
  }

  lemma BasesFound(frozen: set<(Cls, Cls)>, g: Graph, wholes: set<Node>)
    requires Classified(g) && Timeless(frozen) && wholes <= g.level.Keys
    ensures AtScopes(AffectedBases(frozen, g, wholes), Lifted(frozen, g)) <= AffectedBy(Form(frozen, g), wholes)
  {
    var all := AffectedBy(Form(frozen, g), wholes);
    BasesUpward(frozen, g, wholes);
    forall m | m in Lifted(frozen, g) && m.0 in AffectedBases(frozen, g, wholes) ensures Slice(m.0, m.1) in all {
      assert Slice(m.0, m.1) in all by {
        DownEdge(frozen, g, (m.0, Slice(m.0, m.1)));
        assert Slice(m.0, m.1) in Image(Downward(Form(frozen, g)), all);
      }
    }
  }

  /** What the two queries find on the finalised graph, in terms of the authored content: the
      affected bases and every slice of them. */
  lemma AffectedClosedForm(frozen: set<(Cls, Cls)>, g: Graph, wholes: set<Node>)
    requires Classified(g) && Timeless(frozen) && wholes <= g.level.Keys
    ensures AffectedBy(Form(frozen, g), wholes) == AtScopes(AffectedBases(frozen, g, wholes), Lifted(frozen, g))
  {
    assert AffectedBy(Form(frozen, g), wholes) <= AtScopes(AffectedBases(frozen, g, wholes), Lifted(frozen, g)) by {
      var f, lifted, bases := Form(frozen, g), Lifted(frozen, g), AffectedBases(frozen, g, wholes);
      UpwardWithin(frozen, g, wholes);
      LiftedNamed(frozen, g);
      BasesNamed(frozen, g, wholes);
      forall e | e in Downward(f) && e.0 in AtScopes(bases, lifted) ensures e.1 in AtScopes(bases, lifted) {
        DownEdge(frozen, g, e);
        AtScopesMember(bases, lifted, e.1.base, e.1.scope);
      }
      ReachLeast(Downward(f), Closure.Reach(Upward(f), ClassesAt(f, wholes)), AtScopes(bases, lifted));
    }
    BasesFound(frozen, g, wholes);
  }

  // ---- coverage ---------------------------------------------------------------------------------

  /** Everything above the edges a source puts above classes in use. */
  function NewAbove(frozen: set<(Cls, Cls)>, a: Graph, s: Graph): set<Cls> {
    Closure.Reach(Tax(frozen, Union(a, s)), Targets(NewEdges(frozen, a, s)))
  }

  /** The classes the source can change and the affected set does not hold: above an untimed
      new top or a new edge, by the frozen taxonomy alone. All of it is authored content. */
  function Missed(frozen: set<(Cls, Cls)>, a: Graph, s: Graph): set<Cls> {
    Loose(frozen, a, s) + NewAbove(frozen, a, s) - AffectedBases(frozen, Union(a, s), NewWholes(s))
  }

  lemma ReachUnion<T>(edges: set<(T, T)>, s: set<T>, t: set<T>)
    ensures Closure.Reach(edges, s + t) == Closure.Reach(edges, s) + Closure.Reach(edges, t)
  {
    var both := Closure.Reach(edges, s) + Closure.Reach(edges, t);
    assert Image(edges, both) == Image(edges, Closure.Reach(edges, s)) + Image(edges, Closure.Reach(edges, t));
    ReachLeast(edges, s + t, both);
    ReachMonotone(edges, s, edges, s + t);
    ReachMonotone(edges, t, edges, s + t);
  }

  lemma TypesInUnion(a: Graph, s: Graph, ns: set<Node>)
    requires Plain(a) && Disjoint(a, s) && ns <= s.level.Keys
    ensures ClassesAt(Union(a, s), ns) == ClassesAt(s, ns)
  {
  }

  /** Above the timed new tops the affected set holds everything. */
  lemma RaisedFound(frozen: set<(Cls, Cls)>, a: Graph, s: Graph)
    requires Arrival(frozen, a, s)
    ensures var bases := AffectedBases(frozen, Union(a, s), NewWholes(s));
            && (Raised(frozen, a, s) <= bases <==> NewAbove(frozen, a, s) <= bases)
            && ClassesAt(s, UntimedTops(s)) <= bases
  {
    var u, wholes := Union(a, s), NewWholes(s);
    var tax, bases := Tax(frozen, u), AffectedBases(frozen, u, wholes);
    var timed := TimedIn(u, wholes);
    PartsWithin(s);
    TypesInUnion(a, s, wholes);
    TypesInUnion(a, s, timed);
    assert TimedTops(s) <= timed;
    assert ClassesAt(s, TimedTops(s)) <= ClassesAt(s, timed);
    ReachMonotone(tax, ClassesAt(s, TimedTops(s)), tax, ClassesAt(u, timed));
    ReachUnion(tax, ClassesAt(s, TimedTops(s)), Targets(NewEdges(frozen, a, s)));
    assert ClassesAt(s, UntimedTops(s)) <= ClassesAt(s, wholes);
  }

  lemma NamedWithin(cs: set<Cls>, ds: set<Cls>, lifted: set<(Cls, Scope)>)
    requires forall c :: c in cs ==> c.Named?
    ensures cs <= AtScopes(ds, lifted) <==> cs <= ds
  {
  }

  lemma LooseNamed(frozen: set<(Cls, Cls)>, a: Graph, s: Graph)
    requires Plain(a) && Plain(s) && Timeless(frozen)
    ensures forall c :: c in Loose(frozen, a, s) || c in ClassesAt(s, UntimedTops(s)) ==> c.Named?
  {
    assert forall e :: e in Tax(frozen, Union(a, s)) ==> e.1.Named?;
    ReachTargets(Tax(frozen, Union(a, s)), ClassesAt(s, UntimedTops(s)));
  }

  /** Closure coverage: the affected set, which follows store edges only, holds every class
      the source can change through store and frozen taxonomy exactly when nothing is missed. */
  lemma CoveredIff(frozen: set<(Cls, Cls)>, a: Graph, s: Graph)
    requires Arrival(frozen, a, s)
    ensures Touched(frozen, a, s) <= AffectedBy(Form(frozen, Union(a, s)), NewWholes(s)) <==> Missed(frozen, a, s) == {}
  {
    var u, lifted := Union(a, s), Lifted(frozen, Union(a, s));
    var bases, raised, above := AffectedBases(frozen, u, NewWholes(s)), Raised(frozen, a, s), NewAbove(frozen, a, s);
    var tops, loose := ClassesAt(s, UntimedTops(s)), Loose(frozen, a, s);
    assert AffectedBy(Form(frozen, u), NewWholes(s)) == AtScopes(bases, lifted) by {
      AuthoredUnion(a, s);
      PartsWithin(s);
      AffectedClosedForm(frozen, u, NewWholes(s));
    }
    assert (raised <= bases <==> above <= bases) && tops <= bases by {
      RaisedFound(frozen, a, s);
    }
    assert forall c :: c in raised || c in bases || c in tops || c in loose ==> c.Named? by {
      PlainUnion(a, s);
      RaisedNamed(frozen, a, s);
      BasesNamed(frozen, u, NewWholes(s));
      LooseNamed(frozen, a, s);
    }
    NamedWithin(tops, bases, lifted);
    NamedWithin(loose, bases, lifted);
    assert AtScopes(raised, lifted) + tops + loose <= AtScopes(bases, lifted) <==> loose + above - bases == {} by {
      if AtScopes(raised, lifted) + tops + loose <= AtScopes(bases, lifted) {
        assert loose <= AtScopes(bases, lifted) && AtScopes(raised, lifted) <= AtScopes(bases, lifted);
      }
      if loose + above - bases == {} {
        forall c | c in loose || c in above ensures c in bases {
          assert c !in loose + above - bases;
        }
      }
    }
  }

  /** A source whose tops carry a time and that puts nothing above a class in use misses nothing. */
  lemma TimedTopsCovered(frozen: set<(Cls, Cls)>, a: Graph, s: Graph)
    requires UntimedTops(s) == {} && NewEdges(frozen, a, s) == {}
    ensures Missed(frozen, a, s) == {}
  {
    assert ClassesAt(s, UntimedTops(s)) == {} && Targets(NewEdges(frozen, a, s)) == {};
    ReachNothing(Tax(frozen, Union(a, s)), {});
  }
}
