/** Which instances the value slicer moves, said on the authored content: a timed instance with
    one axis value moves exactly when another timed instance of its class has another value. */
module Mixing {
  import opened Vocabulary
  import opened Closure
  import opened YearSlicer
  import opened YearForm
  import opened StoreIndex
  import opened ValueSlicer
  import opened Climbing
  import opened ValueLaws
  import Rollup

  const DRIVETRAIN: Axis := ValueAxis("drivetrain")

  /** The drivetrains the class of an instance's root lies below. */
  function RootValues(frozen: Classes, u: Graph, parent: map<Node, Node>, n: Node): set<Cls> {
    Closure.Reach(frozen + u.sub, TypesAt(u, RootOf(parent, n, {}))) * Values(u, DRIVETRAIN)
  }

  ghost predicate SameClass(u: Graph, n: Node, m: Node) {
    exists b :: (n, b) in u.types && (m, b) in u.types
  }

  /** `n` and `m` are timed instances of one class; `n` has one drivetrain, `m` another one. */
  ghost predicate Differs(frozen: Classes, u: Graph, parent: map<Node, Node>, n: Node, m: Node) {
    && n in u.when && m in u.when && SameClass(u, n, m)
    && |RootValues(frozen, u, parent, n)| == 1
         && !(RootValues(frozen, u, parent, m) <= RootValues(frozen, u, parent, n))
  }

  ghost predicate Mixed(frozen: Classes, u: Graph, parent: map<Node, Node>, n: Node) {
    exists m :: Differs(frozen, u, parent, n, m)
  }

  lemma DiffersApart(frozen: Classes, u: Graph, parent: map<Node, Node>, n: Node, m: Node)
    requires Differs(frozen, u, parent, n, m)
    ensures n != m
  {
  }

  // ---- values on the finalised graph -----------------------------------------------------------

  /** A class and the slices of everything above it. */
  ghost predicate OverBase(r: set<Cls>, c: Cls) {
    c in r || (c.Slice? && c.base in r)
  }

  lemma ValuesOfForm(frozen: Classes, g: Graph)
    requires Plain(g)
    ensures Values(Form(frozen, g), DRIVETRAIN) == Values(g, DRIVETRAIN) && forall c :: c in Values(g, DRIVETRAIN) ==>
        c.Named?
  {
    forall e | e in Form(frozen, g).axis && e.1 == DRIVETRAIN ensures e in g.axis {
      assert e !in Axes(Lifted(frozen, g));
    }
  }

  /** The values an instance spans in the finalised graph are those of its root's class. */
  lemma FormValues(frozen: Classes, g: Graph, parent: map<Node, Node>, n: Node)
    requires Plain(g) && Timeless(frozen)
    ensures ValuesOf(frozen, DRIVETRAIN, Form(frozen, g), parent, n) == RootValues(frozen, g, parent, n)
  {
    var root, f := RootOf(parent, n, {}), Form(frozen, g);
    var r := Closure.Reach(frozen + g.sub, TypesAt(g, root));
    assert forall c :: c in Closure.Reach(frozen + g.sub, TypesAt(g, root)) ==> c.Named? by {
      assert forall e :: e in frozen + g.sub ==> e.1.Named?;
      ReachTargets(frozen + g.sub, TypesAt(g, root));
    }
    assert forall c :: c in Closure.Reach(frozen + Form(frozen, g).sub, TypesAt(f, root)) && c.Named? ==> c in r by {
      var edges := frozen + Form(frozen, g).sub;
      var all := Closure.Reach(edges, TypesAt(f, root));
      var good := set c | c in all && OverBase(r, c);
      forall e | e in edges && e.0 in good ensures e.1 in good {
        assert OverBase(r, e.1) by {
          FormEdge(frozen, g, e);
          if e in frozen + g.sub {
            assert e.1 in Image(frozen + g.sub, r);
          } else if IsCopy(Tax(frozen, g), Lifted(frozen, g), e) {
            assert e.1.base in Image(frozen + g.sub, r);
          }
        }
        assert e.1 in Image(edges, all);
      }
      ReachLeast(edges, TypesAt(f, root), good);
    }
    ReachMonotone(frozen + g.sub, TypesAt(g, root), frozen + f.sub, TypesAt(f, root));
    ValuesOfForm(frozen, g);
  }

  // ---- moved is mixed -----------------------------------------------------------------------------

  lemma FormSlices(frozen: Classes, g: Graph, c: Cls, b: Cls)
    requires Plain(g)
    ensures (c, b) in Form(frozen, g).sliceOf <==> IsDown(Lifted(frozen, g), (c, b))
  {
    DownsMember(Lifted(frozen, g), (c, b));
    assert Form(frozen, g).sliceOf == {} + Downs(Lifted(frozen, g));
  }

  /** The triples of the finalised graph typed by a slice of `b` are the stamps of `b`. */
  lemma StampOfBase(frozen: Classes, g: Graph, n: Node, c: Cls, b: Cls)
    requires Plain(g)
    ensures (n, c) in Form(frozen, g).types && (c, b) in Form(frozen, g).sliceOf
         <==> IsStamp(g, (n, b)) && c == Slice(b, g.when[n])
  {
    FormSlices(frozen, g, c, b);
    StampedType(g, n, c);
    if IsStamp(g, (n, b)) && c == Slice(b, g.when[n]) {
      LiftSelf(Tax(frozen, g), Stamped(g));
      assert (b, g.when[n]) in Stamped(g);
    }
  }

  lemma SpannedMember(frozen: Classes, g: Graph, parent: map<Node, Node>, b: Cls, v: Cls)
    requires Plain(g) && Timeless(frozen)
    ensures v in Spanned(frozen, DRIVETRAIN, Form(frozen, g), parent, Form(frozen, g).types, b)
         <==> exists m :: IsStamp(g, (m, b)) && v in RootValues(frozen, g, parent, m)
  {
    var f := Form(frozen, g);
    if v in Spanned(frozen, DRIVETRAIN, f, parent, f.types, b) {
      var e :| e in f.types && (e.1, b) in f.sliceOf && v in ValuesOf(frozen, DRIVETRAIN, f, parent, e.0);
      StampOfBase(frozen, g, e.0, e.1, b);
      FormValues(frozen, g, parent, e.0);
    }
    if m :| IsStamp(g, (m, b)) && v in RootValues(frozen, g, parent, m) {
      var c := Slice(b, g.when[m]);
      StampOfBase(frozen, g, m, c, b);
      FormValues(frozen, g, parent, m);
      SpanMember(frozen, DRIVETRAIN, f, parent, m, c, b, v);
    }
  }

  lemma TwoInSet<T>(s: set<T>, x: T, y: T)
    requires x in s && y in s && x != y
    ensures |s| > 1
  {
    Rollup.SubsetSize({x, y}, s);
  }

  lemma OneOfTwo<T>(s: set<T>, x: T) returns (y: T)
    requires |s| > 1
    ensures y in s && y != x
  {
    if s <= {x} {
      Rollup.SubsetSize(s, {x});
    }
    y :| y in s && y != x;
  }

  lemma SharedMember(frozen: Classes, g: Graph, parent: map<Node, Node>, b: Cls, v: Cls) returns (m: Node)
    requires Plain(g) && Timeless(frozen) && b in Shared(frozen, DRIVETRAIN, Form(frozen, g), parent)
    ensures IsStamp(g, (m, b)) && !(RootValues(frozen, g, parent, m) <= {v})
  {
    var f := Form(frozen, g);
    var w := OneOfTwo(Spanned(frozen, DRIVETRAIN, f, parent, f.types, b), v);
    SpannedMember(frozen, g, parent, b, w);
    m :| IsStamp(g, (m, b)) && w in RootValues(frozen, g, parent, m);
  }

  lemma MovedStamp(frozen: Classes, g: Graph, parent: map<Node, Node>, r: (Node, Cls, Cls)) returns (b: Cls)
    requires Plain(g) && Timeless(frozen) && r in Retyped(frozen, DRIVETRAIN, Form(frozen, g), parent)
    ensures IsStamp(g, (r.0, b)) && r.1 == Slice(b, g.when[r.0])
    ensures b in Shared(frozen, DRIVETRAIN, Form(frozen, g), parent)
    ensures RootValues(frozen, g, parent, r.0) == {r.2}
  {
    var f := Form(frozen, g);
    RetypedMember(frozen, DRIVETRAIN, f, parent, r);
    b :| b in Shared(frozen, DRIVETRAIN, f, parent) && (r.1, b) in f.sliceOf;
    StampOfBase(frozen, g, r.0, r.1, b);
    FormValues(frozen, g, parent, r.0);
  }

  lemma MovedIsMixed(frozen: Classes, g: Graph, parent: map<Node, Node>, r: (Node, Cls, Cls))
    requires Plain(g) && Timeless(frozen) && r in Retyped(frozen, DRIVETRAIN, Form(frozen, g), parent)
    ensures Mixed(frozen, g, parent, r.0)
  {
    var b := MovedStamp(frozen, g, parent, r);
    var m := SharedMember(frozen, g, parent, b, r.2);
    assert Mixed(frozen, g, parent, r.0) by {
      assert SameClass(g, r.0, m);
      assert Differs(frozen, g, parent, r.0, m);
    }
  }

  lemma MixedIsMoved(frozen: Classes, g: Graph, parent: map<Node, Node>, n: Node) returns (r: (Node, Cls, Cls))
    requires Classified(g) && Timeless(frozen) && Mixed(frozen, g, parent, n)
    ensures r in Retyped(frozen, DRIVETRAIN, Form(frozen, g), parent) && r.0 == n
  {
    var m :| Differs(frozen, g, parent, n, m);
    var b :| (n, b) in g.types && (m, b) in g.types;
    assert HasOneType(g, n);
    var v :| v in RootValues(frozen, g, parent, n);
    assert RootValues(frozen, g, parent, n) == {v} by {
      if y :| y in RootValues(frozen, g, parent, n) && y != v {
        TwoInSet(RootValues(frozen, g, parent, n), v, y);
      }
    }
    var w :| w in RootValues(frozen, g, parent, m) && w != v;
    assert b in Shared(frozen, DRIVETRAIN, Form(frozen, g), parent) by {
      var f, c := Form(frozen, g), Slice(b, g.when[n]);
      SpannedMember(frozen, g, parent, b, v);
      SpannedMember(frozen, g, parent, b, w);
      TwoInSet(Spanned(frozen, DRIVETRAIN, f, parent, f.types, b), v, w);
      StampOfBase(frozen, g, n, c, b);
      FormValues(frozen, g, parent, n);
      SpanMember(frozen, DRIVETRAIN, f, parent, n, c, b, v);
    }
    assert (n, Slice(b, g.when[n]), v) in Retyped(frozen, DRIVETRAIN, Form(frozen, g), parent) by {
      var f, r := Form(frozen, g), (n, Slice(b, g.when[n]), v);
      FormValues(frozen, g, parent, n);
      StampOfBase(frozen, g, n, r.1, b);
      assert v in ValuesOf(frozen, DRIVETRAIN, f, parent, n);
      RetypedMember(frozen, DRIVETRAIN, f, parent, r);
    }
    r := (n, Slice(b, g.when[n]), v);
  }

  /** An instance of the finalised content is moved exactly when it is mixed. */
  lemma MovedIffMixed(frozen: Classes, g: Graph, parent: map<Node, Node>, n: Node)
    requires Classified(g) && Timeless(frozen)
    ensures (exists r :: r in Retyped(frozen, DRIVETRAIN, Form(frozen, g), parent) && r.0 == n)
        <==> Mixed(frozen, g, parent, n)
  {
    if r :| r in Retyped(frozen, DRIVETRAIN, Form(frozen, g), parent) && r.0 == n {
      MovedIsMixed(frozen, g, parent, r);
    }
    if Mixed(frozen, g, parent, n) {
      var r := MixedIsMoved(frozen, g, parent, n);
    }
  }
}
