/** The value-axis slicer: a base whose instances span two values of the axis is shared, and
    each of its instances is moved down to the leaf of its own value. */
module ValueSlicer {
  import opened Vocabulary
  import opened Closure
  import opened YearSlicer
  import opened Climbing

  type Classes = set<(Cls, Cls)>

  /** The classes marked as values of the axis. */
  function Values(g: Graph, axis: Axis): set<Cls> {
    set e {:trigger e in g.axis} | e in g.axis && e.1 == axis :: e.0
  }

  /** Every (part, whole) pair the statements give. */
  function Holders(g: Graph): set<(Node, Node)> {
    set w, i | w in g.parts && 0 <= i < |g.parts[w]| :: (g.parts[w][i].part, w)
  }

  /** The part-of map keeps one whole of each part; which one depends on iteration order. */
  ghost predicate IsParentMap(g: Graph, parent: map<Node, Node>) {
    && (forall e {:trigger e in Holders(g)} :: e in Holders(g) ==> e.0 in parent)
    && (forall p :: p in parent ==> (p, parent[p]) in Holders(g))
  }

  /** The axis values the classes of an instance's root reach. */
  function ValuesOf(frozen: Classes, axis: Axis, g: Graph, parent: map<Node, Node>, n: Node): set<Cls> {
    Closure.Reach(frozen + g.sub, TypesAt(g, RootOf(parent, n, {}))) * Values(g, axis)
  }

  predicate HasValue(frozen: Classes, axis: Axis, g: Graph, parent: map<Node, Node>, n: Node, v: Cls) {
    v in ValuesOf(frozen, axis, g, parent, n) && |ValuesOf(frozen, axis, g, parent, n)| == 1
  }

  lemma OneValue(frozen: Classes, axis: Axis, g: Graph, parent: map<Node, Node>, n: Node, v: Cls)
    ensures HasValue(frozen, axis, g, parent, n, v) <==> ValuesOf(frozen, axis, g, parent, n) == {v}
  {
    var vals := ValuesOf(frozen, axis, g, parent, n);
    if v in vals && |vals| == 1 {
      assert |vals - {v}| == 0;
    }
  }

  /** The bases that the classes of the given type triples slice. */
  function BasesOf(g: Graph, types: set<(Node, Cls)>): set<Cls> {
    Image(g.sliceOf, set e {:trigger e in types} | e in types :: e.1)
  }

  /** The values spanned by the instances typed by a slice of `b`. */
  function Spanned(frozen: Classes, axis: Axis, g: Graph, parent: map<Node, Node>, types: set<(Node, Cls)>,
                   b: Cls): set<Cls> {
    set e, v {:trigger e in types, v in ValuesOf(frozen, axis, g, parent, e.0)}
        | e in types && (e.1, b) in g.sliceOf && v in ValuesOf(frozen, axis, g, parent, e.0) :: v
  }

  /** A base is shared when its instances span two values. */
  function Shared(frozen: Classes, axis: Axis, g: Graph, parent: map<Node, Node>): set<Cls> {
    set b | b in BasesOf(g, g.types) && |Spanned(frozen, axis, g, parent, g.types, b)| > 1
  }

  predicate SlicesShared(g: Graph, shared: set<Cls>, c: Cls) {
    exists b | b in shared :: (c, b) in g.sliceOf
  }

  /** (instance, class, value): the type triples to replace. */
  function Retyped(frozen: Classes, axis: Axis, g: Graph, parent: map<Node, Node>): set<(Node, Cls, Cls)> {
    set e, v {:trigger e in g.types, HasValue(frozen, axis, g, parent, e.0, v)}
        | e in g.types && v in Values(g, axis) && HasValue(frozen, axis, g, parent, e.0, v)
               && SlicesShared(g, Shared(frozen, axis, g, parent), e.1) :: (e.0, e.1, v)
  }

  // ---- rewriting ---------------------------------------------------------------------------

  function LeafOf(r: (Node, Cls, Cls)): Cls {
    ValueLeaf(r.2, r.1)
  }

  function Dropped(rs: set<(Node, Cls, Cls)>): set<(Node, Cls)> {
    set r {:trigger r in rs} | r in rs :: (r.0, r.1)
  }

  function Moved(rs: set<(Node, Cls, Cls)>): set<(Node, Cls)> {
    set r {:trigger r in rs} | r in rs :: (r.0, LeafOf(r))
  }

  predicate HasAxis(g: Graph, c: Cls) {
    exists x {:trigger x in g.axis} :: x in g.axis && x.0 == c
  }

  predicate IsSliced(g: Graph, c: Cls) {
    exists e {:trigger e in g.sliceOf} :: e in g.sliceOf && e.0 == c
  }

  /** A leaf slices its class, and inherits the slice edges of a class that has an axis. */
  function LeafEdges(g: Graph, rs: set<(Node, Cls, Cls)>): Classes {
    (set r {:trigger r in rs} | r in rs :: (LeafOf(r), r.1))
    + (set r, e {:trigger r in rs, e in g.sliceOf} | r in rs && e in g.sliceOf && e.0 == r.1 && HasAxis(g, r.1) ::
         (LeafOf(r), e.1))
  }

  function LeafAxes(g: Graph, axis: Axis, rs: set<(Node, Cls, Cls)>): set<(Cls, Axis)> {
    (set r | r in rs :: (LeafOf(r), axis))
    + (set r, x {:trigger r in rs, x in g.axis} | r in rs && x in g.axis && x.0 == r.1 && IsSliced(g, r.1) ::
         (LeafOf(r), x.1))
  }

  function LeafScopes(g: Graph, rs: set<(Node, Cls, Cls)>): set<(Cls, Scope)> {
    set r, e {:trigger r in rs, e in g.scope} | r in rs && e in g.scope && e.0 == r.1 :: (LeafOf(r), e.1)
  }

  function Rewrite(g: Graph, axis: Axis, rs: set<(Node, Cls, Cls)>): Graph {
    g.(types := g.types - Dropped(rs) + Moved(rs),
       sub := g.sub + LeafEdges(g, rs),
       sliceOf := g.sliceOf + LeafEdges(g, rs),
       axis := g.axis + LeafAxes(g, axis, rs),
       scope := g.scope + LeafScopes(g, rs))
  }

  function Resliced(frozen: Classes, axis: Axis, g: Graph, parent: map<Node, Node>): Graph {
    Rewrite(g, axis, Retyped(frozen, axis, g, parent))
  }

  // ---- the loops ------------------------------------------------------------------------------

  /** The part-of map, filled in whatever order the statements come. */
  method ParentMap(g: Graph) returns (parent: map<Node, Node>)
    ensures IsParentMap(g, parent)
  {
    parent := map[];
    var todo := Holders(g);
    while todo != {}
      invariant todo <= Holders(g)
      invariant forall e :: e in Holders(g) - todo ==> e.0 in parent
      invariant forall p :: p in parent ==> (p, parent[p]) in Holders(g)
      decreases todo
    {
      var e :| e in todo;
      parent, todo := parent[e.0 := e.1], todo - {e};
    }
  }

  lemma BasesSnoc(g: Graph, types: set<(Node, Cls)>, e: (Node, Cls))
    ensures BasesOf(g, types + {e}) == BasesOf(g, types) + Image(g.sliceOf, {e.1})
  {
  }

  lemma SpannedSnoc(frozen: Classes, axis: Axis, g: Graph, parent: map<Node, Node>, types: set<(Node, Cls)>,
                    e: (Node, Cls), b: Cls)
    ensures Spanned(frozen, axis, g, parent, types + {e}, b)
         == Spanned(frozen, axis, g, parent, types, b)
            + if (e.1, b) in g.sliceOf then ValuesOf(frozen, axis, g, parent, e.0) else {}
  {
  }

  /** `base_values[base] |= vals`, for every base the class slices. */
  method AddValues(baseValues: map<Cls, set<Cls>>, bases: set<Cls>, vals: set<Cls>) returns (r: map<Cls, set<Cls>>)
    ensures r.Keys == baseValues.Keys + bases
    ensures forall b :: b in r ==>
              r[b] == (if b in baseValues then baseValues[b] else {}) + if b in bases then vals else {}
  {
    r := baseValues;
    var todo := bases;
    while todo != {}
      invariant todo <= bases && r.Keys == baseValues.Keys + (bases - todo)
      invariant forall b :: b in r ==>
                  r[b] == (if b in baseValues then baseValues[b] else {}) + if b in bases - todo then vals else {}
      decreases todo
    {
      var b :| b in todo;
      r, todo := r[b := (if b in r then r[b] else {}) + vals], todo - {b};
    }
  }

  /** `_index`: the shared bases. */
  method IndexShared(frozen: Classes, axis: Axis, g: Graph, parent: map<Node, Node>) returns (shared: set<Cls>)
    ensures shared == Shared(frozen, axis, g, parent)
  {
    var baseValues: map<Cls, set<Cls>> := map[];
    var todo := g.types;
    while todo != {}
      invariant todo <= g.types
      invariant baseValues.Keys == BasesOf(g, g.types - todo)
      invariant forall b :: b in baseValues ==> baseValues[b] == Spanned(frozen, axis, g, parent, g.types - todo, b)
      decreases todo
    {
      var e :| e in todo;
      var root := Climb(parent, e.0);
      var vals := Closure.Reach(frozen + g.sub, TypesAt(g, root)) * Values(g, axis);
      var bases := Image(g.sliceOf, {e.1});
      ghost var done, before := g.types - todo, baseValues;
      assert g.types - (todo - {e}) == done + {e};
      baseValues := AddValues(baseValues, bases, vals);
      BasesSnoc(g, done, e);
      forall b | b in baseValues ensures baseValues[b] == Spanned(frozen, axis, g, parent, done + {e}, b) {
        SpannedSnoc(frozen, axis, g, parent, done, e, b);
        InImage(g.sliceOf, e.1, b);
      }
      todo := todo - {e};
    }
    assert g.types - todo == g.types;
    shared := set b | b in baseValues && |baseValues[b]| > 1;
  }

  lemma InImage(edges: Classes, x: Cls, y: Cls)
    ensures y in Image(edges, {x}) <==> (x, y) in edges
  {
    if (x, y) in edges {
      var e := (x, y);
      assert e in edges && e.0 in {x};
    }
  }

  function Within(rs: set<(Node, Cls, Cls)>, types: set<(Node, Cls)>): set<(Node, Cls, Cls)> {
    set r {:trigger r in rs} | r in rs && (r.0, r.1) in types
  }

  lemma MoveStep(rs: set<(Node, Cls, Cls)>, done: set<(Node, Cls)>, e: (Node, Cls))
    requires e !in done
    ensures var here := Within(rs, {e});
            && Within(rs, done + {e}) == Within(rs, done) + here
            && done + {e} - Dropped(rs) + Moved(Within(rs, done + {e}))
                 == done - Dropped(rs) + Moved(Within(rs, done)) + if here == {} then {e} else Moved(here)
  {
    var here := Within(rs, {e});
    if e in Dropped(rs) {
      var r :| r in rs && e == (r.0, r.1);
      assert r in here;
    }
    assert Moved(Within(rs, done) + here) == Moved(Within(rs, done)) + Moved(here);
    assert here == {} ==> Moved(here) == {};
  }

  /** Copy the type triples, moving the listed ones down to their leaves. */
  method MoveTypes(types: set<(Node, Cls)>, rs: set<(Node, Cls, Cls)>) returns (out: set<(Node, Cls)>)
    requires Dropped(rs) <= types
    ensures out == types - Dropped(rs) + Moved(rs)
  {
    out := {};
    var todo := types;
    while todo != {}
      invariant todo <= types
      invariant out == types - todo - Dropped(rs) + Moved(Within(rs, types - todo))
      decreases todo
    {
      var e :| e in todo;
      var here := Within(rs, {e});
      MoveStep(rs, types - todo, e);
      assert types - (todo - {e}) == types - todo + {e};
      out := out + if here == {} then {e} else Moved(here);
      todo := todo - {e};
    }
    assert types - todo == types;
    forall r | r in rs ensures (r.0, r.1) in types {
      assert (r.0, r.1) in Dropped(rs);
    }
    assert Within(rs, types) == rs;
  }

  /** `ValueAxisSlicer.apply`. */
  method Apply(frozen: Classes, axis: Axis, g: Graph) returns (out: Graph, parent: map<Node, Node>)
    ensures IsParentMap(g, parent) && out == Resliced(frozen, axis, g, parent)
  {
    parent := ParentMap(g);
    var shared := IndexShared(frozen, axis, g, parent);
    var rs := set e, v | e in g.types && v in Values(g, axis) && HasValue(frozen, axis, g, parent, e.0, v)
                         && SlicesShared(g, shared, e.1) :: (e.0, e.1, v);
    assert rs == Retyped(frozen, axis, g, parent);
    var types := MoveTypes(g.types, rs);
    out := g.(types := types, sub := g.sub + LeafEdges(g, rs), sliceOf := g.sliceOf + LeafEdges(g, rs),
              axis := g.axis + LeafAxes(g, axis, rs), scope := g.scope + LeafScopes(g, rs));
  }
}
