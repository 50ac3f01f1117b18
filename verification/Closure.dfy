/** Reachability over a finite relation: the least closed superset of a start set,
    and the worklist that computes it. */
module Closure {
  function Image<T>(edges: set<(T, T)>, s: set<T>): set<T> {
    set e {:trigger e in edges} | e in edges && e.0 in s :: e.1
  }

  function Targets<T>(edges: set<(T, T)>): set<T> {
    set e {:trigger e in edges} | e in edges :: e.1
  }

  predicate Closed<T>(edges: set<(T, T)>, s: set<T>) {
    forall x {:trigger x in Image(edges, s)} :: x in Image(edges, s) ==> x in s
  }

  /** Everything reachable from `s` in zero or more steps. */
  function Reach<T>(edges: set<(T, T)>, s: set<T>): (r: set<T>)
    ensures s <= r
    ensures Closed(edges, r)
    decreases |s + Targets(edges) - s|, 1
  {
    Grow(edges, s)
  }

  /** Add what one step reaches, until nothing is new. */
  function Grow<T>(edges: set<(T, T)>, s: set<T>): (r: set<T>)
    ensures s <= r
    ensures Closed(edges, r)
    decreases |s + Targets(edges) - s|, 0
  {
    var next := s + Image(edges, s);
    if next == s then s else
      assert next + Targets(edges) == s + Targets(edges);
      assert s + Targets(edges) - next < s + Targets(edges) - s by {
        var x :| x in next && x !in s;
        assert x in Targets(edges);
      }
      SmallerSet(s + Targets(edges) - next, s + Targets(edges) - s);
      Reach(edges, next)
  }

  lemma SmallerSet<T>(a: set<T>, b: set<T>)
    requires a < b
    ensures |a| < |b|
  {
    assert b == a + (b - a);
    assert |b| == |a| + |b - a|;
  }

  /** Reachability is least: any closed set around the start contains it. */
  lemma {:induction false} ReachLeast<T>(edges: set<(T, T)>, s: set<T>, t: set<T>)
    requires s <= t && Closed(edges, t)
    ensures Reach(edges, s) <= t
    decreases |s + Targets(edges) - s|
  {
    var next := s + Image(edges, s);
    assert Reach(edges, s) == Grow(edges, s);
    if next != s {
      assert Image(edges, s) <= Image(edges, t);
      assert next + Targets(edges) == s + Targets(edges);
      assert s + Targets(edges) - next < s + Targets(edges) - s by {
        var x :| x in next && x !in s;
        assert x in Targets(edges);
      }
      SmallerSet(s + Targets(edges) - next, s + Targets(edges) - s);
      ReachLeast(edges, next, t);
    }
  }

  lemma ReachTargets<T>(edges: set<(T, T)>, s: set<T>)
    ensures Reach(edges, s) <= s + Targets(edges)
  {
    ReachLeast(edges, s, s + Targets(edges));
  }

  /** Where no edge leads on, nothing is added. */
  lemma ReachNothing<T>(edges: set<(T, T)>, s: set<T>)
    requires forall e :: e in edges ==> e.0 !in s
    ensures Reach(edges, s) == s
  {
    ReachLeast(edges, s, s);
  }

  lemma ReachMonotone<T>(e1: set<(T, T)>, s1: set<T>, e2: set<(T, T)>, s2: set<T>)
    requires e1 <= e2 && s1 <= s2
    ensures Reach(e1, s1) <= Reach(e2, s2)
  {
    assert Image(e1, Reach(e2, s2)) <= Image(e2, Reach(e2, s2));
    ReachLeast(e1, s1, Reach(e2, s2));
  }

  /** Reaching on from reached points finds nothing new. */
  lemma ReachAbsorbs<T>(edges: set<(T, T)>, s: set<T>, x: T)
    requires x in Reach(edges, s)
    ensures Reach(edges, {x}) <= Reach(edges, s)
  {
    ReachLeast(edges, {x}, Reach(edges, s));
  }

  /** What is reached from a set is reached from one of its members. */
  lemma ReachFrom<T>(edges: set<(T, T)>, s: set<T>, x: T) returns (y: T)
    requires x in Reach(edges, s)
    ensures y in s && x in Reach(edges, {y})
  {
    var all := set y, z | y in s && z in Reach(edges, {y}) :: z;
    forall z | z in s ensures z in all {
      assert z in Reach(edges, {z});
    }
    forall e | e in edges && e.0 in all ensures e.1 in all {
      var w :| w in s && e.0 in Reach(edges, {w});
      assert e.1 in Image(edges, Reach(edges, {w}));
    }
    ReachLeast(edges, s, all);
    y :| y in s && x in Reach(edges, {y});
  }
}
