/** The class hierarchy of an index: transitive superclasses without the level roots. */
module Hierarchy {
  import opened Vocabulary
  import opened Closure

  /** The subclass edges a walk may follow: a level root is never entered. */
  function Taxonomy(sup: set<(Cls, Cls)>): set<(Cls, Cls)> {
    set e {:trigger e in sup} | e in sup && e.1 !in LEVEL_ROOTS
  }

  /** `c` and its transitive superclasses, minus the level roots. */
  function Ancestors(sup: set<(Cls, Cls)>, c: Cls): set<Cls> {
    Reach(Taxonomy(sup), {c}) - LEVEL_ROOTS
  }

  /** Push the members of `s`, in whatever order the set yields them. */
  method PushAll<T>(stack: seq<T>, s: set<T>) returns (r: seq<T>)
    ensures forall x :: x in r <==> x in stack || x in s
  {
    r := stack;
    var todo := s;
    while todo != {}
      invariant todo <= s
      invariant forall x :: x in r <==> x in stack || x in s - todo
      decreases todo
    {
      var x :| x in todo;
      r, todo := r + [x], todo - {x};
    }
  }

  /** The stack walk of `ancestors_of` visits exactly the reachable classes. */
  method AncestorsOf(sup: set<(Cls, Cls)>, c: Cls) returns (out: set<Cls>)
    ensures out == Ancestors(sup, c)
  {
    out := {};
    var stack, seen := [c], {};
    ghost var reach := Reach(Taxonomy(sup), {c});
    while stack != []
      invariant out == seen - LEVEL_ROOTS
      invariant seen <= {c} + Targets(sup)
      invariant c in seen || c in stack
      invariant forall x :: x in stack ==> x in {c} + Targets(sup)
      invariant forall x :: x in seen || x in stack ==> x in reach || x in LEVEL_ROOTS
      invariant forall x, y :: x in seen && (x == c || x !in LEVEL_ROOTS) && (x, y) in sup ==> y in seen || y in stack
      decreases {c} + Targets(sup) - seen, |stack|
    {
      var x := stack[|stack| - 1];
      var rest := stack[..|stack| - 1];
      assert stack == rest + [x];
      if x in seen {
        stack := rest;
      } else {
        seen := seen + {x};
        if x != c && x in LEVEL_ROOTS {
          stack := rest;
        } else {
          if x !in LEVEL_ROOTS {
            out := out + {x};
          }
          stack := PushAll(rest, Image(sup, {x}));
          forall y | y in Image(sup, {x})
            ensures y in reach || y in LEVEL_ROOTS
          {
            assert (x, y) in sup;
            if y !in LEVEL_ROOTS {
              assert x in reach;
              assert (x, y) in Taxonomy(sup);
              assert y in Image(Taxonomy(sup), reach);
            }
          }
        }
      }
    }
    var inner := seen - (LEVEL_ROOTS - {c});
    forall y | y in Image(Taxonomy(sup), inner)
      ensures y in inner
    {
      var x :| (x, y) in Taxonomy(sup) && x in inner;
      assert (x, y) in sup;
    }
    assert Closed(Taxonomy(sup), inner);
    ReachLeast(Taxonomy(sup), {c}, inner);
  }
}
