/** Instance namespaces: `_namespaced` prefixes every instance IRI of a source with the source's
    id and a slash. Two ids can still name the same instance; here is exactly when. */
module Namespaces {
  import opened Vocabulary
  import opened Reach
  import opened YearSlicer
  import opened YearForm
  import opened StoreIndex

  /** An instance's IRI after its source is namespaced; its label gets the same prefix. */
  function Remap(id: string, n: Node): Node {
    Node(id + "/" + n.tail)
  }

  /** Some instance of a source `a` and some instance of a source `b` get one IRI. */
  ghost predicate Meet(a: string, b: string) {
    exists m, n :: Remap(a, m) == Remap(b, n)
  }

  /** One id is the other, or continues it after a slash. */
  predicate Nested(a: string, b: string) {
    a == b || a + "/" <= b || b + "/" <= a
  }

  /** Take the prefix off again. */
  function Restore(id: string, x: Node): Node {
    Node(if |x.tail| > |id| then x.tail[|id| + 1..] else "")
  }

  lemma Restored(id: string)
    ensures forall n :: Restore(id, Remap(id, n)) == n
  {
  }

  lemma ShorterIsPrefix(a: string, s: string, b: string, t: string)
    requires a + "/" + s == b + "/" + t && |a| < |b|
    ensures a + "/" <= b
  {
    var p, q := a + "/" + s, b + "/" + t;
    assert p[..|a| + 1] == a + "/";
    assert q[..|b|] == b;
    assert q[..|b|][..|a| + 1] == q[..|a| + 1];
  }

  lemma NestedMeets(a: string, b: string)
    requires a + "/" <= b
    ensures Meet(a, b)
  {
    var rest := b[|a| + 1..];
    assert a + "/" + rest == b;
    assert a + "/" + (rest + "/") == b + "/" + "";
    assert Remap(a, Node(rest + "/")) == Remap(b, Node(""));
  }

  /** Two namespaces share an instance exactly when the ids are equal or one continues the
      other after a slash. `merge_sources` prefixes with the id as it is. */
  lemma MeetIffNested(a: string, b: string)
    ensures Meet(a, b) <==> Nested(a, b)
  {
    if Meet(a, b) {
      var m, n :| Remap(a, m) == Remap(b, n);
      if |a| < |b| {
        ShorterIsPrefix(a, m.tail, b, n.tail);
      } else if |b| < |a| {
        ShorterIsPrefix(b, n.tail, a, m.tail);
      } else {
        assert Remap(a, m).tail[..|a|] == a && Remap(b, n).tail[..|b|] == b;
      }
    }
    if a == b {
      assert Remap(a, Node("")) == Remap(b, Node(""));
    } else if a + "/" <= b {
      NestedMeets(a, b);
    } else if b + "/" <= a {
      NestedMeets(b, a);
      var m, n :| Remap(b, m) == Remap(a, n);
      assert Remap(a, n) == Remap(b, m);
    }
  }

  /** `source_id.replace("/", "_")`: what `add_source` makes of a source id. */
  function Sanitised(id: string): (r: string)
    ensures |r| == |id| && forall i :: 0 <= i < |id| ==> r[i] == if id[i] == '/' then '_' else id[i]
  {
    seq(|id|, i requires 0 <= i < |id| => if id[i] == '/' then '_' else id[i])
  }

  /** The ids differ at most in slashes against underscores. */
  predicate SameButSlashes(a: string, b: string) {
    |a| == |b| && forall i :: 0 <= i < |a| ==> a[i] == b[i] || (a[i] in "/_" && b[i] in "/_")
  }

  lemma SlashFree(a: string, b: string)
    ensures b + "/" <= a ==> '/' in a
  {
    if b + "/" <= a {
      assert a[|b|] == (b + "/")[|b|];
      assert '/' in a;
    }
  }

  /** Under `add_source` two sources share an instance namespace exactly when their ids differ
      at most in slashes against underscores. */
  lemma SanitisedMeetIff(a: string, b: string)
    ensures Meet(Sanitised(a), Sanitised(b)) <==> SameButSlashes(a, b)
  {
    var p, q := Sanitised(a), Sanitised(b);
    MeetIffNested(p, q);
    SlashFree(p, q);
    SlashFree(q, p);
    assert p == q <==> SameButSlashes(a, b);
  }

  /** Ids without a slash, such as the corpus loader gives, are kept apart by both entry
      points whenever they differ. */
  lemma SlashFreeApart(a: string, b: string)
    requires '/' !in a && '/' !in b
    ensures Meet(a, b) <==> a == b
    ensures Meet(Sanitised(a), Sanitised(b)) <==> a == b
  {
    MeetIffNested(a, b);
    SlashFree(a, b);
    SlashFree(b, a);
    assert Sanitised(a) == a && Sanitised(b) == b;
  }

  /** With slashes the entry points disagree both ways: `add_source` merges two ids that
      `merge_sources` keeps apart, and keeps apart two that `merge_sources` merges. */
  lemma EntryPointsDisagree()
    ensures Meet(Sanitised("a/b"), Sanitised("a_b")) && !Meet("a/b", "a_b")
    ensures !Meet(Sanitised("a"), Sanitised("a/b")) && Meet("a", "a/b")
  {
    SanitisedMeetIff("a/b", "a_b");
    MeetIffNested("a/b", "a_b");
    assert "a/b"[1] != "a_b"[1];
    SanitisedMeetIff("a", "a/b");
    MeetIffNested("a", "a/b");
    assert "a" + "/" == "a/" && "a/" == "a/b"[..2];
  }

  // ---- a namespaced source -------------------------------------------------------------------

  function Remapped(id: string, e: Edge): Edge {
    e.(part := Remap(id, e.part))
  }

  function RemapKeys<V>(id: string, m: map<Node, V>): (r: map<Node, V>)
    ensures forall n :: Remap(id, n) in r <==> n in m
    ensures forall n :: n in m ==> r[Remap(id, n)] == m[n]
    ensures forall x :: x in r ==> exists n :: n in m && x == Remap(id, n)
  {
    var keys := set n | n in m :: Remap(id, n);
    Restored(id);
    map x | x in keys :: m[Restore(id, x)]
  }

  function RemapEdges(id: string, es: seq<Edge>): (r: seq<Edge>)
    ensures |r| == |es| && forall i :: 0 <= i < |es| ==> r[i] == Remapped(id, es[i])
  {
    seq(|es|, i requires 0 <= i < |es| => Remapped(id, es[i]))
  }

  function RemapTypes(id: string, types: set<(Node, Cls)>): set<(Node, Cls)> {
    set e {:trigger e in types} | e in types :: (Remap(id, e.0), e.1)
  }

  lemma TypeRemapped(id: string, types: set<(Node, Cls)>, n: Node, c: Cls)
    ensures (Remap(id, n), c) in RemapTypes(id, types) <==> (n, c) in types
  {
    if (Remap(id, n), c) in RemapTypes(id, types) {
      var e :| e in types && (Remap(id, e.0), e.1) == (Remap(id, n), c);
      assert e.0 == n by {
        Restored(id);
        assert Restore(id, Remap(id, e.0)) == e.0;
      }
    }
    if (n, c) in types {
      var e := (n, c);
      assert (Remap(id, e.0), e.1) == (Remap(id, n), c);
    }
  }

  /** `_namespaced`: instances are prefixed, class names stay shared. */
  function Namespaced(id: string, g: Graph): Graph {
    g.(types := RemapTypes(id, g.types),
       when := RemapKeys(id, g.when),
       level := RemapKeys(id, g.level),
       parts := RemapKeys(id, map n | n in g.parts :: RemapEdges(id, g.parts[n])),
       quality := RemapPairs(id, g.quality),
       depth := RemapKeys(id, g.depth))
  }

  function RemapPairs<V>(id: string, m: map<(Node, Node), V>): (r: map<(Node, Node), V>)
    ensures forall x :: x in r ==> exists q :: q in m && x == (Remap(id, q.0), Remap(id, q.1)) && r[x] == m[q]
    ensures forall q :: q in m ==> (Remap(id, q.0), Remap(id, q.1)) in r
  {
    var keys := set q {:trigger q in m} | q in m :: (Remap(id, q.0), Remap(id, q.1));
    Restored(id);
    map x | x in keys :: m[(Restore(id, x.0), Restore(id, x.1))]
  }

  /** A source that states one instance and nothing of it. */
  function Lone(n: Node): Graph {
    EMPTY.(level := map[n := Product])
  }

  /** Whatever two sources state, their instances stay apart. */
  ghost predicate AlwaysDisjoint(a: string, b: string) {
    forall g, h :: Disjoint(Namespaced(a, g), Namespaced(b, h))
  }

  /** Two ids keep every two sources apart exactly when no instance IRI of theirs coincides. */
  lemma ApartIffDisjoint(a: string, b: string)
    ensures AlwaysDisjoint(a, b) <==> !Meet(a, b)
  {
    if Meet(a, b) {
      var m, n :| Remap(a, m) == Remap(b, n);
      var g, h := Namespaced(a, Lone(m)), Namespaced(b, Lone(n));
      assert Remap(a, m) in g.level && Remap(a, m) in h.level;
      assert !Disjoint(g, h);
    } else {
      forall g, h ensures Disjoint(Namespaced(a, g), Namespaced(b, h)) {
      }
    }
  }

  lemma NamespacedPlain(id: string, g: Graph)
    requires Plain(g)
    ensures Plain(Namespaced(id, g))
  {
  }

  /** `m` has in `h` the classes that `n` has in `g`. */
  ghost predicate SameTypes(g: Graph, n: Node, h: Graph, m: Node) {
    forall c :: (m, c) in h.types <==> (n, c) in g.types
  }

  lemma OneTypeAlso(g: Graph, n: Node, h: Graph, m: Node)
    requires HasOneType(g, n) && SameTypes(g, n, h, m)
    ensures HasOneType(h, m)
  {
    var c :| TypedBy(g, n, c);
    assert TypedBy(h, m, c);
  }

  /** Namespacing keeps a source well formed. */
  lemma NamespacedAuthored(id: string, g: Graph)
    requires Authored(g)
    ensures Authored(Namespaced(id, g))
  {
    NamespacedPlain(id, g);
    var r := Namespaced(id, g);
    forall x | x in r.level ensures HasOneType(r, x) {
      var n :| n in g.level && x == Remap(id, n);
      assert HasOneType(g, n);
      assert HasOneType(Namespaced(id, g), Remap(id, n)) by {
        assert SameTypes(g, n, Namespaced(id, g), Remap(id, n)) by {
          forall c ensures (Remap(id, n), c) in Namespaced(id, g).types <==> (n, c) in g.types {
            TypeRemapped(id, g.types, n, c);
          }
        }
        OneTypeAlso(g, n, Namespaced(id, g), Remap(id, n));
      }
    }
  }
}
