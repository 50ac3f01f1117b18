/** Climbing a part-of map from a part to its whole, as the value slicer and the planner do. */
module Climbing {
  import opened Vocabulary

  /** Climb from `n` until a top or an instance already seen. */
  function RootOf(parent: map<Node, Node>, n: Node, seen: set<Node>): Node
    decreases parent.Keys - seen
  {
    if n in parent && n !in seen then RootOf(parent, parent[n], seen + {n}) else n
  }

  /** `k` steps up, or as many as there are. */
  function Up(parent: map<Node, Node>, n: Node, k: nat): Node
    decreases k
  {
    if k == 0 || n !in parent then n else Up(parent, parent[n], k - 1)
  }

  /** At least one step leads from `n` up to `x`. */
  ghost predicate Above(parent: map<Node, Node>, n: Node, x: Node) {
    n in parent && exists k: nat :: Up(parent, parent[n], k) == x
  }

  lemma {:induction false} UpNext(parent: map<Node, Node>, n: Node, k: nat)
    requires Up(parent, n, k) in parent
    ensures Up(parent, n, k + 1) == parent[Up(parent, n, k)]
    decreases k
  {
    if k != 0 && n in parent {
      UpNext(parent, parent[n], k - 1);
    }
  }

  lemma AboveNext(parent: map<Node, Node>, n: Node, x: Node)
    requires Above(parent, n, x) && x in parent
    ensures Above(parent, n, parent[x])
  {
    var k: nat :| Up(parent, parent[n], k) == x;
    UpNext(parent, parent[n], k);
  }

  /** The climb ends at the start or above it, at a top or on a cycle. */
  method Climb(parent: map<Node, Node>, n: Node) returns (root: Node)
    ensures root == RootOf(parent, n, {})
    ensures root == n || Above(parent, n, root)
    ensures root !in parent || Above(parent, root, root)
  {
    root := n;
    var seen := {};
    while root in parent && root !in seen
      invariant RootOf(parent, root, seen) == RootOf(parent, n, {})
      invariant root == n || Above(parent, n, root)
      invariant forall m :: m in seen ==> Above(parent, m, root)
      decreases parent.Keys - seen
    {
      forall m | m in seen ensures Above(parent, m, parent[root]) {
        AboveNext(parent, m, root);
      }
      if root != n {
        AboveNext(parent, n, root);
      }
      assert Above(parent, root, parent[root]) by {
        assert Up(parent, parent[root], 0) == parent[root];
      }
      root, seen := parent[root], seen + {root};
    }
  }
}
