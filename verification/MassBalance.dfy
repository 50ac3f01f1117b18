/** Mass conservation of the element reach. */
module MassBalance {
  import opened Vocabulary
  import opened Sums
  import opened Rollup
  import opened Reach

  /** Sum of the first `k` fractions of `n`. */
  function Attributed(d: Dag, use: Use, n: Node, k: nat): real
    requires k <= |Edges(d, n)|
  {
    if k == 0 then 0.0 else Attributed(d, use, n, k - 1) + Fraction(Edges(d, n)[k - 1], use)
  }

  /** Fractions are non-negative and sum to at most 1; an Element has no parts. */
  ghost predicate NodeBalanced(d: Dag, use: Use, n: Node) {
    && (forall i :: 0 <= i < |Edges(d, n)| ==> Fraction(Edges(d, n)[i], use) >= 0.0)
    && Attributed(d, use, n, |Edges(d, n)|) <= 1.0
    && (IsElement(d, n) ==> Edges(d, n) == [])
  }

  ghost predicate Balanced(d: Dag, use: Use) {
    forall n {:trigger NodeBalanced(d, use, n)} :: n in d.level ==> NodeBalanced(d, use, n)
  }

  /** `n` is an Element or fully broken down. */
  ghost predicate NodeComplete(d: Dag, use: Use, n: Node) {
    IsElement(d, n) || Attributed(d, use, n, |Edges(d, n)|) == 1.0
  }

  ghost predicate Complete(d: Dag, use: Use) {
    forall n {:trigger NodeComplete(d, use, n)} :: n in d.level ==> NodeComplete(d, use, n)
  }

  function TotalVia(d: Dag, use: Use, n: Node, k: nat, es: seq<Node>): real
    requires Wf(d) && n in d.level && k <= |Edges(d, n)|
  {
    if es == [] then 0.0 else TotalVia(d, use, n, k, es[..|es| - 1]) + ReachVia(d, use, n, k, es[|es| - 1])
  }

  /** Everything `n` holds of the listed Element nodes. */
  function TotalReach(d: Dag, use: Use, n: Node, es: seq<Node>): real
    requires Wf(d) && n in d.level
  {
    TotalVia(d, use, n, |Edges(d, n)|, es)
  }

  function TotalContent(d: Dag, use: Use, n: Node, es: seq<Node>): real
    requires Wf(d) && n in d.level
  {
    if es == [] then 0.0 else TotalContent(d, use, n, es[..|es| - 1]) + Content(d, use, n, es[|es| - 1])
  }

  lemma {:induction false} TotalStep(d: Dag, use: Use, n: Node, k: nat, es: seq<Node>)
    requires Wf(d) && n in d.level && 0 < k <= |Edges(d, n)|
    ensures var e := Edges(d, n)[k - 1];
            TotalVia(d, use, n, k, es)
                == TotalVia(d, use, n, k - 1, es) + Times(Fraction(e, use), TotalContent(d, use, e.part, es))
  {
    if es != [] {
      var e, init, en := Edges(d, n)[k - 1], es[..|es| - 1], es[|es| - 1];
      TotalStep(d, use, n, k, init);
      Distribute(Fraction(e, use), TotalContent(d, use, e.part, init), Content(d, use, e.part, en));
    }
  }

  lemma {:induction false} TotalEmpty(d: Dag, use: Use, n: Node, es: seq<Node>)
    requires Wf(d) && n in d.level
    ensures TotalVia(d, use, n, 0, es) == 0.0
  {
    if es != [] {
      TotalEmpty(d, use, n, es[..|es| - 1]);
    }
  }

  /** A node counts itself at most once, and once exactly when it is a listed Element. */
  lemma {:induction false} SelfContent(d: Dag, use: Use, n: Node, es: seq<Node>)
    requires Wf(d) && n in d.level && Distinct(es)
    ensures TotalContent(d, use, n, es)
              == TotalVia(d, use, n, |Edges(d, n)|, es) + (if n in es && IsElement(d, n) then 1.0 else 0.0)
  {
    if es != [] {
      var init, en := es[..|es| - 1], es[|es| - 1];
      SelfContent(d, use, n, init);
      assert es == init + [en];
      assert ReachOf(d, use, n, en) == ReachVia(d, use, n, |Edges(d, n)|, en);
    }
  }

  /** Mass conservation: the element reach of every node sums to at most 1 ... */
  lemma {:induction false} ReachConserved(d: Dag, use: Use, n: Node, k: nat, es: seq<Node>)
    requires Wf(d) && Balanced(d, use) && n in d.level && k <= |Edges(d, n)| && Distinct(es)
    ensures 0.0 <= TotalVia(d, use, n, k, es) <= Attributed(d, use, n, k)
    decreases d.depth[n], k
  {
    if k == 0 {
      TotalEmpty(d, use, n, es);
    } else {
      assert NodeBalanced(d, use, n);
      var e, i := Edges(d, n)[k - 1], k - 1;
      var total, cap, c := TotalVia(d, use, n, i, es), Attributed(d, use, n, i), TotalContent(d, use, e.part, es);
      assert 0.0 <= total <= cap by {
        ReachConserved(d, use, n, i, es);
      }
      assert 0.0 <= c <= 1.0 by {
        ContentConserved(d, use, e.part, es);
      }
      assert TotalVia(d, use, n, k, es) == total + Times(Fraction(e, use), c) by {
        TotalStep(d, use, n, k, es);
      }
      PartBound(total, cap, Fraction(e, use), c);
    }
  }

  lemma {:induction false} ContentConserved(d: Dag, use: Use, n: Node, es: seq<Node>)
    requires Wf(d) && Balanced(d, use) && n in d.level && Distinct(es)
    ensures 0.0 <= TotalContent(d, use, n, es) <= 1.0
    decreases d.depth[n], |Edges(d, n)| + 1
  {
    assert NodeBalanced(d, use, n);
    ReachConserved(d, use, n, |Edges(d, n)|, es);
    SelfContent(d, use, n, es);
  }

  /** ... and to exactly 1 when everything below is fully attributed. */
  lemma {:induction false} ReachComplete(d: Dag, use: Use, n: Node, k: nat, es: seq<Node>)
    requires Wf(d) && Balanced(d, use) && Complete(d, use) && n in d.level && k <= |Edges(d, n)| && Distinct(es)
    requires forall en :: IsElement(d, en) ==> en in es
    ensures TotalVia(d, use, n, k, es) == Attributed(d, use, n, k)
    decreases d.depth[n], k
  {
    if k == 0 {
      TotalEmpty(d, use, n, es);
    } else {
      ReachComplete(d, use, n, k - 1, es);
      ContentComplete(d, use, Edges(d, n)[k - 1].part, es);
      TotalStep(d, use, n, k, es);
    }
  }

  lemma {:induction false} ContentComplete(d: Dag, use: Use, n: Node, es: seq<Node>)
    requires Wf(d) && Balanced(d, use) && Complete(d, use) && n in d.level && Distinct(es)
    requires forall en :: IsElement(d, en) ==> en in es
    ensures TotalContent(d, use, n, es) == 1.0
    decreases d.depth[n], |Edges(d, n)| + 1
  {
    assert NodeBalanced(d, use, n) && NodeComplete(d, use, n);
    ReachComplete(d, use, n, |Edges(d, n)|, es);
    SelfContent(d, use, n, es);
  }
}
