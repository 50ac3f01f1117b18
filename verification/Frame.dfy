/** The frame of the rollup: two hierarchies that differ only inside a set of classes that
    nothing outside averages over give the same rows outside it, even though the fixpoint
    runs in name order and the number of rounds differs. */
module Frame {
  import opened Vocabulary
  import opened Rollup
  import opened RowRollup

  /** No class outside `w` averages over a class inside it. */
  ghost predicate Shielded(h: Hier, w: set<Cls>) {
    forall c, p :: c in w && p in h.ancestors && p !in w ==> !Effective(h, p, c)
  }

  ghost predicate SameOutside(h: Hier, g: Hier, w: set<Cls>) {
    && h.names == g.names
    && Shielded(h, w) && Shielded(g, w)
    && h.leaves - w == g.leaves - w && h.ancestors - w == g.ancestors - w
    && (forall c, p :: c !in w && p !in w && p in h.ancestors && c in h.leaves + h.ancestors ==>
          (Effective(h, p, c) <==> Effective(g, p, c)))
  }

  /** The steps that compute classes outside `w`. */
  function Outside(steps: seq<Step>, w: set<Cls>): seq<Step> {
    if steps == [] then []
    else
      var last := steps[|steps| - 1];
      Outside(steps[..|steps| - 1], w) + (if last.parent in w then [] else [last])
  }

  lemma OutsideSnoc(steps: seq<Step>, s: Step, w: set<Cls>)
    ensures Outside(steps + [s], w) == Outside(steps, w) + if s.parent in w then [] else [s]
  {
    assert (steps + [s])[..|steps|] == steps;
  }

  lemma {:induction false} OutsideParents(steps: seq<Step>, w: set<Cls>)
    ensures Parents(Outside(steps, w)) == Parents(steps) - w
  {
    if steps != [] {
      var init, last := steps[..|steps| - 1], steps[|steps| - 1];
      assert steps == init + [last];
      OutsideParents(init, w);
      OutsideSnoc(init, last, w);
      ParentsSnoc(init, last);
      ParentsSnoc(Outside(init, w), last);
      assert Outside(init, w) + [] == Outside(init, w);
    }
  }

  ghost predicate Synced(h: Hier, g: Hier, w: set<Cls>, sh: seq<Step>, sg: seq<Step>) {
    Valid(h, sh) && Valid(g, sg) && Outside(sh, w) == Outside(sg, w)
  }

  lemma UnionOutside<T>(a: set<T>, b: set<T>, c: set<T>, d: set<T>, w: set<T>)
    requires a - w == c - w && b - w == d - w
    ensures a + b - w == c + d - w
  {
    assert a + b - w == (a - w) + (b - w);
    assert c + d - w == (c - w) + (d - w);
  }

  lemma DoneOutside(h: Hier, g: Hier, w: set<Cls>, sh: seq<Step>, sg: seq<Step>)
    requires h.leaves - w == g.leaves - w && Valid(h, sh) && Outside(sh, w) == Outside(sg, w)
    ensures Parents(sh) - w == Parents(sg) - w
    ensures Done(h, sh) - w == Done(g, sg) - w
    ensures Done(h, sh) <= h.leaves + h.ancestors
  {
    OutsideParents(sh, w);
    OutsideParents(sg, w);
    ParentsCount(h, sh);
    UnionOutside(h.leaves, Parents(sh), g.leaves, Parents(sg), w);
  }

  /** Outside `w` both runs see the same gated subclasses. */
  lemma GatedOutside(h: Hier, g: Hier, w: set<Cls>, sh: seq<Step>, sg: seq<Step>, p: Cls)
    requires SameOutside(h, g, w) && Synced(h, g, w, sh, sg)
    requires p !in w && p in h.ancestors
    ensures Gated(h, Done(h, sh), p) == Gated(g, Done(g, sg), p)
  {
    DoneOutside(h, g, w, sh, sg);
    assert (set c | c in Done(h, sh) && Effective(h, p, c)) == (set c | c in Done(g, sg) && Effective(g, p, c)) by {
      forall c ensures c in Done(h, sh) && Effective(h, p, c) <==> c in Done(g, sg) && Effective(g, p, c) {
        assert p in h.ancestors - w && p in g.ancestors - w;
        assert c in Done(h, sh) - w <==> c in Done(g, sg) - w;
      }
    }
  }

  lemma VisitInside(h: Hier, w: set<Cls>, steps: seq<Step>, p: Cls)
    requires p in w
    ensures Outside(Visit(h, steps, p), w) == Outside(steps, w)
  {
    OutsideSnoc(steps, Step(p, Gated(h, Done(h, steps), p)), w);
  }

  lemma SweepLast(h: Hier, steps: seq<Step>, names: seq<Cls>, p: Cls)
    requires Valid(h, steps)
    ensures var before := Sweep(h, steps, Only(names, h.ancestors));
            && Valid(h, before)
            && Sweep(h, steps, Only(names + [p], h.ancestors))
                 == if p in h.ancestors then Visit(h, before, p) else before
  {
    assert (names + [p])[..|names|] == names;
    OnlyMembers(names, h.ancestors);
    SweepValid(h, steps, Only(names, h.ancestors));
    SweepSnoc(h, steps, Only(names, h.ancestors), p);
    assert Only(names, h.ancestors) + [] == Only(names, h.ancestors);
  }

  function VisitIf(h: Hier, steps: seq<Step>, p: Cls): seq<Step> {
    if p in h.ancestors then Visit(h, steps, p) else steps
  }

  lemma {:induction false} SweepOutside(h: Hier, g: Hier, w: set<Cls>, sh: seq<Step>, sg: seq<Step>, names: seq<Cls>)
    requires SameOutside(h, g, w) && Synced(h, g, w, sh, sg)
    ensures Outside(Sweep(h, sh, Only(names, h.ancestors)), w) == Outside(Sweep(g, sg, Only(names, g.ancestors)), w)
  {
    if names != [] {
      var init, p := names[..|names| - 1], names[|names| - 1];
      assert names == init + [p];
      var bh, bg := Sweep(h, sh, Only(init, h.ancestors)), Sweep(g, sg, Only(init, g.ancestors));
      assert Outside(bh, w) == Outside(bg, w) by {
        SweepOutside(h, g, w, sh, sg, init);
      }
      assert Valid(h, bh) && Sweep(h, sh, Only(names, h.ancestors)) == VisitIf(h, bh, p) by {
        SweepLast(h, sh, init, p);
      }
      assert Valid(g, bg) && Sweep(g, sg, Only(names, g.ancestors)) == VisitIf(g, bg, p) by {
        SweepLast(g, sg, init, p);
      }
      assert Outside(VisitIf(h, bh, p), w) == Outside(VisitIf(g, bg, p), w) by {
        if p in w {
          VisitInside(h, w, bh, p);
          VisitInside(g, w, bg, p);
        } else {
          assert p in h.ancestors - w <==> p in g.ancestors - w;
          if p in h.ancestors {
            assert Outside(Visit(h, bh, p), w) == Outside(Visit(g, bg, p), w) by {
              GatedOutside(h, g, w, bh, bg, p);
              DoneOutside(h, g, w, bh, bg);
              assert p in Parents(bh) - w <==> p in Parents(bg) - w;
              var s := Step(p, Gated(h, Done(h, bh), p));
              OutsideSnoc(bh, s, w);
              OutsideSnoc(bg, s, w);
            }
          }
        }
      }
    }
  }

  lemma SweepAllOutside(h: Hier, g: Hier, w: set<Cls>, sh: seq<Step>, sg: seq<Step>)
    requires SameOutside(h, g, w) && Synced(h, g, w, sh, sg)
    ensures Outside(SweepAll(h, sh), w) == Outside(SweepAll(g, sg), w)
  {
    SweepOutside(h, g, w, sh, sg, h.names);
  }

  lemma {:induction false} SweepsOutside(h: Hier, g: Hier, w: set<Cls>, n: nat)
    requires SameOutside(h, g, w)
    ensures Outside(Sweeps(h, n), w) == Outside(Sweeps(g, n), w)
  {
    if n != 0 {
      SweepsOutside(h, g, w, n - 1);
      SweepsValid(h, n - 1);
      SweepsValid(g, n - 1);
      SweepAllOutside(h, g, w, Sweeps(h, n - 1), Sweeps(g, n - 1));
    }
  }

  /** Outside `w` both rollups compute the same classes, in the same order, from the same
      subclasses. */
  lemma ScheduleOutside(h: Hier, g: Hier, w: set<Cls>)
    requires SameOutside(h, g, w)
    ensures Outside(Schedule(h), w) == Outside(Schedule(g), w)
  {
    var n := |h.ancestors| + |g.ancestors| + 1;
    ScheduleStable(h, n);
    ScheduleStable(g, n);
    SweepsOutside(h, g, w, n);
  }

  // ---- rows --------------------------------------------------------------------------

  /** A row function: the row of a parent from its gated subclasses and the rows so far. */
  type RowOf<!V> = (Cls, seq<Cls>, map<Cls, V>) -> V

  /** Evaluate a schedule with one row function. */
  function Eval<V>(steps: seq<Step>, f: RowOf<V>): map<Cls, V> {
    if steps == [] then map[]
    else
      var rows, last := Eval(steps[..|steps| - 1], f), steps[|steps| - 1];
      rows[last.parent := f(last.parent, last.subs, rows)]
  }

  ghost predicate AgreeOn<V>(a: map<Cls, V>, b: map<Cls, V>, subs: seq<Cls>) {
    forall s :: s in subs ==> At(a, s) == At(b, s)
  }

  /** Two row functions agree on a class outside `w` whose subclasses are outside it too,
      whenever the rows they look up agree. */
  ghost predicate Crosses<V>(f: RowOf<V>, g: RowOf<V>, w: set<Cls>, p: Cls, subs: seq<Cls>, a: map<Cls, V>,
                             b: map<Cls, V>) {
    p !in w && (forall s :: s in subs ==> s !in w) && AgreeOn(a, b, subs) ==> f(p, subs, a) == g(p, subs, b)
  }

  /** Steps outside `w` average only over classes outside it. */
  ghost predicate Separate(steps: seq<Step>, w: set<Cls>) {
    forall i, s :: 0 <= i < |steps| && steps[i].parent !in w && s in steps[i].subs ==> s !in w
  }

  lemma {:induction false} ScheduleSeparate(h: Hier, w: set<Cls>, steps: seq<Step>)
    requires Valid(h, steps) && Shielded(h, w)
    ensures Separate(steps, w)
  {
    if steps != [] {
      var init, last := steps[..|steps| - 1], steps[|steps| - 1];
      ScheduleSeparate(h, w, init);
      GatedMembers(h, Done(h, init), last.parent);
      assert steps == init + [last];
    }
  }

  lemma {:induction false} EvalOutside<V>(sh: seq<Step>, sg: seq<Step>, w: set<Cls>, f: RowOf<V>, g: RowOf<V>)
    requires Outside(sh, w) == Outside(sg, w) && Separate(sh, w) && Separate(sg, w)
    requires forall p, subs, a, b :: Crosses(f, g, w, p, subs, a, b)
    ensures forall c :: c !in w ==> At(Eval(sh, f), c) == At(Eval(sg, g), c)
    decreases |sh| + |sg|
  {
    if sh != [] && sh[|sh| - 1].parent in w {
      EvalOutside(sh[..|sh| - 1], sg, w, f, g);
    } else if sg != [] && sg[|sg| - 1].parent in w {
      EvalOutside(sh, sg[..|sg| - 1], w, f, g);
    } else if sh != [] && sg != [] {
      var ih, ig := sh[..|sh| - 1], sg[..|sg| - 1];
      assert Outside(sh, w)[..|Outside(sh, w)| - 1] == Outside(ih, w);
      assert Outside(sg, w)[..|Outside(sg, w)| - 1] == Outside(ig, w);
      EvalOutside(ih, ig, w, f, g);
      assert AgreeOn(Eval(ih, f), Eval(ig, g), sh[|sh| - 1].subs);
      assert Crosses(f, g, w, sh[|sh| - 1].parent, sh[|sh| - 1].subs, Eval(ih, f), Eval(ig, g));
    }
  }

  ghost predicate LeavesAgree<V>(a: map<Cls, V>, b: map<Cls, V>, w: set<Cls>) {
    forall c :: c !in w ==> At(a, c) == At(b, c)
  }

  lemma LookupAgrees<V>(la: map<Cls, map<Cls, V>>, ca: map<Cls, map<Cls, V>>,
                        lb: map<Cls, map<Cls, V>>, cb: map<Cls, map<Cls, V>>, w: set<Cls>, s: Cls)
    requires LeavesAgree(la, lb, w) && s !in w && At(ca, s) == At(cb, s)
    ensures Lookup(la, ca, s) == Lookup(lb, cb, s)
  {
  }

  lemma {:induction false} PresentAgrees(subs: seq<Cls>, la: map<Cls, Amounts>, ca: map<Cls, Amounts>,
                                         lb: map<Cls, Amounts>, cb: map<Cls, Amounts>, w: set<Cls>, ec: Cls)
    requires LeavesAgree(la, lb, w) && AgreeOn(ca, cb, subs) && forall s :: s in subs ==> s !in w
    ensures Present(subs, la, ca, ec) == Present(subs, lb, cb, ec)
  {
    if subs != [] {
      var init, s := subs[..|subs| - 1], subs[|subs| - 1];
      assert subs == init + [s];
      PresentAgrees(init, la, ca, lb, cb, w, ec);
      LookupAgrees(la, ca, lb, cb, w, s);
    }
  }

  lemma {:induction false} SigmasAgree(subs: seq<Cls>, la: map<Cls, Amounts>, ca: map<Cls, Amounts>,
                                       ba: map<Cls, Amounts>,
                                       lb: map<Cls, Amounts>, cb: map<Cls, Amounts>, bb: map<Cls, Amounts>, w: set<Cls>, ec: Cls)
    requires LeavesAgree(la, lb, w) && LeavesAgree(ba, bb, w) && AgreeOn(ca, cb, subs) && forall s :: s in subs ==>
        s !in w
    ensures Sigmas(subs, la, ca, ba, ec) == Sigmas(subs, lb, cb, bb, ec)
  {
    if subs != [] {
      var init, s := subs[..|subs| - 1], subs[|subs| - 1];
      assert subs == init + [s];
      SigmasAgree(init, la, ca, ba, lb, cb, bb, w, ec);
      LookupAgrees(la, ca, lb, cb, w, s);
      assert At(ba, s) == At(bb, s);
    }
  }

  lemma {:induction false} PoolsAgree(subs: seq<Cls>, la: map<Cls, map<Cls, Quality>>, ca: map<Cls, map<Cls, Quality>>,
                                      ba: map<Cls, Amounts>, lb: map<Cls, map<Cls, Quality>>, cb: map<Cls, map<Cls, Quality>>,
                                      bb: map<Cls, Amounts>, w: set<Cls>, ec: Cls)
    requires LeavesAgree(la, lb, w) && LeavesAgree(ba, bb, w) && AgreeOn(ca, cb, subs) && forall s :: s in subs ==>
        s !in w
    ensures QualityPool(subs, la, ca, ba, ec) == QualityPool(subs, lb, cb, bb, ec)
  {
    if subs != [] {
      var init, s := subs[..|subs| - 1], subs[|subs| - 1];
      assert subs == init + [s];
      PoolsAgree(init, la, ca, ba, lb, cb, bb, w, ec);
      LookupAgrees(la, ca, lb, cb, w, s);
      assert At(ba, s) == At(bb, s);
    }
  }
}
