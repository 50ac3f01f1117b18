/** What the rolled-up rows mean: which leaf classes a row draws on, and how its numbers
    relate to theirs, at every height of the class tree. */
module RowLaws {
  import opened Vocabulary
  import opened Sums
  import opened Rollup
  import opened RowRollup

  /** The leaf classes below `s`: itself if it is one, and those its row draws on. */
  function Below(leaves: set<Cls>, steps: seq<Step>, s: Cls): set<Cls>
    decreases |steps|, 1
  {
    (if s in leaves then {s} else {}) + Drawn(leaves, steps, s)
  }

  /** The leaf classes the row of `p` draws on, through any number of rollup steps. */
  function Drawn(leaves: set<Cls>, steps: seq<Step>, p: Cls): set<Cls>
    decreases |steps|, 0
  {
    if steps == [] then {}
    else
      var init, last := steps[..|steps| - 1], steps[|steps| - 1];
      if last.parent == p then set c, l | c in last.subs && l in Below(leaves, init, c) :: l
      else Drawn(leaves, init, p)
  }

  lemma DrawnSub(leaves: set<Cls>, steps: seq<Step>, c: Cls)
    requires steps != [] && c in steps[|steps| - 1].subs
    ensures Below(leaves, steps[..|steps| - 1], c) <= Drawn(leaves, steps, steps[|steps| - 1].parent)
  {
  }

  lemma SplitLast(h: Hier, steps: seq<Step>)
    requires Valid(h, steps) && steps != []
    ensures var init, last := steps[..|steps| - 1], steps[|steps| - 1];
            && Valid(h, init)
            && Parents(steps) == Parents(init) + {last.parent}
            && last.parent !in Parents(init)
            && (forall c :: c in last.subs ==> c in Done(h, init) && Effective(h, last.parent, c))
  {
    var init, last := steps[..|steps| - 1], steps[|steps| - 1];
    assert steps == init + [last];
    ParentsSnoc(init, last);
    GatedMembers(h, Done(h, init), last.parent);
  }

  // ---- only nested time is mixed ---------------------------------------------------

  /** When every leaf top is a Product or Component, a class with a time scope draws only
      on leaf classes whose scope lies inside its own. */
  lemma {:induction false} DrawnTimeNested(h: Hier, steps: seq<Step>, p: Cls)
    requires Valid(h, steps) && h.ancestors <= h.pc && p in h.time
    ensures forall l :: l in Drawn(h.leaves, steps, p) ==>
              l in h.time && h.time[l].scope.Within(h.time[p].scope)
    decreases |steps|
  {
    if steps != [] {
      var init, last := steps[..|steps| - 1], steps[|steps| - 1];
      SplitLast(h, steps);
      if last.parent != p {
        DrawnTimeNested(h, init, p);
      } else {
        forall c, l | c in last.subs && l in Below(h.leaves, init, c)
          ensures l in h.time && h.time[l].scope.Within(h.time[p].scope)
        {
          assert Effective(h, p, c);
          DrawnTimeNested(h, init, c);
        }
      }
    }
  }

  // ---- amounts stay in the hull of the leaf amounts -----------------------------------

  lemma {:induction false} PresentFrom(subs: seq<Cls>, leaf: map<Cls, Amounts>, computed: map<Cls, Amounts>, ec: Cls,
                                       i: nat)
    requires i < |Present(subs, leaf, computed, ec)|
    ensures exists s :: s in subs && ec in Lookup(leaf, computed, s)
                        && Present(subs, leaf, computed, ec)[i] == Lookup(leaf, computed, s)[ec]
    ensures |Present(subs, leaf, computed, ec)| <= |subs|
  {
    var init, s := subs[..|subs| - 1], subs[|subs| - 1];
    var before := Present(init, leaf, computed, ec);
    assert s in subs;
    if i < |before| {
      PresentFrom(init, leaf, computed, ec, i);
    } else {
      assert i == |before|;
    }
    if before != [] {
      PresentFrom(init, leaf, computed, ec, 0);
    }
  }

  /** Every ancestor amount lies between the least and the greatest leaf amount of that
      element below it, and some leaf class below it has the element. */
  lemma {:induction false} AmountInHull(h: Hier, elems: seq<Cls>, leaf: map<Cls, Amounts>, steps: seq<Step>,
                                        p: Cls, ec: Cls, lo: real, hi: real)
    requires Valid(h, steps) && leaf.Keys == h.leaves
    requires forall l :: l in Drawn(h.leaves, steps, p) && l in leaf && ec in leaf[l] ==> lo <= leaf[l][ec] <= hi
    requires p in MeanRows(elems, leaf, steps) && ec in MeanRows(elems, leaf, steps)[p]
    ensures lo <= MeanRows(elems, leaf, steps)[p][ec] <= hi
    ensures exists l :: l in Drawn(h.leaves, steps, p) && l in leaf && ec in leaf[l]
    decreases |steps|
  {
    var init, last := steps[..|steps| - 1], steps[|steps| - 1];
    SplitLast(h, steps);
    if last.parent != p {
      AmountInHull(h, elems, leaf, init, p, ec, lo, hi);
    } else {
      var computed := MeanRows(elems, leaf, init);
      var vals := Present(last.subs, leaf, computed, ec);
      forall i | 0 <= i < |vals|
        ensures lo <= vals[i] <= hi
        ensures exists l :: l in Drawn(h.leaves, steps, p) && l in leaf && ec in leaf[l]
      {
        PresentFrom(last.subs, leaf, computed, ec, i);
        var s :| s in last.subs && ec in Lookup(leaf, computed, s) && vals[i] == Lookup(leaf, computed, s)[ec];
        DrawnSub(h.leaves, steps, s);
        if s in leaf && leaf[s].Keys != {} {
          assert s in Drawn(h.leaves, steps, p);
        } else {
          AmountInHull(h, elems, leaf, init, s, ec, lo, hi);
        }
      }
      MeanBounds(vals, lo, hi);
    }
  }

  ghost predicate Positive(rows: map<Cls, Amounts>) {
    forall c, ec :: c in rows && ec in rows[c] ==> rows[c][ec] > 0.0
  }

  /** Only positive amounts are ever reported. */
  lemma {:induction false} AmountPositive(elems: seq<Cls>, leaf: map<Cls, Amounts>, steps: seq<Step>)
    requires Positive(leaf)
    ensures Positive(MeanRows(elems, leaf, steps))
  {
    if steps != [] {
      var init, last := steps[..|steps| - 1], steps[|steps| - 1];
      AmountPositive(elems, leaf, init);
      var computed := MeanRows(elems, leaf, init);
      forall ec | MeanEntry(last.subs, leaf, computed, ec).Some?
        ensures MeanEntry(last.subs, leaf, computed, ec).value > 0.0
      {
        assert MeanEntry(last.subs, leaf, computed, ec).value > 0.0 by {
          var vals := Present(last.subs, leaf, computed, ec);
          forall i | 0 <= i < |vals| ensures vals[i] > 0.0 {
            PresentFrom(last.subs, leaf, computed, ec, i);
          }
          MeanPositive(vals);
        }
      }
    }
  }

  // ---- averaging never increases relative uncertainty ------------------------------------

  /** `best` is the output of `aggregate` on the same index: leaf rows, with the computed
      rows of `steps` on top. */
  ghost predicate BestOf(h: Hier, elems: seq<Cls>, leaf: map<Cls, Amounts>, steps: seq<Step>, best: map<Cls, Amounts>) {
    && (forall c :: c in leaf ==> c in best && best[c] == leaf[c])
    && (forall p :: p in MeanRows(elems, leaf, steps) ==> p in best && best[p] == MeanRows(elems, leaf, steps)[p])
  }

  lemma BestOfInit(h: Hier, elems: seq<Cls>, leaf: map<Cls, Amounts>, steps: seq<Step>, best: map<Cls, Amounts>)
    requires Valid(h, steps) && steps != [] && BestOf(h, elems, leaf, steps, best)
    ensures BestOf(h, elems, leaf, steps[..|steps| - 1], best)
  {
    SplitLast(h, steps);
    MeanRowKeys(elems, leaf, steps[..|steps| - 1]);
  }

  lemma {:induction false} SigmasWeighted(subs: seq<Cls>, leaf: map<Cls, Amounts>, computed: map<Cls, Amounts>,
                                          best: map<Cls, Amounts>, ec: Cls, hi: real)
    requires Positive(best) && Bounded(subs, leaf, computed, ec, hi)
    ensures Weighted(Sigmas(subs, leaf, computed, best, ec), 0.0, hi)
  {
    if subs != [] {
      var init, s := subs[..|subs| - 1], subs[|subs| - 1];
      assert subs == init + [s];
      SigmasWeighted(init, leaf, computed, best, ec, hi);
    }
  }

  lemma SumSkip(vals: seq<real>, w: real, x: Option<real>)
    requires w <= Sum(vals) && (x.Some? ==> x.value > 0.0)
    ensures var more := vals + (if x.Some? then [x.value] else []);
            && w <= Sum(more)
            && (x.Some? ==> w + x.value <= Sum(more))
  {
    if x.Some? {
      SumSnoc(vals, x.value);
    } else {
      assert vals + [] == vals;
    }
  }

  /** The subclasses with an uncertainty weigh at most what all averaged amounts sum to. */
  lemma {:induction false} SigmasWeight(subs: seq<Cls>, leaf: map<Cls, Amounts>, computed: map<Cls, Amounts>,
                                        leafU: map<Cls, Amounts>, computedU: map<Cls, Amounts>, best: map<Cls, Amounts>, ec: Cls)
    requires Reported(subs, leaf, computed, best)
    ensures Weight(Sigmas(subs, leafU, computedU, best, ec)) <= Sum(Present(subs, leaf, computed, ec))
    ensures |Present(subs, leaf, computed, ec)| <= |subs|
  {
    if subs != [] {
      var init, s := subs[..|subs| - 1], subs[|subs| - 1];
      assert subs == init + [s];
      SigmasWeight(init, leaf, computed, leafU, computedU, best, ec);
      var ts, all := Sigmas(init, leafU, computedU, best, ec), Sigmas(subs, leafU, computedU, best, ec);
      SumSkip(Present(init, leaf, computed, ec), Weight(ts), At(best[s], ec));
      if all != ts {
        assert all[..|ts|] == ts;
      }
    }
  }

  /** The rows of `subs` are what `aggregate` reported, all positive. */
  ghost predicate Reported(subs: seq<Cls>, leaf: map<Cls, Amounts>, computed: map<Cls, Amounts>,
                           best: map<Cls, Amounts>) {
    Positive(best) && forall s :: s in subs ==> s in best && Lookup(leaf, computed, s) == best[s]
  }

  ghost predicate Bounded(subs: seq<Cls>, leaf: map<Cls, Amounts>, computed: map<Cls, Amounts>, ec: Cls, hi: real) {
    forall s :: s in subs && ec in Lookup(leaf, computed, s) ==> 0.0 <= Lookup(leaf, computed, s)[ec] <= hi
  }

  /** One averaging step: the parent's relative uncertainty is within the subclasses' bound. */
  lemma UncertaintyStep(subs: seq<Cls>, leaf: map<Cls, Amounts>, computed: map<Cls, Amounts>,
                        leafU: map<Cls, Amounts>, computedU: map<Cls, Amounts>, best: map<Cls, Amounts>,
                        ec: Cls, mean: real, hi: real)
    requires Reported(subs, leaf, computed, best) && Bounded(subs, leafU, computedU, ec, hi) && hi >= 0.0
    requires MeanEntry(subs, leaf, computed, ec) == Some(mean)
    ensures subs != [] && mean > 0.0
    ensures 0.0 <= RelativeVariance(Sigmas(subs, leafU, computedU, best, ec), |subs|, mean) <= hi
  {
    var vals := Present(subs, leaf, computed, ec);
    assert Sum(Present(subs, leaf, computed, ec)) > 0.0 by {
      var vals := Present(subs, leaf, computed, ec);
      forall i | 0 <= i < |vals| ensures vals[i] > 0.0 {
        PresentFrom(subs, leaf, computed, ec, i);
      }
      SumPositive(vals);
    }
    SigmasWeighted(subs, leafU, computedU, best, ec, hi);
    SigmasWeight(subs, leaf, computed, leafU, computedU, best, ec);
    PooledVariance(Sigmas(subs, leafU, computedU, best, ec), Sum(vals), |vals|, |subs|, hi);
  }

  /** What `aggregate` reported for a subclass is what its row holds. */
  lemma LookupIsBest(h: Hier, elems: seq<Cls>, leaf: map<Cls, Amounts>, steps: seq<Step>, best: map<Cls, Amounts>,
                     s: Cls)
    requires Valid(h, steps) && leaf.Keys == h.leaves && h.leaves !! h.ancestors
    requires BestOf(h, elems, leaf, steps, best) && s in Done(h, steps)
    ensures s in best && Lookup(leaf, MeanRows(elems, leaf, steps), s) == best[s]
  {
    MeanRowKeys(elems, leaf, steps);
    ParentsCount(h, steps);
  }

  /** Every class's relative uncertainty (squared) is at most the largest one among the
      leaf classes it draws on, at every height of the class tree. */
  lemma {:induction false} UncertaintyNeverGrows(h: Hier, elems: seq<Cls>, leaf: map<Cls, Amounts>,
                                                 leafU: map<Cls, Amounts>,
                                                 best: map<Cls, Amounts>, steps: seq<Step>, p: Cls, ec: Cls, hi: real)
    requires Valid(h, steps) && leaf.Keys == leafU.Keys == h.leaves && h.leaves !! h.ancestors
    requires Positive(best) && BestOf(h, elems, leaf, steps, best) && hi >= 0.0
    requires forall l :: l in Drawn(h.leaves, steps, p) && l in leafU && ec in leafU[l] ==> 0.0 <= leafU[l][ec] <= hi
    requires p in UncertaintyRows(elems, leafU, best, steps) && ec in UncertaintyRows(elems, leafU, best, steps)[p]
    ensures 0.0 <= UncertaintyRows(elems, leafU, best, steps)[p][ec] <= hi
    decreases |steps|
  {
    var init, last := steps[..|steps| - 1], steps[|steps| - 1];
    SplitLast(h, steps);
    BestOfInit(h, elems, leaf, steps, best);
    if last.parent != p {
      UncertaintyNeverGrows(h, elems, leaf, leafU, best, init, p, ec, hi);
    } else {
      var computed, computedU := MeanRows(elems, leaf, init), UncertaintyRows(elems, leafU, best, init);
      forall s | s in last.subs
        ensures s in best && Lookup(leaf, computed, s) == best[s]
        ensures ec in Lookup(leafU, computedU, s) ==> 0.0 <= Lookup(leafU, computedU, s)[ec] <= hi
      {
        LookupIsBest(h, elems, leaf, init, best, s);
        DrawnSub(h.leaves, steps, s);
        if ec in Lookup(leafU, computedU, s) && !(s in leafU && leafU[s].Keys != {}) {
          UncertaintyNeverGrows(h, elems, leaf, leafU, best, init, s, ec, hi);
        }
      }
      UncertaintyStep(last.subs, leaf, computed, leafU, computedU, best, ec, best[p][ec], hi);
    }
  }

  // ---- data quality -----------------------------------------------------------------------

  /** The pool's score is the maximum over the contributing subclasses, and its mean is
      in the hull of theirs. */
  lemma {:induction false} PoolBounds(subs: seq<Cls>, leaf: map<Cls, map<Cls, Quality>>,
                                      computed: map<Cls, map<Cls, Quality>>,
                                      best: map<Cls, Amounts>, ec: Cls, lo: real, hi: real)
    requires Positive(best)
    requires forall s :: s in subs && HasQuality(s, leaf, computed, best, ec) ==>
        lo <= Lookup(leaf, computed, s)[ec].mean <= hi
    ensures var pool := QualityPool(subs, leaf, computed, best, ec);
            && pool.wtot * lo <= pool.wsum <= pool.wtot * hi
            && (forall s :: s in subs && HasQuality(s, leaf, computed, best, ec) ==>
                  pool.worst.Some? && Lookup(leaf, computed, s)[ec].score <= pool.worst.value)
            && (pool.worst.Some? ==>
                  (exists s :: s in subs && HasQuality(s, leaf, computed, best, ec)
                               && Lookup(leaf, computed, s)[ec].score == pool.worst.value))
  {
    if subs != [] {
      var init, s := subs[..|subs| - 1], subs[|subs| - 1];
      assert subs == init + [s];
      PoolBounds(init, leaf, computed, best, ec, lo, hi);
      if HasQuality(s, leaf, computed, best, ec) {
        var pool := QualityPool(init, leaf, computed, best, ec);
        MomentStep(pool.wtot, pool.wsum, best[s][ec], Lookup(leaf, computed, s)[ec].mean, lo, hi);
      }
    }
  }

  /** A quality within the bounds, whose score is some leaf class's score below. */
  ghost predicate Sourced(q: Quality, leaf: map<Cls, map<Cls, Quality>>, from: set<Cls>, ec: Cls,
                          lo: real, hi: real, worst: int)
  {
    && lo <= q.mean <= hi
    && q.score <= worst
    && exists l :: l in from && l in leaf && ec in leaf[l] && leaf[l][ec].score == q.score
  }

  lemma QualityStep(subs: seq<Cls>, leaf: map<Cls, map<Cls, Quality>>, computed: map<Cls, map<Cls, Quality>>,
                    best: map<Cls, Amounts>, from: set<Cls>, ec: Cls, lo: real, hi: real, worst: int)
    requires Positive(best)
    requires forall s :: s in subs && HasQuality(s, leaf, computed, best, ec) ==>
               Sourced(Lookup(leaf, computed, s)[ec], leaf, from, ec, lo, hi, worst)
    requires QualityEntry(subs, leaf, computed, best, ec).Some?
    ensures Sourced(QualityEntry(subs, leaf, computed, best, ec).value, leaf, from, ec, lo, hi, worst)
  {
    PoolBounds(subs, leaf, computed, best, ec, lo, hi);
    var pool := QualityPool(subs, leaf, computed, best, ec);
    DivBounds(pool.wsum, pool.wtot, lo, hi);
    var s :| s in subs && HasQuality(s, leaf, computed, best, ec)
        && Lookup(leaf, computed, s)[ec].score == pool.worst.value;
  }

  /** The rolled-up mean data quality stays in the hull of the leaf means below, and the
      rolled-up score is some leaf's score below. */
  lemma {:induction false} QualityInHull(h: Hier, elems: seq<Cls>, leaf: map<Cls, map<Cls, Quality>>,
                                         best: map<Cls, Amounts>,
                                         steps: seq<Step>, p: Cls, ec: Cls, lo: real, hi: real, worst: int)
    requires Valid(h, steps) && leaf.Keys == h.leaves && Positive(best)
    requires forall l :: l in Drawn(h.leaves, steps, p) && l in leaf && ec in leaf[l] ==>
               lo <= leaf[l][ec].mean <= hi && leaf[l][ec].score <= worst
    requires p in QualityRows(elems, leaf, best, steps) && ec in QualityRows(elems, leaf, best, steps)[p]
    ensures Sourced(QualityRows(elems, leaf, best, steps)[p][ec], leaf, Drawn(h.leaves, steps, p), ec, lo, hi, worst)
    decreases |steps|
  {
    var init, last := steps[..|steps| - 1], steps[|steps| - 1];
    SplitLast(h, steps);
    if last.parent != p {
      QualityInHull(h, elems, leaf, best, init, p, ec, lo, hi, worst);
    } else {
      var computed, from := QualityRows(elems, leaf, best, init), Drawn(h.leaves, steps, p);
      forall s | s in last.subs && HasQuality(s, leaf, computed, best, ec)
        ensures Sourced(Lookup(leaf, computed, s)[ec], leaf, from, ec, lo, hi, worst)
      {
        DrawnSub(h.leaves, steps, s);
        if s in leaf && leaf[s].Keys != {} {
          assert s in from;
        } else {
          QualityInHull(h, elems, leaf, best, init, s, ec, lo, hi, worst);
        }
      }
      QualityStep(last.subs, leaf, computed, best, from, ec, lo, hi, worst);
    }
  }
}
