/** The frame carried from schedules to the three class tables. */
module TableFrame {
  import opened Vocabulary
  import opened Rollup
  import opened RowRollup
  import opened Frame

  function MeanF(elems: seq<Cls>, leaf: map<Cls, Amounts>): RowOf<Amounts> {
    (p, subs, computed) => MeanRow(elems, subs, leaf, computed)
  }

  function UncertaintyF(elems: seq<Cls>, leaf: map<Cls, Amounts>, best: map<Cls, Amounts>)
    : RowOf<Amounts>
  {
    (p, subs, computed) => UncertaintyRow(elems, p, subs, leaf, computed, best)
  }

  function QualityF(elems: seq<Cls>, leaf: map<Cls, map<Cls, Quality>>, best: map<Cls, Amounts>)
    : RowOf<map<Cls, Quality>>
  {
    (p, subs, computed) => QualityRow(elems, subs, leaf, computed, best)
  }

  lemma {:induction false} MeanRowsEval(elems: seq<Cls>, leaf: map<Cls, Amounts>, steps: seq<Step>)
    ensures MeanRows(elems, leaf, steps) == Eval(steps, MeanF(elems, leaf))
  {
    if steps != [] {
      MeanRowsEval(elems, leaf, steps[..|steps| - 1]);
    }
  }

  lemma {:induction false} UncertaintyRowsEval(elems: seq<Cls>, leaf: map<Cls, Amounts>, best: map<Cls, Amounts>,
                                               steps: seq<Step>)
    ensures UncertaintyRows(elems, leaf, best, steps) == Eval(steps, UncertaintyF(elems, leaf, best))
  {
    if steps != [] {
      UncertaintyRowsEval(elems, leaf, best, steps[..|steps| - 1]);
    }
  }

  lemma {:induction false} QualityRowsEval(elems: seq<Cls>, leaf: map<Cls, map<Cls, Quality>>, best: map<Cls, Amounts>,
                                           steps: seq<Step>)
    ensures QualityRows(elems, leaf, best, steps) == Eval(steps, QualityF(elems, leaf, best))
  {
    if steps != [] {
      QualityRowsEval(elems, leaf, best, steps[..|steps| - 1]);
    }
  }

  ghost predicate SameMembers(a: seq<Cls>, b: seq<Cls>) {
    forall x :: x in a <==> x in b
  }

  ghost predicate AllOutside(subs: seq<Cls>, w: set<Cls>) {
    forall s :: s in subs ==> s !in w
  }

  lemma UncertaintyRowSame(ea: seq<Cls>, eb: seq<Cls>, la: map<Cls, Amounts>, lb: map<Cls, Amounts>,
                           ba: map<Cls, Amounts>, bb: map<Cls, Amounts>, w: set<Cls>,
                           p: Cls, subs: seq<Cls>, a: map<Cls, Amounts>, b: map<Cls, Amounts>)
    requires SameMembers(ea, eb) && LeavesAgree(la, lb, w) && LeavesAgree(ba, bb, w)
    requires p !in w && AllOutside(subs, w) && AgreeOn(a, b, subs)
    ensures UncertaintyRow(ea, p, subs, la, a, ba) == UncertaintyRow(eb, p, subs, lb, b, bb)
  {
    assert At(ba, p) == At(bb, p);
    forall ec ensures UncertaintyEntry(p, subs, la, a, ba, ec) == UncertaintyEntry(p, subs, lb, b, bb, ec) {
      SigmasAgree(subs, la, a, ba, lb, b, bb, w, ec);
    }
  }

  lemma QualityRowSame(ea: seq<Cls>, eb: seq<Cls>, la: map<Cls, map<Cls, Quality>>, lb: map<Cls, map<Cls, Quality>>,
                       ba: map<Cls, Amounts>, bb: map<Cls, Amounts>, w: set<Cls>,
                       subs: seq<Cls>, a: map<Cls, map<Cls, Quality>>, b: map<Cls, map<Cls, Quality>>)
    requires SameMembers(ea, eb) && LeavesAgree(la, lb, w) && LeavesAgree(ba, bb, w)
    requires AllOutside(subs, w) && AgreeOn(a, b, subs)
    ensures QualityRow(ea, subs, la, a, ba) == QualityRow(eb, subs, lb, b, bb)
  {
    forall ec ensures QualityEntry(subs, la, a, ba, ec) == QualityEntry(subs, lb, b, bb, ec) {
      PoolsAgree(subs, la, a, ba, lb, b, bb, w, ec);
    }
  }

  lemma OverlayAgrees<V>(la: map<Cls, V>, ra: map<Cls, V>, lb: map<Cls, V>, rb: map<Cls, V>, w: set<Cls>)
    requires LeavesAgree(la, lb, w) && LeavesAgree(ra, rb, w)
    ensures LeavesAgree(la + ra, lb + rb, w)
  {
    forall c | c !in w ensures At(la + ra, c) == At(lb + rb, c) {
      assert At(la, c) == At(lb, c) && At(ra, c) == At(rb, c);
    }
  }

  ghost predicate SameFrame(h: Hier, g: Hier, w: set<Cls>, ea: seq<Cls>, eb: seq<Cls>) {
    SameOutside(h, g, w) && SameMembers(ea, eb)
  }

  lemma SchedulesSplit(h: Hier, g: Hier, w: set<Cls>)
    requires SameOutside(h, g, w)
    ensures Outside(Schedule(h), w) == Outside(Schedule(g), w)
    ensures Separate(Schedule(h), w) && Separate(Schedule(g), w)
  {
    ScheduleOutside(h, g, w);
    ScheduleStable(h, |h.ancestors| + 1);
    ScheduleStable(g, |g.ancestors| + 1);
    ScheduleSeparate(h, w, Schedule(h));
    ScheduleSeparate(g, w, Schedule(g));
  }

  /** Amount tables agree outside `w` ... */
  lemma AmountsAgree(h: Hier, g: Hier, w: set<Cls>, ea: seq<Cls>, eb: seq<Cls>, la: map<Cls, Amounts>,
                     lb: map<Cls, Amounts>)
    requires SameFrame(h, g, w, ea, eb) && LeavesAgree(la, lb, w)
    ensures LeavesAgree(la + MeanRows(ea, la, Schedule(h)), lb + MeanRows(eb, lb, Schedule(g)), w)
  {
    var sh, sg := Schedule(h), Schedule(g);
    SchedulesSplit(h, g, w);
    assert forall p, subs, a, b :: Crosses(MeanF(ea, la), MeanF(eb, lb), w, p, subs, a, b) by {
      forall p, subs, a, b ensures Crosses(MeanF(ea, la), MeanF(eb, lb), w, p, subs, a, b) {
        if AllOutside(subs, w) && AgreeOn(a, b, subs) {
          assert MeanRow(ea, subs, la, a) == MeanRow(eb, subs, lb, b) by {
            forall ec ensures MeanEntry(subs, la, a, ec) == MeanEntry(subs, lb, b, ec) {
              PresentAgrees(subs, la, a, lb, b, w, ec);
            }
          }
        }
      }
    }
    MeanRowsEval(ea, la, sh);
    MeanRowsEval(eb, lb, sg);
    EvalOutside(sh, sg, w, MeanF(ea, la), MeanF(eb, lb));
    OverlayAgrees(la, MeanRows(ea, la, sh), lb, MeanRows(eb, lb, sg), w);
  }

  /** ... and so do uncertainty tables ... */
  lemma UncertaintiesAgree(h: Hier, g: Hier, w: set<Cls>, ea: seq<Cls>, eb: seq<Cls>, la: map<Cls, Amounts>,
                           lb: map<Cls, Amounts>,
                           ba: map<Cls, Amounts>, bb: map<Cls, Amounts>)
    requires SameFrame(h, g, w, ea, eb) && LeavesAgree(la, lb, w) && LeavesAgree(ba, bb, w)
    ensures LeavesAgree(la + UncertaintyRows(ea, la, ba, Schedule(h)), lb + UncertaintyRows(eb, lb, bb, Schedule(g)), w)
  {
    var sh, sg := Schedule(h), Schedule(g);
    SchedulesSplit(h, g, w);
    assert forall p, subs, a, b :: Crosses(UncertaintyF(ea, la, ba), UncertaintyF(eb, lb, bb), w, p, subs, a, b) by {
      forall p, subs, a, b ensures Crosses(UncertaintyF(ea, la, ba), UncertaintyF(eb, lb, bb), w, p, subs, a, b) {
        if p !in w && AllOutside(subs, w) && AgreeOn(a, b, subs) {
          UncertaintyRowSame(ea, eb, la, lb, ba, bb, w, p, subs, a, b);
        }
      }
    }
    UncertaintyRowsEval(ea, la, ba, sh);
    UncertaintyRowsEval(eb, lb, bb, sg);
    EvalOutside(sh, sg, w, UncertaintyF(ea, la, ba), UncertaintyF(eb, lb, bb));
    OverlayAgrees(la, UncertaintyRows(ea, la, ba, sh), lb, UncertaintyRows(eb, lb, bb, sg), w);
  }

  /** ... and data-quality tables. */
  lemma QualitiesAgree(h: Hier, g: Hier, w: set<Cls>, ea: seq<Cls>, eb: seq<Cls>,
                       la: map<Cls, map<Cls, Quality>>, lb: map<Cls, map<Cls, Quality>>, ba: map<Cls, Amounts>, bb: map<Cls, Amounts>)
    requires SameFrame(h, g, w, ea, eb) && LeavesAgree(la, lb, w) && LeavesAgree(ba, bb, w)
    ensures LeavesAgree(la + QualityRows(ea, la, ba, Schedule(h)), lb + QualityRows(eb, lb, bb, Schedule(g)), w)
  {
    var sh, sg := Schedule(h), Schedule(g);
    SchedulesSplit(h, g, w);
    assert forall p, subs, a, b :: Crosses(QualityF(ea, la, ba), QualityF(eb, lb, bb), w, p, subs, a, b) by {
      forall p, subs, a, b ensures Crosses(QualityF(ea, la, ba), QualityF(eb, lb, bb), w, p, subs, a, b) {
        if AllOutside(subs, w) && AgreeOn(a, b, subs) {
          QualityRowSame(ea, eb, la, lb, ba, bb, w, subs, a, b);
        }
      }
    }
    QualityRowsEval(ea, la, ba, sh);
    QualityRowsEval(eb, lb, bb, sg);
    EvalOutside(sh, sg, w, QualityF(ea, la, ba), QualityF(eb, lb, bb));
    OverlayAgrees(la, QualityRows(ea, la, ba, sh), lb, QualityRows(eb, lb, bb, sg), w);
  }

  // ---- more element classes change nothing -------------------------------------------------

  ghost predicate Keyed<V>(rows: map<Cls, map<Cls, V>>, elems: seq<Cls>) {
    forall c, ec :: c in rows && ec in rows[c] ==> ec in elems
  }

  lemma LookupKeyed<V>(leaf: map<Cls, map<Cls, V>>, computed: map<Cls, map<Cls, V>>, elems: seq<Cls>, s: Cls)
    requires Keyed(leaf, elems) && Keyed(computed, elems)
    ensures forall ec :: ec in Lookup(leaf, computed, s) ==> ec in elems
  {
  }

  lemma {:induction false} StrangerAmount(subs: seq<Cls>, leaf: map<Cls, Amounts>, computed: map<Cls, Amounts>,
                                          best: map<Cls, Amounts>, elems: seq<Cls>, ec: Cls)
    requires Keyed(leaf, elems) && Keyed(computed, elems) && ec !in elems
    ensures Present(subs, leaf, computed, ec) == [] && Sigmas(subs, leaf, computed, best, ec) == []
  {
    if subs != [] {
      StrangerAmount(subs[..|subs| - 1], leaf, computed, best, elems, ec);
      LookupKeyed(leaf, computed, elems, subs[|subs| - 1]);
    }
  }

  lemma {:induction false} StrangerQuality(subs: seq<Cls>, leaf: map<Cls, map<Cls, Quality>>,
                                           computed: map<Cls, map<Cls, Quality>>,
                                           best: map<Cls, Amounts>, elems: seq<Cls>, ec: Cls)
    requires Keyed(leaf, elems) && Keyed(computed, elems) && ec !in elems
    ensures QualityPool(subs, leaf, computed, best, ec) == Pool(0.0, 0.0, None)
  {
    if subs != [] {
      StrangerQuality(subs[..|subs| - 1], leaf, computed, best, elems, ec);
      LookupKeyed(leaf, computed, elems, subs[|subs| - 1]);
    }
  }

  ghost predicate Includes(wide: seq<Cls>, elems: seq<Cls>) {
    forall ec :: ec in elems ==> ec in wide
  }

  lemma UncertaintyRowWider(elems: seq<Cls>, wide: seq<Cls>, p: Cls, subs: seq<Cls>, leaf: map<Cls, Amounts>,
                            computed: map<Cls, Amounts>, best: map<Cls, Amounts>)
    requires Includes(wide, elems) && Keyed(leaf, elems) && Keyed(computed, elems)
    ensures UncertaintyRow(wide, p, subs, leaf, computed, best) == UncertaintyRow(elems, p, subs, leaf, computed, best)
  {
    forall ec | ec !in elems ensures UncertaintyEntry(p, subs, leaf, computed, best, ec).None? {
      StrangerAmount(subs, leaf, computed, best, elems, ec);
    }
  }

  /** Element classes without content add no entry to any row. */
  lemma {:induction false} MeansWider(elems: seq<Cls>, wide: seq<Cls>, leaf: map<Cls, Amounts>, steps: seq<Step>)
    requires Includes(wide, elems) && Keyed(leaf, elems)
    ensures MeanRows(wide, leaf, steps) == MeanRows(elems, leaf, steps)
    ensures Keyed(MeanRows(elems, leaf, steps), elems)
  {
    if steps != [] {
      var init := steps[..|steps| - 1];
      MeansWider(elems, wide, leaf, init);
      assert MeanRow(wide, steps[|steps| - 1].subs, leaf, MeanRows(elems, leaf, init))
          == MeanRow(elems, steps[|steps| - 1].subs, leaf, MeanRows(elems, leaf, init)) by {
        forall ec | ec !in elems
          ensures MeanEntry(steps[|steps| - 1].subs, leaf, MeanRows(elems, leaf, init), ec).None?
        {
          StrangerAmount(steps[|steps| - 1].subs, leaf, MeanRows(elems, leaf, init), map[], elems, ec);
        }
      }
    }
  }

  lemma {:induction false} UncertaintiesWider(elems: seq<Cls>, wide: seq<Cls>, leaf: map<Cls, Amounts>,
                                              best: map<Cls, Amounts>,
                                              steps: seq<Step>)
    requires Includes(wide, elems) && Keyed(leaf, elems)
    ensures UncertaintyRows(wide, leaf, best, steps) == UncertaintyRows(elems, leaf, best, steps)
    ensures Keyed(UncertaintyRows(elems, leaf, best, steps), elems)
  {
    if steps != [] {
      var init, last := steps[..|steps| - 1], steps[|steps| - 1];
      UncertaintiesWider(elems, wide, leaf, best, init);
      UncertaintyRowWider(elems, wide, last.parent, last.subs, leaf, UncertaintyRows(elems, leaf, best, init), best);
    }
  }

  lemma {:induction false} QualitiesWider(elems: seq<Cls>, wide: seq<Cls>, leaf: map<Cls, map<Cls, Quality>>,
                                          best: map<Cls, Amounts>, steps: seq<Step>)
    requires Includes(wide, elems) && Keyed(leaf, elems)
    ensures QualityRows(wide, leaf, best, steps) == QualityRows(elems, leaf, best, steps)
    ensures Keyed(QualityRows(elems, leaf, best, steps), elems)
  {
    if steps != [] {
      var init := steps[..|steps| - 1];
      QualitiesWider(elems, wide, leaf, best, init);
      assert QualityRow(wide, steps[|steps| - 1].subs, leaf, QualityRows(elems, leaf, best, init), best)
          == QualityRow(elems, steps[|steps| - 1].subs, leaf, QualityRows(elems, leaf, best, init), best) by {
        forall ec | ec !in elems
          ensures QualityEntry(steps[|steps| - 1].subs, leaf, QualityRows(elems, leaf, best, init), best, ec).None?
        {
          StrangerQuality(steps[|steps| - 1].subs, leaf, QualityRows(elems, leaf, best, init), best, elems, ec);
        }
      }
    }
  }
}
