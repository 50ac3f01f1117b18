/** The served view: the full derive, and why refreshing the affected rows alone gives it. */
module ServedView {
  import opened Vocabulary
  import opened Rollup
  import opened Reach
  import opened Aggregate
  import opened YearSlicer
  import opened YearForm
  import opened StoreIndex
  import opened StoreFrame
  import opened Affected
  import opened Frame
  import opened LeafFrame
  import QualityLaws
  import QualityMemo
  import RowRollup

  type Amounts = RowRollup.Amounts

  /** What the view serves of one class. */
  datatype Row = Row(best: Amounts, uncertainty: Amounts, quality: map<Cls, Quality>)

  type View = map<Cls, Row>

  function RowIn<V>(table: map<Cls, map<Cls, V>>, c: Cls): map<Cls, V> {
    if c in table then table[c] else map[]
  }

  /** Only classes with element content are projected. */
  function Served(best: map<Cls, Amounts>, uncertainty: map<Cls, Amounts>, quality: map<Cls, map<Cls, Quality>>): View {
    map c | c in best && best[c] != map[] :: Row(best[c], RowIn(uncertainty, c), RowIn(quality, c))
  }

  /** The full derive. */
  function ViewOf(ix: Index, compound: bool): View
    requires Wf(ix.dag)
  {
    var best := AmountTable(ix, Best);
    Served(best, UncertaintyTable(ix, compound, best), QualityTable(ix, best))
  }

  /** The view that `ix` serves. */
  ghost predicate Views(ix: Index, compound: bool, view: View) {
    Wf(ix.dag) && view == ViewOf(ix, compound)
  }

  // ---- deriving and refreshing ------------------------------------------------------------

  function Restrict(v: View, cs: set<Cls>): View {
    map c | c in v && c in cs :: v[c]
  }

  /** The last view with the affected classes' rows replaced by those of the new derive. */
  function Spliced(view: View, full: View, affected: set<Cls>): View {
    (view - affected) + Restrict(full, affected)
  }

  function RowOf(view: View, c: Cls): Option<Row> {
    if c in view then Some(view[c]) else None
  }

  /** The view of `ix`, refreshed from that of `jx`, is not the latter. */
  ghost predicate Outdated(ix: Index, jx: Index, compound: bool, affected: set<Cls>) {
    forall v, w {:trigger Views(ix, compound, v), Views(jx, compound, w)} ::
        Views(ix, compound, v) && Views(jx, compound, w) ==>
      Spliced(v, w, affected) != w
  }

  lemma OutdatedIs(ix: Index, jx: Index, compound: bool, affected: set<Cls>)
    requires Wf(ix.dag) && Wf(jx.dag)
    ensures Outdated(ix, jx, compound, affected)
        <==> Spliced(ViewOf(ix, compound), ViewOf(jx, compound), affected) != ViewOf(jx, compound)
  {
    assert Views(ix, compound, ViewOf(ix, compound)) && Views(jx, compound, ViewOf(jx, compound));
  }

  /** The view of `ix` has some row. */
  ghost predicate HasRows(ix: Index, compound: bool) {
    forall v {:trigger Views(ix, compound, v)} :: Views(ix, compound, v) ==> v != map[]
  }

  /** Drop the affected classes' rows and put the re-derived ones in. */
  method Refresh(view: View, rows: View, affected: set<Cls>) returns (r: View)
    ensures r == (view - affected) + rows
  {
    r := view;
    var todo := affected;
    while todo != {}
      invariant todo <= affected && r == view - (affected - todo)
      decreases todo
    {
      var c :| c in todo;
      r, todo := r - {c}, todo - {c};
    }
    assert affected - todo == affected;
    r := r + rows;
  }

  ghost predicate WfEnv(env: Env) {
    Timeless(env.frozen) && Distinct(env.names) && Distinct(env.nodes)
  }

  ghost predicate Settled(env: Env, a: Graph) {
    Authored(a) && WfEnv(env) && Levelled(env.frozen, a)
  }

  /** What a derive that reads `ix` answers: the view, or the classes that lack a time. */
  function Answers(ix: Index, compound: bool): Result<View, set<Cls>>
    requires Wf(ix.dag)
  {
    if Untimed(ix) == {} then Ok(ViewOf(ix, compound)) else Err(Untimed(ix))
  }

  /** `derive_fq`: index the graph and run the engine. */
  method DeriveGraph(env: Env, compound: bool, g: Graph) returns (r: Result<View, set<Cls>>, ghost ix: Index)
    requires WfEnv(env) && OneScope(g) && Wf(DagOf(g))
    ensures IsIndex(env, g, ix) && Wf(ix.dag) && r == Answers(ix, compound)
  {
    var built := BuildIndex(env, g);
    var index := built.value;
    ix := index;
    IndexWf(env, g, ix);
    var amounts := Run(index, Best);
    if amounts.Err? {
      return Err(amounts.error), ix;
    }
    var uncertainty := RunUncertainty(index, compound, amounts.value);
    var quality := QualityMemo.RunQuality(index, amounts.value);
    r := Ok(Served(amounts.value, uncertainty, quality));
  }

  /** `ix` is the index of the finalised content `a`. */
  ghost predicate Indexes(env: Env, a: Graph, ix: Index) {
    ix == IndexOfForm(env, a)
  }

  /** `r` is what a full derive of the content `a` answers: the view, or the classes that
      lack a time. */
  ghost predicate Derives(env: Env, compound: bool, a: Graph, r: Result<View, set<Cls>>) {
    forall ix {:trigger Indexes(env, a, ix)} :: Indexes(env, a, ix) ==>
      Wf(ix.dag) && r == Answers(ix, compound)
  }

  /** A full derive has one answer. */
  lemma DerivesOne(env: Env, compound: bool, a: Graph, r: Result<View, set<Cls>>, q: Result<View, set<Cls>>)
    requires Derives(env, compound, a, r) && Derives(env, compound, a, q)
    ensures r == q
  {
    assert Indexes(env, a, IndexOfForm(env, a));
  }

  /** What `Derives` says, in full. */
  lemma DerivesIs(env: Env, compound: bool, a: Graph, r: Result<View, set<Cls>>)
    requires Authored(a) && Timeless(env.frozen)
    ensures var ix := IndexOfForm(env, a);
            && Wf(ix.dag)
            && (Derives(env, compound, a, r) <==> r == Answers(ix, compound))
  {
    FormIndex(env, a);
    assert Indexes(env, a, IndexOfForm(env, a));
  }

  lemma HasDerive(env: Env, compound: bool, a: Graph) returns (r: Result<View, set<Cls>>)
    requires Authored(a) && Timeless(env.frozen)
    ensures Derives(env, compound, a, r)
  {
    FormIndex(env, a);
    var ix := IndexOfForm(env, a);
    r := Answers(ix, compound);
  }

  // ---- incremental equals full --------------------------------------------------------------

  lemma RowsAgree(sb: map<Cls, Amounts>, bb: map<Cls, Amounts>, su: map<Cls, Amounts>, bu: map<Cls, Amounts>,
                  sq: map<Cls, map<Cls, Quality>>, bq: map<Cls, map<Cls, Quality>>, w: set<Cls>, affected: set<Cls>)
    requires LeavesAgree(sb, bb, w) && LeavesAgree(su, bu, w) && LeavesAgree(sq, bq, w) && w <= affected
    ensures (Served(sb, su, sq) - affected) + Restrict(Served(bb, bu, bq), affected) == Served(bb, bu, bq)
  {
    forall c | c !in affected
      ensures RowRollup.At(sb, c) == RowRollup.At(bb, c) && RowIn(su, c) == RowIn(bu, c) && RowIn(sq, c) == RowIn(bq, c)
    {
      assert RowRollup.At(su, c) == RowRollup.At(bu, c) && RowRollup.At(sq, c) == RowRollup.At(bq, c);
    }
    Splice(Served(sb, su, sq), Served(bb, bu, bq), affected);
  }

  lemma Splice(small: View, big: View, affected: set<Cls>)
    requires forall c :: c !in affected ==> RowRollup.At(small, c) == RowRollup.At(big, c)
    ensures (small - affected) + Restrict(big, affected) == big
  {
    forall c | c !in affected ensures c in small <==> c in big {
      assert RowRollup.At(small, c) == RowRollup.At(big, c);
    }
    forall c | c in big && c !in affected ensures small[c] == big[c] {
      assert RowRollup.At(small, c) == RowRollup.At(big, c);
    }
  }

  /** Refreshing only the affected rows of the old view gives the full derive of the store
      with the new source in it, whenever the affected set misses nothing. */
  lemma IncrementalIsFull(env: Env, compound: bool, a: Graph, s: Graph)
    requires Arrival(env.frozen, a, s) && FamilyTimed(Union(a, s)) && Missed(env.frozen, a, s) == {}
    ensures var small, big := IndexOfForm(env, a), IndexOfForm(env, Union(a, s));
            var affected := AffectedBy(Form(env.frozen, Union(a, s)), NewWholes(s));
            && Wf(small.dag) && Wf(big.dag)
            && (ViewOf(small, compound) - affected) + Restrict(ViewOf(big, compound), affected) == ViewOf(big, compound)
  {
    var affected := AffectedBy(Form(env.frozen, Union(a, s)), NewWholes(s));
    CoveredIff(env.frozen, a, s);
    SpliceOver(env, compound, a, s, affected);
  }

  /** Any set that holds the touched classes will do. */
  lemma SpliceOver(env: Env, compound: bool, a: Graph, s: Graph, affected: set<Cls>)
    requires Arrival(env.frozen, a, s) && FamilyTimed(Union(a, s)) && Touched(env.frozen, a, s) <= affected
    ensures var small, big := IndexOfForm(env, a), IndexOfForm(env, Union(a, s));
            && Wf(small.dag) && Wf(big.dag)
            && (ViewOf(small, compound) - affected) + Restrict(ViewOf(big, compound), affected) == ViewOf(big, compound)
  {
    var small, big, w := IndexOfForm(env, a), IndexOfForm(env, Union(a, s)), Touched(env.frozen, a, s);
    ArrivalFramed(env, a, s);
    TablesAgree(small, big, Best, compound, w);
    var sb, bb := AmountTable(small, Best), AmountTable(big, Best);
    RowsAgree(sb, bb, UncertaintyTable(small, compound, sb), UncertaintyTable(big, compound, bb),
              QualityTable(small, sb), QualityTable(big, bb), w, affected);
  }

  /** A top instance refused for lack of a time stays refused. */
  lemma UntimedStays(env: Env, a: Graph, s: Graph)
    requires Arrival(env.frozen, a, s)
    ensures Untimed(IndexOfForm(env, a)) <= Untimed(IndexOfForm(env, Union(a, s)))
  {
    var small, big := IndexOfForm(env, a), IndexOfForm(env, Union(a, s));
    forall n | n in Tops(small) && IsProductOrComponent(small, n) && ClassOf(small, n) !in small.time
      ensures ClassOf(small, n) in Untimed(big)
    {
      assert ClassOf(IndexOfForm(env, a), n) in Untimed(IndexOfForm(env, Union(a, s))) by {
        AuthoredUnion(a, s);
        FormIndex(env, a);
        OldTop(env, a, s, n);
        TimedIff(env, a, n);
        TimedIff(env, Union(a, s), n);
      }
    }
  }

  lemma DerivesMeans(env: Env, compound: bool, a: Graph, ix: Index, r: Result<View, set<Cls>>)
    requires Derives(env, compound, a, r) && ix == IndexOfForm(env, a)
    ensures Wf(ix.dag)
    ensures Untimed(ix) != {} ==> r.Err?
    ensures Untimed(ix) == {} ==> r == Ok(ViewOf(ix, compound))
  {
    assert Indexes(env, a, ix);
  }

  /** Splicing the affected rows of a new derive into the last view gives the new derive; and
      a derive that was refused stays refused. */
  lemma SpliceIsDerive(env: Env, compound: bool, a: Graph, s: Graph, before: Result<View, set<Cls>>,
                       after: Result<View, set<Cls>>, affected: set<Cls>)
    requires Arrival(env.frozen, a, s) && Touched(env.frozen, a, s) <= affected
    requires Derives(env, compound, a, before) && Derives(env, compound, Union(a, s), after)
    ensures after.Ok? ==> before.Ok? && (before.value - affected) + Restrict(after.value, affected) == after.value
  {
    var small, big := IndexOfForm(env, a), IndexOfForm(env, Union(a, s));
    DerivesMeans(env, compound, a, small, before);
    DerivesMeans(env, compound, Union(a, s), big, after);
    UntimedStays(env, a, s);
    AuthoredUnion(a, s);
    RefusedIff(env, Union(a, s));
    if Untimed(big) == {} {
      SpliceOver(env, compound, a, s, affected);
    }
  }

  // ---- what a view shows ------------------------------------------------------------------------

  /** The classes the rollup computes. */
  function Computed(ix: Index): set<Cls> {
    Done(HierOf(ix), Schedule(HierOf(ix)))
  }

  /** Every leaf class has element content. */
  predicate Reports(ix: Index)
    requires Wf(ix.dag)
  {
    forall c :: c in LeafClasses(ix) ==> LeafRow(ix, Best, c) != map[]
  }

  ghost predicate Filled(rows: map<Cls, Amounts>) {
    forall c :: c in rows ==> rows[c] != map[]
  }

  ghost predicate Within(elems: seq<Cls>, rows: map<Cls, Amounts>) {
    forall c, ec :: c in rows && ec in rows[c] ==> ec in elems
  }

  /** The mean over subclasses with content has content. */
  lemma MeanFilled(elems: seq<Cls>, subs: seq<Cls>, leaf: map<Cls, Amounts>, computed: map<Cls, Amounts>)
    requires subs != [] && Filled(leaf) && Filled(computed) && Within(elems, leaf) && Within(elems, computed)
    requires subs[0] in leaf || subs[0] in computed
    ensures RowRollup.MeanRow(elems, subs, leaf, computed) != map[]
  {
    var row := RowRollup.Lookup(leaf, computed, subs[0]);
    assert row.Keys != {} && forall ec :: ec in row ==> ec in elems;
    var ec :| ec in row;
    QualityLaws.PresentHas(subs, leaf, computed, ec, subs[0]);
    assert RowRollup.MeanEntry(subs, leaf, computed, ec).Some?;
    assert ec in RowRollup.MeanRow(elems, subs, leaf, computed);
  }

  lemma {:induction false} MeansFilled(h: Hier, elems: seq<Cls>, leaf: map<Cls, Amounts>, steps: seq<Step>)
    requires Valid(h, steps) && leaf.Keys == h.leaves && Filled(leaf) && Within(elems, leaf)
    ensures Filled(RowRollup.MeanRows(elems, leaf, steps)) && Within(elems, RowRollup.MeanRows(elems, leaf, steps))
  {
    if steps != [] {
      var init, last := steps[..|steps| - 1], steps[|steps| - 1];
      MeansFilled(h, elems, leaf, init);
      RowRollup.MeanRowKeys(elems, leaf, init);
      GatedMembers(h, Done(h, init), last.parent);
      assert last.subs[0] in last.subs;
      MeanFilled(elems, last.subs, leaf, RowRollup.MeanRows(elems, leaf, init));
    }
  }

  /** A view serves the leaf classes and the computed ancestors that have element content; all of
      them, when every leaf class has some. */
  lemma ServedClasses(ix: Index, compound: bool)
    requires Wf(ix.dag)
    ensures ViewOf(ix, compound).Keys <= Computed(ix)
    ensures Reports(ix) ==> ViewOf(ix, compound).Keys == Computed(ix)
  {
    var best := AmountTable(ix, Best);
    assert AmountTable(ix, Best).Keys == Computed(ix) by {
      Lockstep(ix, Best, false, map[]);
    }
    if Reports(ix) {
      assert Filled(AmountTable(ix, Best)) by {
        var h := HierOf(ix);
        ScheduleStable(h, |h.ancestors| + 1);
        MeansFilled(h, ElementClasses(ix), LeafRows(ix, Best), Schedule(h));
      }
    }
  }

  lemma ComputedWithin(ix: Index)
    ensures Computed(ix) <= LeafClasses(ix) + AncestorClasses(ix)
  {
    ScheduleStable(HierOf(ix), |HierOf(ix).ancestors| + 1);
    ParentsCount(HierOf(ix), Schedule(HierOf(ix)));
  }

  lemma ServedIsUsed(env: Env, compound: bool, a: Graph, c: Cls)
    requires Authored(a) && Timeless(env.frozen) && Wf(IndexOfForm(env, a).dag)
    requires c in ViewOf(IndexOfForm(env, a), compound)
    ensures Known(env.frozen, a, c)
  {
    var ix := IndexOfForm(env, a);
    ServedClasses(ix, compound);
    ComputedWithin(ix);
    SmallKnown(env, a, ix, c);
  }

  lemma Misses(small: View, big: View, affected: set<Cls>, c: Cls)
    requires (c in small) != (c in big) && c !in affected
    ensures Spliced(small, big, affected) != big
  {
    assert c in Spliced(small, big, affected) <==> c in small;
  }
}
