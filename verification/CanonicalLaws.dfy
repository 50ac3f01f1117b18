/** What canonicalisation guarantees: a normal form, nothing measured lost, mass kept, and
    a second run that changes nothing. */
module CanonicalLaws {
  import opened Vocabulary
  import opened Sums
  import opened Canonicalize

  // ---- the canonical mean ------------------------------------------------------------------

  lemma {:induction false} PoolKeys(d: Doc, mats: seq<Name>, m: Name)
    requires m in mats
    ensures Fractional(d, m).Keys <= Pool(d, mats).Keys
  {
    var init, last := mats[..|mats| - 1], mats[|mats| - 1];
    assert mats == init + [last];
    if m in init {
      PoolKeys(d, init, m);
    }
  }

  lemma {:induction false} WithDataMembers(d: Doc, key: (DocCls, DocCls), mats: seq<Name>)
    ensures forall m :: m in WithData(d, key, mats) <==> m in mats && Key(d, m) == key && Fractional(d, m) != map[]
  {
    if mats != [] {
      WithDataMembers(d, key, mats[..|mats| - 1]);
      assert mats == mats[..|mats| - 1] + [mats[|mats| - 1]];
    }
  }

  /** A measured element is in the canonical composition of its material's group. */
  lemma MeasuredIsCanonical(d: Doc, m: Name)
    requires m in d.mats
    ensures Fractional(d, m).Keys <= Canon(d, Key(d, m)).Keys
  {
    var key := Key(d, m);
    WithDataMembers(d, key, d.mats);
    if Fractional(d, m) != map[] {
      PoolKeys(d, WithData(d, key, d.mats), m);
    }
  }

  // ---- what the rewritten document measures ---------------------------------------------------

  /** Levels and element classes of the original nodes are kept. */
  ghost predicate SameNodes(d: Doc, after: Doc) {
    && (forall n :: n in d.nodes ==> n in after.nodes && after.nodes[n].level == d.nodes[n].level)
    && (forall n :: n in d.nodes && d.nodes[n].level != Material ==> after.nodes[n] == d.nodes[n])
  }

  ghost predicate Known(d: Doc, stmts: seq<Stmt>) {
    forall i :: 0 <= i < |stmts| ==> stmts[i].whole in d.nodes && stmts[i].part in d.nodes
  }

  lemma NodesKept(d: Doc, after: Doc, fills: seq<Stmt>)
    requires WfDoc(d) && Canonicalised(d, after, fills)
    ensures SameNodes(d, after)
  {
  }

  /** The canonical fraction, once for each statement. */
  function Repeated(d: Doc, stmts: seq<Stmt>, mat: Name, canon: Fractions): Fractions {
    map ec | ec in Measured(d, stmts, mat) && ec in canon :: Times(Count(d, stmts, mat, ec) as real, canon[ec])
  }

  lemma MeasuredSnoc(d: Doc, stmts: seq<Stmt>, s: Stmt, mat: Name)
    ensures var m := Measured(d, stmts, mat);
            Measured(d, stmts + [s], mat)
              == if IsMeasure(d, s)
                  && s.whole == mat then m[ClsOf(d, s.part) := GetOrZero(m, ClsOf(d, s.part)) + s.best] else m
    ensures forall ec :: Count(d, stmts + [s], mat, ec)
              == Count(d, stmts, mat, ec) + if IsMeasure(d, s) && s.whole == mat && ClsOf(d, s.part) == ec then 1 else 0
  {
    assert (stmts + [s])[..|stmts|] == stmts;
  }

  lemma {:induction false} CountMeasured(d: Doc, stmts: seq<Stmt>, mat: Name, ec: DocCls)
    ensures Count(d, stmts, mat, ec) > 0 <==> ec in Measured(d, stmts, mat)
  {
    if stmts != [] {
      CountMeasured(d, stmts[..|stmts| - 1], mat, ec);
    }
  }

  lemma RewriteKind(d: Doc, after: Doc, s: Stmt)
    requires SameNodes(d, after) && s.whole in d.nodes && s.part in d.nodes && Rewrite(d, s).Some?
    ensures var r := Rewrite(d, s).value;
            && r.whole == s.whole && r.part == s.part
            && (IsMeasure(after, r) <==> IsMeasure(d, s))
            && (IsMeasure(d, s) ==> ClsOf(after, r.part) == ClsOf(d, s.part))
  {
  }

  lemma OneMore(k: nat, x: real)
    ensures Times(k as real, x) + x == Times((k + 1) as real, x)
  {
  }

  lemma TimesZero(x: real)
    ensures Times(0 as real, x) == 0.0
  {
  }

  /** One more statement of an element adds its canonical fraction once more. */
  lemma RepeatedSnoc(d: Doc, stmts: seq<Stmt>, s: Stmt, mat: Name, canon: Fractions)
    requires IsMeasure(d, s) && s.whole == mat
    ensures var r, ec := Repeated(d, stmts, mat, canon), ClsOf(d, s.part);
            Repeated(d, stmts + [s], mat, canon) == if ec in canon then r[ec := GetOrZero(r, ec) + canon[ec]] else r
  {
    var r, ec, next := Repeated(d, stmts, mat, canon), ClsOf(d, s.part), Repeated(d, stmts + [s], mat, canon);
    MeasuredSnoc(d, stmts, s, mat);
    if ec in canon {
      CountMeasured(d, stmts, mat, ec);
      TimesZero(canon[ec]);
      OneMore(Count(d, stmts, mat, ec), canon[ec]);
      assert next[ec] == GetOrZero(r, ec) + canon[ec];
    }
    assert next.Keys == r.Keys + if ec in canon then {ec} else {};
  }

  /** `r` is `s` rewritten for the materials whose canonical composition is `canon`. */
  ghost predicate Replaces(d: Doc, after: Doc, s: Stmt, r: Option<Stmt>, mat: Name, canon: Fractions) {
    match r
    case None => IsMeasure(d, s) && (s.whole == mat ==> ClsOf(d, s.part) !in canon)
    case Some(q) =>
      && q.whole == s.whole && (IsMeasure(after, q) <==> IsMeasure(d, s))
      && (IsMeasure(d, s) ==> ClsOf(after, q.part) == ClsOf(d, s.part))
      && (IsMeasure(d, s) && s.whole == mat ==> ClsOf(d, s.part) in canon && q.best == canon[ClsOf(d, s.part)])
  }

  function Appended(kept: seq<Stmt>, r: Option<Stmt>): seq<Stmt> {
    match r
    case None => kept
    case Some(q) => kept + [q]
  }

  /** One rewritten statement: the measured fraction becomes the canonical one. */
  lemma MeasuredStep(d: Doc, after: Doc, init: seq<Stmt>, s: Stmt, mat: Name, kept: seq<Stmt>, r: Option<Stmt>,
                     canon: Fractions)
    requires Replaces(d, after, s, r, mat, canon)
    requires Measured(after, kept, mat) == Repeated(d, init, mat, canon)
    ensures Measured(after, Appended(kept, r), mat) == Repeated(d, init + [s], mat, canon)
  {
    MeasuredSnoc(d, init, s, mat);
    if r.Some? {
      MeasuredSnoc(after, kept, r.value, mat);
    }
    if IsMeasure(d, s) && s.whole == mat {
      RepeatedSnoc(d, init, s, mat, canon);
    }
  }

  lemma {:induction false} MeasuredRewritten(d: Doc, after: Doc, stmts: seq<Stmt>, mat: Name)
    requires SameNodes(d, after) && Known(d, stmts)
    ensures Measured(after, Rewritten(d, stmts), mat) == Repeated(d, stmts, mat, Canon(d, Key(d, mat)))
  {
    if stmts != [] {
      var init, s := stmts[..|stmts| - 1], stmts[|stmts| - 1];
      assert stmts == init + [s];
      MeasuredRewritten(d, after, init, mat);
      MeasuredStep(d, after, init, s, mat, Rewritten(d, init), Rewrite(d, s), Canon(d, Key(d, mat)));
    }
  }

  // ---- filling the gaps ----------------------------------------------------------------------------

  /** The elements the first `k` fills supply for a material. */
  function Filled(fills: seq<Stmt>, k: nat, mat: Name): set<DocCls>
    requires k <= |fills|
  {
    set i | 0 <= i < k && fills[i].part.Minted? && fills[i].part.mat == mat :: fills[i].part.ec
  }

  /** Each fill is a statement about its own minted element, and no two are about the same. */
  ghost predicate GoodFills(after: Doc, fills: seq<Stmt>) {
    && (forall i :: 0 <= i < |fills| ==>
          && fills[i].part.Minted? && fills[i].part.mat == fills[i].whole
          && IsMeasure(after, fills[i]) && ClsOf(after, fills[i].part) == fills[i].part.ec)
    && (forall i, j :: 0 <= i < j < |fills| ==> fills[i].part != fills[j].part)
  }

  /** The fills of `mat` state fractions of `canon` that `has` lacks. */
  ghost predicate States(fills: seq<Stmt>, mat: Name, canon: Fractions, has: set<DocCls>) {
    forall i :: 0 <= i < |fills| && fills[i].whole == mat ==>
      fills[i].part.Minted? && fills[i].part.ec in canon && fills[i].part.ec !in has
          && fills[i].best == canon[fills[i].part.ec]
  }

  lemma FillsAreGood(d: Doc, after: Doc, fills: seq<Stmt>)
    requires WfDoc(d) && Canonicalised(d, after, fills)
    ensures GoodFills(after, fills)
  {
    forall i | 0 <= i < |fills| ensures IsMeasure(after, fills[i]) && ClsOf(after, fills[i].part) == fills[i].part.ec {
      assert IsFill(d, fills[i]);
      assert fills[i].part in after.nodes;
    }
  }

  function Plus(m: Fractions, ecs: set<DocCls>, canon: Fractions): Fractions
    requires ecs <= canon.Keys
  {
    m + map ec | ec in ecs :: canon[ec]
  }

  lemma FilledSnoc(fills: seq<Stmt>, k: nat, mat: Name)
    requires k < |fills|
    ensures Filled(fills, k + 1, mat)
         == Filled(fills, k, mat) + if fills[k].part.Minted? && fills[k].part.mat == mat then {fills[k].part.ec} else {}
  {
  }

  lemma PlusOne(m: Fractions, ecs: set<DocCls>, canon: Fractions, ec: DocCls)
    requires ecs <= canon.Keys && ec in canon && ec !in m && ec !in ecs
    ensures Plus(m, ecs + {ec}, canon) == Plus(m, ecs, canon)[ec := GetOrZero(Plus(m, ecs, canon), ec) + canon[ec]]
  {
  }

  lemma MeasuredFill(after: Doc, stmts: seq<Stmt>, fills: seq<Stmt>, k: nat, mat: Name, canon: Fractions,
                     before: Fractions)
    requires GoodFills(after, fills) && k < |fills| && States(fills, mat, canon, before.Keys)
    requires Filled(fills, k, mat) <= canon.Keys
    requires Measured(after, stmts, mat) == Plus(before, Filled(fills, k, mat), canon)
    ensures Filled(fills, k + 1, mat) <= canon.Keys
    ensures Measured(after, stmts + [fills[k]], mat) == Plus(before, Filled(fills, k + 1, mat), canon)
  {
    var f := fills[k];
    MeasuredSnoc(after, stmts, f, mat);
    FilledSnoc(fills, k, mat);
    if f.whole == mat {
      assert fills[k].part.ec !in Filled(fills, k, fills[k].part.mat);
      PlusOne(before, Filled(fills, k, mat), canon, f.part.ec);
    } else {
      assert Filled(fills, k, mat) + {} == Filled(fills, k, mat);
    }
  }

  lemma {:induction false} MeasuredFilled(after: Doc, stmts: seq<Stmt>, fills: seq<Stmt>, k: nat, mat: Name,
                                          canon: Fractions, before: Fractions)
    requires GoodFills(after, fills) && k <= |fills| && States(fills, mat, canon, before.Keys)
    requires Measured(after, stmts, mat) == before
    ensures Filled(fills, k, mat) <= canon.Keys
    ensures Measured(after, stmts + fills[..k], mat) == Plus(before, Filled(fills, k, mat), canon)
  {
    if k == 0 {
      assert stmts + fills[..0] == stmts && Filled(fills, 0, mat) == {};
    } else {
      MeasuredFilled(after, stmts, fills, k - 1, mat, canon, before);
      assert stmts + fills[..k] == (stmts + fills[..k - 1]) + [fills[k - 1]];
      MeasuredFill(after, stmts + fills[..k - 1], fills, k - 1, mat, canon, before);
    }
  }

  // ---- the normal form ------------------------------------------------------------------------------

  ghost predicate Runs(d: Doc, after: Doc, fills: seq<Stmt>) {
    WfDoc(d) && Canonicalised(d, after, fills)
  }

  lemma AllFilled(d: Doc, fills: seq<Stmt>, mat: Name)
    requires Fills(d, fills) && mat in d.mats
    ensures Filled(fills, |fills|, mat) == Canon(d, Key(d, mat)).Keys - Fractional(d, mat).Keys
  {
    forall i | 0 <= i < |fills| && fills[i].part.Minted? && fills[i].part.mat == mat
      ensures fills[i].part.ec in Canon(d, Key(d, mat)).Keys - Fractional(d, mat).Keys
    {
      assert IsFill(d, fills[i]);
    }
    forall ec | ec in Canon(d, Key(d, mat)) && ec !in Fractional(d, mat) ensures ec in Filled(fills, |fills|, mat) {
      assert Missing(d, mat, ec);
      var i :| 0 <= i < |fills| && fills[i].part == Minted(mat, ec);
    }
  }

  /** A composition, each fraction once for every statement `mat` has of the element. */
  function Multiple(d: Doc, mat: Name, canon: Fractions): Fractions {
    map ec | ec in canon :: Times(Stated(d, mat, ec) as real, canon[ec])
  }

  /** What a material measures after the run. */
  ghost function Weighted(d: Doc, mat: Name): Fractions {
    Multiple(d, mat, Canon(d, Key(d, mat)))
  }

  lemma TimesOne(x: real)
    ensures Times(1 as real, x) == x
  {
  }

  lemma PlusAll(d: Doc, mat: Name)
    requires Fractional(d, mat).Keys <= Canon(d, Key(d, mat)).Keys
    ensures var canon := Canon(d, Key(d, mat));
            Plus(Repeated(d, d.stmts, mat, canon), canon.Keys - Fractional(d, mat).Keys, canon) == Weighted(d, mat)
  {
    var canon := Canon(d, Key(d, mat));
    forall ec | ec in canon ensures Count(d, d.stmts, mat, ec) > 0 <==> ec in Fractional(d, mat)
      ensures Times(1 as real, canon[ec]) == canon[ec]
    {
      CountMeasured(d, d.stmts, mat, ec);
      TimesOne(canon[ec]);
    }
  }

  /** After the run a material measures the canonical composition of its group, each fraction
      once for every statement it has of the element. */
  lemma MeasuresWeighted(d: Doc, after: Doc, fills: seq<Stmt>, mat: Name)
    requires Runs(d, after, fills) && mat in d.mats
    ensures Fractional(after, mat) == Weighted(d, mat)
  {
    assert var canon := Canon(d, Key(d, mat));
           && Filled(fills, |fills|, mat) <= canon.Keys
           && Fractional(after, mat) == Plus(Repeated(d, d.stmts, mat, canon), Filled(fills, |fills|, mat), canon) by {
      var kept, canon := Rewritten(d, d.stmts), Canon(d, Key(d, mat));
      assert Measured(after, kept, mat) == Repeated(d, d.stmts, mat, canon) by {
        NodesKept(d, after, fills);
        MeasuredRewritten(d, after, d.stmts, mat);
      }
      FillsAreGood(d, after, fills);
      MeasuredFilled(after, kept, fills, |fills|, mat, canon, Repeated(d, d.stmts, mat, canon));
      assert fills[..|fills|] == fills;
    }
    AllFilled(d, fills, mat);
    MeasuredIsCanonical(d, mat);
    PlusAll(d, mat);
  }

  lemma NonZero(k: nat, x: real)
    requires k > 0 && x != 0.0
    ensures Times(k as real, x) != 0.0
  {
  }

  lemma TimesEqual(k: nat, j: nat, x: real)
    ensures Times(k as real, x) == Times(j as real, x) <==> x == 0.0 || k == j
  {
    if x != 0.0 && k != j {
      if k < j {
        assert Times(j as real, x) - Times(k as real, x) == Times((j - k) as real, x);
        NonZero(j - k, x);
      } else {
        assert Times(k as real, x) - Times(j as real, x) == Times((k - j) as real, x);
        NonZero(k - j, x);
      }
    }
  }

  lemma MultipleOnce(d: Doc, mat: Name, canon: Fractions)
    ensures Multiple(d, mat, canon) == canon
        <==> forall ec :: ec in canon && canon[ec] != 0.0 ==> Stated(d, mat, ec) == 1
  {
    var m := Multiple(d, mat, canon);
    forall ec | ec in canon ensures m[ec] == canon[ec] <==> canon[ec] == 0.0 || Stated(d, mat, ec) == 1 {
    }
    if m == canon {
      assert forall ec :: ec in canon ==> m[ec] == canon[ec];
    }
  }

  /** A material measures exactly its canonical composition when, and only when, it states no
      element of non-zero fraction more than once. */
  lemma MeasuresCanonicalIff(d: Doc, after: Doc, fills: seq<Stmt>, mat: Name)
    requires Runs(d, after, fills) && mat in d.mats
    ensures Fractional(after, mat) == Canon(d, Key(d, mat)) <==> StatesOnce(d, mat)
  {
    MeasuresWeighted(d, after, fills, mat);
    MultipleOnce(d, mat, Canon(d, Key(d, mat)));
  }

  /** The two materials state every canonical element of non-zero fraction equally often. */
  ghost predicate StatedAlike(d: Doc, m: Name, n: Name, canon: Fractions) {
    forall ec :: ec in canon && canon[ec] != 0.0 ==> Stated(d, m, ec) == Stated(d, n, ec)
  }

  lemma MultiplesAlike(d: Doc, m: Name, n: Name, canon: Fractions)
    ensures Multiple(d, m, canon) == Multiple(d, n, canon) <==> StatedAlike(d, m, n, canon)
  {
    var x, y := Multiple(d, m, canon), Multiple(d, n, canon);
    forall ec | ec in canon ensures x[ec] == y[ec] <==> canon[ec] == 0.0 || Stated(d, m, ec) == Stated(d, n, ec) {
      TimesEqual(Stated(d, m, ec), Stated(d, n, ec), canon[ec]);
    }
    if x == y {
      assert forall ec :: ec in canon ==> x[ec] == y[ec];
    }
  }

  /** Normal form: materials of one resulting class carry the same element fractions exactly
      when they state each element equally often (no statement counting as one). */
  lemma NormalFormIff(d: Doc, after: Doc, fills: seq<Stmt>, m: Name, n: Name)
    requires Runs(d, after, fills) && SplitNamesFresh(d) && m in d.mats && n in d.mats
    requires ClsOf(after, m) == ClsOf(after, n)
    ensures Fractional(after, m) == Fractional(after, n) <==> StatedAlike(d, m, n, Canon(d, Key(d, m)))
  {
    assert Key(d, m) == Key(d, n);
    MeasuresWeighted(d, after, fills, m);
    MeasuresWeighted(d, after, fills, n);
    MultiplesAlike(d, m, n, Canon(d, Key(d, m)));
  }

  /** No measured element is dropped, and no statement is. */
  lemma NothingDropped(d: Doc, after: Doc, fills: seq<Stmt>, mat: Name)
    requires Runs(d, after, fills) && mat in d.mats
    ensures Fractional(d, mat).Keys <= Fractional(after, mat).Keys
  {
    MeasuresWeighted(d, after, fills, mat);
    MeasuredIsCanonical(d, mat);
  }

  lemma {:induction false} StatementMeasured(d: Doc, stmts: seq<Stmt>, i: nat)
    requires i < |stmts| && IsMeasure(d, stmts[i])
    ensures ClsOf(d, stmts[i].part) in Measured(d, stmts, stmts[i].whole)
  {
    if i < |stmts| - 1 {
      StatementMeasured(d, stmts[..|stmts| - 1], i);
    }
  }

  lemma {:induction false} StatementsKept(d: Doc, k: nat)
    requires WfDoc(d) && k <= |d.stmts|
    ensures |Rewritten(d, d.stmts[..k])| == k
  {
    if k > 0 {
      StatementsKept(d, k - 1);
      assert d.stmts[..k][..k - 1] == d.stmts[..k - 1];
      var s := d.stmts[k - 1];
      if IsMeasure(d, s) {
        StatementMeasured(d, d.stmts, k - 1);
        MeasuredIsCanonical(d, s.whole);
      }
    }
  }

  // ---- mass ----------------------------------------------------------------------------------------

  function Total(m: Fractions, ecs: seq<DocCls>): real {
    if ecs == [] then 0.0 else Total(m, ecs[..|ecs| - 1]) + GetOrZero(m, ecs[|ecs| - 1])
  }

  lemma {:induction false} TotalAdds(a: Fractions, b: Fractions, ecs: seq<DocCls>)
    ensures Total(AddAll(a, b), ecs) == Total(a, ecs) + Total(b, ecs)
  {
    if ecs != [] {
      TotalAdds(a, b, ecs[..|ecs| - 1]);
    }
  }

  lemma {:induction false} TotalEmpty(ecs: seq<DocCls>)
    ensures Total(map[], ecs) == 0.0
  {
    if ecs != [] {
      TotalEmpty(ecs[..|ecs| - 1]);
    }
  }

  lemma {:induction false} TotalOfMean(acc: Fractions, k: nat, ecs: seq<DocCls>)
    requires k > 0
    ensures Total(Mean(acc, k), ecs) == Total(acc, ecs) / k as real
  {
    if ecs != [] {
      var init := ecs[..|ecs| - 1];
      TotalOfMean(acc, k, init);
    }
  }

  lemma {:induction false} PoolTotal(d: Doc, mats: seq<Name>, ecs: seq<DocCls>)
    requires forall m :: m in mats ==> Total(Fractional(d, m), ecs) <= 1.0
    ensures Total(Pool(d, mats), ecs) <= |mats| as real
  {
    if mats == [] {
      TotalEmpty(ecs);
    } else {
      var init, m := mats[..|mats| - 1], mats[|mats| - 1];
      assert mats == init + [m];
      PoolTotal(d, init, ecs);
      TotalAdds(Pool(d, init), Fractional(d, m), ecs);
    }
  }

  lemma AtMostOne(total: real, k: nat)
    requires k > 0 && total <= k as real
    ensures total / k as real <= 1.0
  {
  }

  /** A canonical composition sums to at most 1 if the measured ones do. */
  lemma CanonMass(d: Doc, ecs: seq<DocCls>, mat: Name)
    requires forall m :: m in d.mats ==> Total(Fractional(d, m), ecs) <= 1.0
    ensures Total(Canon(d, Key(d, mat)), ecs) <= 1.0
  {
    var ms := WithData(d, Key(d, mat), d.mats);
    WithDataMembers(d, Key(d, mat), d.mats);
    if ms == [] {
      TotalEmpty(ecs);
    } else {
      PoolTotal(d, ms, ecs);
      TotalOfMean(Pool(d, ms), |ms|, ecs);
      AtMostOne(Total(Pool(d, ms), ecs), |ms|);
    }
  }

  /** Fractions that sum to at most 1 still do after the run, in a material that states each
      element once. */
  lemma MassKept(d: Doc, after: Doc, fills: seq<Stmt>, ecs: seq<DocCls>, mat: Name)
    requires Runs(d, after, fills) && mat in d.mats && StatesOnce(d, mat)
    requires forall m :: m in d.mats ==> Total(Fractional(d, m), ecs) <= 1.0
    ensures Total(Fractional(after, mat), ecs) <= 1.0
  {
    MeasuresCanonicalIff(d, after, fills, mat);
    CanonMass(d, ecs, mat);
  }

  // ---- a second run ----------------------------------------------------------------------------------

  lemma ContextSnoc(d: Doc, stmts: seq<Stmt>, s: Stmt, mat: Name)
    ensures ContextIn(d, stmts + [s], mat)
         == if s.part == mat && At(d, s.whole, Component)
             && At(d, mat, Material) then Some(BaseOf(d, ClsOf(d, s.whole)))
            else ContextIn(d, stmts, mat)
  {
    assert (stmts + [s])[..|stmts|] == stmts;
  }

  /** Rewriting does not touch the statements that place materials in components. */
  lemma {:induction false} ContextRewritten(d: Doc, after: Doc, stmts: seq<Stmt>, mat: Name)
    requires SameNodes(d, after) && after.base == d.base && Known(d, stmts) && mat in d.nodes
    ensures ContextIn(after, Rewritten(d, stmts), mat) == ContextIn(d, stmts, mat)
  {
    if stmts != [] {
      var init, s := stmts[..|stmts| - 1], stmts[|stmts| - 1];
      ContextRewritten(d, after, init, mat);
      if Rewrite(d, s).Some? {
        RewriteKind(d, after, s);
        ContextSnoc(after, Rewritten(d, init), Rewrite(d, s).value, mat);
      }
    }
  }

  lemma {:induction false} ContextFilled(after: Doc, stmts: seq<Stmt>, fills: seq<Stmt>, k: nat, mat: Name)
    requires GoodFills(after, fills) && k <= |fills|
    ensures ContextIn(after, stmts + fills[..k], mat) == ContextIn(after, stmts, mat)
  {
    if k == 0 {
      assert stmts + fills[..0] == stmts;
    } else {
      ContextFilled(after, stmts, fills, k - 1, mat);
      assert stmts + fills[..k] == (stmts + fills[..k - 1]) + [fills[k - 1]];
      ContextSnoc(after, stmts + fills[..k - 1], fills[k - 1], mat);
    }
  }

  lemma SameContext(d: Doc, after: Doc, fills: seq<Stmt>, mat: Name)
    requires Runs(d, after, fills) && mat in d.mats
    ensures Context(after, mat) == Context(d, mat) && ClsOf(after, mat) == Target(d, mat)
  {
    NodesKept(d, after, fills);
    ContextRewritten(d, after, d.stmts, mat);
    FillsAreGood(d, after, fills);
    ContextFilled(after, Rewritten(d, d.stmts), fills, |fills|, mat);
    assert fills[..|fills|] == fills;
  }

  lemma KeyOfContext(d: Doc, mat: Name)
    requires Context(d, mat).Some?
    ensures Key(d, mat).1 == Context(d, mat).value
  {
  }

  /** All materials of a resulting class share their context, if they have one. */
  lemma OneContext(d: Doc, after: Doc, fills: seq<Stmt>, c: DocCls)
    requires Runs(d, after, fills) && SplitNamesFresh(d)
    ensures forall x, y :: x in Contexts(after, c) && y in Contexts(after, c) ==> x == y
  {
    forall m, n | m in d.mats && n in d.mats && ClsOf(after, m) == c && ClsOf(after, n) == c && Context(after, m).Some? && Context(after, n).Some?
      ensures Context(after, m) == Context(after, n)
    {
      SameContext(d, after, fills, m);
      SameContext(d, after, fills, n);
      KeyOfContext(d, m);
      KeyOfContext(d, n);
    }
  }

  /** After the run a class is one group, and nothing splits. */
  lemma OneGroup(after: Doc, m: Name, n: Name)
    requires m in after.mats && n in after.mats && |Contexts(after, ClsOf(after, m))| <= 1
    ensures !Splits(after, ClsOf(after, m)) && Target(after, m) == ClsOf(after, m)
    ensures Key(after, m) == Key(after, n) <==> ClsOf(after, m) == ClsOf(after, n)
  {
    var c := ClsOf(after, m);
    var s := Contexts(after, c);
    assert Context(after, m).Some? ==> Context(after, m).value in s;
    assert Context(after, n).Some? && ClsOf(after, n) == c ==> Context(after, n).value in s;
    if c == ClsOf(after, n) && s != {} {
      assert |s| == 1;
      var only := TheOne(s);
    }
  }

  lemma Settled(d: Doc, after: Doc, fills: seq<Stmt>, m: Name)
    requires Runs(d, after, fills) && SplitNamesFresh(d) && m in d.mats
    ensures |Contexts(after, ClsOf(after, m))| <= 1
    ensures !Splits(after, ClsOf(after, m)) && Target(after, m) == ClsOf(after, m)
  {
    OneContext(d, after, fills, ClsOf(after, m));
    assert |Contexts(after, ClsOf(after, m))| <= 1 by {
      if Contexts(after, ClsOf(after, m)) != {} {
        var x :| x in Contexts(after, ClsOf(after, m));
        assert Contexts(after, ClsOf(after, m)) == {x};
      }
    }
    OneGroup(after, m, m);
  }

  // the mean of equal compositions

  function Scaled(m: Fractions, k: nat): Fractions {
    map ec | ec in m :: Times(k as real, m[ec])
  }

  lemma {:induction false} PoolSame(d: Doc, mats: seq<Name>, m: Fractions)
    requires mats != [] && forall n :: n in mats ==> Fractional(d, n) == m
    ensures Pool(d, mats) == Scaled(m, |mats|)
  {
    var init, n := mats[..|mats| - 1], mats[|mats| - 1];
    assert mats == init + [n];
    if init == [] {
      assert AddAll(map[], m) == Scaled(m, 1);
    } else {
      PoolSame(d, init, m);
      assert AddAll(Scaled(m, |init|), m) == Scaled(m, |mats|) by {
        forall ec | ec in m ensures Times(|init| as real, m[ec]) + m[ec] == Times(|mats| as real, m[ec]) {
          OneMore(|init|, m[ec]);
        }
      }
    }
  }

  lemma DivideBack(k: nat, x: real)
    requires k > 0
    ensures Times(k as real, x) / k as real == x
  {
  }

  lemma CanonOfSame(d: Doc, mat: Name, m: Fractions)
    requires mat in d.mats && forall n :: n in d.mats && Key(d, n) == Key(d, mat) ==> Fractional(d, n) == m
    ensures Canon(d, Key(d, mat)) == m
  {
    var ms := WithData(d, Key(d, mat), d.mats);
    WithDataMembers(d, Key(d, mat), d.mats);
    if m != map[] {
      assert mat in ms;
      PoolSame(d, ms, m);
      assert Mean(Scaled(m, |ms|), |ms|) == m by {
        var r := Mean(Scaled(m, |ms|), |ms|);
        forall ec | ec in m ensures r[ec] == m[ec] {
          DivideBack(|ms|, m[ec]);
        }
      }
    }
    assert ms != [] ==> ms[0] in ms;
  }

  /** Where nothing is repeated the canonical composition is its own mean: a second run finds
      the same one. */
  lemma SameCanon(d: Doc, after: Doc, fills: seq<Stmt>, mat: Name)
    requires Runs(d, after, fills) && SplitNamesFresh(d) && NoRepeats(d) && mat in d.mats
    ensures Canon(after, Key(after, mat)) == Canon(d, Key(d, mat)) == Fractional(after, mat)
  {
    assert StatesOnce(d, mat);
    MeasuresCanonicalIff(d, after, fills, mat);
    Settled(d, after, fills, mat);
    forall n | n in after.mats && Key(after, n) == Key(after, mat)
      ensures Fractional(after, n) == Fractional(after, mat)
    {
      OneGroup(after, mat, n);
      SameContext(d, after, fills, mat);
      SameContext(d, after, fills, n);
      assert StatesOnce(d, n);
      MeasuresCanonicalIff(d, after, fills, n);
    }
    CanonOfSame(after, mat, Fractional(after, mat));
  }

  ghost predicate IsBanded(d: Doc, s: Stmt) {
    IsMeasure(d, s) ==>
      s.whole in d.mats && var canon := Canon(d, Key(d, s.whole));
      ClsOf(d, s.part) in canon && s == Banded(s.whole, s.part, canon[ClsOf(d, s.part)])
  }

  lemma {:induction false} RewrittenFixed(d: Doc, stmts: seq<Stmt>)
    requires forall i :: 0 <= i < |stmts| ==> IsBanded(d, stmts[i])
    ensures Rewritten(d, stmts) == stmts
  {
    if stmts != [] {
      var init, s := stmts[..|stmts| - 1], stmts[|stmts| - 1];
      RewrittenFixed(d, init);
      assert IsBanded(d, s);
      assert stmts == init + [s];
    }
  }

  lemma {:induction false} RewrittenFrom(d: Doc, stmts: seq<Stmt>, i: nat) returns (s: Stmt)
    requires i < |Rewritten(d, stmts)|
    ensures s in stmts && Rewrite(d, s) == Some(Rewritten(d, stmts)[i])
  {
    var init, last := stmts[..|stmts| - 1], stmts[|stmts| - 1];
    assert stmts == init + [last];
    if Rewrite(d, last).Some? && i == |Rewritten(d, init)| {
      s := last;
    } else {
      s := RewrittenFrom(d, init, i);
    }
  }

  lemma FillsBanded(d: Doc, after: Doc, fills: seq<Stmt>)
    requires Runs(d, after, fills) && SplitNamesFresh(d) && NoRepeats(d)
    ensures forall i :: 0 <= i < |fills| ==> IsBanded(after, fills[i])
  {
    forall i | 0 <= i < |fills| ensures IsBanded(after, fills[i]) {
      assert IsBanded(after, fills[i]) by {
        FillsAreGood(d, after, fills);
        assert IsFill(d, fills[i]);
        SameCanon(d, after, fills, fills[i].whole);
      }
    }
  }

  lemma BothBanded(after: Doc, a: seq<Stmt>, b: seq<Stmt>)
    requires forall i :: 0 <= i < |a| ==> IsBanded(after, a[i])
    requires forall i :: 0 <= i < |b| ==> IsBanded(after, b[i])
    ensures Rewritten(after, a + b) == a + b
  {
    forall i | 0 <= i < |a + b| ensures IsBanded(after, (a + b)[i]) {
      assert (a + b)[i] == if i < |a| then a[i] else b[i - |a|];
    }
    RewrittenFixed(after, a + b);
  }

  lemma SameDoc(once: Doc, twice: Doc)
    requires Canonicalised(once, twice, []) && twice.stmts == once.stmts
    requires forall m :: m in once.mats ==>
        Target(once, m) == ClsOf(once, m) && !Splits(once, ClsOf(once, m)) && At(once, m, Material)
    ensures twice == once
  {
    assert twice.nodes == once.nodes;
    assert twice.sub == once.sub;
  }

  // ---- when a second run changes nothing ---------------------------------------------------------

  /** How often the given materials state an element, all together. */
  function StatedBy(d: Doc, mats: seq<Name>, ec: DocCls): nat {
    if mats == [] then 0 else StatedBy(d, mats[..|mats| - 1], ec) + Stated(d, mats[|mats| - 1], ec)
  }

  /** Each of them states it at least once; on average exactly once only if none repeats it. */
  lemma {:induction false} StatedAtLeast(d: Doc, mats: seq<Name>, ec: DocCls)
    ensures StatedBy(d, mats, ec) >= |mats|
    ensures StatedBy(d, mats, ec) == |mats| <==> forall m :: m in mats ==> Stated(d, m, ec) == 1
  {
    if mats != [] {
      var init, last := mats[..|mats| - 1], mats[|mats| - 1];
      assert mats == init + [last];
      StatedAtLeast(d, init, ec);
    }
  }

  function WeightedBy(d: Doc, mats: seq<Name>, canon: Fractions): Fractions {
    map ec | ec in canon :: Times(StatedBy(d, mats, ec) as real, canon[ec])
  }

  lemma TimesAdds(j: nat, k: nat, x: real)
    ensures Times(j as real, x) + Times(k as real, x) == Times((j + k) as real, x)
  {
  }

  lemma WeightedSnoc(d: Doc, init: seq<Name>, m: Name, canon: Fractions, w: Fractions)
    requires w == Multiple(d, m, canon)
    ensures AddAll(WeightedBy(d, init, canon), w) == WeightedBy(d, init + [m], canon)
  {
    assert (init + [m])[..|init|] == init;
    forall ec | ec in canon
      ensures Times(StatedBy(d, init, ec) as real, canon[ec]) + Times(Stated(d, m, ec) as real, canon[ec])
           == Times(StatedBy(d, init + [m], ec) as real, canon[ec])
    {
      TimesAdds(StatedBy(d, init, ec), Stated(d, m, ec), canon[ec]);
    }
  }

  /** The pool of materials that measure multiples of one composition. */
  lemma {:induction false} PoolWeighted(d: Doc, after: Doc, mats: seq<Name>, canon: Fractions)
    requires mats != []
    requires forall m :: m in mats ==> Fractional(after, m) == Multiple(d, m, canon)
    ensures Pool(after, mats) == WeightedBy(d, mats, canon)
  {
    var init, m := mats[..|mats| - 1], mats[|mats| - 1];
    assert mats == init + [m];
    if init == [] {
      assert AddAll(map[], Fractional(after, m)) == AddAll(WeightedBy(d, [], canon), Fractional(after, m)) by {
        forall ec | ec in canon ensures Times(StatedBy(d, [], ec) as real, canon[ec]) == 0.0 {
          TimesZero(canon[ec]);
        }
      }
    } else {
      PoolWeighted(d, after, init, canon);
    }
    WeightedSnoc(d, init, m, canon, Fractional(after, m));
  }

  lemma MeanOfTimes(w: nat, k: nat, x: real)
    requires k > 0 && w >= k
    ensures Times(w as real, x) / k as real == x <==> x == 0.0 || w == k
  {
    DivideBack(k, x);
    if Times(w as real, x) / k as real == x {
      assert Times(w as real, x) == Times(k as real, x);
      TimesEqual(w, k, x);
    } else if w == k {
      DivideBack(w, x);
    }
  }

  /** The second run pools the materials of the first run's group. */
  lemma SameGroup(d: Doc, after: Doc, fills: seq<Stmt>, mat: Name)
    requires Runs(d, after, fills) && SplitNamesFresh(d) && mat in d.mats && Canon(d, Key(d, mat)) != map[]
    ensures forall m :: m in WithData(after, Key(after, mat), after.mats) <==> m in d.mats && Key(d, m) == Key(d, mat)
  {
    WithDataMembers(after, Key(after, mat), after.mats);
    forall m | m in d.mats
      ensures Key(after, m) == Key(after, mat) <==> Key(d, m) == Key(d, mat)
      ensures Key(d, m) == Key(d, mat) ==> Fractional(after, m) != map[]
    {
      assert
        && (Key(after, m) == Key(after, mat) <==> Key(d, m) == Key(d, mat))
        && (Key(d, m) == Key(d, mat) ==> Fractional(after, m).Keys == Canon(d, Key(d, mat)).Keys)
      by {
        Settled(d, after, fills, mat);
        SameContext(d, after, fills, mat);
        SameContext(d, after, fills, m);
        OneGroup(after, mat, m);
        MeasuresWeighted(d, after, fills, m);
      }
    }
  }

  /** A second run finds the same composition exactly when no material of the group repeats an
      element of non-zero fraction. */
  lemma SecondCanon(d: Doc, after: Doc, fills: seq<Stmt>, mat: Name, ec: DocCls)
    requires Runs(d, after, fills) && SplitNamesFresh(d) && mat in d.mats && ec in Canon(d, Key(d, mat))
    ensures var canon, second := Canon(d, Key(d, mat)), Canon(after, Key(after, mat));
            && ec in second
            && (second[ec] == canon[ec] <==> canon[ec] == 0.0 || forall m :: m in d.mats && Key(d, m) == Key(d, mat) ==> Stated(d, m, ec) == 1)
  {
    var canon, ms := Canon(d, Key(d, mat)), WithData(after, Key(after, mat), after.mats);
    SameGroup(d, after, fills, mat);
    forall m | m in ms ensures Fractional(after, m) == Multiple(d, m, canon) {
      MeasuresWeighted(d, after, fills, m);
    }
    assert mat in ms;
    PoolWeighted(d, after, ms, canon);
    StatedAtLeast(d, ms, ec);
    MeanOfTimes(StatedBy(d, ms, ec), |ms|, canon[ec]);
  }

  lemma {:induction false} FixedIsRewritten(d: Doc, stmts: seq<Stmt>, i: nat)
    requires Rewritten(d, stmts) == stmts && i < |stmts|
    ensures Rewrite(d, stmts[i]) == Some(stmts[i])
  {
    var init, s := stmts[..|stmts| - 1], stmts[|stmts| - 1];
    RewrittenShorter(d, init);
    assert stmts == init + [s];
    assert Rewrite(d, s).Some?;
    assert Rewritten(d, init) == init && Rewrite(d, s).value == s by {
      assert Rewritten(d, stmts)[..|stmts| - 1] == init;
      assert Rewritten(d, stmts)[|stmts| - 1] == s;
    }
    if i < |init| {
      FixedIsRewritten(d, init, i);
    }
  }

  lemma {:induction false} RewrittenShorter(d: Doc, stmts: seq<Stmt>)
    ensures |Rewritten(d, stmts)| <= |stmts|
  {
    if stmts != [] {
      RewrittenShorter(d, stmts[..|stmts| - 1]);
    }
  }

  /** After the run every canonical element of a material has a statement. */
  lemma {:induction false} HasStatement(d: Doc, stmts: seq<Stmt>, mat: Name, ec: DocCls) returns (i: nat)
    requires ec in Measured(d, stmts, mat)
    ensures i < |stmts| && IsMeasure(d, stmts[i]) && stmts[i].whole == mat && ClsOf(d, stmts[i].part) == ec
  {
    i := |stmts| - 1;
    var s := stmts[i];
    if !(IsMeasure(d, s) && s.whole == mat && ClsOf(d, s.part) == ec) {
      i := HasStatement(d, stmts[..i], mat, ec);
    }
  }

  /** Every measure after the run states the canonical fraction of its group. */
  lemma StatesCanon(d: Doc, after: Doc, fills: seq<Stmt>, i: nat)
    requires Runs(d, after, fills) && i < |after.stmts| && IsMeasure(after, after.stmts[i])
    requires after.stmts[i].whole in d.mats
    ensures var s := after.stmts[i]; var canon := Canon(d, Key(d, s.whole));
            ClsOf(after, s.part) in canon && s.best == canon[ClsOf(after, s.part)]
  {
    NodesKept(d, after, fills);
    FillsAreGood(d, after, fills);
    if i < |Rewritten(d, d.stmts)| {
      var s := RewrittenFrom(d, d.stmts, i);
      RewriteKind(d, after, s);
    } else {
      assert IsFill(d, fills[i - |Rewritten(d, d.stmts)|]);
    }
  }

  /** After the run no group lacks an element of its composition. */
  lemma NothingMissing(d: Doc, once: Doc, fills: seq<Stmt>, mat: Name, ec: DocCls)
    requires Runs(d, once, fills) && SplitNamesFresh(d)
    ensures !Missing(once, mat, ec)
  {
    if mat in d.mats {
      var canon, ms := Canon(d, Key(d, mat)), WithData(once, Key(once, mat), once.mats);
      MeasuresWeighted(d, once, fills, mat);
      if canon == map[] {
        EmptyGroup(d, once, fills, mat);
      } else {
        SameGroup(d, once, fills, mat);
        forall m | m in ms ensures Fractional(once, m) == Multiple(d, m, canon) {
          MeasuresWeighted(d, once, fills, m);
        }
        assert mat in ms;
        PoolWeighted(d, once, ms, canon);
      }
    }
  }

  lemma SomeMember<T>(s: seq<T>)
    ensures s != [] ==> exists x :: x in s
  {
    if s != [] {
      assert s[0] in s;
    }
  }

  /** A group without any measured element stays empty. */
  lemma EmptyGroup(d: Doc, once: Doc, fills: seq<Stmt>, mat: Name)
    requires Runs(d, once, fills) && SplitNamesFresh(d) && mat in d.mats && Canon(d, Key(d, mat)) == map[]
    ensures Canon(once, Key(once, mat)) == map[]
  {
    var ms := WithData(once, Key(once, mat), once.mats);
    WithDataMembers(once, Key(once, mat), once.mats);
    Settled(d, once, fills, mat);
    SameContext(d, once, fills, mat);
    forall m | m in d.mats && Key(once, m) == Key(once, mat) ensures Fractional(once, m) == map[] {
      OneGroup(once, mat, m);
      SameContext(d, once, fills, m);
      MeasuresWeighted(d, once, fills, m);
    }
    SomeMember(ms);
  }

  /** A second run that changes nothing keeps the canonical fractions. */
  lemma KeptFraction(d: Doc, once: Doc, fills: seq<Stmt>, more: seq<Stmt>, mat: Name, ec: DocCls)
    requires Runs(d, once, fills) && SplitNamesFresh(d) && Canonicalised(once, once, more) && mat in d.mats
    requires ec in Canon(d, Key(d, mat))
    ensures ec in Canon(once, Key(once, mat)) && Canon(once, Key(once, mat))[ec] == Canon(d, Key(d, mat))[ec]
  {
    assert more == [] by {
      if more != [] {
        assert IsFill(once, more[0]);
        NothingMissing(d, once, fills, more[0].whole, more[0].part.ec);
      }
    }
    assert Rewritten(once, once.stmts) + [] == Rewritten(once, once.stmts);
    MeasuresWeighted(d, once, fills, mat);
    var i := HasStatement(once, once.stmts, mat, ec);
    FixedIsRewritten(once, once.stmts, i);
    StatesCanon(d, once, fills, i);
  }

  /** A second run changes nothing exactly when no material states an element of non-zero
      canonical fraction more than once. */
  lemma IdempotentIff(d: Doc, once: Doc, fills: seq<Stmt>, twice: Doc, more: seq<Stmt>)
    requires Runs(d, once, fills) && SplitNamesFresh(d) && Canonicalised(once, twice, more)
    ensures twice == once <==> NoRepeats(d)
  {
    if NoRepeats(d) {
      assert twice == once by {
        assert more != [] ==> IsFill(once, more[0]);
        assert Rewritten(once, once.stmts) == once.stmts by {
          assert forall i :: 0 <= i < |Rewritten(d, d.stmts)| ==> IsBanded(once, Rewritten(d, d.stmts)[i]) by {
            forall i | 0 <= i < |Rewritten(d, d.stmts)| ensures IsBanded(once, Rewritten(d, d.stmts)[i]) {
              var s := RewrittenFrom(d, d.stmts, i);
              assert IsBanded(once, Rewrite(d, s).value) by {
                NodesKept(d, once, fills);
                RewriteKind(d, once, s);
                if IsMeasure(d, s) {
                  SameCanon(d, once, fills, s.whole);
                }
              }
            }
          }
          FillsBanded(d, once, fills);
          BothBanded(once, Rewritten(d, d.stmts), fills);
        }
        forall mat, ec | Missing(once, mat, ec) ensures false {
          SameCanon(d, once, fills, mat);
        }
        assert twice.stmts == once.stmts;
        forall m | m in once.mats ensures Target(once, m) == ClsOf(once, m) && !Splits(once, ClsOf(once, m)) {
          Settled(d, once, fills, m);
        }
        SameDoc(once, twice);
      }
    }
    if twice == once {
      forall mat | mat in d.mats ensures StatesOnce(d, mat) {
        forall ec | ec in Canon(d, Key(d, mat)) && Canon(d, Key(d, mat))[ec] != 0.0 ensures Stated(d, mat, ec) == 1 {
          KeptFraction(d, once, fills, more, mat, ec);
          SecondCanon(d, once, fills, mat, ec);
        }
      }
    }
  }

  // ---- a material that states one element twice -----------------------------------------------------

  const ORE: Name := Given("ore")
  const IRON1: Name := Given("iron1")
  const IRON2: Name := Given("iron2")
  const FE: DocCls := Plain("Fe")

  /** One material with two statements of iron, 0.3 each. */
  ghost predicate TwiceStated(d: Doc) {
    && WfDoc(d) && d.mats == [ORE] && d.base == map[]
    && d.nodes == map[ORE := Spec(Material, Plain("Ore")), IRON1 := Spec(Element, FE), IRON2 := Spec(Element, FE)]
    && d.stmts == [Stmt(ORE, IRON1, 0.3, 0.3, 0.3), Stmt(ORE, IRON2, 0.3, 0.3, 0.3)]
  }

  lemma TwoMeasures(d: Doc)
    requires TwiceStated(d)
    ensures Fractional(d, ORE) == map[FE := 0.6] && Stated(d, ORE, FE) == 2
  {
    var s, t := d.stmts[0], d.stmts[1];
    assert d.stmts == [] + [s] + [t];
    MeasuredSnoc(d, [], s, ORE);
    MeasuredSnoc(d, [s], t, ORE);
    assert [] + [s] == [s];
  }

  lemma TwoCanon(d: Doc)
    requires TwiceStated(d)
    ensures Canon(d, Key(d, ORE)) == map[FE := 0.6]
  {
    TwoMeasures(d);
    CanonOfSame(d, ORE, map[FE := 0.6]);
  }

  lemma IronDoubles(d: Doc, once: Doc, fills: seq<Stmt>)
    requires TwiceStated(d) && Canonicalised(d, once, fills)
    ensures Fractional(once, ORE) == map[FE := 1.2]
  {
    TwoMeasures(d);
    TwoCanon(d);
    MeasuresWeighted(d, once, fills, ORE);
  }

  lemma IronRepeats(d: Doc)
    requires TwiceStated(d)
    ensures !NoRepeats(d) && SplitNamesFresh(d)
  {
    TwoMeasures(d);
    TwoCanon(d);
    assert !StatesOnce(d, ORE) && ORE in d.mats;
  }

  lemma IronSettlesNever(d: Doc, once: Doc, fills: seq<Stmt>, twice: Doc, more: seq<Stmt>)
    requires TwiceStated(d) && Canonicalised(d, once, fills) && Canonicalised(once, twice, more)
    ensures twice != once
  {
    IronRepeats(d);
    IdempotentIff(d, once, fills, twice, more);
  }

  /** Its 0.6 of iron becomes 1.2 in every run, and a second run changes it again. */
  lemma TwiceStatedDoubles() returns (d: Doc)
    ensures TwiceStated(d) && Fractional(d, ORE) == map[FE := 0.6]
    ensures forall once, fills :: Canonicalised(d, once, fills) ==> Fractional(once, ORE) == map[FE := 1.2]
    ensures forall once, fills, twice, more :: Canonicalised(d, once, fills) && Canonicalised(once, twice, more) ==>
        twice != once
  {
    d := Doc(map[ORE := Spec(Material, Plain("Ore")), IRON1 := Spec(Element, FE), IRON2 := Spec(Element, FE)], [ORE],
             [Stmt(ORE, IRON1, 0.3, 0.3, 0.3), Stmt(ORE, IRON2, 0.3, 0.3, 0.3)], map[], map[]);
    TwoMeasures(d);
    forall once, fills | Canonicalised(d, once, fills) ensures Fractional(once, ORE) == map[FE := 1.2] {
      IronDoubles(d, once, fills);
    }
    forall once, fills, twice, more | Canonicalised(d, once, fills) && Canonicalised(once, twice, more)
      ensures twice != once
    {
      IronSettlesNever(d, once, fills, twice, more);
    }
  }
}
