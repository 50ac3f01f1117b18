/** `canonicalize_doc`: the loops that rewrite a document in place. */
module CanonicalRun {
  import opened Vocabulary
  import opened Canonicalize
  import opened CanonicalLaws

  function FractionsIn(measured: map<Name, Fractions>, m: Name): Fractions {
    if m in measured then measured[m] else map[]
  }

  function AddMeasure(d: Doc, measured: map<Name, Fractions>, s: Stmt): map<Name, Fractions> {
    var m, ec := FractionsIn(measured, s.whole), ClsOf(d, s.part);
    if IsMeasure(d, s) then measured[s.whole := m[ec := GetOrZero(m, ec) + s.best]] else measured
  }

  lemma AddMeasureStep(d: Doc, measured: map<Name, Fractions>, stmts: seq<Stmt>, s: Stmt, m: Name)
    requires FractionsIn(measured, m) == Measured(d, stmts, m)
    ensures FractionsIn(AddMeasure(d, measured, s), m) == Measured(d, stmts + [s], m)
  {
    MeasuredSnoc(d, stmts, s, m);
  }

  /** `material_comps`. */
  method MaterialComps(d: Doc) returns (measured: map<Name, Fractions>)
    ensures forall m :: FractionsIn(measured, m) == Fractional(d, m)
  {
    measured := map[];
    for i := 0 to |d.stmts|
      invariant forall m :: FractionsIn(measured, m) == Measured(d, d.stmts[..i], m)
    {
      assert d.stmts[..i + 1] == d.stmts[..i] + [d.stmts[i]];
      forall m ensures FractionsIn(AddMeasure(d, measured, d.stmts[i]), m) == Measured(d, d.stmts[..i + 1], m) {
        AddMeasureStep(d, measured, d.stmts[..i], d.stmts[i], m);
      }
      measured := AddMeasure(d, measured, d.stmts[i]);
    }
    assert d.stmts[..|d.stmts|] == d.stmts;
  }

  function Find<V>(m: map<Name, V>, n: Name): Option<V> {
    if n in m then Some(m[n]) else None
  }

  /** `_material_parent_component`. */
  method ComponentOf(d: Doc) returns (ctx: map<Name, DocCls>)
    ensures forall m :: Find(ctx, m) == Context(d, m)
  {
    ctx := map[];
    for i := 0 to |d.stmts|
      invariant forall m :: Find(ctx, m) == ContextIn(d, d.stmts[..i], m)
    {
      var s := d.stmts[i];
      assert d.stmts[..i + 1] == d.stmts[..i] + [s];
      forall m {
        ContextSnoc(d, d.stmts[..i], s, m);
      }
      if At(d, s.whole, Component) && At(d, s.part, Material) {
        ctx := ctx[s.part := BaseOf(d, ClsOf(d, s.whole))];
      }
    }
    assert d.stmts[..|d.stmts|] == d.stmts;
  }

  /** The group of one material. */
  method GroupOf(d: Doc, ctx: map<Name, DocCls>, m: Name) returns (key: (DocCls, DocCls))
    requires Find(ctx, m) == Context(d, m)
    ensures key == Key(d, m)
  {
    var c := ClsOf(d, m);
    var only := Contexts(d, c);
    if m in ctx {
      key := (c, ctx[m]);
    } else if |only| == 1 {
      ghost var one := TheOne(only);
      var x :| x in only;
      assert x == one;
      key := (c, x);
    } else {
      key := (c, c);
    }
  }

  /** The groups and target classes of the listed materials. */
  ghost predicate Grouped(d: Doc, mats: seq<Name>, keys: map<Name, (DocCls, DocCls)>, targets: map<Name, DocCls>) {
    && (forall m :: m in mats ==> m in keys && keys[m] == Key(d, m))
    && (forall m :: m in mats ==> m in targets && targets[m] == Target(d, m))
  }

  lemma GroupedSnoc(d: Doc, mats: seq<Name>, keys: map<Name, (DocCls, DocCls)>, targets: map<Name, DocCls>, m: Name)
    requires Grouped(d, mats, keys, targets)
    ensures Grouped(d, mats + [m], keys[m := Key(d, m)], targets[m := Target(d, m)])
  {
  }

  /** The group and the target class of every material. */
  method Groups(d: Doc, ctx: map<Name, DocCls>) returns (keys: map<Name, (DocCls, DocCls)>, targets: map<Name, DocCls>)
    requires forall m :: Find(ctx, m) == Context(d, m)
    ensures Grouped(d, d.mats, keys, targets)
  {
    keys, targets := map[], map[];
    for i := 0 to |d.mats|
      invariant Grouped(d, d.mats[..i], keys, targets)
    {
      var m := d.mats[i];
      assert d.mats[..i + 1] == d.mats[..i] + [m];
      assert Find(ctx, m) == Context(d, m);
      var key := GroupOf(d, ctx, m);
      GroupedSnoc(d, d.mats[..i], keys, targets, m);
      keys, targets := keys[m := key], targets[m := TargetOf(d, key)];
    }
    assert d.mats[..|d.mats|] == d.mats;
  }

  lemma PoolSnoc(d: Doc, ms: seq<Name>, m: Name)
    ensures Pool(d, ms + [m]) == AddAll(Pool(d, ms), Fractional(d, m))
  {
    assert (ms + [m])[..|ms|] == ms;
  }

  lemma WithDataSnoc(d: Doc, key: (DocCls, DocCls), ms: seq<Name>, m: Name)
    ensures var before, with := WithData(d, key, ms), WithData(d, key, ms + [m]);
            if Key(d, m) == key && Fractional(d, m) != map[]
            then |with| == |before| + 1 && Pool(d, with) == AddAll(Pool(d, before), Fractional(d, m))
            else with == before
  {
    assert (ms + [m])[..|ms|] == ms;
    PoolSnoc(d, WithData(d, key, ms), m);
    assert WithData(d, key, ms) + [] == WithData(d, key, ms);
  }

  /** Total the measured fractions of one group, and count its materials that have some. */
  method PoolGroup(d: Doc, keys: map<Name, (DocCls, DocCls)>, measured: map<Name, Fractions>, key: (DocCls, DocCls))
    returns (acc: Fractions, n: nat)
    requires forall m :: m in d.mats ==> m in keys && keys[m] == Key(d, m)
    requires forall m :: FractionsIn(measured, m) == Fractional(d, m)
    ensures acc == Pool(d, WithData(d, key, d.mats)) && n == |WithData(d, key, d.mats)|
  {
    acc, n := map[], 0;
    for i := 0 to |d.mats|
      invariant acc == Pool(d, WithData(d, key, d.mats[..i])) && n == |WithData(d, key, d.mats[..i])|
    {
      var m := d.mats[i];
      assert d.mats[..i + 1] == d.mats[..i] + [m];
      WithDataSnoc(d, key, d.mats[..i], m);
      var here := FractionsIn(measured, m);
      assert here == Fractional(d, m);
      if keys[m] == key && here != map[] {
        acc, n := AddAll(acc, here), n + 1;
      }
    }
    assert d.mats[..|d.mats|] == d.mats;
  }

  /** The mean over one group's materials that have measured fractions. */
  method MeanOf(d: Doc, keys: map<Name, (DocCls, DocCls)>, measured: map<Name, Fractions>, key: (DocCls, DocCls))
    returns (canon: Fractions)
    requires forall m :: m in d.mats ==> m in keys && keys[m] == Key(d, m)
    requires forall m :: FractionsIn(measured, m) == Fractional(d, m)
    ensures canon == Canon(d, key)
  {
    var acc, n := PoolGroup(d, keys, measured, key);
    canon := if n == 0 then map[] else Mean(acc, n);
  }

  /** Every material's target class has its group's canonical composition. */
  ghost predicate Has(d: Doc, targets: map<Name, DocCls>, canon: map<DocCls, Fractions>) {
    forall m :: m in d.mats ==> m in targets && targets[m] in canon && canon[targets[m]] == Canon(d, Key(d, m))
  }

  /** One canonical composition per target class. */
  method CanonComps(d: Doc, keys: map<Name, (DocCls, DocCls)>, targets: map<Name, DocCls>,
                    measured: map<Name, Fractions>)
    returns (canon: map<DocCls, Fractions>)
    requires SplitNamesFresh(d) && Grouped(d, d.mats, keys, targets)
    requires forall m :: FractionsIn(measured, m) == Fractional(d, m)
    ensures Has(d, targets, canon)
  {
    canon := map[];
    for i := 0 to |d.mats|
      invariant forall m :: m in d.mats[..i] ==> targets[m] in canon && canon[targets[m]] == Canon(d, Key(d, m))
    {
      var m := d.mats[i];
      assert d.mats[..i + 1] == d.mats[..i] + [m];
      var mean := MeanOf(d, keys, measured, keys[m]);
      canon := canon[targets[m] := mean];
    }
    assert d.mats[..|d.mats|] == d.mats;
    assert forall m :: m in d.mats ==> targets[m] in canon;
  }

  /** The elements a material measures once one more statement is read. */
  lemma MeasuredMore(d: Doc, stmts: seq<Stmt>, s: Stmt, m: Name, ec: DocCls)
    ensures ec in Measured(d, stmts + [s], m)
        <==> ec in Measured(d, stmts, m) || (IsMeasure(d, s) && s.whole == m && ec == ClsOf(d, s.part))
  {
    MeasuredSnoc(d, stmts, s, m);
  }

  lemma RewrittenSnoc(d: Doc, stmts: seq<Stmt>, s: Stmt)
    ensures Rewritten(d, stmts + [s]) == Rewritten(d, stmts) + if Rewrite(d, s).Some? then [Rewrite(d, s).value] else []
  {
    assert (stmts + [s])[..|stmts|] == stmts;
  }

  /** Rewrite the measured statements; `have` collects the elements each material keeps. */
  method RewriteAll(d: Doc, targets: map<Name, DocCls>, canon: map<DocCls, Fractions>)
    returns (kept: seq<Stmt>, have: set<(Name, DocCls)>)
    requires WfDoc(d) && Has(d, targets, canon)
    ensures kept == Rewritten(d, d.stmts)
    ensures forall m, ec :: m in d.mats && ec in Canon(d, Key(d, m)) ==> ((m, ec) in have <==> ec in Fractional(d, m))
  {
    kept, have := [], {};
    for i := 0 to |d.stmts|
      invariant kept == Rewritten(d, d.stmts[..i])
      invariant forall m, ec :: m in d.mats && ec in Canon(d, Key(d, m)) ==>
          ((m, ec) in have <==> ec in Measured(d, d.stmts[..i], m))
    {
      var s := d.stmts[i];
      assert d.stmts[..i + 1] == d.stmts[..i] + [s];
      RewrittenSnoc(d, d.stmts[..i], s);
      forall m, ec
        ensures ec in Measured(d, d.stmts[..i + 1], m)
                <==> ec in Measured(d, d.stmts[..i], m) || (IsMeasure(d, s) && s.whole == m && ec == ClsOf(d, s.part))
      {
        MeasuredMore(d, d.stmts[..i], s, m, ec);
      }
      if IsMeasure(d, s) {
        assert s.whole in d.mats;
        var ec, target := ClsOf(d, s.part), canon[targets[s.whole]];
        if ec in target {
          kept, have := kept + [Banded(s.whole, s.part, target[ec])], have + {(s.whole, ec)};
        }
      } else {
        kept := kept + [s];
      }
    }
    assert d.stmts[..|d.stmts|] == d.stmts;
  }

  /** The fills so far are canonical, distinct, and complete for the listed materials. */
  ghost predicate Filling(d: Doc, fills: seq<Stmt>, done: seq<Name>) {
    && (forall i :: 0 <= i < |fills| ==> IsFill(d, fills[i]) && fills[i].whole in done)
    && (forall i, j :: 0 <= i < j < |fills| ==> fills[i].part != fills[j].part)
    && (forall mat, ec :: mat in done && Missing(d, mat, ec) ==> Supplies(fills, mat, ec))
  }

  ghost predicate Supplies(fills: seq<Stmt>, mat: Name, ec: DocCls) {
    exists i :: 0 <= i < |fills| && fills[i].part == Minted(mat, ec)
  }

  lemma SuppliesMore(fills: seq<Stmt>, s: Stmt)
    ensures forall mat, ec :: Supplies(fills, mat, ec) ==> Supplies(fills + [s], mat, ec)
    ensures s.part.Minted? ==> Supplies(fills + [s], s.part.mat, s.part.ec)
  {
    var more := fills + [s];
    assert more[|fills|] == s;
    forall mat, ec | Supplies(fills, mat, ec) ensures Supplies(more, mat, ec) {
      var i :| 0 <= i < |fills| && fills[i].part == Minted(mat, ec);
      assert more[i] == fills[i];
    }
  }

  /** `fills` supplies the materials of `done`, and of `mat` the missing elements not in `todo`. */
  ghost predicate PartFilled(d: Doc, mat: Name, canon: Fractions, done: seq<Name>, todo: set<DocCls>,
                             fills: seq<Stmt>) {
    && (forall i :: 0 <= i < |fills| ==> IsFill(d, fills[i]) && fills[i].whole in done + [mat])
    && (forall i :: 0 <= i < |fills| && fills[i].whole == mat ==> fills[i].part.ec !in todo)
    && (forall i, j :: 0 <= i < j < |fills| ==> fills[i].part != fills[j].part)
    && (forall m, ec :: m in done && Missing(d, m, ec) ==> Supplies(fills, m, ec))
    && (forall ec :: ec in canon.Keys - todo && Missing(d, mat, ec) ==> Supplies(fills, mat, ec))
  }

  lemma FilledMore(d: Doc, mat: Name, canon: Fractions, done: seq<Name>, todo: set<DocCls>, fills: seq<Stmt>, s: Stmt)
    requires PartFilled(d, mat, canon, done, todo, fills) && IsFill(d, s) && s.whole == mat && s.part.ec in todo
    ensures PartFilled(d, mat, canon, done, todo - {s.part.ec}, fills + [s])
  {
    SuppliesMore(fills, s);
    forall i | 0 <= i < |fills| ensures fills[i].part != s.part {
      assert IsFill(d, fills[i]);
    }
  }

  /** Synthesise the statements one material lacks. */
  method FillOne(d: Doc, mat: Name, canon: Fractions, have: set<(Name, DocCls)>, start: seq<Stmt>,
                 ghost done: seq<Name>)
    returns (fills: seq<Stmt>)
    requires Filling(d, start, done) && mat in d.mats && mat !in done && canon == Canon(d, Key(d, mat))
    requires forall ec :: ec in canon ==> ((mat, ec) in have <==> ec in Fractional(d, mat))
    ensures Filling(d, fills, done + [mat])
  {
    fills := start;
    var todo := canon.Keys;
    while todo != {}
      invariant todo <= canon.Keys && PartFilled(d, mat, canon, done, todo, fills)
      decreases todo
    {
      var ec :| ec in todo;
      if (mat, ec) !in have {
        var s := Banded(mat, Minted(mat, ec), canon[ec]);
        FilledMore(d, mat, canon, done, todo, fills, s);
        fills := fills + [s];
      }
      todo := todo - {ec};
    }
  }

  /** Fill the gaps of every material. */
  method FillAll(d: Doc, targets: map<Name, DocCls>, canon: map<DocCls, Fractions>, have: set<(Name, DocCls)>)
    returns (fills: seq<Stmt>)
    requires WfDoc(d) && Has(d, targets, canon)
    requires forall m, ec :: m in d.mats && ec in Canon(d, Key(d, m)) ==> ((m, ec) in have <==> ec in Fractional(d, m))
    ensures Fills(d, fills)
  {
    fills := [];
    for i := 0 to |d.mats|
      invariant Filling(d, fills, d.mats[..i])
    {
      assert d.mats[..i + 1] == d.mats[..i] + [d.mats[i]];
      fills := FillOne(d, d.mats[i], canon[targets[d.mats[i]]], have, fills, d.mats[..i]);
    }
    assert d.mats[..|d.mats|] == d.mats;
    forall mat, ec | Missing(d, mat, ec) ensures exists i :: 0 <= i < |fills| && fills[i].part == Minted(mat, ec) {
      assert Supplies(fills, mat, ec);
    }
  }

  /** Register every split subclass below the class it splits. */
  method RegisterSplits(d: Doc, targets: map<Name, DocCls>) returns (sub: map<DocCls, DocCls>)
    requires SplitNamesFresh(d) && forall m :: m in d.mats ==> m in targets && targets[m] == Target(d, m)
    ensures Registers(d, sub)
  {
    sub := d.sub;
    for i := 0 to |d.mats|
      invariant forall c :: c in d.sub ==> c in sub
      invariant forall c :: c in sub ==> (c in d.sub && sub[c] == d.sub[c]) || SplitInto(d, c, sub[c])
      invariant forall m :: m in d.mats[..i] && Splits(d, ClsOf(d, m)) ==>
          Target(d, m) in sub && sub[Target(d, m)] == ClsOf(d, m)
    {
      var m := d.mats[i];
      assert d.mats[..i + 1] == d.mats[..i] + [m];
      if Splits(d, ClsOf(d, m)) {
        forall n | n in d.mats[..i] && Target(d, n) == Target(d, m) ensures ClsOf(d, n) == ClsOf(d, m) {
          assert Key(d, n) == Key(d, m);
        }
        assert SplitInto(d, Target(d, m), ClsOf(d, m));
        sub := sub[targets[m] := ClsOf(d, m)];
      }
    }
    assert d.mats[..|d.mats|] == d.mats;
  }

  function FillNodes(fills: seq<Stmt>): map<Name, Spec> {
    map i | 0 <= i < |fills| && fills[i].part.Minted? :: fills[i].part := Spec(Element, fills[i].part.ec)
  }

  ghost predicate NodesAfter(d: Doc, nodes: map<Name, Spec>, fills: seq<Stmt>) {
    && (forall n :: n in nodes <==> n in d.nodes || exists i :: 0 <= i < |fills| && fills[i].part == n)
    && (forall n :: n in d.nodes ==> nodes[n] == if n in d.mats then Spec(Material, Target(d, n)) else d.nodes[n])
    && (forall n :: n in nodes && n !in d.nodes ==> n.Minted? && nodes[n] == Spec(Element, n.ec))
  }

  lemma FillNodesMember(fills: seq<Stmt>, n: Name)
    requires forall i :: 0 <= i < |fills| ==> fills[i].part.Minted?
    ensures n in FillNodes(fills) <==> exists i :: 0 <= i < |fills| && fills[i].part == n
    ensures n in FillNodes(fills) ==> n.Minted? && FillNodes(fills)[n] == Spec(Element, n.ec)
  {
  }

  lemma NodesApplied(d: Doc, fills: seq<Stmt>, targets: map<Name, DocCls>, nodes: map<Name, Spec>)
    requires (forall n :: n in d.mats <==> At(d, n, Material))
    requires (forall n :: n in d.nodes && n.Minted? ==> d.nodes[n] == Spec(Element, n.ec))
    requires forall i :: 0 <= i < |fills| ==> fills[i].part.Minted?
    requires forall m :: m in d.mats ==> m in targets && targets[m] == Target(d, m)
    requires nodes == d.nodes + FillNodes(fills) + map m | m in d.mats :: Spec(Material, targets[m])
    ensures NodesAfter(d, nodes, fills)
  {
    forall n ensures n in FillNodes(fills) <==> exists i :: 0 <= i < |fills| && fills[i].part == n
      ensures n in FillNodes(fills) ==> n.Minted? && FillNodes(fills)[n] == Spec(Element, n.ec)
    {
      FillNodesMember(fills, n);
    }
  }

  /** Apply the target classes and add the minted element nodes. */
  method ApplyNodes(d: Doc, targets: map<Name, DocCls>, fills: seq<Stmt>) returns (nodes: map<Name, Spec>)
    requires WfDoc(d) && Fills(d, fills)
    requires forall m :: m in d.mats ==> m in targets && targets[m] == Target(d, m)
    ensures NodesAfter(d, nodes, fills)
  {
    nodes := d.nodes + FillNodes(fills) + (map m | m in d.mats :: Spec(Material, targets[m]));
    assert forall i :: 0 <= i < |fills| ==> IsFill(d, fills[i]);
    NodesApplied(d, fills, targets, nodes);
  }

  /** A scenario document, rewritten in place. */
  class MaterialDoc {
    var nodes: map<Name, Spec>
    const mats: seq<Name>
    var stmts: seq<Stmt>
    const base: map<DocCls, DocCls>
    var sub: map<DocCls, DocCls>

    function Value(): Doc
      reads this
    {
      Doc(nodes, mats, stmts, base, sub)
    }

    constructor (d: Doc)
      ensures Value() == d
    {
      nodes, mats, stmts, base, sub := d.nodes, d.mats, d.stmts, d.base, d.sub;
    }

    /** `canonicalize_doc`: the new document, and the class changes it reports. */
    method Canonicalize() returns (changes: set<(Name, DocCls, DocCls)>, ghost fills: seq<Stmt>)
      requires WfDoc(Value()) && SplitNamesFresh(Value())
      modifies this
      ensures Canonicalised(old(Value()), Value(), fills)
      ensures changes == Changes(old(Value()))
    {
      var after;
      after, changes, fills := Run(Value());
      nodes, stmts, sub := after.nodes, after.stmts, after.sub;
    }
  }

  /** The (material, old class, new class) triples whose class changes. */
  ghost function Changes(d: Doc): set<(Name, DocCls, DocCls)> {
    set m | m in d.mats && Target(d, m) != ClsOf(d, m) :: (m, ClsOf(d, m), Target(d, m))
  }

  method Run(d: Doc) returns (after: Doc, changes: set<(Name, DocCls, DocCls)>, fills: seq<Stmt>)
    requires WfDoc(d) && SplitNamesFresh(d)
    ensures Canonicalised(d, after, fills) && after.mats == d.mats && after.base == d.base
    ensures changes == Changes(d)
  {
    var measured := MaterialComps(d);
    var ctx := ComponentOf(d);
    var keys, targets := Groups(d, ctx);
    var canon := CanonComps(d, keys, targets, measured);
    var kept, have := RewriteAll(d, targets, canon);
    fills := FillAll(d, targets, canon, have);
    var nodes := ApplyNodes(d, targets, fills);
    var sub := RegisterSplits(d, targets);
    after := Doc(nodes, d.mats, kept + fills, d.base, sub);
    changes := set m | m in d.mats && targets[m] != ClsOf(d, m) :: (m, ClsOf(d, m), targets[m]);
  }
}
