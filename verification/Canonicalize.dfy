/** Material canonicalisation of a scenario document: one composition per material class and
    component context. This file holds the document, the grouping and the canonical means. */
module Canonicalize {
  import opened Vocabulary
  import opened Rollup

  /** Class names; `<cls>_in_<ctx>` is a constructor, so split names are distinct. */
  datatype DocCls = Plain(name: string) | In(of: DocCls, ctx: DocCls)

  /** Node names; `<mat>_<ec>` names an element node minted for a material. */
  datatype Name = Given(name: string) | Minted(mat: Name, ec: DocCls)

  datatype Spec = Spec(level: Level, cls: DocCls)

  datatype Stmt = Stmt(whole: Name, part: Name, best: real, lo: real, hi: real)

  /** `mats` lists the material nodes in document order; `base` maps a time slice to its
      year base. */
  datatype Doc = Doc(nodes: map<Name, Spec>, mats: seq<Name>, stmts: seq<Stmt>, base: map<DocCls, DocCls>, sub: map<DocCls, DocCls>)

  type Fractions = map<DocCls, real>

  predicate At(d: Doc, n: Name, l: Level) {
    n in d.nodes && d.nodes[n].level == l
  }

  function ClsOf(d: Doc, n: Name): DocCls {
    if n in d.nodes then d.nodes[n].cls else Plain("")
  }

  /** A material -> element statement. */
  predicate IsMeasure(d: Doc, s: Stmt) {
    At(d, s.whole, Material) && At(d, s.part, Element)
  }

  function GetOrZero(m: Fractions, ec: DocCls): real {
    if ec in m then m[ec] else 0.0
  }

  /** `material_comps`: the element fractions a material is measured with. */
  function Measured(d: Doc, stmts: seq<Stmt>, mat: Name): Fractions {
    if stmts == [] then map[]
    else
      var m, s := Measured(d, stmts[..|stmts| - 1], mat), stmts[|stmts| - 1];
      if IsMeasure(d, s) && s.whole == mat then m[ClsOf(d, s.part) := GetOrZero(m, ClsOf(d, s.part)) + s.best] else m
  }

  function Fractional(d: Doc, mat: Name): Fractions {
    Measured(d, d.stmts, mat)
  }

  // ---- contexts and groups ------------------------------------------------------------------

  function BaseOf(d: Doc, c: DocCls): DocCls {
    if c in d.base then d.base[c] else c
  }

  /** The component class a material sits in: the last such statement wins. */
  function ContextIn(d: Doc, stmts: seq<Stmt>, mat: Name): Option<DocCls> {
    if stmts == [] then None
    else
      var s := stmts[|stmts| - 1];
      if s.part == mat && At(d, s.whole, Component) && At(d, mat, Material) then Some(BaseOf(d, ClsOf(d, s.whole)))
      else ContextIn(d, stmts[..|stmts| - 1], mat)
  }

  function Context(d: Doc, mat: Name): Option<DocCls> {
    ContextIn(d, d.stmts, mat)
  }

  /** The component contexts the materials of a class appear in. */
  function Contexts(d: Doc, c: DocCls): set<DocCls> {
    set m | m in d.mats && ClsOf(d, m) == c && Context(d, m).Some? :: Context(d, m).value
  }

  ghost function TheOne(s: set<DocCls>): DocCls
    requires |s| == 1
    ensures s == {TheOne(s)}
  {
    var x :| x in s;
    assert |s - {x}| == 0;
    x
  }

  /** The group of a material: its class and its context; an orphan joins the only context
      of its class, else a context named after the class. */
  ghost function Key(d: Doc, mat: Name): (DocCls, DocCls) {
    var c := ClsOf(d, mat);
    match Context(d, mat)
    case Some(x) => (c, x)
    case None => (c, if |Contexts(d, c)| == 1 then TheOne(Contexts(d, c)) else c)
  }

  predicate Splits(d: Doc, c: DocCls) {
    |Contexts(d, c)| > 1
  }

  function TargetOf(d: Doc, key: (DocCls, DocCls)): DocCls {
    if Splits(d, key.0) then In(key.0, key.1) else key.0
  }

  ghost function Target(d: Doc, mat: Name): DocCls {
    TargetOf(d, Key(d, mat))
  }

  /** Groups never share a resulting class. */
  ghost predicate SplitNamesFresh(d: Doc) {
    forall m, n {:trigger Target(d, m), Target(d, n)} :: m in d.mats && n in d.mats && Target(d, m) == Target(d, n) ==>
        Key(d, m) == Key(d, n)
  }

  // ---- the canonical composition ---------------------------------------------------------------

  /** The group's materials that have measured fractions, in document order. */
  ghost function WithData(d: Doc, key: (DocCls, DocCls), mats: seq<Name>): seq<Name> {
    if mats == [] then []
    else
      var m := mats[|mats| - 1];
      WithData(d, key, mats[..|mats| - 1]) + if Key(d, m) == key && Fractional(d, m) != map[] then [m] else []
  }

  /** The elementwise total over the given materials. */
  function Pool(d: Doc, mats: seq<Name>): Fractions {
    if mats == [] then map[]
    else AddAll(Pool(d, mats[..|mats| - 1]), Fractional(d, mats[|mats| - 1]))
  }

  function AddAll(acc: Fractions, m: Fractions): Fractions {
    map ec | ec in acc.Keys + m.Keys :: GetOrZero(acc, ec) + GetOrZero(m, ec)
  }

  function Mean(acc: Fractions, k: nat): Fractions
    requires k > 0
  {
    map ec | ec in acc :: acc[ec] / k as real
  }

  ghost function Canon(d: Doc, key: (DocCls, DocCls)): Fractions {
    var ms := WithData(d, key, d.mats);
    if ms == [] then map[] else Mean(Pool(d, ms), |ms|)
  }

  // ---- the rewritten document -------------------------------------------------------------------

  function Max(a: real, b: real): real {
    if a < b then b else a
  }

  function Min(a: real, b: real): real {
    if a < b then a else b
  }

  /** The statement of an element fraction, with its band of half a percent. */
  function Banded(whole: Name, part: Name, frac: real): Stmt {
    Stmt(whole, part, frac, Max(0.0, frac - 0.005), Min(1.0, frac + 0.005))
  }

  /** A measured statement takes the canonical fraction of its group; one whose element the
      group does not have is dropped. */
  ghost function Rewrite(d: Doc, s: Stmt): Option<Stmt> {
    if !IsMeasure(d, s) then Some(s)
    else
      var canon := Canon(d, Key(d, s.whole));
      if ClsOf(d, s.part) in canon then Some(Banded(s.whole, s.part, canon[ClsOf(d, s.part)])) else None
  }

  ghost function Rewritten(d: Doc, stmts: seq<Stmt>): seq<Stmt> {
    if stmts == [] then []
    else
      match Rewrite(d, stmts[|stmts| - 1])
      case None => Rewritten(d, stmts[..|stmts| - 1])
      case Some(r) => Rewritten(d, stmts[..|stmts| - 1]) + [r]
  }

  /** `ec` is a canonical element of `mat` that `mat` has no statement for. */
  ghost predicate Missing(d: Doc, mat: Name, ec: DocCls) {
    mat in d.mats && ec in Canon(d, Key(d, mat)) && ec !in Fractional(d, mat)
  }

  /** A synthesised statement for a missing element. */
  ghost predicate IsFill(d: Doc, s: Stmt) {
    s.part.Minted? && s.part.mat == s.whole && Missing(d, s.whole, s.part.ec)
    && s == Banded(s.whole, s.part, Canon(d, Key(d, s.whole))[s.part.ec])
  }

  /** `fills` supplies every missing element exactly once. */
  ghost predicate Fills(d: Doc, fills: seq<Stmt>) {
    && (forall i :: 0 <= i < |fills| ==> IsFill(d, fills[i]))
    && (forall i, j :: 0 <= i < j < |fills| ==> fills[i].part != fills[j].part)
    && (forall mat, ec :: Missing(d, mat, ec) ==> exists i :: 0 <= i < |fills| && fills[i].part == Minted(mat, ec))
  }

  /** `after` is what `canonicalize_doc` makes of `d`: every material has its target class,
      measured statements are rewritten, missing ones synthesised, and nothing else changes. */
  ghost predicate Canonicalised(d: Doc, after: Doc, fills: seq<Stmt>) {
    && Fills(d, fills)
    && after.mats == d.mats && after.base == d.base
    && after.stmts == Rewritten(d, d.stmts) + fills
    && (forall n :: n in after.nodes <==> n in d.nodes || exists i :: 0 <= i < |fills| && fills[i].part == n)
    && (forall n {:trigger after.nodes[n]} :: n in d.nodes ==>
          after.nodes[n] == if n in d.mats then Spec(Material, Target(d, n)) else d.nodes[n])
    && (forall n :: n in after.nodes && n !in d.nodes ==> n.Minted? && after.nodes[n] == Spec(Element, n.ec))
    && Registers(d, after.sub)
  }

  /** Every split subclass is registered below the class it splits. */
  ghost predicate Registers(d: Doc, sub: map<DocCls, DocCls>) {
    && (forall c :: c in d.sub ==> c in sub)
    && (forall c :: c in sub ==> (c in d.sub && sub[c] == d.sub[c]) || SplitInto(d, c, sub[c]))
    && (forall m {:trigger Target(d, m)} :: m in d.mats && Splits(d, ClsOf(d, m)) ==>
         Target(d, m) in sub && sub[Target(d, m)] == ClsOf(d, m))
  }

  ghost predicate SplitInto(d: Doc, c: DocCls, parent: DocCls) {
    exists m :: m in d.mats && Splits(d, ClsOf(d, m)) && Target(d, m) == c && ClsOf(d, m) == parent
  }

  /** `mats` lists the material nodes once, statements are about nodes, and a minted name
      names its own element. */
  ghost predicate WfDoc(d: Doc) {
    && Distinct(d.mats)
    && (forall n :: n in d.mats <==> At(d, n, Material))
    && (forall i :: 0 <= i < |d.stmts| ==> d.stmts[i].whole in d.nodes && d.stmts[i].part in d.nodes)
    && (forall n :: n in d.nodes && n.Minted? ==> d.nodes[n] == Spec(Element, n.ec))
  }

  /** How many statements measure `ec` in `mat`. */
  function Count(d: Doc, stmts: seq<Stmt>, mat: Name, ec: DocCls): nat {
    if stmts == [] then 0
    else
      var s := stmts[|stmts| - 1];
      Count(d, stmts[..|stmts| - 1], mat, ec) + if IsMeasure(d, s) && s.whole == mat
          && ClsOf(d, s.part) == ec then 1 else 0
  }

  /** The statements a material ends up with for a canonical element: its own, or the one
      that is synthesised. */
  function Stated(d: Doc, mat: Name, ec: DocCls): nat {
    var n := Count(d, d.stmts, mat, ec);
    if n == 0 then 1 else n
  }

  /** No material states an element of its canonical composition more than once, unless its
      fraction is zero. */
  ghost predicate NoRepeats(d: Doc) {
    forall mat {:trigger StatesOnce(d, mat)} :: mat in d.mats ==> StatesOnce(d, mat)
  }

  /** `mat` states no canonical element of non-zero fraction more than once. */
  ghost predicate StatesOnce(d: Doc, mat: Name) {
    var canon := Canon(d, Key(d, mat));
    forall ec :: ec in canon && canon[ec] != 0.0 ==> Stated(d, mat, ec) == 1
  }
}
