/** A store of battery packs, and a diesel car that has one: their class now spans two
    drivetrains, the old pack moves to a leaf of its own, and the refreshed view leaves it out. */
module PackStore {
  import opened Vocabulary
  import opened Closure
  import opened Hierarchy
  import opened Levels
  import opened Reach
  import opened YearSlicer
  import opened YearForm
  import opened StoreIndex
  import opened StoreFrame
  import opened Affected
  import opened ValueSlicer
  import opened Climbing
  import opened Mixing
  import opened LevelLaws
  import opened ServedView
  import opened HeldElements
  import opened MixedStale
  import opened StoreAdds
  import opened StaleView
  import FlatContent
  import StaleStores

  const BEV: Cls := Named("Bev")
  const DIESEL: Cls := Named("Diesel")
  const PACK: Cls := Named("Pack")
  const CELL: Cls := Named("Cell")
  const FOIL: Cls := Named("Foil")
  const CU: Cls := Named("Cu")

  const PACK1: Node := Node("p/pack1")
  const CELL1: Node := Node("p/cell1")
  const FOIL1: Node := Node("p/foil1")
  const COPPER: Node := Node("p/copper")
  const CAR2: Node := Node("s/car2")
  const PACK2: Node := Node("s/pack2")

  // ---- levels and drivetrains ------------------------------------------------------------------------

  const PRODUCT: Cls := LevelClass(Product)
  const COMPONENT: Cls := LevelClass(Component)
  const MATERIAL: Cls := LevelClass(Material)
  const ELEMENT: Cls := LevelClass(Element)

  /** Packs are products of battery cars. */
  const PACKS: Classes :=
    {(PACK, BEV), (PACK, PRODUCT), (BEV, PRODUCT), (DIESEL, PRODUCT), (CELL, COMPONENT), (FOIL, MATERIAL), (CU, ELEMENT)}

  function LevelOfClass(c: Cls): Level {
    if c == CELL then Component else if c == FOIL then Material else if c == CU then Element else Product
  }

  lemma PackEdge(e: (Cls, Cls))
    requires e in PACKS
    ensures e.0 !in LEVEL_ROOTS && (e == (PACK, BEV) || e.1 == LevelClass(LevelOfClass(e.0)))
  {
  }

  lemma PlainClasses()
    ensures {BEV, DIESEL, PACK, CELL, FOIL, CU} !! LEVEL_ROOTS
    ensures BEV != DIESEL && PACK != BEV && PACK != DIESEL && CELL != PACK && CELL != BEV && CELL != DIESEL
    ensures FOIL != PACK
    ensures FOIL != BEV && FOIL != DIESEL && CU != PACK && CU != BEV && CU != DIESEL
    ensures CELL != FOIL && CELL != CU && FOIL != CU
  {
    assert "Diesel"[0] != "Product"[0] && "Foil"[0] != "Pack"[0];
  }

  /** Every class but the packs' lies below its level class only. */
  lemma SingleLevel(c: Cls)
    requires (c, LevelClass(LevelOfClass(c))) in PACKS && c != PACK
    ensures LevelFrom(PACKS, c) == Some(LevelOfClass(c))
  {
    var l := LevelOfClass(c);
    var up := {c, LevelClass(l)};
    PackEdge((c, LevelClass(l)));
    forall e | e in PACKS && e.0 in up ensures e.1 in up {
      PackEdge(e);
    }
    forall m | Rank(m) < Rank(l) ensures LevelClass(m) !in up {
    }
    LevelIs(PACKS, c, l, up);
  }

  lemma PackUp()
    ensures Closed(PACKS, {PACK, BEV, PRODUCT}) && Closed(PACKS, {DIESEL, PRODUCT})
  {
    PlainClasses();
    forall e | e in PACKS ensures e.0 in {PACK, BEV, PRODUCT} ==> e.1 in {PACK, BEV, PRODUCT} {
      PackEdge(e);
    }
    forall e | e in PACKS ensures e.0 in {DIESEL, PRODUCT} ==> e.1 in {DIESEL, PRODUCT} {
      PackEdge(e);
    }
  }

  lemma AllLevels()
    ensures LevelFrom(PACKS, PACK) == Some(Product) && LevelFrom(PACKS, DIESEL) == Some(Product)
    ensures LevelFrom(PACKS, CELL) == Some(Component) && LevelFrom(PACKS, FOIL) == Some(Material)
    ensures LevelFrom(PACKS, CU) == Some(Element)
  {
    PlainClasses();
    assert LevelFrom(PACKS, PACK) == Some(Product) by {
      PackUp();
      assert (PACK, LevelClass(Product)) in PACKS;
      LevelIs(PACKS, PACK, Product, {PACK, BEV, PRODUCT});
    }
    assert (DIESEL, LevelClass(LevelOfClass(DIESEL))) in PACKS && (CELL, LevelClass(LevelOfClass(CELL))) in PACKS;
    assert (FOIL, LevelClass(LevelOfClass(FOIL))) in PACKS && (CU, LevelClass(LevelOfClass(CU))) in PACKS;
    SingleLevel(DIESEL);
    SingleLevel(CELL);
    SingleLevel(FOIL);
    SingleLevel(CU);
  }

  lemma PackTaxonomy()
    ensures Taxonomy(PACKS) == {(PACK, BEV)} && Timeless(PACKS)
  {
    PlainClasses();
    forall e | e in Taxonomy(PACKS) ensures e == (PACK, BEV) {
      PackEdge(e);
      if e != (PACK, BEV) {
        StaleStores.HighLevels(LevelOfClass(e.0));
      }
    }
  }

  // ---- the two sources -------------------------------------------------------------------------------------

  function Part(n: Node): Edge {
    Edge(n, 0.5, 0.5, 0.5, 0.0)
  }

  /** A timed pack with a cell, its foil and the foil's copper. */
  ghost predicate IsPack(g: Graph) {
    && Authored(g) && g.types == {(PACK1, PACK), (CELL1, CELL), (FOIL1, FOIL), (COPPER, CU)} && g.when.Keys == {PACK1}
    && g.level == map[PACK1 := Product, CELL1 := Component, FOIL1 := Material, COPPER := Element]
    && g.parts == map[PACK1 := [Part(CELL1)], CELL1 := [Part(FOIL1)], FOIL1 := [Part(COPPER)]]
    && g.sub == {} && g.axis == {(BEV, DRIVETRAIN)}
  }

  /** A timed diesel car with a pack that nothing is stated of. */
  ghost predicate IsDiesel(g: Graph) {
    && Authored(g) && g.types == {(CAR2, DIESEL), (PACK2, PACK)} && g.when.Keys == {CAR2, PACK2}
    && g.level == map[CAR2 := Product, PACK2 := Product]
    && g.parts == map[CAR2 := [Part(PACK2)]]
    && g.sub == {} && g.axis == {(DIESEL, DRIVETRAIN)}
  }

  function MakePack(t: Scope): Graph {
    EMPTY.(types := {(PACK1, PACK), (CELL1, CELL), (FOIL1, FOIL), (COPPER, CU)}, when := map[PACK1 := t],
           level := map[PACK1 := Product, CELL1 := Component, FOIL1 := Material, COPPER := Element],
           parts := map[PACK1 := [Part(CELL1)], CELL1 := [Part(FOIL1)], FOIL1 := [Part(COPPER)]],
           depth := map[PACK1 := 3, CELL1 := 2, FOIL1 := 1, COPPER := 0], axis := {(BEV, DRIVETRAIN)})
  }

  function MakeDiesel(t: Scope): Graph {
    EMPTY.(types := {(CAR2, DIESEL), (PACK2, PACK)}, when := map[CAR2 := t, PACK2 := t],
           level := map[CAR2 := Product, PACK2 := Product], parts := map[CAR2 := [Part(PACK2)]],
           depth := map[CAR2 := 1, PACK2 := 0], axis := {(DIESEL, DRIVETRAIN)})
  }

  lemma PackTyped(g: Graph)
    requires g.types == {(PACK1, PACK), (CELL1, CELL), (FOIL1, FOIL), (COPPER, CU)}
    ensures HasOneType(g, PACK1) && HasOneType(g, CELL1) && HasOneType(g, FOIL1) && HasOneType(g, COPPER)
  {
    PlainClasses();
    assert TypedBy(g, PACK1, PACK) && TypedBy(g, CELL1, CELL) && TypedBy(g, FOIL1, FOIL) && TypedBy(g, COPPER, CU);
  }

  lemma PackMade(t: Scope)
    ensures IsPack(MakePack(t))
  {
    PackTyped(MakePack(t));
  }

  lemma DieselMade(t: Scope)
    ensures IsDiesel(MakeDiesel(t))
  {
    PlainClasses();
    assert TypedBy(MakeDiesel(t), CAR2, DIESEL) && TypedBy(MakeDiesel(t), PACK2, PACK);
  }

  lemma PackParts(g: Graph)
    requires IsPack(g)
    ensures PartsOf(g.parts) == {CELL1, FOIL1, COPPER} && TopNodes(g) == {PACK1}
    ensures Holders(g) == {(CELL1, PACK1), (FOIL1, CELL1), (COPPER, FOIL1)}
  {
    assert g.parts[PACK1][0].part == CELL1 && g.parts[CELL1][0].part == FOIL1 && g.parts[FOIL1][0].part == COPPER;
    var e, f, h := (CELL1, PACK1), (FOIL1, CELL1), (COPPER, FOIL1);
    assert e in Holders(g) && f in Holders(g) && h in Holders(g);
  }

  lemma DieselParts(g: Graph)
    requires IsDiesel(g)
    ensures PartsOf(g.parts) == {PACK2} && TopNodes(g) == {CAR2} && NewWholes(g) == {CAR2}
    ensures Holders(g) == {(PACK2, CAR2)}
  {
    assert g.parts[CAR2][0].part == PACK2;
    var e := (PACK2, CAR2);
    assert e in Holders(g);
  }

  lemma GivenBy(g: Graph, n: Node, c: Cls, l: Level)
    requires Classified(g) && n in g.level && BaseOf(g, n) == c && g.level[n] == l && LevelFrom(PACKS, c) == Some(l)
    ensures LevelGiven(PACKS, g, n)
  {
  }

  lemma PackGiven(g: Graph)
    requires IsPack(g)
    ensures LevelsGiven(PACKS, g)
  {
    AllLevels();
    assert BaseOf(g, PACK1) == PACK && BaseOf(g, CELL1) == CELL && BaseOf(g, FOIL1) == FOIL && BaseOf(g, COPPER) == CU;
    GivenBy(g, PACK1, PACK, Product);
    GivenBy(g, CELL1, CELL, Component);
    GivenBy(g, FOIL1, FOIL, Material);
    GivenBy(g, COPPER, CU, Element);
  }

  lemma PackSteps(g: Graph)
    requires IsPack(g)
    ensures StepWise(DagOf(g))
  {
    assert Near(Product, Component) && Near(Component, Material) && Near(Material, Element);
  }

  lemma DieselGiven(g: Graph)
    requires IsDiesel(g)
    ensures LevelsGiven(PACKS, g)
  {
    AllLevels();
    GivenBy(g, CAR2, DIESEL, Product);
    GivenBy(g, PACK2, PACK, Product);
  }

  lemma DieselSteps(g: Graph)
    requires IsDiesel(g)
    ensures StepWise(DagOf(g))
  {
    assert Near(Product, Product);
  }

  lemma PacksApart(a: Graph, s: Graph)
    requires IsPack(a) && IsDiesel(s)
    ensures Disjoint(a, s)
  {
    assert a.level.Keys == {PACK1, CELL1, FOIL1, COPPER} && s.level.Keys == {CAR2, PACK2};
  }

  lemma PacksArrive(frozen: Classes, a: Graph, s: Graph)
    requires frozen == PACKS && IsPack(a) && IsDiesel(s)
    ensures Arrival(frozen, a, s)
  {
    PackTaxonomy();
    PacksApart(a, s);
    AuthoredUnion(a, s);
    assert frozen + a.sub == PACKS && frozen + Union(a, s).sub == PACKS;
    PackGiven(a);
    PackSteps(a);
    DieselGiven(s);
    DieselSteps(s);
    GivenUnion(PACKS, a, s);
    StepsUnion(a, s);
  }

  // ---- the old battery is mixed -------------------------------------------------------------------------------------

  lemma HoldersUnion(a: Graph, s: Graph)
    requires a.parts.Keys !! s.parts.Keys
    ensures Holders(Union(a, s)) == Holders(a) + Holders(s)
  {
    var u := Union(a, s);
    forall w, i | w in a.parts && 0 <= i < |a.parts[w]| ensures (a.parts[w][i].part, w) in Holders(u) {
      assert u.parts[w] == a.parts[w];
    }
    forall w, i | w in s.parts && 0 <= i < |s.parts[w]| ensures (s.parts[w][i].part, w) in Holders(u) {
      assert u.parts[w] == s.parts[w];
    }
  }

  /** The one part-of map of the two sources. */
  ghost predicate PackMap(parent: map<Node, Node>) {
    parent == map[CELL1 := PACK1, FOIL1 := CELL1, COPPER := FOIL1, PACK2 := CAR2]
  }

  lemma MapIs(u: Graph, parent: map<Node, Node>)
    requires Holders(u) == {(CELL1, PACK1), (FOIL1, CELL1), (COPPER, FOIL1)} + {(PACK2, CAR2)} && IsParentMap(u, parent)
    ensures PackMap(parent)
  {
    assert (CELL1, PACK1) in Holders(u) && (FOIL1, CELL1) in Holders(u) && (COPPER, FOIL1) in Holders(u)
        && (PACK2, CAR2) in Holders(u);
    forall n | n in parent ensures (n, parent[n]) in Holders(u) {
    }
  }

  lemma UnionMap(a: Graph, s: Graph, parent: map<Node, Node>)
    requires IsPack(a) && IsDiesel(s) && IsParentMap(Union(a, s), parent)
    ensures PackMap(parent)
  {
    PacksApart(a, s);
    PackParts(a);
    DieselParts(s);
    HoldersUnion(a, s);
    MapIs(Union(a, s), parent);
  }

  /** What the union says of the two packs. */
  ghost predicate PackUnion(u: Graph) {
    && TypesAt(u, PACK1) == {PACK} && TypesAt(u, CAR2) == {DIESEL} && Values(u, DRIVETRAIN) == {BEV, DIESEL}
         && u.sub == {}
    && (PACK1, PACK) in u.types && (PACK2, PACK) in u.types && PACK1 in u.when && PACK2 in u.when
  }

  lemma UnionSays(a: Graph, s: Graph)
    requires IsPack(a) && IsDiesel(s)
    ensures var u := Union(a, s);
            && u.types == {(PACK1, PACK), (CELL1, CELL), (FOIL1, FOIL), (COPPER, CU)} + {(CAR2, DIESEL), (PACK2, PACK)}
            && u.axis == {(BEV, DRIVETRAIN)} + {(DIESEL, DRIVETRAIN)} && u.sub == {}
                 && u.when.Keys == {PACK1, CAR2, PACK2}
  {
  }

  lemma PackUnionOf(u: Graph)
    requires u.types == {(PACK1, PACK), (CELL1, CELL), (FOIL1, FOIL), (COPPER, CU)} + {(CAR2, DIESEL), (PACK2, PACK)}
    requires u.axis == {(BEV, DRIVETRAIN)} + {(DIESEL, DRIVETRAIN)} && u.sub == {}
    requires u.when.Keys == {PACK1, CAR2, PACK2}
    ensures PackUnion(u) && ClassesAt(u, {CAR2}) == {DIESEL}
  {
    assert (PACK1, PACK) in u.types && (CAR2, DIESEL) in u.types && (PACK2, PACK) in u.types;
    assert (BEV, DRIVETRAIN) in u.axis && (DIESEL, DRIVETRAIN) in u.axis;
  }

  lemma PacksUnion(a: Graph, s: Graph)
    requires IsPack(a) && IsDiesel(s)
    ensures PackUnion(Union(a, s)) && ClassesAt(Union(a, s), {CAR2}) == {DIESEL}
  {
    UnionSays(a, s);
    PackUnionOf(Union(a, s));
  }

  lemma PackSpans(frozen: Classes, u: Graph, parent: map<Node, Node>)
    requires frozen == PACKS && PackUnion(u) && PackMap(parent)
    ensures RootValues(frozen, u, parent, PACK1) == {BEV} && RootValues(frozen, u, parent, PACK2) == {DIESEL}
  {
    assert RootOf(parent, PACK1, {}) == PACK1 && RootOf(parent, PACK2, {}) == CAR2;
    PlainClasses();
    PackUp();
    assert frozen + u.sub == frozen && (PACK, BEV) in frozen;
    ReachLeast(frozen, {PACK}, {PACK, BEV, PRODUCT});
    OneStep(frozen, PACK, BEV);
    ReachLeast(frozen, {DIESEL}, {DIESEL, PRODUCT});
  }

  lemma PackMixed(frozen: Classes, a: Graph, s: Graph)
    requires frozen == PACKS && IsPack(a) && IsDiesel(s)
    ensures AlwaysMixed(frozen, Union(a, s), PACK1)
  {
    PacksUnion(a, s);
    forall parent | IsParentMap(Union(a, s), parent) ensures Mixed(frozen, Union(a, s), parent, PACK1) {
      UnionMap(a, s, parent);
      PackSpans(frozen, Union(a, s), parent);
      assert Mixed(frozen, Union(a, s), parent, PACK1) by {
        PlainClasses();
        assert SameClass(Union(a, s), PACK1, PACK2);
        assert DIESEL in {DIESEL} && DIESEL !in {BEV};
        assert Differs(frozen, Union(a, s), parent, PACK1, PACK2);
      }
    }
  }

  lemma PackAlone(frozen: Classes, a: Graph)
    requires IsPack(a)
    ensures NeverMixed(frozen, a)
  {
    forall parent, n | IsParentMap(a, parent) ensures !Mixed(frozen, a, parent, n) {
      if m :| Differs(frozen, a, parent, n, m) {
        DiffersApart(frozen, a, parent, n, m);
      }
    }
  }

  // ---- and its class is missed ----------------------------------------------------------------------------------

  lemma DieselFound(frozen: Classes, u: Graph)
    requires frozen == PACKS && u.sub == {} && ClassesAt(u, {CAR2}) == {DIESEL}
    ensures AffectedBases(frozen, u, {CAR2}) == {DIESEL}
  {
    PackTaxonomy();
    PlainClasses();
    assert frozen + u.sub == frozen;
    FlatContent.BasesAlone(frozen, u, CAR2, DIESEL);
  }

  // ---- what it reports ---------------------------------------------------------------------------------------------

  lemma PackPath(d: Dag)
    requires Wf(d) && PACK1 in d.adj && CELL1 in d.adj && FOIL1 in d.adj && IsElement(d, COPPER)
    requires d.adj[PACK1] == [Part(CELL1)] && d.adj[CELL1] == [Part(FOIL1)] && d.adj[FOIL1] == [Part(COPPER)]
    ensures Holds(d, PACK1)
  {
    AllPathsExact(d, PACK1, COPPER);
    assert [0, 0, 0][1..] == [0, 0] && [0, 0][1..] == [0] && [0][1..] == [];
    assert Leads(d, COPPER, [], COPPER);
    assert Leads(d, FOIL1, [0], COPPER);
    assert Leads(d, CELL1, [0, 0], COPPER);
    assert IsPath(d, PACK1, [0, 0, 0], COPPER);
    assert [0, 0, 0] in Paths(d, PACK1, COPPER);
  }

  lemma PackSubstantial(a: Graph)
    requires IsPack(a)
    ensures Substantial(a, {PACK1}) && FamilyTimed(a)
  {
    PackParts(a);
    PackPath(DagOf(a));
  }

  lemma PartsKept(a: Graph, s: Graph)
    requires a.parts.Keys !! s.parts.Keys
    ensures forall n :: n in a.parts ==> n in Union(a, s).parts && Union(a, s).parts[n] == a.parts[n]
  {
  }

  lemma DieselPositive(s: Graph)
    requires IsDiesel(s)
    ensures AllPositive(DagOf(s))
  {
  }

  lemma PacksPositive(a: Graph, s: Graph)
    requires IsPack(a) && IsDiesel(s) && Disjoint(a, s)
    ensures AllPositive(DagOf(Union(a, s)))
  {
    assert AllPositive(DagOf(a));
    DieselPositive(s);
    UnionPositive(a, s);
  }

  lemma PacksHold(a: Graph, s: Graph)
    requires IsPack(a) && IsDiesel(s) && Disjoint(a, s)
    ensures Holds(DagOf(Union(a, s)), PACK1)
  {
    AuthoredUnion(a, s);
    PartsKept(a, s);
    PackPath(DagOf(Union(a, s)));
  }

  lemma PacksTimed(a: Graph, s: Graph)
    requires IsPack(a) && IsDiesel(s)
    ensures FamilyTimed(Union(a, s))
  {
    PacksApart(a, s);
    TopsOfUnion(a, s);
    PackParts(a);
    DieselParts(s);
    UnionSays(a, s);
  }

  lemma PackEnv(frozen: Classes, a: Graph, s: Graph) returns (env: Env)
    requires frozen == PACKS && IsPack(a) && IsDiesel(s) && Arrival(frozen, a, s)
    ensures env.frozen == frozen && WfEnv(env) && Lists(IndexOfForm(env, a)) && ListsPasses(env, Union(a, s))
  {
    var parent := map[CELL1 := PACK1, FOIL1 := CELL1, COPPER := FOIL1, PACK2 := CAR2];
    forall q | IsParentMap(Union(a, s), q) ensures q == parent {
      UnionMap(a, s, q);
    }
    env := EnvForPass(frozen, a, s, parent);
  }

  lemma PackGoesStale(frozen: Classes, compound: bool, a: Graph, s: Graph) returns (env: Env)
    requires frozen == PACKS && IsPack(a) && IsDiesel(s)
    ensures env.frozen == frozen && GoesStale(env, compound, a, s)
  {
    PacksArrive(frozen, a, s);
    env := PackEnv(frozen, a, s);
    PackAlone(frozen, a);
    PackMixed(frozen, a, s);
    assert Passed(frozen, Union(a, s), NewWholes(s), PACK1) by {
      var u := Union(a, s);
      PacksApart(a, s);
      AuthoredUnion(a, s);
      PackParts(a);
      DieselParts(s);
      PlainClasses();
      PacksUnion(a, s);
      DieselFound(frozen, u);
      TopsOfUnion(a, s);
      PacksHold(a, s);
    }
    PackSubstantial(a);
    PacksApart(a, s);
    PacksPositive(a, s);
    PacksTimed(a, s);
    PackParts(a);
    MixedGoesStale(env, compound, a, s, PACK1);
  }

  /** A store with a battery pack of its own that serves a view, and a diesel car with a pack: nothing
      is missed and nothing was mixed before, but the old pack moves to a leaf that only the full
      derive serves. */
  lemma PackServedStale(compound: bool, t: Scope) returns (env: Env, a: Graph, s: Graph)
    ensures GoesStale(env, compound, a, s) && Arrival(env.frozen, a, s)
    ensures Missed(env.frozen, a, s) == {} && NeverMixed(env.frozen, a) && AlwaysMixed(env.frozen, Union(a, s), PACK1)
  {
    a, s := MakePack(t), MakeDiesel(t);
    PackMade(t);
    DieselMade(t);
    env := PackGoesStale(PACKS, compound, a, s);
    PacksArrive(PACKS, a, s);
    PackAlone(PACKS, a);
    PackMixed(PACKS, a, s);
    assert Missed(PACKS, a, s) == {} by {
      DieselParts(s);
      assert Union(a, s).sub == a.sub;
      assert UntimedTops(s) == {} && NewEdges(PACKS, a, s) == {};
      TimedTopsCovered(PACKS, a, s);
    }
  }
}
