/** Two stores of materials whose view goes stale: on an untimed top that only the frozen taxonomy
    places, and on a new subclass edge above a class in use. */
module StaleStores {
  import opened Vocabulary
  import opened Closure
  import opened Hierarchy
  import opened Levels
  import opened YearSlicer
  import opened YearForm
  import opened StoreIndex
  import opened StoreFrame
  import opened Affected
  import opened StoreAdds
  import opened FlatContent

  const ALLOY: Cls := Named("Alloy")
  const METAL: Cls := Named("Metal")
  const ROCK: Cls := Named("Rock")
  const BAR: Node := Node("bars/bar")
  const IRON: Node := Node("bars/iron")
  const STONE: Node := Node("stones/stone")
  const ORE: Node := Node("stones/ore")

  const BARS: Lots := map[BAR := (ALLOY, IRON)]
  const STONES: Lots := map[STONE := (ROCK, ORE)]

  // ---- levels --------------------------------------------------------------------------------------

  const MATERIAL: Cls := LevelClass(Material)
  const ELEMENT: Cls := LevelClass(Element)

  /** Where the frozen hierarchy puts alloys, metals, rocks and iron. */
  const GROUND: set<(Cls, Cls)> := {(ALLOY, MATERIAL), (METAL, MATERIAL), (ROCK, MATERIAL), (FE, ELEMENT)}

  const ABOVE: set<(Cls, Cls)> := {(ALLOY, METAL)}

  lemma GroundEdge(e: (Cls, Cls))
    requires e in GROUND
    ensures e.0 !in LEVEL_ROOTS && e.1 in LEVEL_ROOTS && (e.1 == if e.0 == FE then ELEMENT else MATERIAL)
    ensures e.0 == ALLOY || e.0 == METAL || e.0 == ROCK || e.0 == FE
  {
  }

  lemma HighLevels(l: Level)
    ensures LevelClass(l) in LEVEL_ROOTS
    ensures Rank(l) < Rank(Material) ==> LevelClass(l) != MATERIAL
    ensures Rank(l) < Rank(Element) ==> LevelClass(l) != ELEMENT
  {
    assert "Product"[0] != "Element"[0];
  }

  /** A class whose one edge leads to its level class. */
  lemma OwnLevel(sup: set<(Cls, Cls)>, c: Cls, l: Level)
    requires (c, LevelClass(l)) in sup && c !in LEVEL_ROOTS && (l == Material || l == Element)
    requires forall e :: e in sup ==> e.0 !in LEVEL_ROOTS && (e.0 == c ==> e.1 == LevelClass(l))
    ensures LevelFrom(sup, c) == Some(l)
  {
    HighLevels(l);
    forall m | Rank(m) < Rank(l) ensures LevelClass(m) !in {c, LevelClass(l)} {
      HighLevels(m);
    }
    LevelIs(sup, c, l, {c, LevelClass(l)});
  }

  /** The classes of the ground other than the one with an extra edge. */
  lemma GroundClass(sup: set<(Cls, Cls)>, extra: (Cls, Cls), c: Cls)
    requires sup == GROUND + {extra} && extra.0 != c && extra.0 !in LEVEL_ROOTS && (c == ROCK || c == FE || c == ALLOY)
    ensures LevelFrom(sup, c) == Some(if c == FE then Element else Material)
  {
    var l := if c == FE then Element else Material;
    forall e | e in sup ensures e.0 !in LEVEL_ROOTS && (e.0 == c ==> e.1 == LevelClass(l)) {
      if e in GROUND {
        GroundEdge(e);
      }
    }
    assert (c, LevelClass(l)) in GROUND;
    OwnLevel(sup, c, l);
  }

  /** Where the edges put the classes of both sources. */
  ghost predicate Grounded(sup: set<(Cls, Cls)>) {
    LevelFrom(sup, ALLOY) == Some(Material) && LevelFrom(sup, ROCK) == Some(Material)
        && LevelFrom(sup, FE) == Some(Element)
  }

  lemma OnGround()
    ensures Grounded(GROUND)
  {
    assert GROUND == GROUND + {(METAL, MATERIAL)} && METAL !in LEVEL_ROOTS;
    GroundClass(GROUND, (METAL, MATERIAL), ALLOY);
    GroundClass(GROUND, (METAL, MATERIAL), ROCK);
    GroundClass(GROUND, (METAL, MATERIAL), FE);
  }

  lemma AboveGround()
    ensures Grounded(GROUND + ABOVE)
  {
    var sup, up := GROUND + ABOVE, {ALLOY, METAL, MATERIAL};
    assert ALLOY !in LEVEL_ROOTS;
    GroundClass(sup, (ALLOY, METAL), ROCK);
    GroundClass(sup, (ALLOY, METAL), FE);
    forall m | Rank(m) < Rank(Material) ensures LevelClass(m) !in up {
      HighLevels(m);
    }
    forall e | e in sup && e.0 in up ensures e.1 in up {
      if e in GROUND {
        GroundEdge(e);
      }
    }
    assert (ALLOY, LevelClass(Material)) in GROUND;
    LevelIs(sup, ALLOY, Material, up);
  }

  lemma GroundTaxonomy()
    ensures Taxonomy(GROUND) == {} && Taxonomy(GROUND + ABOVE) == ABOVE
    ensures Timeless(GROUND) && Timeless(ABOVE) && Timeless(GROUND + ABOVE)
  {
    assert METAL !in LEVEL_ROOTS;
    forall e | e in GROUND ensures e.1 in LEVEL_ROOTS {
      GroundEdge(e);
    }
  }

  // ---- the two sources ---------------------------------------------------------------------------------

  /** An untimed bar of an alloy. */
  ghost predicate IsBar(g: Graph) {
    Authored(g) && Flat(g, BARS) && g.when == map[] && g.sub == {} && g.level.Keys == {BAR, IRON}
  }

  /** A stone of 2020, with the given subclass edges. */
  ghost predicate IsStone(g: Graph, sub: set<(Cls, Cls)>) {
    Authored(g) && Flat(g, STONES) && g.when.Keys == {STONE} && g.sub == sub && g.level.Keys == {STONE, ORE}
  }

  lemma Bar() returns (g: Graph)
    ensures IsBar(g)
  {
    g := OneSource(BAR, ALLOY, IRON, map[], {});
    OneFlat(BAR, ALLOY, IRON, map[], {});
  }

  lemma Stone(sub: set<(Cls, Cls)>) returns (g: Graph)
    requires Timeless(sub)
    ensures IsStone(g, sub)
  {
    g := OneSource(STONE, ROCK, ORE, map[STONE := Year(2020)], sub);
    OneFlat(STONE, ROCK, ORE, map[STONE := Year(2020)], sub);
  }

  lemma Beside(bar: Graph, stone: Graph, sub: set<(Cls, Cls)>)
    requires IsBar(bar) && IsStone(stone, sub)
    ensures Disjoint(bar, stone) && Disjoint(stone, bar)
  {
  }

  lemma GroundPuts(sup: set<(Cls, Cls)>)
    requires Grounded(sup)
    ensures Puts(sup, BARS, {}) && Puts(sup, STONES, {}) && Puts(sup, BARS + STONES, {}) && Puts(sup, STONES + BARS, {})
  {
  }

  // ---- what the affected set misses -----------------------------------------------------------------

  /** No taxonomy edge leaves the one top class. */
  lemma UsedAlone(frozen: set<(Cls, Cls)>, g: Graph, lots: Lots, n: Node, c: Cls)
    requires Authored(g) && Flat(g, lots) && lots.Keys == {n} && lots[n].0 == c && forall e :: e in Tax(frozen, g) ==>
        e.0 != c
    ensures Used(frozen, g) == {c}
  {
    FlatTops(g, lots);
    FlatClassesAt(g, lots, n);
    ReachNothing(Tax(frozen, g), {c});
  }

  lemma WholesBases(frozen: set<(Cls, Cls)>, a: Graph, s: Graph, lots: Lots, n: Node, c: Cls)
    requires Plain(a) && Disjoint(a, s) && Authored(s) && Flat(s, lots) && lots.Keys == {n} && lots[n].0 == c
    requires forall e :: e in Union(a, s).sub ==> e.0 != c
    requires n in Union(a, s).when ==> forall e :: e in Tax(frozen, Union(a, s)) ==> e.0 != c
    ensures AffectedBases(frozen, Union(a, s), NewWholes(s)) == {c}
  {
    FlatClassesAt(s, lots, n);
    TypesInUnion(a, s, {n});
    BasesAlone(frozen, Union(a, s), n, c);
  }

  lemma BarLoose(frozen: set<(Cls, Cls)>, a: Graph, s: Graph)
    requires Tax(frozen, Union(a, s)) == ABOVE && IsStone(a, {}) && IsBar(s) && Disjoint(a, s)
    ensures METAL in Loose(frozen, a, s) && UntimedTops(s) == {BAR}
  {
    FlatTops(s, BARS);
    FlatClassesAt(s, BARS, BAR);
    assert UntimedTops(s) == {BAR};
    OneStep(ABOVE, ALLOY, METAL);
    FlatUnion(a, STONES, s, BARS);
    FlatTops(Union(a, s), STONES + BARS);
    assert ClassesAt(Union(a, s), {}) == {};
    ReachNothing(ABOVE, {});
  }

  /** An untimed bar arriving at a store of stones: the frozen taxonomy alone puts it below metals. */
  lemma BarMissed(frozen: set<(Cls, Cls)>, a: Graph, s: Graph)
    requires Tax(frozen, a) == ABOVE && Tax(frozen, Union(a, s)) == ABOVE && IsStone(a, {}) && IsBar(s)
    requires Disjoint(a, s)
    ensures METAL in Missed(frozen, a, s) && METAL !in Used(frozen, a) && NewEdges(frozen, a, s) == {}
    ensures UntimedTops(s) == {BAR}
  {
    UsedAlone(frozen, a, STONES, STONE, ROCK);
    WholesBases(frozen, a, s, BARS, BAR, ALLOY);
    BarLoose(frozen, a, s);
  }

  /** A timed stone arriving at a store of bars, with a taxonomy edge above alloys. */
  lemma EdgeMissed(frozen: set<(Cls, Cls)>, a: Graph, s: Graph)
    requires Tax(frozen, a) == {} && Tax(frozen, Union(a, s)) == ABOVE && IsBar(a) && IsStone(s, ABOVE)
    requires Disjoint(a, s)
    ensures METAL in Missed(frozen, a, s) && METAL !in Used(frozen, a) && UntimedTops(s) == {}
    ensures NewEdges(frozen, a, s) != {}
  {
    UsedAlone(frozen, a, BARS, BAR, ALLOY);
    WholesBases(frozen, a, s, STONES, STONE, ROCK);
    FlatTops(s, STONES);
    assert (ALLOY, METAL) in NewEdges(frozen, a, s);
    assert METAL in Targets(NewEdges(frozen, a, s));
  }

  // ---- the stores ---------------------------------------------------------------------------------------------------

  lemma StoneThenBar(frozen: set<(Cls, Cls)>, compound: bool, a: Graph, s: Graph) returns (env: Env)
    requires frozen == GROUND + ABOVE && IsStone(a, {}) && IsBar(s) && Disjoint(a, s)
    ensures env.frozen == frozen && GoesStale(env, compound, a, s) && Arrival(frozen, a, s)
    ensures NewEdges(frozen, a, s) == {} && UntimedTops(s) != {}
  {
    assert frozen + (a.sub + s.sub) == frozen && frozen + a.sub == frozen;
    GroundTaxonomy();
    AboveGround();
    GroundPuts(frozen);
    FlatArrives(frozen, a, STONES, s, BARS);
    BarMissed(frozen, a, s);
    env := MissedGoesStale(frozen, compound, a, STONES, s, BARS, METAL);
  }

  lemma BarThenStone(frozen: set<(Cls, Cls)>, compound: bool, a: Graph, s: Graph) returns (env: Env)
    requires frozen == GROUND && IsBar(a) && IsStone(s, ABOVE) && Disjoint(a, s)
    ensures env.frozen == frozen && GoesStale(env, compound, a, s) && Arrival(frozen, a, s)
    ensures UntimedTops(s) == {} && NewEdges(frozen, a, s) != {}
  {
    assert frozen + (a.sub + s.sub) == GROUND + ABOVE && frozen + a.sub == frozen;
    GroundTaxonomy();
    OnGround();
    AboveGround();
    GroundPuts(frozen);
    GroundPuts(GROUND + ABOVE);
    FlatArrives(frozen, a, BARS, s, STONES);
    EdgeMissed(frozen, a, s);
    env := MissedGoesStale(frozen, compound, a, BARS, s, STONES, METAL);
  }

  /** A store of timed stones that serves a view, and an untimed bar: the refresh serves the
      alloy and leaves the metals out, because only the frozen taxonomy leads to them. */
  lemma UntimedTopServedStale(compound: bool) returns (env: Env, a: Graph, s: Graph)
    ensures GoesStale(env, compound, a, s) && Arrival(env.frozen, a, s) && NewEdges(env.frozen, a, s) == {}
    ensures UntimedTops(s) != {}
  {
    a := Stone({});
    s := Bar();
    Beside(s, a, {});
    env := StoneThenBar(GROUND + ABOVE, compound, a, s);
  }

  /** A store of bars that serves a view, and a timed stone whose source also puts alloys below
      metals: the metals have a row in the full derive only. */
  lemma NewEdgeServedStale(compound: bool) returns (env: Env, a: Graph, s: Graph)
    ensures GoesStale(env, compound, a, s) && Arrival(env.frozen, a, s) && UntimedTops(s) == {}
    ensures NewEdges(env.frozen, a, s) != {}
  {
    GroundTaxonomy();
    a := Bar();
    s := Stone(ABOVE);
    Beside(a, s, ABOVE);
    env := BarThenStone(GROUND, compound, a, s);
  }
}
