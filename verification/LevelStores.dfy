/** Levels change the index: a source whose subclass edge changes the level of a class in use, or
    gives one to a class without, leaves the view stale. */
module LevelStores {
  import opened Vocabulary
  import opened Hierarchy
  import opened Levels
  import opened YearSlicer
  import opened YearForm
  import opened StoreIndex
  import opened StoreFrame
  import opened Affected
  import opened LevelLaws
  import opened StoreAdds
  import opened FlatContent
  import opened StaleStores

  /** Nothing above the stone's class: the affected bases hold that class alone. */
  lemma StoneAffects(frozen: set<(Cls, Cls)>, a: Graph, s: Graph, e: (Cls, Cls))
    requires Authored(a) && a.sub == {} && IsStone(s, {e}) && Disjoint(a, s) && Tax(frozen, Union(a, s)) == {}
    requires e.0 != ROCK
    ensures AffectedBases(frozen, Union(a, s), NewWholes(s)) == {ROCK} && Missed(frozen, a, s) == {}
  {
    WholesBases(frozen, a, s, STONES, STONE, ROCK);
    FlatTops(s, STONES);
    assert UntimedTops(s) == {} && NewEdges(frozen, a, s) == {};
    TimedTopsCovered(frozen, a, s);
  }

  /** The ground with an edge to a level class. */
  lemma RaisedGround(sup: set<(Cls, Cls)>, e: (Cls, Cls))
    requires sup == GROUND + {e} && e.1 in LEVEL_ROOTS && e.0.Named?
    ensures Taxonomy(sup) == {} && Timeless({e})
  {
    forall x | x in sup ensures x.1 in LEVEL_ROOTS {
      if x in GROUND {
        GroundEdge(x);
      }
    }
  }

  // ---- a class that changes its level -----------------------------------------------------------------------

  const COMPONENT: Cls := LevelClass(Component)

  const PROMOTED: (Cls, Cls) := (ALLOY, COMPONENT)

  lemma PromotedPuts(sup: set<(Cls, Cls)>)
    requires sup == GROUND + {PROMOTED}
    ensures Puts(sup, BARS + STONES, {ALLOY}) && Taxonomy(sup) == {} && Timeless({PROMOTED})
  {
    assert ALLOY !in LEVEL_ROOTS && COMPONENT in LEVEL_ROOTS && ROCK != ALLOY;
    RaisedGround(sup, PROMOTED);
    assert LevelFrom(sup, ALLOY) == Some(Component) by {
      var up := {ALLOY, MATERIAL, COMPONENT};
      assert LevelClass(Product) !in up by {
        HighLevels(Product);
        assert "Product"[0] != "Component"[0] && "Product"[0] != "Alloy"[0];
      }
      forall e | e in sup && e.0 in up ensures e.1 in up {
        if e in GROUND {
          GroundEdge(e);
        }
      }
      assert (ALLOY, LevelClass(Component)) == PROMOTED;
      LevelIs(sup, ALLOY, Component, up);
    }
    GroundClass(sup, PROMOTED, ROCK);
    GroundClass(sup, PROMOTED, FE);
  }

  lemma BarsApart()
    ensures ALLOY != ROCK && AloneIn(BARS, BAR) && AloneIn(BARS + STONES, BAR) && BAR !in STONES && BARS[BAR].0 == ALLOY
  {
  }

  lemma BarThenPromoted(frozen: set<(Cls, Cls)>, compound: bool, a: Graph, s: Graph) returns (env: Env)
    requires frozen == GROUND && IsBar(a) && IsStone(s, {PROMOTED}) && Disjoint(a, s)
    ensures env.frozen == frozen && GoesStale(env, compound, a, s)
  {
    assert frozen + (a.sub + s.sub) == GROUND + {PROMOTED} && frozen + a.sub == frozen;
    BarsApart();
    GroundTaxonomy();
    OnGround();
    GroundPuts(frozen);
    PromotedPuts(GROUND + {PROMOTED});
    StoneAffects(frozen, a, s, PROMOTED);
    env := EnvFor(frozen, Form(frozen, Union(a, s)));
    LevelGoesStale(env, compound, a, BARS, {}, s, STONES, {ALLOY}, BAR, BAR);
  }

  lemma BarsMove(frozen: set<(Cls, Cls)>, a: Graph, s: Graph)
    requires frozen == GROUND && IsBar(a) && IsStone(s, {PROMOTED}) && Disjoint(a, s)
    ensures Missed(frozen, a, s) == {} && Levelled(frozen, a) && !LevelsStay(frozen, a, s)
  {
    assert frozen + (a.sub + s.sub) == GROUND + {PROMOTED} && frozen + a.sub == frozen;
    BarsApart();
    OnGround();
    GroundPuts(frozen);
    PromotedPuts(GROUND + {PROMOTED});
    StoneAffects(frozen, a, s, PROMOTED);
    FlatLevelled(frozen, a, BARS);
    LevelsMove(frozen, a, BARS, {}, s, STONES, {ALLOY}, BAR);
  }

  /** A store of alloy bars, and a timed stone whose source makes components of alloys: a bar states
      an element, so its statement is no longer step-wise and the alloys' row is gone; the refreshed
      view keeps it. Nothing is missed. */
  lemma LevelChangedServedStale(compound: bool) returns (env: Env, a: Graph, s: Graph)
    ensures GoesStale(env, compound, a, s) && Levelled(env.frozen, a)
    ensures Missed(env.frozen, a, s) == {} && !LevelsStay(env.frozen, a, s)
  {
    PromotedPuts(GROUND + {PROMOTED});
    a := Bar();
    s := Stone({PROMOTED});
    Beside(a, s, {PROMOTED});
    env := BarThenPromoted(GROUND, compound, a, s);
    BarsMove(GROUND, a, s);
  }

  // ---- a class that gets a level ---------------------------------------------------------------------------

  const SLAG: Cls := Named("Slag")
  const LUMP: Node := Node("lumps/lump")
  const DUST: Node := Node("lumps/dust")

  const LUMPS: Lots := map[LUMP := (SLAG, DUST)]
  const PLACED: (Cls, Cls) := (SLAG, MATERIAL)

  lemma PlacedPuts(sup: set<(Cls, Cls)>)
    requires sup == GROUND + {PLACED}
    ensures Puts(GROUND, BARS + LUMPS, {SLAG}) && Puts(sup, BARS + LUMPS + STONES, {})
    ensures Taxonomy(sup) == {} && Timeless({PLACED})
  {
    assert SLAG !in LEVEL_ROOTS && MATERIAL in LEVEL_ROOTS && SLAG != ALLOY && SLAG != ROCK && SLAG != FE;
    RaisedGround(sup, PLACED);
    OnGround();
    assert LevelFrom(GROUND, SLAG).None? by {
      forall m ensures LevelClass(m) !in {SLAG} {
        HighLevels(m);
        assert SLAG !in LEVEL_ROOTS;
      }
      forall e | e in GROUND ensures e.0 != SLAG {
        GroundEdge(e);
      }
      NoLevel(GROUND, SLAG, {SLAG});
    }
    assert LevelFrom(sup, SLAG) == Some(Material) by {
      forall e | e in sup ensures e.0 !in LEVEL_ROOTS && (e.0 == SLAG ==> e.1 == MATERIAL) {
        if e in GROUND {
          GroundEdge(e);
        }
      }
      assert (SLAG, LevelClass(Material)) == PLACED;
      OwnLevel(sup, SLAG, Material);
    }
    GroundClass(sup, PLACED, ALLOY);
    GroundClass(sup, PLACED, ROCK);
    GroundClass(sup, PLACED, FE);
  }

  /** A store of bars and of untimed lumps of slag. */
  ghost predicate BarsAndLumps(a: Graph) {
    Authored(a) && Flat(a, BARS + LUMPS) && a.level.Keys == {BAR, IRON, LUMP, DUST} && a.when == map[] && a.sub == {}
  }

  /** An untimed lump. */
  ghost predicate IsLump(g: Graph) {
    Authored(g) && Flat(g, LUMPS) && g.when == map[] && g.sub == {} && g.level.Keys == {LUMP, DUST}
  }

  lemma Lump() returns (g: Graph)
    ensures IsLump(g)
  {
    g := OneSource(LUMP, SLAG, DUST, map[], {});
    OneFlat(LUMP, SLAG, DUST, map[], {});
  }

  lemma LumpBeside(bar: Graph, lump: Graph)
    requires IsBar(bar) && IsLump(lump)
    ensures Disjoint(bar, lump)
  {
  }

  lemma BarsLumps(bar: Graph, lump: Graph) returns (a: Graph)
    requires IsBar(bar) && IsLump(lump)
    ensures BarsAndLumps(a)
  {
    LumpBeside(bar, lump);
    a := FlatPair(bar, BARS, lump, LUMPS);
  }

  lemma LumpsApart()
    ensures SLAG != ALLOY && SLAG != ROCK && ALLOY != ROCK && AloneIn(BARS + LUMPS, LUMP) && AloneIn(BARS + LUMPS, BAR)
    ensures AloneIn(BARS + LUMPS + STONES, LUMP) && LUMP !in STONES
  {
  }

  lemma LumpsBeside(a: Graph, s: Graph)
    requires BarsAndLumps(a) && IsStone(s, {PLACED})
    ensures Disjoint(a, s)
  {
  }

  lemma LumpsThenPlaced(frozen: set<(Cls, Cls)>, compound: bool, a: Graph, s: Graph) returns (env: Env)
    requires frozen == GROUND && BarsAndLumps(a) && IsStone(s, {PLACED}) && Disjoint(a, s)
    ensures env.frozen == frozen && GoesStale(env, compound, a, s)
  {
    assert frozen + (a.sub + s.sub) == GROUND + {PLACED} && frozen + a.sub == frozen;
    GroundTaxonomy();
    PlacedPuts(GROUND + {PLACED});
    LumpsApart();
    StoneAffects(frozen, a, s, PLACED);
    env := EnvFor(frozen, Form(frozen, Union(a, s)));
    LevelGoesStale(env, compound, a, BARS + LUMPS, {SLAG}, s, STONES, {}, LUMP, BAR);
  }

  lemma LumpsMove(frozen: set<(Cls, Cls)>, a: Graph, s: Graph)
    requires frozen == GROUND && BarsAndLumps(a) && IsStone(s, {PLACED}) && Disjoint(a, s)
    ensures Missed(frozen, a, s) == {} && !Levelled(frozen, a) && !LevelsStay(frozen, a, s)
  {
    assert frozen + (a.sub + s.sub) == GROUND + {PLACED} && frozen + a.sub == frozen;
    PlacedPuts(GROUND + {PLACED});
    LumpsApart();
    StoneAffects(frozen, a, s, PLACED);
    LevelsMove(frozen, a, BARS + LUMPS, {SLAG}, s, STONES, {}, LUMP);
  }

  /** A store of alloy bars and of slag lumps, which no edge places yet, and a timed stone whose
      source makes slag a material: slag has a row in the full derive only. Nothing is missed. */
  lemma LevelGainedServedStale(compound: bool) returns (env: Env, a: Graph, s: Graph)
    ensures GoesStale(env, compound, a, s)
    ensures Missed(env.frozen, a, s) == {} && !Levelled(env.frozen, a) && !LevelsStay(env.frozen, a, s)
  {
    PlacedPuts(GROUND + {PLACED});
    var bar := Bar();
    var lump := Lump();
    a := BarsLumps(bar, lump);
    s := Stone({PLACED});
    LumpsBeside(a, s);
    env := LumpsThenPlaced(GROUND, compound, a, s);
    LumpsMove(GROUND, a, s);
  }
}
