/** A small fleet: two drivetrains that share a motor class, so that the store's graph changes with
    every pass. */
module Fleet {
  import opened Vocabulary
  import opened Closure
  import opened Reach
  import opened YearSlicer
  import opened YearForm
  import opened StoreIndex
  import opened StoreFrame
  import opened ValueSlicer
  import opened Climbing
  import opened Mixing
  import opened Drift
  import opened DriftSlice
  import opened Twice
  import opened Levels

  const ELV: Cls := Named("Elv")
  const BEV: Cls := Named("Bev")
  const DIESEL: Cls := Named("Diesel")
  const MOTOR: Cls := Named("Motor")

  const CAR1: Node := Node("s/car1")
  const CAR2: Node := Node("s/car2")
  const MOTOR1: Node := Node("s/motor1")
  const MOTOR2: Node := Node("s/motor2")

  const PRODUCT: Cls := LevelClass(Product)
  const COMPONENT: Cls := LevelClass(Component)

  /** Where the frozen hierarchy puts the two drivetrains and motors. */
  const BOTH: Classes := {(BEV, ELV), (DIESEL, ELV), (ELV, PRODUCT), (BEV, PRODUCT), (DIESEL, PRODUCT), (MOTOR, COMPONENT)}

  /** A battery car and a diesel car of 2020, each with a motor. */
  ghost predicate IsFleet(g: Graph) {
    && Authored(g)
    && g.types == {(CAR1, BEV), (CAR2, DIESEL), (MOTOR1, MOTOR), (MOTOR2, MOTOR)}
    && g.when.Keys == {CAR1, CAR2, MOTOR1, MOTOR2}
    && g.level == map[CAR1 := Product, CAR2 := Product, MOTOR1 := Component, MOTOR2 := Component]
    && g.parts == map[CAR1 := [Edge(MOTOR1, 0.1, 0.1, 0.1, 0.0)], CAR2 := [Edge(MOTOR2, 0.1, 0.1, 0.1, 0.0)]]
    && g.sub == {} && g.axis == {(BEV, DRIVETRAIN), (DIESEL, DRIVETRAIN)}
  }

  function MakeFleet(t: Scope): Graph {
    EMPTY.(types := {(CAR1, BEV), (CAR2, DIESEL), (MOTOR1, MOTOR), (MOTOR2, MOTOR)},
           when := map[CAR1 := t, CAR2 := t, MOTOR1 := t, MOTOR2 := t],
           level := map[CAR1 := Product, CAR2 := Product, MOTOR1 := Component, MOTOR2 := Component],
           parts := map[CAR1 := [Edge(MOTOR1, 0.1, 0.1, 0.1, 0.0)], CAR2 := [Edge(MOTOR2, 0.1, 0.1, 0.1, 0.0)]],
           depth := map[CAR1 := 1, CAR2 := 1, MOTOR1 := 0, MOTOR2 := 0],
           axis := {(BEV, DRIVETRAIN), (DIESEL, DRIVETRAIN)})
  }

  lemma FleetTyped(g: Graph)
    requires g.types == {(CAR1, BEV), (CAR2, DIESEL), (MOTOR1, MOTOR), (MOTOR2, MOTOR)}
    ensures HasOneType(g, CAR1) && HasOneType(g, CAR2) && HasOneType(g, MOTOR1) && HasOneType(g, MOTOR2)
  {
    assert TypedBy(g, CAR1, BEV) && TypedBy(g, CAR2, DIESEL) && TypedBy(g, MOTOR1, MOTOR) && TypedBy(g, MOTOR2, MOTOR);
  }

  lemma FleetMade(t: Scope)
    ensures IsFleet(MakeFleet(t))
  {
    FleetTyped(MakeFleet(t));
  }

  lemma FleetHolders(g: Graph)
    requires IsFleet(g)
    ensures Holders(g) == {(MOTOR1, CAR1), (MOTOR2, CAR2)}
  {
    assert g.parts[CAR1][0].part == MOTOR1 && g.parts[CAR2][0].part == MOTOR2;
    var e, f := (MOTOR1, CAR1), (MOTOR2, CAR2);
    assert e in Holders(g) && f in Holders(g);
  }

  lemma FleetMap(g: Graph, parent: map<Node, Node>)
    requires IsFleet(g) && IsParentMap(g, parent)
    ensures parent == map[MOTOR1 := CAR1, MOTOR2 := CAR2]
  {
    FleetHolders(g);
    assert (MOTOR1, CAR1) in Holders(g) && (MOTOR2, CAR2) in Holders(g);
    forall n | n in parent ensures (n, parent[n]) in Holders(g) {
    }
  }

  lemma BothEdge(e: (Cls, Cls))
    requires e in BOTH
    ensures e.0 == BEV || e.0 == DIESEL || e.0 == ELV || e.0 == MOTOR
    ensures e.1 == if e.0 == MOTOR then COMPONENT else if e.0 == ELV then PRODUCT else e.1
    ensures e.0 == BEV || e.0 == DIESEL ==> e.1 == ELV || e.1 == PRODUCT
  {
  }

  lemma ClassesApart()
    ensures PRODUCT != BEV && PRODUCT != DIESEL && PRODUCT != ELV && PRODUCT != MOTOR && PRODUCT != COMPONENT
    ensures ELV != BEV && ELV != DIESEL && ELV != MOTOR && BEV != DIESEL && BEV != MOTOR && DIESEL != MOTOR
    ensures COMPONENT != BEV && COMPONENT != DIESEL && COMPONENT != ELV && COMPONENT != MOTOR
    ensures {BEV, DIESEL, ELV, MOTOR} !! LEVEL_ROOTS
  {
  }

  lemma CarUp(car: Cls)
    requires car == BEV || car == DIESEL
    ensures Closed(BOTH, {car, ELV, PRODUCT})
  {
    ClassesApart();
    forall e | e in BOTH && e.0 in {car, ELV, PRODUCT} ensures e.1 in {car, ELV, PRODUCT} {
      BothEdge(e);
    }
  }

  /** Of the two drivetrains a car lies below its own only. */
  lemma CarReach(frozen: Classes, car: Cls, g: Graph)
    requires frozen == BOTH && (car == BEV || car == DIESEL) && g.sub == {}
    ensures Closure.Reach(frozen + g.sub, {car}) * {BEV, DIESEL} == {car}
  {
    assert frozen + g.sub == frozen;
    ClassesApart();
    CarUp(car);
    ReachLeast(frozen, {car}, {car, ELV, PRODUCT});
  }

  lemma FleetValues(g: Graph)
    requires IsFleet(g)
    ensures Values(g, DRIVETRAIN) == {BEV, DIESEL}
    ensures TypesAt(g, CAR1) == {BEV} && TypesAt(g, CAR2) == {DIESEL}
  {
    assert (BEV, DRIVETRAIN) in g.axis && (DIESEL, DRIVETRAIN) in g.axis;
    assert (CAR1, BEV) in g.types && (CAR2, DIESEL) in g.types;
  }

  lemma FleetSpans(frozen: Classes, g: Graph, parent: map<Node, Node>)
    requires frozen == BOTH && IsFleet(g) && IsParentMap(g, parent)
    ensures RootValues(frozen, g, parent, CAR1) == RootValues(frozen, g, parent, MOTOR1) == {BEV}
    ensures RootValues(frozen, g, parent, CAR2) == RootValues(frozen, g, parent, MOTOR2) == {DIESEL}
  {
    FleetMap(g, parent);
    FleetValues(g);
    CarReach(frozen, BEV, g);
    CarReach(frozen, DIESEL, g);
    assert RootOf(parent, CAR1, {}) == CAR1 && RootOf(parent, CAR2, {}) == CAR2;
    assert RootOf(parent, CAR1, {MOTOR1}) == CAR1 && RootOf(parent, CAR2, {MOTOR2}) == CAR2;
    assert {} + {MOTOR1} == {MOTOR1} && {} + {MOTOR2} == {MOTOR2};
    assert RootOf(parent, MOTOR1, {}) == CAR1 && RootOf(parent, MOTOR2, {}) == CAR2;
  }

  /** The motors have one class and two drivetrains; the cars differ in their class. */
  lemma FleetMixed(frozen: Classes, g: Graph, parent: map<Node, Node>)
    requires frozen == BOTH && IsFleet(g) && IsParentMap(g, parent)
    ensures Mixed(frozen, g, parent, MOTOR1)
  {
    FleetSpans(frozen, g, parent);
    assert (MOTOR1, MOTOR) in g.types && (MOTOR2, MOTOR) in g.types;
    assert SameClass(g, MOTOR1, MOTOR2);
    assert DIESEL in {DIESEL} && DIESEL !in {BEV};
    assert Differs(frozen, g, parent, MOTOR1, MOTOR2);
  }

  lemma FleetFixed(g: Graph)
    requires IsFleet(g)
    ensures Fixed(g) == {CAR1, CAR2}
  {
    assert g.parts[CAR1][0].part == MOTOR1 && g.parts[CAR2][0].part == MOTOR2;
    assert PartsOf(g.parts) == {MOTOR1, MOTOR2};
  }

  lemma FleetSteady(frozen: Classes, g: Graph)
    requires frozen == BOTH && IsFleet(g)
    ensures Steady(frozen, g)
  {
    FleetFixed(g);
    forall parent, n | IsParentMap(g, parent) && n in Fixed(g) ensures !Mixed(frozen, g, parent, n) {
    }
  }

  // ---- the levels ---------------------------------------------------------------------------------

  lemma CarLevel(car: Cls)
    requires car == BEV || car == DIESEL
    ensures LevelFrom(BOTH, car) == Some(Product)
  {
    CarUp(car);
    assert (car, LevelClass(Product)) in BOTH;
    LevelIs(BOTH, car, Product, {car, ELV, PRODUCT});
  }

  lemma FleetLevelled(frozen: Classes, g: Graph)
    requires frozen == BOTH && IsFleet(g)
    ensures Levelled(frozen, g)
  {
    assert frozen + g.sub == BOTH;
    CarLevel(BEV);
    CarLevel(DIESEL);
    assert LevelFrom(BOTH, MOTOR) == Some(Component) by {
      ClassesApart();
      forall e | e in BOTH && e.0 in {MOTOR, COMPONENT} ensures e.1 in {MOTOR, COMPONENT} {
        BothEdge(e);
      }
      assert (MOTOR, LevelClass(Component)) in BOTH;
      assert forall m :: Rank(m) < Rank(Component) ==> m == Product;
      LevelIs(BOTH, MOTOR, Component, {MOTOR, COMPONENT});
    }
    assert LevelGiven(BOTH, g, CAR1) && LevelGiven(BOTH, g, CAR2) && LevelGiven(BOTH, g, MOTOR1)
        && LevelGiven(BOTH, g, MOTOR2);
  }

  // ---- every pass changes the graph -----------------------------------------------------------------

  /** No pass of the run leaves the graph as it was. */
  ghost predicate Changes(run: seq<Graph>) {
    forall i :: 0 <= i < |run| - 1 ==> run[i + 1] != run[i]
  }

  /** However often it is finalised, each time the store's graph is another one. */
  ghost predicate Restless(frozen: Classes, a: Graph) {
    forall run {:trigger IsRun(frozen, run)} :: IsRun(frozen, run) && run != [] && Finalises(frozen, a, run[0]) ==>
        Changes(run)
  }

  /** Two drivetrains sharing a motor class: every pass changes the store's graph, and it serves the
      same rows all the same. */
  lemma MotorsDrift(t: Scope) returns (frozen: Classes, a: Graph)
    ensures Authored(a) && Timeless(frozen) && Levelled(frozen, a) && Steady(frozen, a) && Restless(frozen, a)
  {
    frozen, a := BOTH, MakeFleet(t);
    FleetMade(t);
    FleetLevelled(frozen, a);
    FleetSteady(frozen, a);
    assert SomeMixed(frozen, a) by {
      forall parent | IsParentMap(a, parent) ensures exists n :: Mixed(frozen, a, parent, n) {
        FleetMixed(frozen, a, parent);
      }
    }
    assert Restless(frozen, a) by {
      forall run | IsRun(frozen, run) && run != [] && Finalises(frozen, a, run[0]) ensures Changes(run) {
        forall i | 0 <= i < |run| - 1 ensures run[i + 1] != run[i] {
          NeverSettles(frozen, a, run, i);
        }
      }
    }
  }
}
