/** Level inference: an instance's level is the first level class that one of its types
    reaches, top to bottom. */
module Levels {
  import opened Vocabulary
  import opened Closure

  function LevelClass(l: Level): Cls {
    match l
    case Product => Named("Product")
    case Component => Named("Component")
    case Material => Named("Material")
    case Element => Named("Element")
  }

  /** The first of the levels whose class is among `above`. */
  function FirstOf(above: set<Cls>, levels: seq<Level>): Option<Level> {
    if levels == [] then None
    else if LevelClass(levels[0]) in above then Some(levels[0])
    else FirstOf(above, levels[1..])
  }

  /** The level a type gives. */
  function LevelFrom(sup: set<(Cls, Cls)>, c: Cls): Option<Level> {
    FirstOf(Closure.Reach(sup, {c}), LEVELS)
  }

  /** `l` is what the types may give, in whatever order they are read: the level of one of
      them, or none when none of them gives one. */
  ghost predicate Infers(sup: set<(Cls, Cls)>, types: set<Cls>, l: Option<Level>) {
    if l.None? then forall c :: c in types ==> LevelFrom(sup, c).None?
    else exists c :: c in types && LevelFrom(sup, c) == l
  }

  /** `_level_of`: the level of the first type that gives one. */
  method LevelOf(sup: set<(Cls, Cls)>, types: set<Cls>) returns (l: Option<Level>)
    ensures Infers(sup, types, l)
  {
    var todo := types;
    while todo != {}
      invariant todo <= types && forall c :: c in types - todo ==> LevelFrom(sup, c).None?
      decreases todo
    {
      var c :| c in todo;
      l := LevelFrom(sup, c);
      if l.Some? {
        return;
      }
      todo := todo - {c};
    }
    l := None;
  }

  lemma {:induction false} FirstOfSame(a: set<Cls>, b: set<Cls>, levels: seq<Level>)
    requires forall c: Cls :: c.Named? ==> (c in a <==> c in b)
    ensures FirstOf(a, levels) == FirstOf(b, levels)
  {
    if levels != [] {
      assert LevelClass(levels[0]).Named?;
      FirstOfSame(a, b, levels[1..]);
    }
  }

  /** Types that all give one level give it in every order. */
  lemma OneLevel(sup: set<(Cls, Cls)>, types: set<Cls>, l: Option<Level>, m: Level)
    requires Infers(sup, types, l) && types != {} && forall c :: c in types ==> LevelFrom(sup, c) == Some(m)
    ensures l == Some(m)
  {
    var c :| c in types;
  }

  lemma {:induction false} FirstFrom(above: set<Cls>, levels: seq<Level>, i: nat)
    requires i <= |levels| && forall j :: 0 <= j < i ==> LevelClass(levels[j]) !in above
    ensures i < |levels| && LevelClass(levels[i]) in above ==> FirstOf(above, levels) == Some(levels[i])
    ensures i == |levels| ==> FirstOf(above, levels).None?
  {
    if i > 0 {
      FirstFrom(above, levels[1..], i - 1);
    }
  }

  /** A class directly below a level class, with no higher level class above it. */
  lemma LevelIs(sup: set<(Cls, Cls)>, c: Cls, l: Level, up: set<Cls>)
    requires (c, LevelClass(l)) in sup && c in up && Closed(sup, up) && forall m :: Rank(m) < Rank(l) ==>
        LevelClass(m) !in up
    ensures LevelFrom(sup, c) == Some(l)
  {
    var all := Closure.Reach(sup, {c});
    ReachLeast(sup, {c}, up);
    assert LevelClass(l) in Image(sup, all);
    assert FirstOf(all, LEVELS) == Some(l) by {
      assert LEVELS[Rank(l)] == l && forall j :: 0 <= j < Rank(l) ==> Rank(LEVELS[j]) == j;
      FirstFrom(all, LEVELS, Rank(l));
    }
  }

  /** A class with no level class above it. */
  lemma NoLevel(sup: set<(Cls, Cls)>, c: Cls, up: set<Cls>)
    requires c in up && Closed(sup, up) && forall m :: LevelClass(m) !in up
    ensures LevelFrom(sup, c).None?
  {
    ReachLeast(sup, {c}, up);
    FirstFrom(Closure.Reach(sup, {c}), LEVELS, |LEVELS|);
  }
}
