/** Names shared by the builder, the ETL and the benchmark models. */
module Vocabulary {
  datatype Option<+T> = None | Some(value: T)

  datatype Result<+T, +E> = Ok(value: T) | Err(error: E)

  /** The four composition levels, top to bottom. */
  datatype Level = Product | Component | Material | Element

  const LEVELS: seq<Level> := [Product, Component, Material, Element]

  function Rank(l: Level): nat {
    match l
    case Product => 0
    case Component => 1
    case Material => 2
    case Element => 3
  }

  /** A statement between these levels is step-wise; one that skips a level is coarse. */
  predicate Near(a: Level, b: Level) {
    -1 <= Rank(a) - Rank(b) <= 1
  }

  /** The time scope of a class or an instance. A year is the one-year interval. */
  datatype Scope = Year(year: int) | Period(start: int, end: int) {
    function First(): int {
      if Year? then year else start
    }

    function Last(): int {
      if Year? then year else end
    }

    /** `this` lies inside `outer`. */
    predicate Within(outer: Scope) {
      outer.First() <= First() && Last() <= outer.Last()
    }
  }

  /** Class names. The two naming conventions of the slicers (`<base>_Y<scope>` and
      `<value>_<class>`) are constructors, so distinct slices have distinct names. */
  datatype Cls =
    | Named(name: string)
    | Slice(base: Cls, scope: Scope)
    | ValueLeaf(value: Cls, of: Cls)

  /** The four level classes: too generic to aggregate over. */
  const LEVEL_ROOTS: set<Cls> := {Named("Product"), Named("Component"), Named("Material"), Named("Element")}

  /** An instance, by the part of its IRI that follows the instance namespace. */
  datatype Node = Node(tail: string)

  /** Mean data quality and data-quality score of a statement or an amount. */
  datatype Quality = Quality(mean: real, score: int)

  datatype Strategy = YearSliceMean | EqualSubclassMean | DrivetrainMean | OtherStrategy
}
