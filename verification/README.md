# Verified model of the composition store, its aggregation engine and its harness

This directory models, in Dafny 4.11, how material-composition statements become served
class rows, and proves what the code and its documentation promise about that. It is
self-contained: `dafny verify dfyconfig.toml` checks everything.

The system pools composition statements (a whole holds a fraction of a part) from many
sources into one graph. A year slicer gives every time-stamped instance a yearly class and
copies the taxonomy above it at that year; a value slicer splits shared classes by
drivetrain. An index is read off the graph, an engine computes class rows bottom-up, and a
store keeps the served view current by re-deriving only the rows a new source can affect.
Around this sit the document-side slicing and material canonicalisation of the ETL, and a
benchmark harness that questions a language model about the data.

## How the files fit together

- `Vocabulary`, `Closure`, `Hierarchy`, `Sums`: names, least reachability, the superclass
  walk, weighted sums and variances.
- `Reach`, `ReachMemo`, `TermMemo`, `QualityMemo`, `MassBalance`: element reach over the
  composition DAG as path sums; the three memoised walks are classes proved against the path
  enumeration.
- `Rollup`, `RowRollup`, `RowLaws`: the gated fixpoint over the class tree as one schedule
  of steps no number enters, the three row computations over it, and their laws.
- `Aggregate`, `EngineLaws`, `QualityLaws`, `HeldElements`: the three whole tables, computed
  over the walks, and what they mean end to end.
- `YearSlicer`, `YearForm`: the slicer's loops, and its closed form, which makes slicing a
  closure operator.
- `Climbing`, `ValueSlicer`, `ValueLaws`: the rewriting slicer and what it keeps.
- `StoreIndex`, `Levels`, `LevelLaws`: the index read off a graph, with its inferred levels,
  and what slicing and adding do to them.
- `Frame`, `TableFrame`, `LeafFrame`, `StoreFrame`, `Affected`, `ServedView`: why refreshing
  the affected rows equals a full derive, and exactly when the affected set suffices.
- `Mixing`, `Drift`, `DriftSlice`, `DriftView`: which instances the value slicer moves, and
  why moving parts, on every run again, changes no row. `Twice`, `Fleet`: when finalisation is
  idempotent, and a fleet for which it never is.
- `Drivetrains`, `MovedRoots`, `MixedRoots`, `MixedStale`, `StoreAdds`: sources that mix roots
  or elements, and exactly when refreshing suffices for them.
- `StaleView`, `FlatContent`, `StaleStores`, `LevelStores`, `PackStore`: what goes stale
  otherwise, and five stores that serve a view and go stale.
- `Namespaces`, `Store`: instance namespaces, and the store itself, for every run of sources.
- `DocSlices`: the document-side twin of the year slicer.
- `Canonicalize`, `CanonicalLaws`, `CanonicalRun`: one composition per material class.
- `Unknowns`: planning the unknown chains.
- `Reprompt`, `Agent`: the re-prompt cascade and the attempt loop.
- `PredicateWalker`: the query guard's token walker and the printer it inverts.

## Modelling choices

- Fractions are `real` and `round` is the identity. Relative uncertainties are carried
  squared, so no square root is needed.
- `sorted(s)` is the filter of one fixed name order; every theorem holds for every order.
- Class names are a datatype with one constructor per naming convention, so distinct
  slices and leaves have distinct names. An instance is the tail of its IRI, a string that
  namespacing prefixes.
- The source's recursive walks have no cycle guard; a depth per node says the composition
  DAG is acyclic. The class hierarchy may have cycles.
- A composition graph is a record of relations. A part relation is identified by its
  namespaced whole, so the statements of a source with fresh instances are all new. In the code
  a relation is a node of its own and is new only if its IRI is (src/builder/store.py:203-224).
  The ETL names it by a hash and namespacing leaves that name alone
  (src/etl/composition_rdf.py:206); a blank relation is named by a hash of the local names and
  the quantities (src/builder/relation_identity.py:46-66).
- Contained-in triples (`hasComposition`) are never asserted by the store, so the containers
  branch of the affected query is empty.
- The served view is a map from class to its three rows, for the classes with element
  content; projection is per class.
- A strategy declared on a graph class never reaches the gate, because the gate asks for a
  strategy only after it has found the class untimed; only the frozen hierarchy's
  strategies are modelled.
- The clock, the chat model, the tools and the scorer are parameters of the harness.

## Where the code does less than its documentation says

- `add_source` promises the full derive, value for value. What a caller has to check before
  the call on authored content is `Store.AddableIff`; what it says of levels, of missed classes
  and of drivetrains fails separately, as follows. Every failing store named here is shown stale
  for all ways to finalise and index it, with a view before the add, both derives answered, and
  element content in the row concerned (`StoreAdds.GoesStale`, `StoreAdds.StaleHappens`). Class
  by class, a refreshed row is wrong exactly when the class is not affected, can change at all,
  and has another row in the full derive than it had before (`StoreAdds.StaleRow`).
- Two things are to be checked besides. The namespaces of the sources must not meet, as below.
  And the relation nodes of the source must be new: the same document added under two ids, or
  two sources with equal local names and quantities, share relation IRIs although their
  instances are disjoint, so that `after - before` is empty, nothing is affected, and the view is
  left as it was. That case lies outside this model, in which relations are told apart by their
  wholes.
- Levels are inferred from the subclass edges of the merged graph, Product first, while the
  affected set never looks at edges into a level class. No class in use may change its inferred
  level (`LevelLaws.LevelledUnionIff`). `LevelStores.LevelChangedServedStale` and
  `LevelStores.LevelGainedServedStale` miss nothing and go stale.
- The affected set follows the store's own edges, while the engine also reads the frozen
  taxonomy, so what is missed are the classes that only the frozen taxonomy leads to, above an
  untimed new top or above a new taxonomy edge (`Affected.Missed`, `Affected.CoveredIff`). For
  missed classes the store did not use before, the view is stale exactly then
  (`StaleView.IncrementalIffNothingMissed`; `StaleStores.UntimedTopServedStale` and
  `StaleStores.NewEdgeServedStale`).
- Value slicing moves instances of a class that two drivetrains share. As long as only parts
  are moved, no row changes and the refreshed view is the full derive
  (`DriftView.SameView`). A source that mixes roots, or elements that roots reach, is refreshed
  correctly when the affected bases hold everything above those roots (`StoreAdds.AddIsFull`,
  `Store.CompositionStore.AddSource`); where the affected bases are closed under the taxonomy,
  exactly when they hold the classes of the old ones among them (`StoreAdds.AddIff`).
  `PackStore.PackServedStale` is a battery pack that a diesel car's source mixes.
- Finalisation is documented as idempotent. It is exactly when no two timed instances of a
  class differ in their drivetrain (`Twice.IdempotentIffUnmixed`): otherwise the next year
  slicing gives a moved instance its year slice back and the value slicer moves it again, on
  every pass of every run (`Twice.NeverSettles`). `Fleet.MotorsDrift` is a fleet of two cars
  that never settles.
- `add_source` replaces `/` in source ids by `_`, `merge_sources` does not. Ids that differ
  only in that collide in the first, and ids that continue each other after a slash can
  collide in the second (`Namespaces.SanitisedMeetIff`, `Namespaces.MeetIffNested`,
  `Namespaces.EntryPointsDisagree`). The corpus loader gives ids without a slash, for which
  both are safe (`Namespaces.SlashFreeApart`).
- `canonicalize_doc` sums the statements a material has of one element and then writes the
  group's mean into each of them, so the material measures that mean as often as it states
  the element (`CanonicalLaws.MeasuresWeighted`). Its normal form holds exactly when
  materials of a class state each element equally often (`CanonicalLaws.NormalFormIff`), and
  it is idempotent exactly when no element of non-zero fraction is stated twice
  (`CanonicalLaws.IdempotentIff`). `CanonicalLaws.TwiceStatedDoubles` gives an ore of 0.6 iron
  that comes out with 1.2.
- The predicate walker takes the first verb after a blank-node subject for an object
  (`PredicateWalker.SubjectNodeLosesVerb`); `PredicateWalker.WalkInvertsPrint` says exactly
  when that matters.
- A planned unknown chain skips levels for an upward coarse statement without a known path
  (`Unknowns.ChainSkipsIff`; `Unknowns.ChainSkips` is one).

## Model

| member | source | states |
|---|---|---|
| `Hierarchy.AncestorsOf` | src/builder/index.py:489-507 | the stack walk returns exactly the classes reachable over superclass edges that do not enter a level root, minus the roots |
| `Closure.ReachLeast` | src/builder/index.py:489-507 | reachability is the least closed set around its start |
| `Rollup.GateIsFilter` | src/builder/aggregate.py:601-618 | the gate admits candidates one by one: a refused parent gets none, an open one the direct subclasses that pass on their own |
| `Rollup.ScheduleStable` | src/builder/aggregate.py:665-692 | the bound of one more round than there are ancestors never cuts the rollup short: any larger bound gives the same result |
| `Rollup.Saturated` | src/builder/aggregate.py:665-692 | on exit every ancestor has a row, was refused by the gate, or has no admitted direct subclass with a row |
| `Rollup.ComputedIsLeastFixpoint` | src/builder/aggregate.py:654-692 | the classes that get a row are exactly those a leaf class reaches through gated edges |
| `Rollup.NameOrderIrrelevant` | src/builder/aggregate.py:667-669 | which classes get a row does not depend on the name order, although the rows may |
| `Rollup.SweepRemaining` | src/builder/aggregate.py:664-690 | sweeping the shrinking set of remaining classes is sweeping all ancestors |
| `RowRollup.RollUpAmounts` | src/builder/aggregate.py:654-693 | the amount loop computes the rows of the shared schedule, with one row per scheduled class |
| `RowRollup.RollUpUncertainty` | src/builder/aggregate.py:332-384 | the uncertainty loop follows the same schedule of parents and gated subclasses |
| `RowRollup.RollUpQuality` | src/builder/aggregate.py:506-557 | the data-quality loop follows the same schedule of parents and gated subclasses |
| `RowLaws.DrawnTimeNested` | src/builder/aggregate.py:601-618 | a timed class draws, through any number of steps, only on leaf classes whose time lies inside its own, when all ancestors are above Products or Components |
| `RowLaws.AmountInHull` | src/builder/aggregate.py:681-688 | every ancestor amount lies between the least and greatest leaf amount of that element below it, and some leaf below has the element |
| `RowLaws.AmountPositive` | src/builder/aggregate.py:649-652 | no reported amount is zero or negative |
| `RowLaws.UncertaintyNeverGrows` | src/builder/aggregate.py:332-384 | every rolled-up relative uncertainty is at most the largest among the leaf classes it draws on, at every height |
| `RowLaws.QualityInHull` | src/builder/aggregate.py:427-439 | rolled-up mean quality stays in the hull of the leaf means below, and the score is the score of some leaf class below |
| `QualityLaws.ScoreIsMax` | src/builder/aggregate.py:525-552 | a class has a score for every element that a leaf class it draws on has one for, and no such leaf class has a higher one |
| `Reach.AllPathsExact` | src/builder/aggregate.py:44-73 | the path enumeration lists every non-empty path to the Element node exactly once |
| `Reach.ReachOfIsPathSum` | src/builder/aggregate.py:44-73 | the bottom-up reach is the sum over all non-empty paths of the product of edge fractions |
| `Reach.ReachBracketed` | src/builder/aggregate.py:44-73 | edges with 0 <= lo <= best <= hi give reaches with lo <= best <= hi |
| `ReachMemo.ReachWalk.Vec` | src/builder/aggregate.py:55-66 | a memoised visit returns the node's reach vector and keeps every memo entry right |
| `ReachMemo.ReachWalk.Run` | src/builder/aggregate.py:44-73 | after the pass the memo holds, for every node, exactly the Element nodes some path reaches with their path sums |
| `TermMemo.TermWalk.Vec` | src/builder/aggregate.py:131-155 | a memoised visit returns one term per path, in walk order, and keeps every memo entry right |
| `TermMemo.TermWalk.Run` | src/builder/aggregate.py:120-160 | after the pass the memo holds, for every node, one term per path to each Element node |
| `TermMemo.TermsSumToReach` | src/builder/aggregate.py:120-160 | the uncertainty terms' values sum to the very reach they annotate |
| `TermMemo.CompoundingNeverLowers` | src/builder/aggregate.py:120-160 | compounding along paths keeps every value and never lowers the variance |
| `MassBalance.ReachConserved` | src/builder/aggregate.py:44-73 | with non-negative fractions summing to at most 1 the element reach of a node is at most what its edges attribute |
| `MassBalance.ContentConserved` | src/builder/aggregate.py:44-73 | every node's element content sums to at most 1 |
| `MassBalance.ReachComplete` | src/builder/aggregate.py:44-73 | full attribution below gives exactly the attributed fraction |
| `MassBalance.ContentComplete` | src/builder/aggregate.py:44-73 | full attribution below gives content exactly 1 |
| `Aggregate.Lockstep` | src/builder/aggregate.py:343-384 | the three tables have rows for the same classes, whatever the numbers |
| `Aggregate.ElementInWhole` | src/builder/aggregate.py:96-106 | the memoised reaches of an instance, summed over an element class, are its total reach |
| `Aggregate.LeafMeans` | src/builder/aggregate.py:641-652 | a leaf row holds the equal mean over the class's top instances of every element class, where positive |
| `Aggregate.LeafSpread` | src/builder/aggregate.py:309-330 | a leaf row holds the pooled relative uncertainty of the memoised path terms, each shared over the instances |
| `Aggregate.Run` | src/builder/aggregate.py:622-693 | the whole amount table, or the error with the untimed Product and Component leaf classes |
| `Aggregate.RunUncertainty` | src/builder/aggregate.py:288-384 | the whole relative-uncertainty table over the same index |
| `QualityMemo.QualityWalk.Vec` | src/builder/aggregate.py:401-419 | a memoised visit returns one mark per path that ends with a scored edge, in walk order, and keeps every memo entry right |
| `QualityMemo.QualityWalk.Run` | src/builder/aggregate.py:390-424 | after the pass the memo holds, for every node, the marks of its scored paths to each Element node |
| `QualityMemo.MarksFold` | src/builder/aggregate.py:427-439 | pooling the walk's marks pools the scored paths, each with its own value and last edge's quality |
| `QualityMemo.RunQuality` | src/builder/aggregate.py:463-557 | the whole data-quality table over the same index, computed from the walk's memo |
| `EngineLaws.LeafUncertaintyWithin` | src/builder/aggregate.py:274-330 | a leaf class's pooled relative uncertainty is at most that of its worst composition path |
| `EngineLaws.TableUncertaintyWithin` | src/builder/aggregate.py:288-384 | averaging never increases relative uncertainty: every class of the table is within the worst composition path below it |
| `EngineLaws.CompoundingNeverLowersLeaf` | src/builder/aggregate.py:120-160 | compounding keeps a leaf row's element classes and never lowers an entry |
| `EngineLaws.TableQualityWithin` | src/builder/aggregate.py:427-557 | every mean quality of the table stays in the hull of the path means below and no score exceeds their worst |
| `QualityLaws.QualityHasAmount` | src/builder/aggregate.py:463-500 | a leaf class with a quality for an element reports an amount of it, so the roll-up weighs every leaf score |
| `QualityLaws.TableScoreIsMax` | src/builder/aggregate.py:463-557 | at every height of the table the score is at least that of each leaf class drawn on |
| `QualityLaws.TableScoreCoversPaths` | src/builder/aggregate.py:390-557 | and at least that of each scored composition path, carrying mass, of each instance below |
| `EngineLaws.TableTimeNested` | src/builder/aggregate.py:601-692 | with Product and Component tops only, a timed class draws only on leaf classes inside its time |
| `EngineLaws.LeafMassConserved` | src/builder/aggregate.py:641-652 | a leaf class's element amounts sum to between 0 and 1 |
| `EngineLaws.LeafMassComplete` | src/builder/aggregate.py:641-652 | and to exactly 1 when everything below its instances is fully attributed |
| `YearSlicer.WalkUp` | src/builder/slicer.py:228-246 | the stack walk emits exactly the slice edges and ancestor slices of everything above the base |
| `YearSlicer.MintLeaves` | src/builder/slicer.py:168-193 | one leaf slice per timed instance and non-root class that is not a year slice already |
| `YearSlicer.Derive` | src/builder/slicer.py:149-247 | the loops derive exactly the leaf slices and, over graph and leaves, the ancestor slices |
| `YearForm.FinaliseIncoming` | src/builder/slicer.py:149-247 | slicing a sliced store plus a new source gives the same graph as slicing all authored content at once |
| `YearForm.FinaliseIdempotent` | src/builder/slicer.py:142-147 | a second derive adds no triple |
| `YearForm.InstanceEntailed` | src/builder/slicer.py:193 | a timed instance is entailed into the slice of every class above its own |
| `YearForm.SliceClosure` | src/builder/slicer.py:228-246 | whatever is closed under the store's own edges and holds a leaf slice holds every class above it and that class's slice |
| `ValueSlicer.ParentMap` | src/builder/slicer.py:278-289 | every part gets one of its wholes, whichever comes last |
| `Climbing.Climb` | src/builder/slicer.py:291-296 | the climb ends at the start or above it, at an instance without a whole or on a cycle |
| `DriftSlice.RootIsNoPart` | src/builder/slicer.py:291-296 | in an acyclic graph the climb from an instance ends at an instance of the graph that is no part |
| `ValueSlicer.IndexShared` | src/builder/slicer.py:272-331 | exactly the bases whose slices' instances span two values are shared |
| `ValueSlicer.Apply` | src/builder/slicer.py:369-389 | the graph with each single-valued instance of a shared base moved to its value's leaf, for the part-of map it read |
| `ValueLaws.OnlyReplaced` | src/builder/slicer.py:369-389 | a type triple goes exactly when its instance has one value and its class slices a shared base |
| `ValueLaws.LandsInLeaf` | src/builder/slicer.py:346-359 | the moved instance lands in the leaf of its one value, which is a subclass and a slice of its old class |
| `ValueLaws.MembersExact` | src/builder/slicer.py:346-389 | every instance is entailed into exactly the classes it was in before plus its own value leaves |
| `ValueLaws.OneValueNothingShared` | src/builder/slicer.py:329-331 | with at most one axis value nothing is shared |
| `Mixing.MovedIffMixed` | src/builder/slicer.py:272-389 | finalising content moves an instance exactly when it is timed, lies below one drivetrain, and a timed instance of its class lies below another |
| `Drift.FinaliseDrifts` | src/builder/derive.py:63-77 | year-slicing a drifted store with a new source gives the finalised form of everything again, but for value leaves, and every instance its year slice back |
| `DriftSlice.SliceFaithful` | src/builder/slicer.py:369-389 | value slicing leaves roots and elements alone when none of them is mixed, however far the parts have drifted |
| `DriftView.SameView` | src/builder/derive.py:93-97 | the rows of such a drifted store are the rows of its authored content, whichever index is read off it |
| `Twice.IdempotentIffUnmixed` | src/builder/derive.py:63-77 | the claimed idempotence of finalisation, both slicers run twice and the part-of map read again: it holds exactly when no timed instance of one drivetrain shares its class with a timed instance of another, under either pass's part-of map |
| `Twice.PassChanges` | src/builder/derive.py:63-77 | while its roots and elements keep their classes, a pass over a store with a mixed instance always changes the graph, however often it was finalised before |
| `Twice.NeverSettles` | src/builder/derive.py:63-77 | in every run of passes over content with a mixed part and no mixed root or element each pass gives another graph than the one before |
| `Fleet.MotorsDrift` | src/builder/derive.py:63-77 | a battery car and a diesel car with a motor each, all levelled: no pass of any run leaves the graph as it was, although no root is mixed |
| `StoreIndex.PickLeafClass` | src/builder/index.py:105-114 | a most specific type if there is one, else any type, none for no types |
| `StoreIndex.BuildIndex` | src/builder/index.py:322-485 | an error exactly when a class has two scopes, else an index with inferred levels, without the instances that get none and the statements that skip a level, that makes one of the choices of class the graph leaves |
| `Levels.LevelOf` | src/builder/index.py:97-102 | the level of the first type that lies below a level class |
| `LevelLaws.LevelsInDrift` | src/builder/index.py:97-102 | however often content is sliced, the index reads the level each instance's authored class gives, whichever of its classes is read first, and leaves out an instance whose class gives none |
| `LevelLaws.IndexAsAuthored` | src/builder/index.py:455-468 | every index of a store of levelled content has its levels and all its statements |
| `LevelLaws.LevelledUnionIff` | src/builder/index.py:97-102 | with a source in it levelled content stays levelled exactly when no class in use changes its level and the source is levelled beside the store |
| `StoreIndex.FormUnambiguous` | src/builder/index.py:338-392 | a finalised graph gives every instance one most specific class and every class one time scope, so no conflict error arises |
| `StoreIndex.LeafClassOfForm` | src/builder/index.py:105-114 | an instance aggregates under its year slice if it has a time, else under its class |
| `StoreIndex.TimeOfForm` | src/builder/index.py:373-397 | the time registry holds exactly the lifted slices, each a slice of its own base at its own scope |
| `Frame.ScheduleOutside` | src/builder/aggregate.py:654-693 | two hierarchies that differ only inside a shielded set compute the same classes outside it, in the same order, from the same subclasses |
| `LeafFrame.TablesAgree` | src/builder/aggregate.py:622-693 | two indexes that differ only inside a shielded set, and in the classes of elements that no instance outside it reaches, give the same three rows for every class outside it |
| `StoreFrame.KnownAncestors` | src/builder/index.py:489-507 | a class in use keeps its ancestors when a source is added, and gains only slices of classes the source's new edges raise |
| `StoreFrame.SameGate` | src/builder/aggregate.py:601-618 | between classes in use, below an ancestor the source does not raise, the gate decides as before |
| `StoreFrame.RefusedIff` | src/builder/aggregate.py:586-598 | the derive is refused exactly when a Product or Component top instance has no time |
| `StoreFrame.ArrivalFramed` | src/builder/store.py:203-241 | when the levels stand and no derive is refused a source changes the index only inside the touched classes: above its tops and above its new edges |
| `Affected.AffectedClasses` | src/builder/store.py:78-135 | the upward query and the descending loop give the closure of the new wholes' types over store edges, then down to slices with an axis |
| `Affected.TimedFound` | src/builder/store.py:78-135 | everything the timed new instances roll up into, through store and frozen taxonomy, is found by the upward query over store edges alone |
| `Affected.AffectedClosedForm` | src/builder/store.py:78-135 | on a finalised graph the two queries find, in authored terms, the bases above the changed classes and every slice of them |
| `Affected.CoveredIff` | src/builder/store.py:78-135 | of a source that changes no level in use, the affected set holds every class it can change exactly when nothing is missed: no class above an untimed new top or a new edge that only the frozen taxonomy leads to |
| `ServedView.Refresh` | src/builder/store.py:178-200 | affected rows are dropped and replaced, all others kept |
| `ServedView.DeriveGraph` | src/builder/derive.py:18-34 | the derive of any acyclic graph with one scope per class answers with the view of one of its indexes, or with its untimed classes |
| `ServedView.ServedClasses` | src/builder/resolver/context.py:213-216 | only computed classes with element content are served, and all of them when every leaf class has some |
| `HeldElements.HeldInRow` | src/builder/aggregate.py:641-652 | with positive amounts a leaf row reports every element one of its top instances reaches |
| `DriftView.DeriveView` | src/builder/derive.py:93-97 | the full derive of whatever the store's graph has drifted to is the full derive of the authored content: its view, or the untimed classes |
| `ServedView.IncrementalIsFull` | src/builder/store.py:203-249 | when no level in use changes and nothing is missed, replacing the affected rows of the old view by re-derived ones gives the full derive of the enlarged store |
| `StaleView.MissedIsServed` | src/builder/aggregate.py:654-692 | a missed class, or a slice of it, is computed in the full derive and is not in the affected set, however the store's parts have drifted |
| `StaleView.IncrementalIffNothingMissed` | src/builder/store.py:203-249 | for every graph, index and part-of map of a steady store, and sources whose missed classes were not in use, the refreshed view is the full derive exactly when nothing is missed |
| `StaleStores.UntimedTopServedStale` | src/builder/store.py:203-249 | a store of timed stones that serves a view, and an untimed bar: however finalised and indexed, the refreshed view lacks a row of the full derive |
| `StaleStores.NewEdgeServedStale` | src/builder/store.py:203-249 | a store of bars that serves a view, and a timed stone whose source puts alloys below metals: the refreshed view lacks the metals |
| `LevelStores.LevelChangedServedStale` | src/builder/index.py:97-102 | a store of alloy bars, and a source that makes components of alloys: nothing is missed, the bars' statements now skip a level, and the refreshed view keeps a row the full derive has not |
| `LevelStores.LevelGainedServedStale` | src/builder/index.py:97-102 | a store with slag that no edge places, and a source that makes it a material: nothing is missed and slag has a row in the full derive only |
| `StoreAdds.StaleHappens` | src/builder/store.py:203-249 | every store said to go stale can be finalised, indexed and refreshed, and then is stale |
| `Drivetrains.AffectedRoots` | src/builder/store.py:78-135 | on a store drifted by value leaves the two queries find only classes sliced or grown from affected bases |
| `Drivetrains.MovedClass` | src/builder/index.py:105-114 | a moved instance aggregates under its value leaf |
| `MovedRoots.ShiftedFramed` | src/builder/aggregate.py:654-693 | two indexes whose tops differ only within classes of some bases agree on every class outside those bases |
| `MixedRoots.PassShifted` | src/builder/slicer.py:369-389 | a drivetrain pass over a faithful store moves exactly the mixed roots and elements, so the index changes only within the classes above the roots that are mixed or hold a mixed element |
| `MixedRoots.RootsSplice` | src/builder/store.py:109-134 | refreshing gives the full derive even when roots or elements are mixed, as long as the affected bases hold everything above the roots that are mixed or hold one |
| `MixedStale.PassTimed` | src/builder/aggregate.py:586-598 | the derive after any drivetrain pass is refused exactly when a Product or Component top has no time |
| `StoreAdds.AddIsFull` | src/builder/store.py:109-134 | the same for every graph, index and part-of map of a store: the refreshed view is the full derive when the affected bases hold everything above the stirred roots |
| `StoreAdds.AddIff` | src/builder/store.py:109-134 | where the affected bases are closed under the taxonomy it is the full derive exactly when they hold the class of every old root that is mixed or holds a mixed element |
| `StoreAdds.StaleRow` | src/builder/store.py:203-249 | class by class, for every levelled source, whatever it misses or mixes: the refreshed row differs from the full one exactly when the class is not affected, lies among the touched classes or over a stirred root, and has different rows in the two derives |
| `StoreAdds.TimedWholesClosed` | src/builder/store.py:78-135 | they are closed when every whole of the source carries a time and no edge leaves a level class |
| `StaleView.MixedGoesStale` | src/builder/store.py:109-134 | a source that mixes an old root whose class the affected bases do not hold leaves the view stale |
| `PackStore.PackServedStale` | src/builder/store.py:109-134 | a battery pack with its cell, foil and copper, then a diesel car with a pack: nothing is missed and nothing was mixed, and the refreshed view lacks the old pack's new row |
| `ServedView.UntimedStays` | src/builder/aggregate.py:586-598 | a leaf class refused for lack of a time stays refused whatever is added |
| `Store.FinaliseStore` | src/builder/derive.py:63-77 | the year slicer's triples folded in, then the drivetrain slicer applied |
| `Store.AddableIff` | src/builder/store.py:203-241 | what an add needs for the store to go on as authored, checkable before the call: fresh instances, no level in use changed, the source levelled beside the store, nothing missed, and no root or element mixed by drivetrain |
| `Store.AnsweredIs` | src/builder/derive.py:93-97 | what it is that a derive of a graph answers |
| `ServedView.DerivesIs` | src/builder/derive.py:93-97 | what it is that a full derive of authored content answers: its view, or its untimed classes |
| `Store.CompositionStore.constructor` | src/builder/store.py:30-32 | an empty store holds nothing and has no view |
| `Store.CompositionStore.AddSource` | src/builder/store.py:203-249 | the graph is what finalising the union gives, and answer and view are a full derive of it, for every source that changes no level in use, misses nothing and whose stirred roots the affected set finds; if it mixes no root or element they are the full derive of everything added; a refused derive leaves the view as it was |
| `Store.AddSources` | src/builder/store.py:252-271 | any run of adds that mix no root or element ends with the full derive of all sources, or with an error only if that is refused too |
| `Store.DeriveAll` | src/builder/derive.py:80-97 | pooling, finalising and deriving once gives the same rows, or the same refusal, as the run of adds |
| `Store.EveryRunDrifts` | src/builder/store.py:203-249 | after any run of adds, whatever the sources mix, miss or change of the levels, the graph is the finalised form of everything added but for value leaves |
| `Store.RefusedIs` | src/builder/aggregate.py:586-598 | a derive is refused exactly when a Product or Component top carries no time |
| `Store.RefusedToTheEnd` | src/builder/store.py:252-271 | once a derive is refused every longer run is refused |
| `Namespaces.MeetIffNested` | src/builder/derive.py:37-60 | two ids give some instances one IRI exactly when they are equal or one continues the other after a slash |
| `Namespaces.SanitisedMeetIff` | src/builder/store.py:216 | under `add_source` two ids share a namespace exactly when they differ at most in slashes against underscores |
| `Namespaces.SlashFreeApart` | src/etl/corpus.py:36 | ids without a slash are kept apart by both entry points whenever they differ |
| `Namespaces.ApartIffDisjoint` | src/builder/derive.py:37-60 | two ids keep the instances of every two sources apart exactly when their namespaces do not meet |
| `Namespaces.NamespacedAuthored` | src/builder/derive.py:37-60 | namespacing a source keeps it well formed |
| `Store.NamespacesApart` | src/builder/derive.py:80-90 | sources with ids that are pairwise apart are disjoint once namespaced, as the store theorems need |
| `Namespaces.EntryPointsDisagree` | src/builder/store.py:216 | a pair of ids that `add_source` gives one namespace and `merge_sources` two, and a pair the other way round |
| `DocSlices.Register` | src/etl/doc_slices.py:96-104 | new ancestor slices are registered once, existing ones kept, a differing scope reported |
| `DocSlices.WalkDoc` | src/etl/doc_slices.py:80-104 | reading parents off the links made so far emits exactly the walk over the original taxonomy |
| `DocSlices.DeriveForDoc` | src/etl/doc_slices.py:59-108 | the derived document, or an error exactly when an ancestor slice's name is registered with another scope |
| `DocSlices.DocAgreesWithSlicer` | src/etl/doc_slices.py:59-108 | from the same year leaves the document derives exactly the subclass edges and timed classes of the finalised graph |
| `DocSlices.DocIdempotent` | src/etl/doc_slices.py:59-62 | a second run links and registers nothing new |
| `CanonicalRun.MaterialComps` | src/etl/canonicalize_materials.py:86-97 | the summed element fractions of every material |
| `CanonicalRun.ComponentOf` | src/etl/chain_loader.py:15-31 | the component context of every material, the last such statement winning |
| `CanonicalRun.Groups` | src/etl/chain_loader.py:47-72 | every material's class-and-context group and target class |
| `CanonicalRun.RewriteAll` | src/etl/chain_loader.py:130-147 | measured statements take their group's canonical fraction, others are kept |
| `CanonicalRun.FillAll` | src/etl/chain_loader.py:149-156 | every missing canonical element of every material is synthesised exactly once |
| `CanonicalRun.MaterialDoc.Canonicalize` | src/etl/chain_loader.py:34-159 | the document in place: target classes, rewritten and filled statements, registered subclasses, and the class changes |
| `CanonicalLaws.MeasuresWeighted` | src/etl/chain_loader.py:74-156 | afterwards a material measures, of every element, the mean of its group times the number of its statements of the element |
| `CanonicalLaws.MeasuresCanonicalIff` | src/etl/chain_loader.py:74-156 | it measures exactly the mean of its group when, and only when, it states no element of non-zero fraction twice |
| `CanonicalLaws.NormalFormIff` | src/etl/chain_loader.py:34-37 | materials of one resulting class carry the same element fractions exactly when they state each element equally often |
| `CanonicalLaws.NothingDropped` | src/etl/chain_loader.py:127-129 | no measured element is lost |
| `CanonicalLaws.StatementsKept` | src/etl/chain_loader.py:130-147 | no statement is dropped by the rewriting |
| `CanonicalLaws.CanonMass` | src/etl/chain_loader.py:82-86 | a canonical composition sums to at most 1 if the measured ones do |
| `CanonicalLaws.MassKept` | src/etl/chain_loader.py:82-86 | so fractions that sum to at most 1 still do, in a material that states no element twice |
| `CanonicalLaws.IdempotentIff` | src/etl/chain_loader.py:34-159 | a second run changes nothing exactly when no material states an element of non-zero fraction twice |
| `CanonicalLaws.TwiceStatedDoubles` | src/etl/chain_loader.py:130-147 | there is an ore, with two statements of 0.3 iron, that measures 1.2 after every run, and every second run changes it again |
| `Unknowns.TrailsExact` | src/builder/aggregate.py:752-815 | the walkers follow every step-wise path to the part exactly once |
| `Unknowns.WalkSum` | src/builder/aggregate.py:752-766 | the granular sum adds every path's floor product once |
| `Unknowns.WalkMax` | src/builder/aggregate.py:779-795 | the path fraction is the largest low product of a path, or 0 |
| `Unknowns.KnownPathLevels` | src/builder/aggregate.py:798-815 | the levels of a longest known path, else the levels between by rank |
| `Unknowns.PlanTree` | src/builder/aggregate.py:833-853 | the inner loop plans one chain per bounder whose gap exceeds the cut-off |
| `Unknowns.TopHoldsWhole` | src/builder/aggregate.py:769-776 | the tree a bounder is planned in is a top, never a part, and the bounder is it or lies on a path below it |
| `Unknowns.PlanUnknowns` | src/builder/aggregate.py:818-854 | all parts with a coarse bound, in the tree each whole climbs to, bounders deepest first |
| `Unknowns.DeepestFirstSorts` | src/builder/aggregate.py:835-837 | the stable sort keeps the bounders and orders them by falling rank |
| `Unknowns.PlansTelescope` | src/builder/aggregate.py:838-853 | known sum, plans and skipped gaps add up to the shallowest projected bound, for any bounds |
| `Unknowns.PlansMeetBound` | src/builder/aggregate.py:838-853 | with nested bounds the plans reach the shallowest bound to within one cut-off per bounder and never pass it |
| `Unknowns.ChainSkipsIff` | src/builder/aggregate.py:798-815 | a planned chain skips a level exactly when no path is known and the part does not lie below the whole |
| `Unknowns.ChainSkips` | src/builder/aggregate.py:810-815 | a bound on a product inside a material, without a path between them, is planned with a chain that skips |
| `Reprompt.CascadeExact` | bench/benchlib/reprompt.py:113-451 | accept exactly when no raised fault has a retry left; else the earliest open fault pays one retry of its own counter |
| `Reprompt.AttemptsBounded` | bench/benchlib/agent.py:132-227 | the loop makes at most max_attempts + 21 passes although retries give attempts back |
| `Reprompt.BoundReached` | bench/benchlib/agent.py:132-227 | some run makes exactly that many, each of its answers showing one fault |
| `Agent.RunCalls` | bench/benchlib/agent.py:611-845 | the calls of a turn leave the memory that the trace of calls so far determines, up to the call that cuts the attempt off |
| `Agent.SentOnce` | bench/benchlib/agent.py:611-845 | no query text is sent to the endpoint twice in an attempt |
| `Agent.HitsAreCalls` | bench/benchlib/agent.py:611-845 | an attempt is grounded exactly when one of its calls went out for the first time and came back with rows |
| `Agent.NudgesRise` | bench/benchlib/agent.py:524-560 | nudges only get firmer, so an attempt gets at most five |
| `Agent.ChatsExact` | bench/benchlib/agent.py:426-610 | the chat calls are an unbroken run: each is answered, each but the last goes on, and the run stops at the step limit, at an unanswered call or after a last turn |
| `Agent.RunAttempt` | bench/benchlib/agent.py:426-849 | the loop gives the attempt and the nudges that its turns determine |
| `Agent.AttemptInBudget` | bench/benchlib/agent.py:426-610 | every chat call starts below the budget, the tokens are the turns' tokens, and an answer is what the last, tool-free turn parsed to |
| `Agent.RunOne` | bench/benchlib/agent.py:51-270 | the loop makes exactly the passes its world determines, with their attempts, the last one chosen and scored, and the sum of their tokens |
| `Agent.MakesOnce` | bench/benchlib/agent.py:132-227 | the number of passes the loop makes is determined, so a run has one outcome |
| `Agent.AttemptsInRun` | bench/benchlib/agent.py:132-227 | a run makes at most max_attempts + 21 attempts |
| `Agent.RunInBudget` | bench/benchlib/agent.py:132-227 | every chat call of a run starts below the budget, so the run overspends by less than its last chat call |
| `Agent.RightIsGrounded` | bench/benchlib/agent.py:228-266 | an answer is scored right only outside ask mode and only if a query of the chosen attempt went out for the first time and came back with rows |
| `PredicateWalker.PredicateTokens` | bench/helpers/predicatecheck.py:121-146 | the loop collects exactly the terms the slot machine sees in the predicate slot |
| `PredicateWalker.WalkBlock` | bench/helpers/predicatecheck.py:121-146 | walking a printed block returns to the subject slot with every verb but those right after a blank-node subject |
| `PredicateWalker.WalkInvertsPrint` | bench/helpers/predicatecheck.py:99-146 | never an object or a subject; all predicates used exactly when each verb right after a blank-node subject is used elsewhere too |
| `PredicateWalker.WalkInvertsObjectNodes` | bench/helpers/predicatecheck.py:99-146 | exactly the predicates used when blank nodes stand in object position or alone |
| `PredicateWalker.SubjectNodeLosesVerb` | bench/helpers/predicatecheck.py:134-137 | a block whose verb after a blank-node subject is missed |

## Left out

- Turtle parsing, SPARQL execution, SHACL and the reasoner: each query is its defining relation.
- The resolver plugins beyond the three class tables: labels, comments, part-of holders, item masses.
- Material-level reach, item-mass aggregation and the weighted per-node variants: the same rollup with other leaf values.
- Coarse statements and unplaced instances in the store theorems: the index sets them aside as the code does (`StoreIndex.BuildIndex`), but the theorems about adds are for content in which every class gives a level and every statement is step-wise.
- Content hashes and statement conflicts of `relation_identity` and `_statement_conflicts`.
- `attach_value_strategy`: it declares a strategy on every class an axis slice is a slice of, timed or not; the gate reads none of them, since it asks for one only after the class turned out untimed, and then from the frozen hierarchy.
- Instances with several authored classes: the store theorems are for one class per instance, as the ETL authors them.
- Period scopes as blank nodes: a period is a value, so fresh instants are not minted on every run.
- Slice edges authored by a source: the ETL states them for timed classes only, so authored content has none.
- Monte-Carlo bands, distributions, unit scaling and IEEE rounding.
- The order of synthesised statements in a canonicalised document, and its provenance fields.
- The token regular expression, literals that contain punctuation, and collections in the predicate walker.
- The wording of re-prompts and nudges, transcripts, live writes, timing tables and the struggle turn of the harness.
- Agent.RunAttempt: the wall clock is a flag on each turn and call, so it says nothing about how long an attempt takes.
- Store.CompositionStore.AddSource: for the sources its condition admits; the failures outside it are stated above. After a source that mixed a root or an element the answer is a full derive of the new graph, and the graph is still the finalised form of everything added but for value leaves (`Store.EveryRunDrifts`); that a further refresh of such a store gives the full derive is not stated.
- Store.AddSources: for runs whose sources mix no root or element.
- StoreAdds.AddIff: for affected bases closed under the taxonomy, positive amounts, and classes with instances that are not rolled up into; otherwise whether a stirred class above a found root changes depends on the amounts, and `StoreAdds.StaleRow` is what holds.
- StaleView.IncrementalIffNothingMissed: for missed classes not in use; one already in use can keep its numbers by coincidence of the amounts, and `StoreAdds.StaleRow` is what holds.
- CanonicalLaws.MassKept: for materials that state no element of non-zero fraction twice; the others can exceed it, by the factors of `MeasuresWeighted`.
- QualityLaws.TableScoreIsMax: for stores where no class with instances is also rolled up into, and non-negative fractions.
- DocSlices.DeriveForDoc: for documents whose slice names follow the naming convention, since names are constructors; a hand-written slice name that breaks it is not parsed.
