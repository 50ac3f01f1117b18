/** The control flow of the class-tree rollup: which ancestor classes get a row, in
    which order, from which direct subclasses. No number enters it. */
module Rollup {
  import opened Vocabulary
  import opened Closure

  /** A class's time-registry entry: its scope and the classes it is a slice of. */
  datatype TimeEntry = TimeEntry(scope: Scope, slices: set<Cls>)

  /** What the rollup reads. `names` lists class names in name order: `sorted(s)` is
      `Only(names, s)`. `pc` holds the classes above a Product or Component leaf. */
  datatype Hier = Hier(
    leaves: set<Cls>,
    ancestors: set<Cls>,
    sup: set<(Cls, Cls)>,
    time: map<Cls, TimeEntry>,
    strategy: map<Cls, Strategy>,
    pc: set<Cls>,
    names: seq<Cls>)

  predicate Distinct<T(==)>(s: seq<T>) {
    forall i, j :: 0 <= i < j < |s| ==> s[i] != s[j]
  }

  /** The members of `s` that are in `keep`, in order. */
  function Only<T(==)>(s: seq<T>, keep: set<T>): seq<T> {
    if s == [] then []
    else Only(s[..|s| - 1], keep) + (if s[|s| - 1] in keep then [s[|s| - 1]] else [])
  }

  lemma {:induction false} OnlyMembers<T>(s: seq<T>, keep: set<T>)
    ensures forall x :: x in Only(s, keep) <==> x in s && x in keep
    ensures Distinct(s) ==> Distinct(Only(s, keep))
  {
    if s != [] {
      OnlyMembers(s[..|s| - 1], keep);
      assert s == s[..|s| - 1] + [s[|s| - 1]];
    }
  }

  lemma {:induction false} OnlyAgrees<T>(s: seq<T>, a: set<T>, b: set<T>)
    requires forall x :: x in s ==> (x in a <==> x in b)
    ensures Only(s, a) == Only(s, b)
  {
    if s != [] {
      OnlyAgrees(s[..|s| - 1], a, b);
    }
  }

  lemma {:induction false} OnlyTwice<T>(s: seq<T>, a: set<T>, b: set<T>)
    ensures Only(Only(s, a), b) == Only(s, a * b)
  {
    if s != [] {
      var init, x := s[..|s| - 1], s[|s| - 1];
      OnlyTwice(init, a, b);
      if x in a {
        assert Only(s, a)[..|Only(s, a)| - 1] == Only(init, a);
      } else {
        assert Only(s, a) == Only(init, a);
      }
    }
  }

  // ---- the gate ------------------------------------------------------------

  predicate IsSliceParent(h: Hier, p: Cls) {
    exists c :: c in h.time && p in h.time[c].slices
  }

  datatype Gate = Refused | Average(subs: seq<Cls>)

  /** Which of the candidate subclasses a parent may average over. */
  function ParentGate(h: Hier, p: Cls, candidates: seq<Cls>): Gate {
    if p !in h.pc then Average(candidates)
    else if p in h.time then
      Average(Only(candidates, set c | c in candidates && c in h.time && h.time[c].scope.Within(h.time[p].scope)))
    else if (p in h.strategy && h.strategy[p] == YearSliceMean) || (p !in h.strategy && IsSliceParent(h, p)) then
      Average(Only(candidates, set c | c in candidates && c in h.time))
    else Refused
  }

  /** The parent is not refused outright. */
  predicate Open(h: Hier, p: Cls) {
    || p !in h.pc
    || p in h.time
    || (p in h.strategy && h.strategy[p] == YearSliceMean)
    || (p !in h.strategy && IsSliceParent(h, p))
  }

  /** An open parent may average over `c`. */
  predicate Admits(h: Hier, p: Cls, c: Cls) {
    p in h.pc ==> c in h.time && (p in h.time ==> h.time[c].scope.Within(h.time[p].scope))
  }

  /** `c` is a direct subclass of `p` that the gate lets through. */
  predicate Effective(h: Hier, p: Cls, c: Cls) {
    (c, p) in h.sup && Open(h, p) && Admits(h, p, c)
  }

  /** Direct subclasses of `p` among the classes that have a row, in name order. */
  function Candidates(h: Hier, done: set<Cls>, p: Cls): seq<Cls> {
    Only(h.names, set c | c in done && (c, p) in h.sup)
  }

  /** The gated direct subclasses of `p`; none when the parent is refused. */
  function Gated(h: Hier, done: set<Cls>, p: Cls): seq<Cls> {
    Only(h.names, set c | c in done && Effective(h, p, c))
  }

  lemma GatedMembers(h: Hier, done: set<Cls>, p: Cls)
    ensures forall c :: c in Gated(h, done, p) <==> c in h.names && c in done && Effective(h, p, c)
  {
    OnlyMembers(h.names, set c | c in done && Effective(h, p, c));
  }

  /** The gate is a filter on single candidates: it never looks at two together. */
  lemma GateIsFilter(h: Hier, done: set<Cls>, p: Cls)
    ensures var gate := ParentGate(h, p, Candidates(h, done, p));
            if Open(h, p) then gate == Average(Gated(h, done, p))
            else gate == Refused && Gated(h, done, p) == []
    ensures Candidates(h, done, p) == [] ==> Gated(h, done, p) == []
  {
    var all := set c | c in done && (c, p) in h.sup;
    var kept := set c | c in done && Effective(h, p, c);
    var cands, gated := Candidates(h, done, p), Gated(h, done, p);
    assert gated != [] ==> gated[0] in gated;
    OnlyMembers(h.names, all);
    OnlyMembers(h.names, kept);
    if !Open(h, p) {
      OnlyAgrees(h.names, kept, {});
      NothingKept(h.names);
    } else if p !in h.pc {
      OnlyAgrees(h.names, all, kept);
    } else {
      var admitted := set c | c in cands && Admits(h, p, c);
      OnlyTwice(h.names, all, admitted);
      OnlyAgrees(h.names, all * admitted, kept);
      if p in h.time {
        assert admitted == set c | c in cands && c in h.time && h.time[c].scope.Within(h.time[p].scope);
      } else {
        assert admitted == set c | c in cands && c in h.time;
      }
    }
  }

  lemma NothingKept<T>(s: seq<T>)
    ensures Only(s, {}) == []
  {
  }

  // ---- the schedule ----------------------------------------------------------

  /** One computed ancestor: the parent and the subclasses its row averages. */
  datatype Step = Step(parent: Cls, subs: seq<Cls>)

  function Parents(steps: seq<Step>): set<Cls> {
    set s | s in steps :: s.parent
  }

  function Done(h: Hier, steps: seq<Step>): set<Cls> {
    h.leaves + Parents(steps)
  }

  /** Visit one ancestor: it gets a row as soon as one gated subclass has one. */
  function Visit(h: Hier, steps: seq<Step>, p: Cls): seq<Step> {
    var subs := Gated(h, Done(h, steps), p);
    if p in Parents(steps) || subs == [] then steps else steps + [Step(p, subs)]
  }

  function Sweep(h: Hier, steps: seq<Step>, ps: seq<Cls>): seq<Step> {
    if ps == [] then steps else Visit(h, Sweep(h, steps, ps[..|ps| - 1]), ps[|ps| - 1])
  }

  /** One sweep over all ancestors in name order. */
  function SweepAll(h: Hier, steps: seq<Step>): seq<Step> {
    Sweep(h, steps, Only(h.names, h.ancestors))
  }

  function Sweeps(h: Hier, n: nat): seq<Step> {
    if n == 0 then [] else SweepAll(h, Sweeps(h, n - 1))
  }

  /** The rollup: as many sweeps as the source's round bound allows. */
  function Schedule(h: Hier): seq<Step> {
    Sweeps(h, |h.ancestors| + 1)
  }

  ghost predicate Stable(h: Hier, steps: seq<Step>) {
    SweepAll(h, steps) == steps
  }

  /** Every step is justified by the steps before it. */
  ghost predicate Valid(h: Hier, steps: seq<Step>) {
    steps != [] ==>
      var init, last := steps[..|steps| - 1], steps[|steps| - 1];
      && Valid(h, init)
      && last.parent in h.ancestors
      && last.parent !in Parents(init)
      && last.subs != []
      && last.subs == Gated(h, Done(h, init), last.parent)
  }

  lemma ParentsSnoc(steps: seq<Step>, s: Step)
    ensures Parents(steps + [s]) == Parents(steps) + {s.parent}
  {
    assert forall x :: x in steps + [s] <==> x in steps || x == s;
    assert s in steps + [s];
  }

  lemma VisitValid(h: Hier, steps: seq<Step>, p: Cls)
    requires Valid(h, steps) && p in h.ancestors
    ensures Valid(h, Visit(h, steps, p))
    ensures steps <= Visit(h, steps, p)
    ensures Parents(steps) <= Parents(Visit(h, steps, p))
  {
    var v := Visit(h, steps, p);
    if v != steps {
      assert v[..|v| - 1] == steps;
      ParentsSnoc(steps, v[|v| - 1]);
    }
  }

  lemma {:induction false} SweepValid(h: Hier, steps: seq<Step>, ps: seq<Cls>)
    requires Valid(h, steps) && forall p :: p in ps ==> p in h.ancestors
    ensures Valid(h, Sweep(h, steps, ps))
    ensures steps <= Sweep(h, steps, ps)
    ensures Parents(steps) <= Parents(Sweep(h, steps, ps))
  {
    if ps != [] {
      SweepValid(h, steps, ps[..|ps| - 1]);
      VisitValid(h, Sweep(h, steps, ps[..|ps| - 1]), ps[|ps| - 1]);
    }
  }

  lemma SweepAllValid(h: Hier, steps: seq<Step>)
    requires Valid(h, steps)
    ensures Valid(h, SweepAll(h, steps))
    ensures Stable(h, steps) || |steps| < |SweepAll(h, steps)|
  {
    OnlyMembers(h.names, h.ancestors);
    SweepValid(h, steps, Only(h.names, h.ancestors));
  }

  lemma {:induction false} SweepsValid(h: Hier, n: nat)
    ensures Valid(h, Sweeps(h, n))
  {
    if n != 0 {
      SweepsValid(h, n - 1);
      SweepAllValid(h, Sweeps(h, n - 1));
    }
  }

  lemma {:induction false} ParentsCount(h: Hier, steps: seq<Step>)
    requires Valid(h, steps)
    ensures |Parents(steps)| == |steps| <= |h.ancestors|
    ensures Parents(steps) <= h.ancestors
  {
    if steps != [] {
      var init, last := steps[..|steps| - 1], steps[|steps| - 1];
      assert steps == init + [last];
      ParentsCount(h, init);
      ParentsSnoc(init, last);
    }
    SubsetSize(Parents(steps), h.ancestors);
  }

  lemma SubsetSize<T>(a: set<T>, b: set<T>)
    requires a <= b
    ensures |a| <= |b|
  {
    assert b == a + (b - a);
    assert |b| == |a| + |b - a|;
  }

  /** A sweep that adds nothing leaves every visited class as it was. */
  lemma {:induction false} FixedSweep(h: Hier, steps: seq<Step>, ps: seq<Cls>)
    requires Valid(h, steps) && forall p :: p in ps ==> p in h.ancestors
    requires Sweep(h, steps, ps) == steps
    ensures forall p :: p in ps ==> Visit(h, steps, p) == steps
  {
    if ps != [] {
      var init, p := ps[..|ps| - 1], ps[|ps| - 1];
      SweepValid(h, steps, init);
      VisitValid(h, Sweep(h, steps, init), p);
      assert |steps| <= |Sweep(h, steps, init)| <= |Sweep(h, steps, ps)|;
      assert Sweep(h, steps, init) == steps;
      FixedSweep(h, steps, init);
      assert ps == init + [p];
    }
  }

  /** Each unfinished sweep computes at least one more class. */
  lemma {:induction false} SweepsProgress(h: Hier, n: nat)
    ensures |Sweeps(h, n)| >= n || Sweeps(h, n) == SweepAll(h, Sweeps(h, n))
  {
    if n != 0 {
      SweepsProgress(h, n - 1);
      SweepsValid(h, n - 1);
      assert |Sweeps(h, n)| >= (n - 1) + 1 || Sweeps(h, n) == SweepAll(h, Sweeps(h, n)) by {
        SweepAllValid(h, Sweeps(h, n - 1));
      }
    }
  }

  lemma {:induction false} StableSweeps(h: Hier, n: nat, m: nat)
    requires n <= m && Stable(h, Sweeps(h, n))
    ensures Sweeps(h, m) == Sweeps(h, n)
    decreases m
  {
    if n < m {
      StableSweeps(h, n, m - 1);
    }
  }

  /** The round bound never cuts the rollup short: more rounds change nothing. */
  lemma ScheduleStable(h: Hier, m: nat)
    requires m >= |h.ancestors| + 1
    ensures Valid(h, Schedule(h)) && Stable(h, Schedule(h))
    ensures Sweeps(h, m) == Schedule(h)
  {
    var n := |h.ancestors| + 1;
    SweepsProgress(h, n);
    SweepsValid(h, n);
    ParentsCount(h, Sweeps(h, n));
    StableSweeps(h, n, m);
  }

  ghost predicate Covers(h: Hier) {
    && (forall c :: c in h.leaves ==> c in h.names)
    && (forall c :: c in h.ancestors ==> c in h.names)
  }

  /** Saturation: on exit every ancestor has a row, was refused by the gate, or has no
      admitted direct subclass with a row in the final state. */
  lemma Saturated(h: Hier, p: Cls)
    requires Covers(h) && p in h.ancestors
    ensures p in Parents(Schedule(h))
         || !Open(h, p)
         || forall c :: c in Done(h, Schedule(h)) && (c, p) in h.sup ==> !Admits(h, p, c)
  {
    var steps := Schedule(h);
    ScheduleStable(h, |h.ancestors| + 1);
    OnlyMembers(h.names, h.ancestors);
    FixedSweep(h, steps, Only(h.names, h.ancestors));
    ParentsCount(h, steps);
    assert Visit(h, steps, p) == steps;
    GatedMembers(h, Done(h, steps), p);
    if c :| c in Done(h, steps) && (c, p) in h.sup && Open(h, p) && Admits(h, p, c) {
      assert c in Gated(h, Done(h, steps), p);
    }
  }

  /** Subclass edges into ancestors that the gate lets through. */
  function GatedEdges(h: Hier): set<(Cls, Cls)> {
    set e {:trigger e in h.sup} | e in h.sup && e.1 in h.ancestors && Effective(h, e.1, e.0)
  }

  lemma {:induction false} ComputedReachable(h: Hier, steps: seq<Step>)
    requires Valid(h, steps)
    ensures Parents(steps) <= Image(GatedEdges(h), Reach(GatedEdges(h), h.leaves))
  {
    if steps != [] {
      var init, last := steps[..|steps| - 1], steps[|steps| - 1];
      ComputedReachable(h, init);
      assert last.parent in Image(GatedEdges(h), Reach(GatedEdges(h), h.leaves)) by {
        var edges, c := GatedEdges(h), Gated(h, Done(h, init), last.parent)[0];
        assert c in Gated(h, Done(h, init), last.parent);
        GatedMembers(h, Done(h, init), last.parent);
        var e := (c, last.parent);
        assert e in edges && e.0 in Reach(edges, h.leaves);
      }
      ParentsSnoc(init, last);
      assert steps == init + [last];
    }
  }

  /** The computed classes are exactly those a leaf class reaches through gated edges:
      a least fixpoint, so which classes get a row does not depend on the name order. */
  lemma ComputedIsLeastFixpoint(h: Hier)
    requires Covers(h)
    ensures Parents(Schedule(h)) == Image(GatedEdges(h), Reach(GatedEdges(h), h.leaves))
  {
    var steps, edges := Schedule(h), GatedEdges(h);
    ScheduleStable(h, |h.ancestors| + 1);
    ComputedReachable(h, steps);
    forall e | e in edges && e.0 in Done(h, steps)
      ensures e.1 in Parents(steps)
    {
      Saturated(h, e.1);
    }
    ReachLeast(edges, h.leaves, Done(h, steps));
  }

  lemma NameOrderIrrelevant(h: Hier, names: seq<Cls>)
    requires Covers(h) && Covers(h.(names := names))
    ensures Parents(Schedule(h)) == Parents(Schedule(h.(names := names)))
  {
    var g := h.(names := names);
    ComputedIsLeastFixpoint(h);
    ComputedIsLeastFixpoint(g);
    assert GatedEdges(h) == GatedEdges(g) by {
      assert forall p, c :: Effective(h, p, c) == Effective(g, p, c);
    }
  }

  // ---- the source's loop over `remaining` ------------------------------------

  /** `remaining` leaves out only classes that are computed or refused. */
  ghost predicate Pending(h: Hier, steps: seq<Step>, remaining: set<Cls>) {
    && remaining <= h.ancestors
    && remaining !! Parents(steps)
    && forall p :: p in h.ancestors - remaining ==> p in Parents(steps) || !Open(h, p)
  }

  /** Sweeping the remaining classes is sweeping all of them. */
  lemma {:induction false} SweepRemaining(h: Hier, steps: seq<Step>, remaining: set<Cls>, names: seq<Cls>)
    requires Valid(h, steps) && Pending(h, steps, remaining)
    ensures Sweep(h, steps, Only(names, remaining)) == Sweep(h, steps, Only(names, h.ancestors))
  {
    if names != [] {
      var init, p := names[..|names| - 1], names[|names| - 1];
      SweepRemaining(h, steps, remaining, init);
      var most, some := Only(init, h.ancestors), Only(init, remaining);
      OnlyMembers(init, h.ancestors);
      SweepValid(h, steps, most);
      if p in remaining {
        SweepSnoc(h, steps, some, p);
        SweepSnoc(h, steps, most, p);
      } else if p in h.ancestors {
        assert Visit(h, Sweep(h, steps, most), p) == Sweep(h, steps, most) by {
          if p !in Parents(Sweep(h, steps, most)) {
            GateIsFilter(h, Done(h, Sweep(h, steps, most)), p);
          }
        }
        SweepSnoc(h, steps, most, p);
        assert Only(names, remaining) == some;
      } else {
        assert Only(names, remaining) == some && Only(names, h.ancestors) == most;
      }
    }
  }

  lemma SweepSnoc(h: Hier, steps: seq<Step>, ps: seq<Cls>, p: Cls)
    ensures Sweep(h, steps, ps + [p]) == Visit(h, Sweep(h, steps, ps), p)
  {
    assert (ps + [p])[..|ps|] == ps;
  }
}
