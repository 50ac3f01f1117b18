/** Planning the unknown chains: each coarse bound on a part, deepest first, is met by what is
    known below it plus one planned chain. */
module Unknowns {
  import opened Vocabulary
  import opened Sums
  import opened Rollup
  import opened Reach
  import opened Climbing

  // ---- the walkers: one enumeration of the step-wise paths to a part -----------------------

  /** All paths of edge positions from `n` that end at their first arrival at `part`. */
  function Trails(d: Dag, n: Node, k: nat, part: Node): seq<seq<nat>>
    requires Wf(d) && n in d.level && k <= |Edges(d, n)|
    decreases d.depth[n], k
  {
    if k == 0 then []
    else
      var e := Edges(d, n)[k - 1];
      Trails(d, n, k - 1, part)
          + Under(k - 1, if e.part == part then [[]] else Trails(d, e.part, |Edges(d, e.part)|, part))
  }

  function AllTrails(d: Dag, n: Node, part: Node): seq<seq<nat>>
    requires Wf(d) && n in d.level
  {
    Trails(d, n, |Edges(d, n)|, part)
  }

  /** Following the edge positions `p` from `n` ends at `part`. */
  ghost predicate Arrives(d: Dag, n: Node, p: seq<nat>, part: Node)
    decreases |p|
  {
    && p != [] && p[0] < |Edges(d, n)|
    && var q := Edges(d, n)[p[0]].part;
       if |p| == 1 then q == part else Arrives(d, q, p[1..], part)
  }

  lemma {:induction false} ArrivesBelow(d: Dag, n: Node, p: seq<nat>, part: Node)
    requires Wf(d) && n in d.level && Arrives(d, n, p, part)
    ensures part in d.level && d.depth[part] < d.depth[n]
    decreases |p|
  {
    if |p| > 1 {
      ArrivesBelow(d, Edges(d, n)[p[0]].part, p[1..], part);
    }
  }

  /** The walkers follow every path to the part exactly once. */
  lemma {:induction false} TrailsExact(d: Dag, n: Node, k: nat, part: Node)
    requires Wf(d) && n in d.level && k <= |Edges(d, n)|
    ensures forall p :: p in Trails(d, n, k, part) <==> p != [] && p[0] < k && Arrives(d, n, p, part)
    ensures Distinct(Trails(d, n, k, part))
    decreases d.depth[n], k
  {
    if k != 0 {
      var e, i := Edges(d, n)[k - 1], k - 1;
      var tails := if e.part == part then [[]] else AllTrails(d, e.part, part);
      TrailsExact(d, n, i, part);
      UnderExact(i, tails);
      if e.part != part {
        TrailsExact(d, e.part, |Edges(d, e.part)|, part);
      }
      forall p ensures p in Under(i, tails) <==> p != [] && p[0] == i && Arrives(d, n, p, part) {
        TailArrives(d, n, i, part, p);
      }
      DistinctAppend(Trails(d, n, i, part), Under(i, tails));
    }
  }

  lemma TailArrives(d: Dag, n: Node, i: nat, part: Node, p: seq<nat>)
    requires Wf(d) && n in d.level && i < |Edges(d, n)|
    requires var e := Edges(d, n)[i];
             e.part != part ==> forall q :: q in AllTrails(d, e.part, part) <==> q != [] && q[0] < |Edges(d, e.part)| && Arrives(d, e.part, q, part)
    ensures var e := Edges(d, n)[i];
            var tails := if e.part == part then [[]] else AllTrails(d, e.part, part);
            p in Under(i, tails) <==> p != [] && p[0] == i && Arrives(d, n, p, part)
  {
    var e := Edges(d, n)[i];
    var tails := if e.part == part then [[]] else AllTrails(d, e.part, part);
    UnderExact(i, tails);
    if p != [] && p[0] == i && Arrives(d, n, p, part) && |p| > 1 {
      ArrivesBelow(d, e.part, p[1..], part);
    }
  }

  datatype Bound = Floor | Low

  function Share(e: Edge, b: Bound): real {
    match b
    case Floor => e.floor
    case Low => e.lo
  }

  /** Product of the shares along a path. */
  function TrailShare(d: Dag, b: Bound, n: Node, p: seq<nat>): real
    decreases |p|
  {
    if p == [] || p[0] >= |Edges(d, n)| then 1.0
    else Times(Share(Edges(d, n)[p[0]], b), TrailShare(d, b, Edges(d, n)[p[0]].part, p[1..]))
  }

  /** The shares of the listed paths, each times `acc`. */
  function Shares(d: Dag, b: Bound, n: Node, ps: seq<seq<nat>>, acc: real): (r: seq<real>)
    ensures |r| == |ps| && forall j :: 0 <= j < |ps| ==> r[j] == Times(acc, TrailShare(d, b, n, ps[j]))
  {
    seq(|ps|, j requires 0 <= j < |ps| => Times(acc, TrailShare(d, b, n, ps[j])))
  }

  /** The levels strictly between the ends of a path. */
  function LevelsOn(d: Dag, n: Node, p: seq<nat>): seq<Level>
    decreases |p|
  {
    if |p| <= 1 || p[0] >= |Edges(d, n)| then []
    else
      var part := Edges(d, n)[p[0]].part;
      [if part in d.level then d.level[part] else Element] + LevelsOn(d, part, p[1..])
  }

  lemma TimesOne(a: real)
    ensures Times(a, 1.0) == a
  {
  }

  /** Going through edge `i` scales every share below by the edge's own. */
  lemma SharesUnder(d: Dag, b: Bound, n: Node, i: nat, ps: seq<seq<nat>>, acc: real)
    requires i < |Edges(d, n)|
    ensures var e := Edges(d, n)[i]; Shares(d, b, n, Under(i, ps), acc) == Shares(d, b, e.part, ps, Times(acc, Share(e, b)))
  {
    var e := Edges(d, n)[i];
    forall j | 0 <= j < |ps|
      ensures Times(acc, TrailShare(d, b, n, Under(i, ps)[j]))
          == Times(Times(acc, Share(e, b)), TrailShare(d, b, e.part, ps[j]))
    {
      assert Under(i, ps)[j][1..] == ps[j];
    }
  }

  /** The shares one more edge brings. */
  function Below(d: Dag, b: Bound, n: Node, i: nat, part: Node, acc: real): seq<real>
    requires Wf(d) && n in d.level && i < |Edges(d, n)|
  {
    var e := Edges(d, n)[i];
    if e.part == part then [Times(acc, Share(e, b))]
    else Shares(d, b, e.part, AllTrails(d, e.part, part), Times(acc, Share(e, b)))
  }

  lemma SharesStep(d: Dag, b: Bound, n: Node, i: nat, part: Node, acc: real)
    requires Wf(d) && n in d.level && i < |Edges(d, n)|
    ensures Shares(d, b, n, Trails(d, n, i + 1, part), acc)
        == Shares(d, b, n, Trails(d, n, i, part), acc) + Below(d, b, n, i, part, acc)
  {
    var e := Edges(d, n)[i];
    var tails := if e.part == part then [[]] else AllTrails(d, e.part, part);
    if e.part == part {
      assert Shares(d, b, n, Under(i, [[]]), acc) == [Times(acc, Share(Edges(d, n)[i], b))] by {
        SharesUnder(d, b, n, i, [[]], acc);
        TimesOne(Times(acc, Share(Edges(d, n)[i], b)));
      }
    } else {
      SharesUnder(d, b, n, i, tails, acc);
    }
  }

  /** `_granular_sum`'s walk: every path's floor share is added once. */
  method WalkSum(d: Dag, cur: Node, part: Node, acc: real, total: real) returns (r: real)
    requires Wf(d) && cur in d.level
    ensures r == total + Sum(Shares(d, Floor, cur, AllTrails(d, cur, part), acc))
    decreases d.depth[cur]
  {
    r := total;
    var edges := Edges(d, cur);
    for i := 0 to |edges|
      invariant r == total + Sum(Shares(d, Floor, cur, Trails(d, cur, i, part), acc))
    {
      assert Sum(Shares(d, Floor, cur, Trails(d, cur, i + 1, part), acc))
             == Sum(Shares(d, Floor, cur, Trails(d, cur, i, part), acc)) + Sum(Below(d, Floor, cur, i, part, acc)) by {
        SharesStep(d, Floor, cur, i, part, acc);
        SumAppend(Shares(d, Floor, cur, Trails(d, cur, i, part), acc), Below(d, Floor, cur, i, part, acc));
      }
      r := WalkSumEdge(d, cur, i, part, acc, r);
    }
  }

  method WalkSumEdge(d: Dag, cur: Node, i: nat, part: Node, acc: real, total: real) returns (r: real)
    requires Wf(d) && cur in d.level && i < |Edges(d, cur)|
    ensures r == total + Sum(Below(d, Floor, cur, i, part, acc))
    decreases d.depth[cur], 0
  {
    var e := Edges(d, cur)[i];
    var f := Times(acc, e.floor);
    if e.part == part {
      r := total + f;
    } else {
      r := WalkSum(d, e.part, part, f, total);
    }
  }

  function Largest(best: real, xs: seq<real>): real {
    if xs == [] then best
    else
      var m := Largest(best, xs[..|xs| - 1]);
      if xs[|xs| - 1] > m then xs[|xs| - 1] else m
  }

  lemma {:induction false} LargestAppend(best: real, a: seq<real>, b: seq<real>)
    ensures Largest(best, a + b) == Largest(Largest(best, a), b)
  {
    if b == [] {
      assert a + b == a;
    } else {
      assert (a + b)[..|a + b| - 1] == a + b[..|b| - 1];
      LargestAppend(best, a, b[..|b| - 1]);
    }
  }

  lemma {:induction false} LargestMeans(best: real, xs: seq<real>)
    ensures best <= Largest(best, xs) && forall x :: x in xs ==> x <= Largest(best, xs)
    ensures Largest(best, xs) == best || Largest(best, xs) in xs
  {
    if xs != [] {
      LargestMeans(best, xs[..|xs| - 1]);
      assert xs == xs[..|xs| - 1] + [xs[|xs| - 1]];
    }
  }

  /** The largest low share of a path through the first `i` edges, if it beats `best`. */
  function LargestVia(d: Dag, n: Node, i: nat, target: Node, acc: real, best: real): real
    requires Wf(d) && n in d.level && i <= |Edges(d, n)|
  {
    Largest(best, Shares(d, Low, n, Trails(d, n, i, target), acc))
  }

  lemma LargestStep(d: Dag, n: Node, i: nat, target: Node, acc: real, best: real)
    requires Wf(d) && n in d.level && i < |Edges(d, n)|
    ensures LargestVia(d, n, i + 1, target, acc, best)
        == Largest(LargestVia(d, n, i, target, acc, best), Below(d, Low, n, i, target, acc))
  {
    SharesStep(d, Low, n, i, target, acc);
    LargestAppend(best, Shares(d, Low, n, Trails(d, n, i, target), acc), Below(d, Low, n, i, target, acc));
  }

  /** `_path_fraction`'s walk: the largest low share of a path, if it beats `best`. */
  method WalkMax(d: Dag, cur: Node, target: Node, acc: real, best: real) returns (r: real)
    requires Wf(d) && cur in d.level
    ensures r == Largest(best, Shares(d, Low, cur, AllTrails(d, cur, target), acc))
    decreases d.depth[cur]
  {
    r := best;
    for i := 0 to |Edges(d, cur)|
      invariant r == LargestVia(d, cur, i, target, acc, best)
    {
      r := WalkMaxEdge(d, cur, i, target, acc, best, r);
    }
  }

  method WalkMaxEdge(d: Dag, cur: Node, i: nat, target: Node, acc: real, ghost best: real, so: real) returns (r: real)
    requires Wf(d) && cur in d.level && i < |Edges(d, cur)| && so == LargestVia(d, cur, i, target, acc, best)
    ensures r == LargestVia(d, cur, i + 1, target, acc, best)
    decreases d.depth[cur], 0
  {
    LargestStep(d, cur, i, target, acc, best);
    var e := Edges(d, cur)[i];
    var f := Times(acc, e.lo);
    if e.part == target {
      r := if f > so then f else so;
    } else {
      r := WalkMax(d, e.part, target, f, so);
    }
  }

  /** The least fraction of `top` that reaches `target`: the best of its paths' low products. */
  function PathFraction(d: Dag, target: Node, top: Node): real
    requires Wf(d) && top in d.level
  {
    if target == top then 1.0 else Largest(0.0, Shares(d, Low, top, AllTrails(d, top, target), 1.0))
  }

  function Granular(d: Dag, whole: Node, part: Node): real
    requires Wf(d) && whole in d.level
  {
    Sum(Shares(d, Floor, whole, AllTrails(d, whole, part), 1.0))
  }

  // ---- the levels of a known path --------------------------------------------------------------

  function LevelLists(d: Dag, n: Node, ps: seq<seq<nat>>, trail: seq<Level>): (r: seq<seq<Level>>)
    ensures |r| == |ps| && forall j :: 0 <= j < |ps| ==> r[j] == trail + LevelsOn(d, n, ps[j])
  {
    seq(|ps|, j requires 0 <= j < |ps| => trail + LevelsOn(d, n, ps[j]))
  }

  lemma {:induction false} TrailsNonEmpty(d: Dag, n: Node, k: nat, part: Node)
    requires Wf(d) && n in d.level && k <= |Edges(d, n)|
    ensures forall p :: p in Trails(d, n, k, part) ==> p != []
    decreases k
  {
    if k != 0 {
      TrailsNonEmpty(d, n, k - 1, part);
    }
  }

  lemma LevelsUnder(d: Dag, n: Node, i: nat, ps: seq<seq<nat>>, trail: seq<Level>)
    requires i < |Edges(d, n)| && Edges(d, n)[i].part in d.level && forall p :: p in ps ==> p != []
    ensures var part := Edges(d, n)[i].part;
            LevelLists(d, n, Under(i, ps), trail) == LevelLists(d, part, ps, trail + [d.level[part]])
  {
    var part := Edges(d, n)[i].part;
    forall j | 0 <= j < |ps|
      ensures trail + LevelsOn(d, n, Under(i, ps)[j]) == trail + [d.level[part]] + LevelsOn(d, part, ps[j])
    {
      assert ps[j] in ps;
      assert Under(i, ps)[j][1..] == ps[j];
    }
  }

  lemma LevelsStop(d: Dag, n: Node, i: nat, trail: seq<Level>)
    ensures LevelLists(d, n, Under(i, [[]]), trail) == [trail]
  {
    assert LevelsOn(d, n, Under(i, [[]])[0]) == [];
    assert trail + [] == trail;
  }

  lemma LevelsAppend(d: Dag, n: Node, ps: seq<seq<nat>>, qs: seq<seq<nat>>, trail: seq<Level>)
    ensures LevelLists(d, n, ps + qs, trail) == LevelLists(d, n, ps, trail) + LevelLists(d, n, qs, trail)
  {
  }

  /** The level lists one more edge brings. */
  function LevelsBelow(d: Dag, n: Node, i: nat, part: Node, trail: seq<Level>): seq<seq<Level>>
    requires Wf(d) && n in d.level && i < |Edges(d, n)|
  {
    var e := Edges(d, n)[i];
    if e.part == part then [trail] else LevelLists(d, e.part, AllTrails(d, e.part, part), trail + [d.level[e.part]])
  }

  lemma Assoc<T>(a: seq<T>, b: seq<T>, c: seq<T>)
    ensures a + b + c == a + (b + c)
  {
  }

  /** `_known_path_levels`' walk: one list of levels per path. */
  method WalkLevels(d: Dag, cur: Node, part: Node, trail: seq<Level>, found: seq<seq<Level>>)
    returns (r: seq<seq<Level>>)
    requires Wf(d) && cur in d.level
    ensures r == found + LevelLists(d, cur, AllTrails(d, cur, part), trail)
    decreases d.depth[cur]
  {
    r := found;
    var edges := Edges(d, cur);
    for i := 0 to |edges|
      invariant r == found + LevelLists(d, cur, Trails(d, cur, i, part), trail)
    {
      assert LevelLists(d, cur, Trails(d, cur, i + 1, part), trail)
             == LevelLists(d, cur, Trails(d, cur, i, part), trail) + LevelsBelow(d, cur, i, part, trail) by {
        var e := Edges(d, cur)[i];
        var tails := if e.part == part then [[]] else AllTrails(d, e.part, part);
        LevelsAppend(d, cur, Trails(d, cur, i, part), Under(i, tails), trail);
        if e.part == part {
          LevelsStop(d, cur, i, trail);
        } else {
          TrailsNonEmpty(d, e.part, |Edges(d, e.part)|, part);
          LevelsUnder(d, cur, i, tails, trail);
        }
      }
      r := WalkLevelsEdge(d, cur, i, part, trail, r);
      Assoc(found, LevelLists(d, cur, Trails(d, cur, i, part), trail), LevelsBelow(d, cur, i, part, trail));
    }
  }

  method WalkLevelsEdge(d: Dag, cur: Node, i: nat, part: Node, trail: seq<Level>, found: seq<seq<Level>>)
    returns (r: seq<seq<Level>>)
    requires Wf(d) && cur in d.level && i < |Edges(d, cur)|
    ensures r == found + LevelsBelow(d, cur, i, part, trail)
    decreases d.depth[cur], 0
  {
    var e := Edges(d, cur)[i];
    if e.part == part {
      r := found + [trail];
    } else {
      r := WalkLevels(d, e.part, part, trail + [d.level[e.part]], found);
    }
  }

  function Longest(lists: seq<seq<Level>>): seq<Level>
    requires lists != []
  {
    if |lists| == 1 then lists[0]
    else
      var best, last := Longest(lists[..|lists| - 1]), lists[|lists| - 1];
      if |last| > |best| then last else best
  }

  /** The levels between two ranks, one by one; none when the part is not below. */
  function Between(w: nat, p: nat): (r: seq<Level>)
    requires w <= 3 && p <= 3
    ensures |r| == if p > w then p - w - 1 else 0
  {
    if p > w then LEVELS[w + 1..p] else []
  }

  /** The filler levels of a planned chain: those of a longest known path, else by rank. */
  function Fillers(d: Dag, w: Node, part: Node): seq<Level>
    requires Wf(d) && w in d.level && part in d.level
  {
    var found := LevelLists(d, w, AllTrails(d, w, part), []);
    if found != [] then Longest(found) else Between(Rank(d.level[w]), Rank(d.level[part]))
  }

  method PickLongest(lists: seq<seq<Level>>) returns (r: seq<Level>)
    requires lists != []
    ensures r == Longest(lists)
  {
    r := lists[0];
    assert lists[..1][0] == lists[0];
    for i := 1 to |lists|
      invariant r == Longest(lists[..i])
    {
      assert lists[..i + 1][..i] == lists[..i];
      if |lists[i]| > |r| {
        r := lists[i];
      }
    }
    assert lists[..|lists|] == lists;
  }

  method KnownPathLevels(d: Dag, w: Node, part: Node) returns (r: seq<Level>)
    requires Wf(d) && w in d.level && part in d.level
    ensures r == Fillers(d, w, part)
  {
    var found := WalkLevels(d, w, part, [], []);
    assert found == LevelLists(d, w, AllTrails(d, w, part), []);
    if found != [] {
      r := PickLongest(found);
    } else {
      r := Between(Rank(d.level[w]), Rank(d.level[part]));
    }
  }

  // ---- the planner ---------------------------------------------------------------------------------

  /** Amounts at or below this are not planned. */
  const CUT: real := 0.000000000001

  datatype Plan = Plan(whole: Node, part: Node, amount: real, fillers: seq<Level>)

  /** Coarse lower bounds, per (whole, part). */
  type Coarse = map<(Node, Node), real>

  /** A bound on `w` projected to the top of its tree. */
  function Projected(d: Dag, coarse: Coarse, part: Node, top: Node, w: Node): real
    requires Wf(d) && top in d.level
  {
    if (w, part) in coarse then Times(coarse[(w, part)], PathFraction(d, w, top)) else 0.0
  }

  /** What is already accounted for below the last bounder. */
  function Deeper(d: Dag, coarse: Coarse, part: Node, top: Node, bs: seq<Node>): real
    requires Wf(d) && top in d.level
  {
    if bs == [] then Granular(d, top, part) else Projected(d, coarse, part, top, bs[|bs| - 1])
  }

  /** The amount the last bounder adds to what lies deeper. */
  function Gap(d: Dag, coarse: Coarse, part: Node, top: Node, bs: seq<Node>): real
    requires Wf(d) && top in d.level && bs != []
  {
    Projected(d, coarse, part, top, bs[|bs| - 1]) - Deeper(d, coarse, part, top, bs[..|bs| - 1])
  }

  /** Bounders can be planned for: they and the part are nodes. */
  ghost predicate Plannable(d: Dag, coarse: Coarse, part: Node, top: Node, bs: seq<Node>) {
    && Wf(d) && top in d.level && part in d.level
    && forall w :: w in bs ==> w in d.level && (w, part) in coarse
  }

  /** The plans for one part in one tree, bounders deepest first. */
  function PlansOf(d: Dag, coarse: Coarse, part: Node, top: Node, bs: seq<Node>): seq<Plan>
    requires Plannable(d, coarse, part, top, bs)
  {
    if bs == [] then []
    else
      var init, w := bs[..|bs| - 1], bs[|bs| - 1];
      PlansOf(d, coarse, part, top, init)
      + if Gap(d, coarse, part, top, bs) <= CUT then []
           else [Plan(w, part, Gap(d, coarse, part, top, bs), Fillers(d, w, part))]
  }

  lemma PlansStep(d: Dag, coarse: Coarse, part: Node, top: Node, bs: seq<Node>, i: nat)
    requires Plannable(d, coarse, part, top, bs) && i < |bs|
    ensures Deeper(d, coarse, part, top, bs[..i + 1]) == Projected(d, coarse, part, top, bs[i])
    ensures var w, gap := bs[i], Projected(d, coarse, part, top, bs[i]) - Deeper(d, coarse, part, top, bs[..i]);
            PlansOf(d, coarse, part, top, bs[..i + 1])
            == PlansOf(d, coarse, part, top, bs[..i]) + if gap <= CUT then []
                else [Plan(w, part, gap, Fillers(d, w, part))]
  {
    assert bs[..i + 1][..i] == bs[..i] && bs[..i + 1][i] == bs[i];
  }

  /** The inner loop of `unknowns`. */
  method PlanTree(d: Dag, coarse: Coarse, part: Node, top: Node, bs: seq<Node>) returns (plans: seq<Plan>)
    requires Plannable(d, coarse, part, top, bs)
    ensures plans == PlansOf(d, coarse, part, top, bs)
  {
    plans := [];
    var deeper := WalkSum(d, top, part, 1.0, 0.0);
    for i := 0 to |bs|
      invariant deeper == Deeper(d, coarse, part, top, bs[..i]) && plans == PlansOf(d, coarse, part, top, bs[..i])
    {
      var w := bs[i];
      PlansStep(d, coarse, part, top, bs, i);
      var reach := 1.0;
      if w != top {
        reach := WalkMax(d, top, w, 1.0, 0.0);
      }
      var bound := Times(coarse[(w, part)], reach);
      var amount := bound - deeper;
      assert plans + [] == plans;
      deeper := bound;
      if amount > CUT {
        var fillers := KnownPathLevels(d, w, part);
        plans := plans + [Plan(w, part, amount, fillers)];
      }
    }
    assert bs[..|bs|] == bs;
  }

  function Planned(plans: seq<Plan>): real {
    if plans == [] then 0.0 else Planned(plans[..|plans| - 1]) + plans[|plans| - 1].amount
  }

  /** The gaps too small to plan, or not positive at all. */
  function Skipped(d: Dag, coarse: Coarse, part: Node, top: Node, bs: seq<Node>): real
    requires Wf(d) && top in d.level
  {
    if bs == [] then 0.0
    else Skipped(d, coarse, part, top, bs[..|bs| - 1])
         + if Gap(d, coarse, part, top, bs) <= CUT then Gap(d, coarse, part, top, bs) else 0.0
  }

  lemma PlannedSnoc(plans: seq<Plan>, p: Plan)
    ensures Planned(plans + [p]) == Planned(plans) + p.amount
  {
    assert (plans + [p])[..|plans|] == plans;
  }

  /** The plans telescope: what is known, what is planned and what is skipped add up to the
      shallowest bound, whatever the bounds are. */
  lemma {:induction false} PlansTelescope(d: Dag, coarse: Coarse, part: Node, top: Node, bs: seq<Node>)
    requires Plannable(d, coarse, part, top, bs)
    ensures Granular(d, top, part) + Planned(PlansOf(d, coarse, part, top, bs)) + Skipped(d, coarse, part, top, bs)
         == Deeper(d, coarse, part, top, bs)
  {
    if bs != [] {
      var init, gap := bs[..|bs| - 1], Gap(d, coarse, part, top, bs);
      PlansTelescope(d, coarse, part, top, init);
      if gap > CUT {
        PlannedSnoc(PlansOf(d, coarse, part, top, init), Plan(bs[|bs| - 1], part, gap, Fillers(d, bs[|bs| - 1], part)));
      } else {
        assert PlansOf(d, coarse, part, top, init) + [] == PlansOf(d, coarse, part, top, init);
      }
    }
  }

  /** Projected bounds do not decrease from deepest to shallowest, and cover the known sum. */
  ghost predicate Nested(d: Dag, coarse: Coarse, part: Node, top: Node, bs: seq<Node>)
    requires Wf(d) && top in d.level
  {
    bs != [] ==> Gap(d, coarse, part, top, bs) >= 0.0 && Nested(d, coarse, part, top, bs[..|bs| - 1])
  }

  lemma {:induction false} SkippedSmall(d: Dag, coarse: Coarse, part: Node, top: Node, bs: seq<Node>)
    requires Wf(d) && top in d.level && Nested(d, coarse, part, top, bs)
    ensures 0.0 <= Skipped(d, coarse, part, top, bs) <= Times(|bs| as real, CUT)
  {
    if bs != [] {
      SkippedSmall(d, coarse, part, top, bs[..|bs| - 1]);
    }
  }

  /** With nested bounds the known sum and the plans reach the shallowest bound to within the
      cut-off of each bounder, and never pass it. */
  lemma PlansMeetBound(d: Dag, coarse: Coarse, part: Node, top: Node, bs: seq<Node>)
    requires Plannable(d, coarse, part, top, bs) && Nested(d, coarse, part, top, bs)
    ensures var reached := Granular(d, top, part) + Planned(PlansOf(d, coarse, part, top, bs));
            var bound := Deeper(d, coarse, part, top, bs);
            bound - Times(|bs| as real, CUT) <= reached <= bound
  {
    PlansTelescope(d, coarse, part, top, bs);
    SkippedSmall(d, coarse, part, top, bs);
  }

  // ---- deepest first ------------------------------------------------------------------------------

  function ByRank(d: Dag, ws: seq<Node>, r: nat): seq<Node> {
    Only(ws, set w | w in ws && w in d.level && Rank(d.level[w]) == r)
  }

  /** The source's stable sort by level rank, deepest first. */
  function DeepestFirst(d: Dag, ws: seq<Node>): seq<Node> {
    ByRank(d, ws, 3) + ByRank(d, ws, 2) + ByRank(d, ws, 1) + ByRank(d, ws, 0)
  }

  lemma DeepestFirstSorts(d: Dag, ws: seq<Node>)
    requires forall w :: w in ws ==> w in d.level
    ensures forall w :: w in DeepestFirst(d, ws) <==> w in ws
    ensures var r := DeepestFirst(d, ws); forall i, j :: 0 <= i < j < |r| ==> Rank(d.level[r[i]]) >= Rank(d.level[r[j]])
  {
    var r, a, b, c, e := DeepestFirst(d, ws), ByRank(d, ws, 3), ByRank(d, ws, 2), ByRank(d, ws, 1), ByRank(d, ws, 0);
    OnlyMembers(ws, set w | w in ws && w in d.level && Rank(d.level[w]) == 3);
    OnlyMembers(ws, set w | w in ws && w in d.level && Rank(d.level[w]) == 2);
    OnlyMembers(ws, set w | w in ws && w in d.level && Rank(d.level[w]) == 1);
    OnlyMembers(ws, set w | w in ws && w in d.level && Rank(d.level[w]) == 0);
    forall i | 0 <= i < |r|
      ensures r[i] in ws
      ensures Rank(d.level[r[i]])
          == if i < |a| then 3 else if i < |a| + |b| then 2 else if i < |a| + |b| + |c| then 1 else 0
    {
      assert r[i] == if i < |a| then a[i] else if i < |a| + |b| then b[i - |a|]
                     else if i < |a| + |b| + |c| then c[i - |a| - |b|] else e[i - |a| - |b| - |c|];
    }
  }

  /** The bounders of a part in one tree, deepest first; `tops` gives each node's tree. */
  function Bounders(d: Dag, coarse: Coarse, tops: map<Node, Node>, order: seq<Node>, part: Node, top: Node): seq<Node> {
    DeepestFirst(d, Only(order, set w | w in order && w in tops && tops[w] == top && (w, part) in coarse))
  }

  /** Every statement is about nodes, and every node's tree has a top. */
  ghost predicate Indexed(d: Dag, coarse: Coarse, tops: map<Node, Node>) {
    && Wf(d) && (forall c {:trigger c in coarse} :: c in coarse ==> c.0 in d.level && c.1 in d.level)
    && (forall w :: w in tops ==> w in d.level && tops[w] in d.level)
  }

  lemma BoundersPlannable(d: Dag, coarse: Coarse, tops: map<Node, Node>, order: seq<Node>, part: Node, top: Node)
    requires Indexed(d, coarse, tops) && part in d.level && top in d.level
    ensures Plannable(d, coarse, part, top, Bounders(d, coarse, tops, order, part, top))
  {
    var s := set w | w in order && w in tops && tops[w] == top && (w, part) in coarse;
    OnlyMembers(order, s);
    DeepestFirstSorts(d, Only(order, s));
  }

  // ---- the tree of a whole ----------------------------------------------------------------------------

  function EdgeParents(es: seq<Edge>, w: Node): map<Node, Node> {
    var parts := set e | e in es :: e.part;
    map n | n in parts :: w
  }

  /** The part-of map of the wholes in the order they are read: the last one read wins. */
  function ParentsOf(d: Dag, read: seq<Node>): map<Node, Node> {
    if read == [] then map[]
    else ParentsOf(d, read[..|read| - 1]) + EdgeParents(Edges(d, read[|read| - 1]), read[|read| - 1])
  }

  method ReadParents(d: Dag, read: seq<Node>) returns (parent: map<Node, Node>)
    ensures parent == ParentsOf(d, read)
  {
    parent := map[];
    for i := 0 to |read|
      invariant parent == ParentsOf(d, read[..i])
    {
      assert read[..i + 1][..i] == read[..i];
      parent := parent + EdgeParents(Edges(d, read[i]), read[i]);
    }
    assert read[..|read|] == read;
  }

  ghost predicate Holds(d: Dag, w: Node, n: Node) {
    w in d.adj && exists i :: 0 <= i < |d.adj[w]| && d.adj[w][i].part == n
  }

  /** Each part has a whole that holds it, and nothing else has one. */
  ghost predicate IsParents(d: Dag, parent: map<Node, Node>) {
    && (forall n :: n in parent ==> Holds(d, parent[n], n))
    && forall w, i :: w in d.adj && 0 <= i < |d.adj[w]| ==> d.adj[w][i].part in parent
  }

  lemma {:induction false} ParentHolds(d: Dag, read: seq<Node>, n: Node)
    ensures n in ParentsOf(d, read) <==> exists w :: w in read && Holds(d, w, n)
    ensures n in ParentsOf(d, read) ==> Holds(d, ParentsOf(d, read)[n], n)
  {
    if read != [] {
      var init, last := read[..|read| - 1], read[|read| - 1];
      assert read == init + [last];
      ParentHolds(d, init, n);
      assert n in EdgeParents(Edges(d, last), last) <==> Holds(d, last, n);
    }
  }

  /** `n` is `top` or is reached from it step by step. */
  ghost predicate InTree(d: Dag, top: Node, n: Node) {
    top == n || exists p :: Arrives(d, top, p, n)
  }

  lemma {:induction false} RootInTree(d: Dag, parent: map<Node, Node>, cur: Node, seen: set<Node>, n: Node)
    requires Wf(d) && IsParents(d, parent) && cur in d.level && InTree(d, cur, n)
    requires forall m :: m in seen ==> m in d.level && d.depth[m] < d.depth[cur]
    ensures var r := RootOf(parent, cur, seen); r in d.level && r !in parent && InTree(d, r, n)
    decreases parent.Keys - seen
  {
    if cur in parent {
      assert InTree(d, parent[cur], n) by {
        var i: nat :| i < |d.adj[parent[cur]]| && d.adj[parent[cur]][i].part == cur;
        if cur == n {
          assert Arrives(d, parent[cur], [i], n);
        } else {
          var p :| Arrives(d, cur, p, n);
          assert ([i] + p)[1..] == p;
          assert Arrives(d, parent[cur], [i] + p, n);
        }
      }
      RootInTree(d, parent, parent[cur], seen + {cur}, n);
    }
  }

  function WholesOf(coarse: Coarse): set<Node> {
    set c {:trigger c in coarse} | c in coarse :: c.0
  }

  /** The tree of each whole with a coarse bound. */
  function TopsOf(d: Dag, coarse: Coarse, read: seq<Node>): map<Node, Node> {
    map w | w in WholesOf(coarse) :: RootOf(ParentsOf(d, read), w, {})
  }

  /** The statements are about nodes, and every whole is read. */
  ghost predicate Placed(d: Dag, coarse: Coarse, read: seq<Node>) {
    && Wf(d) && (forall c {:trigger c in coarse} :: c in coarse ==> c.0 in d.level && c.1 in d.level)
    && forall w :: w in d.adj ==> w in read
  }

  /** `_top_of`: the tree a bounder is planned in is a top that the bounder belongs to. */
  lemma TopHoldsWhole(d: Dag, coarse: Coarse, read: seq<Node>, w: Node)
    requires Placed(d, coarse, read) && w in TopsOf(d, coarse, read)
    ensures var top := TopsOf(d, coarse, read)[w];
            && top in d.level && (top == w || AllTrails(d, top, w) != [])
            && forall v, i :: v in d.adj && 0 <= i < |d.adj[v]| ==> d.adj[v][i].part != top
  {
    var parent := ParentsOf(d, read);
    var top := RootOf(parent, w, {});
    assert IsParents(d, ParentsOf(d, read)) by {
      forall n | n in ParentsOf(d, read) ensures Holds(d, ParentsOf(d, read)[n], n) {
        ParentHolds(d, read, n);
      }
      forall w, i | w in d.adj && 0 <= i < |d.adj[w]| ensures d.adj[w][i].part in ParentsOf(d, read) {
        ParentHolds(d, read, d.adj[w][i].part);
        assert Holds(d, w, d.adj[w][i].part);
      }
    }
    RootInTree(d, parent, w, {}, w);
    if top != w {
      var p :| Arrives(d, top, p, w);
      TrailsExact(d, top, |Edges(d, top)|, w);
      assert p in AllTrails(d, top, w);
    }
  }

  method FindTops(d: Dag, coarse: Coarse, read: seq<Node>) returns (tops: map<Node, Node>)
    ensures tops == TopsOf(d, coarse, read)
  {
    tops := map[];
    var parent := ReadParents(d, read);
    var todo := WholesOf(coarse);
    while todo != {}
      invariant todo <= WholesOf(coarse) && tops.Keys == WholesOf(coarse) - todo
      invariant forall w :: w in tops ==> tops[w] == RootOf(parent, w, {})
      decreases todo
    {
      var w :| w in todo;
      var top := Climb(parent, w);
      tops, todo := tops[w := top], todo - {w};
    }
  }

  /** The plans of a part over the listed trees. */
  ghost function PlansOfPart(d: Dag, coarse: Coarse, tops: map<Node, Node>, order: seq<Node>, part: Node,
                             trees: seq<Node>): seq<Plan>
    requires Indexed(d, coarse, tops) && part in d.level && forall t :: t in trees ==> t in d.level
  {
    if trees == [] then []
    else
      var top := trees[|trees| - 1];
      BoundersPlannable(d, coarse, tops, order, part, top);
      PlansOfPart(d, coarse, tops, order, part, trees[..|trees| - 1])
      + PlansOf(d, coarse, part, top, Bounders(d, coarse, tops, order, part, top))
  }

  method PlanPart(d: Dag, coarse: Coarse, tops: map<Node, Node>, order: seq<Node>, part: Node, trees: seq<Node>)
    returns (plans: seq<Plan>)
    requires Indexed(d, coarse, tops) && part in d.level && forall t :: t in trees ==> t in d.level
    ensures plans == PlansOfPart(d, coarse, tops, order, part, trees)
  {
    plans := [];
    for i := 0 to |trees|
      invariant plans == PlansOfPart(d, coarse, tops, order, part, trees[..i])
    {
      assert trees[..i + 1][..i] == trees[..i];
      BoundersPlannable(d, coarse, tops, order, part, trees[i]);
      var more := PlanTree(d, coarse, part, trees[i], Bounders(d, coarse, tops, order, part, trees[i]));
      plans := plans + more;
    }
    assert trees[..|trees|] == trees;
  }

  ghost function PlansOfAll(d: Dag, coarse: Coarse, tops: map<Node, Node>, order: seq<Node>, parts: seq<Node>,
                            trees: seq<Node>): seq<Plan>
    requires Indexed(d, coarse, tops) && (forall p :: p in parts ==> p in d.level) && forall t :: t in trees ==>
        t in d.level
  {
    if parts == [] then []
    else PlansOfAll(d, coarse, tops, order, parts[..|parts| - 1], trees)
         + PlansOfPart(d, coarse, tops, order, parts[|parts| - 1], trees)
  }

  function PartsOf(coarse: Coarse, order: seq<Node>): seq<Node> {
    Only(order, set c {:trigger c in coarse} | c in coarse :: c.1)
  }

  function TreesOf(tops: map<Node, Node>, order: seq<Node>): seq<Node> {
    Only(order, set w | w in tops :: tops[w])
  }

  method PlanParts(d: Dag, coarse: Coarse, tops: map<Node, Node>, order: seq<Node>, parts: seq<Node>, trees: seq<Node>)
    returns (plans: seq<Plan>)
    requires Indexed(d, coarse, tops) && (forall p :: p in parts ==> p in d.level) && forall t :: t in trees ==>
        t in d.level
    ensures plans == PlansOfAll(d, coarse, tops, order, parts, trees)
  {
    plans := [];
    for i := 0 to |parts|
      invariant plans == PlansOfAll(d, coarse, tops, order, parts[..i], trees)
    {
      assert parts[..i + 1][..i] == parts[..i];
      var more := PlanPart(d, coarse, tops, order, parts[i], trees);
      plans := plans + more;
    }
    assert parts[..|parts|] == parts;
  }

  /** `unknowns`: every part with a coarse bound, in every tree, in name order. `read` is the
      order the wholes are indexed in, `order` the name order. */
  method PlanUnknowns(d: Dag, coarse: Coarse, read: seq<Node>, order: seq<Node>) returns (plans: seq<Plan>)
    requires Placed(d, coarse, read)
    ensures Indexed(d, coarse, TopsOf(d, coarse, read))
    ensures (forall p :: p in PartsOf(coarse, order) ==> p in d.level)
    ensures (forall t :: t in TreesOf(TopsOf(d, coarse, read), order) ==> t in d.level)
    ensures plans == PlansOfAll(d, coarse, TopsOf(d, coarse, read), order, PartsOf(coarse, order), TreesOf(TopsOf(d, coarse, read), order))
  {
    var tops := FindTops(d, coarse, read);
    assert Indexed(d, coarse, TopsOf(d, coarse, read)) by {
      forall w | w in TopsOf(d, coarse, read) ensures TopsOf(d, coarse, read)[w] in d.level {
        TopHoldsWhole(d, coarse, read, w);
      }
    }
    assert
      && (forall p :: p in PartsOf(coarse, order) ==> p in d.level)
      && (forall t :: t in TreesOf(tops, order) ==> t in d.level)
    by {
      OnlyMembers(order, set c {:trigger c in coarse} | c in coarse :: c.1);
      OnlyMembers(order, set w | w in tops :: tops[w]);
      forall p | p in PartsOf(coarse, order) ensures p in d.level {
        var c :| c in coarse && c.1 == p;
      }
      forall t | t in TreesOf(tops, order) ensures t in d.level {
        var w :| w in tops && tops[w] == t;
      }
    }
    plans := PlanParts(d, coarse, tops, order, PartsOf(coarse, order), TreesOf(tops, order));
  }

  // ---- no planned chain skips a level ---------------------------------------------------------------

  /** Consecutive levels are at most one rank apart. */
  ghost predicate NoSkip(ls: seq<Level>) {
    forall i :: 0 <= i < |ls| - 1 ==> Near(ls[i], ls[i + 1])
  }

  /** The levels of a planned chain, ends included. */
  function Chain(d: Dag, w: Node, part: Node): seq<Level>
    requires Wf(d) && w in d.level && part in d.level
  {
    [d.level[w]] + Fillers(d, w, part) + [d.level[part]]
  }

  /** The levels of a whole, a path below it and the part it ends at. */
  function Span(d: Dag, n: Node, p: seq<nat>, part: Node): seq<Level>
    requires n in d.level && part in d.level
  {
    [d.level[n]] + LevelsOn(d, n, p) + [d.level[part]]
  }

  lemma {:induction false} TrailLevels(d: Dag, n: Node, p: seq<nat>, part: Node)
    requires Wf(d) && StepWise(d) && n in d.level && part in d.level && Arrives(d, n, p, part)
    ensures NoSkip(Span(d, n, p, part))
    decreases |p|
  {
    if |p| > 1 {
      TrailLevels(d, Edges(d, n)[p[0]].part, p[1..], part);
    }
    assert NoSkip(Span(d, n, p, part)) by {
      var q := Edges(d, n)[p[0]].part;
      assert NoSkip([d.level[n], d.level[q]]);
      if |p| == 1 {
        assert Span(d, n, p, part) == [d.level[n], d.level[q]];
      } else {
        assert NoSkip([d.level[n]] + Span(d, q, p[1..], part)) by {
          assert
            && [d.level[n], Span(d, q, p[1..], part)[0]][0] == d.level[n]
            && [d.level[n], Span(d, q, p[1..], part)[0]][1] == Span(d, q, p[1..], part)[0];
        }
        assert Span(d, n, p, part) == [d.level[n]] + Span(d, q, p[1..], part);
      }
    }
  }

  lemma {:induction false} LongestIsOne(lists: seq<seq<Level>>)
    requires lists != []
    ensures Longest(lists) in lists && forall l :: l in lists ==> |l| <= |Longest(lists)|
  {
    if |lists| > 1 {
      LongestIsOne(lists[..|lists| - 1]);
      assert lists == lists[..|lists| - 1] + [lists[|lists| - 1]];
    }
  }

  /** A planned chain for a coarse statement skips a level exactly when no path is known and
      the part does not lie below the whole. */
  lemma ChainSkipsIff(d: Dag, w: Node, part: Node)
    requires Wf(d) && StepWise(d) && w in d.level && part in d.level
    requires !NoSkip([d.level[w], d.level[part]])
    ensures NoSkip(Chain(d, w, part)) <==> AllTrails(d, w, part) != [] || Rank(d.level[part]) > Rank(d.level[w])
  {
    var trails := AllTrails(d, w, part);
    var found := LevelLists(d, w, trails, []);
    if trails != [] {
      LongestIsOne(found);
      var j :| 0 <= j < |found| && found[j] == Longest(found);
      assert [] + LevelsOn(d, w, trails[j]) == LevelsOn(d, w, trails[j]);
      assert trails[j] in trails;
      TrailsExact(d, w, |Edges(d, w)|, part);
      TrailLevels(d, w, trails[j], part);
    } else {
      assert NoSkip([d.level[w]] + Between(Rank(d.level[w]), Rank(d.level[part])) + [d.level[part]])
          <==> Rank(d.level[part]) > Rank(d.level[w]) by {
        var chain := [d.level[w]] + Between(Rank(d.level[w]), Rank(d.level[part])) + [d.level[part]];
        if Rank(d.level[part]) > Rank(d.level[w]) {
          forall i | 0 <= i < |chain| ensures Rank(chain[i]) == Rank(d.level[w]) + i {
            if 0 < i < |chain| - 1 {
              assert chain[i] == LEVELS[Rank(d.level[w]) + i];
            }
          }
        } else {
          assert chain == [d.level[w], d.level[part]];
        }
      }
    }
  }

  /** A chain that skips: a bound on a product inside a material, with no path between them. */
  lemma ChainSkips(w: Node, part: Node)
    requires w != part
    ensures var d := Dag(map[], map[w := Material, part := Product], map[w := 0, part := 0]);
            Wf(d) && StepWise(d) && !NoSkip([d.level[w], d.level[part]]) && !NoSkip(Chain(d, w, part))
  {
    var d := Dag(map[], map[w := Material, part := Product], map[w := 0, part := 0]);
    var ends := [d.level[w], d.level[part]];
    assert Rank(ends[0]) == 2 && Rank(ends[1]) == 0;
    ChainSkipsIff(d, w, part);
  }
}
