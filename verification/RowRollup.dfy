/** The three rollup loops of the aggregation engine. Each runs gate, means and worklist
    in one pass; each is proved to evaluate the same value-free schedule. */
module RowRollup {
  import opened Vocabulary
  import opened Sums
  import opened Rollup

  type Amounts = map<Cls, real>

  /** A class's row as the parents see it: the leaf row unless it is missing or empty. */
  function Lookup<V>(leaf: map<Cls, map<Cls, V>>, computed: map<Cls, map<Cls, V>>, s: Cls): map<Cls, V> {
    if s in leaf && leaf[s].Keys != {} then leaf[s]
    else if s in computed then computed[s]
    else map[]
  }

  function At<V>(row: map<Cls, V>, ec: Cls): Option<V> {
    if ec in row then Some(row[ec]) else None
  }

  // ---- amounts ---------------------------------------------------------------

  function Present(subs: seq<Cls>, leaf: map<Cls, Amounts>, computed: map<Cls, Amounts>, ec: Cls): seq<real> {
    if subs == [] then []
    else
      var row := Lookup(leaf, computed, subs[|subs| - 1]);
      Present(subs[..|subs| - 1], leaf, computed, ec) + (if ec in row then [row[ec]] else [])
  }

  function MeanRow(elems: seq<Cls>, subs: seq<Cls>, leaf: map<Cls, Amounts>, computed: map<Cls, Amounts>): Amounts {
    map ec | ec in elems && MeanEntry(subs, leaf, computed, ec).Some? :: MeanEntry(subs, leaf, computed, ec).value
  }

  function MeanEntry(subs: seq<Cls>, leaf: map<Cls, Amounts>, computed: map<Cls, Amounts>, ec: Cls): Option<real> {
    var vals := Present(subs, leaf, computed, ec);
    if vals == [] then None else Some(Sum(vals) / |vals| as real)
  }

  function MeanRows(elems: seq<Cls>, leaf: map<Cls, Amounts>, steps: seq<Step>): map<Cls, Amounts> {
    if steps == [] then map[]
    else
      var computed, last := MeanRows(elems, leaf, steps[..|steps| - 1]), steps[|steps| - 1];
      computed[last.parent := MeanRow(elems, last.subs, leaf, computed)]
  }

  // ---- relative uncertainty (squared) ------------------------------------------

  /** Subclass terms: its amount and its squared relative uncertainty. */
  function Sigmas(subs: seq<Cls>, leaf: map<Cls, Amounts>, computed: map<Cls, Amounts>,
                  best: map<Cls, Amounts>, ec: Cls): seq<Term>
  {
    if subs == [] then []
    else
      var s := subs[|subs| - 1];
      var row := Lookup(leaf, computed, s);
      Sigmas(subs[..|subs| - 1], leaf, computed, best, ec)
      + (if ec in row && s in best && ec in best[s] then [Term(best[s][ec], row[ec])] else [])
  }

  /** Squared relative uncertainty of the mean of `k` subclasses: RSS / k / parent mean. */
  function RelativeVariance(ts: seq<Term>, k: nat, mean: real): real
    requires k != 0 && mean != 0.0
  {
    SquaredRatio(Variance(ts), k as real, mean)
  }

  function UncertaintyEntry(p: Cls, subs: seq<Cls>, leaf: map<Cls, Amounts>, computed: map<Cls, Amounts>,
                            best: map<Cls, Amounts>, ec: Cls): Option<real>
  {
    var ts := Sigmas(subs, leaf, computed, best, ec);
    if subs == [] || ts == [] || p !in best || ec !in best[p] || best[p][ec] == 0.0 then None
    else Some(RelativeVariance(ts, |subs|, best[p][ec]))
  }

  function UncertaintyRow(elems: seq<Cls>, p: Cls, subs: seq<Cls>, leaf: map<Cls, Amounts>,
                          computed: map<Cls, Amounts>, best: map<Cls, Amounts>): Amounts
  {
    map ec | ec in elems && UncertaintyEntry(p, subs, leaf, computed, best, ec).Some? ::
      UncertaintyEntry(p, subs, leaf, computed, best, ec).value
  }

  function UncertaintyRows(elems: seq<Cls>, leaf: map<Cls, Amounts>, best: map<Cls, Amounts>, steps: seq<Step>)
    : map<Cls, Amounts>
  {
    if steps == [] then map[]
    else
      var computed, last := UncertaintyRows(elems, leaf, best, steps[..|steps| - 1]), steps[|steps| - 1];
      computed[last.parent := UncertaintyRow(elems, last.parent, last.subs, leaf, computed, best)]
  }

  // ---- data quality --------------------------------------------------------------

  predicate HasQuality(s: Cls, leaf: map<Cls, map<Cls, Quality>>, computed: map<Cls, map<Cls, Quality>>,
                       best: map<Cls, Amounts>, ec: Cls)
  {
    ec in Lookup(leaf, computed, s) && s in best && ec in best[s]
  }

  /** Running totals: amount-weighted mean quality, total weight, worst score. */
  datatype Pool = Pool(wsum: real, wtot: real, worst: Option<int>) {
    function Add(weight: real, q: Quality): Pool {
      Pool(wsum + weight * q.mean, wtot + weight,
           Some(if worst.Some? && worst.value >= q.score then worst.value else q.score))
    }

    function Entry(): Option<Quality> {
      if worst.None? || wtot <= 0.0 then None else Some(Quality(wsum / wtot, worst.value))
    }
  }

  function QualityPool(subs: seq<Cls>, leaf: map<Cls, map<Cls, Quality>>, computed: map<Cls, map<Cls, Quality>>,
                       best: map<Cls, Amounts>, ec: Cls): Pool
  {
    if subs == [] then Pool(0.0, 0.0, None)
    else
      var pool, s := QualityPool(subs[..|subs| - 1], leaf, computed, best, ec), subs[|subs| - 1];
      if HasQuality(s, leaf, computed, best, ec) then pool.Add(best[s][ec], Lookup(leaf, computed, s)[ec]) else pool
  }

  function QualityEntry(subs: seq<Cls>, leaf: map<Cls, map<Cls, Quality>>, computed: map<Cls, map<Cls, Quality>>,
                        best: map<Cls, Amounts>, ec: Cls): Option<Quality>
  {
    QualityPool(subs, leaf, computed, best, ec).Entry()
  }

  function QualityRow(elems: seq<Cls>, subs: seq<Cls>, leaf: map<Cls, map<Cls, Quality>>,
                      computed: map<Cls, map<Cls, Quality>>, best: map<Cls, Amounts>): map<Cls, Quality>
  {
    map ec | ec in elems && QualityEntry(subs, leaf, computed, best, ec).Some? ::
      QualityEntry(subs, leaf, computed, best, ec).value
  }

  function QualityRows(elems: seq<Cls>, leaf: map<Cls, map<Cls, Quality>>, best: map<Cls, Amounts>, steps: seq<Step>)
    : map<Cls, map<Cls, Quality>>
  {
    if steps == [] then map[]
    else
      var computed, last := QualityRows(elems, leaf, best, steps[..|steps| - 1]), steps[|steps| - 1];
      computed[last.parent := QualityRow(elems, last.subs, leaf, computed, best)]
  }

  // ---- loop bookkeeping shared by the three proofs ------------------------------

  /** The state before visiting `ps[i]` in a round that began with `start`. */
  ghost predicate InRound(h: Hier, start: seq<Step>, steps: seq<Step>, remaining: set<Cls>, ps: seq<Cls>, i: nat) {
    && i <= |ps|
    && Distinct(ps)
    && steps == Sweep(h, start, ps[..i])
    && Valid(h, steps)
    && Pending(h, steps, remaining)
    && forall j :: i <= j < |ps| ==> ps[j] in remaining
  }

  lemma Advance(h: Hier, start: seq<Step>, steps: seq<Step>, remaining: set<Cls>, ps: seq<Cls>, i: nat,
                next: seq<Step>, remaining': set<Cls>)
    requires i < |ps| && InRound(h, start, steps, remaining, ps, i)
    requires next == Visit(h, steps, ps[i]) && Pending(h, next, remaining')
    requires remaining' == remaining || remaining' == remaining - {ps[i]}
    ensures InRound(h, start, next, remaining', ps, i + 1)
  {
    assert ps[..i + 1] == ps[..i] + [ps[i]];
    SweepSnoc(h, start, ps[..i], ps[i]);
    VisitValid(h, steps, ps[i]);
  }

  /** What one visit does to the ghost schedule, in terms of what the source reads. */
  lemma VisitCases(h: Hier, start: seq<Step>, steps: seq<Step>, remaining: set<Cls>, ps: seq<Cls>, i: nat)
    requires i < |ps| && InRound(h, start, steps, remaining, ps, i)
    ensures var p := ps[i];
            var cands := Candidates(h, Done(h, steps), p);
            var gate := ParentGate(h, p, cands);
            && (cands == [] || gate == Average([]) ==> InRound(h, start, steps, remaining, ps, i + 1))
            && (gate == Refused ==> InRound(h, start, steps, remaining - {p}, ps, i + 1))
            && (cands != [] && gate.Average? && gate.subs != [] ==>
                  InRound(h, start, steps + [Step(p, gate.subs)], remaining - {p}, ps, i + 1))
  {
    var p, gated := ps[i], Gated(h, Done(h, steps), ps[i]);
    GateIsFilter(h, Done(h, steps), p);
    if gated == [] {
      Advance(h, start, steps, remaining, ps, i, steps, remaining);
      if !Open(h, p) {
        Advance(h, start, steps, remaining, ps, i, steps, remaining - {p});
      }
    } else {
      ParentsSnoc(steps, Step(p, gated));
      Advance(h, start, steps, remaining, ps, i, steps + [Step(p, gated)], remaining - {p});
    }
  }

  lemma MeanRowsSnoc(elems: seq<Cls>, leaf: map<Cls, Amounts>, steps: seq<Step>, s: Step)
    ensures var rows := MeanRows(elems, leaf, steps);
            MeanRows(elems, leaf, steps + [s]) == rows[s.parent := MeanRow(elems, s.subs, leaf, rows)]
  {
    assert (steps + [s])[..|steps|] == steps;
  }

  lemma {:induction false} MeanRowKeys(elems: seq<Cls>, leaf: map<Cls, Amounts>, steps: seq<Step>)
    ensures MeanRows(elems, leaf, steps).Keys == Parents(steps)
  {
    if steps != [] {
      var init, last := steps[..|steps| - 1], steps[|steps| - 1];
      assert steps == init + [last];
      MeanRowKeys(elems, leaf, init);
      MeanRowsSnoc(elems, leaf, init, last);
      ParentsSnoc(init, last);
    }
  }

  /** The state between rounds: `round` sweeps done, `remaining` still pending. */
  ghost predicate Between(h: Hier, remaining: set<Cls>, round: nat) {
    Pending(h, Sweeps(h, round), remaining)
  }

  lemma StartRound(h: Hier, remaining: set<Cls>, ps: seq<Cls>, round: nat)
    requires Between(h, remaining, round) && Distinct(h.names) && ps == Only(h.names, remaining)
    ensures InRound(h, Sweeps(h, round), Sweeps(h, round), remaining, ps, 0)
  {
    SweepsValid(h, round);
    OnlyMembers(h.names, remaining);
    assert ps[..0] == [];
  }

  lemma EndRound(h: Hier, remaining0: set<Cls>, steps: seq<Step>, remaining: set<Cls>, ps: seq<Cls>, round: nat)
    requires Between(h, remaining0, round) && ps == Only(h.names, remaining0)
    requires InRound(h, Sweeps(h, round), steps, remaining, ps, |ps|)
    ensures steps == Sweeps(h, round + 1) && Between(h, remaining, round + 1)
    ensures steps == Sweeps(h, round) && round <= |h.ancestors| ==> steps == Schedule(h)
  {
    assert ps[..|ps|] == ps;
    SweepsValid(h, round);
    SweepRemaining(h, Sweeps(h, round), remaining0, h.names);
    if steps == Sweeps(h, round) && round <= |h.ancestors| {
      StableSweeps(h, round, |h.ancestors| + 1);
    }
  }

  // ---- the loops -----------------------------------------------------------------

  method Gather(subs: seq<Cls>, leaf: map<Cls, Amounts>, computed: map<Cls, Amounts>, ec: Cls)
    returns (sum: real, n: nat)
    ensures var vals := Present(subs, leaf, computed, ec); sum == Sum(vals) && n == |vals|
  {
    sum, n := 0.0, 0;
    for j := 0 to |subs|
      invariant var vals := Present(subs[..j], leaf, computed, ec); sum == Sum(vals) && n == |vals|
    {
      assert subs[..j + 1][..j] == subs[..j];
      var row := Lookup(leaf, computed, subs[j]);
      if ec in row {
        SumSnoc(Present(subs[..j], leaf, computed, ec), row[ec]);
        sum, n := sum + row[ec], n + 1;
      } else {
        assert Present(subs[..j + 1], leaf, computed, ec) == Present(subs[..j], leaf, computed, ec);
      }
    }
    assert subs[..|subs|] == subs;
  }

  method PoolMeans(elems: seq<Cls>, subs: seq<Cls>, leaf: map<Cls, Amounts>, computed: map<Cls, Amounts>)
    returns (row: Amounts)
    ensures row == MeanRow(elems, subs, leaf, computed)
  {
    row := map[];
    for i := 0 to |elems|
      invariant forall ec :: At(row, ec) == if ec in elems[..i] then MeanEntry(subs, leaf, computed, ec) else None
    {
      assert elems[..i + 1] == elems[..i] + [elems[i]];
      var sum, n := Gather(subs, leaf, computed, elems[i]);
      if n != 0 {
        row := row[elems[i] := sum / n as real];
      }
    }
    assert elems[..|elems|] == elems;
  }

  /** One round of `aggregate`'s ancestor loop. */
  method SweepAmounts(h: Hier, elems: seq<Cls>, leaf: map<Cls, Amounts>, computed0: map<Cls, Amounts>,
                      remaining0: set<Cls>, ghost round: nat)
    returns (computed: map<Cls, Amounts>, remaining: set<Cls>, progressed: bool)
    requires leaf.Keys == h.leaves && Distinct(h.names)
    requires Between(h, remaining0, round) && computed0 == MeanRows(elems, leaf, Sweeps(h, round))
    ensures Between(h, remaining, round + 1) && computed == MeanRows(elems, leaf, Sweeps(h, round + 1))
    ensures !progressed && round <= |h.ancestors| ==> Sweeps(h, round + 1) == Schedule(h)
  {
    computed, remaining, progressed := computed0, remaining0, false;
    ghost var start, steps := Sweeps(h, round), Sweeps(h, round);
    var ps := Only(h.names, remaining);
    StartRound(h, remaining, ps, round);
    for i := 0 to |ps|
      invariant InRound(h, start, steps, remaining, ps, i)
      invariant computed == MeanRows(elems, leaf, steps)
      invariant !progressed ==> steps == start
    {
      var p := ps[i];
      MeanRowKeys(elems, leaf, steps);
      VisitCases(h, start, steps, remaining, ps, i);
      var cands := Candidates(h, leaf.Keys + computed.Keys, p);
      if cands != [] {
        var gate := ParentGate(h, p, cands);
        if gate == Refused {
          remaining, progressed := remaining - {p}, true;
        } else if gate.subs != [] {
          var row := PoolMeans(elems, gate.subs, leaf, computed);
          MeanRowsSnoc(elems, leaf, steps, Step(p, gate.subs));
          computed := computed[p := row];
          remaining, progressed := remaining - {p}, true;
          steps := steps + [Step(p, gate.subs)];
        }
      }
    }
    EndRound(h, remaining0, steps, remaining, ps, round);
  }

  /** The ancestor loop of `aggregate`. */
  method RollUpAmounts(h: Hier, elems: seq<Cls>, leaf: map<Cls, Amounts>) returns (computed: map<Cls, Amounts>)
    requires leaf.Keys == h.leaves && Distinct(h.names)
    ensures computed == MeanRows(elems, leaf, Schedule(h))
    ensures computed.Keys == Parents(Schedule(h))
  {
    computed := map[];
    var remaining, progressed := h.ancestors, true;
    var round := 0;
    while round <= |h.ancestors| && progressed
      invariant Between(h, remaining, round) && round <= |h.ancestors| + 1
      invariant computed == MeanRows(elems, leaf, Sweeps(h, round))
      invariant !progressed ==> Sweeps(h, round) == Schedule(h)
    {
      computed, remaining, progressed := SweepAmounts(h, elems, leaf, computed, remaining, round);
      round := round + 1;
    }
    MeanRowKeys(elems, leaf, Schedule(h));
  }

  // ---- aggregate_uncertainty -------------------------------------------------------

  lemma UncertaintyRowsSnoc(elems: seq<Cls>, leaf: map<Cls, Amounts>, best: map<Cls, Amounts>, steps: seq<Step>,
                            s: Step)
    ensures var rows := UncertaintyRows(elems, leaf, best, steps);
            UncertaintyRows(elems, leaf, best, steps + [s])
              == rows[s.parent := UncertaintyRow(elems, s.parent, s.subs, leaf, rows, best)]
  {
    assert (steps + [s])[..|steps|] == steps;
  }

  lemma {:induction false} UncertaintyRowKeys(elems: seq<Cls>, leaf: map<Cls, Amounts>, best: map<Cls, Amounts>,
                                              steps: seq<Step>)
    ensures UncertaintyRows(elems, leaf, best, steps).Keys == Parents(steps)
  {
    if steps != [] {
      var init, last := steps[..|steps| - 1], steps[|steps| - 1];
      assert steps == init + [last];
      UncertaintyRowKeys(elems, leaf, best, init);
      UncertaintyRowsSnoc(elems, leaf, best, init, last);
      ParentsSnoc(init, last);
    }
  }

  method GatherSigmas(subs: seq<Cls>, leaf: map<Cls, Amounts>, computed: map<Cls, Amounts>,
                      best: map<Cls, Amounts>, ec: Cls) returns (terms: seq<Term>)
    ensures terms == Sigmas(subs, leaf, computed, best, ec)
  {
    terms := [];
    for j := 0 to |subs|
      invariant terms == Sigmas(subs[..j], leaf, computed, best, ec)
    {
      assert subs[..j + 1][..j] == subs[..j];
      var s := subs[j];
      var row := Lookup(leaf, computed, s);
      if ec in row && s in best && ec in best[s] {
        terms := terms + [Term(best[s][ec], row[ec])];
      } else {
        assert Sigmas(subs[..j + 1], leaf, computed, best, ec) == terms;
      }
    }
    assert subs[..|subs|] == subs;
  }

  method SigmaEntry(p: Cls, subs: seq<Cls>, leaf: map<Cls, Amounts>, computed: map<Cls, Amounts>,
                    best: map<Cls, Amounts>, ec: Cls) returns (entry: Option<real>)
    requires subs != []
    ensures entry == UncertaintyEntry(p, subs, leaf, computed, best, ec)
  {
    var terms := GatherSigmas(subs, leaf, computed, best, ec);
    entry := None;
    if terms != [] && p in best && ec in best[p] && best[p][ec] != 0.0 {
      entry := Some(RelativeVariance(terms, |subs|, best[p][ec]));
    }
  }

  method PoolSigmas(elems: seq<Cls>, p: Cls, subs: seq<Cls>, leaf: map<Cls, Amounts>,
                    computed: map<Cls, Amounts>, best: map<Cls, Amounts>) returns (row: Amounts)
    requires subs != []
    ensures row == UncertaintyRow(elems, p, subs, leaf, computed, best)
  {
    row := map[];
    for i := 0 to |elems|
      invariant forall ec ::
          At(row, ec) == if ec in elems[..i] then UncertaintyEntry(p, subs, leaf, computed, best, ec) else None
    {
      assert elems[..i + 1] == elems[..i] + [elems[i]];
      var entry := SigmaEntry(p, subs, leaf, computed, best, elems[i]);
      if entry.Some? {
        row := row[elems[i] := entry.value];
      }
    }
    assert elems[..|elems|] == elems;
  }

  method SweepUncertainty(h: Hier, elems: seq<Cls>, leaf: map<Cls, Amounts>, best: map<Cls, Amounts>,
                          computed0: map<Cls, Amounts>, remaining0: set<Cls>, ghost round: nat)
    returns (computed: map<Cls, Amounts>, remaining: set<Cls>, progressed: bool)
    requires leaf.Keys == h.leaves && Distinct(h.names)
    requires Between(h, remaining0, round) && computed0 == UncertaintyRows(elems, leaf, best, Sweeps(h, round))
    ensures Between(h, remaining, round + 1) && computed == UncertaintyRows(elems, leaf, best, Sweeps(h, round + 1))
    ensures !progressed && round <= |h.ancestors| ==> Sweeps(h, round + 1) == Schedule(h)
  {
    computed, remaining, progressed := computed0, remaining0, false;
    ghost var start, steps := Sweeps(h, round), Sweeps(h, round);
    var ps := Only(h.names, remaining);
    StartRound(h, remaining, ps, round);
    for i := 0 to |ps|
      invariant InRound(h, start, steps, remaining, ps, i)
      invariant computed == UncertaintyRows(elems, leaf, best, steps)
      invariant !progressed ==> steps == start
    {
      var p := ps[i];
      UncertaintyRowKeys(elems, leaf, best, steps);
      VisitCases(h, start, steps, remaining, ps, i);
      var cands := Candidates(h, leaf.Keys + computed.Keys, p);
      if cands != [] {
        var gate := ParentGate(h, p, cands);
        if gate == Refused {
          remaining, progressed := remaining - {p}, true;
        } else if gate.subs != [] {
          var row := PoolSigmas(elems, p, gate.subs, leaf, computed, best);
          UncertaintyRowsSnoc(elems, leaf, best, steps, Step(p, gate.subs));
          computed := computed[p := row];
          remaining, progressed := remaining - {p}, true;
          steps := steps + [Step(p, gate.subs)];
        }
      }
    }
    EndRound(h, remaining0, steps, remaining, ps, round);
  }

  /** The ancestor loop of `aggregate_uncertainty`. */
  method RollUpUncertainty(h: Hier, elems: seq<Cls>, leaf: map<Cls, Amounts>, best: map<Cls, Amounts>)
    returns (computed: map<Cls, Amounts>)
    requires leaf.Keys == h.leaves && Distinct(h.names)
    ensures computed == UncertaintyRows(elems, leaf, best, Schedule(h))
    ensures computed.Keys == Parents(Schedule(h))
  {
    computed := map[];
    var remaining, progressed := h.ancestors, true;
    var round := 0;
    while round <= |h.ancestors| && progressed
      invariant Between(h, remaining, round) && round <= |h.ancestors| + 1
      invariant computed == UncertaintyRows(elems, leaf, best, Sweeps(h, round))
      invariant !progressed ==> Sweeps(h, round) == Schedule(h)
    {
      computed, remaining, progressed :=
        SweepUncertainty(h, elems, leaf, best, computed, remaining, round);
      round := round + 1;
    }
    UncertaintyRowKeys(elems, leaf, best, Schedule(h));
  }

  // ---- aggregate_dq ------------------------------------------------------------------

  lemma QualityRowsSnoc(elems: seq<Cls>, leaf: map<Cls, map<Cls, Quality>>, best: map<Cls, Amounts>,
                        steps: seq<Step>, s: Step)
    ensures var rows := QualityRows(elems, leaf, best, steps);
            QualityRows(elems, leaf, best, steps + [s])
              == rows[s.parent := QualityRow(elems, s.subs, leaf, rows, best)]
  {
    assert (steps + [s])[..|steps|] == steps;
  }

  lemma {:induction false} QualityRowKeys(elems: seq<Cls>, leaf: map<Cls, map<Cls, Quality>>,
                                          best: map<Cls, Amounts>, steps: seq<Step>)
    ensures QualityRows(elems, leaf, best, steps).Keys == Parents(steps)
  {
    if steps != [] {
      var init, last := steps[..|steps| - 1], steps[|steps| - 1];
      assert steps == init + [last];
      QualityRowKeys(elems, leaf, best, init);
      QualityRowsSnoc(elems, leaf, best, init, last);
      ParentsSnoc(init, last);
    }
  }

  method GatherQualities(subs: seq<Cls>, leaf: map<Cls, map<Cls, Quality>>, computed: map<Cls, map<Cls, Quality>>,
                         best: map<Cls, Amounts>, ec: Cls) returns (pool: Pool)
    ensures pool == QualityPool(subs, leaf, computed, best, ec)
  {
    pool := Pool(0.0, 0.0, None);
    for j := 0 to |subs|
      invariant pool == QualityPool(subs[..j], leaf, computed, best, ec)
    {
      assert subs[..j + 1][..j] == subs[..j];
      if HasQuality(subs[j], leaf, computed, best, ec) {
        pool := pool.Add(best[subs[j]][ec], Lookup(leaf, computed, subs[j])[ec]);
      }
    }
    assert subs[..|subs|] == subs;
  }

  method PoolQualities(elems: seq<Cls>, subs: seq<Cls>, leaf: map<Cls, map<Cls, Quality>>,
                       computed: map<Cls, map<Cls, Quality>>, best: map<Cls, Amounts>) returns (row: map<Cls, Quality>)
    ensures row == QualityRow(elems, subs, leaf, computed, best)
  {
    row := map[];
    for i := 0 to |elems|
      invariant forall ec ::
          At(row, ec) == if ec in elems[..i] then QualityEntry(subs, leaf, computed, best, ec) else None
    {
      assert elems[..i + 1] == elems[..i] + [elems[i]];
      var pool := GatherQualities(subs, leaf, computed, best, elems[i]);
      if pool.worst.Some? && pool.wtot > 0.0 {
        row := row[elems[i] := Quality(pool.wsum / pool.wtot, pool.worst.value)];
      }
    }
    assert elems[..|elems|] == elems;
  }

  method SweepQuality(h: Hier, elems: seq<Cls>, leaf: map<Cls, map<Cls, Quality>>, best: map<Cls, Amounts>,
                      computed0: map<Cls, map<Cls, Quality>>, remaining0: set<Cls>, ghost round: nat)
    returns (computed: map<Cls, map<Cls, Quality>>, remaining: set<Cls>, progressed: bool)
    requires leaf.Keys == h.leaves && Distinct(h.names)
    requires Between(h, remaining0, round) && computed0 == QualityRows(elems, leaf, best, Sweeps(h, round))
    ensures Between(h, remaining, round + 1) && computed == QualityRows(elems, leaf, best, Sweeps(h, round + 1))
    ensures !progressed && round <= |h.ancestors| ==> Sweeps(h, round + 1) == Schedule(h)
  {
    computed, remaining, progressed := computed0, remaining0, false;
    ghost var start, steps := Sweeps(h, round), Sweeps(h, round);
    var ps := Only(h.names, remaining);
    StartRound(h, remaining, ps, round);
    for i := 0 to |ps|
      invariant InRound(h, start, steps, remaining, ps, i)
      invariant computed == QualityRows(elems, leaf, best, steps)
      invariant !progressed ==> steps == start
    {
      var p := ps[i];
      QualityRowKeys(elems, leaf, best, steps);
      VisitCases(h, start, steps, remaining, ps, i);
      var cands := Candidates(h, leaf.Keys + computed.Keys, p);
      if cands != [] {
        var gate := ParentGate(h, p, cands);
        if gate == Refused {
          remaining, progressed := remaining - {p}, true;
        } else if gate.subs != [] {
          var row := PoolQualities(elems, gate.subs, leaf, computed, best);
          QualityRowsSnoc(elems, leaf, best, steps, Step(p, gate.subs));
          computed := computed[p := row];
          remaining, progressed := remaining - {p}, true;
          steps := steps + [Step(p, gate.subs)];
        }
      }
    }
    EndRound(h, remaining0, steps, remaining, ps, round);
  }

  /** The ancestor loop of `aggregate_dq`. */
  method RollUpQuality(h: Hier, elems: seq<Cls>, leaf: map<Cls, map<Cls, Quality>>, best: map<Cls, Amounts>)
    returns (computed: map<Cls, map<Cls, Quality>>)
    requires leaf.Keys == h.leaves && Distinct(h.names)
    ensures computed == QualityRows(elems, leaf, best, Schedule(h))
    ensures computed.Keys == Parents(Schedule(h))
  {
    computed := map[];
    var remaining, progressed := h.ancestors, true;
    var round := 0;
    while round <= |h.ancestors| && progressed
      invariant Between(h, remaining, round) && round <= |h.ancestors| + 1
      invariant computed == QualityRows(elems, leaf, best, Sweeps(h, round))
      invariant !progressed ==> Sweeps(h, round) == Schedule(h)
    {
      computed, remaining, progressed :=
        SweepQuality(h, elems, leaf, best, computed, remaining, round);
      round := round + 1;
    }
    QualityRowKeys(elems, leaf, best, Schedule(h));
  }
}
