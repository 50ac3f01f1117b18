/** The corrective re-prompt cascade: which fault of a grounded answer is sent back, and which
    retry counter pays for it. */
module Reprompt {

  /** The nine guarded counters, and the count of repeated wrong-subject answers. */
  datatype Retries = Retries(
    frac: nat, resolve: nat, shape: nat, labels: nat, missingLabel: nat,
    unc: nat, recompute: nat, order: nat, subject: nat, repeated: nat)

  const NO_RETRIES: Retries := Retries(0, 0, 0, 0, 0, 0, 0, 0, 0, 0)

  /** What the predicates say about one answer. */
  datatype Faults = Faults(
    correct: bool,
    fraction: bool,
    unresolved: bool,
    shape: bool,
    stringLabels: bool,
    missingLabels: bool,
    missingUncertainty: bool,
    wrongUncertainty: bool,
    ungrounded: bool,
    wrongOrder: bool,
    routesMissing: bool,
    wrongSubject: bool)

  /** The guards that look at the score fire on wrong answers only, and an uncertainty is not
      both missing and wrong. */
  ghost predicate Consistent(f: Faults) {
    && (f.unresolved || f.wrongUncertainty || f.wrongOrder || f.routesMissing || f.wrongSubject ==> !f.correct)
    && !(f.missingUncertainty && f.wrongUncertainty)
  }

  datatype Kind =
    | Fraction | Resolve | Shape | StringLabels | MissingLabels | MissingUncertainty | WrongUncertainty
    | Ungrounded | Order | Routes | Subject

  datatype Verdict = Accept | Retry(kind: Kind, retries: Retries)

  /** `build_reprompt`: the first fault whose counter is not used up is sent back. */
  function BuildReprompt(f: Faults, isRepeat: bool, r: Retries): Verdict {
    if f.fraction && r.frac < 2 then Retry(Fraction, r.(frac := r.frac + 1))
    else if f.unresolved && r.resolve < 2 then Retry(Resolve, r.(resolve := r.resolve + 1))
    else if f.shape && r.shape < 2 then Retry(Shape, r.(shape := r.shape + 1))
    else if f.stringLabels && r.labels < 2 then Retry(StringLabels, r.(labels := r.labels + 1))
    else if f.missingLabels && r.missingLabel < 2 then Retry(MissingLabels, r.(missingLabel := r.missingLabel + 1))
    else if f.missingUncertainty && r.unc < 2 then Retry(MissingUncertainty, r.(unc := r.unc + 1))
    else if f.wrongUncertainty && r.unc < 2 then Retry(WrongUncertainty, r.(unc := r.unc + 1))
    else if f.ungrounded && r.recompute < 2 then Retry(Ungrounded, r.(recompute := r.recompute + 1))
    else if f.wrongOrder && r.order < 2 then Retry(Order, r.(order := r.order + 1))
    else if f.routesMissing && r.subject < 2 then Retry(Routes, r.(subject := r.subject + 1))
    else if f.wrongSubject && r.subject < 5 then
      Retry(Subject, r.(subject := r.subject + 1, repeated := r.repeated + if isRepeat then 1 else 0))
    else Accept
  }

  /** Retries given back so far. */
  function Spent(r: Retries): nat {
    r.frac + r.resolve + r.shape + r.labels + r.missingLabel + r.unc + r.recompute + r.order + r.subject
  }

  /** No counter is past its cap, and only wrong-subject retries count as repeats. */
  ghost predicate WithinCaps(r: Retries) {
    && r.frac <= 2 && r.resolve <= 2 && r.shape <= 2 && r.labels <= 2 && r.missingLabel <= 2
    && r.unc <= 2 && r.recompute <= 2 && r.order <= 2 && r.subject <= 5
    && r.repeated <= r.subject
  }

  const MAX_CORRECTIONS: nat := 21

  predicate Raised(f: Faults, k: Kind) {
    match k
    case Fraction => f.fraction
    case Resolve => f.unresolved
    case Shape => f.shape
    case StringLabels => f.stringLabels
    case MissingLabels => f.missingLabels
    case MissingUncertainty => f.missingUncertainty
    case WrongUncertainty => f.wrongUncertainty
    case Ungrounded => f.ungrounded
    case Order => f.wrongOrder
    case Routes => f.routesMissing
    case Subject => f.wrongSubject
  }

  /** The counter a kind of retry pays with, and its cap. */
  function Counter(r: Retries, k: Kind): nat {
    match k
    case Fraction => r.frac
    case Resolve => r.resolve
    case Shape => r.shape
    case StringLabels => r.labels
    case MissingLabels => r.missingLabel
    case MissingUncertainty => r.unc
    case WrongUncertainty => r.unc
    case Ungrounded => r.recompute
    case Order => r.order
    case Routes => r.subject
    case Subject => r.subject
  }

  function Cap(k: Kind): nat {
    if k == Subject then 5 else 2
  }

  function Turn(k: Kind): nat {
    match k
    case Fraction => 0
    case Resolve => 1
    case Shape => 2
    case StringLabels => 3
    case MissingLabels => 4
    case MissingUncertainty => 5
    case WrongUncertainty => 6
    case Ungrounded => 7
    case Order => 8
    case Routes => 9
    case Subject => 10
  }

  /** A fault is open when it is raised and its counter is not used up. */
  predicate Open(f: Faults, r: Retries, k: Kind) {
    Raised(f, k) && Counter(r, k) < Cap(k)
  }

  lemma RetriesOpen(f: Faults, isRepeat: bool, r: Retries)
    requires BuildReprompt(f, isRepeat, r).Retry?
    ensures var v := BuildReprompt(f, isRepeat, r);
            Open(f, r, v.kind) && Spent(v.retries) == Spent(r) + 1
                && Counter(v.retries, v.kind) == Counter(r, v.kind) + 1
  {
  }

  lemma RetriesEarliest(f: Faults, isRepeat: bool, r: Retries, k: Kind)
    requires BuildReprompt(f, isRepeat, r).Retry? && Open(f, r, k)
    ensures Turn(BuildReprompt(f, isRepeat, r).kind) <= Turn(k)
  {
    match k
    case Fraction => case Resolve => case Shape => case StringLabels => case MissingLabels => case MissingUncertainty =>
    case WrongUncertainty => case Ungrounded => case Order => case Routes => case Subject =>
  }

  /** An answer is accepted exactly when no raised fault has a retry left; otherwise the
      earliest open fault is sent back and pays exactly one retry, of its own counter. */
  lemma CascadeExact(f: Faults, isRepeat: bool, r: Retries)
    ensures var v := BuildReprompt(f, isRepeat, r);
            && (v.Accept? <==> forall k :: !Open(f, r, k))
            && (v.Retry? ==>
                  && Open(f, r, v.kind)
                  && (forall k :: Open(f, r, k) ==> Turn(v.kind) <= Turn(k))
                  && Spent(v.retries) == Spent(r) + 1
                  && Counter(v.retries, v.kind) == Counter(r, v.kind) + 1)
  {
    if BuildReprompt(f, isRepeat, r).Accept? {
      forall k ensures !Open(f, r, k) {
        assert !Open(f, r, k);
      }
    } else {
      RetriesOpen(f, isRepeat, r);
      forall k | Open(f, r, k) ensures Turn(BuildReprompt(f, isRepeat, r).kind) <= Turn(k) {
        RetriesEarliest(f, isRepeat, r, k);
      }
    }
  }

  /** The counters stay within their caps, so at most 21 retries are ever given back. */
  lemma CapsKept(f: Faults, isRepeat: bool, r: Retries)
    requires WithinCaps(r)
    ensures var v := BuildReprompt(f, isRepeat, r); v.Retry? ==> WithinCaps(v.retries)
  {
  }

  // ---- the attempt counter ------------------------------------------------------------------------

  /** What one pass of the attempt loop did: a corrective retry, a plain failed attempt, or
      the end of the loop. */
  datatype Event = Correct(faults: Faults, isRepeat: bool) | Fail | Stop

  datatype LoopState = LoopState(attemptNo: int, retries: Retries)

  /** One pass: the attempt is counted, and given back when the pass was corrective. */
  function Advance(s: LoopState, e: Event): LoopState {
    match e
    case Correct(f, isRepeat) =>
      var v := BuildReprompt(f, isRepeat, s.retries);
      if v.Retry? then LoopState(s.attemptNo, v.retries) else LoopState(s.attemptNo + 1, s.retries)
    case _ => LoopState(s.attemptNo + 1, s.retries)
  }

  function After(events: seq<Event>): LoopState {
    if events == [] then LoopState(0, NO_RETRIES) else Advance(After(events[..|events| - 1]), events[|events| - 1])
  }

  /** The loop goes on after a corrective retry or a plain failure only. */
  ghost predicate GoesOn(s: LoopState, e: Event) {
    e.Fail? || (e.Correct? && BuildReprompt(e.faults, e.isRepeat, s.retries).Retry?)
  }

  /** Every pass started below the limit, after a pass that let the loop go on. */
  ghost predicate Possible(events: seq<Event>, limit: int) {
    events != [] ==>
      var init := events[..|events| - 1];
      && Possible(init, limit)
      && After(init).attemptNo < limit
      && (init != [] ==> GoesOn(After(init[..|init| - 1]), init[|init| - 1]))
  }

  /** Each pass uses up one attempt or one retry. */
  lemma {:induction false} PassesCounted(events: seq<Event>)
    ensures WithinCaps(After(events).retries)
    ensures |events| == After(events).attemptNo + Spent(After(events).retries)
    ensures After(events).attemptNo >= 0
  {
    if events != [] {
      var init, e := events[..|events| - 1], events[|events| - 1];
      PassesCounted(init);
      if e.Correct? {
        CapsKept(e.faults, e.isRepeat, After(init).retries);
        if BuildReprompt(e.faults, e.isRepeat, After(init).retries).Retry? {
          RetriesOpen(e.faults, e.isRepeat, After(init).retries);
        }
      }
    }
  }

  /** The attempt loop makes at most `limit` + 21 passes although retries give attempts back. */
  lemma AttemptsBounded(events: seq<Event>, limit: int)
    requires Possible(events, limit)
    ensures |events| <= (if limit > 0 then limit else 0) + MAX_CORRECTIONS
  {
    if events != [] {
      assert After(events).attemptNo <= limit by {
      }
      assert |events| - After(events).attemptNo <= MAX_CORRECTIONS by {
        assert 0 <= |events| - After(events).attemptNo <= MAX_CORRECTIONS by {
          PassesCounted(events);
        }
      }
    }
  }

  const NO_FAULTS: Faults := Faults(false, false, false, false, false, false, false, false, false, false, false, false)

  /** A wrong answer with one fault: the `i`-th of a run that uses up the counters in turn. */
  function OneFault(i: nat): Faults {
    if i < 2 then NO_FAULTS.(fraction := true)
    else if i < 4 then NO_FAULTS.(unresolved := true)
    else if i < 6 then NO_FAULTS.(shape := true)
    else if i < 8 then NO_FAULTS.(stringLabels := true)
    else if i < 10 then NO_FAULTS.(missingLabels := true)
    else if i < 12 then NO_FAULTS.(missingUncertainty := true)
    else if i < 14 then NO_FAULTS.(ungrounded := true)
    else if i < 16 then NO_FAULTS.(wrongOrder := true)
    else NO_FAULTS.(wrongSubject := true)
  }

  function Corrections(n: nat): seq<Event> {
    seq(n, i requires 0 <= i < n => Correct(OneFault(i), false))
  }

  /** The counters after `n` passes of one fault each. */
  function Used(n: nat): Retries
    requires n <= MAX_CORRECTIONS
  {
    Retries(Min(n, 2), Least(n, 2), Least(n, 4), Least(n, 6), Least(n, 8), Least(n, 10), Least(n, 12), Least(n, 14), if n > 16 then n - 16 else 0, 0)
  }

  function Min(a: nat, b: nat): nat {
    if a < b then a else b
  }

  /** What is left of `n` after `from`, at most two. */
  function Least(n: nat, from: nat): nat {
    if n <= from then 0 else Min(n - from, 2)
  }

  lemma UsedStep(n: nat)
    requires n < MAX_CORRECTIONS
    ensures var v := BuildReprompt(OneFault(n), false, Used(n)); v.Retry? && v.retries == Used(n + 1)
    ensures Consistent(OneFault(n))
  {
  }

  lemma {:induction false} AfterCorrections(n: nat)
    requires n <= MAX_CORRECTIONS
    ensures After(Corrections(n)) == LoopState(0, Used(n))
  {
    if n > 0 {
      AfterCorrections(n - 1);
      UsedStep(n - 1);
      assert Corrections(n)[..n - 1] == Corrections(n - 1);
    }
  }

  lemma CorrectionGoesOn(n: nat)
    requires n < MAX_CORRECTIONS
    ensures GoesOn(After(Corrections(n)), Correct(OneFault(n), false))
  {
    AfterCorrections(n);
    UsedStep(n);
  }

  lemma {:induction false} AllCorrections(n: nat)
    requires n <= MAX_CORRECTIONS
    ensures Possible(Corrections(n), 1)
  {
    if n > 0 {
      AllCorrections(n - 1);
      AfterCorrections(n - 1);
      assert Corrections(n)[..n - 1] == Corrections(n - 1);
      if n > 1 {
        CorrectionGoesOn(n - 2);
        assert Corrections(n - 1)[..n - 2] == Corrections(n - 2);
      }
    }
  }

  function Failures(n: nat): seq<Event> {
    seq(n, _ => Fail)
  }

  lemma {:induction false} ThenFailures(n: nat, limit: nat)
    requires n <= limit && limit > 0
    ensures var events := Corrections(MAX_CORRECTIONS) + Failures(n);
            After(events) == LoopState(n, Used(MAX_CORRECTIONS)) && Possible(events, limit)
  {
    var events := Corrections(MAX_CORRECTIONS) + Failures(n);
    if n == 0 {
      assert events == Corrections(MAX_CORRECTIONS);
      AllCorrections(MAX_CORRECTIONS);
      AfterCorrections(MAX_CORRECTIONS);
      PossibleLater(events, 1, limit);
    } else {
      ThenFailures(n - 1, limit);
      var init := Corrections(MAX_CORRECTIONS) + Failures(n - 1);
      assert events[..|events| - 1] == init;
      if n == 1 {
        CorrectionGoesOn(MAX_CORRECTIONS - 1);
        assert init[..|init| - 1] == Corrections(MAX_CORRECTIONS - 1);
      }
    }
  }

  lemma {:induction false} PossibleLater(events: seq<Event>, limit: int, more: int)
    requires Possible(events, limit) && limit <= more
    ensures Possible(events, more)
  {
    if events != [] {
      PossibleLater(events[..|events| - 1], limit, more);
    }
  }

  ghost predicate OneFaultEach(events: seq<Event>) {
    forall i :: 0 <= i < |events| && events[i].Correct? ==>
        Consistent(events[i].faults) && exists k :: events[i].faults == OneFault(k)
  }

  /** The bound is reached by answers with one fault each: 21 corrections can come before the
      first attempt is spent. */
  lemma BoundReached(limit: nat)
    requires limit > 0
    ensures exists events :: Possible(events, limit) && |events| == limit + MAX_CORRECTIONS && OneFaultEach(events)
  {
    var events := Corrections(MAX_CORRECTIONS) + Failures(limit);
    ThenFailures(limit, limit);
    forall i | 0 <= i < |events| && events[i].Correct? ensures Consistent(events[i].faults) && exists k ::
        events[i].faults == OneFault(k) {
      assert i < MAX_CORRECTIONS && events[i] == Correct(OneFault(i), false);
      UsedStep(i);
    }
    assert OneFaultEach(events) && |events| == limit + MAX_CORRECTIONS;
  }
}
