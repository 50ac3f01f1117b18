/** The benchmark's answering loop: one tool-loop attempt under a token budget, and the
    re-prompt loop around it. The model, the tools and the clock are the caller's choice. */
module Agent {
  import opened Vocabulary
  import opened Rollup
  import opened Reprompt

  /** One tool call, and what the clock, the guards and the endpoint do with it. `query` is
      the normalised query text. */
  datatype ToolCall = ToolCall(
    expired: bool, sparql: bool, query: string, blocked: bool, timedOut: bool, grounded: bool)

  /** One chat turn: whether the clock or the provider cut it off, what it cost, the calls it
      asked for, and, without calls, the answer it parses to. */
  datatype ChatTurn = ChatTurn(
    expired: bool, chatTimedOut: bool, chatFailed: bool, tokens: nat, calls: seq<ToolCall>, answer: Option<int>)

  datatype Attempt = Attempt(
    answer: Option<int>, usedSparql: bool, timedOut: bool, capped: bool, chatFailed: bool, tokens: nat)

  // ---- the calls of an attempt -------------------------------------------------------------------

  /** What the calls made so far come to: the query texts sent to the endpoint, in order, the
      calls that came back with rows, the queries asked for, and whether a call cut the
      attempt off. */
  datatype Trace = Trace(sent: seq<string>, hits: nat, queries: nat, cut: bool)

  const NO_CALLS: Trace := Trace([], 0, 0, false)

  function Passed(b: bool): nat {
    if b then 1 else 0
  }

  predicate HasText(c: ToolCall) {
    c.sparql && c.query != ""
  }

  /** The call goes out: no guard blocks it and its text was not sent before. */
  predicate GoesOut(t: Trace, c: ToolCall) {
    !(c.sparql && c.blocked) && !(HasText(c) && c.query in t.sent)
  }

  predicate Grounds(t: Trace, c: ToolCall) {
    GoesOut(t, c) && !c.timedOut && c.sparql && c.grounded
  }

  /** One more call. */
  function Called(t: Trace, c: ToolCall): Trace {
    if t.cut || c.expired then t.(cut := true)
    else if !GoesOut(t, c) then t.(queries := t.queries + Passed(c.sparql))
    else Trace(t.sent + (if HasText(c) then [c.query] else []), t.hits + Passed(Grounds(t, c)),
               t.queries + Passed(c.sparql), c.timedOut)
  }

  function AfterCalls(t: Trace, calls: seq<ToolCall>): Trace {
    if calls == [] then t else Called(AfterCalls(t, calls[..|calls| - 1]), calls[|calls| - 1])
  }

  /** The calls of the first `n` chat turns. */
  function TraceOf(turn: nat -> ChatTurn, n: nat): Trace {
    if n == 0 then NO_CALLS else AfterCalls(TraceOf(turn, n - 1), turn(n - 1).calls)
  }

  lemma {:induction false} CallsDistinct(t: Trace, calls: seq<ToolCall>)
    requires Distinct(t.sent)
    ensures Distinct(AfterCalls(t, calls).sent)
  {
    if calls != [] {
      var before := AfterCalls(t, calls[..|calls| - 1]);
      CallsDistinct(t, calls[..|calls| - 1]);
      assert forall i :: 0 <= i < |before.sent| ==> before.sent[i] in before.sent;
    }
  }

  /** No query text is sent to the endpoint twice in an attempt. */
  lemma {:induction false} SentOnce(turn: nat -> ChatTurn, n: nat)
    ensures Distinct(TraceOf(turn, n).sent)
  {
    if n != 0 {
      SentOnce(turn, n - 1);
      CallsDistinct(TraceOf(turn, n - 1), turn(n - 1).calls);
    }
  }

  /** Call `j` was made, went out and came back with rows. */
  ghost predicate GroundedCall(t: Trace, calls: seq<ToolCall>, j: nat) {
    j < |calls|
        && var before := AfterCalls(t, calls[..j]); !before.cut && !calls[j].expired && Grounds(before, calls[j])
  }

  lemma {:induction false} HitsInCalls(t: Trace, calls: seq<ToolCall>)
    ensures t.hits <= AfterCalls(t, calls).hits
    ensures t.hits < AfterCalls(t, calls).hits <==> exists j: nat :: GroundedCall(t, calls, j)
  {
    if calls != [] {
      var last := |calls| - 1;
      HitsInCalls(t, calls[..last]);
      forall j: nat | j < last ensures GroundedCall(t, calls, j) <==> GroundedCall(t, calls[..last], j) {
        assert calls[..last][..j] == calls[..j];
      }
      if t.hits < AfterCalls(t, calls).hits && !(t.hits < AfterCalls(t, calls[..last]).hits) {
        assert GroundedCall(t, calls, last);
      }
    }
  }

  ghost predicate GroundedAt(turn: nat -> ChatTurn, k: nat, j: nat) {
    GroundedCall(TraceOf(turn, k), turn(k).calls, j)
  }

  /** An attempt has a grounded hit exactly when one of its calls went out for the first time
      and came back with rows. */
  lemma {:induction false} HitsAreCalls(turn: nat -> ChatTurn, n: nat)
    ensures TraceOf(turn, n).hits > 0
        <==> exists k: nat, j: nat {:trigger GroundedAt(turn, k, j)} :: k < n && GroundedAt(turn, k, j)
  {
    if n != 0 {
      HitsAreCalls(turn, n - 1);
      HitsInCalls(TraceOf(turn, n - 1), turn(n - 1).calls);
      if TraceOf(turn, n).hits > 0 && TraceOf(turn, n - 1).hits == 0 {
        var j: nat :| GroundedCall(TraceOf(turn, n - 1), turn(n - 1).calls, j);
        assert GroundedAt(turn, n - 1, j);
      }
      if k: nat, j: nat :| k < n && GroundedAt(turn, k, j) {
        assert k < n - 1 || GroundedCall(TraceOf(turn, n - 1), turn(n - 1).calls, j);
      }
    }
  }

  /** What an attempt keeps in memory: whether a query grounded it, how many queries it asked
      for, and how often it asked for each text it sent. */
  datatype Progress = Progress(used: bool, queries: nat, seen: map<string, nat>)

  /** The memory agrees with the calls. */
  ghost predicate Remembers(p: Progress, t: Trace) {
    && (p.used <==> t.hits > 0) && p.queries == t.queries
    && (!t.cut ==> forall q :: q in p.seen <==> q in t.sent)
  }

  /** The calls of one turn. `late` reports a deadline or a tool timeout. */
  method RunCalls(calls: seq<ToolCall>, start: Progress, ghost before: Trace) returns (p: Progress, late: bool)
    requires Remembers(start, before) && !before.cut
    ensures Remembers(p, AfterCalls(before, calls)) && late == AfterCalls(before, calls).cut
  {
    p, late := start, false;
    for i := 0 to |calls|
      invariant Remembers(p, AfterCalls(before, calls[..i])) && !AfterCalls(before, calls[..i]).cut
    {
      var c := calls[i];
      ghost var t := AfterCalls(before, calls[..i]);
      assert calls[..i + 1][..i] == calls[..i] && AfterCalls(before, calls[..i + 1]) == Called(t, c);
      if c.expired {
        CutStays(before, calls, i + 1);
        late := true;
        return;
      }
      p := p.(queries := p.queries + Passed(c.sparql));
      if c.sparql && c.blocked {
        continue;
      }
      if c.sparql && c.query != "" && c.query in p.seen {
        p := p.(seen := p.seen[c.query := p.seen[c.query] + 1]);
        continue;
      }
      if c.timedOut {
        CutStays(before, calls, i + 1);
        late := true;
        return;
      }
      if c.sparql && c.grounded {
        p := p.(used := true);
      }
      if c.sparql && c.query != "" {
        p := p.(seen := p.seen[c.query := 1]);
      }
    }
    assert calls[..|calls|] == calls;
  }

  /** Once a call cut the attempt off, nothing more is sent. */
  lemma {:induction false} CutStays(t: Trace, calls: seq<ToolCall>, i: nat)
    requires i <= |calls| && AfterCalls(t, calls[..i]).cut
    ensures AfterCalls(t, calls) == AfterCalls(t, calls[..i])
  {
    if i < |calls| {
      var init := calls[..|calls| - 1];
      assert init[..i] == calls[..i];
      CutStays(t, init, i);
    } else {
      assert calls[..i] == calls;
    }
  }

  /** Tokens of the first `n` chat turns. */
  function TokensOf(turn: nat -> ChatTurn, n: nat): nat {
    if n == 0 then 0 else TokensOf(turn, n - 1) + turn(n - 1).tokens
  }

  // ---- commit nudges --------------------------------------------------------------------------------

  /** How many of the budget fractions 0.5, 0.7, 0.85 and 0.95 are spent. */
  function BudgetLevel(spent: nat, budget: Option<nat>): nat {
    if budget.None? || budget.value == 0 then 0
    else
      var f := spent as real / budget.value as real;
      Passed(f >= 0.5) + Passed(f >= 0.7) + Passed(f >= 0.85) + Passed(f >= 0.95)
  }

  function QueryLevel(queries: nat): nat {
    Passed(queries >= 8) + Passed(queries >= 14) + Passed(queries >= 20) + Passed(queries >= 28)
  }

  function WantLevel(spent: nat, budget: Option<nat>, queries: nat, step: nat, maxSteps: nat): (r: nat)
    ensures r <= 5
  {
    var b, q := BudgetLevel(spent, budget), QueryLevel(queries);
    var crossed := if b < q then q else b;
    crossed + Passed(step >= 1 && step + 3 >= maxSteps)
  }

  function LastLevel(levels: seq<nat>): nat {
    if levels == [] then 0 else levels[|levels| - 1]
  }

  /** The level wanted before chat call `k`. */
  function WantAt(turn: nat -> ChatTurn, k: nat, maxSteps: nat, budget: Option<nat>, before: nat): nat {
    WantLevel(before + TokensOf(turn, k), budget, TraceOf(turn, k).queries, k, maxSteps)
  }

  /** The levels of the nudges sent before the first `n` chat calls: a grounded attempt is
      nudged whenever it crosses more limits than the last nudge answered to. */
  function NudgesOf(turn: nat -> ChatTurn, n: nat, maxSteps: nat, budget: Option<nat>, before: nat): seq<nat> {
    if n == 0 then []
    else
      var levels := NudgesOf(turn, n - 1, maxSteps, budget, before);
      var want := WantAt(turn, n - 1, maxSteps, budget, before);
      if TraceOf(turn, n - 1).hits > 0 && want > LastLevel(levels) then levels + [want] else levels
  }

  ghost predicate Rising(levels: seq<nat>) {
    (forall i, j :: 0 <= i < j < |levels| ==> levels[i] < levels[j])
        && (forall i :: 0 <= i < |levels| ==> i < levels[i] <= 5)
  }

  lemma RisingSnoc(levels: seq<nat>, want: nat)
    requires Rising(levels) && want > LastLevel(levels) && want <= 5
    ensures Rising(levels + [want])
  {
    if levels != [] {
      assert |levels| - 1 < levels[|levels| - 1] < want;
    }
  }

  /** Nudges only get firmer, so an attempt gets at most five. */
  lemma {:induction false} NudgesRise(turn: nat -> ChatTurn, n: nat, maxSteps: nat, budget: Option<nat>, before: nat)
    ensures Rising(NudgesOf(turn, n, maxSteps, budget, before))
    ensures |NudgesOf(turn, n, maxSteps, budget, before)| <= 5
  {
    if n != 0 {
      var levels, want := NudgesOf(turn, n - 1, maxSteps, budget, before), WantAt(turn, n - 1, maxSteps, budget, before);
      NudgesRise(turn, n - 1, maxSteps, budget, before);
      if want > LastLevel(levels) {
        RisingSnoc(levels, want);
        assert |levels| < want <= 5;
      }
    }
  }

  // ---- one attempt ------------------------------------------------------------------------------------

  predicate OverBudget(turn: nat -> ChatTurn, k: nat, budget: Option<nat>, before: nat) {
    budget.Some? && before + TokensOf(turn, k) >= budget.value
  }

  /** Chat call `k` is made and answered. */
  predicate Answered(turn: nat -> ChatTurn, k: nat, budget: Option<nat>, before: nat) {
    !turn(k).expired && !OverBudget(turn, k, budget, before) && !turn(k).chatTimedOut && !turn(k).chatFailed
  }

  /** Turn `k` asked for tools and none of its calls cut the attempt off. */
  predicate GoesOnAfter(turn: nat -> ChatTurn, k: nat) {
    turn(k).calls != [] && !TraceOf(turn, k + 1).cut
  }

  /** The chat calls an attempt makes, the first `k` of them made. */
  function ChatsFrom(turn: nat -> ChatTurn, k: nat, maxSteps: nat, budget: Option<nat>, before: nat): nat
    decreases maxSteps - k
  {
    if k >= maxSteps || !Answered(turn, k, budget, before) then k
    else if !GoesOnAfter(turn, k) then k + 1
    else ChatsFrom(turn, k + 1, maxSteps, budget, before)
  }

  function Chats(turn: nat -> ChatTurn, maxSteps: nat, budget: Option<nat>, before: nat): nat {
    ChatsFrom(turn, 0, maxSteps, budget, before)
  }

  /** What an attempt comes to after `n` chat calls, and what ended it. */
  function Ended(turn: nat -> ChatTurn, n: nat, maxSteps: nat, budget: Option<nat>, before: nat): Attempt {
    var a := Attempt(None, TraceOf(turn, n).hits > 0, false, false, false, TokensOf(turn, n));
    if n > 0 && turn(n - 1).calls == [] then a.(answer := turn(n - 1).answer)
    else if n > 0 && TraceOf(turn, n).cut then a.(timedOut := true)
    else if n >= maxSteps then a
    else if turn(n).expired then a.(timedOut := true)
    else if OverBudget(turn, n, budget, before) then a.(timedOut := true, capped := true)
    else if turn(n).chatTimedOut then a.(timedOut := true)
    else a.(chatFailed := true)
  }

  function AttemptOf(turn: nat -> ChatTurn, maxSteps: nat, budget: Option<nat>, before: nat): Attempt {
    Ended(turn, Chats(turn, maxSteps, budget, before), maxSteps, budget, before)
  }

  /** The steps that came as far as the nudge. */
  function NudgePoints(turn: nat -> ChatTurn, n: nat, maxSteps: nat, budget: Option<nat>, before: nat): nat {
    if n < maxSteps && (n == 0 || GoesOnAfter(turn, n - 1)) && !turn(n).expired && !OverBudget(turn, n, budget, before)
    then n + 1 else n
  }

  /** The chat calls are an unbroken run: each is answered, each but the last goes on, and the
      run stops at the step limit, at a call that is not answered, or after a last turn. */
  lemma {:induction false} ChatsExact(turn: nat -> ChatTurn, k: nat, maxSteps: nat, budget: Option<nat>, before: nat)
    requires k <= maxSteps
    ensures var n := ChatsFrom(turn, k, maxSteps, budget, before);
            && k <= n <= maxSteps
            && (forall i :: k <= i < n ==> Answered(turn, i, budget, before))
            && (forall i :: k <= i < n - 1 ==> GoesOnAfter(turn, i))
            && (n == maxSteps || !Answered(turn, n, budget, before) || (k < n && !GoesOnAfter(turn, n - 1)))
    decreases maxSteps - k
  {
    if k < maxSteps && Answered(turn, k, budget, before) && GoesOnAfter(turn, k) {
      ChatsExact(turn, k + 1, maxSteps, budget, before);
    }
  }

  /** Every chat call of an attempt starts below the budget; an answer is what the last turn
      parsed to, and that turn asked for no tool. */
  lemma AttemptInBudget(turn: nat -> ChatTurn, maxSteps: nat, budget: Option<nat>, before: nat)
    ensures var n, a := Chats(turn, maxSteps, budget, before), AttemptOf(turn, maxSteps, budget, before);
            && n <= maxSteps && a.tokens == TokensOf(turn, n)
            && (budget.Some? ==> forall k :: 0 <= k < n ==> before + TokensOf(turn, k) < budget.value)
            && (a.answer.Some? ==> n > 0 && turn(n - 1).calls == [] && a.answer == turn(n - 1).answer)
            && (a.capped ==> budget.Some? && before + a.tokens >= budget.value)
            && (a.usedSparql <==> TraceOf(turn, n).hits > 0)
  {
    ChatsExact(turn, 0, maxSteps, budget, before);
    if budget.Some? {
      forall k | 0 <= k < Chats(turn, maxSteps, budget, before) ensures before + TokensOf(turn, k) < budget.value {
        assert Answered(turn, k, budget, before);
      }
    }
  }

  /** The first `k` chat calls are made and the attempt goes on. */
  ghost predicate Underway(turn: nat -> ChatTurn, k: nat, maxSteps: nat, budget: Option<nat>, before: nat) {
    && k <= maxSteps && (k > 0 ==> GoesOnAfter(turn, k - 1))
    && Chats(turn, maxSteps, budget, before) == ChatsFrom(turn, k, maxSteps, budget, before)
  }

  lemma StopsBefore(turn: nat -> ChatTurn, k: nat, maxSteps: nat, budget: Option<nat>, before: nat)
    requires Underway(turn, k, maxSteps, budget, before) && (k == maxSteps || !Answered(turn, k, budget, before))
    ensures Chats(turn, maxSteps, budget, before) == k
    ensures var a := Attempt(None, TraceOf(turn, k).hits > 0, false, false, false, TokensOf(turn, k));
            AttemptOf(turn, maxSteps, budget, before)
              == if k == maxSteps then a
                 else if turn(k).expired then a.(timedOut := true)
                 else if OverBudget(turn, k, budget, before) then a.(timedOut := true, capped := true)
                 else if turn(k).chatTimedOut then a.(timedOut := true)
                 else a.(chatFailed := true)
    ensures NudgePoints(turn, k, maxSteps, budget, before)
         == if k < maxSteps && !turn(k).expired && !OverBudget(turn, k, budget, before) then k + 1 else k
  {
  }

  lemma StopsAfter(turn: nat -> ChatTurn, k: nat, maxSteps: nat, budget: Option<nat>, before: nat)
    requires Underway(turn, k, maxSteps, budget, before) && k < maxSteps && Answered(turn, k, budget, before)
    requires !GoesOnAfter(turn, k)
    ensures Chats(turn, maxSteps, budget, before) == k + 1
    ensures var a := Attempt(None, TraceOf(turn, k + 1).hits > 0, false, false, false, TokensOf(turn, k + 1));
            AttemptOf(turn, maxSteps, budget, before)
              == if turn(k).calls == [] then a.(answer := turn(k).answer) else a.(timedOut := true)
    ensures NudgePoints(turn, k + 1, maxSteps, budget, before) == k + 1
  {
  }

  /** The commit nudge before a chat call. */
  method Nudge(ghost turn: nat -> ChatTurn, k: nat, maxSteps: nat, budget: Option<nat>, before: nat,
               p: Progress, tokens: nat, nudges: seq<nat>, nudgeLevel: nat)
    returns (next: seq<nat>, level: nat)
    requires Remembers(p, TraceOf(turn, k)) && tokens == TokensOf(turn, k)
    requires nudges == NudgesOf(turn, k, maxSteps, budget, before) && nudgeLevel == LastLevel(nudges)
    ensures next == NudgesOf(turn, k + 1, maxSteps, budget, before) && level == LastLevel(next)
  {
    next, level := nudges, nudgeLevel;
    var want := WantLevel(before + tokens, budget, p.queries, k, maxSteps);
    if p.used && want > nudgeLevel {
      next, level := nudges + [want], want;
    }
  }

  /** What an attempt answers, and the nudges it sent. */
  ghost predicate Attempted(turn: nat -> ChatTurn, maxSteps: nat, budget: Option<nat>, before: nat, a: Attempt,
                            nudges: seq<nat>) {
    && a == AttemptOf(turn, maxSteps, budget, before)
    && nudges == NudgesOf(turn, NudgePoints(turn, Chats(turn, maxSteps, budget, before), maxSteps, budget, before), maxSteps, budget, before)
  }

  /** The chat call of one step, after the nudge: an attempt that ends here, or nothing. */
  method OneChat(t: ChatTurn, p: Progress, tokens: nat, ghost turn: nat -> ChatTurn, ghost k: nat, ghost maxSteps: nat,
                 ghost budget: Option<nat>, ghost before: nat)
    returns (done: Option<Attempt>, q: Progress)
    requires t == turn(k) && k < maxSteps && Underway(turn, k, maxSteps, budget, before) && !t.expired
    requires !OverBudget(turn, k, budget, before)
    requires Remembers(p, TraceOf(turn, k)) && !TraceOf(turn, k).cut && tokens == TokensOf(turn, k)
    ensures done.Some? ==> done.value == AttemptOf(turn, maxSteps, budget, before)
                           && NudgePoints(turn, Chats(turn, maxSteps, budget, before), maxSteps, budget, before)
                                == k + 1
    ensures done.None? ==> Underway(turn, k + 1, maxSteps, budget, before) && Remembers(q, TraceOf(turn, k + 1)) && !TraceOf(turn, k + 1).cut
  {
    q := p;
    if t.chatTimedOut || t.chatFailed {
      StopsBefore(turn, k, maxSteps, budget, before);
      return Some(Attempt(None, p.used, t.chatTimedOut, false, !t.chatTimedOut, tokens)), q;
    }
    if t.calls == [] {
      StopsAfter(turn, k, maxSteps, budget, before);
      return Some(Attempt(t.answer, p.used, false, false, false, tokens + t.tokens)), q;
    }
    var late;
    q, late := RunCalls(t.calls, p, TraceOf(turn, k));
    if late {
      StopsAfter(turn, k, maxSteps, budget, before);
      return Some(Attempt(None, q.used, true, false, false, tokens + t.tokens)), q;
    }
    done := None;
  }

  /** An attempt's variables before step `k`. */
  ghost predicate AtStep(turn: nat -> ChatTurn, k: nat, maxSteps: nat, budget: Option<nat>, before: nat,
                         p: Progress, tokens: nat, nudges: seq<nat>, nudgeLevel: nat) {
    && Remembers(p, TraceOf(turn, k)) && !TraceOf(turn, k).cut && tokens == TokensOf(turn, k)
    && Underway(turn, k, maxSteps, budget, before)
    && nudges == NudgesOf(turn, k, maxSteps, budget, before) && nudgeLevel == LastLevel(nudges)
  }

  lemma StopsAt(turn: nat -> ChatTurn, k: nat, maxSteps: nat, budget: Option<nat>, before: nat,
                p: Progress, tokens: nat, nudges: seq<nat>, nudgeLevel: nat)
    requires AtStep(turn, k, maxSteps, budget, before, p, tokens, nudges, nudgeLevel)
    requires k == maxSteps || turn(k).expired || OverBudget(turn, k, budget, before)
    ensures var stopped := k < maxSteps;
            Attempted(turn, maxSteps, budget, before,
                      Attempt(None, p.used, stopped, stopped && !turn(k).expired, false, tokens), nudges)
  {
    StopsBefore(turn, k, maxSteps, budget, before);
  }

  lemma StepDone(turn: nat -> ChatTurn, k: nat, maxSteps: nat, budget: Option<nat>, before: nat,
                 p: Progress, tokens: nat, nudges: seq<nat>, nudgeLevel: nat)
    requires Underway(turn, k + 1, maxSteps, budget, before) && Remembers(p, TraceOf(turn, k + 1))
    requires !TraceOf(turn, k + 1).cut
    requires tokens == TokensOf(turn, k) && nudges == NudgesOf(turn, k + 1, maxSteps, budget, before)
    requires nudgeLevel == LastLevel(nudges)
    ensures AtStep(turn, k + 1, maxSteps, budget, before, p, tokens + turn(k).tokens, nudges, nudgeLevel)
  {
  }

  /** One pass of the step loop: a nudge where one is due, then one chat call. */
  method OneStep(t: ChatTurn, p: Progress, tokens: nat, nudges: seq<nat>, nudgeLevel: nat, ghost turn: nat -> ChatTurn,
                 k: nat,
                 maxSteps: nat, budget: Option<nat>, before: nat)
    returns (done: Option<Attempt>, q: Progress, next: seq<nat>, level: nat)
    requires AtStep(turn, k, maxSteps, budget, before, p, tokens, nudges, nudgeLevel)
    requires k < maxSteps && t == turn(k) && !t.expired && !OverBudget(turn, k, budget, before)
    ensures done.Some? ==> Attempted(turn, maxSteps, budget, before, done.value, next)
    ensures done.None? ==> AtStep(turn, k + 1, maxSteps, budget, before, q, tokens + t.tokens, next, level)
  {
    next, level := Nudge(turn, k, maxSteps, budget, before, p, tokens, nudges, nudgeLevel);
    done, q := OneChat(t, p, tokens, turn, k, maxSteps, budget, before);
    if done.None? {
      StepDone(turn, k, maxSteps, budget, before, q, tokens, next, level);
    }
  }

  /** `_attempt`. */
  method RunAttempt(turn: nat -> ChatTurn, maxSteps: nat, budget: Option<nat>, before: nat)
    returns (a: Attempt, nudges: seq<nat>)
    ensures Attempted(turn, maxSteps, budget, before, a, nudges)
  {
    var p := Progress(false, 0, map[]);
    var tokens: nat, nudgeLevel: nat := 0, 0;
    nudges := [];
    for step := 0 to maxSteps
      invariant AtStep(turn, step, maxSteps, budget, before, p, tokens, nudges, nudgeLevel)
    {
      var t := turn(step);
      if t.expired || (budget.Some? && before + tokens >= budget.value) {
        StopsAt(turn, step, maxSteps, budget, before, p, tokens, nudges, nudgeLevel);
        return Attempt(None, p.used, true, !t.expired, false, tokens), nudges;
      }
      var done;
      done, p, nudges, nudgeLevel := OneStep(t, p, tokens, nudges, nudgeLevel, turn, step, maxSteps, budget, before);
      if done.Some? {
        return done.value, nudges;
      }
      tokens := tokens + t.tokens;
    }
    StopsAt(turn, maxSteps, maxSteps, budget, before, p, tokens, nudges, nudgeLevel);
    a := Attempt(None, p.used, false, false, false, tokens);
  }

  // ---- the attempt loop ---------------------------------------------------------------------------------

  /** One pass: whether the clock ran out before it, the turns the model would take, and what
      the score predicates say about the answer. */
  datatype Pass = Pass(expired: bool, turn: nat -> ChatTurn, faults: Faults)

  datatype Settings = Settings(limit: int, maxSteps: nat, budget: Option<nat>, acceptFirst: bool)

  datatype Score = Right | Wrong | Unscored

  datatype Outcome = Outcome(chosen: Attempt, providerFailed: bool, score: Score, tokens: nat)

  const NO_ATTEMPT: Attempt := Attempt(None, false, true, false, false, 0)

  /** The score of the chosen attempt: provider failures and ungrounded answers are wrong,
      ask mode scores nothing, and only then is the answer looked at. */
  function ScoreOf(a: Attempt, providerFailed: bool, acceptFirst: bool, scoreAnswer: Option<int> -> bool): Score {
    if providerFailed then Wrong
    else if acceptFirst && a.usedSparql then Unscored
    else if !a.usedSparql then Wrong
    else if scoreAnswer(a.answer) then Right
    else Wrong
  }

  /** What happens after one attempt. */
  datatype Step = Done(providerFailed: bool) | Again(event: Event, retries: Retries, rejected: set<int>)

  /** The branches of the loop body after `_attempt` returns. */
  function AfterAttempt(a: Attempt, faults: Faults, acceptFirst: bool, r: Retries, rejected: set<int>): Step {
    if a.chatFailed && !a.usedSparql && a.answer.None? then Done(true)
    else if a.answer.Some? && a.usedSparql then
      if acceptFirst then Done(false)
      else
        var isRepeat := a.answer.value in rejected;
        match BuildReprompt(faults, isRepeat, r)
        case Accept => Done(false)
        case Retry(_, r2) => Again(Correct(faults, isRepeat), r2, rejected + {a.answer.value})
    else if a.capped || a.timedOut then Done(false)
    else Again(Fail, r, rejected)
  }

  // ---- what a run is ------------------------------------------------------------------------------------

  function SpentOn(attempts: seq<Attempt>): nat {
    if attempts == [] then 0 else SpentOn(attempts[..|attempts| - 1]) + attempts[|attempts| - 1].tokens
  }

  /** The attempts of the first `n` passes: each may spend what the ones before it left. */
  function AttemptsRun(world: nat -> Pass, cfg: Settings, n: nat): (r: seq<Attempt>)
    ensures |r| == n
  {
    if n == 0 then []
    else
      var init := AttemptsRun(world, cfg, n - 1);
      init + [AttemptOf(world(n - 1).turn, cfg.maxSteps, cfg.budget, SpentOn(init))]
  }

  /** The counters and the rejected answers of the loop. */
  datatype Ledger = Ledger(s: LoopState, rejected: set<int>)

  /** The counters after a pass that goes again: a corrective retry gives its attempt back. */
  function Counted(s: LoopState, next: Step): LoopState
    requires next.Again?
  {
    LoopState(if next.event.Correct? then s.attemptNo else s.attemptNo + 1, next.retries)
  }

  /** The ledger before pass `n`. */
  function LedgerOf(world: nat -> Pass, cfg: Settings, n: nat): Ledger
    decreases n, 0
  {
    if n == 0 then Ledger(LoopState(0, NO_RETRIES), {})
    else
      var next := StepOf(world, cfg, n - 1);
      if next.Done? then LedgerOf(world, cfg, n - 1)
          else Ledger(Counted(LedgerOf(world, cfg, n - 1).s, next), next.rejected)
  }

  /** What follows from pass `k`. */
  function StepOf(world: nat -> Pass, cfg: Settings, k: nat): Step
    decreases k, 1
  {
    var l := LedgerOf(world, cfg, k);
    AfterAttempt(AttemptsRun(world, cfg, k + 1)[k], world(k).faults, cfg.acceptFirst, l.s.retries, l.rejected)
  }

  /** Pass `k` is made: an attempt is left, and neither the clock nor the budget has run out. */
  predicate Starts(world: nat -> Pass, cfg: Settings, k: nat) {
    && LedgerOf(world, cfg, k).s.attemptNo < cfg.limit && !world(k).expired
    && (cfg.budget.Some? ==> SpentOn(AttemptsRun(world, cfg, k)) < cfg.budget.value)
  }

  /** The pass starts, and another follows it. */
  ghost predicate Continues(world: nat -> Pass, cfg: Settings, k: nat) {
    Starts(world, cfg, k) && StepOf(world, cfg, k).Again?
  }

  /** The first `n` passes are made and none of them ends the loop. */
  ghost predicate Going(world: nat -> Pass, cfg: Settings, n: nat) {
    forall k: nat {:trigger Continues(world, cfg, k)} :: k < n ==> Continues(world, cfg, k)
  }

  /** The loop makes exactly `n` passes. */
  ghost predicate Makes(world: nat -> Pass, cfg: Settings, n: nat) {
    if n > 0 && StepOf(world, cfg, n - 1).Done? then Going(world, cfg, n - 1) && Starts(world, cfg, n - 1)
    else Going(world, cfg, n) && !Starts(world, cfg, n)
  }

  /** A loop makes one number of passes. */
  lemma MakesOnce(world: nat -> Pass, cfg: Settings, n: nat, m: nat)
    requires Makes(world, cfg, n) && Makes(world, cfg, m)
    ensures n == m
  {
    if n < m {
      NoneSooner(world, cfg, n, m);
    } else if m < n {
      NoneSooner(world, cfg, m, n);
    }
  }

  lemma NoneSooner(world: nat -> Pass, cfg: Settings, n: nat, m: nat)
    requires Makes(world, cfg, m) && n < m
    ensures !Makes(world, cfg, n)
  {
    assert n > 0 ==> Continues(world, cfg, n - 1);
    assert n < m - 1 || Going(world, cfg, m) ==> Continues(world, cfg, n);
  }

  /** The outcome of a loop of `n` passes: the last attempt is chosen, and scored. */
  function OutcomeOf(world: nat -> Pass, cfg: Settings, n: nat, scoreAnswer: Option<int> -> bool): Outcome {
    var attempts := AttemptsRun(world, cfg, n);
    var chosen := if n == 0 then NO_ATTEMPT else attempts[n - 1];
    var failed := n > 0 && StepOf(world, cfg, n - 1) == Done(true);
    Outcome(chosen, failed, ScoreOf(chosen, failed, cfg.acceptFirst, scoreAnswer), SpentOn(attempts))
  }

  // ---- the passes as events ------------------------------------------------------------------------

  function EventOf(world: nat -> Pass, cfg: Settings, k: nat): Event {
    var next := StepOf(world, cfg, k);
    if next.Again? then next.event else Stop
  }

  function EventsOf(world: nat -> Pass, cfg: Settings, n: nat): (r: seq<Event>)
    ensures |r| == n
  {
    if n == 0 then [] else EventsOf(world, cfg, n - 1) + [EventOf(world, cfg, n - 1)]
  }

  /** The log may be carried on: the last pass, if any, let the loop go on. */
  ghost predicate Ongoing(events: seq<Event>) {
    events != [] ==> GoesOn(After(events[..|events| - 1]), events[|events| - 1])
  }

  lemma LogSnoc(events: seq<Event>, e: Event, limit: int)
    requires Possible(events, limit) && Ongoing(events) && After(events).attemptNo < limit
    ensures Possible(events + [e], limit) && After(events + [e]) == Advance(After(events), e)
    ensures GoesOn(After(events), e) ==> Ongoing(events + [e])
  {
    assert (events + [e])[..|events|] == events;
  }

  lemma StepAdvances(world: nat -> Pass, cfg: Settings, k: nat)
    requires StepOf(world, cfg, k).Again?
    ensures var s, e := LedgerOf(world, cfg, k).s, EventOf(world, cfg, k); GoesOn(s, e) && Advance(s, e) == LedgerOf(world, cfg, k + 1).s
  {
    var l := LedgerOf(world, cfg, k);
  }

  /** The events so far, a pass that can start, and its event. */
  lemma OneEventMore(world: nat -> Pass, cfg: Settings, k: nat, s: LoopState)
    requires var events := EventsOf(world, cfg, k); Possible(events, cfg.limit) && Ongoing(events) && After(events) == s
    requires s.attemptNo < cfg.limit && GoesOn(s, EventOf(world, cfg, k))
    ensures var events := EventsOf(world, cfg, k + 1);
            Possible(events, cfg.limit) && Ongoing(events) && After(events) == Advance(s, EventOf(world, cfg, k))
  {
    LogSnoc(EventsOf(world, cfg, k), EventOf(world, cfg, k), cfg.limit);
  }

  /** The loop's counters are those of its events, and every pass it makes was possible. */
  lemma {:induction false} GoingIsPossible(world: nat -> Pass, cfg: Settings, n: nat)
    requires Going(world, cfg, n)
    ensures Possible(EventsOf(world, cfg, n), cfg.limit) && Ongoing(EventsOf(world, cfg, n))
    ensures After(EventsOf(world, cfg, n)) == LedgerOf(world, cfg, n).s
  {
    if n > 0 {
      GoingIsPossible(world, cfg, n - 1);
      assert Continues(world, cfg, n - 1);
      StepAdvances(world, cfg, n - 1);
      OneEventMore(world, cfg, n - 1, LedgerOf(world, cfg, n - 1).s);
    }
  }

  lemma NextIsPossible(world: nat -> Pass, cfg: Settings, n: nat)
    requires Going(world, cfg, n) && Starts(world, cfg, n)
    ensures Possible(EventsOf(world, cfg, n + 1), cfg.limit)
  {
    GoingIsPossible(world, cfg, n);
    LogSnoc(EventsOf(world, cfg, n), EventOf(world, cfg, n), cfg.limit);
  }

  /** A loop that can go on has passes left. */
  lemma PassesLeft(world: nat -> Pass, cfg: Settings, n: nat)
    requires Going(world, cfg, n) && Starts(world, cfg, n)
    ensures n + 1 <= (if cfg.limit > 0 then cfg.limit else 0) + MAX_CORRECTIONS
  {
    NextIsPossible(world, cfg, n);
    AttemptsBounded(EventsOf(world, cfg, n + 1), cfg.limit);
  }

  // ---- the loop -----------------------------------------------------------------------------------------

  /** The loop's variables before a pass. */
  ghost predicate AtPass(world: nat -> Pass, cfg: Settings, attempts: seq<Attempt>, spent: nat, l: Ledger) {
    var n := |attempts|;
    && Going(world, cfg, n) && attempts == AttemptsRun(world, cfg, n)
    && spent == SpentOn(attempts) && l == LedgerOf(world, cfg, n)
  }

  /** One pass: an attempt, and what follows from it. */
  method OnePass(world: nat -> Pass, cfg: Settings, attempts: seq<Attempt>, spent: nat, l: Ledger)
    returns (a: Attempt, next: Step)
    requires AtPass(world, cfg, attempts, spent, l)
    ensures attempts + [a] == AttemptsRun(world, cfg, |attempts| + 1) && next == StepOf(world, cfg, |attempts|)
    ensures spent + a.tokens == SpentOn(attempts + [a])
  {
    var nudges;
    a, nudges := RunAttempt(world(|attempts|).turn, cfg.maxSteps, cfg.budget, spent);
    assert (attempts + [a])[..|attempts|] == attempts;
    next := AfterAttempt(a, world(|attempts|).faults, cfg.acceptFirst, l.s.retries, l.rejected);
  }

  lemma PassGoesOn(world: nat -> Pass, cfg: Settings, attempts: seq<Attempt>, spent: nat, l: Ledger, a: Attempt,
                   next: Step)
    requires AtPass(world, cfg, attempts, spent, l) && Starts(world, cfg, |attempts|) && next.Again?
    requires attempts + [a] == AttemptsRun(world, cfg, |attempts| + 1) && next == StepOf(world, cfg, |attempts|)
    requires spent + a.tokens == SpentOn(attempts + [a])
    ensures AtPass(world, cfg, attempts + [a], spent + a.tokens, Ledger(Counted(l.s, next), next.rejected))
  {
  }

  lemma PassEnds(world: nat -> Pass, cfg: Settings, attempts: seq<Attempt>, spent: nat, l: Ledger, a: Attempt,
                 next: Step,
                 scoreAnswer: Option<int> -> bool)
    requires AtPass(world, cfg, attempts, spent, l) && Starts(world, cfg, |attempts|) && next.Done?
    requires attempts + [a] == AttemptsRun(world, cfg, |attempts| + 1) && next == StepOf(world, cfg, |attempts|)
    requires spent + a.tokens == SpentOn(attempts + [a])
    ensures Makes(world, cfg, |attempts| + 1)
    ensures OutcomeOf(world, cfg, |attempts| + 1, scoreAnswer)
         == Outcome(a, next.providerFailed, ScoreOf(a, next.providerFailed, cfg.acceptFirst, scoreAnswer), spent
             + a.tokens)
  {
  }

  lemma LoopEnds(world: nat -> Pass, cfg: Settings, attempts: seq<Attempt>, spent: nat, l: Ledger, last: Attempt,
                 scoreAnswer: Option<int> -> bool)
    requires AtPass(world, cfg, attempts, spent, l) && !Starts(world, cfg, |attempts|)
    requires last == if attempts == [] then NO_ATTEMPT else attempts[|attempts| - 1]
    ensures Makes(world, cfg, |attempts|)
    ensures OutcomeOf(world, cfg, |attempts|, scoreAnswer)
         == Outcome(last, false, ScoreOf(last, false, cfg.acceptFirst, scoreAnswer), spent)
  {
    if attempts != [] {
      assert Continues(world, cfg, |attempts| - 1);
    }
  }

  predicate MayStart(world: nat -> Pass, cfg: Settings, k: nat, spent: nat, l: Ledger) {
    l.s.attemptNo < cfg.limit && !world(k).expired && (cfg.budget.Some? ==> spent < cfg.budget.value)
  }

  /** `run_one`: attempts until one is accepted, the clock or the budget runs out, or the
      attempts are used up; corrective retries give their attempt back. */
  method RunOne(world: nat -> Pass, cfg: Settings, scoreAnswer: Option<int> -> bool)
    returns (out: Outcome, attempts: seq<Attempt>)
    ensures Makes(world, cfg, |attempts|) && attempts == AttemptsRun(world, cfg, |attempts|)
    ensures out == OutcomeOf(world, cfg, |attempts|, scoreAnswer)
  {
    var l := Ledger(LoopState(0, NO_RETRIES), {});
    var spent: nat := 0;
    attempts := [];
    while MayStart(world, cfg, |attempts|, spent, l)
      invariant AtPass(world, cfg, attempts, spent, l)
      decreases (if cfg.limit > 0 then cfg.limit else 0) + MAX_CORRECTIONS - |attempts|
    {
      PassesLeft(world, cfg, |attempts|);
      var a, next := OnePass(world, cfg, attempts, spent, l);
      if next.Done? {
        PassEnds(world, cfg, attempts, spent, l, a, next, scoreAnswer);
        attempts := attempts + [a];
        out := Outcome(a, next.providerFailed, ScoreOf(a, next.providerFailed, cfg.acceptFirst, scoreAnswer), spent
            + a.tokens);
        return;
      }
      PassGoesOn(world, cfg, attempts, spent, l, a, next);
      attempts, spent, l := attempts + [a], spent + a.tokens, Ledger(Counted(l.s, next), next.rejected);
    }
    var last := if attempts == [] then NO_ATTEMPT else attempts[|attempts| - 1];
    LoopEnds(world, cfg, attempts, spent, l, last, scoreAnswer);
    out := Outcome(last, false, ScoreOf(last, false, cfg.acceptFirst, scoreAnswer), spent);
  }

  // ---- what every run keeps ------------------------------------------------------------------------------

  /** The loop makes at most `limit` + 21 attempts although corrective retries give theirs back. */
  lemma AttemptsInRun(world: nat -> Pass, cfg: Settings, n: nat)
    requires Makes(world, cfg, n)
    ensures n <= (if cfg.limit > 0 then cfg.limit else 0) + MAX_CORRECTIONS
  {
    if n > 0 {
      assert Going(world, cfg, n) ==> Continues(world, cfg, n - 1);
      PassesLeft(world, cfg, n - 1);
    }
  }

  /** What the last chat call of the run cost. */
  function LastCost(world: nat -> Pass, cfg: Settings, n: nat): nat {
    if n == 0 then 0
    else
      var c := ChatsIn(world, cfg, n - 1);
      if c > 0 then world(n - 1).turn(c - 1).tokens else LastCost(world, cfg, n - 1)
  }

  /** The chat calls of pass `k`. */
  function ChatsIn(world: nat -> Pass, cfg: Settings, k: nat): nat {
    Chats(world(k).turn, cfg.maxSteps, cfg.budget, SpentOn(AttemptsRun(world, cfg, k)))
  }

  /** What was spent before chat call `j` of pass `k`. */
  function SpentBefore(world: nat -> Pass, cfg: Settings, k: nat, j: nat): nat {
    SpentOn(AttemptsRun(world, cfg, k)) + TokensOf(world(k).turn, j)
  }

  lemma PassSpends(world: nat -> Pass, cfg: Settings, k: nat)
    ensures SpentOn(AttemptsRun(world, cfg, k + 1)) == SpentBefore(world, cfg, k, ChatsIn(world, cfg, k))
  {
    var init := AttemptsRun(world, cfg, k);
    AttemptInBudget(world(k).turn, cfg.maxSteps, cfg.budget, SpentOn(init));
    assert AttemptsRun(world, cfg, k + 1)[..k] == init;
  }

  lemma PassInBudget(world: nat -> Pass, cfg: Settings, k: nat)
    requires cfg.budget.Some?
    ensures forall j :: 0 <= j < ChatsIn(world, cfg, k) ==> SpentBefore(world, cfg, k, j) < cfg.budget.value
  {
    AttemptInBudget(world(k).turn, cfg.maxSteps, cfg.budget, SpentOn(AttemptsRun(world, cfg, k)));
  }

  lemma PassCost(world: nat -> Pass, cfg: Settings, k: nat)
    ensures var c := ChatsIn(world, cfg, k);
            SpentOn(AttemptsRun(world, cfg, k + 1))
              == if c == 0 then SpentOn(AttemptsRun(world, cfg, k))
                  else SpentBefore(world, cfg, k, c - 1) + world(k).turn(c - 1).tokens
  {
    PassSpends(world, cfg, k);
  }

  lemma {:induction false} OverspendsByLast(world: nat -> Pass, cfg: Settings, n: nat)
    requires cfg.budget.Some?
    ensures SpentOn(AttemptsRun(world, cfg, n)) > 0 ==>
        SpentOn(AttemptsRun(world, cfg, n)) < cfg.budget.value + LastCost(world, cfg, n)
  {
    if n > 0 {
      var c := ChatsIn(world, cfg, n - 1);
      PassCost(world, cfg, n - 1);
      if c > 0 {
        PassInBudget(world, cfg, n - 1);
        assert SpentBefore(world, cfg, n - 1, c - 1) < cfg.budget.value;
        assert LastCost(world, cfg, n) == world(n - 1).turn(c - 1).tokens;
      } else {
        OverspendsByLast(world, cfg, n - 1);
      }
    }
  }

  /** Every chat call of the run starts below the budget, so the run overspends by less than
      its last chat call. */
  lemma RunInBudget(world: nat -> Pass, cfg: Settings, n: nat)
    requires cfg.budget.Some?
    ensures forall k, j :: 0 <= k < n && 0 <= j < ChatsIn(world, cfg, k) ==>
        SpentBefore(world, cfg, k, j) < cfg.budget.value
    ensures SpentOn(AttemptsRun(world, cfg, n)) > 0 ==>
        SpentOn(AttemptsRun(world, cfg, n)) < cfg.budget.value + LastCost(world, cfg, n)
  {
    forall k, j | 0 <= k < n && 0 <= j < ChatsIn(world, cfg, k)
      ensures SpentBefore(world, cfg, k, j) < cfg.budget.value
    {
      PassInBudget(world, cfg, k);
    }
    OverspendsByLast(world, cfg, n);
  }

  /** An answer is scored right only outside ask mode, and only when a query of the chosen, last
      attempt went out for the first time and came back with rows. */
  lemma RightIsGrounded(world: nat -> Pass, cfg: Settings, n: nat, scoreAnswer: Option<int> -> bool)
    requires OutcomeOf(world, cfg, n, scoreAnswer).score.Right?
    ensures n > 0 && !cfg.acceptFirst && scoreAnswer(AttemptsRun(world, cfg, n)[n - 1].answer)
    ensures exists k: nat, j: nat {:trigger GroundedAt(world(n - 1).turn, k, j)} ::
              k < ChatsIn(world, cfg, n - 1) && GroundedAt(world(n - 1).turn, k, j)
  {
    var before := SpentOn(AttemptsRun(world, cfg, n - 1));
    AttemptInBudget(world(n - 1).turn, cfg.maxSteps, cfg.budget, before);
    HitsAreCalls(world(n - 1).turn, ChatsIn(world, cfg, n - 1));
  }
}
