/** `CircuitBreaker`: a closed / open / half-open machine per tool, driven by a clock.

    The machine of one tool is stated on values and analysed over whole runs; the classes
    below update the same fields in place and are proved against it.  Each method is one
    atomic step reading the clock once. */
module CircuitBreaking {
  import opened Common
  import opened Hooks

  datatype CircuitState = CLOSED | OPEN | HALF_OPEN

  datatype Settings = Settings(failureThreshold: int, resetTimeout: real) {
    predicate Valid() { failureThreshold >= 1 && resetTimeout >= 0.0 }
  }

  // ---------------------------------------------------------- the machine of one tool

  datatype Tool = Tool(state: CircuitState, failures: nat, openedAt: real, probe: bool,
                       lastAttemptAt: real)

  function NewTool(now: real): Tool { Tool(CLOSED, 0, 0.0, false, now) }

  /** The time-based transition `state_for` applies before it answers. */
  function Aged(cfg: Settings, s: Tool, now: real): Tool {
    if s.state == OPEN && now - s.openedAt >= cfg.resetTimeout
    then s.(state := HALF_OPEN, probe := false) else s
  }

  /** Whether an aged record lets a call through, and what the attempt leaves behind. */
  predicate LetsThrough(s: Tool) { s.state == CLOSED || (s.state == HALF_OPEN && !s.probe) }

  function Marked(s: Tool, now: real): Tool {
    s.(lastAttemptAt := now, probe := s.probe || s.state == HALF_OPEN)
  }

  predicate Permits(cfg: Settings, s: Tool, now: real) { LetsThrough(Aged(cfg, s, now)) }

  function Attempted(cfg: Settings, s: Tool, now: real): Tool { Marked(Aged(cfg, s, now), now) }

  function Succeeded(s: Tool): Tool { s.(failures := 0, state := CLOSED, probe := false) }

  function Failed(cfg: Settings, s: Tool, now: real): Tool {
    var n := s.failures + 1;
    if s.state == HALF_OPEN || n >= cfg.failureThreshold
    then s.(failures := n, state := OPEN, openedAt := now, probe := false)
    else s.(failures := n)
  }

  datatype Op = StateFor(at: real) | Allow(at: real) | Success(at: real) | Failure(at: real) {
    predicate Outcome() { Success? || Failure? }
  }

  function Step(cfg: Settings, s: Tool, op: Op): Tool {
    match op
    case StateFor(now) => Aged(cfg, s, now)
    case Allow(now) => Attempted(cfg, s, now)
    case Success(_) => Succeeded(s)
    case Failure(now) => Failed(cfg, s, now)
  }

  /** `allow` answering True. */
  predicate Admits(cfg: Settings, s: Tool, op: Op) { op.Allow? && Permits(cfg, s, op.at) }

  // ----------------------------------------------------------------------------- runs

  function Run(cfg: Settings, s: Tool, ops: seq<Op>): Tool
    decreases |ops|
  {
    if ops == [] then s else Step(cfg, Run(cfg, s, Butlast(ops)), ops[|ops| - 1])
  }

  /** Whether the last operation of a run is an admission. */
  predicate Admitted(cfg: Settings, s: Tool, ops: seq<Op>)
    requires ops != []
  {
    Admits(cfg, Run(cfg, s, Butlast(ops)), ops[|ops| - 1])
  }

  predicate InOrder(ops: seq<Op>) {
    forall i, j :: 0 <= i <= j < |ops| ==> ops[i].at <= ops[j].at
  }

  // ------------------------------------------------- the state is a function of history

  /** Length of the trailing run of failures among the recorded outcomes. */
  function TrailingFailures(ops: seq<Op>): nat
    decreases |ops|
  {
    if ops == [] then 0
    else match ops[|ops| - 1]
         case Success(_) => 0
         case Failure(_) => TrailingFailures(Butlast(ops)) + 1
         case _ => TrailingFailures(Butlast(ops))
  }

  /** The operations since the last outcome (all of them queries), and that outcome's time. */
  function SinceOutcome(ops: seq<Op>): seq<Op>
    decreases |ops|
  {
    if ops == [] || ops[|ops| - 1].Outcome() then []
    else SinceOutcome(Butlast(ops)) + [ops[|ops| - 1]]
  }

  function LastFailureAt(ops: seq<Op>): real
    decreases |ops|
  {
    if ops == [] then 0.0
    else if ops[|ops| - 1].Failure? then ops[|ops| - 1].at
    else LastFailureAt(Butlast(ops))
  }

  /** A query late enough to find the circuit half-open. */
  predicate Ripe(cfg: Settings, failedAt: real, op: Op) { op.at - failedAt >= cfg.resetTimeout }

  predicate SomeRipe(cfg: Settings, failedAt: real, queries: seq<Op>) {
    exists i :: 0 <= i < |queries| && Ripe(cfg, failedAt, queries[i])
  }

  predicate SomeRipeAllow(cfg: Settings, failedAt: real, queries: seq<Op>) {
    exists i :: 0 <= i < |queries| && queries[i].Allow? && Ripe(cfg, failedAt, queries[i])
  }

  /** The state, told from the recorded operations alone. */
  function StateByHistory(cfg: Settings, ops: seq<Op>): CircuitState {
    if TrailingFailures(ops) < cfg.failureThreshold then CLOSED
    else if SomeRipe(cfg, LastFailureAt(ops), SinceOutcome(ops)) then HALF_OPEN
    else OPEN
  }

  lemma SomeRipeSnoc(cfg: Settings, failedAt: real, queries: seq<Op>, op: Op)
    ensures SomeRipe(cfg, failedAt, queries + [op])
            <==> SomeRipe(cfg, failedAt, queries) || Ripe(cfg, failedAt, op)
    ensures SomeRipeAllow(cfg, failedAt, queries + [op])
            <==> SomeRipeAllow(cfg, failedAt, queries) || (op.Allow? && Ripe(cfg, failedAt, op))
  {
    var all := queries + [op];
    assert all[|queries|] == op;
    assert forall i :: 0 <= i < |queries| ==> all[i] == queries[i];
  }

  lemma {:induction false} SinceOutcomeFromOps(ops: seq<Op>)
    ensures forall q :: q in SinceOutcome(ops) ==> q in ops
    decreases |ops|
  {
    if ops != [] { SinceOutcomeFromOps(Butlast(ops)); }
  }

  /** Every field of a reachable state is determined by the operations recorded so far. */
  lemma {:induction false} StateIsFunctionOfHistory(cfg: Settings, born: real, ops: seq<Op>)
    requires cfg.Valid() && InOrder(ops)
    ensures var s := Run(cfg, NewTool(born), ops);
            && s.failures == TrailingFailures(ops)
            && s.state == StateByHistory(cfg, ops)
            && (s.probe <==> s.state == HALF_OPEN
                             && SomeRipeAllow(cfg, LastFailureAt(ops), SinceOutcome(ops)))
            && (s.state != CLOSED ==> s.openedAt == LastFailureAt(ops))
    decreases |ops|
  {
    if ops != [] {
      var prev, op := Butlast(ops), ops[|ops| - 1];
      StateIsFunctionOfHistory(cfg, born, prev);
      SomeRipeSnoc(cfg, LastFailureAt(prev), SinceOutcome(prev), op);
      SinceOutcomeFromOps(prev);
      if op.Allow? && SomeRipe(cfg, LastFailureAt(prev), SinceOutcome(prev)) {
        var i :| 0 <= i < |SinceOutcome(prev)| && Ripe(cfg, LastFailureAt(prev), SinceOutcome(prev)[i]);
        var q := SinceOutcome(prev)[i];
        assert q in prev;
        assert Ripe(cfg, LastFailureAt(prev), op);
      }
    }
  }

  function LastAllowAt(born: real, ops: seq<Op>): real
    decreases |ops|
  {
    if ops == [] then born
    else if ops[|ops| - 1].Allow? then ops[|ops| - 1].at
    else LastAllowAt(born, Butlast(ops))
  }

  /** The attempt time is that of the latest `allow`, answered either way, and at first that of
      the record's making. */
  lemma {:induction false} LastAttemptIsHistory(cfg: Settings, born: real, ops: seq<Op>)
    ensures Run(cfg, NewTool(born), ops).lastAttemptAt == LastAllowAt(born, ops)
    decreases |ops|
  {
    if ops != [] { LastAttemptIsHistory(cfg, born, Butlast(ops)); }
  }

  /** The documented invariants, read off the history. */
  lemma {:induction false} BreakerInvariants(cfg: Settings, born: real, ops: seq<Op>)
    requires cfg.Valid() && InOrder(ops)
    ensures var s := Run(cfg, NewTool(born), ops);
            && s.failures == TrailingFailures(ops)
            && (s.state == CLOSED <==> TrailingFailures(ops) < cfg.failureThreshold)
            && (s.probe ==> s.state == HALF_OPEN)
  {
    StateIsFunctionOfHistory(cfg, born, ops);
  }

  // ------------------------------------------------------- at most one probe per outcome

  predicate Queries(ops: seq<Op>) { forall i :: 0 <= i < |ops| ==> !ops[i].Outcome() }

  predicate FirstRipeAllow(cfg: Settings, openedAt: real, ops: seq<Op>)
    requires ops != []
  {
    var last := ops[|ops| - 1];
    last.Allow? && Ripe(cfg, openedAt, last) && !SomeRipeAllow(cfg, openedAt, Butlast(ops))
  }

  lemma RipeFromThenOn(cfg: Settings, openedAt: real, ops: seq<Op>)
    requires InOrder(ops) && ops != [] && SomeRipe(cfg, openedAt, Butlast(ops))
    ensures Ripe(cfg, openedAt, ops[|ops| - 1])
  {
    var i :| 0 <= i < |ops| - 1 && Ripe(cfg, openedAt, Butlast(ops)[i]);
    assert ops[i].at <= ops[|ops| - 1].at;
  }

  predicate OpenAfter(cfg: Settings, openedAt: real, r: Tool, ops: seq<Op>) {
    && r.openedAt == openedAt
    && r.state == (if SomeRipe(cfg, openedAt, ops) then HALF_OPEN else OPEN)
    && (r.state == HALF_OPEN ==> (r.probe <==> SomeRipeAllow(cfg, openedAt, ops)))
  }

  lemma OpenUnderQuery(cfg: Settings, openedAt: real, r: Tool, prev: seq<Op>, op: Op)
    requires OpenAfter(cfg, openedAt, r, prev) && !op.Outcome() && InOrder(prev + [op])
    ensures OpenAfter(cfg, openedAt, Step(cfg, r, op), prev + [op])
  {
    SomeRipeSnoc(cfg, openedAt, prev, op);
    assert Butlast(prev + [op]) == prev;
    if SomeRipe(cfg, openedAt, prev) { RipeFromThenOn(cfg, openedAt, prev + [op]); }
  }

  lemma {:induction false} OpenUnderQueries(cfg: Settings, s: Tool, ops: seq<Op>)
    requires s.state == OPEN && Queries(ops) && InOrder(ops)
    ensures OpenAfter(cfg, s.openedAt, Run(cfg, s, ops), ops)
    decreases |ops|
  {
    if ops != [] {
      var prev, op := Butlast(ops), ops[|ops| - 1];
      assert Queries(prev) && InOrder(prev);
      OpenUnderQueries(cfg, s, prev);
      OpenUnderQuery(cfg, s.openedAt, Run(cfg, s, prev), prev, op);
      assert ops == prev + [op];
    }
  }

  /** From an open circuit, with no outcome recorded, the one admission is the first `allow`
      at or after `openedAt + resetTimeout`: no other call gets through, however many ask. */
  lemma ProbeIsFirstRipeAllow(cfg: Settings, s: Tool, ops: seq<Op>)
    requires s.state == OPEN && Queries(ops) && InOrder(ops) && ops != []
    ensures Admitted(cfg, s, ops) <==> FirstRipeAllow(cfg, s.openedAt, ops)
  {
    var prev, op := Butlast(ops), ops[|ops| - 1];
    OpenUnderQueries(cfg, s, prev);
    if SomeRipe(cfg, s.openedAt, prev) { RipeFromThenOn(cfg, s.openedAt, ops); }
  }

  lemma AtMostOneProbe(cfg: Settings, s: Tool, ops: seq<Op>, i: nat, j: nat)
    requires s.state == OPEN && Queries(ops) && InOrder(ops)
    requires i < j < |ops| && Admitted(cfg, s, ops[..i + 1])
    ensures ops[i].at >= s.openedAt + cfg.resetTimeout
    ensures !Admitted(cfg, s, ops[..j + 1])
  {
    ProbeIsFirstRipeAllow(cfg, s, ops[..i + 1]);
    ProbeIsFirstRipeAllow(cfg, s, ops[..j + 1]);
    var before := Butlast(ops[..j + 1]);
    assert before[i] == ops[i] && Ripe(cfg, s.openedAt, before[i]);
  }

  lemma {:induction false} ProbeStaysOut(cfg: Settings, s: Tool, ops: seq<Op>)
    requires s.state == HALF_OPEN && s.probe && Queries(ops)
    ensures Run(cfg, s, ops).state == HALF_OPEN && Run(cfg, s, ops).probe
    decreases |ops|
  {
    if ops != [] { ProbeStaysOut(cfg, s, Butlast(ops)); }
  }

  predicate NoneAdmitted(cfg: Settings, s: Tool, ops: seq<Op>)
    decreases |ops|
  {
    ops == [] || (NoneAdmitted(cfg, s, Butlast(ops)) && !Admitted(cfg, s, ops))
  }

  lemma {:induction false} QueriesGetNothing(cfg: Settings, s: Tool, ops: seq<Op>)
    requires s.state == HALF_OPEN && s.probe && Queries(ops)
    ensures NoneAdmitted(cfg, s, ops)
    decreases |ops|
  {
    if ops != [] {
      QueriesGetNothing(cfg, s, Butlast(ops));
      ProbeStaysOut(cfg, s, Butlast(ops));
    }
  }

  lemma {:induction false} OutcomeFreesProbe(cfg: Settings, s: Tool, ops: seq<Op>)
    requires !Queries(ops) && NoneAdmitted(cfg, s, ops)
    ensures Run(cfg, s, ops).state == HALF_OPEN ==> !Run(cfg, s, ops).probe
    decreases |ops|
  {
    if !ops[|ops| - 1].Outcome() { OutcomeFreesProbe(cfg, s, Butlast(ops)); }
  }

  /** Nothing is let through, neither during `ops` nor by an `allow` at any time from `now` on. */
  ghost predicate Refuses(cfg: Settings, s: Tool, ops: seq<Op>, now: real) {
    NoneAdmitted(cfg, s, ops) && forall t :: t >= now ==> !Permits(cfg, Run(cfg, s, ops), t)
  }

  /** An outcome of some call other than `probe`. */
  predicate OthersOutcome(ops: seq<Op>, calls: seq<nat>, probe: nat)
    requires |ops| == |calls|
  {
    exists i :: 0 <= i < |ops| && ops[i].Outcome() && calls[i] != probe
  }

  /** Until the probe completes, all other calls are refused exactly as long as no outcome of
      another call is recorded.  `calls[i]` is the call `ops[i]` serves, which the breaker is
      not told. */
  lemma {:induction false} RefusedUntilProbeCompletesExactly(cfg: Settings, s: Tool, ops: seq<Op>,
                                                             calls: seq<nat>, probe: nat, now: real)
    requires s.state == HALF_OPEN && s.probe && |ops| == |calls|
    requires forall i :: 0 <= i < |ops| && ops[i].Outcome() ==> calls[i] != probe
    ensures Refuses(cfg, s, ops, now) <==> !OthersOutcome(ops, calls, probe)
  {
    var r := Run(cfg, s, ops);
    if !OthersOutcome(ops, calls, probe) {
      QueriesGetNothing(cfg, s, ops);
      ProbeStaysOut(cfg, s, ops);
    } else if NoneAdmitted(cfg, s, ops) {
      OutcomeFreesProbe(cfg, s, ops);
      var ripe := r.openedAt + cfg.resetTimeout;
      assert Permits(cfg, r, if ripe >= now then ripe else now);
    }
  }

  // ------------------------------------------------------------------ failing-tool bound

  /** A call that went ahead and whose outcome has not been recorded.  `passed[i]` says that
      `ops[i]` is an `allow` whose call went ahead; nobody else need heed an admission. */
  predicate Outstanding(ops: seq<Op>, passed: seq<bool>)
    requires |ops| == |passed|
    decreases |ops|
  {
    ops != [] && !ops[|ops| - 1].Outcome()
    && (passed[|ops| - 1] || Outstanding(Butlast(ops), Butlast(passed)))
  }

  /** Only admitted calls go ahead. */
  predicate Granted(cfg: Settings, s: Tool, ops: seq<Op>, passed: seq<bool>)
    requires |ops| == |passed|
    decreases |ops|
  {
    ops == [] ||
    (Granted(cfg, s, Butlast(ops), Butlast(passed)) && (passed[|ops| - 1] ==> Admitted(cfg, s, ops)))
  }

  lemma {:induction false} GrantedSnoc(cfg: Settings, s: Tool, ops: seq<Op>, passed: seq<bool>)
    requires ops != [] && |ops| == |passed| && Granted(cfg, s, Butlast(ops), Butlast(passed))
    requires passed[|ops| - 1] ==> Admitted(cfg, s, ops)
    ensures Granted(cfg, s, ops, passed)
  {
  }

  /** Operations none of which went ahead. */
  lemma {:induction false} GrantedCopies(cfg: Settings, s: Tool, ops: seq<Op>, passed: seq<bool>, op: Op, n: nat)
    requires |ops| == |passed| && Granted(cfg, s, ops, passed)
    ensures |ops + Copies(op, n)| == |passed + Copies(false, n)|
    ensures Granted(cfg, s, ops + Copies(op, n), passed + Copies(false, n))
  {
    CopiesLength(op, n);
    CopiesLength(false, n);
    if n == 0 {
      assert ops + Copies(op, n) == ops && passed + Copies(false, n) == passed;
    } else {
      GrantedCopies(cfg, s, ops, passed, op, n - 1);
      assert Butlast(ops + Copies(op, n)) == ops + Copies(op, n - 1);
      assert Butlast(passed + Copies(false, n)) == passed + Copies(false, n - 1);
    }
  }

  /** No success is ever recorded, and a failure is recorded after each call that went ahead
      and before the next one that does. */
  predicate AlwaysFailing(ops: seq<Op>, passed: seq<bool>)
    requires |ops| == |passed|
    decreases |ops|
  {
    ops == [] ||
    (AlwaysFailing(Butlast(ops), Butlast(passed)) && !ops[|ops| - 1].Success?
     && (passed[|ops| - 1] ==> !Outstanding(Butlast(ops), Butlast(passed))))
  }

  function Passes(passed: seq<bool>): nat
    decreases |passed|
  {
    if passed == [] then 0 else Passes(Butlast(passed)) + (if passed[|passed| - 1] then 1 else 0)
  }

  function Now(born: real, ops: seq<Op>): real {
    if ops == [] then born else ops[|ops| - 1].at
  }

  /** `k` timeouts fit before `t`. */
  predicate Fits(cfg: Settings, k: int, born: real, t: real) {
    k as real * cfg.resetTimeout <= t - born
  }

  lemma FitsOneMore(cfg: Settings, k: int, born: real, trip: real, t: real)
    requires Fits(cfg, k, born, trip) && t - trip >= cfg.resetTimeout
    ensures Fits(cfg, k + 1, born, t)
  {
    assert (k + 1) as real * cfg.resetTimeout == k as real * cfg.resetTimeout + cfg.resetTimeout;
  }

  lemma FitsNone(cfg: Settings, k: int, born: real, t: real)
    requires cfg.Valid() && k <= 0 && born <= t
    ensures Fits(cfg, k, born, t)
  {
    assert k as real * cfg.resetTimeout <= 0.0;
  }

  lemma FitsLater(cfg: Settings, k: int, born: real, t: real, u: real)
    requires Fits(cfg, k, born, t) && t <= u
    ensures Fits(cfg, k, born, u)
  {
  }

  lemma FitsFewer(cfg: Settings, k: int, born: real, t: real)
    requires cfg.Valid() && Fits(cfg, k + 1, born, t)
    ensures Fits(cfg, k, born, t)
  {
    assert (k + 1) as real * cfg.resetTimeout == k as real * cfg.resetTimeout + cfg.resetTimeout;
  }

  /** How many timeouts have passed, in terms of the calls past the threshold that went ahead. */
  predicate Paced(cfg: Settings, born: real, s: Tool, ops: seq<Op>, passed: seq<bool>)
    requires |ops| == |passed|
  {
    var r, over := Run(cfg, s, ops), Passes(passed) - cfg.failureThreshold;
    match r.state
    case CLOSED => Passes(passed) <= r.failures + (if Outstanding(ops, passed) then 1 else 0)
                   && r.failures < cfg.failureThreshold
    case OPEN => Fits(cfg, over, born, r.openedAt) && r.openedAt <= Now(born, ops)
    case HALF_OPEN => Fits(cfg, if r.probe then over else over + 1, born, Now(born, ops))
  }

  lemma {:induction false} PacedStep(cfg: Settings, born: real, s: Tool, ops: seq<Op>, passed: seq<bool>)
    requires cfg.Valid() && ops != [] && |ops| == |passed|
    requires Granted(cfg, s, ops, passed) && AlwaysFailing(ops, passed)
    requires Paced(cfg, born, s, Butlast(ops), Butlast(passed))
    requires born <= Now(born, Butlast(ops)) <= Now(born, ops)
    ensures Paced(cfg, born, s, ops, passed)
  {
    var prev, op := Butlast(ops), ops[|ops| - 1];
    var r, t := Run(cfg, s, prev), op.at;
    var over := Passes(Butlast(passed)) - cfg.failureThreshold;
    match r.state
    case CLOSED =>
      if op.Failure? { FitsNone(cfg, over, born, t); }
    case OPEN =>
      if op.Failure? {
        FitsLater(cfg, over, born, r.openedAt, t);
      } else if t - r.openedAt >= cfg.resetTimeout {
        FitsOneMore(cfg, over, born, r.openedAt, t);
        FitsLater(cfg, over, born, r.openedAt, t);
      }
    case HALF_OPEN =>
      FitsLater(cfg, if r.probe then over else over + 1, born, Now(born, prev), t);
      if !r.probe { FitsFewer(cfg, over, born, t); }
  }

  lemma {:induction false} RunsArePaced(cfg: Settings, born: real, ops: seq<Op>, passed: seq<bool>)
    requires cfg.Valid() && |ops| == |passed| && InOrder(ops) && (ops != [] ==> born <= ops[0].at)
    requires Granted(cfg, NewTool(born), ops, passed) && AlwaysFailing(ops, passed)
    ensures Paced(cfg, born, NewTool(born), ops, passed) && born <= Now(born, ops)
    decreases |ops|
  {
    if ops != [] {
      RunsArePaced(cfg, born, Butlast(ops), Butlast(passed));
      PacedStep(cfg, born, NewTool(born), ops, passed);
    }
  }

  lemma FitsFloor(cfg: Settings, k: int, born: real, t: real)
    requires cfg.resetTimeout > 0.0 && Fits(cfg, k, born, t)
    ensures k <= ((t - born) / cfg.resetTimeout).Floor
  {
    var q := (t - born) / cfg.resetTimeout;
    assert q * cfg.resetTimeout == t - born;
    assert k as real <= q;
  }

  /** When every call that goes ahead fails, at most the threshold plus one per timeout do,
      whoever else refuses some of the calls the breaker admits. */
  lemma {:induction false} FailingCallsBound(cfg: Settings, born: real, ops: seq<Op>, passed: seq<bool>, until: real)
    requires cfg.Valid() && cfg.resetTimeout > 0.0 && |ops| == |passed|
    requires InOrder(ops) && (ops != [] ==> born <= ops[0].at) && Now(born, ops) <= until
    requires Granted(cfg, NewTool(born), ops, passed) && AlwaysFailing(ops, passed)
    ensures Passes(passed) <= cfg.failureThreshold + ((until - born) / cfg.resetTimeout).Floor
  {
    RunsArePaced(cfg, born, ops, passed);
    var r, over := Run(cfg, NewTool(born), ops), Passes(passed) - cfg.failureThreshold;
    if r.state == CLOSED {
      FitsNone(cfg, over, born, until);
    } else if r.state == OPEN {
      FitsLater(cfg, over, born, r.openedAt, until);
    } else {
      if !r.probe { FitsFewer(cfg, over, born, Now(born, ops)); }
      FitsLater(cfg, over, born, Now(born, ops), until);
    }
    FitsFloor(cfg, over, born, until);
  }

  /** Which operations are admissions. */
  function Admissions(cfg: Settings, s: Tool, ops: seq<Op>): (passed: seq<bool>)
    ensures |passed| == |ops|
    decreases |ops|
  {
    if ops == [] then [] else Admissions(cfg, s, Butlast(ops)) + [Admitted(cfg, s, ops)]
  }

  lemma {:induction false} AdmissionsAreGranted(cfg: Settings, s: Tool, ops: seq<Op>)
    ensures Granted(cfg, s, ops, Admissions(cfg, s, ops))
    decreases |ops|
  {
    if ops != [] {
      AdmissionsAreGranted(cfg, s, Butlast(ops));
      assert Butlast(Admissions(cfg, s, ops)) == Admissions(cfg, s, Butlast(ops));
    }
  }

  lemma {:induction false} GrantedAtMostAdmissions(cfg: Settings, s: Tool, ops: seq<Op>, passed: seq<bool>)
    requires |ops| == |passed| && Granted(cfg, s, ops, passed)
    ensures Passes(passed) <= Passes(Admissions(cfg, s, ops))
    decreases |ops|
  {
    if ops != [] {
      GrantedAtMostAdmissions(cfg, s, Butlast(ops), Butlast(passed));
      assert Butlast(Admissions(cfg, s, ops)) == Admissions(cfg, s, Butlast(ops));
    }
  }

  /** A tool whose every admitted call fails is admitted at most the threshold plus once per
      timeout. */
  lemma {:induction false} FailingToolBound(cfg: Settings, born: real, ops: seq<Op>, until: real)
    requires cfg.Valid() && cfg.resetTimeout > 0.0
    requires InOrder(ops) && (ops != [] ==> born <= ops[0].at) && Now(born, ops) <= until
    requires AlwaysFailing(ops, Admissions(cfg, NewTool(born), ops))
    ensures Passes(Admissions(cfg, NewTool(born), ops))
            <= cfg.failureThreshold + ((until - born) / cfg.resetTimeout).Floor
  {
    AdmissionsAreGranted(cfg, NewTool(born), ops);
    FailingCallsBound(cfg, born, ops, Admissions(cfg, NewTool(born), ops), until);
  }

  // ------------------------------------------------------------------ documented diagram

  /** The call whose probe is out, when there is one. */
  function Prober(cfg: Settings, s: Tool, ops: seq<Op>, calls: seq<nat>): Option<nat>
    requires |ops| == |calls|
    decreases |ops|
  {
    if ops == [] || ops[|ops| - 1].Outcome() then None
    else if Admitted(cfg, s, ops) && Run(cfg, s, ops).state == HALF_OPEN then Some(calls[|ops| - 1])
    else Prober(cfg, s, Butlast(ops), Butlast(calls))
  }

  /** The probe flag is up exactly while some call's probe is out. */
  lemma {:induction false} ProberIsOut(cfg: Settings, born: real, ops: seq<Op>, calls: seq<nat>)
    requires |ops| == |calls|
    ensures var r := Run(cfg, NewTool(born), ops);
            (r.probe <==> Prober(cfg, NewTool(born), ops, calls).Some?) && (r.probe ==> r.state == HALF_OPEN)
    decreases |ops|
  {
    if ops != [] { ProberIsOut(cfg, born, Butlast(ops), Butlast(calls)); }
  }

  /** The four transitions of the module's documentation, with their triggers; the last two
      are the success and the failure of the probe itself. */
  predicate Documented(cfg: Settings, s: Tool, prober: Option<nat>, op: Op, call: nat, t: Tool) {
    || (s.state == CLOSED && t.state == OPEN && op.Failure? && t.failures == cfg.failureThreshold)
    || (s.state == OPEN && t.state == HALF_OPEN && !op.Outcome() && Ripe(cfg, s.openedAt, op))
    || (s.state == HALF_OPEN && t.state == CLOSED && op.Success? && prober == Some(call))
    || (s.state == HALF_OPEN && t.state == OPEN && op.Failure? && prober == Some(call))
  }

  /** A step that changes the state does so as documented, and no other moves `openedAt`. */
  predicate FollowsDiagram(cfg: Settings, s: Tool, prober: Option<nat>, op: Op, call: nat) {
    var t := Step(cfg, s, op);
    && (t.state != s.state ==> Documented(cfg, s, prober, op, call, t))
    && (t.openedAt != s.openedAt ==> s.state != OPEN && t.state == OPEN)
  }

  /** An outcome that finds the circuit open, or half-open without being the probe's. */
  predicate Stray(s: Tool, prober: Option<nat>, op: Op, call: nat) {
    op.Outcome() && (s.state == OPEN || (s.state == HALF_OPEN && prober != Some(call)))
  }

  /** In every run exactly the stray outcomes break the diagram (a late failure of an open
      circuit only when it re-stamps). */
  lemma {:induction false} DiagramBrokenExactlyByStrays(cfg: Settings, born: real, ops: seq<Op>,
                                                        calls: seq<nat>, op: Op, call: nat)
    requires cfg.Valid() && |ops| == |calls| && InOrder(ops + [op])
    ensures var s, prober := Run(cfg, NewTool(born), ops), Prober(cfg, NewTool(born), ops, calls);
            FollowsDiagram(cfg, s, prober, op, call)
            <==> !Stray(s, prober, op, call) || (s.state == OPEN && op.Failure? && op.at == s.openedAt)
  {
    assert forall i :: 0 <= i < |ops| ==> (ops + [op])[i] == ops[i];
    BreakerInvariants(cfg, born, ops);
  }

  /** The admitted call whose outcome is still to come. */
  function Pending(cfg: Settings, s: Tool, ops: seq<Op>, calls: seq<nat>): Option<nat>
    requires |ops| == |calls|
    decreases |ops|
  {
    if ops == [] || ops[|ops| - 1].Outcome() then None
    else if Admitted(cfg, s, ops) then Some(calls[|ops| - 1])
    else Pending(cfg, s, Butlast(ops), Butlast(calls))
  }

  /** Every outcome is that of the admitted call, and calls do not overlap. */
  predicate Sequential(cfg: Settings, s: Tool, ops: seq<Op>, calls: seq<nat>)
    requires |ops| == |calls|
    decreases |ops|
  {
    ops == [] ||
    var pending := Pending(cfg, s, Butlast(ops), Butlast(calls));
    && Sequential(cfg, s, Butlast(ops), Butlast(calls))
    && (ops[|ops| - 1].Outcome() ==> pending == Some(calls[|ops| - 1]))
    && (Admitted(cfg, s, ops) ==> pending.None?)
  }

  lemma {:induction false} SequentialInvariant(cfg: Settings, born: real, ops: seq<Op>, calls: seq<nat>)
    requires cfg.Valid() && |ops| == |calls| && Sequential(cfg, NewTool(born), ops, calls)
    ensures var r, pending := Run(cfg, NewTool(born), ops), Pending(cfg, NewTool(born), ops, calls);
            && (r.state == CLOSED ==> r.failures < cfg.failureThreshold)
            && (pending.Some? ==>
                  r.state == CLOSED
                  || (r.state == HALF_OPEN && r.probe && Prober(cfg, NewTool(born), ops, calls) == pending))
    decreases |ops|
  {
    if ops != [] { SequentialInvariant(cfg, born, Butlast(ops), Butlast(calls)); }
  }

  /** Under sequential use every step of every run follows the documented diagram. */
  lemma {:induction false} SequentialUseFollowsDiagram(cfg: Settings, born: real, ops: seq<Op>, calls: seq<nat>)
    requires cfg.Valid() && ops != [] && |ops| == |calls| && Sequential(cfg, NewTool(born), ops, calls)
    ensures var s := Run(cfg, NewTool(born), Butlast(ops));
            var prober := Prober(cfg, NewTool(born), Butlast(ops), Butlast(calls));
            && FollowsDiagram(cfg, s, prober, ops[|ops| - 1], calls[|ops| - 1])
            && !(s.state == OPEN && Run(cfg, NewTool(born), ops).state == CLOSED)
  {
    SequentialInvariant(cfg, born, Butlast(ops), Butlast(calls));
  }

  /** Two overlapping calls: the first trips the breaker, the late success of the second
      closes it without any timeout or probe. */
  lemma LateSuccessClosesOpenCircuit()
    ensures var cfg := Settings(1, 30.0);
            var ops := [Allow(0.0), Allow(0.0), Failure(1.0), Success(2.0)];
            && Admitted(cfg, NewTool(0.0), ops[..1]) && Admitted(cfg, NewTool(0.0), ops[..2])
            && Run(cfg, NewTool(0.0), ops[..3]).state == OPEN
            && Run(cfg, NewTool(0.0), ops).state == CLOSED
  {
    var cfg, ops := Settings(1, 30.0), [Allow(0.0), Allow(0.0), Failure(1.0), Success(2.0)];
    assert ops[..1] == [Allow(0.0)] && ops[..2] == [Allow(0.0), Allow(0.0)];
    assert Butlast(ops[..1]) == [] && Butlast(ops[..2]) == ops[..1];
    assert Butlast(ops[..3]) == ops[..2] && Butlast(ops) == ops[..3];
    assert Run(cfg, NewTool(0.0), ops[..1]) == NewTool(0.0);
    assert Run(cfg, NewTool(0.0), ops[..2]) == NewTool(0.0);
  }

  /** Calls 1 and 2 overlap, 1 trips the breaker, 3 probes; the late success of 2 passes for
      the probe's, and 4 is admitted while 3 is still out. */
  lemma StrangerPassesForProbe()
    ensures var cfg := Settings(1, 10.0);
            var ops := [Allow(0.0), Allow(0.0), Failure(1.0), Allow(11.0), Success(12.0), Allow(12.0)];
            var calls := [1, 2, 1, 3, 2, 4];
            && Prober(cfg, NewTool(0.0), ops[..4], calls[..4]) == Some(3)
            && Stray(Run(cfg, NewTool(0.0), ops[..4]), Some(3), ops[4], calls[4])
            && Run(cfg, NewTool(0.0), ops[..5]).state == CLOSED
            && Admitted(cfg, NewTool(0.0), ops)
  {
    var cfg := Settings(1, 10.0);
    var ops := [Allow(0.0), Allow(0.0), Failure(1.0), Allow(11.0), Success(12.0), Allow(12.0)];
    assert ops[..1] == [Allow(0.0)] && ops[..2] == [Allow(0.0), Allow(0.0)];
    assert Butlast(ops[..1]) == [] && Butlast(ops[..2]) == ops[..1] && Butlast(ops[..3]) == ops[..2];
    assert Butlast(ops[..4]) == ops[..3] && Butlast(ops[..5]) == ops[..4] && Butlast(ops) == ops[..5];
    assert Run(cfg, NewTool(0.0), ops[..1]) == NewTool(0.0) == Run(cfg, NewTool(0.0), ops[..2]);
    assert Run(cfg, NewTool(0.0), ops[..3]) == Tool(OPEN, 1, 1.0, false, 0.0);
    assert Run(cfg, NewTool(0.0), ops[..4]) == Tool(HALF_OPEN, 1, 1.0, true, 11.0);
    assert Run(cfg, NewTool(0.0), ops[..5]) == Tool(CLOSED, 0, 1.0, false, 11.0);
  }

  // ------------------------------------------------------------------------- many tools

  type Tools = map<string, Tool>

  function Lookup(tools: Tools, name: string, now: real): Tool {
    if name in tools then tools[name] else NewTool(now)
  }

  datatype Event = Event(tool: string, op: Op)

  function RunAll(cfg: Settings, events: seq<Event>): Tools
    decreases |events|
  {
    if events == [] then map[]
    else
      var e, tools := events[|events| - 1], RunAll(cfg, events[..|events| - 1]);
      tools[e.tool := Step(cfg, Lookup(tools, e.tool, e.op.at), e.op)]
  }

  /** The operations of one tool. */
  function OpsOf(events: seq<Event>, name: string): seq<Op>
    decreases |events|
  {
    if events == [] then []
    else
      var e := events[|events| - 1];
      OpsOf(events[..|events| - 1], name) + (if e.tool == name then [e.op] else [])
  }

  lemma {:induction false} OpsOfSnoc(events: seq<Event>, e: Event, name: string)
    ensures OpsOf(events + [e], name) == OpsOf(events, name) + (if e.tool == name then [e.op] else [])
  {
    assert (events + [e])[..|events|] == events;
  }

  /** Tools do not interfere: each one's record is the run of its own operations. */
  lemma {:induction false} ToolsAreIndependent(cfg: Settings, events: seq<Event>, name: string)
    ensures var ops := OpsOf(events, name);
            && (name in RunAll(cfg, events) <==> ops != [])
            && (ops != [] ==> RunAll(cfg, events)[name] == Run(cfg, NewTool(ops[0].at), ops))
    decreases |events|
  {
    if events != [] {
      var before, e := events[..|events| - 1], events[|events| - 1];
      ToolsAreIndependent(cfg, before, name);
      var ops, was := OpsOf(events, name), OpsOf(before, name);
      if e.tool == name {
        assert Butlast(ops) == was;
        assert was == [] ==> Run(cfg, NewTool(ops[0].at), was) == NewTool(ops[0].at);
      } else {
        assert ops == was;
      }
    }
  }

  /** Among many tools, `allow` answers as the tool's own operations say. */
  lemma {:induction false} AnswerIsTheToolsOwn(cfg: Settings, events: seq<Event>, name: string, at: real)
    ensures var ops := OpsOf(events, name) + [Allow(at)];
            Permits(cfg, Lookup(RunAll(cfg, events), name, at), at)
            <==> Admitted(cfg, NewTool(ops[0].at), ops)
  {
    var before := OpsOf(events, name);
    ToolsAreIndependent(cfg, events, name);
    assert Butlast(before + [Allow(at)]) == before;
    assert before == [] ==> Run(cfg, NewTool(at), before) == NewTool(at);
  }

  // ------------------------------------------------------------------------- the classes

  class PerToolState {
    var state: CircuitState
    var consecutiveFailures: nat
    var openedAt: real
    var probeInFlight: bool
    var lastAttemptAt: real

    function Value(): Tool
      reads this
    {
      Tool(state, consecutiveFailures, openedAt, probeInFlight, lastAttemptAt)
    }

    constructor (now: real)
      ensures Value() == NewTool(now)
    {
      state, consecutiveFailures, openedAt, probeInFlight := CLOSED, 0, 0.0, false;
      lastAttemptAt := now;
    }

    method Age(cfg: Settings, now: real)
      modifies this
      ensures Value() == Aged(cfg, old(Value()), now)
    {
      if state == OPEN {
        var elapsed := now - openedAt;
        if elapsed >= cfg.resetTimeout {
          state := HALF_OPEN;
          probeInFlight := false;
        }
      }
    }

    /** What `allow` does once the state has been aged. */
    method Attempt(now: real) returns (ok: bool)
      modifies this
      ensures Value() == Marked(old(Value()), now) && ok == LetsThrough(old(Value()))
    {
      lastAttemptAt := now;
      if state == CLOSED {
        return true;
      }
      if state == OPEN {
        return false;
      }
      if probeInFlight {
        return false;
      }
      probeInFlight := true;
      ok := true;
    }

    method Succeed()
      modifies this
      ensures Value() == Succeeded(old(Value()))
    {
      consecutiveFailures := 0;
      if state == HALF_OPEN || state == OPEN {
        state := CLOSED;
      }
      probeInFlight := false;
    }

    method Fail(cfg: Settings, now: real)
      modifies this
      ensures Value() == Failed(cfg, old(Value()), now)
    {
      consecutiveFailures := consecutiveFailures + 1;
      if state == HALF_OPEN {
        state := OPEN;
        openedAt := now;
        probeInFlight := false;
        return;
      }
      if consecutiveFailures >= cfg.failureThreshold {
        state := OPEN;
        openedAt := now;
        probeInFlight := false;
      }
    }
  }

  class CircuitBreaker {
    const failureThreshold: int
    const resetTimeout: real
    const uninformativeCountsAsFailure: bool
    var states: map<string, PerToolState>
    ghost var tools: Tools  // the records' values, by tool
    ghost var Repr: set<object>

    function Cfg(): Settings { Settings(failureThreshold, resetTimeout) }

    ghost predicate Valid()
      reads this, Repr
    {
      && Cfg().Valid()
      && this in Repr
      && tools.Keys == states.Keys
      && (forall a :: a in states ==> states[a] in Repr && states[a].Value() == tools[a])
      && forall a, b :: a in states && b in states && a != b ==> states[a] != states[b]
    }

    constructor (failureThreshold: int, resetTimeout: real, uninformativeCountsAsFailure: bool)
      requires Settings(failureThreshold, resetTimeout).Valid()
      ensures Valid() && fresh(Repr) && tools == map[] && Cfg() == Settings(failureThreshold, resetTimeout)
      ensures this.uninformativeCountsAsFailure == uninformativeCountsAsFailure
    {
      this.failureThreshold, this.resetTimeout := failureThreshold, resetTimeout;
      this.uninformativeCountsAsFailure := uninformativeCountsAsFailure;
      states, tools, Repr := map[], map[], {this};
    }

    method Get(name: string, now: real) returns (st: PerToolState)
      requires Valid()
      modifies this
      ensures Valid() && name in states && states[name] == st && fresh(Repr - old(Repr))
      ensures tools == old(tools)[name := Lookup(old(tools), name, now)]
    {
      if name in states {
        st := states[name];
      } else {
        st := new PerToolState(now);
        states, tools := states[name := st], tools[name := st.Value()];
        Repr := Repr + {st};
      }
    }

    method StateFor(name: string, now: real) returns (state: CircuitState)
      requires Valid()
      modifies Repr
      ensures Valid() && fresh(Repr - old(Repr))
      ensures tools == old(tools)[name := Step(Cfg(), Lookup(old(tools), name, now), Op.StateFor(now))]
      ensures state == tools[name].state
    {
      var st := Get(name, now);
      st.Age(Cfg(), now);
      Overwrites(old(tools), name, tools[name], st.Value());
      tools := tools[name := st.Value()];
      state := st.state;
    }

    /** The attempt on one record; the others, separate objects, stay as they are. */
    method AttemptOn(ghost name: string, st: PerToolState, now: real) returns (ok: bool)
      requires Valid() && name in states && states[name] == st
      modifies this`tools, st
      ensures Valid() && ok == LetsThrough(old(tools)[name])
      ensures tools == old(tools)[name := Marked(old(tools)[name], now)]
    {
      ok := st.Attempt(now);
      tools := tools[name := st.Value()];
    }

    method Allow(name: string, now: real) returns (ok: bool)
      requires Valid()
      modifies Repr
      ensures Valid() && fresh(Repr - old(Repr))
      ensures tools == old(tools)[name := Step(Cfg(), Lookup(old(tools), name, now), Op.Allow(now))]
      ensures ok == Permits(Cfg(), Lookup(old(tools), name, now), now)
    {
      var state := StateFor(name, now);
      ghost var a := tools[name];
      var st := Get(name, now);
      Overwrites(old(tools), name, a, a);
      ok := AttemptOn(name, st, now);
      Overwrites(old(tools), name, a, Marked(a, now));
    }

    method RecordSuccess(name: string, now: real)
      requires Valid()
      modifies Repr
      ensures Valid() && fresh(Repr - old(Repr))
      ensures tools == old(tools)[name := Step(Cfg(), Lookup(old(tools), name, now), Op.Success(now))]
    {
      var st := Get(name, now);
      st.Succeed();
      Overwrites(old(tools), name, tools[name], st.Value());
      tools := tools[name := st.Value()];
    }

    method RecordFailure(name: string, now: real)
      requires Valid()
      modifies Repr
      ensures Valid() && fresh(Repr - old(Repr))
      ensures tools == old(tools)[name := Step(Cfg(), Lookup(old(tools), name, now), Op.Failure(now))]
    {
      var st := Get(name, now);
      st.Fail(Cfg(), now);
      Overwrites(old(tools), name, tools[name], st.Value());
      tools := tools[name := st.Value()];
    }

    method OnToolCallStart(toolName: string, now: real) returns (action: HookAction)
      requires Valid()
      modifies Repr
      ensures Valid() && fresh(Repr - old(Repr))
      ensures tools == if toolName == "" then old(tools)
                         else old(tools)[toolName := Step(Cfg(), Lookup(old(tools), toolName, now), Op.Allow(now))]
      ensures action == if toolName == "" || Permits(Cfg(), Lookup(old(tools), toolName, now), now)
                        then CONTINUE else SKIP
    {
      if toolName == "" {
        return CONTINUE;
      }
      var ok := Allow(toolName, now);
      action := if ok then CONTINUE else SKIP;
    }

    /** `uninformative` is the verdict of the result check on the call's summary. */
    method OnToolCallResult(toolName: string, isError: bool, uninformative: bool, now: real)
      requires Valid()
      modifies Repr
      ensures Valid() && fresh(Repr - old(Repr))
      ensures tools == if toolName == "" then old(tools)
                         else old(tools)[toolName :=
                           Step(Cfg(), Lookup(old(tools), toolName, now),
                                if isError || (uninformativeCountsAsFailure && uninformative)
                                then Op.Failure(now) else Op.Success(now))]
    {
      if toolName == "" {
        return;
      }
      var isFailure := isError;
      if !isFailure && uninformativeCountsAsFailure {
        isFailure := uninformative;
      }
      if isFailure {
        RecordFailure(toolName, now);
      } else {
        RecordSuccess(toolName, now);
      }
    }
  }

  /** Construction as the source performs it: invalid settings are refused. */
  method Create(failureThreshold: int, resetTimeout: real, uninformativeCountsAsFailure: bool)
    returns (breaker: CircuitBreaker?)
    ensures breaker != null <==> failureThreshold >= 1 && resetTimeout >= 0.0
    ensures breaker != null ==> fresh(breaker.Repr) && breaker.Valid() && breaker.tools == map[]
  {
    if failureThreshold < 1 {
      return null;
    }
    if resetTimeout < 0.0 {
      return null;
    }
    breaker := new CircuitBreaker(failureThreshold, resetTimeout, uninformativeCountsAsFailure);
  }
}
