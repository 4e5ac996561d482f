/** The rate limiter and the circuit breaker as hooks among others: what each sees of the stream
    of events, and what still holds of the calls that pass the whole tuple. */
module CallGates {
  import opened Common
  import opened Hooks
  import opened HookDispatch
  import Brk = CircuitBreaking
  import Lim = RateLimiting

  datatype Gate =
    | LimiterGate(cfg: Lim.Config, buckets: Lim.Buckets)
    | BreakerGate(settings: Brk.Settings, countUninformative: bool, tools: Brk.Tools)
    | OtherGate

  /** `on_tool_call_start` / `on_tool_call_result` of the rate limiter and the breaker. */
  function GateHandle(g: Gate, cb: Callback, e: Event): (Gate, Reply) {
    if !e.Span? || g.OtherGate? || e.payload.toolName == "" then (g, Returned(Some(CONTINUE)))
    else
      var tool, at := e.payload.toolName, e.payload.at;
      match g
      case LimiterGate(cfg, buckets) =>
        if cb != OnToolCallStart then (g, Returned(None))
        else (LimiterGate(cfg, Lim.Next(cfg, buckets, tool, at)),
              Returned(Some(if Lim.Permits(cfg, buckets, tool, at) then CONTINUE else SKIP)))
      case BreakerGate(settings, flag, tools) =>
        var s := Brk.Lookup(tools, tool, at);
        if cb == OnToolCallStart then
          (g.(tools := tools[tool := Brk.Step(settings, s, Brk.Allow(at))]),
           Returned(Some(if Brk.Permits(settings, s, at) then CONTINUE else SKIP)))
        else if cb == OnToolCallResult then
          var outcome := if CountsAsFailure(flag, e.payload) then Brk.Failure(at) else Brk.Success(at);
          (g.(tools := tools[tool := Brk.Step(settings, s, outcome)]), Returned(None))
        else (g, Returned(None))
  }

  predicate IsCall(e: Event) { e.Span? && e.subject == TOOL_CALL && e.phase == START && e.payload.toolName != "" }

  /** The calls a limiter sees in a run of events. */
  function CallsOf(events: seq<Event>): seq<Lim.Call>
    decreases |events|
  {
    if events == [] then []
    else
      var e := events[|events| - 1];
      CallsOf(Butlast(events))
      + (if IsCall(e) then [Lim.Call(e.payload.toolName, e.payload.at)] else [])
  }

  /** The limiter's whole reaction to a call, and to anything else. */
  lemma LimiterReacts(cfg: Lim.Config, buckets: Lim.Buckets, e: Event)
    ensures var (g, r) := React(GateHandle, LimiterGate(cfg, buckets), e);
            if IsCall(e) then
              && g == LimiterGate(cfg, Lim.Next(cfg, buckets, e.payload.toolName, e.payload.at))
              && Voice(r) == if Lim.Permits(cfg, buckets, e.payload.toolName, e.payload.at) then CONTINUE else SKIP
            else g == LimiterGate(cfg, buckets)
  {
  }

  lemma {:induction false} CallsOfLast(events: seq<Event>)
    requires events != []
    ensures var calls, e := CallsOf(events), events[|events| - 1];
            if IsCall(e) then
              calls != [] && Butlast(calls) == CallsOf(Butlast(events))
              && calls[|calls| - 1] == Lim.Call(e.payload.toolName, e.payload.at)
            else calls == CallsOf(Butlast(events))
  {
  }

  /** Over any stream of events a limiter is its run on the tool calls in it. */
  lemma {:induction false} LimiterAlone(cfg: Lim.Config, events: seq<Event>)
    ensures Solo(GateHandle, LimiterGate(cfg, map[]), events)
            == LimiterGate(cfg, Lim.Run(cfg, CallsOf(events)))
    decreases |events|
  {
    if events != [] {
      LimiterAlone(cfg, Butlast(events));
      LimiterReacts(cfg, Lim.Run(cfg, CallsOf(Butlast(events))), events[|events| - 1]);
      CallsOfLast(events);
    }
  }

  /** A rate limiter, unused so far, is listed, once or more, among hooks of any kind. */
  ghost predicate HasLimiter(states: map<Hook<Gate>, Gate>, hooks: seq<Hook<Gate>>, limiter: Hook<Gate>,
                             cfg: Lim.Config) {
    && Covers(states, hooks) && limiter in hooks && limiter in states
    && limiter.handle == GateHandle && states[limiter] == LimiterGate(cfg, map[])
  }

  lemma SeenLast(hooks: seq<Hook<Gate>>, h: Hook<Gate>, events: seq<Event>)
    requires h in hooks && events != []
    ensures var seen, e := SeenBy(hooks, h, events), events[|events| - 1];
            && Turns(hooks, h) > 0 && seen != [] && seen[|seen| - 1] == e
            && Butlast(seen) == SeenBy(hooks, h, Butlast(events)) + Copies(e, Turns(hooks, h) - 1)
  {
    assert h in multiset(hooks);
    RepeatedLast(events, Turns(hooks, h));
  }

  /** What a gate says in its last turn, alone, bounds the verdict. */
  lemma {:induction false} VerdictHeedsGate(states: map<Hook<Gate>, Gate>, hooks: seq<Hook<Gate>>, h: Hook<Gate>,
                                            events: seq<Event>, before: seq<Event>, now: Gate)
    requires Covers(states, hooks) && h in hooks && h in states && events != [] && h.handle == GateHandle
    requires SeenBy(hooks, h, events) != [] && before == Butlast(SeenBy(hooks, h, events))
    requires now == Solo(GateHandle, states[h], before)
    requires Verdict(states, hooks, events) == CONTINUE
    ensures Voice(React(GateHandle, now, events[|events| - 1]).1) == CONTINUE
  {
    SeenLast(hooks, h, events);
    var n, e := Turns(hooks, h) - 1, events[|events| - 1];
    SoloAgain(GateHandle, states[h], SeenBy(hooks, h, Butlast(events)), e, n);
    VerdictHeedsHook(states, hooks, h, events, n);
  }

  /** Calls under `key` at times in `[s, t]` that the whole tuple let continue. */
  ghost function Passed(cfg: Lim.Config, states: map<Hook<Gate>, Gate>, hooks: seq<Hook<Gate>>,
                        events: seq<Event>, key: string, s: real, t: real): nat
    requires Covers(states, hooks)
    decreases |events|
  {
    if events == [] then 0
    else
      var e := events[|events| - 1];
      Passed(cfg, states, hooks, Butlast(events), key, s, t)
      + (if IsCall(e) && Lim.Governs(cfg, key, Lim.Call(e.payload.toolName, e.payload.at))
            && Verdict(states, hooks, events) == CONTINUE && s <= e.payload.at <= t then 1 else 0)
  }

  /** A call that passes the tuple was let through by the limiter in it, in its last turn. */
  lemma {:induction false} PassedIsAllowed(cfg: Lim.Config, states: map<Hook<Gate>, Gate>,
                                           hooks: seq<Hook<Gate>>, limiter: Hook<Gate>, events: seq<Event>)
    requires HasLimiter(states, hooks, limiter, cfg)
    requires events != [] && IsCall(events[|events| - 1])
    requires Verdict(states, hooks, events) == CONTINUE
    ensures var calls := CallsOf(SeenBy(hooks, limiter, events)); calls != [] && Lim.Allowed(cfg, calls)
  {
    var seen, e := SeenBy(hooks, limiter, events), events[|events| - 1];
    SeenLast(hooks, limiter, events);
    var buckets := Lim.Run(cfg, CallsOf(Butlast(seen)));
    assert Voice(React(GateHandle, LimiterGate(cfg, buckets), e).1) == CONTINUE by {
      LimiterAlone(cfg, Butlast(seen));
      VerdictHeedsGate(states, hooks, limiter, events, Butlast(seen), LimiterGate(cfg, buckets));
    }
    LimiterReacts(cfg, buckets, e);
    CallsOfLast(seen);
  }

  lemma {:induction false} AdmittedLast(cfg: Lim.Config, events: seq<Event>, key: string, s: real, t: real)
    requires events != []
    ensures IsCall(events[|events| - 1]) ==> CallsOf(events) != []
    ensures var e, calls := events[|events| - 1], CallsOf(events);
            Lim.Admitted(cfg, calls, key, s, t)
            == Lim.Admitted(cfg, CallsOf(Butlast(events)), key, s, t)
               + (if IsCall(e) && Lim.Governs(cfg, key, Lim.Call(e.payload.toolName, e.payload.at))
                     && Lim.Allowed(cfg, calls) && s <= e.payload.at <= t then 1 else 0)
  {
    CallsOfLast(events);
  }

  lemma {:induction false} AdmittedGrows(cfg: Lim.Config, events: seq<Event>, all: seq<Event>, e: Event, n: nat,
                                         key: string, s: real, t: real)
    requires all == events + Copies(e, n)
    ensures Lim.Admitted(cfg, CallsOf(events), key, s, t) <= Lim.Admitted(cfg, CallsOf(all), key, s, t)
    decreases n
  {
    if n == 0 {
      NoCopies(events, e);
    } else {
      CopiesSnoc(events, e, n);
      AdmittedGrows(cfg, events, Butlast(all), e, n - 1, key, s, t);
      AdmittedLast(cfg, all, key, s, t);
    }
  }

  lemma {:induction false} AdmittedByTurn(cfg: Lim.Config, hooks: seq<Hook<Gate>>, limiter: Hook<Gate>,
                                          events: seq<Event>, key: string, s: real, t: real)
    requires limiter in hooks && events != []
    ensures var e, calls := events[|events| - 1], CallsOf(SeenBy(hooks, limiter, events));
            && (IsCall(e) ==> calls != [])
            && Lim.Admitted(cfg, calls, key, s, t)
               >= Lim.Admitted(cfg, CallsOf(SeenBy(hooks, limiter, Butlast(events))), key, s, t)
                  + (if IsCall(e) && Lim.Governs(cfg, key, Lim.Call(e.payload.toolName, e.payload.at))
                        && Lim.Allowed(cfg, calls) && s <= e.payload.at <= t then 1 else 0)
  {
    var seen, stream := SeenBy(hooks, limiter, events), SeenBy(hooks, limiter, Butlast(events));
    SeenLast(hooks, limiter, events);
    AdmittedGrows(cfg, stream, Butlast(seen), events[|events| - 1], Turns(hooks, limiter) - 1, key, s, t);
    AdmittedLast(cfg, seen, key, s, t);
  }

  lemma {:induction false} PassedAtMostAdmitted(cfg: Lim.Config, states: map<Hook<Gate>, Gate>,
                                                hooks: seq<Hook<Gate>>, limiter: Hook<Gate>,
                                                events: seq<Event>, key: string, s: real, t: real)
    requires HasLimiter(states, hooks, limiter, cfg)
    ensures Passed(cfg, states, hooks, events, key, s, t)
            <= Lim.Admitted(cfg, CallsOf(SeenBy(hooks, limiter, events)), key, s, t)
    decreases |events|
  {
    if events != [] {
      var init, e := Butlast(events), events[|events| - 1];
      PassedAtMostAdmitted(cfg, states, hooks, limiter, init, key, s, t);
      AdmittedByTurn(cfg, hooks, limiter, events, key, s, t);
      if IsCall(e) && Verdict(states, hooks, events) == CONTINUE {
        PassedIsAllowed(cfg, states, hooks, limiter, events);
      }
    }
  }

  /** Whatever else is registered, in whatever order, the calls that pass a tuple with a rate
      limiter in it still meet the bound of the quota their tool is held to. */
  lemma {:induction false} PassedCallsMeetRateBound(rates: seq<(string, Lim.Quota)>, defaultRate: Option<Lim.Quota>,
                                                    matches: (string, string) -> bool,
                                                    states: map<Hook<Gate>, Gate>, hooks: seq<Hook<Gate>>,
                                                    limiter: Hook<Gate>, events: seq<Event>, tool: string,
                                                    key: string, quota: Lim.Quota, s: real, t: real)
    requires HasLimiter(states, hooks, limiter, Lim.ConfigOf(rates, defaultRate, matches))
    requires Lim.HeldTo(rates, defaultRate, matches, tool, key, quota) && quota.refill >= 0.0
    requires Lim.DistinctPatterns(rates) && !Lim.DefaultKeyClash(Lim.ConfigOf(rates, defaultRate, matches))
    requires Lim.InOrder(CallsOf(SeenBy(hooks, limiter, events))) && s <= t
    ensures var n := Passed(Lim.ConfigOf(rates, defaultRate, matches), states, hooks, events, key, s, t);
            n == 0 || n as real <= quota.capacity as real + quota.refill * (t - s)
  {
    var cfg := Lim.ConfigOf(rates, defaultRate, matches);
    PassedAtMostAdmitted(cfg, states, hooks, limiter, events, key, s, t);
    Lim.SharedPatternRateBound(rates, defaultRate, matches, CallsOf(SeenBy(hooks, limiter, events)), tool, key,
                               quota, s, t);
  }

  // --------------------------------------------------------- the breaker among other hooks

  predicate IsResult(e: Event) {
    e.Span? && e.subject == TOOL_CALL && e.phase == COMPLETE && e.payload.toolName != ""
  }

  predicate CountsAsFailure(flag: bool, p: Payload) { p.isError || (flag && p.uninformative) }

  /** What a breaker sees of an event. */
  function BreakerOps(flag: bool, e: Event): (seen: seq<Brk.Event>)
    ensures seen == [] <==> !IsCall(e) && !IsResult(e)
    ensures seen != [] ==> seen == [seen[0]] && seen[0].tool == e.payload.toolName
  {
    if IsCall(e) then [Brk.Event(e.payload.toolName, Brk.Allow(e.payload.at))]
    else if IsResult(e) then
      [Brk.Event(e.payload.toolName,
                 if CountsAsFailure(flag, e.payload) then Brk.Failure(e.payload.at) else Brk.Success(e.payload.at))]
    else []
  }

  /** A call is an `allow`; a result is a failure when it is an error, or when uninformative results
      count and it is one, and a success otherwise. */
  lemma OutcomesAreJudged(flag: bool, e: Event)
    ensures IsCall(e) ==> BreakerOps(flag, e) == [Brk.Event(e.payload.toolName, Brk.Allow(e.payload.at))]
    ensures IsResult(e) && (e.payload.isError || (flag && e.payload.uninformative)) ==>
              BreakerOps(flag, e) == [Brk.Event(e.payload.toolName, Brk.Failure(e.payload.at))]
    ensures IsResult(e) && !e.payload.isError && !(flag && e.payload.uninformative) ==>
              BreakerOps(flag, e) == [Brk.Event(e.payload.toolName, Brk.Success(e.payload.at))]
  {
  }

  function BreakerEvents(flag: bool, events: seq<Event>): seq<Brk.Event>
    decreases |events|
  {
    if events == [] then []
    else BreakerEvents(flag, Butlast(events)) + BreakerOps(flag, events[|events| - 1])
  }

  /** The breaker's whole reaction to an event: one step of its machine, or none. */
  lemma {:induction false} BreakerReacts(settings: Brk.Settings, flag: bool, seen: seq<Brk.Event>, e: Event)
    ensures var tools := Brk.RunAll(settings, seen);
            var (g, r) := React(GateHandle, BreakerGate(settings, flag, tools), e);
            && g == BreakerGate(settings, flag, Brk.RunAll(settings, seen + BreakerOps(flag, e)))
            && (IsCall(e) ==>
                  var s := Brk.Lookup(tools, e.payload.toolName, e.payload.at);
                  Voice(r) == if Brk.Permits(settings, s, e.payload.at) then CONTINUE else SKIP)
  {
    var ops := BreakerOps(flag, e);
    if ops == [] {
      assert seen + ops == seen;
    } else {
      assert (seen + ops)[..|seen|] == seen;
    }
  }

  /** Over any stream of events a breaker is its run on the tool calls and results in it. */
  lemma {:induction false} BreakerAlone(settings: Brk.Settings, flag: bool, events: seq<Event>)
    ensures Solo(GateHandle, BreakerGate(settings, flag, map[]), events)
            == BreakerGate(settings, flag, Brk.RunAll(settings, BreakerEvents(flag, events)))
    decreases |events|
  {
    if events != [] {
      BreakerAlone(settings, flag, Butlast(events));
      BreakerReacts(settings, flag, BreakerEvents(flag, Butlast(events)), events[|events| - 1]);
    }
  }

  /** A breaker, unused so far, is listed, once or more, among hooks of any kind. */
  ghost predicate HasBreaker(states: map<Hook<Gate>, Gate>, hooks: seq<Hook<Gate>>, breaker: Hook<Gate>,
                             settings: Brk.Settings, flag: bool) {
    && Covers(states, hooks) && breaker in hooks && breaker in states
    && breaker.handle == GateHandle && states[breaker] == BreakerGate(settings, flag, map[])
  }

  /** The operations of `tool` a breaker sees, and the record it starts from. */
  function OpsOn(flag: bool, events: seq<Event>, tool: string): seq<Brk.Op> {
    Brk.OpsOf(BreakerEvents(flag, events), tool)
  }

  function Born(ops: seq<Brk.Op>): Brk.Tool { Brk.NewTool(if ops == [] then 0.0 else ops[0].at) }

  predicate Concerns(e: Event, tool: string) { (IsCall(e) || IsResult(e)) && e.payload.toolName == tool }

  lemma {:induction false} OpsOnLast(flag: bool, events: seq<Event>, tool: string)
    requires events != []
    ensures var e, before, ops := events[|events| - 1], OpsOn(flag, Butlast(events), tool), OpsOn(flag, events, tool);
            if Concerns(e, tool) then
              ops != [] && Butlast(ops) == before && ops[|ops| - 1] == BreakerOps(flag, e)[0].op
            else ops == before
  {
    BreakerOpsOf(BreakerEvents(flag, Butlast(events)), flag, events[|events| - 1], tool);
  }

  lemma {:induction false} BreakerOpsOf(before: seq<Brk.Event>, flag: bool, e: Event, tool: string)
    ensures var seen, was := BreakerOps(flag, e), Brk.OpsOf(before, tool);
            var ops := Brk.OpsOf(before + seen, tool);
            if Concerns(e, tool) then ops != [] && Butlast(ops) == was && ops[|ops| - 1] == seen[0].op
            else ops == was
  {
    var seen, was := BreakerOps(flag, e), Brk.OpsOf(before, tool);
    if seen == [] {
      assert before + seen == before;
    } else {
      Brk.OpsOfSnoc(before, seen[0], tool);
      assert Butlast(was + [seen[0].op]) == was;
    }
  }

  lemma {:induction false} OpsOnOneMore(flag: bool, events: seq<Event>, tool: string, was: seq<Brk.Op>, n: nat)
    requires n > 0 && events != [] && Concerns(events[|events| - 1], tool)
    requires var op := BreakerOps(flag, events[|events| - 1])[0].op;
             OpsOn(flag, Butlast(events), tool) == was + Copies(op, n - 1)
    ensures OpsOn(flag, events, tool) == was + Copies(BreakerOps(flag, events[|events| - 1])[0].op, n)
  {
    OpsOnLast(flag, events, tool);
    CopiesFromLast(OpsOn(flag, events, tool), was, BreakerOps(flag, events[|events| - 1])[0].op, n);
  }

  lemma {:induction false} OpsOnCopies(flag: bool, events: seq<Event>, e: Event, n: nat, tool: string)
    requires Concerns(e, tool)
    ensures OpsOn(flag, events + Copies(e, n), tool)
            == OpsOn(flag, events, tool) + Copies(BreakerOps(flag, e)[0].op, n)
    decreases n
  {
    var op := BreakerOps(flag, e)[0].op;
    if n == 0 {
      NoCopies(events, e);
      NoCopies(OpsOn(flag, events, tool), op);
    } else {
      OpsOnCopies(flag, events, e, n - 1, tool);
      CopiesSnoc(events, e, n);
      OpsOnOneMore(flag, events + Copies(e, n), tool, OpsOn(flag, events, tool), n);
    }
  }

  lemma {:induction false} OpsOnOtherCopies(flag: bool, events: seq<Event>, e: Event, n: nat, tool: string)
    requires !Concerns(e, tool)
    ensures OpsOn(flag, events + Copies(e, n), tool) == OpsOn(flag, events, tool)
    decreases n
  {
    if n == 0 {
      NoCopies(events, e);
    } else {
      OpsOnOtherCopies(flag, events, e, n - 1, tool);
      CopiesSnoc(events, e, n);
      OpsOnLast(flag, events + Copies(e, n), tool);
    }
  }

  /** What a listed breaker sees of `tool`, its every turn counted. */
  ghost function OpsSeen(hooks: seq<Hook<Gate>>, breaker: Hook<Gate>, flag: bool, events: seq<Event>,
                         tool: string): seq<Brk.Op> {
    OpsOn(flag, SeenBy(hooks, breaker, events), tool)
  }

  lemma {:induction false} PassedIsPermitted(states: map<Hook<Gate>, Gate>, hooks: seq<Hook<Gate>>,
                                             breaker: Hook<Gate>, settings: Brk.Settings, flag: bool,
                                             events: seq<Event>)
    requires HasBreaker(states, hooks, breaker, settings, flag)
    requires events != [] && IsCall(events[|events| - 1]) && Verdict(states, hooks, events) == CONTINUE
    ensures SeenBy(hooks, breaker, events) != []
    ensures var p, seen := events[|events| - 1].payload,
                           BreakerEvents(flag, Butlast(SeenBy(hooks, breaker, events)));
            Brk.Permits(settings, Brk.Lookup(Brk.RunAll(settings, seen), p.toolName, p.at), p.at)
  {
    var e := events[|events| - 1];
    SeenLast(hooks, breaker, events);
    var stream := Butlast(SeenBy(hooks, breaker, events));
    var g := BreakerGate(settings, flag, Brk.RunAll(settings, BreakerEvents(flag, stream)));
    assert Voice(React(GateHandle, g, e).1) == CONTINUE by {
      BreakerAlone(settings, flag, stream);
      VerdictHeedsGate(states, hooks, breaker, events, stream, g);
    }
    BreakerReacts(settings, flag, BreakerEvents(flag, stream), e);
  }

  /** A call that passes the tuple was admitted by the breaker in it, in its last turn. */
  lemma {:induction false} PassedIsAdmitted(states: map<Hook<Gate>, Gate>, hooks: seq<Hook<Gate>>,
                                            breaker: Hook<Gate>, settings: Brk.Settings, flag: bool,
                                            events: seq<Event>)
    requires HasBreaker(states, hooks, breaker, settings, flag)
    requires events != [] && IsCall(events[|events| - 1]) && Verdict(states, hooks, events) == CONTINUE
    ensures var ops := OpsSeen(hooks, breaker, flag, events, events[|events| - 1].payload.toolName);
            ops != [] && Brk.Admitted(settings, Born(ops), ops)
  {
    var p, seen := events[|events| - 1].payload, SeenBy(hooks, breaker, events);
    SeenLast(hooks, breaker, events);
    PassedIsPermitted(states, hooks, breaker, settings, flag, events);
    Brk.AnswerIsTheToolsOwn(settings, BreakerEvents(flag, Butlast(seen)), p.toolName, p.at);
    OpsOnLast(flag, seen, p.toolName);
    var ops := OpsOn(flag, seen, p.toolName);
    assert ops == Butlast(ops) + [Brk.Allow(p.at)];
  }

  /** Beside each of those operations, whether a call the whole tuple let continue got its last
      turn with it. */
  ghost function PassesOn(states: map<Hook<Gate>, Gate>, hooks: seq<Hook<Gate>>, breaker: Hook<Gate>,
                          events: seq<Event>, tool: string): seq<bool>
    requires Covers(states, hooks) && breaker in hooks
    decreases |events|
  {
    if events == [] then []
    else
      var e, before := events[|events| - 1], PassesOn(states, hooks, breaker, Butlast(events), tool);
      if Concerns(e, tool) then
        before + Copies(false, LastTurn(hooks, breaker)) + [IsCall(e) && Verdict(states, hooks, events) == CONTINUE]
      else before
  }

  ghost function LastTurn(hooks: seq<Hook<Gate>>, h: Hook<Gate>): nat
    requires h in hooks
  {
    assert h in multiset(hooks);
    Turns(hooks, h) - 1
  }

  lemma SeenSnoc(hooks: seq<Hook<Gate>>, h: Hook<Gate>, events: seq<Event>)
    requires events != []
    ensures SeenBy(hooks, h, events)
            == SeenBy(hooks, h, Butlast(events)) + Copies(events[|events| - 1], Turns(hooks, h))
  {
  }

  lemma {:induction false} OpsSeenLast(hooks: seq<Hook<Gate>>, breaker: Hook<Gate>, flag: bool,
                                       events: seq<Event>, tool: string)
    requires breaker in hooks && events != []
    ensures var e, was := events[|events| - 1], OpsSeen(hooks, breaker, flag, Butlast(events), tool);
            OpsSeen(hooks, breaker, flag, events, tool)
            == if Concerns(e, tool) then was + Copies(BreakerOps(flag, e)[0].op, Turns(hooks, breaker)) else was
  {
    var e, stream := events[|events| - 1], SeenBy(hooks, breaker, Butlast(events));
    SeenSnoc(hooks, breaker, events);
    if Concerns(e, tool) {
      OpsOnCopies(flag, stream, e, Turns(hooks, breaker), tool);
    } else {
      OpsOnOtherCopies(flag, stream, e, Turns(hooks, breaker), tool);
    }
  }

  lemma {:induction false} PassesOnLast(states: map<Hook<Gate>, Gate>, hooks: seq<Hook<Gate>>,
                                        breaker: Hook<Gate>, events: seq<Event>, tool: string)
    requires Covers(states, hooks) && breaker in hooks && events != [] && Concerns(events[|events| - 1], tool)
    ensures PassesOn(states, hooks, breaker, events, tool)
            == PassesOn(states, hooks, breaker, Butlast(events), tool) + Copies(false, LastTurn(hooks, breaker))
               + [IsCall(events[|events| - 1]) && Verdict(states, hooks, events) == CONTINUE]
  {
  }

  lemma {:induction false} TurnsBeforeLast(hooks: seq<Hook<Gate>>, breaker: Hook<Gate>, flag: bool,
                                           events: seq<Event>, tool: string, was: seq<Brk.Op>, ops: seq<Brk.Op>)
    requires breaker in hooks && events != [] && Concerns(events[|events| - 1], tool)
    requires was == OpsSeen(hooks, breaker, flag, Butlast(events), tool)
    requires ops == OpsSeen(hooks, breaker, flag, events, tool)
    ensures var op := BreakerOps(flag, events[|events| - 1])[0].op;
            ops == was + Copies(op, LastTurn(hooks, breaker)) + [op]
  {
    var n, op := LastTurn(hooks, breaker), BreakerOps(flag, events[|events| - 1])[0].op;
    assert ops == was + Copies(op, n + 1) by { OpsSeenLast(hooks, breaker, flag, events, tool); }
    CopiesEnd(ops, was, op, n);
  }

  lemma {:induction false} PassesGrantedByTurns(states: map<Hook<Gate>, Gate>, hooks: seq<Hook<Gate>>,
                                                breaker: Hook<Gate>, settings: Brk.Settings, flag: bool,
                                                events: seq<Event>, tool: string, born: Brk.Tool,
                                                was: seq<Brk.Op>, passes: seq<bool>)
    requires HasBreaker(states, hooks, breaker, settings, flag) && events != []
    requires Concerns(events[|events| - 1], tool)
    requires born == Born(OpsSeen(hooks, breaker, flag, events, tool))
    requires was == OpsSeen(hooks, breaker, flag, Butlast(events), tool)
    requires passes == PassesOn(states, hooks, breaker, Butlast(events), tool)
    requires |was| == |passes| && Brk.Granted(settings, born, was, passes)
    ensures var ops, passed := OpsSeen(hooks, breaker, flag, events, tool),
                               PassesOn(states, hooks, breaker, events, tool);
            |ops| == |passed| && Brk.Granted(settings, born, ops, passed)
  {
    var n, op := LastTurn(hooks, breaker), BreakerOps(flag, events[|events| - 1])[0].op;
    TurnsBeforeLast(hooks, breaker, flag, events, tool, was, OpsSeen(hooks, breaker, flag, events, tool));
    PassesOnLast(states, hooks, breaker, events, tool);
    Brk.GrantedCopies(settings, born, was, passes, op, n);
    LastTurnGranted(states, hooks, breaker, settings, flag, events, tool, born,
                    was + Copies(op, n), passes + Copies(false, n));
  }

  lemma {:induction false} PassesAreGranted(states: map<Hook<Gate>, Gate>, hooks: seq<Hook<Gate>>,
                                            breaker: Hook<Gate>, settings: Brk.Settings, flag: bool,
                                            events: seq<Event>, tool: string, born: Brk.Tool)
    requires HasBreaker(states, hooks, breaker, settings, flag)
    requires OpsSeen(hooks, breaker, flag, events, tool) != [] ==>
               born == Born(OpsSeen(hooks, breaker, flag, events, tool))
    ensures var ops, passed := OpsSeen(hooks, breaker, flag, events, tool),
                               PassesOn(states, hooks, breaker, events, tool);
            |ops| == |passed| && Brk.Granted(settings, born, ops, passed)
    decreases |events|
  {
    if events != [] {
      OpsSeenGrows(hooks, breaker, flag, events, tool);
      PassesAreGranted(states, hooks, breaker, settings, flag, Butlast(events), tool, born);
      if Concerns(events[|events| - 1], tool) {
        PassesGrantedByTurns(states, hooks, breaker, settings, flag, events, tool, born,
                             OpsSeen(hooks, breaker, flag, Butlast(events), tool),
                             PassesOn(states, hooks, breaker, Butlast(events), tool));
      }
    }
  }

  lemma {:induction false} OpsSeenGrows(hooks: seq<Hook<Gate>>, breaker: Hook<Gate>, flag: bool,
                                        events: seq<Event>, tool: string)
    requires breaker in hooks && events != []
    ensures var was, ops := OpsSeen(hooks, breaker, flag, Butlast(events), tool),
                            OpsSeen(hooks, breaker, flag, events, tool);
            && (was != [] ==> ops != [] && Born(ops) == Born(was))
            && (if Concerns(events[|events| - 1], tool) then ops != [] else ops == was)
  {
    if Concerns(events[|events| - 1], tool) {
      TurnsBeforeLast(hooks, breaker, flag, events, tool, OpsSeen(hooks, breaker, flag, Butlast(events), tool),
                      OpsSeen(hooks, breaker, flag, events, tool));
    } else {
      OpsSeenLast(hooks, breaker, flag, events, tool);
    }
  }

  lemma {:induction false} LastTurnGranted(states: map<Hook<Gate>, Gate>, hooks: seq<Hook<Gate>>,
                                           breaker: Hook<Gate>, settings: Brk.Settings, flag: bool,
                                           events: seq<Event>, tool: string, born: Brk.Tool,
                                           ops: seq<Brk.Op>, passed: seq<bool>)
    requires HasBreaker(states, hooks, breaker, settings, flag) && events != []
    requires Concerns(events[|events| - 1], tool)
    requires var all := ops + [BreakerOps(flag, events[|events| - 1])[0].op];
             OpsSeen(hooks, breaker, flag, events, tool) == all && born == Born(all)
    requires |ops| == |passed| && Brk.Granted(settings, born, ops, passed)
    ensures var e := events[|events| - 1];
            Brk.Granted(settings, born, ops + [BreakerOps(flag, e)[0].op],
                        passed + [IsCall(e) && Verdict(states, hooks, events) == CONTINUE])
  {
    var e := events[|events| - 1];
    var all := ops + [BreakerOps(flag, e)[0].op];
    var passes := passed + [IsCall(e) && Verdict(states, hooks, events) == CONTINUE];
    assert Butlast(all) == ops && Butlast(passes) == passed;
    if passes[|passes| - 1] { PassedIsAdmitted(states, hooks, breaker, settings, flag, events); }
    Brk.GrantedSnoc(settings, born, all, passes);
  }

  /** How many calls of `tool` the whole tuple let continue. */
  ghost function PassedOf(states: map<Hook<Gate>, Gate>, hooks: seq<Hook<Gate>>, events: seq<Event>,
                          tool: string): nat
    requires Covers(states, hooks)
    decreases |events|
  {
    if events == [] then 0
    else
      var e := events[|events| - 1];
      PassedOf(states, hooks, Butlast(events), tool)
      + (if IsCall(e) && e.payload.toolName == tool && Verdict(states, hooks, events) == CONTINUE then 1 else 0)
  }

  lemma {:induction false} PassesSnoc(passed: seq<bool>, n: nat, last: bool)
    ensures Brk.Passes(passed + Copies(false, n) + [last]) == Brk.Passes(passed) + (if last then 1 else 0)
  {
    PassesCopies(passed, n);
    assert Butlast(passed + Copies(false, n) + [last]) == passed + Copies(false, n);
  }

  lemma {:induction false} PassesCopies(passed: seq<bool>, n: nat)
    ensures Brk.Passes(passed + Copies(false, n)) == Brk.Passes(passed)
  {
    if n == 0 {
      assert passed + Copies(false, n) == passed;
    } else {
      PassesCopies(passed, n - 1);
      assert Butlast(passed + Copies(false, n)) == passed + Copies(false, n - 1);
    }
  }

  lemma {:induction false} PassedOfCounts(states: map<Hook<Gate>, Gate>, hooks: seq<Hook<Gate>>,
                                          breaker: Hook<Gate>, events: seq<Event>, tool: string)
    requires Covers(states, hooks) && breaker in hooks
    ensures PassedOf(states, hooks, events, tool) == Brk.Passes(PassesOn(states, hooks, breaker, events, tool))
    decreases |events|
  {
    if events != [] {
      var init, e := Butlast(events), events[|events| - 1];
      PassedOfCounts(states, hooks, breaker, init, tool);
      PassesSnoc(PassesOn(states, hooks, breaker, init, tool), LastTurn(hooks, breaker),
                 IsCall(e) && Verdict(states, hooks, events) == CONTINUE);
    }
  }

  lemma {:induction false} PassedAtMostAdmissions(states: map<Hook<Gate>, Gate>, hooks: seq<Hook<Gate>>,
                                                  breaker: Hook<Gate>, settings: Brk.Settings, flag: bool,
                                                  events: seq<Event>, tool: string)
    requires HasBreaker(states, hooks, breaker, settings, flag)
    ensures var ops := OpsSeen(hooks, breaker, flag, events, tool);
            PassedOf(states, hooks, events, tool) <= Brk.Passes(Brk.Admissions(settings, Born(ops), ops))
  {
    var ops := OpsSeen(hooks, breaker, flag, events, tool);
    PassesAreGranted(states, hooks, breaker, settings, flag, events, tool, Born(ops));
    PassedOfCounts(states, hooks, breaker, events, tool);
    Brk.GrantedAtMostAdmissions(settings, Born(ops), ops, PassesOn(states, hooks, breaker, events, tool));
  }

  /** Every call of `tool` that passes the tuple fails before the next one that does; calls
      that some hook refuses need no result. */
  ghost predicate PassedCallsFail(states: map<Hook<Gate>, Gate>, hooks: seq<Hook<Gate>>, breaker: Hook<Gate>,
                                  settings: Brk.Settings, flag: bool, events: seq<Event>, tool: string)
    requires HasBreaker(states, hooks, breaker, settings, flag)
  {
    var ops := OpsSeen(hooks, breaker, flag, events, tool);
    PassesAreGranted(states, hooks, breaker, settings, flag, events, tool, Born(ops));
    Brk.AlwaysFailing(ops, PassesOn(states, hooks, breaker, events, tool))
  }

  /** Whatever else is registered and refuses, a tool that always fails passes a tuple with a
      breaker in it at most `failureThreshold` times plus once per timeout since its first call. */
  lemma {:induction false} FailingToolPassesRarely(states: map<Hook<Gate>, Gate>, hooks: seq<Hook<Gate>>,
                                                   breaker: Hook<Gate>, settings: Brk.Settings, flag: bool,
                                                   events: seq<Event>, tool: string, until: real)
    requires HasBreaker(states, hooks, breaker, settings, flag)
    requires settings.Valid() && settings.resetTimeout > 0.0
    requires var ops := OpsSeen(hooks, breaker, flag, events, tool);
             ops != [] && Brk.InOrder(ops) && ops[|ops| - 1].at <= until
    requires PassedCallsFail(states, hooks, breaker, settings, flag, events, tool)
    ensures PassedOf(states, hooks, events, tool)
            <= settings.failureThreshold
               + ((until - OpsSeen(hooks, breaker, flag, events, tool)[0].at) / settings.resetTimeout).Floor
  {
    var ops, passed := OpsSeen(hooks, breaker, flag, events, tool), PassesOn(states, hooks, breaker, events, tool);
    PassesAreGranted(states, hooks, breaker, settings, flag, events, tool, Born(ops));
    PassedOfCounts(states, hooks, breaker, events, tool);
    Brk.FailingCallsBound(settings, ops[0].at, ops, passed, until);
  }

  predicate NoResults(events: seq<Event>, tool: string) {
    forall e :: e in events && IsResult(e) ==> e.payload.toolName != tool
  }

  /** After these operations a probe is out. */
  predicate ProbeOut(settings: Brk.Settings, ops: seq<Brk.Op>) {
    ops != [] && var r := Brk.Run(settings, Born(ops), ops); r.state == Brk.HALF_OPEN && r.probe
  }

  lemma {:induction false} ProbeOutSnoc(settings: Brk.Settings, ops: seq<Brk.Op>)
    requires ops != [] && ops[|ops| - 1].Allow? && ProbeOut(settings, Butlast(ops))
    ensures ProbeOut(settings, ops)
  {
    assert Born(Butlast(ops)) == Born(ops);
  }

  lemma {:induction false} ProbeStaysOut(settings: Brk.Settings, flag: bool, before: seq<Event>,
                                         after: seq<Event>, tool: string)
    requires ProbeOut(settings, OpsOn(flag, before, tool)) && NoResults(after, tool)
    ensures ProbeOut(settings, OpsOn(flag, before + after, tool))
    decreases |after|
  {
    if after == [] {
      assert before + after == before;
    } else {
      var e := after[|after| - 1];
      assert NoResults(Butlast(after), tool) by { assert forall x :: x in Butlast(after) ==> x in after; }
      ProbeStaysOut(settings, flag, before, Butlast(after), tool);
      ButlastConcat(before, after);
      OpsOnLast(flag, before + after, tool);
      assert e in after;
      if Concerns(e, tool) { ProbeOutSnoc(settings, OpsOn(flag, before + after, tool)); }
    }
  }

  lemma {:induction false} ProbeOutRefuses(settings: Brk.Settings, ops: seq<Brk.Op>)
    requires ops != [] && ops[|ops| - 1].Allow? && ProbeOut(settings, Butlast(ops))
    ensures !Brk.Admitted(settings, Born(ops), ops)
  {
    assert Born(Butlast(ops)) == Born(ops);
  }

  lemma {:induction false} SeenConcat(hooks: seq<Hook<Gate>>, h: Hook<Gate>, before: seq<Event>, after: seq<Event>)
    requires h in hooks && after != []
    ensures var seen, shown := SeenBy(hooks, h, before + after), SeenBy(hooks, h, after);
            && seen != [] && shown != [] && seen[|seen| - 1] == after[|after| - 1]
            && Butlast(seen) == SeenBy(hooks, h, before) + Butlast(shown)
            && forall e :: e in Butlast(shown) ==> e in after
  {
    var shown := SeenBy(hooks, h, after);
    SeenLast(hooks, h, after);
    RepeatedConcat(before, after, Turns(hooks, h));
    RepeatedMembers(after, Turns(hooks, h));
    assert forall e :: e in Butlast(shown) ==> e in shown;
  }

  lemma {:induction false} LateCallFindsProbe(hooks: seq<Hook<Gate>>, breaker: Hook<Gate>, settings: Brk.Settings,
                                              flag: bool, before: seq<Event>, after: seq<Event>, tool: string)
    requires breaker in hooks && after != [] && NoResults(after, tool)
    requires ProbeOut(settings, OpsSeen(hooks, breaker, flag, before, tool))
    requires IsCall(after[|after| - 1]) && after[|after| - 1].payload.toolName == tool
    ensures var ops := OpsSeen(hooks, breaker, flag, before + after, tool);
            ops != [] && ops[|ops| - 1].Allow? && ProbeOut(settings, Butlast(ops))
  {
    SeenConcat(hooks, breaker, before, after);
    ProbeStaysOut(settings, flag, SeenBy(hooks, breaker, before), Butlast(SeenBy(hooks, breaker, after)), tool);
    OpsOnLast(flag, SeenBy(hooks, breaker, before + after), tool);
  }

  /** Once a probe of `tool` is out, every further call is refused, whatever the time, until some
      result of `tool` is reported; which may be never, when another hook held up the probe's
      call for approval and the run ended there, or `allow` was asked for a call never made. */
  lemma {:induction false} UnreportedProbeBlocksTool(states: map<Hook<Gate>, Gate>, hooks: seq<Hook<Gate>>,
                                                     breaker: Hook<Gate>, settings: Brk.Settings, flag: bool,
                                                     before: seq<Event>, after: seq<Event>, tool: string)
    requires HasBreaker(states, hooks, breaker, settings, flag)
    requires ProbeOut(settings, OpsSeen(hooks, breaker, flag, before, tool)) && NoResults(after, tool)
    requires after != [] && IsCall(after[|after| - 1]) && after[|after| - 1].payload.toolName == tool
    ensures Verdict(states, hooks, before + after) != CONTINUE
  {
    var all := before + after;
    assert all[|all| - 1] == after[|after| - 1];
    LateCallFindsProbe(hooks, breaker, settings, flag, before, after, tool);
    ProbeOutRefuses(settings, OpsSeen(hooks, breaker, flag, all, tool));
    if Verdict(states, hooks, all) == CONTINUE {
      PassedIsAdmitted(states, hooks, breaker, settings, flag, all);
      assert false;
    }
  }
}
