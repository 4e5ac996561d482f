/** `dispatch_hook`: one loop that shows an event to every hook of a tuple, swallows what
    they raise and keeps the most restrictive action.

    A hook is any state with any handler; a handler that raises may still have changed the
    state.  The tuple may list a hook twice. */
module HookDispatch {
  import opened Common
  import opened Hooks

  // ---------------------------------------------------------------------------- events

  /** What a tool-call span carries for the gates; `at` is the clock during the dispatch. */
  datatype Payload = Payload(toolName: string, isError: bool, uninformative: bool, at: real)

  datatype Event =
    | Span(subject: SpanSubject, phase: SpanPhase, payload: Payload)
    | IntentClassified | TextDelta | PlanProposed | CitationFound | EvidenceInsufficient
    | MemoryEvent | TurnSummary | RunError | OtherEvent

  datatype Callback =
    | OnEvent | OnTurnStart | OnTurnComplete | OnToolCallStart | OnToolCallResult
    | OnStepStart | OnStepComplete | OnIntentClassified | OnTextDelta | OnPlanProposed
    | OnCitationFound | OnEvidenceInsufficient | OnMemoryEvent | OnTurnSummary | OnError

  /** The typed callback an event is routed to, if any. */
  function Route(e: Event): Option<Callback> {
    match e
    case Span(TURN, START, _) => Some(OnTurnStart)
    case Span(TURN, COMPLETE, _) => Some(OnTurnComplete)
    case Span(TOOL_CALL, START, _) => Some(OnToolCallStart)
    case Span(TOOL_CALL, COMPLETE, _) => Some(OnToolCallResult)
    case Span(STEP, START, _) => Some(OnStepStart)
    case Span(STEP, COMPLETE, _) => Some(OnStepComplete)
    case Span(_, _, _) => None
    case IntentClassified => Some(OnIntentClassified)
    case TextDelta => Some(OnTextDelta)
    case PlanProposed => Some(OnPlanProposed)
    case CitationFound => Some(OnCitationFound)
    case EvidenceInsufficient => Some(OnEvidenceInsufficient)
    case MemoryEvent => Some(OnMemoryEvent)
    case TurnSummary => Some(OnTurnSummary)
    case RunError => Some(OnError)
    case OtherEvent => None
  }

  // ----------------------------------------------------------------------------- hooks

  /** A callback's outcome; `Returned(None)` is any value that is not a `HookAction`. */
  datatype Reply = Raised | Returned(action: Option<HookAction>)

  class Hook<S> {
    const handle: (S, Callback, Event) -> (S, Reply)
    var state: S

    constructor (handle: (S, Callback, Event) -> (S, Reply), state: S)
      ensures this.handle == handle && this.state == state
    {
      this.handle, this.state := handle, state;
    }
  }

  /** One hook's whole reaction, as if it were the only one: the catch-all, then the typed
      callback unless the catch-all raised. */
  function React<S>(handle: (S, Callback, Event) -> (S, Reply), s: S, e: Event): (S, Reply) {
    var (s1, r1) := handle(s, OnEvent, e);
    if r1.Raised? || Route(e).None? then (s1, if r1.Raised? then Raised else Returned(None))
    else
      var (s2, r2) := handle(s1, Route(e).value, e);
      (s2, if r2.Raised? || Route(e) == Some(OnToolCallStart) then r2 else Returned(None))
  }

  /** The action a reply contributes. */
  function Voice(r: Reply): HookAction {
    if r.Returned? && r.action.Some? then r.action.value else CONTINUE
  }

  function Stricter(a: HookAction, b: HookAction): HookAction {
    if b.Priority() > a.Priority() then b else a
  }

  datatype Outcome<S> = Outcome(states: map<Hook<S>, S>, action: HookAction)

  ghost predicate Covers<S>(states: map<Hook<S>, S>, hooks: seq<Hook<S>>) {
    forall h :: h in hooks ==> h in states
  }

  /** The loop's effect on the hooks' states and its verdict. */
  ghost function Fold<S>(states: map<Hook<S>, S>, hooks: seq<Hook<S>>, e: Event): (out: Outcome<S>)
    requires Covers(states, hooks)
    ensures out.states.Keys == states.Keys
    decreases |hooks|
  {
    if hooks == [] then Outcome(states, CONTINUE)
    else
      var h, before := hooks[|hooks| - 1], Fold(states, hooks[..|hooks| - 1], e);
      var (s, r) := React(h.handle, before.states[h], e);
      Outcome(before.states[h := s], Stricter(before.action, Voice(r)))
  }

  ghost function Snapshot<S>(hooks: seq<Hook<S>>): map<Hook<S>, S>
    reads hooks
  {
    map h | h in hooks :: h.state
  }

  /** Runs one hook inside the `try`. */
  method Notify<S>(h: Hook<S>, e: Event, mostRestrictive: HookAction) returns (action: HookAction)
    modifies h
    ensures h.state == React(h.handle, old(h.state), e).0
    ensures action == Stricter(mostRestrictive, Voice(React(h.handle, old(h.state), e).1))
  {
    action := mostRestrictive;
    var (s1, r1) := h.handle(h.state, OnEvent, e);
    h.state := s1;
    if r1.Raised? {
      return;
    }
    var route := Route(e);
    if route.Some? {
      var (s2, r2) := h.handle(h.state, route.value, e);
      h.state := s2;
      if route.value == OnToolCallStart && r2.Returned? && r2.action.Some? {
        if r2.action.value.Priority() > mostRestrictive.Priority() {
          action := r2.action.value;
        }
      }
    }
  }

  /** The current states are the ones on record. */
  ghost predicate Tracks<S>(hooks: seq<Hook<S>>, states: map<Hook<S>, S>)
    reads hooks
  {
    forall h :: h in hooks ==> h in states && h.state == states[h]
  }

  lemma TrackedIsSnapshot<S>(hooks: seq<Hook<S>>, states: map<Hook<S>, S>)
    requires Tracks(hooks, states) && forall h :: h in states ==> h in hooks
    ensures Snapshot(hooks) == states
  {
  }

  /** Where the loop stands after `i` hooks. */
  ghost predicate Reached<S>(start: map<Hook<S>, S>, hooks: seq<Hook<S>>, i: nat, e: Event,
                             states: map<Hook<S>, S>, action: HookAction)
    requires Covers(start, hooks) && i <= |hooks|
  {
    Outcome(states, action) == Fold(start, hooks[..i], e)
  }

  lemma {:induction false} ReachedNext<S>(start: map<Hook<S>, S>, hooks: seq<Hook<S>>, i: nat, e: Event,
                                          states: map<Hook<S>, S>, action: HookAction)
    requires Covers(start, hooks) && i < |hooks| && Reached(start, hooks, i, e, states, action)
    ensures states.Keys == start.Keys
    ensures var h := hooks[i];
            var (s, r) := React(h.handle, states[h], e);
            Reached(start, hooks, i + 1, e, states[h := s], Stricter(action, Voice(r)))
  {
    assert hooks[..i + 1][..i] == hooks[..i];
  }

  /** One turn of the loop: `states` is the record of all hooks' states, kept up to date. */
  method NotifyNext<S>(hooks: seq<Hook<S>>, i: nat, e: Event, mostRestrictive: HookAction,
                       ghost states: map<Hook<S>, S>)
    returns (action: HookAction, ghost after: map<Hook<S>, S>)
    requires i < |hooks| && Tracks(hooks, states)
    modifies hooks[i]
    ensures Tracks(hooks, after)
    ensures var (s, r) := React(hooks[i].handle, states[hooks[i]], e);
            after == states[hooks[i] := s] && action == Stricter(mostRestrictive, Voice(r))
  {
    action := Notify(hooks[i], e, mostRestrictive);
    after := states[hooks[i] := hooks[i].state];
  }

  method DispatchHook<S>(hooks: seq<Hook<S>>, e: Event) returns (mostRestrictive: HookAction)
    modifies hooks
    ensures Snapshot(hooks) == Fold(old(Snapshot(hooks)), hooks, e).states
    ensures mostRestrictive == Fold(old(Snapshot(hooks)), hooks, e).action
  {
    mostRestrictive := CONTINUE;
    ghost var start := Snapshot(hooks);
    ghost var states := start;
    var i := 0;
    while i < |hooks|
      invariant 0 <= i <= |hooks| && states.Keys == start.Keys && Tracks(hooks, states)
      invariant Reached(start, hooks, i, e, states, mostRestrictive)
    {
      ReachedNext(start, hooks, i, e, states, mostRestrictive);
      mostRestrictive, states := NotifyNext(hooks, i, e, mostRestrictive, states);
      i := i + 1;
    }
    assert hooks[..i] == hooks;
    TrackedIsSnapshot(hooks, states);
  }

  // ------------------------------------------------------------- the verdict is a maximum

  /** How often `h` is listed. */
  ghost function Turns<S>(hooks: seq<Hook<S>>, h: Hook<S>): nat { multiset(hooks)[h] }

  /** A hook's state after it alone was shown the event `n` times. */
  function Again<S>(handle: (S, Callback, Event) -> (S, Reply), s: S, e: Event, n: nat): S {
    if n == 0 then s else React(handle, Again(handle, s, e, n - 1), e).0
  }

  /** What `h` replies when it alone is shown `e`, having been shown it `k` times already. */
  ghost function ReplyAt<S>(states: map<Hook<S>, S>, h: Hook<S>, e: Event, k: nat): Reply
    requires h in states
  {
    React(h.handle, Again(h.handle, states[h], e, k), e).1
  }

  /** `h` is listed more than `k` times. */
  ghost predicate IsTurn<S>(hooks: seq<Hook<S>>, h: Hook<S>, k: nat) { h in hooks && k < Turns(hooks, h) }

  ghost predicate IsBound<S>(states: map<Hook<S>, S>, hooks: seq<Hook<S>>, e: Event, a: HookAction)
    requires Covers(states, hooks)
  {
    forall h, k: nat :: h in hooks && IsTurn(hooks, h, k) ==> Voice(ReplyAt(states, h, e, k)).Priority() <= a.Priority()
  }

  ghost predicate IsSaid<S>(states: map<Hook<S>, S>, hooks: seq<Hook<S>>, e: Event, a: HookAction)
    requires Covers(states, hooks)
  {
    exists h, k: nat :: h in hooks && IsTurn(hooks, h, k) && Voice(ReplyAt(states, h, e, k)) == a
  }

  /** `a` is the strictest thing said in any turn of any hook, `CONTINUE` when there is none. */
  ghost predicate IsStrictest<S>(states: map<Hook<S>, S>, hooks: seq<Hook<S>>, e: Event, a: HookAction)
    requires Covers(states, hooks)
  {
    IsBound(states, hooks, e, a) && (a == CONTINUE || IsSaid(states, hooks, e, a))
  }

  lemma SnocCounts<S>(init: seq<Hook<S>>, last: Hook<S>)
    ensures forall h :: Turns(init + [last], h) == Turns(init, h) + (if h == last then 1 else 0)
    ensures forall h :: h in init + [last] <==> h in init || h == last
  {
  }

  lemma TurnSnoc<S>(init: seq<Hook<S>>, last: Hook<S>, h: Hook<S>, k: nat)
    ensures IsTurn(init + [last], h, k) <==> IsTurn(init, h, k) || (h == last && k == Turns(init, last))
  {
    SnocCounts(init, last);
    assert h in init <==> h in multiset(init);
  }

  lemma BoundSnoc<S>(states: map<Hook<S>, S>, init: seq<Hook<S>>, last: Hook<S>, e: Event, a: HookAction)
    requires Covers(states, init + [last]) && Covers(states, init) && last in states && IsBound(states, init, e, a)
    ensures IsBound(states, init + [last], e, Stricter(a, Voice(ReplyAt(states, last, e, Turns(init, last)))))
  {
    var b := Stricter(a, Voice(ReplyAt(states, last, e, Turns(init, last))));
    forall h, k: nat | h in init + [last] && IsTurn(init + [last], h, k)
      ensures Voice(ReplyAt(states, h, e, k)).Priority() <= b.Priority()
    {
      TurnSnoc(init, last, h, k);
    }
  }

  lemma SaidSnoc<S>(states: map<Hook<S>, S>, init: seq<Hook<S>>, last: Hook<S>, e: Event, a: HookAction)
    requires Covers(states, init + [last]) && Covers(states, init) && last in states
    ensures IsSaid(states, init, e, a) ==> IsSaid(states, init + [last], e, a)
    ensures IsSaid(states, init + [last], e, Voice(ReplyAt(states, last, e, Turns(init, last))))
  {
    TurnSnoc(init, last, last, Turns(init, last));
    if IsSaid(states, init, e, a) {
      var h, k: nat :| h in init && IsTurn(init, h, k) && Voice(ReplyAt(states, h, e, k)) == a;
      TurnSnoc(init, last, h, k);
    }
  }

  lemma StrictestSnoc<S>(states: map<Hook<S>, S>, init: seq<Hook<S>>, last: Hook<S>, e: Event, a: HookAction)
    requires Covers(states, init + [last]) && Covers(states, init) && last in states
    requires IsStrictest(states, init, e, a)
    ensures var said := Voice(ReplyAt(states, last, e, Turns(init, last)));
            IsStrictest(states, init + [last], e, Stricter(a, said))
  {
    BoundSnoc(states, init, last, e, a);
    SaidSnoc(states, init, last, e, a);
  }

  lemma {:induction false} FoldIsAgain<S>(states: map<Hook<S>, S>, hooks: seq<Hook<S>>, e: Event, h: Hook<S>)
    requires Covers(states, hooks) && h in states
    ensures Fold(states, hooks, e).states[h] == Again(h.handle, states[h], e, Turns(hooks, h))
    decreases |hooks|
  {
    if hooks != [] {
      var last, init := hooks[|hooks| - 1], hooks[..|hooks| - 1];
      assert hooks == init + [last];
      FoldIsAgain(states, init, e, h);
      SnocCounts(init, last);
    }
  }

  lemma {:induction false} FoldIsStrictest<S>(states: map<Hook<S>, S>, hooks: seq<Hook<S>>, e: Event)
    requires Covers(states, hooks)
    ensures IsStrictest(states, hooks, e, Fold(states, hooks, e).action)
    decreases |hooks|
  {
    if hooks != [] {
      var last, init := hooks[|hooks| - 1], hooks[..|hooks| - 1];
      assert hooks == init + [last];
      FoldIsStrictest(states, init, e);
      FoldIsAgain(states, init, e, last);
      StrictestSnoc(states, init, last, e, Fold(states, init, e).action);
    }
  }

  /** Fan-out is a product: each hook ends as if it alone had been shown the event as often as
      it is listed, and the verdict is the maximum of what they say. */
  lemma {:induction false} FanOutIsProduct<S>(states: map<Hook<S>, S>, hooks: seq<Hook<S>>, e: Event)
    requires Covers(states, hooks)
    ensures IsStrictest(states, hooks, e, Fold(states, hooks, e).action)
    ensures forall h :: h in states ==>
              Fold(states, hooks, e).states[h] == Again(h.handle, states[h], e, Turns(hooks, h))
  {
    FoldIsStrictest(states, hooks, e);
    forall h | h in states
      ensures Fold(states, hooks, e).states[h] == Again(h.handle, states[h], e, Turns(hooks, h))
    {
      FoldIsAgain(states, hooks, e, h);
    }
  }

  lemma StrictestIsMonotone<S>(states: map<Hook<S>, S>, hooks: seq<Hook<S>>, more: seq<Hook<S>>,
                               e: Event, a: HookAction, b: HookAction)
    requires Covers(states, hooks) && Covers(states, more) && multiset(hooks) <= multiset(more)
    requires IsStrictest(states, hooks, e, a) && IsStrictest(states, more, e, b)
    ensures a.Priority() <= b.Priority()
  {
    if a != CONTINUE {
      var h, k: nat :| h in hooks && IsTurn(hooks, h, k) && Voice(ReplyAt(states, h, e, k)) == a;
      assert h in multiset(more) && IsTurn(more, h, k);
    }
  }

  /** More hooks, or more turns of the same ones, can only be stricter. */
  lemma {:induction false} FanOutIsMonotone<S>(states: map<Hook<S>, S>, hooks: seq<Hook<S>>,
                                               more: seq<Hook<S>>, e: Event)
    requires Covers(states, hooks) && Covers(states, more) && multiset(hooks) <= multiset(more)
    ensures Fold(states, hooks, e).action.Priority() <= Fold(states, more, e).action.Priority()
  {
    FanOutIsProduct(states, hooks, e);
    FanOutIsProduct(states, more, e);
    StrictestIsMonotone(states, hooks, more, e, Fold(states, hooks, e).action, Fold(states, more, e).action);
  }

  /** The registration order is irrelevant, to the verdict and to every hook's state. */
  lemma {:induction false} OrderIsIrrelevant<S>(states: map<Hook<S>, S>, hooks: seq<Hook<S>>,
                                                other: seq<Hook<S>>, e: Event)
    requires Covers(states, hooks) && Covers(states, other) && multiset(hooks) == multiset(other)
    ensures Fold(states, hooks, e) == Fold(states, other, e)
  {
    var a, b := Fold(states, hooks, e), Fold(states, other, e);
    assert a.action == b.action by {
      FanOutIsMonotone(states, hooks, other, e);
      FanOutIsMonotone(states, other, hooks, e);
    }
    assert a.states == b.states by {
      FanOutIsProduct(states, hooks, e);
      FanOutIsProduct(states, other, e);
      assert forall h :: h in states ==> a.states[h] == b.states[h];
    }
  }

  /** Turns that raise have no say: the verdict is the maximum over the others. */
  lemma {:induction false} RaisingHooksHaveNoSay<S>(states: map<Hook<S>, S>, hooks: seq<Hook<S>>, e: Event)
    requires Covers(states, hooks)
    ensures var a := Fold(states, hooks, e).action;
            && (forall h, k: nat :: h in hooks && IsTurn(hooks, h, k) && ReplyAt(states, h, e, k).Returned? ==>
                  Voice(ReplyAt(states, h, e, k)).Priority() <= a.Priority())
            && (a == CONTINUE ||
                exists h, k: nat :: h in hooks && IsTurn(hooks, h, k) && ReplyAt(states, h, e, k).Returned?
                                    && Voice(ReplyAt(states, h, e, k)) == a)
  {
    FanOutIsProduct(states, hooks, e);
    var a := Fold(states, hooks, e).action;
    if a != CONTINUE {
      var h, k: nat :| h in hooks && IsTurn(hooks, h, k) && Voice(ReplyAt(states, h, e, k)) == a;
      assert ReplyAt(states, h, e, k).Returned?;
    }
  }

  // ------------------------------------------------------------------ what a hook is shown

  /** A hook that keeps a record of its callbacks and replies anything at all. */
  function Recording(reply: (seq<Callback>, Callback, Event) -> Reply)
    : (seq<Callback>, Callback, Event) -> (seq<Callback>, Reply)
  {
    (record, cb, e) => (record + [cb], reply(record, cb, e))
  }

  /** The callbacks of one turn that gets past the catch-all, event by event. */
  ghost predicate ShownInFull(e: Event, shown: seq<Callback>) {
    && (e.Span? && e.subject == TURN && e.phase == START ==> shown == [OnEvent, OnTurnStart])
    && (e.Span? && e.subject == TURN && e.phase == COMPLETE ==> shown == [OnEvent, OnTurnComplete])
    && (e.Span? && e.subject == TOOL_CALL && e.phase == START ==> shown == [OnEvent, OnToolCallStart])
    && (e.Span? && e.subject == TOOL_CALL && e.phase == COMPLETE ==> shown == [OnEvent, OnToolCallResult])
    && (e.Span? && e.subject == STEP && e.phase == START ==> shown == [OnEvent, OnStepStart])
    && (e.Span? && e.subject == STEP && e.phase == COMPLETE ==> shown == [OnEvent, OnStepComplete])
    && (e.Span? && e.subject !in {TURN, TOOL_CALL, STEP} ==> shown == [OnEvent])
    && (e.Span? && e.phase !in {START, COMPLETE} ==> shown == [OnEvent])
    && (e.IntentClassified? ==> shown == [OnEvent, OnIntentClassified])
    && (e.TextDelta? ==> shown == [OnEvent, OnTextDelta])
    && (e.PlanProposed? ==> shown == [OnEvent, OnPlanProposed])
    && (e.CitationFound? ==> shown == [OnEvent, OnCitationFound])
    && (e.EvidenceInsufficient? ==> shown == [OnEvent, OnEvidenceInsufficient])
    && (e.MemoryEvent? ==> shown == [OnEvent, OnMemoryEvent])
    && (e.TurnSummary? ==> shown == [OnEvent, OnTurnSummary])
    && (e.RunError? ==> shown == [OnEvent, OnError])
    && (e.OtherEvent? ==> shown == [OnEvent])
  }

  /** One turn of a recording hook: the catch-all, and unless it raised the event's typed
      callback, after it; and nothing else. */
  lemma TurnShows(reply: (seq<Callback>, Callback, Event) -> Reply, record: seq<Callback>, e: Event)
    ensures var after := React(Recording(reply), record, e).0;
            && record < after
            && if reply(record, OnEvent, e).Raised? then after == record + [OnEvent]
               else ShownInFull(e, after[|record|..])
  {
  }

  /** What a dispatch leaves on the record of a hook listed once, whatever else is listed. */
  lemma {:induction false} DispatchShows(states: map<Hook<seq<Callback>>, seq<Callback>>,
                                         hooks: seq<Hook<seq<Callback>>>, h: Hook<seq<Callback>>,
                                         reply: (seq<Callback>, Callback, Event) -> Reply, e: Event)
    requires Covers(states, hooks) && h in states && Turns(hooks, h) == 1 && h.handle == Recording(reply)
    ensures var was, now := states[h], Fold(states, hooks, e).states[h];
            && was < now
            && if reply(was, OnEvent, e).Raised? then now == was + [OnEvent] else ShownInFull(e, now[|was|..])
  {
    FoldIsAgain(states, hooks, e, h);
    assert Again(h.handle, states[h], e, 0) == states[h];
    TurnShows(reply, states[h], e);
  }

  /** In its turn number `k`, `h` got past the catch-all and `on_tool_call_start` returned `a`. */
  ghost predicate Says<S>(states: map<Hook<S>, S>, hooks: seq<Hook<S>>, e: Event, h: Hook<S>, k: nat, a: HookAction)
    requires Covers(states, hooks)
  {
    && h in hooks && IsTurn(hooks, h, k)
    && var (s, r) := h.handle(Again(h.handle, states[h], e, k), OnEvent, e);
       r.Returned? && h.handle(s, OnToolCallStart, e).1 == Returned(Some(a))
  }

  ghost predicate SomeoneSays<S>(states: map<Hook<S>, S>, hooks: seq<Hook<S>>, e: Event, a: HookAction)
    requires Covers(states, hooks)
  {
    exists h, k: nat :: h in hooks && Says(states, hooks, e, h, k, a)
  }

  lemma SaysIsVoice<S>(states: map<Hook<S>, S>, hooks: seq<Hook<S>>, e: Event, h: Hook<S>, k: nat, a: HookAction)
    requires Covers(states, hooks) && h in hooks && IsTurn(hooks, h, k) && a != CONTINUE
    requires e.Span? && e.subject == TOOL_CALL && e.phase == START
    ensures Says(states, hooks, e, h, k, a) <==> Voice(ReplyAt(states, h, e, k)) == a
  {
    var alone := Again(h.handle, states[h], e, k);
    var (s1, r1) := h.handle(alone, OnEvent, e);
    var (s2, r2) := h.handle(s1, OnToolCallStart, e);
    assert Route(e) == Some(OnToolCallStart);
    assert React(h.handle, alone, e) == if r1.Raised? then (s1, Raised) else (s2, r2);
  }

  lemma {:induction false} SaidIsSomeones<S>(states: map<Hook<S>, S>, hooks: seq<Hook<S>>, e: Event, a: HookAction)
    requires Covers(states, hooks) && a != CONTINUE && e.Span? && e.subject == TOOL_CALL && e.phase == START
    ensures SomeoneSays(states, hooks, e, a) <==> IsSaid(states, hooks, e, a)
  {
    if h, k: nat :| h in hooks && Says(states, hooks, e, h, k, a) {
      SaysIsVoice(states, hooks, e, h, k, a);
      assert IsSaid(states, hooks, e, a);
    }
    if IsSaid(states, hooks, e, a) {
      var h, k: nat :| h in hooks && IsTurn(hooks, h, k) && Voice(ReplyAt(states, h, e, k)) == a;
      SaysIsVoice(states, hooks, e, h, k, a);
      assert SomeoneSays(states, hooks, e, a);
    }
  }

  /** A tool call is held up for approval when some hook asks for it, skipped when none does but
      some hook says so, and goes on otherwise; whatever is returned on any other event, or by a
      hook whose catch-all raised, has no say. */
  lemma {:induction false} VerdictExactly<S>(states: map<Hook<S>, S>, hooks: seq<Hook<S>>, e: Event)
    requires Covers(states, hooks)
    ensures var v := Fold(states, hooks, e).action;
            if e.Span? && e.subject == TOOL_CALL && e.phase == START then
              && (v == REQUIRE_APPROVAL <==> SomeoneSays(states, hooks, e, REQUIRE_APPROVAL))
              && (v == SKIP <==> SomeoneSays(states, hooks, e, SKIP)
                                 && !SomeoneSays(states, hooks, e, REQUIRE_APPROVAL))
            else v == CONTINUE
  {
    FoldIsStrictest(states, hooks, e);
    var v := Fold(states, hooks, e).action;
    if e.Span? && e.subject == TOOL_CALL && e.phase == START {
      SaidIsSomeones(states, hooks, e, SKIP);
      SaidIsSomeones(states, hooks, e, REQUIRE_APPROVAL);
      if IsSaid(states, hooks, e, SKIP) { StrictestSaid(states, hooks, e, v, SKIP); }
      if IsSaid(states, hooks, e, REQUIRE_APPROVAL) { StrictestSaid(states, hooks, e, v, REQUIRE_APPROVAL); }
    }
  }

  lemma StrictestSaid<S>(states: map<Hook<S>, S>, hooks: seq<Hook<S>>, e: Event, v: HookAction, a: HookAction)
    requires Covers(states, hooks) && IsStrictest(states, hooks, e, v) && IsSaid(states, hooks, e, a)
    ensures a.Priority() <= v.Priority()
  {
    var h, k: nat :| h in hooks && IsTurn(hooks, h, k) && Voice(ReplyAt(states, h, e, k)) == a;
  }

  // ------------------------------------------------------------------------------- runs

  ghost function RunAll<S>(states: map<Hook<S>, S>, hooks: seq<Hook<S>>, events: seq<Event>)
    : (out: map<Hook<S>, S>)
    requires Covers(states, hooks)
    ensures out.Keys == states.Keys
    decreases |events|
  {
    if events == [] then states
    else Fold(RunAll(states, hooks, Butlast(events)), hooks, events[|events| - 1]).states
  }

  /** The verdict on the last event of a run. */
  ghost function Verdict<S>(states: map<Hook<S>, S>, hooks: seq<Hook<S>>, events: seq<Event>): HookAction
    requires Covers(states, hooks) && events != []
  {
    Fold(RunAll(states, hooks, Butlast(events)), hooks, events[|events| - 1]).action
  }

  /** A hook alone. */
  function Solo<S>(handle: (S, Callback, Event) -> (S, Reply), s: S, events: seq<Event>): S
    decreases |events|
  {
    if events == [] then s else React(handle, Solo(handle, s, Butlast(events)), events[|events| - 1]).0
  }

  lemma {:induction false} SoloAgain<S>(handle: (S, Callback, Event) -> (S, Reply), s: S,
                                        events: seq<Event>, e: Event, n: nat)
    ensures Solo(handle, s, events + Copies(e, n)) == Again(handle, Solo(handle, s, events), e, n)
    decreases n
  {
    var all := events + Copies(e, n);
    if n == 0 {
      assert all == events;
    } else {
      SoloAgain(handle, s, events, e, n - 1);
      assert Butlast(all) == events + Copies(e, n - 1) && all[|all| - 1] == e;
    }
  }

  /** What a hook listed any number of times sees of a stream of events. */
  ghost function SeenBy<S>(hooks: seq<Hook<S>>, h: Hook<S>, events: seq<Event>): seq<Event> {
    Repeated(events, Turns(hooks, h))
  }

  /** Over any run each hook's state evolves as if it were alone and saw each event as often as
      it is listed. */
  lemma {:induction false} RunIsProduct<S>(states: map<Hook<S>, S>, hooks: seq<Hook<S>>, events: seq<Event>, h: Hook<S>)
    requires Covers(states, hooks) && h in states
    ensures RunAll(states, hooks, events)[h] == Solo(h.handle, states[h], SeenBy(hooks, h, events))
    decreases |events|
  {
    if events != [] {
      var init, e := Butlast(events), events[|events| - 1];
      RunIsProduct(states, hooks, init, h);
      FoldIsAgain(RunAll(states, hooks, init), hooks, e, h);
      SoloAgain(h.handle, states[h], SeenBy(hooks, h, init), e, Turns(hooks, h));
    }
  }

  lemma {:induction false} TurnIsHeeded<S>(states: map<Hook<S>, S>, hooks: seq<Hook<S>>, e: Event, h: Hook<S>, k: nat)
    requires Covers(states, hooks) && h in hooks && h in states && IsTurn(hooks, h, k)
    ensures Voice(ReplyAt(states, h, e, k)).Priority() <= Fold(states, hooks, e).action.Priority()
  {
    FoldIsStrictest(states, hooks, e);
  }

  /** The verdict is at least what a listed hook says in its last turn, in the state it would
      have alone. */
  lemma {:induction false} VerdictHeedsHook<S>(states: map<Hook<S>, S>, hooks: seq<Hook<S>>, h: Hook<S>,
                                               events: seq<Event>, k: nat)
    requires Covers(states, hooks) && h in hooks && h in states && events != [] && k + 1 == Turns(hooks, h)
    ensures var alone := Solo(h.handle, states[h], SeenBy(hooks, h, Butlast(events)));
            var e := events[|events| - 1];
            Voice(React(h.handle, Again(h.handle, alone, e, k), e).1).Priority()
            <= Verdict(states, hooks, events).Priority()
  {
    RunIsProduct(states, hooks, Butlast(events), h);
    TurnIsHeeded(RunAll(states, hooks, Butlast(events)), hooks, events[|events| - 1], h, k);
  }

  /** One event's part of a record. */
  ghost predicate Shows(raises: Event -> bool, e: Event, shown: seq<Callback>) {
    if raises(e) then shown == [OnEvent] else ShownInFull(e, shown)
  }

  /** A record of a stream of events: one part per event, in order. */
  ghost predicate RecordOf(raises: Event -> bool, events: seq<Event>, record: seq<Callback>)
    decreases |events|
  {
    if events == [] then record == []
    else exists n: nat :: n <= |record| && RecordOf(raises, Butlast(events), record[..n])
                          && Shows(raises, events[|events| - 1], record[n..])
  }

  /** Over a whole run a hook whose catch-all raises on some kinds of events, listed once, is
      shown every event, in order, each with its typed callback unless the catch-all raised. */
  lemma {:induction false} RunShows(states: map<Hook<seq<Callback>>, seq<Callback>>,
                                    hooks: seq<Hook<seq<Callback>>>, h: Hook<seq<Callback>>,
                                    reply: (seq<Callback>, Callback, Event) -> Reply, raises: Event -> bool,
                                    events: seq<Event>)
    requires Covers(states, hooks) && h in states && Turns(hooks, h) == 1 && h.handle == Recording(reply)
    requires states[h] == [] && forall record, e :: reply(record, OnEvent, e).Raised? <==> raises(e)
    ensures RecordOf(raises, events, RunAll(states, hooks, events)[h])
    decreases |events|
  {
    if events != [] {
      var init, e := Butlast(events), events[|events| - 1];
      RunShows(states, hooks, h, reply, raises, init);
      var before, after := RunAll(states, hooks, init), RunAll(states, hooks, events)[h];
      DispatchShows(before, hooks, h, reply, e);
      assert after[..|before[h]|] == before[h];
      if raises(e) { assert after[|before[h]|..] == [OnEvent]; }
      assert RecordOf(raises, init, after[..|before[h]|]) && Shows(raises, e, after[|before[h]|..]);
    }
  }
}
