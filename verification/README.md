# kaos-agents: a verified model of the stateful cores

This project models the parts of kaos-agents that keep state or recurse, and proves what they
keep over every run. Five areas, eighteen modules:

- **Call admission.** `TokenBuckets`, `RateLimiting`, `CircuitBreaking` and `HookDispatch` model the
  token bucket, the per-pattern rate limiter, the per-tool circuit breaker and the hook fan-out.
  Each is a class with the original's fields, proved against a machine on values; the machine is
  then analysed over whole histories: the bucket equals a sliding-window check over its entire past,
  the breaker's state is a function of the recorded outcomes, the fan-out is a product of its hooks,
  each listed any number of times. `LimiterTraces` is about what the limiter's past leaves behind,
  `CallGates` about the two gates among other hooks: what passes the tuple meets each gate's bound.
- **Span tracing.** `SpanTracing`: the collector's span stack, from which parents are synthesised,
  and the emitter's start times, from which durations are filled in.
- **The corpus loader.** `CorpusCache` models each loading thread as a step machine over temporary
  files, blobs, the index and its lock, at the level of inodes, so that any interleaving (with
  torn writes and failed reads) is a sequence of actions. `CorpusIndex` is about the index and its
  lock, `CorpusLoading` about the slots and the assembly of documents and URIs in input order,
  `CorpusReuse` about one load after another: what the cache answers for, and what it does not.
- **Context assembly and retrieval.** `BudgetTrim` and `ContextAssembly` model the nested trimming
  loops, the gathering around them and the corpus handle; `ResultMerge` the rounds of
  `adaptive_retrieve`, with search, lexicon, language model and encoder scores as oracles.
- **Records.** `AgentEnvelopes`: the round trip between trees of agents and content-addressed
  envelopes. `AuditLogs`: the append log made of whole-file reads and writes.

`Common` and `Hooks` hold what several of them share.

Time is a `real` passed to each operation; each operation reads it once and is one atomic step. A
steady refill of `rate` tokens a second is a function of time (`Steady(rate)`, the function `t` to
`rate * t`), so that the facts that do not need steadiness hold of any accrual.

Runs are sequences, recursive on their last element: "after a run" and "the last call of a run"
range over every reachable state. Lemmas named `...Exactly` give the precise condition, in both
directions, under which a documented claim holds, or all that a step does.

## Where the code and its documentation part

The model follows the code. Each point below is a theorem of the project.

- "Each unique pattern owns its own bucket" (rate_limit.py:61-63): the default rate's bucket is filed
  under `__default__` among the patterns, so a pattern spelled that way shares its bucket with the
  unmatched tools. Every bucket serves a single rule if and only if no two rules are filed under one
  key (`OwnBucketExactly`), and then rules do not interfere (`RulesDoNotInterfere`); otherwise one
  starves the other even at equal rates (`SharedBucketStarves`), and at different rates whichever
  comes first decides the rate (`OwnRateExactly`). The comment at line 79 speaks of a `*` key that
  the code does not use.
- A call that is refused still files a bucket. That leaves a trace exactly when a rule that admits
  nothing shares its key with one that could: `RefusedCallsLeaveNoTraceExactly`,
  `DeadDefaultBlocksPattern`.
- A refill rate below zero is accepted, and then the moment a bucket is created matters:
  `LazyCreationExactly` for one bucket, `CreationTimesLeaveNoTraceExactly` for a limiter.
- The four transitions of the circuit breaker (circuit.py:7-10): outcomes carry no call, so a late
  success takes OPEN to CLOSED, a late failure moves `opened_at`, and a late outcome of another call
  that finds HALF_OPEN passes for the probe's. `DiagramBrokenExactlyByStrays` gives all of these and
  no others; `LateSuccessClosesOpenCircuit` and `StrangerPassesForProbe` are runs. Under sequential
  use the diagram holds, `SequentialUseFollowsDiagram`.
- "Further calls are refused until the probe completes" (circuit.py:12-14): they are, exactly as long
  as no other call's outcome is recorded. `RefusedUntilProbeCompletesExactly`.
- A probe whose result is never reported, as when `allow` was asked for a call that was then not
  made, or another hook held the call up for approval and the run ended there, leaves the breaker
  refusing the tool whatever time passes: `UnreportedProbeBlocksTool`. (A call that a hook answers
  with SKIP is only hidden from the outbound stream, runner.py:455-457; its result is reported.)
- A cancelled span is forgotten by the emitter but stays on the collector's stack as the parent of
  what follows. `AgreementBrokenExactlyByCancel`, `CancelledSpanStaysParent`.
- An end for which no start is open is tolerated, but it drops its span and everything above it when
  that is still on the stack: the seed of the collector, or a span last cancelled.
  `UnmatchedEndKeepsContextExactly`, `EndOfSeedDropsAll`, `EndOfCancelledDropsContext`.
- "A moved or copied file is still a cache hit" (chat.py:475-478) while parsing reads the path and
  the suffix, and chunking reads whether a chunker is importable: a hit may differ from an uncached
  load. `TransparentExactly`, `CopiedFileIsServedTheOriginal`.
- "Atomic per-blob" (chat.py:540-541): writers of one key share one temporary path, and a blob can be
  published half-written; the claim holds exactly under `NeverTornExactly`. The reader treats what
  does not parse as a miss, so answers stay right as long as the mixed bytes of several writers do
  not parse to another list (`CacheNeverLies`, hypothesis `MixturesTear`). With nothing supposed of
  such bytes, blobs are right exactly when no two loads store under one key: `BlobsAreExactExactly`.
- A failed read of the index makes the next write drop every other entry: `IndexUpdateExactly`.
- The handle's "more" counts documents, not names: `HandleListsFirstNames`.
- Reranking happens after `unique_items` was counted, and drops hits for which the encoder gave no
  score: the results number `unique_items` if and only if there were at least as many scores as hits,
  or no reranking. `RerankKeepsExactly`, `MissingScoresDropAll`, `Retrieval.AdaptiveRetrieve`.
- "Round-trips bit-identically" modulo settings and refusal policy (config.py:342-355): settings
  overrides, recipe ids and extra or missing provider fields of a stored envelope are lost too, and an
  unknown role name raises. `EnvelopeSurvivesExactly`, `RoundTripIsNormal`.
- "Append-only" (logging.py:13): a read that fails for any reason counts as a missing file, and the
  log is overwritten. `FailedReadKeepsLogExactly`, over whole runs `LogParsesBackExactly`.
  "Per-session log files": `OwnFileExactly`.

## Model

| member | source | states |
|---|---|---|
| TokenBuckets.LevelIsWindowMinimum | kaos_agents/action/rate_limit.py:41-51 | after any history the tokens on hand are the smallest of: the capacity, and for creation and each earlier call, capacity plus accrual since then minus what was granted since then |
| TokenBuckets.BucketRefinesSlidingWindow | kaos_agents/action/rate_limit.py:41-51 | a call is granted exactly when no window over the entire past, opened at creation or at any earlier call, would be overdrawn |
| TokenBuckets.HistoryStep | kaos_agents/action/rate_limit.py:43-51 | extending a history by the machine's answer is one step of the machine, and the answer is the sliding-window verdict |
| TokenBuckets.SteadyLevel | kaos_agents/action/rate_limit.py:44-47 | the elapsed-time refill is the accrual between the two moments, clamped to the capacity and never negative in time |
| TokenBuckets.BurstBound | kaos_agents/action/rate_limit.py:28-29 | from any earlier call through a granted one, what was granted is at most the capacity plus the accrual between them |
| TokenBuckets.VolumeBound | kaos_agents/action/rate_limit.py:28-29 | in any interval the amount granted is zero or at most capacity plus accrual |
| TokenBuckets.RateBound | kaos_agents/action/rate_limit.py:28-29 | the same for a steady rate: capacity + rate * (t - s) |
| TokenBuckets.RefusalIsInvisible | kaos_agents/action/rate_limit.py:41-51 | a refused call leaves no trace in any later level |
| TokenBuckets.RefusalsLeaveNoTrace | kaos_agents/action/rate_limit.py:41-51 | striking all refused calls from a history leaves a faithful history with the same level from then on |
| TokenBuckets.LazyCreationIsInvisible | kaos_agents/action/rate_limit.py:37-51 | a bucket created full at any earlier time answers the same calls the same way |
| TokenBuckets.DrainTellsCreation | kaos_agents/action/rate_limit.py:44-48 | at a negative rate, asking for the whole capacity tells a bucket made now from one made earlier |
| TokenBuckets.LazyCreationExactly | kaos_agents/action/rate_limit.py:37-51 | that holds of every sequence of calls if and only if the refill rate is not negative |
| TokenBuckets.TokenBucket.constructor | kaos_agents/action/rate_limit.py:37-39 | a new bucket is full, stamped with the current time, and has an empty history |
| TokenBuckets.TokenBucket.Refill | kaos_agents/action/rate_limit.py:43-47 | the refill in place equals the accrual-based level |
| TokenBuckets.TokenBucket.Consume | kaos_agents/action/rate_limit.py:41-51 | the answer is the sliding-window verdict on everything the bucket ever saw; the recorded history stays faithful |
| RateLimiting.FirstMatch | kaos_agents/action/rate_limit.py:84-85 | the first pattern that matches, none before it does |
| RateLimiting.RuleIsHeldTo | kaos_agents/action/rate_limit.py:82-99 | a tool is filed under and held to the entry of the first pattern that matches it, pattern and rate both; when none does the default, under `__default__`; and it is unlimited if and only if no pattern matches and there is no default |
| RateLimiting.ConfiguredRule | kaos_agents/action/rate_limit.py:77-99 | in a configured limiter the rule is the quota so determined |
| RateLimiting.StandingIsQuota | kaos_agents/action/rate_limit.py:33-39 | a quota stands for its own capacity and its own refill per second |
| RateLimiting.FirstCallFilesOwnQuota | kaos_agents/action/rate_limit.py:84-110 | the first call under a key passes if and only if the capacity of the quota its tool is held to is at least one, and files a bucket of that capacity that refills at that quota's rate from then on; no other bucket changes |
| RateLimiting.UnlimitedToolsPass | kaos_agents/action/rate_limit.py:92-93 | a tool that nothing holds always passes and leaves nothing behind |
| RateLimiting.BucketsAreIndependent | kaos_agents/action/rate_limit.py:82-110 | in every run each bucket is what its own sub-history alone makes of it, and exists once a call reached it |
| RateLimiting.LimiterRefinesSlidingWindow | kaos_agents/action/rate_limit.py:101-110 | `allow` is the sliding-window verdict on the calls that shared the bucket; a first call is judged on the capacity |
| RateLimiting.OwnBucketExactly | kaos_agents/action/rate_limit.py:61-63 | in every run every bucket's history is the calls of a single rule, if and only if no two rules are filed under one key |
| RateLimiting.CallsMatchHistory | kaos_agents/action/rate_limit.py:82-110 | the calls listed for a bucket are calls of the run under its key, and stand beside the entries of its history one by one, at the same times |
| RateLimiting.SharedKeyIsDefaults | kaos_agents/action/rate_limit.py:94-98 | two rules share a key only when one is the default and the other a pattern spelled like the default's key |
| RateLimiting.OwnBucketIsOwnRun | kaos_agents/action/rate_limit.py:61-63 | without shared keys a rule's bucket is what the rule's own calls alone make of it |
| RateLimiting.RulesDoNotInterfere | kaos_agents/action/rate_limit.py:61-63 | without shared keys a call is decided by the calls of its own rule alone |
| RateLimiting.SharedBucketStarves | kaos_agents/action/rate_limit.py:94-98 | with a shared key and equal rates a call of one rule is refused for a call of the other |
| RateLimiting.ClashIsSharedKey | kaos_agents/action/rate_limit.py:94-98 | a clash of rates is a case of a shared key |
| RateLimiting.OwnRateExactly | kaos_agents/action/rate_limit.py:86-99 | every call of every run is held to its own rule's rate if and only if no shared key stands for two different rates |
| RateLimiting.BucketRateComesFromACall | kaos_agents/action/rate_limit.py:86-99 | every bucket was made with the rate of some call that its key governs |
| RateLimiting.AdmittedIsVolume | kaos_agents/action/rate_limit.py:101-110 | the calls let through under a key in an interval are the volume of its bucket's history |
| RateLimiting.SharedPatternBound | kaos_agents/action/rate_limit.py:57-63 | where no key stands for two rates: for any mix of tools under one rule that never drains and any interval, admissions are none or at most capacity plus accrual |
| RateLimiting.SharedPatternRateBound | kaos_agents/action/rate_limit.py:57-63 | the same in terms of the quota the tool is held to (its first matching pattern's, or the default's), for refill >= 0: at most capacity + refill * (t - s) |
| LimiterTraces.ConfiguredRatesAreSteady | kaos_agents/action/rate_limit.py:77-78 | every configuration, whatever the sign of its refill rates, has the steady and monotone rates the next rows speak of |
| LimiterTraces.RefusedCallsLeaveNoTrace | kaos_agents/action/rate_limit.py:82-110 | without such keys, deleting every refused call from a limiter's past changes no later decision |
| LimiterTraces.RefusedCallsLeaveNoTraceExactly | kaos_agents/action/rate_limit.py:82-110 | for monotone rates, that holds of every run if and only if no rule with capacity below one shares its key with one of capacity one or more |
| LimiterTraces.DeadBucketBlocks | kaos_agents/action/rate_limit.py:94-98 | two rules of that kind, and the run in which a refused call blocks a later one |
| LimiterTraces.DeadDefaultBlocksPattern | kaos_agents/action/rate_limit.py:94-98 | such a configuration: a default without capacity and a pattern spelled like its key |
| LimiterTraces.CreationTimesLeaveNoTrace | kaos_agents/action/rate_limit.py:82-99 | making any of the buckets ahead of use, if they do not drain or never admit anything, changes no decision of any run |
| LimiterTraces.CreationTimesLeaveNoTraceExactly | kaos_agents/action/rate_limit.py:82-99 | for steady rates, making some of the buckets ahead of use changes no decision of any later run if and only if none of them drains while it could admit something |
| RateLimiting.RateLimiter.constructor | kaos_agents/action/rate_limit.py:70-80 | a limiter starts with its configuration and no buckets |
| RateLimiting.RateLimiter.GetOrCreate | kaos_agents/action/rate_limit.py:86-90 | finds the key's bucket, or creates and files a full one; no other bucket changes |
| RateLimiting.RateLimiter.BucketFor | kaos_agents/action/rate_limit.py:82-99 | the bucket of the first matching pattern, else of the default; null exactly when the tool is unlimited |
| RateLimiting.RateLimiter.ConsumeOne | kaos_agents/action/rate_limit.py:110-110 | one token from one bucket; the others are untouched although they are separate mutable objects |
| RateLimiting.RateLimiter.Allow | kaos_agents/action/rate_limit.py:101-110 | answer and new state are those of the machine the lemmas are about |
| RateLimiting.RateLimiter.OnToolCallStart | kaos_agents/action/rate_limit.py:112-122 | CONTINUE for an allowed or unnamed call, SKIP otherwise; an unnamed call changes nothing |
| CircuitBreaking.StateIsFunctionOfHistory | kaos_agents/action/circuit.py:140-196 | state, failure count, probe flag and opening time of every reachable state are functions of the operations recorded so far |
| CircuitBreaking.BreakerInvariants | kaos_agents/action/circuit.py:88-98 | the failure count is the trailing run of failures, CLOSED means below the threshold, a probe in flight means HALF_OPEN |
| CircuitBreaking.LastAttemptIsHistory | kaos_agents/action/circuit.py:164-164 | the last attempt time is that of the latest `allow`, admitted or not, or of the record's making |
| CircuitBreaking.ProbeIsFirstRipeAllow | kaos_agents/action/circuit.py:147-173 | with no outcome recorded, the only call an open circuit lets through is the first `allow` at or after opened_at + reset_timeout |
| CircuitBreaking.AtMostOneProbe | kaos_agents/action/circuit.py:147-173 | from an open circuit, once one call was let through, no later one is while no outcome is recorded, and that one came after the timeout |
| CircuitBreaking.RefusedUntilProbeCompletesExactly | kaos_agents/action/circuit.py:12-14 | until the probe's own outcome is recorded all other calls are refused, at any later time, if and only if no other call's outcome is recorded |
| CircuitBreaking.ProberIsOut | kaos_agents/action/circuit.py:94-96 | in every run the probe flag is up exactly while some call's probe is out, and only when half-open |
| CircuitBreaking.StrangerPassesForProbe | kaos_agents/action/circuit.py:175-181 | the run in which a late success of another call ends the probe and a further call is admitted while the probe is out |
| CircuitBreaking.FailingCallsBound | kaos_agents/action/circuit.py:147-196 | when every call that goes ahead fails before the next one does, at most failure_threshold + floor((T - t0) / reset_timeout) go ahead by T, whoever else refuses admitted calls |
| CircuitBreaking.FailingToolBound | kaos_agents/action/circuit.py:147-196 | in particular a tool whose every admitted call fails is admitted at most that often |
| CircuitBreaking.RunsArePaced | kaos_agents/action/circuit.py:147-196 | in such runs the calls past the threshold that went ahead never outnumber the timeouts that have passed |
| CircuitBreaking.DiagramBrokenExactlyByStrays | kaos_agents/action/circuit.py:3-14 | in every run, with each outcome known by its call, a step follows the documented diagram if and only if it is not an outcome that finds the circuit open, or half-open without being the probe's (a late failure re-stamping the same time excepted) |
| CircuitBreaking.SequentialUseFollowsDiagram | kaos_agents/action/circuit.py:3-14 | when every outcome is that of the one admitted call outstanding, every step of every run follows the diagram and OPEN to CLOSED never occurs |
| CircuitBreaking.LateSuccessClosesOpenCircuit | kaos_agents/action/circuit.py:175-181 | two overlapping calls: the late success of one closes the circuit the other opened |
| CircuitBreaking.ToolsAreIndependent | kaos_agents/action/circuit.py:138-145 | in every run over many tools, each tool's record is the run of its own operations |
| CircuitBreaking.AnswerIsTheToolsOwn | kaos_agents/action/circuit.py:157-173 | among many tools, `allow` answers as the tool's own operations say |
| CircuitBreaking.PerToolState.constructor | kaos_agents/action/circuit.py:87-98 | a fresh record is closed with no failures |
| CircuitBreaking.PerToolState.Age | kaos_agents/action/circuit.py:150-154 | the time-based transition in place |
| CircuitBreaking.PerToolState.Attempt | kaos_agents/action/circuit.py:164-173 | admits when closed, or half-open with no probe out, and then marks the probe; stamps the attempt |
| CircuitBreaking.PerToolState.Succeed | kaos_agents/action/circuit.py:178-181 | any success closes the circuit and clears the count and the probe |
| CircuitBreaking.PerToolState.Fail | kaos_agents/action/circuit.py:186-196 | counts; opens from half-open, or at the threshold, stamping the time |
| CircuitBreaking.CircuitBreaker.constructor | kaos_agents/action/circuit.py:134-138 | valid settings give a breaker with no records |
| CircuitBreaking.CircuitBreaker.Get | kaos_agents/action/circuit.py:140-145 | finds or creates a tool's record; no other record changes |
| CircuitBreaking.CircuitBreaker.StateFor | kaos_agents/action/circuit.py:147-155 | one `StateFor` step of that tool's machine, and its resulting state |
| CircuitBreaking.CircuitBreaker.AttemptOn | kaos_agents/action/circuit.py:163-173 | the attempt marks one record; the others are untouched although they are separate mutable objects |
| CircuitBreaking.CircuitBreaker.Allow | kaos_agents/action/circuit.py:157-173 | one `Allow` step of that tool's machine, and its answer |
| CircuitBreaking.CircuitBreaker.RecordSuccess | kaos_agents/action/circuit.py:175-181 | one `Success` step of that tool's machine |
| CircuitBreaking.CircuitBreaker.RecordFailure | kaos_agents/action/circuit.py:183-196 | one `Failure` step of that tool's machine |
| CircuitBreaking.CircuitBreaker.OnToolCallStart | kaos_agents/action/circuit.py:198-206 | CONTINUE for a permitted or unnamed call, SKIP otherwise |
| CircuitBreaking.CircuitBreaker.OnToolCallResult | kaos_agents/action/circuit.py:208-245 | an error, or an uninformative result when those count, is recorded as a failure, anything else as a success |
| CircuitBreaking.Create | kaos_agents/action/circuit.py:115-138 | construction succeeds exactly for a threshold of at least one and a timeout that is not negative |
| HookDispatch.Notify | kaos_agents/hooks/dispatch.py:69-112 | one hook inside the `try`: it moves as if alone, and raises the verdict only by a stricter action it returned |
| HookDispatch.NotifyNext | kaos_agents/hooks/dispatch.py:68-112 | one turn of the loop moves one hook, even when it is listed again, and no other |
| HookDispatch.DispatchHook | kaos_agents/hooks/dispatch.py:37-121 | the loop over mutable hooks, possibly listed twice, computes the fold of their reactions |
| HookDispatch.TurnShows | kaos_agents/hooks/dispatch.py:69-112 | one turn shows a hook the catch-all and then, unless that raised, the event's typed callback if it has one, event by event; nothing else and in no other order |
| HookDispatch.DispatchShows | kaos_agents/hooks/dispatch.py:66-112 | so does a dispatch, for a hook listed once among any others |
| HookDispatch.RunShows | kaos_agents/hooks/dispatch.py:66-112 | over a run such a hook is shown every event in order, each with its typed callback unless the catch-all raised |
| HookDispatch.VerdictExactly | kaos_agents/hooks/dispatch.py:43-49 | a tool call is held up for approval if and only if some turn past its catch-all asks for it, skipped if and only if none does and some turn says so; on every other event the verdict is CONTINUE, whatever is returned |
| HookDispatch.FanOutIsProduct | kaos_agents/hooks/dispatch.py:37-49 | for any tuple, repetitions included, the verdict is the maximum of what the hooks say in their turns and each ends as if it alone had been shown the event as often as it is listed |
| HookDispatch.FanOutIsMonotone | kaos_agents/hooks/dispatch.py:43-44 | adding hooks, or further turns of the same ones, can only make the verdict stricter |
| HookDispatch.OrderIsIrrelevant | kaos_agents/hooks/dispatch.py:43-44 | any two orders of the same tuple give the same verdict and the same hook states |
| HookDispatch.RaisingHooksHaveNoSay | kaos_agents/hooks/dispatch.py:48-49 | the verdict is the maximum over the turns that did not raise |
| HookDispatch.RunIsProduct | kaos_agents/hooks/dispatch.py:66-121 | over any run each hook's state evolves as if it were alone and saw each event as often as it is listed |
| HookDispatch.VerdictHeedsHook | kaos_agents/hooks/dispatch.py:86-88 | over any run the verdict is at least what a listed hook would say alone in its last turn |
| CallGates.LimiterReacts | kaos_agents/action/rate_limit.py:112-122 | a limiter reacts to the start of a named tool call and to nothing else |
| CallGates.LimiterAlone | kaos_agents/action/rate_limit.py:112-122 | over any stream of events a limiter is its run on the tool calls in it |
| CallGates.PassedIsAllowed | kaos_agents/hooks/dispatch.py:84-88 | a call that the whole tuple lets continue was allowed by the limiter in it, in its last turn |
| CallGates.PassedAtMostAdmitted | kaos_agents/hooks/dispatch.py:84-88 | the tuple passes no more calls than the limiter admits |
| CallGates.PassedCallsMeetRateBound | kaos_agents/hooks/dispatch.py:37-49 | calls that pass a tuple with a limiter in it, listed once or more, still meet the bound of the quota their tool is held to, whatever else is listed and in whatever order (where no key stands for two rates, for refill >= 0) |
| CallGates.OutcomesAreJudged | kaos_agents/action/circuit.py:208-245 | a result counts as a failure if it is an error, or uninformative where those count, and as a success otherwise |
| CallGates.BreakerReacts | kaos_agents/action/circuit.py:198-245 | a breaker reacts to the start and the result of a named tool call by one step of its machine, and to nothing else |
| CallGates.BreakerAlone | kaos_agents/action/circuit.py:198-245 | over any stream of events a breaker is its run on the calls and results in it |
| CallGates.PassedIsAdmitted | kaos_agents/hooks/dispatch.py:84-88 | a call that the whole tuple lets continue was admitted by the breaker in it, in its last turn |
| CallGates.PassedAtMostAdmissions | kaos_agents/hooks/dispatch.py:84-88 | the tuple passes no more calls of a tool than the breaker admits |
| CallGates.PassesAreGranted | kaos_agents/hooks/dispatch.py:84-88 | over any run the passed calls of a tool are among those the breaker admitted |
| CallGates.FailingToolPassesRarely | kaos_agents/hooks/dispatch.py:37-49 | whatever else is listed beside a breaker, itself listed once or more, and refuses without a result following, a tool whose every passed call fails passes at most failure_threshold + floor((T - t0) / reset_timeout) times |
| CallGates.UnreportedProbeBlocksTool | kaos_agents/action/circuit.py:169-172 | once a probe is out every call of the tool is refused whatever the time, until some result of it is reported |
| SpanTracing.IndexOf | kaos_agents/events/collector.py:62-62 | the first occurrence of an id on the stack |
| SpanTracing.StackRemembers | kaos_agents/events/collector.py:50-63 | through all out-of-order truncations each entry began as a START on exactly the entries still below it, or is the seed |
| SpanTracing.SynthesisedParentIsEarlier | kaos_agents/events/emitter.py:133-138 | a synthesised parent is the seed or a span that started strictly earlier |
| SpanTracing.NeighboursAreParentAndChild | kaos_agents/events/collector.py:46-48 | with fresh ids, adjacent stack entries are parent and child |
| SpanTracing.ParentingIsAcyclic | kaos_agents/events/emitter.py:120-124 | with fresh ids, climbing synthesised parents goes strictly back in time and never returns to a span |
| SpanTracing.ReusedIdMakesCycle | kaos_agents/events/collector.py:55-56 | without freshness two spans can be each other's parent |
| SpanTracing.RunIsItsLog | kaos_agents/events/emitter.py:87-101 | after any run the collector's stack is that of its log, and events are numbered consecutively |
| SpanTracing.EventIsAsAsked | kaos_agents/events/emitter.py:105-171 | in every run the event logged last has the phase, id and time asked for, the caller's parent wherever one was given or the span does not start and else the last open span, and the caller's duration wherever one was measured or the span does not end |
| SpanTracing.ContextGoesBackToStart | kaos_agents/events/collector.py:50-63 | in every run a start opens a span, an end of an open span takes the context back to where it stood at a start of that span (or empties it, for the seed), however many were opened since, and nothing else touches it |
| SpanTracing.StartsAreSynthesised | kaos_agents/events/emitter.py:135-138 | a start emitted without a parent is a synthesised one in the log, so the forest rows are about what the emitter produces |
| SpanTracing.AgreementBrokenExactlyByCancel | kaos_agents/events/emitter.py:150-155 | stack and start times go on agreeing through an operation if and only if it does not cancel an open span |
| SpanTracing.RunsAgree | kaos_agents/events/collector.py:55-63 | without such cancellations every open span but the seed has a recorded start |
| SpanTracing.DisciplinedUseCoincides | kaos_agents/events/emitter.py:67-75 | when ends arrive last-in-first-out the two hold exactly the same spans |
| SpanTracing.UnstartedOnStack | kaos_agents/events/collector.py:55-63 | in every run, what stands on the stack without a start time is the seed or was cancelled last |
| SpanTracing.UnmatchedEndKeepsContextExactly | kaos_agents/events/collector.py:57-63 | in every run, an end with no open start leaves the parent context as it was if and only if it is a cancellation or its span is not on the stack; on the stack it is the seed or was cancelled last |
| SpanTracing.EndOfCancelledDropsContext | kaos_agents/events/collector.py:57-63 | completing a cancelled span drops it from the context |
| SpanTracing.EndOfSeedDropsAll | kaos_agents/events/collector.py:105-107 | completing the seed drops every span opened under it |
| SpanTracing.StartTimesAreHistory | kaos_agents/events/emitter.py:150-153 | a recorded start time is that of the latest start no end has consumed |
| SpanTracing.DurationIsMeasured | kaos_agents/events/emitter.py:152-155 | an auto-filled duration is the time since that start, and is not negative |
| SpanTracing.StartIsUsedOnce | kaos_agents/events/emitter.py:153-153 | between two ends that both find a start there is another start |
| SpanTracing.CancelledSpanStaysParent | kaos_agents/events/collector.py:57-59 | a cancelled span becomes the parent of the next one |
| SpanTracing.EventCollector.constructor | kaos_agents/events/collector.py:83-107 | an empty collector, its stack seeded when a parent was given |
| SpanTracing.EventCollector.Append | kaos_agents/events/collector.py:50-63 | records the event and updates the stack |
| SpanTracing.EventCollector.CurrentParentSpanId | kaos_agents/events/collector.py:65-67 | the top of the stack, if any |
| SpanTracing.EventEmitter.Push | kaos_agents/events/collector.py:124-133 | the event goes to the active collector, and nowhere when there is none |
| SpanTracing.EventEmitter.Emit | kaos_agents/events/emitter.py:77-101 | a numbered event, pushed |
| SpanTracing.EventEmitter.EmitSpan | kaos_agents/events/emitter.py:105-171 | the event built from the stack and the start times as they were before the call, and both as they are after it |
| CorpusCache.CacheNeverLies | kaos_agents/cli/chat.py:507-586 | in every interleaving of any number of loaders a complete blob is the true chunk list of its key, and a finished load answers as an uncached one, given that the key determines the chunks and that several writers' mixed bytes do not parse to another list |
| CorpusCache.LoneStorersNeverLie | kaos_agents/cli/chat.py:507-586 | with one storer per key the same holds with nothing supposed of mixed bytes |
| CorpusCache.BlobsAreExactExactly | kaos_agents/cli/chat.py:538-559 | with nothing supposed of mixed bytes, every complete blob is right in every run if and only if the key determines the chunks and no two loads store under one key |
| CorpusCache.MixedWritesPoison | kaos_agents/cli/chat.py:556-559 | two storers of one key can publish a wrong list |
| CorpusCache.TransparentExactly | kaos_agents/cli/chat.py:472-488 | over any cache left right or torn, caching is transparent in every run (without such mixtures) if and only if the key determines the chunks |
| CorpusCache.SharedKeyServesWrongChunks | kaos_agents/cli/chat.py:641-644 | of two files with one key and different chunks, the second is served the first one's |
| CorpusCache.NeverTornExactly | kaos_agents/cli/chat.py:538-559 | over any directory of whole blobs, stray temporary files included, no blob is ever half-written in any run if and only if no two loads store under one key |
| CorpusCache.SharedTmpTearsBlob | kaos_agents/cli/chat.py:556-559 | the schedule in which two storers of one key publish a torn blob |
| CorpusIndex.RunsKeepLock | kaos_agents/cli/chat.py:563-586 | only the lock's holder is inside the index update, and what it read is still the index |
| CorpusIndex.IndexUpdateExactly | kaos_agents/cli/chat.py:564-581 | an index update keeps every other entry if and only if its read succeeded or there was none |
| CorpusIndex.IndexKeepsEntries | kaos_agents/cli/chat.py:563-586 | over any run whose index reads succeed no key leaves the index, every entry is as it was or a storer's own with its true chunk count, and a key nobody stores under keeps its entry |
| CorpusIndex.WrittenKeyStays | kaos_agents/cli/chat.py:575-586 | once a task has written the index its key is in every later one |
| CorpusIndex.IndexNamesBlobs | kaos_agents/cli/chat.py:556-586 | in every run, whatever fails, blobs stay and the index lists no key without its blob |
| CorpusIndex.EveryRunCanFinish | kaos_agents/cli/chat.py:563-586 | from wherever a run is, some schedule brings every task to its end without giving up a store; nobody waits for the lock for ever |
| CorpusLoading.CorpusFollowsInputOrder | kaos_agents/cli/chat.py:807-821 | documents and URIs are paired, and each file's stand between those of the earlier and of the later files |
| CorpusLoading.CorpusIsLaidOut | kaos_agents/cli/chat.py:807-821 | where everything is: after the documents of the earlier files, each chunk of a file in order, under the file's name and the chunk's own index or else its place; unchunked, the first document under the file's name alone; nothing for a failed or empty file |
| CorpusLoading.FailureIsLocal | kaos_agents/cli/chat.py:779-784 | a failed file removes exactly its own chunks |
| CorpusLoading.ScheduleIndependence | kaos_agents/cli/chat.py:713-715 | whatever the interleaving and whatever was cached, a completed load yields the corpus of the uncached serial loop over the same files at the same chunk size (given that the key determines the chunks and that mixed bytes do not parse to another list, or that no two files store under one key) |
| CorpusLoading.ContentAddressedSuffices | kaos_agents/cli/chat.py:717-721 | chunks that depend only on content and chunk size meet the key hypothesis |
| CorpusLoading.CopiedFileIsServedTheOriginal | kaos_agents/cli/chat.py:475-478 | with a parser that records the path, a copy is served chunks naming the original |
| CorpusReuse.KeysTellSizes | kaos_agents/cli/chat.py:480-488 | the keys of two loads determine their chunks together, at different chunk sizes with nothing asked of how the two compare |
| CorpusReuse.CacheStaysReady | kaos_agents/cli/chat.py:507-586 | wherever a load stops, the directory it leaves is ready for any other load whose keys determine its chunks together with the first one's |
| CorpusReuse.LoadsDoNotMix | kaos_agents/cli/chat.py:480-488 | two loads over one cache, of any files, at one chunk size or two, the first stopped anywhere: each that completes yields its own uncached corpus |
| CorpusReuse.OtherSizeIsMiss | kaos_agents/cli/chat.py:480-481 | after loads at other chunk sizes every lookup is a miss |
| CorpusReuse.RunsPublish | kaos_agents/cli/chat.py:556-559 | with one storer per key and no store given up, whoever is past the replacement has its blob in place, and no blob is torn |
| CorpusReuse.LoadedIsHit | kaos_agents/cli/chat.py:475-478 | after a completed load in which no store was given up, a file of the same content at the same chunk size, wherever it lies, is served the chunks that were loaded without being parsed (for one storer per key) |
| CorpusLoading.LoadFiles | kaos_agents/cli/chat.py:730-837 | whatever the worker count and the order of completion, the result is the assembly of all outcomes in input order |
| CorpusLoading.AddFile | kaos_agents/cli/chat.py:810-821 | one file's turn appends its contribution and nothing else |
| CorpusLoading.Collect | kaos_agents/cli/chat.py:807-821 | the collecting loops compute the assembly |
| BudgetTrim.RestIsShortestDrop | kaos_agents/context/assemble.py:331-335 | popping while something is owed drops the shortest prefix that frees enough |
| BudgetTrim.TrimOrderCovers | kaos_agents/context/assemble.py:319-324 | the trim order names exactly the sections there are |
| BudgetTrim.VisitedIsSettled | kaos_agents/context/assemble.py:326-335 | a visited section is empty or nothing is owed any more |
| BudgetTrim.DuplicatesAreIdle | kaos_agents/context/assemble.py:320-322 | naming a section twice in the priority order changes nothing |
| BudgetTrim.TrimDropsShortestPrefix | kaos_agents/context/assemble.py:311-335 | the nested loops leave what remains of the concatenation in trim order after dropping its shortest prefix of total at least the excess |
| BudgetTrim.TrimmedAllDropsShortestPrefix | kaos_agents/context/assemble.py:311-335 | so does the whole helper, for its own trim order of all sections, each taken once |
| BudgetTrim.TrimOrderDistinct | kaos_agents/context/assemble.py:319-324 | a priority order without duplicates gives a trim order without duplicates |
| BudgetTrim.PriorityIsRespected | kaos_agents/context/assemble.py:311-335 | a section loses an item only if every section that is to go before it has been emptied: those of lower priority, those without a priority before those with one, and among those without, or when no priority is given, those put in earlier |
| BudgetTrim.HighPriorityGoesLast | kaos_agents/context/assemble.py:318-335 | for a priority order without duplicates: only if every section later in it, and every one not in it, has been emptied |
| BudgetTrim.OneYields | kaos_agents/context/assemble.py:319-324 | of any two sections one is to go before the other |
| BudgetTrim.TurnsYield | kaos_agents/context/assemble.py:319-324 | the order the helper trims in is exactly that one |
| BudgetTrim.LeastIsTrimmed | kaos_agents/context/assemble.py:156-178 | of all sections in that order the fewest items are dropped from the front that bring the total within the budget; none when it was met |
| BudgetTrim.TrimIsBySuffix | kaos_agents/context/assemble.py:318-335 | each section keeps a suffix of itself and loses items only if every section before it has been emptied |
| BudgetTrim.TrimMeetsBudget | kaos_agents/context/assemble.py:318-335 | trimming meets the budget for any order of the sections, with or without repetitions |
| BudgetTrim.Context.constructor | kaos_agents/context/assemble.py:99-100 | two empty dictionaries |
| BudgetTrim.Context.Put | kaos_agents/context/assemble.py:118-120 | sets a section and its token sum, at the end of the insertion order when new |
| BudgetTrim.Context.TotalTokens | kaos_agents/context/assemble.py:156-156 | the sum of the section sums is the total of all items |
| BudgetTrim.Context.Pop | kaos_agents/context/assemble.py:332-334 | removes the first item and keeps the section's sum right |
| BudgetTrim.Context.TrimSection | kaos_agents/context/assemble.py:330-335 | the inner loop drops from one section what is owed, and says what is still owed |
| BudgetTrim.Context.TrimInOrder | kaos_agents/context/assemble.py:327-335 | the outer loop, with its early exit, is the fold over the whole order |
| BudgetTrim.Context.TrimExcess | kaos_agents/context/assemble.py:326-335 | the budget is met and every section's token count equals its remaining items |
| BudgetTrim.Context.TrimToBudget | kaos_agents/context/assemble.py:311-335 | the whole helper: order, resulting sections, budget |
| ContextAssembly.FirstsAreFirstOccurrences | kaos_agents/context/assemble.py:259-282 | names are kept once each, in order of first occurrence |
| ContextAssembly.HandleListsFirstNames | kaos_agents/context/assemble.py:244-308 | at most twelve distinct names, the first ones; the "more" count is the number of further names if and only if every document has a name of its own |
| ContextAssembly.AnchorIsFirstKnown | kaos_agents/context/assemble.py:263-274 | a document goes by its file name, failing that its URI, source URI, name or source in that order, and failing those by the first line of its content |
| ContextAssembly.TrimmedMeetsBudget | kaos_agents/context/assemble.py:156-178 | what is left before the handle is within the budget |
| ContextAssembly.TrimmedKeepsSuffixes | kaos_agents/context/assemble.py:178-178 | it has the same sections, each a suffix of what was gathered |
| ContextAssembly.TrimmedIsLeast | kaos_agents/context/assemble.py:156-178 | it is what is left once the fewest items have gone, in the order sections are to go |
| ContextAssembly.HandleExactly | kaos_agents/context/assemble.py:191-196 | a single handle takes the place of the documents if and only if the budget was exceeded, pinning was asked for or left open after a corpus was ever attached, and there were documents of which none is left; nothing else changes |
| ContextAssembly.AssembledMeetsBudget | kaos_agents/context/assemble.py:42-203 | end to end: all but the handle is within the budget; when pinning holds and the trim emptied a section of documents that section is one handle; every other section is a suffix of what was gathered |
| ContextAssembly.GatheredComesFromMemory | kaos_agents/context/assemble.py:103-129 | below the threshold a section is whole, above it the items the search hit, in the memory's order |
| ContextAssembly.GatheredExactly | kaos_agents/context/assemble.py:103-154 | in full: the one search is asked for the large sections in order; small sections go in first, then the large ones with exactly the items hit in their own order, and last the graph section, if it is enabled, findings are there and their expansion finds something |
| ContextAssembly.BuildHandle | kaos_agents/context/assemble.py:244-308 | the loop that stops at twelve names computes the handle of all of them |
| ContextAssembly.Gather | kaos_agents/context/assemble.py:103-154 | the gathering phase, in place |
| ContextAssembly.Retrieve | kaos_agents/context/assemble.py:206-226 | every large section is replaced by its hits |
| ContextAssembly.TrimPhase | kaos_agents/context/assemble.py:178-178 | the trim in place is the specified one |
| ContextAssembly.PinHandle | kaos_agents/context/assemble.py:191-196 | the handle is put in exactly when it is needed |
| ContextAssembly.AssembleContext | kaos_agents/context/assemble.py:42-203 | the whole function computes the assembly the lemmas are about |
| ResultMerge.MergeIsBest | kaos_agents/context/retrieval.py:460-473 | the dictionary holds, for exactly the items hit, the highest-scoring hit, the first one among equals |
| ResultMerge.OrderIsFirstFound | kaos_agents/context/retrieval.py:460-473 | the dictionary's order is the order in which the items were first found |
| ResultMerge.ScoresIgnoreOrder | kaos_agents/context/retrieval.py:460-473 | the score per item does not depend on the order of rounds or hits |
| ResultMerge.SortDescSorts | kaos_agents/context/retrieval.py:482-482 | the ranking is a descending permutation that keeps equals in order |
| ResultMerge.EqualsKeepOrder | kaos_agents/context/retrieval.py:482-482 | elements of one score come out in the order they went in |
| ResultMerge.RoundsAddUp | kaos_agents/context/retrieval.py:484-489 | the rounds' new hits sum to the distinct items and their hits to all hits |
| ResultMerge.RoundsAreRecorded | kaos_agents/context/retrieval.py:207-217 | every round is on record with the number, query and strategy it was asked with, its hits, and how many items no earlier round had found |
| ResultMerge.PipelineInFull | kaos_agents/context/retrieval.py:203-378 | the rounds one by one: the query, the hybrid's hits, the pseudo-document, the lexicon's expansions, the feedback query if new, waves of alternatives numbered from 3 up to the limit until there are none, and with a model at most two waves after the gaps; which of them a limit leaves out; and what each search is asked |
| ResultMerge.ScoringExactly | kaos_agents/context/retrieval.py:755-772 | fewer than five results are not scored; else the encoder is asked once, about the first two thousand characters of each |
| ResultMerge.RankedIsMerged | kaos_agents/context/retrieval.py:476-490 | the ranked list has one first-best hit per item, in descending order and among equal scores in the order the items were found, as many as there are items |
| ResultMerge.ZipTruncates | kaos_agents/context/retrieval.py:774-774 | pairing hits with scores keeps the first hits, as many as there are scores |
| ResultMerge.RerankKeepsExactly | kaos_agents/context/retrieval.py:755-787 | reranking reorders the first hits, as many as have a score, one per item still, and drops none if and only if there are at least as many scores as hits |
| ResultMerge.RerankSorts | kaos_agents/context/retrieval.py:775-777 | the reranked list goes by descending encoder score, equal ones as before |
| ResultMerge.MissingScoresDropAll | kaos_agents/context/retrieval.py:772-777 | an encoder that answers with no scores empties the list |
| ResultMerge.Retrieval.constructor | kaos_agents/context/retrieval.py:203-204 | nothing seen, no rounds |
| ResultMerge.Retrieval.MergeResults | kaos_agents/context/retrieval.py:460-473 | the merge in place, and the number of items new to it |
| ResultMerge.Retrieval.AddRound | kaos_agents/context/retrieval.py:207-217 | one round is merged and its numbers recorded |
| ResultMerge.Retrieval.Search | kaos_agents/context/retrieval.py:207-217 | one search, merged and recorded |
| ResultMerge.Retrieval.SearchAll | kaos_agents/context/retrieval.py:275-286 | one round per query |
| ResultMerge.Retrieval.SeenValues | kaos_agents/context/retrieval.py:299-299 | the merged hits in the order their items were first found |
| ResultMerge.Retrieval.BuildResult | kaos_agents/context/retrieval.py:476-490 | merged results, one per item, with exact totals |
| ResultMerge.Retrieval.AdaptiveRetrieve | kaos_agents/context/retrieval.py:167-392 | which rounds run; the merged list and the totals account for all of them; the results are the merged list or a reordering of its scored part, as many as unique_items if and only if no score was missing |
| ResultMerge.Retrieval.Expand | kaos_agents/context/retrieval.py:249-318 | the pseudo-document, lexicon and feedback rounds |
| ResultMerge.Retrieval.AskLlm | kaos_agents/context/retrieval.py:323-349 | rounds of alternative queries until there are none |
| ResultMerge.Retrieval.Reflect | kaos_agents/context/retrieval.py:351-378 | at most two passes over the gaps in coverage |
| AgentEnvelopes.ParseRole | kaos_agents/types/providers.py:32-40 | a text parses to the role whose value it is, and fails only when it is no role's value |
| AgentEnvelopes.ConfigSurvives | kaos_agents/config.py:365-382 | a provider configuration survives projection and rebuilding |
| AgentEnvelopes.PayloadSurvivesExactly | kaos_agents/config.py:365-382 | a stored provider survives rebuilding and projection if and only if it has a default, known roles and nothing else |
| AgentEnvelopes.RebuiltProvider | kaos_agents/config.py:365-382 | a stored provider is rebuilt with its default or else the common one, and with the models stored under its roles' names |
| AgentEnvelopes.EnvelopeHolds | kaos_agents/config.py:244-336 | an envelope has the agent's fields, no overrides and no recipe, its provider's projection, and in order the envelopes of exactly the delegated entries that are or hold agents and of the handoffs that are agents |
| AgentEnvelopes.RebuiltHolds | kaos_agents/config.py:384-410 | a rebuilt agent has the envelope's fields, no settings and no refusal policy, and in the place of each nested envelope the plain agent rebuilt from it |
| AgentEnvelopes.RoundTripIsNormal | kaos_agents/config.py:244-410 | on trees of any depth the round trip is the normal form, and fails if and only if some enveloped provider names an unknown role |
| AgentEnvelopes.NormalIsIdempotent | kaos_agents/config.py:342-355 | normalising twice is normalising once |
| AgentEnvelopes.NormalHasSameEnvelopeExactly | kaos_agents/config.py:244-336 | an agent and its normal form have the same envelope if and only if every enveloped provider is a configuration or projects to what one would |
| AgentEnvelopes.NormalIsOfEnvelope | kaos_agents/config.py:338-410 | the normal form can be read off the envelope, for every agent |
| AgentEnvelopes.EnvelopeSurvivesExactly | kaos_agents/config.py:338-410 | an envelope survives rebuilding and enveloping if and only if at every node overrides are empty, there is no recipe id and the provider is canonical |
| AgentEnvelopes.HashIdentifiesNormalForm | kaos_agents/core/envelope.py:80-92 | as far as the digest tells the envelopes in play apart: agents with one hash have one normal form; an agent shares its hash with its normal form if and only if its providers are portable in that sense; portable agents with one normal form share their hash |
| AgentEnvelopes.HashSurvivesExactly | kaos_agents/core/envelope.py:80-92 | a stored envelope keeps its hash through a rebuild if and only if it is canonical, as far as the digest tells it from the rebuilt one |
| AgentEnvelopes.BuildEnvelope | kaos_agents/config.py:244-336 | the method with its two loops computes the envelope the lemmas are about |
| AuditLogs.AppendAddsOneLine | kaos_agents/governance/logging.py:153-163 | an append parses back to what was read, its last line repaired, followed by the new line |
| AuditLogs.WriteBackKeepsLogExactly | kaos_agents/governance/logging.py:153-163 | writing back extends the log if and only if what was read still parses to what the log holds |
| AuditLogs.FailedReadKeepsLogExactly | kaos_agents/governance/logging.py:154-159 | a failed read keeps the log if and only if there was none |
| AuditLogs.LogParsesBackExactly | kaos_agents/governance/logging.py:112-163 | whatever reads and writes fail, a file parses back to its original lines followed by those whose write got through, if and only if no write followed a failed read of something |
| AuditLogs.LogParsesBack | kaos_agents/governance/logging.py:112-163 | when nothing fails, every file parses back to its original lines followed by exactly the logged events whose session resolves to it, in order |
| AuditLogs.LogHoldsItsEvents | kaos_agents/governance/logging.py:118-130 | those are the events of the listed kinds (all, without a list) whose session id, or `unscoped` when there is none or an empty one, resolves to the file |
| AuditLogs.LoggedOnlyAppends | kaos_agents/governance/logging.py:141-163 | an event extends one file that could be read, without rewriting it, terminates its last line, and touches no other |
| AuditLogs.DefaultPathIsNamed | kaos_agents/governance/logging.py:57-60 | a session's default file is `audit/session-<id>.jsonl`, slash by underscore, or `unscoped` in place of the id |
| AuditLogs.OwnFileExactly | kaos_agents/governance/logging.py:57-60 | a session shares its default file with no other if and only if its id has no slash or underscore and is neither empty nor "unscoped" |
| AuditLogs.AuditLogger.constructor | kaos_agents/governance/logging.py:89-100 | configuration and files as given |
| AuditLogs.AuditLogger.OnEvent | kaos_agents/governance/logging.py:112-139 | filtered events change nothing, others are appended to the file of their session; failures are swallowed |
| AuditLogs.AuditLogger.AppendLine | kaos_agents/governance/logging.py:141-163 | the read-modify-write in place |

## Left out

- The HTTP server, authentication, wire streaming, command line, REPL printing and MCP serving: plumbing around the cores.
- Language model calls, BM25 search, embeddings, the lexicon, the encoder's scores and citation lookups: oracles, or absent.
- The `confidence_threshold` of `adaptive_retrieve`: documented, but never read by the body, so nothing is claimed of it.
- `stopped_reason`, `top_k` and the sections searched in `adaptive_retrieve`: constants or arguments of the search oracle.
- Regular-expression text work (evidence gate, coreference, error patterns): claims about a library.
- `Actor.classify_plan`, `ApprovalWorkflow`, `infer_reversibility`, `EscalationPolicy`, settings accessors: finite tables that reading a branch settles.
- `TurnInvocation` cost mirroring and `StateSnapshot`: they rest on types that are not part of this model.
- Detection of uninformative results: `kaos_agents.planning.result_check` is not part of this model; its verdict is a boolean argument.
- Glob matching (`fnmatch`): a parameter of the limiter's configuration.
- Floating-point rounding: times, tokens, scores and durations are real numbers.
- Several clock readings within one operation: each operation reads the clock once.
- Threads inside the limiter, breaker, dispatcher, collector and logger: each call is one atomic step; only the corpus loader is modelled under interleaving.
- Subject, name, error and attributes of traced spans, session and run ids of events, and the context-variable scopes that pick the active collector: the collector is an argument.
- SHA-256 and canonical JSON: the envelope digest is any function, supposed to tell the envelopes in play apart; the corpus key's digest is an arbitrary function.
- JSON and UTF-8 encoding: log files are text, and a lone writer's unfinished blob does not parse.
- A blob or index that is valid JSON of the wrong shape or not UTF-8, and store errors other than `OSError`: the source lets these escape and the file fails.
- The order in which overlapping writers of one temporary file mix their bytes: what they leave reads as anything.
- The index's modification times and the replacement of its file: the index is written in one step under the lock, or not at all.
- Parsing and chunking of documents: an arbitrary function of file, chunk size and chunker availability.
- Progress printing, cache-hit tallies and error texts of the loader.
- The literal text of the corpus handle, its tags and its own token count, which is an argument.
- Access tracking and per-section budgets of the session memory: sections arrive as lists of items.
- Token counts are natural numbers and metadata values are strings.
- Settings, refusal policies and metadata values of agents are opaque strings; envelopes arrive parsed.
