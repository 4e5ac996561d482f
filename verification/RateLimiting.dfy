/** `RateLimiter`: one lazily created token bucket per matching pattern.

    Glob matching (`fnmatch`) is a parameter.  Runs are sequences of `allow` calls with the
    time each one reads from the clock. */
module RateLimiting {
  import opened Common
  import opened Hooks
  import opened TokenBuckets

  /** A configured `(capacity, refill_per_sec)` pair, and the rate it stands for. */
  datatype Quota = Quota(capacity: int, refill: real) {
    ghost function Standing(): Rate { Rate(capacity, Steady(refill)) }
  }

  datatype Rate = Rate(capacity: int, credit: real -> real)

  datatype Config = Config(rates: seq<(string, Rate)>, defaultRate: Option<Rate>,
                           matches: (string, string) -> bool)

  const DEFAULT_KEY := "__default__"

  /** The dictionary of rates has one entry per pattern. */
  predicate DistinctPatterns<T>(rates: seq<(string, T)>) {
    forall i, j :: 0 <= i < j < |rates| ==> rates[i].0 != rates[j].0
  }

  /** The rule that governs a tool: its bucket key, and the rate it should be held to. */
  datatype Rule = Unlimited | Limited(key: string, rate: Rate)

  function FirstMatch(cfg: Config, tool: string, from: nat): (i: nat)
    requires from <= |cfg.rates|
    ensures from <= i <= |cfg.rates|
    ensures i < |cfg.rates| ==> cfg.matches(tool, cfg.rates[i].0)
    ensures forall k :: from <= k < i ==> !cfg.matches(tool, cfg.rates[k].0)
    decreases |cfg.rates| - from
  {
    if from == |cfg.rates| || cfg.matches(tool, cfg.rates[from].0) then from
    else FirstMatch(cfg, tool, from + 1)
  }

  function RuleFor(cfg: Config, tool: string): Rule {
    var i := FirstMatch(cfg, tool, 0);
    if i < |cfg.rates| then Limited(cfg.rates[i].0, cfg.rates[i].1)
    else if cfg.defaultRate.None? then Unlimited
    else Limited(DEFAULT_KEY, cfg.defaultRate.value)
  }

  // ------------------------------------------------------------ what a tool is held to

  predicate FirstMatching<T>(rates: seq<(string, T)>, matches: (string, string) -> bool, tool: string, i: nat) {
    i < |rates| && matches(tool, rates[i].0) && forall k :: 0 <= k < i ==> !matches(tool, rates[k].0)
  }

  predicate NoneMatches<T>(rates: seq<(string, T)>, matches: (string, string) -> bool, tool: string) {
    forall k :: 0 <= k < |rates| ==> !matches(tool, rates[k].0)
  }

  /** The tool goes by the entry of the first pattern that matches it, pattern and all; when none
      does by the default, under a key of its own. */
  ghost predicate HeldTo<T>(rates: seq<(string, T)>, defaultRate: Option<T>, matches: (string, string) -> bool,
                            tool: string, key: string, held: T) {
    || (exists i: nat :: FirstMatching(rates, matches, tool, i) && rates[i] == (key, held))
    || (NoneMatches(rates, matches, tool) && defaultRate == Some(held) && key == "__default__")
  }

  /** The rule is what the tool is held to, and there is none exactly for tools no pattern matches
      in the absence of a default. */
  lemma RuleIsHeldTo(cfg: Config, tool: string)
    ensures forall key, rate :: RuleFor(cfg, tool) == Limited(key, rate)
              <==> HeldTo(cfg.rates, cfg.defaultRate, cfg.matches, tool, key, rate)
    ensures RuleFor(cfg, tool).Unlimited? <==> NoneMatches(cfg.rates, cfg.matches, tool) && cfg.defaultRate.None?
  {
    var f := FirstMatch(cfg, tool, 0);
    forall i: nat | FirstMatching(cfg.rates, cfg.matches, tool, i) ensures i == f { }
    assert f < |cfg.rates| ==> FirstMatching(cfg.rates, cfg.matches, tool, f);
  }

  // ------------------------------------------------------------------ specification

  type Buckets = map<string, Bucket>

  function BucketOf(rate: Rate, now: real): Bucket {
    Fresh(rate.capacity, rate.credit, now)
  }

  /** The bucket a rule's key leads to, made on the spot when there is none. */
  function Find(buckets: Buckets, key: string, rate: Rate, now: real): Bucket {
    if key in buckets then buckets[key] else BucketOf(rate, now)
  }

  function Permits(cfg: Config, buckets: Buckets, tool: string, now: real): bool {
    match RuleFor(cfg, tool)
    case Unlimited => true
    case Limited(key, rate) => Grants(Find(buckets, key, rate, now), now, 1)
  }

  function Next(cfg: Config, buckets: Buckets, tool: string, now: real): Buckets {
    match RuleFor(cfg, tool)
    case Unlimited => buckets
    case Limited(key, rate) => buckets[key := Consumed(Find(buckets, key, rate, now), now, 1)]
  }

  // --------------------------------------------------------------------------- runs

  datatype Call = Call(tool: string, at: real)

  predicate InOrder(calls: seq<Call>) {
    forall i, j :: 0 <= i <= j < |calls| ==> calls[i].at <= calls[j].at
  }

  /** The buckets after a run from an empty limiter. */
  function Run(cfg: Config, calls: seq<Call>): Buckets
    decreases |calls|
  {
    if calls == [] then map[]
    else var c := calls[|calls| - 1]; Next(cfg, Run(cfg, Butlast(calls)), c.tool, c.at)
  }

  /** The answer to the last call of a run. */
  predicate Allowed(cfg: Config, calls: seq<Call>)
    requires calls != []
  {
    var c := calls[|calls| - 1]; Permits(cfg, Run(cfg, Butlast(calls)), c.tool, c.at)
  }

  predicate Governs(cfg: Config, key: string, c: Call) {
    RuleFor(cfg, c.tool).Limited? && RuleFor(cfg, c.tool).key == key
  }

  /** The part of a run one bucket sees, as that bucket's own history. */
  function HistoryOf(cfg: Config, calls: seq<Call>, key: string): Option<History>
    decreases |calls|
  {
    if calls == [] then None
    else
      var c, before := calls[|calls| - 1], HistoryOf(cfg, Butlast(calls), key);
      if !Governs(cfg, key, c) then before
      else
        var rate := RuleFor(cfg, c.tool).rate;
        var h := if before.Some? then before.value
                 else History(rate.capacity, rate.credit, c.at, []);
        Some(h.Then(Use(c.at, 1, Allowed(cfg, calls))))
  }

  /** Buckets do not interfere: each one is what its own sub-history makes of it. */
  lemma {:induction false} BucketsAreIndependent(cfg: Config, calls: seq<Call>, key: string)
    requires InOrder(calls)
    ensures key in Run(cfg, calls) <==> HistoryOf(cfg, calls, key).Some?
    ensures key in Run(cfg, calls) ==>
              var h := HistoryOf(cfg, calls, key).value;
              && Replay(h) == Run(cfg, calls)[key] && Faithful(h) && Monotone(h)
              && calls != [] && h.Last() <= calls[|calls| - 1].at
    decreases |calls|
  {
    if calls != [] {
      BucketsAreIndependent(cfg, Butlast(calls), key);
      var c, before := calls[|calls| - 1], HistoryOf(cfg, Butlast(calls), key);
      if Governs(cfg, key, c) {
        var rate := RuleFor(cfg, c.tool).rate;
        var h := if before.Some? then before.value
                 else History(rate.capacity, rate.credit, c.at, []);
        ThenSteps(h, Use(c.at, 1, Allowed(cfg, calls)));
      }
    }
  }

  /** The limiter's answer is the sliding-window verdict on what that bucket has seen so far;
      a bucket's first call is judged on the capacity alone. */
  lemma {:induction false} LimiterRefinesSlidingWindow(cfg: Config, calls: seq<Call>)
    requires InOrder(calls) && calls != [] && RuleFor(cfg, calls[|calls| - 1].tool).Limited?
    ensures var c := calls[|calls| - 1]; var rule := RuleFor(cfg, c.tool);
            var h := HistoryOf(cfg, Butlast(calls), rule.key);
            Allowed(cfg, calls) <==> if h.Some? then SlidingWindowAdmits(h.value, c.at, 1)
                                     else rule.rate.capacity >= 1
  {
    var c := calls[|calls| - 1];
    var rule := RuleFor(cfg, c.tool);
    var h := HistoryOf(cfg, Butlast(calls), rule.key);
    BucketsAreIndependent(cfg, Butlast(calls), rule.key);
    if h.Some? { BucketRefinesSlidingWindow(h.value, c.at, 1); }
  }

  // ------------------------------------------------------------------ who owns a bucket

  /** Two rules filed under one key. */
  ghost predicate SharedKey(cfg: Config) {
    exists a, b :: SharesKey(cfg, a, b)
  }

  predicate SharesKey(cfg: Config, a: string, b: string) {
    && RuleFor(cfg, a).Limited? && RuleFor(cfg, b).Limited?
    && RuleFor(cfg, a).key == RuleFor(cfg, b).key
    && FirstMatch(cfg, a, 0) != FirstMatch(cfg, b, 0)
  }

  /** The calls behind the entries of a bucket's history, one by one. */
  function CallsUnder(cfg: Config, calls: seq<Call>, key: string): seq<Call>
    decreases |calls|
  {
    if calls == [] then []
    else
      var c := calls[|calls| - 1];
      CallsUnder(cfg, Butlast(calls), key) + (if Governs(cfg, key, c) then [c] else [])
  }

  lemma {:induction false} CallsMatchHistory(cfg: Config, calls: seq<Call>, key: string)
    ensures var under, h := CallsUnder(cfg, calls, key), HistoryOf(cfg, calls, key);
            && |under| == (if h.Some? then |h.value.log| else 0)
            && forall i :: 0 <= i < |under| ==>
                 under[i] in calls && Governs(cfg, key, under[i]) && h.value.log[i].at == under[i].at
    decreases |calls|
  {
    if calls != [] {
      CallsMatchHistory(cfg, Butlast(calls), key);
      assert forall c :: c in Butlast(calls) ==> c in calls;
    }
  }

  /** The bucket's whole history is the calls of a single rule. */
  predicate OwnedByOneRule(cfg: Config, calls: seq<Call>, key: string) {
    var under := CallsUnder(cfg, calls, key);
    forall i, j :: 0 <= i < j < |under| ==>
      FirstMatch(cfg, under[i].tool, 0) == FirstMatch(cfg, under[j].tool, 0)
  }

  lemma {:induction false} SharedKeyMixesRules(cfg: Config, a: string, b: string)
    requires SharesKey(cfg, a, b)
    ensures !OwnedByOneRule(cfg, [Call(a, 0.0), Call(b, 0.0)], RuleFor(cfg, a).key)
  {
    var calls, key := [Call(a, 0.0), Call(b, 0.0)], RuleFor(cfg, a).key;
    assert Butlast(calls) == [Call(a, 0.0)] && Butlast([Call(a, 0.0)]) == [];
    assert CallsUnder(cfg, [Call(a, 0.0)], key) == [Call(a, 0.0)];
    var under := CallsUnder(cfg, calls, key);
    assert under == calls && FirstMatch(cfg, under[0].tool, 0) != FirstMatch(cfg, under[1].tool, 0);
  }

  /** "Each unique pattern owns its own bucket" holds of every run exactly when no two rules
      are filed under one key. */
  lemma {:induction false} OwnBucketExactly(cfg: Config)
    ensures (forall calls: seq<Call>, key :: OwnedByOneRule(cfg, calls, key)) <==> !SharedKey(cfg)
  {
    if SharedKey(cfg) {
      var a, b :| SharesKey(cfg, a, b);
      SharedKeyMixesRules(cfg, a, b);
    } else {
      forall calls: seq<Call>, key ensures OwnedByOneRule(cfg, calls, key) {
        var under := CallsUnder(cfg, calls, key);
        CallsMatchHistory(cfg, calls, key);
        forall i, j | 0 <= i < j < |under|
          ensures FirstMatch(cfg, under[i].tool, 0) == FirstMatch(cfg, under[j].tool, 0)
        {
          assert !SharesKey(cfg, under[i].tool, under[j].tool);
        }
      }
    }
  }

  /** Two rules can share a key only through the default's: a pattern spelled like it. */
  lemma SharedKeyIsDefaults(cfg: Config, a: string, b: string)
    requires DistinctPatterns(cfg.rates) && SharesKey(cfg, a, b)
    ensures RuleFor(cfg, a).key == DEFAULT_KEY
    ensures FirstMatch(cfg, a, 0) == |cfg.rates| || FirstMatch(cfg, b, 0) == |cfg.rates|
  {
  }

  /** The calls of a run under the rule with first match `i`. */
  function OfRule(cfg: Config, calls: seq<Call>, i: nat): seq<Call>
    decreases |calls|
  {
    if calls == [] then []
    else
      var c := calls[|calls| - 1];
      OfRule(cfg, Butlast(calls), i) + (if FirstMatch(cfg, c.tool, 0) == i then [c] else [])
  }

  lemma {:induction false} OwnBucketIsOwnRun(cfg: Config, calls: seq<Call>, tool: string)
    requires !SharedKey(cfg) && RuleFor(cfg, tool).Limited?
    ensures var key, own := RuleFor(cfg, tool).key, OfRule(cfg, calls, FirstMatch(cfg, tool, 0));
            && (key in Run(cfg, calls) <==> key in Run(cfg, own))
            && (key in Run(cfg, calls) ==> Run(cfg, calls)[key] == Run(cfg, own)[key])
    decreases |calls|
  {
    if calls != [] {
      var c, i := calls[|calls| - 1], FirstMatch(cfg, tool, 0);
      OwnBucketIsOwnRun(cfg, Butlast(calls), tool);
      var own, before := OfRule(cfg, calls, i), OfRule(cfg, Butlast(calls), i);
      if FirstMatch(cfg, c.tool, 0) == i {
        assert Butlast(own) == before;
      } else {
        assert own == before && !SharesKey(cfg, tool, c.tool);
      }
    }
  }

  /** Then rules do not interfere: a call is decided by the calls of its own rule alone. */
  lemma {:induction false} RulesDoNotInterfere(cfg: Config, calls: seq<Call>)
    requires !SharedKey(cfg) && calls != []
    ensures var own := OfRule(cfg, calls, FirstMatch(cfg, calls[|calls| - 1].tool, 0));
            own != [] && Allowed(cfg, own) == Allowed(cfg, calls)
  {
    var c := calls[|calls| - 1];
    var i := FirstMatch(cfg, c.tool, 0);
    assert Butlast(OfRule(cfg, calls, i)) == OfRule(cfg, Butlast(calls), i);
    if RuleFor(cfg, c.tool).Limited? { OwnBucketIsOwnRun(cfg, Butlast(calls), c.tool); }
  }

  /** With a shared key one rule starves another, even at equal rates: the pattern's only token
      goes to a tool that no pattern matches. */
  lemma SharedBucketStarves()
    ensures var cfg := Config([(DEFAULT_KEY, Quota(1, 0.0).Standing())], Some(Quota(1, 0.0).Standing()),
                              (tool, pattern) => tool == pattern);
            && SharesKey(cfg, DEFAULT_KEY, "x")
            && Allowed(cfg, [Call(DEFAULT_KEY, 0.0)])
            && !Allowed(cfg, [Call("x", 0.0), Call(DEFAULT_KEY, 0.0)])
  {
    var rate := Quota(1, 0.0).Standing();
    var cfg := Config([(DEFAULT_KEY, rate)], Some(rate), (tool, pattern) => tool == pattern);
    var calls := [Call("x", 0.0), Call(DEFAULT_KEY, 0.0)];
    assert Butlast(calls) == [Call("x", 0.0)] && Butlast([Call("x", 0.0)]) == [];
    assert Butlast([Call(DEFAULT_KEY, 0.0)]) == [];
    assert "x" != DEFAULT_KEY && FirstMatch(cfg, "x", 0) == 1 && FirstMatch(cfg, DEFAULT_KEY, 0) == 0;
    assert Run(cfg, [Call("x", 0.0)]) == Next(cfg, Run(cfg, []), "x", 0.0);
  }

  // ----------------------------------------------------- which rate a call is held to

  /** The capacity and credit of the bucket that answers the last call of a run. */
  ghost predicate HeldToItsOwnRate(cfg: Config, calls: seq<Call>)
    requires calls != []
  {
    var c := calls[|calls| - 1];
    match RuleFor(cfg, c.tool)
    case Unlimited => true
    case Limited(key, rate) =>
      var b := Find(Run(cfg, Butlast(calls)), key, rate, c.at);
      b.capacity == rate.capacity && b.credit == rate.credit
  }

  /** A pattern spelled like the default's key, with another rate, and tools that reach both. */
  ghost predicate DefaultKeyClash(cfg: Config) {
    exists a, b ::
      && RuleFor(cfg, a).Limited? && RuleFor(cfg, b).Limited?
      && FirstMatch(cfg, a, 0) < |cfg.rates| && RuleFor(cfg, a).key == DEFAULT_KEY
      && FirstMatch(cfg, b, 0) == |cfg.rates|
      && RuleFor(cfg, a).rate != RuleFor(cfg, b).rate
  }

  lemma SameKeySameRate(cfg: Config, a: string, b: string)
    requires DistinctPatterns(cfg.rates) && !DefaultKeyClash(cfg)
    requires RuleFor(cfg, a).Limited? && RuleFor(cfg, b).Limited?
    requires RuleFor(cfg, a).key == RuleFor(cfg, b).key
    ensures RuleFor(cfg, a).rate == RuleFor(cfg, b).rate
  {
    var i, j := FirstMatch(cfg, a, 0), FirstMatch(cfg, b, 0);
    assert i < |cfg.rates| && j < |cfg.rates| ==> i == j;
  }

  /** Every bucket of a run was made with the rate of some call in it. */
  lemma {:induction false} BucketRateComesFromACall(cfg: Config, calls: seq<Call>, key: string)
    returns (c: Call)
    requires key in Run(cfg, calls)
    ensures c in calls && Governs(cfg, key, c)
    ensures Run(cfg, calls)[key].capacity == RuleFor(cfg, c.tool).rate.capacity
    ensures Run(cfg, calls)[key].credit == RuleFor(cfg, c.tool).rate.credit
    decreases |calls|
  {
    if key in Run(cfg, Butlast(calls)) {
      c := BucketRateComesFromACall(cfg, Butlast(calls), key);
    } else {
      c := calls[|calls| - 1];
    }
  }

  /** A clash is a shared key at different rates. */
  lemma ClashIsSharedKey(cfg: Config)
    requires DefaultKeyClash(cfg)
    ensures SharedKey(cfg)
  {
    var a, b :|
      && RuleFor(cfg, a).Limited? && RuleFor(cfg, b).Limited?
      && FirstMatch(cfg, a, 0) < |cfg.rates| && RuleFor(cfg, a).key == DEFAULT_KEY
      && FirstMatch(cfg, b, 0) == |cfg.rates|
      && RuleFor(cfg, a).rate != RuleFor(cfg, b).rate;
    assert SharesKey(cfg, a, b);
  }

  /** Calls are held to their own rule's rate in every run exactly when no shared key stands
      for two different rates. */
  lemma OwnRateExactly(cfg: Config)
    requires DistinctPatterns(cfg.rates)
    ensures (forall calls: seq<Call> :: calls != [] ==> HeldToItsOwnRate(cfg, calls))
            <==> !DefaultKeyClash(cfg)
  {
    if !DefaultKeyClash(cfg) {
      forall calls: seq<Call> | calls != [] ensures HeldToItsOwnRate(cfg, calls) {
        OwnRate(cfg, calls);
      }
    } else {
      var a, b :|
        && RuleFor(cfg, a).Limited? && RuleFor(cfg, b).Limited?
        && FirstMatch(cfg, a, 0) < |cfg.rates| && RuleFor(cfg, a).key == DEFAULT_KEY
        && FirstMatch(cfg, b, 0) == |cfg.rates|
        && RuleFor(cfg, a).rate != RuleFor(cfg, b).rate;
      var calls := [Call(a, 0.0), Call(b, 0.0)];
      assert Butlast(calls) == [Call(a, 0.0)] && Butlast([Call(a, 0.0)]) == [];
      assert Run(cfg, Butlast(calls)) == Next(cfg, Run(cfg, []), a, 0.0);
      var used := Find(Run(cfg, Butlast(calls)), DEFAULT_KEY, RuleFor(cfg, b).rate, 0.0);
      assert used.capacity == RuleFor(cfg, a).rate.capacity;
      assert used.credit == RuleFor(cfg, a).rate.credit;
      assert !HeldToItsOwnRate(cfg, calls);
    }
  }

  lemma OwnRate(cfg: Config, calls: seq<Call>)
    requires DistinctPatterns(cfg.rates) && !DefaultKeyClash(cfg) && calls != []
    ensures HeldToItsOwnRate(cfg, calls)
  {
    var c := calls[|calls| - 1];
    var rule := RuleFor(cfg, c.tool);
    if rule.Limited? && rule.key in Run(cfg, Butlast(calls)) {
      var d := BucketRateComesFromACall(cfg, Butlast(calls), rule.key);
      SameKeySameRate(cfg, c.tool, d.tool);
    }
  }

  // ---------------------------------------------------------------------- rate bound

  /** How many calls under `key` were let through at times in `[s, t]`. */
  function Admitted(cfg: Config, calls: seq<Call>, key: string, s: real, t: real): nat
    decreases |calls|
  {
    if calls == [] then 0
    else
      var c := calls[|calls| - 1];
      Admitted(cfg, Butlast(calls), key, s, t)
      + (if Governs(cfg, key, c) && Allowed(cfg, calls) && s <= c.at <= t then 1 else 0)
  }

  lemma {:induction false} AdmittedIsVolume(cfg: Config, calls: seq<Call>, key: string, s: real, t: real)
    ensures var h := HistoryOf(cfg, calls, key);
            Admitted(cfg, calls, key, s, t) == if h.None? then 0 else Volume(h.value.log, s, t)
    decreases |calls|
  {
    if calls != [] {
      AdmittedIsVolume(cfg, Butlast(calls), key, s, t);
      var h := HistoryOf(cfg, calls, key);
      if Governs(cfg, key, calls[|calls| - 1]) {
        var before := HistoryOf(cfg, Butlast(calls), key);
        var log := if before.None? then [] else before.value.log;
        assert h.value.log[..|h.value.log| - 1] == log;
      }
    }
  }

  lemma {:induction false} HistoryRate(cfg: Config, calls: seq<Call>, key: string)
    requires DistinctPatterns(cfg.rates) && !DefaultKeyClash(cfg)
    requires HistoryOf(cfg, calls, key).Some?
    ensures exists c :: c in calls && Governs(cfg, key, c)
    ensures forall c :: c in calls && Governs(cfg, key, c) ==>
              var h, rate := HistoryOf(cfg, calls, key).value, RuleFor(cfg, c.tool).rate;
              h.capacity == rate.capacity && h.credit == rate.credit
    decreases |calls|
  {
    var last, before := calls[|calls| - 1], HistoryOf(cfg, Butlast(calls), key);
    assert forall c :: c in calls <==> c in Butlast(calls) || c == last;
    if before.Some? {
      HistoryRate(cfg, Butlast(calls), key);
      var d :| d in Butlast(calls) && Governs(cfg, key, d);
      if Governs(cfg, key, last) { SameKeySameRate(cfg, d.tool, last.tool); }
    } else {
      forall c | c in calls && Governs(cfg, key, c)
        ensures RuleFor(cfg, c.tool).rate == RuleFor(cfg, last.tool).rate
      {
        SameKeySameRate(cfg, c.tool, last.tool);
      }
    }
  }

  /** For any mix of tools under one rule and any interval, the calls let through number none
      or at most the capacity plus what accrues in the interval. */
  lemma SharedPatternBound(cfg: Config, calls: seq<Call>, tool: string, s: real, t: real)
    requires DistinctPatterns(cfg.rates) && !DefaultKeyClash(cfg) && InOrder(calls) && s <= t
    requires RuleFor(cfg, tool).Limited? && NonDecreasing(RuleFor(cfg, tool).rate.credit)
    ensures var rule := RuleFor(cfg, tool); var n := Admitted(cfg, calls, rule.key, s, t);
            n == 0 || n as real <= rule.rate.capacity as real + rule.rate.credit(t) - rule.rate.credit(s)
  {
    var rule := RuleFor(cfg, tool);
    AdmittedIsVolume(cfg, calls, rule.key, s, t);
    BucketsAreIndependent(cfg, calls, rule.key);
    var h := HistoryOf(cfg, calls, rule.key);
    if h.Some? {
      HistoryRate(cfg, calls, rule.key);
      var c :| c in calls && Governs(cfg, rule.key, c);
      SameKeySameRate(cfg, c.tool, tool);
      VolumeBound(h.value, s, t);
    }
  }

  // ----------------------------------------------------------------------- the quotas

  ghost function ConfigOf(rates: seq<(string, Quota)>, defaultRate: Option<Quota>,
                    matches: (string, string) -> bool): Config {
    Config(seq(|rates|, i requires 0 <= i < |rates| => (rates[i].0, rates[i].1.Standing())),
           if defaultRate.None? then None else Some(defaultRate.value.Standing()), matches)
  }

  /** A quota stands for its own capacity and its own refill per second. */
  lemma StandingIsQuota(quota: Quota)
    ensures quota.Standing().capacity == quota.capacity && IsSteady(quota.Standing().credit, quota.refill)
  {
  }

  /** In a configured limiter a tool's rule is the quota it is held to. */
  lemma ConfiguredRule(rates: seq<(string, Quota)>, defaultRate: Option<Quota>,
                       matches: (string, string) -> bool, tool: string, key: string, quota: Quota)
    requires HeldTo(rates, defaultRate, matches, tool, key, quota)
    ensures RuleFor(ConfigOf(rates, defaultRate, matches), tool) == Limited(key, quota.Standing())
  {
    var cfg := ConfigOf(rates, defaultRate, matches);
    if i: nat :| FirstMatching(rates, matches, tool, i) && rates[i] == (key, quota) {
      assert FirstMatching(cfg.rates, cfg.matches, tool, i) && cfg.rates[i] == (key, quota.Standing());
    }
    assert HeldTo(cfg.rates, cfg.defaultRate, cfg.matches, tool, key, quota.Standing());
    RuleIsHeldTo(cfg, tool);
  }

  lemma ConfiguredDistinct(rates: seq<(string, Quota)>, defaultRate: Option<Quota>,
                           matches: (string, string) -> bool)
    requires DistinctPatterns(rates)
    ensures DistinctPatterns(ConfigOf(rates, defaultRate, matches).rates)
  {
  }

  /** What a bucket that was filed at `filed` with `left` tokens of a quota holds from then on. */
  ghost predicate RunsOn(b: Bucket, quota: Quota, left: real, filed: real) {
    && b.capacity == quota.capacity
    && forall t :: filed <= t ==> Level(b, t) == Min(quota.capacity as real, left + quota.refill * (t - filed))
  }

  /** The first call under a key is judged on the quota of the tool that makes it, and files a
      bucket that goes on at that quota's capacity and refill. */
  lemma FirstCallFilesOwnQuota(rates: seq<(string, Quota)>, defaultRate: Option<Quota>,
                               matches: (string, string) -> bool, tool: string, key: string, quota: Quota,
                               buckets: Buckets, now: real)
    requires HeldTo(rates, defaultRate, matches, tool, key, quota) && key !in buckets
    ensures var cfg := ConfigOf(rates, defaultRate, matches);
            && (Permits(cfg, buckets, tool, now) <==> quota.capacity >= 1)
            && var after := Next(cfg, buckets, tool, now);
               var left := if quota.capacity >= 1 then quota.capacity - 1 else quota.capacity;
               && after.Keys == buckets.Keys + {key} && (forall k :: k in buckets ==> after[k] == buckets[k])
               && RunsOn(after[key], quota, left as real, now)
  {
    var cfg := ConfigOf(rates, defaultRate, matches);
    ConfiguredRule(rates, defaultRate, matches, tool, key, quota);
    var b := Next(cfg, buckets, tool, now)[key];
    forall t | now <= t ensures Level(b, t) == Min(quota.capacity as real, b.tokens + quota.refill * (t - now)) {
      SteadyGap(quota.refill, now, t);
    }
  }

  /** Where nothing holds a tool it always goes through, and leaves nothing behind. */
  lemma UnlimitedToolsPass(rates: seq<(string, Quota)>, defaultRate: Option<Quota>,
                           matches: (string, string) -> bool, tool: string, buckets: Buckets, now: real)
    requires NoneMatches(rates, matches, tool) && defaultRate.None?
    ensures var cfg := ConfigOf(rates, defaultRate, matches);
            Permits(cfg, buckets, tool, now) && Next(cfg, buckets, tool, now) == buckets
  {
    var cfg := ConfigOf(rates, defaultRate, matches);
    assert NoneMatches(cfg.rates, cfg.matches, tool);
    RuleIsHeldTo(cfg, tool);
  }

  /** For any mix of tools held to one quota under one key, and any interval, the calls let
      through number none or at most `capacity + refill * (t - s)`. */
  lemma {:induction false} SharedPatternRateBound(rates: seq<(string, Quota)>, defaultRate: Option<Quota>,
                                                  matches: (string, string) -> bool, calls: seq<Call>,
                                                  tool: string, key: string, quota: Quota, s: real, t: real)
    requires HeldTo(rates, defaultRate, matches, tool, key, quota) && quota.refill >= 0.0
    requires DistinctPatterns(rates) && !DefaultKeyClash(ConfigOf(rates, defaultRate, matches))
    requires InOrder(calls) && s <= t
    ensures var n := Admitted(ConfigOf(rates, defaultRate, matches), calls, key, s, t);
            n == 0 || n as real <= quota.capacity as real + quota.refill * (t - s)
  {
    var cfg := ConfigOf(rates, defaultRate, matches);
    ConfiguredRule(rates, defaultRate, matches, tool, key, quota);
    ConfiguredDistinct(rates, defaultRate, matches);
    SteadyIsNonDecreasing(quota.refill);
    assert quota.Standing().credit(t) - quota.Standing().credit(s) == quota.refill * (t - s) by {
      SteadyGap(quota.refill, s, t);
    }
    SharedPatternBound(cfg, calls, tool, s, t);
  }

  // ----------------------------------------------------------------------- the class

  class RateLimiter {
    const rates: seq<(string, Quota)>
    const defaultRate: Option<Quota>
    const matches: (string, string) -> bool
    var buckets: map<string, TokenBucket>
    ghost var state: Buckets  // the buckets' values, by key
    ghost var Repr: set<object>

    ghost function Cfg(): (c: Config)
      ensures |c.rates| == |rates|
    {
      ConfigOf(rates, defaultRate, matches)
    }

    ghost predicate Valid()
      reads this, Repr
    {
      && DistinctPatterns(rates) && this in Repr
      && state.Keys == buckets.Keys
      && (forall k :: k in buckets ==>
            buckets[k] in Repr && buckets[k].Valid() && buckets[k].Snapshot() == state[k])
      && forall k, l :: k in buckets && l in buckets && k != l ==> buckets[k] != buckets[l]
    }

    constructor (rates: seq<(string, Quota)>, defaultRate: Option<Quota>,
                 matches: (string, string) -> bool)
      requires DistinctPatterns(rates)
      ensures Valid() && fresh(Repr) && state == map[] && Cfg() == ConfigOf(rates, defaultRate, matches)
    {
      this.rates, this.defaultRate, this.matches := rates, defaultRate, matches;
      buckets, state, Repr := map[], map[], {this};
    }

    /** `bucket = self._buckets.get(key)`, created full and stored when absent. */
    method GetOrCreate(key: string, quota: Quota, now: real) returns (bucket: TokenBucket)
      requires Valid()
      modifies this
      ensures Valid() && fresh(Repr - old(Repr)) && key in buckets && buckets[key] == bucket
      ensures state == old(state)[key := Find(old(state), key, quota.Standing(), now)]
    {
      if key in buckets {
        bucket := buckets[key];
      } else {
        bucket := new TokenBucket(quota.capacity, quota.refill, now);
        buckets, state := buckets[key := bucket], state[key := BucketOf(quota.Standing(), now)];
        Repr := Repr + {bucket};
      }
    }

    /** The bucket of the first matching pattern, else of the default; null when unlimited. */
    method BucketFor(tool: string, now: real) returns (bucket: TokenBucket?)
      requires Valid()
      modifies this
      ensures Valid() && fresh(Repr - old(Repr))
      ensures match RuleFor(Cfg(), tool)
              case Unlimited => bucket == null && state == old(state)
              case Limited(key, rate) =>
                && bucket != null && key in buckets && buckets[key] == bucket
                && state == old(state)[key := Find(old(state), key, rate, now)]
    {
      var i := 0;
      while i < |rates|
        invariant 0 <= i <= |rates|
        invariant FirstMatch(Cfg(), tool, 0) == FirstMatch(Cfg(), tool, i)
        invariant Valid() && Repr == old(Repr) && state == old(state)
      {
        if matches(tool, rates[i].0) {
          bucket := GetOrCreate(rates[i].0, rates[i].1, now);
          return;
        }
        i := i + 1;
      }
      if defaultRate.None? {
        return null;
      }
      bucket := GetOrCreate(DEFAULT_KEY, defaultRate.value, now);
    }

    /** One token from the bucket filed under `key`. */
    method ConsumeOne(ghost key: string, bucket: TokenBucket, now: real) returns (ok: bool)
      requires Valid() && key in buckets && buckets[key] == bucket
      modifies this`state, bucket
      ensures Valid() && ok == Grants(old(state)[key], now, 1)
      ensures state == old(state)[key := Consumed(old(state)[key], now, 1)]
    {
      ok := bucket.Consume(1, now);
      state := state[key := Consumed(state[key], now, 1)];
    }

    method Allow(tool: string, now: real) returns (ok: bool)
      requires Valid()
      modifies Repr
      ensures Valid() && fresh(Repr - old(Repr))
      ensures ok == Permits(Cfg(), old(state), tool, now)
      ensures state == Next(Cfg(), old(state), tool, now)
    {
      ghost var rule := RuleFor(Cfg(), tool);
      var bucket := BucketFor(tool, now);
      if bucket == null {
        return true;
      }
      ghost var b := state[rule.key];
      ok := ConsumeOne(rule.key, bucket, now);
      Overwrites(old(state), rule.key, b, Consumed(b, now, 1));
    }

    /** A span without a tool name cannot be gated and goes through. */
    method OnToolCallStart(toolName: string, now: real) returns (action: HookAction)
      requires Valid()
      modifies Repr
      ensures Valid() && fresh(Repr - old(Repr))
      ensures state == if toolName == "" then old(state)
                         else Next(Cfg(), old(state), toolName, now)
      ensures action == if toolName == "" || Permits(Cfg(), old(state), toolName, now)
                        then CONTINUE else SKIP
    {
      if toolName == "" {
        return CONTINUE;
      }
      var ok := Allow(toolName, now);
      action := if ok then CONTINUE else SKIP;
    }
  }
}
