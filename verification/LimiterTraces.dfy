/** What a rate limiter remembers that it need not: refused calls, and when its buckets were made.

    Two dictionaries of buckets are compared by what any later call would be told. */
module LimiterTraces {
  import opened Common
  import opened RateLimiting
  import opened TokenBuckets

  // --------------------------------------------------------------------- monotone rates

  /** Tokens only accrue, or only drain. */
  ghost predicate MonotoneCredit(credit: real -> real) { NonDecreasing(credit) || NonIncreasing(credit) }

  ghost predicate MonotoneRates(cfg: Config) {
    forall tool :: RuleFor(cfg, tool).Limited? ==> MonotoneCredit(RuleFor(cfg, tool).rate.credit)
  }

  ghost predicate SteadyCredit(credit: real -> real) { exists r :: credit == Steady(r) }

  ghost predicate SteadyRates(cfg: Config) {
    forall tool :: RuleFor(cfg, tool).Limited? ==> SteadyCredit(RuleFor(cfg, tool).rate.credit)
  }

  lemma SteadyIsMonotone(credit: real -> real)
    requires SteadyCredit(credit)
    ensures MonotoneCredit(credit)
  {
    var r :| credit == Steady(r);
    SteadyIsNonDecreasing(r);
    if r < 0.0 {
      forall s, t | s <= t ensures credit(s) >= credit(t) {
        SteadyGap(r, s, t);
        assert r * (t - s) <= 0.0;
      }
    }
  }

  /** Every configuration, with refill rates of any sign, has steady and so monotone rates. */
  lemma ConfiguredRatesAreSteady(rates: seq<(string, Quota)>, defaultRate: Option<Quota>,
                                 matches: (string, string) -> bool)
    ensures SteadyRates(ConfigOf(rates, defaultRate, matches))
    ensures MonotoneRates(ConfigOf(rates, defaultRate, matches))
  {
    var cfg := ConfigOf(rates, defaultRate, matches);
    forall tool | RuleFor(cfg, tool).Limited?
      ensures SteadyCredit(RuleFor(cfg, tool).rate.credit) && MonotoneCredit(RuleFor(cfg, tool).rate.credit)
    {
      var i := FirstMatch(cfg, tool, 0);
      var quota := if i < |rates| then rates[i].1 else defaultRate.value;
      assert RuleFor(cfg, tool).rate == quota.Standing();
      assert RuleFor(cfg, tool).rate.credit == Steady(quota.refill);
      SteadyIsMonotone(RuleFor(cfg, tool).rate.credit);
    }
  }

  // ------------------------------------------------------------------------ one bucket

  /** Of one make, and at one level from `now` on. */
  ghost predicate SameBucket(b: Bucket, c: Bucket, now: real) {
    && b.capacity == c.capacity && b.credit == c.credit
    && forall t :: now <= t ==> Level(b, t) == Level(c, t)
  }

  lemma SameBucketStep(b: Bucket, c: Bucket, now: real)
    requires SameBucket(b, c, now)
    ensures Grants(b, now, 1) == Grants(c, now, 1) && Consumed(b, now, 1) == Consumed(c, now, 1)
  {
    assert Level(b, now) == Level(c, now);
  }

  /** What a bucket's history has made sure of by `now`. */
  ghost predicate Settled(b: Bucket, now: real) {
    b.lastRefill <= now && b.tokens <= b.capacity as real && MonotoneCredit(b.credit)
  }

  lemma RefusalKeepsLevel(b: Bucket, now: real, t: real)
    requires Settled(b, now) && now <= t && !Grants(b, now, 1)
    ensures Level(Consumed(b, now, 1), t) == Level(b, t)
  {
  }

  /** A refusal changes nothing that `c` could be told apart by. */
  lemma RefusalKeepsSame(b: Bucket, c: Bucket, now: real)
    requires SameBucket(b, c, now) && Settled(b, now) && !Grants(b, now, 1)
    ensures SameBucket(Consumed(b, now, 1), c, now)
  {
    forall t | now <= t ensures Level(Consumed(b, now, 1), t) == Level(c, t) {
      RefusalKeepsLevel(b, now, t);
    }
  }

  // --------------------------------------------------------------------- refused calls

  /** A run with its refused calls struck out. */
  function Kept(cfg: Config, calls: seq<Call>): seq<Call>
    decreases |calls|
  {
    if calls == [] then []
    else Kept(cfg, Butlast(calls)) + (if Allowed(cfg, calls) then [calls[|calls| - 1]] else [])
  }

  /** Under one key, a rule that never admits anything and one that could. */
  predicate DeadKey(cfg: Config, a: string, b: string) {
    SharesKey(cfg, a, b) && RuleFor(cfg, a).rate.capacity < 1 <= RuleFor(cfg, b).rate.capacity
  }

  /** `m` after a run, `k` after what it let through: common buckets are the same, and a bucket
      only refused calls ever reached admits nothing under any rule filed there. */
  ghost predicate StruckAlike(cfg: Config, m: Buckets, k: Buckets, now: real) {
    && (forall key :: key in m ==> Settled(m[key], now))
    && (forall key :: key in k ==> key in m && SameBucket(m[key], k[key], now))
    && (forall key :: key in m && key !in k ==> m[key].capacity < 1)
    && forall tool :: DeadFor(cfg, m, k, tool)
  }

  predicate DeadFor(cfg: Config, m: Buckets, k: Buckets, tool: string) {
    match RuleFor(cfg, tool)
    case Unlimited => true
    case Limited(key, rate) => key in m && key !in k ==> rate.capacity < 1
  }

  lemma StruckAnswersAlike(cfg: Config, m: Buckets, k: Buckets, tool: string, now: real)
    requires StruckAlike(cfg, m, k, now)
    ensures Permits(cfg, m, tool, now) == Permits(cfg, k, tool, now)
  {
    var rule := RuleFor(cfg, tool);
    if rule.Limited? && rule.key in k {
      SameBucketStep(m[rule.key], k[rule.key], now);
    } else if rule.Limited? && rule.key in m {
      assert DeadFor(cfg, m, k, tool);
    }
  }

  lemma AdmittedStep(cfg: Config, m: Buckets, k: Buckets, tool: string, now: real)
    requires MonotoneRates(cfg) && StruckAlike(cfg, m, k, now) && Permits(cfg, m, tool, now)
    ensures StruckAlike(cfg, Next(cfg, m, tool, now), Next(cfg, k, tool, now), now)
  {
    var rule := RuleFor(cfg, tool);
    if rule.Limited? {
      var m2, k2 := Next(cfg, m, tool, now), Next(cfg, k, tool, now);
      if rule.key in k { SameBucketStep(m[rule.key], k[rule.key], now); }
      assert m2[rule.key] == k2[rule.key];
      forall other ensures DeadFor(cfg, m2, k2, other) { assert DeadFor(cfg, m, k, other); }
    }
  }

  lemma RefusedStep(cfg: Config, m: Buckets, k: Buckets, tool: string, now: real)
    requires MonotoneRates(cfg) && StruckAlike(cfg, m, k, now) && !Permits(cfg, m, tool, now)
    requires forall other :: !DeadKey(cfg, tool, other)
    ensures StruckAlike(cfg, Next(cfg, m, tool, now), k, now)
  {
    var m2, rule := Next(cfg, m, tool, now), RuleFor(cfg, tool);
    if rule.key in k { RefusalKeepsSame(m[rule.key], k[rule.key], now); }
    forall other ensures DeadFor(cfg, m2, k, other) {
      assert DeadFor(cfg, m, k, other) && !DeadKey(cfg, tool, other);
    }
  }

  lemma {:induction false} KeptIsAlike(cfg: Config, calls: seq<Call>, now: real)
    requires MonotoneRates(cfg) && forall a, b :: !DeadKey(cfg, a, b)
    requires InOrder(calls) && (calls != [] ==> calls[|calls| - 1].at <= now)
    ensures StruckAlike(cfg, Run(cfg, calls), Run(cfg, Kept(cfg, calls)), now)
    decreases |calls|
  {
    if calls != [] {
      var c, init := calls[|calls| - 1], Butlast(calls);
      KeptIsAlike(cfg, init, c.at);
      if Allowed(cfg, calls) {
        AdmittedStep(cfg, Run(cfg, init), Run(cfg, Kept(cfg, init)), c.tool, c.at);
        assert Butlast(Kept(cfg, calls)) == Kept(cfg, init);
      } else {
        RefusedStep(cfg, Run(cfg, init), Run(cfg, Kept(cfg, init)), c.tool, c.at);
        assert Kept(cfg, calls) == Kept(cfg, init);
      }
      assert StruckAlike(cfg, Run(cfg, calls), Run(cfg, Kept(cfg, calls)), c.at);
    }
  }

  /** Deleting the refused calls of a run does not change what `next` is told. */
  predicate Traceless(cfg: Config, calls: seq<Call>, next: Call) {
    Allowed(cfg, Kept(cfg, calls) + [next]) == Allowed(cfg, calls + [next])
  }

  lemma {:induction false} RefusedCallsLeaveNoTrace(cfg: Config, calls: seq<Call>, next: Call)
    requires MonotoneRates(cfg) && forall a, b :: !DeadKey(cfg, a, b)
    requires InOrder(calls + [next])
    ensures Traceless(cfg, calls, next)
  {
    var all, few := calls + [next], Kept(cfg, calls);
    assert InOrder(calls) && (calls != [] ==> calls[|calls| - 1].at <= next.at) by {
      assert forall i :: 0 <= i < |calls| ==> all[i] == calls[i];
      assert calls != [] ==> all[|calls| - 1].at <= all[|calls|].at;
    }
    assert Permits(cfg, Run(cfg, calls), next.tool, next.at) == Permits(cfg, Run(cfg, few), next.tool, next.at) by {
      KeptIsAlike(cfg, calls, next.at);
      StruckAnswersAlike(cfg, Run(cfg, calls), Run(cfg, few), next.tool, next.at);
    }
    assert Butlast(all) == calls && Butlast(few + [next]) == few;
  }

  lemma {:induction false} FirstCall(cfg: Config, c: Call)
    requires RuleFor(cfg, c.tool).Limited?
    ensures var rule := RuleFor(cfg, c.tool);
            && Allowed(cfg, [c]) == (rule.rate.capacity >= 1)
            && rule.key in Run(cfg, [c]) && Run(cfg, [c])[rule.key].capacity == rule.rate.capacity
  {
    assert Butlast([c]) == [];
  }

  /** A refused first call under a dead rule files a bucket that blocks the live one. */
  lemma {:induction false} DeadBucketBlocks(cfg: Config, a: string, b: string)
    requires DeadKey(cfg, a, b)
    ensures !Traceless(cfg, [Call(a, 0.0)], Call(b, 0.0)) && InOrder([Call(a, 0.0)] + [Call(b, 0.0)])
  {
    var c, d := Call(a, 0.0), Call(b, 0.0);
    FirstCall(cfg, c);
    FirstCall(cfg, d);
    assert Butlast([c]) == [] && Kept(cfg, [c]) == [];
    assert [] + [d] == [d] && [c] + [d] == [c, d];
    assert !Allowed(cfg, [c, d]) by { assert Butlast([c, d]) == [c]; }
  }

  /** Deleting the refused calls from a limiter's past changes no later decision of any run,
      exactly when no rule without capacity shares its key with one that has some. */
  lemma {:induction false} RefusedCallsLeaveNoTraceExactly(cfg: Config)
    requires MonotoneRates(cfg)
    ensures (forall calls: seq<Call>, next: Call :: InOrder(calls + [next]) ==> Traceless(cfg, calls, next))
            <==> forall a, b :: !DeadKey(cfg, a, b)
  {
    if a, b :| DeadKey(cfg, a, b) {
      DeadBucketBlocks(cfg, a, b);
    } else {
      forall calls: seq<Call>, next: Call | InOrder(calls + [next]) ensures Traceless(cfg, calls, next) {
        RefusedCallsLeaveNoTrace(cfg, calls, next);
      }
    }
  }

  /** Such a configuration: a default that admits nothing, and a pattern spelled like its key. */
  lemma DeadDefaultBlocksPattern()
    ensures var cfg := Config([(DEFAULT_KEY, Quota(1, 0.0).Standing())], Some(Quota(0, 0.0).Standing()),
                              (tool, pattern) => tool == pattern);
            DeadKey(cfg, "x", DEFAULT_KEY) && !Traceless(cfg, [Call("x", 0.0)], Call(DEFAULT_KEY, 0.0))
  {
    var cfg := Config([(DEFAULT_KEY, Quota(1, 0.0).Standing())], Some(Quota(0, 0.0).Standing()),
                      (tool, pattern) => tool == pattern);
    assert "x" != DEFAULT_KEY && FirstMatch(cfg, "x", 0) == 1 && FirstMatch(cfg, DEFAULT_KEY, 0) == 0;
    DeadBucketBlocks(cfg, "x", DEFAULT_KEY);
  }

  // -------------------------------------------------------------------- creation times

  /** The buckets after a run of a limiter that already had some. */
  function Resume(cfg: Config, buckets: Buckets, calls: seq<Call>): Buckets
    decreases |calls|
  {
    if calls == [] then buckets
    else var c := calls[|calls| - 1]; Next(cfg, Resume(cfg, buckets, Butlast(calls)), c.tool, c.at)
  }

  /** Some buckets, made (full) at `t0` ahead of any use, each as every rule filed there would. */
  ghost predicate MadeAt(cfg: Config, buckets: Buckets, t0: real) {
    forall tool :: RuleFor(cfg, tool).Limited? && RuleFor(cfg, tool).key in buckets ==>
      buckets[RuleFor(cfg, tool).key] == BucketOf(RuleFor(cfg, tool).rate, t0)
  }

  /** One that cannot be told apart by its age: it never drains, or never admits. */
  ghost predicate Ageless(rate: Rate) { NonDecreasing(rate.credit) || rate.capacity < 1 }

  ghost predicate AgelessKeys(cfg: Config, early: Buckets) {
    forall tool :: RuleFor(cfg, tool).Limited? && RuleFor(cfg, tool).key in early ==>
      Ageless(RuleFor(cfg, tool).rate)
  }

  /** The same bucket, or two that admit nothing. */
  ghost predicate OneBucket(b: Bucket, c: Bucket, now: real) {
    b.capacity == c.capacity && (b.capacity < 1 || SameBucket(b, c, now))
  }

  lemma OneBucketStep(b: Bucket, c: Bucket, now: real)
    requires OneBucket(b, c, now)
    ensures Grants(b, now, 1) == Grants(c, now, 1)
    ensures OneBucket(Consumed(b, now, 1), Consumed(c, now, 1), now)
  {
    if b.capacity >= 1 { SameBucketStep(b, c, now); }
  }

  lemma FreshIsOne(rate: Rate, t0: real, now: real)
    requires Ageless(rate) && t0 <= now
    ensures OneBucket(BucketOf(rate, now), BucketOf(rate, t0), now)
  {
    if NonDecreasing(rate.credit) {
      forall t | now <= t ensures Level(BucketOf(rate, now), t) == Level(BucketOf(rate, t0), t) {
        FreshIsFull(rate.capacity, rate.credit, now, t);
        FreshIsFull(rate.capacity, rate.credit, t0, t);
      }
    }
  }

  /** `m` lazily made, `k` begun from `early`. */
  ghost predicate EarlyAlike(early: Buckets, m: Buckets, k: Buckets, now: real) {
    && (forall key :: key in m ==> key in k && OneBucket(m[key], k[key], now))
    && forall key :: key in k && key !in m ==> key in early && k[key] == early[key]
  }

  lemma EarlyStep(cfg: Config, early: Buckets, t0: real, m: Buckets, k: Buckets, tool: string, now: real)
    requires MadeAt(cfg, early, t0) && AgelessKeys(cfg, early) && t0 <= now && EarlyAlike(early, m, k, now)
    ensures Permits(cfg, m, tool, now) == Permits(cfg, k, tool, now)
    ensures EarlyAlike(early, Next(cfg, m, tool, now), Next(cfg, k, tool, now), now)
  {
    var rule := RuleFor(cfg, tool);
    if rule.Limited? {
      var b, c := Find(m, rule.key, rule.rate, now), Find(k, rule.key, rule.rate, now);
      if rule.key in k && rule.key !in m { FreshIsOne(rule.rate, t0, now); }
      OneBucketStep(b, c, now);
    }
  }

  lemma {:induction false} ResumeIsAlike(cfg: Config, early: Buckets, t0: real, calls: seq<Call>, now: real)
    requires MadeAt(cfg, early, t0) && AgelessKeys(cfg, early)
    requires InOrder(calls) && t0 <= now && (calls != [] ==> t0 <= calls[0].at && calls[|calls| - 1].at <= now)
    ensures EarlyAlike(early, Run(cfg, calls), Resume(cfg, early, calls), now)
    decreases |calls|
  {
    if calls != [] {
      var c, init := calls[|calls| - 1], Butlast(calls);
      ResumeIsAlike(cfg, early, t0, init, c.at);
      EarlyStep(cfg, early, t0, Run(cfg, init), Resume(cfg, early, init), c.tool, c.at);
      assert EarlyAlike(early, Run(cfg, calls), Resume(cfg, early, calls), c.at);
    }
  }

  /** The last call of a run is told the same by a limiter that began with `early`. */
  predicate Unnoticed(cfg: Config, early: Buckets, calls: seq<Call>)
    requires calls != []
  {
    var c := calls[|calls| - 1];
    Permits(cfg, Resume(cfg, early, Butlast(calls)), c.tool, c.at) == Allowed(cfg, calls)
  }

  lemma {:induction false} CreationTimesLeaveNoTrace(cfg: Config, early: Buckets, t0: real, calls: seq<Call>)
    requires MadeAt(cfg, early, t0) && AgelessKeys(cfg, early)
    requires calls != [] && InOrder(calls) && t0 <= calls[0].at
    ensures Unnoticed(cfg, early, calls)
  {
    var c, init := calls[|calls| - 1], Butlast(calls);
    ResumeIsAlike(cfg, early, t0, init, c.at);
    EarlyStep(cfg, early, t0, Run(cfg, init), Resume(cfg, early, init), c.tool, c.at);
  }

  /** Left alone long enough, a draining bucket holds no token. */
  lemma Drained(capacity: int, rate: real, t0: real) returns (t: real)
    requires capacity >= 1 && rate < 0.0
    ensures t0 <= t && Level(Fresh(capacity, Steady(rate), t0), t) < 1.0
  {
    var d := capacity as real / -rate;
    t := t0 + d;
    assert rate * d == -(capacity as real);
    SteadyGap(rate, t0, t);
  }

  lemma {:induction false} DrainIsNoticed(cfg: Config, early: Buckets, t0: real, tool: string) returns (call: Call)
    requires MadeAt(cfg, early, t0) && SteadyRates(cfg)
    requires RuleFor(cfg, tool).Limited? && RuleFor(cfg, tool).key in early && !Ageless(RuleFor(cfg, tool).rate)
    ensures t0 <= call.at && !Unnoticed(cfg, early, [call])
  {
    var rule := RuleFor(cfg, tool);
    var r :| rule.rate.credit == Steady(r);
    SteadyIsNonDecreasing(r);
    var t := Drained(rule.rate.capacity, r, t0);
    call := Call(tool, t);
    assert Butlast([call]) == [];
    assert Level(BucketOf(rule.rate, t), t) == rule.rate.capacity as real;
  }

  /** Making some of the buckets at `t0`, rather than at first use, changes no decision of any
      later run, exactly when none of them drains while it could admit something. */
  lemma {:induction false} CreationTimesLeaveNoTraceExactly(cfg: Config, early: Buckets, t0: real)
    requires MadeAt(cfg, early, t0) && SteadyRates(cfg)
    ensures (forall calls: seq<Call> ::
               calls != [] && InOrder(calls) && t0 <= calls[0].at ==> Unnoticed(cfg, early, calls))
            <==> AgelessKeys(cfg, early)
  {
    if AgelessKeys(cfg, early) {
      forall calls: seq<Call> | calls != [] && InOrder(calls) && t0 <= calls[0].at
        ensures Unnoticed(cfg, early, calls)
      {
        CreationTimesLeaveNoTrace(cfg, early, t0, calls);
      }
    } else {
      var tool :| RuleFor(cfg, tool).Limited? && RuleFor(cfg, tool).key in early && !Ageless(RuleFor(cfg, tool).rate);
      var call := DrainIsNoticed(cfg, early, t0, tool);
      assert InOrder([call]) && [call][0] == call;
    }
  }
}
