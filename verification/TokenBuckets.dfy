/** The token bucket behind the rate limiter (`_TokenBucket`), and the sliding-window
    rule it implements incrementally.

    Time is a `real` read from a clock and passed to each operation.  What has accrued
    by time `t` is a function `credit`; a steady refill of `rate` tokens a second is
    `Steady(rate)`, and everything that does not depend on steadiness is proved for any
    `credit`. */
module TokenBuckets {

  // ---------------------------------------------------------------- the machine

  function Accrual(rate: real, t: real): real { rate * t }

  ghost predicate IsSteady(credit: real -> real, rate: real) {
    forall t {:trigger Accrual(rate, t)} :: credit(t) == Accrual(rate, t)
  }

  /** A refill of `rate` tokens a second: `rate * t` has accrued by time `t`. */
  ghost function Steady(rate: real): (credit: real -> real)
    ensures IsSteady(credit, rate)
  {
    assert IsSteady(t => rate * t, rate);
    var credit: real -> real :| IsSteady(credit, rate); credit
  }

  lemma SteadyGap(rate: real, s: real, t: real)
    ensures Steady(rate)(t) - Steady(rate)(s) == rate * (t - s)
  {
    assert Accrual(rate, t) - Accrual(rate, s) == rate * (t - s);
  }

  /** The accumulator's value: what one `_TokenBucket` holds between calls. */
  datatype Bucket = Bucket(capacity: int, credit: real -> real, tokens: real, lastRefill: real)

  function Min(x: real, y: real): real { if x <= y then x else y }

  function Fresh(capacity: int, credit: real -> real, now: real): Bucket {
    Bucket(capacity, credit, capacity as real, now)
  }

  /** The tokens on hand at `now`, after the refill and before anything is consumed. */
  function Level(b: Bucket, now: real): real {
    var gain := if now > b.lastRefill then b.credit(now) - b.credit(b.lastRefill) else 0.0;
    Min(b.capacity as real, b.tokens + gain)
  }

  predicate Grants(b: Bucket, now: real, amount: int) { Level(b, now) >= amount as real }

  function Consumed(b: Bucket, now: real, amount: int): Bucket {
    var left := Level(b, now) - (if Grants(b, now, amount) then amount as real else 0.0);
    b.(tokens := left, lastRefill := now)
  }

  // ------------------------------------------------------- histories and windows

  /** One call of `consume`: when, how much, and what it answered. */
  datatype Use = Use(at: real, amount: int, granted: bool) {
    function Taken(): int { if granted then amount else 0 }
  }

  /** A bucket's whole past. */
  datatype History = History(capacity: int, credit: real -> real, created: real, log: seq<Use>) {
    function Upto(i: nat): History requires i <= |log| { this.(log := log[..i]) }
    function Last(): real { if log == [] then created else log[|log| - 1].at }
    function Then(u: Use): History { this.(log := log + [u]) }
  }

  function Init(h: History): History
    requires h.log != []
  {
    h.Upto(|h.log| - 1)
  }

  /** The bucket left behind by a history. */
  function Replay(h: History): Bucket
    decreases |h.log|
  {
    if h.log == [] then Fresh(h.capacity, h.credit, h.created)
    else var u := h.log[|h.log| - 1]; Consumed(Replay(Init(h)), u.at, u.amount)
  }

  /** Every recorded answer is the one the machine gives. */
  predicate Faithful(h: History)
    decreases |h.log|
  {
    h.log == [] ||
    (Faithful(Init(h)) &&
     var u := h.log[|h.log| - 1]; u.granted == Grants(Replay(Init(h)), u.at, u.amount))
  }

  /** The clock never runs backwards. */
  predicate Monotone(h: History)
    decreases |h.log|
  {
    h.log == [] || (Monotone(Init(h)) && Init(h).Last() <= h.log[|h.log| - 1].at)
  }

  /** Total handed out by the calls from index `from` on. */
  function Spent(log: seq<Use>, from: nat): int
    requires from <= |log|
    decreases |log| - from
  {
    if from == |log| then 0 else log[from].Taken() + Spent(log, from + 1)
  }

  /** What the window that opened at `since`, just before call `j`, still allows at `now`. */
  function Window(h: History, since: real, j: nat, now: real): real
    requires j <= |h.log|
  {
    h.capacity as real + h.credit(now) - h.credit(since) - Spent(h.log, j) as real
  }

  /** Everything that caps a call at `now`: the capacity itself, the window since creation,
      and one window per earlier call. */
  function Limits(h: History, now: real): seq<real> {
    [h.capacity as real, Window(h, h.created, 0, now)]
    + seq(|h.log|, j requires 0 <= j < |h.log| => Window(h, h.log[j].at, j, now))
  }

  /** The rule over the whole past: no window, however long, would be overdrawn. */
  predicate SlidingWindowAdmits(h: History, now: real, amount: int) {
    forall x :: x in Limits(h, now) ==> x >= amount as real
  }

  predicate IsMinimum(l: real, xs: seq<real>) {
    l in xs && forall x :: x in xs ==> l <= x
  }

  // ------------------------------------------------------------------ refinement

  lemma SpentSnoc(log: seq<Use>, u: Use, from: nat)
    requires from <= |log|
    ensures Spent(log + [u], from) == Spent(log, from) + u.Taken()
    decreases |log| - from
  {
    if from == |log| {
      assert Spent(log + [u], from) == u.Taken() + Spent(log + [u], from + 1);
    } else {
      SpentSnoc(log, u, from + 1);
    }
  }

  lemma ReplayClock(h: History)
    requires Monotone(h)
    ensures Replay(h).lastRefill == h.Last()
    ensures Replay(h).capacity == h.capacity && Replay(h).credit == h.credit
    decreases |h.log|
  {
    if h.log != [] { ReplayClock(Init(h)); }
  }

  function Shift(xs: seq<real>, d: real): seq<real> {
    seq(|xs|, i requires 0 <= i < |xs| => xs[i] + d)
  }

  /** The change every window undergoes when the last call of `h` is appended. */
  function Drift(h: History, now: real): real
    requires h.log != []
  {
    var u := h.log[|h.log| - 1]; h.credit(now) - h.credit(u.at) - u.Taken() as real
  }

  lemma LimitsDrift(h: History, now: real)
    requires h.log != []
    ensures var was, c := Limits(Init(h), h.log[|h.log| - 1].at), h.capacity as real;
            was != [] && was[0] == c && Limits(h, now) == [c] + Shift(was[1..], Drift(h, now)) + [c + Drift(h, now)]
  {
    var u, log := h.log[|h.log| - 1], Init(h).log;
    assert h.log == log + [u];
    forall j | 0 <= j <= |log| ensures Spent(h.log, j) == Spent(log, j) + u.Taken() {
      SpentSnoc(log, u, j);
    }
  }

  /** After a call the level moves by what accrues, less what the call took, up to the capacity. */
  lemma LevelDrifts(b: Bucket, u: Use, now: real)
    requires u.granted == Grants(b, u.at, u.amount) && u.at <= now
    ensures Level(Consumed(b, u.at, u.amount), now)
            == Min(b.capacity as real, Level(b, u.at) + b.credit(now) - b.credit(u.at) - u.Taken() as real)
  {
  }

  lemma MinimumDrifts(l: real, ys: seq<real>, d: real, m: real, zs: seq<real>)
    requires IsMinimum(l, ys)
    requires m == Min(ys[0], l + d) && zs == [ys[0]] + Shift(ys[1..], d) + [ys[0] + d]
    ensures IsMinimum(m, zs)
  {
    var c := ys[0];
    assert zs[|zs| - 1] == c + d && zs[0] == c;
    var i :| 0 <= i < |ys| && ys[i] == l;
    assert i > 0 ==> zs[i] == l + d;
    forall z | z in zs ensures m <= z {
      var k :| 0 <= k < |zs| && zs[k] == z;
      if 0 < k < |zs| - 1 { assert ys[k] in ys && z == ys[k] + d; } else { assert ys[0] in ys; }
    }
  }

  lemma FreshLevelIsMinimum(h: History, now: real)
    requires h.log == [] && h.created <= now
    ensures IsMinimum(Level(Replay(h), now), Limits(h, now))
  {
    assert Limits(h, now) == [h.capacity as real, Window(h, h.created, 0, now)];
  }

  /** The level is at every moment the smallest of the limits. */
  lemma {:induction false} LevelIsWindowMinimum(h: History, now: real)
    requires Faithful(h) && Monotone(h) && h.Last() <= now
    ensures IsMinimum(Level(Replay(h), now), Limits(h, now))
    decreases |h.log|
  {
    if h.log == [] {
      FreshLevelIsMinimum(h, now);
    } else {
      var u := h.log[|h.log| - 1];
      LevelIsWindowMinimum(Init(h), u.at);
      LevelDrifts(Replay(Init(h)), u, now);
      ReplayClock(Init(h));
      LimitsDrift(h, now);
      var l, limits := Level(Replay(Init(h)), u.at), Limits(Init(h), u.at);
      MinimumDrifts(l, limits, Drift(h, now), Level(Replay(h), now), Limits(h, now));
    }
  }

  /** The incremental machine answers exactly as the rule over the whole past does. */
  lemma {:induction false} BucketRefinesSlidingWindow(h: History, now: real, amount: int)
    requires Faithful(h) && Monotone(h) && h.Last() <= now
    ensures Grants(Replay(h), now, amount) <==> SlidingWindowAdmits(h, now, amount)
  {
    LevelIsWindowMinimum(h, now);
  }

  /** Appending the machine's own answer to a history is one step of the machine. */
  lemma {:induction false} HistoryStep(h: History, at: real, amount: int)
    requires Faithful(h)
    ensures var u := Use(at, amount, Grants(Replay(h), at, amount));
            && Faithful(h.Then(u)) && Replay(h.Then(u)) == Consumed(Replay(h), at, amount)
            && (Monotone(h.Then(u)) ==> u.granted == SlidingWindowAdmits(h, at, amount))
  {
    var u := Use(at, amount, Grants(Replay(h), at, amount));
    assert Init(h.Then(u)) == h;
    if Monotone(h.Then(u)) { BucketRefinesSlidingWindow(h, at, amount); }
  }

  lemma SteadyLevel(b: Bucket, rate: real, now: real)
    requires b.credit == Steady(rate)
    ensures var elapsed := if now - b.lastRefill > 0.0 then now - b.lastRefill else 0.0;
            Level(b, now) == Min(b.capacity as real, b.tokens + elapsed * rate)
  {
    SteadyGap(rate, b.lastRefill, now);
  }

  // ------------------------------------------------------------------ rate bound

  /** A granted call bounds everything granted from any earlier call through itself. */
  lemma BurstBound(h: History, j: nat)
    requires Faithful(h) && Monotone(h) && j < |h.log| && h.log[|h.log| - 1].granted
    ensures Spent(h.log, j) as real
            <= h.capacity as real + h.credit(h.Last()) - h.credit(h.log[j].at)
  {
    var u, p := h.log[|h.log| - 1], Init(h);
    BucketRefinesSlidingWindow(p, u.at, u.amount);
    assert h.log == p.log + [u];
    SpentSnoc(p.log, u, j);
    var limits := Limits(p, u.at);
    if j < |p.log| {
      assert limits[j + 2] in limits && limits[j + 2] == Window(p, p.log[j].at, j, u.at);
    } else {
      assert limits[0] in limits && limits[0] == h.capacity as real;
    }
  }

  /** Total granted at times in `[s, t]`. */
  function Volume(log: seq<Use>, s: real, t: real): int
    decreases |log|
  {
    if log == [] then 0
    else var u := log[|log| - 1];
         Volume(log[..|log| - 1], s, t) + (if s <= u.at <= t then u.Taken() else 0)
  }

  lemma VolumeBefore(h: History, s: real, t: real)
    requires Monotone(h) && (h.log == [] || h.Last() < s)
    ensures Volume(h.log, s, t) == 0
    decreases |h.log|
  {
    if h.log != [] { VolumeBefore(Init(h), s, t); }
  }

  lemma VolumeIsSpent(h: History, s: real, t: real) returns (j: nat)
    requires Monotone(h) && h.log != [] && s <= h.Last() <= t
    ensures j < |h.log| && s <= h.log[j].at
    ensures Volume(h.log, s, t) == Spent(h.log, j)
    decreases |h.log|
  {
    var u, p := h.log[|h.log| - 1], Init(h);
    assert h.log == p.log + [u];
    if p.log != [] && s <= p.Last() {
      j := VolumeIsSpent(p, s, t);
    } else {
      j := |p.log|;
      VolumeBefore(p, s, t);
    }
    SpentSnoc(p.log, u, j);
  }

  ghost predicate NonDecreasing(credit: real -> real) {
    forall s, t :: s <= t ==> credit(s) <= credit(t)
  }

  /** In any interval, what was granted is nothing at all or at most capacity plus accrual. */
  lemma {:induction false} VolumeBound(h: History, s: real, t: real)
    requires Faithful(h) && Monotone(h) && NonDecreasing(h.credit) && s <= t
    ensures Volume(h.log, s, t) == 0
            || Volume(h.log, s, t) as real <= h.capacity as real + h.credit(t) - h.credit(s)
    decreases |h.log|
  {
    if h.log != [] {
      var u := h.log[|h.log| - 1];
      if s <= u.at <= t && u.granted {
        var j := VolumeIsSpent(h, s, t);
        BurstBound(h, j);
      } else {
        VolumeBound(Init(h), s, t);
      }
    }
  }

  lemma SteadyIsNonDecreasing(rate: real)
    ensures rate >= 0.0 <==> NonDecreasing(Steady(rate))
  {
    if rate >= 0.0 {
      forall s, t | s <= t ensures Steady(rate)(s) <= Steady(rate)(t) { SteadyGap(rate, s, t); }
    } else {
      SteadyGap(rate, 0.0, 1.0);
    }
  }

  /** The same for a steady refill: at most `capacity + rate * (t - s)`. */
  lemma RateBound(h: History, rate: real, s: real, t: real)
    requires Faithful(h) && Monotone(h) && h.credit == Steady(rate) && rate >= 0.0 && s <= t
    ensures Volume(h.log, s, t) == 0
            || Volume(h.log, s, t) as real <= h.capacity as real + rate * (t - s)
  {
    SteadyIsNonDecreasing(rate);
    SteadyGap(rate, s, t);
    VolumeBound(h, s, t);
  }

  // --------------------------------------------- refusals and lazy creation leave no trace

  predicate NonNegativeAmounts(log: seq<Use>) {
    forall i :: 0 <= i < |log| ==> log[i].amount >= 0
  }

  function Accepted(log: seq<Use>): seq<Use>
    decreases |log|
  {
    if log == [] then []
    else Accepted(log[..|log| - 1]) + (if log[|log| - 1].granted then [log[|log| - 1]] else [])
  }

  lemma TokensCapped(h: History)
    requires NonNegativeAmounts(h.log)
    ensures Replay(h).tokens <= h.capacity as real && Replay(h).capacity == h.capacity
    decreases |h.log|
  {
    if h.log != [] { TokensCapped(Init(h)); }
  }

  ghost predicate NonIncreasing(credit: real -> real) {
    forall s, t :: s <= t ==> credit(s) >= credit(t)
  }

  /** After a refused call the bucket refills as if the call had not happened. */
  lemma RefusalIsInvisible(h: History, now: real)
    requires h.log != [] && Faithful(h) && Monotone(h) && NonNegativeAmounts(h.log)
    requires !h.log[|h.log| - 1].granted && h.Last() <= now
    requires NonDecreasing(h.credit) || NonIncreasing(h.credit)
    ensures Level(Replay(h), now) == Level(Replay(Init(h)), now)
  {
    ReplayClock(Init(h));
    TokensCapped(Init(h));
  }

  /** Buckets at one level answer a call, and go on, alike. */
  lemma SameLevelSameStep(b: Bucket, c: Bucket, u: Use)
    requires b.capacity == c.capacity && b.credit == c.credit && Level(b, u.at) == Level(c, u.at)
    ensures Grants(b, u.at, u.amount) == Grants(c, u.at, u.amount)
    ensures Consumed(b, u.at, u.amount) == Consumed(c, u.at, u.amount)
  {
  }

  lemma {:induction false} ThenSteps(h: History, u: Use)
    ensures Init(h.Then(u)) == h && Replay(h.Then(u)) == Consumed(Replay(h), u.at, u.amount)
    ensures Faithful(h.Then(u)) <==> Faithful(h) && u.granted == Grants(Replay(h), u.at, u.amount)
    ensures Monotone(h.Then(u)) <==> Monotone(h) && h.Last() <= u.at
  {
    assert Init(h.Then(u)) == h;
  }

  function Struck(h: History): History { h.(log := Accepted(h.log)) }

  /** A history at a bucket's level goes through a call to that bucket's next state. */
  lemma {:induction false} SameLevelSameReplay(b: Bucket, q: History, u: Use)
    requires Faithful(q) && Monotone(q) && q.Last() <= u.at
    requires b.capacity == q.capacity && b.credit == q.credit && Level(b, u.at) == Level(Replay(q), u.at)
    requires u.granted == Grants(b, u.at, u.amount)
    ensures Faithful(q.Then(u)) && Monotone(q.Then(u)) && Replay(q.Then(u)) == Consumed(b, u.at, u.amount)
  {
    ThenSteps(q, u);
    ReplayClock(q);
    SameLevelSameStep(b, Replay(q), u);
  }

  lemma IsThen(h: History)
    requires h.log != []
    ensures h == Init(h).Then(h.log[|h.log| - 1])
  {
    assert h.log == Init(h).log + [h.log[|h.log| - 1]];
  }

  /** Striking the refused calls from a history changes no level, hence no later decision. */
  lemma {:induction false} RefusalsLeaveNoTrace(h: History, now: real)
    requires Faithful(h) && Monotone(h) && NonNegativeAmounts(h.log) && h.Last() <= now
    requires NonDecreasing(h.credit) || NonIncreasing(h.credit)
    ensures var k := Struck(h);
            && Faithful(k) && Monotone(k) && k.Last() <= h.Last()
            && Level(Replay(k), now) == Level(Replay(h), now)
    decreases |h.log|
  {
    if h.log != [] {
      var u, p := h.log[|h.log| - 1], Init(h);
      var q := Struck(p);
      if u.granted {
        RefusalsLeaveNoTrace(p, u.at);
        IsThen(h);
        ThenSteps(p, u);
        ReplayClock(p);
        SameLevelSameReplay(Replay(p), q, u);
        assert Struck(h) == q.Then(u);
      } else {
        RefusalsLeaveNoTrace(p, now);
        RefusalIsInvisible(h, now);
        assert Struck(h) == q;
      }
    }
  }

  lemma FreshIsFull(capacity: int, credit: real -> real, created: real, now: real)
    requires created <= now && NonDecreasing(credit)
    ensures Level(Fresh(capacity, credit, created), now) == capacity as real
  {
  }

  /** A log that a bucket created (full) at `t1` answers is answered the same way by one
      created at any earlier `t0`. */
  lemma {:induction false} LazyCreationIsInvisible(h: History, t0: real, now: real)
    requires Faithful(h) && Monotone(h) && t0 <= h.created && h.Last() <= now
    requires NonDecreasing(h.credit)
    ensures var e := h.(created := t0);
            Faithful(e) && Monotone(e) && Level(Replay(e), now) == Level(Replay(h), now)
    decreases |h.log|
  {
    if h.log == [] {
      FreshIsFull(h.capacity, h.credit, h.created, now);
      FreshIsFull(h.capacity, h.credit, t0, now);
    } else {
      var u, p := h.log[|h.log| - 1], Init(h);
      var q := p.(created := t0);
      LazyCreationIsInvisible(p, t0, u.at);
      IsThen(h);
      ThenSteps(p, u);
      ReplayClock(p);
      SameLevelSameReplay(Replay(p), q, u);
      assert h.(created := t0) == q.Then(u);
    }
  }

  /** A negative rate has by `t1` drained a bucket made at `t0` below its capacity. */
  lemma {:induction false} DrainedLevels(capacity: int, rate: real, t0: real, t1: real)
    requires t0 < t1 && rate < 0.0
    ensures Level(Fresh(capacity, Steady(rate), t0), t1) == capacity as real + rate * (t1 - t0)
    ensures Level(Fresh(capacity, Steady(rate), t0), t1) < capacity as real
    ensures Level(Fresh(capacity, Steady(rate), t1), t1) == capacity as real
  {
    SteadyGap(rate, t0, t1);
    assert rate * (t1 - t0) < 0.0;
  }

  /** So asking for the whole capacity tells when the bucket was made. */
  lemma {:induction false} DrainTellsCreation(capacity: int, rate: real, t0: real, t1: real)
    requires t0 < t1 && rate < 0.0
    ensures var lazy := History(capacity, Steady(rate), t1, [Use(t1, capacity, true)]);
            Faithful(lazy) && Monotone(lazy) && !Faithful(lazy.(created := t0))
  {
    var lazy := History(capacity, Steady(rate), t1, [Use(t1, capacity, true)]);
    var eager := lazy.(created := t0);
    DrainedLevels(capacity, rate, t0, t1);
    assert Init(lazy) == lazy.(log := []) && Replay(Init(lazy)) == Fresh(capacity, Steady(rate), t1);
    assert Init(eager) == eager.(log := []) && Replay(Init(eager)) == Fresh(capacity, Steady(rate), t0);
  }

  /** Creating the bucket at first use instead of earlier goes unnoticed by every later
      sequence of calls exactly when the refill rate is not negative. */
  lemma {:induction false} LazyCreationExactly(capacity: int, rate: real, t0: real, t1: real)
    requires t0 < t1
    ensures rate >= 0.0 <==>
            forall log: seq<Use> ::
              var lazy := History(capacity, Steady(rate), t1, log);
              Faithful(lazy) && Monotone(lazy) ==> Faithful(lazy.(created := t0))
  {
    SteadyIsNonDecreasing(rate);
    if rate >= 0.0 {
      forall log: seq<Use> |
        Faithful(History(capacity, Steady(rate), t1, log)) && Monotone(History(capacity, Steady(rate), t1, log))
        ensures Faithful(History(capacity, Steady(rate), t1, log).(created := t0))
      {
        var h := History(capacity, Steady(rate), t1, log);
        LazyCreationIsInvisible(h, t0, h.Last());
      }
    } else {
      DrainTellsCreation(capacity, rate, t0, t1);
    }
  }

  // ------------------------------------------------------------------- the class

  class TokenBucket {
    const capacity: int
    const refillPerSec: real
    var tokens: real
    var lastRefill: real
    ghost var history: History

    ghost function Snapshot(): Bucket
      reads this
    {
      Bucket(capacity, Steady(refillPerSec), tokens, lastRefill)
    }

    ghost predicate Valid()
      reads this
    {
      && history.capacity == capacity && history.credit == Steady(refillPerSec)
      && Faithful(history) && Replay(history) == Snapshot()
    }

    constructor (capacity: int, refillPerSec: real, now: real)
      ensures Valid() && this.capacity == capacity && this.refillPerSec == refillPerSec
      ensures Snapshot() == Fresh(capacity, Steady(refillPerSec), now)
      ensures history == History(capacity, Steady(refillPerSec), now, [])
    {
      this.capacity, this.refillPerSec := capacity, refillPerSec;
      tokens, lastRefill := capacity as real, now;
      history := History(capacity, Steady(refillPerSec), now, []);
    }

    /** The first half of `consume`: accrue, clamped to the capacity. */
    method Refill(now: real)
      modifies this`tokens, this`lastRefill
      ensures tokens == Level(old(Snapshot()), now) && lastRefill == now
    {
      SteadyLevel(Snapshot(), refillPerSec, now);
      var elapsed := if now - lastRefill > 0.0 then now - lastRefill else 0.0;
      lastRefill := now;
      tokens := Min(capacity as real, tokens + elapsed * refillPerSec);
    }

    /** `ok` is the sliding-window verdict on the entire past, whatever the calls were,
        as long as the clock did not run backwards. */
    method Consume(n: int, now: real) returns (ok: bool)
      requires Valid()
      modifies this
      ensures Valid() && history == old(history).Then(Use(now, n, ok))
      ensures Snapshot() == Consumed(old(Snapshot()), now, n)
      ensures ok == Grants(old(Snapshot()), now, n)
      ensures Monotone(history) ==> ok == SlidingWindowAdmits(old(history), now, n)
    {
      Refill(now);
      ok := tokens >= n as real;
      if ok {
        tokens := tokens - n as real;
      }
      HistoryStep(history, now, n);
      history := history.Then(Use(now, n, ok));
    }
  }
}
