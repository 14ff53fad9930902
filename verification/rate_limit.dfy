/**
 A provider's token bucket, in exact reals: each decision replenishes by the time since the last
 one, grants a token or answers how long to wait. The accounts below hold for every run of
 decisions in the order they take the lock.
 */
module RateLimit {
  import opened Wrappers

  datatype Policy = Policy(capacity: real, tokensPerSecond: real)

  ghost predicate ValidPolicy(policy: Policy) {
    policy.capacity >= 1.0 && policy.tokensPerSecond > 0.0
  }

  datatype Bucket = Bucket(available: real, updatedAt: real)

  ghost predicate ValidBucket(policy: Policy, bucket: Bucket) {
    0.0 <= bucket.available <= policy.capacity
  }

  datatype TokenDecision = Granted(remaining: real) | Wait(available: real, duration: real)

  /** A reading taken before the last update counts as no time at all. */
  function Elapsed(since: real, now: real): real {
    if now < since then 0.0 else now - since
  }

  function Least(one: real, other: real): real {
    if one < other then one else other
  }

  function DecideAcquire(available: real, elapsed: real, capacity: real, tokensPerSecond: real): TokenDecision
    requires tokensPerSecond > 0.0
  {
    var replenished := Least(available + elapsed * tokensPerSecond, capacity);
    if replenished >= 1.0 then Granted(replenished - 1.0)
    else Wait(replenished, (1.0 - replenished) / tokensPerSecond)
  }

  function Decide(policy: Policy, bucket: Bucket, now: real): TokenDecision
    requires policy.tokensPerSecond > 0.0
  {
    DecideAcquire(bucket.available, Elapsed(bucket.updatedAt, now), policy.capacity, policy.tokensPerSecond)
  }

  function After(policy: Policy, bucket: Bucket, now: real): Bucket
    requires policy.tokensPerSecond > 0.0
  {
    match Decide(policy, bucket, now)
    case Granted(remaining) => Bucket(remaining, now)
    case Wait(available, _) => Bucket(available, now)
  }

  // ----- The bucket, in place -----

  class TokenBucket {
    const policy: Policy
    var available: real
    var updatedAt: real

    ghost predicate Valid()
      reads this
    {
      ValidPolicy(policy) && ValidBucket(policy, Value())
    }

    function Value(): Bucket
      reads this
    {
      Bucket(available, updatedAt)
    }

    constructor (capacity: nat, refillInterval: real, now: real)
      requires capacity >= 1 && refillInterval > 0.0
      ensures Valid() && policy == Policy(capacity as real, 1.0 / refillInterval)
      ensures Value() == Bucket(capacity as real, now)
    {
      policy, available, updatedAt := Policy(capacity as real, 1.0 / refillInterval), capacity as real, now;
    }

    /** One turn under the lock, for a clock reading taken before it. */
    method DecideOnce(now: real) returns (wait: Option<real>)
      requires Valid()
      modifies this
      ensures Valid() && Value() == After(policy, old(Value()), now)
      ensures var decision := Decide(policy, old(Value()), now);
              wait == if decision.Granted? then None else Some(decision.duration)
      ensures wait.Some? ==> wait.value > 0.0
    {
      DecisionKeepsBounds(policy, Value(), now);
      match DecideAcquire(available, Elapsed(updatedAt, now), policy.capacity, policy.tokensPerSecond) {
        case Granted(remaining) =>
          available, updatedAt := remaining, now;
          wait := None;
        case Wait(left, duration) =>
          available, updatedAt := left, now;
          wait := Some(duration);
      }
    }

    /**
     The waiting loop of a caller with no competitor. `wake` gives the reading after a sleep that
     began at a reading; a sleep may overrun but never ends early. At most one sleep is needed.
     */
    method Acquire(now: real, wake: (real, real) -> real) returns (sleeps: nat, last: real)
      requires Valid() && forall begin, duration :: wake(begin, duration) >= begin + duration
      modifies this
      ensures Valid() && sleeps <= 1
      ensures var decision := Decide(policy, old(Value()), now);
              && (decision.Granted? <==> sleeps == 0)
              && (sleeps == 0 ==> last == now && Value() == After(policy, old(Value()), now))
              && (sleeps == 1 ==>
                    && last == wake(now, decision.duration)
                    && var waited := After(policy, old(Value()), now);
                       Decide(policy, waited, last).Granted? && Value() == After(policy, waited, last))
    {
      sleeps, last := 0, now;
      while true
        invariant Valid() && sleeps <= 1
        invariant sleeps == 0 ==> last == now && Value() == old(Value())
        invariant sleeps == 1 ==>
                    && Decide(policy, old(Value()), now).Wait?
                    && last == wake(now, Decide(policy, old(Value()), now).duration)
                    && Value() == After(policy, old(Value()), now)
                    && Decide(policy, Value(), last).Granted?
        decreases 1 - sleeps
      {
        ghost var before := Value();
        var wait := DecideOnce(last);
        if wait.None? { return; }
        WaitingGrants(policy, before, last, wake(last, wait.value));
        last, sleeps := wake(last, wait.value), sleeps + 1;
      }
    }
  }

  // ----- One decision -----

  lemma Replenishes(policy: Policy, available: real, elapsed: real)
    requires ValidPolicy(policy) && 0.0 <= available <= policy.capacity && elapsed >= 0.0
    ensures 0.0 <= Least(available + elapsed * policy.tokensPerSecond, policy.capacity) <= policy.capacity
  {
    assert elapsed * policy.tokensPerSecond >= 0.0;
  }

  lemma DecisionKeepsBounds(policy: Policy, bucket: Bucket, now: real)
    requires ValidPolicy(policy) && ValidBucket(policy, bucket)
    ensures ValidBucket(policy, After(policy, bucket, now))
    ensures Decide(policy, bucket, now).Wait? ==> Decide(policy, bucket, now).duration > 0.0
  {
    Replenishes(policy, bucket.available, Elapsed(bucket.updatedAt, now));
    var decision := Decide(policy, bucket, now);
    if decision.Wait? {
      Quotient(1.0 - decision.available, policy.tokensPerSecond);
    }
  }

  lemma Quotient(tokens: real, rate: real)
    requires tokens > 0.0 && rate > 0.0
    ensures tokens / rate > 0.0 && tokens / rate * rate == tokens
  {
  }

  lemma Scales(one: real, other: real, rate: real)
    requires one >= other && rate > 0.0
    ensures one * rate >= other * rate
  {
  }

  /** After the answered wait, and nothing in between, the next decision grants. */
  lemma WaitingGrants(policy: Policy, bucket: Bucket, now: real, later: real)
    requires ValidPolicy(policy) && ValidBucket(policy, bucket) && Decide(policy, bucket, now).Wait?
    requires later >= now + Decide(policy, bucket, now).duration
    ensures Decide(policy, After(policy, bucket, now), later).Granted?
  {
    var Wait(available, duration) := Decide(policy, bucket, now);
    DecisionKeepsBounds(policy, bucket, now);
    Quotient(1.0 - available, policy.tokensPerSecond);
    assert Elapsed(now, later) == later - now;
    Scales(later - now, duration, policy.tokensPerSecond);
  }

  /** A sleep any shorter than the answered wait does not get a token. */
  lemma ShorterWaitsAgain(policy: Policy, bucket: Bucket, now: real, later: real)
    requires ValidPolicy(policy) && ValidBucket(policy, bucket) && Decide(policy, bucket, now).Wait?
    requires later < now + Decide(policy, bucket, now).duration
    ensures Decide(policy, After(policy, bucket, now), later).Wait?
  {
    var Wait(available, duration) := Decide(policy, bucket, now);
    DecisionKeepsBounds(policy, bucket, now);
    Quotient(1.0 - available, policy.tokensPerSecond);
    var elapsed := Elapsed(now, later);
    assert elapsed < duration;
    StrictlyScales(duration, elapsed, policy.tokensPerSecond);
  }

  lemma StrictlyScales(one: real, other: real, rate: real)
    requires one > other && rate > 0.0
    ensures one * rate > other * rate
  {
  }

  // ----- Runs -----

  /** The bucket after decisions at these readings, in lock order. */
  function RunOf(policy: Policy, bucket: Bucket, readings: seq<real>): Bucket
    requires policy.tokensPerSecond > 0.0
  {
    if readings == [] then bucket
    else After(policy, RunOf(policy, bucket, readings[..|readings| - 1]), readings[|readings| - 1])
  }

  function Grants(policy: Policy, bucket: Bucket, readings: seq<real>): nat
    requires policy.tokensPerSecond > 0.0
  {
    if readings == [] then 0
    else
      var before := readings[..|readings| - 1];
      Grants(policy, bucket, before) +
      if Decide(policy, RunOf(policy, bucket, before), readings[|readings| - 1]).Granted? then 1 else 0
  }

  /** By how much readings fall back behind the one before them, in total. */
  function Regress(readings: seq<real>): real {
    if |readings| <= 1 then 0.0
    else
      var n := |readings|;
      Regress(readings[..n - 1]) + Elapsed(readings[n - 1], readings[n - 2])
  }

  lemma {:induction false} RunKeepsBounds(policy: Policy, bucket: Bucket, readings: seq<real>)
    requires ValidPolicy(policy) && ValidBucket(policy, bucket)
    ensures ValidBucket(policy, RunOf(policy, bucket, readings))
    ensures readings != [] ==> RunOf(policy, bucket, readings).updatedAt == readings[|readings| - 1]
    decreases |readings|
  {
    if readings != [] {
      RunKeepsBounds(policy, bucket, readings[..|readings| - 1]);
      DecisionKeepsBounds(policy, RunOf(policy, bucket, readings[..|readings| - 1]), readings[|readings| - 1]);
    }
  }

  /** The tokens that a time refills. */
  function Refill(policy: Policy, time: real): real {
    time * policy.tokensPerSecond
  }

  lemma OneAccount(policy: Policy, bucket: Bucket, now: real)
    requires ValidPolicy(policy) && ValidBucket(policy, bucket)
    ensures var granted := if Decide(policy, bucket, now).Granted? then 1.0 else 0.0;
            && granted + After(policy, bucket, now).available
               <= bucket.available + Refill(policy, Elapsed(bucket.updatedAt, now))
            && granted + After(policy, bucket, now).available <= policy.capacity
  {
  }

  // ----- Bursts -----

  /** So many callers at one moment. */
  function AtOnce(now: real, callers: nat): seq<real> {
    seq(callers, _ => now)
  }

  lemma AtOnceSnoc(now: real, callers: nat)
    requires callers > 0
    ensures AtOnce(now, callers)[..callers - 1] == AtOnce(now, callers - 1) && AtOnce(now, callers)[callers - 1] == now
  {
  }

  lemma {:induction false} BurstDrains(policy: Policy, bucket: Bucket, now: real, callers: nat)
    requires ValidPolicy(policy) && ValidBucket(policy, bucket)
    requires var held := Least(bucket.available + Refill(policy, Elapsed(bucket.updatedAt, now)), policy.capacity);
             callers as real <= held
    ensures var held := Least(bucket.available + Refill(policy, Elapsed(bucket.updatedAt, now)), policy.capacity);
            && Grants(policy, bucket, AtOnce(now, callers)) == callers
            && (callers > 0 ==> RunOf(policy, bucket, AtOnce(now, callers)) == Bucket(held - callers as real, now))
    decreases callers
  {
    if callers > 0 {
      AtOnceSnoc(now, callers);
      BurstDrains(policy, bucket, now, callers - 1);
      NothingElapsed(policy, now);
    }
  }

  /**
   What has accrued since the last decision, up to the capacity, is there for callers who come at
   once: all of them are granted exactly when there are no more of them than whole tokens.
   */
  lemma BurstsGetWhatAccrued(policy: Policy, bucket: Bucket, now: real, callers: nat)
    requires ValidPolicy(policy) && ValidBucket(policy, bucket)
    ensures Grants(policy, bucket, AtOnce(now, callers)) == callers <==>
            || callers == 0
            || (&& callers as real <= policy.capacity
                && callers as real <= bucket.available + Refill(policy, Elapsed(bucket.updatedAt, now)))
    decreases callers
  {
    var held := Least(bucket.available + Refill(policy, Elapsed(bucket.updatedAt, now)), policy.capacity);
    if callers as real <= held {
      BurstDrains(policy, bucket, now, callers);
    } else if callers > 0 {
      AtOnceSnoc(now, callers);
      AtMostOneMore(policy, bucket, now, callers - 1);
      BurstsGetWhatAccrued(policy, bucket, now, callers - 1);
      if callers as real - 1.0 <= held {
        Replenishes(policy, bucket.available, Elapsed(bucket.updatedAt, now));
        BurstDrains(policy, bucket, now, callers - 1);
        NothingElapsed(policy, now);
      }
    }
  }

  lemma {:induction false} AtMostOneMore(policy: Policy, bucket: Bucket, now: real, callers: nat)
    requires policy.tokensPerSecond > 0.0
    ensures Grants(policy, bucket, AtOnce(now, callers)) <= callers
    decreases callers
  {
    if callers > 0 {
      AtOnceSnoc(now, callers);
      AtMostOneMore(policy, bucket, now, callers - 1);
    }
  }

  /** From the first reading to the last, counting again whatever the readings fell back. */
  function Span(readings: seq<real>): real
    requires readings != []
  {
    readings[|readings| - 1] - readings[0] + Regress(readings)
  }

  lemma SpanGrows(policy: Policy, readings: seq<real>)
    requires readings != []
    ensures |readings| == 1 ==> Refill(policy, Span(readings)) == 0.0
    ensures |readings| > 1 ==>
              Refill(policy, Span(readings)) ==
              Refill(policy, Span(readings[..|readings| - 1]))
              + Refill(policy, Elapsed(readings[|readings| - 2], readings[|readings| - 1]))
  {
    var n := |readings|;
    if n == 1 {
      assert Span(readings) == 0.0;
    } else {
      var earlier, step := Span(readings[..n - 1]), Elapsed(readings[n - 2], readings[n - 1]);
      assert Span(readings) == earlier + step;
      assert (earlier + step) * policy.tokensPerSecond ==
        earlier * policy.tokensPerSecond + step * policy.tokensPerSecond;
    }
  }

  /**
   Over any run of decisions, from any bucket: the tokens granted, and those still there, never
   exceed a full bucket plus the refill over the run's span.
   */
  lemma {:induction false} GrantsAreBounded(policy: Policy, bucket: Bucket, readings: seq<real>)
    requires ValidPolicy(policy) && ValidBucket(policy, bucket) && readings != []
    ensures Grants(policy, bucket, readings) as real + RunOf(policy, bucket, readings).available
            <= policy.capacity + Refill(policy, Span(readings))
    decreases |readings|
  {
    hide Decide, After, DecideAcquire, Refill, Span, Elapsed;
    var n := |readings|;
    var before, now := readings[..n - 1], readings[n - 1];
    RunKeepsBounds(policy, bucket, before);
    OneAccount(policy, RunOf(policy, bucket, before), now);
    SpanGrows(policy, readings);
    if n > 1 {
      GrantsAreBounded(policy, bucket, before);
    } else {
      assert before == [];
    }
  }

  ghost predicate NeverBack(readings: seq<real>) {
    forall j, k | 0 <= j < k < |readings| :: readings[j] <= readings[k]
  }

  /** Nothing falls back exactly when the total of what falls back is zero. */
  lemma {:induction false} NoRegress(readings: seq<real>)
    ensures Regress(readings) == 0.0 <==> NeverBack(readings)
    ensures Regress(readings) >= 0.0
    decreases |readings|
  {
    var n := |readings|;
    if n > 1 {
      var before := readings[..n - 1];
      NoRegress(before);
      assert before[n - 2] == readings[n - 2];
      if NeverBack(readings) {
        assert NeverBack(before);
      }
      if NeverBack(before) && readings[n - 2] <= readings[n - 1] {
        forall j | 0 <= j < n - 1 ensures readings[j] <= readings[n - 1] {
          assert j < n - 2 ==> before[j] <= before[n - 2];
        }
        assert forall j, k | 0 <= j < k < n - 1 :: before[j] == readings[j] && before[k] == readings[k];
      }
    }
  }

  /** When readings never fall back in lock order, every window of a run obeys the plain bound. */
  lemma WindowBound(policy: Policy, bucket: Bucket, readings: seq<real>, from: nat, to: nat)
    requires ValidPolicy(policy) && ValidBucket(policy, bucket)
    requires from < to <= |readings| && NeverBack(readings)
    ensures Grants(policy, RunOf(policy, bucket, readings[..from]), readings[from..to]) as real
            <= policy.capacity + Refill(policy, readings[to - 1] - readings[from])
  {
    hide RunOf, Grants, Regress, Decide, After, Refill;
    var window := readings[from..to];
    assert NeverBack(window);
    NoRegress(window);
    RunKeepsBounds(policy, bucket, readings[..from]);
    var start := RunOf(policy, bucket, readings[..from]);
    GrantsAreBounded(policy, start, window);
    RunKeepsBounds(policy, start, window);
    assert Span(window) == readings[to - 1] - readings[from];
  }

  /** The grants of a window are those its decisions add to the run. */
  lemma {:induction false} WindowCounts(policy: Policy, bucket: Bucket, readings: seq<real>, from: nat)
    requires policy.tokensPerSecond > 0.0 && from <= |readings|
    ensures var start := RunOf(policy, bucket, readings[..from]);
            && RunOf(policy, start, readings[from..]) == RunOf(policy, bucket, readings)
            && Grants(policy, bucket, readings[..from]) + Grants(policy, start, readings[from..]) ==
               Grants(policy, bucket, readings)
    decreases |readings|
  {
    var n := |readings|;
    if from == n {
      assert readings[..from] == readings;
    } else {
      WindowCounts(policy, bucket, readings[..n - 1], from);
      assert readings[..n - 1][..from] == readings[..from];
      assert readings[from..][..n - from - 1] == readings[..n - 1][from..];
    }
  }

  // ----- When the plain bound holds -----

  /** Capacity plus the refill from the first reading to the last bounds the grants, whatever the bucket. */
  ghost predicate PlainBound(readings: seq<real>)
    requires readings != []
  {
    forall policy, bucket | ValidPolicy(policy) && ValidBucket(policy, bucket) ::
      Grants(policy, bucket, readings) as real
      <= policy.capacity + Refill(policy, readings[|readings| - 1] - readings[0])
  }

  /** A full bucket of one, as a provider allowed one request at a time starts with. */
  function FullOfOne(start: real): Bucket {
    Bucket(1.0, start)
  }

  /** With room for whatever is refilled, one decision loses nothing and leaves less than a token. */
  lemma OneExactAccount(policy: Policy, bucket: Bucket, now: real)
    requires ValidPolicy(policy) && policy.capacity == 1.0 && 0.0 <= bucket.available
    requires bucket.available + Refill(policy, Elapsed(bucket.updatedAt, now)) <= 1.0
    ensures var granted := if Decide(policy, bucket, now).Granted? then 1.0 else 0.0;
            && granted + After(policy, bucket, now).available
               == bucket.available + Refill(policy, Elapsed(bucket.updatedAt, now))
            && After(policy, bucket, now).available < 1.0
  {
  }

  lemma RefillGrows(policy: Policy, readings: seq<real>)
    requires ValidPolicy(policy) && |readings| > 1
    ensures 0.0 <= Refill(policy, Elapsed(readings[|readings| - 2], readings[|readings| - 1]))
    ensures Refill(policy, Span(readings[..|readings| - 1])) <= Refill(policy, Span(readings))
  {
    hide Span;
    SpanGrows(policy, readings);
    Scales(Elapsed(readings[|readings| - 2], readings[|readings| - 1]), 0.0, policy.tokensPerSecond);
  }

  /** A full bucket of one accounts for every token while no more than one is refilled over the span. */
  lemma {:induction false} GrantsExactly(policy: Policy, readings: seq<real>)
    requires ValidPolicy(policy) && policy.capacity == 1.0 && readings != []
    requires Refill(policy, Span(readings)) <= 1.0
    ensures var bucket := FullOfOne(readings[0]);
            && Grants(policy, bucket, readings) >= 1
            && Grants(policy, bucket, readings) as real + RunOf(policy, bucket, readings).available
               == 1.0 + Refill(policy, Span(readings))
            && RunOf(policy, bucket, readings).available < 1.0
    decreases |readings|
  {
    hide Decide, After, Refill, Span, Elapsed;
    var n, bucket := |readings|, FullOfOne(readings[0]);
    var before, now := readings[..n - 1], readings[n - 1];
    SpanGrows(policy, readings);
    RunKeepsBounds(policy, bucket, before);
    if n > 1 {
      RefillGrows(policy, readings);
      GrantsExactly(policy, before);
    } else {
      NothingElapsed(policy, readings[0]);
      assert before == [];
    }
    OneExactAccount(policy, RunOf(policy, bucket, before), now);
  }

  lemma NothingElapsed(policy: Policy, now: real)
    ensures Refill(policy, Elapsed(now, now)) == 0.0
  {
  }

  /** The policy of one token whose refill over the span of the readings is at most one. */
  function TightPolicy(readings: seq<real>): Policy
    requires readings != []
  {
    Policy(1.0, if Span(readings) > 0.0 then 1.0 / Span(readings) else 1.0)
  }

  lemma SpanIsNotNegative(readings: seq<real>)
    requires readings != []
    ensures Span(readings) >= 0.0
    decreases |readings|
  {
    if |readings| > 1 {
      SpanIsNotNegative(readings[..|readings| - 1]);
    }
  }

  lemma TightRefill(readings: seq<real>)
    requires readings != []
    ensures ValidPolicy(TightPolicy(readings)) && TightPolicy(readings).capacity == 1.0
    ensures Refill(TightPolicy(readings), Span(readings)) == if Span(readings) > 0.0 then 1.0 else 0.0
  {
    SpanIsNotNegative(readings);
    if Span(readings) > 0.0 {
      Quotient(1.0, Span(readings));
    }
  }

  /** Readings that fall back anywhere let a full bucket of one grant more than the plain bound. */
  lemma FallingBackBreaksBound(readings: seq<real>)
    requires readings != [] && !NeverBack(readings)
    ensures var policy, bucket := TightPolicy(readings), FullOfOne(readings[0]);
            && ValidPolicy(policy) && ValidBucket(policy, bucket)
            && Grants(policy, bucket, readings) as real
               > policy.capacity + Refill(policy, readings[|readings| - 1] - readings[0])
  {
    hide Grants, RunOf, Regress, NeverBack, Refill, TightPolicy;
    var policy := TightPolicy(readings);
    NoRegress(readings);
    TightRefill(readings);
    var grants := Grants(policy, FullOfOne(readings[0]), readings);
    GrantsExactly(policy, readings);
    assert Span(readings) > 0.0 ==> grants >= 2;
    LessTimeRefillsLess(policy, Span(readings), readings[|readings| - 1] - readings[0]);
  }

  lemma LessTimeRefillsLess(policy: Policy, one: real, other: real)
    requires ValidPolicy(policy) && one > other
    ensures Refill(policy, one) > Refill(policy, other)
  {
    StrictlyScales(one, other, policy.tokensPerSecond);
  }

  /**
   The reading is taken before the lock, so readings can fall back in lock order. The plain bound holds
   for every policy and bucket exactly when they never do.
   */
  lemma PlainBoundExactly(readings: seq<real>)
    requires readings != []
    ensures PlainBound(readings) <==> NeverBack(readings)
  {
    hide Grants, RunOf, Refill, NeverBack, TightPolicy;
    if NeverBack(readings) {
      forall policy, bucket | ValidPolicy(policy) && ValidBucket(policy, bucket)
        ensures Grants(policy, bucket, readings) as real
                <= policy.capacity + Refill(policy, readings[|readings| - 1] - readings[0])
      {
        WindowBound(policy, bucket, readings, 0, |readings|);
        assert readings[..0] == [] && readings[0..|readings|] == readings;
        NothingRun(policy, bucket);
      }
    } else {
      FallingBackBreaksBound(readings);
    }
  }

  lemma NothingRun(policy: Policy, bucket: Bucket)
    requires policy.tokensPerSecond > 0.0
    ensures RunOf(policy, bucket, []) == bucket
  {
  }
}
