/**
 The process-wide token bucket, refilled lazily whenever it is asked. Times are exact
 seconds of the clock it is given, which is not assumed to be monotone unless a lemma says so.
 */
module RateLimiting {
  import opened Basics

  datatype Bucket = Bucket(rate: real, capacity: real, tokens: real, last: real)

  /** A bucket that can be asked: its level is within its capacity, which holds a whole token. */
  predicate Sound(b: Bucket) {
    && b.rate > 0.0
    && b.capacity >= 1.0
    && 0.0 <= b.tokens <= b.capacity
  }

  function MinReal(a: real, b: real): real {
    if a < b then a else b
  }

  function MaxReal(a: real, b: real): real {
    if a < b then b else a
  }

  function Ceiling(x: real): (n: int)
    ensures (n - 1) as real < x <= n as real
  {
    -((-x).Floor)
  }

  /** The tokens that flow in during some seconds. */
  function Inflow(rate: real, seconds: real): real {
    seconds * rate
  }

  lemma InflowGrows(rate: real, a: real, b: real)
    requires rate > 0.0
    ensures a <= b <==> Inflow(rate, a) <= Inflow(rate, b)
    ensures Inflow(rate, 0.0) == 0.0
  {
    if a <= b {
      assert (b - a) * rate >= 0.0;
    } else {
      assert (a - b) * rate > 0.0;
    }
  }

  lemma InflowAdds(rate: real, a: real, b: real)
    ensures Inflow(rate, a + b) == Inflow(rate, a) + Inflow(rate, b)
  {
  }

  lemma InflowNotNegative(rate: real, a: real)
    requires rate > 0.0 && a >= 0.0
    ensures Inflow(rate, a) >= 0.0
  {
    InflowGrows(rate, 0.0, a);
  }

  /** The bucket as if it had been looked at, but not drawn from, at `now`. */
  function Refilled(b: Bucket, now: real): Bucket {
    b.(tokens := MinReal(b.capacity, b.tokens + Inflow(b.rate, MaxReal(0.0, now - b.last))), last := now)
  }

  predicate Admits(b: Bucket, now: real) {
    Refilled(b, now).tokens >= 1.0
  }

  /** A call `k` seconds after the last one would be admitted. */
  predicate AdmitsAfter(b: Bucket, k: nat) {
    Admits(b, b.last + k as real)
  }

  function Asked(b: Bucket, now: real): Bucket {
    var full := Refilled(b, now);
    if full.tokens >= 1.0 then full.(tokens := full.tokens - 1.0) else full
  }

  class RateLimit {
    const rate: real
    const capacity: real
    var tokens: real
    var last: real

    ghost predicate Valid()
      reads this
    {
      Sound(View())
    }

    function View(): Bucket
      reads this
    {
      Bucket(rate, capacity, tokens, last)
    }

    constructor (perMinute: int, now: real)
      requires perMinute >= 1
      ensures Valid()
      ensures rate == perMinute as real / 60.0 && capacity == Min(perMinute, 10) as real
      ensures tokens == capacity && last == now
    {
      rate := perMinute as real / 60.0;
      capacity := Min(perMinute, 10) as real;
      tokens := Min(perMinute, 10) as real;
      last := now;
    }

    /** Zero admits the call; a positive answer is the least whole number of seconds to wait. */
    method RetryAfter(now: real) returns (r: int)
      requires Valid()
      modifies this
      ensures Valid()
      ensures View() == Asked(old(View()), now)
      ensures r >= 0
      ensures r == 0 <==> Admits(old(View()), now)
      ensures r > 0 ==> forall k: nat :: AdmitsAfter(View(), k) <==> k >= r
    {
      hide Inflow, AdmitsAfter;
      InflowNotNegative(rate, MaxReal(0.0, now - last));
      tokens := MinReal(capacity, tokens + Inflow(rate, MaxReal(0.0, now - last)));
      last := now;
      if tokens >= 1.0 {
        tokens := tokens - 1.0;
        return 0;
      }
      r := Max(1, Ceiling((1.0 - tokens) / rate));
      forall k: nat
        ensures AdmitsAfter(View(), k) <==> k >= r
      {
        LeastWait(View(), k);
      }
    }
  }

  /** Dividing by a positive rate turns a number of tokens into a number of seconds. */
  lemma SecondsFor(missing: real, rate: real, seconds: real)
    requires rate > 0.0
    ensures Inflow(rate, seconds) >= missing <==> seconds >= missing / rate
  {
    InflowGrows(rate, missing / rate, seconds);
    assert missing / rate * rate == missing;
  }

  lemma LeastWait(b: Bucket, k: nat)
    requires Sound(b) && b.tokens < 1.0
    ensures AdmitsAfter(b, k) <==> k >= Max(1, Ceiling((1.0 - b.tokens) / b.rate))
  {
    hide Inflow;
    var missing := 1.0 - b.tokens;
    var quotient := missing / b.rate;
    SecondsFor(missing, b.rate, k as real);
    InflowGrows(b.rate, 0.0, 0.0);
    assert MaxReal(0.0, b.last + k as real - b.last) == k as real;
    assert AdmitsAfter(b, k) <==> k as real >= quotient;
    assert k as real >= quotient <==> k >= Ceiling(quotient);
  }

  // ---------- Refused polls do not matter ----------

  /** Refilling in two steps is refilling in one, when the clock goes forward. */
  lemma RefillSplits(b: Bucket, middle: real, now: real)
    requires Sound(b) && b.last <= middle <= now
    ensures Refilled(Refilled(b, middle), now) == Refilled(b, now)
  {
    hide Inflow;
    InflowAdds(b.rate, middle - b.last, now - middle);
    assert middle - b.last + (now - middle) == now - b.last;
    InflowNotNegative(b.rate, middle - b.last);
    InflowNotNegative(b.rate, now - middle);
  }

  predicate NonDecreasing(start: real, times: seq<real>) {
    && (|times| > 0 ==> start <= times[0])
    && (forall i :: 0 < i < |times| ==> times[i - 1] <= times[i])
  }

  function AskedAll(b: Bucket, times: seq<real>): Bucket
    decreases |times|
  {
    if |times| == 0 then b else AskedAll(Asked(b, times[0]), times[1..])
  }

  function Admissions(b: Bucket, times: seq<real>): nat
    decreases |times|
  {
    if |times| == 0 then 0
    else (if Admits(b, times[0]) then 1 else 0) + Admissions(Asked(b, times[0]), times[1..])
  }

  function LastTime(start: real, times: seq<real>): real {
    if |times| == 0 then start else times[|times| - 1]
  }

  /** However often it is asked in between, a refusing bucket admits a call exactly when an undisturbed one would. */
  lemma {:induction false} RefusedPollsDoNotMatter(b: Bucket, polls: seq<real>, now: real)
    requires Sound(b) && NonDecreasing(b.last, polls) && LastTime(b.last, polls) <= now
    requires Admissions(b, polls) == 0
    ensures Admits(AskedAll(b, polls), now) <==> Admits(b, now)
    ensures Asked(AskedAll(b, polls), now) == Asked(b, now)
    decreases |polls|
  {
    if |polls| > 0 {
      var next := Asked(b, polls[0]);
      AskedStaysSound(b, polls[0]);
      TimesReach(polls[0], polls[1..], now);
      RefusedPollsDoNotMatter(next, polls[1..], now);
      RefillSplits(b, polls[0], now);
    }
  }

  lemma {:induction false} TimesReach(start: real, times: seq<real>, now: real)
    requires NonDecreasing(start, times) && LastTime(start, times) <= now
    ensures start <= now
    decreases |times|
  {
    if |times| > 0 {
      TimesReach(times[0], times[1..], now);
    }
  }

  lemma AskedStaysSound(b: Bucket, now: real)
    requires Sound(b)
    ensures Sound(Asked(b, now))
  {
    hide Inflow;
    InflowNotNegative(b.rate, MaxReal(0.0, now - b.last));
  }

  // ---------- The window bound ----------

  /** How far the clock moves forward over a series of readings; steps back do not count. */
  function Climb(start: real, times: seq<real>): real
    decreases |times|
  {
    if |times| == 0 then 0.0
    else MaxReal(0.0, times[0] - start) + Climb(times[0], times[1..])
  }

  /** Admissions never exceed what was in the bucket and what flowed in, for any clock at all. */
  lemma {:induction false} AdmissionsWithinClimb(b: Bucket, times: seq<real>)
    requires Sound(b)
    ensures Admissions(b, times) as real + AskedAll(b, times).tokens <= b.tokens + Inflow(b.rate, Climb(b.last, times))
    ensures Sound(AskedAll(b, times))
    decreases |times|
  {
    hide Inflow;
    if |times| == 0 {
      InflowGrows(b.rate, 0.0, 0.0);
    } else {
      var inflow := MaxReal(0.0, times[0] - b.last);
      var rest := Climb(times[0], times[1..]);
      AskedStaysSound(b, times[0]);
      AdmissionsWithinClimb(Asked(b, times[0]), times[1..]);
      InflowAdds(b.rate, inflow, rest);
    }
  }

  lemma {:induction false} ClimbOfMonotone(start: real, times: seq<real>)
    requires NonDecreasing(start, times)
    ensures Climb(start, times) == LastTime(start, times) - start
    decreases |times|
  {
    if |times| > 0 {
      ClimbOfMonotone(times[0], times[1..]);
    }
  }

  lemma {:induction false} AdmissionsSplit(b: Bucket, before: seq<real>, after: seq<real>)
    ensures AskedAll(b, before + after) == AskedAll(AskedAll(b, before), after)
    ensures Admissions(b, before + after) == Admissions(b, before) + Admissions(AskedAll(b, before), after)
    decreases |before|
  {
    if |before| == 0 {
      assert before + after == after;
    } else {
      assert (before + after)[1..] == before[1..] + after;
      AdmissionsSplit(Asked(b, before[0]), before[1..], after);
    }
  }

  /**
   In any window of calls, wherever it lies in the run, no more than the capacity plus the
   rate times the length of the window are admitted.
   */
  lemma WindowBound(b: Bucket, earlier: seq<real>, window: seq<real>)
    requires Sound(b) && |window| > 0
    requires forall i :: 0 < i < |window| ==> window[i - 1] <= window[i]
    ensures Admissions(b, earlier + window) - Admissions(b, earlier) >= 0
    ensures (Admissions(b, earlier + window) - Admissions(b, earlier)) as real
            <= b.capacity + Inflow(b.rate, window[|window| - 1] - window[0])
  {
    hide Inflow;
    AdmissionsSplit(b, earlier, window);
    AdmissionsWithinClimb(b, earlier);
    var open := AskedAll(b, earlier);
    SameShape(b, earlier);
    var first, rest := window[0], window[1..];
    AskedStaysSound(open, first);
    AdmissionsWithinClimb(Asked(open, first), rest);
    ClimbOfMonotone(first, rest);
    assert LastTime(first, rest) == window[|window| - 1];
  }

  lemma {:induction false} SameShape(b: Bucket, times: seq<real>)
    ensures AskedAll(b, times).rate == b.rate && AskedAll(b, times).capacity == b.capacity
    decreases |times|
  {
    if |times| > 0 {
      SameShape(Asked(b, times[0]), times[1..]);
    }
  }

  /** A full or an empty bucket of one token, refilled at one token a second. */
  function OneToken(tokens: real, last: real): Bucket {
    Bucket(1.0, 1.0, tokens, last)
  }

  lemma UnitInflow(seconds: real)
    ensures Inflow(1.0, seconds) == seconds
  {
  }

  /** A call a second after the last one, or on a full bucket, is admitted and leaves the bucket empty. */
  lemma OneTokenAsked(tokens: real, last: real, now: real)
    requires tokens == 0.0 || tokens == 1.0
    requires now - last == 0.0 || now - last == 1.0 || now - last == -1.0
    ensures var admitted := tokens == 1.0 || now - last == 1.0;
            && Asked(OneToken(tokens, last), now) == OneToken(0.0, now)
            && (Admits(OneToken(tokens, last), now) <==> admitted)
  {
    hide Inflow;
    UnitInflow(MaxReal(0.0, now - last));
  }

  lemma OneCall(b: Bucket, now: real)
    ensures AskedAll(b, [now]) == Asked(b, now)
    ensures Admissions(b, [now]) == if Admits(b, now) then 1 else 0
  {
    hide Asked, Admits;
    assert [now][1..] == [];
  }

  /** A clock that steps back and forth refills the bucket every time: the bound needs the premise. */
  lemma SteppingClockBreaksBound()
    ensures var b := OneToken(1.0, 0.0);
            var times := [0.0, 1.0, 0.0, 1.0];
            Sound(b) && Admissions(b, times) == 3
            && Admissions(b, times) as real > b.capacity + Inflow(b.rate, times[3] - times[0])
  {
    hide Asked, Admits, Admissions, AskedAll, Inflow;
    UnitInflow(1.0);
    FirstCall();
    SecondCall();
    LastCalls();
    assert [0.0] + [1.0, 0.0, 1.0] == [0.0, 1.0, 0.0, 1.0];
    AdmissionsSplit(OneToken(1.0, 0.0), [0.0], [1.0, 0.0, 1.0]);
  }

  lemma FirstCall()
    ensures AskedAll(OneToken(1.0, 0.0), [0.0]) == OneToken(0.0, 0.0) && Admissions(OneToken(1.0, 0.0), [0.0]) == 1
  {
    hide Asked, Admits, Admissions, AskedAll;
    OneCall(OneToken(1.0, 0.0), 0.0);
    OneTokenAsked(1.0, 0.0, 0.0);
  }

  lemma SecondCall()
    ensures Admissions(OneToken(0.0, 0.0), [1.0, 0.0, 1.0]) == 1 + Admissions(OneToken(0.0, 1.0), [0.0, 1.0])
  {
    hide Asked, Admits, Admissions, AskedAll;
    OneCall(OneToken(0.0, 0.0), 1.0);
    OneTokenAsked(0.0, 0.0, 1.0);
    assert [1.0] + [0.0, 1.0] == [1.0, 0.0, 1.0];
    AdmissionsSplit(OneToken(0.0, 0.0), [1.0], [0.0, 1.0]);
  }

  lemma LastCalls()
    ensures Admissions(OneToken(0.0, 1.0), [0.0, 1.0]) == 1
  {
    hide Asked, Admits, Admissions, AskedAll;
    OneCall(OneToken(0.0, 1.0), 0.0);
    OneTokenAsked(0.0, 1.0, 0.0);
    OneCall(OneToken(0.0, 0.0), 1.0);
    OneTokenAsked(0.0, 0.0, 1.0);
    assert [0.0] + [1.0] == [0.0, 1.0];
    AdmissionsSplit(OneToken(0.0, 1.0), [0.0], [1.0]);
  }
}
