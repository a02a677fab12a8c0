/**
 The polling loop of a connected device. Every cycle has an arbitrary outcome: the device may
 have been replaced while the loop slept, the read may raise, its snapshot may be invalid, and
 each look at the monotonic clock gives a reading of its own.
 */
module PollLoop {
  import opened Basics
  import opened Events

  datatype Settings = Settings(
    staleAfter: int,
    degradedAfter: int,
    stableAfter: real,
    reconnectAfter: real)

  /** What the loop looks at in a snapshot. */
  datatype Reading = Reading(observedAt: Instant, anyAvailable: bool)

  datatype Cycle = Cycle(
    present: bool,
    reading: Option<Reading>,
    wallClock: Instant,
    validAt: real,
    stableAt: real,
    failedAt: real,
    linkUp: bool,
    checkedAt: real)

  /** What one turn of the loop does to the rest of the service. */
  datatype Effect =
    | Recorded(snapshot: Reading)
    | PollingWritten
    | BackoffReset
    | DegradedWritten
    | BackoffWritten
    | RecoveryScheduled

  datatype Outcome = StillPolling | DeviceReplaced | HandedOver

  /** Everything the loop was given: its settings, its start and the outcomes of its cycles. */
  datatype History = History(settings: Settings, start: real, known: Option<Instant>, cycles: seq<Cycle>)

  // ---------- What the history says ----------

  /** A snapshot that was read, is still fresh and has an available probe. */
  predicate Good(h: History, i: nat)
    requires i < |h.cycles|
  {
    && h.cycles[i].reading.Some?
    && h.cycles[i].wallClock - h.cycles[i].reading.value.observedAt < h.settings.staleAfter
    && h.cycles[i].reading.value.anyAvailable
  }

  /** A valid cycle reads a good snapshot, newer than every good snapshot before it. */
  ghost predicate Valid(h: History, i: nat)
    requires i < |h.cycles|
  {
    && Good(h, i)
    && (h.known.Some? ==> h.known.value < h.cycles[i].reading.value.observedAt)
    && (forall j :: 0 <= j < i && Good(h, j) ==>
          h.cycles[j].reading.value.observedAt < h.cycles[i].reading.value.observedAt)
  }

  /** How many of the last of the first `n` cycles were invalid, one after the other. */
  ghost function InvalidSuffix(h: History, n: nat): (k: nat)
    requires n <= |h.cycles|
    ensures k <= n
    ensures forall j :: n - k <= j < n ==> !Valid(h, j)
    ensures k < n ==> Valid(h, n - k - 1)
  {
    if n == 0 || Valid(h, n - 1) then 0 else InvalidSuffix(h, n - 1) + 1
  }

  /** The time of the last valid cycle among the first `n`, or of the start. */
  ghost function LastValid(h: History, n: nat): real
    requires n <= |h.cycles|
  {
    var k := InvalidSuffix(h, n);
    if k == n then h.start else h.cycles[n - k - 1].validAt
  }

  /** The time of the last invalid cycle among the first `n`, or of the start. */
  ghost function StableSince(h: History, n: nat): real
    requires n <= |h.cycles|
  {
    if n == 0 then h.start
    else if Valid(h, n - 1) then StableSince(h, n - 1)
    else h.cycles[n - 1].failedAt
  }

  ghost predicate Resets(h: History, i: nat)
    requires i < |h.cycles|
  {
    Valid(h, i) && h.cycles[i].stableAt - StableSince(h, i) >= h.settings.stableAfter
  }

  ghost predicate Degrades(h: History, i: nat)
    requires i < |h.cycles|
  {
    InvalidSuffix(h, i + 1) > 0 && InvalidSuffix(h, i + 1) >= h.settings.degradedAfter
  }

  ghost predicate HandsOver(h: History, i: nat)
    requires i < |h.cycles|
  {
    || !h.cycles[i].linkUp
    || h.cycles[i].checkedAt - LastValid(h, i + 1) >= h.settings.reconnectAfter
  }

  /** The effects of cycle `i`, in order. */
  ghost function EffectsOf(h: History, i: nat): seq<Effect>
    requires i < |h.cycles|
  {
    (if h.cycles[i].reading.Some? then [Recorded(h.cycles[i].reading.value)] else [])
    + (if Valid(h, i) then [PollingWritten] else [])
    + (if Resets(h, i) then [BackoffReset] else [])
    + (if Degrades(h, i) then [DegradedWritten] else [])
    + (if HandsOver(h, i) then [BackoffWritten, RecoveryScheduled] else [])
  }

  ghost function AllEffects(h: History, n: nat): seq<Effect>
    requires n <= |h.cycles|
  {
    if n == 0 then [] else AllEffects(h, n - 1) + EffectsOf(h, n - 1)
  }

  // ---------- The loop ----------

  /**
   The loop keeps only five variables, yet does in every cycle what the whole history asks for,
   and ends at the first cycle that hands over or finds its device replaced.
   */
  method Poll(settings: Settings, start: real, known: Option<Instant>, cycles: seq<Cycle>)
    returns (effects: seq<Effect>, done: nat, outcome: Outcome, failures: nat, lastValid: real)
    ensures done <= |cycles|
    ensures effects == AllEffects(History(settings, start, known, cycles), done)
    ensures failures == InvalidSuffix(History(settings, start, known, cycles), done)
    ensures lastValid == LastValid(History(settings, start, known, cycles), done)
    ensures outcome.StillPolling? ==> done == |cycles|
    ensures outcome.DeviceReplaced? ==> done < |cycles| && !cycles[done].present
    ensures outcome.HandedOver? <==> done > 0 && HandsOver(History(settings, start, known, cycles), done - 1)
    ensures forall i :: 0 <= i < done ==> cycles[i].present
    ensures forall i :: 0 <= i < done - 1 ==> !HandsOver(History(settings, start, known, cycles), i)
  {
    hide InvalidSuffix, LastValid, StableSince, Valid, Bounds, AllEffects, HandsOver;
    ghost var h := History(settings, start, known, cycles);
    NoneYet(h);
    failures, lastValid, effects, done := 0, start, [], 0;
    var stableSince := start;
    var lastObserved := known;
    while done < |cycles|
      invariant 0 <= done <= |cycles|
      invariant effects == AllEffects(h, done)
      invariant failures == InvalidSuffix(h, done)
      invariant lastValid == LastValid(h, done)
      invariant stableSince == StableSince(h, done)
      invariant Bounds(h, done, lastObserved)
      invariant forall i :: 0 <= i < done ==> cycles[i].present && !HandsOver(h, i)
    {
      var c := cycles[done];
      if !c.present {
        return effects, done, DeviceReplaced, failures, lastValid;
      }
      ghost var before := effects;
      ValidByNewest(h, done, lastObserved);
      BoundsKept(h, done, lastObserved);
      OneMore(h, done);
      HandsOverNow(h, done);
      if c.reading.None? {
        failures := failures + 1;
      } else {
        effects := effects + [Recorded(c.reading.value)];
        var current := c.wallClock - c.reading.value.observedAt < settings.staleAfter;
        if current && c.reading.value.anyAvailable
           && (lastObserved.None? || c.reading.value.observedAt > lastObserved.value) {
          lastObserved := Some(c.reading.value.observedAt);
          failures := 0;
          lastValid := c.validAt;
          effects := effects + [PollingWritten];
          if c.stableAt - stableSince >= settings.stableAfter {
            effects := effects + [BackoffReset];
          }
        } else {
          failures := failures + 1;
        }
      }
      if failures != 0 {
        stableSince := c.failedAt;
        if failures >= settings.degradedAfter {
          effects := effects + [DegradedWritten];
        }
      }
      assert effects + (if HandsOver(h, done) then [BackoffWritten, RecoveryScheduled] else [])
          == before + EffectsOf(h, done);
      done := done + 1;
      if !c.linkUp || c.checkedAt - lastValid >= settings.reconnectAfter {
        effects := effects + [BackoffWritten, RecoveryScheduled];
        return effects, done, HandedOver, failures, lastValid;
      }
    }
    outcome := StillPolling;
  }

  /** `newest` is the greatest observation time that was known or read in a good cycle. */
  ghost predicate Bounds(h: History, n: nat, newest: Option<Instant>)
    requires n <= |h.cycles|
  {
    && (h.known.Some? ==> newest.Some? && h.known.value <= newest.value)
    && (forall j :: 0 <= j < n && Good(h, j) ==>
          newest.Some? && h.cycles[j].reading.value.observedAt <= newest.value)
    && (newest == h.known
        || exists j :: 0 <= j < n && Good(h, j) && newest == Some(h.cycles[j].reading.value.observedAt))
  }

  /** Comparing with the newest observation alone decides validity. */
  lemma ValidByNewest(h: History, n: nat, newest: Option<Instant>)
    requires n < |h.cycles| && Bounds(h, n, newest)
    ensures Valid(h, n) <==>
            Good(h, n) && (newest.None? || newest.value < h.cycles[n].reading.value.observedAt)
  {
  }

  lemma BoundsKept(h: History, n: nat, newest: Option<Instant>)
    requires n < |h.cycles| && Bounds(h, n, newest)
    ensures Bounds(h, n + 1, if Valid(h, n) then Some(h.cycles[n].reading.value.observedAt) else newest)
  {
    if Valid(h, n) {
      assert Good(h, n);
    }
  }

  lemma NoneYet(h: History)
    ensures InvalidSuffix(h, 0) == 0 && LastValid(h, 0) == h.start && StableSince(h, 0) == h.start
    ensures Bounds(h, 0, h.known) && AllEffects(h, 0) == []
  {
  }

  /** How one more cycle changes the three summaries of the history. */
  lemma HandsOverNow(h: History, n: nat)
    requires n < |h.cycles|
    ensures HandsOver(h, n) <==>
            !h.cycles[n].linkUp || h.cycles[n].checkedAt - LastValid(h, n + 1) >= h.settings.reconnectAfter
  {
  }

  lemma OneMore(h: History, n: nat)
    requires n < |h.cycles|
    ensures Valid(h, n) ==> Good(h, n)
    ensures InvalidSuffix(h, n + 1) == if Valid(h, n) then 0 else InvalidSuffix(h, n) + 1
    ensures LastValid(h, n + 1) == if Valid(h, n) then h.cycles[n].validAt else LastValid(h, n)
    ensures StableSince(h, n + 1) == if Valid(h, n) then StableSince(h, n) else h.cycles[n].failedAt
    ensures AllEffects(h, n + 1) == AllEffects(h, n) + EffectsOf(h, n)
  {
  }

  // ---------- What the effects mean ----------

  /** Degraded is written exactly after `degradedAfter` invalid cycles in a row, and after each one more. */
  lemma DegradedExactly(h: History, i: nat)
    requires i < |h.cycles|
    ensures DegradedWritten in EffectsOf(h, i) <==>
            Max(1, h.settings.degradedAfter) <= i + 1
            && forall j :: i + 1 - Max(1, h.settings.degradedAfter) <= j <= i ==> !Valid(h, j)
  {
    var m := Max(1, h.settings.degradedAfter);
    var k := InvalidSuffix(h, i + 1);
    assert DegradedWritten in EffectsOf(h, i) <==> Degrades(h, i);
    if k < m && m <= i + 1 {
      assert Valid(h, i + 1 - k - 1);
    }
  }

  /** The clock readings of a history never go back, in the order in which the loop takes them. */
  ghost predicate Monotone(h: History) {
    && (forall i :: 0 <= i < |h.cycles| ==>
          h.start <= h.cycles[i].validAt <= h.cycles[i].stableAt <= h.cycles[i].failedAt <= h.cycles[i].checkedAt)
    && (forall i, j :: 0 <= i < j < |h.cycles| ==> h.cycles[i].checkedAt <= h.cycles[j].validAt)
  }

  lemma {:induction false} StableSinceBounds(h: History, n: nat, t: real)
    requires n <= |h.cycles| && Monotone(h)
    ensures StableSince(h, n) <= t <==>
            h.start <= t && forall j :: 0 <= j < n && !Valid(h, j) ==> h.cycles[j].failedAt <= t
    decreases n
  {
    if n != 0 {
      StableSinceBounds(h, n - 1, t);
      if !Valid(h, n - 1) {
        forall j | 0 <= j < n - 1 ensures h.cycles[j].failedAt <= h.cycles[n - 1].failedAt {}
      }
    }
  }

  /** Backoff is reset exactly by a valid cycle with nothing invalid in the `stableAfter` before it. */
  lemma ResetOnlyWhenStable(h: History, i: nat)
    requires i < |h.cycles| && Monotone(h)
    ensures BackoffReset in EffectsOf(h, i) <==>
            Valid(h, i)
            && h.start <= h.cycles[i].stableAt - h.settings.stableAfter
            && forall j :: 0 <= j < i && !Valid(h, j) ==> h.cycles[j].failedAt <= h.cycles[i].stableAt - h.settings.stableAfter
  {
    assert BackoffReset in EffectsOf(h, i) <==> Resets(h, i);
    StableSinceBounds(h, i, h.cycles[i].stableAt - h.settings.stableAfter);
  }

  /** The loop gives up exactly when the link is down or nothing valid came for `reconnectAfter`. */
  lemma HandsOverExactly(h: History, i: nat)
    requires i < |h.cycles| && Monotone(h)
    ensures RecoveryScheduled in EffectsOf(h, i) <==>
            !h.cycles[i].linkUp
            || (h.start <= h.cycles[i].checkedAt - h.settings.reconnectAfter
                && forall j :: 0 <= j <= i && Valid(h, j) ==>
                     h.cycles[j].validAt <= h.cycles[i].checkedAt - h.settings.reconnectAfter)
  {
    assert RecoveryScheduled in EffectsOf(h, i) <==> HandsOver(h, i);
    var k := InvalidSuffix(h, i + 1);
    if k < i + 1 {
      var last := i - k;
      assert Valid(h, last);
      forall j | 0 <= j <= i && Valid(h, j) ensures h.cycles[j].validAt <= h.cycles[last].validAt {
        assert j <= last;
        assert j < last ==> h.cycles[j].validAt <= h.cycles[j].checkedAt;
      }
    }
  }

  /** Whatever the clock shows, a loop whose reads all fail hands over no later than `reconnectAfter` after its start. */
  lemma SilenceHandsOver(h: History, i: nat)
    requires i < |h.cycles|
    requires forall j :: 0 <= j <= i ==> h.cycles[j].reading.None?
    requires h.cycles[i].checkedAt >= h.start + h.settings.reconnectAfter
    ensures HandsOver(h, i)
    ensures EffectsOf(h, i) ==
            (if i + 1 >= h.settings.degradedAfter then [DegradedWritten] else [])
            + [BackoffWritten, RecoveryScheduled]
  {
    forall j | 0 <= j <= i ensures !Valid(h, j) {}
  }
}
