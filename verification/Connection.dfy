/** The desired and observed connection state of a device, and the backoff between attempts. */
module Connections {
  import opened Basics

  datatype Desired = WantConnected | WantDisconnected

  datatype State =
    | Discovered | Connecting | Initialising | Connected | Polling
    | Degraded | Backoff | Disconnected | Unsupported

  datatype TransitionError = InvalidTransition(from: State, to: State)

  function Allowed(s: State): set<State> {
    match s
    case Discovered => {Connecting, Disconnected, Unsupported}
    case Connecting => {Initialising, Backoff, Disconnected}
    case Initialising => {Connected, Backoff, Disconnected, Unsupported}
    case Connected => {Polling, Degraded, Backoff, Disconnected}
    case Polling => {Degraded, Backoff, Disconnected}
    case Degraded => {Polling, Backoff, Disconnected}
    case Backoff => {Connecting, Disconnected}
    case Disconnected => {State.Discovered, Connecting, Unsupported}
    case Unsupported => {Disconnected}
  }

  // ---------- Backoff ----------

  const DEFAULT_DELAYS := [2.0, 4.0, 8.0, 15.0, 30.0, 60.0]
  const DEFAULT_JITTER := 0.2

  predicate ValidSchedule(delays: seq<real>, jitter: real) {
    |delays| > 0 && 0.0 <= jitter <= 1.0 && forall i :: 0 <= i < |delays| ==> delays[i] > 0.0
  }

  /** The scheduled delay before the attempt with this number, without jitter. */
  function Scheduled(delays: seq<real>, attempt: nat): real
    requires |delays| > 0
  {
    delays[Min(attempt, |delays| - 1)]
  }

  predicate IsRandom(x: real) {
    0.0 <= x < 1.0
  }

  function Jittered(base: real, jitter: real, random: real): real {
    base * (1.0 + (random * 2.0 - 1.0) * jitter)
  }

  /** A jittered delay stays within the jitter fraction of its base, on both sides. */
  lemma JitterBounds(base: real, jitter: real, random: real)
    requires base > 0.0 && 0.0 <= jitter <= 1.0 && IsRandom(random)
    ensures base * (1.0 - jitter) <= Jittered(base, jitter, random) <= base * (1.0 + jitter)
    ensures jitter > 0.0 ==> Jittered(base, jitter, random) < base * (1.0 + jitter)
  {
    var swing := (random * 2.0 - 1.0) * jitter;
    assert (random * 2.0 - 1.0 + 1.0) * jitter >= 0.0;
    assert -jitter <= swing;
    assert (1.0 - (random * 2.0 - 1.0)) * jitter >= 0.0;
    assert swing <= jitter;
    assert jitter > 0.0 ==> (1.0 - (random * 2.0 - 1.0)) * jitter > 0.0;
    assert base * (swing + jitter) >= 0.0;
    assert base * (jitter - swing) >= 0.0;
    assert jitter > swing ==> base * (jitter - swing) > 0.0;
    assert base * (1.0 + swing) == base * (1.0 - jitter) + base * (swing + jitter);
    assert base * (1.0 + jitter) == base * (1.0 + swing) + base * (jitter - swing);
  }

  /** One delay is below another whatever the jitter exactly when their jitter ranges do not overlap. */
  lemma AlwaysBelowExactly(low: real, high: real, jitter: real)
    requires low > 0.0 && high > 0.0 && 0.0 < jitter <= 1.0
    ensures (forall r, s :: IsRandom(r) && IsRandom(s) ==> Jittered(low, jitter, r) < Jittered(high, jitter, s))
            <==> low * (1.0 + jitter) <= high * (1.0 - jitter)
  {
    if low * (1.0 + jitter) <= high * (1.0 - jitter) {
      forall r, s | IsRandom(r) && IsRandom(s) ensures Jittered(low, jitter, r) < Jittered(high, jitter, s) {
        JitterBounds(low, jitter, r);
        JitterBounds(high, jitter, s);
      }
    } else {
      var excess := low * (1.0 + jitter) - high * (1.0 - jitter);
      var r := RandomReaching(low, jitter, excess);
      assert Jittered(high, jitter, 0.0) == high * (1.0 - jitter);
      assert IsRandom(r) && IsRandom(0.0);
    }
  }

  /** Randomness close to one brings a delay as close to its upper bound as one likes. */
  lemma RandomReaching(base: real, jitter: real, distance: real) returns (r: real)
    requires base > 0.0 && 0.0 < jitter <= 1.0 && distance > 0.0
    ensures IsRandom(r) && Jittered(base, jitter, r) >= base * (1.0 + jitter) - distance
  {
    var span := 2.0 * jitter * base;
    assert span > 0.0;
    if distance >= span {
      r := 0.0;
      assert Jittered(base, jitter, 0.0) == base * (1.0 + jitter) - span;
    } else {
      var share := distance / span;
      assert share * span == distance;
      assert 0.0 < share;
      assert share < 1.0 by {
        assert share >= 1.0 ==> (share - 1.0) * span >= 0.0;
      }
      r := 1.0 - share;
      assert (r * 2.0 - 1.0) * jitter == jitter - 2.0 * share * jitter;
      assert base * (2.0 * share * jitter) == share * span;
      assert Jittered(base, jitter, r) == base * (1.0 + jitter) - base * (2.0 * share * jitter);
    }
  }

  /** The default delays strictly increase up to the cap, whatever the jitter, and then stay in its range. */
  lemma DefaultDelaysIncrease(i: nat, j: nat, r: real, s: real)
    requires i < j <= 5 && IsRandom(r) && IsRandom(s)
    ensures Jittered(Scheduled(DEFAULT_DELAYS, i), DEFAULT_JITTER, r)
            < Jittered(Scheduled(DEFAULT_DELAYS, j), DEFAULT_JITTER, s)
  {
    var low, high := Scheduled(DEFAULT_DELAYS, i), Scheduled(DEFAULT_DELAYS, j);
    assert low * 1.2 <= high * 0.8;
    AlwaysBelowExactly(low, high, DEFAULT_JITTER);
  }

  class BackoffPolicy {
    const delays: seq<real>
    const jitter: real
    var attempt: nat

    ghost predicate Valid()
      reads this
    {
      ValidSchedule(delays, jitter)
    }

    constructor (delays: seq<real>, jitter: real)
      requires ValidSchedule(delays, jitter)
      ensures Valid() && this.delays == delays && this.jitter == jitter && attempt == 0
    {
      this.delays, this.jitter, attempt := delays, jitter, 0;
    }

    method NextDelay(random: real) returns (delay: real)
      requires Valid() && IsRandom(random)
      modifies this
      ensures Valid() && attempt == old(attempt) + 1
      ensures delay == Jittered(Scheduled(delays, old(attempt)), jitter, random)
      ensures Scheduled(delays, old(attempt)) * (1.0 - jitter) <= delay <= Scheduled(delays, old(attempt)) * (1.0 + jitter)
    {
      var base := delays[Min(attempt, |delays| - 1)];
      attempt := attempt + 1;
      var factor := 1.0 + (random * 2.0 - 1.0) * jitter;
      JitterBounds(base, jitter, random);
      delay := base * factor;
    }

    method Reset()
      requires Valid()
      modifies this
      ensures Valid() && attempt == 0
    {
      attempt := 0;
    }
  }

  // ---------- The state machine ----------

  /** Observed states in order, each allowed after the one before it, from `disconnected` on. */
  ghost predicate IsRun(path: seq<State>) {
    && |path| >= 1 && path[0] == Disconnected
    && (forall k :: 0 < k < |path| ==> path[k] in Allowed(path[k - 1]))
  }

  /** The allowed changes, read from where they lead. */
  lemma AllowedBySource(s: State)
    ensures State.Discovered in Allowed(s) <==> s == Disconnected
    ensures Connecting in Allowed(s) <==> s == State.Discovered || s == Backoff || s == Disconnected
    ensures Initialising in Allowed(s) <==> s == Connecting
    ensures Connected in Allowed(s) <==> s == Initialising
    ensures Polling in Allowed(s) <==> s == Connected || s == Degraded
    ensures Degraded in Allowed(s) <==> s == Connected || s == Polling
    ensures Backoff in Allowed(s) <==>
            s == Connecting || s == Initialising || s == Connected || s == Polling || s == Degraded
    ensures Disconnected in Allowed(s) <==> s != Disconnected
    ensures Unsupported in Allowed(s) <==> s == State.Discovered || s == Initialising || s == Disconnected
  {
  }

  class ConnectionStateMachine {
    var desired: Desired
    var observed: State
    const backoff: BackoffPolicy
    ghost var path: seq<State>

    ghost predicate Valid()
      reads this, backoff
    {
      backoff.Valid() && IsRun(path) && observed == path[|path| - 1]
    }

    constructor ()
      ensures Valid() && fresh(backoff)
      ensures desired == WantDisconnected && observed == Disconnected && backoff.attempt == 0
      ensures backoff.delays == [2.0, 4.0, 8.0, 15.0, 30.0, 60.0] && backoff.jitter == 0.2
    {
      backoff := new BackoffPolicy(DEFAULT_DELAYS, DEFAULT_JITTER);
      desired, observed, path := WantDisconnected, Disconnected, [Disconnected];
    }

    method Transition(target: State) returns (r: Result<bool, TransitionError>)
      requires Valid()
      modifies `observed, `path
      ensures Valid()
      ensures r.Err? <==> target != old(observed) && target !in Allowed(old(observed))
      ensures r.Ok? ==> observed == target && r.value == (target != old(observed))
      ensures path == if r == Ok(true) then old(path) + [target] else old(path)
      ensures r.Err? ==> r.error == InvalidTransition(old(observed), target) && observed == old(observed)
    {
      if target == observed {
        return Ok(false);
      }
      if target !in Allowed(observed) {
        return Err(InvalidTransition(observed, target));
      }
      observed := target;
      path := path + [target];
      r := Ok(true);
    }

    method ReportDiscovered(supported: bool) returns (r: Result<bool, TransitionError>)
      requires Valid()
      modifies `observed, `path
      ensures Valid()
      ensures r.Ok? <==> old(observed) == Disconnected
                         || old(observed) == (if supported then State.Discovered else Unsupported)
                         || (old(observed) in {State.Discovered, Initialising} && !supported)
      ensures r.Ok? ==> observed == if supported then State.Discovered else Unsupported
      ensures r.Err? ==> observed == old(observed)
    {
      r := Transition(if supported then State.Discovered else Unsupported);
    }

    /** Never raises; starts connecting from rest, and from backoff when forced. */
    method RequestConnect(force: bool) returns (r: Result<bool, TransitionError>)
      requires Valid()
      modifies `desired, `observed, `path
      ensures Valid() && desired == WantConnected
      ensures r.Ok?
      ensures old(observed) in {State.Discovered, Disconnected} || (old(observed) == Backoff && force) ==>
                r == Ok(true) && observed == Connecting
      ensures !(old(observed) in {State.Discovered, Disconnected} || (old(observed) == Backoff && force)) ==>
                r == Ok(old(desired) != WantConnected) && observed == old(observed)
    {
      var changed := desired != WantConnected;
      desired := WantConnected;
      if observed == Backoff && force {
        r := Transition(Connecting);
        return;
      }
      if observed in {State.Discovered, Disconnected} {
        r := Transition(Connecting);
        return;
      }
      r := Ok(changed);
    }

    /** Never raises, and ends disconnected with the backoff forgotten. */
    method RequestDisconnect() returns (r: Result<bool, TransitionError>)
      requires Valid()
      modifies `desired, `observed, `path, backoff
      ensures Valid() && desired == WantDisconnected && observed == Disconnected && backoff.attempt == 0
      ensures r == Ok(old(desired) != WantDisconnected || old(observed) != Disconnected)
    {
      var changed := desired != WantDisconnected;
      desired := WantDisconnected;
      if observed != Disconnected {
        r := Transition(Disconnected);
        if r.Err? {
          return;
        }
        changed := true;
      }
      backoff.Reset();
      r := Ok(changed);
    }

    /** Raises exactly when a connection was wanted and there was none that could be lost. */
    method UnexpectedDisconnect(random: real) returns (r: Result<Option<real>, TransitionError>)
      requires Valid() && IsRandom(random)
      modifies `observed, `path, backoff
      ensures Valid() && desired == old(desired)
      ensures r.Err? <==> desired == WantConnected && old(observed) in {State.Discovered, Disconnected, Unsupported}
      ensures r.Err? ==> observed == old(observed) && backoff.attempt == old(backoff.attempt)
      ensures r.Ok? && desired == WantDisconnected ==>
                r.value.None? && observed == Disconnected && backoff.attempt == old(backoff.attempt)
      ensures r.Ok? && desired == WantConnected ==>
                r.value == Some(Jittered(Scheduled(backoff.delays, old(backoff.attempt)), backoff.jitter, random))
                && observed == Backoff && backoff.attempt == old(backoff.attempt) + 1
    {
      if desired == WantDisconnected {
        if observed != Disconnected {
          var moved := Transition(Disconnected);
          if moved.Err? {
            return Err(moved.error);
          }
        }
        return Ok(None);
      }
      var moved := Transition(Backoff);
      if moved.Err? {
        return Err(moved.error);
      }
      var delay := backoff.NextDelay(random);
      r := Ok(Some(delay));
    }

    /** A wanted connection that came up and is now in use. */
    method Stable()
      requires Valid()
      modifies backoff
      ensures Valid() && backoff.attempt == 0
    {
      backoff.Reset();
    }
  }

  /** The steps the service takes around one connection attempt never raise, whether forced or not. */
  method ConnectionAttempt(force: bool) returns (r: Result<bool, TransitionError>, m: ConnectionStateMachine)
    ensures r.Ok? && m.Valid() && m.observed == Polling && m.desired == WantConnected
  {
    m := new ConnectionStateMachine();
    r := m.ReportDiscovered(true);
    if r.Err? { return; }
    r := m.RequestConnect(force);
    if r.Err? { return; }
    r := m.Transition(Initialising);
    if r.Err? { return; }
    r := m.Transition(Connected);
    if r.Err? { return; }
    r := m.Transition(Polling);
  }

  // ---------- Runs ----------

  predicate Linked(s: State) {
    s in {Connecting, Initialising, Connected, Polling, Degraded}
  }

  /** Since step `k` the path went straight through connecting, initialising and connected, and stayed linked up to `n`. */
  ghost predicate CameUp(path: seq<State>, k: nat, n: nat) {
    && k + 2 <= n < |path|
    && path[k] == Connecting && path[k + 1] == Initialising && path[k + 2] == Connected
    && (forall i :: k <= i <= n ==> Linked(path[i]))
  }

  /** Whoever is polling or degraded came up in full since the last disconnect or backoff. */
  lemma {:induction false} PollingMeansCameUp(path: seq<State>, n: nat) returns (k: nat)
    requires IsRun(path) && n < |path| && path[n] in {Connected, Polling, Degraded}
    ensures CameUp(path, k, n)
    decreases n
  {
    assert path[n] in Allowed(path[n - 1]);
    if path[n] == Connected {
      assert path[n - 1] == Initialising;
      assert path[n - 1] in Allowed(path[n - 2]);
      k := n - 2;
    } else {
      k := PollingMeansCameUp(path, n - 1);
    }
  }

  // ---------- Reconnecting to the broker ----------

  /** How one session with the broker ended. */
  datatype Session =
    | Returned
    | Cancelled
    | Failed(connectedAt: Option<real>, failedAt: real, random: real)

  predicate WasStable(s: Session, stableAfter: real) {
    s.Failed? && s.connectedAt.Some? && s.failedAt - s.connectedAt.value >= stableAfter
  }

  /** How many failures came before failure `k` since the last stable session. */
  function SinceStable(sessions: seq<Session>, stableAfter: real, k: nat): nat
    requires k < |sessions|
  {
    if k == 0 || WasStable(sessions[k], stableAfter) then 0
    else SinceStable(sessions, stableAfter, k - 1) + 1
  }

  /** The last stable session lies `SinceStable` back, or there was none. */
  lemma {:induction false} SinceStableCounts(sessions: seq<Session>, stableAfter: real, k: nat)
    requires k < |sessions|
    ensures var n := SinceStable(sessions, stableAfter, k);
            n <= k && (n < k ==> WasStable(sessions[k - n], stableAfter))
            && forall j :: k - n < j <= k ==> !WasStable(sessions[j], stableAfter)
    decreases k
  {
    if k > 0 && !WasStable(sessions[k], stableAfter) {
      SinceStableCounts(sessions, stableAfter, k - 1);
    }
  }

  lemma OneMoreFailure(sessions: seq<Session>, stableAfter: real, k: nat)
    requires k < |sessions|
    ensures SinceStable(sessions, stableAfter, k) ==
            if k == 0 || WasStable(sessions[k], stableAfter) then 0
            else SinceStable(sessions, stableAfter, k - 1) + 1
  {
  }

  datatype PublisherState = Stopped | ConnectingToBroker | BackingOff

  /** The reconnecting part of the MQTT publisher; what happens within a session is a machine of its own. */
  class MqttPublisher {
    const backoff: BackoffPolicy
    const stableAfter: real
    var state: PublisherState
    var failures: nat
    var errorCode: Option<string>
    var retryIn: Option<real>
    var connectedAt: Option<real>

    ghost predicate Valid()
      reads this, backoff
    {
      backoff.Valid() && backoff.delays == DEFAULT_DELAYS && backoff.jitter == DEFAULT_JITTER
    }

    constructor (stableAfter: real)
      ensures Valid() && fresh(backoff) && backoff.attempt == 0 && failures == 0 && state == Stopped
      ensures this.stableAfter == stableAfter
    {
      backoff := new BackoffPolicy(DEFAULT_DELAYS, DEFAULT_JITTER);
      this.stableAfter, state, failures := stableAfter, Stopped, 0;
      errorCode, retryIn, connectedAt := None, None, None;
    }

    /**
     Runs until a session returns or is cancelled, and before that waits once after every
     failure, for as long as the failures since the last stable session call for.
     */
    method Run(sessions: seq<Session>) returns (waits: seq<real>, ended: bool)
      requires Valid() && backoff.attempt == 0 && failures == 0
      requires forall k :: 0 <= k < |sessions| && sessions[k].Failed? ==> IsRandom(sessions[k].random)
      modifies this, backoff
      ensures Valid() && failures == |waits| <= |sessions|
      ensures forall k :: 0 <= k < |waits| ==> sessions[k].Failed?
      ensures ended ==> |waits| < |sessions| && !sessions[|waits|].Failed? && state == Stopped && retryIn == None
      ensures !ended ==> |waits| == |sessions|
      ensures !ended && |waits| > 0 ==>
                state == BackingOff && retryIn == Some(waits[|waits| - 1]) && errorCode == Some("mqtt_connection_failed")
      ensures forall k :: 0 <= k < |waits| ==>
                var base := Scheduled(DEFAULT_DELAYS, SinceStable(sessions, stableAfter, k));
                waits[k] == Jittered(base, 0.2, sessions[k].random) && base * 0.8 <= waits[k] <= base * 1.2
    {
      hide SinceStable, Scheduled, Jittered;
      waits := [];
      for i := 0 to |sessions|
        invariant Valid()
        invariant failures == |waits| == i
        invariant i == 0 ==> backoff.attempt == 0
        invariant i > 0 ==> backoff.attempt == SinceStable(sessions, stableAfter, i - 1) + 1
        invariant i > 0 ==> state == BackingOff && retryIn == Some(waits[i - 1])
                            && errorCode == Some("mqtt_connection_failed")
        invariant forall k :: 0 <= k < i ==> sessions[k].Failed?
        invariant forall k :: 0 <= k < i ==>
                    var base := Scheduled(DEFAULT_DELAYS, SinceStable(sessions, stableAfter, k));
                    waits[k] == Jittered(base, 0.2, sessions[k].random) && base * 0.8 <= waits[k] <= base * 1.2
      {
        connectedAt := None;
        state := ConnectingToBroker;
        var s := sessions[i];
        if !s.Failed? {
          state, retryIn := Stopped, None;
          return waits, true;
        }
        connectedAt := s.connectedAt;
        failures := failures + 1;
        errorCode := Some("mqtt_connection_failed");
        state := BackingOff;
        if connectedAt.Some? && s.failedAt - connectedAt.value >= stableAfter {
          backoff.Reset();
        }
        OneMoreFailure(sessions, stableAfter, i);
        assert backoff.attempt == SinceStable(sessions, stableAfter, i);
        var wait := backoff.NextDelay(s.random);
        retryIn := Some(wait);
        waits := waits + [wait];
      }
      ended := false;
    }
  }
}
