/**
 Ordering of what the telemetry state publishes: per device, type and probe the sequence
 numbers strictly increase until the device is removed, heartbeats are numbered without
 gaps, and the temperatures of a probe have strictly increasing observation times.
 */
module Sequences {
  import opened Basics
  import opened Events
  import opened Models
  import opened Telemetry
  import opened Agreement

  // ---------- The promises, about the log alone ----------

  predicate FromTelemetry(x: Entry) {
    x.Published? && TelemetryKind(x.event.kind) && x.event.device.Some?
  }

  /** Device `d` is not removed strictly between positions `i` and `j`. */
  ghost predicate Stays(log: seq<Entry>, i: int, j: int, d: DeviceId)
    requires -1 <= i && j <= |log|
  {
    forall m :: i < m < j ==> log[m] != Forgotten(d)
  }

  /** Two publications about the same device, type and probe with no removal between them. */
  ghost predicate SameStream(log: seq<Entry>, i: int, j: int)
    requires 0 <= i < j < |log|
  {
    && FromTelemetry(log[i]) && FromTelemetry(log[j])
    && KeyOf(log[i].event) == KeyOf(log[j].event)
    && Stays(log, i, j, log[i].event.device.value)
  }

  ghost predicate SequencesIncrease(log: seq<Entry>) {
    forall i, j :: 0 <= i < j < |log| && SameStream(log, i, j) ==>
                     log[i].event.sequence < log[j].event.sequence
  }

  ghost predicate TemperaturesAdvance(log: seq<Entry>) {
    forall i, j :: 0 <= i < j < |log| && SameStream(log, i, j) && log[i].event.kind == ProbeTemperature ==>
                     log[i].event.observedAt < log[j].event.observedAt
  }

  predicate IsHeartbeatOf(x: Entry, d: DeviceId) {
    x.Published? && KeyOf(x.event) == HeartbeatKey(d)
  }

  /** How many heartbeats of `d` the log holds since `d` was last removed. */
  function HeartbeatsSince(log: seq<Entry>, d: DeviceId): nat {
    if |log| == 0 then 0
    else
      var last := log[|log| - 1];
      var before := HeartbeatsSince(log[..|log| - 1], d);
      if last == Forgotten(d) then 0 else if IsHeartbeatOf(last, d) then before + 1 else before
  }

  /** The k-th heartbeat of a device since its last removal carries sequence number k. */
  ghost predicate HeartbeatsNumbered(log: seq<Entry>) {
    forall i, d :: 0 <= i < |log| && IsHeartbeatOf(log[i], d) ==>
                     log[i].event.sequence == HeartbeatsSince(log[..i + 1], d)
  }

  ghost predicate StreamsOrdered(log: seq<Entry>) {
    SequencesIncrease(log) && TemperaturesAdvance(log) && HeartbeatsNumbered(log)
  }

  // ---------- What ties the log to the counters ----------

  /** Nothing removed the device of entry `i` afterwards. */
  ghost predicate Open(log: seq<Entry>, i: int)
    requires 0 <= i < |log|
  {
    FromTelemetry(log[i]) && Stays(log, i, |log|, log[i].event.device.value)
  }

  ghost predicate Counted(log: seq<Entry>, sequences: map<Key, int>) {
    && (forall i :: 0 <= i < |log| && Open(log, i) ==>
          log[i].event.sequence <= LastSequence(sequences, KeyOf(log[i].event)))
    && (forall d :: LastSequence(sequences, HeartbeatKey(d)) == HeartbeatsSince(log, d))
  }

  /** Each open temperature of `d` was observed before `bound`, or at it by a probe in `numbers`. */
  ghost predicate TemperaturesUpTo(log: seq<Entry>, d: DeviceId, bound: Instant, numbers: set<int>) {
    forall i :: 0 <= i < |log| && Open(log, i) && log[i].event.kind == ProbeTemperature
                && log[i].event.device == Some(d) ==>
      || log[i].event.observedAt < bound
      || (log[i].event.observedAt == bound && log[i].event.probe.Some? && log[i].event.probe.value in numbers)
  }

  const ALL_PROBES: set<int> := {1, 2, 3, 4}

  /** Open temperatures belong to devices with a snapshot and are no newer than it. */
  ghost predicate TemperaturesCurrent(s: Tel, d: DeviceId) {
    if d in s.current
    then TemperaturesUpTo(s.log, d, s.current[d].snapshot.observedAt, ALL_PROBES)
    else forall i :: 0 <= i < |s.log| && Open(s.log, i) && s.log[i].event.kind == ProbeTemperature ==>
                       s.log[i].event.device != Some(d)
  }

  ghost predicate Ordered(s: Tel) {
    StreamsOrdered(s.log) && Counted(s.log, s.sequences)
  }

  ghost predicate StreamInv(s: Tel) {
    Ordered(s) && forall d :: TemperaturesCurrent(s, d)
  }

  // ---------- Appending to the log ----------

  lemma OpenAppend(log: seq<Entry>, x: Entry)
    ensures forall i :: 0 <= i < |log| ==>
                          (Open(log + [x], i) <==> Open(log, i) && x != Forgotten(log[i].event.device.value))
    ensures Open(log + [x], |log|) <==> FromTelemetry(x)
  {
    var r := log + [x];
    forall i | 0 <= i < |log|
      ensures Open(r, i) <==> Open(log, i) && x != Forgotten(log[i].event.device.value)
    {
      if FromTelemetry(log[i]) {
        var d := log[i].event.device.value;
        assert forall m :: 0 <= m < |log| ==> r[m] == log[m];
        assert r[|log|] == x;
        if Open(r, i) {
          assert forall m :: i < m < |log| ==> log[m] == r[m] != Forgotten(d);
        }
      }
    }
  }

  lemma SameStreamAppend(log: seq<Entry>, x: Entry, i: int, j: int)
    requires 0 <= i < j < |log|
    ensures SameStream(log + [x], i, j) <==> SameStream(log, i, j)
  {
    var r := log + [x];
    assert forall m :: 0 <= m < |log| ==> r[m] == log[m];
    if SameStream(r, i, j) {
      assert forall m :: i < m < j ==> log[m] == r[m];
    }
  }

  lemma SameStreamLast(log: seq<Entry>, x: Entry, i: int)
    requires 0 <= i < |log|
    ensures SameStream(log + [x], i, |log|) ==>
              Open(log, i) && FromTelemetry(x) && KeyOf(log[i].event) == KeyOf(x.event)
  {
    var r := log + [x];
    assert forall m :: 0 <= m < |log| ==> r[m] == log[m];
    if SameStream(r, i, |log|) {
      assert forall m :: i < m < |log| ==> log[m] == r[m];
    }
  }

  lemma HeartbeatsSinceAppend(log: seq<Entry>, x: Entry, d: DeviceId)
    ensures HeartbeatsSince(log + [x], d) ==
            if x == Forgotten(d) then 0
            else if IsHeartbeatOf(x, d) then HeartbeatsSince(log, d) + 1 else HeartbeatsSince(log, d)
  {
    assert (log + [x])[..|log|] == log;
  }

  lemma NumberedAppend(log: seq<Entry>, x: Entry)
    requires HeartbeatsNumbered(log)
    requires forall d :: IsHeartbeatOf(x, d) ==> x.event.sequence == HeartbeatsSince(log, d) + 1
    ensures HeartbeatsNumbered(log + [x])
  {
    var r := log + [x];
    forall i, d | 0 <= i < |r| && IsHeartbeatOf(r[i], d)
      ensures r[i].event.sequence == HeartbeatsSince(r[..i + 1], d)
    {
      if i < |log| {
        assert r[..i + 1] == log[..i + 1];
        assert IsHeartbeatOf(log[i], d);
      } else {
        assert r[..i + 1] == r;
        HeartbeatsSinceAppend(log, x, d);
      }
    }
  }

  lemma IncreaseAppend(log: seq<Entry>, x: Entry)
    requires SequencesIncrease(log) && TemperaturesAdvance(log)
    requires FromTelemetry(x) ==> forall i :: 0 <= i < |log| && Open(log, i) && KeyOf(log[i].event) == KeyOf(x.event) ==>
               && log[i].event.sequence < x.event.sequence
               && (x.event.kind == ProbeTemperature ==> log[i].event.observedAt < x.event.observedAt)
    ensures SequencesIncrease(log + [x]) && TemperaturesAdvance(log + [x])
  {
    var r := log + [x];
    forall i, j | 0 <= i < j < |r| && SameStream(r, i, j)
      ensures r[i].event.sequence < r[j].event.sequence
      ensures r[i].event.kind == ProbeTemperature ==> r[i].event.observedAt < r[j].event.observedAt
    {
      if j < |log| {
        SameStreamAppend(log, x, i, j);
        assert SameStream(log, i, j);
      } else {
        SameStreamLast(log, x, i);
      }
    }
  }

  /** Publishing one numbered event keeps order and counters in step. */
  lemma EmitOrdered(s: Tel, d: DeviceId, draft: Draft)
    requires Ordered(s) && TelemetryKind(draft.kind)
    requires draft.kind == ThermometerHeartbeat && draft.probe == None ==>
               draft.observed == LastSequence(s.sequences, HeartbeatKey(d)) + 1
    requires draft.kind == ProbeTemperature ==>
               forall i :: 0 <= i < |s.log| && Open(s.log, i) && KeyOf(s.log[i].event) == KeyFor(d, draft) ==>
                             s.log[i].event.observedAt < draft.observedAt
    ensures Ordered(Emit(s, d, draft))
  {
    var key := KeyFor(d, draft);
    var n := NextSequence(s.sequences, key, draft.observed);
    var e := EventFor(d, draft, n);
    var x := Published(e);
    var r := Emit(s, d, draft);
    IncreaseAppend(s.log, x);
    NumberedAppend(s.log, x);
    OpenAppend(s.log, x);
    forall i | 0 <= i < |r.log| && Open(r.log, i)
      ensures r.log[i].event.sequence <= LastSequence(r.sequences, KeyOf(r.log[i].event))
    {
    }
    forall y
      ensures LastSequence(r.sequences, HeartbeatKey(y)) == HeartbeatsSince(r.log, y)
    {
      HeartbeatsSinceAppend(s.log, x, y);
    }
  }

  /** Publishing anything but a temperature leaves the open temperatures as they were. */
  lemma TemperaturesAppend(log: seq<Entry>, x: Entry, d: DeviceId, bound: Instant, numbers: set<int>)
    requires TemperaturesUpTo(log, d, bound, numbers)
    requires FromTelemetry(x) && x.event.kind == ProbeTemperature && x.event.device == Some(d) ==>
               x.event.observedAt == bound && x.event.probe.Some? && x.event.probe.value in numbers
    ensures TemperaturesUpTo(log + [x], d, bound, numbers)
  {
    OpenAppend(log, x);
    var r := log + [x];
    forall i | 0 <= i < |r| && Open(r, i) && r[i].event.kind == ProbeTemperature && r[i].event.device == Some(d)
      ensures || r[i].event.observedAt < bound
              || (r[i].event.observedAt == bound && r[i].event.probe.Some? && r[i].event.probe.value in numbers)
    {
      if i < |log| {
        assert Open(log, i);
      }
    }
  }

  /** Appending an entry that is no temperature of `d` keeps the open temperatures of `d` current. */
  lemma CurrentTemperaturesAppend(s: Tel, r: Tel, x: Entry, d: DeviceId)
    requires TemperaturesCurrent(s, d) && r.log == s.log + [x]
    requires CurrentSnapshot(s, d) == CurrentSnapshot(r, d)
    requires FromTelemetry(x) && x.event.device == Some(d) ==> x.event.kind != ProbeTemperature
    ensures TemperaturesCurrent(r, d)
  {
    if d in s.current {
      TemperaturesAppend(s.log, x, d, s.current[d].snapshot.observedAt, ALL_PROBES);
    } else {
      OpenAppend(s.log, x);
    }
  }

  function CurrentSnapshot(s: Tel, d: DeviceId): Option<Snapshot> {
    if d in s.current then Some(s.current[d].snapshot) else None
  }

  /** A state change that publishes nothing and keeps every snapshot. */
  lemma SilentChange(s: Tel, r: Tel)
    requires StreamInv(s) && r.log == s.log && r.sequences == s.sequences
    requires forall d :: CurrentSnapshot(s, d) == CurrentSnapshot(r, d)
    ensures StreamInv(r)
  {
    forall d
      ensures TemperaturesCurrent(r, d)
    {
      assert TemperaturesCurrent(s, d);
      assert CurrentSnapshot(s, d) == CurrentSnapshot(r, d);
    }
  }

  predicate Plain(draft: Draft) {
    TelemetryKind(draft.kind) && draft.kind != ThermometerHeartbeat && draft.kind != ProbeTemperature
  }

  lemma EmitPlain(s: Tel, d: DeviceId, draft: Draft)
    requires StreamInv(s) && Plain(draft)
    ensures StreamInv(Emit(s, d, draft))
  {
    var r := Emit(s, d, draft);
    EmitOrdered(s, d, draft);
    var x := r.log[|s.log|];
    forall y
      ensures TemperaturesCurrent(r, y)
    {
      assert TemperaturesCurrent(s, y);
      CurrentTemperaturesAppend(s, r, x, y);
    }
  }

  lemma {:induction false} EmitAllPlain(s: Tel, d: DeviceId, drafts: seq<Draft>)
    requires StreamInv(s) && forall i :: 0 <= i < |drafts| ==> Plain(drafts[i])
    ensures StreamInv(EmitAll(s, d, drafts))
  {
    if |drafts| > 0 {
      var front := drafts[..|drafts| - 1];
      EmitAllPlain(s, d, front);
      assert Plain(drafts[|drafts| - 1]);
      EmitPlain(EmitAll(s, d, front), d, drafts[|drafts| - 1]);
    }
  }

  // ---------- Recording ----------

  function Numbers(snap: Snapshot, n: nat): set<int>
    requires n <= |snap.probes|
  {
    set i | 0 <= i < n :: snap.probes[i].number
  }

  /** While the probes of a new snapshot are published: those before `n` are done. */
  ghost predicate Midway(s: Tel, d: DeviceId, snap: Snapshot, n: nat)
    requires n <= |snap.probes|
  {
    && Ordered(s)
    && d in s.current && s.current[d].snapshot == snap
    && TemperaturesUpTo(s.log, d, snap.observedAt, Numbers(snap, n))
    && forall y :: y != d ==> TemperaturesCurrent(s, y)
  }

  lemma MidwayPlain(s: Tel, d: DeviceId, snap: Snapshot, n: nat, draft: Draft)
    requires n <= |snap.probes| && Midway(s, d, snap, n) && Plain(draft)
    ensures Midway(Emit(s, d, draft), d, snap, n)
  {
    var r := Emit(s, d, draft);
    EmitOrdered(s, d, draft);
    var x := r.log[|s.log|];
    TemperaturesAppend(s.log, x, d, snap.observedAt, Numbers(snap, n));
    forall y | y != d
      ensures TemperaturesCurrent(r, y)
    {
      CurrentTemperaturesAppend(s, r, x, y);
    }
  }

  lemma MidwayTemperature(s: Tel, d: DeviceId, snap: Snapshot, n: nat, draft: Draft)
    requires n < |snap.probes| && UniqueNumbers(snap.probes) && Midway(s, d, snap, n)
    requires draft.kind == ProbeTemperature && draft.probe == Some(snap.probes[n].number)
    requires draft.observedAt == snap.observedAt
    ensures Midway(Emit(s, d, draft), d, snap, n + 1)
  {
    var r := Emit(s, d, draft);
    EmitOrdered(s, d, draft);
    var x := r.log[|s.log|];
    TemperaturesWiden(s.log, d, snap, n);
    TemperaturesAppend(s.log, x, d, snap.observedAt, Numbers(snap, n + 1));
    forall y | y != d
      ensures TemperaturesCurrent(r, y)
    {
      CurrentTemperaturesAppend(s, r, x, y);
    }
  }

  lemma TemperaturesWiden(log: seq<Entry>, d: DeviceId, snap: Snapshot, n: nat)
    requires n < |snap.probes| && TemperaturesUpTo(log, d, snap.observedAt, Numbers(snap, n))
    ensures TemperaturesUpTo(log, d, snap.observedAt, Numbers(snap, n + 1))
    ensures snap.probes[n].number in Numbers(snap, n + 1)
  {
    assert Numbers(snap, n) <= Numbers(snap, n + 1);
  }

  lemma OneProbeOrdered(s: Tel, d: DeviceId, snap: Snapshot, i: nat)
    requires i < |snap.probes| && UniqueNumbers(snap.probes) && Midway(s, d, snap, i)
    ensures Midway(EmitAll(s, d, OneProbe(snap, i)), d, snap, i + 1)
  {
    var first := ProbeDraft(snap, i);
    var t := Emit(s, d, first);
    MidwayPlain(s, d, snap, i, first);
    EmitOneMore(s, d, [], first);
    assert [] + [first] == [first];
    if HasTemperature(snap.probes[i]) {
      MidwayTemperature(t, d, snap, i, TemperatureDraft(snap, i));
      EmitOneMore(s, d, [first], TemperatureDraft(snap, i));
      assert [first] + [TemperatureDraft(snap, i)] == OneProbe(snap, i);
    } else {
      TemperaturesWiden(t.log, d, snap, i);
    }
  }

  lemma {:induction false} ProbeDraftsOrdered(s: Tel, d: DeviceId, snap: Snapshot, n: nat)
    requires n <= |snap.probes| && UniqueNumbers(snap.probes) && Midway(s, d, snap, 0)
    ensures Midway(EmitAll(s, d, ProbeDrafts(snap, n)), d, snap, n)
  {
    hide Midway, OneProbe;
    if n > 0 {
      ProbeDraftsOrdered(s, d, snap, n - 1);
      var front := ProbeDrafts(snap, n - 1);
      OneProbeOrdered(EmitAll(s, d, front), d, snap, n - 1);
      EmitAllConcat(s, d, front, OneProbe(snap, n - 1));
    }
  }

  lemma {:induction false} MidwayAllPlain(s: Tel, d: DeviceId, snap: Snapshot, drafts: seq<Draft>)
    requires Midway(s, d, snap, 0) && forall i :: 0 <= i < |drafts| ==> Plain(drafts[i])
    ensures Midway(EmitAll(s, d, drafts), d, snap, 0)
  {
    if |drafts| > 0 {
      var front := drafts[..|drafts| - 1];
      MidwayAllPlain(s, d, snap, front);
      assert Plain(drafts[|drafts| - 1]);
      MidwayPlain(EmitAll(s, d, front), d, snap, 0, drafts[|drafts| - 1]);
    }
  }

  lemma InstallMidway(s: Tel, d: DeviceId, snap: Snapshot)
    requires StreamInv(s) && IsNewer(s, d, snap)
    ensures Midway(Install(s, d, snap), d, snap, 0)
  {
    var r := Install(s, d, snap);
    assert TemperaturesCurrent(s, d);
    forall y | y != d
      ensures TemperaturesCurrent(r, y)
    {
      assert TemperaturesCurrent(s, y);
    }
  }

  lemma MidwayEnds(s: Tel, d: DeviceId, snap: Snapshot)
    requires ValidSnapshot(snap) && Midway(s, d, snap, |snap.probes|)
    ensures StreamInv(s)
  {
    assert Numbers(snap, |snap.probes|) <= ALL_PROBES by {
      forall i | 0 <= i < |snap.probes|
        ensures snap.probes[i].number in ALL_PROBES
      {
        assert ValidProbe(snap.probes[i]);
      }
    }
    forall y
      ensures TemperaturesCurrent(s, y)
    {
    }
  }

  lemma RecordNewerOrdered(s: Tel, d: DeviceId, previous: Option<Current>, snap: Snapshot)
    requires StreamInv(s) && IsNewer(s, d, snap) && ValidSnapshot(snap)
    ensures StreamInv(EmitAll(Install(s, d, snap), d, RecordDrafts(previous, snap)))
  {
    var t := Install(s, d, snap);
    InstallMidway(s, d, snap);
    var heads := [AvailabilityDraft(snap), PollingDraft(snap)]
                 + (if BatteryIsNews(previous, snap) then [BatteryDraft(snap)] else []);
    var probes := ProbeDrafts(snap, |snap.probes|);
    MidwayAllPlain(t, d, snap, heads);
    var u := EmitAll(t, d, heads);
    ProbeDraftsOrdered(u, d, snap, |snap.probes|);
    EmitAllConcat(t, d, heads, probes);
    assert RecordDrafts(previous, snap) == heads + probes;
    MidwayEnds(EmitAll(u, d, probes), d, snap);
  }

  // ---------- Every operation keeps the streams ordered ----------

  lemma {:induction false} StaleProbeDraftsPlain(snap: Snapshot, n: nat, now: Instant, reason: string)
    requires n <= |snap.probes|
    ensures forall i :: 0 <= i < |StaleProbeDrafts(snap, n, now, reason)| ==>
                          Plain(StaleProbeDrafts(snap, n, now, reason)[i])
  {
    if n > 0 {
      StaleProbeDraftsPlain(snap, n - 1, now, reason);
    }
  }

  lemma MarkOneOrdered(s: Tel, d: DeviceId, now: Instant, reason: string)
    requires StreamInv(s) && d in s.current
    ensures StreamInv(MarkOne(s, d, now, reason))
  {
    var c := s.current[d];
    var t := s.(current := s.current[d := c.(stale := true)]);
    SilentChange(s, t);
    StaleProbeDraftsPlain(c.snapshot, |c.snapshot.probes|, now, reason);
    EmitAllPlain(t, d, StaleDrafts(c.snapshot, now, reason));
  }

  lemma {:induction false} SweepOrdered(s: Tel, todo: seq<DeviceId>, now: Instant, force: Option<DeviceId>,
                                        reason: string)
    requires StreamInv(s)
    ensures StreamInv(Sweep(s, todo, now, force, reason))
    decreases |todo|
  {
    if |todo| > 0 {
      if Overdue(s, todo[0], now, force) {
        MarkOneOrdered(s, todo[0], now, reason);
      }
      SweepOrdered(MarkIfOverdue(s, todo[0], now, force, reason), todo[1..], now, force, reason);
    }
  }

  lemma ConnectionOrdered(s: Tel, d: DeviceId, state: string, now: Instant)
    requires StreamInv(s)
    ensures StreamInv(Connection(s, d, state, now))
  {
    if d in s.current {
      var snap := s.current[d].snapshot;
      EmitPlain(s, d, ConnectionDraft(snap, state, now));
      if state == "disconnected" {
        var r := Emit(s, d, ConnectionDraft(snap, state, now));
        SweepOrdered(r, r.order, now, Some(d), "disconnected");
        EmitPlain(MarkStale(r, now, Some(d), "disconnected"), d, UnavailableDraft(snap, now, "disconnected"));
      }
    }
  }

  lemma PublishHeartbeatOrdered(s: Tel, d: DeviceId, at: Instant)
    requires StreamInv(s) && d in s.heartbeats
    requires s.heartbeats[d].sequence == LastSequence(s.sequences, HeartbeatKey(d))
    ensures StreamInv(PublishHeartbeat(s, d, at))
  {
    var draft := HeartbeatDraft(s, s.heartbeats[d], at);
    var r := Emit(s, d, draft);
    EmitOrdered(s, d, draft);
    forall y
      ensures TemperaturesCurrent(r, y)
    {
      assert TemperaturesCurrent(s, y);
      CurrentTemperaturesAppend(s, r, r.log[|s.log|], y);
    }
    SilentChange(r, PublishHeartbeat(s, d, at));
  }

  lemma AnnouncedSuccessOrdered(s: Tel, d: DeviceId, at: Instant, source: Source)
    requires StreamInv(s) && d in s.heartbeats
    requires s.heartbeats[d].sequence == LastSequence(s.sequences, HeartbeatKey(d))
    ensures StreamInv(StartHeartbeatTask(PublishHeartbeat(Succeed(s, d, at, source), d, at), d, at))
  {
    var quiet := Succeed(s, d, at, source);
    SilentChange(s, quiet);
    PublishHeartbeatOrdered(quiet, d, at);
    var told := PublishHeartbeat(quiet, d, at);
    SilentChange(told, StartHeartbeatTask(told, d, at));
  }

  lemma CommunicationOrdered(s: Tel, d: DeviceId, at: Instant, source: Source)
    requires StreamInv(s) && HeartbeatAgrees(s, d)
    ensures StreamInv(CommunicationSucceeded(s, d, at, source))
  {
    hide Ordered, TemperaturesCurrent, StreamInv, PublishHeartbeat;
    var r := EnsureHeartbeat(s, d, source);
    SilentChange(s, r);
    if NewsForHeartbeat(r.heartbeats[d], at) {
      AnnouncedSuccessOrdered(r, d, at, source);
    }
  }

  lemma RecordOrdered(s: Tel, d: DeviceId, snap: Snapshot, now: Instant)
    requires StreamInv(s) && HeartbeatAgrees(s, d) && ValidSnapshot(snap)
    ensures StreamInv(Record(s, d, snap, now))
  {
    if IsNewer(s, d, snap) {
      if snap.communicatedAt.Some? {
        CommunicationOrdered(s, d, snap.communicatedAt.value, snap.source);
      }
      RecordNewerOrdered(NoteCommunication(s, d, snap), d, CurrentOf(s, d), snap);
    } else {
      SweepOrdered(s, s.order, now, None, "stale");
    }
  }

  lemma RegisterOrdered(s: Tel, d: DeviceId, source: Source, now: Instant)
    requires StreamInv(s) && HeartbeatAgrees(s, d)
    ensures StreamInv(RegisterHeartbeat(s, d, source, now))
  {
    hide Ordered, TemperaturesCurrent, StreamInv, PublishHeartbeat;
    var r := EnsureHeartbeat(s, d, source);
    SilentChange(s, r);
    if r.heartbeats[d].sequence == 0 {
      PublishHeartbeatOrdered(r, d, now);
    }
  }

  lemma HeartbeatDisconnectedOrdered(s: Tel, d: DeviceId, now: Instant)
    requires StreamInv(s) && HeartbeatAgrees(s, d)
    ensures StreamInv(HeartbeatDisconnected(s, d, now))
  {
    if d in s.heartbeats {
      var r := StopHeartbeatTask(s, d);
      SilentChange(s, r);
      if s.heartbeats[d].status != Disconnected {
        var t := SetStatus(r, d, Disconnected);
        SilentChange(r, t);
        PublishHeartbeatOrdered(t, d, now);
      }
    }
  }

  lemma HeartbeatExpectedOrdered(s: Tel, d: DeviceId, now: Instant)
    requires StreamInv(s) && HeartbeatAgrees(s, d)
    ensures StreamInv(HeartbeatExpected(s, d, now))
  {
    if d in s.heartbeats && s.heartbeats[d].status == Disconnected {
      var t := SetStatus(s, d, RestoredStatus(s.heartbeats[d]));
      SilentChange(s, t);
      PublishHeartbeatOrdered(t, d, now);
    }
  }

  lemma FireOrdered(s: Tel, task: nat, now: Instant)
    requires StreamInv(s) && task in s.timers && HeartbeatAgrees(s, s.timers[task].device)
    ensures StreamInv(Fire(s, task, now))
  {
    var t := s.timers[task];
    var r := Finish(s, task);
    SilentChange(s, r);
    match t.goal {
      case SnapshotDeadline =>
        SweepOrdered(r, r.order, now, None, "stale");
      case HeartbeatDeadline(at) =>
        if StillNewest(s, t.device, at) {
          var u := SetStatus(r, t.device, Stale);
          SilentChange(r, u);
          PublishHeartbeatOrdered(u, t.device, now);
        }
    }
  }

  /** Removing a device closes its streams: its counters start again from nothing. */
  lemma DropOrdered(s: Tel, d: DeviceId)
    requires StreamInv(s)
    ensures StreamInv(Drop(s, d))
  {
    var r := Drop(s, d);
    var x := Forgotten(d);
    IncreaseAppend(s.log, x);
    NumberedAppend(s.log, x);
    OpenAppend(s.log, x);
    forall i | 0 <= i < |r.log| && Open(r.log, i)
      ensures r.log[i].event.sequence <= LastSequence(r.sequences, KeyOf(r.log[i].event))
    {
      assert Open(s.log, i);
    }
    forall y
      ensures LastSequence(r.sequences, HeartbeatKey(y)) == HeartbeatsSince(r.log, y)
    {
      HeartbeatsSinceAppend(s.log, x, y);
    }
    forall y
      ensures TemperaturesCurrent(r, y)
    {
      assert TemperaturesCurrent(s, y);
      if y != d {
        CurrentTemperaturesAppend(s, r, x, y);
      }
    }
  }

  lemma OtherOrdered(s: Tel, e: Event)
    requires StreamInv(s) && !TelemetryKind(e.kind)
    ensures StreamInv(PublishOther(s, e))
  {
    var r := PublishOther(s, e);
    var x := Published(e);
    IncreaseAppend(s.log, x);
    NumberedAppend(s.log, x);
    OpenAppend(s.log, x);
    forall i | 0 <= i < |r.log| && Open(r.log, i)
      ensures r.log[i].event.sequence <= LastSequence(r.sequences, KeyOf(r.log[i].event))
    {
      assert Open(s.log, i);
    }
    forall y
      ensures LastSequence(r.sequences, HeartbeatKey(y)) == HeartbeatsSince(r.log, y)
    {
      HeartbeatsSinceAppend(s.log, x, y);
    }
    forall y
      ensures TemperaturesCurrent(r, y)
    {
      assert TemperaturesCurrent(s, y);
      CurrentTemperaturesAppend(s, r, x, y);
    }
  }
}
