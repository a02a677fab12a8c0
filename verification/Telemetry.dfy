/**
 The telemetry state as a value, with one function per operation of the source. The class
 in TelemetryState.dfy performs the same operations in place and is proved to follow
 these functions; the theorems about them are in the Agreement, Freshness and Sequences
 modules.
 */
module Telemetry {
  import opened Basics
  import opened Events
  import opened Models

  /** `timer` names the deadline task that was created for this very snapshot object. */
  datatype Current = Current(snapshot: Snapshot, stale: bool, timer: nat)

  datatype Heartbeat = Heartbeat(
    adapterSource: Source,
    status: HeartbeatStatus,
    lastSuccess: Option<Instant>,
    successfulSource: Option<Source>,
    sequence: int)

  datatype Goal = SnapshotDeadline | HeartbeatDeadline(successAt: Instant)

  /** A deadline task. A cancelled one stays in the pool and may still run late. */
  datatype Timer = Timer(device: DeviceId, goal: Goal, due: Instant, live: bool)

  datatype Tel = Tel(
    staleAfter: int,
    heartbeatAfter: int,
    order: seq<DeviceId>,
    current: map<DeviceId, Current>,
    heartbeats: map<DeviceId, Heartbeat>,
    sequences: map<Key, int>,
    staleTasks: map<DeviceId, nat>,
    heartbeatTasks: map<DeviceId, nat>,
    timers: map<nat, Timer>,
    nextTimer: nat,
    latest: map<Key, Event>,
    log: seq<Entry>)

  function Init(staleAfter: int, heartbeatAfter: int): Tel {
    Tel(staleAfter, heartbeatAfter, [], map[], map[], map[], map[], map[], map[], 0, map[], [])
  }

  // ---------- Publishing ----------

  /** An event before it has its sequence number; `observed` is the number it asks for. */
  datatype Draft = Draft(
    kind: EventType,
    probe: Option<int>,
    observed: int,
    observedAt: Instant,
    source: Source,
    data: Payload)

  function KeyFor(d: DeviceId, draft: Draft): Key {
    Key(Some(d), draft.kind, draft.probe)
  }

  function LastSequence(sequences: map<Key, int>, key: Key): int {
    if key in sequences then sequences[key] else 0
  }

  function NextSequence(sequences: map<Key, int>, key: Key, observed: int): int {
    Max(observed, LastSequence(sequences, key) + 1)
  }

  function EventFor(d: DeviceId, draft: Draft, sequence: int): Event {
    Event(draft.kind, draft.observedAt, sequence, draft.source, Some(d), draft.probe, draft.data)
  }

  /** Number one event about device `d` and publish it. */
  function Emit(s: Tel, d: DeviceId, draft: Draft): Tel {
    var key := KeyFor(d, draft);
    var n := NextSequence(s.sequences, key, draft.observed);
    var e := EventFor(d, draft, n);
    s.(sequences := s.sequences[key := n], latest := Remember(s.latest, e), log := s.log + [Published(e)])
  }

  function EmitAll(s: Tel, d: DeviceId, drafts: seq<Draft>): (r: Tel)
    ensures r == s.(sequences := r.sequences, latest := r.latest, log := r.log)
  {
    if |drafts| == 0 then s
    else Emit(EmitAll(s, d, drafts[..|drafts| - 1]), d, drafts[|drafts| - 1])
  }

  lemma {:induction false} EmitAllConcat(s: Tel, d: DeviceId, a: seq<Draft>, b: seq<Draft>)
    ensures EmitAll(s, d, a + b) == EmitAll(EmitAll(s, d, a), d, b)
  {
    if |b| == 0 {
      assert a + b == a;
    } else {
      assert (a + b)[..|a + b| - 1] == a + b[..|b| - 1];
      EmitAllConcat(s, d, a, b[..|b| - 1]);
    }
  }

  lemma EmitOneMore(s: Tel, d: DeviceId, drafts: seq<Draft>, draft: Draft)
    ensures EmitAll(s, d, drafts + [draft]) == Emit(EmitAll(s, d, drafts), d, draft)
  {
    assert (drafts + [draft])[..|drafts|] == drafts;
  }

  // ---------- What each operation publishes ----------

  function ProbeDraft(snap: Snapshot, i: nat): Draft
    requires i < |snap.probes|
  {
    var p := snap.probes[i];
    Draft(ProbeAvailability, Some(p.number), p.sequence, snap.observedAt, snap.source,
          ProbeData(p.available, p.present, ""))
  }

  predicate HasTemperature(p: ProbeReading) {
    p.available && p.present && p.temperature.Some?
  }

  function TemperatureDraft(snap: Snapshot, i: nat): Draft
    requires i < |snap.probes| && snap.probes[i].temperature.Some?
  {
    var p := snap.probes[i];
    Draft(ProbeTemperature, Some(p.number), p.sequence, snap.observedAt, snap.source,
          TemperatureData(p.temperature.value))
  }

  /** The availability of one probe, and its temperature when it has one. */
  function OneProbe(snap: Snapshot, i: nat): seq<Draft>
    requires i < |snap.probes|
  {
    if HasTemperature(snap.probes[i]) then [ProbeDraft(snap, i), TemperatureDraft(snap, i)]
    else [ProbeDraft(snap, i)]
  }

  function ProbeDrafts(snap: Snapshot, n: nat): seq<Draft>
    requires n <= |snap.probes|
  {
    if n == 0 then [] else ProbeDrafts(snap, n - 1) + OneProbe(snap, n - 1)
  }

  function AvailabilityDraft(snap: Snapshot): Draft {
    Draft(DeviceAvailability, None, snap.sequence, snap.observedAt, snap.source,
          Available(AnyAvailable(snap.probes), ""))
  }

  function PollingDraft(snap: Snapshot): Draft {
    Draft(DeviceConnection, None, snap.sequence, snap.observedAt, snap.source, ConnectionData("polling"))
  }

  function BatteryDraft(snap: Snapshot): Draft {
    Draft(Battery, None, snap.sequence, BatteryTime(snap), snap.source,
          BatteryData(snap.batteryAvailable, snap.batteryPercent, ""))
  }

  /** A cached battery reading is published again only when its time or freshness changed. */
  predicate BatteryIsNews(previous: Option<Current>, snap: Snapshot) {
    previous.None? || previous.value.stale || BatteryTime(snap) != BatteryTime(previous.value.snapshot)
  }

  function RecordDrafts(previous: Option<Current>, snap: Snapshot): seq<Draft> {
    [AvailabilityDraft(snap), PollingDraft(snap)]
    + (if BatteryIsNews(previous, snap) then [BatteryDraft(snap)] else [])
    + ProbeDrafts(snap, |snap.probes|)
  }

  function StaleProbeDraft(snap: Snapshot, i: nat, now: Instant, reason: string): Draft
    requires i < |snap.probes|
  {
    var p := snap.probes[i];
    Draft(ProbeAvailability, Some(p.number), p.sequence, now, snap.source, ProbeData(false, p.present, reason))
  }

  function StaleProbeDrafts(snap: Snapshot, n: nat, now: Instant, reason: string): seq<Draft>
    requires n <= |snap.probes|
  {
    if n == 0 then []
    else StaleProbeDrafts(snap, n - 1, now, reason) + [StaleProbeDraft(snap, n - 1, now, reason)]
  }

  function UnavailableDraft(snap: Snapshot, now: Instant, reason: string): Draft {
    Draft(DeviceAvailability, None, snap.sequence, now, snap.source, Available(false, reason))
  }

  function NoBatteryDraft(snap: Snapshot, now: Instant, reason: string): Draft {
    Draft(Battery, None, snap.sequence, now, snap.source, BatteryData(false, None, reason))
  }

  function StaleDrafts(snap: Snapshot, now: Instant, reason: string): seq<Draft> {
    [UnavailableDraft(snap, now, reason), NoBatteryDraft(snap, now, reason)]
    + StaleProbeDrafts(snap, |snap.probes|, now, reason)
  }

  function ConnectionDraft(snap: Snapshot, state: string, now: Instant): Draft {
    Draft(DeviceConnection, None, snap.sequence, now, snap.source, ConnectionData(state))
  }

  // ---------- Deadline tasks ----------

  /** Cancelling a finished task does nothing. */
  function Cancel(timers: map<nat, Timer>, task: nat): map<nat, Timer> {
    if task in timers then timers[task := timers[task].(live := false)] else timers
  }

  function CancelOf(timers: map<nat, Timer>, tasks: map<DeviceId, nat>, d: DeviceId): map<nat, Timer> {
    if d in tasks then Cancel(timers, tasks[d]) else timers
  }

  // ---------- Operations ----------

  /** Device `d` is to be marked stale now: it is forced, or its snapshot is past its deadline. */
  predicate Overdue(s: Tel, d: DeviceId, now: Instant, force: Option<DeviceId>) {
    && d in s.current
    && !s.current[d].stale
    && (force == Some(d) || now - s.current[d].snapshot.observedAt >= s.staleAfter)
  }

  function MarkOne(s: Tel, d: DeviceId, now: Instant, reason: string): (r: Tel)
    requires d in s.current
    ensures r == s.(current := r.current, sequences := r.sequences, latest := r.latest, log := r.log)
  {
    var c := s.current[d];
    EmitAll(s.(current := s.current[d := c.(stale := true)]), d, StaleDrafts(c.snapshot, now, reason))
  }

  function MarkIfOverdue(s: Tel, d: DeviceId, now: Instant, force: Option<DeviceId>, reason: string): (r: Tel)
    ensures r == s.(current := r.current, sequences := r.sequences, latest := r.latest, log := r.log)
  {
    if Overdue(s, d, now, force) then MarkOne(s, d, now, reason) else s
  }

  function Sweep(s: Tel, todo: seq<DeviceId>, now: Instant, force: Option<DeviceId>, reason: string): (r: Tel)
    ensures r == s.(current := r.current, sequences := r.sequences, latest := r.latest, log := r.log)
    decreases |todo|
  {
    if |todo| == 0 then s
    else Sweep(MarkIfOverdue(s, todo[0], now, force, reason), todo[1..], now, force, reason)
  }

  function MarkStale(s: Tel, now: Instant, force: Option<DeviceId>, reason: string): (r: Tel)
    ensures r == s.(current := r.current, sequences := r.sequences, latest := r.latest, log := r.log)
  {
    Sweep(s, s.order, now, force, reason)
  }

  function EnsureHeartbeat(s: Tel, d: DeviceId, source: Source): Tel {
    if d in s.heartbeats then s
    else s.(heartbeats := s.heartbeats[d := Heartbeat(source, Unknown, None, None, 0)])
  }

  function DataOf(s: Tel, hb: Heartbeat): Payload {
    HeartbeatData(hb.status, hb.lastSuccess, hb.status == Healthy, s.heartbeatAfter)
  }

  function HeartbeatKey(d: DeviceId): Key {
    Key(Some(d), ThermometerHeartbeat, None)
  }

  function HeartbeatDraft(s: Tel, hb: Heartbeat, at: Instant): Draft {
    Draft(ThermometerHeartbeat, None, hb.sequence + 1, at, hb.adapterSource, DataOf(s, hb))
  }

  function PublishHeartbeat(s: Tel, d: DeviceId, at: Instant): (r: Tel)
    requires d in s.heartbeats
    ensures r == s.(heartbeats := r.heartbeats, sequences := r.sequences, latest := r.latest, log := r.log)
  {
    var hb := s.heartbeats[d];
    var r := Emit(s, d, HeartbeatDraft(s, hb, at));
    r.(heartbeats := s.heartbeats[d := hb.(sequence := r.sequences[HeartbeatKey(d)])])
  }

  function RegisterHeartbeat(s: Tel, d: DeviceId, source: Source, now: Instant): Tel {
    var r := EnsureHeartbeat(s, d, source);
    if r.heartbeats[d].sequence == 0 then PublishHeartbeat(r, d, now) else r
  }

  predicate NewsForHeartbeat(hb: Heartbeat, at: Instant) {
    hb.lastSuccess.None? || at > hb.lastSuccess.value
  }

  /** The heartbeat becomes healthy and its previous deadline task is cancelled. */
  function Succeed(s: Tel, d: DeviceId, at: Instant, source: Source): Tel
    requires d in s.heartbeats
  {
    var hb := s.heartbeats[d].(status := Healthy, lastSuccess := Some(at), successfulSource := Some(source));
    s.(heartbeats := s.heartbeats[d := hb],
       timers := CancelOf(s.timers, s.heartbeatTasks, d),
       heartbeatTasks := s.heartbeatTasks - {d})
  }

  function StartHeartbeatTask(s: Tel, d: DeviceId, at: Instant): Tel {
    s.(heartbeatTasks := s.heartbeatTasks[d := s.nextTimer],
       timers := s.timers[s.nextTimer := Timer(d, HeartbeatDeadline(at), at + s.heartbeatAfter, true)],
       nextTimer := s.nextTimer + 1)
  }

  function CommunicationSucceeded(s: Tel, d: DeviceId, at: Instant, source: Source): (r: Tel)
    ensures r.current == s.current && r.order == s.order && r.staleTasks == s.staleTasks
    ensures r.staleAfter == s.staleAfter && r.heartbeatAfter == s.heartbeatAfter
  {
    var r := EnsureHeartbeat(s, d, source);
    if !NewsForHeartbeat(r.heartbeats[d], at) then r
    else StartHeartbeatTask(PublishHeartbeat(Succeed(r, d, at, source), d, at), d, at)
  }

  /** The deadline task of the heartbeat is cancelled, if there is one. */
  function StopHeartbeatTask(s: Tel, d: DeviceId): Tel {
    s.(timers := CancelOf(s.timers, s.heartbeatTasks, d), heartbeatTasks := s.heartbeatTasks - {d})
  }

  function SetStatus(s: Tel, d: DeviceId, status: HeartbeatStatus): Tel
    requires d in s.heartbeats
  {
    s.(heartbeats := s.heartbeats[d := s.heartbeats[d].(status := status)])
  }

  function HeartbeatDisconnected(s: Tel, d: DeviceId, now: Instant): Tel {
    if d !in s.heartbeats then s
    else
      var r := StopHeartbeatTask(s, d);
      if s.heartbeats[d].status == Disconnected then r
      else PublishHeartbeat(SetStatus(r, d, Disconnected), d, now)
  }

  function RestoredStatus(hb: Heartbeat): HeartbeatStatus {
    if hb.lastSuccess.None? then Unknown else Stale
  }

  function HeartbeatExpected(s: Tel, d: DeviceId, now: Instant): Tel {
    if d !in s.heartbeats || s.heartbeats[d].status != Disconnected then s
    else PublishHeartbeat(SetStatus(s, d, RestoredStatus(s.heartbeats[d])), d, now)
  }

  function CurrentOf(s: Tel, d: DeviceId): Option<Current> {
    if d in s.current then Some(s.current[d]) else None
  }

  /** Only a snapshot newer than the current one of the device is recorded. */
  predicate IsNewer(s: Tel, d: DeviceId, snap: Snapshot) {
    d in s.current ==> snap.observedAt > s.current[d].snapshot.observedAt
  }

  /** Make `snap` current and replace the deadline task of the device. */
  function Install(s: Tel, d: DeviceId, snap: Snapshot): Tel {
    s.(order := if d in s.current then s.order else s.order + [d],
       current := s.current[d := Current(snap, false, s.nextTimer)],
       timers := CancelOf(s.timers, s.staleTasks, d)
                   [s.nextTimer := Timer(d, SnapshotDeadline, snap.observedAt + s.staleAfter, true)],
       staleTasks := s.staleTasks[d := s.nextTimer],
       nextTimer := s.nextTimer + 1)
  }

  function NoteCommunication(s: Tel, d: DeviceId, snap: Snapshot): (r: Tel)
    ensures r.current == s.current && r.order == s.order && r.staleTasks == s.staleTasks
    ensures r.staleAfter == s.staleAfter && r.heartbeatAfter == s.heartbeatAfter
  {
    match snap.communicatedAt
    case Some(at) => CommunicationSucceeded(s, d, at, snap.source)
    case None => s
  }

  function Record(s: Tel, d: DeviceId, snap: Snapshot, now: Instant): Tel {
    if !IsNewer(s, d, snap) then MarkStale(s, now, None, "stale")
    else EmitAll(Install(NoteCommunication(s, d, snap), d, snap), d, RecordDrafts(CurrentOf(s, d), snap))
  }

  function Connection(s: Tel, d: DeviceId, state: string, now: Instant): (r: Tel)
    ensures r == s.(current := r.current, sequences := r.sequences, latest := r.latest, log := r.log)
  {
    if d !in s.current then s
    else
      var snap := s.current[d].snapshot;
      var r := Emit(s, d, ConnectionDraft(snap, state, now));
      if state != "disconnected" then r
      else Emit(MarkStale(r, now, Some(d), "disconnected"), d, UnavailableDraft(snap, now, "disconnected"))
  }

  function Without(order: seq<DeviceId>, d: DeviceId): seq<DeviceId> {
    if |order| == 0 then []
    else Without(order[..|order| - 1], d) + if order[|order| - 1] == d then [] else [order[|order| - 1]]
  }

  function Drop(s: Tel, d: DeviceId): Tel {
    s.(order := Without(s.order, d),
       current := s.current - {d},
       heartbeats := s.heartbeats - {d},
       timers := CancelOf(CancelOf(s.timers, s.staleTasks, d), s.heartbeatTasks, d),
       staleTasks := s.staleTasks - {d},
       heartbeatTasks := s.heartbeatTasks - {d},
       latest := Forget(s.latest, d),
       log := s.log + [Forgotten(d)],
       sequences := map k | k in s.sequences && k.device != Some(d) :: s.sequences[k])
  }

  function Remove(s: Tel, d: DeviceId, now: Instant): Tel {
    Drop(HeartbeatDisconnected(Connection(s, d, "disconnected", now), d, now), d)
  }

  /** A deadline task runs; what it does depends on whether its guard still holds. */
  function Fire(s: Tel, task: nat, now: Instant): Tel
    requires task in s.timers
  {
    var t := s.timers[task];
    var r := Finish(s, task);
    match t.goal
    case SnapshotDeadline =>
      if t.device in s.current && s.current[t.device].timer == task then MarkStale(r, now, None, "stale") else r
    case HeartbeatDeadline(at) =>
      if StillNewest(s, t.device, at) then PublishHeartbeat(SetStatus(r, t.device, Stale), t.device, now) else r
  }

  function Finish(s: Tel, task: nat): Tel {
    s.(timers := s.timers - {task})
  }

  /** The heartbeat is healthy and its newest success is still the one at `at`. */
  predicate StillNewest(s: Tel, d: DeviceId, at: Instant) {
    d in s.heartbeats && s.heartbeats[d].status == Healthy && s.heartbeats[d].lastSuccess == Some(at)
  }

  /** An event some other component publishes on the same bus. */
  function PublishOther(s: Tel, e: Event): Tel {
    s.(latest := Remember(s.latest, e), log := s.log + [Published(e)])
  }

  // ---------- Views ----------

  datatype ProbeView = ProbeView(
    probe: int, available: bool, present: bool, isFresh: bool, temperature: Option<real>,
    observedAt: Instant, sequence: int, source: Source, errorCode: Option<string>)

  function ProbeViewOf(p: ProbeReading, stale: bool): ProbeView {
    ProbeView(p.number, p.available && !stale, p.present, !stale, if stale then None else p.temperature,
              p.observedAt, p.sequence, p.source, if stale then Some("stale") else p.errorCode)
  }

  function Probes(s: Tel, d: DeviceId): seq<ProbeView> {
    if d !in s.current then []
    else
      var c := s.current[d];
      seq(|c.snapshot.probes|, i requires 0 <= i < |c.snapshot.probes| => ProbeViewOf(c.snapshot.probes[i], c.stale))
  }

  datatype BatteryView = BatteryView(
    available: bool, isFresh: bool, percentage: Option<int>, observedAt: Instant, sequence: int, source: Source)

  function BatteryOf(s: Tel, d: DeviceId): Option<BatteryView> {
    if d !in s.current then None
    else
      var c := s.current[d];
      Some(BatteryView(c.snapshot.batteryAvailable && !c.stale, !c.stale,
                       if c.stale then None else c.snapshot.batteryPercent,
                       BatteryTime(c.snapshot), c.snapshot.sequence, c.snapshot.source))
  }

  datatype HeartbeatView = HeartbeatView(
    status: HeartbeatStatus, lastSuccess: Option<Instant>, isFresh: bool, staleAfter: int,
    sequence: int, source: Option<Source>)

  /** The heartbeat of a device as the devices endpoint shows it; unknown devices are an error. */
  function HeartbeatOf(s: Tel, d: DeviceId, desiredDisconnected: bool): Option<HeartbeatView> {
    if d !in s.heartbeats then None
    else
      var hb := s.heartbeats[d];
      var status := if desiredDisconnected then Disconnected
                    else if hb.status == Disconnected then RestoredStatus(hb) else hb.status;
      var isFresh := if desiredDisconnected || hb.status == Disconnected then false else hb.status == Healthy;
      Some(HeartbeatView(status, hb.lastSuccess, isFresh, s.heartbeatAfter, Max(1, hb.sequence), hb.successfulSource))
  }
}
