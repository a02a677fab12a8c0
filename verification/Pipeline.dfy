/**
 The telemetry pipeline as one machine: the telemetry state publishes on the bus, the MQTT
 publisher hears it and talks to the broker, in any interleaving. REST views, retained map
 and broker are three copies of one truth; the main theorem says when they agree.
 */
module Pipeline {
  import opened Basics
  import opened Events
  import opened Models
  import opened Topics
  import opened Telemetry
  import opened Agreement
  import R = Runs
  import P = Publishers
  import Shutdown

  datatype Sys = Sys(machine: R.Machine, publisher: P.Publisher)

  datatype Step = TelemetryStep(t: R.Step) | PublisherStep(p: P.Step)

  /** Device identifiers contain no slash; registration makes them that way. */
  predicate SaneStep(step: R.Step) {
    match step
    case RecordStep(d, _) => SlashFree(d)
    case ConnectionStep(d, _) => SlashFree(d)
    case EnsureStep(d, _) => SlashFree(d)
    case RegisterStep(d, _) => SlashFree(d)
    case SuccessStep(d, _, _) => SlashFree(d)
    case HeartbeatDisconnectedStep(d) => SlashFree(d)
    case HeartbeatExpectedStep(d) => SlashFree(d)
    case RemoveStep(d) => SlashFree(d)
    case _ => true
  }

  ghost predicate Enabled(s: Sys, step: Step) {
    match step
    case TelemetryStep(t) => R.Enabled(s.machine, t) && SaneStep(t)
    case PublisherStep(p) => P.Enabled(s.publisher, s.machine.tel.latest, p)
  }

  /** The publisher hears everything a step of the telemetry state published. */
  ghost function Next(s: Sys, step: Step): Sys
    requires Enabled(s, step) && s.publisher.capacity >= 1
  {
    match step
    case TelemetryStep(t) =>
      var m := R.Next(s.machine, t);
      R.NextContinues(s.machine, t);
      Sys(m, P.HearAll(s.publisher, m.tel.log[|s.machine.tel.log|..]))
    case PublisherStep(p) =>
      s.(publisher := P.Next(s.publisher, s.machine.tel.latest, p))
  }

  /** A publisher that is not connected yet, in front of a broker with whatever it retained before. */
  ghost predicate Start(s: Sys) {
    && s.machine == R.Start(s.machine.tel.staleAfter, s.machine.tel.heartbeatAfter, s.machine.now)
    && s.publisher.phase == P.Offline && s.publisher.sending == None && s.publisher.queue == []
    && s.publisher.lost == {} && s.publisher.capacity >= 1
  }

  ghost predicate Runs(s: Sys, steps: seq<Step>)
    requires s.publisher.capacity >= 1
    decreases |steps|
  {
    |steps| > 0 ==>
      && Enabled(s, steps[0])
      && Next(s, steps[0]).publisher.capacity >= 1
      && Runs(Next(s, steps[0]), steps[1..])
  }

  ghost function After(s: Sys, steps: seq<Step>): Sys
    requires s.publisher.capacity >= 1 && Runs(s, steps)
    decreases |steps|
  {
    if |steps| == 0 then s else After(Next(s, steps[0]), steps[1..])
  }

  // ---------- Everything published has a proper topic ----------

  ghost predicate SaneTel(s: Tel) {
    && (forall d :: d in s.current ==> SlashFree(d) && ValidSnapshot(s.current[d].snapshot))
    && (forall d :: d in s.heartbeats ==> SlashFree(d))
    && P.SaneLog(s.log)
  }

  /** A draft gives a proper key with any slash-free device. */
  predicate SaneDraft(draft: Draft) {
    DeviceKey(Key(Some(""), draft.kind, draft.probe))
  }

  lemma {:induction false} EmitAllSane(s: Tel, d: DeviceId, drafts: seq<Draft>)
    requires SaneTel(s) && SlashFree(d) && forall i :: 0 <= i < |drafts| ==> SaneDraft(drafts[i])
    ensures SaneTel(EmitAll(s, d, drafts))
  {
    if |drafts| > 0 {
      EmitAllSane(s, d, drafts[..|drafts| - 1]);
      assert SaneDraft(drafts[|drafts| - 1]);
    }
  }

  lemma {:induction false} ProbeDraftsSane(snap: Snapshot, n: nat)
    requires n <= |snap.probes| && ValidSnapshot(snap)
    ensures forall i :: 0 <= i < |ProbeDrafts(snap, n)| ==> SaneDraft(ProbeDrafts(snap, n)[i])
  {
    if n > 0 {
      ProbeDraftsSane(snap, n - 1);
      assert ValidProbe(snap.probes[n - 1]);
    }
  }

  lemma {:induction false} StaleProbeDraftsSane(snap: Snapshot, n: nat, now: Instant, reason: string)
    requires n <= |snap.probes| && ValidSnapshot(snap)
    ensures forall i :: 0 <= i < |StaleProbeDrafts(snap, n, now, reason)| ==>
                          SaneDraft(StaleProbeDrafts(snap, n, now, reason)[i])
  {
    if n > 0 {
      StaleProbeDraftsSane(snap, n - 1, now, reason);
      assert ValidProbe(snap.probes[n - 1]);
    }
  }

  lemma MarkIfOverdueSane(s: Tel, d: DeviceId, now: Instant, force: Option<DeviceId>, reason: string)
    requires SaneTel(s)
    ensures SaneTel(MarkIfOverdue(s, d, now, force, reason))
  {
    if Overdue(s, d, now, force) {
      var c := s.current[d];
      StaleProbeDraftsSane(c.snapshot, |c.snapshot.probes|, now, reason);
      EmitAllSane(s.(current := s.current[d := c.(stale := true)]), d, StaleDrafts(c.snapshot, now, reason));
    }
  }

  lemma {:induction false} SweepSane(s: Tel, todo: seq<DeviceId>, now: Instant, force: Option<DeviceId>, reason: string)
    requires SaneTel(s)
    ensures SaneTel(Sweep(s, todo, now, force, reason))
    decreases |todo|
  {
    if |todo| > 0 {
      MarkIfOverdueSane(s, todo[0], now, force, reason);
      SweepSane(MarkIfOverdue(s, todo[0], now, force, reason), todo[1..], now, force, reason);
    }
  }

  lemma ConnectionSane(s: Tel, d: DeviceId, state: string, now: Instant)
    requires SaneTel(s)
    ensures SaneTel(Connection(s, d, state, now))
  {
    hide SaneTel, Emit, Sweep;
    if d in s.current {
      var snap := s.current[d].snapshot;
      var r := Emit(s, d, ConnectionDraft(snap, state, now));
      SnapshotDeviceSane(s, d);
      EmitSane(s, d, ConnectionDraft(snap, state, now));
      if state == "disconnected" {
        SweepSane(r, r.order, now, Some(d), "disconnected");
        EmitSane(MarkStale(r, now, Some(d), "disconnected"), d, UnavailableDraft(snap, now, "disconnected"));
      }
    }
  }

  lemma SnapshotDeviceSane(s: Tel, d: DeviceId)
    requires SaneTel(s) && d in s.current
    ensures SlashFree(d)
  {
  }

  lemma EmitSane(s: Tel, d: DeviceId, draft: Draft)
    requires SaneTel(s) && SlashFree(d) && SaneDraft(draft)
    ensures SaneTel(Emit(s, d, draft))
  {
    hide ValidSnapshot;
  }

  lemma PublishHeartbeatSane(s: Tel, d: DeviceId, at: Instant)
    requires SaneTel(s) && d in s.heartbeats
    ensures SaneTel(PublishHeartbeat(s, d, at))
  {
  }

  lemma EnsureSane(s: Tel, d: DeviceId, source: Source)
    requires SaneTel(s) && SlashFree(d)
    ensures SaneTel(EnsureHeartbeat(s, d, source))
  {
  }

  lemma SuccessSane(s: Tel, d: DeviceId, at: Instant, source: Source)
    requires SaneTel(s) && d in s.heartbeats
    ensures SaneTel(StartHeartbeatTask(PublishHeartbeat(Succeed(s, d, at, source), d, at), d, at))
  {
    PublishHeartbeatSane(Succeed(s, d, at, source), d, at);
  }

  lemma CommunicationSane(s: Tel, d: DeviceId, at: Instant, source: Source)
    requires SaneTel(s) && SlashFree(d)
    ensures SaneTel(CommunicationSucceeded(s, d, at, source))
  {
    var r := EnsureHeartbeat(s, d, source);
    EnsureSane(s, d, source);
    if NewsForHeartbeat(r.heartbeats[d], at) {
      SuccessSane(r, d, at, source);
    }
  }

  lemma RecordDraftsSane(previous: Option<Current>, snap: Snapshot)
    requires ValidSnapshot(snap)
    ensures forall i :: 0 <= i < |RecordDrafts(previous, snap)| ==> SaneDraft(RecordDrafts(previous, snap)[i])
  {
    ProbeDraftsSane(snap, |snap.probes|);
  }

  lemma InstallSane(s: Tel, d: DeviceId, snap: Snapshot)
    requires SaneTel(s) && SlashFree(d) && ValidSnapshot(snap)
    ensures SaneTel(Install(s, d, snap))
  {
  }

  lemma RecordSane(s: Tel, d: DeviceId, snap: Snapshot, now: Instant)
    requires SaneTel(s) && SlashFree(d) && ValidSnapshot(snap)
    ensures SaneTel(Record(s, d, snap, now))
  {
    if IsNewer(s, d, snap) {
      if snap.communicatedAt.Some? {
        CommunicationSane(s, d, snap.communicatedAt.value, snap.source);
      }
      RecordDraftsSane(CurrentOf(s, d), snap);
      InstallSane(NoteCommunication(s, d, snap), d, snap);
      EmitAllSane(Install(NoteCommunication(s, d, snap), d, snap), d, RecordDrafts(CurrentOf(s, d), snap));
    } else {
      SweepSane(s, s.order, now, None, "stale");
    }
  }

  lemma HeartbeatDisconnectedSane(s: Tel, d: DeviceId, now: Instant)
    requires SaneTel(s)
    ensures SaneTel(HeartbeatDisconnected(s, d, now))
  {
    if d in s.heartbeats && s.heartbeats[d].status != Disconnected {
      PublishHeartbeatSane(SetStatus(StopHeartbeatTask(s, d), d, Disconnected), d, now);
    }
  }

  lemma FireSane(s: Tel, task: nat, now: Instant)
    requires SaneTel(s) && task in s.timers
    ensures SaneTel(Fire(s, task, now))
  {
    var q := Finish(s, task);
    match s.timers[task].goal {
      case SnapshotDeadline => SweepSane(q, q.order, now, None, "stale");
      case HeartbeatDeadline(at) =>
        if StillNewest(s, s.timers[task].device, at) {
          PublishHeartbeatSane(SetStatus(q, s.timers[task].device, Stale), s.timers[task].device, now);
        }
    }
  }

  lemma RegisterSane(s: Tel, d: DeviceId, source: Source, now: Instant)
    requires SaneTel(s) && SlashFree(d)
    ensures SaneTel(RegisterHeartbeat(s, d, source, now))
  {
    hide SaneTel, PublishHeartbeat;
    EnsureSane(s, d, source);
    if EnsureHeartbeat(s, d, source).heartbeats[d].sequence == 0 {
      PublishHeartbeatSane(EnsureHeartbeat(s, d, source), d, now);
    }
  }

  lemma HeartbeatExpectedSane(s: Tel, d: DeviceId, now: Instant)
    requires SaneTel(s)
    ensures SaneTel(HeartbeatExpected(s, d, now))
  {
    hide PublishHeartbeat;
    if d in s.heartbeats && s.heartbeats[d].status == Disconnected {
      PublishHeartbeatSane(SetStatus(s, d, RestoredStatus(s.heartbeats[d])), d, now);
    }
  }

  lemma RemoveSane(s: Tel, d: DeviceId, now: Instant)
    requires SaneTel(s)
    ensures SaneTel(Remove(s, d, now))
  {
    hide SaneTel, Connection, HeartbeatDisconnected, Drop;
    ConnectionSane(s, d, "disconnected", now);
    HeartbeatDisconnectedSane(Connection(s, d, "disconnected", now), d, now);
    DropSane(HeartbeatDisconnected(Connection(s, d, "disconnected", now), d, now), d);
  }

  lemma DropSane(s: Tel, d: DeviceId)
    requires SaneTel(s)
    ensures SaneTel(Drop(s, d))
  {
    hide Without, CancelOf, Forget, ValidSnapshot;
  }

  lemma OtherSane(s: Tel, e: Event)
    requires SaneTel(s) && P.Sane(e)
    ensures SaneTel(PublishOther(s, e))
  {
    hide ValidSnapshot, P.Sane;
  }

  lemma OtherKindIsSane(m: R.Machine, e: Event)
    requires R.Enabled(m, R.OtherStep(e))
    ensures P.Sane(e)
  {
  }

  lemma NextSane(m: R.Machine, step: R.Step)
    requires SaneTel(m.tel) && R.Enabled(m, step) && SaneStep(step)
    ensures SaneTel(R.Next(m, step).tel)
  {
    hide SaneTel, Record, Sweep, Connection, RegisterHeartbeat, CommunicationSucceeded, HeartbeatDisconnected, HeartbeatExpected,
         Fire, Remove, PublishOther;
    match step {
      case Tick(_) =>
      case RecordStep(d, snap) => RecordSane(m.tel, d, snap, m.now);
      case SweepStep => SweepSane(m.tel, m.tel.order, m.now, None, "stale");
      case ConnectionStep(d, state) => ConnectionSane(m.tel, d, state, m.now);
      case EnsureStep(d, source) => EnsureSane(m.tel, d, source);
      case RegisterStep(d, source) => RegisterSane(m.tel, d, source, m.now);
      case SuccessStep(d, at, source) => CommunicationSane(m.tel, d, at, source);
      case HeartbeatDisconnectedStep(d) => HeartbeatDisconnectedSane(m.tel, d, m.now);
      case HeartbeatExpectedStep(d) => HeartbeatExpectedSane(m.tel, d, m.now);
      case FireStep(task) => FireSane(m.tel, task, m.now);
      case RemoveStep(d) => RemoveSane(m.tel, d, m.now);
      case OtherStep(e) =>
        OtherKindIsSane(m, e);
        OtherSane(m.tel, e);
    }
  }

  // ---------- The invariant of the whole pipeline ----------

  ghost predicate Inv(s: Sys) {
    && R.Inv(s.machine)
    && SaneTel(s.machine.tel)
    && P.PubInv(s.machine.tel.latest, s.publisher)
  }

  lemma StartInv(s: Sys)
    requires Start(s)
    ensures Inv(s)
  {
    R.StartInv(s.machine.tel.staleAfter, s.machine.tel.heartbeatAfter, s.machine.now);
  }

  lemma TelemetryInv(s: Sys, t: R.Step)
    requires Inv(s) && Enabled(s, TelemetryStep(t))
    ensures Inv(Next(s, TelemetryStep(t)))
  {
    hide R.Inv, SaneTel, P.PubInv, P.HearAll, R.Next;
    var m := R.Next(s.machine, t);
    R.NextInv(s.machine, t);
    R.NextContinues(s.machine, t);
    NextSane(s.machine, t);
    LogFacts(s.machine);
    LogFacts(m);
    SaneLogOf(m.tel);
    var entries := m.tel.log[|s.machine.tel.log|..];
    assert s.machine.tel.log + entries == m.tel.log;
    P.HearAllKeepsInv(s.machine.tel.log, s.publisher, entries);
  }

  lemma LogFacts(m: R.Machine)
    requires R.Inv(m)
    ensures m.tel.latest == Latest(m.tel.log)
  {
  }

  lemma SaneLogOf(s: Tel)
    requires SaneTel(s)
    ensures P.SaneLog(s.log)
  {
  }

  lemma NextInv(s: Sys, step: Step)
    requires Inv(s) && Enabled(s, step)
    ensures Inv(Next(s, step))
  {
    hide R.Inv, SaneTel, P.PubInv, R.Next, P.Next, P.HearAll;
    match step {
      case TelemetryStep(t) => TelemetryInv(s, t);
      case PublisherStep(p) => P.NextKeepsInv(s.machine.tel.latest, s.publisher, p);
    }
  }

  lemma {:induction false} RunInv(s: Sys, steps: seq<Step>)
    requires Inv(s) && Runs(s, steps)
    ensures Inv(After(s, steps))
    decreases |steps|
  {
    if |steps| > 0 {
      NextInv(s, steps[0]);
      RunInv(Next(s, steps[0]), steps[1..]);
    }
  }

  // ---------- Three copies of one truth ----------

  /**
   What the broker retains for device `d`: availability as its snapshot says, availability and
   percentage of the battery view, availability and presence of each view of a current probe,
   and data and number of the stored heartbeat.
   */
  ghost predicate BrokerShows(p: P.Publisher, s: Tel, d: DeviceId) {
    && (d in s.current ==>
          && ShowsAvailability(P.Held(p, AvailabilityKey(d)), AnyAvailable(s.current[d].snapshot.probes) && !s.current[d].stale)
          && ShowsBattery(P.Held(p, BatteryKey(d)), BatteryOf(s, d).value)
          && forall i :: 0 <= i < |Probes(s, d)| ==> ShowsProbe(P.Held(p, ProbeKey(d, Probes(s, d)[i].probe)), Probes(s, d)[i]))
    && (d in s.heartbeats && s.heartbeats[d].sequence > 0 ==>
          ShowsHeartbeat(P.Held(p, HeartbeatKey(d)), s, s.heartbeats[d]))
  }

  predicate ShowsAvailability(held: Option<Event>, available: bool) {
    held.Some? && held.value.data.Available? && (held.value.data.available <==> available)
  }

  predicate ShowsBattery(held: Option<Event>, view: BatteryView) {
    && held.Some? && held.value.data.BatteryData?
    && held.value.data.batteryAvailable == view.available && held.value.data.percentage == view.percentage
  }

  predicate ShowsProbe(held: Option<Event>, view: ProbeView) {
    && held.Some? && held.value.data.ProbeData?
    && held.value.data.probeAvailable == view.available && held.value.data.present == view.present
  }

  predicate ShowsHeartbeat(held: Option<Event>, s: Tel, hb: Heartbeat) {
    held.Some? && held.value.data == DataOf(s, hb) && held.value.sequence == hb.sequence
  }

  lemma BrokerFollowsViews(p: P.Publisher, s: Tel, d: DeviceId)
    requires AllAgree(s) && P.BrokerHolds(p, s.latest, {})
    ensures BrokerShows(p, s, d)
  {
    assert Agrees(s, d);
    if d in s.current {
      forall i | 0 <= i < |Probes(s, d)|
        ensures ShowsProbe(P.Held(p, ProbeKey(d, Probes(s, d)[i].probe)), Probes(s, d)[i])
      {
        assert ProbeAgrees(s, d, Probes(s, d)[i]);
      }
    }
  }

  /** The heartbeat at the broker against the REST view: the same exactly when the desired state is the stored one. */
  ghost predicate BrokerHeartbeatExactly(p: P.Publisher, s: Tel, d: DeviceId, desiredDisconnected: bool) {
    d in s.heartbeats && s.heartbeats[d].sequence > 0 ==>
      && P.Held(p, HeartbeatKey(d)).Some? && HeartbeatOf(s, d, desiredDisconnected).Some?
      && (TellsView(P.Held(p, HeartbeatKey(d)).value, HeartbeatOf(s, d, desiredDisconnected).value) <==>
          DesiredIsStored(s, d, desiredDisconnected))
  }

  lemma BrokerHeartbeatFollows(p: P.Publisher, s: Tel, d: DeviceId, desiredDisconnected: bool)
    requires AllAgree(s) && P.BrokerHolds(p, s.latest, {})
    ensures BrokerHeartbeatExactly(p, s, d, desiredDisconnected)
  {
    hide ReadingsAgree, P.Held;
    assert Agrees(s, d);
    HeartbeatViewExactly(s, d, desiredDisconnected);
  }

  /** The event retained on a topic. */
  function OnTopic(broker: map<string, P.Message>, topic: string): Option<Event> {
    if topic in broker && broker[topic].EventMessage? then Some(broker[topic].event) else None
  }

  /**
   What the documented topics of device `d` say: of its snapshot, none of it available once stale,
   and of its heartbeat.
   */
  ghost predicate TopicsTell(p: P.Publisher, s: Tel, d: DeviceId) {
    var root := Strip(p.base) + "/v1/devices/" + d;
    && (d in s.current ==>
          var snap, stale := s.current[d].snapshot, s.current[d].stale;
          && ShowsAvailability(OnTopic(p.broker, root + "/availability"),
                               !stale && exists i :: 0 <= i < |snap.probes| && snap.probes[i].available)
          && TellsBattery(OnTopic(p.broker, root + "/battery"), snap, stale)
          && forall i :: 0 <= i < |snap.probes| && 1 <= snap.probes[i].number <= 4 ==>
               TellsProbe(OnTopic(p.broker, root + "/probes/" + ["1234"[snap.probes[i].number - 1]] + "/availability"),
                          snap.probes[i], stale))
    && (d in s.heartbeats && s.heartbeats[d].sequence > 0 ==>
          TellsHeartbeat(OnTopic(p.broker, root + "/heartbeat"), s.heartbeats[d], s.heartbeatAfter))
  }

  predicate TellsBattery(held: Option<Event>, snap: Snapshot, stale: bool) {
    && held.Some? && held.value.data.BatteryData?
    && held.value.data.batteryAvailable == (snap.batteryAvailable && !stale)
    && held.value.data.percentage == if stale then None else snap.batteryPercent
  }

  predicate TellsProbe(held: Option<Event>, p: ProbeReading, stale: bool) {
    && held.Some? && held.value.data.ProbeData?
    && held.value.data.probeAvailable == (p.available && !stale) && held.value.data.present == p.present
  }

  predicate TellsHeartbeat(held: Option<Event>, hb: Heartbeat, staleAfter: int) {
    && held.Some? && held.value.sequence == hb.sequence
    && held.value.data == HeartbeatData(hb.status, hb.lastSuccess, hb.status == Healthy, staleAfter)
  }

  lemma BrokerTopicsTell(p: P.Publisher, s: Tel, d: DeviceId)
    requires BrokerShows(p, s, d)
    ensures TopicsTell(p, s, d)
  {
    hide TopicFor;
    DocumentedTopics(p.base, d);
    if d in s.current {
      var probes := s.current[d].snapshot.probes;
      forall i | 0 <= i < |probes| && 1 <= probes[i].number <= 4
        ensures TellsProbe(OnTopic(p.broker, Strip(p.base) + "/v1/devices/" + d + "/probes/"
                                             + ["1234"[probes[i].number - 1]] + "/availability"),
                           probes[i], s.current[d].stale)
      {
        DocumentedProbeTopics(p.base, d, probes[i].number);
        assert ShowsProbe(P.Held(p, ProbeKey(d, Probes(s, d)[i].probe)), Probes(s, d)[i]);
      }
    }
  }

  /** All that the broker shows, compared with every view. */
  ghost predicate BrokerFollows(p: P.Publisher, s: Tel) {
    && (forall d :: BrokerShows(p, s, d))
    && (forall d :: TopicsTell(p, s, d))
    && (forall d, desired :: BrokerHeartbeatExactly(p, s, d, desired))
  }

  lemma BrokerFollowsAllViews(p: P.Publisher, s: Tel)
    requires AllAgree(s) && P.BrokerHolds(p, s.latest, {})
    ensures BrokerFollows(p, s)
  {
    hide AllAgree, P.BrokerHolds, BrokerShows, TopicsTell, BrokerHeartbeatExactly;
    forall d ensures BrokerShows(p, s, d) && TopicsTell(p, s, d) {
      BrokerFollowsViews(p, s, d);
      BrokerTopicsTell(p, s, d);
    }
    forall d, desired ensures BrokerHeartbeatExactly(p, s, d, desired) {
      BrokerHeartbeatFollows(p, s, d, desired);
    }
  }

  /**
   However the telemetry state, the bus, the publisher and the broker interleave: whenever
   the publisher has caught up and nothing overflowed since it subscribed, the broker shows, for
   every device with a snapshot, the availability, battery and probes of the REST views, and for
   every published heartbeat the stored one, which is that of the REST view exactly when the
   desired state is the stored one.
   */
  lemma ThreeCopiesAgree(s: Sys, steps: seq<Step>)
    requires Start(s) && Runs(s, steps)
    requires P.CaughtUp(After(s, steps).publisher) && !After(s, steps).publisher.overflowed
    ensures var r := After(s, steps);
            && AllAgree(r.machine.tel)
            && P.BrokerHolds(r.publisher, r.machine.tel.latest, {})
            && BrokerFollows(r.publisher, r.machine.tel)
  {
    hide BrokerFollows, P.BrokerHolds;
    var r := After(s, steps);
    StartInv(s);
    RunInv(s, steps);
    P.CaughtUpBrokerHolds(r.machine.tel.latest, r.publisher);
    BrokerFollowsAllViews(r.publisher, r.machine.tel);
  }

  /** The step by which the application announces that the service stops. */
  predicate AnnouncesStop(step: Step) {
    step.TelemetryStep? && step.t.OtherStep? && P.SaysUnavailable(step.t.event)
  }

  /**
   When the announcement is the last thing the bus publishes while a session is subscribed and
   not flushing yet, the publisher stops after a bounded number of further steps, whatever its
   queue had dropped, and then the broker follows the views as when it has caught up, and shows
   the service as unavailable. A publisher without a session is cancelled instead.
   */
  lemma StoppingLeavesCopiesInAgreement(s: Sys, steps: seq<Step>, stop: Step, quiet: seq<P.Step>)
    requires Start(s) && Runs(s, steps)
    requires Enabled(After(s, steps), stop) && AnnouncesStop(stop)
    requires P.Subscribed(After(s, steps).publisher) && !After(s, steps).publisher.phase.Flushing?
    requires After(s, steps).publisher.capacity >= 1
    requires var r := Next(After(s, steps), stop);
             Shutdown.QuietRuns(r.publisher, r.machine.tel.latest, quiet)
    ensures var r := Next(After(s, steps), stop);
            var q := Shutdown.QuietAfter(r.publisher, r.machine.tel.latest, quiet);
            && |quiet| <= Shutdown.Measure(r.publisher, r.machine.tel.latest)
            && (!q.phase.Stopped? ==> exists step :: P.Enabled(q, r.machine.tel.latest, step) && !P.Fails(step))
            && (q.phase.Stopped? ==> Shutdown.LeftInOrder(q, r.machine.tel.latest) && BrokerFollows(q, r.machine.tel))
  {
    hide BrokerFollows, P.BrokerHolds;
    var m := After(s, steps);
    StartInv(s);
    RunInv(s, steps);
    NextInv(m, stop);
    var r := Next(m, stop);
    HearsAnnouncement(m, stop.t.event);
    Shutdown.GracefulExit(r.publisher, r.machine.tel.latest, quiet);
    var q := Shutdown.QuietAfter(r.publisher, r.machine.tel.latest, quiet);
    if q.phase.Stopped? {
      BrokerFollowsAllViews(q, r.machine.tel);
    }
  }

  lemma HearsAnnouncement(m: Sys, e: Event)
    requires m.publisher.capacity >= 1 && P.Subscribed(m.publisher) && !m.publisher.phase.Flushing?
    requires Enabled(m, TelemetryStep(R.OtherStep(e))) && P.SaysUnavailable(e)
    ensures var r := Next(m, TelemetryStep(R.OtherStep(e)));
            Shutdown.FarewellComing(r.publisher, r.machine.tel.latest)
  {
    var log := m.machine.tel.log;
    var r := R.Next(m.machine, R.OtherStep(e));
    R.NextContinues(m.machine, R.OtherStep(e));
    var entries := r.tel.log[|log|..];
    assert entries == [Published(e)];
    assert entries[..0] == [];
    assert P.HearAll(m.publisher, entries) == P.Hear(P.HearAll(m.publisher, []), Published(e));
    Shutdown.NewestEventIsNeverLost(m.publisher, e);
  }
}
