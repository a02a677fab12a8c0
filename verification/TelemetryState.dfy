/**
 The telemetry state as the program keeps it: dictionaries updated in place and events
 published one by one on a shared bus. Every method is proved to have exactly the effect
 of the function of the same name in Telemetry.dfy.
 */
module TelemetryStates {
  import opened Basics
  import opened Events
  import opened Models
  import Spec = Telemetry

  /** The devices a sweep marks, in the order it marks them. */
  function Marked(s: Spec.Tel, todo: seq<DeviceId>, now: Instant, force: Option<DeviceId>,
                  reason: string): seq<DeviceId>
    decreases |todo|
  {
    if |todo| == 0 then []
    else
      (if Spec.Overdue(s, todo[0], now, force) then [todo[0]] else [])
      + Marked(Spec.MarkIfOverdue(s, todo[0], now, force, reason), todo[1..], now, force, reason)
  }

  lemma SweepStep(s: Spec.Tel, order: seq<DeviceId>, i: nat, now: Instant, force: Option<DeviceId>, reason: string)
    requires i < |order|
    ensures var t := Spec.MarkIfOverdue(s, order[i], now, force, reason);
            && Spec.Sweep(s, order[i..], now, force, reason) == Spec.Sweep(t, order[i + 1..], now, force, reason)
            && Marked(s, order[i..], now, force, reason)
               == (if Spec.Overdue(s, order[i], now, force) then [order[i]] else [])
                  + Marked(t, order[i + 1..], now, force, reason)
  {
    assert order[i..][1..] == order[i + 1..];
  }

  lemma SweepDone(s: Spec.Tel, now: Instant, force: Option<DeviceId>, reason: string)
    ensures Spec.Sweep(s, [], now, force, reason) == s && Marked(s, [], now, force, reason) == []
  {
  }

  lemma ProbeStep(s: Spec.Tel, d: DeviceId, snap: Snapshot, i: nat)
    requires i < |snap.probes|
    ensures Spec.EmitAll(s, d, Spec.ProbeDrafts(snap, i + 1))
            == Spec.EmitAll(Spec.EmitAll(s, d, Spec.ProbeDrafts(snap, i)), d, Spec.OneProbe(snap, i))
  {
    Spec.EmitAllConcat(s, d, Spec.ProbeDrafts(snap, i), Spec.OneProbe(snap, i));
  }

  /** What a record publishes before the probes. */
  function HeadDrafts(previous: Option<Spec.Current>, snap: Snapshot): seq<Spec.Draft> {
    if Spec.BatteryIsNews(previous, snap)
    then [Spec.AvailabilityDraft(snap), Spec.PollingDraft(snap), Spec.BatteryDraft(snap)]
    else [Spec.AvailabilityDraft(snap), Spec.PollingDraft(snap)]
  }

  lemma RecordSteps(s: Spec.Tel, d: DeviceId, previous: Option<Spec.Current>, snap: Snapshot)
    ensures Spec.EmitAll(s, d, Spec.RecordDrafts(previous, snap))
            == Spec.EmitAll(Spec.EmitAll(s, d, HeadDrafts(previous, snap)), d, Spec.ProbeDrafts(snap, |snap.probes|))
  {
    assert Spec.RecordDrafts(previous, snap) == HeadDrafts(previous, snap) + Spec.ProbeDrafts(snap, |snap.probes|);
    Spec.EmitAllConcat(s, d, HeadDrafts(previous, snap), Spec.ProbeDrafts(snap, |snap.probes|));
  }

  lemma StaleSteps(s: Spec.Tel, d: DeviceId, snap: Snapshot, now: Instant, reason: string)
    ensures var heads := [Spec.UnavailableDraft(snap, now, reason), Spec.NoBatteryDraft(snap, now, reason)];
            Spec.EmitAll(s, d, Spec.StaleDrafts(snap, now, reason))
            == Spec.EmitAll(Spec.EmitAll(s, d, heads), d, Spec.StaleProbeDrafts(snap, |snap.probes|, now, reason))
  {
    var heads := [Spec.UnavailableDraft(snap, now, reason), Spec.NoBatteryDraft(snap, now, reason)];
    Spec.EmitAllConcat(s, d, heads, Spec.StaleProbeDrafts(snap, |snap.probes|, now, reason));
  }

  class TelemetryState {
    const events: EventBus
    const staleAfter: int
    const heartbeatAfter: int
    /** Insertion order of the dictionary of current snapshots. */
    var order: seq<DeviceId>
    var current: map<DeviceId, Spec.Current>
    var heartbeats: map<DeviceId, Spec.Heartbeat>
    var sequences: map<Key, int>
    var staleTasks: map<DeviceId, nat>
    var heartbeatTasks: map<DeviceId, nat>
    /** Deadline tasks the event loop still holds. */
    var timers: map<nat, Spec.Timer>
    var nextTimer: nat

    ghost predicate Valid()
      reads this, events
    {
      events.Valid() && staleAfter > 0 && heartbeatAfter > 0
    }

    ghost function View(): Spec.Tel
      reads this, events
    {
      Spec.Tel(staleAfter, heartbeatAfter, order, current, heartbeats, sequences, staleTasks, heartbeatTasks,
               timers, nextTimer, events.latest, events.log)
    }

    constructor (events: EventBus, staleAfter: int, heartbeatAfter: int)
      requires events.Valid() && staleAfter > 0 && heartbeatAfter > 0
      ensures Valid() && this.events == events
      ensures View() == Spec.Init(staleAfter, heartbeatAfter).(latest := events.latest, log := events.log)
    {
      this.events := events;
      this.staleAfter := staleAfter;
      this.heartbeatAfter := heartbeatAfter;
      order, current, heartbeats, sequences := [], map[], map[], map[];
      staleTasks, heartbeatTasks, timers, nextTimer := map[], map[], map[], 0;
    }

    // ---------- Publishing ----------

    method NextSequence(key: Key, observed: int) returns (n: int)
      modifies this`sequences
      ensures n == Spec.NextSequence(old(sequences), key, observed)
      ensures sequences == old(sequences)[key := n]
    {
      var next := if key in sequences then sequences[key] + 1 else 1;
      n := if observed > next then observed else next;
      sequences := sequences[key := n];
    }

    method Publish(d: DeviceId, draft: Spec.Draft)
      requires Valid()
      modifies this`sequences, events
      ensures Valid() && View() == Spec.Emit(old(View()), d, draft)
    {
      var n := NextSequence(Key(Some(d), draft.kind, draft.probe), draft.observed);
      PublishEvent(Event(draft.kind, draft.observedAt, n, draft.source, Some(d), draft.probe, draft.data));
    }

    method PublishEvent(e: Event)
      requires Valid()
      modifies events
      ensures Valid() && View() == Spec.PublishOther(old(View()), e)
    {
      LatestAppend(events.log, Published(e));
      events.Publish(e);
    }

    method PublishEach(d: DeviceId, drafts: seq<Spec.Draft>)
      requires Valid()
      modifies this`sequences, events
      ensures Valid() && View() == Spec.EmitAll(old(View()), d, drafts)
    {
      hide EventBus.Valid, Spec.Emit;
      var i := 0;
      while i < |drafts|
        invariant 0 <= i <= |drafts|
        invariant Valid() && View() == Spec.EmitAll(old(View()), d, drafts[..i])
      {
        Publish(d, drafts[i]);
        Spec.EmitOneMore(old(View()), d, drafts[..i], drafts[i]);
        assert drafts[..i] + [drafts[i]] == drafts[..i + 1];
        i := i + 1;
      }
      assert drafts[..i] == drafts;
    }

    method PublishProbe(d: DeviceId, snap: Snapshot, i: nat)
      requires Valid() && i < |snap.probes|
      modifies this`sequences, events
      ensures Valid() && View() == Spec.EmitAll(old(View()), d, Spec.OneProbe(snap, i))
    {
      hide EventBus.Valid, Spec.Emit;
      ghost var s := View();
      var p := snap.probes[i];
      var availability := Spec.Draft(ProbeAvailability, Some(p.number), p.sequence, snap.observedAt, snap.source,
                                     ProbeData(p.available, p.present, ""));
      Publish(d, availability);
      Spec.EmitOneMore(s, d, [], availability);
      assert [] + [availability] == [availability];
      if p.available && p.present && p.temperature.Some? {
        var temperature := Spec.Draft(ProbeTemperature, Some(p.number), p.sequence, snap.observedAt, snap.source,
                                      TemperatureData(p.temperature.value));
        Publish(d, temperature);
        Spec.EmitOneMore(s, d, [availability], temperature);
        assert [availability] + [temperature] == Spec.OneProbe(snap, i);
      }
    }

    method PublishProbes(d: DeviceId, snap: Snapshot)
      requires Valid()
      modifies this`sequences, events
      ensures Valid() && View() == Spec.EmitAll(old(View()), d, Spec.ProbeDrafts(snap, |snap.probes|))
    {
      ghost var s := View();
      var i := 0;
      while i < |snap.probes|
        invariant 0 <= i <= |snap.probes|
        invariant Valid() && View() == Spec.EmitAll(s, d, Spec.ProbeDrafts(snap, i))
      {
        PublishProbe(d, snap, i);
        ProbeStep(s, d, snap, i);
        i := i + 1;
      }
    }

    // ---------- Stale marking ----------

    method MarkStale(now: Instant, force: Option<DeviceId>, reason: string) returns (changed: seq<DeviceId>)
      requires Valid()
      modifies this`current, this`sequences, events
      ensures Valid() && View() == Spec.MarkStale(old(View()), now, force, reason)
      ensures changed == Marked(old(View()), order, now, force, reason)
    {
      hide EventBus.Valid, Spec.Sweep, Spec.MarkIfOverdue, Spec.Overdue, Marked;
      changed := [];
      var i := 0;
      assert order[0..] == order;
      while i < |order|
        invariant 0 <= i <= |order|
        invariant Valid()
        invariant Spec.Sweep(View(), order[i..], now, force, reason) == Spec.MarkStale(old(View()), now, force, reason)
        invariant changed + Marked(View(), order[i..], now, force, reason)
                  == Marked(old(View()), order, now, force, reason)
      {
        var d := order[i];
        SweepStep(View(), order, i, now, force, reason);
        ghost var rest := Marked(Spec.MarkIfOverdue(View(), d, now, force, reason), order[i + 1..], now, force, reason);
        ghost var before := changed;
        var marked := MarkIfOverdue(d, now, force, reason);
        if marked {
          changed := changed + [d];
        }
        assert changed + rest == before + ((if marked then [d] else []) + rest);
        i := i + 1;
      }
      assert i == |order| && order[i..] == [];
      SweepDone(View(), now, force, reason);
    }

    method MarkIfOverdue(d: DeviceId, now: Instant, force: Option<DeviceId>, reason: string) returns (marked: bool)
      requires Valid()
      modifies this`current, this`sequences, events
      ensures Valid() && View() == Spec.MarkIfOverdue(old(View()), d, now, force, reason)
      ensures marked == Spec.Overdue(old(View()), d, now, force)
    {
      marked := d in current && !current[d].stale
        && (force == Some(d) || now - current[d].snapshot.observedAt >= staleAfter);
      if marked {
        MarkOne(d, now, reason);
      }
    }

    method MarkOne(d: DeviceId, now: Instant, reason: string)
      requires Valid() && d in current
      modifies this`current, this`sequences, events
      ensures Valid() && View() == Spec.MarkOne(old(View()), d, now, reason)
    {
      var snap := current[d].snapshot;
      current := current[d := current[d].(stale := true)];
      PublishStale(d, snap, now, reason);
    }

    method PublishStale(d: DeviceId, snap: Snapshot, now: Instant, reason: string)
      requires Valid()
      modifies this`sequences, events
      ensures Valid() && View() == Spec.EmitAll(old(View()), d, Spec.StaleDrafts(snap, now, reason))
    {
      hide EventBus.Valid, Spec.Emit;
      StaleSteps(View(), d, snap, now, reason);
      PublishEach(d, [Spec.Draft(DeviceAvailability, None, snap.sequence, now, snap.source, Available(false, reason)),
                      Spec.Draft(EventType.Battery, None, snap.sequence, now, snap.source, BatteryData(false, None, reason))]);
      ghost var s := View();
      var i := 0;
      while i < |snap.probes|
        invariant 0 <= i <= |snap.probes|
        invariant Valid() && View() == Spec.EmitAll(s, d, Spec.StaleProbeDrafts(snap, i, now, reason))
      {
        var p := snap.probes[i];
        var gone := Spec.Draft(ProbeAvailability, Some(p.number), p.sequence, now, snap.source,
                               ProbeData(false, p.present, reason));
        Publish(d, gone);
        Spec.EmitOneMore(s, d, Spec.StaleProbeDrafts(snap, i, now, reason), gone);
        assert Spec.StaleProbeDrafts(snap, i + 1, now, reason) == Spec.StaleProbeDrafts(snap, i, now, reason) + [gone];
        i := i + 1;
      }
    }

    // ---------- Deadline tasks ----------

    /** Cancelling a task that has finished does nothing. */
    method CancelTask(task: nat)
      modifies this`timers
      ensures timers == Spec.Cancel(old(timers), task)
    {
      if task in timers {
        timers := timers[task := timers[task].(live := false)];
      }
    }

    method CancelStaleTask(d: DeviceId)
      modifies this`timers, this`staleTasks
      ensures timers == Spec.CancelOf(old(timers), old(staleTasks), d) && staleTasks == old(staleTasks) - {d}
    {
      if d in staleTasks {
        CancelTask(staleTasks[d]);
      }
      staleTasks := staleTasks - {d};
    }

    method CancelHeartbeatTask(d: DeviceId)
      modifies this`timers, this`heartbeatTasks
      ensures timers == Spec.CancelOf(old(timers), old(heartbeatTasks), d) && heartbeatTasks == old(heartbeatTasks) - {d}
    {
      if d in heartbeatTasks {
        CancelTask(heartbeatTasks[d]);
      }
      heartbeatTasks := heartbeatTasks - {d};
    }

    method CreateTask(timer: Spec.Timer) returns (task: nat)
      modifies this`timers, this`nextTimer
      ensures task == old(nextTimer) && nextTimer == task + 1 && timers == old(timers)[task := timer]
    {
      task := nextTimer;
      timers := timers[task := timer];
      nextTimer := nextTimer + 1;
    }

    // ---------- Snapshots ----------

    method Record(d: DeviceId, snap: Snapshot, now: Instant)
      requires Valid()
      modifies this, events
      ensures Valid() && View() == Spec.Record(old(View()), d, snap, now)
    {
      var previous := if d in current then Some(current[d]) else None;
      if previous.Some? && snap.observedAt <= previous.value.snapshot.observedAt {
        var _ := MarkStale(now, None, "stale");
        return;
      }
      if snap.communicatedAt.Some? {
        CommunicationSucceeded(d, snap.communicatedAt.value, snap.source);
      }
      InstallSnapshot(d, snap);
      PublishRecord(d, previous, snap);
    }

    method InstallSnapshot(d: DeviceId, snap: Snapshot)
      requires Valid()
      modifies this`order, this`current, this`timers, this`staleTasks, this`nextTimer
      ensures Valid() && View() == Spec.Install(old(View()), d, snap)
    {
      hide EventBus.Valid, Spec.CancelOf;
      if d !in current {
        order := order + [d];
      }
      current := current[d := Spec.Current(snap, false, nextTimer)];
      ReplaceStaleTask(d, snap.observedAt + staleAfter);
    }

    /** The deadline task of a device is cancelled and a new one takes its place. */
    method ReplaceStaleTask(d: DeviceId, due: Instant)
      modifies this`timers, this`staleTasks, this`nextTimer
      ensures timers == Spec.CancelOf(old(timers), old(staleTasks), d)
                          [old(nextTimer) := Spec.Timer(d, Spec.SnapshotDeadline, due, true)]
      ensures staleTasks == old(staleTasks)[d := old(nextTimer)] && nextTimer == old(nextTimer) + 1
    {
      CancelStaleTask(d);
      var task := CreateTask(Spec.Timer(d, Spec.SnapshotDeadline, due, true));
      staleTasks := staleTasks[d := task];
    }

    method PublishRecord(d: DeviceId, previous: Option<Spec.Current>, snap: Snapshot)
      requires Valid()
      modifies this`sequences, events
      ensures Valid() && View() == Spec.EmitAll(old(View()), d, Spec.RecordDrafts(previous, snap))
    {
      hide EventBus.Valid, Spec.Emit;
      RecordSteps(View(), d, previous, snap);
      var available := exists i :: 0 <= i < |snap.probes| && snap.probes[i].available;
      var at, source := snap.observedAt, snap.source;
      var heads := [Spec.Draft(DeviceAvailability, None, snap.sequence, at, source, Available(available, "")),
                    Spec.Draft(DeviceConnection, None, snap.sequence, at, source, ConnectionData("polling"))];
      var time := BatteryObserved(snap);
      var before := BatteryObserved(if previous.Some? then previous.value.snapshot else snap);
      if previous.None? || previous.value.stale || time != before {
        var battery := BatteryData(snap.batteryAvailable, snap.batteryPercent, "");
        heads := heads + [Spec.Draft(EventType.Battery, None, snap.sequence, time, source, battery)];
      }
      assert heads == HeadDrafts(previous, snap);
      PublishEach(d, heads);
      PublishProbes(d, snap);
    }

    static method BatteryObserved(snap: Snapshot) returns (time: Instant)
      ensures time == BatteryTime(snap)
    {
      time := if snap.batteryObservedAt.Some? then snap.batteryObservedAt.value else snap.observedAt;
    }

    method Connection(d: DeviceId, state: string, now: Instant)
      requires Valid()
      modifies this`current, this`sequences, events
      ensures Valid() && View() == Spec.Connection(old(View()), d, state, now)
    {
      if d !in current {
        return;
      }
      var snap := current[d].snapshot;
      Publish(d, Spec.Draft(DeviceConnection, None, snap.sequence, now, snap.source, ConnectionData(state)));
      if state == "disconnected" {
        var _ := MarkStale(now, Some(d), "disconnected");
        Publish(d, Spec.Draft(DeviceAvailability, None, snap.sequence, now, snap.source,
                              Available(false, "disconnected")));
      }
    }

    // ---------- Heartbeats ----------

    method EnsureHeartbeat(d: DeviceId, source: Source)
      requires Valid()
      modifies this`heartbeats
      ensures Valid() && View() == Spec.EnsureHeartbeat(old(View()), d, source)
    {
      if d !in heartbeats {
        heartbeats := heartbeats[d := Spec.Heartbeat(source, Unknown, None, None, 0)];
      }
    }

    method PublishHeartbeat(d: DeviceId, at: Instant)
      requires Valid() && d in heartbeats
      modifies this`heartbeats, this`sequences, events
      ensures Valid() && View() == Spec.PublishHeartbeat(old(View()), d, at)
    {
      var hb := heartbeats[d];
      var n := NextSequence(Key(Some(d), ThermometerHeartbeat, None), hb.sequence + 1);
      heartbeats := heartbeats[d := hb.(sequence := n)];
      var data := HeartbeatData(hb.status, hb.lastSuccess, hb.status == Healthy, heartbeatAfter);
      PublishEvent(Event(ThermometerHeartbeat, at, n, hb.adapterSource, Some(d), None, data));
    }

    method RegisterHeartbeat(d: DeviceId, source: Source, now: Instant)
      requires Valid()
      modifies this`heartbeats, this`sequences, events
      ensures Valid() && View() == Spec.RegisterHeartbeat(old(View()), d, source, now)
    {
      EnsureHeartbeat(d, source);
      if heartbeats[d].sequence == 0 {
        PublishHeartbeat(d, now);
      }
    }

    method CommunicationSucceeded(d: DeviceId, at: Instant, source: Source)
      requires Valid()
      modifies this, events
      ensures Valid() && View() == Spec.CommunicationSucceeded(old(View()), d, at, source)
    {
      EnsureHeartbeat(d, source);
      var hb := heartbeats[d];
      if hb.lastSuccess.Some? && at <= hb.lastSuccess.value {
        return;
      }
      AnnounceSuccess(d, at, source);
    }

    method AnnounceSuccess(d: DeviceId, at: Instant, source: Source)
      requires Valid() && d in heartbeats
      modifies this, events
      ensures Valid()
      ensures View() == Spec.StartHeartbeatTask(
                          Spec.PublishHeartbeat(Spec.Succeed(old(View()), d, at, source), d, at), d, at)
    {
      Succeed(d, at, source);
      PublishHeartbeat(d, at);
      StartHeartbeatTask(d, at);
    }

    method Succeed(d: DeviceId, at: Instant, source: Source)
      requires Valid() && d in heartbeats
      modifies this`heartbeats, this`timers, this`heartbeatTasks
      ensures Valid() && View() == Spec.Succeed(old(View()), d, at, source)
    {
      var hb := heartbeats[d].(status := Healthy, lastSuccess := Some(at), successfulSource := Some(source));
      heartbeats := heartbeats[d := hb];
      CancelHeartbeatTask(d);
    }

    method StartHeartbeatTask(d: DeviceId, at: Instant)
      requires Valid()
      modifies this`timers, this`heartbeatTasks, this`nextTimer
      ensures Valid() && View() == Spec.StartHeartbeatTask(old(View()), d, at)
    {
      var task := CreateTask(Spec.Timer(d, Spec.HeartbeatDeadline(at), at + heartbeatAfter, true));
      heartbeatTasks := heartbeatTasks[d := task];
    }

    method HeartbeatDisconnected(d: DeviceId, now: Instant)
      requires Valid()
      modifies this, events
      ensures Valid() && View() == Spec.HeartbeatDisconnected(old(View()), d, now)
    {
      if d !in heartbeats {
        return;
      }
      CancelHeartbeatTask(d);
      if heartbeats[d].status != Disconnected {
        heartbeats := heartbeats[d := heartbeats[d].(status := Disconnected)];
        PublishHeartbeat(d, now);
      }
    }

    method HeartbeatExpected(d: DeviceId, now: Instant)
      requires Valid()
      modifies this`heartbeats, this`sequences, events
      ensures Valid() && View() == Spec.HeartbeatExpected(old(View()), d, now)
    {
      if d !in heartbeats || heartbeats[d].status != Disconnected {
        return;
      }
      var hb := heartbeats[d];
      heartbeats := heartbeats[d := hb.(status := if hb.lastSuccess.None? then Unknown else Stale)];
      PublishHeartbeat(d, now);
    }

    /** One deadline task wakes up: the body of either deadline coroutine after its sleep. */
    method Wake(task: nat, now: Instant)
      requires Valid() && task in timers
      modifies this, events
      ensures Valid() && View() == Spec.Fire(old(View()), task, now)
    {
      var t := timers[task];
      timers := timers - {task};
      match t.goal {
        case SnapshotDeadline =>
          if t.device in current && current[t.device].timer == task {
            var _ := MarkStale(now, None, "stale");
          }
        case HeartbeatDeadline(at) =>
          if t.device in heartbeats && heartbeats[t.device].status == Healthy
             && heartbeats[t.device].lastSuccess == Some(at) {
            heartbeats := heartbeats[t.device := heartbeats[t.device].(status := Stale)];
            PublishHeartbeat(t.device, now);
          }
      }
    }

    // ---------- Removal and shutdown ----------

    method Remove(d: DeviceId, now: Instant)
      requires Valid()
      modifies this, events
      ensures Valid() && View() == Spec.Remove(old(View()), d, now)
    {
      Connection(d, "disconnected", now);
      HeartbeatDisconnected(d, now);
      Discard(d);
    }

    /** Deleting a key of a dictionary leaves the others in their order. */
    method RemoveFromOrder(d: DeviceId)
      modifies this`order
      ensures order == Spec.Without(old(order), d)
    {
      var kept := [];
      for i := 0 to |order|
        invariant kept == Spec.Without(order[..i], d)
      {
        assert order[..i + 1][..i] == order[..i];
        if order[i] != d {
          kept := kept + [order[i]];
        }
      }
      assert order[..|order|] == order;
      order := kept;
    }

    method Discard(d: DeviceId)
      requires Valid()
      modifies this, events
      ensures Valid() && View() == Spec.Drop(old(View()), d)
    {
      hide EventBus.Valid, Spec.Without, Spec.CancelOf, Forget;
      CancelStaleTask(d);
      CancelHeartbeatTask(d);
      RemoveFromOrder(d);
      current := current - {d};
      heartbeats := heartbeats - {d};
      events.ForgetDevice(d);
      sequences := map k | k in sequences && k.device != Some(d) :: sequences[k];
    }

    /** After closing no deadline task is live; snapshots, heartbeats and events are untouched. */
    method Close()
      requires Valid()
      modifies this`timers, this`staleTasks, this`heartbeatTasks
      ensures Valid()
      ensures staleTasks == map[] && heartbeatTasks == map[]
      ensures timers.Keys == old(timers).Keys
      ensures forall t :: t in timers && t in old(staleTasks).Values + old(heartbeatTasks).Values ==> !timers[t].live
      ensures forall t :: t in timers && t !in old(staleTasks).Values + old(heartbeatTasks).Values ==>
                            timers[t] == old(timers)[t]
    {
      var tasks := staleTasks.Values + heartbeatTasks.Values;
      staleTasks, heartbeatTasks := map[], map[];
      while tasks != {}
        invariant staleTasks == map[] && heartbeatTasks == map[]
        invariant timers.Keys == old(timers).Keys
        invariant tasks <= old(staleTasks).Values + old(heartbeatTasks).Values
        invariant forall t :: t in timers && t in old(staleTasks).Values + old(heartbeatTasks).Values - tasks ==>
                                !timers[t].live
        invariant forall t :: t in timers && t !in old(staleTasks).Values + old(heartbeatTasks).Values ==>
                                timers[t] == old(timers)[t]
      {
        var task :| task in tasks;
        CancelTask(task);
        tasks := tasks - {task};
      }
    }

    // ---------- Views ----------

    method Probes(d: DeviceId) returns (views: seq<Spec.ProbeView>)
      requires Valid()
      ensures views == Spec.Probes(View(), d)
    {
      views := [];
      if d !in current {
        return;
      }
      var c := current[d];
      var i := 0;
      while i < |c.snapshot.probes|
        invariant 0 <= i <= |c.snapshot.probes|
        invariant |views| == i
        invariant forall j :: 0 <= j < i ==> views[j] == Spec.ProbeViewOf(c.snapshot.probes[j], c.stale)
      {
        var p := c.snapshot.probes[i];
        views := views + [Spec.ProbeView(p.number, p.available && !c.stale, p.present, !c.stale,
                                         if c.stale then None else p.temperature, p.observedAt, p.sequence, p.source,
                                         if c.stale then Some("stale") else p.errorCode)];
        i := i + 1;
      }
    }

    method Battery(d: DeviceId) returns (view: Option<Spec.BatteryView>)
      requires Valid()
      ensures view == Spec.BatteryOf(View(), d)
    {
      if d !in current {
        return None;
      }
      var snap, stale := current[d].snapshot, current[d].stale;
      var time := BatteryObserved(snap);
      view := Some(Spec.BatteryView(snap.batteryAvailable && !stale, !stale, if stale then None else snap.batteryPercent,
                                    time, snap.sequence, snap.source));
    }

    /** An unknown device is an error; a desired disconnection is shown before it has happened. */
    method Heartbeat(d: DeviceId, desiredDisconnected: bool) returns (view: Option<Spec.HeartbeatView>)
      requires Valid()
      ensures view == Spec.HeartbeatOf(View(), d, desiredDisconnected)
    {
      if d !in heartbeats {
        return None;
      }
      var hb := heartbeats[d];
      var status, isFresh := hb.status, hb.status == Healthy;
      if desiredDisconnected {
        status, isFresh := Disconnected, false;
      } else if hb.status == Disconnected {
        status, isFresh := if hb.lastSuccess.None? then Unknown else Stale, false;
      }
      view := Some(Spec.HeartbeatView(status, hb.lastSuccess, isFresh, heartbeatAfter,
                                      if hb.sequence > 1 then hb.sequence else 1, hb.successfulSource));
    }
  }
}
