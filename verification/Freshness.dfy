/**
 Deadline tasks and freshness: which tasks are live, and what they guarantee about the
 snapshots and heartbeats that the views call fresh.
 */
module Freshness {
  import opened Basics
  import opened Events
  import opened Models
  import opened Telemetry
  import opened Agreement

  // ---------- Which deadline tasks are live ----------

  function SnapshotTimer(s: Tel, d: DeviceId, snap: Snapshot): Timer {
    Timer(d, SnapshotDeadline, snap.observedAt + s.staleAfter, true)
  }

  function HeartbeatTimer(s: Tel, d: DeviceId, at: Instant): Timer {
    Timer(d, HeartbeatDeadline(at), at + s.heartbeatAfter, true)
  }

  /** A task table names tasks that were created, each one for its own device. */
  ghost predicate TasksOk(s: Tel) {
    && (forall t :: t in s.timers ==> t < s.nextTimer)
    && (forall d :: d in s.staleTasks ==> s.staleTasks[d] < s.nextTimer)
    && (forall d :: d in s.heartbeatTasks ==> s.heartbeatTasks[d] < s.nextTimer)
    && (forall d :: d in s.staleTasks && s.staleTasks[d] in s.timers ==>
          s.timers[s.staleTasks[d]].device == d && s.timers[s.staleTasks[d]].goal.SnapshotDeadline?)
    && (forall d :: d in s.heartbeatTasks && s.heartbeatTasks[d] in s.timers ==>
          s.timers[s.heartbeatTasks[d]].device == d && s.timers[s.heartbeatTasks[d]].goal.HeartbeatDeadline?)
    && (forall t :: t in s.timers && s.timers[t].goal.HeartbeatDeadline? ==>
          s.timers[t].due == s.timers[t].goal.successAt + s.heartbeatAfter)
  }

  /** The live snapshot task of device `d` is task `t`. */
  ghost predicate GuardsSnapshot(s: Tel, d: DeviceId, t: nat) {
    && d in s.current && s.current[d].timer == t
    && d in s.staleTasks && s.staleTasks[d] == t
    && t in s.timers && s.timers[t] == SnapshotTimer(s, d, s.current[d].snapshot)
  }

  predicate LiveSnapshotTask(s: Tel, t: nat) {
    t in s.timers && s.timers[t].live && s.timers[t].goal.SnapshotDeadline?
  }

  predicate LiveHeartbeatTask(s: Tel, t: nat) {
    t in s.timers && s.timers[t].live && s.timers[t].goal.HeartbeatDeadline?
  }

  /** Every fresh snapshot has its live task, and no other snapshot task is live. */
  ghost predicate SnapshotsGuarded(s: Tel) {
    && (forall d :: d in s.current && !s.current[d].stale ==> GuardsSnapshot(s, d, s.current[d].timer))
    && (forall t :: LiveSnapshotTask(s, t) ==> GuardsSnapshot(s, s.timers[t].device, t))
  }

  predicate Ticking(status: HeartbeatStatus) {
    status == Healthy || status == Stale
  }

  /** Task `t` is the live heartbeat task of device `d`, set for precisely its newest success. */
  ghost predicate Watches(s: Tel, d: DeviceId, t: nat) {
    && d in s.heartbeats && Ticking(s.heartbeats[d].status) && s.heartbeats[d].lastSuccess.Some?
    && d in s.heartbeatTasks && s.heartbeatTasks[d] == t
    && t in s.timers && s.timers[t] == HeartbeatTimer(s, d, s.heartbeats[d].lastSuccess.value)
  }

  /** A healthy heartbeat has its live task, and no other live task is set for the device. */
  ghost predicate HeartbeatGuarded(s: Tel, d: DeviceId) {
    && (d in s.heartbeats && s.heartbeats[d].status == Healthy ==>
          d in s.heartbeatTasks && Watches(s, d, s.heartbeatTasks[d]))
    && (forall t :: LiveHeartbeatTask(s, t) && s.timers[t].device == d ==> Watches(s, d, t))
  }

  ghost predicate HeartbeatsGuarded(s: Tel) {
    forall d :: HeartbeatGuarded(s, d)
  }

  ghost predicate TimerInv(s: Tel) {
    TasksOk(s) && SnapshotsGuarded(s) && HeartbeatsGuarded(s)
  }

  // ---------- Frames ----------

  /** The same snapshots, guarded by the same live tasks. */
  lemma SnapshotsFrame(s: Tel, r: Tel)
    requires SnapshotsGuarded(s)
    requires r.staleAfter == s.staleAfter && r.current == s.current && r.staleTasks == s.staleTasks
    requires forall t :: LiveSnapshotTask(s, t) ==> LiveSnapshotTask(r, t) && r.timers[t] == s.timers[t]
    requires forall t :: LiveSnapshotTask(r, t) ==> LiveSnapshotTask(s, t)
    ensures SnapshotsGuarded(r)
  {
    forall d | d in r.current && !r.current[d].stale
      ensures GuardsSnapshot(r, d, r.current[d].timer)
    {
      assert GuardsSnapshot(s, d, s.current[d].timer);
      assert LiveSnapshotTask(s, s.current[d].timer);
    }
    forall t | LiveSnapshotTask(r, t)
      ensures GuardsSnapshot(r, r.timers[t].device, t)
    {
      assert GuardsSnapshot(s, s.timers[t].device, t);
    }
  }

  /** The same heartbeat, watched by the same live task. */
  lemma HeartbeatFrame(s: Tel, r: Tel, d: DeviceId)
    requires HeartbeatGuarded(s, d) && r.heartbeatAfter == s.heartbeatAfter
    requires SameHeartbeat(s, r, d)
    ensures HeartbeatGuarded(r, d)
  {
    forall t | LiveHeartbeatTask(r, t) && r.timers[t].device == d
      ensures Watches(r, d, t)
    {
      assert Watches(s, d, t);
    }
  }

  /** Neither the heartbeat of `d` nor any task set for it differs, but for its sequence number. */
  ghost predicate SameHeartbeat(s: Tel, r: Tel, d: DeviceId) {
    && (d in s.heartbeats <==> d in r.heartbeats)
    && (d in s.heartbeats ==> s.heartbeats[d].status == r.heartbeats[d].status
                              && s.heartbeats[d].lastSuccess == r.heartbeats[d].lastSuccess)
    && (d in s.heartbeatTasks <==> d in r.heartbeatTasks)
    && (d in s.heartbeatTasks ==> s.heartbeatTasks[d] == r.heartbeatTasks[d])
    && (forall t :: LiveHeartbeatTask(s, t) && s.timers[t].device == d ==> t in r.timers && r.timers[t] == s.timers[t])
    && (forall t :: LiveHeartbeatTask(r, t) && r.timers[t].device == d ==> t in s.timers && r.timers[t] == s.timers[t])
  }

  /** Publishing and marking stale touch no task. */
  lemma StaleMarksKeepTimers(s: Tel, r: Tel)
    requires TimerInv(s)
    requires r == s.(current := r.current, sequences := r.sequences, latest := r.latest, log := r.log)
    requires r.current.Keys == s.current.Keys
    requires forall d :: d in s.current ==>
               && r.current[d] == s.current[d].(stale := r.current[d].stale)
               && (s.current[d].stale ==> r.current[d].stale)
    ensures TimerInv(r)
  {
    forall d | d in r.current && !r.current[d].stale
      ensures GuardsSnapshot(r, d, r.current[d].timer)
    {
      assert GuardsSnapshot(s, d, s.current[d].timer);
    }
    forall t | LiveSnapshotTask(r, t)
      ensures GuardsSnapshot(r, r.timers[t].device, t)
    {
      assert LiveSnapshotTask(s, t);
      assert GuardsSnapshot(s, s.timers[t].device, t);
    }
    forall d
      ensures HeartbeatGuarded(r, d)
    {
      HeartbeatFrame(s, r, d);
    }
  }

  lemma SweepKeepsTimers(s: Tel, now: Instant, force: Option<DeviceId>, reason: string)
    requires TimerInv(s)
    ensures TimerInv(MarkStale(s, now, force, reason))
  {
    SweepMarks(s, s.order, now, force, reason);
    StaleMarksKeepTimers(s, MarkStale(s, now, force, reason));
  }

  lemma ConnectionKeepsTimers(s: Tel, d: DeviceId, state: string, now: Instant)
    requires TimerInv(s)
    ensures TimerInv(Connection(s, d, state, now))
  {
    if d in s.current {
      var snap := s.current[d].snapshot;
      var r := Emit(s, d, ConnectionDraft(snap, state, now));
      StaleMarksKeepTimers(s, r);
      if state == "disconnected" {
        SweepKeepsTimers(r, now, Some(d), "disconnected");
        var t := MarkStale(r, now, Some(d), "disconnected");
        StaleMarksKeepTimers(t, Emit(t, d, UnavailableDraft(snap, now, "disconnected")));
      }
    }
  }

  // ---------- Heartbeats ----------

  /** All is in order but for device `d`, which has no live heartbeat task at the moment. */
  ghost predicate Suspended(s: Tel, d: DeviceId) {
    && TasksOk(s) && SnapshotsGuarded(s)
    && d in s.heartbeats && d !in s.heartbeatTasks
    && (forall t :: LiveHeartbeatTask(s, t) ==> s.timers[t].device != d)
    && (forall x :: x != d ==> HeartbeatGuarded(s, x))
  }

  /** Nothing but the heartbeat of `d` and what was published differs. */
  ghost predicate OnlyHeartbeat(s: Tel, r: Tel, d: DeviceId) {
    && r == s.(heartbeats := r.heartbeats, sequences := r.sequences, latest := r.latest, log := r.log)
    && d in r.heartbeats
    && (forall x :: x != d ==> (x in r.heartbeats <==> x in s.heartbeats))
    && (forall x :: x != d && x in s.heartbeats ==> r.heartbeats[x] == s.heartbeats[x])
  }

  lemma StoppedIsUnwatched(s: Tel, d: DeviceId)
    requires TasksOk(s) && HeartbeatsGuarded(s) && d in s.heartbeats
    ensures forall t :: LiveHeartbeatTask(StopHeartbeatTask(s, d), t) ==> StopHeartbeatTask(s, d).timers[t].device != d
  {
    var r := StopHeartbeatTask(s, d);
    assert HeartbeatGuarded(s, d);
    forall t | LiveHeartbeatTask(r, t) ensures r.timers[t].device != d {
      assert LiveHeartbeatTask(s, t);
    }
  }

  lemma StopSuspends(s: Tel, d: DeviceId)
    requires TimerInv(s) && d in s.heartbeats
    ensures Suspended(StopHeartbeatTask(s, d), d)
  {
    hide SnapshotsGuarded, HeartbeatGuarded;
    var r := StopHeartbeatTask(s, d);
    StoppedIsUnwatched(s, d);
    SnapshotsFrame(s, r);
    forall x | x != d
      ensures HeartbeatGuarded(r, x)
    {
      StoppedIsApart(s, d, x);
    }
  }

  lemma StoppedIsApart(s: Tel, d: DeviceId, x: DeviceId)
    requires TasksOk(s) && x != d && HeartbeatGuarded(s, x)
    ensures HeartbeatGuarded(StopHeartbeatTask(s, d), x)
  {
    hide HeartbeatGuarded;
    HeartbeatFrame(s, StopHeartbeatTask(s, d), x);
  }

  lemma SuspendedFrame(s: Tel, r: Tel, d: DeviceId)
    requires Suspended(s, d) && OnlyHeartbeat(s, r, d)
    ensures Suspended(r, d)
  {
    SnapshotsFrame(s, r);
    forall x | x != d
      ensures HeartbeatGuarded(r, x)
    {
      HeartbeatFrame(s, r, x);
    }
  }

  /** Without a task the heartbeat may be anything but healthy. */
  lemma SuspendedUnhealthy(s: Tel, d: DeviceId)
    requires Suspended(s, d) && s.heartbeats[d].status != Healthy
    ensures TimerInv(s)
  {
    assert HeartbeatGuarded(s, d);
  }

  lemma StartTaskGuards(s: Tel, d: DeviceId, at: Instant)
    requires Suspended(s, d) && s.heartbeats[d].status == Healthy && s.heartbeats[d].lastSuccess == Some(at)
    ensures TimerInv(StartHeartbeatTask(s, d, at))
  {
    hide HeartbeatGuarded, SnapshotsGuarded, TasksOk, StartHeartbeatTask;
    var r := StartHeartbeatTask(s, d, at);
    StartedTaskKeepsRest(s, d, at);
    forall x
      ensures HeartbeatGuarded(r, x)
    {
      if x != d {
        StartedTaskIsApart(s, d, at, x);
      } else {
        StartedTaskGuards(s, d, at);
      }
    }
  }

  lemma StartedTaskKeepsRest(s: Tel, d: DeviceId, at: Instant)
    requires TasksOk(s) && SnapshotsGuarded(s)
    ensures TasksOk(StartHeartbeatTask(s, d, at)) && SnapshotsGuarded(StartHeartbeatTask(s, d, at))
  {
    hide SnapshotsGuarded;
    SnapshotsFrame(s, StartHeartbeatTask(s, d, at));
  }

  lemma StartedTaskIsApart(s: Tel, d: DeviceId, at: Instant, x: DeviceId)
    requires TasksOk(s) && x != d && HeartbeatGuarded(s, x)
    ensures HeartbeatGuarded(StartHeartbeatTask(s, d, at), x)
  {
    hide HeartbeatGuarded;
    HeartbeatFrame(s, StartHeartbeatTask(s, d, at), x);
  }

  lemma StartedTaskGuards(s: Tel, d: DeviceId, at: Instant)
    requires Suspended(s, d) && s.heartbeats[d].status == Healthy && s.heartbeats[d].lastSuccess == Some(at)
    ensures HeartbeatGuarded(StartHeartbeatTask(s, d, at), d)
  {
    hide SnapshotsGuarded;
  }

  /** No heartbeat becomes healthy, and one that had a success to watch over keeps it. */
  lemma UnhealthyChange(s: Tel, r: Tel, d: DeviceId)
    requires TimerInv(s) && OnlyHeartbeat(s, r, d)
    requires r.heartbeats[d].status == Healthy ==> d in s.heartbeats && s.heartbeats[d].status == Healthy
    requires d in s.heartbeats && Ticking(s.heartbeats[d].status) ==>
               Ticking(r.heartbeats[d].status) && r.heartbeats[d].lastSuccess == s.heartbeats[d].lastSuccess
    ensures TimerInv(r)
  {
    SnapshotsFrame(s, r);
    forall x
      ensures HeartbeatGuarded(r, x)
    {
      assert HeartbeatGuarded(s, x);
      if x != d {
        HeartbeatFrame(s, r, x);
      } else {
        forall t | LiveHeartbeatTask(r, t) && r.timers[t].device == d
          ensures Watches(r, d, t)
        {
          assert LiveHeartbeatTask(s, t);
          assert Watches(s, d, t);
        }
      }
    }
  }

  lemma EnsureKeepsTimers(s: Tel, d: DeviceId, source: Source)
    requires TimerInv(s)
    ensures TimerInv(EnsureHeartbeat(s, d, source))
  {
    hide TimerInv;
    if d !in s.heartbeats {
      UnhealthyChange(s, EnsureHeartbeat(s, d, source), d);
    }
  }

  lemma SuccessKeepsTimers(s: Tel, d: DeviceId, at: Instant, source: Source)
    requires TimerInv(s) && d in s.heartbeats
    ensures TimerInv(StartHeartbeatTask(PublishHeartbeat(Succeed(s, d, at, source), d, at), d, at))
  {
    StopSuspends(s, d);
    var told := PublishHeartbeat(Succeed(s, d, at, source), d, at);
    SuspendedFrame(StopHeartbeatTask(s, d), told, d);
    StartTaskGuards(told, d, at);
  }

  lemma CommunicationKeepsTimers(s: Tel, d: DeviceId, at: Instant, source: Source)
    requires TimerInv(s)
    ensures TimerInv(CommunicationSucceeded(s, d, at, source))
  {
    var r := EnsureHeartbeat(s, d, source);
    EnsureKeepsTimers(s, d, source);
    if NewsForHeartbeat(r.heartbeats[d], at) {
      SuccessKeepsTimers(r, d, at, source);
    }
  }

  lemma RegisterKeepsTimers(s: Tel, d: DeviceId, source: Source, now: Instant)
    requires TimerInv(s)
    ensures TimerInv(RegisterHeartbeat(s, d, source, now))
  {
    var r := EnsureHeartbeat(s, d, source);
    EnsureKeepsTimers(s, d, source);
    if r.heartbeats[d].sequence == 0 {
      UnhealthyChange(r, PublishHeartbeat(r, d, now), d);
    }
  }

  lemma HeartbeatDisconnectedKeepsTimers(s: Tel, d: DeviceId, now: Instant)
    requires TimerInv(s)
    ensures TimerInv(HeartbeatDisconnected(s, d, now))
  {
    if d in s.heartbeats {
      var r := StopHeartbeatTask(s, d);
      StopSuspends(s, d);
      if s.heartbeats[d].status == Disconnected {
        SuspendedUnhealthy(r, d);
      } else {
        var u := PublishHeartbeat(SetStatus(r, d, Disconnected), d, now);
        SuspendedFrame(r, u, d);
        SuspendedUnhealthy(u, d);
      }
    }
  }

  lemma HeartbeatExpectedKeepsTimers(s: Tel, d: DeviceId, now: Instant)
    requires TimerInv(s)
    ensures TimerInv(HeartbeatExpected(s, d, now))
  {
    if d in s.heartbeats && s.heartbeats[d].status == Disconnected {
      var t := SetStatus(s, d, RestoredStatus(s.heartbeats[d]));
      UnhealthyChange(s, PublishHeartbeat(t, d, now), d);
    }
  }

  // ---------- Recording and removing ----------

  /** The old snapshot task of the device is cancelled and the new one guards the new snapshot. */
  lemma InstallKeepsTimers(s: Tel, d: DeviceId, snap: Snapshot)
    requires TimerInv(s)
    ensures TimerInv(Install(s, d, snap))
  {
    hide HeartbeatsGuarded, SnapshotsGuarded, TasksOk, Install;
    InstallKeepsTasksOk(s, d, snap);
    InstallKeepsSnapshots(s, d, snap);
    InstallKeepsHeartbeats(s, d, snap);
  }

  lemma InstallKeepsTasksOk(s: Tel, d: DeviceId, snap: Snapshot)
    requires TasksOk(s)
    ensures TasksOk(Install(s, d, snap))
  {
  }

  lemma InstallKeepsSnapshots(s: Tel, d: DeviceId, snap: Snapshot)
    requires TasksOk(s) && SnapshotsGuarded(s)
    ensures SnapshotsGuarded(Install(s, d, snap))
  {
    var r := Install(s, d, snap);
    forall x | x in r.current && !r.current[x].stale
      ensures GuardsSnapshot(r, x, r.current[x].timer)
    {
      if x != d {
        assert GuardsSnapshot(s, x, s.current[x].timer);
      }
    }
    forall t | LiveSnapshotTask(r, t)
      ensures GuardsSnapshot(r, r.timers[t].device, t)
    {
      if t != s.nextTimer {
        assert LiveSnapshotTask(s, t);
        assert GuardsSnapshot(s, s.timers[t].device, t);
      }
    }
  }

  lemma InstallKeepsHeartbeats(s: Tel, d: DeviceId, snap: Snapshot)
    requires TasksOk(s) && HeartbeatsGuarded(s)
    ensures HeartbeatsGuarded(Install(s, d, snap))
  {
    forall x
      ensures HeartbeatGuarded(Install(s, d, snap), x)
    {
      HeartbeatFrame(s, Install(s, d, snap), x);
    }
  }

  lemma RecordKeepsTimers(s: Tel, d: DeviceId, snap: Snapshot, now: Instant)
    requires TimerInv(s)
    ensures TimerInv(Record(s, d, snap, now))
  {
    if IsNewer(s, d, snap) {
      var t := NoteCommunication(s, d, snap);
      if snap.communicatedAt.Some? {
        CommunicationKeepsTimers(s, d, snap.communicatedAt.value, snap.source);
      }
      InstallKeepsTimers(t, d, snap);
      var u := Install(t, d, snap);
      StaleMarksKeepTimers(u, EmitAll(u, d, RecordDrafts(CurrentOf(s, d), snap)));
    } else {
      SweepKeepsTimers(s, now, None, "stale");
    }
  }

  lemma DropKeepsTasksOk(s: Tel, d: DeviceId)
    requires TasksOk(s)
    ensures TasksOk(Drop(s, d))
  {
  }

  lemma DropKeepsSnapshots(s: Tel, d: DeviceId)
    requires TasksOk(s) && SnapshotsGuarded(s)
    ensures TasksOk(Drop(s, d)) && SnapshotsGuarded(Drop(s, d))
  {
    DropKeepsTasksOk(s, d);
    var r := Drop(s, d);
    forall x | x in r.current && !r.current[x].stale
      ensures GuardsSnapshot(r, x, r.current[x].timer)
    {
      assert GuardsSnapshot(s, x, s.current[x].timer);
    }
    forall t | LiveSnapshotTask(r, t)
      ensures GuardsSnapshot(r, r.timers[t].device, t)
    {
      assert LiveSnapshotTask(s, t);
      assert GuardsSnapshot(s, s.timers[t].device, t);
    }
  }

  lemma DropKeepsHeartbeats(s: Tel, d: DeviceId, x: DeviceId)
    requires TasksOk(s) && HeartbeatGuarded(s, d) && HeartbeatGuarded(s, x)
    ensures HeartbeatGuarded(Drop(s, d), x)
  {
    hide HeartbeatGuarded;
    if x != d {
      DropKeepsOtherHeartbeat(s, d, x);
    } else {
      DropEndsHeartbeat(s, d);
    }
  }

  lemma DropKeepsOtherHeartbeat(s: Tel, d: DeviceId, x: DeviceId)
    requires TasksOk(s) && x != d && HeartbeatGuarded(s, x)
    ensures HeartbeatGuarded(Drop(s, d), x)
  {
    hide HeartbeatGuarded, Without, Forget;
    HeartbeatFrame(s, Drop(s, d), x);
  }

  lemma DropEndsHeartbeat(s: Tel, d: DeviceId)
    requires TasksOk(s) && HeartbeatGuarded(s, d)
    ensures HeartbeatGuarded(Drop(s, d), d)
  {
    hide Without, Forget;
    var r := Drop(s, d);
    forall t | LiveHeartbeatTask(r, t)
      ensures r.timers[t].device != d
    {
      assert LiveHeartbeatTask(s, t);
    }
  }

  lemma DropKeepsTimers(s: Tel, d: DeviceId)
    requires TimerInv(s)
    ensures TimerInv(Drop(s, d))
  {
    DropKeepsSnapshots(s, d);
    forall x
      ensures HeartbeatGuarded(Drop(s, d), x)
    {
      assert HeartbeatGuarded(s, d) && HeartbeatGuarded(s, x);
      DropKeepsHeartbeats(s, d, x);
    }
  }

  lemma RemoveKeepsTimers(s: Tel, d: DeviceId, now: Instant)
    requires TimerInv(s)
    ensures TimerInv(Remove(s, d, now))
  {
    ConnectionKeepsTimers(s, d, "disconnected", now);
    var r := Connection(s, d, "disconnected", now);
    HeartbeatDisconnectedKeepsTimers(r, d, now);
    DropKeepsTimers(HeartbeatDisconnected(r, d, now), d);
  }

  // ---------- Deadline tasks running ----------

  lemma FinishCancelled(s: Tel, task: nat)
    requires TimerInv(s) && task in s.timers && !s.timers[task].live
    ensures TimerInv(Finish(s, task))
  {
    var r := Finish(s, task);
    SnapshotsFrame(s, r);
    forall x
      ensures HeartbeatGuarded(r, x)
    {
      HeartbeatFrame(s, r, x);
    }
  }

  lemma FiredSnapshotsGuarded(s: Tel, task: nat, now: Instant, r: Tel)
    requires SnapshotsGuarded(s) && OrderMatches(s) && LiveSnapshotTask(s, task) && s.timers[task].due <= now
    requires r == MarkStale(Finish(s, task), now, None, "stale")
    ensures SnapshotsGuarded(r)
  {
    assert GuardsSnapshot(s, s.timers[task].device, task);
    var q := Finish(s, task);
    SweepMarks(q, q.order, now, None, "stale");
    forall x | x in r.current && !r.current[x].stale
      ensures GuardsSnapshot(r, x, r.current[x].timer)
    {
      assert GuardsSnapshot(s, x, s.current[x].timer);
    }
    forall t | LiveSnapshotTask(r, t)
      ensures GuardsSnapshot(r, r.timers[t].device, t)
    {
      assert LiveSnapshotTask(s, t);
      assert GuardsSnapshot(s, s.timers[t].device, t);
    }
  }

  /** A live snapshot task runs no earlier than its deadline, and then its snapshot is marked. */
  lemma FireSnapshotTask(s: Tel, task: nat, now: Instant)
    requires TimerInv(s) && OrderMatches(s) && LiveSnapshotTask(s, task) && s.timers[task].due <= now
    ensures TimerInv(Fire(s, task, now))
  {
    hide SnapshotsGuarded, HeartbeatsGuarded, TasksOk, Sweep;
    assert GuardsSnapshot(s, s.timers[task].device, task) by {
      LiveIsGuarding(s, task);
    }
    var r := MarkStale(Finish(s, task), now, None, "stale");
    assert r == Fire(s, task, now);
    FiredSnapshotsGuarded(s, task, now, r);
    FinishKeepsRest(s, r, task);
  }

  lemma LiveIsGuarding(s: Tel, task: nat)
    requires SnapshotsGuarded(s) && LiveSnapshotTask(s, task)
    ensures GuardsSnapshot(s, s.timers[task].device, task)
  {
  }

  /** A finished snapshot task concerns no heartbeat. */
  lemma FinishKeepsRest(s: Tel, r: Tel, task: nat)
    requires TasksOk(s) && HeartbeatsGuarded(s) && LiveSnapshotTask(s, task)
    requires r == Finish(s, task).(current := r.current, sequences := r.sequences, latest := r.latest, log := r.log)
    ensures TasksOk(r) && HeartbeatsGuarded(r)
  {
    hide HeartbeatGuarded;
    forall x
      ensures HeartbeatGuarded(r, x)
    {
      HeartbeatFrame(s, r, x);
    }
  }

  /** A live heartbeat task finds the success it was set for still the newest, and demotes it. */
  lemma FireHeartbeatTask(s: Tel, task: nat, now: Instant)
    requires TimerInv(s) && LiveHeartbeatTask(s, task)
    ensures TimerInv(Fire(s, task, now))
  {
    hide SnapshotsGuarded, HeartbeatGuarded, TasksOk, Emit;
    var d := s.timers[task].device;
    var r := Fire(s, task, now);
    FiredHeartbeatFrame(s, task, now);
    FinishedKeepsRest(s, r, task);
    forall x
      ensures HeartbeatGuarded(r, x)
    {
      assert HeartbeatGuarded(s, x);
      if x != d {
        HeartbeatFrame(s, r, x);
      } else {
        FiredIsUnwatched(s, task, r);
      }
    }
  }

  /** The heartbeat of its device is demoted, and no other heartbeat or task is touched. */
  lemma FiredHeartbeatFrame(s: Tel, task: nat, now: Instant)
    requires HeartbeatsGuarded(s) && LiveHeartbeatTask(s, task)
    ensures var r := Fire(s, task, now);
            && r == Finish(s, task).(heartbeats := r.heartbeats, sequences := r.sequences, latest := r.latest, log := r.log)
            && s.timers[task].device in r.heartbeats && r.heartbeats[s.timers[task].device].status != Healthy
            && (forall x :: x != s.timers[task].device ==> (x in r.heartbeats <==> x in s.heartbeats))
            && (forall x :: x != s.timers[task].device && x in s.heartbeats ==> r.heartbeats[x] == s.heartbeats[x])
  {
    hide Emit;
    var d := s.timers[task].device;
    assert HeartbeatGuarded(s, d);
    assert Watches(s, d, task);
  }

  lemma FinishedKeepsRest(s: Tel, r: Tel, task: nat)
    requires TasksOk(s) && SnapshotsGuarded(s) && LiveHeartbeatTask(s, task)
    requires r == Finish(s, task).(heartbeats := r.heartbeats, sequences := r.sequences, latest := r.latest, log := r.log)
    ensures TasksOk(r) && SnapshotsGuarded(r)
  {
    hide SnapshotsGuarded;
    SnapshotsFrame(s, r);
  }

  lemma FiredIsUnwatched(s: Tel, task: nat, r: Tel)
    requires LiveHeartbeatTask(s, task) && HeartbeatGuarded(s, s.timers[task].device)
    requires r == Finish(s, task).(heartbeats := r.heartbeats, sequences := r.sequences, latest := r.latest, log := r.log)
    requires s.timers[task].device in r.heartbeats && r.heartbeats[s.timers[task].device].status != Healthy
    ensures HeartbeatGuarded(r, s.timers[task].device)
  {
    var d := s.timers[task].device;
    assert Watches(s, d, task);
    forall t | LiveHeartbeatTask(r, t)
      ensures r.timers[t].device != d
    {
      assert LiveHeartbeatTask(s, t);
    }
  }

  /**
   A task that runs keeps the tasks in order even when it was cancelled and runs late: its
   guard lets it demote only the very success it was set for.
   */
  lemma FireKeepsTimers(s: Tel, task: nat, now: Instant)
    requires TimerInv(s) && OrderMatches(s) && task in s.timers && s.timers[task].due <= now
    ensures TimerInv(Fire(s, task, now))
  {
    if LiveSnapshotTask(s, task) {
      FireSnapshotTask(s, task, now);
    } else if LiveHeartbeatTask(s, task) {
      FireHeartbeatTask(s, task, now);
    } else {
      FinishCancelled(s, task);
      var q := Finish(s, task);
      match s.timers[task].goal {
        case SnapshotDeadline =>
          SweepKeepsTimers(q, now, None, "stale");
        case HeartbeatDeadline(at) =>
          var d := s.timers[task].device;
          if StillNewest(s, d, at) {
            UnhealthyChange(q, PublishHeartbeat(SetStatus(q, d, Stale), d, now), d);
          }
      }
    }
  }
}
