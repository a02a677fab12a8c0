/**
 Runs of the telemetry state: any interleaving of snapshots, connection reports, heartbeat
 calls, deadline tasks (late or cancelled ones included), removals, passing time and events
 of other components. The main theorems hold after every such run.
 */
module Runs {
  import opened Basics
  import opened Events
  import opened Models
  import opened Telemetry
  import opened Agreement
  import opened Sequences
  import opened Freshness

  /** `reported` lists the devices reported disconnected since their newest snapshot. */
  datatype Machine = Machine(tel: Tel, now: Instant, reported: set<DeviceId>)

  datatype Step =
    | Tick(to: Instant)
    | RecordStep(device: DeviceId, snapshot: Snapshot)
    | SweepStep
    | ConnectionStep(device: DeviceId, state: string)
    | EnsureStep(device: DeviceId, source: Source)
    | RegisterStep(device: DeviceId, source: Source)
    | SuccessStep(device: DeviceId, at: Instant, source: Source)
    | HeartbeatDisconnectedStep(device: DeviceId)
    | HeartbeatExpectedStep(device: DeviceId)
    | FireStep(task: nat)
    | RemoveStep(device: DeviceId)
    | OtherStep(event: Event)

  /**
   Time does not run backwards, snapshots passed their own checks, equal battery times mean
   equal readings, a task sleeps until its deadline, and other components publish only
   their own kinds of event.
   */
  predicate Enabled(m: Machine, step: Step) {
    match step
    case Tick(to) => m.now <= to
    case RecordStep(d, snap) =>
      ValidSnapshot(snap) && (IsNewer(m.tel, d, snap) ==> BatteryCoherent(CurrentOf(m.tel, d), snap))
    case FireStep(task) => task in m.tel.timers && m.tel.timers[task].due <= m.now
    case OtherStep(e) => !TelemetryKind(e.kind) && (e.kind == ServiceAvailability ==> e.device == None)
    case _ => true
  }

  function Next(m: Machine, step: Step): Machine
    requires Enabled(m, step)
  {
    match step
    case Tick(to) => m.(now := to)
    case RecordStep(d, snap) =>
      m.(tel := Record(m.tel, d, snap, m.now),
         reported := if IsNewer(m.tel, d, snap) then m.reported - {d} else m.reported)
    case SweepStep => m.(tel := MarkStale(m.tel, m.now, None, "stale"))
    case ConnectionStep(d, state) =>
      m.(tel := Connection(m.tel, d, state, m.now),
         reported := if state == "disconnected" then m.reported + {d} else m.reported)
    case EnsureStep(d, source) => m.(tel := EnsureHeartbeat(m.tel, d, source))
    case RegisterStep(d, source) => m.(tel := RegisterHeartbeat(m.tel, d, source, m.now))
    case SuccessStep(d, at, source) => m.(tel := CommunicationSucceeded(m.tel, d, at, source))
    case HeartbeatDisconnectedStep(d) => m.(tel := HeartbeatDisconnected(m.tel, d, m.now))
    case HeartbeatExpectedStep(d) => m.(tel := HeartbeatExpected(m.tel, d, m.now))
    case FireStep(task) => m.(tel := Fire(m.tel, task, m.now))
    case RemoveStep(d) => m.(tel := Remove(m.tel, d, m.now), reported := m.reported - {d})
    case OtherStep(e) => m.(tel := PublishOther(m.tel, e))
  }

  function Start(staleAfter: int, heartbeatAfter: int, now: Instant): Machine {
    Machine(Init(staleAfter, heartbeatAfter), now, {})
  }

  /** A run is a sequence of steps each of which is enabled where it happens. */
  predicate Runs(m: Machine, steps: seq<Step>)
    decreases |steps|
  {
    |steps| > 0 ==> Enabled(m, steps[0]) && Runs(Next(m, steps[0]), steps[1..])
  }

  function After(m: Machine, steps: seq<Step>): Machine
    requires Runs(m, steps)
    decreases |steps|
  {
    if |steps| == 0 then m else After(Next(m, steps[0]), steps[1..])
  }

  // ---------- The retained map follows the log ----------

  /** What is remembered is the fold of the log, and the log of `r` continues that of `s`. */
  ghost predicate Continues(s: Tel, r: Tel) {
    && s.log <= r.log
    && (s.latest == Latest(s.log) ==> r.latest == Latest(r.log))
  }

  /** The same, and nothing was forgotten. */
  ghost predicate Publishes(s: Tel, r: Tel) {
    && Continues(s, r)
    && forall i :: |s.log| <= i < |r.log| ==> r.log[i].Published?
  }

  lemma EmitPublishes(s: Tel, d: DeviceId, draft: Draft)
    ensures Publishes(s, Emit(s, d, draft))
  {
    LatestAppend(s.log, Emit(s, d, draft).log[|s.log|]);
  }

  lemma {:induction false} EmitAllPublishes(s: Tel, d: DeviceId, drafts: seq<Draft>)
    ensures Publishes(s, EmitAll(s, d, drafts))
  {
    if |drafts| > 0 {
      EmitAllPublishes(s, d, drafts[..|drafts| - 1]);
      EmitPublishes(EmitAll(s, d, drafts[..|drafts| - 1]), d, drafts[|drafts| - 1]);
    }
  }

  lemma MarkIfOverduePublishes(s: Tel, d: DeviceId, now: Instant, force: Option<DeviceId>, reason: string)
    ensures Publishes(s, MarkIfOverdue(s, d, now, force, reason))
  {
    if Overdue(s, d, now, force) {
      var c := s.current[d];
      EmitAllPublishes(s.(current := s.current[d := c.(stale := true)]), d, StaleDrafts(c.snapshot, now, reason));
    }
  }

  lemma {:induction false} SweepPublishes(s: Tel, todo: seq<DeviceId>, now: Instant, force: Option<DeviceId>,
                                          reason: string)
    ensures Publishes(s, Sweep(s, todo, now, force, reason))
    decreases |todo|
  {
    if |todo| > 0 {
      MarkIfOverduePublishes(s, todo[0], now, force, reason);
      SweepPublishes(MarkIfOverdue(s, todo[0], now, force, reason), todo[1..], now, force, reason);
    }
  }

  lemma ConnectionPublishes(s: Tel, d: DeviceId, state: string, now: Instant)
    ensures Publishes(s, Connection(s, d, state, now))
  {
    if d in s.current {
      var snap := s.current[d].snapshot;
      var r := Emit(s, d, ConnectionDraft(snap, state, now));
      EmitPublishes(s, d, ConnectionDraft(snap, state, now));
      if state == "disconnected" {
        SweepPublishes(r, r.order, now, Some(d), "disconnected");
        EmitPublishes(MarkStale(r, now, Some(d), "disconnected"), d, UnavailableDraft(snap, now, "disconnected"));
      }
    }
  }

  lemma PublishHeartbeatPublishes(s: Tel, d: DeviceId, at: Instant)
    requires d in s.heartbeats
    ensures Publishes(s, PublishHeartbeat(s, d, at))
  {
    EmitPublishes(s, d, HeartbeatDraft(s, s.heartbeats[d], at));
  }

  lemma SuccessPublishes(s: Tel, d: DeviceId, at: Instant, source: Source)
    requires d in s.heartbeats
    ensures Publishes(s, StartHeartbeatTask(PublishHeartbeat(Succeed(s, d, at, source), d, at), d, at))
  {
    PublishHeartbeatPublishes(Succeed(s, d, at, source), d, at);
  }

  lemma CommunicationPublishes(s: Tel, d: DeviceId, at: Instant, source: Source)
    ensures Publishes(s, CommunicationSucceeded(s, d, at, source))
  {
    hide Publishes, PublishHeartbeat, Succeed, StartHeartbeatTask;
    var r := EnsureHeartbeat(s, d, source);
    if NewsForHeartbeat(r.heartbeats[d], at) {
      SuccessPublishes(r, d, at, source);
      SameLogPublishes(s, r, CommunicationSucceeded(s, d, at, source));
    } else {
      SilentPublishes(s, r);
    }
  }

  lemma HeartbeatDisconnectedPublishes(s: Tel, d: DeviceId, now: Instant)
    ensures Publishes(s, HeartbeatDisconnected(s, d, now))
  {
    if d in s.heartbeats && s.heartbeats[d].status != Disconnected {
      PublishHeartbeatPublishes(SetStatus(StopHeartbeatTask(s, d), d, Disconnected), d, now);
    }
  }

  lemma RecordPublishes(s: Tel, d: DeviceId, snap: Snapshot, now: Instant)
    ensures Publishes(s, Record(s, d, snap, now))
  {
    if IsNewer(s, d, snap) {
      if snap.communicatedAt.Some? {
        CommunicationPublishes(s, d, snap.communicatedAt.value, snap.source);
      }
      EmitAllPublishes(Install(NoteCommunication(s, d, snap), d, snap), d, RecordDrafts(CurrentOf(s, d), snap));
    } else {
      SweepPublishes(s, s.order, now, None, "stale");
    }
  }

  lemma RemoveContinues(s: Tel, d: DeviceId, now: Instant)
    ensures Continues(s, Remove(s, d, now))
  {
    ConnectionPublishes(s, d, "disconnected", now);
    var r := Connection(s, d, "disconnected", now);
    HeartbeatDisconnectedPublishes(r, d, now);
    var t := HeartbeatDisconnected(r, d, now);
    LatestAppend(t.log, Forgotten(d));
  }

  lemma FirePublishes(s: Tel, task: nat, now: Instant)
    requires task in s.timers
    ensures Publishes(s, Fire(s, task, now))
  {
    var t := s.timers[task];
    var r := Finish(s, task);
    match t.goal {
      case SnapshotDeadline => SweepPublishes(r, r.order, now, None, "stale");
      case HeartbeatDeadline(at) =>
        if StillNewest(s, t.device, at) {
          PublishHeartbeatPublishes(SetStatus(r, t.device, Stale), t.device, now);
        }
    }
  }

  lemma HeartbeatStepPublishes(m: Machine, step: Step)
    requires step.EnsureStep? || step.RegisterStep? || step.SuccessStep? || step.HeartbeatDisconnectedStep?
             || step.HeartbeatExpectedStep?
    ensures Publishes(m.tel, Next(m, step).tel)
  {
    hide Publishes, Emit, PublishHeartbeat, CommunicationSucceeded, HeartbeatDisconnected;
    match step {
      case EnsureStep(d, source) => SilentPublishes(m.tel, EnsureHeartbeat(m.tel, d, source));
      case RegisterStep(d, source) => RegisterPublishes(m.tel, d, source, m.now);
      case SuccessStep(d, at, source) => CommunicationPublishes(m.tel, d, at, source);
      case HeartbeatDisconnectedStep(d) => HeartbeatDisconnectedPublishes(m.tel, d, m.now);
      case HeartbeatExpectedStep(d) => HeartbeatExpectedPublishes(m.tel, d, m.now);
      case _ =>
    }
  }

  lemma SilentPublishes(s: Tel, r: Tel)
    requires r.log == s.log && r.latest == s.latest
    ensures Publishes(s, r)
  {
  }

  lemma RegisterPublishes(s: Tel, d: DeviceId, source: Source, now: Instant)
    ensures Publishes(s, RegisterHeartbeat(s, d, source, now))
  {
    hide Publishes, PublishHeartbeat;
    var r := EnsureHeartbeat(s, d, source);
    if r.heartbeats[d].sequence == 0 {
      PublishHeartbeatPublishes(r, d, now);
      SameLogPublishes(s, r, PublishHeartbeat(r, d, now));
    } else {
      SilentPublishes(s, r);
    }
  }

  lemma SameLogPublishes(s: Tel, r: Tel, t: Tel)
    requires r.log == s.log && r.latest == s.latest && Publishes(r, t)
    ensures Publishes(s, t)
  {
  }

  lemma HeartbeatExpectedPublishes(s: Tel, d: DeviceId, now: Instant)
    ensures Publishes(s, HeartbeatExpected(s, d, now))
  {
    if d in s.heartbeats && s.heartbeats[d].status == Disconnected {
      PublishHeartbeatPublishes(SetStatus(s, d, RestoredStatus(s.heartbeats[d])), d, now);
    }
  }

  /** Every step but a removal only publishes. */
  lemma NextPublishes(m: Machine, step: Step)
    requires Enabled(m, step) && !step.RemoveStep?
    ensures Publishes(m.tel, Next(m, step).tel)
  {
    hide Publishes, Emit, Record, Sweep, Connection, Fire, Latest;
    match step {
      case Tick(_) => SilentPublishes(m.tel, m.tel);
      case RecordStep(d, snap) => RecordPublishes(m.tel, d, snap, m.now);
      case SweepStep => SweepPublishes(m.tel, m.tel.order, m.now, None, "stale");
      case ConnectionStep(d, state) => ConnectionPublishes(m.tel, d, state, m.now);
      case FireStep(task) => FirePublishes(m.tel, task, m.now);
      case OtherStep(e) => OtherPublishes(m.tel, e);
      case _ => HeartbeatStepPublishes(m, step);
    }
  }

  lemma OtherPublishes(s: Tel, e: Event)
    ensures Publishes(s, PublishOther(s, e))
  {
    LatestAppend(s.log, Published(e));
  }

  lemma NextContinues(m: Machine, step: Step)
    requires Enabled(m, step)
    ensures Continues(m.tel, Next(m, step).tel)
  {
    if step.RemoveStep? {
      RemoveContinues(m.tel, step.device, m.now);
    } else {
      NextPublishes(m, step);
    }
  }

  // ---------- The order of the current snapshots ----------

  lemma {:induction false} WithoutRemoves(order: seq<DeviceId>, d: DeviceId)
    ensures forall x :: x in Without(order, d) <==> x in order && x != d
    ensures Distinct(order) ==> Distinct(Without(order, d))
  {
    if |order| > 0 {
      WithoutRemoves(order[..|order| - 1], d);
      var last := order[|order| - 1];
      forall x
        ensures x in order <==> x in order[..|order| - 1] || x == last
      {
        assert order == order[..|order| - 1] + [last];
      }
      if Distinct(order) {
        assert Distinct(order[..|order| - 1]);
        assert last !in order[..|order| - 1];
      }
    }
  }

  /** Between the two states some snapshots were marked stale, each allowed to be by `now`. */
  ghost predicate OnlyMarked(s: Tel, r: Tel, now: Instant, force: Option<DeviceId>) {
    && r.order == s.order && r.staleAfter == s.staleAfter && r.current.Keys == s.current.Keys
    && forall d :: d in s.current ==>
         && r.current[d] == s.current[d].(stale := r.current[d].stale)
         && (r.current[d].stale ==> s.current[d].stale || Overdue(s, d, now, force))
  }

  lemma SweepOnlyMarks(s: Tel, now: Instant, force: Option<DeviceId>, reason: string)
    ensures OnlyMarked(s, MarkStale(s, now, force, reason), now, force)
  {
    SweepMarks(s, s.order, now, force, reason);
  }

  lemma FireMarks(s: Tel, task: nat, now: Instant)
    requires task in s.timers
    ensures OnlyMarked(s, Fire(s, task, now), now, None)
  {
    hide Sweep, PublishHeartbeat;
    var q := Finish(s, task);
    match s.timers[task].goal {
      case SnapshotDeadline => SweepOnlyMarks(q, now, None, "stale");
      case HeartbeatDeadline(_) =>
    }
  }

  lemma ConnectionMarks(s: Tel, d: DeviceId, state: string, now: Instant)
    ensures OnlyMarked(s, Connection(s, d, state, now), now, if state == "disconnected" then Some(d) else None)
  {
    if d in s.current {
      var r := Emit(s, d, ConnectionDraft(s.current[d].snapshot, state, now));
      SweepOnlyMarks(r, now, Some(d), "disconnected");
    }
  }

  /** A stale snapshot is past its deadline, or its device was reported disconnected since. */
  ghost predicate StaleForAReason(m: Machine) {
    forall d :: d in m.tel.current && m.tel.current[d].stale ==>
                  d in m.reported || m.now - m.tel.current[d].snapshot.observedAt >= m.tel.staleAfter
  }

  ghost predicate Calendar(m: Machine) {
    OrderMatches(m.tel) && StaleForAReason(m)
  }

  lemma MarkedCalendar(m: Machine, r: Tel, force: Option<DeviceId>)
    requires Calendar(m) && OnlyMarked(m.tel, r, m.now, force)
    ensures Calendar(Machine(r, m.now, if force.Some? then m.reported + {force.value} else m.reported))
  {
  }

  lemma RecordCalendar(m: Machine, d: DeviceId, snap: Snapshot)
    requires Calendar(m) && Enabled(m, RecordStep(d, snap))
    ensures Calendar(Next(m, RecordStep(d, snap)))
  {
    if IsNewer(m.tel, d, snap) {
      var t := NoteCommunication(m.tel, d, snap);
      var u := Install(t, d, snap);
      assert OrderMatches(u);
    } else {
      SweepOnlyMarks(m.tel, m.now, None, "stale");
      MarkedCalendar(m, MarkStale(m.tel, m.now, None, "stale"), None);
    }
  }

  lemma HeartbeatStepFrame(m: Machine, step: Step)
    requires step.EnsureStep? || step.RegisterStep? || step.SuccessStep? || step.HeartbeatDisconnectedStep?
             || step.HeartbeatExpectedStep?
    ensures var n := Next(m, step);
            && n.now == m.now && n.reported == m.reported
            && n.tel.order == m.tel.order && n.tel.current == m.tel.current && n.tel.staleAfter == m.tel.staleAfter
  {
    hide Emit;
  }

  /** Heartbeat calls touch neither the current snapshots nor their order. */
  lemma HeartbeatStepCalendar(m: Machine, step: Step)
    requires Calendar(m)
    requires step.EnsureStep? || step.RegisterStep? || step.SuccessStep? || step.HeartbeatDisconnectedStep?
             || step.HeartbeatExpectedStep?
    ensures Calendar(Next(m, step))
  {
    HeartbeatStepFrame(m, step);
    hide Next;
  }

  lemma NextCalendar(m: Machine, step: Step)
    requires Calendar(m) && Enabled(m, step)
    ensures Calendar(Next(m, step))
  {
    match step {
      case Tick(_) =>
      case RecordStep(d, snap) => RecordCalendar(m, d, snap);
      case SweepStep =>
        SweepOnlyMarks(m.tel, m.now, None, "stale");
        MarkedCalendar(m, MarkStale(m.tel, m.now, None, "stale"), None);
      case ConnectionStep(d, state) =>
        ConnectionMarks(m.tel, d, state, m.now);
        MarkedCalendar(m, Connection(m.tel, d, state, m.now), if state == "disconnected" then Some(d) else None);
      case FireStep(task) =>
        FireMarks(m.tel, task, m.now);
        MarkedCalendar(m, Fire(m.tel, task, m.now), None);
      case RemoveStep(d) => RemoveCalendar(m, d);
      case OtherStep(e) =>
      case _ => HeartbeatStepCalendar(m, step);
    }
  }

  lemma HeartbeatDisconnectedFrame(s: Tel, d: DeviceId, now: Instant)
    ensures var r := HeartbeatDisconnected(s, d, now);
            r.order == s.order && r.current == s.current && r.staleAfter == s.staleAfter
  {
  }

  lemma RemoveCalendar(m: Machine, d: DeviceId)
    requires Calendar(m)
    ensures Calendar(Next(m, RemoveStep(d)))
  {
    ConnectionMarks(m.tel, d, "disconnected", m.now);
    var r := Connection(m.tel, d, "disconnected", m.now);
    HeartbeatDisconnectedFrame(r, d, m.now);
    WithoutRemoves(m.tel.order, d);
  }

  // ---------- The invariant of every run ----------

  ghost predicate Inv(m: Machine) {
    && AllAgree(m.tel)
    && StreamInv(m.tel)
    && TimerInv(m.tel)
    && Calendar(m)
    && m.tel.latest == Latest(m.tel.log)
  }

  lemma StartInv(staleAfter: int, heartbeatAfter: int, now: Instant)
    ensures Inv(Start(staleAfter, heartbeatAfter, now))
  {
    var s := Init(staleAfter, heartbeatAfter);
    forall d
      ensures Agrees(s, d)
    {
    }
  }

  lemma NextAgrees(m: Machine, step: Step)
    requires AllAgree(m.tel) && OrderMatches(m.tel) && Enabled(m, step)
    ensures AllAgree(Next(m, step).tel)
  {
    match step {
      case Tick(_) =>
      case RecordStep(d, snap) => RecordAgrees(m.tel, d, snap, m.now);
      case SweepStep => SweepAgrees(m.tel, m.tel.order, m.now, None, "stale");
      case ConnectionStep(d, state) => ConnectionAgrees(m.tel, d, state, m.now);
      case EnsureStep(d, source) =>
        assert Agrees(m.tel, d);
        EnsureHeartbeatAgrees(m.tel, d, source);
        RestoringKeepsAgreement(m.tel, EnsureHeartbeat(m.tel, d, source), d);
      case RegisterStep(d, source) => RegisterAgrees(m.tel, d, source, m.now);
      case SuccessStep(d, at, source) => CommunicationAgrees(m.tel, d, at, source);
      case HeartbeatDisconnectedStep(d) => HeartbeatDisconnectedAgrees(m.tel, d, m.now);
      case HeartbeatExpectedStep(d) => HeartbeatExpectedAgrees(m.tel, d, m.now);
      case FireStep(task) => FireAgrees(m.tel, task, m.now);
      case RemoveStep(d) => RemoveAgrees(m.tel, d, m.now);
      case OtherStep(e) => OtherAgrees(m.tel, e);
    }
  }

  lemma RemoveOrdered(s: Tel, d: DeviceId, now: Instant)
    requires StreamInv(s) && AllAgree(s) && OrderMatches(s)
    ensures StreamInv(Remove(s, d, now))
  {
    ConnectionOrdered(s, d, "disconnected", now);
    ConnectionAgrees(s, d, "disconnected", now);
    var r := Connection(s, d, "disconnected", now);
    assert Agrees(r, d);
    HeartbeatDisconnectedOrdered(r, d, now);
    DropOrdered(HeartbeatDisconnected(r, d, now), d);
  }

  lemma NextOrdered(m: Machine, step: Step)
    requires StreamInv(m.tel) && AllAgree(m.tel) && OrderMatches(m.tel) && Enabled(m, step)
    ensures StreamInv(Next(m, step).tel)
  {
    match step {
      case Tick(_) =>
      case RecordStep(d, snap) =>
        assert Agrees(m.tel, d);
        RecordOrdered(m.tel, d, snap, m.now);
      case SweepStep => SweepOrdered(m.tel, m.tel.order, m.now, None, "stale");
      case ConnectionStep(d, state) => ConnectionOrdered(m.tel, d, state, m.now);
      case EnsureStep(d, source) => SilentChange(m.tel, EnsureHeartbeat(m.tel, d, source));
      case RegisterStep(d, source) =>
        assert Agrees(m.tel, d);
        RegisterOrdered(m.tel, d, source, m.now);
      case SuccessStep(d, at, source) =>
        assert Agrees(m.tel, d);
        CommunicationOrdered(m.tel, d, at, source);
      case HeartbeatDisconnectedStep(d) =>
        assert Agrees(m.tel, d);
        HeartbeatDisconnectedOrdered(m.tel, d, m.now);
      case HeartbeatExpectedStep(d) =>
        assert Agrees(m.tel, d);
        HeartbeatExpectedOrdered(m.tel, d, m.now);
      case FireStep(task) =>
        assert Agrees(m.tel, m.tel.timers[task].device);
        FireOrdered(m.tel, task, m.now);
      case RemoveStep(d) => RemoveOrdered(m.tel, d, m.now);
      case OtherStep(e) => OtherOrdered(m.tel, e);
    }
  }

  lemma OtherKeepsTimers(s: Tel, e: Event)
    requires TimerInv(s)
    ensures TimerInv(PublishOther(s, e))
  {
    StaleMarksKeepTimers(s, PublishOther(s, e));
  }

  lemma NextTimers(m: Machine, step: Step)
    requires TimerInv(m.tel) && OrderMatches(m.tel) && Enabled(m, step)
    ensures TimerInv(Next(m, step).tel)
  {
    match step {
      case Tick(_) =>
      case RecordStep(d, snap) => RecordKeepsTimers(m.tel, d, snap, m.now);
      case SweepStep => SweepKeepsTimers(m.tel, m.now, None, "stale");
      case ConnectionStep(d, state) => ConnectionKeepsTimers(m.tel, d, state, m.now);
      case EnsureStep(d, source) => EnsureKeepsTimers(m.tel, d, source);
      case RegisterStep(d, source) => RegisterKeepsTimers(m.tel, d, source, m.now);
      case SuccessStep(d, at, source) => CommunicationKeepsTimers(m.tel, d, at, source);
      case HeartbeatDisconnectedStep(d) => HeartbeatDisconnectedKeepsTimers(m.tel, d, m.now);
      case HeartbeatExpectedStep(d) => HeartbeatExpectedKeepsTimers(m.tel, d, m.now);
      case FireStep(task) => FireKeepsTimers(m.tel, task, m.now);
      case RemoveStep(d) => RemoveKeepsTimers(m.tel, d, m.now);
      case OtherStep(e) => OtherKeepsTimers(m.tel, e);
    }
  }

  lemma NextInv(m: Machine, step: Step)
    requires Inv(m) && Enabled(m, step)
    ensures Inv(Next(m, step))
  {
    NextAgrees(m, step);
    NextOrdered(m, step);
    NextTimers(m, step);
    NextCalendar(m, step);
    NextContinues(m, step);
  }

  lemma {:induction false} RunInv(m: Machine, steps: seq<Step>)
    requires Inv(m) && Runs(m, steps)
    ensures Inv(After(m, steps))
    decreases |steps|
  {
    if |steps| > 0 {
      NextInv(m, steps[0]);
      RunInv(Next(m, steps[0]), steps[1..]);
    }
  }

  // ---------- What holds after every run ----------

  /**
   For every device: retained availability, battery and connection say what the snapshot and the
   battery view say, the retained availability and presence of each current probe what its view
   says, and the retained heartbeat is the stored one. The REST view of a heartbeat also depends
   on the desired state; it has the retained status, freshness and last success exactly when the
   stored heartbeat is disconnected just when that is desired.
   */
  lemma RetainedStateMatchesViews(staleAfter: int, heartbeatAfter: int, now: Instant, steps: seq<Step>)
    requires Runs(Start(staleAfter, heartbeatAfter, now), steps)
    ensures var s := After(Start(staleAfter, heartbeatAfter, now), steps).tel;
            AllAgree(s) && s.latest == Latest(s.log) && forall d, desired :: HeartbeatViewAgreesExactly(s, d, desired)
  {
    StartInv(staleAfter, heartbeatAfter, now);
    RunInv(Start(staleAfter, heartbeatAfter, now), steps);
    var s := After(Start(staleAfter, heartbeatAfter, now), steps).tel;
    AllViewsExactly(s);
  }

  lemma AllViewsExactly(s: Tel)
    requires AllAgree(s)
    ensures forall d, desired :: HeartbeatViewAgreesExactly(s, d, desired)
  {
    forall d, desired ensures HeartbeatViewAgreesExactly(s, d, desired) {
      assert Agrees(s, d);
      HeartbeatViewExactly(s, d, desired);
    }
  }

  /**
   The desired state can be ahead of the bus: after one success, and with a disconnect accepted
   but not yet performed, REST shows a heartbeat as disconnected that is retained as healthy.
   */
  lemma DesiredStateRunsAhead(staleAfter: int, heartbeatAfter: int, now: Instant, d: DeviceId, at: Instant, source: Source)
    ensures var steps := [SuccessStep(d, at, source)];
            && Runs(Start(staleAfter, heartbeatAfter, now), steps)
            && var s := After(Start(staleAfter, heartbeatAfter, now), steps).tel;
               && HeartbeatKey(d) in s.latest && HeartbeatOf(s, d, true).Some?
               && s.latest[HeartbeatKey(d)].data == HeartbeatData(Healthy, Some(at), true, heartbeatAfter)
               && HeartbeatOf(s, d, true).value.status == Disconnected && !HeartbeatOf(s, d, true).value.isFresh
               && !TellsView(s.latest[HeartbeatKey(d)], HeartbeatOf(s, d, true).value)
  {
    assert [SuccessStep(d, at, source)][1..] == [];
  }

  /** Sequence numbers, heartbeat numbers and temperature times are ordered in everything published. */
  lemma PublishedStreamsAreOrdered(staleAfter: int, heartbeatAfter: int, now: Instant, steps: seq<Step>)
    requires Runs(Start(staleAfter, heartbeatAfter, now), steps)
    ensures StreamsOrdered(After(Start(staleAfter, heartbeatAfter, now), steps).tel.log)
  {
    StartInv(staleAfter, heartbeatAfter, now);
    RunInv(Start(staleAfter, heartbeatAfter, now), steps);
  }

  /** No live deadline task is due. */
  ghost predicate DueTasksHaveRun(m: Machine) {
    forall t :: t in m.tel.timers && m.tel.timers[t].live ==> m.now < m.tel.timers[t].due
  }

  /** What a view of device `d` calls fresh is inside its window, and staleness has a reason. */
  ghost predicate FreshnessIsHonest(m: Machine, d: DeviceId) {
    && (forall i :: 0 <= i < |Probes(m.tel, d)| && Probes(m.tel, d)[i].isFresh ==>
          d in m.tel.current && m.now < m.tel.current[d].snapshot.observedAt + m.tel.staleAfter)
    && (BatteryOf(m.tel, d).Some? && BatteryOf(m.tel, d).value.isFresh ==>
          m.now < m.tel.current[d].snapshot.observedAt + m.tel.staleAfter)
    && (d in m.tel.current && m.tel.current[d].stale ==>
          d in m.reported || m.now >= m.tel.current[d].snapshot.observedAt + m.tel.staleAfter)
    && (forall desired :: HeartbeatIsHonest(m, HeartbeatOf(m.tel, d, desired), desired))
  }

  predicate HeartbeatIsHonest(m: Machine, view: Option<HeartbeatView>, desiredDisconnected: bool) {
    view.Some? ==>
      && (view.value.isFresh <==> view.value.status == Healthy)
      && (view.value.isFresh ==> !desiredDisconnected && view.value.lastSuccess.Some?
                                 && m.now < view.value.lastSuccess.value + m.tel.heartbeatAfter)
  }

  lemma DueMeansHonest(m: Machine, d: DeviceId)
    requires Inv(m) && DueTasksHaveRun(m)
    ensures FreshnessIsHonest(m, d)
  {
    hide AllAgree, StreamInv, Latest;
    if d in m.tel.current && !m.tel.current[d].stale {
      assert GuardsSnapshot(m.tel, d, m.tel.current[d].timer);
    }
    assert HeartbeatGuarded(m.tel, d);
  }

  /** Once the due deadline tasks have run, no view calls data fresh at or past its deadline. */
  lemma FreshnessAfterDueTasks(staleAfter: int, heartbeatAfter: int, now: Instant, steps: seq<Step>)
    requires Runs(Start(staleAfter, heartbeatAfter, now), steps)
    requires DueTasksHaveRun(After(Start(staleAfter, heartbeatAfter, now), steps))
    ensures forall d :: FreshnessIsHonest(After(Start(staleAfter, heartbeatAfter, now), steps), d)
  {
    hide Inv, DueTasksHaveRun, FreshnessIsHonest;
    var m := After(Start(staleAfter, heartbeatAfter, now), steps);
    StartInv(staleAfter, heartbeatAfter, now);
    RunInv(Start(staleAfter, heartbeatAfter, now), steps);
    forall d
      ensures FreshnessIsHonest(m, d)
    {
      DueMeansHonest(m, d);
    }
  }

  /** Task `t` is the one live heartbeat task of `d`. */
  ghost predicate OnlyHeartbeatTask(s: Tel, d: DeviceId, t: nat) {
    && LiveHeartbeatTask(s, t) && s.timers[t].device == d
    && forall u :: LiveHeartbeatTask(s, u) && s.timers[u].device == d ==> u == t
  }

  /** A healthy heartbeat has exactly one uncancelled task, set for precisely its newest success. */
  lemma HealthyHasExactlyOneTask(staleAfter: int, heartbeatAfter: int, now: Instant, steps: seq<Step>, d: DeviceId)
    requires Runs(Start(staleAfter, heartbeatAfter, now), steps)
    requires var s := After(Start(staleAfter, heartbeatAfter, now), steps).tel;
             d in s.heartbeats && s.heartbeats[d].status == Healthy
    ensures var s := After(Start(staleAfter, heartbeatAfter, now), steps).tel;
            exists t :: OnlyHeartbeatTask(s, d, t) && s.heartbeats[d].lastSuccess.Some?
                        && s.timers[t] == HeartbeatTimer(s, d, s.heartbeats[d].lastSuccess.value)
  {
    var s := After(Start(staleAfter, heartbeatAfter, now), steps).tel;
    StartInv(staleAfter, heartbeatAfter, now);
    RunInv(Start(staleAfter, heartbeatAfter, now), steps);
    assert HeartbeatGuarded(s, d);
    assert OnlyHeartbeatTask(s, d, s.heartbeatTasks[d]);
  }

  /** Some live task ends the freshness of `d` at the deadline of its newest success. */
  ghost predicate WillEnd(s: Tel, d: DeviceId, success: Instant) {
    exists t :: OnlyHeartbeatTask(s, d, t) && s.timers[t].due == success + s.heartbeatAfter
  }

  /** A heartbeat view is fresh exactly when it says healthy, and then something will end that. */
  ghost predicate ViewIsConsistent(s: Tel, d: DeviceId, desiredDisconnected: bool) {
    var view := HeartbeatOf(s, d, desiredDisconnected);
    view.Some? ==>
      && (view.value.isFresh <==> view.value.status == Healthy)
      && (view.value.isFresh ==> !desiredDisconnected && view.value.lastSuccess.Some?
                                 && WillEnd(s, d, view.value.lastSuccess.value))
      && (desiredDisconnected ==> view.value.status == Disconnected)
  }

  /**
   In every reachable state, whether or not due tasks have run, every heartbeat view is fresh
   exactly when its status is healthy, and never when disconnection is desired; and a fresh
   one has its live deadline task.
   */
  lemma HeartbeatViewsAreConsistent(staleAfter: int, heartbeatAfter: int, now: Instant, steps: seq<Step>)
    requires Runs(Start(staleAfter, heartbeatAfter, now), steps)
    ensures var s := After(Start(staleAfter, heartbeatAfter, now), steps).tel;
            forall d, desired :: ViewIsConsistent(s, d, desired)
  {
    var s := After(Start(staleAfter, heartbeatAfter, now), steps).tel;
    forall d, desired
      ensures ViewIsConsistent(s, d, desired)
    {
      if d in s.heartbeats && s.heartbeats[d].status == Healthy {
        HealthyHasExactlyOneTask(staleAfter, heartbeatAfter, now, steps, d);
        var t :| OnlyHeartbeatTask(s, d, t) && s.heartbeats[d].lastSuccess.Some?
                 && s.timers[t] == HeartbeatTimer(s, d, s.heartbeats[d].lastSuccess.value);
        assert WillEnd(s, d, s.heartbeats[d].lastSuccess.value);
      }
    }
  }

  /**
   A heartbeat task, however late or cancelled, ends the health of a device only when the
   newest success of that device is past its deadline.
   */
  lemma LateTaskDemotesNoNewerSuccess(m: Machine, task: nat, d: DeviceId)
    requires Inv(m) && Enabled(m, FireStep(task))
    requires d in m.tel.heartbeats && m.tel.heartbeats[d].status == Healthy
    ensures var r := Next(m, FireStep(task)).tel;
            && d in r.heartbeats && r.heartbeats[d].lastSuccess == m.tel.heartbeats[d].lastSuccess
            && m.tel.heartbeats[d].lastSuccess.Some?
            && (r.heartbeats[d].status != Healthy ==>
                  m.now >= m.tel.heartbeats[d].lastSuccess.value + m.tel.heartbeatAfter)
  {
    hide AllAgree, StreamInv, Calendar, Latest, Sweep, SnapshotsGuarded, PublishHeartbeat, TasksOk;
    assert HeartbeatGuarded(m.tel, d);
    DueHeartbeatTask(m.tel, task, m.now);
    var t := m.tel.timers[task];
    if t.goal.HeartbeatDeadline? && StillNewest(m.tel, t.device, t.goal.successAt) {
      PublishHeartbeatStatus(SetStatus(Finish(m.tel, task), t.device, Stale), t.device, m.now);
    }
  }

  lemma DueHeartbeatTask(s: Tel, task: nat, now: Instant)
    requires TasksOk(s) && task in s.timers && s.timers[task].due <= now
    ensures s.timers[task].goal.HeartbeatDeadline? ==> now >= s.timers[task].goal.successAt + s.heartbeatAfter
  {
  }

  lemma PublishHeartbeatStatus(s: Tel, x: DeviceId, at: Instant)
    requires x in s.heartbeats
    ensures var r := PublishHeartbeat(s, x, at);
            forall d :: d in s.heartbeats ==>
              d in r.heartbeats && r.heartbeats[d].(sequence := s.heartbeats[d].sequence) == s.heartbeats[d]
  {
    hide Emit;
  }

  // ---------- Times only move forward ----------

  /** From `s` to `r` device `d` keeps its snapshot or gets a newer one, and so for its success time. */
  ghost predicate TimesAdvance(s: Tel, r: Tel, d: DeviceId) {
    && (d in s.current ==>
          && d in r.current
          && (r.current[d].snapshot == s.current[d].snapshot
              || r.current[d].snapshot.observedAt > s.current[d].snapshot.observedAt))
    && (d in s.heartbeats ==>
          && d in r.heartbeats
          && (r.heartbeats[d].lastSuccess == s.heartbeats[d].lastSuccess
              || (r.heartbeats[d].lastSuccess.Some? && NewsForHeartbeat(s.heartbeats[d], r.heartbeats[d].lastSuccess.value))))
  }

  lemma SuccessSets(s: Tel, x: DeviceId, at: Instant, source: Source)
    requires x in s.heartbeats
    ensures var r := StartHeartbeatTask(PublishHeartbeat(Succeed(s, x, at, source), x, at), x, at);
            && x in r.heartbeats && r.heartbeats[x].lastSuccess == Some(at)
            && r.current == s.current
            && forall d :: d in s.heartbeats && d != x ==> d in r.heartbeats && r.heartbeats[d] == s.heartbeats[d]
  {
    hide Emit;
  }

  lemma CommunicationAdvances(s: Tel, x: DeviceId, at: Instant, source: Source, d: DeviceId)
    ensures TimesAdvance(s, CommunicationSucceeded(s, x, at, source), d)
  {
    hide PublishHeartbeat, Succeed, StartHeartbeatTask;
    SuccessSets(EnsureHeartbeat(s, x, source), x, at, source);
  }

  lemma InstallAdvances(s: Tel, x: DeviceId, snap: Snapshot, drafts: seq<Draft>, d: DeviceId)
    requires IsNewer(s, x, snap)
    ensures TimesAdvance(s, EmitAll(Install(s, x, snap), x, drafts), d)
  {
  }

  lemma RecordAdvances(s: Tel, x: DeviceId, snap: Snapshot, now: Instant, d: DeviceId)
    ensures TimesAdvance(s, Record(s, x, snap, now), d)
  {
    if IsNewer(s, x, snap) {
      if snap.communicatedAt.Some? {
        CommunicationAdvances(s, x, snap.communicatedAt.value, snap.source, d);
      }
      InstallAdvances(NoteCommunication(s, x, snap), x, snap, RecordDrafts(CurrentOf(s, x), snap), d);
    } else {
      SweepMarks(s, s.order, now, None, "stale");
    }
  }

  /** Marking snapshots stale and leaving successes alone moves no time back. */
  lemma MarksAdvance(s: Tel, r: Tel, now: Instant, force: Option<DeviceId>, d: DeviceId)
    requires OnlyMarked(s, r, now, force)
    requires d in s.heartbeats ==> d in r.heartbeats && r.heartbeats[d].lastSuccess == s.heartbeats[d].lastSuccess
    ensures TimesAdvance(s, r, d)
  {
  }

  lemma FireKeepsSuccesses(s: Tel, task: nat, now: Instant, d: DeviceId)
    requires task in s.timers
    ensures var r := Fire(s, task, now);
            d in s.heartbeats ==> d in r.heartbeats && r.heartbeats[d].lastSuccess == s.heartbeats[d].lastSuccess
  {
    hide Emit, Sweep;
  }

  lemma PublishHeartbeatFrame(s: Tel, x: DeviceId, at: Instant)
    requires x in s.heartbeats
    ensures var r := PublishHeartbeat(s, x, at);
            && r.current == s.current && r.heartbeats.Keys == s.heartbeats.Keys
            && forall d :: d in s.heartbeats ==> r.heartbeats[d].lastSuccess == s.heartbeats[d].lastSuccess
  {
    hide Emit;
  }

  lemma HeartbeatCallsAdvance(m: Machine, step: Step, d: DeviceId)
    requires step.EnsureStep? || step.RegisterStep? || step.HeartbeatDisconnectedStep? || step.HeartbeatExpectedStep?
    ensures TimesAdvance(m.tel, Next(m, step).tel, d)
  {
    hide PublishHeartbeat, CancelOf;
    var s, x := m.tel, step.device;
    match step {
      case RegisterStep(_, source) => PublishHeartbeatFrame(EnsureHeartbeat(s, x, source), x, m.now);
      case HeartbeatDisconnectedStep(_) =>
        if x in s.heartbeats {
          PublishHeartbeatFrame(SetStatus(StopHeartbeatTask(s, x), x, Disconnected), x, m.now);
        }
      case HeartbeatExpectedStep(_) =>
        if x in s.heartbeats {
          PublishHeartbeatFrame(SetStatus(s, x, RestoredStatus(s.heartbeats[x])), x, m.now);
        }
      case _ =>
    }
  }

  lemma NextAdvances(m: Machine, step: Step, d: DeviceId)
    requires Enabled(m, step) && step != RemoveStep(d)
    ensures TimesAdvance(m.tel, Next(m, step).tel, d)
  {
    hide Emit, Record, Sweep, Connection, Fire, Remove, CommunicationSucceeded, PublishHeartbeat, OnlyMarked;
    match step {
      case RecordStep(x, snap) => RecordAdvances(m.tel, x, snap, m.now, d);
      case SweepStep =>
        SweepOnlyMarks(m.tel, m.now, None, "stale");
        MarksAdvance(m.tel, MarkStale(m.tel, m.now, None, "stale"), m.now, None, d);
      case ConnectionStep(x, state) =>
        ConnectionMarks(m.tel, x, state, m.now);
        MarksAdvance(m.tel, Connection(m.tel, x, state, m.now), m.now, if state == "disconnected" then Some(x) else None, d);
      case FireStep(task) =>
        FireMarks(m.tel, task, m.now);
        FireKeepsSuccesses(m.tel, task, m.now, d);
        MarksAdvance(m.tel, Fire(m.tel, task, m.now), m.now, None, d);
      case RemoveStep(x) => RemoveAdvances(m, x, d);
      case SuccessStep(x, at, source) => CommunicationAdvances(m.tel, x, at, source, d);
      case Tick(_) =>
      case OtherStep(_) =>
      case _ => HeartbeatCallsAdvance(m, step, d);
    }
  }

  lemma DropAdvances(s: Tel, x: DeviceId, d: DeviceId)
    requires x != d
    ensures TimesAdvance(s, Drop(s, x), d)
  {
    hide Without, CancelOf, Forget;
  }

  lemma AdvanceFurther(s: Tel, r: Tel, t: Tel, d: DeviceId)
    requires TimesAdvance(s, r, d) && TimesAdvance(r, t, d)
    ensures TimesAdvance(s, t, d)
  {
  }

  lemma RemoveAdvances(m: Machine, x: DeviceId, d: DeviceId)
    requires x != d
    ensures TimesAdvance(m.tel, Next(m, RemoveStep(x)).tel, d)
  {
    hide Connection, HeartbeatDisconnected, Drop, OnlyMarked, TimesAdvance;
    var r := Connection(m.tel, x, "disconnected", m.now);
    var t := HeartbeatDisconnected(r, x, m.now);
    ConnectionMarks(m.tel, x, "disconnected", m.now);
    MarksAdvance(m.tel, r, m.now, Some(x), d);
    HeartbeatCallsAdvance(m.(tel := r), HeartbeatDisconnectedStep(x), d);
    AdvanceFurther(m.tel, r, t, d);
    DropAdvances(t, x, d);
    AdvanceFurther(m.tel, t, Drop(t, x), d);
  }

  /** Until a device is removed its snapshot times and its success times strictly increase. */
  lemma {:induction false} TimesAdvanceUntilRemoval(m: Machine, steps: seq<Step>, d: DeviceId)
    requires Runs(m, steps) && RemoveStep(d) !in steps
    ensures TimesAdvance(m.tel, After(m, steps).tel, d)
    decreases |steps|
  {
    if |steps| > 0 {
      NextAdvances(m, steps[0], d);
      TimesAdvanceUntilRemoval(Next(m, steps[0]), steps[1..], d);
    }
  }

  // ---------- Stale marking twice, and probes that disappear ----------

  lemma {:induction false} SweepNothing(s: Tel, todo: seq<DeviceId>, now: Instant, force: Option<DeviceId>,
                                        reason: string)
    requires forall d :: d in todo ==> !Overdue(s, d, now, force)
    ensures Sweep(s, todo, now, force, reason) == s
    decreases |todo|
  {
    if |todo| > 0 {
      assert todo[0] in todo;
      SweepNothing(s, todo[1..], now, force, reason);
    }
  }

  /** Marking stale again, at the same time and for whatever reason, changes and publishes nothing. */
  lemma MarkStaleTwice(s: Tel, now: Instant, force: Option<DeviceId>, reason: string, again: string)
    ensures MarkStale(MarkStale(s, now, force, reason), now, force, again) == MarkStale(s, now, force, reason)
  {
    SweepMarks(s, s.order, now, force, reason);
    SweepNothing(MarkStale(s, now, force, reason), s.order, now, force, again);
  }

  /**
   Agreement covers the probes of the current snapshot only. A probe that is missing from a
   new snapshot keeps the availability retained for it, and marking the device stale does
   not correct it either.
   */
  lemma MissingProbeStaysRetained(s: Tel, d: DeviceId, snap: Snapshot, probe: int, now: Instant, reason: string)
    requires ValidSnapshot(snap) && IsNewer(s, d, snap) && ProbeKey(d, probe) in s.latest
    requires forall i :: 0 <= i < |snap.probes| ==> snap.probes[i].number != probe
    ensures var k := ProbeKey(d, probe);
            var r := Record(s, d, snap, now);
            var t := MarkOne(r, d, now, reason);
            && k in r.latest && r.latest[k] == s.latest[k]
            && k in t.latest && t.latest[k] == s.latest[k]
  {
    MissingProbeUntouchedByRecord(s, d, snap, probe, now);
    MissingProbeUntouchedByMark(Record(s, d, snap, now), d, probe, now, reason);
  }

  /** What is remembered under `k` in `r` was published between `s` and `r`. */
  ghost predicate RenewedUnder(s: Tel, r: Tel, k: Key) {
    && s.log <= r.log && k in r.latest
    && exists i :: |s.log| <= i < |r.log| && PublishedAt(r.log, i, k) && r.log[i].event == r.latest[k]
  }

  predicate PublishedAt(log: seq<Entry>, i: nat, k: Key)
    requires i < |log|
  {
    log[i].Published? && KeyOf(log[i].event) == k
  }

  lemma {:induction false} EmitAllLogs(s: Tel, d: DeviceId, drafts: seq<Draft>)
    ensures var r := EmitAll(s, d, drafts);
            && |r.log| == |s.log| + |drafts| && s.log <= r.log
            && forall i :: 0 <= i < |drafts| ==> PublishedAt(r.log, |s.log| + i, KeyFor(d, drafts[i]))
    decreases |drafts|
  {
    if |drafts| > 0 {
      EmitAllLogs(s, d, drafts[..|drafts| - 1]);
    }
  }

  /** The probe drafts of a snapshot are about its probes, all of them and no others. */
  lemma {:induction false} ProbeDraftsAreOfProbes(snap: Snapshot, n: nat, probe: int)
    requires n <= |snap.probes|
    ensures (exists j :: 0 <= j < |ProbeDrafts(snap, n)| && AboutProbe(ProbeDrafts(snap, n)[j], probe)) <==>
            exists i :: 0 <= i < n && snap.probes[i].number == probe
    decreases n
  {
    if n > 0 {
      ProbeDraftsAreOfProbes(snap, n - 1, probe);
      var front, all := ProbeDrafts(snap, n - 1), ProbeDrafts(snap, n);
      assert all == front + OneProbe(snap, n - 1);
      assert AboutProbe(all[|front|], snap.probes[n - 1].number);
      if j :| 0 <= j < |front| && AboutProbe(front[j], probe) {
        assert AboutProbe(all[j], probe);
      }
      if j :| 0 <= j < |all| && AboutProbe(all[j], probe) {
        assert j < |front| ==> AboutProbe(front[j], probe);
      }
    }
  }

  predicate AboutProbe(draft: Draft, probe: int) {
    draft.kind == ProbeAvailability && draft.probe == Some(probe)
  }

  lemma RecordDraftsAreOfProbes(previous: Option<Current>, snap: Snapshot, probe: int)
    ensures var drafts := RecordDrafts(previous, snap);
            (exists j :: 0 <= j < |drafts| && AboutProbe(drafts[j], probe)) <==>
            exists i :: 0 <= i < |snap.probes| && snap.probes[i].number == probe
  {
    hide ProbeDrafts;
    var drafts, probes := RecordDrafts(previous, snap), ProbeDrafts(snap, |snap.probes|);
    var n := |drafts| - |probes|;
    ProbeDraftsAreOfProbes(snap, |snap.probes|, probe);
    assert forall j :: 0 <= j < n ==> !AboutProbe(drafts[j], probe);
    assert drafts[n..] == probes;
    if j :| 0 <= j < |probes| && AboutProbe(probes[j], probe) {
      assert AboutProbe(drafts[n + j], probe);
    }
    if j :| 0 <= j < |drafts| && AboutProbe(drafts[j], probe) {
      assert AboutProbe(probes[j - n], probe);
    }
  }

  /** A recording publishes the availability of exactly the probes of its snapshot. */
  lemma RecordPublishesProbe(s: Tel, d: DeviceId, snap: Snapshot, probe: int, now: Instant)
    requires IsNewer(s, d, snap)
    ensures var r := Record(s, d, snap, now);
            s.log <= r.log
            && ((exists i :: |s.log| <= i < |r.log| && PublishedAt(r.log, i, ProbeKey(d, probe))) <==>
                exists i :: 0 <= i < |snap.probes| && snap.probes[i].number == probe)
  {
    hide NoteCommunication, EmitAll, RecordDrafts;
    var k := ProbeKey(d, probe);
    var t := Install(NoteCommunication(s, d, snap), d, snap);
    var drafts := RecordDrafts(CurrentOf(s, d), snap);
    var r := Record(s, d, snap, now);
    NotingLogsHeartbeats(s, d, snap);
    EmitAllLogs(t, d, drafts);
    RecordDraftsAreOfProbes(CurrentOf(s, d), snap, probe);
    if j :| 0 <= j < |drafts| && AboutProbe(drafts[j], probe) {
      assert PublishedAt(r.log, |t.log| + j, k);
    }
    if i :| |s.log| <= i < |r.log| && PublishedAt(r.log, i, k) {
      EntryIsDraft(s, t, r, d, drafts, probe, i);
    }
  }

  lemma EntryIsDraft(s: Tel, t: Tel, r: Tel, d: DeviceId, drafts: seq<Draft>, probe: int, i: nat)
    requires s.log <= t.log <= r.log && |r.log| == |t.log| + |drafts| && |s.log| <= i < |r.log|
    requires forall m :: |s.log| <= m < |t.log| ==> !PublishedAt(t.log, m, ProbeKey(d, probe))
    requires forall j :: 0 <= j < |drafts| ==> PublishedAt(r.log, |t.log| + j, KeyFor(d, drafts[j]))
    requires PublishedAt(r.log, i, ProbeKey(d, probe))
    ensures exists j :: 0 <= j < |drafts| && AboutProbe(drafts[j], probe)
  {
    if i < |t.log| {
      assert PublishedAt(t.log, i, ProbeKey(d, probe));
    }
    var j := i - |t.log|;
    assert PublishedAt(r.log, |t.log| + j, KeyFor(d, drafts[j]));
    assert AboutProbe(drafts[j], probe);
  }

  lemma NotingLogsHeartbeats(s: Tel, d: DeviceId, snap: Snapshot)
    ensures var u := NoteCommunication(s, d, snap);
            s.log <= u.log && forall i, probe :: |s.log| <= i < |u.log| ==> !PublishedAt(u.log, i, ProbeKey(d, probe))
  {
    hide CancelOf, PublishHeartbeat;
    if snap.communicatedAt.Some? {
      var r := EnsureHeartbeat(s, d, snap.source);
      HeartbeatIsOneEntry(Succeed(r, d, snap.communicatedAt.value, snap.source), d, snap.communicatedAt.value);
    }
  }

  lemma HeartbeatIsOneEntry(s: Tel, d: DeviceId, at: Instant)
    requires d in s.heartbeats
    ensures var r := PublishHeartbeat(s, d, at);
            && |r.log| == |s.log| + 1 && s.log <= r.log && PublishedAt(r.log, |s.log|, HeartbeatKey(d))
  {
  }

  /**
   After a newer snapshot the availability retained for a probe is one just published if and
   only if the probe is in that snapshot; otherwise it is whatever was retained before.
   */
  lemma ProbeRenewedExactly(s: Tel, d: DeviceId, snap: Snapshot, probe: int, now: Instant)
    requires IsNewer(s, d, snap) && s.latest == Latest(s.log)
    ensures RenewedUnder(s, Record(s, d, snap, now), ProbeKey(d, probe)) <==>
            exists i :: 0 <= i < |snap.probes| && snap.probes[i].number == probe
  {
    hide Record, Latest;
    var k := ProbeKey(d, probe);
    var r := Record(s, d, snap, now);
    RecordPublishesProbe(s, d, snap, probe, now);
    RecordPublishes(s, d, snap, now);
    if j :| |s.log| <= j < |r.log| && PublishedAt(r.log, j, k) {
      LastIsRenewed(s, r, k, j);
    }
  }

  /** A publication under a remembered key that only publications follow leaves the key renewed. */
  lemma LastIsRenewed(s: Tel, r: Tel, k: Key, j: nat)
    requires Publishes(s, r) && r.latest == Latest(r.log) && Remembered(k.kind)
    requires |s.log| <= j < |r.log| && PublishedAt(r.log, j, k)
    ensures RenewedUnder(s, r, k)
  {
    hide Latest;
    var i := LastUnder(r.log, k, j);
    LatestIsLastSinceForgotten(r.log, k);
    assert PublishedAt(r.log, i, k);
  }

  /** The last publication under `k`, at or after position `j`. */
  lemma LastUnder(log: seq<Entry>, k: Key, j: nat) returns (i: nat)
    requires j < |log| && PublishedAt(log, j, k) && forall m :: j <= m < |log| ==> log[m].Published?
    ensures j <= i && IsLastUnder(log, k, i)
    decreases |log| - j
  {
    if m :| j < m < |log| && PublishedAt(log, m, k) {
      i := LastUnder(log, k, m);
    } else {
      i := j;
      forall m | j < m < |log| ensures !Touches(log[m], k) {
        assert !PublishedAt(log, m, k);
      }
    }
  }

  lemma HeartbeatKeepsProbes(s: Tel, d: DeviceId, at: Instant, k: Key)
    requires d in s.heartbeats && k in s.latest && k.kind == ProbeAvailability
    ensures var r := PublishHeartbeat(s, d, at);
            k in r.latest && r.latest[k] == s.latest[k]
  {
  }

  lemma CommunicationKeepsProbes(s: Tel, d: DeviceId, at: Instant, source: Source, k: Key)
    requires k in s.latest && k.kind == ProbeAvailability
    ensures var r := CommunicationSucceeded(s, d, at, source);
            k in r.latest && r.latest[k] == s.latest[k]
  {
    hide PublishHeartbeat, CancelOf;
    var r := EnsureHeartbeat(s, d, source);
    HeartbeatKeepsProbes(Succeed(r, d, at, source), d, at, k);
  }

  lemma MissingProbeUntouchedByRecord(s: Tel, d: DeviceId, snap: Snapshot, probe: int, now: Instant)
    requires ValidSnapshot(snap) && IsNewer(s, d, snap) && ProbeKey(d, probe) in s.latest
    requires forall i :: 0 <= i < |snap.probes| ==> snap.probes[i].number != probe
    ensures var r := Record(s, d, snap, now);
            && d in r.current && r.current[d].snapshot == snap
            && ProbeKey(d, probe) in r.latest && r.latest[ProbeKey(d, probe)] == s.latest[ProbeKey(d, probe)]
  {
    var k := ProbeKey(d, probe);
    if snap.communicatedAt.Some? {
      CommunicationKeepsProbes(s, d, snap.communicatedAt.value, snap.source, k);
    }
    var u := NoteCommunication(s, d, snap);
    LastForRecord(CurrentOf(s, d), snap, ProbeAvailability, Some(probe));
    LastForProbes(snap, |snap.probes|, ProbeAvailability, Some(probe));
    EmitAllLatest(Install(u, d, snap), d, RecordDrafts(CurrentOf(s, d), snap), k);
  }

  lemma MissingProbeUntouchedByMark(s: Tel, d: DeviceId, probe: int, now: Instant, reason: string)
    requires d in s.current && ValidSnapshot(s.current[d].snapshot) && ProbeKey(d, probe) in s.latest
    requires forall i :: 0 <= i < |s.current[d].snapshot.probes| ==> s.current[d].snapshot.probes[i].number != probe
    ensures var t := MarkOne(s, d, now, reason);
            ProbeKey(d, probe) in t.latest && t.latest[ProbeKey(d, probe)] == s.latest[ProbeKey(d, probe)]
  {
    var snap := s.current[d].snapshot;
    var marked := s.(current := s.current[d := s.current[d].(stale := true)]);
    LastForStale(snap, now, reason, ProbeAvailability, Some(probe));
    NoStaleProbe(snap, |snap.probes|, now, reason, probe);
    EmitAllLatest(marked, d, StaleDrafts(snap, now, reason), ProbeKey(d, probe));
  }

  lemma {:induction false} NoStaleProbe(snap: Snapshot, n: nat, now: Instant, reason: string, probe: int)
    requires n <= |snap.probes|
    requires forall i :: 0 <= i < |snap.probes| ==> snap.probes[i].number != probe
    ensures LastFor(StaleProbeDrafts(snap, n, now, reason), ProbeAvailability, Some(probe)).None?
  {
    if n > 0 {
      NoStaleProbe(snap, n - 1, now, reason, probe);
      var front := StaleProbeDrafts(snap, n - 1, now, reason);
      LastForAppend(front, [StaleProbeDraft(snap, n - 1, now, reason)], ProbeAvailability, Some(probe));
    }
  }
}
