/**
 What a removed device leaves at the broker besides its availability: when a session hears the
 removal, the battery and the probes of the last snapshot are left as unavailable too.
 */
module RemovedReadings {
  import opened Basics
  import opened Events
  import opened Models
  import opened Topics
  import opened Telemetry
  import opened Agreement
  import opened Pipeline
  import opened Removals
  import opened RemovedDevices
  import R = Runs
  import P = Publishers

  // ---------- Readings of a device ----------

  /** The keys under which the readings of a snapshot are retained. */
  predicate ReadingOf(d: DeviceId, snap: Snapshot, k: Key) {
    k == AvailabilityKey(d) || k == BatteryKey(d)
    || (k.device == Some(d) && k.kind == ProbeAvailability
        && exists i :: 0 <= i < |snap.probes| && k.probe == Some(snap.probes[i].number))
  }

  predicate SaysAbsent(e: Event) {
    match e.data
    case Available(available, _) => !available
    case BatteryData(available, _, _) => !available
    case ProbeData(available, _, _) => !available
    case _ => false
  }

  predicate HeldAbsent(held: Option<Event>) {
    held.Some? && SaysAbsent(held.value)
  }

  /** What is retained for a stale snapshot says that nothing of it is available. */
  lemma StaleSaysAbsent(s: Tel, d: DeviceId, k: Key)
    requires Agrees(s, d) && d in s.current && s.current[d].stale && ReadingOf(d, s.current[d].snapshot, k)
    ensures k in s.latest && SaysAbsent(s.latest[k])
  {
    hide HeartbeatAgrees, ValidSnapshot;
    if k.kind == ProbeAvailability {
      var i :| 0 <= i < |s.current[d].snapshot.probes| && k.probe == Some(s.current[d].snapshot.probes[i].number);
      assert ProbeAgrees(s, d, Probes(s, d)[i]);
    }
  }

  lemma ReadingIsRetained(s: Tel, d: DeviceId, k: Key)
    requires Agrees(s, d) && d in s.current && ReadingOf(d, s.current[d].snapshot, k)
    ensures k in s.latest && RememberedKeyOf(k, d)
  {
    hide HeartbeatAgrees, ValidSnapshot;
    if k.kind == ProbeAvailability {
      var i :| 0 <= i < |s.current[d].snapshot.probes| && k.probe == Some(s.current[d].snapshot.probes[i].number);
      assert ProbeAgrees(s, d, Probes(s, d)[i]);
    }
  }

  predicate RememberedKeyOf(k: Key, d: DeviceId) {
    k.device == Some(d) && Remembered(k.kind) && k.kind != ThermometerHeartbeat
  }

  lemma ReadingKeyIsProper(d: DeviceId, snap: Snapshot, k: Key)
    requires SlashFree(d) && ValidSnapshot(snap) && ReadingOf(d, snap, k)
    ensures RememberedKey(k)
  {
    if k.kind == ProbeAvailability {
      var i :| 0 <= i < |snap.probes| && k.probe == Some(snap.probes[i].number);
      assert ValidProbe(snap.probes[i]);
    }
  }

  // ---------- The removal publishes the readings as unavailable ----------

  /** The state of a removal just before the device is forgotten. */
  function BeforeDrop(s: Tel, d: DeviceId, now: Instant): Tel {
    HeartbeatDisconnected(Connection(s, d, "disconnected", now), d, now)
  }

  lemma BeforeDropAgrees(s: Tel, d: DeviceId, now: Instant)
    requires AllAgree(s) && OrderMatches(s) && s.latest == Latest(s.log)
    ensures var t := BeforeDrop(s, d, now);
            && AllAgree(t) && R.Publishes(s, t) && t.latest == Latest(t.log) && t.current.Keys == s.current.Keys
            && (d in s.current ==> t.current[d].stale && t.current[d].snapshot == s.current[d].snapshot)
  {
    hide Connection, HeartbeatDisconnected, AllAgree, Latest;
    var r := Connection(s, d, "disconnected", now);
    ConnectionAgrees(s, d, "disconnected", now);
    R.ConnectionPublishes(s, d, "disconnected", now);
    R.ConnectionMarks(s, d, "disconnected", now);
    HeartbeatDisconnectedAgrees(r, d, now);
    R.HeartbeatDisconnectedPublishes(r, d, now);
    R.HeartbeatDisconnectedFrame(r, d, now);
    DisconnectMarksStale(s, d, now);
  }

  lemma DisconnectMarksStale(s: Tel, d: DeviceId, now: Instant)
    requires OrderMatches(s)
    ensures d in s.current ==> d in Connection(s, d, "disconnected", now).current
                               && Connection(s, d, "disconnected", now).current[d].stale
  {
    hide Emit, Sweep;
    if d in s.current {
      var r := Emit(s, d, ConnectionDraft(s.current[d].snapshot, "disconnected", now));
      EmitKeepsCurrent(s, d, ConnectionDraft(s.current[d].snapshot, "disconnected", now));
      SweepMarks(r, r.order, now, Some(d), "disconnected");
      EmitKeepsCurrent(MarkStale(r, now, Some(d), "disconnected"), d,
                       UnavailableDraft(s.current[d].snapshot, now, "disconnected"));
    }
  }

  lemma EmitKeepsCurrent(s: Tel, d: DeviceId, draft: Draft)
    ensures Emit(s, d, draft).current == s.current && Emit(s, d, draft).order == s.order
  {
  }

  /** The last event under each reading of the device, once it is removed, says unavailable. */
  lemma RemovalLeavesAbsent(s: Tel, d: DeviceId, now: Instant, k: Key)
    requires AllAgree(s) && OrderMatches(s) && s.latest == Latest(s.log)
    requires d in s.current && ReadingOf(d, s.current[d].snapshot, k)
    ensures HeldAbsent(P.LastOf(EventsOf(Remove(s, d, now).log), k))
  {
    hide Connection, HeartbeatDisconnected, AllAgree, Latest, P.LastOf, EventsOf;
    var t := BeforeDrop(s, d, now);
    BeforeDropAgrees(s, d, now);
    OneAgrees(t, d);
    StaleSaysAbsent(t, d, k);
    LatestIsLastPublished(t.log, k);
    EventsOfAppend(t.log, Forgotten(d));
  }

  lemma OneAgrees(s: Tel, d: DeviceId)
    requires AllAgree(s)
    ensures Agrees(s, d)
  {
  }

  // ---------- The session hears them ----------

  /** A session that has taken its replay list has heard of everything remembered. */
  ghost predicate Covered(p: P.Publisher, latest: map<Key, Event>) {
    p.phase.Replaying? || p.phase.Draining? ==> latest.Keys <= p.heard.Keys
  }

  lemma HearCovers(p: P.Publisher, latest: map<Key, Event>, x: Entry)
    requires p.capacity >= 1 && Covered(p, latest)
    ensures Covered(P.Hear(p, x), if x.Published? then Remember(latest, x.event) else Forget(latest, x.device))
  {
  }

  lemma {:induction false} HearAllCovers(p: P.Publisher, log: seq<Entry>, entries: seq<Entry>)
    requires p.capacity >= 1 && Covered(p, Latest(log))
    ensures Covered(P.HearAll(p, entries), Latest(log + entries))
    decreases |entries|
  {
    hide Covered;
    if |entries| == 0 {
      assert log + entries == log;
    } else {
      var n := |entries| - 1;
      HearAllCovers(p, log, entries[..n]);
      HearCovers(P.HearAll(p, entries[..n]), Latest(log + entries[..n]), entries[n]);
      LatestAppend(log + entries[..n], entries[n]);
      assert (log + entries[..n]) + [entries[n]] == log + entries;
    }
  }

  lemma NextCovers(p: P.Publisher, latest: map<Key, Event>, step: P.Step)
    requires P.Enabled(p, latest, step) && Covered(p, latest)
    ensures Covered(P.Next(p, latest, step), latest)
  {
    hide P.Prepare, P.Deliver, Replays;
  }

  ghost predicate WholeCovered(s: Sys, before: map<string, P.Message>) {
    Whole(s, before) && Covered(s.publisher, s.machine.tel.latest)
  }

  lemma StepCovers(s: Sys, before: map<string, P.Message>, step: Step)
    requires WholeCovered(s, before) && s.publisher.capacity >= 1 && Enabled(s, step)
    ensures WholeCovered(Next(s, step), before)
  {
    hide Whole, Covered, R.Next, P.Next, P.Enabled, P.HearAll, Latest;
    WholeLog(s, before);
    match step {
      case TelemetryStep(t) =>
        HearsWhole(s, before, t);
        WholeLog(Next(s, step), before);
        R.NextContinues(s.machine, t);
        var log, m := s.machine.tel.log, R.Next(s.machine, t);
        assert log + m.tel.log[|log|..] == m.tel.log;
        HearAllCovers(s.publisher, log, m.tel.log[|log|..]);
      case PublisherStep(p) =>
        StepsWhole(s, before, p);
        NextCovers(s.publisher, s.machine.tel.latest, p);
    }
  }

  lemma WholeLog(s: Sys, before: map<string, P.Message>)
    requires Whole(s, before)
    ensures s.publisher.capacity >= 1 && s.machine.tel.latest == Latest(s.machine.tel.log) && R.Inv(s.machine)
    ensures AllAgree(s.machine.tel) && OrderMatches(s.machine.tel) && P.PubInv(s.machine.tel.latest, s.publisher)
    ensures Told(s.publisher) && SaneTel(s.machine.tel)
    ensures Listening(s.publisher) ==> HeardIsNewest(s.publisher, s.machine.tel.log)
  {
    hide HeardIsNewest, SaneTel, P.PubInv, Traced, Silenced, Told;
    WholeInv(s, before);
    InvCapacity(s);
  }

  lemma {:induction false} RunCovers(s: Sys, before: map<string, P.Message>, steps: seq<Step>)
    requires WholeCovered(s, before) && s.publisher.capacity >= 1 && Runs(s, steps)
    ensures WholeCovered(After(s, steps), before)
    decreases |steps|
  {
    hide WholeCovered, Next;
    if |steps| > 0 {
      StepCovers(s, before, steps[0]);
      RunCovers(Next(s, steps[0]), before, steps[1..]);
    }
  }

  // ---------- A fresh device is announced as stale first ----------

  /** Marking a device stale publishes something under the key of every reading. */
  lemma MarkingPublishes(s: Tel, d: DeviceId, now: Instant, reason: string, k: Key)
    requires d in s.current && ReadingOf(d, s.current[d].snapshot, k)
    ensures UnderSince(s, MarkOne(s, d, now, reason), k)
  {
    hide EmitAll, StaleProbeDrafts;
    var snap := s.current[d].snapshot;
    var t := s.(current := s.current[d := s.current[d].(stale := true)]);
    var drafts := StaleDrafts(snap, now, reason);
    R.EmitAllLogs(t, d, drafts);
    var j := if k == AvailabilityKey(d) then 0 else 1;
    if k.kind == ProbeAvailability {
      var i :| 0 <= i < |snap.probes| && k.probe == Some(snap.probes[i].number);
      StaleProbeDraftAt(snap, |snap.probes|, now, reason, i);
      j := 2 + i;
    }
    assert KeyFor(d, drafts[j]) == k;
    assert R.PublishedAt(MarkOne(s, d, now, reason).log, |t.log| + j, KeyFor(d, drafts[j]));
  }

  lemma {:induction false} StaleProbeDraftAt(snap: Snapshot, n: nat, now: Instant, reason: string, i: nat)
    requires i < n <= |snap.probes|
    ensures |StaleProbeDrafts(snap, n, now, reason)| == n
    ensures StaleProbeDrafts(snap, n, now, reason)[i] == StaleProbeDraft(snap, i, now, reason)
    decreases n
  {
    StaleProbeDraftsLength(snap, n, now, reason);
    StaleProbeDraftsLength(snap, n - 1, now, reason);
    if i < n - 1 {
      StaleProbeDraftAt(snap, n - 1, now, reason, i);
    }
  }

  lemma {:induction false} StaleProbeDraftsLength(snap: Snapshot, n: nat, now: Instant, reason: string)
    requires n <= |snap.probes|
    ensures |StaleProbeDrafts(snap, n, now, reason)| == n
    decreases n
  {
    if n > 0 {
      StaleProbeDraftsLength(snap, n - 1, now, reason);
    }
  }

  /** Something was published under `k` between `s` and `r`. */
  ghost predicate UnderSince(s: Tel, r: Tel, k: Key) {
    s.log <= r.log && exists i :: |s.log| <= i < |r.log| && R.PublishedAt(r.log, i, k)
  }

  lemma UnderSinceGrows(s: Tel, r: Tel, t: Tel, u: Tel, k: Key)
    requires s.log <= r.log && UnderSince(r, t, k) && t.log <= u.log
    ensures UnderSince(s, u, k)
  {
    var i :| |r.log| <= i < |t.log| && R.PublishedAt(t.log, i, k);
    assert R.PublishedAt(u.log, i, k);
  }

  lemma {:induction false} SweepPublishesReading(s: Tel, todo: seq<DeviceId>, now: Instant, d: DeviceId, reason: string, k: Key)
    requires d in todo && d in s.current && !s.current[d].stale && ReadingOf(d, s.current[d].snapshot, k)
    ensures UnderSince(s, Sweep(s, todo, now, Some(d), reason), k)
    decreases |todo|
  {
    hide MarkOne, Latest, ReadingOf;
    var r := MarkIfOverdue(s, todo[0], now, Some(d), reason);
    R.MarkIfOverduePublishes(s, todo[0], now, Some(d), reason);
    R.SweepPublishes(r, todo[1..], now, Some(d), reason);
    if todo[0] == d {
      MarkingPublishes(s, d, now, reason, k);
      UnderSinceGrows(s, s, r, Sweep(r, todo[1..], now, Some(d), reason), k);
    } else {
      MarkingIsApart(s, todo[0], now, Some(d), reason, d);
      SweepPublishesReading(r, todo[1..], now, d, reason, k);
      UnderSinceGrows(s, r, Sweep(r, todo[1..], now, Some(d), reason), Sweep(r, todo[1..], now, Some(d), reason), k);
    }
  }

  lemma MarkingIsApart(s: Tel, x: DeviceId, now: Instant, force: Option<DeviceId>, reason: string, d: DeviceId)
    requires x != d && d in s.current
    ensures var r := MarkIfOverdue(s, x, now, force, reason);
            d in r.current && r.current[d] == s.current[d]
  {
    MarkIfOverdueMarks(s, x, now, force, reason);
  }

  lemma FreshRemovalPublishes(s: Tel, d: DeviceId, now: Instant, k: Key)
    requires OrderMatches(s) && d in s.current && !s.current[d].stale && ReadingOf(d, s.current[d].snapshot, k)
    ensures UnderSince(s, Remove(s, d, now), k)
  {
    hide Sweep, Latest, HeartbeatDisconnected, ReadingOf, Emit;
    var snap := s.current[d].snapshot;
    var q := Emit(s, d, ConnectionDraft(snap, "disconnected", now));
    EmitKeepsCurrent(s, d, ConnectionDraft(snap, "disconnected", now));
    R.EmitPublishes(s, d, ConnectionDraft(snap, "disconnected", now));
    SweepPublishesReading(q, q.order, now, d, "disconnected", k);
    var t := MarkStale(q, now, Some(d), "disconnected");
    R.EmitPublishes(t, d, UnavailableDraft(snap, now, "disconnected"));
    R.HeartbeatDisconnectedPublishes(Connection(s, d, "disconnected", now), d, now);
    UnderSinceGrows(s, q, t, Remove(s, d, now), k);
  }

  // ---------- After the removal ----------

  /** Device `d` is away, and the last thing the session heard under `k` says that it is unavailable. */
  ghost predicate HeardAbsent(s: Sys, d: DeviceId, k: Key) {
    && d !in s.machine.tel.current
    && k in s.publisher.heard && SaysAbsent(s.publisher.heard[k])
  }

  lemma {:induction false} HearAllHearsUnder(p: P.Publisher, entries: seq<Entry>, k: Key)
    requires p.capacity >= 1 && Listening(p) && Remembered(k.kind)
    ensures k in p.heard || (exists i :: 0 <= i < |entries| && R.PublishedAt(entries, i, k)) ==>
              k in P.HearAll(p, entries).heard
  {
    HearAllHears(p, entries, k);
    if i :| 0 <= i < |entries| && R.PublishedAt(entries, i, k) {
      assert PublishedUnder(entries[i], k);
    }
  }

  /** The session hears of every reading of a device that is removed, unless it was stale before the replay list was taken. */
  lemma RemovalHearsReading(s: Sys, before: map<string, P.Message>, d: DeviceId, k: Key)
    requires WholeCovered(s, before) && Listening(s.publisher) && s.publisher.capacity >= 1
    requires d in s.machine.tel.current && ReadingOf(d, s.machine.tel.current[d].snapshot, k)
    requires s.publisher.phase.Announcing? ==> !s.machine.tel.current[d].stale
    requires Enabled(s, TelemetryStep(R.RemoveStep(d)))
    ensures k in Next(s, TelemetryStep(R.RemoveStep(d))).publisher.heard
  {
    hide Whole, Remove, P.HearAll, Latest, ReadingOf, AllAgree, R.Inv, P.PubInv, SaneTel, R.PublishedAt;
    WholeLog(s, before);
    OneAgrees(s.machine.tel, d);
    ReadingIsRetained(s.machine.tel, d, k);
    var tel := s.machine.tel;
    var r := R.Next(s.machine, R.RemoveStep(d)).tel;
    R.NextContinues(s.machine, R.RemoveStep(d));
    var entries := r.log[|tel.log|..];
    if s.publisher.phase.Announcing? {
      FreshRemovalPublishes(tel, d, s.machine.now, k);
      PublishedInPart(tel.log, r.log, k);
    }
    HearAllHearsUnder(s.publisher, entries, k);
  }

  lemma PublishedInPart(before: seq<Entry>, after: seq<Entry>, k: Key)
    requires before <= after && exists i :: |before| <= i < |after| && R.PublishedAt(after, i, k)
    ensures exists i :: 0 <= i < |after[|before|..]| && R.PublishedAt(after[|before|..], i, k)
  {
    var i :| |before| <= i < |after| && R.PublishedAt(after, i, k);
    assert R.PublishedAt(after[|before|..], i - |before|, k);
  }

  lemma RemovalHeardAbsent(s: Sys, before: map<string, P.Message>, d: DeviceId, k: Key)
    requires WholeCovered(s, before) && Listening(s.publisher) && s.publisher.capacity >= 1
    requires d in s.machine.tel.current && ReadingOf(d, s.machine.tel.current[d].snapshot, k)
    requires s.publisher.phase.Announcing? ==> !s.machine.tel.current[d].stale
    requires Enabled(s, TelemetryStep(R.RemoveStep(d)))
    ensures HeardAbsent(Next(s, TelemetryStep(R.RemoveStep(d))), d, k)
  {
    hide Whole, Remove, P.HearAll, Latest, ReadingOf, AllAgree, R.Inv, P.PubInv, SaneTel, P.LastOf, EventsOf;
    var n := Next(s, TelemetryStep(R.RemoveStep(d)));
    WholeLog(s, before);
    RemovalHearsReading(s, before, d, k);
    RemovalLeavesAbsent(s.machine.tel, d, s.machine.now, k);
    RemovedIsNowhere(s.machine, d);
    HearsWhole(s, before, R.RemoveStep(d));
    WholeLog(n, before);
    StaysListening(s, R.RemoveStep(d));
  }

  lemma StaysListening(s: Sys, t: R.Step)
    requires Listening(s.publisher) && s.publisher.capacity >= 1 && Enabled(s, TelemetryStep(t))
    ensures Listening(Next(s, TelemetryStep(t)).publisher)
  {
    hide R.Next, Latest, P.HearAll;
    R.NextContinues(s.machine, t);
    HearAllHears(s.publisher, R.Next(s.machine, t).tel.log[|s.machine.tel.log|..], HeartbeatKey(""));
  }

  /** No snapshot of `d` is recorded. */
  predicate NotRecorded(d: DeviceId, step: Step) {
    step.TelemetryStep? && step.t.RecordStep? ==> step.t.device != d
  }

  lemma StaysAway(m: R.Machine, t: R.Step, d: DeviceId)
    requires R.Enabled(m, t) && NotRecorded(d, TelemetryStep(t)) && d !in m.tel.current
    ensures d !in R.Next(m, t).tel.current
  {
    hide Record, Sweep, Connection, Fire, HeartbeatDisconnected, RegisterHeartbeat, CommunicationSucceeded, HeartbeatExpected;
    match t {
      case RecordStep(x, snap) => RecordIsApart(m.tel, x, snap, m.now, d);
      case SweepStep => R.SweepOnlyMarks(m.tel, m.now, None, "stale");
      case ConnectionStep(x, state) => R.ConnectionMarks(m.tel, x, state, m.now);
      case FireStep(task) => R.FireMarks(m.tel, task, m.now);
      case RemoveStep(x) =>
        R.ConnectionMarks(m.tel, x, "disconnected", m.now);
        R.HeartbeatDisconnectedFrame(Connection(m.tel, x, "disconnected", m.now), x, m.now);
      case Tick(_) =>
      case OtherStep(_) =>
      case _ => R.HeartbeatStepFrame(m, t);
    }
  }

  lemma RecordIsApart(s: Tel, x: DeviceId, snap: Snapshot, now: Instant, d: DeviceId)
    requires x != d && d !in s.current
    ensures d !in Record(s, x, snap, now).current
  {
    hide Sweep, CommunicationSucceeded, RecordDrafts, CancelOf;
    R.SweepOnlyMarks(s, now, None, "stale");
  }

  /** While a device is away nothing is published under its readings. */
  lemma NothingUnder(m: R.Machine, t: R.Step, d: DeviceId, k: Key)
    requires R.Inv(m) && R.Enabled(m, t) && NotRecorded(d, TelemetryStep(t)) && d !in m.tel.current && RememberedKeyOf(k, d)
    ensures !UnderSince(m.tel, R.Next(m, t).tel, k)
  {
    hide R.Inv, Remove, Latest, AllAgree;
    InvParts(m);
    if t.RemoveStep? {
      NothingUnderRemoval(m.tel, t.device, m.now, d, k);
    } else {
      var r := R.Next(m, t);
      StaysAway(m, t, d);
      R.NextInv(m, t);
      InvParts(r);
      R.NextPublishes(m, t);
      OneAgrees(r.tel, d);
      if UnderSince(m.tel, r.tel, k) {
        PublishedIsRetained(m.tel, r.tel, k);
      }
    }
  }

  lemma InvParts(m: R.Machine)
    requires R.Inv(m)
    ensures AllAgree(m.tel) && OrderMatches(m.tel) && m.tel.latest == Latest(m.tel.log)
  {
  }

  lemma PublishedIsRetained(s: Tel, r: Tel, k: Key)
    requires R.Publishes(s, r) && r.latest == Latest(r.log) && Remembered(k.kind) && UnderSince(s, r, k)
    ensures k in r.latest
  {
    hide Latest, R.Publishes;
    var j :| |s.log| <= j < |r.log| && R.PublishedAt(r.log, j, k);
    R.LastIsRenewed(s, r, k, j);
  }

  lemma NothingUnderRemoval(s: Tel, x: DeviceId, now: Instant, d: DeviceId, k: Key)
    requires AllAgree(s) && OrderMatches(s) && s.latest == Latest(s.log) && d !in s.current && RememberedKeyOf(k, d)
    ensures !UnderSince(s, Remove(s, x, now), k)
  {
    hide Connection, HeartbeatDisconnected, AllAgree, Latest;
    var t := BeforeDrop(s, x, now);
    BeforeDropAgrees(s, x, now);
    OneAgrees(t, d);
    if UnderSince(s, Remove(s, x, now), k) {
      var i :| |s.log| <= i < |t.log| + 1 && R.PublishedAt(Remove(s, x, now).log, i, k);
      assert R.PublishedAt(t.log, i, k);
      PublishedIsRetained(s, t, k);
    }
  }

  /** What was heard under a key stays as it is while nothing is published under it. */
  lemma {:induction false} HearAllLeaves(p: P.Publisher, entries: seq<Entry>, k: Key)
    requires p.capacity >= 1 && k in p.heard && forall i :: 0 <= i < |entries| ==> !R.PublishedAt(entries, i, k)
    ensures k in P.HearAll(p, entries).heard && P.HearAll(p, entries).heard[k] == p.heard[k]
    decreases |entries|
  {
    if |entries| > 0 {
      var n := |entries| - 1;
      forall i | 0 <= i < n ensures !R.PublishedAt(entries[..n], i, k) {
        assert !R.PublishedAt(entries, i, k);
      }
      HearAllLeaves(p, entries[..n], k);
      assert !R.PublishedAt(entries, n, k);
    }
  }

  lemma StepKeepsAbsent(s: Sys, before: map<string, P.Message>, step: Step, d: DeviceId, k: Key)
    requires Whole(s, before) && s.publisher.capacity >= 1 && Enabled(s, step)
    requires step != PublisherStep(P.Connect) && NotRecorded(d, step)
    requires HeardAbsent(s, d, k) && RememberedKeyOf(k, d)
    ensures HeardAbsent(Next(s, step), d, k)
  {
    hide Whole, R.Next, R.Inv, P.HearAll, P.PubInv, SaneTel, Latest, SaysAbsent;
    WholeLog(s, before);
    match step {
      case TelemetryStep(t) =>
        var log, m := s.machine.tel.log, R.Next(s.machine, t);
        R.NextContinues(s.machine, t);
        StaysAway(s.machine, t, d);
        NothingUnder(s.machine, t, d, k);
        var entries := m.tel.log[|log|..];
        forall i | 0 <= i < |entries| ensures !R.PublishedAt(entries, i, k) {
          assert m.tel.log[|log| + i] == entries[i];
          assert !R.PublishedAt(m.tel.log, |log| + i, k);
        }
        HearAllLeaves(s.publisher, entries, k);
      case PublisherStep(p) => StepLeavesHeard(s.publisher, s.machine.tel.latest, p, k);
    }
  }

  lemma StepLeavesHeard(p: P.Publisher, latest: map<Key, Event>, step: P.Step, k: Key)
    requires P.Enabled(p, latest, step) && !step.Connect? && k in p.heard
    ensures k in P.Next(p, latest, step).heard && P.Next(p, latest, step).heard[k] == p.heard[k]
  {
    hide P.Prepare, P.Deliver, Replays;
  }

  lemma {:induction false} RunKeepsAbsent(s: Sys, before: map<string, P.Message>, steps: seq<Step>, d: DeviceId, k: Key)
    requires Whole(s, before) && s.publisher.capacity >= 1 && Runs(s, steps)
    requires PublisherStep(P.Connect) !in steps && forall i :: 0 <= i < |steps| ==> NotRecorded(d, steps[i])
    requires HeardAbsent(s, d, k) && RememberedKeyOf(k, d)
    ensures HeardAbsent(After(s, steps), d, k)
    decreases |steps|
  {
    hide Whole, Next, HeardAbsent;
    if |steps| > 0 {
      assert steps[0] in steps;
      StepKeepsAbsent(s, before, steps[0], d, k);
      StepWhole(s, before, steps[0]);
      RunKeepsAbsent(Next(s, steps[0]), before, steps[1..], d, k);
    }
  }

  lemma StepWhole(s: Sys, before: map<string, P.Message>, step: Step)
    requires Whole(s, before) && s.publisher.capacity >= 1 && Enabled(s, step)
    ensures Whole(Next(s, step), before)
  {
    hide Whole, Next;
    match step {
      case TelemetryStep(t) => HearsWhole(s, before, t);
      case PublisherStep(p) => StepsWhole(s, before, p);
    }
  }

  /** At rest the broker has what the session heard. */
  lemma RestHoldsHeard(s: Sys, before: map<string, P.Message>, d: DeviceId, k: Key)
    requires Whole(s, before) && HeardAbsent(s, d, k) && RememberedKeyOf(k, d) && RememberedKey(k)
    requires AtRest(s.publisher, s.machine.tel.latest) && !s.publisher.overflowed
    ensures HeldAbsent(P.Held(s.publisher, k))
  {
    hide Whole, AtRest, P.PubInv, Told, R.Inv, SaneTel, Latest, AllAgree, SaysAbsent, P.HeldIn;
    WholeLog(s, before);
    OneAgrees(s.machine.tel, d);
    RestShowsExpected(s.publisher, s.machine.tel.latest, k);
  }

  /** The broker has every reading of a snapshot as unavailable. */
  ghost predicate AllReadingsAbsent(p: P.Publisher, d: DeviceId, snap: Snapshot) {
    forall k :: ReadingOf(d, snap, k) ==> HeldAbsent(P.Held(p, k))
  }

  /**
   A device that is removed while the session listens is left with its availability, its battery
   and every probe of its last snapshot as unavailable, whenever that session, not having
   overflowed, is at rest afterwards and no snapshot of the device was recorded since. While the
   session is still announcing itself this needs a snapshot that was not stale already: what was
   said of a stale one was said before the session listened.
   */
  lemma RemovedWhileListeningLeavesNothing(s: Sys, steps: seq<Step>, d: DeviceId, more: seq<Step>)
    requires Start(s) && Runs(s, steps)
    requires var m := After(s, steps);
             && Listening(m.publisher) && m.publisher.capacity >= 1 && d in m.machine.tel.current
             && (m.publisher.phase.Announcing? ==> !m.machine.tel.current[d].stale)
             && Enabled(m, TelemetryStep(R.RemoveStep(d)))
    requires var n := Next(After(s, steps), TelemetryStep(R.RemoveStep(d)));
             && n.publisher.capacity >= 1 && Runs(n, more) && PublisherStep(P.Connect) !in more
             && forall i :: 0 <= i < |more| ==> NotRecorded(d, more[i])
    requires var r := After(Next(After(s, steps), TelemetryStep(R.RemoveStep(d))), more);
             AtRest(r.publisher, r.machine.tel.latest) && !r.publisher.overflowed
    ensures var m := After(s, steps);
            var r := After(Next(m, TelemetryStep(R.RemoveStep(d))), more);
            AllReadingsAbsent(r.publisher, d, m.machine.tel.current[d].snapshot)
  {
    hide Whole, WholeCovered, Runs, After, Next, AtRest, HeardAbsent, HeldAbsent, ReadingOf, RememberedKeyOf;
    var before := s.publisher.broker;
    var m := After(s, steps);
    StartCovers(s);
    RunCovers(s, before, steps);
    CoveredIsWhole(m, before);
    WholeLog(m, before);
    HearsWhole(m, before, R.RemoveStep(d));
    var n := Next(m, TelemetryStep(R.RemoveStep(d)));
    RunWhole(n, before, more);
    var snap := m.machine.tel.current[d].snapshot;
    forall k | ReadingOf(d, snap, k) ensures HeldAbsent(P.Held(After(n, more).publisher, k)) {
      RemovalHeardAbsent(m, before, d, k);
      KnownReading(m.machine.tel, d, k);
      RunKeepsAbsent(n, before, more, d, k);
      RestHoldsHeard(After(n, more), before, d, k);
    }
  }

  lemma StartCovers(s: Sys)
    requires Start(s)
    ensures WholeCovered(s, s.publisher.broker)
  {
    hide Whole;
    StartWhole(s);
  }

  lemma CoveredIsWhole(s: Sys, before: map<string, P.Message>)
    requires WholeCovered(s, before)
    ensures Whole(s, before)
  {
  }

  lemma KnownReading(s: Tel, d: DeviceId, k: Key)
    requires AllAgree(s) && SaneTel(s) && d in s.current && ReadingOf(d, s.current[d].snapshot, k)
    ensures RememberedKeyOf(k, d) && RememberedKey(k)
  {
    hide ReadingOf, RememberedKey;
    OneAgrees(s, d);
    ReadingIsRetained(s, d, k);
    ReadingKeyIsProper(d, s.current[d].snapshot, k);
  }
}
