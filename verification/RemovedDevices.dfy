/**
 Devices that were removed, seen from the broker. Removal erases every key of a device from
 the bus but clears no topic, so a removed device may go on being shown. The theorems say
 where every retained message comes from, and exactly when one of a removed device survives.
 */
module RemovedDevices {
  import opened Basics
  import opened Events
  import opened Models
  import opened Topics
  import opened Telemetry
  import opened Agreement
  import opened Pipeline
  import opened Removals
  import R = Runs
  import P = Publishers
  import Shutdown

  // ---------- A removal is announced ----------

  predicate SaysGone(e: Option<Event>) {
    e.Some? ==> e.value.data.Available? && !e.value.data.available
  }

  /** The last availability of a device that is no longer remembered said unavailable. */
  ghost predicate Silenced(log: seq<Entry>) {
    forall d: DeviceId :: AvailabilityKey(d) !in Latest(log) ==> SaysGone(P.LastOf(EventsOf(log), AvailabilityKey(d)))
  }

  lemma PublishedSilenced(log: seq<Entry>, e: Event)
    requires Silenced(log)
    ensures Silenced(log + [Published(e)])
  {
    hide Latest, EventsOf, P.LastOf;
    EventsOfAppend(log, Published(e));
    LatestAppend(log, Published(e));
    forall d: DeviceId | AvailabilityKey(d) !in Latest(log + [Published(e)])
      ensures SaysGone(P.LastOf(EventsOf(log + [Published(e)]), AvailabilityKey(d)))
    {
      P.LastOfAppend(EventsOf(log), [e], AvailabilityKey(d));
      P.LastOfOne(e, AvailabilityKey(d));
    }
  }

  lemma {:induction false} AllPublishedSilenced(log: seq<Entry>, entries: seq<Entry>)
    requires Silenced(log) && forall i :: 0 <= i < |entries| ==> entries[i].Published?
    ensures Silenced(log + entries)
    decreases |entries|
  {
    hide Silenced;
    if |entries| == 0 {
      assert log + entries == log;
    } else {
      var n := |entries| - 1;
      AllPublishedSilenced(log, entries[..n]);
      PublishedSilenced(log + entries[..n], entries[n].event);
      assert (log + entries[..n]) + [entries[n]] == log + entries;
    }
  }

  lemma ForgottenSilenced(log: seq<Entry>, d: DeviceId)
    requires Silenced(log) && SaysGone(P.LastOf(EventsOf(log), AvailabilityKey(d)))
    ensures Silenced(log + [Forgotten(d)])
  {
    EventsOfAppend(log, Forgotten(d));
    LatestAppend(log, Forgotten(d));
  }

  lemma PublishesSilenced(s: Tel, r: Tel)
    requires Silenced(s.log) && R.Publishes(s, r)
    ensures Silenced(r.log)
  {
    hide Silenced;
    var entries := r.log[|s.log|..];
    assert s.log + entries == r.log;
    AllPublishedSilenced(s.log, entries);
  }

  /** What a heartbeat call publishes is not an availability. */
  lemma HeartbeatKeepsLast(s: Tel, d: DeviceId, now: Instant, k: Key)
    requires k.kind != ThermometerHeartbeat
    ensures P.LastOf(EventsOf(HeartbeatDisconnected(s, d, now).log), k) == P.LastOf(EventsOf(s.log), k)
  {
    hide P.LastOf, EventsOf;
    if d in s.heartbeats && s.heartbeats[d].status != Disconnected {
      var t := SetStatus(StopHeartbeatTask(s, d), d, Disconnected);
      EmitLast(t, d, HeartbeatDraft(t, t.heartbeats[d], now), k);
    }
  }

  lemma EmitLast(s: Tel, d: DeviceId, draft: Draft, k: Key)
    ensures var r := Emit(s, d, draft);
            var e := EventFor(d, draft, NextSequence(s.sequences, KeyFor(d, draft), draft.observed));
            P.LastOf(EventsOf(r.log), k) == if KeyFor(d, draft) == k then Some(e) else P.LastOf(EventsOf(s.log), k)
  {
    var e := EventFor(d, draft, NextSequence(s.sequences, KeyFor(d, draft), draft.observed));
    EventsOfAppend(s.log, Published(e));
    P.LastOfAppend(EventsOf(s.log), [e], k);
    P.LastOfOne(e, k);
  }

  /** Reporting a disconnect of a device with a snapshot ends by saying that it is unavailable. */
  lemma DisconnectSaysGone(s: Tel, d: DeviceId, now: Instant)
    requires d in s.current
    ensures var last := P.LastOf(EventsOf(Connection(s, d, "disconnected", now).log), AvailabilityKey(d));
            last.Some? && SaysGone(last)
  {
    hide P.LastOf, EventsOf, Emit, Sweep;
    var snap := s.current[d].snapshot;
    var r := Emit(s, d, ConnectionDraft(snap, "disconnected", now));
    EmitLast(MarkStale(r, now, Some(d), "disconnected"), d, UnavailableDraft(snap, now, "disconnected"), AvailabilityKey(d));
  }

  lemma RemoveSilenced(s: Tel, d: DeviceId, now: Instant)
    requires Silenced(s.log) && s.latest == Latest(s.log) && Agrees(s, d)
    ensures Silenced(Remove(s, d, now).log)
  {
    hide Silenced, Connection, HeartbeatDisconnected, P.LastOf, EventsOf, Latest;
    var r := Connection(s, d, "disconnected", now);
    var t := HeartbeatDisconnected(r, d, now);
    R.ConnectionPublishes(s, d, "disconnected", now);
    R.HeartbeatDisconnectedPublishes(r, d, now);
    PublishesSilenced(s, r);
    PublishesSilenced(r, t);
    HeartbeatKeepsLast(r, d, now, AvailabilityKey(d));
    if d in s.current {
      DisconnectSaysGone(s, d, now);
    } else {
      UnknownSilenced(s, d, now);
    }
    ForgottenSilenced(t.log, d);
  }

  lemma UnknownSilenced(s: Tel, d: DeviceId, now: Instant)
    requires Silenced(s.log) && s.latest == Latest(s.log) && Agrees(s, d) && d !in s.current
    ensures SaysGone(P.LastOf(EventsOf(Connection(s, d, "disconnected", now).log), AvailabilityKey(d)))
  {
    assert NoReading(s, d);
    assert AvailabilityKey(d) !in s.latest;
  }

  lemma NextSilenced(m: R.Machine, step: R.Step)
    requires R.Inv(m) && R.Enabled(m, step) && Silenced(m.tel.log)
    ensures Silenced(R.Next(m, step).tel.log)
  {
    hide Silenced;
    if step.RemoveStep? {
      assert Agrees(m.tel, step.device);
      RemoveSilenced(m.tel, step.device, m.now);
    } else {
      R.NextPublishes(m, step);
      PublishesSilenced(m.tel, R.Next(m, step).tel);
    }
  }

  // ---------- What a whole run keeps ----------

  /** What the session heard: the newest of each key, and nothing forgotten is left available by a farewell. */
  ghost predicate HeardOk(p: P.Publisher, log: seq<Entry>) {
    match p.phase
    case Offline => true
    case Flushing(_, goal) => GoneIsHeard(p, goal)
    case Closing(goal) => GoneIsHeard(p, goal)
    case Stopped(goal, _) => GoneIsHeard(p, goal)
    case _ => HeardIsNewest(p, log)
  }

  ghost predicate GoneIsHeard(p: P.Publisher, goal: map<Key, Event>) {
    forall d: DeviceId :: AvailabilityKey(d) in p.heard && AvailabilityKey(d) !in goal ==>
                            SaysGone(Some(p.heard[AvailabilityKey(d)]))
  }

  lemma NewestIsGone(p: P.Publisher, log: seq<Entry>)
    requires HeardIsNewest(p, log) && Silenced(log)
    ensures GoneIsHeard(p, Latest(log))
  {
    hide P.LastOf, EventsOf, Latest;
  }

  lemma HearAllKeepsFarewell(p: P.Publisher, entries: seq<Entry>)
    requires p.capacity >= 1 && !Listening(p)
    ensures var r := P.HearAll(p, entries); r.phase == p.phase && r.heard == p.heard
    decreases |entries|
  {
    if |entries| > 0 {
      HearAllKeepsFarewell(p, entries[..|entries| - 1]);
    }
  }

  lemma HearAllKeepsHeardOk(p: P.Publisher, log: seq<Entry>, entries: seq<Entry>)
    requires p.capacity >= 1 && HeardOk(p, log)
    ensures HeardOk(P.HearAll(p, entries), log + entries)
  {
    hide HeardIsNewest, P.HearAll;
    if Listening(p) {
      HearAllKeepsNewest(p, log, entries);
    } else {
      HearAllKeepsFarewell(p, entries);
    }
  }

  lemma NextKeepsHeardOk(p: P.Publisher, log: seq<Entry>, step: P.Step)
    requires P.Enabled(p, Latest(log), step) && HeardOk(p, log) && Silenced(log)
    ensures HeardOk(P.Next(p, Latest(log), step), log)
  {
    hide HeardIsNewest, Silenced, Latest, P.Next, P.Enabled;
    if step.Connect? {
      ConnectedHasHeardNothing(p, Latest(log));
      NothingHeard(P.Next(p, Latest(log), step), log);
    } else if Listening(p) {
      ListenedTo(p, Latest(log), step);
      NextKeepsNewest(p, log, step);
      NewestIsGone(P.Next(p, Latest(log), step), log);
    } else {
      DeafStep(p, log, step);
    }
  }

  lemma ConnectedHasHeardNothing(p: P.Publisher, latest: map<Key, Event>)
    requires P.Enabled(p, latest, P.Connect)
    ensures P.Next(p, latest, P.Connect).heard == map[]
  {
  }

  /** A listening session goes on listening, fails, or has begun to flush what is remembered. */
  lemma ListenedTo(p: P.Publisher, latest: map<Key, Event>, step: P.Step)
    requires P.Enabled(p, latest, step) && Listening(p)
    ensures var q := P.Next(p, latest, step);
            Listening(q) || q.phase.Offline? || (q.phase.Flushing? && q.phase.goal == latest)
            || (q.phase.Closing? && q.phase.told == latest)
  {
  }

  lemma DeafStep(p: P.Publisher, log: seq<Entry>, step: P.Step)
    requires P.Enabled(p, Latest(log), step) && HeardOk(p, log) && !step.Connect? && !Listening(p)
    ensures HeardOk(P.Next(p, Latest(log), step), log)
  {
    hide HeardIsNewest, Latest, Replays;
  }

  lemma NothingHeard(p: P.Publisher, log: seq<Entry>)
    requires p.heard == map[]
    ensures HeardIsNewest(p, log)
  {
  }

  ghost predicate Whole(s: Sys, before: map<string, P.Message>) {
    && Inv(s)
    && Traced(s.publisher, before, s.machine.tel.log)
    && Told(s.publisher)
    && Silenced(s.machine.tel.log)
    && HeardOk(s.publisher, s.machine.tel.log)
  }

  lemma StartWhole(s: Sys)
    requires Start(s)
    ensures Whole(s, s.publisher.broker)
  {
    StartInv(s);
  }

  lemma HearsWhole(s: Sys, before: map<string, P.Message>, t: R.Step)
    requires Whole(s, before) && Enabled(s, TelemetryStep(t))
    ensures Whole(Next(s, TelemetryStep(t)), before)
  {
    hide Inv, Traced, Told, Silenced, HeardOk, R.Next, P.HearAll;
    var log := s.machine.tel.log;
    var m := R.Next(s.machine, t);
    NextInv(s, TelemetryStep(t));
    InvSilenced(s, t);
    R.NextContinues(s.machine, t);
    var entries := m.tel.log[|log|..];
    assert log + entries == m.tel.log;
    InvCapacity(s);
    HearAllTraced(s.publisher, before, log, entries);
    HearAllTells(s.publisher, entries);
    HearAllKeepsHeardOk(s.publisher, log, entries);
  }

  lemma InvCapacity(s: Sys)
    requires Inv(s)
    ensures s.publisher.capacity >= 1 && s.machine.tel.latest == Latest(s.machine.tel.log)
    ensures P.PubInv(s.machine.tel.latest, s.publisher) && AllAgree(s.machine.tel) && P.SaneLog(s.machine.tel.log)
  {
  }

  lemma WholeCapacity(s: Sys, before: map<string, P.Message>)
    requires Whole(s, before)
    ensures s.publisher.capacity >= 1
  {
  }

  lemma InvSilenced(s: Sys, t: R.Step)
    requires Inv(s) && R.Enabled(s.machine, t) && Silenced(s.machine.tel.log)
    ensures Silenced(R.Next(s.machine, t).tel.log)
  {
    hide Silenced;
    NextSilenced(s.machine, t);
  }

  lemma StepsWhole(s: Sys, before: map<string, P.Message>, p: P.Step)
    requires Whole(s, before) && Enabled(s, PublisherStep(p))
    ensures Whole(Next(s, PublisherStep(p)), before)
  {
    hide Inv, Traced, Told, Silenced, HeardOk, P.Next, P.Enabled, P.PubInv;
    NextInv(s, PublisherStep(p));
    InvCapacity(s);
    NextTraced(s.publisher, before, s.machine.tel.log, p);
    NextTells(s.publisher, s.machine.tel.latest, p);
    NextKeepsHeardOk(s.publisher, s.machine.tel.log, p);
  }

  lemma {:induction false} RunWhole(s: Sys, before: map<string, P.Message>, steps: seq<Step>)
    requires Whole(s, before) && Runs(s, steps)
    ensures Whole(After(s, steps), before)
    decreases |steps|
  {
    hide Whole, Next;
    WholeCapacity(s, before);
    if |steps| > 0 {
      match steps[0] {
        case TelemetryStep(t) => HearsWhole(s, before, t);
        case PublisherStep(p) => StepsWhole(s, before, p);
      }
      RunWhole(Next(s, steps[0]), before, steps[1..]);
    }
  }

  // ---------- Where every retained message comes from ----------

  /**
   Every device topic of a publisher at rest was there at the start, or holds what is
   remembered under the key of that topic, or an event of a device forgotten since.
   */
  lemma TopicsAreAccountedFor(s: Sys, steps: seq<Step>)
    requires Start(s) && Runs(s, steps)
    requires var r := After(s, steps);
             AtRest(r.publisher, r.machine.tel.latest) && (r.publisher.overflowed ==> r.publisher.phase.Stopped?)
    ensures var r := After(s, steps);
            Accounted(r.publisher, s.publisher.broker, r.machine.tel.log)
  {
    hide Whole, AtRest, Accounted;
    StartWhole(s);
    RunWhole(s, s.publisher.broker, steps);
    RestAccounts(After(s, steps), s.publisher.broker);
  }

  // ---------- Exactly when a removed device is still shown ----------

  /** A broker shows device `d` as available. */
  predicate Shown(base: string, broker: map<string, P.Message>, d: DeviceId) {
    ShowsAvailability(P.HeldIn(base, broker, AvailabilityKey(d)), true)
  }

  /** The session found the device shown as available, and nothing about it was replayed or published since. */
  predicate Missed(p: P.Publisher, d: DeviceId) {
    Shown(p.base, p.inherited, d) && AvailabilityKey(d) !in p.heard
  }

  lemma HeardSaysGone(p: P.Publisher, latest: map<Key, Event>, log: seq<Entry>, d: DeviceId)
    requires HeardOk(p, log) && Silenced(log) && latest == Latest(log) && AtRest(p, latest)
    requires AvailabilityKey(d) in p.heard && AvailabilityKey(d) !in latest
    ensures SaysGone(Some(p.heard[AvailabilityKey(d)]))
  {
    hide HeardIsNewest, Silenced, Latest;
    if P.CaughtUp(p) {
      NewestIsGone(p, log);
    }
  }

  lemma ShownExactly(s: Sys, before: map<string, P.Message>, d: DeviceId)
    requires Whole(s, before) && AtRest(s.publisher, s.machine.tel.latest) && !s.publisher.overflowed
    requires SlashFree(d) && d !in s.machine.tel.current
    ensures Shown(s.publisher.base, s.publisher.broker, d) <==> Missed(s.publisher, d)
    ensures AvailabilityKey(d) in s.publisher.heard ==> ShowsAvailability(P.Held(s.publisher, AvailabilityKey(d)), false)
  {
    hide Traced, Told, Silenced, HeardOk, Inv, P.HeldIn, AtRest, P.PubInv, P.SaneLog;
    InvCapacity(s);
    RemovedIsUnknown(s.machine.tel, d);
    RestShowsExpected(s.publisher, s.machine.tel.latest, AvailabilityKey(d));
    if AvailabilityKey(d) in s.publisher.heard {
      HeardSaysGone(s.publisher, s.machine.tel.latest, s.machine.tel.log, d);
    }
  }

  lemma RemovedIsUnknown(s: Tel, d: DeviceId)
    requires AllAgree(s) && d !in s.current
    ensures AvailabilityKey(d) !in s.latest
  {
    assert Agrees(s, d);
  }

  /** No device without a snapshot is shown as available. */
  ghost predicate NoneLeftBehind(s: Sys) {
    forall d :: SlashFree(d) && d !in s.machine.tel.current ==> !Shown(s.publisher.base, s.publisher.broker, d)
  }

  /**
   At rest and without overflow, the broker shows a device without a snapshot, a removed one
   among them, as available exactly when the session found its availability topic so and heard
   nothing under it; so nothing is left behind exactly when the session missed no such device.
   */
  lemma RemovedStillShownExactly(s: Sys, steps: seq<Step>)
    requires Start(s) && Runs(s, steps)
    requires var r := After(s, steps);
             AtRest(r.publisher, r.machine.tel.latest) && !r.publisher.overflowed
    ensures var r := After(s, steps);
            forall d :: SlashFree(d) && d !in r.machine.tel.current ==>
                          (Shown(r.publisher.base, r.publisher.broker, d) <==> Missed(r.publisher, d))
    ensures var r := After(s, steps);
            NoneLeftBehind(r) <==> forall d :: SlashFree(d) && d !in r.machine.tel.current ==> !Missed(r.publisher, d)
  {
    hide Whole, Shown, Missed, AtRest;
    var r := After(s, steps);
    StartWhole(s);
    RunWhole(s, s.publisher.broker, steps);
    forall d | SlashFree(d) && d !in r.machine.tel.current
      ensures Shown(r.publisher.base, r.publisher.broker, d) <==> Missed(r.publisher, d)
    {
      ShownExactly(r, s.publisher.broker, d);
    }
  }

  /** The same two statements for the end of a graceful exit, in which an overflow loses nothing remembered. */
  lemma StoppingAccountsForTopics(s: Sys, steps: seq<Step>, stop: Step, quiet: seq<P.Step>)
    requires Start(s) && Runs(s, steps)
    requires Enabled(After(s, steps), stop) && AnnouncesStop(stop)
    requires P.Subscribed(After(s, steps).publisher) && !After(s, steps).publisher.phase.Flushing?
    requires After(s, steps).publisher.capacity >= 1
    requires var r := Next(After(s, steps), stop);
             Shutdown.QuietRuns(r.publisher, r.machine.tel.latest, quiet)
    ensures var r := Next(After(s, steps), stop);
            var q := Shutdown.QuietAfter(r.publisher, r.machine.tel.latest, quiet);
            q.phase.Stopped? ==>
              && Accounted(q, s.publisher.broker, r.machine.tel.log)
              && (!q.overflowed ==> forall d :: SlashFree(d) && d !in r.machine.tel.current ==>
                                                  (Shown(q.base, q.broker, d) <==> Missed(q, d)))
  {
    hide Whole, Runs, After, Next, Shown, Missed, Accounted, Shutdown.QuietRuns, Shutdown.QuietAfter, P.PubInv,
         Shutdown.FarewellComing, Shutdown.LeftInOrder;
    var before := s.publisher.broker;
    var m := After(s, steps);
    StartWhole(s);
    RunWhole(s, before, steps);
    HearsWhole(m, before, stop.t);
    HearsAnnouncement(m, stop.t.event);
    var r := Next(m, stop);
    assert stop == TelemetryStep(R.OtherStep(stop.t.event));
    WholeCapacity(r, before);
    StoppedAccounts(r, before, quiet);
  }

  lemma StoppedAccounts(s: Sys, before: map<string, P.Message>, quiet: seq<P.Step>)
    requires Whole(s, before) && s.publisher.capacity >= 1
    requires Shutdown.FarewellComing(s.publisher, s.machine.tel.latest)
    requires Shutdown.QuietRuns(s.publisher, s.machine.tel.latest, quiet)
    ensures var q := Shutdown.QuietAfter(s.publisher, s.machine.tel.latest, quiet);
            q.phase.Stopped? ==>
              && Accounted(q, before, s.machine.tel.log)
              && (!q.overflowed ==> forall d :: SlashFree(d) && d !in s.machine.tel.current ==>
                                                  (Shown(q.base, q.broker, d) <==> Missed(q, d)))
  {
    hide Whole, Runs, After, Shown, Missed, Accounted, Shutdown.QuietRuns, P.PubInv, Shutdown.LeftInOrder;
    var latest := s.machine.tel.latest;
    var q := Shutdown.QuietAfter(s.publisher, latest, quiet);
    WholeInv(s, before);
    InvCapacity(s);
    Shutdown.GracefulExit(s.publisher, latest, quiet);
    QuietIsRun(s, quiet);
    RunWhole(s, before, Lift(quiet));
    var t := s.(publisher := q);
    if q.phase.Stopped? {
      RestAccounts(t, before);
      if !q.overflowed {
        forall d | SlashFree(d) && d !in s.machine.tel.current
          ensures Shown(q.base, q.broker, d) <==> Missed(q, d)
        {
          ShownExactly(t, before, d);
        }
      }
    }
  }

  lemma RestAccounts(s: Sys, before: map<string, P.Message>)
    requires Whole(s, before) && AtRest(s.publisher, s.machine.tel.latest)
    requires s.publisher.overflowed ==> s.publisher.phase.Stopped?
    ensures Accounted(s.publisher, before, s.machine.tel.log)
  {
    hide Traced, Told, Silenced, HeardOk, Inv, Accounted, P.BrokerHolds;
    InvCapacity(s);
    RestHoldsLatest(s.publisher, s.machine.tel.latest);
    EveryTopicIsAccountedFor(s.publisher, before, s.machine.tel.log);
  }

  // ---------- A device removed while the session listens ----------

  lemma {:induction false} HearAllHears(p: P.Publisher, entries: seq<Entry>, k: Key)
    requires p.capacity >= 1
    ensures var r := P.HearAll(p, entries);
            && p.heard.Keys <= r.heard.Keys && (Listening(p) ==> Listening(r))
            && (Listening(p) && Remembered(k.kind) && (exists i :: 0 <= i < |entries| && PublishedUnder(entries[i], k)) ==>
                  k in r.heard)
    decreases |entries|
  {
    if |entries| > 0 {
      var front := entries[..|entries| - 1];
      HearAllHears(p, front, k);
      if i :| 0 <= i < |front| && PublishedUnder(entries[i], k) {
        assert PublishedUnder(front[i], k);
      }
    }
  }

  predicate PublishedUnder(x: Entry, k: Key) {
    x.Published? && KeyOf(x.event) == k
  }

  /** A removal announces the device as unavailable before it is forgotten. */
  lemma RemovalIsPublished(s: Tel, d: DeviceId, now: Instant) returns (i: nat)
    requires d in s.current
    ensures |s.log| <= i < |Remove(s, d, now).log| && PublishedUnder(Remove(s, d, now).log[i], AvailabilityKey(d))
  {
    hide Sweep, Latest, HeartbeatDisconnected;
    var snap := s.current[d].snapshot;
    var q := Emit(s, d, ConnectionDraft(snap, "disconnected", now));
    R.SweepPublishes(q, q.order, now, Some(d), "disconnected");
    R.HeartbeatDisconnectedPublishes(Connection(s, d, "disconnected", now), d, now);
    i := |MarkStale(q, now, Some(d), "disconnected").log|;
  }

  lemma RemovalIsHeard(s: Sys, before: map<string, P.Message>, d: DeviceId)
    requires Whole(s, before) && Listening(s.publisher) && d in s.machine.tel.current
    requires Enabled(s, TelemetryStep(R.RemoveStep(d))) && s.publisher.capacity >= 1
    ensures AvailabilityKey(d) in Next(s, TelemetryStep(R.RemoveStep(d))).publisher.heard
  {
    hide Whole, Remove, P.HearAll, Latest;
    var log := s.machine.tel.log;
    var r := R.Next(s.machine, R.RemoveStep(d)).tel;
    R.NextContinues(s.machine, R.RemoveStep(d));
    var i := RemovalIsPublished(s.machine.tel, d, s.machine.now);
    var entries := r.log[|log|..];
    assert PublishedUnder(entries[i - |log|], AvailabilityKey(d));
    HearAllHears(s.publisher, entries, AvailabilityKey(d));
  }

  /** What a session has heard of it does not unlearn before the next one begins. */
  lemma {:induction false} HeardStays(s: Sys, steps: seq<Step>, k: Key)
    requires s.publisher.capacity >= 1 && Runs(s, steps) && PublisherStep(P.Connect) !in steps
    requires k in s.publisher.heard
    ensures k in After(s, steps).publisher.heard
    decreases |steps|
  {
    hide R.Next, P.HearAll, Latest;
    if |steps| > 0 {
      match steps[0] {
        case TelemetryStep(t) =>
          R.NextContinues(s.machine, t);
          HearAllHears(s.publisher, R.Next(s.machine, t).tel.log[|s.machine.tel.log|..], k);
        case PublisherStep(p) => StepKeepsHeard(s.publisher, s.machine.tel.latest, p, k);
      }
      HeardStays(Next(s, steps[0]), steps[1..], k);
    }
  }

  lemma StepKeepsHeard(p: P.Publisher, latest: map<Key, Event>, step: P.Step, k: Key)
    requires P.Enabled(p, latest, step) && !step.Connect? && k in p.heard
    ensures k in P.Next(p, latest, step).heard
  {
  }

  /**
   A device that is removed while the session listens is shown as unavailable whenever that
   session, not having overflowed, is at rest afterwards and the device has not come back.
   */
  lemma RemovedWhileListeningIsGone(s: Sys, steps: seq<Step>, d: DeviceId, more: seq<Step>)
    requires Start(s) && Runs(s, steps)
    requires var m := After(s, steps);
             && Listening(m.publisher) && m.publisher.capacity >= 1 && d in m.machine.tel.current
             && Enabled(m, TelemetryStep(R.RemoveStep(d)))
    requires var m := Next(After(s, steps), TelemetryStep(R.RemoveStep(d)));
             m.publisher.capacity >= 1 && Runs(m, more) && PublisherStep(P.Connect) !in more
    requires var r := After(Next(After(s, steps), TelemetryStep(R.RemoveStep(d))), more);
             && AtRest(r.publisher, r.machine.tel.latest) && !r.publisher.overflowed && d !in r.machine.tel.current
    ensures var r := After(Next(After(s, steps), TelemetryStep(R.RemoveStep(d))), more);
            ShowsAvailability(P.Held(r.publisher, AvailabilityKey(d)), false)
  {
    hide Whole, Runs, After, Next, AtRest, P.HeldIn;
    var before := s.publisher.broker;
    var m := After(s, steps);
    StartWhole(s);
    RunWhole(s, before, steps);
    RemovalIsHeard(m, before, d);
    HearsWhole(m, before, R.RemoveStep(d));
    var n := Next(m, TelemetryStep(R.RemoveStep(d)));
    RunWhole(n, before, more);
    HeardStays(n, more, AvailabilityKey(d));
    ShownExactly(After(n, more), before, d);
  }

  // ---------- A device removed while no session listens ----------

  lemma {:induction false} RunsConcat(s: Sys, a: seq<Step>, b: seq<Step>)
    requires s.publisher.capacity >= 1 && Runs(s, a) && After(s, a).publisher.capacity >= 1 && Runs(After(s, a), b)
    ensures Runs(s, a + b) && After(s, a + b) == After(After(s, a), b)
    decreases |a|
  {
    hide Next, Enabled;
    if |a| == 0 {
      assert a + b == b;
    } else {
      assert (a + b)[0] == a[0] && (a + b)[1..] == a[1..] + b;
      RunsConcat(Next(s, a[0]), a[1..], b);
    }
  }

  function Lift(steps: seq<P.Step>): seq<Step> {
    if |steps| == 0 then [] else [PublisherStep(steps[0])] + Lift(steps[1..])
  }

  /** A quiet run of the publisher is a run of the whole. */
  lemma {:induction false} QuietIsRun(s: Sys, quiet: seq<P.Step>)
    requires s.publisher.capacity >= 1 && Shutdown.QuietRuns(s.publisher, s.machine.tel.latest, quiet)
    ensures Runs(s, Lift(quiet))
    ensures After(s, Lift(quiet)) == s.(publisher := Shutdown.QuietAfter(s.publisher, s.machine.tel.latest, quiet))
    decreases |quiet|
  {
    hide P.Enabled, P.Next;
    if |quiet| > 0 {
      SameCapacity(s.publisher, s.machine.tel.latest, quiet[0]);
      QuietIsRun(Next(s, PublisherStep(quiet[0])), quiet[1..]);
      assert Lift(quiet)[1..] == Lift(quiet[1..]);
    }
  }

  lemma SameCapacity(p: P.Publisher, latest: map<Key, Event>, step: P.Step)
    requires P.Enabled(p, latest, step)
    ensures P.Next(p, latest, step).capacity == p.capacity && P.Next(p, latest, step).base == p.base
  {
    hide P.Prepare, P.Deliver, Replays, P.Rest;
  }

  /** A session that has heard nothing but the replay. */
  predicate Fresh(p: P.Publisher, latest: map<Key, Event>) {
    Listening(p) && p.queue == [] && !p.overflowed && p.heard.Keys <= latest.Keys
  }

  /** Nearer to having caught up, and still fresh. */
  predicate Nearer(p: P.Publisher, q: P.Publisher, latest: map<Key, Event>) {
    && Fresh(q, latest) && q.inherited == p.inherited && q.base == p.base
    && Shutdown.Measure(q, latest) < Shutdown.Measure(p, latest)
  }

  lemma FreshAcknowledge(p: P.Publisher, latest: map<Key, Event>)
    requires Fresh(p, latest) && p.sending.Some?
    ensures Nearer(p, P.AfterAcknowledge(p), latest)
  {
    hide P.Deliver;
  }

  lemma FreshSnapshot(p: P.Publisher, latest: map<Key, Event>, replay: seq<Event>)
    requires Fresh(p, latest) && P.Enabled(p, latest, P.TakeSnapshot(replay)) && P.SaneLatest(latest)
    ensures Nearer(p, P.Next(p, latest, P.TakeSnapshot(replay)), latest)
  {
    hide P.SaneLatest, Replays, P.Prepare;
    Shutdown.ReplayLength(replay, latest);
  }

  lemma FreshSendNext(p: P.Publisher, latest: map<Key, Event>)
    requires Fresh(p, latest) && P.Enabled(p, latest, P.SendNext)
    ensures Nearer(p, P.AfterSendNext(p), latest)
  {
    hide P.Prepare;
  }

  lemma FreshFinish(p: P.Publisher, latest: map<Key, Event>)
    requires Fresh(p, latest) && P.Enabled(p, latest, P.FinishList)
    ensures Nearer(p, P.AfterFinishList(p), latest)
  {
  }

  lemma FreshStep(p: P.Publisher, latest: map<Key, Event>) returns (step: P.Step)
    requires P.SaneLatest(latest) && Fresh(p, latest) && !P.CaughtUp(p)
    ensures P.Enabled(p, latest, step) && !P.Fails(step)
    ensures Nearer(p, P.Next(p, latest, step), latest)
  {
    hide P.AfterAcknowledge, P.AfterSendNext, P.AfterFinishList, Nearer, Replays, P.SaneLatest;
    if p.sending.Some? {
      step := P.Acknowledge;
      FreshAcknowledge(p, latest);
    } else if p.phase.Announcing? {
      var replay := ListingOf(latest);
      step := P.TakeSnapshot(replay);
      FreshSnapshot(p, latest, replay);
    } else if P.Rest(p) != [] {
      step := P.SendNext;
      FreshSendNext(p, latest);
    } else {
      step := P.FinishList;
      FreshFinish(p, latest);
    }
  }

  lemma ListingOf(latest: map<Key, Event>) returns (replay: seq<Event>)
    requires P.SaneLatest(latest)
    ensures Replays(replay, latest)
  {
    replay := Shutdown.ListingExists(latest);
  }

  lemma InvSane(p: P.Publisher, latest: map<Key, Event>)
    requires P.PubInv(latest, p)
    ensures P.SaneLatest(latest)
  {
  }

  /** Left alone, a session catches up. */
  lemma CatchUp(p: P.Publisher, latest: map<Key, Event>) returns (steps: seq<P.Step>)
    requires P.PubInv(latest, p) && Fresh(p, latest)
    ensures Shutdown.QuietRuns(p, latest, steps)
    ensures var q := Shutdown.QuietAfter(p, latest, steps);
            && P.CaughtUp(q) && Fresh(q, latest) && q.inherited == p.inherited && q.base == p.base
    decreases Shutdown.Measure(p, latest)
  {
    hide P.PubInv, Fresh, Shutdown.Measure, P.Enabled, P.Next;
    if P.CaughtUp(p) {
      steps := [];
    } else {
      InvSane(p, latest);
      var step := FreshStep(p, latest);
      P.NextKeepsInv(latest, p, step);
      var rest := CatchUp(P.Next(p, latest, step), latest);
      steps := [step] + rest;
      assert steps[1..] == rest;
    }
  }

  /** A publisher that is offline can connect and catch up while the bus is silent. */
  lemma ConnectAndCatchUp(s: Sys, before: map<string, P.Message>) returns (steps: seq<Step>)
    requires Whole(s, before) && s.publisher.phase.Offline? && s.publisher.capacity >= 1
    ensures Runs(s, steps)
    ensures var r := After(s, steps);
            && r.machine == s.machine && r.publisher.capacity >= 1
            && P.CaughtUp(r.publisher) && Fresh(r.publisher, s.machine.tel.latest)
            && r.publisher.inherited == s.publisher.broker && r.publisher.base == s.publisher.base
  {
    hide Whole, P.PubInv, R.Inv, SaneTel;
    var latest := s.machine.tel.latest;
    WholeInv(s, before);
    InvCapacity(s);
    P.NextKeepsInv(latest, s.publisher, P.Connect);
    var p := P.Next(s.publisher, latest, P.Connect);
    var quiet := CatchUp(p, latest);
    var all := [P.Connect] + quiet;
    assert all[1..] == quiet;
    QuietIsRun(s, all);
    steps := Lift(all);
    RunWhole(s, before, steps);
    WholeCapacity(After(s, steps), before);
  }

  lemma WholeInv(s: Sys, before: map<string, P.Message>)
    requires Whole(s, before)
    ensures Inv(s)
  {
  }

  lemma {:induction false} OfflineHearsNothing(p: P.Publisher, entries: seq<Entry>)
    requires p.capacity >= 1 && p.phase.Offline?
    ensures P.HearAll(p, entries) == p
    decreases |entries|
  {
    if |entries| > 0 {
      OfflineHearsNothing(p, entries[..|entries| - 1]);
    }
  }

  /** While the publisher is offline a step of the telemetry state reaches nobody. */
  lemma StepWhileOffline(s: Sys, t: R.Step)
    requires s.publisher.capacity >= 1 && s.publisher.phase.Offline? && Enabled(s, TelemetryStep(t))
    ensures Runs(s, [TelemetryStep(t)])
    ensures After(s, [TelemetryStep(t)]) == Sys(R.Next(s.machine, t), s.publisher)
  {
    R.NextContinues(s.machine, t);
    OfflineHearsNothing(s.publisher, R.Next(s.machine, t).tel.log[|s.machine.tel.log|..]);
    hide R.Next, P.HearAll, Latest;
    assert [TelemetryStep(t)][1..] == [];
  }

  lemma FailsWhileIdle(s: Sys)
    requires s.publisher.capacity >= 1 && P.CaughtUp(s.publisher)
    ensures var fail := [PublisherStep(P.Fail(false, true))];
            && Runs(s, fail)
            && After(s, fail) == s.(publisher := P.AfterFail(s.publisher, false, true))
  {
    assert [PublisherStep(P.Fail(false, true))][1..] == [];
  }

  /** The last will says that the service is gone; it says nothing about devices. */
  lemma FarewellKeepsShown(p: P.Publisher, d: DeviceId)
    requires SlashFree(d)
    ensures var q := P.AfterFail(p, false, true);
            && q.phase.Offline? && q.capacity == p.capacity && q.base == p.base
            && (Shown(q.base, q.broker, d) <==> Shown(p.base, p.broker, d))
  {
    ServiceTopicIsApart(p.base, AvailabilityKey(d));
    hide TopicFor, ServiceTopic;
  }

  lemma FirstRecord(staleAfter: int, heartbeatAfter: int, now: Instant, d: DeviceId, snap: Snapshot)
    requires ValidSnapshot(snap)
    ensures var m := R.Start(staleAfter, heartbeatAfter, now);
            && R.Enabled(m, R.RecordStep(d, snap))
            && d in R.Next(m, R.RecordStep(d, snap)).tel.current
            && R.Next(m, R.RecordStep(d, snap)).tel.current[d].snapshot == snap
            && !R.Next(m, R.RecordStep(d, snap)).tel.current[d].stale
  {
    hide CommunicationSucceeded, RecordDrafts;
  }

  lemma RemovedIsNowhere(m: R.Machine, d: DeviceId)
    ensures var s := R.Next(m, R.RemoveStep(d)).tel;
            && d !in s.current && d !in s.heartbeats
            && Probes(s, d) == [] && BatteryOf(s, d) == None && forall desired :: HeartbeatOf(s, d, desired) == None
  {
    hide Connection, HeartbeatDisconnected, Without, CancelOf, Forget;
  }

  /** The whole shows device `d` as available although no view of it is left. */
  ghost predicate LeftBehind(s: Sys, d: DeviceId) {
    && Shown(s.publisher.base, s.publisher.broker, d)
    && d !in s.machine.tel.current
    && Probes(s.machine.tel, d) == [] && BatteryOf(s.machine.tel, d) == None
    && forall desired :: HeartbeatOf(s.machine.tel, d, desired) == None
  }

  /** The agreement of three copies, for one device: what is available is shown as available. */
  lemma CaughtUpShows(s: Sys, before: map<string, P.Message>, d: DeviceId)
    requires Whole(s, before) && P.CaughtUp(s.publisher) && !s.publisher.overflowed
    requires d in s.machine.tel.current && !s.machine.tel.current[d].stale
    requires AnyAvailable(s.machine.tel.current[d].snapshot.probes)
    ensures Shown(s.publisher.base, s.publisher.broker, d)
  {
    hide Traced, Told, Silenced, HeardOk, P.PubInv, R.Inv, SaneTel;
    InvCapacity(s);
    P.CaughtUpBrokerHolds(s.machine.tel.latest, s.publisher);
    BrokerFollowsViews(s.publisher, s.machine.tel, d);
  }

  /** What the broker showed before a session began in silence, the session leaves there. */
  lemma SilentSessionMisses(s: Sys, before: map<string, P.Message>, d: DeviceId) returns (steps: seq<Step>)
    requires Whole(s, before) && s.publisher.phase.Offline? && s.publisher.capacity >= 1 && SlashFree(d)
    requires d !in s.machine.tel.current && Shown(s.publisher.base, s.publisher.broker, d)
    ensures Runs(s, steps)
    ensures var r := After(s, steps);
            && r.machine == s.machine && P.CaughtUp(r.publisher) && !r.publisher.overflowed
            && Shown(r.publisher.base, r.publisher.broker, d)
  {
    hide Whole, P.HeldIn, Runs, After;
    steps := ConnectAndCatchUp(s, before);
    var r := After(s, steps);
    RunWhole(s, before, steps);
    WholeInv(s, before);
    ForgottenHere(s, d);
    ShownExactly(r, before, d);
  }

  lemma ForgottenHere(s: Sys, d: DeviceId)
    requires Inv(s) && d !in s.machine.tel.current
    ensures AvailabilityKey(d) !in s.machine.tel.latest
  {
    hide P.PubInv, SaneTel;
    InvCapacity(s);
    RemovedIsUnknown(s.machine.tel, d);
  }

  /**
   The failing run: a device is recorded and its availability reaches the broker, the session
   ends, the device is removed, and a new session catches up. Nothing overflowed, and the
   broker shows a device that the service no longer has.
   */
  lemma RemovedWhileOfflineIsLeftBehind(s: Sys, d: DeviceId, snap: Snapshot) returns (steps: seq<Step>)
    requires Start(s) && SlashFree(d) && ValidSnapshot(snap) && AnyAvailable(snap.probes)
    ensures Runs(s, steps)
    ensures var r := After(s, steps);
            P.CaughtUp(r.publisher) && !r.publisher.overflowed && LeftBehind(r, d)
  {
    hide Whole, Runs, After, Next, R.Next, P.HeldIn, P.AfterFail;
    var before := s.publisher.broker;
    StartWhole(s);
    FirstRecord(s.machine.tel.staleAfter, s.machine.tel.heartbeatAfter, s.machine.now, d, snap);
    var record := R.RecordStep(d, snap);
    StepWhileOffline(s, record);
    var a := After(s, [TelemetryStep(record)]);
    RunWhole(s, before, [TelemetryStep(record)]);

    var first := ConnectAndCatchUp(a, before);
    var b := After(a, first);
    RunWhole(a, before, first);
    CaughtUpShows(b, before, d);

    FailsWhileIdle(b);
    var fail := [PublisherStep(P.Fail(false, true))];
    var c := After(b, fail);
    RunWhole(b, before, fail);
    FarewellKeepsShown(b.publisher, d);

    StepWhileOffline(c, R.RemoveStep(d));
    var remove := [TelemetryStep(R.RemoveStep(d))];
    var e := After(c, remove);
    RunWhole(c, before, remove);
    RemovedIsNowhere(c.machine, d);

    var second := SilentSessionMisses(e, before, d);
    WholeCapacity(e, before);
    RunsConcat(c, remove, second);
    WholeCapacity(c, before);
    RunsConcat(b, fail, remove + second);
    WholeCapacity(b, before);
    RunsConcat(a, first, fail + (remove + second));
    WholeCapacity(a, before);
    RunsConcat(s, [TelemetryStep(record)], first + (fail + (remove + second)));
    steps := [TelemetryStep(record)] + (first + (fail + (remove + second)));
  }
}
