/**
 The retained event map and the REST views are two copies of one truth. This module says
 what their agreement means and proves that every operation of the telemetry state keeps it.
 */
module Agreement {
  import opened Basics
  import opened Events
  import opened Models
  import opened Telemetry

  // ---------- What agreement means ----------

  function AvailabilityKey(d: DeviceId): Key { Key(Some(d), DeviceAvailability, None) }

  function ConnectionKey(d: DeviceId): Key { Key(Some(d), DeviceConnection, None) }

  function BatteryKey(d: DeviceId): Key { Key(Some(d), Battery, None) }

  function ProbeKey(d: DeviceId, probe: int): Key { Key(Some(d), ProbeAvailability, Some(probe)) }

  /** The retained device availability says "fresh, and some probe is available". */
  ghost predicate AvailabilityAgrees(s: Tel, d: DeviceId)
    requires d in s.current
  {
    var k := AvailabilityKey(d);
    && k in s.latest
    && s.latest[k].data.Available?
    && (s.latest[k].data.available <==> !s.current[d].stale && AnyAvailable(s.current[d].snapshot.probes))
  }

  /** The retained battery says what the battery view says, and as long as it is fresh since when. */
  ghost predicate BatteryAgrees(s: Tel, d: DeviceId)
    requires d in s.current
  {
    var k := BatteryKey(d);
    var view := BatteryOf(s, d).value;
    && k in s.latest
    && s.latest[k].data.BatteryData?
    && s.latest[k].data.batteryAvailable == view.available
    && s.latest[k].data.percentage == view.percentage
    && (view.isFresh ==> s.latest[k].observedAt == view.observedAt)
  }

  /** The retained availability of one probe says what its entry in the probes view says. */
  ghost predicate ProbeAgrees(s: Tel, d: DeviceId, view: ProbeView) {
    var k := ProbeKey(d, view.probe);
    && k in s.latest
    && s.latest[k].data.ProbeData?
    && s.latest[k].data.probeAvailable == view.available
    && s.latest[k].data.present == view.present
  }

  ghost predicate ProbesAgree(s: Tel, d: DeviceId) {
    forall i :: 0 <= i < |Probes(s, d)| ==> ProbeAgrees(s, d, Probes(s, d)[i])
  }

  /** A reading is anything retained for a device except its heartbeat. */
  ghost predicate NoReading(s: Tel, d: DeviceId) {
    forall k :: k in s.latest && k.device == Some(d) ==> k.kind == ThermometerHeartbeat
  }

  ghost predicate ReadingsAgree(s: Tel, d: DeviceId) {
    if d in s.current then
      && ValidSnapshot(s.current[d].snapshot)
      && AvailabilityAgrees(s, d)
      && ConnectionKey(d) in s.latest
      && BatteryAgrees(s, d)
      && ProbesAgree(s, d)
    else
      NoReading(s, d)
  }

  /** The retained heartbeat is the stored one, once it was published at all. */
  ghost predicate HeartbeatAgrees(s: Tel, d: DeviceId) {
    var k := HeartbeatKey(d);
    if d in s.heartbeats then
      && s.heartbeats[d].sequence == LastSequence(s.sequences, k) >= 0
      && (s.heartbeats[d].sequence > 0 <==> k in s.latest)
      && (k in s.latest ==> s.latest[k].data == DataOf(s, s.heartbeats[d])
                            && s.latest[k].sequence == s.heartbeats[d].sequence)
    else
      k !in s.latest && k !in s.sequences
  }

  /** A heartbeat event carries the status, the freshness and the last success of the REST view. */
  predicate TellsView(e: Event, view: HeartbeatView) {
    && e.data.HeartbeatData?
    && e.data.status == view.status && e.data.isFresh == view.isFresh && e.data.lastSuccess == view.lastSuccess
  }

  /** The desired state is the one that the stored heartbeat already shows. */
  predicate DesiredIsStored(s: Tel, d: DeviceId, desiredDisconnected: bool) {
    d in s.heartbeats && (desiredDisconnected <==> s.heartbeats[d].status == Disconnected)
  }

  /**
   The retained heartbeat is the stored one; the REST view also depends on the desired state.
   The two say the same exactly when the stored heartbeat is disconnected just when that is desired.
   */
  ghost predicate HeartbeatViewAgreesExactly(s: Tel, d: DeviceId, desiredDisconnected: bool) {
    HeartbeatKey(d) in s.latest ==>
      var view := HeartbeatOf(s, d, desiredDisconnected);
      view.Some?
      && (TellsView(s.latest[HeartbeatKey(d)], view.value) <==> DesiredIsStored(s, d, desiredDisconnected))
  }

  lemma HeartbeatViewExactly(s: Tel, d: DeviceId, desiredDisconnected: bool)
    requires HeartbeatAgrees(s, d)
    ensures HeartbeatViewAgreesExactly(s, d, desiredDisconnected)
  {
  }

  ghost predicate Agrees(s: Tel, d: DeviceId) {
    ReadingsAgree(s, d) && HeartbeatAgrees(s, d)
  }

  ghost predicate AllAgree(s: Tel) {
    forall d :: Agrees(s, d)
  }

  // ---------- Frames ----------

  ghost predicate SameEntries<V>(a: map<Key, V>, b: map<Key, V>, d: DeviceId) {
    forall k: Key :: k.device == Some(d) ==> (k in a <==> k in b) && (k in a ==> a[k] == b[k])
  }

  /** Nothing that agreement for device `d` looks at differs between the two states. */
  ghost predicate SameFor(s: Tel, r: Tel, d: DeviceId) {
    && s.heartbeatAfter == r.heartbeatAfter
    && CurrentReading(s, d) == CurrentReading(r, d)
    && (d in s.heartbeats <==> d in r.heartbeats)
    && (d in s.heartbeats ==> s.heartbeats[d] == r.heartbeats[d])
    && SameEntries(s.latest, r.latest, d)
    && SameEntries(s.sequences, r.sequences, d)
  }

  function CurrentReading(s: Tel, d: DeviceId): Option<(Snapshot, bool)> {
    if d in s.current then Some((s.current[d].snapshot, s.current[d].stale)) else None
  }

  lemma AgreementIsLocal(s: Tel, r: Tel, d: DeviceId)
    requires SameFor(s, r, d) && Agrees(s, d)
    ensures Agrees(r, d)
  {
    if d in s.current {
      assert Probes(s, d) == Probes(r, d);
      forall i | 0 <= i < |Probes(r, d)|
        ensures ProbeAgrees(r, d, Probes(r, d)[i])
      {
        assert ProbeAgrees(s, d, Probes(s, d)[i]);
      }
    }
  }

  /** An operation on device `d` that restores agreement for `d` and leaves the others alone. */
  ghost predicate Restores(s: Tel, r: Tel, d: DeviceId) {
    Agrees(r, d) && forall x :: x != d ==> SameFor(s, r, x)
  }

  lemma RestoringKeepsAgreement(s: Tel, r: Tel, d: DeviceId)
    requires AllAgree(s) && Restores(s, r, d)
    ensures AllAgree(r)
  {
    forall x
      ensures Agrees(r, x)
    {
      if x != d {
        AgreementIsLocal(s, r, x);
      }
    }
  }

  // ---------- Publishing a list of drafts ----------

  /** The last draft of a list under a kind and probe number. */
  function LastFor(drafts: seq<Draft>, kind: EventType, probe: Option<int>): Option<Draft> {
    if |drafts| == 0 then None
    else
      var l := drafts[|drafts| - 1];
      if l.kind == kind && l.probe == probe then Some(l) else LastFor(drafts[..|drafts| - 1], kind, probe)
  }

  predicate Carries(e: Event, draft: Draft) {
    e.data == draft.data && e.observedAt == draft.observedAt && e.source == draft.source
  }

  /** After publishing a list, each key holds its last draft, or what it held before. */
  lemma {:induction false} EmitAllLatest(s: Tel, d: DeviceId, drafts: seq<Draft>, k: Key)
    ensures var r := EmitAll(s, d, drafts);
            var l := LastFor(drafts, k.kind, k.probe);
            if k.device == Some(d) && Remembered(k.kind) && l.Some?
            then k in r.latest && Carries(r.latest[k], l.value)
            else (k in r.latest <==> k in s.latest) && (k in s.latest ==> r.latest[k] == s.latest[k])
  {
    if |drafts| > 0 {
      EmitAllLatest(s, d, drafts[..|drafts| - 1], k);
    }
  }

  lemma {:induction false} EmitAllSequences(s: Tel, d: DeviceId, drafts: seq<Draft>, k: Key)
    ensures var r := EmitAll(s, d, drafts);
            k.device != Some(d) || LastFor(drafts, k.kind, k.probe).None? ==>
              (k in r.sequences <==> k in s.sequences) && (k in s.sequences ==> r.sequences[k] == s.sequences[k])
  {
    if |drafts| > 0 {
      EmitAllSequences(s, d, drafts[..|drafts| - 1], k);
    }
  }

  lemma EmitAllFrame(s: Tel, d: DeviceId, drafts: seq<Draft>, x: DeviceId)
    requires x != d
    ensures SameEntries(s.latest, EmitAll(s, d, drafts).latest, x)
    ensures SameEntries(s.sequences, EmitAll(s, d, drafts).sequences, x)
  {
    var r := EmitAll(s, d, drafts);
    forall k: Key | k.device == Some(x)
      ensures (k in s.latest <==> k in r.latest) && (k in s.latest ==> s.latest[k] == r.latest[k])
      ensures (k in s.sequences <==> k in r.sequences) && (k in s.sequences ==> s.sequences[k] == r.sequences[k])
    {
      EmitAllLatest(s, d, drafts, k);
      EmitAllSequences(s, d, drafts, k);
    }
  }

  /** Publishing no heartbeat leaves the heartbeat entry of the device alone. */
  lemma EmitAllKeepsHeartbeat(s: Tel, d: DeviceId, drafts: seq<Draft>)
    requires LastFor(drafts, ThermometerHeartbeat, None).None?
    ensures var r := EmitAll(s, d, drafts);
            HeartbeatAgrees(s, d) <==> HeartbeatAgrees(r, d)
  {
    EmitAllLatest(s, d, drafts, HeartbeatKey(d));
    EmitAllSequences(s, d, drafts, HeartbeatKey(d));
  }

  lemma {:induction false} LastForAppend(a: seq<Draft>, b: seq<Draft>, kind: EventType, probe: Option<int>)
    ensures LastFor(a + b, kind, probe) ==
            if LastFor(b, kind, probe).Some? then LastFor(b, kind, probe) else LastFor(a, kind, probe)
  {
    if |b| == 0 {
      assert a + b == a;
    } else {
      assert (a + b)[..|a + b| - 1] == a + b[..|b| - 1];
      LastForAppend(a, b[..|b| - 1], kind, probe);
    }
  }

  lemma {:induction false} LastForProbes(snap: Snapshot, n: nat, kind: EventType, probe: Option<int>)
    requires n <= |snap.probes| && UniqueNumbers(snap.probes) && kind != ProbeTemperature
    ensures var l := LastFor(ProbeDrafts(snap, n), kind, probe);
            && (kind != ProbeAvailability ==> l.None?)
            && (l.Some? ==> exists i :: 0 <= i < n && probe == Some(snap.probes[i].number))
    ensures kind == ProbeAvailability ==>
              forall i :: 0 <= i < n && probe == Some(snap.probes[i].number) ==>
                var l := LastFor(ProbeDrafts(snap, n), kind, probe);
                && l.Some?
                && l.value.data == ProbeData(snap.probes[i].available, snap.probes[i].present, "")
  {
    if kind != ProbeAvailability {
      LastForNoProbe(snap, n, kind, probe);
    } else if i :| 0 <= i < n && probe == Some(snap.probes[i].number) {
      LastForThatProbe(snap, n, i);
    } else {
      LastForNoProbe(snap, n, kind, probe);
    }
  }

  lemma {:induction false} LastForNoProbe(snap: Snapshot, n: nat, kind: EventType, probe: Option<int>)
    requires n <= |snap.probes| && kind != ProbeTemperature
    requires forall i :: 0 <= i < n ==> !(kind == ProbeAvailability && probe == Some(snap.probes[i].number))
    ensures LastFor(ProbeDrafts(snap, n), kind, probe).None?
    decreases n
  {
    hide LastFor, ProbeDrafts, OneProbe, ProbeDraft;
    if n == 0 {
      NoDrafts(snap, kind, probe);
    } else {
      OneMoreProbe(snap, n);
      LastForNoProbe(snap, n - 1, kind, probe);
      LastForAppend(ProbeDrafts(snap, n - 1), OneProbe(snap, n - 1), kind, probe);
      LastForOneProbe(snap, n - 1, kind, probe);
    }
  }

  lemma NoDrafts(snap: Snapshot, kind: EventType, probe: Option<int>)
    ensures LastFor(ProbeDrafts(snap, 0), kind, probe).None?
  {
  }

  lemma OneMoreProbe(snap: Snapshot, n: nat)
    requires 0 < n <= |snap.probes|
    ensures ProbeDrafts(snap, n) == ProbeDrafts(snap, n - 1) + OneProbe(snap, n - 1)
  {
  }

  lemma {:induction false} LastForThatProbe(snap: Snapshot, n: nat, i: nat)
    requires i < n <= |snap.probes| && UniqueNumbers(snap.probes)
    ensures var l := LastFor(ProbeDrafts(snap, n), ProbeAvailability, Some(snap.probes[i].number));
            l.Some? && l.value.data == ProbeData(snap.probes[i].available, snap.probes[i].present, "")
    decreases n
  {
    hide LastFor, ProbeDrafts, OneProbe, ProbeDraft;
    var probe := Some(snap.probes[i].number);
    OneMoreProbe(snap, n);
    LastForAppend(ProbeDrafts(snap, n - 1), OneProbe(snap, n - 1), ProbeAvailability, probe);
    LastForOneProbe(snap, n - 1, ProbeAvailability, probe);
    if i < n - 1 {
      LastForThatProbe(snap, n - 1, i);
    }
  }

  lemma LastForOneProbe(snap: Snapshot, i: nat, kind: EventType, probe: Option<int>)
    requires i < |snap.probes| && kind != ProbeTemperature
    ensures var l := LastFor(OneProbe(snap, i), kind, probe);
            if kind == ProbeAvailability && probe == Some(snap.probes[i].number)
            then l.Some? && l.value.data == ProbeData(snap.probes[i].available, snap.probes[i].present, "")
            else l.None?
  {
    var first := ProbeDraft(snap, i);
    if HasTemperature(snap.probes[i]) {
      LastForAppend([first], [TemperatureDraft(snap, i)], kind, probe);
      assert OneProbe(snap, i) == [first] + [TemperatureDraft(snap, i)];
    }
  }

  lemma {:induction false} LastForStaleProbes(snap: Snapshot, n: nat, now: Instant, reason: string,
                                              kind: EventType, probe: Option<int>)
    requires n <= |snap.probes| && UniqueNumbers(snap.probes)
    ensures var l := LastFor(StaleProbeDrafts(snap, n, now, reason), kind, probe);
            kind != ProbeAvailability ==> l.None?
    ensures kind == ProbeAvailability ==>
              forall i :: 0 <= i < n && probe == Some(snap.probes[i].number) ==>
                var l := LastFor(StaleProbeDrafts(snap, n, now, reason), kind, probe);
                l.Some? && l.value.data == ProbeData(false, snap.probes[i].present, reason)
  {
    if n > 0 {
      LastForStaleProbes(snap, n - 1, now, reason, kind, probe);
      var front := StaleProbeDrafts(snap, n - 1, now, reason);
      var last := StaleProbeDraft(snap, n - 1, now, reason);
      assert StaleProbeDrafts(snap, n, now, reason) == front + [last];
      LastForAppend(front, [last], kind, probe);
    }
  }

  lemma LastForStale(snap: Snapshot, now: Instant, reason: string, kind: EventType, probe: Option<int>)
    requires UniqueNumbers(snap.probes)
    ensures var l := LastFor(StaleDrafts(snap, now, reason), kind, probe);
            && (kind == DeviceAvailability && probe == None ==>
                  l.Some? && l.value == UnavailableDraft(snap, now, reason))
            && (kind == Battery && probe == None ==> l.Some? && l.value == NoBatteryDraft(snap, now, reason))
            && (kind == DeviceConnection || kind == ThermometerHeartbeat ==> l.None?)
            && (kind == ProbeAvailability ==>
                  l == LastFor(StaleProbeDrafts(snap, |snap.probes|, now, reason), kind, probe))
  {
    var heads := [UnavailableDraft(snap, now, reason), NoBatteryDraft(snap, now, reason)];
    var probes := StaleProbeDrafts(snap, |snap.probes|, now, reason);
    LastForAppend(heads, probes, kind, probe);
    LastForStaleProbes(snap, |snap.probes|, now, reason, kind, probe);
    assert heads == [UnavailableDraft(snap, now, reason)] + [NoBatteryDraft(snap, now, reason)];
    LastForAppend([UnavailableDraft(snap, now, reason)], [NoBatteryDraft(snap, now, reason)], kind, probe);
  }

  lemma LastForRecord(previous: Option<Current>, snap: Snapshot, kind: EventType, probe: Option<int>)
    requires UniqueNumbers(snap.probes) && kind != ProbeTemperature
    ensures var l := LastFor(RecordDrafts(previous, snap), kind, probe);
            && (kind == DeviceAvailability && probe == None ==> l.Some? && l.value == AvailabilityDraft(snap))
            && (kind == DeviceConnection && probe == None ==> l.Some? && l.value == PollingDraft(snap))
            && (kind == Battery && probe == None ==>
                  l == if BatteryIsNews(previous, snap) then Some(BatteryDraft(snap)) else None)
            && (kind == ThermometerHeartbeat ==> l.None?)
            && (kind == ProbeAvailability ==> l == LastFor(ProbeDrafts(snap, |snap.probes|), kind, probe))
  {
    var heads := [AvailabilityDraft(snap), PollingDraft(snap)];
    var battery := if BatteryIsNews(previous, snap) then [BatteryDraft(snap)] else [];
    var probes := ProbeDrafts(snap, |snap.probes|);
    LastForAppend(heads + battery, probes, kind, probe);
    LastForAppend(heads, battery, kind, probe);
    LastForProbes(snap, |snap.probes|, kind, probe);
    assert heads[..1] == [AvailabilityDraft(snap)];
  }

  // ---------- Stale marking ----------

  lemma MarkOneTells(s: Tel, d: DeviceId, now: Instant, reason: string)
    requires d in s.current && Agrees(s, d)
    ensures var r := MarkOne(s, d, now, reason);
            AvailabilityAgrees(r, d) && BatteryAgrees(r, d) && ConnectionKey(d) in r.latest
  {
    hide EmitAll, StaleDrafts, ProbesAgree, HeartbeatAgrees;
    var c := s.current[d];
    var t := s.(current := s.current[d := c.(stale := true)]);
    var drafts := StaleDrafts(c.snapshot, now, reason);
    LastForStale(c.snapshot, now, reason, DeviceAvailability, None);
    LastForStale(c.snapshot, now, reason, Battery, None);
    LastForStale(c.snapshot, now, reason, DeviceConnection, None);
    EmitAllLatest(t, d, drafts, AvailabilityKey(d));
    EmitAllLatest(t, d, drafts, BatteryKey(d));
    EmitAllLatest(t, d, drafts, ConnectionKey(d));
  }

  lemma MarkOneTellsProbe(s: Tel, d: DeviceId, now: Instant, reason: string, i: nat)
    requires d in s.current && Agrees(s, d) && i < |Probes(s, d)|
    ensures var r := MarkOne(s, d, now, reason);
            i < |Probes(r, d)| && ProbeAgrees(r, d, Probes(r, d)[i])
  {
    hide EmitAll, StaleDrafts, HeartbeatAgrees, BatteryAgrees, AvailabilityAgrees, ProbesAgree;
    var c := s.current[d];
    var t := s.(current := s.current[d := c.(stale := true)]);
    var drafts := StaleDrafts(c.snapshot, now, reason);
    var number := c.snapshot.probes[i].number;
    LastForStale(c.snapshot, now, reason, ProbeAvailability, Some(number));
    LastForStaleProbes(c.snapshot, |c.snapshot.probes|, now, reason, ProbeAvailability, Some(number));
    EmitAllLatest(t, d, drafts, ProbeKey(d, number));
  }

  lemma MarkOneKeepsHeartbeat(s: Tel, d: DeviceId, now: Instant, reason: string)
    requires d in s.current && Agrees(s, d)
    ensures HeartbeatAgrees(MarkOne(s, d, now, reason), d)
  {
    hide EmitAll, StaleDrafts, AvailabilityAgrees, BatteryAgrees, ProbesAgree;
    var c := s.current[d];
    var t := s.(current := s.current[d := c.(stale := true)]);
    LastForStale(c.snapshot, now, reason, ThermometerHeartbeat, None);
    EmitAllKeepsHeartbeat(t, d, StaleDrafts(c.snapshot, now, reason));
  }

  lemma MarkOneAgrees(s: Tel, d: DeviceId, now: Instant, reason: string)
    requires d in s.current && Agrees(s, d)
    ensures Restores(s, MarkOne(s, d, now, reason), d)
  {
    hide EmitAll, StaleDrafts, AvailabilityAgrees, BatteryAgrees, ProbeAgrees, HeartbeatAgrees, ValidSnapshot;
    var c := s.current[d];
    var t := s.(current := s.current[d := c.(stale := true)]);
    var drafts := StaleDrafts(c.snapshot, now, reason);
    var r := MarkOne(s, d, now, reason);
    MarkOneTells(s, d, now, reason);
    MarkOneKeepsHeartbeat(s, d, now, reason);
    forall i | 0 <= i < |Probes(r, d)|
      ensures ProbeAgrees(r, d, Probes(r, d)[i])
    {
      MarkOneTellsProbe(s, d, now, reason, i);
    }
    forall x | x != d
      ensures SameFor(s, r, x)
    {
      EmitAllFrame(t, d, drafts, x);
    }
  }

  lemma {:induction false} SweepAgrees(s: Tel, todo: seq<DeviceId>, now: Instant, force: Option<DeviceId>,
                                       reason: string)
    requires AllAgree(s)
    ensures AllAgree(Sweep(s, todo, now, force, reason))
    decreases |todo|
  {
    if |todo| > 0 {
      if Overdue(s, todo[0], now, force) {
        assert Agrees(s, todo[0]);
        MarkOneAgrees(s, todo[0], now, reason);
        RestoringKeepsAgreement(s, MarkOne(s, todo[0], now, reason), todo[0]);
      }
      SweepAgrees(MarkIfOverdue(s, todo[0], now, force, reason), todo[1..], now, force, reason);
    }
  }

  // ---------- Recording ----------

  /**
   Equal battery times mean equal battery readings: a record that does not publish the
   battery again carries the reading that was published.
   */
  predicate BatteryCoherent(previous: Option<Current>, snap: Snapshot) {
    !BatteryIsNews(previous, snap) ==>
      && snap.batteryAvailable == previous.value.snapshot.batteryAvailable
      && snap.batteryPercent == previous.value.snapshot.batteryPercent
  }

  lemma InstallProbesAgree(s: Tel, d: DeviceId, previous: Option<Current>, snap: Snapshot)
    requires d in s.current && s.current[d].snapshot == snap && !s.current[d].stale && ValidSnapshot(snap)
    ensures ProbesAgree(EmitAll(s, d, RecordDrafts(previous, snap)), d)
  {
    hide EmitAll, RecordDrafts;
    var drafts := RecordDrafts(previous, snap);
    var r := EmitAll(s, d, drafts);
    forall i | 0 <= i < |Probes(r, d)|
      ensures ProbeAgrees(r, d, Probes(r, d)[i])
    {
      var number := snap.probes[i].number;
      LastForRecord(previous, snap, ProbeAvailability, Some(number));
      LastForProbes(snap, |snap.probes|, ProbeAvailability, Some(number));
      EmitAllLatest(s, d, drafts, ProbeKey(d, number));
    }
  }

  /**
   Recording a snapshot restores agreement exactly when the battery is coherent. Everything
   but the battery agrees either way.
   */
  lemma InstallTells(s: Tel, d: DeviceId, snap: Snapshot)
    requires Agrees(s, d) && ValidSnapshot(snap)
    ensures var r := EmitAll(Install(s, d, snap), d, RecordDrafts(CurrentOf(s, d), snap));
            && AvailabilityAgrees(r, d) && ConnectionKey(d) in r.latest
            && (BatteryAgrees(r, d) <==> BatteryCoherent(CurrentOf(s, d), snap))
  {
    hide EmitAll, RecordDrafts, ProbesAgree, HeartbeatAgrees, CancelOf;
    var previous := CurrentOf(s, d);
    var t := Install(s, d, snap);
    var drafts := RecordDrafts(previous, snap);
    LastForRecord(previous, snap, DeviceAvailability, None);
    EmitAllLatest(t, d, drafts, AvailabilityKey(d));
    LastForRecord(previous, snap, DeviceConnection, None);
    EmitAllLatest(t, d, drafts, ConnectionKey(d));
    LastForRecord(previous, snap, Battery, None);
    EmitAllLatest(t, d, drafts, BatteryKey(d));
  }

  lemma InstallKeepsHeartbeat(s: Tel, d: DeviceId, snap: Snapshot)
    requires HeartbeatAgrees(s, d) && ValidSnapshot(snap)
    ensures HeartbeatAgrees(EmitAll(Install(s, d, snap), d, RecordDrafts(CurrentOf(s, d), snap)), d)
  {
    hide EmitAll, RecordDrafts, CancelOf;
    LastForRecord(CurrentOf(s, d), snap, ThermometerHeartbeat, None);
    EmitAllKeepsHeartbeat(Install(s, d, snap), d, RecordDrafts(CurrentOf(s, d), snap));
  }

  lemma InstallAgrees(s: Tel, d: DeviceId, snap: Snapshot)
    requires Agrees(s, d) && ValidSnapshot(snap)
    ensures var r := EmitAll(Install(s, d, snap), d, RecordDrafts(CurrentOf(s, d), snap));
            && (Agrees(r, d) <==> BatteryCoherent(CurrentOf(s, d), snap))
            && AvailabilityAgrees(r, d) && ProbesAgree(r, d) && HeartbeatAgrees(r, d)
            && forall x :: x != d ==> SameFor(s, r, x)
  {
    hide EmitAll, RecordDrafts, ProbesAgree, AvailabilityAgrees, BatteryAgrees, HeartbeatAgrees, ValidSnapshot, CancelOf;
    hide BatteryCoherent;
    var previous := CurrentOf(s, d);
    var t := Install(s, d, snap);
    var drafts := RecordDrafts(previous, snap);
    var r := EmitAll(t, d, drafts);
    InstallTells(s, d, snap);
    InstallKeepsHeartbeat(s, d, snap);
    InstallProbesAgree(t, d, previous, snap);
    forall x | x != d
      ensures SameFor(s, r, x)
    {
      EmitAllFrame(t, d, drafts, x);
    }
  }

  // ---------- Heartbeats ----------

  /** Publishing the heartbeat of a device restores its agreement, whatever was changed in it before. */
  lemma PublishHeartbeatAgrees(s: Tel, d: DeviceId, at: Instant)
    requires d in s.heartbeats && ReadingsAgree(s, d)
    requires s.heartbeats[d].sequence == LastSequence(s.sequences, HeartbeatKey(d)) >= 0
    ensures Restores(s, PublishHeartbeat(s, d, at), d)
  {
    var r := PublishHeartbeat(s, d, at);
    var k := HeartbeatKey(d);
    assert r.latest == s.latest[k := r.latest[k]];
    if d in s.current {
      assert Probes(s, d) == Probes(r, d);
      forall i | 0 <= i < |Probes(r, d)|
        ensures ProbeAgrees(r, d, Probes(r, d)[i])
      {
        assert ProbeAgrees(s, d, Probes(s, d)[i]);
      }
    }
  }

  /** Readings and their views do not depend on heartbeats. */
  lemma ReadingsIgnoreHeartbeats(s: Tel, d: DeviceId, heartbeats: map<DeviceId, Heartbeat>)
    requires ReadingsAgree(s, d)
    ensures ReadingsAgree(s.(heartbeats := heartbeats), d)
  {
    var r := s.(heartbeats := heartbeats);
    if d in s.current {
      assert Probes(s, d) == Probes(r, d);
      forall i | 0 <= i < |Probes(r, d)|
        ensures ProbeAgrees(r, d, Probes(r, d)[i])
      {
        assert ProbeAgrees(s, d, Probes(s, d)[i]);
      }
    }
  }

  lemma EnsureHeartbeatAgrees(s: Tel, d: DeviceId, source: Source)
    requires Agrees(s, d)
    ensures Restores(s, EnsureHeartbeat(s, d, source), d)
  {
    hide ReadingsAgree, HeartbeatAgrees, EnsureHeartbeat, SameFor;
    EnsuredHeartbeatAgrees(s, d, source);
    ReadingsIgnoreHeartbeats(s, d, EnsureHeartbeat(s, d, source).heartbeats);
    forall x | x != d ensures SameFor(s, EnsureHeartbeat(s, d, source), x) {
      EnsuredIsApart(s, d, source, x);
    }
  }

  lemma EnsuredHeartbeatAgrees(s: Tel, d: DeviceId, source: Source)
    requires HeartbeatAgrees(s, d)
    ensures HeartbeatAgrees(EnsureHeartbeat(s, d, source), d)
    ensures EnsureHeartbeat(s, d, source) == s.(heartbeats := EnsureHeartbeat(s, d, source).heartbeats)
  {
  }

  lemma EnsuredIsApart(s: Tel, d: DeviceId, source: Source, x: DeviceId)
    requires x != d
    ensures SameFor(s, EnsureHeartbeat(s, d, source), x)
  {
  }

  /** Changing heartbeats and tasks of a device, then publishing its heartbeat. */
  lemma ChangedHeartbeatAgrees(s: Tel, t: Tel, d: DeviceId, at: Instant)
    requires Agrees(s, d) && d in s.heartbeats
    requires t == s.(heartbeats := t.heartbeats, timers := t.timers, heartbeatTasks := t.heartbeatTasks)
    requires d in t.heartbeats && t.heartbeats == s.heartbeats[d := t.heartbeats[d]]
    requires t.heartbeats[d].sequence == s.heartbeats[d].sequence
    ensures Restores(s, PublishHeartbeat(t, d, at), d)
  {
    if d in s.current {
      assert Probes(s, d) == Probes(t, d);
      forall i | 0 <= i < |Probes(t, d)|
        ensures ProbeAgrees(t, d, Probes(t, d)[i])
      {
        assert ProbeAgrees(s, d, Probes(s, d)[i]);
      }
    }
    assert ReadingsAgree(t, d);
    PublishHeartbeatAgrees(t, d, at);
  }

  // ---------- Every operation keeps agreement ----------

  lemma CommunicationAgrees(s: Tel, d: DeviceId, at: Instant, source: Source)
    requires AllAgree(s)
    ensures AllAgree(CommunicationSucceeded(s, d, at, source))
  {
    assert Agrees(s, d);
    var r := EnsureHeartbeat(s, d, source);
    EnsureHeartbeatAgrees(s, d, source);
    RestoringKeepsAgreement(s, r, d);
    if NewsForHeartbeat(r.heartbeats[d], at) {
      var quiet := Succeed(r, d, at, source);
      ChangedHeartbeatAgrees(r, quiet, d, at);
      var told := PublishHeartbeat(quiet, d, at);
      RestoringKeepsAgreement(r, told, d);
      TasksDoNotMatter(told, StartHeartbeatTask(told, d, at));
    }
  }

  /** Agreement does not depend on deadline tasks. */
  lemma TasksDoNotMatter(s: Tel, r: Tel)
    requires AllAgree(s)
    requires r == s.(timers := r.timers, staleTasks := r.staleTasks, heartbeatTasks := r.heartbeatTasks,
                     nextTimer := r.nextTimer)
    ensures AllAgree(r)
  {
    forall d
      ensures Agrees(r, d)
    {
      assert Agrees(s, d);
      AgreementIsLocal(s, r, d);
    }
  }

  lemma RecordNewerAgrees(t: Tel, d: DeviceId, snap: Snapshot)
    requires AllAgree(t) && ValidSnapshot(snap)
    ensures AllAgree(EmitAll(Install(t, d, snap), d, RecordDrafts(CurrentOf(t, d), snap)))
            <==> BatteryCoherent(CurrentOf(t, d), snap)
  {
    var r := EmitAll(Install(t, d, snap), d, RecordDrafts(CurrentOf(t, d), snap));
    assert Agrees(t, d);
    InstallAgrees(t, d, snap);
    if BatteryCoherent(CurrentOf(t, d), snap) {
      RestoringKeepsAgreement(t, r, d);
    } else {
      assert !Agrees(r, d);
    }
  }

  /** Recording keeps agreement everywhere but at the battery, and there exactly when it is coherent. */
  lemma RecordAgrees(s: Tel, d: DeviceId, snap: Snapshot, now: Instant)
    requires AllAgree(s) && ValidSnapshot(snap)
    ensures var r := Record(s, d, snap, now);
            AllAgree(r) <==> (IsNewer(s, d, snap) ==> BatteryCoherent(CurrentOf(s, d), snap))
  {
    var r := Record(s, d, snap, now);
    if IsNewer(s, d, snap) {
      var t := NoteCommunication(s, d, snap);
      if snap.communicatedAt.Some? {
        CommunicationAgrees(s, d, snap.communicatedAt.value, snap.source);
      }
      RecordNewerAgrees(t, d, snap);
    } else {
      SweepAgrees(s, s.order, now, None, "stale");
    }
  }

  lemma EmitUnavailableAgrees(s: Tel, d: DeviceId, draft: Draft)
    requires AllAgree(s) && d in s.current
    requires || (draft.kind == DeviceConnection && draft.probe == None)
             || (draft.kind == DeviceAvailability && draft.probe == None && s.current[d].stale
                 && draft.data.Available? && !draft.data.available)
    ensures AllAgree(Emit(s, d, draft))
  {
    hide ReadingsAgree, HeartbeatAgrees, Emit;
    var r := Emit(s, d, draft);
    assert Agrees(s, d);
    EmittedReadingsAgree(s, d, draft);
    EmittedHeartbeatAgrees(s, d, draft);
    forall x | x != d ensures SameFor(s, r, x) {
      EmitIsApart(s, d, draft, x);
    }
    RestoringKeepsAgreement(s, r, d);
  }

  lemma EmitIsApart(s: Tel, d: DeviceId, draft: Draft, x: DeviceId)
    requires x != d
    ensures SameFor(s, Emit(s, d, draft), x)
  {
  }

  lemma EmittedHeartbeatAgrees(s: Tel, d: DeviceId, draft: Draft)
    requires HeartbeatAgrees(s, d) && draft.kind != ThermometerHeartbeat
    ensures HeartbeatAgrees(Emit(s, d, draft), d)
  {
  }

  lemma EmittedReadingsAgree(s: Tel, d: DeviceId, draft: Draft)
    requires ReadingsAgree(s, d) && d in s.current
    requires || (draft.kind == DeviceConnection && draft.probe == None)
             || (draft.kind == DeviceAvailability && draft.probe == None && s.current[d].stale
                 && draft.data.Available? && !draft.data.available)
    ensures ReadingsAgree(Emit(s, d, draft), d)
  {
    hide ValidSnapshot;
    var r := Emit(s, d, draft);
    assert Probes(s, d) == Probes(r, d);
    forall i | 0 <= i < |Probes(r, d)|
      ensures ProbeAgrees(r, d, Probes(r, d)[i])
    {
      assert ProbeAgrees(s, d, Probes(s, d)[i]);
    }
  }

  lemma MarkOneMarks(s: Tel, x: DeviceId, now: Instant, reason: string)
    requires x in s.current
    ensures var r := MarkOne(s, x, now, reason);
            r.staleAfter == s.staleAfter && r.current == s.current[x := s.current[x].(stale := true)]
  {
  }

  lemma OverdueIsCurrent(s: Tel, x: DeviceId, now: Instant, force: Option<DeviceId>)
    ensures Overdue(s, x, now, force) ==> x in s.current
  {
  }

  lemma MarkIfOverdueMarks(s: Tel, x: DeviceId, now: Instant, force: Option<DeviceId>, reason: string)
    ensures var r := MarkIfOverdue(s, x, now, force, reason);
            && r.staleAfter == s.staleAfter
            && r.current.Keys == s.current.Keys
            && (forall d :: d in s.current && d != x ==> r.current[d] == s.current[d])
            && (x in s.current ==>
                  r.current[x] == s.current[x].(stale := s.current[x].stale || Overdue(s, x, now, force)))
  {
    OverdueIsCurrent(s, x, now, force);
    hide Overdue, MarkOne;
    if Overdue(s, x, now, force) {
      MarkOneMarks(s, x, now, reason);
    }
  }

  /** A sweep never makes a snapshot fresh, keeps every snapshot, and marks what it was asked to. */
  lemma {:induction false} SweepMarks(s: Tel, todo: seq<DeviceId>, now: Instant, force: Option<DeviceId>,
                                      reason: string)
    ensures var r := Sweep(s, todo, now, force, reason);
            && r.current.Keys == s.current.Keys
            && forall d :: d in s.current ==>
                 && r.current[d] == s.current[d].(stale := r.current[d].stale)
                 && (r.current[d].stale <==> s.current[d].stale || (d in todo && Overdue(s, d, now, force)))
    decreases |todo|
  {
    if |todo| > 0 {
      var t := MarkIfOverdue(s, todo[0], now, force, reason);
      var r := Sweep(s, todo, now, force, reason);
      MarkIfOverdueMarks(s, todo[0], now, force, reason);
      SweepMarks(t, todo[1..], now, force, reason);
      assert r == Sweep(t, todo[1..], now, force, reason);
      forall d | d in s.current
        ensures r.current[d] == s.current[d].(stale := r.current[d].stale)
        ensures r.current[d].stale <==> s.current[d].stale || (d in todo && Overdue(s, d, now, force))
      {
        assert d in t.current;
        assert d in todo <==> d == todo[0] || d in todo[1..];
      }
    }
  }

  /** The dictionary order of the current snapshots lists exactly their devices, once each. */
  ghost predicate OrderMatches(s: Tel) {
    && Distinct(s.order)
    && forall d :: d in s.order <==> d in s.current
  }

  lemma ConnectionAgrees(s: Tel, d: DeviceId, state: string, now: Instant)
    requires AllAgree(s) && OrderMatches(s)
    ensures AllAgree(Connection(s, d, state, now))
  {
    if d in s.current {
      var snap := s.current[d].snapshot;
      var r := Emit(s, d, ConnectionDraft(snap, state, now));
      EmitUnavailableAgrees(s, d, ConnectionDraft(snap, state, now));
      if state == "disconnected" {
        SweepAgrees(r, r.order, now, Some(d), "disconnected");
        SweepMarks(r, r.order, now, Some(d), "disconnected");
        EmitUnavailableAgrees(MarkStale(r, now, Some(d), "disconnected"), d, UnavailableDraft(snap, now, "disconnected"));
      }
    }
  }

  lemma RegisterAgrees(s: Tel, d: DeviceId, source: Source, now: Instant)
    requires AllAgree(s)
    ensures AllAgree(RegisterHeartbeat(s, d, source, now))
  {
    assert Agrees(s, d);
    var r := EnsureHeartbeat(s, d, source);
    EnsureHeartbeatAgrees(s, d, source);
    RestoringKeepsAgreement(s, r, d);
    if r.heartbeats[d].sequence == 0 {
      assert Agrees(r, d);
      PublishHeartbeatAgrees(r, d, now);
      RestoringKeepsAgreement(r, PublishHeartbeat(r, d, now), d);
    }
  }

  lemma HeartbeatDisconnectedAgrees(s: Tel, d: DeviceId, now: Instant)
    requires AllAgree(s)
    ensures AllAgree(HeartbeatDisconnected(s, d, now))
  {
    if d in s.heartbeats {
      var r := StopHeartbeatTask(s, d);
      TasksDoNotMatter(s, r);
      if s.heartbeats[d].status != Disconnected {
        var t := SetStatus(r, d, Disconnected);
        assert Agrees(r, d);
        ChangedHeartbeatAgrees(r, t, d, now);
        RestoringKeepsAgreement(r, PublishHeartbeat(t, d, now), d);
      }
    }
  }

  lemma HeartbeatExpectedAgrees(s: Tel, d: DeviceId, now: Instant)
    requires AllAgree(s)
    ensures AllAgree(HeartbeatExpected(s, d, now))
  {
    if d in s.heartbeats && s.heartbeats[d].status == Disconnected {
      var t := SetStatus(s, d, RestoredStatus(s.heartbeats[d]));
      assert Agrees(s, d);
      ChangedHeartbeatAgrees(s, t, d, now);
      RestoringKeepsAgreement(s, PublishHeartbeat(t, d, now), d);
    }
  }

  /** Forgetting a device leaves nothing of it in any of the copies. */
  lemma DropAgrees(s: Tel, d: DeviceId)
    requires AllAgree(s)
    ensures AllAgree(Drop(s, d))
    ensures forall k :: k in Drop(s, d).latest ==> k.device != Some(d)
  {
    var r := Drop(s, d);
    forall x
      ensures Agrees(r, x)
    {
      assert Agrees(s, x);
      if x != d {
        AgreementIsLocal(s, r, x);
      }
    }
  }

  lemma RemoveAgrees(s: Tel, d: DeviceId, now: Instant)
    requires AllAgree(s) && OrderMatches(s)
    ensures AllAgree(Remove(s, d, now))
    ensures forall k :: k in Remove(s, d, now).latest ==> k.device != Some(d)
  {
    ConnectionAgrees(s, d, "disconnected", now);
    var r := Connection(s, d, "disconnected", now);
    HeartbeatDisconnectedAgrees(r, d, now);
    DropAgrees(HeartbeatDisconnected(r, d, now), d);
  }

  lemma FireAgrees(s: Tel, task: nat, now: Instant)
    requires AllAgree(s) && task in s.timers
    ensures AllAgree(Fire(s, task, now))
  {
    var t := s.timers[task];
    var r := Finish(s, task);
    TasksDoNotMatter(s, r);
    match t.goal {
      case SnapshotDeadline =>
        SweepAgrees(r, r.order, now, None, "stale");
      case HeartbeatDeadline(at) =>
        if StillNewest(s, t.device, at) {
          var u := SetStatus(r, t.device, Stale);
          assert Agrees(r, t.device);
          ChangedHeartbeatAgrees(r, u, t.device, now);
          RestoringKeepsAgreement(r, PublishHeartbeat(u, t.device, now), t.device);
        }
    }
  }

  /** Kinds the telemetry state publishes itself; no other component publishes them. */
  predicate TelemetryKind(kind: EventType) {
    kind != ServiceAvailability && !Administrative(kind)
  }

  lemma OtherAgrees(s: Tel, e: Event)
    requires AllAgree(s) && !TelemetryKind(e.kind)
    requires e.kind == ServiceAvailability ==> e.device == None
    ensures AllAgree(PublishOther(s, e))
  {
    forall d
      ensures Agrees(PublishOther(s, e), d)
    {
      assert Agrees(s, d);
      AgreementIsLocal(s, PublishOther(s, e), d);
    }
  }
}
