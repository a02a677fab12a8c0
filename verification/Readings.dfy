/**
 The temperatures that a recording publishes: which events of the log they are, and that their
 values are those of the snapshot.
 */
module PublishedReadings {
  import opened Basics
  import opened Events
  import opened Models
  import opened Telemetry
  import Runs

  /** A reading with a temperature to publish. */
  predicate Measured(p: ProbeReading) {
    p.available && p.present && p.temperature.Some?
  }

  /** Event `e` tells the temperature of probe `p` of the snapshot. */
  predicate TellsTemperature(e: Event, d: DeviceId, snap: Snapshot, p: ProbeReading) {
    && e.kind == ProbeTemperature && e.device == Some(d) && e.probe == Some(p.number)
    && e.observedAt == snap.observedAt && e.source == snap.source
    && p.temperature.Some? && e.data == TemperatureData(p.temperature.value)
  }

  predicate TemperatureAt(log: seq<Entry>, j: nat)
    requires j < |log|
  {
    log[j].Published? && log[j].event.kind == ProbeTemperature
  }

  /** Every temperature event from `start` on is that of a measured probe. */
  ghost predicate OnlyMeasured(log: seq<Entry>, start: nat, d: DeviceId, snap: Snapshot) {
    forall j :: start <= j < |log| && TemperatureAt(log, j) ==>
      exists i :: 0 <= i < |snap.probes| && Measured(snap.probes[i])
                  && TellsTemperature(log[j].event, d, snap, snap.probes[i])
  }

  /** From `start` on there is a temperature event of every measured probe. */
  ghost predicate AllMeasured(log: seq<Entry>, start: nat, d: DeviceId, snap: Snapshot) {
    forall i :: 0 <= i < |snap.probes| && Measured(snap.probes[i]) ==>
      exists j :: start <= j < |log| && TemperatureAt(log, j) && TellsTemperature(log[j].event, d, snap, snap.probes[i])
  }

  /** From `start` on no probe has two temperature events. */
  ghost predicate OncePerProbe(log: seq<Entry>, start: nat) {
    forall j, k :: start <= j < k < |log| && TemperatureAt(log, j) && TemperatureAt(log, k) ==>
      log[j].event.probe != log[k].event.probe
  }

  /**
   Recording a newer snapshot publishes the temperature of exactly the probes that are available,
   present and measured, once for each, with the value of the snapshot.
   */
  lemma RecordPublishesTemperatures(s: Tel, d: DeviceId, snap: Snapshot, now: Instant)
    requires ValidSnapshot(snap)
    requires d in s.current ==> snap.observedAt > s.current[d].snapshot.observedAt
    ensures s.log <= Record(s, d, snap, now).log
    ensures OnlyMeasured(Record(s, d, snap, now).log, |s.log|, d, snap)
    ensures AllMeasured(Record(s, d, snap, now).log, |s.log|, d, snap)
    ensures OncePerProbe(Record(s, d, snap, now).log, |s.log|)
  {
    hide NoteCommunication, EmitAll, RecordDrafts, Install, ValidSnapshot;
    hide OnlyMeasured, AllMeasured, OncePerProbe, OnlyProbes, AllProbes, NoProbeTwice;
    var u := NoteCommunication(s, d, snap);
    var t := Install(u, d, snap);
    var drafts := RecordDrafts(CurrentOf(s, d), snap);
    assert UniqueNumbers(snap.probes) by { OfValid(snap); }
    NotingPublishesNone(s, d, snap);
    InstallLogsNothing(u, d, snap);
    EmitAllTells(t, d, drafts);
    RecordDraftsTell(CurrentOf(s, d), snap);
    var r := EmitAll(t, d, drafts);
    assert Drafted(|s.log|, |t.log|, r.log, d, drafts) by {
      forall j | |s.log| <= j < |t.log| ensures !TemperatureAt(r.log, j) {
        assert r.log[j] == t.log[j] && !TemperatureAt(t.log, j);
      }
    }
    LoggedOnly(|s.log|, |t.log|, r.log, d, snap, drafts);
    LoggedAll(|s.log|, |t.log|, r.log, d, snap, drafts);
    LoggedOnce(|s.log|, |t.log|, r.log, d, drafts);
  }

  /** A snapshot that is not newer publishes no temperature at all. */
  lemma OlderPublishesNone(s: Tel, d: DeviceId, snap: Snapshot, now: Instant)
    requires d in s.current && snap.observedAt <= s.current[d].snapshot.observedAt
    ensures var r := Record(s, d, snap, now);
            s.log <= r.log && forall j :: |s.log| <= j < |r.log| ==> !TemperatureAt(r.log, j)
  {
    SweepPublishesNone(s, s.order, now, None, "stale");
  }

  lemma {:induction false} SweepPublishesNone(s: Tel, todo: seq<DeviceId>, now: Instant, force: Option<DeviceId>, reason: string)
    ensures var r := Sweep(s, todo, now, force, reason);
            s.log <= r.log && forall j :: |s.log| <= j < |r.log| ==> !TemperatureAt(r.log, j)
    decreases |todo|
  {
    hide MarkOne;
    if |todo| > 0 {
      var t := MarkIfOverdue(s, todo[0], now, force, reason);
      if Overdue(s, todo[0], now, force) {
        MarkPublishesNone(s, todo[0], now, reason);
      }
      SweepPublishesNone(t, todo[1..], now, force, reason);
      var r := Sweep(s, todo, now, force, reason);
      forall j | |s.log| <= j < |r.log| ensures !TemperatureAt(r.log, j) {
        assert j < |t.log| ==> r.log[j] == t.log[j] && !TemperatureAt(t.log, j);
      }
    }
  }

  lemma MarkPublishesNone(s: Tel, d: DeviceId, now: Instant, reason: string)
    requires d in s.current
    ensures var r := MarkOne(s, d, now, reason);
            s.log <= r.log && forall j :: |s.log| <= j < |r.log| ==> !TemperatureAt(r.log, j)
  {
    hide EmitAll, StaleDrafts;
    var snap := s.current[d].snapshot;
    var t := s.(current := s.current[d := s.current[d].(stale := true)]);
    EmitAllTells(t, d, StaleDrafts(snap, now, reason));
    StaleDraftsTell(snap, now, reason);
    var r := MarkOne(s, d, now, reason);
    forall j | |s.log| <= j < |r.log| ensures !TemperatureAt(r.log, j) {
      assert DraftTold(StaleDrafts(snap, now, reason)[j - |s.log|], d, r.log[|s.log| + (j - |s.log|)]);
    }
  }

  lemma StaleDraftsTell(snap: Snapshot, now: Instant, reason: string)
    ensures forall j :: 0 <= j < |StaleDrafts(snap, now, reason)| ==> StaleDrafts(snap, now, reason)[j].kind != ProbeTemperature
  {
    StaleProbesTell(snap, |snap.probes|, now, reason);
  }

  lemma {:induction false} StaleProbesTell(snap: Snapshot, n: nat, now: Instant, reason: string)
    requires n <= |snap.probes|
    ensures forall j :: 0 <= j < |StaleProbeDrafts(snap, n, now, reason)| ==>
                          StaleProbeDrafts(snap, n, now, reason)[j].kind != ProbeTemperature
    decreases n
  {
    if n > 0 {
      StaleProbesTell(snap, n - 1, now, reason);
    }
  }

  lemma OfValid(snap: Snapshot)
    requires ValidSnapshot(snap)
    ensures UniqueNumbers(snap.probes)
  {
  }

  lemma InstallLogsNothing(s: Tel, d: DeviceId, snap: Snapshot)
    ensures Install(s, d, snap).log == s.log
  {
  }

  lemma NotingPublishesNone(s: Tel, d: DeviceId, snap: Snapshot)
    ensures var u := NoteCommunication(s, d, snap);
            s.log <= u.log && forall j :: |s.log| <= j < |u.log| ==> !TemperatureAt(u.log, j)
  {
    hide CancelOf, PublishHeartbeat;
    if snap.communicatedAt.Some? {
      var r := EnsureHeartbeat(s, d, snap.source);
      Runs.HeartbeatIsOneEntry(Succeed(r, d, snap.communicatedAt.value, snap.source), d, snap.communicatedAt.value);
    }
  }

  /** Entry `x` publishes what the draft says; only its number is still to be given. */
  predicate DraftTold(draft: Draft, d: DeviceId, x: Entry) {
    && x.Published? && x.event.kind == draft.kind && x.event.device == Some(d) && x.event.probe == draft.probe
    && x.event.observedAt == draft.observedAt && x.event.source == draft.source && x.event.data == draft.data
  }

  lemma {:induction false} EmitAllTells(s: Tel, d: DeviceId, drafts: seq<Draft>)
    ensures var r := EmitAll(s, d, drafts);
            && s.log <= r.log && |r.log| == |s.log| + |drafts|
            && forall i :: 0 <= i < |drafts| ==> DraftTold(drafts[i], d, r.log[|s.log| + i])
    decreases |drafts|
  {
    if |drafts| > 0 {
      EmitAllTells(s, d, drafts[..|drafts| - 1]);
    }
  }

  /** The draft of a temperature, as the snapshot has it. */
  predicate TemperatureOf(draft: Draft, snap: Snapshot, p: ProbeReading) {
    && draft.kind == ProbeTemperature && draft.probe == Some(p.number)
    && draft.observedAt == snap.observedAt && draft.source == snap.source
    && p.temperature.Some? && draft.data == TemperatureData(p.temperature.value)
  }

  /** Temperatures are drafted for measured probes among the first `n` only. */
  ghost predicate OnlyProbes(drafts: seq<Draft>, snap: Snapshot, n: nat)
    requires n <= |snap.probes|
  {
    forall j :: 0 <= j < |drafts| && drafts[j].kind == ProbeTemperature ==>
      exists i :: 0 <= i < n && Measured(snap.probes[i]) && TemperatureOf(drafts[j], snap, snap.probes[i])
  }

  /** A temperature is drafted for every measured probe among the first `n`. */
  ghost predicate AllProbes(drafts: seq<Draft>, snap: Snapshot, n: nat)
    requires n <= |snap.probes|
  {
    forall i :: 0 <= i < n && Measured(snap.probes[i]) ==>
      exists j :: 0 <= j < |drafts| && TemperatureOf(drafts[j], snap, snap.probes[i])
  }

  ghost predicate NoProbeTwice(drafts: seq<Draft>) {
    forall j, k :: 0 <= j < k < |drafts| && drafts[j].kind == ProbeTemperature && drafts[k].kind == ProbeTemperature ==>
      drafts[j].probe != drafts[k].probe
  }

  lemma NothingDrafted(snap: Snapshot)
    ensures OnlyProbes([], snap, 0) && AllProbes([], snap, 0) && NoProbeTwice([])
  {
  }

  lemma {:induction false} ProbeDraftsTell(snap: Snapshot, n: nat)
    requires n <= |snap.probes| && UniqueNumbers(snap.probes)
    ensures OnlyProbes(ProbeDrafts(snap, n), snap, n)
    ensures AllProbes(ProbeDrafts(snap, n), snap, n)
    ensures NoProbeTwice(ProbeDrafts(snap, n))
    decreases n
  {
    hide OnlyProbes, AllProbes, NoProbeTwice, OneProbe, TellsProbe, UniqueNumbers;
    if n == 0 {
      NothingDrafted(snap);
    } else {
      ProbeDraftsTell(snap, n - 1);
      var front, more := ProbeDrafts(snap, n - 1), OneProbe(snap, n - 1);
      OneProbeTells(snap, n - 1);
      OneMoreOnly(front, more, snap, n - 1);
      OneMoreAll(front, more, snap, n - 1);
      OneMoreOnce(front, more, snap, n - 1);
      assert ProbeDrafts(snap, n) == front + more;
    }
  }

  /** What is drafted for one probe: its availability, and its temperature if it is measured. */
  ghost predicate TellsProbe(more: seq<Draft>, snap: Snapshot, p: ProbeReading) {
    && 1 <= |more| <= 2 && more[0].kind != ProbeTemperature
    && (|more| == 2 <==> Measured(p))
    && (|more| == 2 ==> TemperatureOf(more[1], snap, p))
  }

  lemma OneProbeTells(snap: Snapshot, i: nat)
    requires i < |snap.probes|
    ensures TellsProbe(OneProbe(snap, i), snap, snap.probes[i])
  {
  }

  lemma OneMoreOnly(front: seq<Draft>, more: seq<Draft>, snap: Snapshot, n: nat)
    requires n < |snap.probes| && OnlyProbes(front, snap, n) && TellsProbe(more, snap, snap.probes[n])
    ensures OnlyProbes(front + more, snap, n + 1)
  {
    var all := front + more;
    forall j | 0 <= j < |all| && all[j].kind == ProbeTemperature
      ensures exists i :: 0 <= i < n + 1 && Measured(snap.probes[i]) && TemperatureOf(all[j], snap, snap.probes[i])
    {
      if j >= |front| {
        assert all[j] == more[j - |front|];
        assert TemperatureOf(all[j], snap, snap.probes[n]);
      }
    }
  }

  lemma OneMoreAll(front: seq<Draft>, more: seq<Draft>, snap: Snapshot, n: nat)
    requires n < |snap.probes| && AllProbes(front, snap, n) && TellsProbe(more, snap, snap.probes[n])
    ensures AllProbes(front + more, snap, n + 1)
  {
    var all := front + more;
    forall i | 0 <= i < n + 1 && Measured(snap.probes[i])
      ensures exists j :: 0 <= j < |all| && TemperatureOf(all[j], snap, snap.probes[i])
    {
      if i < n {
        var j :| 0 <= j < |front| && TemperatureOf(front[j], snap, snap.probes[i]);
        assert TemperatureOf(all[j], snap, snap.probes[i]);
      } else {
        assert all[|front| + 1] == more[1];
      }
    }
  }

  lemma OneMoreOnce(front: seq<Draft>, more: seq<Draft>, snap: Snapshot, n: nat)
    requires n < |snap.probes| && UniqueNumbers(snap.probes)
    requires OnlyProbes(front, snap, n) && NoProbeTwice(front) && TellsProbe(more, snap, snap.probes[n])
    ensures NoProbeTwice(front + more)
  {
    var all := front + more;
    forall j, k | 0 <= j < k < |all| && all[j].kind == ProbeTemperature && all[k].kind == ProbeTemperature
      ensures all[j].probe != all[k].probe
    {
      if k >= |front| {
        assert all[k] == more[k - |front|] && all[|front|] == more[0];
        assert j < |front|;
        var i :| 0 <= i < n && Measured(snap.probes[i]) && TemperatureOf(front[j], snap, snap.probes[i]);
      }
    }
  }

  lemma RecordDraftsTell(previous: Option<Current>, snap: Snapshot)
    requires UniqueNumbers(snap.probes)
    ensures var drafts := RecordDrafts(previous, snap);
            OnlyProbes(drafts, snap, |snap.probes|) && AllProbes(drafts, snap, |snap.probes|) && NoProbeTwice(drafts)
  {
    hide ProbeDrafts, UniqueNumbers, OnlyProbes, AllProbes, NoProbeTwice;
    var drafts, probes := RecordDrafts(previous, snap), ProbeDrafts(snap, |snap.probes|);
    ProbeDraftsTell(snap, |snap.probes|);
    var n := |drafts| - |probes|;
    assert drafts[n..] == probes;
    HeadedOnly(drafts, n, snap);
    HeadedAll(drafts, n, snap);
    HeadedOnce(drafts, n);
  }

  /** Drafts of other kinds before them change nothing. */
  lemma HeadedOnly(drafts: seq<Draft>, n: nat, snap: Snapshot)
    requires n <= |drafts| && forall j :: 0 <= j < n ==> drafts[j].kind != ProbeTemperature
    requires OnlyProbes(drafts[n..], snap, |snap.probes|)
    ensures OnlyProbes(drafts, snap, |snap.probes|)
  {
    forall j | 0 <= j < |drafts| && drafts[j].kind == ProbeTemperature
      ensures exists i :: 0 <= i < |snap.probes| && Measured(snap.probes[i]) && TemperatureOf(drafts[j], snap, snap.probes[i])
    {
      assert drafts[j] == drafts[n..][j - n];
    }
  }

  lemma HeadedAll(drafts: seq<Draft>, n: nat, snap: Snapshot)
    requires n <= |drafts| && AllProbes(drafts[n..], snap, |snap.probes|)
    ensures AllProbes(drafts, snap, |snap.probes|)
  {
    forall i | 0 <= i < |snap.probes| && Measured(snap.probes[i])
      ensures exists j :: 0 <= j < |drafts| && TemperatureOf(drafts[j], snap, snap.probes[i])
    {
      var j :| 0 <= j < |drafts[n..]| && TemperatureOf(drafts[n..][j], snap, snap.probes[i]);
      assert TemperatureOf(drafts[n + j], snap, snap.probes[i]);
    }
  }

  lemma HeadedOnce(drafts: seq<Draft>, n: nat)
    requires n <= |drafts| && NoProbeTwice(drafts[n..])
    requires forall j :: 0 <= j < n ==> drafts[j].kind != ProbeTemperature
    ensures NoProbeTwice(drafts)
  {
    forall j, k | 0 <= j < k < |drafts| && drafts[j].kind == ProbeTemperature && drafts[k].kind == ProbeTemperature
      ensures drafts[j].probe != drafts[k].probe
    {
      assert drafts[j] == drafts[n..][j - n] && drafts[k] == drafts[n..][k - n];
    }
  }

  /** The drafts were published one after the other, behind entries that are no temperatures. */
  ghost predicate Drafted(start: nat, middle: nat, log: seq<Entry>, d: DeviceId, drafts: seq<Draft>) {
    && start <= middle && |log| == middle + |drafts|
    && (forall j :: start <= j < middle ==> !TemperatureAt(log, j))
    && (forall i :: 0 <= i < |drafts| ==> DraftTold(drafts[i], d, log[middle + i]))
  }

  lemma EntryIsDraft(start: nat, middle: nat, log: seq<Entry>, d: DeviceId, drafts: seq<Draft>, j: nat)
    requires Drafted(start, middle, log, d, drafts) && start <= j < |log| && TemperatureAt(log, j)
    ensures middle <= j && drafts[j - middle].kind == ProbeTemperature && DraftTold(drafts[j - middle], d, log[j])
  {
    assert middle <= j;
    assert DraftTold(drafts[j - middle], d, log[middle + (j - middle)]);
  }

  lemma LoggedOnly(start: nat, middle: nat, log: seq<Entry>, d: DeviceId, snap: Snapshot, drafts: seq<Draft>)
    requires Drafted(start, middle, log, d, drafts) && OnlyProbes(drafts, snap, |snap.probes|)
    ensures OnlyMeasured(log, start, d, snap)
  {
    forall j | start <= j < |log| && TemperatureAt(log, j)
      ensures exists i :: 0 <= i < |snap.probes| && Measured(snap.probes[i])
                          && TellsTemperature(log[j].event, d, snap, snap.probes[i])
    {
      EntryIsDraft(start, middle, log, d, drafts, j);
      var i :| 0 <= i < |snap.probes| && Measured(snap.probes[i]) && TemperatureOf(drafts[j - middle], snap, snap.probes[i]);
      assert TellsTemperature(log[j].event, d, snap, snap.probes[i]);
    }
  }

  lemma LoggedAll(start: nat, middle: nat, log: seq<Entry>, d: DeviceId, snap: Snapshot, drafts: seq<Draft>)
    requires Drafted(start, middle, log, d, drafts) && AllProbes(drafts, snap, |snap.probes|)
    ensures AllMeasured(log, start, d, snap)
  {
    forall i | 0 <= i < |snap.probes| && Measured(snap.probes[i])
      ensures exists j :: start <= j < |log| && TemperatureAt(log, j)
                          && TellsTemperature(log[j].event, d, snap, snap.probes[i])
    {
      var j :| 0 <= j < |drafts| && TemperatureOf(drafts[j], snap, snap.probes[i]);
      assert DraftTold(drafts[j], d, log[middle + j]);
      assert TemperatureAt(log, middle + j) && TellsTemperature(log[middle + j].event, d, snap, snap.probes[i]);
    }
  }

  lemma LoggedOnce(start: nat, middle: nat, log: seq<Entry>, d: DeviceId, drafts: seq<Draft>)
    requires Drafted(start, middle, log, d, drafts) && NoProbeTwice(drafts)
    ensures OncePerProbe(log, start)
  {
    forall j, k | start <= j < k < |log| && TemperatureAt(log, j) && TemperatureAt(log, k)
      ensures log[j].event.probe != log[k].event.probe
    {
      EntryIsDraft(start, middle, log, d, drafts, j);
      EntryIsDraft(start, middle, log, d, drafts, k);
    }
  }
}
