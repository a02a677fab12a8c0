/** Snapshots and readings shared by the adapter and the telemetry state. */
module Models {
  import opened Basics
  import opened Events

  datatype ProbeReading = ProbeReading(
    number: int,
    available: bool,
    present: bool,
    temperature: Option<real>,
    observedAt: Instant,
    sequence: int,
    source: Source,
    errorCode: Option<string>)

  datatype Snapshot = Snapshot(
    model: string,
    probes: seq<ProbeReading>,
    batteryPercent: Option<int>,
    batteryAvailable: bool,
    observedAt: Instant,
    sequence: int,
    source: Source,
    batteryObservedAt: Option<Instant>,
    communicatedAt: Option<Instant>)

  /** What a probe reading checks when it is built. */
  predicate ValidProbe(p: ProbeReading) {
    && 1 <= p.number <= 4
    && p.sequence >= 1
    && (p.temperature.Some? ==> p.available && p.present)
  }

  predicate UniqueNumbers(probes: seq<ProbeReading>) {
    forall i, j :: 0 <= i < j < |probes| ==> probes[i].number != probes[j].number
  }

  /** What a snapshot checks when it is built; its probes were checked before it. */
  predicate ValidSnapshot(s: Snapshot) {
    && 1 <= |s.probes| <= 4
    && UniqueNumbers(s.probes)
    && (forall i :: 0 <= i < |s.probes| ==> ValidProbe(s.probes[i]))
    && s.sequence >= 1
    && (s.batteryPercent.Some? ==> 0 <= s.batteryPercent.value <= 100 && s.batteryAvailable)
  }

  predicate AnyAvailable(probes: seq<ProbeReading>) {
    exists i :: 0 <= i < |probes| && probes[i].available
  }

  /** When the battery was observed, falling back to the time of the snapshot. */
  function BatteryTime(s: Snapshot): Instant {
    match s.batteryObservedAt
    case Some(t) => t
    case None => s.observedAt
  }
}
