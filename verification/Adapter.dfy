/** Payload decoding and the device adapter: its discovery cache, its battery cadence and its snapshots. */
module Adapters {
  import opened Basics
  import opened Events
  import opened Models
  import opened Telemetry
  import opened Agreement

  newtype Byte = x: int | 0 <= x < 256

  // ---------- Payloads ----------

  const UNPLUGGED_PROBE := 63536

  datatype ReadError = ProtocolError | TimedOut | LibraryError(name: string)

  function ErrorName(e: ReadError): string {
    match e
    case ProtocolError => "ProtocolError"
    case TimedOut => "AdapterError"
    case LibraryError(name) => name
  }

  /** A whole temperature, or none for an unplugged probe; bytes after the first two are ignored. */
  function DecodeProbe(payload: seq<Byte>): (r: Result<Option<int>, ReadError>)
    ensures r.Err? <==> |payload| < 2
    ensures r.Err? ==> r.error == ProtocolError
    ensures r.Ok? && r.value.Some? ==> 0 <= r.value.value < 0x1_0000 && r.value.value != UNPLUGGED_PROBE
  {
    if |payload| < 2 then Err(ProtocolError)
    else
      var raw := payload[0] as int + 256 * (payload[1] as int);
      if raw == UNPLUGGED_PROBE then Ok(None) else Ok(Some(raw))
  }

  function LittleEndian(n: int): seq<Byte>
    requires 0 <= n < 0x1_0000
  {
    [(n % 256) as Byte, (n / 256) as Byte]
  }

  /** Every 16-bit reading survives the wire, whatever follows it, and only the sentinel means unplugged. */
  lemma ProbeRoundTrip(n: int, more: seq<Byte>)
    requires 0 <= n < 0x1_0000
    ensures DecodeProbe(LittleEndian(n) + more) == Ok(if n == UNPLUGGED_PROBE then None else Some(n))
  {
    var payload := LittleEndian(n) + more;
    assert payload[0] as int == n % 256 && payload[1] as int == n / 256;
  }

  function DecodeBattery(payload: seq<Byte>): (r: Result<int, ReadError>)
    ensures r.Ok? <==> |payload| == 1 && payload[0] as int <= 100
    ensures r.Ok? ==> r.value == payload[0] as int
    ensures r.Err? ==> r.error == ProtocolError
  {
    if |payload| != 1 then Err(ProtocolError)
    else if payload[0] as int > 100 then Err(ProtocolError)
    else Ok(payload[0] as int)
  }

  // ---------- Answers of the Bluetooth library ----------

  /** One characteristic read: the bytes or the error, and the wall clock after it. */
  datatype Answer = Answer(outcome: Result<seq<Byte>, ReadError>, after: Instant)

  /** A possible battery read, with the readings of both clocks around it. */
  datatype BatteryTry = BatteryTry(before: real, answer: Answer, observed: Instant, done: real)

  function ProbeOutcome(a: Answer): Result<Option<int>, ReadError> {
    if a.outcome.Err? then Err(a.outcome.error) else DecodeProbe(a.outcome.value)
  }

  function BatteryOutcome(a: Answer): Result<int, ReadError> {
    if a.outcome.Err? then Err(a.outcome.error) else DecodeBattery(a.outcome.value)
  }

  /** The reading that stands for one probe of a cycle. */
  function ReadingOf(number: int, a: Answer, observedAt: Instant, sequence: int): ProbeReading {
    var outcome := ProbeOutcome(a);
    if outcome.Err? then
      ProbeReading(number, false, false, None, observedAt, sequence, Physical, Some(ErrorName(outcome.error)))
    else
      var t := if outcome.value.Some? then Some(outcome.value.value as real) else None;
      ProbeReading(number, true, outcome.value.Some?, t, observedAt, sequence, Physical, None)
  }

  /** What a scan reports about one device. */
  datatype Advertisement = Advertisement(native: nat, name: string, temperatureService: bool, address: Option<string>)

  datatype Discovered = Discovered(id: nat, name: string, model: string, identity: Option<string>, native: nat)

  /** The only model there is an adapter for. */
  const MODEL := "igrill-v202"

  predicate StartsWith(s: string, prefix: string) {
    prefix <= s
  }

  datatype AdapterError = NotConnected | Unsupported | ConnectFailed

  /** A battery read that was attempted on the current connection. */
  datatype Attempt = Attempt(before: real, done: real, good: bool)

  class BleakAdapter {
    const namePrefix: string
    const batteryInterval: real
    var natives: map<nat, nat>
    var client: Option<bool>
    var sequence: nat
    var batteryDue: real
    var batteryPercent: Option<int>
    var batteryObservedAt: Option<Instant>
    ghost var attempts: seq<Attempt>
    ghost var observations: map<Instant, Option<int>>
    ghost var snapshots: seq<Snapshot>

    ghost predicate Valid()
      reads this
    {
      && batteryInterval > 0.0
      && (batteryPercent.Some? ==> 0 <= batteryPercent.value <= 100 && batteryObservedAt.Some?)
      && (batteryPercent.Some? ==> |attempts| > 0 && attempts[|attempts| - 1].good
                                   && batteryDue == attempts[|attempts| - 1].done + batteryInterval)
      && (batteryPercent.None? ==> |attempts| > 0 ==> !attempts[|attempts| - 1].good)
      && WellSpaced(attempts, batteryInterval)
      && (batteryObservedAt.Some? ==>
            batteryObservedAt.value in observations && observations[batteryObservedAt.value] == batteryPercent)
      && (forall i :: 0 <= i < |snapshots| ==> Witnessed(snapshots[i], observations))
    }

    predicate IsConnected()
      reads this
    {
      client == Some(true)
    }

    constructor (namePrefix: string, batteryInterval: real)
      requires batteryInterval > 0.0
      ensures Valid() && !IsConnected() && natives == map[] && snapshots == [] && observations == map[]
    {
      this.namePrefix, this.batteryInterval := namePrefix, batteryInterval;
      natives, client, sequence, batteryDue := map[], None, 0, 0.0;
      batteryPercent, batteryObservedAt := None, None;
      attempts, observations, snapshots := [], map[], [];
    }

    /** A completed scan replaces the cache: it knows the devices it returns and no others. */
    method Discover(results: seq<Advertisement>, ids: seq<nat>) returns (found: seq<Discovered>)
      requires Valid() && |ids| == |results| && Distinct(ids)
      modifies `natives
      ensures Valid() && found == FoundIn(results, ids, namePrefix)
      ensures Knows(natives, found) && forall i :: 0 <= i < |found| ==> found[i].model == MODEL
    {
      natives := map[];
      found := [];
      for i := 0 to |results|
        invariant Valid() && found == FoundIn(results[..i], ids[..i], namePrefix)
        invariant Knows(natives, found) && forall k :: 0 <= k < |found| ==> found[k].model == MODEL
      {
        hide Knows;
        var r := results[i];
        OneMoreResult(results, ids, namePrefix, i);
        if StartsWith(r.name, namePrefix) || r.temperatureService {
          IdsOfFound(results[..i], ids[..i], namePrefix);
          KnowsOneMore(natives, found, Listed(r, ids[i]));
          natives := natives[ids[i] := r.native];
          found := found + [Listed(r, ids[i])];
        }
      }
      assert results[..|results|] == results && ids[..|ids|] == ids;
    }

    /** Only a device of the last scan and of the one model can be connected; a new connection forgets the battery. */
    method Connect(id: nat, model: string, succeeds: bool, clock: real) returns (r: Result<bool, AdapterError>)
      requires Valid()
      modifies `client, `batteryDue, `batteryPercent, `batteryObservedAt, `attempts
      ensures Valid()
      ensures old(IsConnected()) ==> r == Ok(false) && attempts == old(attempts) && batteryPercent == old(batteryPercent)
      ensures r == Err(Unsupported) <==> !old(IsConnected()) && (id !in natives || model != MODEL)
      ensures r == Ok(true) <==> !old(IsConnected()) && id in natives && model == MODEL && succeeds
      ensures r == Err(ConnectFailed) <==> !old(IsConnected()) && id in natives && model == MODEL && !succeeds
      ensures r == Ok(true) ==> IsConnected() && attempts == [] && batteryPercent == None
      ensures r != Ok(true) ==> client == old(client) && attempts == old(attempts)
    {
      if IsConnected() {
        return Ok(false);
      }
      if id !in natives || model != MODEL {
        return Err(Unsupported);
      }
      if !succeeds {
        return Err(ConnectFailed);
      }
      client := Some(true);
      batteryDue, batteryPercent, batteryObservedAt := clock, None, None;
      attempts := [];
      r := Ok(true);
    }

    method Disconnect()
      requires Valid()
      modifies `client
      ensures Valid() && !IsConnected()
    {
      client := None;
    }

    /** The link can go down at any time. */
    method LinkLost(noticed: bool)
      requires Valid()
      modifies `client
      ensures Valid() && !IsConnected()
      ensures client == if noticed || old(client) == None then None else Some(false)
    {
      client := if noticed || client.None? then None else Some(false);
    }

    /** Reads the battery when it is unknown or due, and remembers the attempt either way. */
    method ReadBattery(battery: BatteryTry) returns (success: Option<Instant>)
      requires Valid() && IsConnected()
      requires battery.observed !in observations
      modifies `batteryDue, `batteryPercent, `batteryObservedAt, `attempts, `observations
      ensures Valid()
      ensures batteryObservedAt.Some? && batteryObservedAt.value in observations
      ensures success == if Due(old(batteryPercent), old(batteryDue), battery.before) && batteryPercent.Some?
                         then Some(battery.answer.after) else None
      ensures Due(old(batteryPercent), old(batteryDue), battery.before) ==>
                attempts == old(attempts) + [Attempt(battery.before, battery.done, batteryPercent.Some?)]
                && BatteryShown(battery.answer, batteryPercent)
                && batteryObservedAt == Some(battery.observed)
      ensures !Due(old(batteryPercent), old(batteryDue), battery.before) ==>
                attempts == old(attempts) && batteryPercent == old(batteryPercent)
                && batteryObservedAt == old(batteryObservedAt)
    {
      success := None;
      if batteryPercent.None? || battery.before >= batteryDue {
        var outcome := BatteryOutcome(battery.answer);
        if outcome.Ok? {
          batteryPercent := Some(outcome.value);
          success := Some(battery.answer.after);
        } else {
          batteryPercent := None;
        }
        batteryObservedAt := Some(battery.observed);
        batteryDue := battery.done + batteryInterval;
        attempts := attempts + [Attempt(battery.before, battery.done, outcome.Ok?)];
        observations := observations[battery.observed := batteryPercent];
      }
    }

    /**
     One polling cycle. Whatever is read, the snapshot passes every check of its model and
     carries the time of the last read that decoded in this very cycle, if there was one.
     */
    method ReadSnapshot(observedAt: Instant, battery: BatteryTry, probes: seq<Answer>)
      returns (r: Result<Snapshot, AdapterError>)
      requires Valid() && |probes| == 4
      requires battery.observed !in observations
      modifies `sequence, `batteryDue, `batteryPercent, `batteryObservedAt, `attempts, `observations, `snapshots
      ensures Valid()
      ensures !IsConnected() <==> r == Err(NotConnected)
      ensures r.Err? ==> r == Err(NotConnected) && sequence == old(sequence) && attempts == old(attempts)
                         && snapshots == old(snapshots)
      ensures r.Ok? ==> ValidSnapshot(r.value) && sequence == old(sequence) + 1
      ensures r.Ok? ==> r.value.sequence == sequence && r.value.observedAt == observedAt
      ensures r.Ok? ==> r.value.model == "igrill-v202" && r.value.source == Physical && |r.value.probes| == 4
      ensures r.Ok? ==> forall i :: 0 <= i < 4 ==>
                          && r.value.probes[i].number == i + 1 && r.value.probes[i].source == Physical
                          && r.value.probes[i].observedAt == observedAt && r.value.probes[i].sequence == sequence
      ensures r.Ok? ==> forall i :: 0 <= i < 4 ==> FailureShown(probes[i], r.value.probes[i])
      ensures r.Ok? ==> forall i, n, more :: 0 <= i < 4 && 0 <= n < 0x1_0000
                                             && probes[i].outcome == Ok(LittleEndian(n) + more) ==>
                                               ValueShown(n, r.value.probes[i])
      ensures r.Ok? && Due(old(batteryPercent), old(batteryDue), battery.before) ==>
                attempts == old(attempts) + [Attempt(battery.before, battery.done, r.value.batteryPercent.Some?)]
                && BatteryShown(battery.answer, r.value.batteryPercent)
                && r.value.batteryObservedAt == Some(battery.observed)
      ensures r.Ok? && !Due(old(batteryPercent), old(batteryDue), battery.before) ==>
                attempts == old(attempts) && r.value.batteryPercent == old(batteryPercent)
                && r.value.batteryObservedAt == old(batteryObservedAt)
      ensures r.Ok? ==> r.value.batteryAvailable == r.value.batteryPercent.Some?
      ensures r.Ok? ==>
                var read := Due(old(batteryPercent), old(batteryDue), battery.before) && r.value.batteryPercent.Some?;
                r.value.communicatedAt == LastSuccess(if read then Some(battery.answer.after) else None, probes)
      ensures r.Ok? ==> snapshots == old(snapshots) + [r.value]
    {
      if client != Some(true) {
        return Err(NotConnected);
      }
      sequence := sequence + 1;
      var success := ReadBattery(battery);
      var readings, communicated := ReadProbes(probes, observedAt, sequence, success);
      var snapshot := Snapshot(MODEL, readings, batteryPercent, batteryPercent.Some?, observedAt,
                               sequence, Physical, batteryObservedAt, communicated);
      ReadingsAreValid(probes, observedAt, sequence);
      ReadingsShow(probes, observedAt, sequence);
      assert Witnessed(snapshot, observations);
      snapshots := snapshots + [snapshot];
      r := Ok(snapshot);
    }
  }

  // ---------- Probes ----------

  function Readings(probes: seq<Answer>, observedAt: Instant, sequence: int): (r: seq<ProbeReading>)
    ensures |r| == |probes|
  {
    seq(|probes|, i requires 0 <= i < |probes| => ReadingOf(i + 1, probes[i], observedAt, sequence))
  }

  lemma ReadingsAreValid(probes: seq<Answer>, observedAt: Instant, sequence: int)
    requires |probes| == 4 && sequence >= 1
    ensures var r := Readings(probes, observedAt, sequence);
            UniqueNumbers(r) && forall i :: 0 <= i < 4 ==> ValidProbe(r[i])
  {
  }

  /** A reading without a value, and why. */
  predicate Absent(p: ProbeReading, why: string) {
    !p.available && !p.present && p.temperature == None && p.errorCode == Some(why)
  }

  /** A read that raised, or gave too few bytes, shows as an unavailable probe with the name of the error. */
  predicate FailureShown(a: Answer, p: ProbeReading) {
    match a.outcome
    case Ok(payload) => |payload| < 2 ==> Absent(p, "ProtocolError")
    case Err(TimedOut) => Absent(p, "AdapterError")
    case Err(LibraryError(name)) => Absent(p, name)
    case Err(ProtocolError) => Absent(p, "ProtocolError")
  }

  /** What was sent shows as it was sent; a probe with nothing plugged in is available without a temperature. */
  predicate ValueShown(n: int, p: ProbeReading) {
    && p.available && p.errorCode == None
    && (if n == 63536 then !p.present && p.temperature == None else p.present && p.temperature == Some(n as real))
  }

  lemma ReadingsShow(probes: seq<Answer>, observedAt: Instant, sequence: int)
    ensures forall i :: 0 <= i < |probes| ==> FailureShown(probes[i], Readings(probes, observedAt, sequence)[i])
    ensures forall i, n, more :: 0 <= i < |probes| && 0 <= n < 0x1_0000
                                 && probes[i].outcome == Ok(LittleEndian(n) + more) ==>
                                   ValueShown(n, Readings(probes, observedAt, sequence)[i])
  {
    forall i, n, more | 0 <= i < |probes| && 0 <= n < 0x1_0000 && probes[i].outcome == Ok(LittleEndian(n) + more)
      ensures ValueShown(n, Readings(probes, observedAt, sequence)[i])
    {
      ProbeRoundTrip(n, more);
    }
  }

  method ReadProbes(probes: seq<Answer>, observedAt: Instant, sequence: int, battery: Option<Instant>)
    returns (readings: seq<ProbeReading>, communicated: Option<Instant>)
    ensures readings == Readings(probes, observedAt, sequence)
    ensures communicated == LastSuccess(battery, probes)
  {
    communicated := battery;
    readings := [];
    for i := 0 to |probes|
      invariant |readings| == i
      invariant forall k :: 0 <= k < i ==> readings[k] == ReadingOf(k + 1, probes[k], observedAt, sequence)
      invariant communicated == LastSuccess(battery, probes[..i])
    {
      assert probes[..i + 1][..i] == probes[..i];
      var outcome := ProbeOutcome(probes[i]);
      if outcome.Ok? {
        communicated := Some(probes[i].after);
      }
      readings := readings + [ReadingOf(i + 1, probes[i], observedAt, sequence)];
    }
    assert probes[..|probes|] == probes;
  }

  // ---------- Scans ----------

  function Listed(r: Advertisement, id: nat): Discovered {
    Discovered(id, if r.name == "" then "Weber iGrill V202" else r.name, MODEL, r.address, r.native)
  }

  function FoundIn(results: seq<Advertisement>, ids: seq<nat>, prefix: string): seq<Discovered>
    requires |ids| == |results|
  {
    if |results| == 0 then []
    else
      var n := |results| - 1;
      FoundIn(results[..n], ids[..n], prefix)
      + if StartsWith(results[n].name, prefix) || results[n].temperatureService then [Listed(results[n], ids[n])] else []
  }

  /** The cache holds exactly the devices of a scan, no two of them under one identifier. */
  ghost predicate Knows(natives: map<nat, nat>, found: seq<Discovered>) {
    && (forall i :: 0 <= i < |found| ==> found[i].id in natives && natives[found[i].id] == found[i].native)
    && (forall id :: id in natives ==> exists i :: 0 <= i < |found| && found[i].id == id)
    && (forall i, j :: 0 <= i < j < |found| ==> found[i].id != found[j].id)
  }

  lemma KnowsOneMore(natives: map<nat, nat>, found: seq<Discovered>, d: Discovered)
    requires Knows(natives, found) && forall i :: 0 <= i < |found| ==> found[i].id != d.id
    ensures Knows(natives[d.id := d.native], found + [d])
  {
    var more := found + [d];
    var grown := natives[d.id := d.native];
    forall id | id in grown ensures exists i :: 0 <= i < |more| && more[i].id == id {
      if id == d.id {
        assert more[|found|].id == id;
      } else {
        var i :| 0 <= i < |found| && found[i].id == id;
        assert more[i].id == id;
      }
    }
  }

  lemma OneMoreResult(results: seq<Advertisement>, ids: seq<nat>, prefix: string, i: nat)
    requires |ids| == |results| && i < |results|
    ensures FoundIn(results[..i + 1], ids[..i + 1], prefix) ==
            FoundIn(results[..i], ids[..i], prefix)
            + if StartsWith(results[i].name, prefix) || results[i].temperatureService then [Listed(results[i], ids[i])] else []
  {
    assert results[..i + 1][..i] == results[..i] && ids[..i + 1][..i] == ids[..i];
  }

  lemma {:induction false} IdsOfFound(results: seq<Advertisement>, ids: seq<nat>, prefix: string)
    requires |ids| == |results|
    ensures forall k :: 0 <= k < |FoundIn(results, ids, prefix)| ==> FoundIn(results, ids, prefix)[k].id in ids
    decreases |results|
  {
    if |results| > 0 {
      IdsOfFound(results[..|results| - 1], ids[..|results| - 1], prefix);
    }
  }

  /** A result that a scan reports: its name begins as it should, or it offers the temperature service. */
  predicate Reported(r: Advertisement, prefix: string) {
    (|prefix| <= |r.name| && r.name[..|prefix|] == prefix) || r.temperatureService
  }

  /** What result `r` is reported as. */
  predicate ReportedAs(r: Advertisement, id: nat, d: Discovered) {
    && d.id == id && d.model == "igrill-v202" && d.identity == r.address && d.native == r.native
    && (r.name != "" ==> d.name == r.name) && (r.name == "" ==> d.name == "Weber iGrill V202")
  }

  /** Entry `k` was made of result `at[k]`, in the order of the results, and every result to report is among them. */
  ghost predicate Reports(results: seq<Advertisement>, ids: seq<nat>, prefix: string, found: seq<Discovered>, at: seq<nat>)
    requires |ids| == |results|
  {
    && |at| == |found|
    && (forall k, l :: 0 <= k < l < |at| ==> at[k] < at[l])
    && (forall k :: 0 <= k < |at| ==>
          at[k] < |results| && Reported(results[at[k]], prefix) && ReportedAs(results[at[k]], ids[at[k]], found[k]))
    && (forall i :: 0 <= i < |results| && Reported(results[i], prefix) ==> i in at)
  }

  /** A scan reports exactly the results it should, in their order and as what they are. */
  lemma {:induction false} FoundExactly(results: seq<Advertisement>, ids: seq<nat>, prefix: string)
    requires |ids| == |results|
    ensures exists at :: Reports(results, ids, prefix, FoundIn(results, ids, prefix), at)
    decreases |results|
  {
    if |results| == 0 {
      assert Reports(results, ids, prefix, FoundIn(results, ids, prefix), []);
    } else {
      var n := |results| - 1;
      var front := FoundIn(results[..n], ids[..n], prefix);
      FoundExactly(results[..n], ids[..n], prefix);
      var at :| Reports(results[..n], ids[..n], prefix, front, at);
      if Reported(results[n], prefix) {
        OneMoreReport(results, ids, prefix, front, at);
        assert StartsWith(results[n].name, prefix) || results[n].temperatureService;
        assert FoundIn(results, ids, prefix) == front + [Listed(results[n], ids[n])];
        assert Reports(results, ids, prefix, FoundIn(results, ids, prefix), at + [n]);
      } else {
        NoMoreReports(results, ids, prefix, front, at);
        assert FoundIn(results, ids, prefix) == front;
      }
    }
  }

  lemma OneMoreReport(results: seq<Advertisement>, ids: seq<nat>, prefix: string, front: seq<Discovered>, at: seq<nat>)
    requires |ids| == |results| > 0 && Reports(results[..|results| - 1], ids[..|ids| - 1], prefix, front, at)
    requires Reported(results[|results| - 1], prefix)
    ensures var n := |results| - 1;
            Reports(results, ids, prefix, front + [Listed(results[n], ids[n])], at + [n])
  {
    hide Reported;
    var n := |results| - 1;
    assert ReportedAs(results[n], ids[n], Listed(results[n], ids[n]));
    hide ReportedAs;
    var more := at + [n];
    assert more[|at|] == n;
    forall i | 0 <= i < |results| && Reported(results[i], prefix) ensures i in more {
      if i < n {
        assert results[..n][i] == results[i];
        var k :| 0 <= k < |at| && at[k] == i;
        assert more[k] == i;
      }
    }
  }

  lemma NoMoreReports(results: seq<Advertisement>, ids: seq<nat>, prefix: string, front: seq<Discovered>, at: seq<nat>)
    requires |ids| == |results| > 0 && Reports(results[..|results| - 1], ids[..|ids| - 1], prefix, front, at)
    requires !Reported(results[|results| - 1], prefix)
    ensures Reports(results, ids, prefix, front, at)
  {
    hide Reported, ReportedAs;
    var n := |results| - 1;
    forall i | 0 <= i < |results| && Reported(results[i], prefix) ensures i in at {
      assert results[..n][i] == results[i];
    }
  }

  // ---------- Battery and communication ----------

  predicate Due(percent: Option<int>, due: real, now: real) {
    percent.None? || now >= due
  }

  /** The percentage is the one byte that was answered, and is unknown after anything else. */
  predicate BatteryShown(a: Answer, percent: Option<int>) {
    if a.outcome.Ok? && |a.outcome.value| == 1 && a.outcome.value[0] <= 100
    then percent == Some(a.outcome.value[0] as int)
    else percent == None
  }

  /** The time of the last probe read that decoded, or else of the battery read. */
  function LastSuccess(battery: Option<Instant>, probes: seq<Answer>): Option<Instant> {
    if |probes| == 0 then battery
    else if ProbeOutcome(probes[|probes| - 1]).Ok? then Some(probes[|probes| - 1].after)
    else LastSuccess(battery, probes[..|probes| - 1])
  }

  /** A read that gave a probe value, a sentinel included. */
  predicate Decodes(a: Answer) {
    a.outcome.Ok? && |a.outcome.value| >= 2
  }

  /**
   The time of communication is that of the last probe read of the cycle that decoded, and if
   none did that of the battery read; a cached battery never counts.
   */
  lemma {:induction false} CommunicatedExactly(battery: Option<Instant>, probes: seq<Answer>)
    ensures forall i :: 0 <= i < |probes| && Decodes(probes[i]) && (forall j :: i < j < |probes| ==> !Decodes(probes[j])) ==>
                          LastSuccess(battery, probes) == Some(probes[i].after)
    ensures (forall i :: 0 <= i < |probes| ==> !Decodes(probes[i])) ==> LastSuccess(battery, probes) == battery
    ensures LastSuccess(battery, probes).Some? <==>
            battery.Some? || exists i :: 0 <= i < |probes| && Decodes(probes[i])
    decreases |probes|
  {
    if |probes| > 0 {
      var front := probes[..|probes| - 1];
      CommunicatedExactly(battery, front);
      assert forall i :: 0 <= i < |front| ==> front[i] == probes[i];
    }
  }

  /** After a good battery read the next one on the same connection begins an interval later. */
  ghost predicate WellSpaced(attempts: seq<Attempt>, interval: real) {
    forall k :: 0 < k < |attempts| && attempts[k - 1].good ==>
      attempts[k].before >= attempts[k - 1].done + interval
  }

  /** The battery part of a snapshot is an observation that was really made. */
  ghost predicate Witnessed(s: Snapshot, observations: map<Instant, Option<int>>) {
    && s.batteryObservedAt.Some?
    && s.batteryObservedAt.value in observations
    && s.batteryPercent == observations[s.batteryObservedAt.value]
    && s.batteryAvailable == s.batteryPercent.Some?
  }

  /**
   Any two snapshots of one adapter are coherent: equal battery times mean equal battery
   readings, which is what telemetry needs to publish a battery only when its time changes.
   */
  lemma SnapshotsAreCoherent(previous: Option<Current>, next: Snapshot, observations: map<Instant, Option<int>>)
    requires previous.Some? ==> Witnessed(previous.value.snapshot, observations)
    requires Witnessed(next, observations)
    ensures BatteryCoherent(previous, next)
  {
    if !BatteryIsNews(previous, next) {
      assert BatteryTime(next) == BatteryTime(previous.value.snapshot);
    }
  }
}
