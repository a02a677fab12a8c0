/**
 Canonical events, the log of everything that was ever published, and the
 bounded event bus that keeps only parts of that log.
 */
module Events {
  import opened Basics

  type DeviceId = string

  /** Instants are whole ticks of one clock; aware timestamps are totally ordered. */
  type Instant = int

  datatype Source = Physical | Simulated

  datatype EventType =
    | ServiceAvailability
    | DeviceAvailability
    | DeviceConnection
    | ThermometerHeartbeat
    | Battery
    | ProbeAvailability
    | ProbeTemperature
    | OperationState
    | ConfigurationChanged

  datatype HeartbeatStatus = Unknown | Healthy | Stale | Disconnected

  /** The `data` mapping of an event, one constructor for each shape it can have. */
  datatype Payload =
    | Available(available: bool, reason: string)
    | ConnectionData(state: string)
    | BatteryData(batteryAvailable: bool, percentage: Option<int>, batteryReason: string)
    | ProbeData(probeAvailable: bool, present: bool, probeReason: string)
    | TemperatureData(celsius: real)
    | HeartbeatData(status: HeartbeatStatus, lastSuccess: Option<Instant>, isFresh: bool, staleAfter: int)
    | OtherData(text: string)

  datatype Event = Event(
    kind: EventType,
    observedAt: Instant,
    sequence: int,
    source: Source,
    device: Option<DeviceId>,
    probe: Option<int>,
    data: Payload)

  /** The key under which the bus remembers the latest event. */
  datatype Key = Key(device: Option<DeviceId>, kind: EventType, probe: Option<int>)

  function KeyOf(e: Event): Key {
    Key(e.device, e.kind, e.probe)
  }

  predicate Administrative(kind: EventType) {
    kind == OperationState || kind == ConfigurationChanged
  }

  /** Kinds the bus remembers: not administrative and not a temperature. */
  predicate Remembered(kind: EventType) {
    !Administrative(kind) && kind != ProbeTemperature
  }

  // ---------- The unbounded log ----------

  /** One thing that happened to the bus since it was created. */
  datatype Entry = Published(event: Event) | Forgotten(device: DeviceId)

  /** Every event that was published, oldest first. */
  function EventsOf(log: seq<Entry>): seq<Event> {
    if |log| == 0 then []
    else
      var before := EventsOf(log[..|log| - 1]);
      match log[|log| - 1]
      case Published(e) => before + [e]
      case Forgotten(_) => before
  }

  function Remember(latest: map<Key, Event>, e: Event): map<Key, Event> {
    if Remembered(e.kind) then latest[KeyOf(e) := e] else latest
  }

  function Forget(latest: map<Key, Event>, d: DeviceId): map<Key, Event> {
    map k | k in latest && k.device != Some(d) :: latest[k]
  }

  /** What the bus remembers after a log, as a fold over the log. */
  function Latest(log: seq<Entry>): map<Key, Event> {
    if |log| == 0 then map[]
    else
      var before := Latest(log[..|log| - 1]);
      match log[|log| - 1]
      case Published(e) => Remember(before, e)
      case Forgotten(d) => Forget(before, d)
  }

  lemma EventsOfAppend(log: seq<Entry>, x: Entry)
    ensures EventsOf(log + [x]) == if x.Published? then EventsOf(log) + [x.event] else EventsOf(log)
  {
    assert (log + [x])[..|log|] == log;
  }

  lemma LatestAppend(log: seq<Entry>, x: Entry)
    ensures Latest(log + [x]) ==
            if x.Published? then Remember(Latest(log), x.event) else Forget(Latest(log), x.device)
  {
    assert (log + [x])[..|log|] == log;
  }

  /** Entry `x` overwrites or erases what is remembered under `k`. */
  predicate Touches(x: Entry, k: Key) {
    match x
    case Published(e) => KeyOf(e) == k
    case Forgotten(d) => k.device == Some(d)
  }

  /** Position `i` of the log holds the last publication under `k`, and nothing touched `k` later. */
  ghost predicate IsLastUnder(log: seq<Entry>, k: Key, i: int) {
    && 0 <= i < |log|
    && log[i].Published?
    && KeyOf(log[i].event) == k
    && forall j :: i < j < |log| ==> !Touches(log[j], k)
  }

  /**
   The fold means what the documentation promises: a key is remembered exactly when it
   is of a remembered kind and was published since its device was last forgotten, and
   then with the event published last under it.
   */
  lemma {:induction false} LatestIsLastSinceForgotten(log: seq<Entry>, k: Key)
    ensures k in Latest(log) <==> Remembered(k.kind) && exists i :: IsLastUnder(log, k, i)
    ensures forall i :: IsLastUnder(log, k, i) && Remembered(k.kind) ==>
                          k in Latest(log) && Latest(log)[k] == log[i].event
  {
    if |log| > 0 {
      var n := |log| - 1;
      var front := log[..n];
      LatestIsLastSinceForgotten(front, k);
      if Touches(log[n], k) {
        assert forall i :: IsLastUnder(log, k, i) ==> i == n;
        if log[n].Published? {
          assert IsLastUnder(log, k, n);
        }
      } else {
        forall i
          ensures IsLastUnder(front, k, i) <==> IsLastUnder(log, k, i)
        {
        }
      }
    }
  }

  /** Retained state never contains a temperature, an operation or a configuration event. */
  lemma {:induction false} LatestHoldsOnlyRememberedKinds(log: seq<Entry>)
    ensures forall k :: k in Latest(log) ==> Remembered(k.kind) && KeyOf(Latest(log)[k]) == k
    ensures forall k :: k in Latest(log) ==> k.kind !in {ProbeTemperature, OperationState, ConfigurationChanged}
  {
    if |log| > 0 {
      LatestHoldsOnlyRememberedKinds(log[..|log| - 1]);
    }
  }

  // ---------- Subscriber queues ----------

  /** Putting an event into a bounded queue drops the oldest one when the queue is full. */
  function Offer(queue: seq<Event>, e: Event, capacity: nat): seq<Event>
    requires capacity >= 1
  {
    if |queue| >= capacity then queue[1..] + [e] else queue + [e]
  }

  /** The queue after every publication of a stretch of log was offered to it. */
  function OfferAll(queue: seq<Event>, entries: seq<Entry>, capacity: nat): seq<Event>
    requires capacity >= 1
  {
    if |entries| == 0 then queue
    else
      var before := OfferAll(queue, entries[..|entries| - 1], capacity);
      match entries[|entries| - 1]
      case Published(e) => Offer(before, e, capacity)
      case Forgotten(_) => before
  }

  /** A queue that starts within its capacity holds the newest of what it had and was offered. */
  lemma {:induction false} OfferAllKeepsNewest(queue: seq<Event>, entries: seq<Entry>, capacity: nat)
    requires capacity >= 1 && |queue| <= capacity
    ensures OfferAll(queue, entries, capacity) == LastN(queue + EventsOf(entries), capacity)
  {
    if |entries| == 0 {
      assert queue + [] == queue;
    } else {
      var front := entries[..|entries| - 1];
      OfferAllKeepsNewest(queue, front, capacity);
      match entries[|entries| - 1] {
        case Published(e) =>
          LastNAppend(queue + EventsOf(front), e, capacity);
          assert queue + (EventsOf(front) + [e]) == (queue + EventsOf(front)) + [e];
        case Forgotten(_) =>
      }
    }
  }

  /**
   A bounded queue is a contiguous suffix of what was published, nothing in it older than
   the moment its owner joined.
   */
  ghost predicate WindowOf(queue: seq<Event>, events: seq<Event>, joined: nat, passed: nat, capacity: nat) {
    joined <= passed <= |events| && queue == events[passed..] && |queue| <= capacity
  }

  lemma WindowAdvances(queue: seq<Event>, events: seq<Event>, joined: nat, passed: nat, capacity: nat, e: Event)
    requires capacity >= 1 && WindowOf(queue, events, joined, passed, capacity)
    ensures var passed' := if |queue| == capacity then passed + 1 else passed;
            WindowOf(Offer(queue, e, capacity), events + [e], joined, passed', capacity)
  {
  }

  lemma WindowTakes(queue: seq<Event>, events: seq<Event>, joined: nat, passed: nat, capacity: nat)
    requires WindowOf(queue, events, joined, passed, capacity) && queue != []
    ensures WindowOf(queue[1..], events, joined, passed + 1, capacity)
  {
  }

  // ---------- The bus ----------

  /**
   The bus keeps a bounded history, the latest event per key and one bounded queue per
   subscriber. The ghost `log` records everything; `Valid` says how each bounded part
   is determined by it.
   */
  class EventBus {
    const historySize: nat
    const queueSize: nat
    const persists: bool
    var history: seq<Event>
    var latest: map<Key, Event>
    var queues: map<nat, seq<Event>>
    var persisted: seq<Event>
    ghost var log: seq<Entry>
    /** For each subscriber, how many events had been published when it joined. */
    ghost var joined: map<nat, nat>
    /** For each subscriber, how many of all published events are no longer ahead of it. */
    ghost var passed: map<nat, nat>

    ghost predicate Valid()
      reads this
    {
      && historySize >= 1 && queueSize >= 1
      && history == LastN(EventsOf(log), historySize)
      && latest == Latest(log)
      && queues.Keys == joined.Keys == passed.Keys
      && forall q :: q in queues ==> WindowOf(queues[q], EventsOf(log), joined[q], passed[q], queueSize)
    }

    constructor (historySize: nat, queueSize: nat, persists: bool)
      requires historySize >= 1 && queueSize >= 1
      ensures Valid()
      ensures this.historySize == historySize && this.queueSize == queueSize && this.persists == persists
      ensures log == [] && queues == map[] && persisted == []
    {
      this.historySize := historySize;
      this.queueSize := queueSize;
      this.persists := persists;
      history := [];
      latest := map[];
      queues := map[];
      persisted := [];
      log := [];
      joined := map[];
      passed := map[];
    }

    method Publish(e: Event)
      requires Valid()
      modifies this
      ensures Valid()
      ensures log == old(log) + [Published(e)]
      ensures queues == map q | q in old(queues) :: Offer(old(queues)[q], e, queueSize)
      ensures joined == old(joined)
      ensures persisted == if persists && Administrative(e.kind) then old(persisted) + [e] else old(persisted)
    {
      hide WindowOf, LastN, EventsOf, Latest, Offer, Remember;
      ghost var events := EventsOf(log);
      EventsOfAppend(log, Published(e));
      LatestAppend(log, Published(e));
      Note(e, events);
      log := log + [Published(e)];
      OfferToSubscribers(e, events);
    }

    /** History and retained map, and the audit trail of administrative events. */
    method Note(e: Event, ghost events: seq<Event>)
      requires historySize >= 1 && history == LastN(events, historySize)
      modifies `history, `latest, `persisted
      ensures history == LastN(events + [e], historySize) && latest == Remember(old(latest), e)
      ensures persisted == if persists && Administrative(e.kind) then old(persisted) + [e] else old(persisted)
    {
      LastNAppend(events, e, historySize);
      if e.kind == OperationState || e.kind == ConfigurationChanged {
        if persists {
          persisted := persisted + [e];
        }
      } else if e.kind != ProbeTemperature {
        latest := latest[Key(e.device, e.kind, e.probe) := e];
      }
      history := if |history| == historySize then history[1..] + [e] else history + [e];
    }

    /** The loop over subscribers, in whatever order the set yields them. */
    method OfferToSubscribers(e: Event, ghost events: seq<Event>)
      requires queueSize >= 1
      requires queues.Keys == joined.Keys == passed.Keys
      requires forall q :: q in queues ==> WindowOf(queues[q], events, joined[q], passed[q], queueSize)
      modifies this`queues, this`passed
      ensures queues == map q | q in old(queues) :: Offer(old(queues)[q], e, queueSize)
      ensures queues.Keys == passed.Keys
      ensures forall q :: q in queues ==> WindowOf(queues[q], events + [e], joined[q], passed[q], queueSize)
    {
      hide WindowOf, Offer;
      ghost var queues0, passed0 := queues, passed;
      var waiting := queues.Keys;
      while waiting != {}
        invariant waiting <= queues.Keys == queues0.Keys == passed.Keys
        invariant forall q :: q in waiting ==> queues[q] == queues0[q] && passed[q] == passed0[q]
        invariant forall q :: q in queues && q !in waiting ==> queues[q] == Offer(queues0[q], e, queueSize)
        invariant forall q :: q in queues && q !in waiting ==>
                                WindowOf(queues[q], events + [e], joined[q], passed[q], queueSize)
      {
        var q :| q in waiting;
        OfferTo(q, e, events);
        waiting := waiting - {q};
      }
    }

    /** A full queue loses its oldest event before it gets the new one. */
    method OfferTo(q: nat, e: Event, ghost events: seq<Event>)
      requires queueSize >= 1 && q in queues && q in joined && q in passed
      requires WindowOf(queues[q], events, joined[q], passed[q], queueSize)
      modifies this`queues, this`passed
      ensures queues == old(queues)[q := Offer(old(queues)[q], e, queueSize)]
      ensures passed.Keys == old(passed).Keys
      ensures forall x :: x in passed && x != q ==> passed[x] == old(passed)[x]
      ensures WindowOf(queues[q], events + [e], joined[q], passed[q], queueSize)
    {
      hide WindowOf;
      WindowAdvances(queues[q], events, joined[q], passed[q], queueSize, e);
      var queue := queues[q];
      if |queue| == queueSize {
        queue := queue[1..];
        passed := passed[q := passed[q] + 1];
      }
      queues := queues[q := queue + [e]];
    }

    method Recent() returns (events: seq<Event>)
      requires Valid()
      ensures events == LastN(EventsOf(log), historySize)
    {
      events := history;
    }

    /** The remembered events, each exactly once; a dictionary's order is not relied upon. */
    method RetainedState() returns (events: seq<Event>)
      requires Valid()
      ensures Replays(events, Latest(log))
    {
      LatestHoldsOnlyRememberedKinds(log);
      events := [];
      var waiting := latest.Keys;
      while waiting != {}
        invariant waiting <= latest.Keys
        invariant forall i :: 0 <= i < |events| ==>
          KeyOf(events[i]) in latest.Keys - waiting && latest[KeyOf(events[i])] == events[i]
        invariant forall k :: k in latest.Keys - waiting ==> latest[k] in events
        invariant forall i, j :: 0 <= i < j < |events| ==> KeyOf(events[i]) != KeyOf(events[j])
      {
        var k :| k in waiting;
        events := events + [latest[k]];
        waiting := waiting - {k};
      }
    }

    method ForgetDevice(d: DeviceId)
      requires Valid()
      modifies this
      ensures Valid()
      ensures log == old(log) + [Forgotten(d)] && latest == Forget(old(latest), d)
      ensures queues == old(queues) && joined == old(joined) && persisted == old(persisted)
    {
      EventsOfAppend(log, Forgotten(d));
      LatestAppend(log, Forgotten(d));
      latest := map k | k in latest && k.device != Some(d) :: latest[k];
      log := log + [Forgotten(d)];
    }

    method Subscribe(q: nat)
      requires Valid() && q !in queues
      modifies this
      ensures Valid()
      ensures log == old(log) && persisted == old(persisted)
      ensures queues == old(queues)[q := []] && joined == old(joined)[q := |EventsOf(log)|]
    {
      queues := queues[q := []];
      joined := joined[q := |EventsOf(log)|];
      passed := passed[q := |EventsOf(log)|];
    }

    method Unsubscribe(q: nat)
      requires Valid()
      modifies this
      ensures Valid()
      ensures log == old(log) && persisted == old(persisted)
      ensures queues == old(queues) - {q}
    {
      queues := queues - {q};
      joined := joined - {q};
      passed := passed - {q};
    }

    /** A subscriber takes the oldest event still in its queue. */
    method Take(q: nat) returns (e: Event)
      requires Valid() && q in queues && queues[q] != []
      modifies this
      ensures Valid()
      ensures log == old(log) && persisted == old(persisted) && joined == old(joined)
      ensures old(queues)[q] == [e] + queues[q] && queues == old(queues)[q := old(queues)[q][1..]]
    {
      hide WindowOf, LastN, EventsOf, Latest;
      WindowTakes(queues[q], EventsOf(log), joined[q], passed[q], queueSize);
      e := queues[q][0];
      queues := queues[q := queues[q][1..]];
      passed := passed[q := passed[q] + 1];
    }
  }

  /** A listing of a remembered map: every entry once, and nothing else. */
  ghost predicate Replays(events: seq<Event>, latest: map<Key, Event>) {
    && (forall i :: 0 <= i < |events| ==> KeyOf(events[i]) in latest && latest[KeyOf(events[i])] == events[i])
    && (forall k :: k in latest ==> latest[k] in events)
    && (forall i, j :: 0 <= i < j < |events| ==> KeyOf(events[i]) != KeyOf(events[j]))
  }
}
