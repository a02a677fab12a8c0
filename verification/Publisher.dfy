/**
 The MQTT publisher as a state machine: one phase per place where its task can be
 suspended. Between any two of its steps the bus may publish, and a full queue then drops
 its oldest event.
 */
module Publishers {
  import opened Basics
  import opened Events
  import opened Topics

  datatype Message = EventMessage(event: Event) | ServiceMessage(available: bool, sequence: int)

  /** A publication handed to the client and not yet acknowledged. */
  datatype Outgoing = Outgoing(topic: string, message: Message, retain: bool)

  datatype Phase =
    | Offline
    | Announcing
    | Replaying(rest: seq<Event>)
    | Draining
    | Flushing(left: seq<Event>, goal: map<Key, Event>)
    | Closing(told: map<Key, Event>)
    | Stopped(left_: map<Key, Event>, said: bool)

  /**
   `broker` holds the retained message of each topic. `caught` says that the session was already
   waiting on an empty queue when the first of the queued events came. The others are for
   specification:
   `lost` has the keys whose newest queued event was dropped since the replay list was
   taken, `overflowed` says whether anything at all was dropped since subscribing,
   `inherited` is what the broker retained when the session began, and `heard` has the last
   event of every key that was replayed or published since then.
   */
  datatype Publisher = Publisher(
    base: string,
    capacity: nat,
    phase: Phase,
    sending: Option<Outgoing>,
    queue: seq<Event>,
    lost: set<Key>,
    overflowed: bool,
    broker: map<string, Message>,
    inherited: map<string, Message>,
    heard: map<Key, Event>,
    caught: bool)

  datatype Step =
    | Connect
    | Acknowledge
    | TakeSnapshot(replay: seq<Event>)
    | SendNext
    | FinishList
    | TakeEvent(flush: seq<Event>)
    | Beat
    | Suppress(applied: bool)
    | Fail(applied: bool, farewell: bool)

  /** The steps in which something sent or waited for fails. */
  predicate Fails(step: Step) {
    step.Suppress? || step.Fail?
  }

  predicate Subscribed(p: Publisher) {
    p.phase.Announcing? || p.phase.Replaying? || p.phase.Draining? || p.phase.Flushing?
  }

  /** The event that tells the publisher to stop. */
  predicate SaysUnavailable(e: Event) {
    e.kind == ServiceAvailability && e.data.Available? && !e.data.available
  }

  function Service(p: Publisher, available: bool): Option<Outgoing> {
    Some(Outgoing(ServiceTopic(p.base), ServiceMessage(available, if available then 1 else 2), true))
  }

  /** Operations and configuration changes are not published at all. */
  function Prepare(p: Publisher, e: Event): Option<Outgoing> {
    if Administrative(e.kind) then None
    else
      match TopicFor(p.base, KeyOf(e))
      case Ok(topic) => Some(Outgoing(topic, EventMessage(e), IsRetained(e.kind)))
      case Err(_) => None
  }

  /** The broker keeps the last retained message of a topic and does not keep the others. */
  function Deliver(broker: map<string, Message>, o: Outgoing): map<string, Message> {
    if o.retain then broker[o.topic := o.message] else broker
  }

  /** The list of events still to be replayed, if the publisher is replaying one. */
  function Rest(p: Publisher): seq<Event> {
    match p.phase
    case Replaying(rest) => rest
    case Flushing(left, _) => left
    case _ => []
  }

  ghost predicate Enabled(p: Publisher, latest: map<Key, Event>, step: Step) {
    match step
    case Connect => p.phase.Offline?
    case Acknowledge => p.sending.Some?
    case TakeSnapshot(replay) => p.phase.Announcing? && p.sending.None? && Replays(replay, latest)
    case SendNext => p.sending.None? && Rest(p) != []
    case FinishList => p.sending.None? && (p.phase.Replaying? || p.phase.Flushing?) && Rest(p) == []
    case TakeEvent(flush) =>
      p.phase.Draining? && p.sending.None? && p.queue != [] && (SaysUnavailable(p.queue[0]) ==> Replays(flush, latest))
    case Beat => p.phase.Draining? && p.sending.None? && (p.queue == [] || p.caught)
    case Suppress(_) => p.phase.Closing? && p.sending.Some?
    case Fail(_, _) => p.sending.Some? || p.phase.Draining?
  }

  function AfterAcknowledge(p: Publisher): Publisher
    requires p.sending.Some?
  {
    p.(broker := Deliver(p.broker, p.sending.value), sending := None,
       phase := if p.phase.Closing? then Stopped(p.phase.told, true) else p.phase)
  }

  /** The phase with one event less to replay. */
  function Shortened(phase: Phase): Phase {
    match phase
    case Replaying(rest) => if rest == [] then phase else Replaying(rest[1..])
    case Flushing(left, goal) => if left == [] then phase else Flushing(left[1..], goal)
    case _ => phase
  }

  /** Service events are left out of a replay. */
  function AfterSendNext(p: Publisher): Publisher
    requires Rest(p) != []
  {
    var e := Rest(p)[0];
    p.(sending := if e.kind == ServiceAvailability then None else Prepare(p, e), phase := Shortened(p.phase))
  }

  function AfterFinishList(p: Publisher): Publisher {
    if p.phase.Flushing? then p.(phase := Closing(p.phase.goal), sending := Service(p, false), queue := [])
    else p.(phase := Draining, caught := false)
  }

  function AfterTake(p: Publisher, latest: map<Key, Event>, flush: seq<Event>): Publisher
    requires p.queue != []
  {
    var e := p.queue[0];
    var q := p.(queue := p.queue[1..], caught := false);
    if SaysUnavailable(e) then q.(phase := Flushing(flush, latest), overflowed := q.overflowed || q.queue != [])
    else q.(sending := Prepare(p, e))
  }

  /**
   The farewell fails, but its error is suppressed and the session returns; the broker may have
   applied the farewell all the same.
   */
  function AfterSuppress(p: Publisher, applied: bool): Publisher
    requires p.phase.Closing? && p.sending.Some?
  {
    p.(phase := Stopped(p.phase.told, applied), sending := None,
       broker := if applied then Deliver(p.broker, p.sending.value) else p.broker)
  }

  /**
   A failed publication, or an error or cancellation while waiting on the queue, ends the
   connection. The broker may have applied what was being sent. The farewell or the last will
   then leaves the service unavailable, unless both are lost too.
   */
  function AfterFail(p: Publisher, applied: bool, farewell: bool): Publisher {
    var broker := if applied && p.sending.Some? then Deliver(p.broker, p.sending.value) else p.broker;
    p.(phase := Offline, sending := None, queue := [], lost := {}, overflowed := false, caught := false,
       broker := if farewell then Deliver(broker, Service(p, false).value) else broker)
  }

  function Next(p: Publisher, latest: map<Key, Event>, step: Step): Publisher
    requires Enabled(p, latest, step)
  {
    match step
    case Connect =>
      p.(phase := Announcing, sending := Service(p, true), queue := [], lost := {}, overflowed := false,
         inherited := p.broker, heard := map[], caught := false)
    case Acknowledge => AfterAcknowledge(p)
    case TakeSnapshot(replay) => p.(phase := Replaying(replay), lost := {}, heard := latest + p.heard)
    case SendNext => AfterSendNext(p)
    case FinishList => AfterFinishList(p)
    case TakeEvent(flush) => AfterTake(p, latest, flush)
    case Beat => p.(sending := Service(p, true), caught := false)
    case Suppress(applied) => AfterSuppress(p, applied)
    case Fail(applied, farewell) => AfterFail(p, applied, farewell)
  }

  /** The publisher has nothing left to do for now. */
  predicate CaughtUp(p: Publisher) {
    p.phase.Draining? && p.sending.None? && p.queue == []
  }

  // ---------- The bus publishes ----------

  /** The newest event under a key in a list. */
  function LastOf(events: seq<Event>, k: Key): Option<Event> {
    if |events| == 0 then None
    else if KeyOf(events[|events| - 1]) == k then Some(events[|events| - 1])
    else LastOf(events[..|events| - 1], k)
  }

  /** Keys of dropped events that no later queued event makes up for. */
  function LostBy(queue: seq<Event>, e: Event, capacity: nat): set<Key>
    requires capacity >= 1
  {
    if |queue| >= capacity && LastOf(Offer(queue, e, capacity), KeyOf(queue[0])).None? then {KeyOf(queue[0])} else {}
  }

  function Enqueue(p: Publisher, e: Event): Publisher
    requires p.capacity >= 1
  {
    if !Subscribed(p) then p
    else p.(queue := Offer(p.queue, e, p.capacity),
            lost := p.lost + LostBy(p.queue, e, p.capacity) - {KeyOf(e)},
            overflowed := p.overflowed || |p.queue| >= p.capacity,
            caught := p.caught || CaughtUp(p),
            heard := if p.phase.Flushing? || !Remembered(e.kind) then p.heard else p.heard[KeyOf(e) := e])
  }

  function Hear(p: Publisher, x: Entry): Publisher
    requires p.capacity >= 1
  {
    if x.Published? then Enqueue(p, x.event) else p
  }

  function HearAll(p: Publisher, entries: seq<Entry>): (r: Publisher)
    requires p.capacity >= 1
    ensures r.capacity == p.capacity && r.base == p.base
  {
    if |entries| == 0 then p else Hear(HearAll(p, entries[..|entries| - 1]), entries[|entries| - 1])
  }

  /**
   What is sent for an event: nothing for an operation or a configuration change, a temperature
   without being retained, and everything else about a device retained on its documented topic.
   */
  lemma PreparesAsDocumented(p: Publisher, e: Event, d: DeviceId)
    requires e.device == Some(d)
    ensures e.kind == OperationState || e.kind == ConfigurationChanged ==> Prepare(p, e) == None
    ensures var root, sent := Strip(p.base) + "/v1/devices/" + d, EventMessage(e);
            && (e.probe == None ==>
                  && (e.kind == DeviceAvailability ==> Prepare(p, e) == Some(Outgoing(root + "/availability", sent, true)))
                  && (e.kind == DeviceConnection ==> Prepare(p, e) == Some(Outgoing(root + "/connection", sent, true)))
                  && (e.kind == ThermometerHeartbeat ==> Prepare(p, e) == Some(Outgoing(root + "/heartbeat", sent, true)))
                  && (e.kind == Battery ==> Prepare(p, e) == Some(Outgoing(root + "/battery", sent, true))))
            && (e.probe.Some? && 1 <= e.probe.value <= 4 ==>
                  var topic := root + "/probes/" + ["1234"[e.probe.value - 1]];
                  && (e.kind == ProbeAvailability ==> Prepare(p, e) == Some(Outgoing(topic + "/availability", sent, true)))
                  && (e.kind == ProbeTemperature ==> Prepare(p, e) == Some(Outgoing(topic + "/temperature", sent, false))))
  {
    hide TopicFor, Strip;
    DocumentedTopics(p.base, d);
    if e.probe.Some? && 1 <= e.probe.value <= 4 {
      DocumentedProbeTopics(p.base, d, e.probe.value);
    }
  }

  // ---------- What every state keeps ----------

  predicate Sane(e: Event) {
    e.kind == ServiceAvailability || Administrative(e.kind) || DeviceKey(KeyOf(e))
  }

  ghost predicate SaneLatest(latest: map<Key, Event>) {
    forall k :: k in latest ==> Remembered(k.kind) && KeyOf(latest[k]) == k && Sane(latest[k])
  }

  ghost predicate SaneEvents(events: seq<Event>) {
    forall i :: 0 <= i < |events| ==> Sane(events[i])
  }

  /** The event that a broker retains on the topic of a key. */
  function HeldIn(base: string, broker: map<string, Message>, k: Key): Option<Event> {
    match TopicFor(base, k)
    case Ok(topic) =>
      if topic in broker && broker[topic].EventMessage? then Some(broker[topic].event) else None
    case Err(_) => None
  }

  function Held(p: Publisher, k: Key): Option<Event> {
    HeldIn(p.base, p.broker, k)
  }

  function InFlight(p: Publisher): seq<Event> {
    if p.sending.Some? && p.sending.value.message.EventMessage? then [p.sending.value.message.event] else []
  }

  /** What will still reach the broker, in order. */
  function Pending(p: Publisher): seq<Event> {
    InFlight(p) + Rest(p) + (if p.phase.Flushing? then [] else p.queue)
  }

  /** What the broker will retain under a key once everything pending is delivered. */
  function Settled(p: Publisher, k: Key): Option<Event> {
    if LastOf(Pending(p), k).Some? then LastOf(Pending(p), k) else Held(p, k)
  }

  /** Every remembered device event outside `except` will be what the broker retains. */
  ghost predicate Settles(p: Publisher, latest: map<Key, Event>, except: set<Key>) {
    forall k :: k in latest && k.kind != ServiceAvailability && k !in except ==> Settled(p, k) == Some(latest[k])
  }

  /** The newest queued event of a remembered key is the remembered one. */
  ghost predicate QueueIsCurrent(queue: seq<Event>, latest: map<Key, Event>) {
    forall k :: k in latest && LastOf(queue, k).Some? ==> LastOf(queue, k) == Some(latest[k])
  }

  ghost predicate SendingOk(p: Publisher) {
    match p.sending
    case None => true
    case Some(o) =>
      match o.message
      case ServiceMessage(_, _) => o.topic == ServiceTopic(p.base)
      case EventMessage(e) => Sane(e) && Prepare(p, e) == Some(o)
  }

  /** What holds in every phase. */
  ghost predicate BasicInv(latest: map<Key, Event>, p: Publisher) {
    && p.capacity >= 1 && |p.queue| <= p.capacity
    && SaneLatest(latest) && SaneEvents(p.queue) && SaneEvents(Rest(p))
    && SendingOk(p)
    && QueueIsCurrent(p.queue, latest)
    && (!p.overflowed ==> p.lost == {})
  }

  /** What a phase has settled about the broker. */
  ghost predicate PhaseInv(latest: map<Key, Event>, p: Publisher) {
    match p.phase
    case Offline => p.queue == []
    case Announcing => InFlight(p) == []
    case Replaying(_) => Settles(p, latest, p.lost)
    case Draining => Settles(p, latest, p.lost)
    case Flushing(_, goal) => SaneLatest(goal) && Settles(p, goal, {})
    case Closing(goal) =>
      SaneLatest(goal) && Settles(p, goal, {}) && p.queue == [] && p.sending == Service(p, false)
    case Stopped(goal, said) =>
      && SaneLatest(goal) && Settles(p, goal, {}) && p.queue == [] && p.sending == None
      && (said ==> ServiceTopic(p.base) in p.broker && p.broker[ServiceTopic(p.base)] == ServiceMessage(false, 2))
  }

  ghost predicate PubInv(latest: map<Key, Event>, p: Publisher) {
    BasicInv(latest, p) && PhaseInv(latest, p)
  }

  // ---------- Lists of events ----------

  lemma {:induction false} LastOfAppend(a: seq<Event>, b: seq<Event>, k: Key)
    ensures LastOf(a + b, k) == if LastOf(b, k).Some? then LastOf(b, k) else LastOf(a, k)
  {
    if |b| == 0 {
      assert a + b == a;
    } else {
      assert (a + b)[..|a + b| - 1] == a + b[..|b| - 1];
      LastOfAppend(a, b[..|b| - 1], k);
    }
  }

  lemma LastOfOne(e: Event, k: Key)
    ensures LastOf([e], k) == if KeyOf(e) == k then Some(e) else None
  {
  }

  /** Taking the head off a list changes the newest event of a key only if it was the only one. */
  lemma LastOfTail(events: seq<Event>, k: Key)
    requires |events| > 0
    ensures LastOf(events, k) ==
            if LastOf(events[1..], k).Some? then LastOf(events[1..], k)
            else if KeyOf(events[0]) == k then Some(events[0]) else None
  {
    assert events == [events[0]] + events[1..];
    LastOfAppend([events[0]], events[1..], k);
    LastOfOne(events[0], k);
  }

  lemma {:induction false} LastOfIsThere(events: seq<Event>, k: Key)
    ensures LastOf(events, k).Some? ==> LastOf(events, k).value in events && KeyOf(LastOf(events, k).value) == k
    ensures LastOf(events, k).None? ==> forall i :: 0 <= i < |events| ==> KeyOf(events[i]) != k
  {
    if |events| > 0 {
      LastOfIsThere(events[..|events| - 1], k);
    }
  }

  /** A listing of a remembered map has the remembered event under each key. */
  lemma ReplayHoldsLatest(replay: seq<Event>, latest: map<Key, Event>, k: Key)
    requires Replays(replay, latest) && k in latest && KeyOf(latest[k]) == k
    ensures LastOf(replay, k) == Some(latest[k])
  {
    LastOfIsThere(replay, k);
    assert latest[k] in replay;
  }

  lemma ReplayIsSane(replay: seq<Event>, latest: map<Key, Event>)
    requires Replays(replay, latest) && SaneLatest(latest)
    ensures SaneEvents(replay)
  {
  }

  // ---------- The bus keeps the invariant ----------

  lemma OfferLast(queue: seq<Event>, e: Event, capacity: nat, k: Key)
    requires capacity >= 1
    ensures var r := Offer(queue, e, capacity);
            && (KeyOf(e) == k ==> LastOf(r, k) == Some(e))
            && (KeyOf(e) != k && LastOf(r, k).Some? ==> LastOf(r, k) == LastOf(queue, k))
            && (KeyOf(e) != k && LastOf(r, k).None? && LastOf(queue, k).Some? ==> k in LostBy(queue, e, capacity))
  {
    LastOfOne(e, k);
    if |queue| >= capacity {
      LastOfAppend(queue[1..], [e], k);
      LastOfTail(queue, k);
    } else {
      LastOfAppend(queue, [e], k);
    }
  }

  lemma PendingLast(p: Publisher, k: Key)
    ensures LastOf(Pending(p), k) ==
            if !p.phase.Flushing? && LastOf(p.queue, k).Some? then LastOf(p.queue, k)
            else LastOf(InFlight(p) + Rest(p), k)
  {
    LastOfAppend(InFlight(p) + Rest(p), if p.phase.Flushing? then [] else p.queue, k);
  }

  lemma EnqueueSettles(p: Publisher, latest: map<Key, Event>, e: Event)
    requires p.capacity >= 1 && (p.phase.Replaying? || p.phase.Draining?)
    requires Settles(p, latest, p.lost) && SaneLatest(latest)
    ensures Settles(Enqueue(p, e), Remember(latest, e), Enqueue(p, e).lost)
  {
    var r := Enqueue(p, e);
    var latest' := Remember(latest, e);
    forall k | k in latest' && k.kind != ServiceAvailability && k !in r.lost
      ensures Settled(r, k) == Some(latest'[k])
    {
      PendingLast(p, k);
      PendingLast(r, k);
      OfferLast(p.queue, e, p.capacity, k);
      assert Held(r, k) == Held(p, k);
    }
  }

  lemma EnqueueKeepsCurrent(queue: seq<Event>, latest: map<Key, Event>, e: Event, capacity: nat)
    requires capacity >= 1 && QueueIsCurrent(queue, latest) && SaneLatest(latest)
    ensures QueueIsCurrent(Offer(queue, e, capacity), Remember(latest, e))
  {
    forall k | k in Remember(latest, e) && LastOf(Offer(queue, e, capacity), k).Some?
      ensures LastOf(Offer(queue, e, capacity), k) == Some(Remember(latest, e)[k])
    {
      OfferLast(queue, e, capacity, k);
    }
  }

  lemma EnqueueKeepsBasics(latest: map<Key, Event>, p: Publisher, e: Event)
    requires BasicInv(latest, p) && Sane(e) && (!Subscribed(p) ==> p.queue == [])
    ensures BasicInv(Remember(latest, e), Enqueue(p, e))
  {
    hide DeviceKey;
    EnqueueKeepsCurrent(p.queue, latest, e, p.capacity);
  }

  lemma EnqueueKeepsFlushing(p: Publisher, e: Event, goal: map<Key, Event>)
    requires p.capacity >= 1 && p.phase.Flushing? && Settles(p, goal, {})
    ensures Settles(Enqueue(p, e), goal, {})
  {
    hide LastOf, LostBy, Offer, Settles;
    assert Pending(Enqueue(p, e)) == Pending(p);
    SamePendingSettles(p, Enqueue(p, e), goal, {});
  }

  lemma EnqueueKeepsPhase(latest: map<Key, Event>, p: Publisher, e: Event)
    requires p.capacity >= 1 && SaneLatest(latest) && PhaseInv(latest, p)
    ensures PhaseInv(Remember(latest, e), Enqueue(p, e))
  {
    hide LastOf, LostBy, Offer, Settles, SaneLatest;
    if p.phase.Replaying? || p.phase.Draining? {
      EnqueueSettles(p, latest, e);
    } else if p.phase.Flushing? {
      EnqueueKeepsFlushing(p, e, p.phase.goal);
    }
  }

  lemma EnqueueKeepsInv(latest: map<Key, Event>, p: Publisher, e: Event)
    requires PubInv(latest, p) && Sane(e)
    ensures PubInv(Remember(latest, e), Enqueue(p, e))
  {
    hide SaneLatest, Settles;
    EnqueueKeepsBasics(latest, p, e);
    EnqueueKeepsPhase(latest, p, e);
  }

  lemma ForgetKeepsInv(latest: map<Key, Event>, p: Publisher, d: DeviceId)
    requires PubInv(latest, p)
    ensures PubInv(Forget(latest, d), p)
  {
  }

  lemma HearKeepsInv(latest: map<Key, Event>, p: Publisher, x: Entry)
    requires PubInv(latest, p) && (x.Published? ==> Sane(x.event))
    ensures PubInv(if x.Published? then Remember(latest, x.event) else Forget(latest, x.device), Hear(p, x))
  {
    match x {
      case Published(e) => EnqueueKeepsInv(latest, p, e);
      case Forgotten(d) => ForgetKeepsInv(latest, p, d);
    }
  }

  ghost predicate SaneLog(log: seq<Entry>) {
    forall i :: 0 <= i < |log| && log[i].Published? ==> Sane(log[i].event)
  }

  /** Whatever the bus publishes between two steps of the publisher, the invariant stays. */
  lemma {:induction false} HearAllKeepsInv(log: seq<Entry>, p: Publisher, entries: seq<Entry>)
    requires PubInv(Latest(log), p) && SaneLog(log + entries)
    ensures PubInv(Latest(log + entries), HearAll(p, entries))
  {
    if |entries| == 0 {
      assert log + entries == log;
    } else {
      var n := |entries| - 1;
      var x := entries[n];
      assert (log + entries[..n]) + [x] == log + entries;
      assert forall i :: 0 <= i < |log + entries[..n]| ==> (log + entries[..n])[i] == (log + entries)[i];
      assert (log + entries)[|log| + n] == x;
      HearAllKeepsInv(log, p, entries[..n]);
      LatestAppend(log + entries[..n], x);
      HearKeepsInv(Latest(log + entries[..n]), HearAll(p, entries[..n]), x);
    }
  }

  // ---------- The publisher keeps the invariant ----------

  /** An event on its way has the topic of a device key only if it is about that key. */
  lemma SameTopicSameKey(p: Publisher, e: Event, k: Key)
    requires Sane(e) && Prepare(p, e).Some? && DeviceKey(k)
    ensures TopicFor(p.base, k).Ok?
    ensures Prepare(p, e).value.topic == TopicFor(p.base, k).value <==> KeyOf(e) == k
  {
    hide Strip, Tail;
    ServiceTopicIsApart(p.base, k);
    if e.kind != ServiceAvailability && TopicFor(p.base, KeyOf(e)) == TopicFor(p.base, k) {
      TopicDeterminesKey(p.base, KeyOf(e), k);
    }
  }

  lemma AcknowledgedBroker(p: Publisher, k: Key)
    requires p.sending.Some?
    ensures Held(AfterAcknowledge(p), k) == HeldIn(p.base, Deliver(p.broker, p.sending.value), k)
  {
  }

  /** A delivery changes what is retained under a device key only if it is about that key. */
  lemma HeldAfterDelivery(p: Publisher, k: Key)
    requires p.sending.Some? && SendingOk(p) && DeviceKey(k) && IsRetained(k.kind)
    ensures Held(AfterAcknowledge(p), k) == if LastOf(InFlight(p), k).Some? then LastOf(InFlight(p), k) else Held(p, k)
  {
    hide DeviceKey, TopicFor, ServiceTopic, LastOf, Sane, AfterAcknowledge;
    AcknowledgedBroker(p, k);
    var o := p.sending.value;
    match o.message {
      case ServiceMessage(_, _) =>
        ServiceTopicIsApart(p.base, k);
        LastOfIsThere(InFlight(p), k);
      case EventMessage(e) =>
        LastOfOne(e, k);
        SameTopicSameKey(p, e, k);
    }
  }

  /** Delivering what is in flight changes nothing about what will be retained in the end. */
  lemma AcknowledgeSettles(p: Publisher, k: Key)
    requires p.sending.Some? && SendingOk(p) && DeviceKey(k) && IsRetained(k.kind)
    ensures Settled(AfterAcknowledge(p), k) == Settled(p, k)
  {
    var q := AfterAcknowledge(p);
    PendingLast(p, k);
    PendingLast(q, k);
    assert Rest(q) == Rest(p);
    assert InFlight(q) + Rest(q) == Rest(p);
    LastOfAppend(InFlight(p), Rest(p), k);
    HeldAfterDelivery(p, k);
  }

  lemma AcknowledgeKeepsSettling(p: Publisher, goal: map<Key, Event>, except: set<Key>)
    requires p.sending.Some? && SendingOk(p) && SaneLatest(goal) && Settles(p, goal, except)
    ensures Settles(AfterAcknowledge(p), goal, except)
  {
    forall k | k in goal && k.kind != ServiceAvailability && k !in except
      ensures Settled(AfterAcknowledge(p), k) == Some(goal[k])
    {
      assert Sane(goal[k]);
      AcknowledgeSettles(p, k);
    }
  }

  /** A sane event of a remembered device key is published. */
  lemma PreparedInFlight(p: Publisher, e: Event, k: Key)
    requires Sane(e) && DeviceKey(k) && Remembered(k.kind) && e.kind != ServiceAvailability
    ensures LastOf(InFlight(p.(sending := Prepare(p, e))), k) == if KeyOf(e) == k then Some(e) else None
  {
    LastOfOne(e, k);
    if DeviceKey(KeyOf(e)) {
      TopicParts(p.base, KeyOf(e));
    }
  }

  lemma SendNextMoves(p: Publisher, k: Key)
    requires p.sending.None? && Rest(p) != []
    ensures var q := AfterSendNext(p);
            Rest(q) == Rest(p)[1..] && q.queue == p.queue && Held(q, k) == Held(p, k) && InFlight(p) == []
            && (q.phase.Flushing? <==> p.phase.Flushing?)
  {
  }

  lemma SentIsInFlight(p: Publisher, k: Key)
    requires p.sending.None? && Rest(p) != [] && Sane(Rest(p)[0])
    requires DeviceKey(k) && Remembered(k.kind)
    ensures LastOf(InFlight(AfterSendNext(p)), k) == if KeyOf(Rest(p)[0]) == k then Some(Rest(p)[0]) else None
  {
    var e := Rest(p)[0];
    if e.kind != ServiceAvailability {
      PreparedInFlight(p, e, k);
      assert InFlight(AfterSendNext(p)) == InFlight(p.(sending := Prepare(p, e)));
    }
  }

  /** Handing over the next replayed event only moves it from the list into flight. */
  lemma SendNextSettles(p: Publisher, k: Key)
    requires p.sending.None? && Rest(p) != [] && Sane(Rest(p)[0])
    requires DeviceKey(k) && Remembered(k.kind)
    ensures Settled(AfterSendNext(p), k) == Settled(p, k)
  {
    hide AfterSendNext, Rest, InFlight, Held, LastOf, Pending, Sane, DeviceKey;
    var q := AfterSendNext(p);
    SendNextMoves(p, k);
    SentIsInFlight(p, k);
    PendingLast(p, k);
    PendingLast(q, k);
    assert InFlight(p) + Rest(p) == Rest(p);
    LastOfTail(Rest(p), k);
    LastOfAppend(InFlight(q), Rest(q), k);
  }

  lemma SendNextKeepsSettling(p: Publisher, goal: map<Key, Event>, except: set<Key>)
    requires p.sending.None? && Rest(p) != [] && Sane(Rest(p)[0])
    requires SaneLatest(goal) && Settles(p, goal, except)
    ensures Settles(AfterSendNext(p), goal, except)
  {
    forall k | k in goal && k.kind != ServiceAvailability && k !in except
      ensures Settled(AfterSendNext(p), k) == Some(goal[k])
    {
      assert Sane(goal[k]);
      SendNextSettles(p, k);
    }
  }

  /** Taking an event off the queue only moves it into flight, unless it is not published at all. */
  lemma TakeSettles(p: Publisher, latest: map<Key, Event>, flush: seq<Event>, k: Key)
    requires p.phase.Draining? && p.sending.None? && p.queue != [] && Sane(p.queue[0])
    requires !SaysUnavailable(p.queue[0]) && DeviceKey(k) && Remembered(k.kind)
    ensures Settled(AfterTake(p, latest, flush), k) == Settled(p, k)
  {
    var q := AfterTake(p, latest, flush);
    var e := p.queue[0];
    PendingLast(p, k);
    PendingLast(q, k);
    LastOfTail(p.queue, k);
    LastOfOne(e, k);
    assert InFlight(p) + Rest(p) == [];
    assert InFlight(q) + Rest(q) == InFlight(q);
    if DeviceKey(KeyOf(e)) {
      TopicParts(p.base, KeyOf(e));
    }
    assert Held(q, k) == Held(p, k);
  }

  lemma TailKeepsCurrent(queue: seq<Event>, latest: map<Key, Event>)
    requires queue != [] && QueueIsCurrent(queue, latest)
    ensures QueueIsCurrent(queue[1..], latest)
  {
    forall k | k in latest && LastOf(queue[1..], k).Some?
      ensures LastOf(queue[1..], k) == Some(latest[k])
    {
      LastOfTail(queue, k);
    }
  }

  lemma PreparedOk(p: Publisher, e: Event)
    requires Sane(e)
    ensures SendingOk(p.(sending := Prepare(p, e)))
  {
  }

  /** A listing in front of the queue settles every remembered key. */
  lemma ListSettles(p: Publisher, latest: map<Key, Event>, replay: seq<Event>, k: Key)
    requires SaneLatest(latest) && Replays(replay, latest) && QueueIsCurrent(p.queue, latest) && k in latest
    requires InFlight(p) + Rest(p) == replay
    ensures Settled(p, k) == Some(latest[k])
  {
    PendingLast(p, k);
    ReplayHoldsLatest(replay, latest, k);
    hide Replays, InFlight, Rest, LastOf, Pending;
  }

  /** The list taken for a replay, with the queue behind it, settles every remembered key. */
  lemma SnapshotSettles(p: Publisher, latest: map<Key, Event>, replay: seq<Event>)
    requires p.sending.None? && SaneLatest(latest) && Replays(replay, latest) && QueueIsCurrent(p.queue, latest)
    ensures Settles(p.(phase := Replaying(replay)), latest, {})
    ensures Settles(p.(phase := Flushing(replay, latest)), latest, {})
  {
    hide Replays, QueueIsCurrent, SaneLatest, Settled, LastOf;
    var q := p.(phase := Replaying(replay));
    var f := p.(phase := Flushing(replay, latest));
    assert InFlight(q) + Rest(q) == replay && InFlight(f) + Rest(f) == replay;
    forall k | k in latest && k.kind != ServiceAvailability
      ensures Settled(q, k) == Some(latest[k]) && Settled(f, k) == Some(latest[k])
    {
      ListSettles(q, latest, replay, k);
      ListSettles(f, latest, replay, k);
    }
  }

  lemma StopKeepsInv(latest: map<Key, Event>, p: Publisher, flush: seq<Event>)
    requires PubInv(latest, p) && Enabled(p, latest, TakeEvent(flush)) && SaysUnavailable(p.queue[0])
    ensures PubInv(latest, AfterTake(p, latest, flush))
  {
    hide SaneLatest, Replays, LastOf, Sane, QueueIsCurrent;
    TailKeepsCurrent(p.queue, latest);
    SnapshotSettles(p.(queue := p.queue[1..]), latest, flush);
    ReplayIsSane(flush, latest);
    StopSettles(p, latest, flush);
  }

  /** Whether the queue overflowed does not matter to what is settled. */
  lemma StopSettles(p: Publisher, latest: map<Key, Event>, flush: seq<Event>)
    requires p.queue != [] && SaysUnavailable(p.queue[0])
    requires Settles(p.(queue := p.queue[1..]).(phase := Flushing(flush, latest)), latest, {})
    ensures Settles(AfterTake(p, latest, flush), latest, {})
  {
    hide Settles;
    var f := p.(queue := p.queue[1..]).(phase := Flushing(flush, latest));
    SamePendingSettles(f, AfterTake(p, latest, flush), latest, {});
  }

  lemma TakeKeepsSettling(latest: map<Key, Event>, p: Publisher, flush: seq<Event>)
    requires PubInv(latest, p) && Enabled(p, latest, TakeEvent(flush)) && !SaysUnavailable(p.queue[0])
    ensures Settles(AfterTake(p, latest, flush), latest, p.lost)
  {
    hide Replays, LastOf, QueueIsCurrent, Prepare, DeviceKey, Settled;
    forall k | k in latest && k.kind != ServiceAvailability && k !in p.lost
      ensures Settled(AfterTake(p, latest, flush), k) == Some(latest[k])
    {
      assert Sane(latest[k]);
      TakeSettles(p, latest, flush, k);
    }
  }

  lemma TakeKeepsInv(latest: map<Key, Event>, p: Publisher, flush: seq<Event>)
    requires PubInv(latest, p) && Enabled(p, latest, TakeEvent(flush))
    ensures PubInv(latest, AfterTake(p, latest, flush))
  {
    hide SaneLatest, Replays, LastOf, Sane, QueueIsCurrent, Settles, TopicFor;
    if SaysUnavailable(p.queue[0]) {
      StopKeepsInv(latest, p, flush);
    } else {
      TailKeepsCurrent(p.queue, latest);
      PreparedOk(p, p.queue[0]);
      TakeKeepsSettling(latest, p, flush);
    }
  }

  lemma SendNextKeepsInv(latest: map<Key, Event>, p: Publisher)
    requires PubInv(latest, p) && Enabled(p, latest, SendNext)
    ensures PubInv(latest, AfterSendNext(p))
  {
    assert Sane(Rest(p)[0]);
    PreparedOk(p, Rest(p)[0]);
    if p.phase.Replaying? {
      SendNextKeepsSettling(p, latest, p.lost);
    } else {
      SendNextKeepsSettling(p, p.phase.goal, {});
    }
  }

  lemma AcknowledgeKeepsBasics(latest: map<Key, Event>, p: Publisher)
    requires BasicInv(latest, p) && p.sending.Some?
    ensures BasicInv(latest, AfterAcknowledge(p))
  {
    hide SaneLatest, LastOf, Sane, QueueIsCurrent, Prepare, Deliver;
  }

  lemma AcknowledgeKeepsInv(latest: map<Key, Event>, p: Publisher)
    requires PubInv(latest, p) && Enabled(p, latest, Acknowledge)
    ensures PubInv(latest, AfterAcknowledge(p))
  {
    hide SaneLatest, LastOf, Sane, QueueIsCurrent, Settles, Prepare;
    AcknowledgeKeepsBasics(latest, p);
    hide BasicInv;
    match p.phase {
      case Replaying(_) => AcknowledgeKeepsSettling(p, latest, p.lost);
      case Draining => AcknowledgeKeepsSettling(p, latest, p.lost);
      case Flushing(_, goal) => AcknowledgeKeepsSettling(p, goal, {});
      case Closing(goal) => AcknowledgeKeepsSettling(p, goal, {});
      case _ =>
    }
  }

  /** An empty list, or a service message in flight, leaves what is settled as it is. */
  lemma SamePendingSettles(p: Publisher, q: Publisher, goal: map<Key, Event>, except: set<Key>)
    requires Settles(p, goal, except) && q.base == p.base && q.broker == p.broker && Pending(q) == Pending(p)
    ensures Settles(q, goal, except)
  {
    forall k | k in goal && k.kind != ServiceAvailability && k !in except
      ensures Settled(q, k) == Some(goal[k])
    {
      assert Held(q, k) == Held(p, k);
    }
  }

  lemma FinishKeepsPending(p: Publisher)
    requires p.sending.None? && (p.phase.Replaying? || p.phase.Flushing?) && Rest(p) == []
    ensures Pending(AfterFinishList(p)) == Pending(p) && InFlight(AfterFinishList(p)) == []
  {
  }

  lemma FinishKeepsBasics(latest: map<Key, Event>, p: Publisher)
    requires BasicInv(latest, p) && Enabled(p, latest, FinishList)
    ensures BasicInv(latest, AfterFinishList(p))
  {
    hide SaneLatest, Sane, Prepare;
  }

  lemma FinishListKeepsInv(latest: map<Key, Event>, p: Publisher)
    requires PubInv(latest, p) && Enabled(p, latest, FinishList)
    ensures PubInv(latest, AfterFinishList(p))
  {
    hide BasicInv, SaneLatest, Settles;
    var q := AfterFinishList(p);
    FinishKeepsBasics(latest, p);
    FinishKeepsPending(p);
    match p.phase {
      case Flushing(_, goal) => SamePendingSettles(p, q, goal, {});
      case _ => SamePendingSettles(p, q, latest, p.lost);
    }
  }

  lemma BeatKeepsInv(latest: map<Key, Event>, p: Publisher)
    requires PubInv(latest, p) && Enabled(p, latest, Beat)
    ensures PubInv(latest, Next(p, latest, Beat))
  {
    var q := Next(p, latest, Beat);
    assert Pending(q) == Pending(p);
    SamePendingSettles(p, q, latest, p.lost);
  }

  /** Whether or not the farewell arrived, the device topics are left as the final replay settled them. */
  lemma SuppressKeepsInv(latest: map<Key, Event>, p: Publisher, applied: bool)
    requires PubInv(latest, p) && Enabled(p, latest, Suppress(applied))
    ensures PubInv(latest, AfterSuppress(p, applied))
  {
    hide SaneLatest, Sane, Settles;
    if applied {
      AcknowledgeKeepsInv(latest, p);
    } else {
      assert Pending(AfterSuppress(p, false)) == Pending(p);
      SamePendingSettles(p, AfterSuppress(p, false), p.phase.told, {});
    }
  }

  lemma NextKeepsInv(latest: map<Key, Event>, p: Publisher, step: Step)
    requires PubInv(latest, p) && Enabled(p, latest, step)
    ensures PubInv(latest, Next(p, latest, step))
  {
    match step {
      case Connect =>
      case Acknowledge => AcknowledgeKeepsInv(latest, p);
      case TakeSnapshot(replay) =>
        SnapshotSettles(p, latest, replay);
        SnapshotSettles(p.(lost := {}), latest, replay);
        ReplayIsSane(replay, latest);
      case SendNext => SendNextKeepsInv(latest, p);
      case FinishList => FinishListKeepsInv(latest, p);
      case TakeEvent(flush) => TakeKeepsInv(latest, p, flush);
      case Beat => BeatKeepsInv(latest, p);
      case Suppress(applied) => SuppressKeepsInv(latest, p, applied);
      case Fail(_, _) =>
    }
  }

  // ---------- Convergence ----------

  /** The broker retains the remembered event of every device key outside `except`. */
  ghost predicate BrokerHolds(p: Publisher, latest: map<Key, Event>, except: set<Key>) {
    forall k :: k in latest && k.kind != ServiceAvailability && k !in except ==> Held(p, k) == Some(latest[k])
  }

  /**
   Once the queue is empty the broker holds the remembered event of every device key, except
   keys whose newest event was dropped; when nothing overflowed there is no exception.
   */
  lemma CaughtUpBrokerHolds(latest: map<Key, Event>, p: Publisher)
    requires PubInv(latest, p) && CaughtUp(p)
    ensures BrokerHolds(p, latest, p.lost)
    ensures !p.overflowed ==> BrokerHolds(p, latest, {})
  {
    forall k | k in latest && k.kind != ServiceAvailability && k !in p.lost
      ensures Held(p, k) == Some(latest[k])
    {
      assert Pending(p) == [];
      assert Settled(p, k) == Some(latest[k]);
    }
  }
}
