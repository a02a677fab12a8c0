/**
 What the broker says of devices the bus has forgotten. Nothing ever clears a retained topic,
 so this module accounts for every topic, whether or not its key is still remembered.
 */
module Removals {
  import opened Basics
  import opened Events
  import opened Topics
  import opened Publishers

  // ---------- Where a retained message comes from ----------

  ghost predicate Spoken(log: seq<Entry>, e: Event) {
    exists i :: 0 <= i < |log| && log[i] == Published(e)
  }

  /** The device of an event was forgotten after the event was published. */
  ghost predicate ForgottenSince(log: seq<Entry>, e: Event) {
    exists i, j :: 0 <= i < j < |log| && log[i] == Published(e) && e.device.Some? && log[j] == Forgotten(e.device.value)
  }

  /** A message of this publisher: about the service, or a retained event of the bus on its topic. */
  ghost predicate Own(base: string, topic: string, m: Message, log: seq<Entry>) {
    match m
    case ServiceMessage(_, _) => topic == ServiceTopic(base)
    case EventMessage(e) =>
      Spoken(log, e) && TopicFor(base, KeyOf(e)) == Ok(topic) && IsRetained(e.kind) && !Administrative(e.kind)
  }

  ghost predicate Inherited(topic: string, m: Message, before: map<string, Message>) {
    topic in before && before[topic] == m
  }

  ghost predicate AllSpoken(log: seq<Entry>, events: seq<Event>) {
    forall i :: 0 <= i < |events| ==> Spoken(log, events[i])
  }

  /** Every topic has its message from the bus or from before, and so has everything on its way. */
  ghost predicate Traced(p: Publisher, before: map<string, Message>, log: seq<Entry>) {
    && (forall topic :: topic in p.broker ==>
          Inherited(topic, p.broker[topic], before) || Own(p.base, topic, p.broker[topic], log))
    && (p.sending.Some? && p.sending.value.retain ==> Own(p.base, p.sending.value.topic, p.sending.value.message, log))
    && AllSpoken(log, Rest(p)) && AllSpoken(log, p.queue)
  }

  lemma SpokenStays(log: seq<Entry>, entries: seq<Entry>, e: Event)
    requires Spoken(log, e)
    ensures Spoken(log + entries, e)
  {
    var i :| 0 <= i < |log| && log[i] == Published(e);
    assert (log + entries)[i] == Published(e);
  }

  lemma OwnStays(base: string, topic: string, m: Message, log: seq<Entry>, entries: seq<Entry>)
    requires Own(base, topic, m, log)
    ensures Own(base, topic, m, log + entries)
  {
    if m.EventMessage? {
      SpokenStays(log, entries, m.event);
    }
  }

  lemma AllSpokenStays(log: seq<Entry>, entries: seq<Entry>, events: seq<Event>)
    requires AllSpoken(log, events)
    ensures AllSpoken(log + entries, events)
  {
    forall i | 0 <= i < |events| ensures Spoken(log + entries, events[i]) {
      SpokenStays(log, entries, events[i]);
    }
  }

  lemma TracedStays(p: Publisher, before: map<string, Message>, log: seq<Entry>, entries: seq<Entry>)
    requires Traced(p, before, log)
    ensures Traced(p, before, log + entries)
  {
    forall topic | topic in p.broker
      ensures Inherited(topic, p.broker[topic], before) || Own(p.base, topic, p.broker[topic], log + entries)
    {
      if !Inherited(topic, p.broker[topic], before) {
        OwnStays(p.base, topic, p.broker[topic], log, entries);
      }
    }
    if p.sending.Some? && p.sending.value.retain {
      OwnStays(p.base, p.sending.value.topic, p.sending.value.message, log, entries);
    }
    AllSpokenStays(log, entries, Rest(p));
    AllSpokenStays(log, entries, p.queue);
  }

  lemma OfferSpoken(queue: seq<Event>, e: Event, capacity: nat, log: seq<Entry>)
    requires capacity >= 1 && AllSpoken(log, queue) && Spoken(log, e)
    ensures AllSpoken(log, Offer(queue, e, capacity))
  {
    var r := Offer(queue, e, capacity);
    forall i | 0 <= i < |r| ensures Spoken(log, r[i]) {
      assert r[i] == e || r[i] in queue;
    }
  }

  lemma HearTraced(p: Publisher, before: map<string, Message>, log: seq<Entry>, x: Entry)
    requires p.capacity >= 1 && Traced(p, before, log)
    ensures Traced(Hear(p, x), before, log + [x])
  {
    TracedStays(p, before, log, [x]);
    if x.Published? && Subscribed(p) {
      assert (log + [x])[|log|] == x;
      OfferSpoken(p.queue, x.event, p.capacity, log + [x]);
    }
  }

  lemma {:induction false} HearAllTraced(p: Publisher, before: map<string, Message>, log: seq<Entry>, entries: seq<Entry>)
    requires p.capacity >= 1 && Traced(p, before, log)
    ensures Traced(HearAll(p, entries), before, log + entries)
    decreases |entries|
  {
    if |entries| == 0 {
      assert log + entries == log;
    } else {
      var n := |entries| - 1;
      HearAllTraced(p, before, log, entries[..n]);
      HearTraced(HearAll(p, entries[..n]), before, log + entries[..n], entries[n]);
      assert (log + entries[..n]) + [entries[n]] == log + entries;
    }
  }

  lemma {:induction false} RememberedIsSpoken(log: seq<Entry>, k: Key)
    requires k in Latest(log)
    ensures Spoken(log, Latest(log)[k])
    decreases |log|
  {
    var n := |log| - 1;
    if log[n].Published? && Remembered(log[n].event.kind) && KeyOf(log[n].event) == k {
    } else {
      RememberedIsSpoken(log[..n], k);
      SpokenStays(log[..n], [log[n]], Latest(log)[k]);
      assert log[..n] + [log[n]] == log;
    }
  }

  lemma ReplaySpoken(replay: seq<Event>, log: seq<Entry>)
    requires Replays(replay, Latest(log))
    ensures AllSpoken(log, replay)
  {
    forall i | 0 <= i < |replay| ensures Spoken(log, replay[i]) {
      RememberedIsSpoken(log, KeyOf(replay[i]));
    }
  }

  lemma DeliverTraced(p: Publisher, before: map<string, Message>, log: seq<Entry>, o: Outgoing)
    requires Traced(p, before, log) && (o.retain ==> Own(p.base, o.topic, o.message, log))
    ensures forall topic :: topic in Deliver(p.broker, o) ==>
              Inherited(topic, Deliver(p.broker, o)[topic], before)
              || Own(p.base, topic, Deliver(p.broker, o)[topic], log)
  {
  }

  lemma PreparedIsOwn(p: Publisher, e: Event, log: seq<Entry>)
    requires Spoken(log, e)
    ensures var o := Prepare(p, e);
            o.Some? && o.value.retain ==> Own(p.base, o.value.topic, o.value.message, log)
  {
  }

  lemma SnapshotTraced(p: Publisher, before: map<string, Message>, log: seq<Entry>, replay: seq<Event>)
    requires Traced(p, before, log) && Enabled(p, Latest(log), TakeSnapshot(replay))
    ensures Traced(Next(p, Latest(log), TakeSnapshot(replay)), before, log)
  {
    hide Own, Inherited, Spoken, Latest, Replays;
    ReplaySpoken(replay, log);
  }

  lemma AllSpokenTail(log: seq<Entry>, events: seq<Event>)
    requires AllSpoken(log, events) && events != []
    ensures Spoken(log, events[0]) && AllSpoken(log, events[1..])
  {
  }

  lemma SendNextParts(p: Publisher)
    requires p.sending.None? && Rest(p) != []
    ensures var q := AfterSendNext(p);
            && q.base == p.base && q.broker == p.broker && q.queue == p.queue && Rest(q) == Rest(p)[1..]
            && (q.sending == None || q.sending == Prepare(p, Rest(p)[0]))
  {
    hide Prepare;
  }

  lemma SendNextTraced(p: Publisher, before: map<string, Message>, log: seq<Entry>)
    requires Traced(p, before, log) && Enabled(p, Latest(log), SendNext)
    ensures Traced(AfterSendNext(p), before, log)
  {
    hide Own, Inherited, Spoken, Latest, Prepare, AllSpoken, AfterSendNext, Rest;
    SendNextParts(p);
    AllSpokenTail(log, Rest(p));
    PreparedIsOwn(p, Rest(p)[0], log);
  }

  lemma TakeTraced(p: Publisher, before: map<string, Message>, log: seq<Entry>, flush: seq<Event>)
    requires Traced(p, before, log) && Enabled(p, Latest(log), TakeEvent(flush))
    ensures Traced(AfterTake(p, Latest(log), flush), before, log)
  {
    hide Own, Inherited, Spoken, Latest, Prepare, Replays;
    if SaysUnavailable(p.queue[0]) {
      ReplaySpoken(flush, log);
    } else {
      PreparedIsOwn(p, p.queue[0], log);
    }
  }

  lemma AcknowledgeTraced(p: Publisher, before: map<string, Message>, log: seq<Entry>)
    requires Traced(p, before, log) && p.sending.Some?
    ensures Traced(AfterAcknowledge(p), before, log)
  {
    hide Own, Inherited, Spoken, Deliver;
    DeliverTraced(p, before, log, p.sending.value);
  }

  lemma NothingSpoken(log: seq<Entry>)
    ensures AllSpoken(log, [])
  {
  }

  /** Messages about the service need no event, and less on the way leaves less to account for. */
  lemma ServiceStepTraced(p: Publisher, q: Publisher, before: map<string, Message>, log: seq<Entry>)
    requires Traced(p, before, log) && q.base == p.base && q.broker == p.broker && Rest(q) == []
    requires q.queue == p.queue || q.queue == []
    requires q.sending == None || (q.sending.value.message.ServiceMessage? && q.sending.value.topic == ServiceTopic(p.base))
    ensures Traced(q, before, log)
  {
    hide Inherited, Spoken, AllSpoken, TopicFor, ServiceTopic, Rest;
    NothingSpoken(log);
  }

  lemma OtherStepTraced(p: Publisher, before: map<string, Message>, log: seq<Entry>, step: Step)
    requires Traced(p, before, log) && Enabled(p, Latest(log), step)
    requires step.Connect? || step.FinishList? || step.Beat?
    ensures Traced(Next(p, Latest(log), step), before, log)
  {
    hide Traced, Latest, ServiceTopic;
    ServiceStepTraced(p, Next(p, Latest(log), step), before, log);
  }

  lemma SuppressTraced(p: Publisher, before: map<string, Message>, log: seq<Entry>, applied: bool)
    requires Traced(p, before, log) && Enabled(p, Latest(log), Suppress(applied))
    ensures Traced(AfterSuppress(p, applied), before, log)
  {
    hide Own, Inherited, Spoken, Deliver, Latest;
    if applied {
      DeliverTraced(p, before, log, p.sending.value);
    }
  }

  lemma NextTraced(p: Publisher, before: map<string, Message>, log: seq<Entry>, step: Step)
    requires Traced(p, before, log) && Enabled(p, Latest(log), step)
    ensures Traced(Next(p, Latest(log), step), before, log)
  {
    hide Traced, Latest, Replays;
    match step {
      case Acknowledge => AcknowledgeTraced(p, before, log);
      case TakeSnapshot(replay) => SnapshotTraced(p, before, log, replay);
      case SendNext => SendNextTraced(p, before, log);
      case TakeEvent(flush) => TakeTraced(p, before, log, flush);
      case Suppress(applied) => SuppressTraced(p, before, log, applied);
      case Fail(applied, farewell) => FailTraced(p, before, log, applied, farewell);
      case _ => OtherStepTraced(p, before, log, step);
    }
  }

  lemma FailTraced(p: Publisher, before: map<string, Message>, log: seq<Entry>, applied: bool, farewell: bool)
    requires Traced(p, before, log)
    ensures Traced(AfterFail(p, applied, farewell), before, log)
  {
    hide Own, Inherited, Deliver, AllSpoken;
    NothingSpoken(log);
    ServiceIsOwn(p, log);
    var q := p;
    if applied && p.sending.Some? {
      DeliverTraced(p, before, log, p.sending.value);
      q := p.(broker := Deliver(p.broker, p.sending.value));
    }
    DeliverTraced(q, before, log, Service(p, false).value);
  }

  lemma ServiceIsOwn(p: Publisher, log: seq<Entry>)
    ensures Own(p.base, Service(p, false).value.topic, Service(p, false).value.message, log)
  {
  }

  // ---------- Forgotten keys ----------

  /** An event of a remembered kind whose key is no longer remembered belongs to a device forgotten since. */
  lemma {:induction false} NotRememberedIsForgotten(log: seq<Entry>, e: Event)
    requires Spoken(log, e) && Remembered(e.kind) && KeyOf(e) !in Latest(log)
    ensures ForgottenSince(log, e)
    decreases |log|
  {
    var n := |log| - 1;
    var i :| 0 <= i < |log| && log[i] == Published(e);
    assert i < n;
    if log[n].Forgotten? && e.device == Some(log[n].device) {
    } else {
      assert log[..n][i] == Published(e);
      NotRememberedIsForgotten(log[..n], e);
      var a, b :| 0 <= a < b < n && log[..n][a] == Published(e) && e.device.Some? && log[..n][b] == Forgotten(e.device.value);
      assert log[a] == Published(e) && log[b] == Forgotten(e.device.value);
    }
  }

  /**
   Every device topic holds the remembered event of its key, or an event of a device that was
   forgotten since, or was there before the publisher ever connected.
   */
  ghost predicate Accounted(p: Publisher, before: map<string, Message>, log: seq<Entry>) {
    forall topic :: topic in p.broker && topic != ServiceTopic(p.base) ==>
      || Inherited(topic, p.broker[topic], before)
      || (p.broker[topic].EventMessage?
          && var e := p.broker[topic].event;
             TopicFor(p.base, KeyOf(e)) == Ok(topic)
             && if KeyOf(e) in Latest(log) then Latest(log)[KeyOf(e)] == e else ForgottenSince(log, e))
  }

  lemma EveryTopicIsAccountedFor(p: Publisher, before: map<string, Message>, log: seq<Entry>)
    requires Traced(p, before, log) && SaneLog(log) && BrokerHolds(p, Latest(log), {})
    ensures Accounted(p, before, log)
  {
    forall topic | topic in p.broker && topic != ServiceTopic(p.base) && !Inherited(topic, p.broker[topic], before)
      ensures p.broker[topic].EventMessage?
              && var e := p.broker[topic].event;
                 TopicFor(p.base, KeyOf(e)) == Ok(topic)
                 && if KeyOf(e) in Latest(log) then Latest(log)[KeyOf(e)] == e else ForgottenSince(log, e)
    {
      var e := p.broker[topic].event;
      assert Own(p.base, topic, p.broker[topic], log);
      assert Spoken(log, e);
      if KeyOf(e) in Latest(log) {
        assert e.kind != ServiceAvailability;
        assert Held(p, KeyOf(e)) == Some(e);
      } else {
        NotRememberedIsForgotten(log, e);
      }
    }
  }

  // ---------- What a session tells the broker ----------

  predicate RememberedKey(k: Key) {
    DeviceKey(k) && Remembered(k.kind)
  }

  /** The last event this session heard under a key, or else what it found at the broker. */
  function Expected(p: Publisher, k: Key): Option<Event> {
    if k in p.heard then Some(p.heard[k]) else HeldIn(p.base, p.inherited, k)
  }

  /** The final replay tells what is remembered; keys that are not remembered stay as they were. */
  function Farewell(p: Publisher, goal: map<Key, Event>, k: Key): Option<Event> {
    if k in goal then Some(goal[k]) else Expected(p, k)
  }

  /** Before the replay list is taken, the queue is all the session heard. */
  predicate ToldAtFirst(p: Publisher, k: Key) {
    && Held(p, k) == HeldIn(p.base, p.inherited, k)
    && LastOf(p.queue, k) == if k in p.heard then Some(p.heard[k]) else None
  }

  predicate ToldUnder(p: Publisher, k: Key) {
    match p.phase
    case Offline => true
    case Announcing => ToldAtFirst(p, k)
    case Replaying(_) => Settled(p, k) == Expected(p, k)
    case Draining => Settled(p, k) == Expected(p, k)
    case Flushing(_, goal) => Settled(p, k) == Farewell(p, goal, k)
    case Closing(goal) => Settled(p, k) == Farewell(p, goal, k)
    case Stopped(goal, _) => Settled(p, k) == Farewell(p, goal, k)
  }

  /**
   Unless its queue overflowed, what a session leaves at the broker under a key is the last
   event it heard under that key, and what was there before when it heard none.
   */
  ghost predicate Told(p: Publisher) {
    !p.overflowed ==> forall k :: RememberedKey(k) ==> ToldUnder(p, k)
  }

  /** A session with room in its queue hears the event at the end of it. */
  lemma EnqueueMoves(p: Publisher, e: Event, k: Key)
    requires p.capacity >= 1 && |p.queue| < p.capacity && Subscribed(p)
    ensures var r := Enqueue(p, e);
            && r.phase == p.phase && r.queue == p.queue + [e] && InFlight(r) + Rest(r) == InFlight(p) + Rest(p)
            && Held(r, k) == Held(p, k) && HeldIn(r.base, r.inherited, k) == HeldIn(p.base, p.inherited, k)
            && Subscribed(r)
  {
  }

  lemma EnqueueHeard(p: Publisher, e: Event, k: Key)
    requires p.capacity >= 1 && Subscribed(p) && Remembered(k.kind)
    ensures var r := Enqueue(p, e);
            && (!p.phase.Flushing? && KeyOf(e) == k ==> k in r.heard && r.heard[k] == e)
            && (p.phase.Flushing? || KeyOf(e) != k ==> (k in r.heard <==> k in p.heard)
                                                       && (k in p.heard ==> r.heard[k] == p.heard[k]))
  {
  }

  lemma EnqueueTells(p: Publisher, e: Event, k: Key)
    requires p.capacity >= 1 && |p.queue| < p.capacity && RememberedKey(k) && ToldUnder(p, k)
    ensures ToldUnder(Enqueue(p, e), k)
  {
    hide DeviceKey, Enqueue, HeldIn, Held, InFlight, Rest, LastOf, Pending;
    if Subscribed(p) {
      EnqueueMoves(p, e, k);
      EnqueueHeard(p, e, k);
      LastOfAppend(p.queue, [e], k);
      LastOfOne(e, k);
      PendingLast(p, k);
      PendingLast(Enqueue(p, e), k);
    } else {
      UnsubscribedHearsNothing(p, e);
    }
  }

  lemma UnsubscribedHearsNothing(p: Publisher, e: Event)
    requires p.capacity >= 1 && !Subscribed(p)
    ensures Enqueue(p, e) == p
  {
  }

  lemma FullQueueOverflows(p: Publisher, e: Event)
    requires p.capacity >= 1 && Subscribed(p) && !Enqueue(p, e).overflowed
    ensures !p.overflowed && |p.queue| < p.capacity
  {
  }

  lemma HearTells(p: Publisher, x: Entry)
    requires p.capacity >= 1 && Told(p)
    ensures Told(Hear(p, x))
  {
    hide ToldUnder, RememberedKey;
    if x.Published? && Subscribed(p) && !Enqueue(p, x.event).overflowed {
      FullQueueOverflows(p, x.event);
      forall k | RememberedKey(k) ensures ToldUnder(Enqueue(p, x.event), k) {
        EnqueueTells(p, x.event, k);
      }
    }
  }

  lemma {:induction false} HearAllTells(p: Publisher, entries: seq<Entry>)
    requires p.capacity >= 1 && Told(p)
    ensures Told(HearAll(p, entries))
    decreases |entries|
  {
    hide Told;
    if |entries| > 0 {
      HearAllTells(p, entries[..|entries| - 1]);
      HearTells(HearAll(p, entries[..|entries| - 1]), entries[|entries| - 1]);
    }
  }

  /** A listing of a map has an event under a key only if the map has it. */
  lemma ReplayHoldsOnlyLatest(replay: seq<Event>, latest: map<Key, Event>, k: Key)
    requires Replays(replay, latest) && SaneLatest(latest)
    ensures LastOf(replay, k) == if k in latest then Some(latest[k]) else None
  {
    LastOfIsThere(replay, k);
    if k in latest {
      ReplayHoldsLatest(replay, latest, k);
    }
  }

  lemma SnapshotTells(p: Publisher, latest: map<Key, Event>, replay: seq<Event>, k: Key)
    requires Enabled(p, latest, TakeSnapshot(replay)) && SaneLatest(latest) && ToldUnder(p, k)
    ensures ToldUnder(Next(p, latest, TakeSnapshot(replay)), k)
  {
    hide SaneLatest, Replays, LastOf;
    var q := Next(p, latest, TakeSnapshot(replay));
    PendingLast(q, k);
    assert InFlight(q) + Rest(q) == replay;
    ReplayHoldsOnlyLatest(replay, latest, k);
    assert Held(q, k) == Held(p, k);
  }

  lemma AcknowledgeTells(p: Publisher, k: Key)
    requires p.sending.Some? && SendingOk(p) && RememberedKey(k) && ToldUnder(p, k)
    requires p.phase.Announcing? ==> InFlight(p) == []
    ensures ToldUnder(AfterAcknowledge(p), k)
  {
    hide SendingOk, DeviceKey, Deliver, LastOf;
    var q := AfterAcknowledge(p);
    if p.phase.Announcing? {
      HeldAfterDelivery(p, k);
      LastOfIsThere(InFlight(p), k);
    } else {
      AcknowledgeSettles(p, k);
    }
  }

  lemma SendNextTells(p: Publisher, k: Key)
    requires p.sending.None? && Rest(p) != [] && Sane(Rest(p)[0]) && RememberedKey(k) && ToldUnder(p, k)
    ensures ToldUnder(AfterSendNext(p), k)
  {
    hide Sane, DeviceKey, Settled;
    SendNextSettles(p, k);
  }

  lemma SamePendingTells(p: Publisher, q: Publisher, k: Key)
    requires q.base == p.base && q.broker == p.broker && Pending(q) == Pending(p)
    ensures Settled(q, k) == Settled(p, k)
  {
    assert Held(q, k) == Held(p, k);
  }

  lemma FinishListTells(p: Publisher, latest: map<Key, Event>, k: Key)
    requires Enabled(p, latest, FinishList) && ToldUnder(p, k)
    ensures ToldUnder(AfterFinishList(p), k)
  {
    hide LastOf, HeldIn;
    var q := AfterFinishList(p);
    FinishKeepsPending(p);
    SamePendingTells(p, q, k);
  }

  lemma StopMoves(p: Publisher, latest: map<Key, Event>, flush: seq<Event>, k: Key)
    requires p.phase.Draining? && p.sending.None? && |p.queue| == 1 && SaysUnavailable(p.queue[0])
    ensures var q := AfterTake(p, latest, flush);
            && Pending(p) == [p.queue[0]] && Pending(q) == flush && q.phase == Flushing(flush, latest)
            && Held(q, k) == Held(p, k) && Expected(q, k) == Expected(p, k)
  {
    hide HeldIn, Prepare;
  }

  lemma NotAboutService(k: Key, e: Event)
    requires DeviceKey(k) && SaysUnavailable(e)
    ensures KeyOf(e) != k
  {
  }

  /** Without overflow the stop event is the last one in the queue. */
  lemma StopTells(p: Publisher, latest: map<Key, Event>, flush: seq<Event>, k: Key)
    requires p.phase.Draining? && p.sending.None? && |p.queue| == 1 && SaysUnavailable(p.queue[0])
    requires Replays(flush, latest) && SaneLatest(latest) && RememberedKey(k) && ToldUnder(p, k)
    ensures ToldUnder(AfterTake(p, latest, flush), k)
  {
    hide SaneLatest, Replays, LastOf, Pending, Held, Expected, AfterTake, DeviceKey, SaysUnavailable, ToldAtFirst;
    StopMoves(p, latest, flush, k);
    NotAboutService(k, p.queue[0]);
    LastOfOne(p.queue[0], k);
    ReplayHoldsOnlyLatest(flush, latest, k);
  }

  lemma TakeTells(p: Publisher, latest: map<Key, Event>, flush: seq<Event>, k: Key)
    requires Enabled(p, latest, TakeEvent(flush)) && SaneLatest(latest) && SaneEvents(p.queue)
    requires RememberedKey(k) && ToldUnder(p, k) && !AfterTake(p, latest, flush).overflowed
    ensures ToldUnder(AfterTake(p, latest, flush), k)
  {
    hide SaneLatest, Replays, DeviceKey, Settled, LastOf, Prepare, Sane;
    assert Sane(p.queue[0]);
    if SaysUnavailable(p.queue[0]) {
      StopTells(p, latest, flush, k);
    } else {
      TakeSettles(p, latest, flush, k);
    }
  }

  lemma BeatTells(p: Publisher, latest: map<Key, Event>, k: Key)
    requires Enabled(p, latest, Beat) && ToldUnder(p, k)
    ensures ToldUnder(Next(p, latest, Beat), k)
  {
    hide LastOf;
    var q := Next(p, latest, Beat);
    assert Pending(q) == Pending(p);
    SamePendingTells(p, q, k);
  }

  lemma SuppressTells(p: Publisher, latest: map<Key, Event>, applied: bool, k: Key)
    requires PubInv(latest, p) && Enabled(p, latest, Suppress(applied)) && RememberedKey(k) && ToldUnder(p, k)
    ensures ToldUnder(AfterSuppress(p, applied), k)
  {
    hide SaneLatest, Settles, DeviceKey, LastOf, QueueIsCurrent;
    if applied {
      AcknowledgeTells(p, k);
    } else {
      assert Pending(AfterSuppress(p, false)) == Pending(p);
      SamePendingTells(p, AfterSuppress(p, false), k);
    }
  }

  lemma NextTellsUnder(p: Publisher, latest: map<Key, Event>, step: Step, k: Key)
    requires PubInv(latest, p) && Enabled(p, latest, step) && RememberedKey(k)
    requires ToldUnder(p, k) && !Next(p, latest, step).overflowed
    ensures ToldUnder(Next(p, latest, step), k)
  {
    hide SaneLatest, Replays, DeviceKey, Settled, LastOf, Prepare, Sane, Settles, QueueIsCurrent, SendingOk, RememberedKey;
    match step {
      case Connect => BeginningTells(p, latest, step, k);
      case Acknowledge => AcknowledgeTells(p, k);
      case TakeSnapshot(replay) => SnapshotTells(p, latest, replay, k);
      case SendNext => SendNextTells(p, k);
      case FinishList => FinishListTells(p, latest, k);
      case TakeEvent(flush) => TakeTells(p, latest, flush, k);
      case Beat => BeatTells(p, latest, k);
      case Suppress(applied) => SuppressTells(p, latest, applied, k);
      case Fail(_, _) =>
    }
  }

  /** Whatever happened in an earlier session, a new one starts with nothing heard. */
  lemma NextTells(p: Publisher, latest: map<Key, Event>, step: Step)
    requires PubInv(latest, p) && Enabled(p, latest, step) && Told(p)
    ensures Told(Next(p, latest, step))
  {
    hide PubInv, ToldUnder, RememberedKey, Settles;
    var q := Next(p, latest, step);
    if !q.overflowed {
      forall k | RememberedKey(k) ensures ToldUnder(q, k) {
        if step.Connect? || step.Fail? {
          BeginningTells(p, latest, step, k);
        } else {
          NextTellsUnder(p, latest, step, k);
        }
      }
    }
  }

  lemma BeginningTells(p: Publisher, latest: map<Key, Event>, step: Step, k: Key)
    requires Enabled(p, latest, step) && (step.Connect? || step.Fail?)
    ensures ToldUnder(Next(p, latest, step), k)
  {
  }

  // ---------- What a session has heard ----------

  /** What was heard under a key is what the bus published last under it. */
  ghost predicate HeardIsNewest(p: Publisher, log: seq<Entry>) {
    forall k :: k in p.heard ==> Remembered(k.kind) && LastOf(EventsOf(log), k) == Some(p.heard[k])
  }

  predicate Listening(p: Publisher) {
    p.phase.Announcing? || p.phase.Replaying? || p.phase.Draining?
  }

  lemma {:induction false} LatestIsLastPublished(log: seq<Entry>, k: Key)
    requires k in Latest(log)
    ensures Remembered(k.kind) && LastOf(EventsOf(log), k) == Some(Latest(log)[k])
    decreases |log|
  {
    var n := |log| - 1;
    assert log == log[..n] + [log[n]];
    EventsOfAppend(log[..n], log[n]);
    if log[n].Published? {
      LastOfAppend(EventsOf(log[..n]), [log[n].event], k);
      LastOfOne(log[n].event, k);
    }
    if k in Latest(log[..n]) {
      LatestIsLastPublished(log[..n], k);
    }
  }

  lemma HearKeepsNewest(p: Publisher, log: seq<Entry>, x: Entry)
    requires p.capacity >= 1 && Listening(p) && HeardIsNewest(p, log)
    ensures Listening(Hear(p, x)) && HeardIsNewest(Hear(p, x), log + [x])
  {
    hide LastOf, EventsOf;
    EventsOfAppend(log, x);
    var r := Hear(p, x);
    forall k | k in r.heard
      ensures Remembered(k.kind) && LastOf(EventsOf(log + [x]), k) == Some(r.heard[k])
    {
      if x.Published? {
        LastOfAppend(EventsOf(log), [x.event], k);
        LastOfOne(x.event, k);
      }
    }
  }

  lemma {:induction false} HearAllKeepsNewest(p: Publisher, log: seq<Entry>, entries: seq<Entry>)
    requires p.capacity >= 1 && Listening(p) && HeardIsNewest(p, log)
    ensures Listening(HearAll(p, entries)) && HeardIsNewest(HearAll(p, entries), log + entries)
    decreases |entries|
  {
    hide HeardIsNewest, Listening;
    if |entries| == 0 {
      assert log + entries == log;
    } else {
      var n := |entries| - 1;
      HearAllKeepsNewest(p, log, entries[..n]);
      HearKeepsNewest(HearAll(p, entries[..n]), log + entries[..n], entries[n]);
      assert (log + entries[..n]) + [entries[n]] == log + entries;
    }
  }

  lemma NextKeepsNewest(p: Publisher, log: seq<Entry>, step: Step)
    requires Enabled(p, Latest(log), step) && HeardIsNewest(p, log)
    ensures HeardIsNewest(Next(p, Latest(log), step), log)
  {
    hide LastOf, EventsOf, Latest, Replays;
    var q := Next(p, Latest(log), step);
    forall k | k in q.heard
      ensures Remembered(k.kind) && LastOf(EventsOf(log), k) == Some(q.heard[k])
    {
      if k !in p.heard {
        LatestIsLastPublished(log, k);
      }
    }
  }

  // ---------- At rest ----------

  /** Nothing is on its way to the broker: caught up, or stopped after a replay of what is remembered. */
  predicate AtRest(p: Publisher, latest: map<Key, Event>) {
    CaughtUp(p) || (p.phase.Stopped? && p.phase.left_ == latest)
  }

  lemma RestPending(p: Publisher, latest: map<Key, Event>)
    requires PubInv(latest, p) && AtRest(p, latest)
    ensures Pending(p) == []
  {
  }

  /** At rest and without overflow the broker has what was expected under every key not remembered. */
  lemma RestShowsExpected(p: Publisher, latest: map<Key, Event>, k: Key)
    requires PubInv(latest, p) && Told(p) && AtRest(p, latest) && !p.overflowed
    requires RememberedKey(k) && k !in latest
    ensures Held(p, k) == Expected(p, k)
  {
    hide PubInv;
    RestPending(p, latest);
    assert ToldUnder(p, k);
  }

  /** At rest the broker has everything remembered, and an overflow matters only while running. */
  lemma RestHoldsLatest(p: Publisher, latest: map<Key, Event>)
    requires PubInv(latest, p) && AtRest(p, latest) && (p.overflowed ==> p.phase.Stopped?)
    ensures BrokerHolds(p, latest, {})
  {
    if p.phase.Stopped? {
      RestPending(p, latest);
      forall k | k in latest && k.kind != ServiceAvailability ensures Held(p, k) == Some(latest[k]) {
        assert Settled(p, k) == Some(latest[k]);
      }
    } else {
      CaughtUpBrokerHolds(latest, p);
    }
  }
}
