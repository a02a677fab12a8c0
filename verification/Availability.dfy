/**
 What the broker shows of the service itself: available for as long as a session serves, and
 unavailable once it has said farewell.
 */
module ServiceStatus {
  import opened Basics
  import opened Events
  import opened Topics
  import opened Pipeline
  import R = Runs
  import P = Publishers

  function StatusTopic(base: string): string {
    Strip(base) + "/v1/service/availability"
  }

  /** The publisher's own announcement, or an event that does not say that the service stops. */
  predicate SaysAvailable(m: P.Message) {
    match m
    case ServiceMessage(available, sequence) => available && sequence == 1
    case EventMessage(e) => e.kind == ServiceAvailability && (e.data.Available? ==> e.data.available)
  }

  predicate ShownAvailable(p: P.Publisher) {
    StatusTopic(p.base) in p.broker && SaysAvailable(p.broker[StatusTopic(p.base)])
  }

  predicate ShownUnavailable(p: P.Publisher) {
    StatusTopic(p.base) in p.broker && p.broker[StatusTopic(p.base)] == P.ServiceMessage(false, 2)
  }

  /** What is being sent does not take the availability back. */
  predicate KeepsAvailable(p: P.Publisher) {
    p.sending.Some? && p.sending.value.topic == StatusTopic(p.base) ==> SaysAvailable(p.sending.value.message)
  }

  predicate Announces(p: P.Publisher, available: bool) {
    p.sending == Some(P.Outgoing(StatusTopic(p.base), P.ServiceMessage(available, if available then 1 else 2), true))
  }

  ghost predicate StatusOk(p: P.Publisher) {
    match p.phase
    case Offline => p.sending == None
    case Announcing => if p.sending.Some? then Announces(p, true) else ShownAvailable(p)
    case Replaying(_) => ShownAvailable(p) && KeepsAvailable(p)
    case Draining => ShownAvailable(p) && KeepsAvailable(p)
    case Flushing(_, _) => ShownAvailable(p) && KeepsAvailable(p)
    case Closing(_) => Announces(p, false)
    case Stopped(_, said) => p.sending == None && (said ==> ShownUnavailable(p))
  }

  lemma TopicsOfService(base: string)
    ensures ServiceTopic(base) == StatusTopic(base)
  {
    DocumentedTopics(base, "");
  }

  /** Nothing that is sent for an event says that the service is unavailable, unless the event does. */
  lemma PreparedKeeps(p: P.Publisher, e: Event)
    requires P.Sane(e) && !P.SaysUnavailable(e)
    ensures KeepsAvailable(p.(sending := P.Prepare(p, e)))
  {
    hide TopicFor, ServiceTopic, Strip, DeviceKey, StatusTopic;
    TopicsOfService(p.base);
    if e.kind != ServiceAvailability && !Administrative(e.kind) {
      ServiceTopicIsApart(p.base, KeyOf(e));
    }
  }

  lemma DeliveredKeeps(p: P.Publisher)
    requires p.sending.Some? && ShownAvailable(p) && KeepsAvailable(p)
    ensures ShownAvailable(p.(broker := P.Deliver(p.broker, p.sending.value)))
  {
  }

  lemma AcknowledgedKeeps(p: P.Publisher)
    requires p.sending.Some? && StatusOk(p)
    ensures StatusOk(P.AfterAcknowledge(p))
  {
    hide StatusTopic;
    if p.phase.Replaying? || p.phase.Draining? || p.phase.Flushing? {
      DeliveredKeeps(p);
    }
  }

  lemma NextKeepsStatus(p: P.Publisher, latest: map<Key, Event>, step: P.Step)
    requires P.PubInv(latest, p) && P.Enabled(p, latest, step) && StatusOk(p)
    ensures StatusOk(P.Next(p, latest, step))
  {
    hide StatusTopic, ServiceTopic, P.Prepare, P.PhaseInv, P.SaneLatest, P.QueueIsCurrent, P.SendingOk, P.Sane, Replays;
    TopicsOfService(p.base);
    match step {
      case Acknowledge => AcknowledgedKeeps(p);
      case SendNext =>
        var e := P.Rest(p)[0];
        if e.kind != ServiceAvailability {
          PreparedKeeps(p, e);
        }
      case TakeEvent(_) =>
        if !P.SaysUnavailable(p.queue[0]) {
          PreparedKeeps(p, p.queue[0]);
        }
      case _ =>
    }
  }

  lemma {:induction false} HearAllKeepsStatus(p: P.Publisher, entries: seq<Entry>)
    requires p.capacity >= 1 && StatusOk(p)
    ensures StatusOk(P.HearAll(p, entries))
    decreases |entries|
  {
    if |entries| > 0 {
      HearAllKeepsStatus(p, entries[..|entries| - 1]);
    }
  }

  lemma InvHasCapacity(s: Sys)
    requires Inv(s)
    ensures s.publisher.capacity >= 1
  {
  }

  lemma StepKeepsStatus(s: Sys, step: Step)
    requires Inv(s) && Enabled(s, step) && s.publisher.capacity >= 1 && StatusOk(s.publisher)
    ensures StatusOk(Next(s, step).publisher)
  {
    hide StatusOk, Inv, P.PubInv, P.HearAll, P.Next, R.Next, R.Enabled, SaneStep, P.Enabled;
    match step {
      case TelemetryStep(t) =>
        R.NextContinues(s.machine, t);
        HearAllKeepsStatus(s.publisher, R.Next(s.machine, t).tel.log[|s.machine.tel.log|..]);
      case PublisherStep(p) =>
        InvOfPublisher(s);
        NextKeepsStatus(s.publisher, s.machine.tel.latest, p);
    }
  }

  lemma InvOfPublisher(s: Sys)
    requires Inv(s)
    ensures P.PubInv(s.machine.tel.latest, s.publisher)
  {
  }

  lemma {:induction false} RunKeepsStatus(s: Sys, steps: seq<Step>)
    requires Inv(s) && s.publisher.capacity >= 1 && StatusOk(s.publisher) && Runs(s, steps)
    ensures StatusOk(After(s, steps).publisher)
    decreases |steps|
  {
    hide Inv, StatusOk, Next, Enabled;
    if |steps| > 0 {
      StepKeepsStatus(s, steps[0]);
      NextInv(s, steps[0]);
      RunKeepsStatus(Next(s, steps[0]), steps[1..]);
    }
  }

  /** A session that was announced and has not begun its farewell. */
  predicate Serving(p: P.Publisher) {
    || p.phase.Replaying? || p.phase.Draining? || p.phase.Flushing?
    || (p.phase.Announcing? && p.sending == None)
  }

  /**
   In every run of the whole: while a session serves the broker shows the service as available,
   whatever is replayed or published, and once a farewell was said it shows it as unavailable.
   */
  lemma ServiceShownWhileServing(s: Sys, steps: seq<Step>)
    requires Start(s) && Runs(s, steps)
    ensures var p := After(s, steps).publisher;
            && (Serving(p) ==> ShownAvailable(p))
            && (p.phase.Stopped? && p.phase.said ==> ShownUnavailable(p))
  {
    hide Inv, Runs, After;
    StartInv(s);
    RunKeepsStatus(s, steps);
  }

  /**
   A session that fails leaves nothing half sent, and the service as unavailable if the farewell
   or the last will got through.
   */
  lemma FailureShowsUnavailable(p: P.Publisher, latest: map<Key, Event>, applied: bool, farewell: bool)
    requires P.Enabled(p, latest, P.Fail(applied, farewell))
    ensures var q := P.Next(p, latest, P.Fail(applied, farewell));
            && q.phase.Offline? && q.sending == None && q.queue == []
            && (farewell ==> ShownUnavailable(q))
  {
    TopicsOfService(p.base);
  }

  /** A farewell that fails ends the publisher all the same, and is shown if it got through. */
  lemma SuppressedFarewellStops(p: P.Publisher, latest: map<Key, Event>, applied: bool)
    requires P.Enabled(p, latest, P.Suppress(applied)) && StatusOk(p)
    ensures var q := P.Next(p, latest, P.Suppress(applied));
            && q.phase == P.Stopped(p.phase.told, applied) && q.sending == None
            && (applied ==> ShownUnavailable(q)) && (!applied ==> q.broker == p.broker)
  {
  }

  /** A session ends itself exactly for the event that the service is unavailable; any other is published. */
  lemma StopsExactlyWhenAnnounced(p: P.Publisher, latest: map<Key, Event>, flush: seq<Event>)
    requires P.Enabled(p, latest, P.TakeEvent(flush))
    ensures var e := p.queue[0];
            var stops := e.kind == ServiceAvailability && e.data.Available? && !e.data.available;
            var q := P.Next(p, latest, P.TakeEvent(flush));
            && q.queue == p.queue[1..]
            && (stops ==> q.phase == P.Flushing(flush, latest) && q.sending == None)
            && (!stops ==> q.phase.Draining? && q.sending == P.Prepare(p, e))
  {
  }

  /** The heartbeat of a waiting session can come due in the very turn in which an event is queued. */
  lemma HeartbeatMayRace(p: P.Publisher, latest: map<Key, Event>, e: Event)
    requires p.capacity >= 1 && P.CaughtUp(p)
    ensures P.Enabled(P.Enqueue(p, e), latest, P.Beat) && P.Enqueue(p, e).queue == [e]
  {
  }

  /** A key is lost exactly when its event was dropped and none of it is left in the queue. */
  lemma LostExactly(queue: seq<Event>, e: Event, capacity: nat, k: Key)
    requires 1 <= capacity
    ensures k in P.LostBy(queue, e, capacity) <==>
            && |queue| >= capacity && KeyOf(queue[0]) == k && KeyOf(e) != k
            && forall i :: 1 <= i < |queue| ==> KeyOf(queue[i]) != k
  {
    if |queue| >= capacity {
      NoneOfKey(queue[1..] + [e], k);
      assert forall i :: 1 <= i < |queue| ==> queue[i] == (queue[1..] + [e])[i - 1];
      assert (queue[1..] + [e])[|queue| - 1] == e;
    }
  }

  lemma {:induction false} NoneOfKey(events: seq<Event>, k: Key)
    ensures P.LastOf(events, k).None? <==> forall i :: 0 <= i < |events| ==> KeyOf(events[i]) != k
    decreases |events|
  {
    if |events| > 0 {
      NoneOfKey(events[..|events| - 1], k);
    }
  }
}
