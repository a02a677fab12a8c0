/**
 Graceful exit of the publisher. The application closes its service, publishes "service
 unavailable" as its last event and lets the publisher run on. However many events the
 queue of a slow publisher dropped before, the publisher then stops after a bounded number
 of steps, and the broker retains exactly what the bus remembers.
 */
module Shutdown {
  import opened Basics
  import opened Events
  import opened Topics
  import opened Publishers

  // ---------- Listings of a map ----------

  function KeysOf(events: seq<Event>): set<Key> {
    set i | 0 <= i < |events| :: KeyOf(events[i])
  }

  lemma {:induction false} KeysOfSize(events: seq<Event>)
    requires forall i, j :: 0 <= i < j < |events| ==> KeyOf(events[i]) != KeyOf(events[j])
    ensures |KeysOf(events)| == |events|
  {
    if |events| > 0 {
      var n := |events| - 1;
      KeysOfSize(events[..n]);
      assert KeysOf(events) == KeysOf(events[..n]) + {KeyOf(events[n])};
      assert KeyOf(events[n]) !in KeysOf(events[..n]);
    }
  }

  /** Every listing of a remembered map is as long as the map. */
  lemma ReplayLength(replay: seq<Event>, latest: map<Key, Event>)
    requires Replays(replay, latest) && SaneLatest(latest)
    ensures |replay| == |latest|
  {
    KeysOfSize(replay);
    assert KeysOf(replay) == latest.Keys by {
      forall k | k in latest
        ensures k in KeysOf(replay)
      {
        assert latest[k] in replay;
      }
    }
  }

  /** A remembered map has a listing. */
  lemma {:induction false} ListingExists(latest: map<Key, Event>) returns (replay: seq<Event>)
    requires forall k :: k in latest ==> KeyOf(latest[k]) == k
    ensures Replays(replay, latest)
    decreases |latest|
  {
    if |latest| == 0 {
      replay := [];
    } else {
      var k :| k in latest;
      var others := latest - {k};
      assert others.Keys == latest.Keys - {k};
      var rest := ListingExists(others);
      replay := rest + [latest[k]];
      forall x | x in latest
        ensures latest[x] in replay
      {
        if x != k {
          assert others[x] in rest;
        } else {
          assert replay[|rest|] == latest[k];
        }
      }
    }
  }

  // ---------- Quiet runs ----------

  /** The bus publishes nothing and no publication fails. */
  ghost predicate QuietRuns(p: Publisher, latest: map<Key, Event>, steps: seq<Step>)
    decreases |steps|
  {
    |steps| > 0 ==>
      && Enabled(p, latest, steps[0]) && !Fails(steps[0])
      && QuietRuns(Next(p, latest, steps[0]), latest, steps[1..])
  }

  ghost function QuietAfter(p: Publisher, latest: map<Key, Event>, steps: seq<Step>): Publisher
    requires QuietRuns(p, latest, steps)
    decreases |steps|
  {
    if |steps| == 0 then p else QuietAfter(Next(p, latest, steps[0]), latest, steps[1..])
  }

  /** The stop event is on its way, or the final replay of what is remembered has begun. */
  predicate FarewellComing(p: Publisher, latest: map<Key, Event>) {
    match p.phase
    case Offline => false
    case Flushing(_, goal) => goal == latest
    case Closing(goal) => goal == latest
    case Stopped(goal, said) => goal == latest && said
    case _ => p.queue != [] && SaysUnavailable(p.queue[|p.queue| - 1])
  }

  function Waiting(p: Publisher): nat {
    if p.sending.Some? then 1 else 0
  }

  /** An upper bound on the number of quiet steps that are left. */
  function Measure(p: Publisher, latest: map<Key, Event>): nat {
    match p.phase
    case Offline => 0
    case Announcing => 5 + 4 * |latest| + 2 * |p.queue| + Waiting(p)
    case Replaying(rest) => 4 + 2 * |latest| + 2 * |rest| + 2 * |p.queue| + Waiting(p)
    case Draining => 3 + 2 * |latest| + 2 * |p.queue| + Waiting(p) + if p.caught then 2 else 0
    case Flushing(left, _) => 2 + 2 * |left| + Waiting(p)
    case Closing(_) => Waiting(p)
    case Stopped(_, _) => 0
  }

  /** However full the queue is, the newest event of the bus is in it. */
  lemma NewestEventIsNeverLost(p: Publisher, e: Event)
    requires p.capacity >= 1 && Subscribed(p) && !p.phase.Flushing? && SaysUnavailable(e)
    ensures forall latest :: FarewellComing(Enqueue(p, e), latest)
  {
  }

  lemma SnapshotDescends(p: Publisher, latest: map<Key, Event>, replay: seq<Event>)
    requires SaneLatest(latest) && FarewellComing(p, latest) && Enabled(p, latest, TakeSnapshot(replay))
    ensures var q := Next(p, latest, TakeSnapshot(replay));
            FarewellComing(q, latest) && Measure(q, latest) < Measure(p, latest)
  {
    hide SaneLatest, Replays;
    ReplayLength(replay, latest);
  }

  lemma TakeDescends(p: Publisher, latest: map<Key, Event>, flush: seq<Event>)
    requires SaneLatest(latest) && FarewellComing(p, latest) && Enabled(p, latest, TakeEvent(flush))
    ensures var q := AfterTake(p, latest, flush);
            FarewellComing(q, latest) && Measure(q, latest) < Measure(p, latest)
  {
    hide SaneLatest, Replays, Prepare;
    if SaysUnavailable(p.queue[0]) {
      ReplayLength(flush, latest);
    }
  }

  lemma AcknowledgeDescends(p: Publisher, latest: map<Key, Event>)
    requires FarewellComing(p, latest) && p.sending.Some? && !p.phase.Stopped?
    ensures var q := AfterAcknowledge(p);
            FarewellComing(q, latest) && Measure(q, latest) < Measure(p, latest)
  {
    hide Deliver;
  }

  lemma SendNextDescends(p: Publisher, latest: map<Key, Event>)
    requires FarewellComing(p, latest) && Enabled(p, latest, SendNext)
    ensures var q := AfterSendNext(p);
            FarewellComing(q, latest) && Measure(q, latest) < Measure(p, latest)
  {
    hide Prepare;
  }

  lemma FinishDescends(p: Publisher, latest: map<Key, Event>)
    requires FarewellComing(p, latest) && Enabled(p, latest, FinishList)
    ensures var q := AfterFinishList(p);
            FarewellComing(q, latest) && Measure(q, latest) < Measure(p, latest)
  {
  }

  /** A heartbeat with an event already queued happens at most once before that event is taken. */
  lemma BeatDescends(p: Publisher, latest: map<Key, Event>)
    requires FarewellComing(p, latest) && Enabled(p, latest, Beat)
    ensures var q := Next(p, latest, Beat);
            FarewellComing(q, latest) && Measure(q, latest) < Measure(p, latest)
  {
  }

  lemma QuietStepDescends(p: Publisher, latest: map<Key, Event>, step: Step)
    requires PubInv(latest, p) && FarewellComing(p, latest) && Enabled(p, latest, step) && !Fails(step)
    ensures var q := Next(p, latest, step);
            FarewellComing(q, latest) && Measure(q, latest) < Measure(p, latest)
  {
    hide SaneLatest, SaneEvents, SendingOk, QueueIsCurrent, Settles, Replays, Measure, AfterAcknowledge, AfterSendNext, AfterTake;
    match step {
      case Acknowledge => AcknowledgeDescends(p, latest);
      case TakeSnapshot(replay) => SnapshotDescends(p, latest, replay);
      case SendNext => SendNextDescends(p, latest);
      case FinishList => FinishDescends(p, latest);
      case TakeEvent(flush) => TakeDescends(p, latest, flush);
      case Beat => BeatDescends(p, latest);
      case _ =>
    }
  }

  /** A publisher that has not stopped can take a step. */
  lemma NotStoppedCanStep(p: Publisher, latest: map<Key, Event>) returns (step: Step)
    requires PubInv(latest, p) && FarewellComing(p, latest) && !p.phase.Stopped?
    ensures Enabled(p, latest, step) && !Fails(step)
  {
    var replay := ListingExists(latest);
    step := if p.sending.Some? then Acknowledge
            else if p.phase.Announcing? then TakeSnapshot(replay)
            else if Rest(p) != [] then SendNext
            else if p.phase.Draining? then TakeEvent(replay)
            else FinishList;
  }

  /** The service topic says unavailable and every device topic holds what the bus remembers. */
  ghost predicate LeftInOrder(p: Publisher, latest: map<Key, Event>) {
    && BrokerHolds(p, latest, {})
    && ServiceTopic(p.base) in p.broker && p.broker[ServiceTopic(p.base)] == ServiceMessage(false, 2)
  }

  /**
   From any state in which the stop event was published last, every quiet run is bounded, can
   be continued until the publisher has stopped, and has then left the broker in order.
   */
  lemma {:induction false} GracefulExit(p: Publisher, latest: map<Key, Event>, steps: seq<Step>)
    requires PubInv(latest, p) && FarewellComing(p, latest) && QuietRuns(p, latest, steps)
    ensures |steps| <= Measure(p, latest)
    ensures var q := QuietAfter(p, latest, steps);
            && PubInv(latest, q) && FarewellComing(q, latest)
            && (q.phase.Stopped? ==> LeftInOrder(q, latest))
            && (!q.phase.Stopped? ==> exists step :: Enabled(q, latest, step) && !Fails(step))
    decreases |steps|
  {
    if |steps| > 0 {
      QuietStepDescends(p, latest, steps[0]);
      NextKeepsInv(latest, p, steps[0]);
      GracefulExit(Next(p, latest, steps[0]), latest, steps[1..]);
    } else if p.phase.Stopped? {
      StoppedHolds(p, latest);
    } else {
      var step := NotStoppedCanStep(p, latest);
    }
  }

  lemma StoppedHolds(p: Publisher, latest: map<Key, Event>)
    requires PubInv(latest, p) && p.phase == Stopped(latest, true)
    ensures LeftInOrder(p, latest)
  {
    forall k | k in latest && k.kind != ServiceAvailability
      ensures Held(p, k) == Some(latest[k])
    {
      assert Pending(p) == [];
      assert Settled(p, k) == Some(latest[k]);
    }
  }

  // ---------- Overflow while running ----------

  /**
   The convergence of a running publisher does need its proviso: when a full queue drops the
   only event about a device, the publisher catches up and the broker knows nothing of it.
   */
  lemma OverflowCanLoseState(base: string, a: Event, b: Event)
    requires a.kind == DeviceAvailability && b.kind == DeviceAvailability && KeyOf(a) != KeyOf(b)
    requires DeviceKey(KeyOf(a)) && DeviceKey(KeyOf(b))
    ensures var p := Publisher(base, 1, Draining, None, [a], {}, false, map[], map[], map[], false);
            var latest := map[KeyOf(a) := a];
            var heard := Enqueue(p, b);
            var taken := AfterTake(heard, Remember(latest, b), []);
            && PubInv(latest, p)
            && taken.sending.Some?
            && CaughtUp(AfterAcknowledge(taken))
            && KeyOf(a) in Remember(latest, b)
            && Held(AfterAcknowledge(taken), KeyOf(a)) == None
            && KeyOf(a) in AfterAcknowledge(taken).lost
  {
    TopicParts(base, KeyOf(a));
    TopicParts(base, KeyOf(b));
    if TopicFor(base, KeyOf(a)) == TopicFor(base, KeyOf(b)) {
      TopicDeterminesKey(base, KeyOf(a), KeyOf(b));
    }
    LastOfOne(a, KeyOf(a));
    LastOfOne(b, KeyOf(a));
    var p := Publisher(base, 1, Draining, None, [a], {}, false, map[], map[], map[], false);
    assert Pending(p) == [a];
    assert [a][1..] + [b] == [b];
  }
}
