# PitBlu Core: a verified model

PitBlu Core polls a Bluetooth thermometer, keeps its newest readings, serves them over REST and
publishes them to an MQTT broker. This project models the parts of it where several copies of
one fact must agree while tasks interleave, and proves that they do:

- **Telemetry** (`Events`, `Models`, `Telemetry`, `TelemetryState`, `Agreement`, `Sequences`,
  `Freshness`, `Runs`, `Readings`): the event bus with its bounded history, drop-oldest subscriber
  queues and retained map; the telemetry state with its snapshots, heartbeats, counters and deadline
  tasks.
  Functions on a value say what every operation does, the classes `EventBus` and `TelemetryState`
  do it in place and are proved equal to those functions, and the theorems are about arbitrary runs,
  with late and cancelled deadline tasks among their steps.
- **MQTT** (`Topics`, `Slugs`, `Publisher`, `Shutdown`, `Pipeline`, `Removal`, `RemovedDevices`,
  `RemovedReadings`, `Availability`, `Connection`): topics and their injectivity, the publisher as a
  state machine with a step per await, its convergence and its graceful exit, the composition with
  telemetry in which stored state, retained map and broker are three copies of one truth, what
  becomes of topics whose device was removed, and what is shown of the service itself.
- **The service** (`Service`, `ServiceSteps`, `Administration`, `AdministrationRuns`, `Discovery`,
  `PollLoop`): scans, connects, reconnects, disconnects, recovery, polling and closing as tasks with
  a program counter over one lock and two caches, in a class whose every step keeps what holds of
  it; runs of service and adapter together, in which the adapter's cache stays the one the service
  takes for it; and the polling loop as a loop over arbitrary cycle outcomes.
- **Configuration and storage** (`Paths`, `Flattening`, `RoundTrips`, `Configuration`, `Storage`):
  dotted paths, layered settings with compare-and-swap overrides, and bounded tables.
- **Arithmetic and devices** (`RateLimit`, `Connection`, `Adapter`): the token bucket over real
  numbers, the backoff schedule with jitter, the connection state machine, and the adapter.

Times are whole ticks of a clock in telemetry and real seconds elsewhere. The clock, randomness,
the answers of the adapter and of the broker, the scheduler and Pydantic's section models are
parameters or arbitrary choices.

Three premises are stated where they are used. Battery observation times of one adapter are
pairwise different (`Adapter`; from it follows the coherence that `Runs` asks of snapshots). A
discovery identifier never names two candidates (`Administration`). An operation's identifier fixes
its creation time and no two operations share one (`Storage`).

Some promises hold only under a condition, and then the condition is exact or the failure is shown
by a concrete input: flattening and inflating are inverse exactly for the mappings and settings
named in `RoundTrips`; retained readings agree with the battery view exactly when equal battery
times mean equal readings; a retained heartbeat tells what its REST view tells exactly when the
desired state has not run ahead of the stored one; the window bound of the token bucket needs a
clock that does not step back; a full publisher queue can lose state until the next replay; a
removed device stays shown by the broker exactly when the session found it shown and heard nothing
about it; a disconnect that ends late takes the adapter from the device that owns it by then; a
device identifier with a slash would make topics collide; a snapshot renews exactly the retained
availability of its probes; a second manager on one store would lose overrides exactly when its own
copy differs outside its patch.

## Model

| member | source | states |
|---|---|---|
| Events.EventBus.Publish | src/pitblu_core/events.py:65-76 | Publishing adds exactly one event to the log that history, retained map and queues are tied to; every queue gets it with the oldest dropped when full; only administrative events are persisted |
| Events.EventBus.OfferTo | src/pitblu_core/events.py:73-76 | Offering an event to one subscriber leaves its queue a contiguous window, ending at the newest event, of what was published since it subscribed |
| Events.EventBus.Recent | src/pitblu_core/events.py:78-79 | History is exactly the last publications ever made, as many as fit |
| Events.EventBus.RetainedState | src/pitblu_core/events.py:81-82 | Lists exactly the events remembered by the fold over the whole log, each once |
| Events.EventBus.ForgetDevice | src/pitblu_core/events.py:84-86 | Forgetting a device is one entry of the log; queues and subscriptions are untouched |
| Events.EventBus.Subscribe | src/pitblu_core/events.py:87-92 | A new subscriber starts with an empty queue at the current end of the log |
| Events.EventBus.Unsubscribe | src/pitblu_core/events.py:93-94 | Only the queue of that subscriber goes |
| Events.EventBus.Take | src/pitblu_core/mqtt.py:177-178 | The oldest queued event is taken and nothing else changes |
| Events.LatestIsLastSinceForgotten | src/pitblu_core/events.py:67-71 | A key is retained if and only if it is of a remembered kind and was published since its device was last forgotten, and then with the event published last |
| Events.LatestHoldsOnlyRememberedKinds | src/pitblu_core/events.py:67-71 | The retained map never holds a temperature, an operation or a configuration event |
| Events.OfferAllKeepsNewest | src/pitblu_core/events.py:73-76 | After any offers a queue is the newest part of what it held and was offered |
| TelemetryStates.TelemetryState.Record | src/pitblu_core/telemetry.py:59-143 | The in-place method, which builds every event field by field, does what the specification of recording says: an older snapshot only marks overdue devices, a newer one replaces snapshot and deadline task and publishes availability, connection, battery news and probes in order |
| PublishedReadings.RecordPublishesTemperatures | src/pitblu_core/telemetry.py:120-143 | Recording a newer snapshot publishes one temperature event for each probe that is available, present and has a temperature, none for any other, and each carries the temperature of the probe with its number |
| PublishedReadings.OlderPublishesNone | src/pitblu_core/telemetry.py:60-63 | A snapshot that is not newer publishes no temperature |
| TelemetryStates.TelemetryState.MarkStale | src/pitblu_core/telemetry.py:145-196 | The in-place sweep equals its specification and returns exactly the devices it marked, the forced one and the overdue ones |
| TelemetryStates.TelemetryState.Wake | src/pitblu_core/telemetry.py:198-206 | A deadline task that wakes, late or cancelled, does what its guards allow and no more |
| TelemetryStates.TelemetryState.Connection | src/pitblu_core/telemetry.py:208-236 | A reported disconnect publishes the state, marks the device and overdue others stale and publishes unavailability; another state only publishes |
| TelemetryStates.TelemetryState.EnsureHeartbeat | src/pitblu_core/telemetry.py:238-239 | A heartbeat is created as unknown unless there is one |
| TelemetryStates.TelemetryState.RegisterHeartbeat | src/pitblu_core/telemetry.py:241-245 | A registered heartbeat is published once |
| TelemetryStates.TelemetryState.CommunicationSucceeded | src/pitblu_core/telemetry.py:247-269 | Only the first success, or one strictly newer than the newest, makes the heartbeat healthy, whatever its status was; it is published and replaces the deadline task, and any other success changes nothing |
| TelemetryStates.TelemetryState.HeartbeatDisconnected | src/pitblu_core/telemetry.py:271-280 | The deadline task goes and the change to disconnected is published once |
| TelemetryStates.TelemetryState.HeartbeatExpected | src/pitblu_core/telemetry.py:282-289 | A disconnected heartbeat becomes stale, or unknown if it never succeeded, and that is published; any other heartbeat stays as it is and publishes nothing |
| TelemetryStates.TelemetryState.PublishHeartbeat | src/pitblu_core/telemetry.py:308-330 | Each heartbeat event carries the next number and the stored data |
| TelemetryStates.TelemetryState.Remove | src/pitblu_core/telemetry.py:367-381 | Removal reports the disconnect, drops snapshot, heartbeat, counters and tasks of the device and makes the bus forget it |
| TelemetryStates.TelemetryState.Close | src/pitblu_core/telemetry.py:383-390 | Exactly the named deadline tasks are cancelled |
| TelemetryStates.TelemetryState.Probes | src/pitblu_core/telemetry.py:392-409 | The loop gives one view for each current probe, with its reading while fresh and without temperature once stale, and changes nothing |
| TelemetryStates.TelemetryState.Battery | src/pitblu_core/telemetry.py:415-427 | The battery of the current snapshot, unavailable and without percentage once stale |
| TelemetryStates.TelemetryState.Heartbeat | src/pitblu_core/telemetry.py:344-365 | The stored heartbeat, as disconnected when that is desired, and as stale or unknown when it is stored as disconnected but no longer desired so |
| Agreement.InstallAgrees | src/pitblu_core/telemetry.py:70-143 | After a newer snapshot the retained map agrees with the views of its device if and only if an unpublished battery carries the reading published before; other devices are untouched |
| Agreement.RecordAgrees | src/pitblu_core/telemetry.py:59-143 | Recording keeps retained map and views in agreement for all devices exactly under that condition |
| Agreement.SweepAgrees | src/pitblu_core/telemetry.py:145-196 | Marking any devices stale keeps retained map and views in agreement |
| Agreement.SweepMarks | src/pitblu_core/telemetry.py:150-157 | A sweep marks exactly the overdue and forced devices and leaves every snapshot as it was |
| Agreement.ConnectionAgrees | src/pitblu_core/telemetry.py:208-236 | Reporting a connection state keeps retained map and views in agreement |
| Agreement.RemoveAgrees | src/pitblu_core/telemetry.py:367-381 | Removal keeps agreement: a device without a snapshot has no retained reading |
| Runs.RetainedStateMatchesViews | src/pitblu_core/telemetry.py:59-427 | After every run: retained availability is "not stale and some probe available"; every current probe's and the battery's retained event agree with their REST views; the heartbeat's is the stored heartbeat, and tells status, freshness and last success of the REST view if and only if disconnection is desired exactly when it is stored; a device without a snapshot retains no reading; the map is the fold of the log |
| Agreement.HeartbeatViewExactly | src/pitblu_core/telemetry.py:332-365 | For any desired state, a retained heartbeat that carries what is stored tells status, freshness and last success of the REST view if and only if disconnection is desired exactly when the stored heartbeat is disconnected |
| Runs.DesiredStateRunsAhead | src/pitblu_core/service.py:379-380 | The failing input: after one success, with a disconnect accepted but not performed, REST shows a heartbeat as disconnected and not fresh that is retained as healthy and fresh |
| Runs.PublishedStreamsAreOrdered | src/pitblu_core/telemetry.py:47-57 | After every run: until removal the sequence numbers of each device, type and probe strictly increase, heartbeats count up by one, temperature times of a probe strictly increase |
| Runs.FreshnessAfterDueTasks | src/pitblu_core/telemetry.py:198-206 | Whenever the due deadline tasks have run, nothing at or past its deadline is called fresh, stale data inside its window was reported disconnected, and the heartbeat view is fresh exactly when its status is healthy and never when disconnection is desired |
| Runs.HeartbeatViewsAreConsistent | src/pitblu_core/telemetry.py:247-306 | In every reachable state, due tasks run or not: a heartbeat view is fresh exactly when its status is healthy and never when disconnection is desired, and a fresh one has one live task set for the deadline of its newest success |
| Runs.HealthyHasExactlyOneTask | src/pitblu_core/telemetry.py:247-306 | A healthy heartbeat has exactly one uncancelled deadline task, set for its newest success |
| Runs.LateTaskDemotesNoNewerSuccess | src/pitblu_core/telemetry.py:291-306 | A late or cancelled task ends health only when the newest success is past its deadline |
| Runs.TimesAdvanceUntilRemoval | src/pitblu_core/telemetry.py:59-63 | Over any run, snapshot and success times of a device only move forward until it is removed |
| Runs.MarkStaleTwice | src/pitblu_core/telemetry.py:145-157 | Marking stale again changes and publishes nothing |
| Runs.MissingProbeStaysRetained | src/pitblu_core/telemetry.py:120-131 | A probe missing from a new snapshot keeps its retained availability, stale marks included |
| Runs.ProbeRenewedExactly | src/pitblu_core/telemetry.py:120-131 | After a newer snapshot the availability retained for a probe is one published by that recording if and only if the probe is in the snapshot |
| Runs.NextContinues | src/pitblu_core/telemetry.py:59-390 | Every step only appends to the log and remembers what the appended part says |
| Runs.RunInv | src/pitblu_core/telemetry.py:59-390 | Agreement, stream order and deadline guards hold after every run that starts from where they hold |
| Freshness.RecordKeepsTimers | src/pitblu_core/telemetry.py:70-76 | After recording every fresh snapshot is guarded by a live task at its deadline, and every live task guards one |
| Freshness.CommunicationKeepsTimers | src/pitblu_core/telemetry.py:247-269 | After a success every healthy heartbeat is watched by exactly its own task |
| Freshness.FireKeepsTimers | src/pitblu_core/telemetry.py:198-306 | Firing any task, late or cancelled, leaves everything fresh guarded |
| Freshness.RemoveKeepsTimers | src/pitblu_core/telemetry.py:367-381 | Removal leaves no live task of the device and all others guarded |
| Sequences.RecordOrdered | src/pitblu_core/telemetry.py:59-143 | Recording keeps all published streams ordered: sequence numbers, heartbeat numbers and temperature times |
| Sequences.FireOrdered | src/pitblu_core/telemetry.py:198-306 | Deadline tasks keep all published streams ordered |
| Topics.TopicDeterminesKey | src/pitblu_core/mqtt.py:45-56 | For slash-free devices the topic of a retained event determines its device, type and probe, for any base topic |
| Topics.DocumentedTopics | docs/mqtt.md:19-27 | For every base and device the topics of availability, connection, heartbeat and battery, and that of the service, are literally the documented ones |
| Topics.DocumentedProbeTopics | docs/mqtt.md:26-27 | So are the two topics of each probe, with its number as one digit |
| Topics.TopicErrors | src/pitblu_core/mqtt.py:50-54 | A topic is refused exactly for a device event without a device and for a probe event without a probe number |
| Topics.StripExactly | src/pitblu_core/mqtt.py:46 | The base topic loses all slashes at its ends and nothing else |
| Topics.ServiceTopicIsApart | src/pitblu_core/mqtt.py:45-49 | No device event has the topic of service availability |
| Topics.SlashesCollide | src/pitblu_core/mqtt.py:45-56 | With a slash in a device identifier two different keys share a topic |
| Slugs.SlugIsTidy | src/pitblu_core/service.py:281 | An identifier made from a name has only plain characters and single inner dashes, and is made from itself |
| Slugs.SlugOfWords | src/pitblu_core/service.py:281 | The identifier made from a name is its words of plain characters joined by single dashes |
| Slugs.EveryNameHasWords | src/pitblu_core/service.py:281 | Every name consists of such words and gaps between them |
| Slugs.DeviceIdOfWords | src/pitblu_core/service.py:281-282 | A device is named by its words, and at random exactly if its name has none |
| Slugs.DeviceIdsAreSlashFree | src/pitblu_core/service.py:281-282 | Every identifier that registration makes is free of slashes |
| Publishers.HearAllKeepsInv | src/pitblu_core/mqtt.py:168-200 | However many events the bus publishes or devices it forgets between two broker answers, the publisher stays on its way to the retained map |
| Publishers.NextKeepsInv | src/pitblu_core/mqtt.py:147-206 | So does every step of its own: announcing, replaying, draining, a heartbeat that comes due as an event is queued, failing or being cancelled at any wait, flushing, closing, a farewell whose failure is suppressed |
| Publishers.CaughtUpBrokerHolds | src/pitblu_core/mqtt.py:168-179 | Once its queue is empty the topic of every device key that the bus remembers holds the remembered event, except keys lost to overflow, and without overflow with no exception; topics of keys no longer remembered are the subject of `RemovedDevices` |
| Publishers.PreparesAsDocumented | src/pitblu_core/mqtt.py:110-118 | Operations and configuration changes are not sent, a temperature is sent without being retained, everything else of a device is retained, each on its documented topic |
| ServiceStatus.ServiceShownWhileServing | src/pitblu_core/mqtt.py:168-206 | In every run, whatever is replayed, published or dropped: while a session serves, the broker shows the service as available, and once a farewell was said as unavailable |
| ServiceStatus.FailureShowsUnavailable | src/pitblu_core/mqtt.py:196-206 | A failed session leaves nothing half sent, and the service as unavailable if its farewell or last will got through |
| ServiceStatus.SuppressedFarewellStops | src/pitblu_core/mqtt.py:196-206 | A farewell that fails ends the publisher all the same, and changes what is shown exactly if it got through |
| ServiceStatus.StopsExactlyWhenAnnounced | src/pitblu_core/mqtt.py:186-195 | A session ends itself exactly for the event that the service is unavailable, and publishes any other |
| ServiceStatus.HeartbeatMayRace | src/pitblu_core/mqtt.py:176-185 | The heartbeat of a waiting session can come due in the very turn in which an event is queued |
| ServiceStatus.LostExactly | src/pitblu_core/events.py:73-76 | A key counts as lost exactly when its event was dropped and no other of it is queued |
| Shutdown.NewestEventIsNeverLost | src/pitblu_core/events.py:73-76 | The event that announces the stop is in the queue however full it was |
| Shutdown.NotStoppedCanStep | src/pitblu_core/mqtt.py:186-206 | A publisher with the announcement before it that has not stopped can always take a step that is not a failure |
| Shutdown.QuietStepDescends | src/pitblu_core/mqtt.py:186-206 | Each such step brings the end nearer, by a bounded measure |
| Shutdown.GracefulExit | src/pitblu_core/mqtt.py:186-206 | After a quiet run to the end the topic of every device key that the bus remembers holds the remembered event, and service availability is false |
| Shutdown.OverflowCanLoseState | src/pitblu_core/events.py:73-76 | A queue that overflowed while running can leave a device topic without its latest event |
| Pipeline.ThreeCopiesAgree | src/pitblu_core/mqtt.py:168-179 | In every run of telemetry, bus and publisher together: once caught up without overflow since subscribing, the broker holds the retained map; for every device with a snapshot it shows availability, battery availability and percentage, and availability and presence of every probe as the REST views do; for every published heartbeat it shows the stored data and number, all on the documented topics; the heartbeat tells status, freshness and last success of the REST view if and only if disconnection is desired exactly when it is stored |
| Pipeline.StoppingLeavesCopiesInAgreement | src/pitblu_core/api.py:178-192 | Announcing the stop in any reachable state with a subscribed session that is not flushing yet leads, in boundedly many quiet steps and without deadlock, to a broker that shows snapshots and heartbeats as in the caught-up case, heartbeats against REST under the same exact condition, whatever had overflowed before |
| Removals.NextTraced | src/pitblu_core/mqtt.py:147-206 | Whatever the publisher does, each retained message is its own service message, an event that the bus published, on the topic of that event's key, or was there before it ever connected |
| Removals.EveryTopicIsAccountedFor | src/pitblu_core/events.py:65-86 | When the broker holds all that is remembered, each device topic holds the remembered event of its key, an event of a device forgotten since, or a message from before |
| Removals.NextTells | src/pitblu_core/mqtt.py:168-206 | Unless its queue overflows, what a session leaves under a key is the last event it heard under it, and what it found at the broker if it heard none; the final replay overrides that for remembered keys |
| Removals.LatestIsLastPublished | src/pitblu_core/events.py:67-71 | What is remembered under a key is what was published last under it in the whole log |
| RemovedDevices.TopicsAreAccountedFor | src/pitblu_core/mqtt.py:168-206 | In every run of the whole, once the publisher is at rest: each device topic was there at the start, or holds the remembered event of its key, or an event of a device forgotten since |
| RemovedDevices.RemovedStillShownExactly | docs/frontend-integration.md:355-356 | In every run, at rest without overflow: the availability topic of a device without a snapshot, a removed one among them, says available if and only if the session found it so and nothing under it was replayed or published since; none is left behind if and only if there is no such device |
| RemovedDevices.StoppingAccountsForTopics | src/pitblu_core/api.py:178-192 | Both statements at the end of a graceful exit, the first whatever had overflowed |
| RemovedDevices.RemoveSilenced | src/pitblu_core/telemetry.py:367-381 | The last availability published for a device before it is forgotten says unavailable, whether or not it had a snapshot |
| RemovedDevices.RemovedWhileListeningIsGone | src/pitblu_core/telemetry.py:367-381 | A device removed while the session listens is shown as unavailable on its availability topic whenever that session is at rest without overflow and the device has not come back |
| RemovedReadings.RemovedWhileListeningLeavesNothing | src/pitblu_core/telemetry.py:367-381 | So are its battery and every probe of its last snapshot: each of their topics says unavailable at rest, unless the snapshot was stale already and the session still announcing itself |
| RemovedDevices.RemovedWhileOfflineIsLeftBehind | src/pitblu_core/events.py:84-86 | The failing run: recorded and shown, session ended, removed while nobody listened, connected and caught up again; the broker shows the device as available and no view of it is left |
| Connections.PollingMeansCameUp | src/pitblu_core/connection.py:32-66 | In any run from disconnected, connected, polling and degraded are reached only through connecting, initialising and connected since the last disconnect or backoff |
| Connections.AllowedBySource | src/pitblu_core/connection.py:35-66 | For each state, the states that may lead to it |
| Connections.ConnectionStateMachine.Transition | src/pitblu_core/connection.py:102-108 | A transition raises if and only if it is neither allowed nor a repetition, and then changes nothing |
| Connections.ConnectionStateMachine.RequestConnect | src/pitblu_core/connection.py:113-122 | A connect request never raises in any state and says whether anything changed |
| Connections.ConnectionStateMachine.RequestDisconnect | src/pitblu_core/connection.py:124-131 | A disconnect request never raises, ends disconnected and forgets the backoff |
| Connections.ConnectionStateMachine.UnexpectedDisconnect | src/pitblu_core/connection.py:133-139 | Raises if and only if a connection was wanted and the device was discovered, disconnected or unsupported |
| Connections.ConnectionAttempt | src/pitblu_core/service.py:484-491 | The transitions around one connection attempt never raise, forced or not |
| Connections.BackoffPolicy.NextDelay | src/pitblu_core/connection.py:86-90 | Each delay lies within the jitter fraction of its scheduled delay, the last one repeating |
| Connections.JitterBounds | src/pitblu_core/connection.py:89-90 | Jitter stays within its fraction on both sides, the upper bound excluded |
| Connections.AlwaysBelowExactly | src/pitblu_core/connection.py:86-90 | One delay is below another for all random values if and only if their jitter ranges do not overlap |
| Connections.DefaultDelaysIncrease | src/pitblu_core/connection.py:71-72 | The default delays strictly increase up to the cap whatever the jitter |
| Connections.SinceStableCounts | src/pitblu_core/mqtt.py:136-141 | The failures counted are exactly those since the last stable session |
| Connections.MqttPublisher.Run | src/pitblu_core/mqtt.py:120-145 | The reconnecting loop waits once after each failure, for exactly the jittered delay that its failures since the last stable session call for, within 20 percent of the scheduled one, and stops only with a session that returned or was cancelled |
| ServiceSteps.MatchIsCurrent | src/pitblu_core/service.py:457-483 | A candidate resolved for an operation is known to the adapter and may be connected, and unless ownership was raced away it has the registered identity |
| ServiceSteps.FirstWithExactly | src/pitblu_core/service.py:461-474 | Looking up an identity among what was found gives the first candidate that has it, and nothing exactly if none has |
| ServiceSteps.AcquireCanMove | src/pitblu_core/service.py:446-457 | Taking the lock leads every waiting task to a place that keeps everything, a cached candidate chosen for a connect included |
| ServiceSteps.ReleaseKeepsTasks | src/pitblu_core/service.py:412-417 | Giving up ownership at the end of a disconnect takes it from no task that still needs it, unless another device owns the adapter by then, which is recorded as a race; everything but ownership holds either way |
| ServiceSteps.StopKeepsTasks | src/pitblu_core/service.py:580-584 | Stopping a recovery silences the device for the disconnect that stops it |
| ServiceSteps.RecoveredLeavesCalm | src/pitblu_core/service.py:606-618 | A recovery that connects its device has not been overtaken by a disconnect |
| ServiceSteps.PolledLeavesCalm | src/pitblu_core/service.py:679-684 | A polling task hands over to recovery only while no disconnect of its device is past its first step |
| ServiceSteps.StageThreeFits | src/pitblu_core/service.py:551-561 | When the user tasks have ended, every recovery that has not ended is one that closing waits for |
| Administration.AdministrationService.StartConnectionOperation | src/pitblu_core/service.py:367-388 | A second request gets the same pending operation or is refused unchanged; otherwise exactly one operation, task, owner and desired state are set |
| Administration.AdministrationService.StartScan | src/pitblu_core/service.py:217-225 | A listed pending scan is returned unchanged, otherwise one scan is queued |
| Administration.AdministrationService.Register | src/pitblu_core/service.py:268-300 | Refused exactly when the candidate is gone or its identity or device is registered; otherwise the new row names the candidate's identity |
| Administration.AdministrationService.SelectIdentity | src/pitblu_core/service.py:333-348 | Refused for the owner, a gone candidate, or an identity of another device; otherwise only the selection changes |
| Administration.AdministrationService.Acquire | src/pitblu_core/service.py:446-457 | The free lock is taken and the place after it is the one the task waited for |
| Administration.AdministrationService.ScanReturns | src/pitblu_core/adapters/igrill_v202.py:97-118 | The adapter's cache becomes exactly what the scan returned, under the lock |
| Administration.AdministrationService.ScanPublishes | src/pitblu_core/service.py:160-163 | The service's cache becomes the adapter's as the lock is released |
| Administration.AdministrationService.OperationBegins | src/pitblu_core/service.py:398-443 | A user operation runs, cancels and awaits the recovery and the polling of its device, and reaches the place its action and the ownership call for |
| Administration.AdministrationService.ResolutionPublishes | src/pitblu_core/service.py:458-483 | The first candidate with the registered identity is chosen and stored; only if no candidate has it, one rescue is tried and otherwise the operation fails |
| Administration.AdministrationService.FirstRead | src/pitblu_core/service.py:500-511 | A first read makes the device connected, wanted and polled by one new task, and the operation succeeded |
| Administration.AdministrationService.DisconnectDone | src/pitblu_core/service.py:413-422 | A disconnect drops the cached candidate, the connection and the ownership and succeeds, and it does so even when another device owns the adapter by then |
| Administration.AdministrationService.Fail | src/pitblu_core/service.py:522-543 | A failed operation releases the lock and is failed; a recovery retries, a user connection is left to recovery |
| Administration.AdministrationService.ScheduleRecovery | src/pitblu_core/service.py:586-604 | A recovery starts exactly when open, wanted, automatic and not yet there |
| Administration.AdministrationService.RecoveryBegins | src/pitblu_core/service.py:606-616 | A recovery ends when no longer wanted, sleeps, or makes its own operation at once |
| Administration.AdministrationService.PollReads | src/pitblu_core/service.py:651-684 | After a read polling goes on, ends, or hands over to at most one recovery |
| Administration.AdministrationService.HandOver | src/pitblu_core/service.py:627-640 | A polling task that runs into an error or gives up ends, and leaves its device to one recovery exactly when that is wanted and there is none yet |
| Administration.AdministrationService.Unwind | src/pitblu_core/service.py:512-521 | A cancelled task ends, releases the lock and leaves its begun operation failed |
| Administration.AdministrationService.Start | src/pitblu_core/service.py:131-144 | Exactly the operations that earlier processes left pending become failed; the first wanted device that reconnects by itself owns the adapter and is the only one recovered |
| Administration.AdministrationService.CloseRecoveries | src/pitblu_core/service.py:556-561 | All recoveries in the table are cancelled and awaited and the table is empty |
| Administration.AdministrationService.FinishClose | src/pitblu_core/service.py:572 | What is still pending is marked as interrupted |
| AdministrationRuns.Take | src/pitblu_core/service.py:131-684 | Whatever is chosen keeps everything that holds, and a choice that can happen does: its task goes on to another place |
| AdministrationRuns.Run | src/pitblu_core/service.py:131-684 | In any run of requests, task steps, adapter answers, errors and closing stages, overlapping operations of different devices included, everything that holds of the service keeps holding, and no operation ever moves backwards or disappears |
| AdministrationRuns.OpsMoveForward | src/pitblu_core/service.py:389-543 | What such a run leaves of an operation: its kind, device and task as they were, a succeeded or failed one unchanged, and none queued again |
| AdministrationRuns.ServiceRun | src/pitblu_core/service.py:131-684 | From any registrations and any operations of earlier processes, pending ones among them, through start and any choices of requests, scheduler, adapter and closing: caches agree while the lock is free, whoever connects uses a candidate that is the adapter's own and, unless ownership was raced away, of the registered identity, no two registrations share an identity, a device has one pending user operation, none is left without a task while open and none is pending or live once closed; what earlier processes left stays as the start settled it |
| AdministrationRuns.FreeLockMeansAgreement | src/pitblu_core/service.py:159-162 | Corollary of ServiceRun, where what every step keeps is proved: whenever the lock is free every candidate the service caches is the adapter's own |
| AdministrationRuns.OneHolder | src/pitblu_core/service.py:112 | Corollary of Run, where what every step keeps is proved: only one task is ever under the lock |
| AdministrationRuns.ChosenIsRegistered | src/pitblu_core/service.py:444-489 | A candidate passed to connect is never obsolete; unless ownership was raced away it has the registered identity of its device, shared by no other registration, and its device owns the adapter |
| AdministrationRuns.OnePendingPerDevice | src/pitblu_core/service.py:374-378 | Corollary of ServiceRun, where what every step keeps is proved: a device has at most one pending user operation |
| AdministrationRuns.PendingIsExecuted | src/pitblu_core/service.py:205-215 | Corollary of Run, where what every step keeps is proved: while open, every pending operation is executed by a task of its own: queued before its first step, running after it |
| AdministrationRuns.OneRecoveryOnePoll | src/pitblu_core/service.py:586-640 | Corollary of Run, where what every step keeps is proved: a device has at most one live recovery and one live polling task, and is then the owner unless ownership was raced away |
| AdministrationRuns.DisconnectIsAlone | src/pitblu_core/service.py:407-417 | While a disconnect is under the lock no other live task works for its device |
| AdministrationRuns.OwnershipRace | src/pitblu_core/service.py:410-417 | The race itself: while a disconnect holds the lock a connect of another device is accepted and owns the adapter; the disconnect ends and clears that, and a connect of the first device is accepted besides, so that two devices are being connected at once |
| AdministrationRuns.ClosedIsQuiet | src/pitblu_core/service.py:546-572 | After closing no operation is pending, no task is live, and only cancelled polling may still have to unwind |
| DiscoveryCaches.SameIdentifiers | src/pitblu_core/adapters/igrill_v202.py:89-118 | The native cache of the adapter and the candidates the service takes for it know the same identifiers, each for the same discovered device |
| DiscoveryCaches.ScanWithAdapter | src/pitblu_core/service.py:159-163 | A scan of the service is a discovery of the adapter and leaves both caches with the devices it found |
| DiscoveryCaches.ConnectChosen | src/pitblu_core/service.py:489-491 | While both caches hold one discovery, a candidate chosen by the service is never refused by the adapter as obsolete or unsupported |
| DiscoveryCaches.ChosenWasFound | src/pitblu_core/service.py:457-489 | A chosen candidate is a device of the discovery that both caches hold |
| DiscoveryCaches.RunJointly | src/pitblu_core/service.py:131-684 | In any run of service and adapter together, discoveries, connection attempts, lost links and closing in any order, the two caches go on holding one discovery, and no attempt to connect is refused |
| DiscoveryCaches.NothingRefused | src/pitblu_core/service.py:444-491 | From their making on, through start and any such run, the adapter never refuses as obsolete or unsupported what the service has it connect to |
| PollLoop.Poll | src/pitblu_core/service.py:642-684 | For any cycle outcomes and clock readings the loop's few variables produce the effects its whole history calls for, and it ends at the first cycle that hands over or finds its device replaced |
| PollLoop.ValidByNewest | src/pitblu_core/service.py:661-665 | Comparing with the newest observation alone decides whether a snapshot is newer than all good ones before it |
| PollLoop.DegradedExactly | src/pitblu_core/service.py:674-678 | Degraded is written exactly when the last cycles, as many as the threshold, were all invalid |
| PollLoop.ResetOnlyWhenStable | src/pitblu_core/service.py:670-675 | Backoff is reset exactly by a valid cycle with no invalid one in the stable period before it |
| PollLoop.HandsOverExactly | src/pitblu_core/service.py:679-684 | The loop hands over exactly when the link is down or no valid cycle came for the reconnect period |
| PollLoop.SilenceHandsOver | src/pitblu_core/service.py:654-684 | A device that never answers is handed over at the first look past the reconnect period |
| Paths.JoinSplit | src/pitblu_core/configuration.py:175 | Splitting at dots and joining again gives the name back |
| Paths.SplitJoin | src/pitblu_core/configuration.py:163-175 | Joining dot-free parts and splitting gives the parts back |
| Paths.SameLeavesSameMapping | src/pitblu_core/configuration.py:160-179 | Mappings without empty parts are determined by their leaves |
| Flattening.Flatten | src/pitblu_core/configuration.py:160-168 | In any iteration order, names and values are exactly those of the leaves |
| Flattening.Inflate | src/pitblu_core/configuration.py:171-179 | In some order of the settings the loop gives exactly what storing them one after the other gives, the error included |
| RoundTrips.InflateUndoesFlatten | src/pitblu_core/configuration.py:160-179 | For every mapping and every order, inflating what was flattened gives it back if and only if its keys are dot-free, no part is empty and no top-level part has an empty key |
| RoundTrips.FlattenUndoesInflate | src/pitblu_core/configuration.py:160-179 | For all settings and every order, flattening what was inflated gives them back if and only if they are prefix-free and no name begins with a dot |
| RoundTrips.FlatIsUnique | src/pitblu_core/configuration.py:160-168 | Flattening a restorable mapping has one result whatever the order |
| RoundTrips.PutAddsLeaf | src/pitblu_core/configuration.py:176-178 | Storing a setting that conflicts with none adds exactly its leaf |
| RoundTrips.ConflictDependsOnOrder | src/pitblu_core/configuration.py:173-178 | A setting and a longer one below it: one order raises, the other loses the longer one |
| Configuration.ConfigStore.ReplaceConfig | src/pitblu_core/storage.py:99-116 | Overrides and version are replaced together if the expected version is the current one; otherwise nothing changes |
| Configuration.ConfigurationManager.ApplyLayer | src/pitblu_core/configuration.py:212-217 | A layer with an unknown setting is refused unchanged; otherwise it wins over what was there and is named as source |
| Configuration.ConfigurationManager.Open | src/pitblu_core/configuration.py:183-210 | Opening succeeds exactly when all layers are known and the sections accept the whole, bound to 127.0.0.1 or in token mode; then every value is that of the last layer that sets it, named by its source |
| Configuration.ConfigurationManager.ValidatePatch | src/pitblu_core/configuration.py:249-254 | A patch is accepted exactly when its settings are known and the sections accept the patched whole, bound to 127.0.0.1 or in token mode |
| Configuration.ConfigurationManager.Update | src/pitblu_core/configuration.py:256-265 | An accepted patch is the next link of a linear history, built on the version it names, and keeps the binding local or in token mode; a refused one changes neither manager nor store |
| Configuration.ConfigurationManager.Restarted | src/pitblu_core/configuration.py:207-210 | A manager opened again over the same layers and store has the same values, sources, configuration and version, and never fails |
| Configuration.OverlayIsUnique | src/pitblu_core/configuration.py:212-217 | Layers determine values and sources |
| Configuration.LastPatchWins | src/pitblu_core/configuration.py:258-263 | After any accepted patches a setting has the value of the last one that named it |
| Configuration.NothingLostExactly | src/pitblu_core/configuration.py:258-261 | Writing remembered overrides with a patch loses nothing exactly when they agree with the stored ones outside the patch |
| Storage.OperationStore.SaveOperation | src/pitblu_core/storage.py:230-252 | Saving updates or inserts one row in the full history, and beyond the newest hundred the table keeps pending rows only |
| Storage.OperationStore.Operations | src/pitblu_core/storage.py:254-259 | The listing is the hundred newest of all operations ever saved, newest first, whatever was deleted |
| Storage.OperationStore.Operation | src/pitblu_core/storage.py:261-266 | A pending operation is always found, however many came after it |
| Storage.OperationStore.InterruptOperations | src/pitblu_core/storage.py:272-278 | Exactly the queued and running operations become failed, as interrupted and at the given time, and nothing else changes |
| Storage.OperationStore.AppendEvent | src/pitblu_core/storage.py:280-288 | The table stays the tail of everything appended |
| Storage.OperationStore.RecentEvents | src/pitblu_core/storage.py:290-295 | Recent events are the last hundred ever appended |
| Storage.UpsertHas | src/pitblu_core/storage.py:232-247 | A save replaces the row of its identifier, or adds one, and leaves all others alone |
| Storage.UpsertCommutes | src/pitblu_core/storage.py:230-252 | Saving into the pruned table is saving into the full history and then removing what was dropped |
| Storage.NewestAfterUpsert | src/pitblu_core/storage.py:248-252 | A save moves no other row back among the newest |
| RateLimiting.RateLimit.RetryAfter | src/pitblu_core/security.py:21-28 | Zero exactly when a token is there; a positive answer is the least whole number of seconds after which a call is admitted |
| RateLimiting.RefillSplits | src/pitblu_core/security.py:22-24 | Refilling over split intervals is refilling over the whole |
| RateLimiting.RefusedPollsDoNotMatter | src/pitblu_core/security.py:21-28 | Any number of refused polls in between changes neither later admissions nor the bucket after them |
| RateLimiting.AdmissionsWithinClimb | src/pitblu_core/security.py:21-28 | For any clock, admissions are at most what was in the bucket plus the rate times how far the clock climbed |
| RateLimiting.WindowBound | src/pitblu_core/security.py:21-28 | In any window of a non-decreasing clock, after any earlier calls, admissions are at most capacity plus rate times the window's length |
| RateLimiting.SteppingClockBreaksBound | src/pitblu_core/security.py:22-24 | A clock that steps back and forth exceeds that bound |
| Adapters.DecodeProbe | src/pitblu_core/protocol.py:49-56 | Fails exactly for short payloads, and otherwise gives an unsigned 16-bit value other than the sentinel, or none |
| Adapters.ProbeRoundTrip | src/pitblu_core/protocol.py:49-56 | Every 16-bit value survives the wire whatever follows it, and only the sentinel means unplugged |
| Adapters.DecodeBattery | src/pitblu_core/protocol.py:59-66 | Succeeds exactly for one byte of at most a hundred, and gives that byte |
| Adapters.BleakAdapter.Discover | src/pitblu_core/adapters/igrill_v202.py:89-118 | A completed scan leaves the cache with exactly the devices it returns, each under its own identifier |
| Adapters.FoundExactly | src/pitblu_core/adapters/igrill_v202.py:97-118 | A scan reports, in their order, exactly the results whose name begins with the prefix or that offer the temperature service, under their own name or the default one |
| Adapters.BleakAdapter.Connect | src/pitblu_core/adapters/igrill_v202.py:125-157 | Refused as unsupported exactly when the device is not of the last scan or not of the supported model; a new connection forgets the battery |
| Adapters.BleakAdapter.ReadBattery | src/pitblu_core/adapters/igrill_v202.py:173-187 | The battery is read exactly when unknown or due, and after a good read not again within the interval |
| Adapters.BleakAdapter.ReadSnapshot | src/pitblu_core/adapters/igrill_v202.py:165-237 | On a connected client any outcomes and bytes give a snapshot that passes every check: a 16-bit value sent by a probe is its temperature, the sentinel is a probe without one, a failed read an unavailable probe with the name of the error, one byte of at most a hundred the battery |
| Adapters.CommunicatedExactly | src/pitblu_core/adapters/igrill_v202.py:172-214 | The time of communication is that of the last read of the cycle that decoded; it is claimed exactly when there is one, and a cached battery never counts |
| Adapters.SnapshotsAreCoherent | src/pitblu_core/adapters/igrill_v202.py:184-187 | Equal battery times of one adapter mean equal battery readings |

## Left out

- HTTP routing, authentication, CORS, request bounds, event streams and their text framing, and everything around the command line, installation and diagnostics: plumbing without state shared with the rest.
- Session and event identifiers, JSON and ISO formatting: taken as injective encodings of the modelled values.
- SQLite, asyncio, Bleak, BlueZ and the broker themselves (a scan that times out leaves the adapter as it was): an atomic table, tasks with a step per await, arbitrary answers, and a map from topics to retained messages.
- Events.EventBus.Publish: a persisting callback that raises is not modelled; the order in which retained events are listed is arbitrary.
- Telemetry operations are atomic, because publishing has no suspension point, and take one reading of the wall clock each. A snapshot object is identified by the deadline task created for it, so that the task's guard "is this still the current snapshot" compares tasks.
- Publishers.NextKeepsInv: the publisher's session is a machine on values, because its steps interleave with the bus; TLS, credentials, the last will and the payload text are left out. A session may fail while it sends or waits, and may end with or without its last message arriving.
- Pipeline.StoppingLeavesCopiesInAgreement: a publisher without a connection when the service stops is cancelled by the application, and nothing is promised about what the broker then shows; the 15 seconds it is given otherwise are not modelled.
- Administration.AdministrationService.DisconnectDone: deleting a device is not part of that class; after an ownership race (`AdministrationRuns.OwnershipRace`) nothing is promised about owners and identities, because the code then promises nothing.
- Administration.AdministrationService.StartScan: the listing it looks into is a parameter, any subset of the operations, so a pending scan beyond the newest hundred operations may be missed, as in the code.
- Administration.AdministrationService.Start: registering heartbeats and resetting observed states at start are not part of that class.
- DiscoveryCaches.RunJointly: identifiers made by a discovery are taken as never issued before; reads, which leave the adapter's cache alone, and the release of a link by BlueZ are answers of the adapter like any other.
- Administration.AdministrationService.Unwind: a cancelled task raises at its next suspension; a waiting task ends only after the task it waits for; done callbacks run in the step in which their task ends. Operation events, error fields and observed states of rows are not part of that class.
- PollLoop.Poll: the loop is given its cycles as a finite sequence, so nothing is claimed about how long a cycle takes.
- Configuration.ConfigurationManager.Open: the section models are an arbitrary function from nested values to a typed configuration, followed by the exposure check; the mapping of environment names to settings and the choice among several unknown settings are left out. Leaves are values that are not mappings.
- Flattening.Inflate: nested dictionaries are values, not shared objects changed in place.
- Storage.OperationStore.SaveOperation: timestamps are integers; a table is kept in order of creation instead of being sorted by each query.
- RateLimiting.RateLimit.RetryAfter: real numbers stand for floating point.
- Adapters.BleakAdapter.Connect: the authentication handshake is one of the ways in which a connection attempt can fail.
- Connections.PollingMeansCameUp: the service makes a fresh state machine for each attempt, so its longer runs are those of the class, not of the service.
