# RivetKit actor runtime: a verified model

RivetKit runs actors as single-threaded asynchronous JavaScript. This project
models the parts of the runtime where several small state machines interlock,
and proves what they promise together over whole runs. A step of a machine is a
block of code between two `await`s, which runs to completion; theorems quantify
over every sequence of enabled steps.

Each component has two layers. A value-level machine (datatypes, functions, runs)
carries the theorems. Where the source updates fields in place, a class with those
fields and loops is proved, method by method, to take exactly the machine's steps,
so the theorems are about the class as well.

| file | models |
|---|---|
| Basics, Options | notions the others share |
| PromiseQueue, PromiseQueueReentrancy | the coalescing write queue, also with operations that enqueue synchronously |
| Schedule, Alarms | scheduled events, the alarm queue and the driver's timer, stepped together |
| Persistence | dirty flag, throttle timer, write queue, `saveState` and the flush of `_stop` |
| Subscriptions | connections, the subscription index, broadcast, and restoring them |
| DriverLifecycle | load, start and sleep in the file-system driver |
| Sleep | the idle timer, connection status, liveness probes, admission |
| ClientSubscriptions, ClientRequests, ClientConn | the client connection: listeners, action requests, reconnects |
| KeyEscaping, EngineKeys, CloudflareKeys | the two actor-key codecs |
| VersionedData, PersistedFormat | the version-prefixed format, migrations, saving and restoring a record |
| ContactSync, RateLimiter | two example actors: a last-write-wins store and a fixed-window limiter |
| LongTimeout | timers longer than 2^31 - 1 ms |

## Where the code departs from what one would expect

Most of these are stated as an exact condition, over all inputs or all runs, with a
concrete failing case where one is useful.

- An operation that calls `enqueue` before its first `await`, on an idle queue, starts a second drain loop: `EnqueueStaysSingleIff`.
- `setAlarm` in the persistent driver rejects a fractional timestamp and the queue swallows the error. The event stays pending, and it blocks every event behind it, also integer ones, since only the first event is ever given to `setAlarm`: `EveryEventIsDelivered`, `ScheduledEventIsCoveredIff`, `FirstEventBlocksTheRest`, `HalfMillisecondStrandsAnInteger`. Saving the record fails for the same reason: `ConversionRoundTrip`.
- The dirty flag is cleared before the write and a failed write is swallowed: `CleanMeansCaptured` says exactly when a clear flag means stored.
- Connections and scheduled events do not set the dirty flag, although the calls beside their changes are commented as immediate saves: `RestSurvivesStopIff`, `ScheduledEventLostBySleep`.
- `_stop` cancels the throttle timer but leaves its field set, so no new timer is armed: `LateHandlerIsSavedIff`. A save at a handler's end does not clear an overdue timer, which then saves once more without the interval in between: `ThrottledSavesAreApart`, `OverdueTimerSavesAgain`.
- A subscription request from a removed connection enters the index: `SubscribeKeepsAgreementIff`. `__removeConn` unregisters by id but clears the index by identity: `RemoveKeepsAgreementIff`. The failing case of the latter needs a connection id to be used twice and is not reachable through the routers, which pass a fresh `generateConnId()` to every `createConn` (packages/rivetkit/src/actor/router-endpoints.ts, lines 163, 346 and 454).
- The `removed` mark is set and never read, so a start call made while `_stop` runs is handed the stopping instance: `HandsOutStoppingIff`, `StartDuringStopHandsItOut`.
- `disconnect` of an HTTP connection does nothing and a later probe marks it connected again: `SleepIsSafeIff`, `StepIsSafeIff`, `HttpDisconnectBreaksSafety`.
- `disconnect` and the liveness probe change a connection's status without re-evaluating the sleep timer, so an actor can be free to sleep with no timer armed, until a liveness check after the timeout: `LeaksIff`, `LeakBeginsIff`, `SweepEndsLeakIff`.
- A callback that unsubscribes the last listener of the event being dispatched and subscribes again loses the new listener: `DispatchKeepsListenersIff`, `ResubscribingAfterOnceIsLost`.
- An error for action 0 is taken for a connection error: `ErrorHitsOnlyItsActionIff`. An Init message on a disposed connection drops the queue: `FlushLosesNothingIff`.
- The Cloudflare codec loses the key `[""]`, and confuses names that end in a backslash: `KeyRoundTripIff`, `NameCollidesIff`, `NamesAreConfusedIff`.
- Contacts whose id names a property of `Object.prototype` are never stored; contacts tied for the newest make the order of pushes matter: `StoreHoldsNewest`, `OrderIrrelevantIff`.

## Model

| member | source | states |
|---|---|---|
| PromiseQueues.PromiseContract | packages/rivetkit/src/utils.ts:110-165 | Over every run: a resolved call was answered by an operation that started no earlier than the call, finished before the promise resolved, and was the last one enqueued in its cycle; at most one operation is unfinished; a resolver is pending exactly when an operation is queued; nothing is queued while no drain loop runs |
| PromiseQueues.TwoSettlesAnswerEveryCall | packages/rivetkit/src/utils.ts:141-164 | From every reachable state, at most two more settled operations answer every call made so far |
| PromiseQueues.RunKeepsInv | packages/rivetkit/src/utils.ts:121-164 | The invariant behind the contract is kept by every run of calls and settlements |
| PromiseQueues.CallKeepsInv | packages/rivetkit/src/utils.ts:121-138 | A call of `enqueue` keeps cycles, resolvers and the record of starts in agreement |
| PromiseQueues.SettleKeepsInv | packages/rivetkit/src/utils.ts:141-164 | So does a turn of the drain loop, whether the operation succeeded or failed |
| PromiseQueues.SinglePromiseQueue.constructor | packages/rivetkit/src/utils.ts:110-118 | A new queue is empty and idle |
| PromiseQueues.SinglePromiseQueue.Enqueue | packages/rivetkit/src/utils.ts:121-138 | The fields after a call are the machine's; the caller gets the open cycle; the operation starts at once exactly if no loop runs |
| PromiseQueues.SinglePromiseQueue.OpSettled | packages/rivetkit/src/utils.ts:152-160 | When the awaited operation settles, the resolver captured with it is the one called, and the loop goes round |
| PromiseQueues.SinglePromiseQueue.TakeNext | packages/rivetkit/src/utils.ts:143-150 | The head of the loop captures resolver and operation together, or ends the loop |
| PromiseQueueReentrancy.EnqueueStaysSingleIff | packages/rivetkit/src/utils.ts:121-138 | Operations stay one at a time exactly if a loop is already running or the operation makes no synchronous `enqueue` call |
| PromiseQueueReentrancy.SettleStaysSingle | packages/rivetkit/src/utils.ts:141-164 | An operation started by the loop itself may enqueue synchronously without harm: its calls only queue, and the last of them runs next |
| PromiseQueueReentrancy.FlightsNeverDropOnEnqueue | packages/rivetkit/src/utils.ts:121-138 | However deeply calls nest, each call on an idle queue adds an operation in flight and leaves a loop running |
| PromiseQueueReentrancy.PlainOperationsAgree | packages/rivetkit/src/utils.ts:110-165 | For operations without synchronous calls the reentrant queue takes the same steps as the plain one |
| Schedules.InsertIndexIsFirstLater | packages/rivetkit/src/actor/instance.ts:371-373 | The insertion point is after every event no later than the new one and before the first later one |
| Schedules.InsertKeepsOrder | packages/rivetkit/src/actor/instance.ts:371-378 | Inserting keeps the list sorted, ties in the order of scheduling |
| Schedules.FirstDueIsFirst | packages/rivetkit/src/actor/instance.ts:405-407 | On any list, the index found is that of the first due event, and none is found exactly if none is due |
| Schedules.AlarmTakesOnlyTheFirst | packages/rivetkit/src/actor/instance.ts:405-430 | On a sorted list an alarm dequeues one event if the first is due, and none otherwise |
| Schedules.OrderIsUnique | packages/rivetkit/src/actor/instance.ts:371-378 | The sorted list is determined by the events in it |
| Schedules.RunKeepsConserved | packages/rivetkit/src/actor/instance.ts:371-430 | Every run of scheduling and alarms keeps order, numbering and conservation |
| Schedules.EventsAreConserved | packages/rivetkit/src/actor/instance.ts:371-430 | Over every run each scheduled event is pending or executed, never both, never twice, and never executed before its time |
| Schedules.AlarmMakesProgress | packages/rivetkit/src/actor/instance.ts:405-430 | An alarm with due events executes the first of them, and exactly one fewer is due afterwards |
| Alarms.NoLostAlarm | packages/rivetkit/src/actor/instance.ts:336-443 | In every state that a started instance reaches by any interleaving of scheduling, driver, timer and callback steps, the first pending event the driver accepts has an alarm callback pending, or its own `setAlarm` as the last request not yet applied, or a timer armed no later than it |
| Alarms.StepKeepsInv | packages/rivetkit/src/drivers/file-system/global-state.ts:558-627 | Each of the eight steps of the three components keeps the invariant |
| Alarms.RunKeepsInv | packages/rivetkit/src/actor/instance.ts:367-443 | So does every run |
| Alarms.InternalStepsUseUpWork | packages/rivetkit/src/drivers/file-system/global-state.ts:558-627 | Every step the runtime takes by itself, with the clock past the pending events, lowers a measure of the work left |
| Alarms.NotQuietMeansStep | packages/rivetkit/src/drivers/file-system/global-state.ts:558-627 | Unless nothing is under way, such a step can be taken |
| Alarms.EveryEventIsDelivered | packages/rivetkit/src/actor/instance.ts:392-443 | With the clock past the pending events, the runtime's own steps end after a bounded number in any order; when none is left, every event has been executed unless the driver rejects the first one left, and all have been if it rejects none of them |
| Alarms.RestIsReached | packages/rivetkit/src/actor/instance.ts:392-443 | From every reachable state of a started instance the runtime's own steps lead to one where none is left |
| Alarms.DriverAcceptsIff | packages/rivetkit/src/drivers/file-system/global-state.ts:345-359 | A driver in memory mode accepts every timestamp, a persistent one exactly whole milliseconds |
| Alarms.TimerIsEarliest | packages/rivetkit/src/drivers/file-system/global-state.ts:558-583 | Over every run the timer is armed for the earliest of the alarms set since it last fired, and not at all if there are none |
| Alarms.CallbacksAreCounted | packages/rivetkit/src/drivers/file-system/global-state.ts:581-627 | Over every run the callbacks pending are the firings less the callbacks that have run or failed |
| Alarms.ScheduledEventIsCoveredIff | packages/rivetkit/src/drivers/file-system/global-state.ts:334-363 | An event scheduled on any actor at rest, whatever is pending, has an alarm coming after its `setAlarm` settled exactly if it comes before every pending event and the driver accepts it (memory mode, or an integer timestamp); otherwise the actor stays at rest with the event pending |
| Alarms.FirstEventBlocksTheRest | packages/rivetkit/src/actor/instance.ts:380-389 | From a state at rest with events pending, over every run that schedules none before the first of them, nothing is executed and everything scheduled stays pending |
| Alarms.HalfMillisecondIsStranded | packages/rivetkit/src/drivers/file-system/global-state.ts:339-359 | A timestamp of 0.5 is pending with nothing under way |
| Alarms.HalfMillisecondStrandsAnInteger | packages/rivetkit/src/actor/instance.ts:380-389 | So is 1.0 scheduled behind it |
| Alarms.ActorEntry.constructor | packages/rivetkit/src/drivers/file-system/global-state.ts:184-188 | A new entry has no alarm |
| Alarms.ActorEntry.ScheduleAlarmTimeout | packages/rivetkit/src/drivers/file-system/global-state.ts:558-580 | The timer left armed is no later than the request, and is replaced exactly if the request is earlier |
| Alarms.ActorEntry.FireTimer | packages/rivetkit/src/drivers/file-system/global-state.ts:581-583 | A firing timer clears the entry's timestamp first |
| Alarms.ActorSchedule.constructor | packages/rivetkit/src/actor/instance.ts:700-700 | An instance begins with the restored events and an idle alarm queue |
| Alarms.ActorSchedule.FindFirstLater | packages/rivetkit/src/actor/instance.ts:371-373 | The search loop finds the insertion point, or -1 if it is the end |
| Alarms.ActorSchedule.ScheduleEventInner | packages/rivetkit/src/actor/instance.ts:367-390 | The new list is the sorted insertion, and `setAlarm` is queued exactly if the event became the first |
| Alarms.ActorSchedule.FindFirstDue | packages/rivetkit/src/actor/instance.ts:405-407 | The search loop finds the first due event, or -1 if none is due |
| Alarms.ActorSchedule.OnAlarm | packages/rivetkit/src/actor/instance.ts:392-443 | The list loses exactly the events returned, and `setAlarm` is queued for the new first event on both branches |
| Persistence.CleanMeansCaptured | packages/rivetkit/src/actor/instance.ts:554-584 | Over every run the flag is clear exactly if the last snapshot is the current state; with no write under way, a clear flag means stored exactly if the last write succeeded |
| Persistence.StorageNeverGoesBack | packages/rivetkit/src/actor/instance.ts:554-584 | Over every run, also with failed writes, no stored version is replaced by an earlier one |
| Persistence.ImmediateSaveIsDurable | packages/rivetkit/src/actor/instance.ts:1505-1511 | When the promise of an immediate save of dirty state has resolved and no write failed, storage holds at least the version at the call, whatever happened in between |
| Persistence.StopIsDurable | packages/rivetkit/src/actor/instance.ts:1663-1684 | When `_stop` has finished and no write failed, storage holds at least the version at its flush |
| Persistence.FlushIsDurable | packages/rivetkit/src/actor/instance.ts:1663-1684 | From any state in which `_stop` flushes: when it has finished and no write failed, storage holds at least the state in memory at the flush, whatever happened in between |
| Persistence.ImmediateSaveIsAnswered | packages/rivetkit/src/actor/instance.ts:1505-1511 | The promise of an immediate save of dirty state has resolved once two more writes have settled |
| Persistence.NoRedundantWrites | packages/rivetkit/src/actor/instance.ts:558-564 | A write starts only with a state that has not been captured |
| Persistence.FailuresAreHistory | packages/rivetkit/src/actor/instance.ts:554-584 | A failure is on record exactly if a write has failed, and only a write that lands changes storage |
| Persistence.StalenessIsBounded | packages/rivetkit/src/actor/instance.ts:534-551 | Every version that existed when a handler ended is captured, or a write is queued, or the throttle timer fires within `stateSaveInterval` of that moment; it also holds after `_stop` for all handlers but those that end after a pending timer was cancelled |
| Persistence.StepSetsTimes | packages/rivetkit/src/actor/instance.ts:534-556 | The time of the last save is set by saves only, to their time; a timer armed within the window is due exactly one interval after the last save; nothing else arms, moves or clears it |
| Persistence.ThrottledSavesAreApart | packages/rivetkit/src/actor/instance.ts:534-551 | Over every run, after a save by the throttle the next one is at least one interval later, with any immediate saves in between, unless the first was at a handler's end and left an overdue timer behind |
| Persistence.OverdueTimerSavesAgain | packages/rivetkit/src/actor/instance.ts:547-550 | In that case the timer can save again at once |
| Persistence.TimerStaysUntilFired | packages/rivetkit/src/actor/instance.ts:541-545 | A pending timer stays as it was armed until it fires |
| Persistence.CancelledTimerNeverFires | packages/rivetkit/src/actor/instance.ts:1657-1658 | From a flush that finds the timer pending, no run fires the throttle timer |
| Persistence.LateHandlerIsSavedIff | packages/rivetkit/src/actor/instance.ts:1657-1664 | A handler that ends after the cancellation has its changes saved exactly if there are none, a write is queued, or the throttle window is over |
| Persistence.RestSurvivesStopIff | packages/rivetkit/src/actor/instance.ts:627-646 | Connections and events in memory at the flush of `_stop` are stored when it finishes exactly if the flag was set, or they were captured already, or a change to the state made after the flush was stored with them |
| Persistence.ScheduledEventLostBySleep | packages/rivetkit/src/actor/instance.ts:1505-1525 | A run in which an event scheduled on an otherwise unchanged actor is not in storage after `_stop` |
| Persistence.RunKeepsInv | packages/rivetkit/src/actor/instance.ts:534-584 | Every run keeps flag, queue, storage, waiting callers, stop sequence and throttle timer in agreement |
| Persistence.PersistSaver.constructor | packages/rivetkit/src/actor/instance.ts:554-559 | An instance begins clean, with no timer and an idle write queue |
| Persistence.PersistSaver.StateChanged | packages/rivetkit/src/actor/instance.ts:627-646 | A change to the state sets the flag and nothing else |
| Persistence.PersistSaver.SavePersistThrottled | packages/rivetkit/src/actor/instance.ts:534-551 | Within the window a timer for its end is armed unless one is; outside it a save is made |
| Persistence.PersistSaver.SaveTimeoutFires | packages/rivetkit/src/actor/instance.ts:542-545 | The timer clears its field, then saves |
| Persistence.PersistSaver.SavePersistInner | packages/rivetkit/src/actor/instance.ts:554-584 | Dirty state joins the open cycle; the flag is cleared exactly if the write starts at once |
| Persistence.PersistSaver.WriteDone | packages/rivetkit/src/utils.ts:143-160 | After a write its callers are resolved, and a queued write starts and clears the flag |
| Subscriptions.RunKeepsAgreement | packages/rivetkit/src/actor/instance.ts:1019-1085 | After any run of connects, subscribes, unsubscribes, (repeated) removals and restores, a connection is in an event's index entry exactly if it is registered and the event is in its own set and in its duplicate-free persisted list; no entry is empty; the persisted list holds the registered connections once each |
| Subscriptions.BroadcastReachesWhoAsked | packages/rivetkit/src/actor/instance.ts:1449-1469 | Over every run, with sleeping and waking in between, a broadcast reaches exactly the ids that have connected, were not removed, and whose last request for the event since then was a subscription |
| Subscriptions.RunWants | packages/rivetkit/src/actor/instance.ts:895-1085 | From any agreeing registry, what the registered connections hold is what the requests of the run, one by one, ask for |
| Subscriptions.SubscribeKeepsAgreementIff | packages/rivetkit/src/actor/instance.ts:1019-1047 | A subscription request keeps the agreement exactly if its connection is registered or already had the event |
| Subscriptions.UnsubscribeKeepsAgreement | packages/rivetkit/src/actor/instance.ts:1049-1085 | An unsubscription always keeps it |
| Subscriptions.UnsubscribeTakesEventAway | packages/rivetkit/src/actor/instance.ts:1049-1085 | After an unsubscription the event is in neither the connection's own set nor its persisted list nor its index entry; its other events, other connections and other entries are as before |
| Subscriptions.RemoveFirstCutsOne | packages/rivetkit/src/actor/instance.ts:1065-1069 | One place is cut out of the persisted list, and the rest keeps its order |
| Subscriptions.SubscribeAppends | packages/rivetkit/src/actor/instance.ts:1029-1038 | A new subscription is persisted last, a restored one is not persisted again |
| Subscriptions.RemoveForgetsConn | packages/rivetkit/src/actor/instance.ts:780-805 | After a removal the id is free, nothing is sent to the connection, and other connections stay registered |
| Subscriptions.RemoveKeepsAgreementIff | packages/rivetkit/src/actor/instance.ts:780-805 | A removal keeps it exactly if no other connection is registered under the id, or that one has no subscriptions |
| Subscriptions.RemoveAgainChangesNothing | packages/rivetkit/src/actor/instance.ts:780-805 | A repeated removal, with the id not reused, changes nothing |
| Subscriptions.RestoreAllSpec | packages/rivetkit/src/actor/instance.ts:700-718 | Restoring a list with distinct ids and no repeated subscription gives a registry in agreement whose list is that one |
| Subscriptions.SubscribersAreInTheList | packages/rivetkit/src/actor/instance.ts:1019-1047 | The subscribers an index entry holds are those the persisted list names |
| Subscriptions.RestoreRoundTrip | packages/rivetkit/src/actor/instance.ts:700-718 | Sleeping and waking gives back the list, its order and every event's subscribers |
| Subscriptions.ConnRegistry.constructor | packages/rivetkit/src/actor/instance.ts:679-703 | An instance begins with no connections and an empty index |
| Subscriptions.ConnRegistry.Create | packages/rivetkit/src/actor/instance.ts:895-938 | A taken id is refused without change; otherwise the connection is registered and persisted |
| Subscriptions.ConnRegistry.Subscribe | packages/rivetkit/src/actor/instance.ts:1019-1047 | Own set, persisted list (unless restoring) and index change together, or not at all |
| Subscriptions.ConnRegistry.Unindex | packages/rivetkit/src/actor/instance.ts:1077-1084 | The connection leaves the entry, and an empty entry is deleted |
| Subscriptions.ConnRegistry.Unsubscribe | packages/rivetkit/src/actor/instance.ts:1049-1085 | Own set, persisted list and index lose the event together, or not at all |
| Subscriptions.ConnRegistry.Remove | packages/rivetkit/src/actor/instance.ts:780-805 | The loop over the connection's events leaves the index without it in all of them; its own set stays |
| Subscriptions.ConnRegistry.Restore | packages/rivetkit/src/actor/instance.ts:700-718 | The nested restore loops compute the restored registry |
| Subscriptions.ConnRegistry.Broadcast | packages/rivetkit/src/actor/instance.ts:1449-1469 | Every connection in the event's entry gets the message once; under the agreement these are exactly the registered ones subscribed to it |
| DriverLifecycle.SingleInstance | packages/rivetkit/src/drivers/file-system/global-state.ts:296-318 | However loads, starts, alarm wake-ups and sleeps interleave, no two instances of one actor id are both not fully stopped, and the one that is not stopped is the one the map leads to |
| DriverLifecycle.StepKeepsInv | packages/rivetkit/src/drivers/file-system/global-state.ts:440-501 | Each step between two awaits keeps map, entries, instances and calls under way in agreement |
| DriverLifecycle.RunKeepsInv | packages/rivetkit/src/actor/instance.ts:1586-1609 | So does every run in which each instance calls the driver's sleep at most once |
| DriverLifecycle.RunKeepsMarks | packages/rivetkit/src/drivers/file-system/global-state.ts:296-318 | Over every run `removed` is set exactly while the entry's instance is stopping or stopped, and a start runs exactly while its promise is set |
| DriverLifecycle.HandsOutStoppingIff | packages/rivetkit/src/drivers/file-system/global-state.ts:447-491 | Over every run, wherever a start call returns an instance (at once after loading, after waiting for another call's start, or after its own), it is stopping or stopped exactly if its entry is marked `removed`; after its own start it never is |
| DriverLifecycle.StartDuringStopHandsItOut | packages/rivetkit/src/drivers/file-system/global-state.ts:447-463 | A start call made while `_stop` runs is handed the stopping instance, or the stopped one if `_stop` finishes first |
| DriverLifecycle.StoppingIsReached | packages/rivetkit/src/drivers/file-system/global-state.ts:309-314 | Loading, starting and putting an actor to sleep reaches such a state |
| DriverLifecycle.InstanceIsMadeIff | packages/rivetkit/src/drivers/file-system/global-state.ts:447-477 | A start call that has loaded makes an instance exactly if the actor exists, is not starting and has none; otherwise nothing changes, and it waits exactly if the actor is starting |
| DriverLifecycle.StopEndsIt | packages/rivetkit/src/drivers/file-system/global-state.ts:314-317 | When a stop has finished, the id is free and that instance stopped; entries and other instances are as before |
| DriverLifecycle.StoppedActorStartsAgain | packages/rivetkit/src/drivers/file-system/global-state.ts:178-191 | A start call for an id that has left the map gets a new entry and, once loaded, a new instance |
| DriverLifecycle.FileSystemDriver.constructor | packages/rivetkit/src/drivers/file-system/global-state.ts:178-191 | The driver begins with no entries |
| DriverLifecycle.FileSystemDriver.UpsertEntry | packages/rivetkit/src/drivers/file-system/global-state.ts:178-191 | The map leads to the entry returned, a new one exactly if there was none |
| DriverLifecycle.FileSystemDriver.StartAfterLoad | packages/rivetkit/src/drivers/file-system/global-state.ts:448-477 | An instance is made exactly if the entry is loaded, not starting and has none |
| DriverLifecycle.FileSystemDriver.SleepMarksRemoved | packages/rivetkit/src/drivers/file-system/global-state.ts:309-314 | The entry is marked and `_stop` begins if it has an instance |
| DriverLifecycle.FileSystemDriver.SleepAfterStop | packages/rivetkit/src/drivers/file-system/global-state.ts:314-317 | The id leaves the map only when the instance has stopped |
| Sleep.SleepIsSafeIff | packages/rivetkit/src/actor/instance.ts:1538-1609 | Over every run: there is never a connected connection, raw fetch or raw socket while the timer is armed, or after it has put the actor to sleep, exactly if no open transport is probed then; and in any case a ready, capable actor with nothing attached has the timer armed or is sleeping or stopping |
| Sleep.NeverArmedWhileServing | packages/rivetkit/src/actor/instance.ts:1265-1334 | Over every run from the start: while a fetch that was let in has not ended, or a socket that was let in has not closed, read off the run and not off the fields, the timer is not armed and has not put the actor to sleep |
| Sleep.FetchesAreCounted | packages/rivetkit/src/actor/instance.ts:1273-1295 | The counter is the number of fetches let in less those ended |
| Sleep.SocketsAreTracked | packages/rivetkit/src/actor/instance.ts:1317-1329 | The tracked sockets are those let in and not closed since |
| Sleep.ConnsArePresent | packages/rivetkit/src/actor/instance.ts:904-929 | The connections are those let in and not removed since |
| Sleep.FlagsAreHistory | packages/rivetkit/src/actor/instance.ts:1087-1093 | The flags that decide admission are set exactly if the run has finished its start, called sleep, or called stop |
| Sleep.SleptByTimerIff | packages/rivetkit/src/actor/instance.ts:1594-1598 | The timer has put the actor to sleep exactly if its call of `_sleep` was the first |
| Sleep.StatusFollowsSteps | packages/rivetkit/src/actor/connection.ts:211-259 | What each step makes of each connection: a new one is connected, a disconnected one is not, a probe sets status and time seen, `_stop` disconnects all, and no other step touches any |
| Sleep.StepIsSafeIff | packages/rivetkit/src/actor/connection.ts:227-259 | Of all steps exactly the probe of an open transport breaks the timer's promise, and only while the timer is armed or has put the actor to sleep |
| Sleep.WithoutHttpDisconnectSleepIsSafe | packages/rivetkit/src/actor/generic-conn-driver.ts:108-233 | Every run that disconnects no open HTTP connection keeps the promise in every state: a closed WebSocket or SSE transport does not report open again |
| Sleep.RunKeepsInv | packages/rivetkit/src/actor/instance.ts:1265-1334 | Every run keeps what does not depend on probes: no idle leak, sleep by the timer is sleep, and only capable actors have a timer |
| Sleep.ProbeIsSafeIff | packages/rivetkit/src/actor/connection.ts:227-259 | A liveness probe keeps the timer's promise exactly if the timer is not armed (and has not put the actor to sleep) or the transport is reported closed |
| Sleep.HttpDisconnectBreaksSafety | packages/rivetkit/src/actor/generic-conn-driver.ts:224-233 | Disconnecting the only HTTP connection, an alarm and a probe leave the timer armed on a connected actor |
| Sleep.LeakBeginsIff | packages/rivetkit/src/actor/connection.ts:211-259 | A state in which the actor could sleep and has no timer begins exactly when `disconnect`, or a probe that finds the transport closed, takes the connected status from the last connection that had it, on a ready actor with no raw fetch or socket |
| Sleep.TimerShowsLastReset | packages/rivetkit/src/actor/instance.ts:1538-1565 | Over every run, until sleep or stop is called, the timer is armed exactly if the actor could sleep when it was last re-evaluated |
| Sleep.TimerIsImplied | packages/rivetkit/src/actor/instance.ts:1538-1583 | Over every run the timer is what the last step that re-evaluated it implies, by readiness, sleep, connections, fetches and sockets spelled out, unless it fired or `_stop` cleared it since |
| Sleep.LeaksIff | packages/rivetkit/src/actor/instance.ts:1538-1583 | Over every run, an actor that could sleep and is not on its way out has no timer exactly if it could not sleep when the timer was last re-evaluated |
| Sleep.SleepAdmitsNothing | packages/rivetkit/src/actor/instance.ts:1087-1093 | Once sleep is called no run adds a connection, fetch or socket |
| Sleep.SleepController.constructor | packages/rivetkit/src/actor/instance.ts:336-345 | An instance begins not ready, with its restored connections |
| Sleep.SleepController.MaySleep | packages/rivetkit/src/actor/instance.ts:1568-1583 | True exactly if ready with no connected connection, fetch or socket |
| Sleep.SleepController.ResetSleepTimer | packages/rivetkit/src/actor/instance.ts:1538-1565 | The timer is left armed exactly if the actor may sleep and has not been told to; nothing changes if it cannot |
| Sleep.SleepController.Connect | packages/rivetkit/src/actor/instance.ts:895-934 | Admitted exactly if ready, not sleeping, not stopping and the id is free |
| Sleep.SleepController.Remove | packages/rivetkit/src/actor/instance.ts:799-827 | The connection goes and the timer is re-evaluated |
| Sleep.SleepController.BeginFetch | packages/rivetkit/src/actor/instance.ts:1265-1274 | An admitted fetch is counted before the timer is re-evaluated |
| Sleep.SleepController.EndFetch | packages/rivetkit/src/actor/instance.ts:1291-1295 | The count drops, never below zero, before the timer is re-evaluated |
| Sleep.SleepController.OpenSocket | packages/rivetkit/src/actor/instance.ts:1302-1318 | An admitted socket is tracked before the timer is re-evaluated |
| Sleep.SleepController.CloseSocket | packages/rivetkit/src/actor/instance.ts:1321-1329 | A closed socket is untracked before the timer is re-evaluated, also when it closes twice |
| Sleep.SleepController.DisconnectConn | packages/rivetkit/src/actor/connection.ts:211-219 | The status changes at once; WebSocket and SSE transports close, an HTTP one stays open; the timer is not re-evaluated |
| Sleep.SleepController.CheckLiveness | packages/rivetkit/src/actor/connection.ts:227-259 | The status becomes what the transport reports; an open one is seen now, a closed one keeps the time it was last seen, and both are returned |
| Sleep.SleepController.CheckOne | packages/rivetkit/src/actor/instance.ts:1103-1127 | A connection is probed, and removed if it is closed and was not seen for the timeout |
| Sleep.SleepController.CheckConnectionsLiveness | packages/rivetkit/src/actor/instance.ts:1099-1129 | The loop leaves exactly the connections that are open or were seen within the timeout, probed, in whatever order it visits them |
| Sleep.SweepIsRun | packages/rivetkit/src/actor/instance.ts:1099-1129 | A liveness check is a run of the machine, so what is proved of runs holds of it |
| Sleep.SweepEndsLeakIff | packages/rivetkit/src/actor/instance.ts:1099-1129 | A liveness check ends a state in which the actor could sleep and has no timer exactly if some connection reports open or has not been seen for the timeout |
| Sleep.SweepIsStable | packages/rivetkit/src/actor/instance.ts:1099-1129 | Checking again at the same time changes nothing more |
| Sleep.SleepController.SleepTimerFires | packages/rivetkit/src/actor/instance.ts:1586-1598 | Sleep is called once; a second call changes nothing |
| ClientSubscriptions.SubscriptionsAgree | packages/rivetkit/src/client/actor-conn.ts:314-339 | Across any number of reconnects, with callbacks that subscribe, unsubscribe, dispose or throw while an event is dispatched, from Init until the socket closes or the connection is disposed of: the server's set once the requests under way are applied is exactly the events with an entry plus those whose entry a dispatch on this socket deleted |
| ClientSubscriptions.RunKeepsInv | packages/rivetkit/src/client/actor-conn.ts:488-553 | The invariant behind it is kept by every run |
| ClientSubscriptions.SendAllSpec | packages/rivetkit/src/actor/protocol/old.ts:175-195 | Resubscribing adds exactly the listed events to what the server will hold |
| ClientSubscriptions.OnAddsListener | packages/rivetkit/src/client/actor-conn.ts:524-540 | `on` and `once` add one new listener and no other |
| ClientSubscriptions.OffRemovesListener | packages/rivetkit/src/client/actor-conn.ts:543-552 | The function they return takes away that listener and no other, whether or not others remain |
| ClientSubscriptions.RequestsFollowEntries | packages/rivetkit/src/client/actor-conn.ts:534-552 | A request is sent exactly when an event's entry appears or is taken away by its last unsubscription, on a connection not disposed of |
| ClientSubscriptions.SocketIsHistory | packages/rivetkit/src/client/actor-conn.ts:359-368 | Over every run the socket is open, and past Init, exactly as the socket events of the run say; a new one starts with nothing subscribed |
| ClientSubscriptions.DispatchKeepsInv | packages/rivetkit/src/client/actor-conn.ts:488-509 | A dispatch keeps the invariant, whatever its callbacks do and whether or not one throws |
| ClientSubscriptions.DispatchKeepsListenersIff | packages/rivetkit/src/client/actor-conn.ts:488-509 | The clean-up of a dispatch keeps every listener the event has when the last callback returns exactly if it has none or no callback's unsubscription took the event's last listener away meanwhile; otherwise it loses all of them; other events keep theirs |
| ClientSubscriptions.WithoutOffNothingIsLost | packages/rivetkit/src/client/actor-conn.ts:496-508 | Callbacks that do not unsubscribe from the event being dispatched lose no listener of it |
| ClientSubscriptions.PlainDispatchLeavesRepeating | packages/rivetkit/src/client/actor-conn.ts:496-508 | With callbacks that leave the connection alone a dispatch leaves the repeating listeners, and deletes the entry without a request if there are none |
| ClientSubscriptions.ThrowingDispatchKeepsTheRest | packages/rivetkit/src/client/actor-conn.ts:496-508 | If a callback throws, the once listeners called before it are gone and the entry stays, even if it is empty |
| ClientSubscriptions.ResubscribingInCallbackIsLost | packages/rivetkit/src/client/actor-conn.ts:505-508 | A callback that unsubscribes itself, the only listener, and subscribes again loses the new listener |
| ClientSubscriptions.ResubscribingAfterOnceIsLost | packages/rivetkit/src/client/actor-conn.ts:496-508 | So does one called after the event's other listener, a once listener, has left |
| ClientRequests.RequestsAreConserved | packages/rivetkit/src/client/actor-conn.ts:155-186 | Over every run each issued request is in exactly one of handed over and queued until the connection is disposed of; ids are unique and below the counter; each action is in flight or settled exactly once |
| ClientRequests.RequestIsWhereSent | packages/rivetkit/src/client/actor-conn.ts:602-649 | Over every run a request is queued exactly if the socket took it neither when its action was called nor at any flush since, and handed over exactly if it took it |
| ClientRequests.InFlightUntilAnswered | packages/rivetkit/src/client/actor-conn.ts:369-421 | Over every run an action is in flight exactly while neither its response nor an error for it nor a connection error has come |
| ClientRequests.ActionGoesWhereTaken | packages/rivetkit/src/client/actor-conn.ts:155-182 | An action's request is the last one handed over if the socket takes it, with the queue unchanged, and the last one queued if not; on a disposed connection it is neither, though the action is registered |
| ClientRequests.FlushFollowsOutcomes | packages/rivetkit/src/client/actor-conn.ts:331-338 | A flush hands over exactly the queued messages the socket takes, and keeps the others |
| ClientRequests.DisposedSendsNothing | packages/rivetkit/src/client/actor-conn.ts:602-605 | Once disposed of, no run issues or hands over anything |
| ClientRequests.DisposedIffTold | packages/rivetkit/src/client/actor-conn.ts:724-731 | The connection is disposed of exactly if it was told to |
| ClientRequests.RunKeepsInv | packages/rivetkit/src/client/actor-conn.ts:602-649 | The invariant behind it is kept by every run |
| ClientRequests.FlushKeepsOrder | packages/rivetkit/src/client/actor-conn.ts:331-338 | A flush hands messages over in queue order and keeps the rest in queue order |
| ClientRequests.FlushLosesNothingIff | packages/rivetkit/src/client/actor-conn.ts:326-338 | The messages handed over and queued, taken together, are the same after processing Init exactly if the connection is not disposed of, or has a listener, or has nothing queued |
| ClientRequests.ErrorHitsOnlyItsActionIff | packages/rivetkit/src/client/actor-conn.ts:373-404 | An error naming an action settles that action alone exactly if it is not action 0, or 0 is the only one in flight |
| ClientConn.ActorConn.constructor | packages/rivetkit/src/client/actor-conn.ts:155-171 | A new connection has nothing queued, in flight or subscribed |
| ClientConn.ActorConn.Action | packages/rivetkit/src/client/actor-conn.ts:155-182 | The id is the counter's; the action is registered before sending and stays so when sending throws |
| ClientConn.ActorConn.SendMessage | packages/rivetkit/src/client/actor-conn.ts:602-649 | Throws without change on a disposed connection; otherwise the message is handed over exactly if the socket is open and sending does not throw, and queued if not |
| ClientConn.ActorConn.HandleOnOpen | packages/rivetkit/src/client/actor-conn.ts:314-339 | The two loops resubscribe all events, then flush; on a disposed connection the first send throws |
| ClientConn.ActorConn.SettleAction | packages/rivetkit/src/client/actor-conn.ts:479-486 | An action in flight is taken out and settled; an unknown one changes nothing |
| ClientConn.ActorConn.HandleError | packages/rivetkit/src/client/actor-conn.ts:369-408 | A nonzero action id settles that action; otherwise the loop settles all in flight, in the map's order |
| ClientConn.ActorConn.AddEventSubscription | packages/rivetkit/src/client/actor-conn.ts:524-540 | The first listener of an event sends a request; on a disposed connection an empty entry is left behind |
| ClientConn.ActorConn.RemoveEventSubscription | packages/rivetkit/src/client/actor-conn.ts:543-552 | The last listener takes the entry with it and sends a request |
| ClientConn.ActorConn.Perform | packages/rivetkit/src/client/actor-conn.ts:524-553 | What the application or a callback calls on the connection changes listeners and wire as the machine does |
| ClientConn.ActorConn.RunCallback | packages/rivetkit/src/client/actor-conn.ts:496-497 | The loop over a callback's calls keeps the captured set and the map's entry one object until the entry is deleted |
| ClientConn.ActorConn.DispatchEvent | packages/rivetkit/src/client/actor-conn.ts:488-509 | The loop over the listeners, removing each once listener after its own callback, and the clean-up by name compute the dispatch, also when a callback throws |
| KeyEscaping.TwoPassesAreOne | packages/rivetkit/src/drivers/engine/keys.ts:19-25 | The two global replacements equal one pass that puts a backslash before each backslash and separator |
| KeyEscaping.EscapedIsReadBack | packages/rivetkit/src/drivers/engine/keys.ts:47-76 | From any parser state between escapes, reading an escaped string appends the string |
| KeyEscaping.EscapedEncodes | packages/cloudflare-workers/src/util.ts:47-50 | An escaped part is read back as that part, whatever came before |
| KeyEscaping.JoinedIsReadBack | packages/rivetkit/src/drivers/engine/keys.ts:28-28 | Parts that are each read back are read back when joined by the separator |
| EngineKeys.DeserializeActorKey | packages/rivetkit/src/drivers/engine/keys.ts:31-89 | The character loop computes the parser's result on every string, also malformed ones, and on none |
| EngineKeys.PartIsReadBack | packages/rivetkit/src/drivers/engine/keys.ts:13-26 | Every part, also the empty one, is written so that it is read back, and never begins with the separator |
| EngineKeys.PartsAreReadBack | packages/rivetkit/src/drivers/engine/keys.ts:41-76 | The loop has read exactly the key's parts at the end of its serialisation |
| EngineKeys.KeyRoundTrip | packages/rivetkit/src/drivers/engine/keys.ts:6-89 | Deserialising the serialised key gives back every key, with no exception |
| EngineKeys.SerializationIsInjective | packages/rivetkit/src/drivers/engine/keys.ts:6-29 | Different keys are written differently |
| EngineKeys.WrittenForms | packages/rivetkit/src/drivers/engine/keys.ts:3-28 | The marker of the empty key, the separator, both escapes and the marker of an empty part, as text |
| EngineKeys.NoKeyIsEmpty | packages/rivetkit/src/drivers/engine/keys.ts:31-39 | No text, the empty text and the marker are the empty key |
| EngineKeys.TrailingBackslashIsKept | packages/rivetkit/src/drivers/engine/keys.ts:79-81 | After any key, an escape that is cut off stands for a backslash in the last part |
| EngineKeys.StrayEscape | packages/rivetkit/src/drivers/engine/keys.ts:50-59 | An escape of another character stands for the character |
| EngineKeys.MarkerEmptiesPart | packages/rivetkit/src/drivers/engine/keys.ts:65-71 | A marker empties its part, whatever else the part holds, in the middle and at the end |
| CloudflareKeys.DeserializeKey | packages/cloudflare-workers/src/util.ts:62-104 | The character loop computes the parser's result on every string |
| CloudflareKeys.PartsAreReadBack | packages/cloudflare-workers/src/util.ts:73-96 | The loop has read exactly the key's parts at the end of its serialisation |
| CloudflareKeys.EmptyStringIsOneEmptyPart | packages/cloudflare-workers/src/util.ts:34-54 | Exactly the key with one empty part is written as the empty string |
| CloudflareKeys.NotTheEmptyMarker | packages/cloudflare-workers/src/util.ts:41-45 | No nonempty key is written as the marker of the empty one |
| CloudflareKeys.KeyRoundTripIff | packages/cloudflare-workers/src/util.ts:34-104 | The round trip gives a key back exactly if it is not the key with one empty part |
| CloudflareKeys.SerializeKeyIsInjective | packages/cloudflare-workers/src/util.ts:34-54 | Different keys are written differently, that one included |
| CloudflareKeys.WrittenForms | packages/cloudflare-workers/src/util.ts:34-54 | The marker of the empty key, the separator and the escapes, as text |
| CloudflareKeys.WrittenNames | packages/cloudflare-workers/src/util.ts:12-26 | A name with the empty key, and a name with a colon, as text |
| CloudflareKeys.NoKeyIsEmpty | packages/cloudflare-workers/src/util.ts:62-71 | The empty text and the marker are the empty key |
| CloudflareKeys.TrailingBackslashIsDropped | packages/cloudflare-workers/src/util.ts:81-100 | After any nonempty key but the one with a single empty part, an escape that is cut off is dropped |
| CloudflareKeys.StrayEscapes | packages/cloudflare-workers/src/util.ts:81-100 | A lone backslash is no part, and an escaped zero is a zero |
| CloudflareKeys.EscapeNameIsInjective | packages/cloudflare-workers/src/util.ts:13-14 | Escaping the colons keeps different names different |
| CloudflareKeys.NameAndKeyIsInjective | packages/cloudflare-workers/src/util.ts:12-26 | Different pairs are written differently if neither name ends in a backslash (other backslashes are allowed) |
| CloudflareKeys.BackslashedNameCollides | packages/cloudflare-workers/src/util.ts:12-26 | For every name that ends in a backslash, two pairs that are written alike |
| CloudflareKeys.NameCollidesIff | packages/cloudflare-workers/src/util.ts:12-26 | A name is confused with a pair whose name does not end in a backslash exactly if it ends in one |
| CloudflareKeys.NamesAreConfusedIff | packages/cloudflare-workers/src/util.ts:12-26 | Two different names are written alike with suitable keys exactly if one, escaped, continues the other with a colon and what follows up to its own colon is the beginning of a written key |
| CloudflareKeys.CutKey | packages/cloudflare-workers/src/util.ts:34-54 | What a key is written as, cut after a colon, is again what a key is written as |
| CloudflareKeys.OneNameIsNeverConfused | packages/cloudflare-workers/src/util.ts:12-26 | Different keys under one name are written differently, whatever the name |
| CloudflareKeys.BackslashedNamesAreConfused | packages/cloudflare-workers/src/util.ts:12-26 | Two names that both end in a backslash and are written alike |
| VersionedData.ReadU32OfU32 | packages/rivetkit/src/common/versioned-data.ts:65-88 | Reading the four bytes gives back the low 32 bits |
| VersionedData.PrefixForm | packages/rivetkit/src/common/versioned-data.ts:65-88 | The prefix is little-endian and stands before the data |
| VersionedData.ExtractFailsIffShort | packages/rivetkit/src/common/versioned-data.ts:76-79 | Extraction fails exactly for fewer than four bytes |
| VersionedData.ExtractOfEmbed | packages/rivetkit/src/common/versioned-data.ts:65-88 | The data come back always, the version exactly if it is below 2^32 |
| VersionedData.EmbedVersion | packages/rivetkit/src/common/versioned-data.ts:65-74 | The filled buffer is the four version bytes followed by the data |
| VersionedData.Deserialize | packages/rivetkit/src/common/versioned-data.ts:36-63 | The migration loop computes the specified result, including both errors |
| VersionedData.MigrateIsComposition | packages/rivetkit/src/common/versioned-data.ts:47-62 | With a complete chain the result is the composition of the migrations in order; otherwise the first missing link is the error |
| VersionedData.DecodeIsComposition | packages/rivetkit/src/common/versioned-data.ts:36-63 | Decoding fails exactly if the version is too new, which the error says, or a link is missing, the first of which the error names |
| VersionedData.ValueRoundTrip | packages/rivetkit/src/common/versioned-data.ts:18-30 | A value written with a version below 2^32 is read back; a larger version is read as its low 32 bits, and then reading succeeds exactly if the migrations from there are complete, and gives their composition |
| PersistedFormat.ConversionRoundTrip | packages/rivetkit/src/actor/instance.ts:1722-1799 | Conversion to the stored form throws exactly if some time in the record is fractional; there and back, with any codec that gives back the values of this record, every field is the same, but that undefined, null, false, zero and empty texts among a connection's params, state and driver state become empty objects; a record without such values comes back as itself |
| PersistedFormat.MapAllSpec | packages/rivetkit/src/actor/instance.ts:1732-1760 | Mapping a conversion that may throw throws exactly if it does for some element, and otherwise keeps the order |
| PersistedFormat.EveryRecordHasACodec | packages/rivetkit/src/actor/instance.ts:1722-1762 | What is asked of the codec can be met for every record |
| PersistedFormat.NormalizedIsStable | packages/rivetkit/src/actor/instance.ts:1736-1740 | A record restored once is restored as it is |
| Basics.IntegersAreWhole | packages/rivetkit/src/actor/instance.ts:1748-1752 | A time that `BigInt` accepts is a whole number |
| Basics.WholeNumbersAreIntegers | packages/rivetkit/src/actor/instance.ts:1748-1752 | Every whole number is accepted |
| PersistedFormat.SaveRestoreRoundTrip | packages/rivetkit/src/actor/instance.ts:679-718 | Saving and loading, through version prefix and two codecs that give back the values of this record, restores all of it in that sense, the schedule in the same order, and every event's subscribers; it fails exactly for fractional times |
| ContactSync.StoreHoldsNewest | examples/sync/src/backend/registry.ts:33-45 | After any pushes each storable id holds a contact pushed for it with the greatest `updatedAt`, and no other id holds any |
| ContactSync.StoreHoldsFirstNewest | examples/sync/src/backend/registry.ts:39-43 | Of contacts tied for the newest, the one pushed first is held |
| ContactSync.BatchesConcatenate | examples/sync/src/backend/registry.ts:33-45 | How pushes are split into batches does not matter |
| ContactSync.OrderIrrelevantIff | examples/sync/src/backend/registry.ts:39-43 | Every reordering, re-batching and duplication gives the same store exactly if no storable id has two different contacts tied for newest |
| ContactSync.Contacts.constructor | examples/sync/src/backend/registry.ts:15-18 | The store begins empty |
| ContactSync.Contacts.PushChanges | examples/sync/src/backend/registry.ts:33-60 | The loop computes the store; the change is broadcast exactly if some contact won |
| ContactSync.ActiveListsEachOnce | examples/sync/src/backend/registry.ts:62-66 | The list holds exactly the stored contacts with a name, each once, in the order in which the object lists its keys |
| ContactSync.Contacts.GetAllContacts | examples/sync/src/backend/registry.ts:62-66 | That list is what is returned |
| RateLimiter.RateIsBounded | examples/rate/src/backend/registry.ts:19-41 | For every positive, non-decreasing clock: at most 5 requests a window, windows start more than 60000 ms apart, and any 60000 ms hold at most 9 allowed requests |
| RateLimiter.RefusedIffFull | examples/rate/src/backend/registry.ts:22-34 | A request opens a window exactly if there is none or more than 60000 ms have passed since the first request of the last one, and is refused exactly if the current window holds five |
| RateLimiter.NineIsReached | examples/rate/src/backend/registry.ts:19-41 | Nine is reached |
| RateLimiter.SecondsLeft | examples/rate/src/backend/registry.ts:39-39 | The nearest whole second, never negative |
| RateLimiter.Limit.constructor | examples/rate/src/backend/registry.ts:12-15 | A new limiter has its window expired |
| RateLimiter.Limit.CheckLimit | examples/rate/src/backend/registry.ts:19-41 | Verdict, new window, remaining requests and seconds left |
| RateLimiter.Limit.Reset | examples/rate/src/backend/registry.ts:50-54 | The limiter is as new |
| LongTimeouts.ChunksSumToDelay | packages/rivetkit/src/utils.ts:86-94 | Every chunk is between 0 and 2147483647, all but the last are exactly that, and they sum to the delay |
| LongTimeouts.FiresOnceAfterTheDelay | packages/rivetkit/src/utils.ts:80-103 | Over every run the listener is called at most once, and then exactly the chunks of the delay have passed; until then, unless aborted, exactly one timer is outstanding |
| LongTimeouts.NeverAfterAbort | packages/rivetkit/src/utils.ts:98-102 | After an abort no run calls the listener |
| LongTimeouts.ExpiriesReachTheListener | packages/rivetkit/src/utils.ts:86-94 | Without an abort, as many expirations as there are chunks call it |
| LongTimeouts.LongTimeout.constructor | packages/rivetkit/src/utils.ts:80-96 | The first timer is outstanding |
| LongTimeouts.LongTimeout.Start | packages/rivetkit/src/utils.ts:86-94 | A delay too long is cut at the maximum |
| LongTimeouts.LongTimeout.TimerExpires | packages/rivetkit/src/utils.ts:86-94 | The rest of the delay is started, or the listener is called |
| LongTimeouts.LongTimeout.AbortTimeout | packages/rivetkit/src/utils.ts:98-102 | No timer is outstanding |

## Left out

- HTTP, WebSocket and SSE routing, authentication, CORS and the inspector: plumbing over other libraries.
- The CBOR, BARE and JSON codecs: parameters, required to give back the values of the record at hand; BARE's 64-bit range and the loss of precision above 2^53 are not modelled.
- When a transport reports closed: that a WebSocket is closing, and an SSE stream closed, as soon as `disconnect` has called `close` is an assumption about libraries that are not part of the repository.
- JavaScript values: only the distinctions persistence makes (undefined, other falsy values, the rest); NaN and the falsy `0n` are not among them, and arrays are not separate from objects.
- The file system: a write lands or fails at one point in time; temporary files, renames and partial writes are not modelled.
- The alarm file on disk, its removal when a timer fires, and alarms carried from one life of an instance to the next: Alarms covers one instance's life, starting with any timer armed.
- Creating actors (`createActor`, `loadOrCreateActor`): an entry's state appears in one step, whatever put it there.
- Engine and Cloudflare drivers beyond their key codecs: their behaviour depends on a platform that is not in the repository.
- User hooks and actions: arbitrary changes of state between steps; re-entrance is modelled for the write queue and for the client's event listeners only.
- `saveState` without `immediate`: its shared promise is never reset, so it promises nothing about later saves.
- `onStop`, `waitUntil` and the deadlines of `_stop`: only the flush and the wait for the write queue are modelled.
- Sending over SSE in the client: independent HTTP posts without an order.
- The loop of `#drainLoop`: it waits inside its body, so it is modelled as one step for each turn rather than as a loop.
- Alarms.NoLostAlarm: speaks of an event the driver accepts; for the others, which `BigInt` rejects, ScheduledEventIsCoveredIff and FirstEventBlocksTheRest say what happens.
- PersistedFormat.SaveRestoreRoundTrip: requires a current version below 2^32; ValueRoundTrip says what happens to larger ones.
- The order in which steps waiting at an `await` resume: any order is allowed, which includes every order the JavaScript event loop can produce and some it cannot; the runs given as witnesses are ones it can produce.
- The payload of the contact actor's broadcast, which is what `GetAllContacts` returns; `getChanges`, `getSyncStats` and `reset` of that actor, `getStatus` of the limiter: easy reads and resets.
- `Lock` and `throttle` in packages/rivetkit/src/actor/utils.ts, the WebSocket and event-source shims, the Rust and Python clients, framework bindings and front ends.
