# Verification of the Bond Pro integration

Dafny models, with proofs, of the parts of the Bond Pro integration for Home Assistant whose
correctness is a matter of state over time: the push client that keeps a UDP session with the
bridge alive, the way pushed and polled states reach entities, the retry and sweep logic, the
numeric conversions, and the release-version tooling. `dafny verify dfyconfig.toml` checks it all.

## What is modelled

**The push client** (`Bpup*.dfy`; `bond_async_pro/bpup.py`). `BpupModel` is a state machine in
which one event-loop callback is one step: a connect that raises or builds an endpoint, the queued
`connection_made`, the assignment of the new protocol, the end of a sleep, the delivery of a
cancellation, a transport failing, its loss being reported, a timer firing, a datagram, time
passing, `stop()`. The state joins the fields of `BPUPClient`, of every `BPUProtocol` its factory
ever built and of the shared liveness clock with what the loop holds (armed timers, tasks,
transports) and two logs of what went over the wire. `BpupClient` holds the same program as classes
with those fields; every method is proved to have exactly the effect the state machine gives it.
Theorems are about `Reachable` states, or about every run from an initial state.

What is assumed of asyncio, in `BpupModel.Can`:

- a connect that fails builds no protocol; `connection_made` is queued when the endpoint is built
  and runs before any time passes, and so do the wake-up of the connecting coroutine and the
  delivery of a cancellation; a stop, a failure or anything else may come between them;
- a cancelled task runs no code past its await, and asyncio closes a transport such a task was
  still waiting for; a task is not done while its own body runs;
- a transport that is closing delivers nothing more, and its loss is reported once, any time later:
  at once, unless a datagram is still buffered for sending, so that the runs in which an old endpoint
  drains on beside a new one are those in which one is;
- timers and sleeps end when due; a step takes no time;
- the jitter drawn by `random.uniform(0, d / 2)` is any number in that interval;
- `stop()` is called only after `start()` has returned, since only then does anybody hold it.

**State propagation** (`Topics`, `Entities`, `Subscriptions`, `Coordinators`). Devices are heap
objects shared by several entities. Pushed frames, sweep payloads and manual refreshes write one
device's state and the views of the entities that hear of it. The callback index keeps a ghost flat
list of the subscriptions made, which the per-id map is proved to index.

**Requests and sweeps** (`Requests`, `HubSetup`, `Coordinators`): the single retry, the flattened
fetch of `setup()`, the sweep with partial failures and the shrinking set of telemetry endpoints.

**Conversions** (`Scaling`): tilt, brightness, flame, colour temperature and position over unbounded
integers, with Python's `round()` as half-even rounding of an exact quotient.

**Releases** (`CalVer`, `VersionFiles`): the version grammar, printer and allocator, and the writer
of the version fields against its independent reader.

**The restart sensor** (`RestartSensor`): its 30-second hysteresis over any sequence of readings.

## What the proofs found

1. The retry on line 196 of `bpup.py` never happens: its guard sees the very task it runs in
   (`BpupInvariant.RetrySuppressed`). A reconnect that fails while the client holds no protocol
   therefore strands it until `stop()`. Recovery holds if and only if that never happens
   (`BpupRecovery.RecoversUnlessFatal`), and it does happen (`BpupWitness.StrandedOccurs`).
2. A keep-alive can follow `stop()`: exactly when `stop()` finds an endpoint whose
   `connection_made` is still queued (`BpupSafety.KeepAliveAfterStop`), and then at most one goes
   out (`BpupSafety.StopIsFinal`). Datagrams can still be heard, but only in the very instant of
   `stop()`, and exactly when `stop()` finds the reconnect task in the handshake of an endpoint that
   is open or about to be (`BpupStop.HushedAfterStop`, `BpupStop.StopLeavesOpen`). Push can be alive
   after `stop()` exactly then, or when it was alive and the client held no protocol, whose own
   `stop()` is what wipes the clock (`BpupStop.AliveAfterStop`, `BpupWitness.AliveAfterStopOccurs`).
   As soon as time has passed every transport is closing or lost (`BpupStop.ClosedOnceTimePasses`).
3. The liveness clock is shared, so a late report of an old endpoint's loss also silences the new
   one. The watchdog can close an endpoint less than 70 seconds after it was heard, if and only if
   such a report came in between (`BpupTiming.ClosedEarlyIffWiped`, `BpupWitness.ClosedEarlyOccurs`).
   Once every earlier endpoint has reported its loss it cannot (`BpupTiming.NeverClosedEarly`).
4. With a 30-second keep-alive and a 70-second limit, a bridge that never misses two keep-alives in a
   row keeps push alive if and only if it answers in strictly less than 10 seconds and no other
   endpoint has a loss left to report (`BpupPrompt.StaysAliveIff`, `BpupWitness.TenSecondsTooLate`).
5. An id that holds a slash is never heard (`Subscriptions.SlashedIdUnheard`); the dispatch reaches
   whom a broadcast would if and only if nobody it would reach has one
   (`Subscriptions.IndexRefinesBroadcast`).
6. A device and a group that share an id share one entry of the sweep payload: each finds its own
   state there if and only if their answers agree (`Coordinators.FaithfulIffSharersAgree`).
7. The tag a release creates is always new. The bare version also equals no existing tag, for every
   tag list, if and only if the prefix is not itself the start of such a version
   (`CalVer.BareIsNewIff`, `CalVer.BareCanCollide`).
8. Two version fields of one file: the last one overwrites the first, and the reader, which keeps
   one value per path, does not notice (`VersionFiles.SharedPathUnchecked`). A call that returns has
   made every field read the version if and only if no two different fields share a file
   (`VersionFiles.PromiseIff`).
9. Home Assistant's dimmest brightness, 1 of 255, is sent as 0 percent (`Scaling.PercentInRange`).

## Model

| member | source | states |
|---|---|---|
| BpupInvariant.NextInv | custom_components/bond_pro/bond_async_pro/bpup.py:88-227 | Every step keeps the invariant that ties tasks, startup, endpoints, the protocol field and timers together: only the newest task can be unfinished, only the newest endpoint can be open, an assigned protocol is dead while a task is unfinished, every armed timer is owned. |
| BpupInvariant.RetrySuppressed | custom_components/bond_pro/bond_async_pro/bpup.py:192-196 | The retry after a failed reconnect does nothing: the client is left as it was, with the task done. |
| BpupClock.NextFull | custom_components/bond_pro/bond_async_pro/bpup.py:96-103 | Every step also keeps the clock and log invariant: timers lie within their interval, a clock that has been set has an unreported endpoint behind it, endpoints take turns sending and each sends exactly every 30 seconds. |
| BpupClock.ReachableFull | custom_components/bond_pro/bond_async_pro/bpup.py:152-227 | All of this holds in every reachable state. |
| BpupSafety.SingleFlight | custom_components/bond_pro/bond_async_pro/bpup.py:163-227 | In every reachable state at most one task is unfinished; at most one watchdog is armed, and one is armed exactly while started and unstopped; each endpoint has at most one keep-alive timer; at most one endpoint is in service, and it is the assigned one or the one a coroutine is connecting; an unfinished task implies that the assigned protocol is dead. |
| BpupSafety.StopIsFinal | custom_components/bond_pro/bond_async_pro/bpup.py:216-227 | Over every continuation of every run after stop(): there is no protocol, watchdog or reconnect task held again, no task is created, no endpoint built and no delay changed, only keep-alive timers remain armed, and nothing is sent save the one keep-alive of a connection_made queued before stop(). |
| BpupSafety.StopDoes | custom_components/bond_pro/bond_async_pro/bpup.py:216-227 | What stop() does: push is alive right after it if and only if there was no protocol and push was alive; a protocol is dismissed (silenced, its timer gone, an open transport closing); every unfinished task is cancelled; no other endpoint is touched. |
| BpupSafety.LaterStopChangesNothing | custom_components/bond_pro/bond_async_pro/bpup.py:216-227 | A stop() at any later time changes nothing at all. |
| BpupSafety.KeepAliveAfterStop | custom_components/bond_pro/bond_async_pro/bpup.py:88-103 | A keep-alive can still go out after stop() if and only if an endpoint is built and its connection_made still queued. |
| BpupSafety.StoppedDescends | custom_components/bond_pro/bond_async_pro/bpup.py:130-139 | After stop() no step moves any transport away from closed. |
| BpupSafety.StoppedDrains | custom_components/bond_pro/bond_async_pro/bpup.py:130-139 | From every state after stop() some run of at most as many steps as the transports are away from closed reports every endpoint lost. |
| BpupStop.ClosedOnceTimePasses | custom_components/bond_pro/bond_async_pro/bpup.py:130-139 | Every run after stop(): as soon as any time has passed, every transport is closing or lost. |
| BpupStop.ClosedForGood | custom_components/bond_pro/bond_async_pro/bpup.py:130-139 | Once every transport is closing or lost after stop(), that stays so over every run. |
| BpupStop.HushedAfterStop | custom_components/bond_pro/bond_async_pro/bpup.py:216-227 | Over every continuation of every run after stop(): what is heard is heard in the very instant of stop() by the newest endpoint, and only if stop() left that one open; the clock is as stop() left it, wiped, or set in that instant by what was heard. |
| BpupStop.StopLeavesOpen | custom_components/bond_pro/bond_async_pro/bpup.py:216-227 | stop() leaves a transport open or about to open exactly when it finds the reconnect task in the handshake of one that is. |
| BpupStop.HeardAfterStop | custom_components/bond_pro/bond_async_pro/bpup.py:216-227 | In a stopped client something can still be heard if and only if a transport is not yet closing or lost. |
| BpupStop.AliveAfterStop | custom_components/bond_pro/bond_async_pro/bpup.py:216-227 | Push can be alive at any time from stop() on if and only if stop() finds no protocol while push is alive, or finds the reconnect task in the handshake of an endpoint that is open or about to be. |
| BpupStop.DeadAfterStop | custom_components/bond_pro/bond_async_pro/bpup.py:130-139 | stop() of a client with a protocol, outside such a handshake: push is dead over every continuation. |
| BpupSafety.BackoffStep | custom_components/bond_pro/bond_async_pro/bpup.py:180-186 | A step that schedules a reconnect sleeps between d and 1.5 d, at most 90 seconds, for d the min(2^k, 60) in force, and steps the delay; any other step leaves the delay at min(2^k, 60); a watchdog that finds push dead restarts k at 0. |
| BpupSafety.BackoffClosedForm | custom_components/bond_pro/bond_async_pro/bpup.py:180-186 | Over any run the delay is min(2^k, 60), k the reconnects actually scheduled since the watchdog last found push dead, and the next sleep lies in [d, 1.5 d] and never exceeds 90 seconds. |
| BpupRecovery.LossDoes | custom_components/bond_pro/bond_async_pro/bpup.py:119-128 | A reported loss makes push dead at once and takes the timer of that endpoint away; it schedules a reconnect if and only if the client is not stopped, none is pending, and the endpoint is the assigned one or about to be. |
| BpupRecovery.TickDoes | custom_components/bond_pro/bond_async_pro/bpup.py:203-214 | A tick arms the next one 70 seconds on. While push is alive, or without a protocol, it touches no endpoint, task or clock; a dead protocol is dismissed and a reconnect pending. The delay is 1 when push is dead, 2 once a reconnect is scheduled from it, and otherwise as it was. |
| BpupRecovery.RecoversUnlessFatal | custom_components/bond_pro/bond_async_pro/bpup.py:175-214 | A started, unstopped client holds a protocol or has a reconnect pending, at the end of any run, if and only if no reconnect of that run failed with OSError while it held no protocol. |
| BpupRecovery.StrandedAbsorbs | custom_components/bond_pro/bond_async_pro/bpup.py:188-214 | The state such a failure leaves absorbs every step but stop(). |
| BpupRecovery.TickIsNear | custom_components/bond_pro/bond_async_pro/bpup.py:198-201 | While started and unstopped a watchdog is armed and due within 70 seconds. |
| BpupRecovery.DeadHeldUntilTick | custom_components/bond_pro/bond_async_pro/bpup.py:175-214 | No single step but the tick and stop() changes that a dead protocol is held with nothing pending, or moves the tick. |
| BpupRecovery.TickReplacesDead | custom_components/bond_pro/bond_async_pro/bpup.py:203-214 | That tick drops the dead protocol and schedules a reconnect 1 to 1.5 seconds away. |
| BpupRecovery.HeldOrReplaced | custom_components/bond_pro/bond_async_pro/bpup.py:175-214 | Over any run that does not end stopped, a dead protocol with nothing pending is still held at the end, with the same tick ahead, or some step of the run is that tick, up to which it was held and by which it is replaced. |
| BpupRecovery.DeadIsReplaced | custom_components/bond_pro/bond_async_pro/bpup.py:175-214 | Every run of more than 70 seconds that does not end stopped contains that tick, within those 70 seconds. |
| BpupProgress.NeverBlocks | custom_components/bond_pro/bond_async_pro/bpup.py:163-227 | In every reachable state a step of the loop itself is possible: a queued callback, a timer, or the passing of time; not a datagram, a failure, the end of a connect or stop(). |
| BpupProgress.TimeGoesOn | custom_components/bond_pro/bond_async_pro/bpup.py:163-227 | From every reachable state and for every later instant, some run of such steps ends exactly then: no state stops time, and timers cannot pile up in front of it. |
| BpupTiming.ClosedEarlyIffWiped | custom_components/bond_pro/bond_async_pro/bpup.py:203-214 | A tick less than 70 seconds after an open endpoint was heard closes it if and only if a lost report has wiped the shared clock since the last well-formed datagram. |
| BpupTiming.NeverClosedEarly | custom_components/bond_pro/bond_async_pro/bpup.py:203-214 | If every other endpoint had reported its loss when it was heard, no tick before t + 70 closes it. |
| BpupTiming.SilentClosedInTime | custom_components/bond_pro/bond_async_pro/bpup.py:198-214 | An endpoint open at t from which nothing well-formed arrives is not open at t + 140 or later, unless the client was stopped meanwhile. |
| BpupPrompt.FirstAnswer | custom_components/bond_pro/bond_async_pro/bpup.py:50-52 | The first datagram of an endpoint whose predecessors have reported their loss establishes what keeps it alive from then on. |
| BpupPrompt.StaysAliveIff | docs/protocol.md:8-13 | For every reachable open endpoint of a running client: from its first answer on, every bridge that answers each keep-alive it receives within a limit and never misses two in a row is alive at every instant with its endpoint open, if and only if no other endpoint has a loss left to report and the limit means less than 10 seconds. |
| BpupPrompt.PromptBridgeStaysAlive | docs/protocol.md:8-13 | The half of that which promises: over every such run push is alive and the endpoint open. |
| BpupPrompt.SlowAnswers | docs/protocol.md:8-13 | The other half: with a limit of 10 seconds or more, every such endpoint has a run that keeps up and ends with push not alive. |
| BpupPrompt.WipedAfterAnswer | custom_components/bond_pro/bond_async_pro/bpup.py:38-40 | ...and so has, with any limit, every endpoint while another one has a loss left to report. |
| BpupPrompt.ReceivedGap | docs/protocol.md:8-13 | Keep-alives received with k lost ones between them are exactly (k + 1) * 30 seconds apart, so at most 60 when no two in a row are lost. |
| BpupPrompt.CadenceSpan | custom_components/bond_pro/bond_async_pro/bpup.py:96-103 | Keep-alives i and j of one endpoint are 30 (j - i) seconds apart. |
| BpupWitness.StrandedOccurs | custom_components/bond_pro/bond_async_pro/bpup.py:188-196 | A concrete run into the stranded state: a bridge that never answers, then one failed reconnect. |
| BpupWitness.KeepAliveAfterStopOccurs | custom_components/bond_pro/bond_async_pro/bpup.py:88-94 | A concrete run in which stop() finds a queued connection_made. |
| BpupWitness.AliveAfterStopOccurs | custom_components/bond_pro/bond_async_pro/bpup.py:50-52 | A concrete run after stop() in which a datagram is heard and push is alive again. |
| BpupWitness.ClosedEarlyOccurs | custom_components/bond_pro/bond_async_pro/bpup.py:119-128 | A concrete run in which an endpoint heard at 71 s is closed at 140 s. |
| BpupWitness.TenSecondsTooLate | custom_components/bond_pro/bond_async_pro/bpup.py:33-36 | From the first connect, a concrete start, a run keeps up with answers within exactly 10 seconds and ends with push not alive. |
| BpupClient.BPUProtocol.ConnectionMade | custom_components/bond_pro/bond_async_pro/bpup.py:88-94 | The object's effect on the whole client state is the ConnectionMade step. |
| BpupClient.BPUProtocol.SendKeepAlive | custom_components/bond_pro/bond_async_pro/bpup.py:96-103 | Likewise, including the early return while the transport is unset or closing. |
| BpupClient.BPUProtocol.DatagramReceived | custom_components/bond_pro/bond_async_pro/bpup.py:105-113 | A JSON datagram resets the shared clock whatever it says and is dispatched: exactly the entities it reaches show the new state, it raises exactly when a frame without a body reaches somebody, and nothing else of the client or the entities changes; one that is not JSON changes nothing. |
| BpupClient.BPUProtocol.ConnectionLost | custom_components/bond_pro/bond_async_pro/bpup.py:119-128 | The clock is wiped, the timer dropped, and the client told unless the protocol was stopped. |
| BpupClient.BPUProtocol.Stop | custom_components/bond_pro/bond_async_pro/bpup.py:130-139 | The protocol is silenced towards the client, the clock wiped, the timer dropped and an open transport set to closing; nothing else changes. |
| BpupClient.BPUPClient.constructor | custom_components/bond_pro/bond_async_pro/bpup.py:152-161 | A new client is in an initial state of the state machine. |
| BpupClient.BPUPClient.OnConnectionLost | custom_components/bond_pro/bond_async_pro/bpup.py:175-178 | Nothing after stop(), otherwise the ScheduleReconnect step. |
| BpupClient.BPUPClient.ScheduleReconnect | custom_components/bond_pro/bond_async_pro/bpup.py:180-186 | The ScheduleReconnect step: nothing while stopped or while the task is unfinished. |
| BpupClient.BPUPClient.CheckAlive | custom_components/bond_pro/bond_async_pro/bpup.py:203-214 | The CheckAliveFires step: the aliasing of client, protocol and subscriptions included. |
| BpupClient.BPUPClient.RebuildEndpoint | custom_components/bond_pro/bond_async_pro/bpup.py:209-213 | Unassigning, stopping and rescheduling compose to the value-level steps, in that order. |
| BpupClient.BPUPClient.Stop | custom_components/bond_pro/bond_async_pro/bpup.py:216-227 | The Stop step. |
| BpupClient.BPUPClient.BuildProtocol | custom_components/bond_pro/bond_async_pro/bpup.py:168-172 | The factory: a new protocol wired to this client and these subscriptions. |
| BpupClient.BPUPClient.ConnectReturns | custom_components/bond_pro/bond_async_pro/bpup.py:163-173 | The protocol is assigned; start() then arms the watchdog, _reconnect() ends. |
| BpupClient.BPUPClient.ConnectRaises | custom_components/bond_pro/bond_async_pro/bpup.py:192-196 | start() fails; _reconnect() runs its suppressed retry and ends. |
| BpupClient.BPUPClient.SleepReturns | custom_components/bond_pro/bond_async_pro/bpup.py:188-191 | After its sleep _reconnect() ends if stopped and connects otherwise. |
| Topics.SplitAtSlash | custom_components/bond_pro/bond_async_pro/bpup.py:63 | split("/") cuts at the first slash and splits the rest. |
| Topics.SecondPartIsId | custom_components/bond_pro/utils.py:47-50 | The second part of a device's or group's topic is its id if and only if the id holds no slash. |
| Topics.TopicSpelled | custom_components/bond_pro/utils.py:47-50 | A device has the topic devices/{id}/state and a group the topic groups/{id}/state. |
| Topics.TopicsDiffer | custom_components/bond_pro/utils.py:218-221 | Topics are equal only for the same id of the same kind: a device and a group sharing an id are told apart, whatever the ids. |
| Subscriptions.IndexRefinesBroadcast | custom_components/bond_pro/bond_async_pro/bpup.py:63-70 | For every list of subscriptions filed by id and every topic, the lookup by id followed by the topic check reaches the entities a broadcast by topic reaches, in the same order, if and only if none of those has a slash in its id. |
| Subscriptions.DispatchReaches | custom_components/bond_pro/bond_async_pro/bpup.py:63-70 | For a slash-free id, the topic devices/{id}/state reaches exactly the subscribed entities of the device of that id, in order, and groups/{id}/state exactly those of the group of that id. |
| Subscriptions.AddressedReached | custom_components/bond_pro/bond_async_pro/bpup.py:50-70 | A subscribed entity is reached by a frame if and only if its id has no slash, the frame has status 200 or none, and its topic is that of the device or group, spelled out. |
| Subscriptions.SlashedIdUnheard | custom_components/bond_pro/bond_async_pro/bpup.py:63-70 | An entity whose id holds a slash is never reached by its own topic, whatever else is subscribed. |
| Subscriptions.FiledAppend | custom_components/bond_pro/bond_async_pro/bpup.py:42-44 | Subscribing appends to the callbacks of that id and of no other. |
| Subscriptions.WithoutFirst | custom_components/bond_pro/bond_async_pro/bpup.py:46-48 | Removal takes the first occurrence and keeps the order of the rest; without one it changes nothing. |
| Subscriptions.FiledWithout | custom_components/bond_pro/bond_async_pro/bpup.py:46-48 | Unsubscribing removes the first occurrence under that id and nothing under any other. |
| Subscriptions.BPUPSubscriptions.Subscribe | custom_components/bond_pro/bond_async_pro/bpup.py:42-44 | After any history the map indexes exactly the subscriptions made and not undone, in order. |
| Subscriptions.BPUPSubscriptions.Unsubscribe | custom_components/bond_pro/bond_async_pro/bpup.py:46-48 | Likewise; it raises and changes nothing exactly when there is no such subscription. |
| Subscriptions.BPUPSubscriptions.Notify | custom_components/bond_pro/bond_async_pro/bpup.py:50-70 | The clock is reset. Exactly the subscribed entities with slash-free ids are reached whose topic, spelled out, the frame carries with status 200 or none and with a body; each shows the view derived from the one new state, all that alias a device included; every other entity, and every device when nobody is reached, is as before; it raises exactly when a frame without a body addresses somebody. |
| Subscriptions.CallEach | custom_components/bond_pro/entity.py:154-162 | The walk over the callbacks: exactly those whose topic matches take the state in, in order, and the first that raises ends it. |
| Entities.ApplyTwice | custom_components/bond_pro/cover.py:117-127 | Applying one state twice shows what applying it once does, for every kind of entity. |
| Entities.CoverShowsState | custom_components/bond_pro/cover.py:117-127 | A shade's shown position, for a state position of at most 100, and its shown tilt, over spans of at most 100 degrees, convert back to exactly those its state names; it is closed exactly when open is 0 and unknown exactly when open is missing. |
| Entities.RailShowsState | custom_components/bond_pro/cover.py:203-210 | A rail or layer is closed exactly when shown at 0 and unknown exactly when its variable is missing; for a state position of at most 100 its shown position converts back to the state's. |
| Entities.LightShowsState | custom_components/bond_pro/light.py:149-153 | A light, and a fireplace, is on exactly when its variable is 1; its brightness is unset exactly when the level is missing or 0, and otherwise converts back to exactly that level. |
| Entities.LightShowsKelvin | custom_components/bond_pro/light.py:154-158 | A colour temperature is unset exactly when missing or 0, and otherwise shown in hundreds at most 50 away. |
| Entities.AvailableIsLast | custom_components/bond_pro/entity.py:108-152 | After any history an entity is available if and only if the last event to reach it carried a state. |
| Entities.CoverShowsLastKnown | custom_components/bond_pro/cover.py:117-127 | After any history a cover shows the conversion of the last position, and of the last tilt, that any state in it mentioned. |
| Entities.BondEntity.constructor | custom_components/bond_pro/entity.py:105-106 | A new entity is available and shows its device's state; what that state does not name is unknown. |
| Entities.BondEntity.StateCallback | custom_components/bond_pro/entity.py:142-152 | The shared state is replaced and the entity shows exactly it. |
| Entities.BondEntity.ManualUpdate | custom_components/bond_pro/entity.py:108-119 | A refresh that answers shows the new state, one that cannot reach the bridge only makes this entity unavailable, and any other error changes nothing; no other entity is written. |
| Entities.BondEntity.CoordinatorUpdate | custom_components/bond_pro/entity.py:121-131 | The entity takes its device's entry of the payload in, or turns unavailable keeping its view and its device's state. |
| Entities.BondEntity.BpupCallback | custom_components/bond_pro/entity.py:154-162 | Only a frame about this very topic is taken in; without a body it raises and changes nothing. |
| Coordinators.PayloadLastWins | custom_components/bond_pro/coordinator.py:76-88 | The keys of a payload are exactly the ids that answered, each with the last answer given for it. |
| Coordinators.FaithfulIffSharersAgree | custom_components/bond_pro/coordinator.py:76-88 | Every source that answered finds its own answer in the payload if and only if sources sharing an id gave equal answers. |
| Coordinators.DistinctIdsFaithful | custom_components/bond_pro/coordinator.py:76-88 | With distinct ids the payload maps exactly the sources whose fetch succeeded, each to its own result. |
| Coordinators.BeforeCrashIsFirst | custom_components/bond_pro/coordinator.py:78-82 | The results applied before an unexpected error are those before the first one. |
| Coordinators.BondFallbackCoordinator.UpdateData | custom_components/bond_pro/coordinator.py:65-94 | Exactly the devices that answered before an unexpected error hold their new state and all others their old one; the sweep raises that error if there is one and fails if all fetches failed (then no device has changed); otherwise the payload is returned and the interval adjusted. |
| Coordinators.BondFallbackCoordinator.AdjustInterval | custom_components/bond_pro/coordinator.py:96-105 | The poll interval is 300 seconds while push is alive and 30 while it is not. |
| Coordinators.Deliver | custom_components/bond_pro/entity.py:121-131 | After a fully delivered payload every entity whose source is in it shows that state, entities sharing a device included, and every other entity is unavailable with its view and device unchanged. |
| Coordinators.PollExact | custom_components/bond_pro/coordinator.py:154-171 | A poll succeeds exactly when version and wifi answer, bridge answers if the product is a bridge, and no optional endpoint ends in an error other than 404; its payload then holds, each under its own key, the answers of version, wifi, of bridge exactly for a bridge, and of exactly the optional endpoints still supported. On success and failure alike only supported endpoints were asked, in order, and exactly those that answered 404 are gone. |
| Coordinators.SupportShrinks | custom_components/bond_pro/coordinator.py:162-168 | Over any run of polls, aborted ones included, support only shrinks. |
| Coordinators.DroppedNeverAsked | custom_components/bond_pro/coordinator.py:136-143 | An endpoint a poll has dropped is asked by no later poll. |
| Coordinators.NotFoundsAreDrops | custom_components/bond_pro/coordinator.py:162-168 | The 404s met over a run and the endpoints still supported add up to the endpoints there were. |
| Coordinators.BondTelemetryCoordinator.UpdateData | custom_components/bond_pro/coordinator.py:154-171 | The loop computes that poll: the same support, and the same payload or failure. |
| Requests.WritesAtMostOnce | custom_components/bond_pro/bond_async_pro/bond.py:383-449 | A call attempts at most twice; any call but a GET runs at most once on the bridge, and exactly once if it returns, for every session and every way its attempts can end. |
| Requests.ReadsTriedTwice | custom_components/bond_pro/bond_async_pro/bond.py:383-394 | A GET is tried again if and only if its first attempt ends in a connection error on a shared session; the last attempt decides whether a call returns; without a shared session there is one attempt. |
| Requests.ReplayedIffHarmless | custom_components/bond_pro/bond_async_pro/bond.py:442-449 | On a shared session a dropped write is replayed if and only if no outcome that looks the same to the caller could make the replay run it twice. |
| Requests.RunsOfWrites | custom_components/bond_pro/bond_async_pro/bond.py:396-431 | Of any sequence of writes those that returned ran once each and those that raised at most once. |
| Requests.Bond.Call | custom_components/bond_pro/bond_async_pro/bond.py:433-449 | The call returns, attempts, and runs on the bridge, as often as the retry rule says; any call but a GET at most once, and once if it returns. |
| Requests.Bond.ToggleAll | custom_components/bond_pro/bond_async_pro/bond.py:443-448 | After n Toggle calls that all return, the device has flipped exactly n times. |
| HubSetup.FlattenAt | custom_components/bond_pro/utils.py:264-277 | Positions 3k, 3k + 1 and 3k + 2 of the flattened requests are device k's own three. |
| HubSetup.BondHub.SetupDevices | custom_components/bond_pro/utils.py:263-290 | For every id list and limit exactly the first min(n, max) ids are set up, in order, each with the responses to its own three requests. |
| HubSetup.BondHub.SetupGroups | custom_components/bond_pro/utils.py:302-323 | The slices of three deal the groups' responses the same way, for every listed id. |
| HubSetup.BondHub.EntitySources | custom_components/bond_pro/utils.py:418-421 | The devices in order, then the groups in order. |
| Scaling.RoundHalfEven | custom_components/bond_pro/cover.py:125-127 | The result is an integer nearest to the quotient, and even on a tie, for a divisor of either sign. |
| Scaling.RoundingUnique | custom_components/bond_pro/cover.py:125-127 | No other integer is. |
| Scaling.RoundTrip | custom_components/bond_pro/light.py:149-158 | From a range of width N to one of width M and back is the identity when N <= M, in either direction of either range. |
| Scaling.ErrorBound | custom_components/bond_pro/light.py:149-158 | Otherwise it is off by at most N / 2M + 1 / 2. |
| Scaling.TiltRange | custom_components/bond_pro/cover.py:129-137 | The range starts at min_tilt, is the given one unless empty, becomes exactly 90 degrees if empty, and so is never empty. |
| Scaling.TiltHalfEven | custom_components/bond_pro/cover.py:123-147 | Both tilt conversions are the nearest integer to the exact value, the whole sum for degrees, and the even one on a tie. |
| Scaling.TiltPercentExact | custom_components/bond_pro/cover.py:139-147 | Percent to degrees to percent is exact for every span of at least 100 degrees, reversed ones included. |
| Scaling.TiltDegreesExact | custom_components/bond_pro/cover.py:123-127 | Degrees to percent to degrees is exact for every span of at most 100 degrees, reversed ones included. |
| Scaling.TiltRises | custom_components/bond_pro/cover.py:123-147 | Both tilt conversions are monotone when the range rises. |
| Scaling.TiltFalls | custom_components/bond_pro/cover.py:123-147 | Both are antitone when it falls. |
| Scaling.PercentExact | custom_components/bond_pro/light.py:152-153 | Percent to 0-255 to percent is exact. |
| Scaling.LevelOffByOne | custom_components/bond_pro/light.py:164-168 | 0-255 to percent to 0-255 is off by at most 1. |
| Scaling.LevelsHalfEven | custom_components/bond_pro/light.py:149-168 | Levels and percentages are the nearest integer and kelvins the nearest hundred, the even one on a tie. |
| Scaling.HalfEvenUnique | custom_components/bond_pro/light.py:149-168 | That determines them. |
| Scaling.PercentInRange | custom_components/bond_pro/light.py:164-168 | A brightness of 1-255 is sent as 0-100 percent, and as 0 only for brightness 1. |
| Scaling.ToHundredsStable | custom_components/bond_pro/light.py:154-158 | Rounding a colour temperature to hundreds moves it by at most 50 and is stable. |
| Scaling.PositionRoundTrip | custom_components/bond_pro/cover.py:27-34 | The two position conversions undo each other exactly on the positions from 0 up and from 100 down. |
| CalVer.ParseOfPrint | scripts/set_version.py:35-53 | For every valid date and every sequence from 1 on, parsing the printed version returns the pair. |
| CalVer.Spelled | scripts/release_config.py:32-35 | 2026.09.03.12 is the twelfth version of 3 September 2026, printed and parsed, and 2026.09.03 that date with sequence 0. |
| CalVer.Calendar | scripts/set_version.py:40 | The dates accepted have the month lengths of the Gregorian calendar, leap years included. |
| CalVer.PrintOfParse | scripts/set_version.py:35-53 | Printing what an accepted four-part version parses to returns that version. |
| CalVer.ParseOfDate | scripts/release_config.py:32-35 | A bare date parses as that date with sequence 0. |
| CalVer.DateOfParse | scripts/release_config.py:32-35 | Only bare dates parse with sequence 0, and printing the date returns them. |
| CalVer.SequenceSpelled | scripts/set_version.py:45-52 | A tag contributes sequence m to a date if and only if, its prefix aside, it is the printed version m of that very date, or for m = 0 the bare date. |
| CalVer.NextCalver | scripts/set_version.py:43-53 | For every tag list the result is the printed version n of the release date, where n is 1 or the list holds the version n - 1 of that date (tagged with the prefix, or bare where the prefix is no part of it), and the list holds none from n on. |
| CalVer.NextIsFresh | scripts/set_version.py:43-53 | The next version is for the release date, its sequence exceeds every existing one for it whatever else the list holds, and prefix plus version equals no existing tag. |
| CalVer.HighestIsTaken | scripts/set_version.py:51-53 | A sequence counted as the highest is that of a version of the date which the list holds: no number is skipped, and no other date counts. |
| CalVer.BareIsNewIff | scripts/set_version.py:46 | The bare version equals no existing tag, for every tag list, if and only if the prefix is not a start of one of the date's versions. |
| CalVer.BareCanCollide | scripts/set_version.py:46 | A concrete prefix and date for which it can equal one. |
| CalVer.IssuedInSequence | scripts/set_version.py:43-53 | Issuing k versions in turn, each tag appended to the list, yields the highest sequence plus 1 to plus k, without a gap or a repetition. |
| VersionFiles.ValidatesIff | scripts/release_config.py:95-109 | For every field list the reader returns v if and only if there are fields, the last listed field of every path reads v, and v has the CalVer form. |
| VersionFiles.AllOrNothing | scripts/set_version.py:68-81 | If the version is no version or any field does not render, it raises and no file changes. |
| VersionFiles.ReturnMeansWritten | scripts/set_version.py:68-85 | For every field list: if it returns, the last listed field of every path reads back the requested version and no file outside the list has changed. |
| VersionFiles.WritesRendered | scripts/set_version.py:68-85 | When every field renders, the file of every path holds exactly what its last field rendered from the old text, every other file its old text, and the call raises exactly when the reader does not find the version. |
| VersionFiles.PromiseIff | scripts/set_version.py:68-85 | A call that returns has made every listed field read the version, for all files, versions, readers and renderers, if and only if no two different fields of the list are in one file. |
| VersionFiles.LawfulFieldsSucceed | scripts/set_version.py:68-85 | For every non-empty field list: if every field renders and reads back what is rendered into it, every valid version is written and accepted. |
| VersionFiles.SharedPathUnchecked | scripts/release_config.py:95-96 | A concrete list of two fields of one file: the call returns although the first does not read the version. |
| VersionFiles.Repository.SetVersion | scripts/set_version.py:68-85 | The loops compute that result on the files, including which files are left alone when it raises. |
| RestartSensor.WithinDeviation | custom_components/bond_pro/sensor.py:156-168 | After a read with an uptime the reported boot time is within 30 seconds of the computed one. |
| RestartSensor.MovesIffFar | custom_components/bond_pro/sensor.py:163-168 | A read moves the report if and only if there is none yet or the computed time is more than 30 seconds away, and then adopts it. |
| RestartSensor.SteadyInWindow | custom_components/bond_pro/sensor.py:163-168 | Over any readings inside a window of 30 seconds that contains the report it does not move. |
| RestartSensor.ReportWasRead | custom_components/bond_pro/sensor.py:156-168 | What is reported was once computed, and something is reported as soon as one reading had an uptime. |
| RestartSensor.BondLastRestartSensor.NativeValue | custom_components/bond_pro/sensor.py:156-168 | The property returns and keeps the report of that sequence. |

## Left out

- Sockets, HTTP, JSON and regular-expression engines, logging, the clock and the random source: their results are parameters or events.
- Home Assistant itself (coordinator scheduling, entity registry, config flow, services, diagnostics): the delivery of a sweep payload to every entity is a step of its own.
- Loop latency: timers and sleeps end when due, so the timed bounds hold up to the time the loop is late.
- A pushed message that is valid JSON but no object, or whose body is null, and a datagram that is not UTF-8: the exceptions they raise.
- Errors other than OSError out of a connect, and a second start() of one client.
- BpupPrompt.PromptBridgeStaysAlive: answers are to arrive in less than 10 seconds, not within 10, and earlier endpoints to have reported their loss, since it is false otherwise (BpupPrompt.StaysAliveIff).
- BpupSafety.StoppedDrains: says that the losses can always be reported, not that they are by any time; that the transports are closing by then is BpupStop.ClosedOnceTimePasses.
- State values other than integers, and entities other than covers, rail covers, lights and fireplaces (up and down lights, fans, switches, buttons, numbers, scenes).
- Cancelled requests in a sweep's results, which the source would store like an answer.
- BondHub.setup's version, bridge and scene requests, and the limit on concurrent requests.
- Floating-point error in the conversions: quotients are exact.
- Fan speeds, whose formulas are Home Assistant's.
- Request headers, message ids, timeouts and the sessions opened per call.
- Reading git tags, time zones, the command line, and the loading and checking of .release.json: the reader and renderer of a field are arbitrary functions.
- VersionFiles.Repository.SetVersion: does not model an error while writing one of the files.
- The date printed with %Y is four digits wide, as Python 3.13 and later print it; earlier ones do not pad years before 1000 on every platform.
- Building release archives, blueprints, translations, icons and YAML.
