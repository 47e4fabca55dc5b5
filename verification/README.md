# home-service: replication protocol and its sequential cores

The home service keeps a Redis hash ("live state") in step with Home Assistant
(HA). HA pushes frames over a WebSocket; the reader applies them to a mirror of
HA's states; every change of the mirror is requested as a write from a FIFO
writer. Writes fail, are cancelled, or sit pending while HA drops, reconnects, is
given new credentials or moves rooms. Two flags (`dirty`, `stale`), a connection
state and the placement of `await`s keep the hash right. This project models that
protocol, the tree of tasks it runs in, the registration and refresh tasks around it,
and the sequential code it rests on, and proves what the code promises of every
run.

## How it is modelled

* A step is one await-free segment of the service, one event of HA, or one outcome
  of a pending await. Any enabled step may come next, so a result about reachable
  states is a result about every interleaving. Where the event loop's order is not
  fixed by the code (who gets the lifecycle lock next, which task a cancellation
  reaches first) the model allows every order.
* Each protocol part is a value-level transition system (`State` or `World`,
  `Step`, `Enabled`, `Apply`, `Next`) with an inductive invariant over its runs
  (`Runs`). Beside it stands the code in place: classes over tasks, callers, events
  and futures as objects, told apart by reference, whose methods are the await-free
  stretches of code; an abstraction function reads the object graph as a state of
  the transition system, and each method is proved to take its step. The loops and
  the sequential code are methods with loop invariants, proved against pure
  functions whose laws are lemmas.
* `Replication` uses the phases Down, SetUp, Live, Dropping, Stopping.
  `Lifecycle.TaskTreeIsReplicationsPhases` proves that these are what the tree of tasks
  of `apply_credentials`, `stop` and `_run` goes through, `conn_state` included.
* `Simulation` carries that over to whole runs: tree and data move side by side and
  stay matched, and every run of the tree is the phase history of a run of
  `Replication`.
* `Coupled` runs `Replication` and `Registrar` as one system: a heal is requested
  exactly in the step in which the registrar starts its hook, and a task of the
  connection that is cancelled or awaited takes its register() call with it. Callers
  of `apply_credentials` queue for the lifecycle lock, and the lifespan takes its
  shutdown steps in order. `Shutdown` proves on that system when a write can still
  follow the final clear: nothing in it forbids a late heal but the order in which
  tasks are cancelled and awaited.

| module | part of the service |
|---|---|
| `Mirror` | `conn.states`: the get_states reply and state_changed events |
| `EntityIndex` | `rebuild`, the room map, `entities_for_domain`, `resolve` |
| `LiveState` | `build_entry`, `build_snapshot`, the publisher and its writer |
| `Wiring` | the listeners that tie connection, index and publisher together |
| `Replication` | the replication protocol as a whole |
| `Coupled`, `Shutdown` | replication, registration and the lifespan as one system, and its shutdown |
| `Simulation` | runs of the tree of tasks as runs of the replication protocol |
| `Lifecycle`, `LifecycleInPlace` | lifecycle lock, connection loops, set-up children, waiting callers |
| `Registrar`, `RegistrarInPlace` | registration, its one tracked retry, shutdown |
| `RegistryRefresh` | the coalesced registry refresh |
| `Commands` | command ids, futures and result hooks |
| `Forwarder` | the bounded MQTT queue and its in-flight item |
| `Capabilities` | the generated tool surface and its advertised targets |
| `Tasks` | `cancel_and_wait`, the wait of `_stop_locked`, `_run_all` |
| `Basics`, `Identity`, `Runs` | options and string order, objects by reference, runs of a step function |

## Promises that hold under a condition

* The mirror is exactly HA's states only while no state string is empty: an event's
  empty state is stored as "unknown", the get_states reply stores it as it is
  (`Mirror.AppliedExactIff`). The invariant itself is stated for every string.
* The room map depends on the registries alone if and only if no device whose id is
  the empty string has a room: such a device lends its room to every entity outside
  the registry (`EntityIndex.RoomsFromRegistriesIff`).
* The friendly-name tier of `resolve` finds an entity by its own name if and only if
  stripping that name does not change what it folds to; only the request is
  stripped (`EntityIndex.NameResolvesIff`, `EntityIndex.UntrimmedNameIsLost`).
* The broker's log walks through the accepted events in every run. With adjacent
  repeats removed from the log alone it is a prefix of the accepted events if and
  only if, among those that reached the broker, nothing different follows the first
  adjacent repeat (`Forwarder.BrokerSeesAcceptedPrefix`, `Forwarder.RepeatBreaksPrefix`).
* A stop gives up only at a task that ends by raising; a task that swallows its
  cancellation hides the caller's (`Tasks.StopLocked`).
* If conn.stop() got the lifecycle lock and nobody was queued for it behind, no write
  is requested after the final clear (`Shutdown.NothingAfterFinalClear`). In general
  one can follow if and only if a caller is still queued for the lock, the connection
  is not down for good (a loop alive or a swap holding the lock), or somebody can
  still register and the hash is dirty or has a pending write that can fail
  (`Shutdown.LateWriteIff`). Getting the lock alone is not enough: a caller left
  queued behind takes it next (`Shutdown.QueuedCallerWritesLate`).
* A failed registry fetch can leave a change unread
  (`RegistryRefresh.FailedFetchLosesChange`); the next event delivered repairs it,
  as does any later pass that does not fail (`RegistryRefresh.EventRepairs`,
  `RegistryRefresh.NoChangeLost`).
* Tool names are unique within a domain. Those of two domains can collide if and
  only if one domain is the other, an underscore and more
  (`Capabilities.ToolNamesCollide`).

## Model

| member | source | states |
|---|---|---|
| Replication.LiveIsInStep | app/live_state.py:76-181 | In every reachable live state, under any interleaving: dirty, or stale, or the pending writes drain in FIFO order to the snapshot of mirror, catalog and rooms |
| Replication.MirrorFollowsServer | app/ha_connection.py:357-372 | From the moment the get_states reply is handled, folding the undelivered frames over the mirror gives HA's current states, exactly so when no state string is empty |
| Replication.ServedIsHeld | app/server.py:252-288 | In every reachable world the catalog in use is the one get_services last answered and the rooms in use are those of the last rebuild, both kept as history apart from the service's fields |
| Replication.QuietHashIsHomeAssistant | app/server.py:252-288 | Live, clean, not stale, nothing undelivered and nothing pending: the hash holds exactly HA's entities, each with HA's own state and shown attributes, controllable exactly if the catalog last served has its domain, in its room of the last rebuild |
| Replication.AwayIsCleared | app/ha_connection.py:226-271 | While HA is away every write from the disconnect's clear on is a clear, so the hash is dirty or drains to empty |
| Replication.AwayLasts | app/ha_connection.py:249-268 | Every drop, failed attempt, rejected token and the final clear starts that span at the clear it requests; only a connect, a stop or a state event ends it |
| Replication.OneEventHeals | app/live_state.py:145-172 | Deliver one state event in any reachable live state; after any calm steps, once the reader is free both flags are down and the pending writes drain to the current view |
| Replication.EventAndLandingsHeal | app/live_state.py:145-172 | One event, and from then on every write lands while orphans unwind either way: besides what was pending at most two writes go, the head can always go, and once none is pending the hash is clean and equal to the view |
| Replication.RegistrationHeals | app/live_state.py:136-143 | A landed registration on a dirty hash requests a replace exactly when connected and a clear otherwise; without a further failure, orphans unwinding either way, the hash is clean once nothing is pending, and empty if HA is away |
| Shutdown.LateWriteIff | app/server.py:229-240 | From every reachable state past the final clear some run requests another live-state write if and only if a caller is still queued for the lock, a loop is alive or a swap holds the lock, or an attempt can still land on a hash that is dirty or can become so |
| Shutdown.NothingAfterFinalClear | app/server.py:130-143 | With the connection stopped and nobody queued behind, no run requests a write after the final clear, not even through a retry that let go of itself before its heal |
| Shutdown.QueuedCallerWritesLate | app/ha_connection.py:173-188 | A reachable state in which conn.stop() got the lock, the final clear is asked for, and a caller queued behind still writes |
| Replication.PhasesMove | app/ha_connection.py:226-271 | Every step moves the connection along the phase graph or leaves its phase alone |
| Wiring.Service.HandleEvent | app/ha_connection.py:433-465 | A state_changed frame up to its first await sets or removes the entity in the mirror and requests its own update or removal; one without an id changes nothing |
| Wiring.Service.HandleReply | app/ha_connection.py:357-372 | The result hook replaces the mirror and nothing else |
| Wiring.Service.GoLive | app/server.py:252-262 | From get_services' reply to the snapshot's handover in one segment: the catalog just served is stored, conn_state set, the rooms rebuilt, and the one write requested replaces the hash by the mirror seen through exactly these; it is requested even when rebuilding the index raises |
| Wiring.Service.OnRegistriesUpdated | app/server.py:279-288 | A registry change rebuilds the rooms and marks stale exactly if they moved; it requests no write |
| Wiring.Service.ReportDisconnect | app/ha_connection.py:249-268 | conn_state drops before the disconnect's clear is requested, in the same segment; the catalog stays |
| Wiring.Service.OnRegistered | app/server.py:145-151 | The registration hook requests nothing while the hash is clean, else a replace by the current view when connected and a clear when not |
| Wiring.EventsMoveNoRoom | app/entity_index.py:38-77 | With no room on a blank device id a state event never invalidates the room map |
| LiveState.EntrySays | app/live_state.py:43-60 | An entry carries the entity's own id and state, is filed under the id's text before its first dot, and is controllable exactly if the catalog has that domain |
| LiveState.BuildSnapshot | app/live_state.py:63-73 | Every entity is filed exactly once, in entity-id order, under its own domain with its own state, on the controllable side exactly if the catalog has the domain |
| LiveState.SnapshotSays | app/live_state.py:63-73 | The same in the house's terms for any snapshot of these states: whatever is on either side is there by the catalog, with its own state, and every entity is on its side |
| LiveState.SnapshotUnique | app/live_state.py:63-73 | Only one snapshot of given states, catalog and rooms has those properties |
| LiveState.SnapshotFlattensToView | app/live_state.py:63-73 | A snapshot flattened is build_entry applied pointwise |
| LiveState.ViewOfApplied | app/live_state.py:145-167 | Applying an event and then viewing equals viewing and then landing that entity's own update or remove |
| LiveState.EntryAttributes | app/live_state.py:43-60 | An entry shows an attribute if and only if it is one of the eight named or the room; the room's value is the room map's and overrides, every other value is the state's own |
| LiveState.ViewShowsRooms | app/server.py:284-287 | Two room maps that differ on no mirrored entity give the same view, so comparing room maps misses no change a snapshot could show |
| LiveState.LiveStatePublisher.StartPublish | app/live_state.py:120-134 | Up to the await: stale settled, the snapshot of now requested behind everything before it |
| LiveState.LiveStatePublisher.StartHeal | app/live_state.py:136-143 | Clean: nothing; dirty: replace when connected, clear otherwise |
| LiveState.LiveStatePublisher.OnStateChanged | app/live_state.py:145-167 | Requests the entity's own update, or its removal when the mirror no longer has it |
| LiveState.LiveStatePublisher.OwnWriteLands | app/live_state.py:171-172 | An event's own write that lands republishes exactly while dirty or stale and connected |
| LiveState.LiveStatePublisher.FullWriteLands | app/live_state.py:183-186 | A landed replace or clear lowers dirty |
| LiveState.LiveStatePublisher.WriteFails | app/live_state.py:188-198 | A failed write, whether or not it took effect, raises dirty |
| LiveState.LiveStatePublisher.MarkStale | app/live_state.py:114-118 | Only the stale flag changes |
| Mirror.InstalledIsFaithful | app/ha_connection.py:365-372 | The reply's rows install exactly HA's states at the time it answered |
| Mirror.AppliedAgrees | app/ha_connection.py:442-447 | An event applied to a mirror that agrees with HA agrees with the changed HA, for every string |
| Mirror.AppliedExactIff | app/ha_connection.py:446-447 | An event's entry is HA's own if and only if its state is not empty |
| Mirror.UnknownStates | app/ha_connection.py:365-372 | A row without a state reads unknown, one with an empty state keeps it; an event's empty state reads unknown |
| Mirror.InstalledAt | app/ha_connection.py:365-372 | Whatever rows a reply has, the last row of an id is the one installed |
| Mirror.StateMirror.InstallStates | app/ha_connection.py:357-372 | The loop over the rows builds Installed: a later row of the same id wins |
| Mirror.StateMirror.HandleStateChanged | app/ha_connection.py:433-447 | Sets or removes exactly the event's entity |
| EntityIndex.BuildEntities | app/entity_index.py:38-76 | The loop over all known ids yields every entity that is not disabled, and no other, each built from its own rows |
| EntityIndex.Index.Rebuild | app/entity_index.py:38-77 | Index and room map are rebuilt; with no room on a blank device id the room map is the registries' own |
| EntityIndex.RoomsFromRegistries | app/entity_index.py:57-77 | If no device with an empty id has a room, the room map is the registries' own, whatever the states |
| EntityIndex.RoomsFromRegistriesIff | app/entity_index.py:57-77 | It depends on the registries only if and only if no device with an empty id has a room |
| EntityIndex.DisabledNowhere | app/entity_index.py:52-54 | A disabled entity is in no room and not in the index |
| EntityIndex.OwnAreaWins | app/entity_index.py:57-70 | An entity's own area decides its room whatever its device says |
| EntityIndex.DeviceAreaElse | app/entity_index.py:57-70 | Without an area of its own an entity is in its device's room, if that device is known and has one |
| EntityIndex.InfoSays | app/entity_index.py:59-73 | The friendly name is the attribute, else the registry name, else the original name, else the spaced object id; class and device name likewise by their order |
| EntityIndex.RegistriesById | app/entity_index.py:46-48 | Of registry rows with the same id the last one counts |
| EntityIndex.PickedExactly | app/entity_index.py:102-133 | A tier of resolve picks exactly the domain's entities that satisfy it |
| EntityIndex.PickedAscending | app/entity_index.py:102-133 | What it picks is in strict entity-id order |
| EntityIndex.ResolvedIsSound | app/entity_index.py:108-133 | A found target is a non-empty ascending list of entities of the domain asked for |
| EntityIndex.ResolvesByTier | app/entity_index.py:108-133 | A target folding to entity ids resolves to exactly those, else one folding to an area to exactly its entities, else one folding to names to exactly theirs; LookupError if and only if no tier matches |
| EntityIndex.ErrorLists | app/entity_index.py:127-133 | The error lists exactly the rooms of the domain's entities, each once, and every name, in order |
| EntityIndex.AreaResolves | app/entity_index.py:114-123 | An area name that stripping does not change resolves to exactly its entities of the domain, unless an entity id matches first |
| EntityIndex.NameResolvesIff | app/entity_index.py:114-126 | The name tier finds an entity by its own name if and only if stripping does not change what the name folds to, and the name then resolves |
| EntityIndex.UntrimmedNameIsLost | app/entity_index.py:108-133 | A concrete index whose advertised name, having an outer space, resolves to nothing |
| Lifecycle.AtMostOneLoop | app/ha_connection.py:173-217 | Any two live connection loops are the same one, it is self._task, and a lock holder has cancelled it and awaits it |
| Lifecycle.SetupEndsFirst | app/ha_connection.py:234-316 | A set-up child still running, one waiting for ws.close() included, implies its loop is in the read loop or waiting for it, so it ends before any disconnect listener and before its loop |
| Lifecycle.StopLeavesNothing | app/ha_connection.py:190-217 | When a stop's wait ends no loop is alive and a refresh still running is cancelled; the stop gives up if and only if its caller's cancel count rose |
| Lifecycle.NoStrandedCaller | app/ha_connection.py:173-183 | Whoever waits on an unset event waits on the current one, with a lock holder or a live first attempt to set it |
| Lifecycle.AttemptMovesOn | app/ha_connection.py:226-271 | With the lock free such an attempt always has a step to take, and each step of its loop sets the event or comes strictly nearer |
| Lifecycle.StopMovesOn | app/ha_connection.py:190-217 | With the lock held its holder's stop always has a step to take, each step of the holder or an awaited task ends it or comes strictly nearer, and no other step puts it off |
| Lifecycle.AcquireDecides | app/ha_connection.py:173-180 | With the lock, apply_credentials(u, t) returns and changes nothing if and only if u and t are the credentials in use and conn_state reads connected; otherwise everything alive is cancelled and awaited under the old credentials, or, with nothing alive, u and t are stored and a loop started at once |
| Lifecycle.StopDecides | app/ha_connection.py:185-217 | With the lock, stop() cancels and awaits everything alive, or is over at once; it starts nothing and leaves the credentials |
| Lifecycle.SwapStores | app/ha_connection.py:176-180 | A caller that comes to wait for an attempt has stored its own url and token and started a loop in that step; no other step changes either |
| Lifecycle.CredentialsInUse | app/ha_connection.py:173-183 | In every reachable state the credentials in use are those of the call that started the last loop, and every waiting call waits for the event of the loop it started |
| Lifecycle.CancelledCallerGivesUp | app/ha_connection.py:190-217 | A cancellation aimed at a caller during its stop stays counted until the awaited task ends, and the caller then gives up without storing credentials or starting a loop |
| Lifecycle.ConnStateSays | app/ha_connection.py:226-271 | With no stop under way: auth_failed exactly from a rejected token until new credentials, with no attempt meanwhile; unreachable only with a loop alive; connected only between a set-up that got through and its drop |
| Lifecycle.TriesAgain | app/ha_connection.py:226-271 | A loop that lost its connection, its token not rejected and no stop under way, always has a step to take, and each step of it brings the next attempt nearer |
| Lifecycle.CallerConnects | app/ha_connection.py:173-316 | With a server that answers, a waiting caller returns to an established connection under the credentials it stored |
| Lifecycle.TaskTreeIsReplicationsPhases | app/ha_connection.py:153-316 | Every step of the tree of tasks is none, one or two steps of Replication: given the replies and awaited writes they wait for, these are enabled and end in the same phase and conn_state |
| Simulation.EveryTreeRunIsReplications | app/ha_connection.py:153-316 | Whatever run the tree of tasks makes, some run of Replication, with frames and writes interleaved, goes through the same phases with the same conn_state |
| Simulation.SideBySideTheyMatch | app/ha_connection.py:153-316 | However tree and data interleave they stay matched, and the tree is held up by nothing but the replies and awaited writes its step waits for |
| LifecycleInPlace.HAConnection.AcquireLock | app/ha_connection.py:173-198 | From the lock to the first await, on the object graph: with the credentials already in use and connected nothing changes; else every live task is cancelled and awaited in order under the old credentials; else, with none alive, the stop is over or the caller's own credentials are stored on a fresh loop and event |
| LifecycleInPlace.HAConnection.FinishStop | app/ha_connection.py:176-217 | The event that was current ends set and the lock free; a caller that gives up or stops leaves the credentials; a swap stores the caller's own, starts a fresh loop, and the caller holds exactly its fresh, unset event |
| LifecycleInPlace.HAConnection.AwaitedTaskEnded | app/ha_connection.py:199-217 | When an awaited task ends a caller cancelled since it began gives up with the credentials untouched; any other waits for the next task, or swaps or is done behind the last |
| Registrar.NoRegistrationLost | app/server.py:110-143 | Every register() whose attempt ended is covered by what is registered or by a live tracked retry that nothing has cancelled, whatever overlapped and whichever callers were cancelled |
| Registrar.NewestManifestIsCovered | app/server.py:110-143 | With no attempt of a call queued or in flight, the newest manifest asked for is registered or the next attempt sends it or a newer one |
| Registrar.LandingCoversAll | app/server.py:117-128 | A success leaves no finished call uncovered, so the retry it cancels is never one a later failure needs |
| Registrar.HookFollowsLanding | app/server.py:110-151 | The hook is started by exactly a retry that lands, by then untracked, a call that lands with no retry tracked, and a call whose wait for the retry it cancelled is over |
| Registrar.RetryGetsItsTurn | app/server.py:117-143 | The tracked retry can always wake, is never overtaken in the attempt lock, the attempt ahead of it can always go on, and each that ends brings it a place nearer |
| Registrar.RegisteredOnlyGrows | app/server.py:117-128 | Serialized attempts never register an older manifest over a newer one |
| Shutdown.NoHookOnceStopped | app/server.py:130-158 | Once such a stop and the registrar's are over no step starts the hook: whatever could still land has been cancelled |
| RegistrarInPlace.AlfredRegistrar.CallLanded | app/server.py:110-113 | A successful call registers the manifest sent and leaves no retry tracked; the one that was is cancelled and waited for with the hook not yet started, otherwise the hook starts |
| RegistrarInPlace.AlfredRegistrar.RetryLanded | app/server.py:134-142 | A successful retry untracks itself and only itself, and starts the hook: another retry tracked meanwhile stays |
| RegistrarInPlace.AlfredRegistrar.CallFailed | app/server.py:114-115 | After a failed call a live retry is tracked: the one there was, or a fresh one |
| RegistryRefresh.NoChangeLost | app/ha_connection.py:503-526 | Quiet after a pass that did not fail (set-up past its fetch, no refresh running, no event on its way), every registry held is HA's current one, whatever was coalesced, left over from an earlier connection, announced between the subscriptions, or failed earlier |
| RegistryRefresh.RefreshEndsFresh | app/ha_connection.py:511-526 | The refresh cannot finish with a list older than the last change delivered, unless set-up is still to store that list and no change came since the last subscription |
| RegistryRefresh.EventRepairs | app/ha_connection.py:503-526 | Deliver an event in any reachable state, failed passes or not: once all is quiet with no further failure every registry held is current |
| RegistryRefresh.RefreshSettles | app/ha_connection.py:503-526 | While things are not quiet some step can be taken, and every step but a further change in HA leaves strictly less to do |
| RegistryRefresh.FailedFetchLosesChange | app/ha_connection.py:517-521 | A reachable quiet state in which a failed pass left a list behind |
| RegistryRefresh.Refresher.RefreshLoop | app/ha_connection.py:511-526 | The loop makes another pass exactly while one is complete and an event came during it, and announces every complete pass and no other; ended by a complete pass it leaves that pass's lists, with no event come since the pass began |
| Commands.IdsAreFresh | app/ha_connection.py:384-387 | A new command's id was never used before |
| Commands.ResolvedByItsOwn | app/ha_connection.py:381-422 | A future changes only from waiting, and only by its own reply, its timeout, its own caller giving it up or a failed send, or a drop; what it then holds tells which of these it was |
| Commands.ReplyResolves | app/ha_connection.py:404-422 | The first reply to a waiting command resolves it and it alone: a result exactly on success with no hook raising, the hook's exception, or the error; any other reply changes no future |
| Commands.OutcomesAreTold | app/ha_connection.py:404-422 | In every reachable table a result has its successful frame and, with a hook, the hook run to its end behind it; a hook's exception has both with the hook raising; an error has its failed frame; a hook ran only for a command that has one |
| Commands.ResolvedOnce | app/ha_connection.py:405-422 | A resolved future keeps its result over the whole rest of the run |
| Commands.DropResolvesAll | app/ha_connection.py:394-398 | A drop resolves every waiting command, no other, and empties the table |
| Commands.HooksRunOnceInPlace | app/ha_connection.py:405-415 | A hook runs at most once, directly behind its own successful reply and before any later frame |
| Commands.CommandTable.FailPending | app/ha_connection.py:394-398 | The loop over the futures in the table resolves exactly those still waiting and empties it; futures no longer in it are untouched |
| Commands.CommandTable.HandleResult | app/ha_connection.py:404-422 | On the future objects: a frame resolves the future the table holds under its id, if it still waits, to the result, the hook's exception or the error as the frame and the hook say, and no other |
| Forwarder.NothingLostOrReordered | app/state_forwarder.py:101-116 | Across any number of broker errors, accepted = delivered, then in flight, then queued, in order |
| Forwarder.OnlyFullQueueDrops | app/state_forwarder.py:73-116 | Over whole runs: of all arrivals exactly those that came to a full queue were turned away, the rest is delivered, in flight or queued in order of arrival, and the queue never exceeds its bound |
| Forwarder.BrokerWalksAccepted | app/state_forwarder.py:101-116 | Whatever failed publishes reached the broker, each item in its log is an accepted one, from the first on, repeating but never skipping or going back: all delivered ones and at most the one in flight |
| Forwarder.BrokerSeesAcceptedPrefix | app/state_forwarder.py:101-116 | With adjacent repeats removed on both sides the log is the first accepted items; removed from the log alone it is a prefix of the accepted ones if and only if nothing different follows the first repeat among those |
| Forwarder.RepeatBreaksPrefix | app/state_forwarder.py:101-116 | A reachable state, on, on, off, in which it is not |
| Forwarder.ErrorsOnlyDelay | app/state_forwarder.py:101-116 | While items wait, every await but the first and two for each error delivers one |
| Forwarder.StateForwarder.PublishLoop | app/state_forwarder.py:101-116 | The nested loops, for any awaits, events meanwhile and errors: all that came is delivered, in flight, queued or was turned away at a full queue, in order; exactly the publishes that succeed confirm an item each, counted from the awaits and the backlog alone; what waited at the start goes first |
| Capabilities.FlattenFields | app/capability_generator.py:93-110 | The nested loops compute ServiceFields |
| Capabilities.FieldPrecedence | app/capability_generator.py:93-110 | A top-level field beats a nested one of the same name; among sections the first wins |
| Capabilities.FieldsAreThese | app/capability_generator.py:93-110 | The flattened fields are exactly the top-level ones and those of the sections |
| Capabilities.KeptCarried | app/capability_generator.py:173-176 | A reflex tool's parameters are the configured extra fields that the catalog has, all of them, each at its place in configuration order, with its type and required flag |
| Capabilities.ReflexSpecs | app/capability_generator.py:164-189 | Exactly the configured services this HA offers, each once, in configuration order |
| Capabilities.ConsciousSpecs | app/capability_generator.py:191-212 | Exactly the domain's services, each once, in name order; a null service counts as empty |
| Capabilities.WithoutConfigured | app/capability_generator.py:139-145 | Keeps exactly the conscious tools whose name no reflex tool has, in order |
| Capabilities.DomainSpecs | app/capability_generator.py:130-145 | A domain's tools are exactly the expected ones, each once, reflex ones first |
| Capabilities.Generate | app/capability_generator.py:120-162 | Every expected tool of every domain with entities and no other, each (domain, service) once, in order, the escape hatch last |
| Capabilities.AudienceRule | app/capability_generator.py:130-145 | Which services get a tool, and that the audience is reflex exactly for configured, offered services of a reflex domain |
| Capabilities.ToolCarries | app/capability_generator.py:164-212 | Every tool is named after its domain and service; a reflex one has the kept fields and a target, a conscious one every field of its service in name order and a target exactly if the catalog gives the service one |
| Capabilities.SameNameIff | app/capability_generator.py:176-179 | Two (domain, service) pairs share a tool name if and only if they are the same or one domain extends the other and the services make up for it |
| Capabilities.ToolNamesCollide | app/capability_generator.py:176-179 | Tool names of two domains can collide if and only if one is the other, an underscore and more |
| Capabilities.EscapeHatchName | app/capability_generator.py:146-162 | Only service "service" of domain "call" takes the escape hatch's name |
| Capabilities.GeneratedNamesUnique | app/capability_generator.py:120-162 | No tool name is generated twice, the escape hatch's included, when no domain of the catalog extends another by an underscore and none is "call" |
| Capabilities.AdvertisedRooms | app/capability_generator.py:250-259 | The areas advertised are exactly the rooms of the domain's entities, each once, in order |
| Capabilities.AdvertisedFirst | app/capability_generator.py:250-259 | The names advertised are the first thirty, in order, of the domain's entities, or all of them |
| Capabilities.AdvertisedResolves | app/capability_generator.py:250-259 | Every area and name advertised, if stripping does not change what it folds to, resolves to a non-empty ascending list of that domain's entities |
| Tasks.CancelAndWait | app/tasks.py:9-28 | Raises if and only if a cancellation was aimed at the caller during the wait and the awaited one ended by raising, whatever was counted before |
| Tasks.StopLocked | app/ha_connection.py:194-208 | Awaits in order and gives up exactly at the first raising task once the caller's count rose |
| Tasks.RaisingTasksGiveUpIff | app/ha_connection.py:194-208 | With tasks that end by raising, it gives up if and only if any cancellation was aimed at the caller |
| Tasks.RunAll | app/server.py:72-81 | Each step once, in order, wherever cancellations land; the first cancellation is raised at the end exactly if there was one |

## Left out

- Transport and encoding (WebSocket, Redis, MQTT, HTTP, JSON, logging): only outcomes are modelled, landed, failed, cancelled and the order of frames.
- The SDK's writer and client: taken as a FIFO queue whose landing and flag update are one step, as app/live_state.py:82-95 describes it and tests/test_server.py:720-756 imitates it; a Redis command that takes effect after the writer reported failure is outside what the service can order.
- Real time: sleeps, timeouts and backoff appear as steps that may come at any moment.
- Malformed frames (a reply without an id, an event whose new state has no state string): they tear the connection down and add nothing to SocketCloses.
- Attribute values that are not text where the index reads them (friendly_name, device_class), and Unicode tables: strip and casefold are parameters of resolve.
- area_names, area_count, domains() listings and the order of keys inside dictionaries that nothing reads in order.
- _build_context, _person_for, _learn_own_user, build_event, health_payload, ha_client.py, alfred_ext/register.py: mapping code with one branch or two.
- risk_map.py and home_feature.py: the risk of a domain is a function parameter, a target is a call to resolve.
- Tool, field and target description text: only the areas and names listed are modelled.
- The string a superseded apply_credentials caller returns, and the normalisation of its url before the lock.
- A listener raising outside Exception, or a snapshot whose building raises, is not modelled; rebuilding the index may raise.
- Tasks that swallow a cancellation, in Lifecycle: a connection loop there, once cancelled, ends by raising; the other case is covered by Tasks alone.
- Registrar.NoRegistrationLost: says nothing once stop() has been called from outside; the service calls it only at shutdown.
- RegistryRefresh.NoChangeLost: says nothing while the last pass is a failed one, with FailedFetchLosesChange as the reason.
- The forwarder's stop and restart, and exceptions that are not MqttErrors, which end the loop with its in-flight item.
- Callers that come to apply_credentials after the lifespan has begun to shut down: the HTTP server no longer accepts them by then; those that came before may still be queued for the lock, and are modelled.
- Several connections in RegistryRefresh: it covers one connection, which may start with whatever refresh the one before left.
