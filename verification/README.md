# Verified model of linuxcnc-grpc-server

linuxcnc-grpc-server puts LinuxCNC behind gRPC and WebSockets. Most of what it does is to
keep remote copies of local state up to date under bounded memory: position histories,
machine statuses, HAL values, remote HAL components, oscilloscope frames, program previews
and error events; and to run commands on the machine in a fixed order. This project models
those protocols in Dafny and proves what they promise over whole runs.

Each component has a value type for its state and functions for its operations; a class
whose methods carry the operations out step by step, as the server's objects do, and are
proved equal to those functions; a state machine that lets every thread, timer, peer and
failure act in any order; an invariant that every step keeps; and theorems about every run.
The receiving client, which is not part of the server, is modelled by what a frame or message
tells it to do, and the theorems relate its copy to the server's state.

Code under a mutex, a strand or a lifetime gate is one step. The admission counter, which has
no lock, is modelled one atomic operation at a time. Clocks, random draws, HAL readings, NML
statuses, transport results and the order of hash maps are inputs of the steps and range over
everything.

| files in `src` | component |
|---|---|
| `PositionHistory`, `PositionPath`, `PositionSession` | position history, the path it stands for, and its WebSocket session |
| `StatusCodec`, `StatusStream`, `StatusService`, `StatusEvents`, `StatusExactness` | sparse status deltas, status history, status watchers, what each event says, and when a watcher's copy is exact |
| `WriteFinish` | the rule that a finish waits for the outstanding write |
| `ComponentMessages`, `ComponentOutbox`, `ComponentReactor`, `ComponentConversation`, `ComponentDelivery`, `ComponentStream` | the stream of one remote HAL component |
| `ComponentProxy`, `ComponentBudget`, `ComponentRegistry`, `ComponentProtocol`, `ComponentSchedule`, `ComponentAnswers`, `ComponentService` | the registry of remote components and its budgets |
| `ComponentLink` | stream, worker, registry and all other streams together |
| `SamplingBudget`, `HalTelemetry`, `HalSubscriptions`, `HalPromises`, `HalSession` | HAL value subscriptions |
| `CommandTicket`, `CommandCoordinator`, `CompletionTracker` | commands |
| `PreviewBatches`, `PreviewSession`, `PreviewPipeline` | program previews, from the parser to the client |
| `ScopeQueue`, `Executor`, `AdmissionCounter`, `ErrorStream` | bounded delivery |
| `Options`, `Sums` | shared definitions |

`dafny verify dfyconfig.toml` checks the whole project.

## Results that differ from what one might expect

- A position batch cut off by a sample limit still reports the full next sequence number, so it
  cannot be resumed; `SyncReproduces` gives the exact condition. The telemetry path never sets
  a limit.
- `docs/status-delta-boundaries.md` promises that applying a delta reproduces the status. The
  encoder compares doubles with the IEEE operator, so a change of sign of zero is not sent and a
  not-a-number is always sent; `StatusExactIff` gives the exact condition for one delta. Over
  whole runs the stream's theorems hold up to that comparison, `StreamExactIff` says which
  statuses may be published for every copy to be exact, and a negative zero breaks it
  (`NegativeZeroBreaksEvent`, `NegativeZeroBreaksRest`).
- An error reader that names the largest 64-bit number as its position is told that it fell
  behind as soon as anything was published, because the number after it wraps around
  (`LargestPositionEndsBehind`); `BehindMeansEvicted` gives the exact condition.
- A serial number ahead by exactly two to the thirty-first is not recognized as ahead
  (`SerialOrder`).
- Slots of a HAL value subscription are distinct because the service refuses lists that name an
  item twice; the telemetry class itself does not check.

## Model

| member | source | states |
|---|---|---|
| `Position.PositionHistory.constructor` | native/server/src/position/history.cc:8-10 | a new history is empty, keeps at least one sample, clamps the tolerance at zero and starts at generation 1 |
| `Position.PositionHistory.Configure` | native/server/src/position/history.cc:12-18 | the newest samples within the new bound are kept, and the generation tells every consumer to start over |
| `Position.PositionHistory.Clear` | native/server/src/position/history.cc:20-24 | the list is emptied under a new generation while sequence numbers go on |
| `Position.PositionHistory.Append` | native/server/src/position/history.cc:26-51 | an unchanged sample is refused; a sample continuing the line replaces the tail and keeps the root of the chain; dropping the oldest sample changes the generation; the ordering invariant is kept |
| `Position.PositionHistory.Snapshot` | native/server/src/position/history.cc:53-65 | the whole list, packed, with the sequence number the next sample will get |
| `Position.PositionHistory.Since` | native/server/src/position/history.cc:67-111 | the batch for any cursor, limit and generation, with its reset and tail-replacement decisions |
| `Position.PositionHistory.FindFirst` | native/server/src/position/history.cc:89-93 | the binary search finds the number of entries older than the cursor |
| `Position.PositionHistory.PackRange` | native/server/src/position/history.cc:165-170 | a range of entries is packed ten numbers a sample, in order |
| `Position.UnpackPack` | native/server/src/position/history.cc:165-170 | a consumer reads back exactly the samples that were packed |
| `Position.AppendedValid` | native/server/src/position/history.cc:26-51 | every append keeps sequence numbers strictly increasing and each chain's root after the entry before it, for any change and collinearity test |
| `Position.TracksAppend` | native/server/src/position/history.cc:26-51 | what a consumer last saw stays a prefix of the list, or a prefix but for one replaced tail, until the generation changes |
| `Position.SyncReproduces` | native/server/src/position/history.cc:67-111 | from any tracked position the consumer's list becomes the server's list if and only if the sample limit cuts nothing off |
| `Position.EmptyDeltaMeansCurrent` | native/server/src/telemetry_websocket_server.cc:467-473 | a frame is skipped only if the consumer already has the list |
| `PositionDelivery.PositionSession.SendNext` | native/server/src/telemetry_websocket_server.cc:467-478 | which frame is written next and which cursor it will lead to |
| `PositionDelivery.PositionSession.OnDelivery` | native/server/src/telemetry_websocket_server.cc:445-456 | a wake is used only when no write is in progress and is kept otherwise |
| `PositionDelivery.PositionSession.OnWrite` | native/server/src/telemetry_websocket_server.cc:525-571 | the cursor moves only when the write succeeded |
| `PositionDelivery.NextKeeps` | native/server/src/telemetry_websocket_server.cc:394-478 | every step of sampler, configuration, timer, wire and peer keeps the session consistent with history and consumer |
| `PositionDelivery.EveryWriteSynchronizes` | native/server/src/telemetry_websocket_server.cc:467-478 | after any interleaving, the consumer's list after a completed write is the server's list at the moment the frame was made |
| `PositionDelivery.QuietMeansEqual` | native/server/src/telemetry_websocket_server.cc:432-456 | when no write, wake or tick is outstanding the consumer's list equals the server's |
| `PositionPath.AppendedCovers` | native/server/src/position/history.cc:26-51 | an accepted sample makes the last straight stretch longer or begins one where the path turns, and the history still covers its part of the path |
| `PositionDelivery.HistoryIsThePath` | native/server/src/position/history.cc:26-51 | over every run each entry has the sample accepted under its number, and every accepted sample of the covered part belongs to one entry, whose samples all continue the line from the sample before them; from the third entry on each begins where the path turns |
| `PositionDelivery.SampleIsTaken` | native/server/src/position/history.cc:26-51 | over every run a sample is refused if and only if it does not differ from the last accepted one by more than the tolerance; otherwise it becomes the last, and the first stretch goes, under a new generation, if and only if the history is full and the path turns |
| `PositionDelivery.ReconfiguringKeepsTheNewest` | native/server/src/position/history.cc:12-24 | over every run reconfiguring keeps the newest entries the new bound allows, clearing none, and both tell consumers by a new generation |
| `PositionDelivery.ConsumerSeesThePath` | native/server/src/telemetry_websocket_server.cc:458-570 | over every run a quiet consumer reads back the accepted samples themselves, up to the last one |
| `PositionDelivery.FramesAreNumbered` | native/server/src/telemetry_websocket_server.cc:53-66 | over every run a frame carries the generation, the number of its first entry and the next number of the history it was made from |
| `PositionDelivery.TickServesTheWake` | native/server/src/telemetry_websocket_server.cc:446-456 | over every run a tick of an idle, woken session starts a frame if and only if the consumer has not seen the generation or does not hold the list |
| `StatusCodec.MakeStatusDelta` | native/server/src/machine/grpc/status_codec.cc:381-524 | the encoder's loops and flags compute the sparse delta, and no delta exactly when every unit compares equal |
| `StatusCodec.CopyTaskDelta` | native/server/src/machine/grpc/status_codec.cc:251-311 | 22 scalars, 8 records and two replaceable arrays of the task, with the changed flag |
| `StatusCodec.CopyTrajectoryDelta` | native/server/src/machine/grpc/status_codec.cc:313-371 | 29 scalars, 4 records and the available axes of the trajectory, with the changed flag |
| `StatusCodec.CopyIndexed` | native/server/src/machine/grpc/status_codec.cc:417-458 | the differing elements of an indexed list in order, including those that vanished |
| `StatusCodec.ItemsProgress` | native/server/src/machine/grpc/status_codec.cc:417-458 | of the listed elements applied one by one, those that differ are taken over, new ones appended and vanished ones cut off, and nothing else changes |
| `StatusCodec.StatusRoundTrip` | native/server/src/machine/grpc/status_codec.cc:381-524 | whatever a receiver holds for the old status, applying the delta gives it the new one, up to the comparison, for any transitive comparison |
| `StatusCodec.StatusExactIff` | native/server/src/machine/grpc/status_codec.cc:381-524 | the result is exactly the new status if and only if the comparison tells apart every unit in which the two differ |
| `StatusCodec.IdentityRoundTrip` | docs/status-delta-boundaries.md:115-118 | with an exact comparison, diff and apply are inverse for all pairs, and there is no delta if and only if the statuses are equal |
| `StatusCodec.SignedZeroIsNotSent` | native/server/src/machine/grpc/status_codec.cc:255-258 | a scalar going from zero to negative zero produces no delta, so the receiver's copy differs |
| `StatusCodec.NaNIsAlwaysSent` | native/server/src/machine/grpc/status_codec.cc:255-258 | a status with a not-a-number always produces a delta, and that delta changes nothing |
| `StatusCodec.IeeeTransitive` | native/server/src/machine/grpc/status_codec.cc:231-240 | the IEEE comparison is transitive, so the round trip and the stream hold for it |
| `StatusService.StatusFeed.ObserveStatus` | native/server/src/machine/grpc/service.cc:1165-1202 | the first status, a rebase, an unchanged status and a changed one, with eviction beyond the replay capacity |
| `StatusService.StatusFeed.SelectHistory` | native/server/src/machine/grpc/service.cc:1010-1025 | the search for the anchor and what is returned with and without replay |
| `StatusService.StatusReactor.Wake` | native/server/src/machine/grpc/service.cc:779-834 | snapshot, replay, stored delta, fresh delta, silence or termination, case by case |
| `StatusService.StatusReactor.WriteDone` | native/server/src/machine/grpc/service.cc:751-758 | the cursor and the sample compared against next move only after a successful write |
| `StatusService.StatusReactor.ScheduleWake` | native/server/src/machine/grpc/service.cc:759-777 | at most one wake is scheduled, and a full queue ends the stream |
| `StatusStream.ReplayArrives` | native/server/src/machine/grpc/service.cc:799-810 | replaying the retained deltas from the first sample arrives at the last |
| `StatusStream.LaterEventArrives` | native/server/src/machine/grpc/service.cc:815-829 | an event after skipped samples, eviction or a rebase still leads to the latest status |
| `StatusStream.SilenceArrives` | native/server/src/machine/grpc/service.cc:816-826 | when a retained anchor yields no delta, what the watcher holds is already the latest status |
| `StatusStream.NextTraced` | native/server/src/machine/grpc/service.cc:751-834 | every step of feed, worker, wire and watcher keeps what the watcher holds tied to a sample it was sent |
| `StatusStream.NextKeeps` | native/server/src/machine/grpc/service.cc:751-834 | every step leaves a wake due, a write in flight or the watcher at the latest status |
| `StatusStream.EveryEventRebuilds` | native/server/src/machine/grpc/service.cc:779-834 | after any run, the status rebuilt from a written event is the sample of that event's sequence |
| `StatusStream.SilentWakeIsCurrent` | native/server/src/machine/grpc/service.cc:816-826 | a wake that writes nothing leaves a watcher that already holds the latest status |
| `StatusStream.QuietMeansCurrent` | native/server/src/machine/grpc/service.cc:751-834 | with no write or wake outstanding the watcher holds the latest status |
| `StatusEvents.WakeSaysWhatIsDue` | native/server/src/machine/grpc/service.cc:779-834 | over every run a wake ends the stream if nothing is available, is silent if and only if there is nothing to say, and otherwise sends what is due: a replay from the position named if that is retained, with its bounds and one delta for each number, a delta from the cursor, or the newest status |
| `StatusEvents.StatusIsPublished` | native/server/src/machine/grpc/service.cc:1165-1202 | over every run a status is published, under the next number, if and only if it is the first, the history is started anew or there is a delta to it; what is retained is then told |
| `StatusEvents.StreamEndsForAReason` | native/server/src/machine/grpc/service.cc:751-834 | over every run a step ends an open stream if and only if it is one of the listed reasons |
| `StatusEvents.MachineDeltasAreNumbered` | native/server/src/machine/grpc/service.cc:799-829 | over every run each delta sent carries the number of the status it leads to |
| `StatusService.MachineStatusRebuilt` | native/server/src/machine/grpc/service.cc:1186-1198 | for any transitive comparison of units, after each event, at each silent wake and whenever the stream is quiet, a watcher's machine status is the published one up to that comparison |
| `StatusExactness.EventsExactIff` | docs/status-delta-boundaries.md:115-116 | every event of every run rebuilds exactly the published status if and only if the statuses that may be published are separated by the comparison, or the server keeps a single sample |
| `StatusExactness.StreamExactIff` | docs/status-delta-boundaries.md:115-116 | events and quiet or silent watchers are exact in every run if and only if, in addition and where three samples are kept, no two statuses that compare equal differ once a third can come between them |
| `StatusExactness.PairwiseExactSuffices` | native/server/src/machine/grpc/status_codec.cc:231-240 | statuses that are exact pair by pair may be published freely |
| `StatusExactness.ExactWithoutNegativeZero` | native/server/src/machine/grpc/status_codec.cc:231-240 | for IEEE doubles the stream is exact in every run whose statuses hold no negative zero, also if they hold NaNs |
| `StatusExactness.IeeeStreamExactIff` | native/server/src/machine/grpc/status_codec.cc:231-240 | for IEEE doubles the condition is exact, both ways |
| `StatusExactness.NegativeZeroBreaksEvent` | native/server/src/machine/grpc/service.cc:1186-1198 | a run of two statuses in which a scalar goes from zero to negative zero leaves the watcher with another status |
| `StatusExactness.NegativeZeroBreaksRest` | native/server/src/machine/grpc/service.cc:816-826 | a watcher that missed a status in between rests on the zero and is sent nothing |
| `WriteFinish.DeferredWriteFinish.TryStartWrite` | native/server/src/grpc/server/deferred_write_finish.hpp:15-20 | a write starts only when none is in flight and no end was requested |
| `WriteFinish.DeferredWriteFinish.CompleteWrite` | native/server/src/grpc/server/deferred_write_finish.hpp:22-26 | a failed write requests the end, unless one was requested |
| `WriteFinish.DeferredWriteFinish.RequestFinish` | native/server/src/grpc/server/deferred_write_finish.hpp:28-32 | the first reason to end wins |
| `WriteFinish.DeferredWriteFinish.TakeFinishStatus` | native/server/src/grpc/server/deferred_write_finish.hpp:34-40 | the finish is given out once, and only while no write is in flight |
| `WriteFinish.EndsOnce` | native/server/src/grpc/server/deferred_write_finish.hpp:13-57 | however the calls interleave: writes, then the first reason to end, then one finish with that reason |
| `ComponentOutbox.Outbox.PushDelta` | native/server/src/hal/grpc/component_outbox.hpp:22-32 | a delta is merged into a delta at the back or appended |
| `ComponentOutbox.Outbox.PushResponse` | native/server/src/hal/grpc/component_outbox.hpp:18-20 | a response is appended and marked to resume reading |
| `ComponentOutbox.Outbox.PopFront` | native/server/src/hal/grpc/component_outbox.hpp:37-41 | the front is taken and the rest stays in order |
| `ComponentOutbox.MergeDelta` | native/server/src/hal/grpc/component_outbox.hpp:50-65 | values of items already listed are overwritten in place, the others appended |
| `ComponentOutbox.MergedKeeps` | native/server/src/hal/grpc/component_outbox.hpp:50-65 | a merged delta has the effect of the two one after the other, on every view |
| `ComponentOutbox.PushKeepsEffect` | native/server/src/hal/grpc/component_outbox.hpp:22-32 | pushing a delta has the effect of queueing it behind everything: nothing is lost and no delta crosses a response |
| `ComponentStream.ComponentReactorObject.OnReadDone` | native/server/src/hal/grpc/remote_component_rpc.cc:152-204 | a message goes to the worker, the end of input or a full worker queue ends the stream |
| `ComponentStream.ComponentReactorObject.OnWriteDone` | native/server/src/hal/grpc/remote_component_rpc.cc:54-68 | finish, next message, close or next read, in that order |
| `ComponentStream.ComponentReactorObject.OnWorkResult` | native/server/src/hal/grpc/remote_component_rpc.cc:174-197 | failure, response, close or next read after the worker's result |
| `ComponentStream.ComponentReactorObject.OfferDelta` | native/server/src/hal/grpc/remote_component_rpc.cc:107-114 | a delta is written, queued behind the write, or dropped when the stream ends |
| `ComponentStream.ComponentReactorObject.OfferResponse` | native/server/src/hal/grpc/remote_component_rpc.cc:136-143 | a response is written, queued, or dropped when the stream ends |
| `ComponentStream.ComponentReactorObject.StartWrite` | native/server/src/hal/grpc/remote_component_rpc.cc:145-150 | the response buffer is loaded and the write started if allowed |
| `ComponentStream.ComponentReactorObject.DetachTransport` | native/server/src/hal/grpc/remote_component_rpc.cc:206-214 | the attachment is given up at most once |
| `ComponentStream.ComponentReactorObject.RequestFinish` | native/server/src/hal/grpc/remote_component_rpc.cc:216-221 | the queue is dropped and the finish requested |
| `ComponentStream.ComponentReactorObject.FinishIfReady` | native/server/src/hal/grpc/remote_component_rpc.cc:223-230 | Finish goes through the gate, which closes |
| `ComponentStream.ComponentReactorObject.OnHeartbeatTimeout` | native/server/src/hal/grpc/remote_component_rpc.cc:99-105 | only the timeout of the stream's own generation ends it |
| `ComponentReactor.NextKeeps` | native/server/src/hal/grpc/remote_component_rpc.cc:50-230 | every callback keeps the read, write, finish and queue discipline |
| `ComponentReactor.StreamDiscipline` | native/server/src/hal/grpc/remote_component_rpc.cc:50-230 | over every interleaving: one read, one write and one finish at most, the buffer being written holds the message sent last and is not overwritten, the gate open while a write is out, at most three messages queued |
| `ComponentReactor.NoWriteAfterTermination` | native/server/src/hal/grpc/remote_component_rpc.cc:136-150 | once the end is requested no write starts, whatever happens next |
| `ComponentConversation.NeverStalls` | native/server/src/hal/grpc/remote_component_rpc.cc:54-230 | over every run a stream that is up and writes nothing has a read outstanding or a message with the worker, and one that is to end and writes nothing has started to finish |
| `ComponentConversation.EndsForAReason` | native/server/src/hal/grpc/remote_component_rpc.cc:54-230 | over every run a step gives a stream a status to end with if and only if it is a reason to end, and the status of that reason |
| `ComponentConversation.RemembersTheConversation` | native/server/src/hal/grpc/remote_component_rpc.cc:80-196 | over every run the stream remembers exactly that a message came, that the component was closed, and its last attachment |
| `ComponentConversation.GoneAfterFinish` | native/server/src/hal/grpc/remote_component_rpc.cc:78-87 | over every run the stream is gone exactly from the moment it is told so after its one finish with nothing outstanding, and has then given up its attachment |
| `ComponentConversation.LateAnswersAreReleased` | native/server/src/hal/grpc/remote_component_rpc.cc:160-205 | over every run an answer that meets a finishing stream sends nothing, and the attachment it brought is given back |
| `ComponentDelivery.NextDelivers` | native/server/src/hal/grpc/remote_component_rpc.cc:54-150 | each callback keeps what was sent a prefix of what was offered, up to merged deltas, and the queue, message by message, the rest of it; an ending stream keeps the prefix |
| `ComponentDelivery.StreamIsFaithful` | native/server/src/hal/grpc/remote_component_rpc.cc:54-150 | over every run, ending or not, what was sent has exactly the effect and the responses of the first so many messages offered, and while the stream is open the queue has those of all the others |
| `ComponentService.DecodeValues` | native/server/src/hal/grpc/remote_component_registry.cc:135-164 | which updates are refused, and that all are accepted otherwise: unknown, not owned, duplicate, wrong type, incomplete |
| `ComponentService.ApplyDisconnect` | native/server/src/hal/grpc/remote_component_registry.cc:187-193 | the online pin falls and every item with a disconnect value takes it |
| `ComponentService.EncodeSnapshot` | native/server/src/hal/grpc/remote_component_registry.cc:166-185 | the values listed to a new attachment are recorded as sent |
| `ComponentService.SampleProxy` | native/server/src/hal/grpc/remote_component_registry.cc:540-571 | timeout, schedule and the changed readable values of one component |
| `ComponentService.ValidateSchema` | native/server/src/hal/grpc/remote_component_registry.cc:222-282 | a schema is accepted if and only if all definitions are well formed, none reserved and no name repeats |
| `ComponentService.RemoteComponentRegistry.Create` | native/server/src/hal/grpc/remote_component_registry.cc:205-379 | every way a creation can fail, including HAL refusing an item partway, and the registry after each |
| `ComponentService.RemoteComponentRegistry.AcquireItems` | native/server/src/hal/adapter.cc:351-423 | slots are taken one by one until all are there, HAL refuses, or the slab runs out |
| `ComponentService.RemoteComponentRegistry.Attach` | native/server/src/hal/grpc/remote_component_registry.cc:381-415 | not found, wrong token, already attached, or a new generation with a fresh snapshot |
| `ComponentService.RemoteComponentRegistry.Consume` | native/server/src/hal/grpc/remote_component_registry.cc:417-537 | the whole message protocol, with the invariant kept |
| `ComponentService.RemoteComponentRegistry.Start` | native/server/src/hal/grpc/remote_component_registry.cc:448-470 | activation: refused when already active, stale or incomplete, otherwise every value is written and the component goes online |
| `ComponentService.RemoteComponentRegistry.Change` | native/server/src/hal/grpc/remote_component_registry.cc:471-498 | an update is refused when inactive, stale or out of sequence, otherwise exactly its values are written |
| `ComponentService.RemoteComponentRegistry.End` | native/server/src/hal/grpc/remote_component_registry.cc:511-534 | detach or destroy, with the budgets and slots given back |
| `ComponentService.RemoteComponentRegistry.Leave` | native/server/src/hal/grpc/remote_component_registry.cc:195-203 | only the current attachment can be dropped |
| `ComponentService.RemoteComponentRegistry.Sample` | native/server/src/hal/grpc/remote_component_registry.cc:539-573 | one round over all components in any order, and the deltas to offer |
| `ComponentService.RemoteComponentRegistry.Shutdown` | native/server/src/hal/grpc/remote_component_registry.cc:575-581 | every component is destroyed, in any order, and everything is given back |
| `ComponentBudget.HalAllocationSlab.constructor` | native/server/src/hal/adapter.cc:235-245 | all slots are free, lowest last |
| `ComponentBudget.HalAllocationSlab.Acquire` | native/server/src/hal/adapter.cc:247-254 | the last free slot, or none |
| `ComponentBudget.HalAllocationSlab.Release` | native/server/src/hal/adapter.cc:256-261 | a slot within the slab becomes free |
| `ComponentBudget.GrantedBalanced` | native/server/src/hal/grpc/remote_component_registry.cc:284-292 | granting slots to a new component keeps both budgets in step |
| `ComponentBudget.ReturnedBalanced` | native/server/src/hal/grpc/remote_component_registry.cc:526-530 | so does taking them back; neither count can underflow |
| `ComponentBudget.AllReturnedBalanced` | native/server/src/hal/grpc/remote_component_registry.cc:575-581 | shutdown in any order frees every slot exactly once |
| `ComponentProxy.AssignedExactly` | native/server/src/hal/adapter.cc:456-470 | writing accepted updates sets exactly the named items |
| `ComponentProxy.CompleteTargetsAll` | native/server/src/hal/grpc/remote_component_registry.cc:155-162 | counting the updates is enough: a complete activation names every item the client owns |
| `ComponentProxy.DisconnectedExactly` | native/server/src/hal/grpc/remote_component_registry.cc:187-193 | disconnecting sets the online pin and the disconnect values and nothing else |
| `ComponentProxy.SnapshotItemsGivesView` | native/server/src/hal/grpc/remote_component_registry.cc:176-184 | a client knows, after the snapshot, the value recorded for every readable item |
| `ComponentProxy.SampleItemsKeepsView` | native/server/src/hal/grpc/remote_component_registry.cc:558-567 | a client that knows the recorded values knows the new ones after the delta |
| `ComponentRegistry.CreatedKeeps` | native/server/src/hal/grpc/remote_component_registry.cc:284-378 | creation keeps the registry's invariant on every path, and the slab cannot run out after the budget check |
| `ComponentRegistry.RunKeeps` | native/server/src/hal/grpc/remote_component_registry.cc:381-581 | every run of messages, departures, sampling, HAL changes and shutdowns keeps the invariant |
| `ComponentProtocol.BudgetsAgree` | native/server/src/hal/grpc/remote_component_registry.cc:284-292 | over every run the retained count is the number of items and of slots in use, no slot has two holders, and admissions count the components |
| `ComponentProtocol.CreateNeverRunsOut` | native/server/src/hal/grpc/remote_component_registry.cc:284-292 | no slab acquisition fails in a creation that passed the budget check |
| `ComponentProtocol.RefusedChangesNothing` | native/server/src/hal/grpc/remote_component_registry.cc:417-537 | a refused message leaves the registry as it was; a creation refused partway has only turned round the free slots it had taken |
| `ComponentProtocol.OnlineMeansActive` | native/server/src/hal/grpc/remote_component_registry.cc:187-193 | over every run active implies attached and the online pin equals active |
| `ComponentProtocol.OnceStaleAlwaysStale` | native/server/src/hal/grpc/remote_component_registry.cc:437-443 | an attachment handle that stopped being current never becomes current again in the component's life |
| `ComponentProtocol.AttachIsNewer` | native/server/src/hal/grpc/remote_component_registry.cc:402-414 | an attach hands out a generation above all earlier ones of the component |
| `ComponentProtocol.StaleHandleStaysInert` | native/server/src/hal/grpc/remote_component_registry.cc:195-203 | whatever happens after a handle stopped being current, messages and departures under it change nothing and are answered as the protocol says |
| `ComponentProtocol.ChangeIsExact` | native/server/src/hal/grpc/remote_component_registry.cc:471-498 | an accepted update sets exactly the listed items of one component |
| `ComponentProtocol.ActivationIsComplete` | native/server/src/hal/grpc/remote_component_registry.cc:448-470 | an accepted activation sets every item the client owns, no other, and brings the component online |
| `ComponentProtocol.LateComponentsAreDropped` | native/server/src/hal/grpc/remote_component_registry.cc:539-553 | after a sampling round no component past its heartbeat timeout is attached or online, and late ones hold their disconnect values |
| `ComponentSchedule.RoundIsExact` | native/server/src/hal/grpc/remote_component_registry.cc:539-573 | over every run a round samples exactly the components that are attached, active, in time and due: it records every readable value and offers a delta of exactly those that differed; a component that is neither due nor late is left alone |
| `ComponentSchedule.HeartbeatKeepsAttached` | native/server/src/hal/grpc/remote_component_registry.cc:484-506 | over every run a client whose creation, attach, activation, update or heartbeat is accepted stays attached through everything within the timeout, unless it leaves or closes |
| `ComponentAnswers.CreateIsAnswered` | native/server/src/hal/grpc/remote_component_registry.cc:205-379 | over every run a component is created if and only if its name is new, its schema sensible, its items and it fit into the budgets and HAL takes it, with a code for each refusal; it is then as the schema asks and every value is told |
| `ComponentAnswers.AttachIsAnswered` | native/server/src/hal/grpc/remote_component_registry.cc:381-415 | over every run attaching is refused with the code of its reason or starts a new attachment under the next generation, offline, with every value told |
| `ComponentProxy.EitherNameWillDo` | native/server/src/hal/grpc/remote_component_registry.cc:124-128 | an item is found under its own name and under that name after its component's prefix |
| `ComponentAnswers.DecodedIffNamed` | native/server/src/hal/grpc/remote_component_registry.cc:124-165 | values are accepted if and only if they are for items the client owns, of their types, each named once, and complete where they must be |
| `ComponentAnswers.MessageIsAnswered` | native/server/src/hal/grpc/remote_component_registry.cc:417-537 | over every run each message of an attached client gets the code, response and effect its component's state calls for |
| `ComponentAnswers.MisplacedIsRefused` | native/server/src/hal/grpc/remote_component_registry.cc:417-450 | over every run a message that does not fit the stream's state is refused and changes nothing |
| `ComponentAnswers.LeavingTakesOff` | native/server/src/hal/grpc/remote_component_registry.cc:195-203 | over every run a stream that leaves takes its component off if and only if its attachment is current |
| `ComponentProtocol.OnlyItsTokenAttaches` | native/server/src/hal/grpc/remote_component_registry.cc:381-401 | an attach is accepted if and only if it gives the name and token the component had from the start and nobody is attached, however long it lives |
| `ComponentProtocol.NamesAreUnique` | native/server/src/hal/grpc/remote_component_registry.cc:214-220 | over every run no two components have the same name |
| `ComponentLink.NextKeeps` | native/server/src/hal/grpc/remote_component_rpc.cc:50-230 | stream, worker, registry, sampling and all other streams together keep the client informed and every attachment accounted for |
| `ComponentLink.ClientKnowsComponent` | native/server/src/hal/grpc/remote_component_registry.cc:166-185 | over every interleaving, snapshot and drained messages give the client, for each readable item, the value last recorded by sampling |
| `ComponentLink.ClientSeesLiveValues` | native/server/src/hal/grpc/remote_component_registry.cc:554-571 | over every interleaving, when a round finds the component due the client is brought to the HAL values themselves |
| `ComponentLink.ClientSawWhatWasOffered` | native/server/src/hal/grpc/remote_component_rpc.cc:54-150 | over every interleaving, also of an ending stream, what was sent so far leaves the client with a view that the server offered |
| `ComponentLink.NoOrphanedAttachment` | native/server/src/hal/grpc/remote_component_rpc.cc:198-214 | once a stream is gone and its cleanups are done, no attachment it ever obtained is current, even one granted after it closed |
| `SamplingBudget.CheckBudget` | native/server/src/hal/value_telemetry.cc:84-92 | the loop, in any order and with its early exit, decides whether the cost is within the budget, without underflow |
| `SamplingBudget.KeyIsUnique` | native/server/src/hal/value_telemetry.cc:43-45 | the text key of an item identifies it |
| `SamplingBudget.CostMonotone` | native/server/src/hal/value_telemetry.cc:66-93 | dropping subscriptions or periods never raises the cost |
| `HalTelemetry.HalValueTelemetry.WithinSamplingBudget` | native/server/src/hal/value_telemetry.cc:66-93 | gathering the fastest period per item over subscriptions in any order gives the cost of all of them together |
| `HalTelemetry.HalValueTelemetry.ExpireLocked` | native/server/src/hal/value_telemetry.cc:52-64 | unattached subscriptions past their time go, with their tokens |
| `HalTelemetry.HalValueTelemetry.Create` | native/server/src/hal/value_telemetry.cc:95-120 | expiry, capacity, budget and the new subscription with its slots |
| `HalTelemetry.HalValueTelemetry.Update` | native/server/src/hal/value_telemetry.cc:122-166 | the revision check, the budget without the old items, and the rebinding |
| `HalTelemetry.Rebind` | native/server/src/hal/value_telemetry.cc:137-153 | an item that keeps its type keeps its slot and value; any other gets the next slot and no value |
| `HalTelemetry.HalValueTelemetry.Claim` | native/server/src/hal/value_telemetry.cc:177-192 | a token is claimed at most once at a time |
| `HalTelemetry.HalValueTelemetry.Detach` | native/server/src/hal/value_telemetry.cc:194-202 | the subscription lives on for its time to live |
| `HalTelemetry.HalValueTelemetry.Erase` | native/server/src/hal/value_telemetry.cc:204-217 | the subscription and its token go |
| `HalTelemetry.HalValueTelemetry.Close` | native/server/src/hal/value_telemetry.cc:219-230 | everything goes, and nothing is created afterwards |
| `HalTelemetry.HalValueTelemetry.DueSamples` | native/server/src/hal/value_telemetry.cc:232-244 | which subscriptions are due, with the bindings of that moment |
| `HalTelemetry.HalValueTelemetry.Publish` | native/server/src/hal/value_telemetry.cc:246-267 | values are stored only for the revision and size they were sampled for, and only if something changed |
| `HalSubscriptions.ReboundKeeps` | native/server/src/hal/value_telemetry.cc:137-153 | rebinding binds the items asked for, keeps slots distinct and carries only values of the same item and type |
| `HalSubscriptions.NextKeeps` | native/server/src/hal/value_telemetry.cc:95-267 | every operation keeps budget, bindings, values and samples in progress consistent |
| `HalSubscriptions.BudgetHolds` | native/server/src/hal/value_telemetry.cc:66-93 | over every run the cost of all subscriptions is at most 20480 samples per second |
| `HalSubscriptions.ValuesAreGenuine` | native/server/src/hal/value_telemetry.cc:246-267 | over every run, however sampling races with updates, a stored value was read for the very item it is stored under and has the bound type |
| `HalSubscriptions.SlotMeansOneItem` | native/server/src/hal/value_telemetry.cc:142-153 | a slot number means one item with one type for the subscription's whole life |
| `HalSubscriptions.TokenOpensItsSubscription` | native/server/src/hal/value_telemetry.cc:177-192 | over every run a token opens exactly the subscription it was issued for, and only while that is alive, not lapsed and not attached |
| `HalPromises.PublishedIsCurrent` | native/server/src/hal/value_telemetry.cc:242-268 | over every run publishing a sample of the current revision stores what was read, up to values that compare the same, and counts if and only if something differs; any other sample changes nothing |
| `HalPromises.SamplesAreTaken` | native/server/src/hal/value_telemetry.cc:227-240 | over every run a sample is taken for exactly the attached subscriptions that are due, which then wait for their period |
| `HalPromises.CreationIsAsAsked` | native/server/src/hal/value_telemetry.cc:94-121 | over every run a subscription is created if and only if the telemetry is open, has room and the budget allows it with all that are alive, and it is then as asked for |
| `HalPromises.UpdateIsAsAsked` | native/server/src/hal/value_telemetry.cc:123-173 | over every run an update is accepted if and only if its revision is current and the budget allows it; it binds exactly the items asked for, keeping slot and value of each that was bound with its type |
| `HalPromises.AttachmentIsAsAsked` | native/server/src/hal/value_telemetry.cc:183-225 | over every run claiming, detaching, erasing and closing change exactly what they should |
| `HalPromises.AffordableMeans` | native/server/src/hal/value_telemetry.cc:66-93 | the budget allows exactly what costs at most 20480 reads a second, counted over all other subscriptions and the items asked for, each item at its fastest period |
| `HalDelivery.HalSession.SendHal` | native/server/src/telemetry_websocket_server.cc:480-498 | replacement or changed values, or nothing to send |
| `HalDelivery.HalSession.WakeHal` | native/server/src/telemetry_websocket_server.cc:458-465 | a wake during a write is noted |
| `HalDelivery.HalSession.OnWrite` | native/server/src/telemetry_websocket_server.cc:560-570 | the session's record moves with the write, and a noted wake is served |
| `HalDelivery.DeltaMatches` | native/server/src/telemetry_websocket_server.cc:480-498 | a list of changes brings the client's slots to the snapshot, up to the comparison of values |
| `HalDelivery.EveryWriteMatches` | native/server/src/telemetry_websocket_server.cc:480-498 | over every run, after each completed write the client's slots are those of the snapshot sent |
| `HalDelivery.QuietMeansCurrent` | native/server/src/telemetry_websocket_server.cc:458-570 | over every run, with no wake or write outstanding the client has the values last published: no wake that met a write was lost |
| `HalDelivery.NewsWakesTheSession` | native/server/src/hal/value_telemetry.cc:253-268 | over every run publishing wakes the session if and only if it says something new for the current revision |
| `HalDelivery.SessionClosesForAReason` | native/server/src/telemetry_websocket_server.cc:458-571 | over every run a step closes an open session if and only if the session fails, its write fails, or it finds its subscription gone; a write that failed is over |
| `CommandTicket.CommandTicketState.Transition` | native/server/src/command_coordinator.cc:187-221 | late requests are ignored; otherwise the result changes and those who waited for it are taken out in order |
| `CommandTicket.CommandTicketState.Observe` | native/server/src/command_coordinator.cc:46-64 | an observer is told at once or registered |
| `CommandTicket.TicketMovesForward` | native/server/src/command_coordinator.cc:187-205 | queued to accepted to an end or straight to an end, and the accepted number never changes once set, under every race |
| `CommandTicket.CalledAtMostOnce` | native/server/src/command_coordinator.cc:206-220 | no observer is called more often than it registered, and each call reports a state the ticket had and the observer waited for |
| `CommandTicket.CalledExactlyOnce` | native/server/src/command_coordinator.cc:46-64 | once the ticket has ended and the calls underway are made, every observer was called exactly once per registration |
| `CommandTicket.RequestsTakeEffect` | native/server/src/command_coordinator.cc:187-221 | over every race a request takes effect if and only if the ticket is queued, or accepted and to be ended, and then the result is as requested |
| `CommandTicket.ToldInTime` | native/server/src/command_coordinator.cc:187-221 | over every race nobody waits for a phase that is reached or is told of one not waited for |
| `CommandCoordinator.CommandCoordinatorObject.constructor` | native/server/src/command_coordinator.cc:66-70 | zero capacities become one |
| `CommandCoordinator.CommandCoordinatorObject.SubmitAction` | native/server/src/command_coordinator.cc:74-91 | stopped, full or queued under the next sequence number |
| `CommandCoordinator.CommandCoordinatorObject.Shutdown` | native/server/src/command_coordinator.cc:124-132 | no more submissions |
| `CommandCoordinator.CommandCoordinatorObject.NextAction` | native/server/src/command_coordinator.cc:139-151 | the next action, safety first, or the decision to leave |
| `CommandCoordinator.RunsInOrder` | native/server/src/command_coordinator.cc:74-151 | over every run queues stay within capacity, numbers grow by one, and each class starts in admission order |
| `CommandCoordinator.ExitMeansAllRan` | native/server/src/command_coordinator.cc:139-151 | when the worker exits every admitted action was started, none twice |
| `CommandCoordinator.SafetyStartsSoon` | native/server/src/command_coordinator.cc:148-150 | a safety action is preceded by exactly the safety actions ahead of it, fewer than the safety capacity, whatever is submitted meanwhile |
| `CommandCoordinator.SubmissionIsDecided` | native/server/src/command_coordinator.cc:74-122 | over every run an action is refused as stopped if and only if a shutdown came before, as full if and only if its class has no room, and otherwise admitted under the next number |
| `CommandCoordinator.WakingStartsTheNext` | native/server/src/command_coordinator.cc:139-185 | over every run an idle worker starts the oldest waiting safety action, or else the oldest other one, and exits if and only if none waits and a shutdown came |
| `CompletionTracker.SerialOrder` | native/server/include/linuxcnc_grpc/linuxcnc/nml_adapter.hpp:22-25 | the 32-bit comparison agrees with unbounded counters up to two to the thirty-first apart, if and only if the first is not ahead by exactly that |
| `CompletionTracker.CommandCompletionTracker.Track` | native/server/src/linuxcnc/nml_adapter.cc:192-216 | unavailable, late or pending from now on |
| `CompletionTracker.CommandCompletionTracker.FailChannel` | native/server/src/linuxcnc/nml_adapter.cc:218-227 | everything pending ends as unavailable |
| `CompletionTracker.CommandCompletionTracker.Observe` | native/server/src/linuxcnc/nml_adapter.cc:229-241 | a new status resolves what it decides |
| `CompletionTracker.CommandCompletionTracker.CollectReady` | native/server/src/linuxcnc/nml_adapter.cc:295-308 | resolved commands leave the list, the others keep their order |
| `CompletionTracker.ResolvedExactlyOnce` | native/server/src/linuxcnc/nml_adapter.cc:192-308 | over every run each tracked command is pending or ended, and ended once |
| `CompletionTracker.OutcomesAreJustified` | native/server/src/linuxcnc/nml_adapter.cc:192-308 | over every run a command ends as completed or rejected only because of a status read after it was tracked that says so, late only past its deadline, and unavailable if and only if no status had been read or the last report was a failed channel |
| `CompletionTracker.NoneKeptWaiting` | native/server/src/linuxcnc/nml_adapter.cc:276-308 | over every run no pending command is one that the last status, read after it was tracked, decides; none is pending on a failed channel, and none is late once its time was looked at |
| `CompletionTracker.CompletedMeansReached` | native/server/src/linuxcnc/nml_adapter.cc:276-293 | a completed command was echoed, or a later one was, for counters less than two to the thirty-first apart |
| `CompletionTracker.CommandsAreKept` | native/server/src/linuxcnc/nml_adapter.cc:192-216 | over every run whatever is pending or ended under a number has the serial, the deadline and the count of statuses it was tracked with |
| `CompletionTracker.LookingDecides` | native/server/src/linuxcnc/nml_adapter.cc:229-308 | over every run reading a status or the clock ends each pending command if and only if the last status or its deadline decides it, and as that says |
| `CompletionTracker.TrackingFiles` | native/server/src/linuxcnc/nml_adapter.cc:192-216 | over every run a command ends at once if the channel is down or its time is up, and is otherwise pending behind all others |
| `ScopeQueue.ScopeFrameQueue.Acquire` | native/server/src/scope/controller.cc:254-260 | one owner at a time |
| `ScopeQueue.ScopeFrameQueue.Clear` | native/server/src/scope/controller.cc:262-270 | the owner empties the queue |
| `ScopeQueue.ScopeFrameQueue.Release` | native/server/src/scope/controller.cc:272-282 | the owner leaves and everything is reset but the generation |
| `ScopeQueue.ScopeFrameQueue.Publish` | native/server/src/scope/controller.cc:289-308 | in flight, or pending in place of an older one that is counted as skipped |
| `ScopeQueue.ScopeFrameQueue.Next` | native/server/src/scope/controller.cc:315-320 | a frame is handed out once |
| `ScopeQueue.ScopeFrameQueue.Acknowledge` | native/server/src/scope/controller.cc:333-350 | the next frame carries the number skipped before it |
| `ScopeQueue.FramesAreConserved` | native/server/src/scope/controller.cc:289-350 | over every run, published since the queue was emptied equals acknowledged, in flight, pending and skipped |
| `ScopeQueue.SkipsAreExact` | native/server/src/scope/controller.cc:333-350 | consecutive frames in flight differ by one plus the number skipped |
| `ScopeQueue.HandedOutOnce` | native/server/src/scope/controller.cc:315-350 | no frame is handed out twice or out of order, also across owners, and each carries what was published under its number |
| `ScopeQueue.SkippedIsTheTenuresTotal` | native/server/src/scope/controller.cc:333-355 | over every run the exposed counter is the sum of what the frames in flight since the queue was last released say they replaced; clearing keeps it |
| `ScopeQueue.OwnerIsServed` | native/server/src/scope/controller.cc:315-350 | over every run the owner is handed the frame in flight once, and an acknowledgement counts if and only if the owner names that frame |
| `ScopeQueue.OneOwnerAtATime` | native/server/src/scope/controller.cc:255-313 | over every run a queue is acquired only while nobody else has it, cleared and released by its owner only, and takes captures only while it is owned |
| `PreviewBatches.TakeBatch` | native/server/src/gcode/canon_preview.cc:514-524 | the next batch is as long as count and byte limits allow |
| `PreviewBatches.FlushBatch` | native/server/src/gcode/canon_preview.cc:509-534 | the batches of a flush, what a stop leaves, and failure on an operation too large |
| `PreviewBatches.FlushIsLossless` | native/server/src/gcode/canon_preview.cc:509-534 | batches and rest are the operations in order, every batch is within both limits and not empty, so the loop makes progress |
| `PreviewBatches.FlushIsComplete` | native/server/src/gcode/canon_preview.cc:509-534 | without a stop a flush uses up the operations if and only if none is too large |
| `PreviewBatches.ParseEmitsEverything` | native/server/src/gcode/canon_preview.cc:500-534 | a parse without errors emits exactly the recorded operations in order, and every batch of every parse is within both limits and not empty |
| `PreviewBatches.ChecksFlushWhenEnoughWait` | native/server/src/gcode/canon_preview.cc:504-507 | over every parse a check flushes if and only if there is a limit on the count and that many operations wait, and a final flush leaves nothing |
| `PreviewBatches.SendFrames` | native/server/src/telemetry_websocket_server.cc:684-701 | the frames of a batch, or failure |
| `PreviewBatches.FramesAreLossless` | native/server/src/telemetry_websocket_server.cc:681-701 | frames are the batch in order, none empty and none above 4 MiB, for any encoding; failure means an operation does not fit alone, and the frames are then a beginning of the batch |
| `PreviewBatches.OversizeFails` | native/server/src/telemetry_websocket_server.cc:687-698 | and such an operation does make sending fail, if a frame is never smaller than one of its operations |
| `PreviewDelivery.PreviewSession.EnqueuePreview` | native/server/src/telemetry_websocket_server.cc:593-609 | progress replaces progress at the back, everything else is appended |
| `PreviewDelivery.PreviewSession.PumpPreview` | native/server/src/telemetry_websocket_server.cc:751-760 | the front is written when nothing else is |
| `PreviewDelivery.PreviewSession.OnWrite` | native/server/src/telemetry_websocket_server.cc:525-543 | a written batch lowers the 64-bit count; the end, or data from the client, starts the closing handshake, and otherwise the next message follows |
| `PreviewDelivery.PreviewSession.OnRead` | native/server/src/telemetry_websocket_server.cc:579-584 | data from the client only marks the session as closing |
| `PreviewDelivery.PreviewSession.Fail` | native/server/src/telemetry_websocket_server.cc:775-806 | the session is closed and its queue dropped |
| `PreviewDelivery.QueueIsBounded` | native/server/src/telemetry_websocket_server.cc:593-609 | over every run at most two batches are outstanding and the queue never exceeds six messages |
| `PreviewDelivery.PreviewArrives` | native/server/src/telemetry_websocket_server.cc:525-609 | over every run batches and the end arrive in order, none lost or repeated |
| `PreviewDelivery.OutstandingNeverWraps` | native/server/src/telemetry_websocket_server.cc:530-534 | over every run, also after the session was closed, lowering the count of outstanding batches never goes below zero |
| `PreviewDelivery.QuietMeansWritten` | native/server/src/telemetry_websocket_server.cc:525-609 | over every run an open session that is idle and has nothing on its way has written everything the parser sent |
| `PreviewDelivery.RoomForTwoBatches` | native/server/src/telemetry_websocket_server.cc:666-680 | over every run a batch may be sent if and only if the session is not closed and fewer than two are still to be written |
| `PreviewPipeline.NextSound` | native/server/src/telemetry_websocket_server.cc:660-709 | every step of parser, framing, flow control and session keeps what was sent a beginning of what was recorded |
| `PreviewPipeline.PreviewShowsProgram` | native/server/src/telemetry_websocket_server.cc:660-709 | over every run of parser and session together the client has a beginning of the program's operations, in frames within the limit; with the summary it has exactly all of them and their number |
| `PreviewPipeline.EndIsTold` | native/server/src/telemetry_websocket_server.cc:702-745 | over every run the end is told once all frames are sent: a summary with the number of operations if and only if nothing was too large, and otherwise a failure |
| `Executor.BoundedExecutor.Submit` | native/server/src/callback_runtime.cc:31-44 | stopping, admission, capacity and the reserve for clean-up |
| `Executor.BoundedExecutor.Shutdown` | native/server/src/callback_runtime.cc:56-72 | with and without draining |
| `Executor.BoundedExecutor.TakeTask` | native/server/src/callback_runtime.cc:94-97 | the front of the queue, with the ordinary count |
| `Executor.CleanupHasRoom` | native/server/src/callback_runtime.cc:31-44 | over every run ordinary tasks leave the reserve free, so a clean-up task is accepted while fewer than the reserve are queued, until shutdown |
| `Executor.StartedInOrder` | native/server/src/callback_runtime.cc:84-113 | over every run tasks start in the order accepted, each once, and only a shutdown without draining drops any |
| `Executor.SubmissionIsDecided` | native/server/src/callback_runtime.cc:31-44 | over every run a task is accepted if and only if no shutdown came, there is room, and an ordinary one leaves the reserve free and was not stopped |
| `Executor.WorkersTakeTheOldest` | native/server/src/callback_runtime.cc:56-98 | over every run a worker starts the oldest waiting task, and only a first shutdown that does not drain drops those that wait |
| `AdmissionCounter.CountIsExact` | native/server/src/callback_runtime.cc:115-131 | at every point of every interleaving of single atomic operations the count is holders plus tentative threads, at most the capacity, and never lowered below zero |
| `AdmissionCounter.NoneAdmittedAfterStop` | native/server/src/callback_runtime.cc:115-133 | after stop no thread gets an admission, not even one that had already raised the count |
| `AdmissionCounter.UndisturbedAcquire` | native/server/src/callback_runtime.cc:115-131 | at every point of every interleaving an undisturbed acquire is admitted if and only if admission was not stopped and there is room, and an undisturbed release gives the place back |
| `ErrorStream.SequencedRing.Publish` | native/server/include/linuxcnc_grpc/callback_runtime.hpp:179-185 | the next number, with the oldest entry dropped beyond the capacity |
| `ErrorStream.SequencedRing.ReadAfter` | native/server/include/linuxcnc_grpc/callback_runtime.hpp:187-199 | behind, by a 64-bit sum that wraps at the largest position, or the entries after the cursor |
| `ErrorStream.ErrorReactor.Wake` | native/server/src/machine/grpc/service.cc:929-949 | the next event, silence, or the end as behind |
| `ErrorStream.ErrorReactor.OnWriteDone` | native/server/src/machine/grpc/service.cc:923-928 | the cursor moves after a successful write and the next event follows |
| `ErrorStream.AfterMeans` | native/server/include/linuxcnc_grpc/callback_runtime.hpp:187-199 | for every cursor: behind if and only if an event was missed, and otherwise exactly the retained events after it, in order, with the successor first |
| `ErrorStream.BehindMeansEvicted` | native/server/include/linuxcnc_grpc/callback_runtime.hpp:190-192 | behind if and only if the successor was evicted: that holds if and only if the cursor is not the largest 64-bit number or nothing was published |
| `ErrorStream.LargestPositionEndsBehind` | native/server/src/machine/grpc/service.cc:887-945 | a stream opened at the largest number ends at once as behind although nothing was evicted |
| `ErrorStream.EndsForAReason` | native/server/src/machine/grpc/service.cc:923-945 | over every run a step ends an open stream if and only if it asks for the end, is a failed write, or lets the reader see that it missed an event |
| `ErrorStream.BehindMeansMissed` | native/server/src/machine/grpc/service.cc:929-945 | over every run a stream that ended as behind has missed an event |
| `ErrorStream.NoSilentGap` | native/server/src/machine/grpc/service.cc:923-949 | over every run a reader's events are numbered without a gap and are the ones published, starting after the position asked for |
| `ErrorStream.QuietMeansCaughtUp` | native/server/src/machine/grpc/service.cc:923-949 | over every run an open, idle stream owed no wake has delivered the last event |

## Left out

- Integer widths: 64-bit sequence numbers, generations, revisions and counters and 32-bit slots do not wrap around, except that 32-bit serials, the subtractions of the admission, executor and preview counters and the sum with an error reader's position do.
- Floating point: the position tests for change and collinearity are arbitrary functions and coordinates are reals; status and HAL values are opaque with an arbitrary comparison, and a remote component's values are compared for identity.
- Random ids and tokens of components and subscriptions are assumed never to be drawn twice in the runs of `ComponentLink` and `HalSubscriptions`; token comparison is equality.
- The order in which a destroyed component's slots return to the slab is the order of its items, not the order of their names; only the order of the free list depends on it.
- Liveness: fairness, timers firing, condition variables and draining; instead, quiet states are shown to be converged ones.
- The order of two observers' calls for one ticket, which the code does not fix either.
- AdmissionCounter.CountIsExact: releases are made only by threads that hold an admission; a release without one can reset the count.
- ComponentLink.NoOrphanedAttachment: a cleanup handed to the HAL worker is taken to be queued; `Executor.CleanupHasRoom` says when it is.
- ComponentRegistry.CreatedKeeps: HAL's refusal, and a failing `set_ready`, are one input that says after how many acquired slots creation fails.
- ErrorStream.NoSilentGap: before its first event a reader that asked for everything starts at the oldest retained event.
- PreviewBatches.FlushBatch: a stop is an input that says how many batches still go out; checks that numbers are finite are left out.
- PreviewPipeline.PreviewShowsProgram: the numbers in progress reports are arbitrary, and a parse that goes on for a while after its session was closed sends nothing more.
- NML, HAL, rs274, gRPC, Boost.Beast and protobuf themselves, and the encoding of single fields (`fill_status`, `encode_hal_topology`, `encode_gcode_operation` and the like).
- The scope's shared-memory capture, program workspaces and archives, program activation, configuration and INI files, request validation, endpoint and query parsing, health checks.
- The topology stream, the HAL read and write calls and the scope and preview set-up, which would only add easy members.
