# Verification of libhuestream

A Dafny model of the parts of libhuestream, its bridge simulator and its JSON library that carry
protocol state, with proofs of what they keep. Code that updates objects is modelled as classes
whose methods are proved against specification functions; the theorems about whole runs are
lemmas about those functions. `dafny verify dfyconfig.toml` checks everything.

- **Connection flow** (`FlowSpec`, `FlowInvariant`, `FlowRuns`, `FlowTrace`, `LateSaves`,
  `AuthenticationRounds`, `AuthenticationCounts`, `AuthenticationRuns`, `StaleRound`; the object in
  `ConnectionFlow` and `FlowObject`): a nine-state machine driven by requests, monitor events, aborts
  and completions that may come late or stray. The procedure messages follow a protocol in every run
  (`FlowProtocol`, `FlowMessages`), aborts are quiescent but for late saves, and authentication rounds
  count right while only their own bridges answer.
- **Front and dispatcher** (`ConnectSpec`, `DispatcherSpec`, `ConnectSystem`, `RefusedCalls`; the
  objects in `Connect`, `MessageDispatcher`, `ConnectObjects`): what the application sees, for every
  interleaving that the locks allow.
- **Replica of the bridge** (`ServerSpec`, `ServerIntegrity`, `ServerRuns`, `DanglingLights` for the simulator;
  `ReplicaSpec`, `ReplicaAgreement`, `ReplicaRuns`, `ReplicaKeys`, `ReplicaExamples` for the client; the
  objects in `ResourcesManager`, `BridgeReplica`, `ReplicaObjects`): references stay resolvable on the
  bridge and the client agrees with it.
- **Event stream** (`EventFraming`, `EventStream`, `EventDelivery`, `EventDocuments`, `EndToEnd`): the
  framing does not depend on chunks, and composes with the replica.
- **Feedback debounce** (`FeedbackDebounce`, `FeedbackRuns`).
- **Streaming path** (`TakeoverPolicy`, `TakeoverProofs`, `TakeoverGroups`, `TakeoverExactly`,
  `TakeoverStop`, `TakeoverRuns`, `StreamStarter`; `StreamSpec`, `StreamRuns`, `Stream`, `StreamSessions`;
  `StreamProtocol`, `StreamerClient`, `ColorLevels`): takeover policy against any bridge, session life
  cycle, wire round trip and colour quantisation.
- **Mixer** (`EffectOrder`, `Compositing`, `Mixer`, `MixerRuns`) and **child array** (`JsonChildren`).
- `BridgeData`, `DifferenceReport`, `BridgeStreamingChecker`: the bridge, its status, the list of
  known bridges, and the comparison of two bridges. `ResourceData`, `Prelude`: shared definitions.

The methods named `Lifetime`, `Replay`, `Serve` and `Follow` carry the theorems about runs over to the
objects: whatever is called on them, their fields are what the specification gives.

## What turned out not to hold

- An event whose document contains the text `id: ` is never delivered, nor is anything after it; the
  condition is exact (`EventDelivery.BlockedExactlyByIds`). A name such as "Madrid: hall" is enough
  (`EventDocuments.MadridBlocksOslo`). A comment in the source expects several events at once to be
  handled, which they are otherwise.
- A version 1 reply "not available" during a takeover deletes the selected group, and an accepted
  start then dereferences a missing group; so does a start without a selected group. Exactly when is
  told from the bridge, the level and the replies (`TakeoverExactly.EndsAtMissingGroupExactly`);
  `TakeoverGroups.MissingGroupHappens` is such an exchange.
- A call whose turn comes while the flow does internal work is refused without a message, and leaves the
  front busy unless a procedure that ended in between has made it idle: exactly then
  (`RefusedCalls.CallIsLostExactlyWhen`). Runs in which it happens are in `RefusedCalls.LostCallIsReached`
  and, with the internal work only queued when the call is made, `RefusedCalls.LostBehindReconnect`.
- Reports of bridges from an earlier authentication round, whose retries an abort leaves alive, can use
  up the counter; whatever is dispatched, it counts the live bridges exactly when no bridge outside the
  round has failed more than three times and none of the round more than four times
  (`AuthenticationCounts.CounterIsLiveExactlyWhen`, with a run in
  `StaleRound.StaleBridgeEndsTheRound`). Without such left-overs it counts right
  (`AuthenticationRuns.RoundsCountRight`). That the decrement never wraps holds in every run.
- A save that completes late ends whatever procedure is going on; after an abort the flow stays quiet
  exactly when no save completes (`LateSaves.AbortIsQuietExactlyWithoutSaves`, with a run in
  `LateSaves.LateSaveEndsTheNextProcedure`).
- The simulator does not announce new entertainments or removed devices. The client has exactly the
  entertainments of the bridge that it knew at the start, and never forgets a device
  (`ReplicaKeys.EntertainmentsEqualWhen`, `ReplicaKeys.DevicesAreNeverForgotten`, with examples in
  `ReplicaExamples`); agreement on everything else is proved all the same.
- Three of the configurations that the simulator starts with list a light service that no device has
  (tools/simulator/server/config/default_entertainment_configuration.json, lines 445, 1267 and 1416).
  Light services are therefore not part of what the bridge is assumed to start with: what dangles
  after a run is exactly what dangled before (`DanglingLights.SameDangling`), and agreement does not need
  them.

## Model

| member | source | states |
|---|---|---|
| `FlowRuns.EveryRunFollowsTheProtocol` | libhuestream/huestream/connect/ConnectionFlow.cpp:323-335 | in every run of requests, monitor events, aborts and completions, stray ones included: STARTED and FINISHED alternate with matching requests, a procedure is open exactly while the request is not INTERNAL, the start snapshot is the bridge of the last STARTED, Idle implies INTERNAL, and the authentication counter is at least 1 while authenticating |
| `FlowRuns.EveryProcedureIsWellFormed` | libhuestream/huestream/connect/ConnectionFlow.cpp:783-795 | in the messages of any run, the next boundary after a STARTED is a FINISHED of the same request, and between the two each streaming edge is reported exactly as often as the bridge at the end differs from the bridge at the start |
| `FlowRuns.OpenMeansStarted` | libhuestream/huestream/connect/ConnectionFlow.cpp:323-335 | a request other than INTERNAL is current exactly when some STARTED has no boundary after it, and that STARTED is of the current request |
| `FlowRuns.AbortRestoresTheStart` | libhuestream/huestream/connect/ConnectionFlow.cpp:268-283 | aborting a user procedure makes the bridge of its STARTED active and sends only ABORTED and FINISHED |
| `FlowRuns.LateCompletionsAreIgnored` | libhuestream/huestream/connect/ConnectionFlow.cpp:352-354 | any number of late completions other than of a save leave an idle flow as it is, apart from asking a bridge again |
| `FlowRuns.AbortIsQuiescent` | libhuestream/huestream/connect/ConnectionFlow.cpp:268-283 | abort followed by any late completions except of a save: still idle, the start bridge still active, nothing more said |
| `LateSaves.AbortIsQuietExactlyWithoutSaves` | libhuestream/huestream/connect/ConnectionFlow.cpp:268-283 | after an abort and any late completions, saves included, the flow is idle; it has said nothing more exactly when none of them was the end of a save |
| `LateSaves.SaveEndsEverything` | libhuestream/huestream/connect/ConnectionFlow.cpp:727-751 | the end of a save, in any state, leaves the flow idle and ends whatever procedure is open |
| `LateSaves.LateSaveEndsTheNextProcedure` | libhuestream/huestream/connect/ConnectionFlow.cpp:727-751 | a run from the start in which a save of an aborted reset ends the load procedure after it |
| `FlowRuns.NamedBridgeIsAsked` | libhuestream/huestream/connect/ConnectionFlow.cpp:113-190 | the bridge that a request names by address, by hand or by id and keys is the one whose configuration is asked for once the data is loaded |
| `FlowObject.Handle` | libhuestream/huestream/connect/ConnectionFlow.cpp:55-795 | on the object: one dispatched action is one step and keeps the invariant |
| `FlowObject.Replay` | libhuestream/huestream/connect/ConnectionFlow.cpp:55-795 | on the object: any dispatched actions are the run of the specification, and keep the invariant |
| `FlowObject.Lifetime` | libhuestream/huestream/connect/ConnectionFlow.cpp:323-335 | a new object, whatever is dispatched to it: its messages are well formed procedures, one is open exactly while its request is not INTERNAL, and its counter is at least 1 while authenticating |
| `FlowRuns.RunKeeps` | libhuestream/huestream/connect/ConnectionFlow.cpp:289-321 | the invariant of the flow holds after any run from any state that satisfies it |
| `FlowInvariant.StepKeeps` | libhuestream/huestream/connect/ConnectionFlow.cpp:55-795 | every dispatched action keeps the invariant, whatever the environment answers, including the unguarded end of a save |
| `FlowInvariant.FinishKeeps` | libhuestream/huestream/connect/ConnectionFlow.cpp:783-795 | the differences reported at the end and FINISHED close the open procedure with exactly the streaming edges that happened |
| `FlowInvariant.SavingCompletedKeeps` | libhuestream/huestream/connect/ConnectionFlow.cpp:727-751 | a save that ends in any state, also a late one, keeps the invariant |
| `FlowInvariant.MonitorKeeps` | libhuestream/huestream/connect/ConnectionFlow.cpp:289-321 | a monitor event keeps the invariant in every state |
| `FlowInvariant.AbortKeeps` | libhuestream/huestream/connect/ConnectionFlow.cpp:268-283 | an abort keeps the invariant in every state |
| `FlowTrace.StepGrows` | libhuestream/huestream/connect/ConnectionFlow.cpp:337-342 | no step takes back a message: the trace of every action extends the trace before |
| `FlowProtocol.ProcedureInTrace` | libhuestream/huestream/connect/ConnectionFlow.cpp:323-335 | what an unbroken trace says about a STARTED and the next boundary, message by message |
| `AuthenticationRounds.CounterCountsLiveBridges` | libhuestream/huestream/connect/ConnectionFlow.cpp:468-533 | in a round in which only its bridges report, with any retries, refused requests, monitor events and stray completions in between: while authenticating, the counter is the number of bridges with at most three invalid-address failures, and at least one, so the decrement never wraps |
| `AuthenticationRounds.FallbackExactlyAfterTheLast` | libhuestream/huestream/connect/ConnectionFlow.cpp:483-533 | the flow falls back to searching exactly with the report that gives up the last bridge, goes on to retrieving exactly when a bridge that is not given up is authorized, and leaves the round otherwise only by an abort or an earlier save |
| `AuthenticationRounds.OtherEvents` | libhuestream/huestream/connect/ConnectionFlow.cpp:323-335 | whatever else is dispatched during a round keeps the counter, the table and the calls, but for the request of a retry; only an abort and the end of a save end it |
| `AuthenticationRuns.RoundsCountRight` | libhuestream/huestream/connect/ConnectionFlow.cpp:468-533 | with each request answered at most once and each scheduled retry fired at most once, and nothing left over from earlier rounds, the counter is the number of bridges that have failed at most three times, and the search starts again exactly when none is left |
| `AuthenticationRuns.HappensIsBalanced` | libhuestream/huestream/connect/ConnectionFlow.cpp:513-533 | then only the bridges of the round that are asked or waited for report in it |
| `AuthenticationRuns.EveryRoundCounts` | libhuestream/huestream/connect/ConnectionFlow.cpp:468-533 | in every run from the start, whenever the flow authenticates: a round is in progress, the counter is its bridges less the fourth and later failures reported since it began, and it is the number of live bridges exactly under the condition below |
| `AuthenticationRuns.EntersRound` | libhuestream/huestream/connect/ConnectionFlow.cpp:386-668 | authenticating always begins with a round of the bridges found by a search, those found in the background, or the one that could not be retrieved |
| `AuthenticationCounts.CounterForAnyReports` | libhuestream/huestream/connect/ConnectionFlow.cpp:483-523 | from the beginning of a round, whatever is dispatched, reports of bridges outside the round included: while authenticating, the counter is the number of bridges less the reports that were a fourth or later failure of their bridge |
| `AuthenticationCounts.CounterIsLiveExactlyWhen` | libhuestream/huestream/connect/ConnectionFlow.cpp:483-523 | and the counter is the number of bridges of the round with at most three failures exactly when no bridge outside has failed more than three times and none of the round more than four times |
| `AuthenticationCounts.FallbackForAnyReports` | libhuestream/huestream/connect/ConnectionFlow.cpp:489-499 | the flow falls back to searching exactly with the report that makes these failures as many as the round has bridges |
| `AuthenticationCounts.FallbackTooEarlyExactlyWhen` | libhuestream/huestream/connect/ConnectionFlow.cpp:489-499 | the fallback comes although a bridge of the round is live exactly when reports that took too much used up the counter; without them it comes exactly when none is live |
| `StaleRound.StaleBridgeEndsTheRound` | libhuestream/huestream/connect/ConnectionFlow.cpp:468-533 | a run of seventeen actions from the start, each answer after its request and each retry after it was scheduled: a second round begins while a retry of an aborted one is left, and the flow gives up on a bridge that has never failed |
| `AuthenticationRounds.StaleReportsBreakTheCount` | libhuestream/huestream/connect/ConnectionFlow.cpp:483-505 | four failures of a bridge outside a round of one bridge end the round, whatever the environment answers |
| `AuthenticationRounds.FilterIsExact` | libhuestream/huestream/connect/ConnectionFlow.cpp:441-451 | filtering keeps only valid bridges of the list, one for each valid address |
| `AuthenticationRounds.FilteredRefsAreDistinct` | libhuestream/huestream/connect/ConnectionFlow.cpp:441-451 | a round that starts from a search asks every bridge object once |
| `ConnectionFlow.Machine.constructor` | libhuestream/huestream/connect/ConnectionFlow.cpp:35-50 | a new flow is idle with an empty bridge and no procedure (equals the specified transition) |
| `ConnectionFlow.Machine.Start` | libhuestream/huestream/connect/ConnectionFlow.cpp:323-335 | refused unless idle; otherwise sets the request and, for a user request, announces it and takes the start snapshot (equals the specified transition) |
| `ConnectionFlow.Machine.Finish` | libhuestream/huestream/connect/ConnectionFlow.cpp:783-795 | goes idle and reports the differences since the start and FINISHED, unless the request is INTERNAL (equals the specified transition) |
| `ConnectionFlow.Machine.StartLoading` | libhuestream/huestream/connect/ConnectionFlow.cpp:344-350 | announces and starts loading (equals the specified transition) |
| `ConnectionFlow.Machine.StartBridgeSearch` | libhuestream/huestream/connect/ConnectionFlow.cpp:369-384 | starts a quick search, or a brute force one after a first search (equals the specified transition) |
| `ConnectionFlow.Machine.StartSaving` | libhuestream/huestream/connect/ConnectionFlow.cpp:718-725 | announces and starts saving all known bridges (equals the specified transition) |
| `ConnectionFlow.Machine.ReportActionRequired` | libhuestream/huestream/connect/ConnectionFlow.cpp:670-703 | reports that action is required and which, by bridge status (equals the specified transition) |
| `ConnectionFlow.Machine.StartAuthentication` | libhuestream/huestream/connect/ConnectionFlow.cpp:468-481 | starts a round: counter, numbered table and one request for each bridge (equals the specified transition) |
| `ConnectionFlow.Machine.StartRetrieveSmallConfig` | libhuestream/huestream/connect/ConnectionFlow.cpp:535-557 | starts retrieving the small configuration of a bridge (equals the specified transition) |
| `ConnectionFlow.Machine.StartRetrieveFullConfig` | libhuestream/huestream/connect/ConnectionFlow.cpp:583-618 | starts retrieving the full configuration with the retriever for the version of the bridge (equals the specified transition) |
| `ConnectionFlow.Machine.ActivateStreaming` | libhuestream/huestream/connect/ConnectionFlow.cpp:753-773 | starts the stream and ends the procedure by its outcome (equals the specified transition) |
| `ConnectionFlow.Machine.DoLoad` | libhuestream/huestream/connect/ConnectionFlow.cpp:59-66 | the load request (equals the specified transition) |
| `ConnectionFlow.Machine.DoConnectToBridge` | libhuestream/huestream/connect/ConnectionFlow.cpp:72-90 | authenticates the bridges found in the background, else loads (equals the specified transition) |
| `ConnectionFlow.Machine.DoConnectToBridgeBackground` | libhuestream/huestream/connect/ConnectionFlow.cpp:96-107 | the background connect request (equals the specified transition) |
| `ConnectionFlow.Machine.DoConnectToBridgeWithIp` | libhuestream/huestream/connect/ConnectionFlow.cpp:113-124 | the connect request for an address (equals the specified transition) |
| `ConnectionFlow.Machine.DoConnectToNewBridge` | libhuestream/huestream/connect/ConnectionFlow.cpp:130-143 | stops a running stream and forgets the active bridge before loading (equals the specified transition) |
| `ConnectionFlow.Machine.DoSetManual` | libhuestream/huestream/connect/ConnectionFlow.cpp:149-163 | the request for a manual bridge (equals the specified transition) |
| `ConnectionFlow.Machine.DoConnectWithIdKey` | libhuestream/huestream/connect/ConnectionFlow.cpp:169-190 | the request with id and keys (equals the specified transition) |
| `ConnectionFlow.Machine.DoReset` | libhuestream/huestream/connect/ConnectionFlow.cpp:200-212 | stops a running stream and clears one bridge or all (equals the specified transition) |
| `ConnectionFlow.Machine.ClearBridge` | libhuestream/huestream/connect/ConnectionFlow.cpp:705-716 | clears by request, says so and saves (equals the specified transition) |
| `ConnectionFlow.Machine.DoSelectGroup` | libhuestream/huestream/connect/ConnectionFlow.cpp:218-232 | selects a group and saves, or reports that none is valid (equals the specified transition) |
| `ConnectionFlow.Machine.DoStartStream` | libhuestream/huestream/connect/ConnectionFlow.cpp:242-247 | the start stream request retrieves first (equals the specified transition) |
| `ConnectionFlow.Machine.DoStopStream` | libhuestream/huestream/connect/ConnectionFlow.cpp:257-262 | stops the stream and ends (equals the specified transition) |
| `ConnectionFlow.Machine.DoAbort` | libhuestream/huestream/connect/ConnectionFlow.cpp:268-283 | restores the start bridge, cancels what runs and ends; does nothing when idle (equals the specified transition) |
| `ConnectionFlow.Machine.DoMonitor` | libhuestream/huestream/connect/ConnectionFlow.cpp:289-321 | a monitor event of an idle flow; otherwise only a version 2 reconnect is passed on (equals the specified transition) |
| `ConnectionFlow.Machine.RunContinuation` | libhuestream/huestream/connect/ConnectionFlow.cpp:72-190 | what each request does once the data is loaded (equals the specified transition) |
| `ConnectionFlow.Machine.LoadingCompleted` | libhuestream/huestream/connect/ConnectionFlow.cpp:352-367 | takes the data over and continues, only while loading (equals the specified transition) |
| `ConnectionFlow.Machine.FilterInvalidAndDuplicateIpAddresses` | libhuestream/huestream/connect/ConnectionFlow.cpp:441-451 | the loop computes the specified filter |
| `ConnectionFlow.Machine.ContainsValid` | libhuestream/huestream/connect/ConnectionFlow.cpp:453-460 | whether any bridge has a supported model |
| `ConnectionFlow.Machine.BridgeSearchCompleted` | libhuestream/huestream/connect/ConnectionFlow.cpp:386-439 | branches on what was found, only while searching (equals the specified transition) |
| `ConnectionFlow.Machine.NoBridgesFound` | libhuestream/huestream/connect/ConnectionFlow.cpp:394-408 | a second search, or giving up (equals the specified transition) |
| `ConnectionFlow.Machine.ValidBridgesFound` | libhuestream/huestream/connect/ConnectionFlow.cpp:410-422 | a known bridge is rediscovered, else bridges are offered or authenticated (equals the specified transition) |
| `ConnectionFlow.Machine.InvalidBridgesFound` | libhuestream/huestream/connect/ConnectionFlow.cpp:423-438 | only unsupported bridges were found (equals the specified transition) |
| `ConnectionFlow.Machine.AuthenticationCompleted` | libhuestream/huestream/connect/ConnectionFlow.cpp:483-523 | one report: table, retries, counter, next state (equals the specified transition) |
| `ConnectionFlow.Machine.GiveUp` | libhuestream/huestream/connect/ConnectionFlow.cpp:489-499 | a bridge failed too often (equals the specified transition) |
| `ConnectionFlow.Machine.Authorized` | libhuestream/huestream/connect/ConnectionFlow.cpp:505-511 | a bridge is authorized (equals the specified transition) |
| `ConnectionFlow.Machine.PushLinkBridge` | libhuestream/huestream/connect/ConnectionFlow.cpp:525-533 | a scheduled retry asks the bridge again in any state (equals the specified transition) |
| `ConnectionFlow.Machine.RetrieveSmallConfigCompleted` | libhuestream/huestream/connect/ConnectionFlow.cpp:559-581 | continues by model and authorization, only while retrieving (equals the specified transition) |
| `ConnectionFlow.Machine.RetrieveFullConfigCompleted` | libhuestream/huestream/connect/ConnectionFlow.cpp:620-646 | takes the bridge over, judges it and saves, only while retrieving (equals the specified transition) |
| `ConnectionFlow.Machine.RetrieveFailed` | libhuestream/huestream/connect/ConnectionFlow.cpp:648-668 | searches, authenticates or reports, by address and authorization (equals the specified transition) |
| `ConnectionFlow.Machine.JudgeConfiguration` | libhuestream/huestream/connect/ConnectionFlow.cpp:629-642 | ready to stream, or what the user has to do (equals the specified transition) |
| `ConnectionFlow.Machine.SavingCompleted` | libhuestream/huestream/connect/ConnectionFlow.cpp:727-734 | reports the save and frees the bridge, in any state (equals the specified transition) |
| `ConnectionFlow.Machine.Conclude` | libhuestream/huestream/connect/ConnectionFlow.cpp:735-751 | activates streaming or ends, by request and settings (equals the specified transition) |
| `ConnectionFlow.Machine.Dispatch` | libhuestream/huestream/connect/ConnectionFlow.cpp:55-795 | each event goes to its method and leaves the object in the state that the step gives |
| `BridgeStreamingChecker.CompareBridges` | libhuestream/huestream/connect/BridgeStreamingChecker.cpp:164-199 | the differences in the order of the comparisons, each exactly when it holds |
| `BridgeStreamingChecker.AreGroupsUpdated` | libhuestream/huestream/connect/BridgeStreamingChecker.cpp:211-226 | the loop finds out whether the group lists differ |
| `BridgeStreamingChecker.AreLightsUpdated` | libhuestream/huestream/connect/BridgeStreamingChecker.cpp:227-239 | the loop finds out whether the light lists differ |
| `BridgeStreamingChecker.NoDifferenceWithItself` | libhuestream/huestream/connect/BridgeStreamingChecker.cpp:164-199 | a bridge does not differ from itself |
| `BridgeStreamingChecker.StreamingEdges` | libhuestream/huestream/connect/BridgeStreamingChecker.cpp:164-199 | each streaming edge is reported exactly when it happened |
| `DifferenceReport.ReportedExactly` | libhuestream/huestream/connect/BridgeStreamingChecker.cpp:164-199 | a difference is in the report exactly when its comparison holds |
| `BridgeData.StreamingMeans` | libhuestream/huestream/common/data/Bridge.cpp:96-133 | a bridge streams exactly when it is usable, free and its selected group is active for this application |
| `BridgeData.FirstGroupIsSound` | libhuestream/huestream/common/data/Bridge.cpp:270-279 | looking a group up finds one exactly when there is one |
| `BridgeData.Bridge.SelectGroup` | libhuestream/huestream/common/data/Bridge.cpp:246-256 | selecting succeeds exactly when the group exists and changes nothing otherwise |
| `BridgeData.Bridge.SelectGroupIfOnlyOneOption` | libhuestream/huestream/common/data/Bridge.cpp:236-244 | the only group is selected exactly when there is one |
| `BridgeData.SetActiveKeepsKnownBridges` | libhuestream/huestream/common/data/HueStreamData.cpp:33-39 | making a bridge active keeps ids unique and forgets only the same bridge and a never authorized active one |
| `BridgeData.RemoveBridgeRemoves` | libhuestream/huestream/common/data/HueStreamData.cpp:48-60 | removing takes out exactly the bridge with the id |
| `BridgeData.RediscoverKnownBridge` | libhuestream/huestream/common/data/HueStreamData.cpp:62-87 | on success the active bridge is authorized and reachable |
| `BridgeData.LastRefreshedIsUsable` | libhuestream/huestream/common/data/HueStreamData.cpp:62-87 | the rediscovered bridge has a valid address, and nothing changes when there is none |
| `ConnectSystem.OpenMeansBusy` | libhuestream/huestream/connect/Connect.cpp:41-58 | in every interleaving of calls, completions and deliveries: while the front has seen a procedure open, and between actions while the flow works on a request, the result is busy and no waiter returns |
| `ConnectSystem.ActionsInLockOrder` | libhuestream/huestream/connect/MessageDispatcher.cpp:49-68 | in every reachable state the flow has run the queued actions in lock order, one at a time, and the front has received a prefix of its messages, all of them between actions |
| `RefusedCalls.CallIsLostExactlyWhen` | libhuestream/huestream/connect/Connect.cpp:60-133 | any call that is not silent, when its turn comes, whatever was queued before it and has run since it was made: a STARTED is added exactly when the flow is idle then, and the front is left busy with no procedure open exactly when the flow is not idle, its request is INTERNAL, and nothing has made the front idle meanwhile |
| `RefusedCalls.QuietCallIsLostExactlyWhen` | libhuestream/huestream/connect/Connect.cpp:60-133 | for a call on an empty dispatcher the last condition always holds |
| `RefusedCalls.LostBehindReconnect` | libhuestream/huestream/connect/Connect.cpp:60-133 | a call that is made while the flow is idle, but with a reconnect already queued, is lost as well: such a state is reached for every such call |
| `RefusedCalls.LoudCallAnnounces` | libhuestream/huestream/connect/ConnectionFlow.cpp:323-335 | such a call announces its request when the flow is idle, and changes nothing at all when it is not |
| `RefusedCalls.LostCallIsReached` | libhuestream/huestream/connect/Connect.cpp:60-133 | such a state is reached for every such call: a saved version 2 bridge is loaded, the monitor reports that it is back, and the call comes then |
| `ConnectObjects.Make` | libhuestream/huestream/connect/Connect.cpp:41-148 | every move of the system is made by the methods of the three objects |
| `ConnectObjects.Lifetime` | libhuestream/huestream/connect/Connect.cpp:41-148 | new objects and any possible interleaving: the front is not idle while the messages it has received show an open procedure, nor between actions while the flow works on a request; actions are taken in lock order |
| `ConnectSystem.MoveKeeps` | libhuestream/huestream/connect/Connect.cpp:60-133 | every step of front, dispatcher and flow keeps their joint invariant |
| `ConnectSystem.DeliveryKeepsBusy` | libhuestream/huestream/connect/Connect.cpp:150-176 | delivering a message that leaves a procedure open leaves the front busy |
| `ConnectSpec.ReceivedIsNeverBusy` | libhuestream/huestream/connect/Connect.cpp:51-58 | the stored result is never the busy answer, so the answer is busy exactly when not idle |
| `ConnectSpec.TranslatedIsFaithful` | libhuestream/huestream/connect/Connect.cpp:178-203 | ready and streaming are answered exactly for bridges that are |
| `Connect.ConnectObject.Call` | libhuestream/huestream/connect/Connect.cpp:60-133 | a call marks the front busy, except starting or stopping a stream and aborting, and queues its action |
| `Connect.ConnectObject.NewMessage` | libhuestream/huestream/connect/Connect.cpp:139-148 | a message updates the state and is reported |
| `DispatcherSpec.EveryRunIsFifo` | libhuestream/huestream/connect/MessageDispatcher.cpp:49-68 | for any interleaving of callers, loop and stop: what was queued is what finished, then what runs, then what waits, in lock order |
| `DispatcherSpec.StepKeepsFifo` | libhuestream/huestream/connect/MessageDispatcher.cpp:17-22 | every critical section keeps that order |
| `MessageDispatcher.Dispatcher.Queue` | libhuestream/huestream/connect/MessageDispatcher.cpp:17-22 | an action goes to the front of the vector |
| `MessageDispatcher.Dispatcher.EnterLoop` | libhuestream/huestream/connect/MessageDispatcher.cpp:49-54 | the loop sets the running flag |
| `MessageDispatcher.Dispatcher.Pass` | libhuestream/huestream/connect/MessageDispatcher.cpp:56-66 | after the wait the loop ends, or takes the last action of the vector |
| `MessageDispatcher.Dispatcher.ActionDone` | libhuestream/huestream/connect/MessageDispatcher.cpp:66-67 | the action has run |
| `MessageDispatcher.Dispatcher.Stop` | libhuestream/huestream/connect/MessageDispatcher.cpp:70-75 | the running flag is cleared |
| `EventDelivery.EveryEventOnceInOrder` | libhuestream/huestream/connect/BridgeConfigRetriever.cpp:513-560 | however the stream is cut into chunks, every document is delivered once and in order |
| `EventDelivery.NothingElseBeforehand` | libhuestream/huestream/connect/BridgeConfigRetriever.cpp:474-478 | at any time what was delivered is a beginning of the events |
| `EventDelivery.BlockedExactlyByIds` | libhuestream/huestream/connect/BridgeConfigRetriever.cpp:524-541 | the stream is delivered up to the first document that contains "id: " and never further; completely exactly when there is none |
| `EventDelivery.FedPrefix` | libhuestream/huestream/connect/BridgeConfigRetriever.cpp:513-560 | after any chunks the buffer and the future together are the rest of the stream |
| `EventDelivery.DrainPrefix` | libhuestream/huestream/connect/BridgeConfigRetriever.cpp:513-560 | draining any prefix of a stream delivers its first events and leaves a stream of the others |
| `EventStream.NextIs` | libhuestream/huestream/connect/BridgeConfigRetriever.cpp:516-541 | when a prefix of the stream yields a document, and which |
| `EventStream.NothingIsNext` | libhuestream/huestream/connect/BridgeConfigRetriever.cpp:524-541 | a document that contains "id: " never becomes complete |
| `EventDocuments.CompleteJudges` | libhuestream/huestream/connect/BridgeConfigRetriever.cpp:516-549 | a validator that counts brackets outside of texts is as the framing assumes, for every document it accepts that does not end in a line end |
| `EventDocuments.NamePassesExactly` | libhuestream/huestream/connect/BridgeConfigRetriever.cpp:524-541 | a document that carries a plain name passes exactly when the name does not contain "id: ", and blocks the stream otherwise |
| `EventDocuments.DeliveredUpToTheFirstId` | libhuestream/huestream/connect/BridgeConfigRetriever.cpp:513-560 | of events that each carry a name, exactly those before the first name with "id: " are delivered, for every cut into chunks |
| `EventDocuments.MadridBlocksOslo` | libhuestream/huestream/connect/BridgeConfigRetriever.cpp:524-541 | a concrete stream: "Madrid: hall" blocks, and the good event after it is never delivered |
| `EventFraming.Next` | libhuestream/huestream/connect/BridgeConfigRetriever.cpp:516-549 | a document taken makes the buffer strictly shorter |
| `EventFraming.FindData` | libhuestream/huestream/connect/BridgeConfigRetriever.cpp:517-522 | the first data mark |
| `EventFraming.FindId` | libhuestream/huestream/connect/BridgeConfigRetriever.cpp:524-529 | the first id mark from a position on |
| `EventFraming.EventReader.Receive` | libhuestream/huestream/connect/BridgeConfigRetriever.cpp:474-560 | a chunk is appended and the loop drains the buffer; it ends |
| `ReplicaRuns.ReplicaAgreesAlways` | libhuestream/huestream/connect/BridgeConfigRetriever.cpp:562-849 | in every run of additions and deletions, whether or not the configurations list light services that do not exist, a client that agreed and receives every batch agrees: light and zigbee keys, and for each configuration the channel ids in order and the lights of each channel |
| `EndToEnd.ChunksDoNotMatter` | libhuestream/huestream/connect/BridgeConfigRetriever.cpp:474-560 | the same, with the batches encoded in the event stream and cut into any chunks |
| `EndToEnd.ChunksKeepKeys` | libhuestream/huestream/connect/BridgeConfigRetriever.cpp:474-560 | the same for light ids, zigbee ids and channels, with nothing assumed of the bridge and of the drawn ids |
| `ReplicaKeys.KeysAgreeAlways` | libhuestream/huestream/connect/BridgeConfigRetriever.cpp:562-849 | from any tables and any client that agree on light ids, zigbee ids and the channel ids of each configuration in order: they agree on them after any run |
| `ReplicaKeys.EntertainmentsKnownAtTheStart` | tools/simulator/server/resources-manager-clipv2.js:404-427 | after any run the entertainments of the client are exactly those of the bridge that it knew at the start |
| `ReplicaKeys.EntertainmentsEqualWhen` | tools/simulator/server/resources-manager-clipv2.js:404-427 | a client that knew them all has them all after a run exactly when no entertainment added in the run is left |
| `ReplicaKeys.DevicesAreNeverForgotten` | tools/simulator/server/resources-manager-clipv2.js:618-687 | after any run the devices of the client are those it started with and those that were added, in order |
| `ReplicaExamples.AdditionMakesThemDiffer` | tools/simulator/server/resources-manager-clipv2.js:404-427 | one addition after which the client lacks an entertainment of the bridge |
| `ReplicaExamples.DeletionLeavesStaleDevice` | tools/simulator/server/resources-manager-clipv2.js:618-687 | one deletion after which the client has a device that the bridge has not |
| `ReplicaObjects.Serve` | tools/simulator/server/resources-manager-clipv2.js:314-688 | any commands on the manager object: its references stay resolvable and no light service begins to dangle |
| `ReplicaObjects.ServeBoth` | libhuestream/huestream/connect/BridgeConfigRetriever.cpp:562-849 | any commands on the manager object with the batches given to the retriever object: keys agree, and everything agrees when the bridge was in order |
| `ReplicaObjects.Follow` | libhuestream/huestream/connect/BridgeConfigRetriever.cpp:474-560 | the reader and retriever objects: documents are handled as chunks complete them, and the result is that of the batches in order |
| `ReplicaObjects.EndToEndObjects` | libhuestream/huestream/connect/BridgeConfigRetriever.cpp:474-849 | the manager carries out commands, the stream is cut in any way, and the retriever agrees with the manager in the end |
| `ServerRuns.IntegrityAlways` | tools/simulator/server/resources-manager-clipv2.js:314-688 | in every run the references of the bridge stay resolvable, and a light service of a configuration dangles only if it did at the start |
| `ServerRuns.AllReferencesStay` | tools/simulator/server/resources-manager-clipv2.js:314-688 | with all light services belonging at the start, all references stay resolvable |
| `DanglingLights.SameDangling` | tools/simulator/server/resources-manager-clipv2.js:314-688 | when drawn lights are not listed yet, what dangles after a run is exactly what dangled at the start; so all light services belong after it exactly when they all did |
| `ReplicaRuns.DeletionAnnouncesExactly` | tools/simulator/server/resources-manager-clipv2.js:618-678 | a deletion announces exactly the lights, zigbee entries and entertainments that it removes |
| `ReplicaRuns.CommandKeeps` | tools/simulator/server/resources-manager-clipv2.js:314-433 | one command keeps agreement |
| `ReplicaRuns.AdditionAgrees` | tools/simulator/server/resources-manager-clipv2.js:404-427 | after an addition and its batch the client agrees |
| `ReplicaRuns.DeletionAgrees` | tools/simulator/server/resources-manager-clipv2.js:618-687 | after a deletion and its batch the client agrees |
| `ReplicaRuns.RemovedIsStale` | tools/simulator/server/resources-manager-clipv2.js:612-616 | nothing that exists refers to a device that was removed |
| `ReplicaAgreement.LightOfAgrees` | libhuestream/huestream/connect/BridgeConfigRetriever.cpp:2622-2685 | the light behind an existing entertainment is the same on both sides, whatever stale devices the client keeps |
| `ReplicaAgreement.ViewAgrees` | libhuestream/huestream/connect/BridgeConfigRetriever.cpp:1233-1291 | the view that the client makes of a configuration is right |
| `ServerIntegrity.DeletionKeepsIntegrity` | tools/simulator/server/resources-manager-clipv2.js:465-688 | deleting a channel keeps ids unique, owners unique and every reference resolvable |
| `ServerIntegrity.AdditionKeepsIntegrity` | tools/simulator/server/resources-manager-clipv2.js:340-402 | adding a light keeps them |
| `ServerIntegrity.AddingFailsWhen` | tools/simulator/server/resources-manager-clipv2.js:314-338 | adding fails exactly for an unknown configuration or one whose ids are all taken, and changes nothing then |
| `ServerIntegrity.NoFreeChannelWhen` | tools/simulator/server/resources-manager-clipv2.js:321-338 | there is no free channel id exactly when all ids below 255 and below the highest are taken |
| `ServerIntegrity.MembersLeft` | tools/simulator/server/resources-manager-clipv2.js:481-511 | a member is left exactly when it was there and was not a member of the deleted channel |
| `ServerIntegrity.DevicesLeft` | tools/simulator/server/resources-manager-clipv2.js:543-593 | a device is left exactly when its light does not leave or is still used |
| `ServerIntegrity.ServicesLeft` | tools/simulator/server/resources-manager-clipv2.js:612-616 | every service of a device that is left still exists |
| `ServerIntegrity.OwnConfigResolves` | tools/simulator/server/resources-manager-clipv2.js:481-527 | members, locations and channel ids of the changed configuration |
| `ServerIntegrity.DeletionKeepsLights` | tools/simulator/server/resources-manager-clipv2.js:481-527 | a light service dangles after a deletion only if it did before |
| `ServerIntegrity.AdditionKeepsLights` | tools/simulator/server/resources-manager-clipv2.js:340-402 | a light service dangles after an addition only if it did before |
| `ServerIntegrity.OtherConfigResolves` | tools/simulator/server/resources-manager-clipv2.js:529-541 | the other configurations lose nothing they refer to |
| `ServerIntegrity.ReferencesResolve` | tools/simulator/server/resources-manager-clipv2.js:386-402 | locations refer to existing entertainments, and light services that belong to a member to existing lights |
| `ResourcesManager.Manager.AddLight` | tools/simulator/server/resources-manager-clipv2.js:314-433 | the method computes the specified tables and batch |
| `ResourcesManager.Manager.DeleteChannel` | tools/simulator/server/resources-manager-clipv2.js:465-688 | the method computes the specified tables and batch |
| `ResourcesManager.Manager.FindFreeChannel` | tools/simulator/server/resources-manager-clipv2.js:321-334 | the lowest id that is not taken |
| `ResourcesManager.Manager.TakeChannel` | tools/simulator/server/resources-manager-clipv2.js:481-491 | the first channel with the id goes and its members leave |
| `ResourcesManager.Manager.RemoveMembers` | tools/simulator/server/resources-manager-clipv2.js:481-527 | the configuration without the leaving members |
| `ResourcesManager.PruneChannels` | tools/simulator/server/resources-manager-clipv2.js:493-511 | leaving members go from all channels, and channels that become empty go too |
| `ResourcesManager.RemoveIds` | tools/simulator/server/resources-manager-clipv2.js:513-527 | the splicing loop is a filter |
| `ResourcesManager.StillUsed` | tools/simulator/server/resources-manager-clipv2.js:529-541 | the leaving services that are members of some configuration |
| `ResourcesManager.FindHit` | tools/simulator/server/resources-manager-clipv2.js:549-551 | the first entertainment service of a device that leaves |
| `ResourcesManager.FindDevices` | tools/simulator/server/resources-manager-clipv2.js:543-593 | the lists of lights, zigbee entries and devices concerned, and of those still used |
| `ResourcesManager.DeleteResources` | tools/simulator/server/resources-manager-clipv2.js:435-463 | the splicing loop removes what is to delete and not to keep |
| `ResourcesManager.DeleteDevices` | tools/simulator/server/resources-manager-clipv2.js:435-463 | the same for devices |
| `ResourcesManager.DeleteMessages` | tools/simulator/server/resources-manager-clipv2.js:618-678 | one delete for each id not kept |
| `BridgeReplica.Retriever.ParseJsonEvent` | libhuestream/huestream/connect/BridgeConfigRetriever.cpp:562-849 | the batch sorted by type and handled type by type is the specified batch |
| `BridgeReplica.Retriever.Sorted` | libhuestream/huestream/connect/BridgeConfigRetriever.cpp:583-666 | the changes of one type in their order |
| `BridgeReplica.Retriever.AddDevice` | libhuestream/huestream/connect/BridgeConfigRetriever.cpp:1662-1684 | only devices with a light, and the bridge, are kept |
| `BridgeReplica.Retriever.DeleteDevice` | libhuestream/huestream/connect/BridgeConfigRetriever.cpp:1735-1740 | a device is forgotten |
| `BridgeReplica.Retriever.AddZigbeeConnectivity` | libhuestream/huestream/connect/BridgeConfigRetriever.cpp:1742-1771 | kept only if some known device has it |
| `BridgeReplica.Retriever.UpdateEntertainmentConfiguration` | libhuestream/huestream/connect/BridgeConfigRetriever.cpp:2134-2181 | the first group with the id gets new channels and a new map |
| `BridgeReplica.Retriever.AddEntertainmentConfiguration` | libhuestream/huestream/connect/BridgeConfigRetriever.cpp:2112-2132 | a new group is appended |
| `BridgeReplica.Retriever.ParseChannels` | libhuestream/huestream/connect/BridgeConfigRetriever.cpp:1233-1291 | the channel ids in order and the lights behind each |
| `BridgeReplica.Retriever.GetLightOf` | libhuestream/huestream/connect/BridgeConfigRetriever.cpp:2622-2633 | the first light of the device that has the service |
| `BridgeReplica.Retriever.GetDeviceOf` | libhuestream/huestream/connect/BridgeConfigRetriever.cpp:2648-2664 | the device that has the service |
| `BridgeReplica.Retriever.Handle` | libhuestream/huestream/connect/BridgeConfigRetriever.cpp:668-805 | what each change does |
| `FeedbackDebounce.OneTimerWhilePending` | libhuestream/huestream/connect/BridgeConfigRetriever.cpp:1621-1661 | something is pending exactly when the flag is set, and exactly then one timer is outstanding |
| `FeedbackDebounce.FirstFlushEmits` | libhuestream/huestream/connect/BridgeConfigRetriever.cpp:1645-1655 | the first flush after an id was scheduled sends it |
| `FeedbackDebounce.EmittedWasScheduled` | libhuestream/huestream/connect/BridgeConfigRetriever.cpp:1645-1655 | what a flush sends was scheduled after the flush before |
| `FeedbackDebounce.FlushIsQuiet` | libhuestream/huestream/connect/BridgeConfigRetriever.cpp:1645-1645 | a flush is more than 250 ms after everything scheduled before it |
| `FeedbackDebounce.FlushIsPrompt` | libhuestream/huestream/connect/BridgeConfigRetriever.cpp:1637-1660 | while something is pending the clock is at most 500 ms, and the lateness of timers, after the latest schedule |
| `FeedbackDebounce.FeedbackQueue.ScheduleFeedback` | libhuestream/huestream/connect/BridgeConfigRetriever.cpp:1621-1635 | collects the id and sets a timer unless one is set |
| `FeedbackDebounce.FeedbackQueue.DispatchFeedback` | libhuestream/huestream/connect/BridgeConfigRetriever.cpp:1637-1642 | sets the flag and a timer |
| `FeedbackDebounce.FeedbackQueue.TimerFired` | libhuestream/huestream/connect/BridgeConfigRetriever.cpp:1642-1660 | sends every pending id once, or waits on |
| `FeedbackRuns.Lifetime` | libhuestream/huestream/connect/BridgeConfigRetriever.cpp:1621-1661 | the queue object over any run: each id is sent as often as flushes emit it, once for each burst that is over, and one timer is outstanding exactly while something is pending |
| `FeedbackRuns.OncePerBurst` | libhuestream/huestream/connect/BridgeConfigRetriever.cpp:1621-1661 | an id is sent once for each burst of it that is over, and never more often than it was scheduled |
| `StreamProtocol.RoundTrip` | libhuestream/huestream/stream/ProtocolSerializer.cpp:26-85 | the record at the c-th offset of a frame is the c-th light, for both versions and any number of lights |
| `StreamProtocol.PayloadStripped` | tools/simulator/server/streamer-server.js:4-21 | stripping the header gives colour mode, version, sequence number and exactly the body |
| `StreamProtocol.BodyLength` | libhuestream/huestream/stream/ProtocolSerializer.cpp:46-82 | the length of a body |
| `StreamProtocol.Serialize` | libhuestream/huestream/stream/ProtocolSerializer.cpp:26-85 | the loops build the specified frame |
| `StreamProtocol.SerializeLight` | libhuestream/huestream/stream/ProtocolSerializer.cpp:54-81 | one record, byte by byte |
| `StreamProtocol.Deserialize` | tools/simulator/server/streamer-server.js:4-21 | the header fields and the data after it, also for short datagrams |
| `StreamerClient.FrameReachesTheScreen` | tools/simulator/client/streamer-client.js:54-84 | every light of a frame is shown with its level; version 1 refuses ids from 100 on, version 2 shows ids modulo 256 |
| `StreamerClient.SizeCheckIsExact` | tools/simulator/client/streamer-client.js:48-52 | the size check passes exactly when group id and number of lights fit |
| `StreamerClient.Streamer.Walk` | tools/simulator/client/streamer-client.js:57-83 | the moving index stands at the offset of every record |
| `StreamerClient.Streamer.Tick` | tools/simulator/client/streamer-client.js:37-85 | a frame is shown once, and only if its length fits |
| `ColorLevels.Monotone` | libhuestream/huestream/stream/ProtocolSerializer.cpp:56-60 | a brighter channel never shows darker |
| `ColorLevels.LevelError` | tools/simulator/client/streamer-client.js:74-76 | the shown level is within 1/2 + 1/257 of the clamped value |
| `ColorLevels.LevelsSurvive` | tools/simulator/client/streamer-client.js:74-76 | every level k sent as k/255 comes back as k |
| `EffectOrder.KeptInLayerOrder` | libhuestream/huestream/effect/Mixer.cpp:53-80 | after any run the list is the stable sort by layer of what was added and has not finished |
| `EffectOrder.StableSortIsUnique` | libhuestream/huestream/effect/Mixer.cpp:53-74 | there is only one such list |
| `EffectOrder.InsertedOnLayers` | libhuestream/huestream/effect/Mixer.cpp:66-74 | a new effect comes last on its layer and the other layers do not notice |
| `Compositing.DrawnIsWeightedSum` | libhuestream/huestream/effect/Mixer.cpp:110-125 | drawing layers is base times the product of (1 - alpha) plus the sum of colour times alpha times the product over later layers |
| `Compositing.WeightsAddUpToOne` | libhuestream/huestream/effect/Mixer.cpp:110-125 | the weights add up to one |
| `Compositing.DrawnStaysInRange` | libhuestream/huestream/effect/Mixer.cpp:92-129 | inputs in range give colours in range |
| `Compositing.OpaqueHidesBelow` | libhuestream/huestream/effect/Mixer.cpp:110-125 | an opaque layer hides everything under it |
| `Compositing.BaseIsSeen` | libhuestream/huestream/effect/Mixer.cpp:110-125 | the base has no share exactly when some layer is opaque |
| `Mixer.RenderedColor` | libhuestream/huestream/effect/Mixer.cpp:92-129 | the colour of a light after a render, with and without retained colours, for any number of occurrences in the group |
| `Mixer.OpaqueEffectHidesBelow` | libhuestream/huestream/effect/Mixer.cpp:92-129 | effects below an enabled opaque effect do not influence the colour |
| `Mixer.ShownComesFromEnabled` | libhuestream/huestream/effect/Mixer.cpp:110-112 | the layers are those of the enabled effects in order |
| `Mixer.EffectMixer.FindEffectIndex` | libhuestream/huestream/effect/Mixer.cpp:53-64 | the first position with a higher layer |
| `Mixer.EffectMixer.AddEffect` | libhuestream/huestream/effect/Mixer.cpp:66-74 | inserts there; null is ignored |
| `Mixer.EffectMixer.AddEffectList` | libhuestream/huestream/effect/Mixer.cpp:76-80 | adds all in order |
| `Mixer.EffectMixer.RemoveFinishedEffects` | libhuestream/huestream/effect/Mixer.cpp:137-146 | the erasing loop keeps exactly the effects that have not finished |
| `Mixer.EffectMixer.RenderEffects` | libhuestream/huestream/effect/Mixer.cpp:92-98 | the enabled effects render in order |
| `Mixer.EffectMixer.ApplyEffectsOnLight` | libhuestream/huestream/effect/Mixer.cpp:100-129 | the loop draws the shown layers over the base |
| `Mixer.EffectMixer.ApplyEffectsOnLights` | libhuestream/huestream/effect/Mixer.cpp:131-135 | every light of the group, each occurrence once |
| `Mixer.EffectMixer.Render` | libhuestream/huestream/effect/Mixer.cpp:148-152 | removal, rendering and compositing in this order |
| `MixerRuns.Lifetime` | libhuestream/huestream/effect/Mixer.cpp:53-152 | the mixer object over any run, changes of the group included: its effects are the stable sort by layer of what was added and has not finished; every light has the colour that the renders while it was in the group have drawn, with or without retained colours; and after a render without them it shows exactly the layers of the enabled effects over black |
| `MixerRuns.LastRender` | libhuestream/huestream/effect/Mixer.cpp:92-135 | without retained colours only the last render counts |
| `MixerRuns.Handle` | libhuestream/huestream/effect/Mixer.cpp:66-152 | each call changes the order of the effects as specified, and a render redraws every light of the group |
| `TakeoverProofs.RequestPolicy` | libhuestream/huestream/stream/StreamStarter.cpp:34-75 | for all replies: never sends one request; only always may stop another group; starts are for the selected group; at most five requests, the last one a start |
| `TakeoverProofs.StartedMeans` | libhuestream/huestream/stream/StreamStarter.cpp:68-75 | success exactly when the last request was accepted and the group is there; the bridge is then free and its group this application's |
| `TakeoverProofs.RequestsAre` | libhuestream/huestream/stream/StreamStarter.cpp:34-67 | the exact shape of the requests sent |
| `TakeoverGroups.MissingGroupHappens` | libhuestream/huestream/stream/StreamStarter.cpp:187-190 | a concrete exchange in which it does |
| `TakeoverExactly.EndsAtMissingGroupExactly` | libhuestream/huestream/stream/StreamStarter.cpp:34-75 | for unique group ids, selected group or not: the start dereferences a missing group exactly when it is needed and missing at once; or missing when the first start is granted; or the first start is refused by a busy bridge, taking over is allowed, the second is granted, and it was missing or a reply in between deleted it. Told from the bridge, the level and the replies before the call |
| `TakeoverExactly.NeverMissingInV2` | libhuestream/huestream/stream/StreamStarter.cpp:34-75 | with a selected group, a start of version 2, or one that may not take over, never ends so |
| `TakeoverExactly.StartOutcome` | libhuestream/huestream/stream/StreamStarter.cpp:55-56 | the reply that decides the first start, and when the bridge counts as busy after a refusal |
| `TakeoverExactly.OtherLeft` | libhuestream/huestream/stream/StreamStarter.cpp:57-58 | when some group is still active for another client after a refused start |
| `TakeoverStop.StopMeans` | libhuestream/huestream/stream/StreamStarter.cpp:82-87 | a stop is one request, for the selected group; granted, it frees the bridge and gives up that group and no other; refused, groups change only by the deletion the refusal asks for |
| `TakeoverStop.GivenUpExactly` | libhuestream/huestream/stream/StreamStarter.cpp:82-87 | an active selected group is found inactive afterwards exactly when the stop is granted |
| `TakeoverRuns.OthersAreLeftAlone` | libhuestream/huestream/stream/StreamStarter.cpp:34-106 | in every run of starts and stops only the selected group is activated, and unless a start may always override no request names any other group |
| `TakeoverRuns.StartNow` | libhuestream/huestream/stream/StreamStarter.cpp:34-75 | on the object: a start that succeeds leaves the bridge free and its group this application's, and when it runs into a missing group |
| `TakeoverRuns.Lifetime` | libhuestream/huestream/stream/StreamStarter.cpp:34-106 | the starter object over any run of starts and stops: its requests are the run's, at most five for each call |
| `TakeoverPolicy.CheckedIsExact` | libhuestream/huestream/stream/StreamStarter.cpp:134-204 | a request succeeds exactly when its reply reports no error, and frees the bridge |
| `StreamStarter.Starter.StartStream` | libhuestream/huestream/stream/StreamStarter.cpp:34-75 | the start with its policy (equals the specified exchange) |
| `StreamStarter.Starter.StopBeforehand` | libhuestream/huestream/stream/StreamStarter.cpp:37-50 | stopping another client first, for version 2 (equals the specified exchange) |
| `StreamStarter.Starter.TryStart` | libhuestream/huestream/stream/StreamStarter.cpp:55-67 | start, and retry when busy (equals the specified exchange) |
| `StreamStarter.Starter.StopOther` | libhuestream/huestream/stream/StreamStarter.cpp:57-64 | stopping the other client on a retry (equals the specified exchange) |
| `StreamStarter.Starter.Start` | libhuestream/huestream/stream/StreamStarter.cpp:77-80 | the two override levels of the forced flag (equals the specified exchange) |
| `StreamStarter.Starter.DeactivateGroup` | libhuestream/huestream/stream/StreamStarter.cpp:89-106 | stops a group and marks it (equals the specified exchange) |
| `StreamStarter.Starter.ExecuteOn` | libhuestream/huestream/stream/StreamStarter.cpp:113-132 | one request and its reply (equals the specified exchange) |
| `StreamStarter.Starter.CheckForErrors` | libhuestream/huestream/stream/StreamStarter.cpp:134-204 | the error loop of the version (equals the specified exchange) |
| `StreamStarter.Starter.CheckV2Errors` | libhuestream/huestream/stream/StreamStarter.cpp:144-166 | the first error with a code decides (equals the specified exchange) |
| `StreamStarter.Starter.CheckV1Entries` | libhuestream/huestream/stream/StreamStarter.cpp:175-198 | the first error entry decides (equals the specified exchange) |
| `StreamStarter.Starter.DeleteGroup` | libhuestream/huestream/stream/StreamStarter.cpp:187-190 | the first group with the selected id goes (equals the specified exchange) |
| `StreamRuns.EverySessionCounts` | libhuestream/huestream/stream/Stream.cpp:201-215 | in every run: a running session has its bridge and options, the k-th frame of a session carries k - 1 modulo 256, and the counter is the number of frames sent in it |
| `StreamRuns.StartAnswersRunning` | libhuestream/huestream/stream/Stream.cpp:48-127 | a start answers whether the session runs, from every state, after at most five connection attempts |
| `StreamRuns.ThreadStartAnswersRunning` | libhuestream/huestream/stream/Stream.cpp:135-146 | the same for a start with render thread |
| `StreamRuns.FailedConnectStops` | libhuestream/huestream/stream/Stream.cpp:106-121 | five failed attempts take the session down again, with disconnect and stop |
| `StreamRuns.ConnectFromIs` | libhuestream/huestream/stream/Stream.cpp:106-117 | attempts go on until the first success |
| `StreamSessions.Lifetime` | libhuestream/huestream/stream/Stream.cpp:48-215 | the stream object over any run: the k-th frame of a session carries k - 1 modulo 256, its counter is the number of frames of the session, and it has its bridge and options while running |
| `Stream.StreamObject.Do` | libhuestream/huestream/stream/Stream.cpp:48-215 | each event goes to its method and leaves the object in the state that the step gives |
| `Stream.StreamObject.Start` | libhuestream/huestream/stream/Stream.cpp:48-83 | stops a session elsewhere, frees the bridge, starts when ready (equals the specified step) |
| `Stream.StreamObject.MakeFree` | libhuestream/huestream/stream/Stream.cpp:54-68 | what is running or left over is stopped (equals the specified step) |
| `Stream.StreamObject.StartStreamingSession` | libhuestream/huestream/stream/Stream.cpp:98-127 | grant, connect, reset of the counters (equals the specified step) |
| `Stream.StreamObject.ConnectUpToFiveTimes` | libhuestream/huestream/stream/Stream.cpp:106-117 | the connect loop (equals the specified step) |
| `Stream.StreamObject.StopOwn` | libhuestream/huestream/stream/Stream.cpp:148-178 | stop for the own copy (equals the specified step) |
| `Stream.StreamObject.StopFor` | libhuestream/huestream/stream/Stream.cpp:156-178 | stop for another bridge object (equals the specified step) |
| `Stream.StreamObject.StartWithThread` | libhuestream/huestream/stream/Stream.cpp:135-146 | start with render thread (equals the specified step) |
| `Stream.StreamObject.RenderSingleFrame` | libhuestream/huestream/stream/Stream.cpp:201-215 | one frame with its sequence number (equals the specified step) |
| `JsonChildren.Children.Replay` | 3rd_party/libjson/_internal/Source/JSONChildren.h:65-77 | any legal run of calls on the array is the same run on the sequence, with size within capacity within allocation |
| `JsonChildren.Children.Do` | 3rd_party/libjson/_internal/Source/JSONChildren.h:65-222 | one call is one sequence operation |
| `JsonChildren.InsertRangeThenErase` | 3rd_party/libjson/_internal/Source/JSONChildren.h:210-222 | erasing what a range insert put in restores the list |
| `JsonChildren.InsertRangeIsRepeatedInsert` | 3rd_party/libjson/_internal/Source/JSONChildren.h:210-222 | a range insert is inserting one by one |
| `JsonChildren.RunExtends` | 3rd_party/libjson/_internal/Source/JSONChildren.h:65-77 | runs compose |
| `JsonChildren.ReservedFitsExactly` | 3rd_party/libjson/_internal/Source/JSONChildren.cpp:45-69 | the capacity after room for several was made fits 32 bits exactly when the need is at most the largest capacity that doubling reaches below 2^32, or, without a block, when the amount does |
| `JsonChildren.GrownFitsExactly` | 3rd_party/libjson/_internal/Source/JSONChildren.cpp:21-43 | the capacity after room for one was made fits 32 bits exactly when the list was not full at 2^31 or beyond |
| `JsonChildren.DoubledFitsExactly` | 3rd_party/libjson/_internal/Source/JSONChildren.cpp:60-62 | the doubling loop stays below 2^32 exactly when the need is at most the largest capacity it reaches there |
| `JsonChildren.Children.Inc` | 3rd_party/libjson/_internal/Source/JSONChildren.cpp:21-43 | room for one more: contents kept, and exactly which capacity |
| `JsonChildren.Children.IncBy` | 3rd_party/libjson/_internal/Source/JSONChildren.cpp:45-69 | room for several: the doubling loop ends, contents kept, and exactly which capacity |
| `JsonChildren.Children.PushBack` | 3rd_party/libjson/_internal/Source/JSONChildren.h:65-70 | appends |
| `JsonChildren.Children.PushFront` | 3rd_party/libjson/_internal/Source/JSONChildren.h:72-77 | prepends |
| `JsonChildren.Children.Insert` | 3rd_party/libjson/_internal/Source/JSONChildren.h:187-208 | inserts; the tracked position keeps its index in both directions |
| `JsonChildren.Children.InsertRange` | 3rd_party/libjson/_internal/Source/JSONChildren.h:210-222 | inserts a block; the tracked position keeps its index |
| `JsonChildren.Children.EraseAt` | 3rd_party/libjson/_internal/Source/JSONIterators.cpp:38-47 | erasing through a node: one element goes, or a position that is not before the end is refused and changes nothing |
| `JsonChildren.Children.EraseRange` | 3rd_party/libjson/_internal/Source/JSONChildren.h:170-184 | erases a block; the other tracked position keeps its index |
| `JsonChildren.Children.DoErase` | 3rd_party/libjson/_internal/Source/JSONChildren.cpp:80-94 | shortens or shifts |
| `JsonChildren.Children.Shrink` | 3rd_party/libjson/_internal/Source/JSONChildren.h:236-248 | gives up spare capacity |
| `JsonChildren.Children.Clear` | 3rd_party/libjson/_internal/Source/JSONChildren.h:107-116 | empties, keeping the block |

## Left out

- HTTP, DTLS, sockets, storage, entropy, discovery, logging and clocks: their answers are parameters of the steps (`FlowSpec.Env`, `StreamSpec.Env`, the reply script of `TakeoverPolicy`, the times of `FeedbackDebounce`).
- Bridge objects are values in the flow: what other threads write into the active bridge object is the event `ActiveBridgeWritten`, which may come between any two actions.
- Writes to shared objects in the middle of an action are not modelled; messages carry the bridge as it was when they were sent.
- The bridge list carried by saving and search messages, and the text of messages.
- Passing flow messages on to the full configuration retriever, and the retrievers' own requests and parsing of a full configuration.
- Liveness of waiting, and deadlock freedom of stopping a stream from its render callback: only safety is proved.
- More than one dispatcher loop at a time, which calling `Execute` twice would start.
- JSON text and its validation: an abstract validity predicate that no proper prefix of a document satisfies, that a document followed by line ends satisfies, and that one followed by other text does not; `EventDocuments` gives one, which only counts brackets.
- Comparison of version and model strings with the configured minimum: boolean fields of the bridge.
- Rounding of floating point: colours, alpha and brightness are reals.
- JsonChildren.Children.IncBy: the capacity is unbounded; that of the original has 32 bits, and is the same exactly under the condition of `JsonChildren.ReservedFitsExactly`.
- JsonChildren.Children.Inc: the same, under the condition of `JsonChildren.GrownFitsExactly`.
- JsonChildren.Children.Erase: requires a position before the end, which the iterators check (`JsonChildren.Children.EraseAt`); the assertion in the array itself also lets the end pass, where the shifted length would be negative.
- Reserving capacity and deleting the nodes of a child array.
- Stream.StreamObject.RenderSingleFrame: the frame counter is unbounded; that of the original is a 32-bit integer, which a session of more than two thousand million frames would overflow.
- A start that dereferences a missing group ends there in the model; what the original does after that is not defined.
- Effects are handles whose layer does not change while they are in the list; what they show is a parameter of a render.
- StreamerClient.Streamer.Tick: the animation in the streaming notice is left out.
- Connect.ConnectObject.Call: stands for all calls of the front; their parameters are those of the event, and what the outside will answer to the action travels with it.
- BridgeReplica.Retriever.GetDeviceOf: devices are looked through in a fixed order where the original uses an unordered map; with one owner for each service, which is proved, the order does not matter.
- BridgeReplica.Retriever.AddEntertainmentConfiguration: name, class, stream state, positions and the physical light list of a group are left out.
- BridgeReplica.Retriever.UpdateEntertainmentConfiguration: name, class, stream state, positions and the physical light list of a group are left out.
- Values in the client's light map after updates, group on and brightness states, and lights listed twice in a group.
- Zones, scenes, grouped lights, light modes, and start and stop of an entertainment configuration on the simulator.
- ReplicaRuns.ReplicaAgreesAlways: for entertainments only that the client knows none that the bridge does not have; exactly which it knows is `ReplicaKeys.EntertainmentsKnownAtTheStart`.
- Ids drawn for new resources are assumed to be new.
- The bridge monitor's own state between checks, the wrappers for other languages, and the example applications.
