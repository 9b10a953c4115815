# Verification of the coordinator and the provider agent

A Dafny model of the parts of the system whose correctness depends on interleavings, on arithmetic or on
updates in place, with proofs about every run.

- **Relay protocol.** HTTP handlers take a slot on a machine, hook a bounded channel on the machine's session
  and wait; provider connections relay chunks, responses and errors into those channels; sessions are
  replaced, unregistered, evicted and cancelled meanwhile. `RegistryModel` gives the registry as a value,
  `Registry` is the registry as coded (methods that update maps, each proved to do what the model says),
  `Sse` the events a handler writes, and `RelayProtocol` the whole as a labelled transition system.
  `Environment` shows that the registry's methods do the steps of the protocol, and `StreamingHandler`,
  `NonStreamingHandler` and `ChatHandler` are the handlers as coded, with other steps going on meanwhile, each
  proved to be a run of the protocol. `HandlerInvariant`, `RelayInvariant` and `RegistryFacts` carry the
  invariant, `RelayHistory` ties the recorded history to the labels of the run; `RelayTheorems`,
  `RelayStranding`, `RelayLoad`, `RelayAdmission`, `RelayCapacity`, `SessionCounters`, `RetryChain`,
  `FailureDetector`, `ProviderConnection` and `EndToEnd` hold the results; `RelayWitnesses` and `SplitSteps` show which bounds are tight and what rests on the step
  granularity.
- **Provider agent.** `AgentStream` is the transducer from backend lines to messages, `AgentCapacity` the
  capacity counter and the cancel map under any interleaving, `Backoff` the reconnect schedule, `Uint` the
  hand-written number printer and parser.
- **Store.** `StoreModel` gives each SQL statement as a function on tables, `Store` the calls and the two key
  handlers as an object, and `StoreProtocol` every interleaving of their statements, with PIN redemption,
  machine upserts and key revocation split into the statements they run. `StoreInvariant` and `Retirement`
  carry the invariants; `InviteTheorems` and `StoreTheorems` hold the results.
  `StoreRefinement` shows that uninterrupted calls do there what the object promises.
- **Limiters.** `TokenBucket` and `PinLimiter`.

`dafny verify dfyconfig.toml` checks everything.

## Assumptions

- Each registry method is one step, and so is each relay function's look-up and non-blocking send. A
  handler's start (find the session, hook a channel, take a slot, send) is one step; its slot and its channel
  are given back in two more, in either order. `SplitSteps` says exactly what can go wrong when the look-up of
  a session and its use are separated.
- Request, session, key, invite and machine ids are fresh; a machine id that clashes all the same is a failed
  upsert. Hashes are injective. Clocks never run backwards.
- Each SQL statement, and each transaction, is atomic; the database itself does not fail.
- An old connection that ends after a reconnect unregisters the newer session, as the code does; nothing here
  says that a machine is registered if and only if it is connected.

## What the proofs found

- Slots are released by machine id, so a handler of an earlier session frees a slot of the present one. A
  machine can then serve more requests than it has slots, if and only if one of its requests still held a slot
  when its provider connected again (`RelayAdmission.OverAdmissionExactly`), and by no more than there were
  (`RelayAdmission.OverAdmissionBound`).
- A terminal message that meets a full buffer, or a whole response to a streaming request, leaves its handler
  waiting for a timer, and nothing else does (`RelayStranding.StrandedExactly`).
- Cancelling a session that was replaced or evicted after its look-up closes channels twice, which panics
  (`SplitSteps.CancelPanicsExactly`).
- Invites can be created on, and redeemed for, a machine whose key was revoked; the binding then passes the
  access check but is not listed (`StoreTheorems.InvitingToARetiredMachine`).
- An owner's redeem does not re-check revocation: it counts on a withdrawn invite if its SELECT came before the
  withdrawal (`InviteTheorems.OwnerUseAfterWithdrawal`).
- Some run of failures makes the reconnect loop panic if Min or Max is under 4 ns, or the larger one is close to
  the int64 limit; configuration does not exclude that (`Backoff.PanicFreeExactly`).
- The two stream encodings differ when a stream is closed by `[DONE]` alone and the write of the closing message
  fails: the agent has then noted that it is done and sends no error, where the NDJSON stream reports one
  (`AgentStream.SentinelAgreesExactly`).

## Where the code and its documentation differ

The model follows the code.

- internal/coord/ratelimit.go:100 says that cleanup keeps the buckets near full capacity; it deletes exactly
  those.
- SPEC-v2.md section 6.3 says that a machine whose backend has been failing for five minutes is disconnected;
  eviction only removes it from the registry and leaves the connection open, and the machine stays away until
  the provider connects again (`FailureDetector.GoneUntilReconnect`).
- SPEC-v2.md section 5.1 gives an owner access unconditionally; the code asks for a live provider key.
- SPEC-v2.md section 4.4 lists "machine_gone"; machines are never deleted, so it cannot be returned
  (`InviteTheorems.SelectAccepts`).
- SPEC-v2.md section 4.5 says that after a regeneration bindings to the old machine are invalid; that holds
  only if nobody creates another invite to it (`StoreTheorems.OnlyLateInvites`).

## Model

| member | source | states |
|---|---|---|
| RelayTheorems.NoLostWakeUp | internal/coord/registry.go:60-110 | In every reachable state a waiting handler's channel is closed, or is open and hooked on the session registered for its machine, or has had its terminal message relayed |
| RelayTheorems.OnlyWaysToBeStranded | internal/coord/ws.go:228-304 | A handler waiting on an open, empty channel that its machine's session no longer has is a streaming one whose terminal message was relayed: dropped by a full buffer, so that none was enqueued, or a whole response, the last enqueued |
| RelayTheorems.StrandedForGood | internal/coord/ws.go:241-248 | Such a handler's channel stays open and empty under every continuation, so that only a timer or its client ends it |
| RelayStranding.StrandedExactly | internal/coord/ws.go:228-304 | When a streaming request's terminal message is relayed, the handler that then reads its channel to the end is left stranded if and only if the message met a full buffer or is a whole response, and has ended otherwise |
| RelayTheorems.CancellationWakesAll | internal/coord/invites.go:260-294 | Cancelling a machine's requests, or the end of its connection, leaves every handler waiting on it something to receive, unless its terminal message was relayed before |
| RelayTheorems.ChannelDiscipline | internal/coord/registry.go:193-218 | No channel is ever closed twice or sent to after its close, and no buffer exceeds its capacity, 32 for a streaming request and 1 for another |
| RelayHistory.LogIsTheRun | internal/coord/ws.go:228-252 | The handler's history is the run: exactly what its own machine said about its request since it began, whether any of it met a full buffer, and whether a terminal message was relayed |
| RelayHistory.StartIsABeginning | internal/coord/api.go:212-217 | The step from which that counts is the start of this handler, whose id nobody had before |
| RelayHistory.OutcomesAreTheRun | internal/coord/api.go:278-322 | A streaming handler's selects met nothing but messages if and only if no step of the run was one of its timers, its client leaving or its closed channel |
| RelayTheorems.FaithfulQueue | internal/coord/ws.go:228-304 | Received plus buffered is, in order, a subsequence of what the handler's own machine said about its own request since it began; a prefix of that while nothing was dropped, and all of it while the session is registered |
| RelayTheorems.SettledForGood | internal/coord/ws.go:246-248 | After a done chunk, a response or an error was relayed, no step enqueues anything more |
| RelayTheorems.SlotReleasedOnce | internal/coord/api.go:243-261 | In the protocol a slot is released at most once, has been once it is no longer held, and is never released unless taken |
| Environment.Act | internal/coord/registry.go:60-377 | Every enabled step of the protocol is what the registry's own method for it does |
| Environment.Meanwhile | internal/coord/ws.go:164-226 | Any script of other steps, done to the registry, is a run of the protocol that leaves the given requests to their handlers |
| StreamingHandler.SelectOnce | internal/coord/api.go:278-392 | Each branch of the select, as coded, is taken exactly when its timer is armed or its channel ready, writes what its outcome calls for - a relay's own content, tool calls and error - and calls DecrementLoad exactly when it ends the stream |
| StreamingHandler.HandleStreamingCompletion | internal/coord/api.go:226-393 | Whatever happens meanwhile, the handler as coded is a run of the protocol, and when it returns its channel is unhooked and its slot was released exactly once, or never if the machine was busy; it wrote the refusal, or the content and tool calls of everything it received, in order, and what ended it |
| NonStreamingHandler.SendNonStreamingRequest | internal/coord/api.go:426-492 | The attempt as coded is a run of the protocol; on return its channel is unhooked, its slot released exactly once, and its result reports, field by field, the one message it received, or that it received none; a full machine is left untouched |
| NonStreamingHandler.HandleNonStreamingCompletion | internal/coord/api.go:396-424 | The retry loop as coded is a run of the protocol: at most three attempts, all on this machine, each over and lost before the next, each slot released once; the reply is the last attempt's answer, which is what the message it received says, or no further attempt was allowed |
| NonStreamingHandler.RetryIsEnabled | internal/coord/api.go:398-408 | What the code knows when it tries again implies every condition the protocol puts on a retry |
| ChatHandler.HandleMachineChatCompletions | internal/coord/api.go:194-218 | Each refusal is given exactly for its reason, in the order of the checks, and touches nothing; an admitted request has given back every slot and channel when the call returns |
| RelayTheorems.StreamingOutput | internal/coord/api.go:226-393 | Every streaming output is a refusal, or null-finish chunks followed by the ending that the way the handler ended calls for, and by nothing while it waits |
| RelayTheorems.DoneIsLast | internal/coord/api.go:494-528 | Nothing follows [DONE], and an error and a finish reason never both appear |
| RelayTheorems.OutputIsAppendOnly | internal/coord/api.go:278-392 | No step takes back what was written, and an ended handler writes and receives nothing more |
| RelayTheorems.CompletedOutput | internal/coord/api.go:342-390 | On normal completion the delta contents are those received, there is exactly one finish, "tool_calls" if and only if some received chunk carried tool calls, and [DONE] ends it |
| RelayTheorems.AnswersAreSpoken | internal/coord/api.go:453-491 | The result of a non-streaming attempt is one message of the handler's machine under the handler's id, field by field: its content, tool calls, tokens and the finish they call for, or, for an error, its code and text; an attempt that received nothing was lost for another reason |
| RelayTheorems.WholeOutput | internal/coord/api.go:278-392 | The whole output of a streaming handler in every reachable state: the content and tool calls of every relay received, in order, but for empty keepalives, and then the events that the outcome that ended it calls for |
| RelayTheorems.RelayedFields | internal/coord/ws.go:228-304 | Every value received carries the fields of the message enqueued at its place: content, tool calls, done, tokens, and an error as "code: message" |
| RelayTheorems.TimersArmed | internal/coord/api.go:264-334 | The first-token timer can end a waiting handler exactly until something was received, the inter-token timer exactly from then on, the deadline and the client at any time |
| RelayInvariant.ReachedInv | internal/coord/registry.go:60-218 | The protocol invariant (registry, channels, logs, outputs, slots) holds in every reachable state |
| RelayInvariant.StepKeepsInv | internal/coord/ws.go:164-304 | Every step of every kind keeps the invariant |
| HandlerInvariant.LoggedOK | internal/coord/ws.go:234-248 | A relayed message keeps queue, log and settlement consistent, whether it is enqueued, dropped or not looked up |
| HandlerInvariant.ShutOK | internal/coord/registry.go:65-74 | Closing the channels of a session that goes away keeps the invariant of each of its handlers |
| EndToEnd.CompletedMeansWholeText | internal/coord/api.go:278-391 | If the buffer never overflowed and the handler completed, then over any connection the backend's stream ended in a done record and the client's contents are, concatenated, the content of each record or its thinking text where it has none; then one finish and [DONE] |
| EndToEnd.ClientGetsEveryRecord | internal/coord/api.go:337-391 | And event by event: the client gets, in order, the text and the normalised tool calls of each record, but for empty ones before the last, the last with the finish reason, "tool_calls" if and only if some record had any, then [DONE] |
| EndToEnd.RecordReachesClient | internal/provider/agent.go:531-540 | So each record that says anything reaches the client with its own content, or its thinking text if it has none, and its own normalised tool calls, after those before it |
| EndToEnd.AnswerIsTheBackends | internal/provider/agent.go:559-640 | The answer to a non-streaming request is the backend's content, or its thinking text if it has none, its tool calls normalised, and the tokens the backend reports |
| EndToEnd.UndisturbedCompletes | internal/coord/api.go:278-391 | A handler that met no timeout, disconnect, close or overflow completes when the backend's stream ends in a done record |
| EndToEnd.WorkingRunDeliversTheText | internal/provider/agent.go:451-557 | With a working connection and none of those disturbances, the client gets the records' texts, exactly one finish reason, then [DONE] |
| EndToEnd.StreamedSoFar | internal/coord/api.go:342-383 | While the handler waits, the client has exactly the text and tool calls of the records received so far |
| EndToEnd.SomethingToReceive | internal/coord/ws.go:241-248 | Once the agent has sent its whole output, a waiting handler without overflow has something to receive |
| RelayLoad.LoadAccounting | internal/coord/registry.go:140-165 | For the session registered now: 0 <= load <= max and load <= holders <= load + stale, so over-admission never exceeds the stale releases |
| RelayAdmission.OverAdmissionExactly | internal/coord/registry.go:156-165 | After its provider connects, a machine can be over-admitted if and only if one of its requests held a slot at that moment |
| RelayAdmission.ExactAfterIdleConnects | internal/coord/registry.go:140-165 | If the machine only ever connected while none of its requests held a slot, its load is exactly the requests in flight, and it is never over-admitted |
| RelayAdmission.OverAdmissionBound | internal/coord/registry.go:156-165 | The stale releases, those still to come, and so the over-admission are at most the requests that held a slot when the machine last connected |
| RelayAdmission.ExactWithoutReconnect | internal/coord/registry.go:140-165 | If the machine had no other session, its load is exactly the requests holding a slot of it, and these are within its capacity |
| RelayAdmission.SettledStep | internal/coord/registry.go:140-165 | Every step but a connection of the machine keeps its load equal to its requests in flight, none of an earlier session |
| RelayCapacity.ConnectOpens | internal/coord/ws.go:86-103 | A connection registers a healthy session of its user with no load and with the capacity the provider asked for, or one if it asked for none; other machines are untouched |
| RelayCapacity.AdmitsExactly | internal/coord/registry.go:140-154 | On a machine that connected while none of its requests held a slot, whatever came and went since, a request takes a slot if and only if fewer than the registered capacity hold one |
| RelayCapacity.FirstOnesTakeSlots | internal/coord/registry.go:140-154 | So of requests that begin one after another there, exactly the first max take a slot |
| SessionCounters.CountersAreTheRun | internal/coord/registry.go:140-182 | In every run a session's counters are exactly the requests that ever took a slot of it and the tokens relayed through it: one per chunk, a response's own number |
| RelayLoad.ReleaseLoadAt | internal/coord/registry.go:156-165 | A release by machine id keeps the bounds of every registered session, charging a reconnected session one stale release |
| RelayWitnesses.OverAdmission | internal/coord/registry.go:156-165 | A run after which more requests hold a slot of a machine's present session than it has |
| RelayWitnesses.DroppedTerminalStrands | internal/coord/ws.go:241-248 | A run in which a full buffer drops the done chunk and the handler is stranded for ever, its machine still registered |
| RelayWitnesses.ResponseStrands | internal/coord/ws.go:254-280 | A run in which a whole response to a streaming request strands its handler for ever |
| RetryChain.AttemptsOfOneRequest | internal/coord/api.go:396-424 | In the protocol the attempts of a non-streaming request all go to one machine, are at most three, never overlap, and follow lost attempts only |
| FailureDetector.NextSeen | internal/coord/registry.go:119-138 | The registry's view of a machine moves exactly as the small detector automaton says; requests and relayed messages do not matter to it |
| FailureDetector.TimelyIsKept | internal/coord/registry.go:350-377 | A session whose heartbeats are never more than the timeout old at a tick, and whose backend never fails, is never evicted |
| FailureDetector.SilentIsEvicted | internal/coord/registry.go:357-359 | A machine silent since t is absent after any tick later than t + timeout |
| FailureDetector.FailedIsEvicted | internal/coord/registry.go:360-362 | A machine whose backend failed is absent after any tick more than 300 seconds after the last report, however alive its heartbeats |
| FailureDetector.FailureIsSticky | internal/coord/registry.go:128-138 | Once its backend failed, a machine stays unhealthy and admits no request until a new registration |
| FailureDetector.GoneUntilReconnect | internal/coord/registry.go:119-126 | A machine that left the registry stays out until its provider registers again, whatever heartbeats and messages still arrive |
| FailureDetector.TickIsExact | internal/coord/registry.go:350-377 | After a tick a machine is registered if and only if it was, its last heartbeat is at most the timeout old, and its backend is healthy or failed at most 300 seconds ago |
| ProviderConnection.ReadLoopEffects | internal/coord/ws.go:164-226 | After the read loop the machine has the time of the last heartbeat read, and is healthy exactly if it was and no error read said backend_unavailable; no frame after a revoked key counts |
| ProviderConnection.ConnectionEnds | internal/coord/ws.go:83-154 | A connection alone leaves its machine unregistered and others as they were |
| SplitSteps.CancelPanicsExactly | internal/coord/invites.go:290-294 | Cancelling a session looked up earlier closes a channel twice if and only if the session is no longer registered and still has a channel hooked |
| SplitSteps.ReplacedThenCancelled | internal/coord/registry.go:60-82 | A replacing registration in between brings that about exactly when a request is in flight; an unregistration never does |
| SplitSteps.EvictedThenCancelled | internal/coord/registry.go:350-377 | An eviction in between brings it about exactly when a request is in flight |
| SplitSteps.NilMapExactly | internal/coord/registry.go:94-103 | In every reachable state hooking a channel on a session looked up earlier meets a nil map if and only if some step of the run unregistered that session |
| SplitSteps.HookOnGoneSession | internal/coord/registry.go:192-197 | Hooking on a session replaced meanwhile leaves an open channel that nothing will find |
| RegistryFacts.EvictStep | internal/coord/registry.go:355-376 | One turn of the monitor's loop closes the channels of exactly one more stale machine, none of them closed before |
| Registry.Registry.constructor | internal/coord/registry.go:53-57 | A new registry is empty and valid |
| Registry.Registry.Register | internal/coord/registry.go:60-82 | The old session's channels are closed once, the new session starts fresh and healthy and takes over the machine id |
| Registry.Registry.Unregister | internal/coord/registry.go:85-110 | The session's channels are closed once, its map is cleared, the machine goes; its owner and counters are returned, zeros if there is none |
| Registry.Registry.TryReceive | internal/coord/api.go:317-318 | The next value of a channel, or that it is closed and empty, or nothing |
| Registry.Registry.UpdateHeartbeat | internal/coord/registry.go:120-126 | Only the registered session's heartbeat time changes |
| Registry.Registry.SetBackendOK | internal/coord/registry.go:129-138 | Only the registered session's health changes; the failure time is set on a failure only |
| Registry.Registry.IncrementLoad | internal/coord/registry.go:141-154 | True, with one more load and request, exactly when the machine is online and below capacity |
| Registry.Registry.DecrementLoad | internal/coord/registry.go:157-165 | The registered session's load goes down by one, never below zero |
| Registry.Registry.AddTokens | internal/coord/registry.go:168-174 | Adds to the registered session's token count |
| Registry.Registry.RegisterChunkChannel | internal/coord/registry.go:193-197 | Hooks the fresh channel on the session |
| Registry.Registry.UnregisterChunkChannel | internal/coord/registry.go:200-204 | Unhooks the channel without closing it |
| Registry.Registry.CancelAllRequests | internal/coord/registry.go:207-218 | Closes and unhooks every channel of the session |
| Registry.Registry.CancelMachineRequests | internal/coord/invites.go:290-294 | The same for the session registered for a machine |
| Registry.Registry.EvictStale | internal/coord/registry.go:350-377 | The loop, in any order, removes exactly the stale machines and closes exactly their channels |
| Registry.Registry.IsStale | internal/coord/registry.go:356-362 | The two reasons for eviction |
| Registry.Registry.RelayChunk | internal/coord/ws.go:228-252 | Look-up, non-blocking send, unhook after a done chunk, one token |
| Registry.Registry.RelayResponse | internal/coord/ws.go:254-287 | Look-up, non-blocking send, unhook, the response's tokens |
| Registry.Registry.RelayError | internal/coord/ws.go:289-304 | Look-up, non-blocking send of "code: message", unhook |
| Registry.Registry.Admit | internal/coord/api.go:239-247 | Hooks a channel and takes a slot, or leaves nothing hooked when the machine is full |
| Registry.Registry.Dispatch | internal/coord/ws.go:182-224 | One frame: heartbeat, relay, or error with the backend marked failed |
| Registry.Registry.ReadLoop | internal/coord/ws.go:164-226 | The loop does to the registry what its frames do in order, up to a heartbeat whose key was revoked |
| Registry.Registry.HandleConnection | internal/coord/ws.go:83-154 | A connection registers, reads, and unregisters by machine id; the registry stays valid |
| Sse.OutputGrammar | internal/coord/api.go:278-392 | For every sequence of select outcomes the output is null-finish chunks and one of the allowed endings |
| Sse.NothingAfterDone | internal/coord/api.go:494-528 | In such an output nothing follows [DONE], and no error appears with a finish reason |
| Sse.FeedKeepsText | internal/coord/api.go:342-390 | Over plain relays the event contents concatenate to the relayed contents, the handler completes exactly at the done chunk and remembers whether any chunk had tool calls |
| Sse.TurnsOfRelays | internal/coord/api.go:317-391 | A loop that met nothing but relays is the loop over the relays |
| Sse.EndedOutput | internal/coord/api.go:278-392 | For every sequence of outcomes each ready when met, an ended output is what was shown of the relays before and the events, with their codes, that the last outcome calls for |
| Sse.ShownAt | internal/coord/api.go:342-356 | Each relay that is not empty is shown field by field, with a null finish, right after those shown before it |
| Sse.ShownFrom | internal/coord/api.go:342-346 | And nothing else is shown |
| AgentStream.HandleStreamingResponse | internal/provider/agent.go:419-558 | The scanner loop with its sentDone flag and deferred error delivers exactly the specified messages, for any backend, lines and write failures |
| AgentStream.WorkingConnection | internal/provider/agent.go:451-557 | Over a working connection: one chunk per record in line order, then an error unless the last record was done |
| AgentStream.OneTerminalMessage | internal/provider/agent.go:425-449 | That output is non-terminal messages followed by exactly one terminal one |
| AgentStream.AnyConnection | internal/provider/agent.go:531-551 | With failing writes, what is delivered is a prefix of it, possibly followed by the one error message |
| AgentStream.AtMostOneTerminal | internal/provider/agent.go:425-449 | So over any connection nothing follows a terminal message |
| AgentStream.EveryMessage | internal/provider/agent.go:531-540 | Over any connection the i-th message, if it is a chunk, carries the i-th record's content, or its thinking text if it has none, its tool calls normalised and its done flag; otherwise it is the final error |
| AgentStream.EveryRecord | internal/provider/agent.go:451-557 | Over a working connection there is one chunk per record, and then an error exactly if the last was not done |
| AgentStream.NoiseIsSkipped | internal/provider/agent.go:454-491 | An empty or undecodable line, or one that is no data line, changes nothing wherever it stands, over any connection |
| AgentStream.NdjsonRecords | internal/provider/agent.go:484-525 | The records of an Ollama stream are its decoded lines, up to the first that is done |
| AgentStream.SseRecords | internal/provider/agent.go:454-512 | Those of an OpenAI stream are its decoded data lines, without thinking text, closed by an empty done record at `[DONE]` |
| AgentStream.EncodingsAgree | internal/provider/agent.go:454-486 | The same stream as Ollama NDJSON or OpenAI events yields identical messages, over any connection |
| AgentStream.SentinelAgreesExactly | internal/provider/agent.go:454-482 | A stream with no done record, closed by an empty done record or by `[DONE]` alone, yields identical messages if and only if a chunk could not be written, or the closing message could, or the error after it could not either |
| AgentCapacity.Capacity | internal/provider/agent.go:330-417 | Under every interleaving currentLoad is the number of activations past the check, within [0, max]; the cancel map holds only activations under way and is empty once none is; each activation sends at most one terminal message, last |
| AgentCapacity.RefusedExactly | internal/provider/agent.go:330-349 | In every reachable state an arriving request is refused, with the one error "overloaded", if and only if as many activations as the configured capacity have a slot |
| AgentCapacity.DeliversItsService | internal/provider/agent.go:363-417 | Under every interleaving an activation delivers what its backend call came to and nothing else, field by field: a whole response, an unreachable backend unless cancelled, a bad status, a stream |
| AgentCapacity.FreshIdsCancellable | internal/provider/agent.go:308-319 | While request ids are not reused, every uncancelled request at the backend is the one its id cancels |
| AgentCapacity.ReusedIdNotCancellable | internal/provider/agent.go:354-361 | With a reused id, the first to finish makes the other one uncancellable |
| AgentCapacity.Agent.constructor | internal/provider/agent.go:85-109 | A non-positive capacity becomes one; nothing is running |
| AgentCapacity.Agent.TakeSlot | internal/provider/agent.go:332-349 | A slot is taken exactly when the agent is below capacity |
| AgentCapacity.Agent.Cancel | internal/provider/agent.go:314-319 | Stops the activation the id maps to and forgets the id |
| AgentCapacity.Agent.HandleRequest | internal/provider/agent.go:330-417 | Undisturbed, an activation is refused with "overloaded" when the agent is full, and otherwise delivers its output and leaves the counter as it found it |
| InviteTheorems.InviteConservation | internal/coord/store.go:767-844 | Under any interleaving 1 <= max <= 10, 0 <= uses <= max, and uses is exactly member successes plus owner uses |
| InviteTheorems.MemberSucceedsExactly | internal/coord/store.go:813-843 | For every step of every run a member success is counted exactly when a member's redeem commits with a use left on an unrevoked invite, whatever its SELECT saw; the member then passes the access check |
| InviteTheorems.NoneAfterWithdrawal | internal/coord/store.go:749-764 | No member redeem succeeds after RevokeInvite commits, even one whose SELECT saw the invite live |
| InviteTheorems.OwnerUseAfterWithdrawal | internal/coord/store.go:807-811 | After RevokeInvite commits an owner's use still counts if and only if its SELECT came before and a use is left when it commits |
| InviteTheorems.OwnerUsesBounded | internal/coord/store.go:807-811 | So the owner's uses then grow by no more than the owner's redeems in flight at the withdrawal |
| InviteTheorems.WithdrawnInviteUsed | internal/coord/store.go:807-811 | A run in which the owner uses an invite after its withdrawal |
| InviteTheorems.SelectAccepts | internal/coord/store.go:767-805 | The SELECT accepts exactly the PINs of live, unexpired invites with a use left; the machine is never gone |
| InviteTheorems.SelectRefuses | internal/coord/store.go:790-805 | A PIN is refused as revoked, expired or exhausted exactly for the first of these that holds |
| InviteTheorems.OfferedInvite | internal/coord/store.go:603-643 | Whatever happens later, an offered invite stays one to its machine under its PIN, for as many members as asked for within 1..10, and until that many days later, or seven; and no more members succeed |
| InviteTheorems.OfferedUnused | internal/coord/store.go:603-643 | An offer makes an invite if and only if it is the owner's and no invite has the PIN; it is then unused and live |
| StoreTheorems.RetirementBeatsRedeems | internal/coord/store.go:572-586 | After both statements of RetireMachine no member ever has an active binding on the machine, whatever redeems were in flight, given no invite is created on it once its key is revoked |
| StoreTheorems.OnlyLateInvites | internal/coord/store.go:572-586 | Without that hypothesis: every active binding on a retired machine came from an invite created after its key was revoked |
| StoreTheorems.OrderMatters | internal/coord/store.go:572-586 | A redeem committing between the statements fails in the source's order, and in the reverse order would survive |
| StoreTheorems.InvitingToARetiredMachine | internal/coord/store.go:603-643 | CreateInvite does not look at the key, so an invite to a retired machine can be made and redeemed |
| StoreTheorems.NoSelfBinding | internal/coord/store.go:807-811 | No binding's member is the machine's owner, and every binding came from an invite to its machine |
| StoreTheorems.ListingIsSound | internal/coord/store.go:849-891 | In every reachable state no machine is listed twice, and every listed machine may be accessed |
| StoreTheorems.ListingDiffersExactly | internal/coord/store.go:540-569 | A machine may be accessed but is not listed if and only if the binding is active and the machine's key is revoked |
| StoreTheorems.ListingIsComplete | internal/coord/keys.go:118-131 | At handler boundaries, with invites created on live-key machines only, listing and access check agree and a revoked key has no active binding |
| StoreTheorems.MembershipEnds | internal/coord/store.go:932-970 | A member who leaves or is removed by the owner loses access at once, and nobody else's access changes; a removal by anybody else changes nothing |
| StoreTheorems.StableMachineId | internal/coord/store.go:427-464 | Under any interleaving two successful upserts return the same machine if and only if they are for the same key, and it is owned by the key's user |
| StoreTheorems.MachinesAreForever | internal/coord/store.go:427-464 | A machine keeps its owner and its key for ever |
| StoreTheorems.RegenerationListsNew | internal/coord/keys.go:196-214 | After a regeneration whose upsert succeeded, the old key's machine is another one and in nobody's listing, and the new one is in the listing of the old key's user exactly as long as the new key is live |
| Retirement.RunRetire | internal/coord/keys.go:177-214 | In every reachable state the machine of a revoked key is retired, or some call is about to retire it, or it never had an earlier invite |
| StoreInvariant.StepOK | internal/coord/store.go:154-186 | Every statement of every call keeps the tables' constraints and the calls' hypotheses; rows stay, revocation is final |
| Store.RegenerationSwaps | internal/coord/keys.go:196-214 | Regeneration replaces the old machine by the new one in the owner's listing, changes nobody else's, ends the old machine's memberships and no other, and keeps the name |
| StoreRefinement.RedeemAlone | internal/coord/store.go:767-844 | Uninterrupted, the two phases of a redeem in the interleaved store do what RedeemPIN promises |
| StoreRefinement.RevokeAlone | internal/coord/keys.go:118-131 | Uninterrupted, the four statements of revoking a provider key do what HandleRevokeKey promises |
| StoreRefinement.RegenerateAlone | internal/coord/keys.go:176-214 | Uninterrupted, the seven statements of regenerating a key do what HandleRegenerateKey promises |
| Store.NobodyAccesses | internal/coord/store.go:540-569 | Nobody, the owner included, may access a machine whose key was revoked and which was retired |
| Store.Database.CreateKey | internal/coord/store.go:229-252 | A live key under an id never used before |
| Store.Database.RevokeKey | internal/coord/store.go:322-336 | Revokes exactly a live key of that user |
| Store.Database.GetMachineByProviderKeyID | internal/coord/store.go:491-507 | The one machine that has the key, if any |
| Store.Database.UpsertMachineByProviderKey | internal/coord/store.go:427-464 | Returns the key's machine, renamed if a name was given, or inserts one for the owner under that name or "machine", or fails on an id clash or an unknown key; no other machine changes |
| Store.Database.RetireMachine | internal/coord/store.go:572-586 | Revokes every invite and then every binding of the machine, and nothing else |
| Store.Database.CanAccessMachine | internal/coord/store.go:540-569 | Owner with a live key, or a member with an active binding |
| Store.Database.ListMachinesByOwner | internal/coord/store.go:511-537 | Each owned machine with a live key, once |
| Store.Database.ListAccessibleMachines | internal/coord/store.go:849-891 | Those, and each machine with an active binding and a live key, once |
| Store.Database.CreateInvite | internal/coord/store.go:603-643 | Succeeds exactly for the machine's owner with an unused PIN; the invite is for the uses asked for, clamped to 1..10, and for the days asked for, or seven |
| Store.Database.RevokeInvite | internal/coord/store.go:750-764 | Revokes exactly a live invite of that owner |
| Store.Database.SelectInvite | internal/coord/store.go:767-805 | The checks of RedeemPIN in their order |
| Store.Database.CommitRedeem | internal/coord/store.go:807-843 | The owner's use, or the member's guarded transaction |
| Store.Database.RedeemPIN | internal/coord/store.go:767-844 | Undisturbed, a redeem that passes its checks adds one use and gives a member access; a refused one changes nothing |
| Store.Database.RevokeBindingByMember | internal/coord/store.go:932-946 | The member's binding is no longer active; an error if it was not |
| Store.Database.RevokeMemberByOwner | internal/coord/store.go:949-970 | The same, by the machine's owner only |
| Store.Database.HandleRevokeKey | internal/coord/keys.go:93-131 | Revokes the user's key and, for a provider key, retires its machine, to which then nobody has access |
| Store.Database.HandleRegenerateKey | internal/coord/keys.go:150-214 | Revoke, mint, retire, upsert, in this order, with the name carried over |
| TokenBucket.TokenBucketBound | internal/coord/ratelimit.go:40-64 | For any key and window of any history, allowed calls <= burst + (end - start) * rate + 0.1 * burst per cleanup deletion, with tokens always in [0, burst] |
| TokenBucket.HourlyBound | internal/coord/ratelimit.go:23-36 | For an hourly limiter: at most perHour calls at once and perHour / 3600 more per second, and a tenth of perHour per cleanup deletion |
| TokenBucket.DenialIsJustified | internal/coord/ratelimit.go:59-61 | A call is denied only if some window ending now would otherwise exceed burst + rate * d |
| TokenBucket.RemainingPredicts | internal/coord/ratelimit.go:72-86 | Remaining is at least one exactly when a call would be allowed, and drops by one exactly when it is |
| TokenBucket.KeysAreIndependent | internal/coord/ratelimit.go:40-64 | A call for one key never changes what another key may do |
| TokenBucket.RateLimiter.RateLimitHourly | internal/coord/ratelimit.go:26-36 | An empty limiter with rate perHour/3600 and burst perHour |
| TokenBucket.RateLimiter.Allow | internal/coord/ratelimit.go:40-64 | Creates a full bucket for a new key, refills, caps, and takes a token if there is a whole one |
| TokenBucket.RateLimiter.Remaining | internal/coord/ratelimit.go:72-86 | Whole tokens after refill, without changing anything |
| TokenBucket.RateLimiter.CleanupTick | internal/coord/ratelimit.go:95-110 | Deletes exactly the buckets refilled to 90% of the burst or more |
| PinLimiter.SlidingWindowBound | internal/coord/invites.go:35-63 | At most limit attempts of any key are allowed in any window, wherever it ends |
| PinLimiter.AllowedMeansRoom | internal/coord/invites.go:40-55 | A call is allowed only if each of its keys has fewer than limit allowed attempts in the window |
| PinLimiter.DeniedMeansFull | internal/coord/invites.go:52-54 | A call is denied only if one of its keys has exactly limit allowed attempts in the window |
| PinLimiter.DenialChargesNothing | internal/coord/invites.go:40-62 | A denied call leaves every key's recent attempts as they were |
| PinLimiter.CompactInPlace | internal/coord/invites.go:44-51 | Writing survivors over the same array keeps exactly the recent attempts, in order |
| PinLimiter.Append | internal/coord/invites.go:60-60 | Go's append: in place while there is room, otherwise a new array |
| PinLimiter.Limiter.constructor | internal/coord/invites.go:24-33 | A limit of ten by default and a window of 900 seconds |
| PinLimiter.Limiter.Allow | internal/coord/invites.go:35-63 | The two passes over slices in place refine the two passes over the log |
| Backoff.BackoffBounds | internal/provider/agent.go:141-146 | After n failures since a reset min(Max, 2^n * Min) <= backoff <= Max, and the jitter argument was always positive |
| Backoff.BackoffNonDecreasing | internal/provider/agent.go:141-146 | Waits never shrink between resets |
| Backoff.MaxReached | internal/provider/agent.go:144-146 | Max is reached as soon as 2^n * Min >= Max |
| Backoff.PanicFreeExactly | internal/provider/agent.go:117-147 | For any int64 Min and Max, no jitter and no history of connections leads to a panic if and only if both are at least 4 ns and 2*M + M/4 - 1 fits an int64 for the larger one, M |
| Backoff.WaitsBounded | internal/provider/agent.go:117-147 | Over any history of connections the loop never panics, and every wait slept lies in [Min, Max] |
| Backoff.WaitsOnSchedule | internal/provider/agent.go:117-147 | Of what is slept: one wait per failure, Min for the first after a clean disconnect, between min(Max, 2^n * Min) and Max after n failures in a row, and each at least twice the one before and less than 2.25 times it unless Max cuts it off |
| Backoff.Run | internal/provider/agent.go:112-148 | The loop sleeps on that schedule and does not panic where the configuration is safe, and for any int64 configuration sleeps and panics as specified |
| Uint.ParseAfterFormat | internal/provider/hardware.go:53-65 | For every n < 2^64, parseUint(formatUint(n)) = (n, true) |
| Uint.FormatAfterParse | internal/provider/hardware.go:154-163 | An accepted string is printed back if and only if it is a canonical numeral below 2^64 |
| Uint.NoOverflowOnNumerals | internal/provider/hardware.go:154-163 | While the numeral of a uint64 is parsed the accumulator never wraps |
| Uint.BufferSuffices | internal/provider/hardware.go:57-63 | Twenty bytes suffice: the index never runs off the buffer |
| Uint.FormatUint | internal/provider/hardware.go:53-65 | Filling the buffer from its end yields the canonical numeral, of at most twenty digits |
| Uint.ParseUint | internal/provider/hardware.go:154-163 | Accumulating modulo 2^64 yields the value modulo 2^64, and fails at the first non-digit |

## Left out

- Sessions and channels are table entries named by their ids, not heap objects with pointers between them; aliasing is what the ids express.
- The lock structure inside a step: what Go's memory model allows between unsynchronised reads of `CurrentLoad` or `BackendOK` and writes to them.
- `RelayProtocol` starts a handler in one step, so the window between the admission checks and the slot is not modelled beyond `SplitSteps`; the "machine_busy" event is written by handlers whose start finds no slot. The end of a stream and the release of its slot are two steps of the protocol, but one in `StreamingHandler`.
- Fairness and liveness: Go's select picks at random among ready cases, so outcomes are labels and no timer is proved to fire.
- `MachineSession.requests` on the coordinator, which nothing fills.
- The bodies of HTTP requests and answers, model look-up, the JSON envelopes of events, and fixed error messages; an event is its delta, finish reason or error code.
- Normalisation of tool calls and the JSON decoders are parameters of the agent's transducer.
- The JSON decoding of a whole response (internal/provider/agent.go:559): the record it yields is a parameter of `AgentCapacity`.
- The coordinator decodes tool calls and encodes them again, for streams with indexes added (internal/coord/api.go:353-356): they are the same raw JSON here, which decodes because it came out of a JSON message.
- Owner statistics: the relay adds to them at once and the end of a connection adds the session's counters again, so no conservation law holds for them; it does for the counters of a session (`SessionCounters.CountersAreTheRun`).
- PIN alphabet, formatting and normalisation, and the generation of ids, keys and PINs.
- Creation times, and the order in which rows are listed.
- Floating-point rounding in the token bucket: tokens and times are reals.
- Test-mode endpoints, snapshots, badges, OAuth, cookies, templates, installation, configuration and hardware detection.
- RelayTheorems.StreamingOutput: failed writes to the client are ignored, as the code ignores them.
