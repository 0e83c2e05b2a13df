# Calls, orders and numbers: a verified model

This project models the parts of a cloud telephony platform where several parties act on the same
record at once, and proves what holds however their actions interleave.

- **Inbound calls** (`CallState`, `InboundRules`, `InboundRuns`, then `InboundAgreement`, `InboundRing`,
  `InboundExclusion`, `InboundHunt`, `InboundCommands`, `InboundAnswers`, `InboundEndings`,
  `InboundMissed`). One call rings several legs. Answers, bridges, leg ends, the caller's hangup, the
  agent's accept and the completions of the dials arrive in any order.
  `InboundRules` has one function per handler; `InboundRuns` makes them the steps of a transition
  system with the issued commands as its history; the other files prove properties of all its runs.
  `SessionStore` and `InboundController` are the same handlers as methods that update the maps in
  place, each proved to do what its rule says; `Switchboard` serves many calls with them, and
  `ManyCalls` shows that each of the calls goes through a run of its own.
- **Blind transfers** (`TransferRules`, `TransferRuns`, `TransferResults`, `TransferDesk`): the stage
  machine of a transfer together with the call it belongs to; `TransferHistory` tells it by the
  webhooks of a run alone, and `TransferErasure` shows that transfers which were not completed leave
  no trace in it.
- **Number orders** (`NumberOrders`, `Fulfilment`, `BankOrders`, `BankRaces`): the purchase loop,
  concurrent completions of one order at the grain of database statements, the bank-transfer
  operations, and the independent integrity check.
- **Numbers, extensions, employees** (`Ownership`, `OwnershipResults`, `OwnershipEffects`,
  `OwnershipTables`) and **numbers and organizations** (`DidLedger`, `DidRaces`, `DidDesk`): two-way
  pointers, an append-only log and a cache.
- **Supporting**: ring order and fairness (`RingOrder`), money (`Money`), and two stores whose entries
  expire (`RefreshTokens`, `WebhookDedup`).

Where the code falls short of what one would want, the project says exactly when: a lemma gives the
condition under which the property holds, and another a run or an input on which it fails
(`BothExactly` and `OrderIsNeeded`, `ReactivationExactly` and `ReactivationBreaks`, `UnapprovedExactly` with
`RejectionRace` and `UploadRace`, `ClosesAgainExactly` and `ReopenRace`, `ProcessedStaysExactly` and
`CancellationCanOverwrite`, `UnassignRacesExactly` with `RefillsAreRaces` and `StraddlingRaces`,
`SplitRevocation` and `RevokeAllRace`, `RotationSucceedsExactly` and `DoubleRotation`, `CheckerSees` and
`CheckerMisses`, `LinesMatchCartExactly`, `RoundTripExactly` and `RateBelowOne`, `WinnerIsCredited`).

Identifiers (legs, users, organizations, numbers, tokens) are natural numbers, compared for equality
only; time is a natural number passed to each step. `dafny verify dfyconfig.toml` checks everything.

## Model

| member | source | states |
|---|---|---|
| `InboundAgreement.WinnerAgreement` | lib/callControlSessionStore.js:154-205 | Over every run of a call, in both ring modes: while the session exists its `winnerLeg` and `connectedLeg` are exactly the claimed leg, and a leg that once holds the claim keeps it until cleanup |
| `InboundAgreement.GoneStaysGone` | lib/inboundCallControl.js:724-741 | Once a call is cleaned up no later event revives its session or issues a command for it |
| `InboundAgreement.WinnerStays` | lib/callControlSessionStore.js:154-205 | The claim never changes hands between two moments of one call |
| `InboundAgreement.EffectsHappenOnce` | lib/inboundCallControl.js:1041-1066 | Over a whole run the recording starts at most once and the ring group answer is recorded at most once, either one only with a claimed winner |
| `InboundAgreement.ParkedCallerAnsweredBeforePrompts` | lib/inboundCallControl.js:268-310 | Ring-first calls: every prompt follows the answering of the parked leg; answering it and bridging it to a leg happen at most once between them |
| `InboundAgreement.AnsweredCallNeverReanswered` | lib/inboundCallControl.js:268-280 | A call that was answered before it rang is never answered or explicitly bridged again |
| `InboundAgreement.RunSound` | lib/inboundCallControl.js:1084-1104 | The session record, the winner claim, the side-effect claims and the command history agree in every reachable state |
| `InboundRing.NoLegForgotten` | lib/inboundCallControl.js:948-1004 | With a winner, a slot still ringing belongs to a dial in flight; when all dials are registered none rings and every created leg is the winner, was hung up, or was reported ended or answered |
| `InboundRing.IndexIsScan` | lib/callControlSessionStore.js:262-343 | While the call lasts the leg index names exactly the legs that the linear scan over sessions would find |
| `InboundRing.CleanupLeavesNothing` | lib/callControlSessionStore.js:77-135 | If no dial was in flight at some moment of the call, cleanup leaves no claim, index, side-effect or agent entry, for good; otherwise only pending entries of dials that returned afterwards |
| `InboundRing.WinnerIsCredited` | lib/inboundCallControl.js:1237-1252 | The ring group credits the member of the winning leg's target; without one the credit goes to the member of the target at `ringIndex`, and the lemma says exactly when that is a different member |
| `InboundRing.RunRing` | lib/inboundCallControl.js:687-707 | Every slot status agrees, in every reachable state, with its dial, the hangups issued and the legs reported answered or ended |
| `InboundExclusion.FallbackExcludesWinner` | lib/inboundCallControl.js:312-398 | When every leg reports its answer before its end, no run both plays the voicemail or goodbye prompt and claims a winner |
| `InboundExclusion.OrderIsNeeded` | lib/inboundCallControl.js:1014-1039 | A bridge reported after the end of its leg does both: the order of reports is needed |
| `InboundExclusion.BothExactly` | lib/inboundCallControl.js:1114-1253 | Over any run of a simultaneous ring: it plays a prompt and claims a winner exactly when at some moment after a prompt a bridge is confirmed on a leg that is on the list and neither cancelled nor failed |
| `InboundExclusion.LateClaimIsEndedLeg` | lib/inboundCallControl.js:1014-1039 | After an orderly run with a prompt, the next event claims a winner exactly when it is a confirming answer on a leg whose slot was settled as not answered |
| `ManyCalls.Projects` | lib/callControlSessionStore.js:52-75 | Many calls over one store: between any two moments each call has gone through a run of its own, in which the handlers of other calls are at most losses of agent entries |
| `ManyCalls.EveryCallAgrees` | lib/callControlSessionStore.js:154-205 | So each of many calls keeps its recorded winner equal to its claim, whatever the others do |
| `ManyCalls.NoCallForgetsALeg` | lib/inboundCallControl.js:948-1004 | and in a simultaneous ring none of them forgets a leg |
| `Switchboard.Serve` | lib/inboundCallControl.js:1743-1891 | Any sequence of handlers for any calls over one store is a path of their worlds, in which the handler's call makes its event's step and the others lose agent entries at most, up to the first handler that would write the index entry of another call's leg |
| `Switchboard.Handle` | lib/callControlSessionStore.js:52-75 | The same for one handler: every call's view afterwards |
| `InboundController.Controller.OthersOnlyLose` | lib/callControlSessionStore.js:369-464 | What a handler of one call does to the view of another: nothing, or the loss of agent entries |
| `InboundHunt.TargetsDialledInOrder` | lib/inboundCallControl.js:1255-1333 | Sequential ringing: over a whole run targets are dialled in strictly increasing order, so each at most once |
| `InboundHunt.HuntStops` | lib/inboundCallControl.js:1255-1333 | The hunt ends at the first target that the carrier accepts, ringing there, or in the fallback prompt when there is none, and has dialled exactly the dialable targets up to there |
| `InboundCommands.DialsExactly` | lib/inboundCallControl.js:881-945 | A simultaneous ring dials, over its whole run, each target that has a dial string exactly once and no other, and a leg only ever exists for a target that was dialled |
| `InboundCommands.CommandsExactly` | lib/inboundCallControl.js:1041-1252 | Over a whole run: the call is recorded exactly if recording is allowed and a leg claimed it; a ring group is credited exactly if there is one and a leg claimed the call; the caller is hung up exactly if the end of the goodbye was reported, and a message recorded exactly if the end of the voicemail greeting was |
| `InboundCommands.PromptsAreRight` | lib/inboundCallControl.js:312-398 | A call with targets only ever plays the voicemail greeting where voicemail is allowed, and the goodbye where it is not |
| `InboundEndings.FallbackExactly` | lib/inboundCallControl.js:1014-1039 | A simultaneous ring that nobody answers has, once its dialling is over, played its prompt exactly if no leg rings any more |
| `InboundEndings.PromptsOnlyAtEnds` | lib/inboundCallControl.js:312-398 | Only the end of a leg or of the dialling plays a prompt, and only while no bridge is up, connecting or within its grace period |
| `InboundEndings.CallEndsExactly` | lib/inboundCallControl.js:1805-1891 | Which reports end a call: the caller's hangup or that of a leg that is off the list, connected, or on the list of a call that rings no more and is not bridged, unless the call is connecting; no other event does |
| `InboundEndings.CallerGivesUp` | lib/inboundCallControl.js:1805-1891 | When the caller of a ring gives up, every leg that rings is hung up |
| `InboundEndings.LoserIsHungUp` | lib/inboundCallControl.js:1184-1252 | A leg that answers after another has claimed the call is hung up and written off, and the claim stays |
| `InboundEndings.AnswerBridgesCaller` | lib/inboundCallControl.js:1114-1183 | An answer before the bridge bridges a parked caller to that leg and starts the grace period |
| `InboundEndings.WinnersAgentIsActive` | lib/inboundCallControl.js:1084-1104 | The agent of the winning leg's target becomes the active one of the call |
| `InboundEndings.HuntResumes` | lib/inboundCallControl.js:1730-1740 | The end of the ringing leg of a hunt goes on with the next targets, or plays the fallback when there is none |
| `InboundEndings.LegEndsItsSlot` | lib/inboundCallControl.js:1014-1039 | When a leg of a ring ends, by its dial or by its call, its slot is settled as not answered, and the fallback is played exactly if no leg rings any more and none has answered |
| `InboundEndings.HangupOfListed` | lib/inboundCallControl.js:1805-1891 | The hangup of a listed leg is ignored during the grace period, and in a call that another leg holds it settles the leg's slots as cancelled and changes nothing else |
| `InboundEndings.BridgedStays` | lib/inboundCallControl.js:1068-1104 | A bridged call stays bridged until it ends, but for an agent's accept and the end of a prompt |
| `InboundEndings.AgentRings` | lib/inboundCallControl.js:815-879 | Once the carrier has accepted a dial the target's agent has a pending ring, and nothing else changes |
| `InboundEndings.NoTargets` | lib/inboundCallControl.js:1255-1278 | A call without targets plays its prompt: the fallback, or the goodbye in a hunt, after answering a parked caller |
| `InboundRing.RegisterExactly` | lib/inboundCallControl.js:948-1004 | A dial that comes back fills its target's slot: failed without a leg, ringing and indexed while nobody has won, cancelled and hung up afterwards |
| `InboundAnswers.AnswerWins` | lib/inboundCallControl.js:1114-1253 | The first confirmed bridge of a leg that counts wins the call: every field of the record names that leg, its slot has answered, and every other leg that rang is cancelled and hung up |
| `InboundAnswers.AnswerAfterWin` | lib/inboundCallControl.js:1184-1234 | A further bridge of the winner, or the paired bridge of the other leg, issues nothing, keeps claim and list, and leaves the call bridged |
| `InboundAnswers.AnswerOfHolder` | lib/inboundCallControl.js:1120-1140 | A report of the leg that holds a bridged call changes nothing |
| `InboundAnswers.AnswerUncounted` | lib/inboundCallControl.js:1142-1160 | An answer of a leg that is off the list or written off changes the stage at most |
| `InboundAnswers.AnswerOffList` | lib/inboundCallControl.js:1743-1803 | `call.answered` of a leg off the list is dropped |
| `InboundAnswers.TapExactly` | lib/inboundCallControl.js:764-802 | An agent's accept makes the call connecting exactly while her phone rings for it |
| `InboundMissed.MissedExactly` | lib/inboundCallControl.js:312-398 | Over every run of a call with targets a missed call is noted once with every prompt played if the call rings a group, and never if it does not |
| `CallState.FindLeg` | lib/inboundCallControl.js:630-633 | The first slot that holds the leg |
| `CallState.MarkLeg` | lib/inboundCallControl.js:647-653 | Every slot holding the leg gets the status; legs, targets and the other slots stay |
| `CallState.CancelPending` | lib/inboundCallControl.js:687-722 | The slots that ring, have a leg and are not kept become cancelled, everything else stays, and none such is left |
| `CallState.HangupsForExact` | lib/inboundCallControl.js:687-722 | A hangup is issued for exactly the legs of those slots |
| `SessionStore.Store.ClaimConnectedLeg` | lib/callControlSessionStore.js:154-205 | The first caller gets the claim; later ones learn whether they hold it already or lost, and the claim is unchanged |
| `SessionStore.Store.ClaimAnswerSideEffects` | lib/callControlSessionStore.js:208-224 | True exactly the first time for a call and leg |
| `SessionStore.Store.IndexOutboundLeg` | lib/callControlSessionStore.js:238-249 | The leg now names the call, other entries stay |
| `SessionStore.Store.IndexPendingAgentRing` | lib/callControlSessionStore.js:369-386 | The agent now has this pending ring, other entries stay |
| `SessionStore.Store.IndexActiveAgentCall` | lib/callControlSessionStore.js:413-440 | The agent now has this active call, other entries stay |
| `SessionStore.Store.ClearAgent` | lib/callControlSessionStore.js:401-464 | Both entries of one agent go, other agents' stay |
| `SessionStore.Store.ClearSessionClaims` | lib/callControlSessionStore.js:77-109 | The call's claim, the index entries of its legs and its side-effect claims for them go, and nothing else |
| `SessionStore.Store.CollectLegIds` | lib/callControlSessionStore.js:77-95 | The legs on the list together with the connected and the primary leg |
| `SessionStore.Store.DeleteSession` | lib/callControlSessionStore.js:111-135 | The session goes with all its claims, other calls' stay |
| `SessionStore.Store.FindSession` | lib/callControlSessionStore.js:262-343 | Index first, then the payload link, then the scan: the result is the call each step names, and nothing is found only if all three find nothing |
| `InboundController.Controller.EnsurePstnAnsweredForMedia` | lib/inboundCallControl.js:268-280 | Answers the parked caller once, before media (new state, commands and claims equal the rule; the rest of the store stays) |
| `InboundController.Controller.HasActiveWinner` | lib/inboundCallControl.js:223-239 | Whether a bridge is up, a leg holds the claim, or the bridge grace period runs (new state, commands and claims equal the rule; the rest of the store stays) |
| `InboundController.Controller.RouteToVoicemailOrHangup` | lib/inboundCallControl.js:312-398 | Nothing with a winner or during the grace period; otherwise answer if parked, then the voicemail or the goodbye prompt (new state, commands and claims equal the rule; the rest of the store stays) |
| `InboundController.Controller.MarkSessionConnecting` | lib/inboundCallControl.js:1068-1082 | The stage moves to connecting unless it is connecting or bridged already (new state, commands and claims equal the rule; the rest of the store stays) |
| `InboundController.Controller.MarkSessionBridged` | lib/inboundCallControl.js:1084-1104 | Stage, winner, connected and primary leg are set together, and the agent's active entry (new state, commands and claims equal the rule; the rest of the store stays) |
| `InboundController.Controller.ApplyAnswerSideEffectsOnce` | lib/inboundCallControl.js:1041-1066 | Starts the recording if this leg's effects were not claimed (new state, commands and claims equal the rule; the rest of the store stays) |
| `InboundController.Controller.CancelLegs` | lib/inboundCallControl.js:687-722 | Hangs up and marks exactly the ringing legs that are not kept (new state, commands and claims equal the rule; the rest of the store stays) |
| `InboundController.Controller.SettleSlots` | lib/inboundCallControl.js:1237-1244 | The winner's target becomes active, its slot answered, the others stop ringing (new state, commands and claims equal the rule; the rest of the store stays) |
| `InboundController.Controller.WinCall` | lib/inboundCallControl.js:1235-1252 | What the first claimant does, in order: bridged, race settled, effects, ring group answer (new state, commands and claims equal the rule; the rest of the store stays) |
| `InboundController.Controller.ClaimCall` | lib/inboundCallControl.js:1184-1252 | Winner, duplicate winner, paired bridge and lost race (new state, commands and claims equal the rule; the rest of the store stays) |
| `InboundController.Controller.OnOutboundLegAnswered` | lib/inboundCallControl.js:1114-1253 | The whole answer handler, with its early returns (new state, commands and claims equal the rule; the rest of the store stays) |
| `InboundController.Controller.HandleAnswer` | lib/inboundCallControl.js:1743-1803 | The three webhooks that end in it; `call.answered` is dropped for legs not on the list (new state, commands and claims equal the rule; the rest of the store stays) |
| `InboundController.Controller.MarkAgentWebRtcAccepted` | lib/inboundCallControl.js:764-802 | Stage connecting, whatever it was, when the agent has a pending ring (new state, commands and claims equal the rule; the rest of the store stays) |
| `InboundController.Controller.DialAllTargetsSimultaneously` | lib/inboundCallControl.js:881-945 | Reserves one slot per target and issues one dial per dialable target, or falls back (new state, commands and claims equal the rule, whose dials are those of `InboundCommands.DialsExactly`; the rest of the store stays) |
| `InboundController.Controller.RegisterOutboundDialResult` | lib/inboundCallControl.js:948-1004 | A finished dial: dropped without a session, hung up after a winner, else entered and indexed (new state, commands and claims equal the rule; the rest of the store stays) |
| `InboundController.Controller.FinishSimultaneousDialling` | lib/inboundCallControl.js:930-945 | After all dials: when no slot rings and nobody holds the claim, the fallback (new state, commands and claims equal the rule; the rest of the store stays) |
| `InboundController.Controller.DialNextTarget` | lib/inboundCallControl.js:1255-1333 | The recursive hunt with its skips (new state, commands and claims equal the rule; the rest of the store stays) |
| `InboundController.Controller.SkipTarget` | lib/inboundCallControl.js:1280-1333 | On to the next target, or the fallback (new state, commands and claims equal the rule; the rest of the store stays) |
| `InboundController.Controller.GiveUp` | lib/inboundCallControl.js:1280-1333 | After the last target: the advanced index is stored only when the fallback saves the session (new state, commands and claims equal the rule; the rest of the store stays) |
| `InboundController.Controller.RingNext` | lib/inboundCallControl.js:1730-1740 | A sequential leg ended: store the next index and dial it, or fall back (new state, commands and claims equal the rule; the rest of the store stays) |
| `InboundController.Controller.HandleSimultaneousLegEnded` | lib/inboundCallControl.js:1014-1039 | Marks the leg; the fallback only when every slot is settled and none answered (new state, commands and claims equal the rule; the rest of the store stays) |
| `InboundController.Controller.HandleDialEnded` | lib/inboundCallControl.js:1686-1741 | Ignored when answered, won or not ringing; else as the ring mode says (new state, commands and claims equal the rule; the rest of the store stays) |
| `InboundController.Controller.CleanupInboundSession` | lib/inboundCallControl.js:724-741 | The session and everything that names it go (new state, commands and claims equal the rule; the rest of the store stays) |
| `InboundController.Controller.HandleCallerHangup` | lib/inboundCallControl.js:1805-1891 | Ignored while connecting; cancels the ringing legs of a race, then cleans up (new state, commands and claims equal the rule; the rest of the store stays) |
| `InboundController.Controller.HandleLegHangup` | lib/inboundCallControl.js:1805-1891 | The branches for a listed, a losing and an unlisted leg (new state, commands and claims equal the rule; the rest of the store stays) |
| `InboundController.Controller.HandleSpeakEnded` | lib/inboundCallControl.js:1615-1652 | After a goodbye the caller is hung up, after the voicemail prompt recorded (new state, commands and claims equal the rule; the rest of the store stays) |
| `TransferResults.TransferInvariant` | lib/callTransferControl.js:598-703 | Over every run of a call with its transfers: completed iff the caller was bridged to the target, agent released only when completed, destination leg never the caller's or the agent's, at most one transferring and it is the indexed one |
| `TransferResults.StageIsHistory` | lib/callTransferControl.js:598-703 | A transfer is completed exactly when some event of the run joined the caller to its target while it ran, failed exactly when one ended it first, and running exactly when neither happened; `TransferHistory.StageIsTold` says in webhooks which events those are |
| `TransferHistory.StageIsTold` | lib/callTransferControl.js:598-703 | The stages in webhooks alone: a transfer is completed exactly when, while it ran, a bridged webhook found it that was of the leg last named as its target, or of the caller's leg after an answered webhook of the target (of the leg so named then, or tagged with the transfer and not of the agent's leg); failed exactly when the target's leg hung up or the command was refused first; running otherwise |
| `TransferHistory.ReleaseIsTold` | lib/callTransferControl.js:433-472 | The agent is released exactly when a hangup of the agent's leg found the completed transfer; the call is then over for good |
| `TransferHistory.ReleaseClosesCall` | lib/callTransferControl.js:433-472 | The release removes the call's record and claim, the index and side-effect entries of exactly its legs, the pending rings of its agents and the active entry of the agent who transferred it |
| `TransferHistory.UntakenIsInbound` | lib/callTransferControl.js:598-703 | A webhook that no transfer takes does to the call exactly what the corresponding event does to a call without transfers |
| `TransferHistory.AskExactly` | lib/callTransferControl.js:504-596 | Asking starts a transfer exactly when the destination is good, the agent is on the bridged call and no transfer of it runs; the new record is of the caller's leg, from the call's winner, by that agent, and has no target yet |
| `TransferResults.TerminalAbsorbs` | lib/callTransferControl.js:32-66 | From a terminal stage on, nothing of the record changes but the note that the agent was released |
| `TransferResults.FailingStepSparesCall` | lib/callTransferControl.js:474-498 | The step that fails a transfer changes nothing of the call session but its transfer marker |
| `TransferResults.FailedTransferRestoresCall` | lib/callTransferControl.js:474-498 | A transfer asked for and failed leaves the call as it was before, marker aside, and another may be asked for |
| `TransferErasure.TransfersErase` | lib/callTransferControl.js:598-703 | Take out of a run what its transfers took and start it without any: as long as none was completed, the call ends up the same, marker aside |
| `TransferErasure.FailuresLeaveNothing` | lib/callTransferControl.js:474-498 | After failed transfers only, an agent may ask for a transfer exactly when she might had there been none, and the call is as without them |
| `TransferResults.MayInitiateExactly` | lib/callTransferControl.js:513-560 | A transfer may start exactly when the agent's call is bridged and no transfer of it is running |
| `TransferResults.StepRecord` | lib/callTransferControl.js:303-334 | What one event can do to one transfer record, by whether it bridges, fails or concerns it |
| `TransferDesk.TransferControl.TransitionTransferStage` | lib/callTransferControl.js:303-334 | Succeeds exactly from idle to transferring or cancelled and from transferring to completed, failed or cancelled; otherwise nothing changes |
| `TransferDesk.TransferControl.FindTransferSessionForPayload` | lib/callTransferControl.js:360-408 | The record the client state names, else the first in insertion order that runs in the webhook's call session or has its leg as caller, agent or target |
| `TransferDesk.TransferControl.FinalizeTransferFailure` | lib/callTransferControl.js:474-498 | The record becomes failed and the session's transfer marker is cleared; a terminal record stays |
| `TransferDesk.TransferControl.FinalizeTransferSuccess` | lib/callTransferControl.js:433-472 | Completed, agent entries released, the call session closed |
| `TransferDesk.TransferControl.InitiateBlindTransfer` | lib/callTransferControl.js:504-596 | The refusals, and the new running record with its index and marker |
| `TransferDesk.TransferControl.HandleTransferCallControlEvent` | lib/callTransferControl.js:598-703 | The whole event handler, and whether the event is consumed, as its rule says; what the rule does over a run is `TransferHistory.StageIsTold` |
| `NumberOrders.FulfillNumberOrder` | lib/billing.js:297-410 | Each number is tried once and ends on exactly one of the two lists; the order closes by them |
| `NumberOrders.ClosingStatusMeans` | lib/billing.js:385-391 | Fulfilled iff every purchase went through, failed iff there were some and none did, else partial |
| `NumberOrders.ChosenSplits` | lib/billing.js:318-383 | No number is lost or doubled between purchased and failed |
| `Fulfilment.OneFulfilment` | lib/billing.js:428-454 | However many completions and cancellations interleave at each database statement, at most one completion is in the purchase loop at a time and the closing status is written at most once; that PAID is itself claimable is in `Fulfilment.ClosesExactly` |
| `Fulfilment.ClosesExactly` | lib/billing.js:428-555 | In any reachable state an order can still be closed, as fulfilled, partial or failed, if and only if somebody is buying, or its status is none of FULFILLED, PARTIAL, FAILED, CANCELLED and the lock row is free or held; so also when a purchase that threw has left it PAID |
| `Fulfilment.LeftOverExactly` | lib/billing.js:440-555 | Whatever an attempt runs into it gives its lock back: over every run a lock row is left over exactly if the deletion of one failed, an error the code swallows |
| `Fulfilment.AttemptExactly` | lib/billing.js:447-454 | One statement of a completion: it claims exactly the orders that are neither fulfilled, partial, failed nor cancelled, and only a closing status ends its purchase |
| `Fulfilment.ClosingStatusStays` | lib/billing.js:456-555 | After the closing write the status is that one or CANCELLED; a fulfilled or partial order keeps it unless a cancellation had read it earlier |
| `Fulfilment.ProcessedStaysExactly` | lib/billing.js:954-979 | A fulfilled or partial order keeps its status over every continuation if and only if it has it and no cancellation that has read the order is about to write |
| `Fulfilment.CancellationCanOverwrite` | lib/billing.js:954-979 | Such a cancellation does overwrite a fulfilled order |
| `BankOrders.NothingUnpaid` | lib/billing.js:855-1101 | Over every run of the bank-order operations, each atomic, a fulfilled or partial bank order is approved or an administrator's own |
| `BankOrders.OnOrderPaid` | lib/billing.js:855-1101 | One operation neither makes an order unpaid nor takes a processed status back |
| `BankOrders.ProcessedStays` | lib/billing.js:855-1101 | Over every run a fulfilled or partial order keeps that status |
| `BankOrders.FulfillableExactly` | lib/billing.js:855-1067 | After any run an order can still be fulfilled if and only if it is neither failed nor partial nor cancelled, and one approval whose purchases go through is then enough, also for an order that is PAID already |
| `BankOrders.CheckerStaysSilent` | lib/revenueProtection.js:269-285 | So the UNPAID_FULFILLMENT query returns no order in any reachable state |
| `BankOrders.CheckerSees` | lib/revenueProtection.js:269-285 | For any order table: the query returns exactly the unpaid orders that have a reference (`notIn` never matches NULL) |
| `BankOrders.IntegrityChecker.FindUnpaid` | lib/revenueProtection.js:269-277 | The query: each matching order once |
| `BankOrders.IntegrityChecker.FindOpen` | lib/revenueProtection.js:288-295 | Whether an unresolved alert for the order exists |
| `BankOrders.IntegrityChecker.Check` | lib/revenueProtection.js:278-302 | Afterwards exactly the orders found and those alerted before have an open alert; none has two, old rows stay |
| `BankOrders.OrderDesk.CreateManualOrder` | lib/billing.js:732-785 | Three refusals, else one new order awaiting payment |
| `BankOrders.OrderDesk.RecordAdminDirectOrder` | lib/billing.js:1183-1239 | An administrator's purchase with its status, review and reference |
| `BankOrders.OrderDesk.UploadOrderPaymentProof` | lib/billing.js:981-1021 | Accepted exactly for a bank order of the caller's tenant that awaits payment and is not approved; another tenant's is forbidden; then under review and awaiting payment, else unchanged |
| `BankOrders.OrderDesk.RejectBankPayment` | lib/billing.js:1069-1101 | Accepted exactly for a bank order that is neither fulfilled nor partial, which becomes cancelled and rejected |
| `BankOrders.OrderDesk.CancelManualOrder` | lib/billing.js:954-979 | Accepted exactly for an order that is neither fulfilled nor partial, for any payment method, which becomes cancelled |
| `BankOrders.OrderDesk.ConfirmManualOrderAndFulfill` | lib/billing.js:855-952 | Buys exactly an approved bank order that is neither fulfilled, partial, failed nor cancelled (so a PAID one too), and closes it by how many purchases went through; each refusal exactly in its case, with the order unchanged |
| `BankOrders.OrderDesk.ApproveBankPayment` | lib/billing.js:1023-1067 | The approval is written whatever the status, then the confirmation runs |
| `BankRaces.UnapprovedExactly` | lib/billing.js:855-1101 | With approvals, confirmations, cancellations, uploads and rejections interleaving at each statement: at most one confirmation buys at a time; each closing write but the first follows an upload written on a closed order; and a processed order lacks approval exactly when an upload or a rejection was written under a confirmation that had read the approval, with no approval written since. The integrity check reports exactly those of them with a reference of their own |
| `BankRaces.ConfirmationAlone` | lib/billing.js:855-952 | The statements of a confirmation that gets the lock and does not throw, with nothing in between, are the atomic confirmation of `BankOrders` |
| `BankRaces.UploadAlone` | lib/billing.js:981-1021 | The two statements of an upload of the order's own tenant with nothing in between are the atomic upload |
| `BankRaces.RejectionAlone` | lib/billing.js:1069-1101 | The same for a rejection |
| `BankRaces.CancellationAlone` | lib/billing.js:954-979 | and for a cancellation |
| `BankRaces.ClosesAgainExactly` | lib/billing.js:428-454 | From any state: no continuation writes a closing status once more if and only if a lock row is left over that no confirmation will remove, or nobody is buying, the status allows no claim and no upload is about to write |
| `BankRaces.GuardedWritesSuffice` | lib/billing.js:981-1101 | If an upload were written only where its check still holds, and a rejection only where its check holds and there is no lock row, no order would be unpaid or closed twice |
| `BankRaces.RejectionRace` | lib/billing.js:1069-1101 | A rejection written during the purchase leaves a fulfilled order rejected |
| `BankRaces.UploadRace` | lib/billing.js:981-1021 | So does an upload whose check preceded the approval leave one under review |
| `BankRaces.ReopenRace` | lib/billing.js:981-1021 | An upload written after the closing write lets the order be bought and closed again |
| `BankRaces.CheckerMisses` | lib/revenueProtection.js:269-285 | Runs end in an unpaid order that the integrity check misses, having no reference, and in one that it reports |
| `OwnershipResults.OwnershipInvariant` | lib/extensionOwnership.js:351-475 | Over every run of the operations `phone.extensionId` and `extension.primaryPhoneNumberId` are inverse and within one tenant; with guarded reactivations no employee holds two active extensions |
| `OwnershipResults.ReactivationExactly` | lib/extensions.js:440-487 | Reactivating by status alone keeps one active extension per employee if and only if no other active extension has that employee |
| `OwnershipResults.ReactivationBreaks` | lib/extensions.js:440-487 | A run in which it breaks |
| `OwnershipResults.AvailableIsAcceptable` | lib/extensionOwnership.js:841-882 | The available list for an extension is exactly the numbers `setExtensionPrimaryDid` accepts without a move |
| `OwnershipResults.SetPrimaryEffect` | lib/extensionOwnership.js:351-475 | An accepted assignment links the two, frees what either had, and leaves every other link alone; a refused one changes nothing; with a move only missing rows refuse |
| `OwnershipResults.ReassignMoves` | lib/extensionOwnership.js:535-679 | After a reassignment the employee's only active extension is that one, and its number is hers |
| `OwnershipResults.ReleaseStaff` | lib/extensionOwnership.js:272-315 | A release takes the employee's other active extensions and nobody else's |
| `OwnershipEffects.CreateEffect` | lib/extensions.js:365-425 | In rows: a new extension is refused for an employee of another tenant; else she leaves her other active extensions with their numbers (which a clash of extension numbers does not undo), and the extension and the oldest idle number of hers point at each other, no other link changing, or nothing more changes if she has none |
| `OwnershipEffects.CreateWithNumber` | lib/extensions.js:365-425 | A number asked for on creation is then assigned exactly if it is the tenant's and no other extension has it; if not the extension stays |
| `OwnershipEffects.UpdateEffect` | lib/extensions.js:440-487 | In rows, an update with its refusals: a new employee leaves her other extensions, and the extension's number becomes hers, or the oldest idle one of hers is linked; without a new employee only user and status change |
| `OwnershipEffects.ReassignEffect` | lib/extensionOwnership.js:535-679 | The same for a reassignment |
| `OwnershipEffects.SetPrimaryExactly` | lib/extensionOwnership.js:351-475 | Exactly when an assignment is refused and why; the number's user becomes the extension's; clearing frees the extension and its number |
| `OwnershipEffects.AssignEffect` | lib/adminDidManagement.js:122-211 | In rows: a number given to a tenant is active there and, coming from another tenant, has lost its extension and user, and the extension it |
| `OwnershipEffects.UnassignEffect` | lib/adminDidManagement.js:250-283 | In rows: an unassigned number is active, without tenant, extension and user, and its extension without it |
| `OwnershipEffects.UnassignAllEffect` | lib/adminDidManagement.js:213-248 | So is every number of the tenant after an unassignment of all, and nothing else changes |
| `OwnershipEffects.StatusEffect` | lib/extensions.js:514-524 | A disabled extension keeps its employee and number; a released number keeps its link and tenant |
| `Ownership.FirstSpare` | lib/extensionOwnership.js:517-527 | The oldest unlinked number of the employee in the tenant, if there is one |
| `OwnershipTables.Tables.LoadPhone` | lib/extensionOwnership.js:247-257 | The number pointing at an extension is the one the extension points at |
| `OwnershipTables.Tables.SetExtensionPrimaryDid` | lib/extensionOwnership.js:351-475 | Row by row, never violating a unique column, to the state of `SetPrimaryDid`, with its refusals |
| `OwnershipTables.Tables.SyncPhoneNumbersForExtension` | lib/extensionOwnership.js:479-531 | The state of its rule, whose effect on every row is in `OwnershipEffects.CreateEffect`, `UpdateEffect` and `ReassignEffect`: the extension's number follows the employee, or her oldest spare number is linked |
| `OwnershipTables.Tables.ReleaseEmployeeFromOtherExtensions` | lib/extensionOwnership.js:272-315 | Every other active extension of the employee loses her and its number |
| `OwnershipTables.Tables.CreateExtensionRow` | lib/extensions.js:365-425 | Release, insert, sync, assign; an insert that fails leaves the release |
| `OwnershipTables.Tables.UpdateExtensionRow` | lib/extensions.js:440-487 | Release and update together, then sync |
| `OwnershipTables.Tables.ReassignExtensionEmployee` | lib/extensionOwnership.js:535-679 | Release, take over, carry the number along, sync |
| `OwnershipTables.Tables.DisableExtensionRow` | lib/extensions.js:514-524 | Only the status changes |
| `OwnershipTables.Tables.ClearPhoneTenantLinks` | lib/adminDidManagement.js:30-54 | Both pointers and the assigned user go |
| `OwnershipTables.Tables.AssignDidToTenant` | lib/adminDidManagement.js:122-211 | Links are cleared exactly when the number comes from another tenant |
| `OwnershipTables.Tables.UnassignDidFromTenant` | lib/adminDidManagement.js:250-283 | Cleared and back in the inventory; nothing for a number without tenant |
| `OwnershipTables.Tables.UnassignAllDidsForTenant` | lib/adminDidManagement.js:213-248 | The same for each number of the tenant |
| `OwnershipTables.Tables.ListAvailable` | lib/extensionOwnership.js:841-882 | Every available number, once |
| `DidLedger.LedgerInvariant` | lib/adminDidManagement.js:60-283 | Over every run of assign, reassign, unassign, sync, purchase, release, refresh and lookup: replaying the log yields the current tenant of every number with an entry, its entries follow on from each other, and every cached tenant owns the number |
| `DidLedger.LookupAnswers` | lib/inboundCallControl.js:406-428 | So a lookup answers the owner, with or without the cache |
| `DidLedger.UnassignEachEffect` | lib/adminDidManagement.js:213-248 | Row by row: the numbers left their tenant in this order, with one log entry each and out of the cache, and nothing else changed |
| `DidLedger.SyncEachRows` | lib/adminDidManagement.js:60-120 | Exactly the numbers that the table lacked were added, as nobody's |
| `DidLedger.EntriesNoted` | lib/adminDidManagement.js:60-120 | with one SYNCED entry for each of them |
| `DidRaces.UninterruptedIsApply` | lib/adminDidManagement.js:122-283 | Run without interruption, the statements of a lookup, assignment, purchase, unassignment, release or refresh are the operation as a whole |
| `DidRaces.StepCaches` | lib/tenantCache.js:19-85 | The cache has a number after a statement exactly if the statement wrote its entry, or it was there and the statement did not drop it |
| `DidRaces.CachedExactly` | lib/tenantCache.js:19-85 | Over any interleaving the cache has an entry that it lacked exactly when some statement wrote it and none after it dropped it |
| `DidRaces.CachedWasOwner` | lib/inboundCallControl.js:406-428 | Over any interleaving, a cached tenant, or one about to be cached, owned the number at some moment of the run |
| `DidRaces.UnassignRacesExactly` | lib/adminDidManagement.js:250-283 | An unassignment drops the entry and then writes the row; with any statements of any operations before, between and after them, those that straddle the row write included, and as long as nobody is given the number again: cache and row agree on the number if and only if it has no entry, that is, every statement since that wrote the entry was followed by one that dropped it |
| `DidRaces.StraddlingRaces` | lib/inboundCallControl.js:406-428 | A lookup or an assignment that has used the row before an unassignment and caches its owner after it leaves a stale entry |
| `DidRaces.RefillsAreRaces` | lib/adminDidManagement.js:250-283 | So does, for an active number, each of lookup, refresh, assignment and purchase run between the two statements |
| `DidDesk.Desk.AssignDidToTenant` | lib/adminDidManagement.js:122-211 | Each refusal exactly in its case; else the row and the cache name the tenant, and the log gains one ASSIGNED entry, or UNASSIGNED and REASSIGNED when the number comes from another tenant |
| `DidDesk.Desk.UnassignDidFromTenant` | lib/adminDidManagement.js:250-283 | Cache, row, log entry; nothing for a number without tenant |
| `DidDesk.Desk.UnassignAllDidsForTenant` | lib/adminDidManagement.js:213-248 | No number of the tenant is left, one log entry each |
| `DidDesk.Desk.SyncTelnyxDids` | lib/adminDidManagement.js:60-120 | Missing numbers are added once and logged; the three counts partition the table |
| `DidDesk.Desk.CountRows` | lib/adminDidManagement.js:99-109 | The released and the assigned count are those of the table |
| `DidDesk.Desk.BuyAndAssignNumber` | lib/buyNumber.js:37-139 | Another tenant's number is refused, a free one assigned, an own one re-cached, a new one created without log entry, each exactly in its case |
| `DidDesk.Desk.ReleasePhoneNumber` | lib/adminNumbers.js:164-183 | Inactive and out of the cache, tenant kept |
| `DidDesk.Desk.RefreshTenantCache` | lib/tenantCache.js:55-85 | The cache becomes exactly the active numbers with their tenants |
| `DidDesk.Desk.ResolveTenant` | lib/inboundCallControl.js:406-428 | From the cache, else from the table, which fills the cache |
| `RingOrder.SortIsStable` | lib/ringGroupRouter.js:17-31 | The sort orders, is a permutation and keeps members with equal keys in their order |
| `RingOrder.OneStableOrder` | lib/ringGroupRouter.js:17-24 | There is only one such arrangement |
| `RingOrder.OrderIsPermutation` | lib/ringGroupRouter.js:26-35 | Every strategy rings exactly the active members |
| `RingOrder.OrderExactly` | lib/ringGroupRouter.js:17-35 | The order in the members' columns: each active member as often as it is in the group, lower priority numbers first, or by idleness whoever answered longer ago (or never) first and then by priority |
| `RingOrder.RoundRobinTurns` | lib/ringGroupRouter.js:11-35 | Round robin rings the members in order of priority from the pointer's turn on, all the way round |
| `RingOrder.RemainderLaws` | lib/ringGroupRouter.js:11-15 | The doubled JavaScript remainder is the mathematical one, for any pointer |
| `RingOrder.HeadOfTurn` | lib/ringGroupRouter.js:11-15 | After k answered round-robin calls the member at pointer + k is rung first, whoever answered |
| `RingOrder.RoundRobinIsFair` | lib/ringGroups.js:385-408 | n consecutive answered calls ring each of the n active members first exactly once |
| `RingOrder.LongestIdleRotates` | lib/ringGroupRouter.js:17-24 | When the head answers, at a later time than all before, the order rotates by one |
| `RingOrder.LongestIdleIsFair` | lib/ringGroupRouter.js:17-24 | After k such calls, up to a round, the order is the first one rotated by k |
| `Money.CalculateCartPricing` | lib/billing.js:106-137 | The rounded totals of the cart |
| `Money.BuildSubscriptionLineItems` | lib/billing.js:161-203 | One recurring line per number and a one-time line where there is something to charge, as its rule says; which amounts recur is `Money.MonthlyLineOfEach` and `Money.ChargesMatchCart` |
| `Money.RatesAreWhole` | lib/billing.js:44-90 | Fees are whole cents |
| `Money.LinesMatchCart` | lib/billing.js:106-203 | For any prices Stripe's total and `dueToday` differ by the surplus of the lines and at most n + 1/2 cents |
| `Money.LinesMatchCartExactly` | lib/billing.js:106-203 | For whole-cent prices Stripe charges at least `dueToday`, and exactly that iff the cart is empty or the first month costs no less than the others and no one-time amount is negative |
| `Money.MonthlyLineOfEach` | lib/billing.js:161-203 | Exactly one line per item is charged every month, the i-th for the i-th item's carrier price and the platform's |
| `Money.ChargesMatchCart` | lib/billing.js:106-203 | What Stripe charges every month is the cart's `recurringMonthly` within n/2 + 1/2 cents, and what it charges once is `dueToday` less that month plus the surplus within n/2 + 1 cents, for any prices |
| `Money.ChargesMatchCartExactly` | lib/billing.js:106-203 | Both are exact for whole-cent prices |
| `Money.SharesNearTotal` | lib/marginAnalytics.js:37-53 | n times the split price is within n/2 + 3/2 cents of the total charged |
| `Money.RoundTripExactly` | lib/razorpayBilling.js:26-36 | USD to paise and back is the identity on all whole cents if and only if the rate is at least one |
| `Money.RateBelowOne` | lib/razorpayBilling.js:30-36 | For any rate below one an amount that does not survive |
| `RefreshTokens.TokensCovered` | lib/refreshTokens.js:20-36 | Over every run every live token is in its user's index, whose expiry covers it |
| `RefreshTokens.RevokeAllIsFinal` | lib/refreshTokens.js:74-98 | Revoking all tokens of a user makes each one issued before unrotatable for good |
| `RefreshTokens.RevokeAllSpares` | lib/refreshTokens.js:74-98 | and leaves other users' tokens |
| `RefreshTokens.RotationIsSingleUse` | lib/refreshTokens.js:106-113 | A rotation answers the owner, trades the token for its successor, touches no other, and never works twice |
| `RefreshTokens.LifetimeExactly` | lib/refreshTokens.js:20-36 | Over every run an issued token answers its user for exactly thirty days, unless it is revoked or rotated or all of the user's tokens are revoked, and nobody afterwards |
| `RefreshTokens.SplitRevocation` | lib/refreshTokens.js:74-98 | With any operations between the two commands of a revocation: every member read is dead afterwards; no good token of the user is left exactly when every one that is good by then was among the members read; and every good token is in its index exactly then, or when no member was read and nothing done |
| `RefreshTokens.SplitRevocationIsFinal` | lib/refreshTokens.js:74-98 | Tokens good when the members were read never become good again |
| `RefreshTokens.MissedAreIssuedBetween` | lib/refreshTokens.js:74-104 | The tokens it misses are exactly those issued to the user in between that are still good |
| `RefreshTokens.RevokeAllRace` | lib/refreshTokens.js:74-98 | A token issued in between survives outside every index, and later revocations miss it too |
| `RefreshTokens.LiveExactly` | lib/refreshTokens.js:38-98 | Over any interleaving of commands a good token that is not drawn anew stays good, with its owner, exactly as long as nothing removes it: its expiry, a revocation, a rotation, or the deletion of members read with it among them |
| `RefreshTokens.RotationSucceedsExactly` | lib/refreshTokens.js:106-113 | Rotations take five commands, with anything in between: one of a good token, given its turns, goes through if and only if nothing removed the token before it read, deletions by other rotations included, and for the token's owner; otherwise it is refused |
| `RefreshTokens.SuccessorIsGood` | lib/refreshTokens.js:106-113 | A rotation that went through left a successor that was good for that user when it was issued |
| `RefreshTokens.UninterruptedIsRotate` | lib/refreshTokens.js:106-113 | Run without interruption, the commands are the rotation as a whole |
| `RefreshTokens.DoubleRotation` | lib/refreshTokens.js:106-113 | Two rotations that both read the token before either deletes it go through, with two good successors |
| `RefreshTokens.TokenStore.StoreRefreshToken` | lib/refreshTokens.js:20-36 | Token and index entry with fresh expiries |
| `RefreshTokens.TokenStore.ReadRefreshToken` | lib/refreshTokens.js:38-54 | The user of a live token |
| `RefreshTokens.TokenStore.RevokeRefreshToken` | lib/refreshTokens.js:56-72 | Token and index entry go |
| `RefreshTokens.TokenStore.RevokeAllRefreshTokensForUser` | lib/refreshTokens.js:74-98 | Every indexed token and the index go |
| `RefreshTokens.TokenStore.RotateRefreshToken` | lib/refreshTokens.js:100-113 | Nothing for a dead token, else its user and the swap |
| `WebhookDedup.PruningIsInvisible` | lib/telnyxWebhookDedup.js:69-99 | With pruning every delivery is answered exactly as by a record that forgets nothing |
| `WebhookDedup.ProcessedApart` | lib/telnyxWebhookDedup.js:80-99 | Two processed deliveries of one event are at least the TTL apart |
| `WebhookDedup.NothingLost` | lib/telnyxWebhookDedup.js:80-99 | A delivery with none of its event processed within the TTL before is processed |
| `WebhookDedup.TtlSeconds` | lib/telnyxWebhookDedup.js:43-47 | The setting if it lies between a minute and a week, a week if it is more, a day without one or with less than a minute |
| `WebhookDedup.Deduplicator.PruneMemoryClaims` | lib/telnyxWebhookDedup.js:69-74 | Exactly the claims younger than the TTL stay |
| `WebhookDedup.Deduplicator.ClaimEvent` | lib/telnyxWebhookDedup.js:80-99 | Prune, then claim or refuse; no id is always processed |

## Left out

Calls:

- The greeting, menu and preamble stages before ringing starts; the model begins at `startRinging`.
- Switching between Redis and memory: the in-memory store is modelled for calls, transfers and webhooks, Redis for refresh tokens. Pruning of stale sessions is not modelled.
- InboundController.Controller.OthersOnlyLose: asks that the legs a handler names are not indexed to another call; the carrier gives each leg its own id, and `Switchboard.Serve` stops where it would not.
- Switchboard.Serve: every call has started to ring before, and each event comes with the call it belongs to.
- A handler is one step; a dial is four (requested, created, returned, registered). A dial that errors created no leg, and an accepted one always names its leg.
- Forwarding rules of extensions on no answer or busy: the fallback rule is modelled as if none applied.
- Exclusion of voicemail and bridge in sequential ringing: `handleDialEnded` does not check which leg ended.
- A hangup of a leg that is on no list, found through the payload's links, cleans up the call; the model keeps that.
- InboundController.Controller.SaveSlots: a helper that stores the list of legs, stated as far as the other methods need it.
- Transfers are modelled for one inbound call; the audit of the transferred call and the expiry of records are not modelled.
- TransferResults.FailedTransferRestoresCall: only events of that transfer happen between the request and its failure, because the call may change for other reasons; `TransfersErase` is the form for any run.

Orders:

- Stripe, Razorpay and the carrier: their answers are arguments. Razorpay fulfilment imports functions that are not exported, so only its conversions are modelled.
- BankOrders.NothingUnpaid: each operation is one step; `BankRaces` has what holds when they are not.
- The direct edit of an order's payment reference by an administrator (`routes/admin.js`), which can make the integrity check report an administrator's own purchase, and the repair job that approves old orders.
- Invoices, receivables, mail, and the other queries of the integrity check.

Numbers:

- Ownership.Perform: extension numbers, display names, devices, routing types, credentials and audit entries are not modelled; rows are numbered in order of creation, which stands for `createdAt`.
- Deleting extensions and organizations, the reset job of an organization, and the writers under `lib/v3/`.
- `assignedUserId` after a number is released: the code does not keep it in agreement.
- DidRaces.UnassignRacesExactly: an unassignment of all numbers of an organization is a series of those; synchronizing touches no entry and is one step; the refresh is the one of the in-memory cache, and the time to live of cached entries is not modelled.

Supporting:

- Money.SharesNearTotal: over exact reals with the rounding of the source; binary floating point is not modelled, and prices that do not parse count as zero before the model begins.
- RingOrder.RoundRobinIsFair: the members stay the same over the calls.
- RingOrder.LongestIdleIsFair: each call is answered by the member it rings first, at a later time than the one before.
- RefreshTokens.TokensCovered: each operation is one step. For `RotationSucceedsExactly` rotations and revocations of all tokens are split into their commands, but issuing a token and revoking a single one are one step each.
- RefreshTokens.RevokeAllIsFinal: tokens are taken to be drawn without repetition, and hashes to be injective; the in-memory variant of the token store is not modelled.
- Ring targets are the members' order only; resolving a member to its devices is not modelled.
