# OpenKedge: a verified model

This project models three connected parts of OpenKedge and proves what they promise.

**The evidence store and temporal admission.** The log is the sequence of committed events
(`Log.dfy`). `InMemoryIEECStore` is a class with the source's maps and sorted indexes, and every
query is proved to answer exactly like a filter over the latest record of each proposal
(`Index.dfy`, `Store.dfy`); transactions see their own pending events and commit or vanish whole.
The SQL store is a table of rows with the same queries, and both stores agree on every append and
every query (`Sql.dfy`). On top stand rule evaluation (`Temporal.dfy`) and
`TemporalGovernance.reserve` (`Governance.dfy`). `QuotaSafety.dfy` proves over every run that no
sliding window ever holds more than its limit, `QuotaRuns.dfy` carries that over to the runs of the
engine and of the gateways, and `Stability.dfy` shows what a contract or a capability guarantees
later, whatever else is appended.

**The dispatch protocol.** `Controller.dfy` and `ControllerRun.dfy` hold the controller's permits,
outcomes, policy epochs and draining; `Dispatch.dfy` any number of `execute` calls on any number of
gateways over one evidence log and one controller, with the contract timer settling a caller while
its work goes on. `DispatchSafety.dfy`, `DispatchReports.dfy` and `DispatchGates.dfy` hold its
invariants and `DispatchResults.dfy` what follows for every run. An answer `rejected` or `failed` is
not always final, because the timer answers while the work goes on: `DispatchWitness.dfy` gives runs
from the start in which the adapter is called afterwards, and `DispatchFinality.dfy`,
`DispatchProgress.dfy` and `DispatchAnswers.dfy` prove exactly when that can happen.
`Distribution.dfy` the gateway's side of policy distribution with crashes; `Engine.dfy` and
`Conservation.dfy` the engine's `process`; `Mutex.dfy` the promise chain that serialises
transactions. Waits separate the steps, and the theorems hold for every sequence of steps. A wait for
a reply that is only compared is one step, taken when the reply is determined, so it may be stale
when the next step comes; and the reads of one guard are one step.

**Canonical JSON, hashes and chains.** `Canonical.dfy` proves `canonicalJson` unambiguous and
independent of key order, `EventHasher.dfy` that an event hash covers every field, `Replay.dfy` that
stored chains are intact, unique and tamper-evident; `Crypto.dfy` mints and verifies tokens and
contracts.

How to read it. Hashes and signatures are free constructors over the value hashed or signed
(`Evidence.dfy`): equal hashes mean equal content, and a signature names its key and message. The
canonical-text and event-hash theorems are what makes that reading sound. JSON values compare
regardless of key order, which is what comparing canonical texts decides. Clocks, fresh ids and the
caller's work are parameters; metrics are whole numbers, as docs/temporal-invariants.md asks.
Everything starts from an empty log and one fixed list of rules.

In the state machines a step that is not enabled changes nothing, so a theorem over all sequences of
steps is a theorem over all interleavings. An awaited call that fails is a step of its own that can
happen anywhere.

## Model

| member | source | states |
|---|---|---|
| Json.ReadPath | src/core/crypto/canonical.ts:18-27 | The loop answers what the path denotes, `undefined` included, and refuses exactly the malformed paths |
| Json.DigitsInjective | src/core/crypto/canonical.ts:6 | Decimal texts determine their numbers |
| Canonical.EscapePrefixFree | src/core/crypto/canonical.ts:5 | Two escaped characters that start the same text are the same character and leave the same rest |
| Canonical.QuotedPrefixFree | src/core/crypto/canonical.ts:5 | A printed string can be split off the front of a text in one way only |
| Canonical.DigitsPrefixFree | src/control-plane/protocol.ts:16-18 | A decimal number before a non-digit can be split off in one way only |
| Canonical.PrintPrefixFree | src/core/crypto/canonical.ts:4-12 | Any printed value before a delimiter can be split off in one way only, so printing is injective |
| Canonical.SortKeepsValue | src/core/crypto/canonical.ts:8-9 | Sorting keys at every level keeps the JSON value and puts the keys in order |
| Canonical.InOrderUnique | src/core/crypto/canonical.ts:8-9 | A JSON value has just one representation with sorted keys |
| Canonical.CodeUnitLessIsUtf16 | src/core/crypto/canonical.ts:9 | The key order is the lexicographic order of the UTF-16 code units, above U+FFFF too |
| Canonical.CodeUnitOrder | src/core/crypto/canonical.ts:9 | That order is a strict total order |
| Canonical.TextIffSameValue | src/core/crypto/canonical.ts:4-12 | Under any strict total key order, two values print alike if and only if they are the same JSON value |
| Canonical.CanonicalJsonIsInjective | src/core/crypto/canonical.ts:4-12 | `canonicalJson` is unambiguous and independent of the order in which keys were inserted |
| EventHasher.HashCoversEvent | src/core/event/EventHasher.ts:8-55 | With an injective digest, two events hash alike if and only if every hashed field is the same |
| Log.TraceExtends | src/core/event/trace.ts:35-43 | Over any later appends a proposal keeps its intent, action and actor, its time never goes back, and a terminal record never changes |
| Log.EachStageOnce | src/core/event/trace.ts:35-43 | A proposal is reserved, started and finished at most once each, in that order and with one intent |
| Log.LatestIsLogged | src/core/event/trace.ts:13-26 | Every latest record is the projection of a logged event of that proposal |
| Log.HashesDetermineEvents | src/core/event/InMemoryIEECStore.ts:23-25 | In an accepted history an event is determined by its id and by its hash |
| Log.LatestOfConcat | src/core/event/InMemoryIEECStore.ts:27-36 | What a transaction has changed, laid over the committed records, is the trace of the log with the pending events |
| Index.AnswersAgree | src/core/event/InMemoryIEECStore.ts:67-88 | Any two correct answers to a query are the same multiset of records |
| Index.SuccessInserted | src/core/event/InMemoryIEECStore.ts:107-113 | Inserting a success behind all not newer ones keeps the list sorted and complete |
| Index.OtherKeysKept | src/core/event/InMemoryIEECStore.ts:99-114 | A transition keeps action and actor, so the indexes of all other keys stay right |
| Index.FiledRecordIndexed | src/core/event/InMemoryIEECStore.ts:98-115 | Filing a record under its two keys keeps every index answering for the new trace |
| Index.WindowSlice | src/core/event/InMemoryIEECStore.ts:70-81 | The slice the binary search and the walk select is exactly the successful matches |
| Index.OverlayAnswers | src/core/event/InMemoryIEECStore.ts:42-46 | The committed answer without changed proposals, plus the matching changes, answers the query for both together |
| Store.InMemoryIEECStore.Commit | src/core/event/InMemoryIEECStore.ts:90-116 | All six fields go on answering for the log with the event appended |
| Store.InMemoryIEECStore.FileRecord | src/core/event/InMemoryIEECStore.ts:98-115 | Both indexes answer for the trace with the new record |
| Store.InMemoryIEECStore.QueryTrace | src/core/event/InMemoryIEECStore.ts:67-88 | The answer is, without repetition, exactly the latest records of all proposals that match the query |
| Store.InMemoryIEECStore.SuccessesInWindow | src/core/event/InMemoryIEECStore.ts:69-81 | Binary search and walk return exactly the matching successes |
| Store.InMemoryIEECStore.ReservationsUntil | src/core/event/InMemoryIEECStore.ts:82-86 | Exactly the entries stamped in time, in any iteration order |
| Store.Transaction.Append | src/core/event/InMemoryIEECStore.ts:21-31 | Succeeds exactly when the store would accept the event after the pending ones, and then adds just that event; a refusal adds nothing |
| Store.Transaction.GetEventsByIntent | src/core/event/InMemoryIEECStore.ts:32-35 | Answers as the store would after committing the pending events |
| Store.Transaction.GetTrace | src/core/event/InMemoryIEECStore.ts:36 | Answers as the store would after committing the pending events |
| Store.Transaction.GetTraceByHash | src/core/event/InMemoryIEECStore.ts:37-41 | Answers as the store would after committing the pending events |
| Store.Transaction.QueryTrace | src/core/event/InMemoryIEECStore.ts:42-46 | Answers as the store would after committing the pending events |
| Store.Transaction.Commit | src/core/event/InMemoryIEECStore.ts:48-52 | The log becomes the committed events followed by the pending ones, in order, and the transaction is closed |
| Store.Transaction.Abort | src/core/event/InMemoryIEECStore.ts:48-52 | A throwing transaction changes no field of the store |
| Sql.TopIsPrior | src/core/event/SqlEventStore.ts:52-53 | The row with the highest sequence of an intent holds its last event |
| Sql.TopIsLatest | src/core/event/SqlEventStore.ts:65-68 | The newest row with a status holds the proposal's latest record |
| Sql.NewestIffCurrent | src/core/event/SqlEventStore.ts:80-82 | `NOT EXISTS` a newer traced row holds exactly for the latest records |
| Sql.QueryAnswers | src/core/event/SqlEventStore.ts:73-87 | The union of the status clauses answers exactly like the filter over the latest records, without repetition |
| Sql.StoresAgreeOnQuery | src/core/event/SqlEventStore.ts:73-87 | After the same history every answer of the in-memory store and the SQL answer are the same multiset, for every query |
| Sql.StoresAgreeOnAppend | src/core/event/SqlEventStore.ts:51-60 | After the same history both stores accept and refuse the same appends |
| Sql.SqlTransaction.Append | src/core/event/SqlEventStore.ts:51-60 | Accepts exactly what the log accepts, storing the same next event, and leaves the table alone otherwise |
| Sql.SqlTransaction.QueryTrace | src/core/event/SqlEventStore.ts:73-87 | Exactly the matching latest records |
| Replay.ValidateIntegrity | src/core/event/ReplayEngine.ts:93-128 | Valid exactly when every link and hash is right; otherwise names the first broken event |
| Replay.StoredChainsAreIntact | src/core/event/trace.ts:8-11 | Every chain built by accepted appends passes, numbered from one |
| Replay.ChainsAreUnique | src/core/event/ReplayEngine.ts:93-128 | Two chains that pass and end in the same hash are the same event for event |
| Replay.TamperingIsDetected | src/core/event/ReplayEngine.ts:93-128 | Any other chain with a stored chain's last hash fails the check |
| Temporal.TotalIsUsed | src/core/governance/temporal.ts:85 | Summing the records found is what the group has used of its window |
| Temporal.RecordsInScope | src/core/governance/temporal.ts:49-73 | Exactly the records of the query in the proposal's scope, or refusal exactly when a resource cannot be read |
| Temporal.SumOf | src/core/governance/temporal.ts:85 | The sum of the metric, or refusal exactly when a record lacks one |
| Temporal.LatestSource | src/core/governance/temporal.ts:74-78 | A source exactly when one satisfies the rule, and then a latest one |
| Temporal.EvaluateRule | src/core/governance/temporal.ts:57-91 | Passes exactly when the rule holds of the history the transaction sees |
| Temporal.EvaluateTemporalRules | src/core/governance/temporal.ts:44-100 | Allowed exactly when every rule for the action holds; the hashes name past successes; every preceding-event rule has a latest source and bounds `validBefore`, which is the bound of one of them |
| Temporal.ValidBeforeIsLeast | src/core/governance/temporal.ts:79-82 | `validBefore` is one of the preceding-event rules' bounds and none is smaller |
| QuotaSafety.TransitionNeverAdds | src/core/event/trace.ts:35-43 | Starting or finishing adds no weight to any window: same intent, no earlier stamp |
| QuotaSafety.ReservationFits | src/core/governance/temporal.ts:84-91 | An admitted reservation fits every window, past and future |
| QuotaSafety.NoWindowExceedsItsLimit | src/core/governance/TemporalGovernance.ts:102-126 | In every state of every run, for every quota and rate rule, group and window end, the uses never exceed the limit |
| QuotaRuns.EngineStepIsQuotaStep | src/core/engine/OpenKedgeEngine.ts:93-128 | What a step of the engine appends, with reservations by `reserve` and stamps from the clock, is a step the quota theorem allows |
| QuotaRuns.EngineKeepsBudgets | src/core/engine/OpenKedgeEngine.ts:33-143 | So over every such run of the engine no window ever exceeds its limit |
| QuotaRuns.GatewayStepIsQuotaStep | src/gateway/Gateway.ts:245-285 | The redemptions and completions of the gateways are steps the quota theorem allows, and so is every step of the controller |
| QuotaRuns.GatewaysKeepBudgets | src/gateway/Gateway.ts:208-302 | So over every run of the gateways, with reservations by `reserve`, no window ever exceeds its limit |
| Crypto.Dedupe | src/core/crypto/executionContracts.ts:23 | The same hashes, each once |
| Crypto.DedupeKeepsOrder | src/core/crypto/executionContracts.ts:23 | What is kept comes in the order of first occurrence |
| Crypto.MintedContractVerifies | src/core/crypto/executionContracts.ts:8-56 | A minted contract verifies if and only if the time is in its window and its preconditions hold in the log |
| Governance.TemporalGovernance.Configure | src/core/governance/TemporalGovernance.ts:20-51 | The checks and the loops over rules and actions succeed exactly on the configurations with a key of 32 bytes or more and every rule, lifetime and action valid |
| Governance.TemporalGovernance.CheckAction | src/core/governance/TemporalGovernance.ts:39-50 | The loops over bindings and required sources succeed exactly when all paths are well formed and every source is a configured READ or PROBE |
| Governance.RequiredSourcesCanMint | src/core/governance/TemporalGovernance.ts:39-50 | Whoever gets a governance knows that every source an action requires can mint: READ or PROBE, bindings, well-formed paths, a lifetime |
| Governance.CheckDistinct | src/core/governance/TemporalGovernance.ts:73-74 | True exactly when no token id occurs twice |
| Governance.CheckSources | src/core/governance/TemporalGovernance.ts:70-88 | Succeeds exactly when every token is accepted, and then returns the tokens' sources in order |
| Governance.CheckRequirements | src/core/governance/TemporalGovernance.ts:89-94 | True exactly when the required tokens and source actions are present |
| Governance.VerifyCapabilities | src/core/governance/TemporalGovernance.ts:66-96 | Succeeds exactly when all tokens are accepted, distinct and sufficient |
| Governance.AcceptedTokenAttenuates | src/core/governance/TemporalGovernance.ts:79-86 | An accepted token forces each configured payload path to equal the source's recorded result |
| Governance.EarliestExpiry | src/core/governance/TemporalGovernance.ts:114-115 | The least of the given time and all token expiries |
| Governance.WindowSound | src/core/governance/TemporalGovernance.ts:113-119 | A contract window opens now and respects the server's limits, the request, the evidence and every token |
| Governance.MintingSucceeds | src/core/governance/TemporalGovernance.ts:117-121 | After the window check minting never throws |
| Governance.TemporalGovernance.Judge | src/core/governance/TemporalGovernance.ts:105-121 | A contract for an admissible proposal with its capabilities, rules and window in order, or the first refusal and why it holds, with the evaluation of the rules |
| Governance.AdmittedReserves | src/core/governance/TemporalGovernance.ts:122-124 | The reservation of an admitted proposal is refused exactly for a used event id |
| Governance.TemporalGovernance.Reserve | src/core/governance/TemporalGovernance.ts:102-127 | Admits with a fitting reservation appended, or refuses with the log unchanged and a reason that holds |
| Stability.RecordStaysFindable | src/core/event/InMemoryIEECStore.ts:62-65 | A record that was once a proposal's latest is found by its hash ever after |
| Stability.CapabilitiesStayAccepted | src/core/governance/TemporalGovernance.ts:66-96 | Accepted capabilities stay accepted in every later log until one expires |
| Stability.ReservedContractUnlocks | src/core/governance/TemporalGovernance.ts:129-135 | In every later log a contract from `reserve` unlocks if and only if the time is between its issue and its end and its reservation is unconsumed |
| Stability.PrecedingEvidenceOutlivesContract | src/core/governance/temporal.ts:74-83 | While the contract is valid, each preceding-event rule's bound source is still successful and inside the rule's window |
| Stability.MintedTokenFits | src/core/crypto/capabilities.ts:7-62 | Against its source, a minted token fits exactly the payloads that agree on the bound paths |
| Stability.MintedTokenVerifies | src/core/governance/TemporalGovernance.ts:137-148 | In every later log until expiry a minted token is accepted if and only if the payload agrees with the recorded result |
| Stability.MintedCapabilityRoundTrip | src/core/governance/TemporalGovernance.ts:66-96 | A proposal carrying just that token passes if and only if it agrees and asks for nothing more |
| Controller.RevisionFixesEpoch | src/control-plane/protocol.ts:16-18 | Equal policy versions mean equal epochs and equal policy revisions |
| Controller.PolicyController.PruneExpired | src/control-plane/controller.ts:66 | Exactly the active permits that have run out become expired |
| Controller.PolicyController.CountActive | src/control-plane/controller.ts:67 | The number of active permits after pruning |
| Controller.PolicyController.HandleAck | src/control-plane/controller.ts:79-89 | Accepts exactly the acknowledgements of the current bundle and records them under it; any other changes nothing |
| Controller.PolicyController.HandlePermit | src/control-plane/controller.ts:90-104 | A permit is inserted exactly when the current policy allows it, alive, and for no longer than five seconds or the grant |
| Controller.PolicyController.HandleOutcome | src/control-plane/controller.ts:105-123 | The first outcome is kept; later ones are duplicates or conflicts and change nothing |
| Controller.PolicyController.FailPolicyUpdate | src/control-plane/controller.ts:143 | An update that throws lowers the pending flag and leaves the policy as it was |
| Controller.PolicyController.PollPolicyUpdate | src/control-plane/controller.ts:133-143 | Activates exactly when no permit is active, raising the epoch by one |
| ControllerRun.DoKeepsInv | src/control-plane/controller.ts:65-149 | Every step of every handler, a failing update and a restart included, keeps the invariant |
| ControllerRun.ActivePermitsAreCurrent | src/control-plane/controller.ts:90-143 | In every reachable state active permits carry the current epoch, and the epoch counts the activations |
| ControllerRun.EpochStep | src/control-plane/controller.ts:133-143 | The bundle changes only by activating a drained update, one epoch up; an update stops draining only by that, or because it fails or the controller restarts, and then the bundle stays |
| ControllerRun.OutcomesAreFinal | src/control-plane/controller.ts:105-123 | Over any run outcomes never change, permits never come back to life, and one epoch names one bundle |
| ControllerRun.DrainEnds | src/control-plane/controller.ts:133-142 | Five seconds after the last permit was inserted the next poll activates |
| ControllerRun.DrainRun | src/control-plane/controller.ts:90-143 | While one update is pending, it is activated next, or it fails or the controller restarts, or only requests gated before have inserted permits, and it activates five seconds after the last of those insertions |
| DispatchSafety.GrantMatchesStays | src/gateway/Gateway.ts:222-235 | The admitted intent and the recorded grant of a proposal never change |
| DispatchSafety.ActedMoves | src/gateway/Gateway.ts:236-302 | Every step of a call, on either side of the timer, is one the invariant allows |
| DispatchSafety.PermitMove | src/control-plane/client.ts:111-124 | A permit request keeps the permits tied to the call that asked, to its grant and to the policy in force |
| DispatchSafety.NextKeepsInv | src/gateway/Gateway.ts:208-302 | Every step of the gateways, the store and the controller keeps the invariant |
| DispatchSafety.RunKeepsInv | src/gateway/Gateway.ts:208-302 | The invariant holds in every reachable state |
| DispatchResults.AtMostOnceDispatch | src/gateway/Gateway.ts:245-267 | In every run each proposal gets at most one adapter call, also when the timer rejects first |
| DispatchResults.CallsAreBacked | src/gateway/Gateway.ts:219-252 | Every adapter call carries the operation admitted by this gateway for this caller, under the recorded grant, which unlocked at a past moment; the grant's redemption is logged no earlier than that, in the log and on the clock |
| DispatchResults.EpochFence | src/gateway/Gateway.ts:263-267 | When a call with a permit starts, the permit is active, of the current and the grant's epoch, the policy in force permits the operation, and the grant has not run out |
| DispatchResults.OutcomesMatchEvidence | src/gateway/Gateway.ts:268-285 | Every outcome the controller holds cites a logged completion of that proposal whose success matches it |
| DispatchReports.OneReportPerPermit | src/gateway/Gateway.ts:268-285 | Over every run each permit gets at most one report |
| DispatchReports.NeverConflicts | src/control-plane/controller.ts:112-118 | No report a call has sent is ever answered with a conflict, however often and late it arrives |
| DispatchResults.AnswersAreTrue | src/gateway/Gateway.ts:273-302 | An executed or validated answer means a logged success of a made call; an uncertain one that the adapter was called |
| DispatchGates.NextKeepsGates | src/control-plane/controller.ts:90-104 | Every step keeps each permit request handled once, answered at most once and tied to its call, and a controlled gateway's grant naming a policy of the past or present |
| DispatchFinality.StepStaysLost | src/gateway/Gateway.ts:245-267 | Once the condition for reaching the adapter fails it fails for good, whatever step is taken |
| DispatchFinality.RunStaysLost | src/gateway/Gateway.ts:245-267 | So no run brings the adapter back into reach |
| DispatchProgress.CanStillCallDispatches | src/gateway/Gateway.ts:245-267 | Where the condition holds there is a run in which this call reaches the adapter, once, with its operation, and under a permit exactly with a dispatch authority |
| DispatchAnswers.StillReachable | src/core/identity/IdentityManager.ts:57-67 | An unfinished call can still reach the adapter if and only if the condition holds |
| DispatchAnswers.AnswerIsFinalUnless | src/gateway/Gateway.ts:275-301 | After a rejected or failed answer without an adapter call, the adapter can still be called if and only if the proposal is still reserved or running where that is yet to be checked, and no permit is needed, or one is live, or the controller's present policy would still grant it, a pending update notwithstanding |
| DispatchAnswers.AuthorityAnswerIsFinal | src/core/identity/IdentityManager.ts:37-67 | In particular it is final with a dispatch authority when the timer is set for the end of the grant |
| DispatchAnswers.EndedWorkNeverDispatches | src/core/identity/IdentityManager.ts:57-67 | And for any gateway once the work has thrown |
| DispatchWitness.RejectedThenCalled | src/core/identity/IdentityManager.ts:57-67 | A run from the start, with and without a dispatch authority: the caller is told that the call was rejected, and the adapter is called afterwards |
| DispatchWitness.FailedThenCalled | src/gateway/Gateway.ts:275-301 | Another: the failure is logged and answered, and the adapter is called afterwards |
| DispatchProgress.GuardsPass | src/core/identity/IdentityManager.ts:33-56 | A grant that unlocks passes the five guard checks, which change nothing else |
| DispatchProgress.GrantInOrderUnlocks | src/gateway/Gateway.ts:219-245 | A call with the recorded, unlocking grant under the policy in force comes as far as the redemption, and nothing else changes |
| DispatchProgress.FromRedeeming | src/gateway/Gateway.ts:245-267 | From there a reserved grant is redeemed and the adapter called, with an authority by asking for and getting a permit |
| Distribution.NextKeepsInv | src/control-plane/client.ts:43-103 | Every step, failures and crashes included, keeps the invariant and never lowers a persisted epoch |
| Distribution.RunKeepsInv | src/control-plane/client.ts:43-103 | Over every run no gateway's persisted epoch ever decreases |
| Distribution.DistributionOrder | src/control-plane/client.ts:78-100 | At any time acknowledged epoch <= persisted epoch <= controller epoch, and cached <= persisted |
| Distribution.OneBundlePerEpoch | src/control-plane/client.ts:80-94 | Whatever two gateways hold at two moments of a run, equal epochs mean the same bundle |
| Distribution.CurrentIsNoRollback | src/control-plane/client.ts:80-83 | The controller's own current bundle is never refused as a rollback |
| Engine.AppendEffect | src/core/event/trace.ts:13-26 | An append changes the trace of its own proposal only, and only for execution events |
| Engine.RunKeepsInv | src/core/engine/OpenKedgeEngine.ts:33-143 | In every interleaving each call's reservation shows in the log as the call's state says |
| Engine.ExecutorAtMostOnce | src/core/engine/OpenKedgeEngine.ts:46-51 | The executor runs at most once for each proposal id |
| Engine.Settlement | src/core/engine/OpenKedgeEngine.ts:93-128 | Once resolved, a reservation whose executor never started is FAILED; one started without a completion is still RESERVED; a recorded one is as recorded |
| Engine.CancelledNeverStarts | src/core/engine/OpenKedgeEngine.ts:100-128 | A cancelled proposal was never handed to the executor and never will be |
| Engine.CancelAccepted | src/core/engine/OpenKedgeEngine.ts:126-128 | The store accepts a cancellation if and only if the event id is new and the clock has not gone behind the reservation |
| Engine.EngineConservesReservations | src/core/engine/OpenKedgeEngine.ts:93-128 | Over every run reservations = successes + failures + open ones |
| Conservation.OneTransition | src/core/event/trace.ts:35-43 | An allowed transition moves one proposal between the reserved, running, successful and failed |
| Conservation.ReservationsAreConserved | src/core/event/trace.ts:13-43 | In any log whose traces begin with a reservation, reservations = successes + failures + open ones, each terminal state reached once |
| Mutex.MutualExclusionFifo | src/core/event/trace.ts:46-56 | At most one section runs at a time, and sections start in the order of arrival |
| Mutex.Serializable | src/core/event/InMemoryIEECStore.ts:14-15 | The state is what the finished sections produce one after the other in the order of arrival |
| Mutex.NeverStuck | src/core/event/trace.ts:46-56 | While a section waits, an earlier one is running or the first waiting one can start |

## Left out

- SHA-256, HMAC, Ed25519 and UUIDs: hashes and signatures are free constructors, signature checks of policy bundles are taken as passed, and fresh ids are parameters.
- Strings are sequences of characters; lone surrogates, numbers that are not whole, negative zero and overflow of float sums are not modelled.
- Splitting dotted attribute paths: a path is the list of its keys. A path into an intent's capabilities or requested bounds, or to a record's hash, reads as undefined.
- Temporal.LatestSource: among equally recent sources the code takes the least hash text; the model says only that the source is a latest one.
- `matchPredicate` is a deterministic function; reason texts, budgets for display and unknown extra keys in requested bounds are not modelled.
- Of an event's payload the intent, the result, the contract and one opaque part are kept.
- The work of a transaction is the caller's code between opening and `Commit` or `Abort`; the drivers' BEGIN, COMMIT, ROLLBACK and retries are not modelled.
- A synchronous block reads the clock once, and `assertCanUnlock` and `verifyCapabilities` outside a transaction read one state of the store.
- Gateway calls, `withIdentity`, the engine and the policy client are state machines on values: their awaits interleave, so their variables are fields of one state instead of fields of a class. Every failing await is one step that may happen anywhere, so which error code is returned is not modelled, and identity issuing, expiry and revocation appear only as such failures and as other appended events.
- The contract timer may fire at any moment once it is due, and not before; it is set at each guard, of which the last counts, and an identity capped at its issue is one with an earlier end. Live-context checks may fail at any moment.
- The contract's window is rechecked up to the start of the work; after that only a permit bounds the time of the adapter call, so for a gateway without a dispatch authority no theorem says that the call starts inside the window.
- DispatchAnswers.AnswerIsFinalUnless: asks that a gateway has a dispatch authority exactly when its policies come from that controller, as src/gateway/mcp-server.ts:98-127 wires it; for any other combination the condition is still sufficient (DispatchProgress.CanStillCallDispatches), but not shown necessary: with an authority alone a grant may name a policy the controller has yet to activate, and with the controller's policies alone a recheck begun earlier may still be waiting to acknowledge a policy.
- Liveness of the drain: ControllerRun.DrainRun says when a poll activates, not that timers fire.
- HTTP parsing and authentication of requests; leases of the `bounded` action class; two overlapping `currentFor` calls on one client.
- Text patterns of instance ids, proposals and permits; `admit` with its blast radius, safety and judgment checks, whose only effect here is what it appends.
- Executions without a reservation are accepted by the store model and excluded from the quota and conservation runs.
- `aggregateHistoricalMetric`, `immutableSnapshot`, `replayIntent`'s summary, the file store, EvidenceChain, estimators and policies, adapters, the packages, the CLI and the user interface: short branches or foreign calls.
