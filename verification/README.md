# Verified models of the tos-tag control plane

tos-tag admits Slack messages to an agent, runs jobs under leases, asks humans to approve tool actions, keeps an
audit chain and a memory, and renders what it sends. Its state lives in shared collections that any number of
processes update one call at a time, so most of its correctness is about what interleavings and crashes can do.

Each module models one part and proves what the part is for. Shared-state protocols are modelled twice: as atomic
actions on an immutable store, where a run is any sequence of enabled actions and a crash is a process that takes no
further step, and as a class whose methods make the same calls one by one, with an arbitrary run of everybody else
between any two of them. Theorems over runs are proved on the actions. Every method that makes several calls ensures
that a run leads from the store before it to the store after it (`LeadsTo`), so those theorems apply to it, and a
ghost flag says what it does when nobody disturbs it.

| file | part |
|---|---|
| Prelude.dfy, Text.dfy | results, white space |
| AuditChain.dfy, AuditMongo.dfy | the locked hash chain; concurrent appends with orphan adoption, and their refinement of it |
| Admission.dfy, AdmissionInvariant.dfy, AdmissionSafety.dfy, AdmissionController.dfy | slots, budgets and leased, crash-tolerant release |
| Jobs.dfy, MemoryQueue.dfy, MongoQueue.dfy | the job state machine; the locked queue; the optimistic queue |
| ToolActions.dfy, Approvals.dfy, ApprovalCoordinator.dfy | human decisions over suspended jobs |
| Memories.dfy, MemoryMongo.dfy | the locked memory store; optimistic curators against operators |
| ModelRouter.dfy | breadth-first fallback resolution |
| TableSplit.dfy | greedy table splitting |
| FairOrder.dfy, ContextPack.dfy | fair, budgeted context packing |
| WikiArgv.dfy | the Wiki argument vector |
| ReplyText.dfy, ClassifierGate.dfy, CorrectionTail.dfy | the decision gate for every classifier answer; the correction tail |

Identifiers, tokens and hashes that are only compared are numbers, 0 standing for the empty string; where the source
orders them, the numbers stand in that order. Hashes are injective constructors. Fresh identifiers are values not
used before. Clock readings are parameters or a clock that never goes back, and a call may carry a reading older than
the moment it lands. A failed call is a step that did not happen.

Several tempting properties are false of the code. Each is kept with the condition under which it holds and with an
input or a run from the empty store on which it fails:

- composite idempotency keys cross organizations: `AuditChain.CompositeCollides`, `AuditChain.SlashCrossesOrganizations`;
  the shared collection and the locked chain part exactly then: `AuditMongo.EveryRunRefinesChain`;
- equal commitments of two epochs need not mean equal contents: `AuditChain.CommitmentBinds`;
- a verification beside an append reports a head mismatch although nothing is wrong: `AuditMongo.MongoChain.Verify`,
  `AuditMongo.MismatchWithoutDefect`;
- a late slot release decrements twice: `AdmissionSafety.ReleasesOnceIff`, `AdmissionSafety.LateUpdateBreaksLimit`;
- two writers of one session in the locked queue: `MemoryQueue.OneWriterIff`, `MemoryQueue.HandBackBreaksOneWriter`;
- a call with an old clock reading uses a lapsed lease: `MongoQueue.LapsedCallLandsIff`, `MongoQueue.LapsedLeaseRevived`;
- a generated memory keeps old values of fields it leaves empty: `MemoryMongo.OverwriteRefinesLocked`,
  `MemoryMongo.OldFactSurvives`;
- a stale unpinning gives a forgotten record an expiry: `MemoryMongo.StaleUnpinRevivesExpiry`,
  `MemoryMongo.ForgottenThenExpires`;
- a re-delivered decision finds its approval expired: `ApprovalCoordinator.RedeliveryEqualsOneCall`,
  `ApprovalCoordinator.ExpiredMeanwhile`;
- the table limit does not bound the text shown for numbers: `TableSplit.CountedIsShown`,
  `TableSplit.LongNumberTextEscapes`;
- a confidence that is no number passes the ambient thresholds: `ClassifierGate.AmbientOutputIsEarned`,
  `ClassifierGate.NotANumberPasses`;
- `RequiresProviderCall` also promises a call for messages that a mention-only channel skips, against its comment:
  `ClassifierGate.Gate.DecideFor`, `ClassifierGate.PromisedCallNotMade`.

## Model

| member | source | states |
|---|---|---|
| `AuditChain.TamperEvident` | core/audit/audit.go:126-169 | Two linked chains of any length that end in the same hash are equal, so nothing in a history can change under an unchanged head hash. |
| `AuditChain.AppendKeepsChains` | core/audit/audit.go:82-118 | Every locked append keeps every organization's chain linked and the idempotency index sound. |
| `AuditChain.CompositeCollides` | core/audit/audit.go:96-101 | Two organizations can share an entry of the index of concatenated keys if and only if one identifier with its slash begins the other with its slash. |
| `AuditChain.AppendReturnsOwnReceipt` | core/audit/audit.go:96-117 | A keyed append answers with a receipt of its own organization and key if and only if the index entry is not another organization's. |
| `AuditChain.SlashCrossesOrganizations` | core/audit/audit.go:96-101 | A concrete run in which organization "a/b" is answered with a receipt of organization "a". |
| `AuditChain.Chain.Append` | core/audit/audit.go:82-118 | Refuses exactly the invalid requests, unchanged; otherwise the state and answer are those of the pure append. |
| `AuditChain.RejectionExactly` | core/audit/audit.go:186-213 | Which requests are refused as incomplete, and that no accepted one has a metadata name with a forbidden word in any case, or a long value. |
| `AuditChain.CommitmentBinds` | core/audit/audit.go:153-160 | Within one epoch equal commitments mean equal contents; two epochs can share a commitment if and only if one, with the separator, begins the other with it. |
| `AuditChain.Chain.Verify` | core/audit/audit.go:126-144 | Reports no defect if and only if the chain is linked, and otherwise names the first broken link. |
| `AuditChain.VerifyLinks` | core/audit/audit.go:126-144 | The loop of verification over any sequence of receipts, forged ones included: verdict and first defect. |
| `AuditMongo.InsertExtendsTip` | core/audit/mongo.go:72-92 | An insert that the unique indexes accept was computed from the current head, which names the last receipt: no gap, no fork. |
| `AuditMongo.AdvanceAdopts` | core/audit/mongo.go:93-115 | A head compare-and-set that matches moves the head by one, onto the receipt that is in the chain. |
| `AuditMongo.EveryRunIsSafe` | core/audit/mongo.go:40-144 | In every run of any number of appenders, each of which may stop after any call: every organization's receipts are linked from sequence 1 without gap or fork, the head names the last receipt or the one before it, and no two receipts share an index entry. |
| `AuditMongo.RunKeepsInv` | core/audit/mongo.go:40-144 | The same from any reachable state, and the receipts already stored stay. |
| `AuditMongo.OnlyArrangement` | core/audit/mongo.go:155-172 | Receipts listed in any order make up at most one linked chain, and sorting them by sequence finds it. |
| `AuditMongo.Judge` | core/audit/mongo.go:155-180 | Any receipts, forged or out of order, and any head are intact if and only if the receipts make up a chain that ends where the head says, and a head mismatch if and only if they make up another; otherwise the first defect in sequence order is named. |
| `AuditMongo.TwoReads` | core/audit/mongo.go:145-180 | Receipts listed in a reachable store always link up, and a head read later, after any run, matches them if and only if its sequence is their number; it is behind only for an orphan that was there all along. |
| `AuditMongo.MismatchWithoutDefect` | core/audit/mongo.go:145-180 | From every store with its head on the last receipt, the empty one included, a run between the two reads makes them mismatch although both stores are in order. |
| `AuditMongo.InsertRefinesChain` | core/audit/mongo.go:72-92 | The insert is the linearization point: the locked chain asked the same question at that moment appends the very same receipt. |
| `AuditMongo.EveryRunRefinesChain` | core/audit/mongo.go:40-116 | After every run the collection represents one locked chain that took the receipts in insertion order, if and only if no entry of the locked index would belong to two organizations; whatever is then found under a known key is what the locked chain answers. |
| `AuditMongo.SlashFreeIsEnough` | core/audit/audit.go:96-101 | Organizations without a slash in their identifiers always meet that condition, whatever their keys. |
| `AuditMongo.SeenThenFollows` | core/audit/mongo.go:126-143 | Whatever is found behind a head once read continues that head, so the invalid-orphan error never occurs. |
| `AuditMongo.SameKeySameReceipt` | core/audit/mongo.go:47-57 | Two answers to one idempotency key, however far apart in a run, are the same receipt. |
| `AuditMongo.RepairExecutes` | core/audit/mongo.go:126-143 | From every reachable state at most two calls put the head on the last receipt. |
| `AuditMongo.NeverStuck` | core/audit/mongo.go:40-116 | Whatever crashed where, an append with an unused key and identifier can complete in at most five calls. |
| `AuditMongo.MongoChain.InsertOne` | core/audit/mongo.go:81-92 | Refused if and only if a unique index holds one of the receipt's keys. |
| `AuditMongo.MongoChain.AdvanceHead` | core/audit/mongo.go:93-101 | Lands if and only if the stored head is the one that was read (or none, for an upsert at version 0). |
| `AuditMongo.MongoChain.RecoverNext` | core/audit/mongo.go:126-143 | Adopting an orphan under interference never fails; it moves the head past the one that was read, or nothing was stored behind that, or somebody else has moved on. Undisturbed it adopts if and only if there is an orphan. |
| `AuditMongo.MongoChain.SealAndInsert` | core/audit/mongo.go:66-92 | One attempt on a head that was read: a key known before it is answered, and it comes to nothing only if the place behind that head was taken and the key still has no receipt. |
| `AuditMongo.MongoChain.Publish` | core/audit/mongo.go:93-115 | Once its receipt is stored a call answers with it, whatever the compare-and-set and later reads say, and by then the head has passed it. |
| `AuditMongo.MongoChain.Append` | core/audit/mongo.go:40-116 | Under arbitrary interference between any two calls, which never touches the record of this caller's own inserts: a call that fails inserted nothing, any other inserted nothing or exactly the receipt it answers with, which carries the request and which the head has then reached; what it did not insert stands under the requested key. All its steps form a run. A valid request fails only after 32 attempts, in each of which the organization's chain grew or its head moved and, unless the attempt had adopted an orphan itself, nobody had answered the key. A known key changes nothing and is answered. Undisturbed, a new request is appended and the head left on it. |
| `AuditMongo.MongoChain.Verify` | core/audit/mongo.go:155-180 | With any run between its two reads it never blames a receipt, and reports a head mismatch if and only if an orphan was there all along or the head has moved past the listing; undisturbed, exactly for an orphan. |
| `AdmissionInvariant.RunKeepsInv` | core/admission/mongo.go:60-288 | Every run whose state updates meet a marker or an unfinished release keeps the release states, the count of held slots and the marker bookkeeping. |
| `AdmissionSafety.ReleasesOnceIff` | core/admission/mongo.go:174-241 | Over every run: each reservation decrements at most once, exactly once when released and not before it is completed, if and only if every state update of the run met a marker or a release not yet finished; open reservations then never exceed `active`. |
| `AdmissionSafety.InTimeIsHarmless` | core/admission/mongo.go:174-212 | Runs in which every update lands before the lease of its own claim is over meet that condition. |
| `AdmissionSafety.TimelyRunReleasesOnce` | core/admission/mongo.go:174-241 | So in every such run each reservation gives its slot back exactly once. |
| `AdmissionInvariant.LandKeepsInv` | core/admission/mongo.go:196-212 | An update that meets a marker or an unfinished release takes at most one held slot: the clamp at zero never bites. |
| `AdmissionSafety.OpenWithinActive` | core/admission/mongo.go:81-128 | Open reservations of a channel never exceed `active`. |
| `AdmissionSafety.ConcurrencyLimit` | core/admission/mongo.go:72-96 | Under a fixed policy `active` never exceeds the concurrency limit, late updates or not. |
| `AdmissionSafety.OpenWithinLimit` | core/admission/mongo.go:60-128 | Hence such a run never has more open reservations than the policy allows. |
| `AdmissionSafety.CooldownHolds` | core/admission/mongo.go:70-96 | Any two consecutive admissions of a run are at least the cooldown apart, whatever clock readings callers carry. |
| `AdmissionSafety.BudgetHolds` | core/admission/mongo.go:68-96 | No clock hour of a run holds more admissions than the hourly budget. |
| `AdmissionSafety.CountersAreExact` | core/admission/mongo.go:86-96 | After every run the document of a channel records its last admission and exactly the number of admissions of the run in the clock hour it names. |
| `AdmissionSafety.RefusalsAreReal` | core/admission/mongo.go:68-96 | After every run, a channel with a free slot admits a request if and only if its last admission is a cooldown ago and the clock hour holds fewer admissions than the budget. |
| `AdmissionSafety.LandDecrementsOnceIff` | core/admission/mongo.go:197-212 | One more update leaves a reservation at one decrement if and only if its marker is there or its release unfinished. |
| `AdmissionSafety.LateUpdateDecrementsTwice` | core/admission/mongo.go:174-241 | The condition can always fail: from every state with a stalled claimant past its lease there is a run that gives the slot back twice and leaves `active` one short. |
| `AdmissionSafety.LateUpdateBreaksLimit` | core/admission/mongo.go:60-241 | A concrete run from the empty store, under a policy of one job at a time: a stalled update lands late and two reservations are open at once. |
| `AdmissionSafety.ReconcilerFinishes` | core/admission/mongo.go:144-241 | Whatever crashed where, a reconciler that may claim a release finishes it alone in four calls. |
| `AdmissionController.Controller.ClaimLease` | core/admission/mongo.go:174-195 | The lease claim succeeds if and only if the release is pending or its lease is over. |
| `AdmissionController.Controller.UpdateState` | core/admission/mongo.go:197-212 | The guarded decrement matches if and only if the marker is absent, and records it. |
| `AdmissionController.Controller.LandUpdate` | core/admission/mongo.go:197-221 | With any run of others between the update and the look for its marker, the marker is missing only once the claim's own lease is over. |
| `AdmissionController.Controller.FinalizeRelease` | core/admission/mongo.go:223-233 | Finalizing matches if and only if the lease is still this token's. |
| `AdmissionController.Controller.ReleaseReservation` | core/admission/mongo.go:174-241 | Under interference all its calls form a run and a lost claim changes nothing; in runs of harmless updates a claim ends with the reservation released and its marker gone unless the call stalled past its lease, and success means the slot was given back exactly once. Undisturbed, a claim ends with exactly that reservation released, its slot freed once, its marker gone and nothing else touched. |
| `AdmissionController.Controller.Complete` | core/admission/mongo.go:113-128 | The reservation is completed. In runs of harmless updates it is then released, or under a lease of another controller, or the call has stalled past its own. Completing a released reservation again changes nothing; undisturbed, unless somebody holds the lease, exactly that reservation is released and its slot freed. |
| `AdmissionController.Controller.MarkExpired` | core/admission/mongo.go:130-141 | Under interference it is a run that leaves every reservation completed that was expired at its start; undisturbed it marks exactly the expired open ones. |
| `AdmissionController.Controller.ReconcilePending` | core/admission/mongo.go:144-172 | It succeeds only when nothing of that channel was left to claim. In runs of harmless updates it fails only if every query of its context found a release due, or the call stalled past the lease of one of its claims; undisturbed, under a context that lasts longer than the releases due, exactly those are released and their slots freed. |
| `AdmissionController.Controller.CleanupMarkers` | core/admission/mongo.go:244-288 | Under interference it removes exactly the markers that were there when listed and whose reservations were released, or gone, when looked up, and in runs of harmless updates those are released; undisturbed, the markers of everything released. |
| `AdmissionController.Controller.ReconcileExpired` | core/admission/mongo.go:130-142 | Under interference it is a run in which the expired reservations were completed, then there was a moment with nothing left to claim, and then the markers were cleaned up. Undisturbed, the channel ends with its expired and due reservations released, their slots freed and only the markers of unfinished releases left. |
| `AdmissionController.ReconciledMeans` | core/admission/mongo.go:130-172 | Which reservations that releases: of the channel, and expired unfinished, pending, or stalled past their lease. |
| `AdmissionController.Controller.TakeSlot` | core/admission/mongo.go:68-99 | A slot is taken if and only if concurrency, budget and cooldown have room, or the channel has no document. |
| `AdmissionController.Controller.Reserve` | core/admission/mongo.go:104-110 | Either the reservation is written or the slot is given back. |
| `AdmissionController.Controller.DenialReason` | core/admission/mongo.go:290-305 | The reason is the first limit that has no room, in the order concurrency, budget, cooldown; concurrency also stands for none, when others have made room since, and for a channel never admitted. |
| `AdmissionController.Controller.Admit` | core/admission/mongo.go:60-111 | A forbidden policy changes nothing. Otherwise a run leads to the store in which a slot is asked for, on the way to which every reservation of the channel that had expired was completed, no release was left to claim, and the markers were cleaned up. From there the call takes one slot within the limits and then, after a run of others, writes the one open reservation, or gives the slot back if and only if the reservation cannot be stored; or it is refused there, does nothing, and names a limit that is exhausted. In runs of harmless updates it gets no further than reconciling only if every query of its context found a release due or it stalled past the lease of a claim. Undisturbed, success, reason and both final collections are those decided by the reconciled documents. |
| `AdmissionController.Controller.AdmitInto` | core/admission/mongo.go:72-111 | The same from the store in which the slot is asked for, without the reconciling. |
| `AdmissionController.LandedMeansDecremented` | core/admission/mongo.go:197-241 | Once a claim's update has landed its reservation has given the slot back, whoever finishes. |
| `MemoryQueue.RunKeepsInv` | core/jobs/memory_queue.go:28-278 | Every run keeps the lease and attempt invariant of every job. |
| `MemoryQueue.AttemptAccounting` | core/jobs/memory_queue.go:88-107 | Attempts are claims minus approval resumes in every run, so claims never exceed the limit plus resumes. |
| `MemoryQueue.ClaimLandsIff` | core/jobs/memory_queue.go:57-110 | A job can be leased if and only if it is queued, due, not expired, has attempts left, and no other job of its organization, session and generation is leased, working, suspended or being cancelled. |
| `MemoryQueue.StartedWorkIsNotClaimed` | core/jobs/memory_queue.go:66-110 | Whatever expires or crashes: in every run without a resumption or a retry of it, a job whose work has started is never claimed. |
| `MemoryQueue.ExpiredNeverStarts` | core/jobs/memory_queue.go:57-110 | No run claims a job that has expired. |
| `Jobs.WhatComesBefore` | core/jobs/state.go:123-136 | The transition table read backwards: started work enters the queue only from an approval or a retry, an approval is asked for only while running, success comes only from running or reconciliation. |
| `MemoryQueue.DeadTokenStaysDead` | core/jobs/memory_queue.go:153-197 | Once a token's lease has lapsed, been cleared or replaced, no later transition, progress message or heartbeat with it succeeds in any run. |
| `MemoryQueue.StepKeepsOneWriterIff` | core/jobs/memory_queue.go:57-177 | An operation breaks the rule of one busy job per session generation if and only if it is a transition that leases a queued job while another job of that generation is busy. |
| `MemoryQueue.OneWriterIff` | core/jobs/memory_queue.go:28-278 | Over every run, the rule holds at every point if and only if the run contains no such transition. |
| `MemoryQueue.OneWriterWithoutHandBack` | core/jobs/memory_queue.go:57-110 | No run without a hand-back contains such a transition, so at every point at most one job of a session generation is busy. |
| `MemoryQueue.HandBackBreaksOneWriter` | core/jobs/state.go:123-136 | Such runs exist: from the empty queue, claim, hand back, let another worker claim in the same session, lease the first job again under the lease it kept. |
| `MemoryQueue.TerminalForever` | core/jobs/state.go:123-136 | A failed, cancelled or undelivered job keeps that state in every run. |
| `MemoryQueue.FirstInOrder` | core/jobs/memory_queue.go:57-110 | The first claimable job of the scan precedes every other claimable job by availability and age. |
| `MemoryQueue.SweptIsRun` | core/jobs/memory_queue.go:66-86 | The recoveries a claim makes on the way are a run of recovery actions. |
| `MemoryQueue.MemoryQueue.Enqueue` | core/jobs/memory_queue.go:28-55 | Refuses invalid specifications, answers with the job of a known index key, and otherwise adds exactly one new job; however organization and key are joined, the answer is the caller's own if and only if no other pair with that index key has a job. |
| `MemoryQueue.MemoryQueue.Claim` | core/jobs/memory_queue.go:57-110 | Recovers expired leases on the way, queueing exactly the leased jobs among them and setting started ones aside for reconciliation; then leases a job that was queued, or leased and expired, the first in scan order of those that could already run, or an earlier one set free. Reports none only when none is claimable and no expired lease is left. |
| `MemoryQueue.MemoryQueue.Transition` | core/jobs/memory_queue.go:153-177 | Succeeds if and only if the lease is live and the state machine allows it; the new queue is the transition action. |
| `MemoryQueue.MemoryQueue.SetProgressMessage` | core/jobs/memory_queue.go:179-197 | Sets the timestamp only of a running job with a live lease. |
| `MemoryQueue.MemoryQueue.SuspendForApproval` | core/jobs/memory_queue.go:199-207 | Suspends under a live lease, replacing the approval and clearing the approved hash. |
| `MemoryQueue.MemoryQueue.ResumeFromApproval` | core/jobs/memory_queue.go:209-230 | Resumes exactly a job waiting for that approval, gives the attempt back and raises the steering epoch. |
| `MemoryQueue.MemoryQueue.Beat` | core/jobs/memory_queue.go:232-249 | Extends exactly a live lease. |
| `MemoryQueue.MemoryQueue.Requeue` | core/jobs/memory_queue.go:251-256 | Is the transition to retry_wait with a delay. |
| `MemoryQueue.MemoryQueue.ReleaseRetryWait` | core/jobs/memory_queue.go:258-278 | Requeues a due job, or fails it when its attempts are used up. |
| `MemoryQueue.MemoryQueue.CancelJob` | core/jobs/memory_queue.go:112-134 | Stops idle jobs at once and sends working ones to cancelling. |
| `MongoQueue.RunKeepsInv` | core/jobs/mongo_queue.go:27-312 | Every interleaving keeps: job invariants, every document read is current or outdated by version, and the writer index. |
| `MongoQueue.UpdateRaisesVersion` | core/jobs/mongo_queue.go:76-312 | Every update raises its document's version by exactly one. |
| `MongoQueue.MatchedIsCurrent` | core/jobs/mongo_queue.go:148-158 | A compare-and-set that matches acts on the very document that was read. |
| `MongoQueue.OneWriterAlways` | core/jobs/mongo_queue.go:94-163 | In every run from the empty queue at most one job of an organization, session and generation is busy, hand-backs included. |
| `MongoQueue.BlockedOnlyByWork` | core/jobs/mongo_queue.go:94-125 | Only a job of the same session and generation that is leased, working, suspended, being cancelled or holds a lease can keep another from being claimed. |
| `MongoQueue.OnlyClaimsConflict` | core/jobs/mongo_queue.go:112-121 | The unique index refuses no update but a claim. |
| `MongoQueue.TransitionRefinesLocked` | core/jobs/mongo_queue.go:127-163 | A transition that lands has exactly the effect of one locked transition at that moment, whatever happened since its read: no update is lost. |
| `MongoQueue.ResumeRefinesLocked` | core/jobs/mongo_queue.go:217-234 | The unconditional decrement agrees with the guarded one of the locked queue. |
| `MongoQueue.ReleaseRefinesLocked` | core/jobs/mongo_queue.go:291-312 | Releasing a waiting job has the effect of the locked operation. |
| `MongoQueue.CancelRefinesLocked` | core/jobs/mongo_queue.go:236-255 | Cancelling agrees with the locked queue if and only if the job was leased, preparing or running: elsewhere the steering epoch differs. |
| `MongoQueue.AttemptAccounting` | core/jobs/mongo_queue.go:112-113 | Attempts are claims minus resumes in every run and stay within 0 and the limit. |
| `MongoQueue.StartedWorkIsNotClaimed` | core/jobs/mongo_queue.go:76-125 | In every run without a resumption or a retry of it, a job whose work has started is never claimed. |
| `MongoQueue.RecoveryMeans` | core/jobs/mongo_queue.go:76-92 | A recovery takes only leased, preparing or running jobs whose lease is over, queues the leased ones and sets the others aside for reconciliation; either way it frees the session and changes nothing else. |
| `MongoQueue.OneCallUpdates` | core/jobs/mongo_queue.go:236-284 | What a heartbeat, a progress message, a delivery mark or a cancellation leaves, field by field. |
| `MongoQueue.GoneTokenStaysGone` | core/jobs/mongo_queue.go:127-187 | A cleared or replaced token is useless for ever, whatever clock readings later calls carry. |
| `MongoQueue.LapsedTokenStaysDead` | core/jobs/mongo_queue.go:127-187 | Once a token's lease has lapsed at a reading, no call with it ever lands in any run in which its own holder sends no reading from before that; everybody else may carry any reading. |
| `MongoQueue.LapsedCallLandsIff` | core/jobs/mongo_queue.go:148-187 | A transition, progress message or heartbeat under a lapsed lease lands if and only if the rest of its filter matches and its reading is from before the lapse. |
| `MongoQueue.StaleHeartbeatRevives` | core/jobs/mongo_queue.go:268-282 | Such a heartbeat makes the lapsed lease live again if and only if its reading is from before the lapse. |
| `MongoQueue.LapsedLeaseRevived` | core/jobs/mongo_queue.go:268-282 | A concrete run from the empty store that does so. |
| `MongoQueue.MongoQueue.FindOneAndUpdate` | core/jobs/mongo_queue.go:112-121 | One update lands if and only if its filter matches and the writer index allows it. |
| `MongoQueue.MongoQueue.Transition` | core/jobs/mongo_queue.go:127-163 | With any run of other workers between read and compare-and-set, the whole call is a run and success is one locked transition on a store that run reached, with nothing else changed; a failure is the refusal of the job that was read, or means that the job has changed since. Undisturbed it succeeds if and only if the locked one would. |
| `MongoQueue.MongoQueue.ReleaseRetryWait` | core/jobs/mongo_queue.go:291-312 | The same for releasing a waiting job. |
| `MongoQueue.MongoQueue.FindRunnable` | core/jobs/mongo_queue.go:94-109 | At most 64 runnable jobs, sorted by availability and age, and none left out precedes one that is in. |
| `MongoQueue.MongoQueue.Claim` | core/jobs/mongo_queue.go:94-125 | The whole call is a run. It tries the listed candidates in order, each in a store that run reached, and passes over one only if it has changed since or has an active writer beside it; it fails only after all of them. What it claims is unchanged since and is leased under a token never issued before that moment, nothing else changing. Undisturbed it takes the first listed job without a writer beside it and fails only if all have one. |
| `Approvals.RunKeepsInv` | core/approvals/coordinator.go:66-155 | Every run of any users, workers, reconcilers and crashes keeps the joint invariant of both stores. |
| `Approvals.EveryRunIsSafe` | core/approvals/coordinator.go:88-155 | In every run no approval is both approved and denied, and a job with an approved hash points at an approval for that job, given by somebody other than its requester, with the hash of that exact action. |
| `Approvals.DecisionsAreFinal` | core/approvals/approvals.go:87-145 | No step undoes a decision or a consumption or changes what was asked. |
| `Approvals.DecisionsHaveAuthors` | core/approvals/approvals.go:87-152 | After every run the recorded approver approved it in that run, the recorded denier denied it, neither is the requester, and what was consumed was consumed for its action. |
| `Approvals.ResumedAtMostOnce` | core/jobs/memory_queue.go:199-230 | In every run each suspension is resumed at most once. |
| `Approvals.ConsumedAtMostOnce` | core/approvals/approvals.go:131-145 | In every run an approval is consumed at most once, and only for its own action. |
| `Approvals.DeniedNeverRuns` | core/approvals/approvals.go:105-115 | After a denial no run resumes or consumes the approval, and its job waits or is cancelled. |
| `ApprovalCoordinator.AuditedFirst` | core/approvals/coordinator.go:112-119 | Neither store changes without the audit record of that decision. |
| `ApprovalCoordinator.OnlyRightfulDecisions` | core/approvals/coordinator.go:88-119 | A click that is incomplete, unauthorized, not independent, about another destination, organization or job, or not recorded fails and changes nothing at all. |
| `ApprovalCoordinator.RightfulDecisionIsCarriedOut` | core/approvals/coordinator.go:112-155 | Any other click on an open question is carried out: recorded, decided in the user's name, the job queued under the hash of the approved action or cancelled, a denied reservation completed, the outcome announced, and nothing else changed. |
| `ApprovalCoordinator.OpposingClickFails` | core/approvals/coordinator.go:120-139 | The click that comes second and says the opposite changes neither store and fails. |
| `ApprovalCoordinator.RepeatedClick` | core/approvals/coordinator.go:120-147 | A repeated click while the job carries the approval fails if and only if an approved job was cancelled unresumed; it leaves the approval alone and settles the job at most once. |
| `ApprovalCoordinator.RedeliveryEqualsOneCall` | core/approvals/coordinator.go:88-155 | A call stopped at any point and delivered again later reaches the states of one undisturbed call, clock readings aside, if and only if it had decided or the approval has not expired in between. |
| `ApprovalCoordinator.RedeliveryAfterOthers` | core/approvals/coordinator.go:88-155 | The same call stopped after its decision and delivered again after any run of everybody else: the decision stands, and while the job carries the approval the repeat settles it at most once and fails if and only if an approved job was cancelled unresumed. |
| `ApprovalCoordinator.ExpiredMeanwhile` | core/approvals/coordinator.go:88-155 | A concrete run from the empty stores after which a call stopped before its decision and delivered again too late fails, where once would have succeeded. |
| `ApprovalCoordinator.Coordinator.RequestApproval` | core/approvals/approvals.go:63-77 | Stores a complete request of a named requester with a positive lifetime, and refuses every other. |
| `ApprovalCoordinator.Coordinator.ApproveIn` | core/approvals/approvals.go:87-103 | Approves if and only if the approval is open and the user is not its requester; the first error otherwise. |
| `ApprovalCoordinator.Coordinator.DenyIn` | core/approvals/approvals.go:105-115 | Denies under the same condition. |
| `ApprovalCoordinator.Coordinator.ConsumeApproval` | core/approvals/approvals.go:131-145 | Consumes if and only if the approval is given, unused, unexpired and for these bytes. |
| `ApprovalCoordinator.Coordinator.SuspendAndNotify` | core/approvals/coordinator.go:66-86 | Suspends exactly a job held under the lease whose approval names it; refusals change nothing. |
| `ApprovalCoordinator.Coordinator.HandleSlackDecision` | core/approvals/coordinator.go:88-155 | Undisturbed it equals the sequential meaning. Disturbed, its changes to both stores are steps of a run that keeps the joint invariant; success means the decision stands, was recorded and announced, a denied reservation was completed, and at a moment on the way the job was resumed with the approved action, or stopped. A failure names something that was true at such a moment. |
| `ApprovalCoordinator.Coordinator.Authorize` | core/approvals/coordinator.go:89-119 | Every check in order, then the audit record, before anything is decided. |
| `ApprovalCoordinator.Coordinator.SettleDecision` | core/approvals/coordinator.go:127-147 | Resumes or cancels, and tolerates that it has been done: it succeeds if and only if the job is then resumed with the approved action, or stopped. |
| `Memories.MemoryStore.FindScope` | core/memory/memory_store.go:61-70 | Finds the record of an index key, or there is none; however organization and scope are joined, it is the one asked for if and only if no other pair with that index key has a record. |
| `Memories.MemoryStore.PutGenerated` | core/memory/memory_store.go:72-94 | Learns a new scope, relearns an unprotected record from changed sources, and otherwise changes nothing. |
| `Memories.MemoryStore.Correct` | core/memory/memory_store.go:96-111 | Makes the record active, pinned and operator-owned with the trimmed text, or refuses unchanged. |
| `Memories.MemoryStore.SetPinned` | core/memory/memory_store.go:113-129 | Pins without expiry, or restores the natural expiry. |
| `Memories.MemoryStore.Forget` | core/memory/memory_store.go:131-143 | Erases the content and keeps scope and source hash. |
| `MemoryMongo.OverwriteIsFair` | core/memory/mongo.go:90-131 | A generated write that lands replaces the very record it was decided on, which at that moment is unprotected and has other sources. |
| `MemoryMongo.WriteRaisesRevision` | core/memory/mongo.go:79-197 | Every successful write raises the revision by exactly one and keeps identity, scope and creation time. |
| `MemoryMongo.RunKeepsInv` | core/memory/mongo.go:79-197 | Every interleaving keeps one record per scope and the currency of everything read. |
| `MemoryMongo.RevisionCountsWrites` | core/memory/mongo.go:79-197 | After any run the revision is the old one plus the number of writes. |
| `MemoryMongo.ProtectedUntilOperator` | core/memory/mongo.go:94-96 | In every run without operator edits of it, a pinned or operator-owned active record stays unchanged. |
| `MemoryMongo.NeverRelearned` | core/memory/mongo.go:94-96 | In every run without a correction of it, a forgotten record with unchanged sources stays forgotten and is the only one of its scope. |
| `MemoryMongo.OverwriteRefinesLocked` | core/memory/mongo.go:116-131 | A generated write agrees with the locked store if and only if every field empty in the draft is empty in the stored record. |
| `MemoryMongo.OldFactSurvives` | core/memory/mongo.go:116-131 | A concrete run from the empty store in which a relearned summary without facts keeps the old fact. |
| `MemoryMongo.RelearningForgottenIsClean` | core/memory/mongo.go:116-131 | Relearning a forgotten record brings back nothing of it but the thread. |
| `MemoryMongo.UnpinRefinesLocked` | core/memory/mongo.go:155-181 | Unpinning agrees with the locked store if and only if the expiry it writes, or leaves, is the record's natural one. |
| `MemoryMongo.StaleUnpinRevivesExpiry` | core/memory/mongo.go:155-181 | An unpinning read before a forgetting gives the forgotten record an expiry if and only if the read record had a natural one. |
| `MemoryMongo.ForgottenThenExpires` | core/memory/mongo.go:155-197 | A concrete run from the empty store: read for unpinning, forgotten, unpinned, and the forgotten record has an expiry. |
| `MemoryMongo.MemoryMongo.FindScope` | core/memory/mongo.go:70-77 | Finds the record of a scope, or no document has it. |
| `MemoryMongo.MemoryMongo.InsertOne` | core/memory/mongo.go:99-114 | Lands if and only if the scope is not taken. |
| `MemoryMongo.MemoryMongo.UpdateByRevision` | core/memory/mongo.go:116-131 | Lands if and only if the revision is still the one read. |
| `MemoryMongo.MemoryMongo.PutGenerated` | core/memory/mongo.go:79-136 | The whole call is a run. A write landed, in a store that run reached, on nothing or on a record it was allowed to replace at that moment, with the time of this call and nothing else changed; otherwise the answer was found there and had to be left alone, or nothing was written. It reports a conflict only after eight attempts, in each of which somebody else wrote the scope between the read and the write. Undisturbed, a valid draft is always answered. |
| `ModelRouter.New` | core/modelrouter/router.go:43-58 | A router holds exactly the given profiles, all valid, distinct and the default among them; each refusal names a fault that is there. |
| `ModelRouter.BestMatchFirst` | core/modelrouter/router.go:151-165 | The first candidate is a matching rule or channel default that none other precedes. |
| `ModelRouter.MatchesAreFitting` | core/modelrouter/router.go:97-150 | The matches are those of exactly the rules that fit the request. |
| `ModelRouter.SpecificFirst` | core/modelrouter/router.go:97-170 | A rule that fixes more of the request precedes one that fixes less, a channel default counting as a rule for the channel; then priority and name decide. |
| `ModelRouter.Candidates` | core/modelrouter/router.go:97-170 | Override, then matches in order of rank, priority and identifier, then defaults; no fitting rule or configured default is missing from the list and nothing else is in it. |
| `ModelRouter.LevelsSeen` | core/modelrouter/router.go:71-92 | Every level of the fallback graph up to the depth of the next name has been discovered. |
| `ModelRouter.HeadIsNearest` | core/modelrouter/router.go:71-92 | When the next name answers, nothing eligible lies fewer hops away. |
| `ModelRouter.HeadIsFirst` | core/modelrouter/router.go:61-72 | A candidate that answers is the first of the list that does. |
| `ModelRouter.Advance` | core/modelrouter/router.go:79-89 | Discovering what is behind a rejected profile keeps the state of the search on any graph, cycles included. |
| `ModelRouter.Find` | core/modelrouter/router.go:60-95 | The search ends; it finds an eligible profile in the fewest hops through ineligible ones, or none is reachable; every profile is tried once. |
| `ModelRouter.Resolve` | core/modelrouter/router.go:60-95 | The same for a request, with its trace: what is found serves the request in every respect and is named with its own provider, model and variant; every profile tried before it, or all of them when none is found, is listed with a reason. |
| `ModelRouter.ReasonsAreTrue` | core/modelrouter/router.go:172-196 | A profile is turned down if and only if it is disabled, unavailable, of a provider not allowed, too small, or short of a capability or data class, and the reason given is true of it. |
| `TableSplit.GreedyStaysAhead` | core/deliveries/renderer.go:1085-1126 | A greedy cut that starts no earlier than another needs no more parts. |
| `TableSplit.GreedyIsFewest` | core/deliveries/renderer.go:1085-1126 | The cut of the splitter uses the fewest parts of any cut under the limits. |
| `TableSplit.EveryRowOnceInOrder` | core/deliveries/renderer.go:1085-1126 | The parts of a cut show every row once and in order. |
| `TableSplit.Fill` | core/deliveries/renderer.go:1089-1105 | A part ends only at the end of the table or where one more row would not fit; an error means an invalid or oversized row. |
| `TableSplit.RenderTables` | core/deliveries/renderer.go:1065-1128 | Succeeds if and only if the shape, alignments and every single row are valid and small enough; the parts are a greedy cut within 100 rows and 10,000 characters, and an error names a fault that is there. |
| `TableSplit.LimitsAre` | core/deliveries/renderer.go:1065-1128 | A part fits if and only if it has at most 99 rows and, with its header, 10,000 characters; a table has one to 20 columns and full rows. |
| `TableSplit.CellIsShown` | core/deliveries/renderer.go:1189-1225 | A cell shows its own text, formatted if and only if it is rich or carries formatting, and a number the text given for it. |
| `TableSplit.CountedIsShown` | core/deliveries/renderer.go:1385-1395 | What a part shows is what was counted plus the excess of its number cells, so a part that fits exceeds the limit if and only if that excess is larger than the room left; only numbers shown in a text of another length have any. |
| `TableSplit.LongNumberTextEscapes` | core/deliveries/renderer.go:1385-1395 | It can be: a number with a text of any length is accepted and shown. |
| `FairOrder.SortSorts` | core/contextpacks/builder.go:173-187 | The sort of a channel is a permutation in its precedence order. |
| `FairOrder.SortIsStable` | core/contextpacks/builder.go:173-187 | Tied candidates keep the order they came in. |
| `FairOrder.FairKeepsDecks` | core/contextpacks/builder.go:163-203 | Each channel's candidates appear in required, priority, newest, identifier order. |
| `FairOrder.DeckIsInOrder` | core/contextpacks/builder.go:173-187 | In a channel's order required precedes optional, then higher priority, then newer, then the smaller identifier. |
| `FairOrder.FairPermutes` | core/contextpacks/builder.go:163-203 | The fair order is a permutation of its input. |
| `FairOrder.EveryPrefixIsFair` | core/contextpacks/builder.go:189-202 | In every prefix two channels that both have candidates to come differ by at most one. |
| `FairOrder.NothingLeftToDeal` | core/contextpacks/builder.go:189-202 | Rounds beyond the longest channel add nothing. |
| `FairOrder.SortDecks` | core/contextpacks/builder.go:164-188 | Grouping and sorting give the channels' decks in name order. |
| `FairOrder.FairOrder` | core/contextpacks/builder.go:163-203 | The round loop ends and computes the fair order. |
| `ContextPack.TotalCapFollows` | core/contextpacks/builder.go:57-65 | With non-negative ceilings that sum to the budget, the total cap never decides. |
| `ContextPack.PackPromises` | core/contextpacks/builder.go:94-158 | Totals are sums of the sources, each of the six partitions keeps to its own ceiling and all of them to the budget, no key repeats, every eligible required source with tokens is in, and no eligible source left out would fit. |
| `ContextPack.SourcesAreEligible` | core/contextpacks/builder.go:82-93 | Every source of a pack shows, field by field, an eligible candidate of the request's organization that has a name and a text, has not expired, and costs the positive number of tokens its text counts. |
| `ContextPack.SourcesComeInPlaces` | core/contextpacks/builder.go:94-158 | A pack lists its partitions in their order: system, thread, channel, the rest of the organization, evidence, situation. |
| `ContextPack.FillSettles` | core/contextpacks/builder.go:122-157 | Along the list the budget invariant holds and every candidate is taken, without tokens, or optional and too large for good. |
| `ContextPack.GroupCandidates` | core/contextpacks/builder.go:80-92 | Groups hold the eligible candidates by partition; the expiry is the earliest of the request's and theirs. |
| `ContextPack.Build` | core/contextpacks/builder.go:67-161 | The pack is the greedy fill of the partitions in fair order, stopped only by a required source that does not fit. |
| `WikiArgv.SplitJoin` | core/harness/wiki_tool.go:183-185 | Splitting joined tags gives the tags back. |
| `WikiArgv.NumberDigits` | core/harness/wiki_tool.go:307-312 | A printed number reads back. |
| `WikiArgv.ArgvIsLossless` | core/harness/wiki_tool.go:90-223 | For every accepted request of all 12 operations, decoding the argv gives back every field it means. |
| `WikiArgv.SameArgvSameMeaning` | core/harness/wiki_tool.go:90-223 | Two accepted requests with the same argv mean the same. |
| `WikiArgv.PutReadsBack` | core/harness/wiki_tool.go:163-186 | Reads a put back whichever of its optional arguments are present. |
| `WikiArgv.PutIsSpelledOut` | core/harness/wiki_tool.go:163-186 | The argv of a put, argument by argument, each optional one present exactly when the request has it. |
| `WikiArgv.Build` | core/harness/wiki_tool.go:90-223 | Accepts exactly the well-formed requests and builds their argv, with approval for removals, restorations and reversions alone and the class each operation has; a refusal names a fault that is there. |
| `WikiArgv.FaultlessIsSound` | core/harness/wiki_tool.go:238-285 | The values of a request are accepted if and only if every text is free of control characters and within its length, every number within its range, and the tags at most 64, trimmed, non-empty and without commas. |
| `ReplyText.FixedRepliesAreValid` | core/classifier/service.go:672-742 | Every fixed reply passes the direct-reply text check. |
| `ReplyText.SentTextHasNoLink` | core/classifier/service.go:828-839 | A text that passes the check has no link in it, in whatever case. |
| `ReplyText.SentTextIsPlain` | core/classifier/service.go:828-839 | It is one trimmed line of at most 240 characters without formatting or addressing. |
| `ClassifierGate.FixedEmojiAreValid` | core/classifier/openai_classifier.go:1498-1508 | Every fixed reaction is a valid emoji name. |
| `ClassifierGate.SanitizedEvidence` | core/classifier/service.go:407-435 | Sanitizing leaves only evidence of the right class, changes nothing that is right, and is idempotent. |
| `ClassifierGate.Prune` | core/classifier/service.go:413-428 | The loop keeps exactly the references of the class, in order, and says whether it dropped any. |
| `ClassifierGate.DecisionsAreValid` | core/classifier/service.go:76-102 | For every classifier answer or failure, predicted and effective decisions are valid against the pack. |
| `ClassifierGate.ValidMeans` | core/classifier/service.go:880-923 | What valid means, clause by clause: confidence, outcome, reasons, reaction, agent or reply, and the class of every piece of evidence. |
| `ClassifierGate.ActiveThreadStaysInThread` | core/classifier/service.go:251-293 | An active thread is never answered in the channel. |
| `ClassifierGate.SilenceIsAbsolute` | core/classifier/service.go:76-101 | Observe mode, hard suppression and shadowed ambient messages are effectively silent, and the shadow flag tells whether something was predicted. |
| `ClassifierGate.SuppressedForCause` | core/classifier/service.go:841-878 | A message is suppressed if and only if one of eight facts holds of it, and the reason names one that does. |
| `ClassifierGate.DirectMessagesAreAnswered` | core/classifier/service.go:294-356 | A direct message that is neither suppressed nor observed is never silent or reaction-only. |
| `ClassifierGate.AddressedAnswerIsUsed` | core/classifier/service.go:294-356 | A valid answer with agent work for a mention or direct message is used as it is, whatever its confidence; only the place may change, for a mention, to the one the message asks for or that suits the work, and then a reason is added. |
| `ClassifierGate.ActiveAnswerIsUsed` | core/classifier/service.go:251-293 | The same in an active thread, where only an answer in the channel moves, to the thread. |
| `ClassifierGate.AmbientAnswerIsUsed` | core/classifier/service.go:357-385 | A valid, confident answer to an unaddressed message is used unchanged unless it rests on restricted evidence alone or, in an assist channel, on nobody's initiative. |
| `ClassifierGate.AllowedReplyIsSent` | core/classifier/service.go:251-356 | A reply the classifier words itself is sent unchanged when it may be sent and its confidence reaches the threshold of the place. |
| `ClassifierGate.MentionWithoutAnswer` | core/classifier/service.go:452-480 | When the classifier fails a mention still gets an agent, in the place asked for or suited to the question. |
| `ClassifierGate.SmallTalkWithoutAnswer` | core/classifier/service.go:706-742 | Small talk addressed to the bot is returned in kind when the classifier fails. |
| `ClassifierGate.RepliesAreCalledFor` | core/classifier/service.go:796-818 | Whatever the classifier words, a reply goes out only to small talk, to a question that lacks its place, or to a direct message, to say what the bot cannot do or ask what is meant. |
| `ClassifierGate.DirectRepliesStayPut` | core/classifier/service.go:437-450 | A direct reply carries no agent work or evidence, is destination safe, and is in the thread if and only if the thread is active. |
| `ClassifierGate.GateKeeps` | core/classifier/service.go:372-384 | The ambient thresholds keep validity and only silence or move to the thread. |
| `ClassifierGate.EnforcingTwice` | core/classifier/service.go:119-128 | Enforcing participation is idempotent and leaves agent work only with an authorized initiative. |
| `ClassifierGate.InitiativeExactly` | core/classifier/service.go:130-160 | An unaddressed message justifies agent work if and only if one of six facts about it and the decision holds. |
| `ClassifierGate.AmbientOutputIsEarned` | core/classifier/service.go:357-385 | Ambient output passed mode, suppression, thresholds and initiative; it reaches the threshold if and only if its confidence is a number. |
| `ClassifierGate.NotANumberPasses` | core/classifier/service.go:357-385 | A concrete message and answer: with a confidence that is no number the agent answers in the channel, with a number below the threshold the same answer is silence. |
| `ClassifierGate.Gate.PredictFor` | core/classifier/service.go:251-385 | Asks the classifier once, or not at all for an unaddressed message in a mention-only channel. |
| `ClassifierGate.Gate.DecideFor` | core/classifier/service.go:76-113 | Decides as the gate does, whose use of every kind of answer the lemmas above state, and asks the classifier if and only if a provider call is said to be required and the mention-only case does not apply. |
| `ClassifierGate.PromisedCallNotMade` | core/classifier/service.go:104-113 | A concrete message in a mention-only channel for which a call is said to be required and none is made. |
| `CorrectionTail.CanonicalProfile` | core/classifier/openai_classifier.go:1357-1417 | The canonical profile keeps the course of a decision, infers full agent work, and picks an advertised profile. |
| `CorrectionTail.ProfileIsByStrength` | core/classifier/openai_classifier.go:1357-1417 | A profile nobody advertises is replaced by the first of the strength that was named or that the effort asks for; an advertised one stays. |
| `CorrectionTail.FloorKeeps` | core/classifier/openai_classifier.go:1419-1440 | The background floor changes only the profile, and to an advertised one. |
| `CorrectionTail.ReactionIsSettled` | core/classifier/openai_classifier.go:717-746 | The reaction ends on the list unless it is the provider's own and off it. |
| `CorrectionTail.DefaultReactionSuits` | core/classifier/openai_classifier.go:717-737 | Where nobody chose a reaction it is the one that suits the outcome, or the next best on the list. |
| `CorrectionTail.AcceptedExactly` | core/classifier/openai_classifier.go:681-746 | With all strengths advertised and emoji listed, a recommendation of any outcome is accepted if and only if neither the provider's reaction is off the list nor a direct reply survives with a non-reply outcome. |
| `CorrectionTail.AcceptedMeans` | core/classifier/openai_classifier.go:681-715 | What acceptance means: silent and bare, or reacting from the list and either replying, handing over to an agent with an advertised profile, or neither. |
| `CorrectionTail.TailTwice` | core/classifier/openai_classifier.go:239-244 | Correcting an accepted recommendation again changes nothing. |
| `CorrectionTail.SilentIsBare` | core/classifier/openai_classifier.go:1357-1372 | A silent recommendation loses everything it would do and nothing else. |
| `CorrectionTail.MissingStrengthFails` | core/classifier/openai_classifier.go:1394-1440 | Without all strengths, agent work, asked for or inferred and with any reaction, is refused for its profile if and only if its reaction ends on the list, its profile is unknown and neither the wanted strength nor the floor is advertised. |

## Left out

- Deletion of documents by TTL indexes, BSON encoding, list and count endpoints, and network errors after which a call may or may not have happened.
- HTTP, Slack, provider and process plumbing, logging, configuration loading and object wiring.
- String and regular-expression heuristics of the classifier: they are arbitrary readings of a message.
- HMAC key handling and metadata size validation of audit requests: commitments are injective constructors.
- AdmissionController.Controller.ReconcilePending: the context of a caller is a number of queries after which the next one fails; under endless interference the source's loop ends only with its context.
- AdmissionController.Controller.MarkExpired: the update of many documents is one step per document, in any order.
- MemoryQueue.MemoryQueue.Claim: jobs that tie on availability and age are scanned in any order.
- MarkCompletedUndelivered, MarkFinalDeliveryEnqueued, RecoverExpired and the other one-call operations of the shared queue are actions only, without a method of their own.
- Exact agreement of the two queues on the steering epoch after Cancel, on error kinds, and on which job Claim picks.
- Jobs that stay cancelling with a dead lease: neither queue recovers them.
- ApprovalCoordinator.Coordinator.ApproveIn: one clock reading stands for the two the source takes in one locked call.
- ApprovalCoordinator.Coordinator.HandleSlackDecision: audit, delivery and admission are sets of records, and the job queue is the locked one.
- Transition callbacks of workers leave the approval fields of a job alone; only a suspension sets them.
- Memories.MemoryStore.PutGenerated: drafts carry no identifier of their own, as the curator's do not.
- The actor names MongoStore records beside a memory, and its check that an actor is not blank.
- ModelRouter.Candidates: rules that tie on rank, priority and identifier may come in either order, as the source's sort is not stable.
- TableSplit.RenderTables: data tables with a caption, rendering of rich text, and block packing of messages are not part of this model.
- ContextPack.Build: content hash, tokenizer revision and the descriptive fields of a source.
- WikiArgv.Build: JSON decoding of the request and encoding of the envelope.
- ClassifierGate.DecisionsAreValid: response intent and topics, which no check looks at.
- The corrections that run before the correction tail, and the clean-up of audit reason codes after it.
