# CyberCore protocols in Dafny

A model of the five stateful protocols of CyberCore, with proofs of what they guarantee over whole
runs. `dafny verify dfyconfig.toml` checks all of it.

Each part has the same shape. A *model* file gives the protocol as functions on values: the state, one
function for each public call, and a run as a sequence of calls. *Guarantee* files prove invariants of
every run and the theorems that follow from them. *Outcome* files say, as equivalences, when a call
refuses, acts or succeeds, and how it ends. A last kind of file has the objects as the source has them
(classes with fields, loops, early exits); each of their methods ends in exactly the state and with
exactly the result that the model's function gives, so the theorems hold of the objects.

What a program cannot decide is an input, and the theorems hold for all of it: clock readings, callback
outcomes, the order in which threads take their steps, the listing order of a remote zone, and which
file operation fails.

## The parts

**Failover coordinator** (`Failover*.dfy`). Journal, leases, fenced provider, simulator. A run is any
sequence of `run`, `reconcile`, `compensate` and control steps: leases, takeovers, the clock, verdicts,
capabilities, approvals, observations by others, a journal that stops accepting commits, and a crash at
each of the three marked points. `writesLeft` is the number of journal commits that still succeed; the
source's `fail_writes` is zero, and any other number lets the journal fail inside a call. `between` is
what others do between the EXECUTING checkpoint and the second sampling of the gates. The dictionaries
for health, generation and epoch are one map of services. Effect ids are numbers. `causes` records for
each effect which operation and which actor made it; it is history kept for the theorems. Some results
say where a tempting claim fails, each with a run from a fresh state and the exact condition beside it.
Each of `run`, `reconcile` and `compensate` can report SUCCEEDED on a receipt that another operation left
under a colliding key. A journal that fails inside a call can leave two operations in flight on one
target. Without receipts a compensation that is cut off can restore twice, on any target of any provider.

**DNS planner** (`Dns*.dfy`). A zone is a map from id to record, the listing any sequence of its records.
A PATCH overwrites the fields it carries and merges metadata. The order used for sorting is a parameter;
where its properties matter they are stated. New ids are any ids not in use. The plan's fingerprint is
the sequence of changes it shows. Two managed records that look alike make the plan, and with it the
fingerprint, depend on the order of the listing; that is exactly when it does. A rollback that is sent
restores what was there, but the planner may refuse it: exactly when a record to be restored conflicts
with one that the manifest does not manage, as one beside an NS record does.

**LongRun engine** (`LongRun*.dfy`). Any number of engines step any number of missions on one store, one
step after the other; callbacks are outcome values and the clock is a stream of readings. In
`LongRunOverlaps.dfy` their loads and writes interleave. The store takes no lock and an update checks no
version: the results carry over while every save finds the row that its step loaded, and a save that does
not can take a completed run back. A process may stop inside a step: before it saves anything, after a
replan, or between the executor's call and its event. A digest stands for the text it was made from. The
bound on the number of steps assumes only that each reading is at least `delta` later than the one
before; it is shown to be the best possible.

**Action Kernel** (`Kernel*.dfy`, `ActionKernels.dfy`, `TrustedBroker.dfy`, `ClaimTable.dfy`,
`ReplayGuards.dfy`, `Hive*.dfy`, `AuditChain.dfy`). Calls of `execute` are threads whose atomic steps
interleave in any order; an audit sink may also fail after it has stored an event. The bridge is a
function of its eleven clock readings, and deadlines are judged against true instants that only the
monotonic clock follows; its calls are taken one after the other, and, in `HiveInterleavings.dfy`, step
by step beside each other. The replay guard's table is described by the history of claims. In the audit
chain the hash is any function with hexadecimal output: results that need it free of collisions end in
"or here are two texts that collide".

**Two-file write** (`File*.dfy`, `LegacyBlocks.dfy`, `Texts.dfy`). Every file operation may fail, by an arbitrary
schedule of faults. The model takes any number of targets; the source has two. `mustExist` is the variant
of the post-merge plan, whose targets have to be there. Temporary names tell the target, the kind and a
number; they are never names of targets. `leaked` records that the removal of a temporary file failed.
One result corrects what one might expect: an exception from the clean-up hides how the write went,
whether it was done or only half undone, so an exception other than the one for an incomplete rollback
does not mean that nothing changed. The exact condition is proved, with both inputs. After an incomplete
rollback the clean-up deletes the staged copy that could not be put back.

## Model

| member | source | states |
|---|---|---|
| FailoverRuns.AtMostOnce | src/cybercore/failover_sim.py:305-319 | in any run from a fresh state, two effects caused by one operation are never both forward effects, idempotent provider or not |
| FailoverRuns.AtMostOneRestore | src/cybercore/failover_sim.py:542-588 | with an idempotent provider, one operation is restored at most once, however often compensation is tried |
| FailoverRuns.StoppedNeverActs | src/cybercore/failover_sim.py:455-540 | an operation found STOPPED has caused no forward effect and causes none in any continuation of the run |
| FailoverRuns.SettledForever | src/cybercore/failover_sim.py:497-506 | the row of an operation in a terminal state is the same after any further steps |
| FailoverRuns.TerminalAbsorbs | src/cybercore/failover_sim.py:542-550 | run and compensate refuse a terminal operation and reconcile returns its state, all without any change |
| FailoverRuns.EffectsFenced | src/cybercore/failover_sim.py:293-298 | effects on one target carry non-decreasing epochs, strictly increasing when made for different actors, across all takeovers |
| FailoverRuns.LogExplainsJournal | src/cybercore/failover_sim.py:117-206 | the row of every operation is the fold of its events, and the alerts are those the log implies |
| FailoverRuns.WriteAhead | src/cybercore/failover_sim.py:469-483 | each effect has an earlier EXECUTING or RECOVERING event of its operation, for the journaled actor and target |
| FailoverRuns.ChangeMeansEffect | src/cybercore/failover_sim.py:158-206 | a row that claims a change, or SUCCEEDED, names a real effect under one of the operation's two keys |
| FailoverRuns.ChangeMeansOwnEffect | src/cybercore/failover_sim.py:568-588 | if no journaled id is another one's compensation key, that effect was made for this very operation |
| FailoverRuns.SuccessIsOwnEffectIff | src/cybercore/failover_sim.py:455-495 | a run that succeeds made an effect of its own if and only if no receipt was stored under its id before |
| FailoverSuccess.ReconcileSuccessIsOwnEffectIff | src/cybercore/failover_sim.py:509-540 | after a reconciliation of an open operation that reports SUCCEEDED, the operation has caused its effect if and only if no other operation left the receipt under its id |
| FailoverSuccess.CompensateSuccessIsOwnEffectIff | src/cybercore/failover_sim.py:568-588 | after a compensation that reports SUCCEEDED, the operation has been restored if and only if no other operation left the receipt under its compensation key |
| FailoverSuccess.NewSuccessIsHealthy | src/cybercore/failover_sim.py:484-495 | a step that makes an operation SUCCEEDED has acted for it and ends with its target readable and healthy |
| FailoverRuns.NewEffectsAuthorizedAndExclusive | src/cybercore/failover_sim.py:383-428 | a step adds at most one effect, with every gate open at that moment and no other operation in flight on the target |
| FailoverRuns.RunKeepsSoloIff | src/cybercore/failover_sim.py:455-495 | run keeps "one operation in flight per target" if and only if it is not cut off after PREPARED beside an operation in flight |
| FailoverRuns.OneInFlight | src/cybercore/failover_sim.py:245-252 | between calls at most one operation per target is in flight, unless the journal starts failing inside a call |
| FailoverInvariants.GatesMeanAuthorized | src/cybercore/failover_sim.py:383-428 | the gates pass exactly for the requests that a declarative list of conditions authorizes |
| FailoverOutcomes.GatesTell | src/cybercore/failover_sim.py:383-428 | the gates pass exactly for an eligible request with capability, lease and verdict, each spelled out, and they report the capability, lease, epoch and verdict as far as they got |
| FailoverOutcomes.TransitionIsLogged | src/cybercore/failover_sim.py:158-206 | each transition adds one event with the time, the recorded intent, what the gates report at that moment, and the reason |
| FailoverOutcomes.LeaseIsGrantedIff | src/cybercore/failover_sim.py:222-243 | a lease changes hands only on a known fenced target with none in force, or by takeover; it has the next epoch, which the provider takes over unless it is ahead already |
| FailoverOutcomes.MutateRefusesIff | src/cybercore/failover_sim.py:305-312 | the provider itself refuses exactly what is not a restart or restore of a target of its own under its current epoch with fencing |
| FailoverOutcomes.RunEnds | src/cybercore/failover_sim.py:455-495 | a new operation that nothing interrupts acts on its target, and ends by the health found there, if and only if it is authorized; otherwise it is STOPPED with the provider untouched |
| FailoverOutcomes.RunRefuses | src/cybercore/failover_sim.py:455-457 | a run under an id that is journaled, whatever its state, is refused and changes nothing |
| FailoverOutcomes.DispatchGoes | src/cybercore/failover_sim.py:458-474 | without authority a new operation is STOPPED; with it a crash at the first two points leaves it PREPARED or EXECUTING and the provider untouched |
| FailoverOutcomes.EffectEnds | src/cybercore/failover_sim.py:475-495 | at the effect boundary authority is asked for anew: with it exactly one effect, or a receipt found, with its verification or the crash after it; without it STOPPED and no effect |
| FailoverOutcomes.ReconcileWithoutRetryOnlyLooks | src/cybercore/failover_sim.py:497-523 | reconciling without retry never changes the provider, in any state |
| FailoverOutcomes.ReconcileRefuses | src/cybercore/failover_sim.py:497-508 | a missing operation and a request for another intent are refused, a terminal operation is returned, all without change |
| FailoverOutcomes.ReceiptDecides | src/cybercore/failover_sim.py:514-519 | a receipt under its id settles an open operation: SUCCEEDED on a healthy target, UNKNOWN on another, the provider untouched |
| FailoverOutcomes.ReconcileLooks | src/cybercore/failover_sim.py:509-523 | an open operation whose target cannot be read, or that has no receipt and may not act again, is UNKNOWN with the provider untouched |
| FailoverOutcomes.RedispatchEnds | src/cybercore/failover_sim.py:524-540 | acting again logs EXECUTING, acts once for this operation and ends by the health found; without authority it is STOPPED and untouched |
| FailoverOutcomes.ReconcileActsAgainIff | src/cybercore/failover_sim.py:509-527 | reconciliation acts again if and only if a retry is asked for, the operation is open, its target is readable and without a receipt, receipts and fencing are kept, and the effect is authorized |
| FailoverOutcomes.CompensateRefuses | src/cybercore/failover_sim.py:542-550 | unless the row is there, UNKNOWN or RECOVERING, and recorded for this request, a compensation is refused with the reason and changes nothing |
| FailoverOutcomes.CompensateGoesOn | src/cybercore/failover_sim.py:564-588 | any other compensation goes on to RECOVERING, restores the target and ends by the health found, if a restore is authorized; if not it is RECOVERY_BLOCKED and the provider untouched |
| FailoverOutcomes.InFlightOrTerminal | src/cybercore/failover_sim.py:245-252 | every state is either one of the four terminal ones or in flight, and the alerting ones are UNKNOWN and the terminal ones but SUCCEEDED |
| FailoverInvariants.ReachableInv | src/cybercore/failover_sim.py:322-588 | the invariant behind these results (log replay, fencing, accounting of effects) holds after every run |
| FailoverExamples.ReceiptMakesRunSucceed | src/cybercore/failover_sim.py:455-495 | a receipt already stored under its id lets a new operation end SUCCEEDED with the provider unchanged |
| FailoverExamples.ReceiptMakesReconcileSucceed | src/cybercore/failover_sim.py:509-520 | any receipt under its id lets an open operation on a healthy target be reconciled as SUCCEEDED with the provider unchanged |
| FailoverExamples.ReceiptMakesCompensationSucceed | src/cybercore/failover_sim.py:568-588 | any receipt under the compensation key lets a compensation end SUCCEEDED with the provider unchanged |
| FailoverExamples.CollidingIdSucceedsWithoutEffect | src/cybercore/failover_sim.py:575-588 | a reachable run in which an operation named like a compensation key ends SUCCEEDED and has caused no effect |
| FailoverExamples.CollidingReconcileSucceedsWithoutEffect | src/cybercore/failover_sim.py:497-520 | a reachable run in which reconciling such an operation, cut off at PREPARED, ends SUCCEEDED without an effect of its own |
| FailoverExamples.CollidingCompensationRestoresNothing | src/cybercore/failover_sim.py:542-588 | a reachable run in which a compensation ends SUCCEEDED and nothing has ever been restored |
| FailoverExamples.TornJournalLeavesTwoInFlight | src/cybercore/failover_sim.py:455-468 | a reachable run with a journal failing inside two calls, after which two operations are in flight on one target |
| FailoverExamples.CutOffCompensation | src/cybercore/failover_sim.py:568-588 | on a provider without receipts, a compensation cut off after its RECOVERING checkpoint has restored the target and can be called again |
| FailoverExamples.RestoredTwiceWithoutReceipts | src/cybercore/failover_sim.py:542-588 | so any operation that may be restored there can be restored twice |
| FailoverExamples.RestoredTwiceFromFresh | src/cybercore/failover_sim.py:542-588 | a reachable run on such a provider with two restores of one operation: the condition of AtMostOneRestore cannot be dropped |
| FailoverRestores.AnyTargetIsRestoredTwice | src/cybercore/failover_sim.py:542-588 | from every fresh state with a provider without receipts, and for every target it has, a run reaches two restores of one operation |
| FailoverRestores.AtMostOneRestoreIff | src/cybercore/failover_sim.py:305-319 | every run from a fresh state restores each operation at most once if and only if its provider keeps receipts or has no targets |
| FailoverCoordinator.Journal.Begin | src/cybercore/failover_sim.py:117-150 | row and event are committed together, or nothing when the journal fails or the id exists |
| FailoverCoordinator.Journal.Transition | src/cybercore/failover_sim.py:158-206 | state, change and epoch move with their event in one commit; a missing operation and a failing journal change nothing |
| FailoverCoordinator.Journal.Acquire | src/cybercore/failover_sim.py:222-243 | a lease is granted iff none is active or it is a takeover, with the epoch one above the last |
| FailoverCoordinator.FakeProvider.Fence | src/cybercore/failover_sim.py:293-298 | an epoch below the fence is refused, any other becomes the fence |
| FailoverCoordinator.FakeProvider.Mutate | src/cybercore/failover_sim.py:305-319 | the object ends in the state, and answers, as the model's mutation of the same provider does |
| FailoverCoordinator.Simulator.TakeLease | src/cybercore/failover_sim.py:360-367 | lease and fence together, or neither when the lease is refused |
| FailoverCoordinator.Simulator.Run | src/cybercore/failover_sim.py:455-495 | the call on the objects is the run step of the model, crash points and outside interference included |
| FailoverCoordinator.Simulator.Reconcile | src/cybercore/failover_sim.py:497-540 | the call on the objects is the reconcile step of the model, with and without retry, so it acts again exactly under the condition of ReconcileActsAgainIff |
| FailoverCoordinator.Simulator.Compensate | src/cybercore/failover_sim.py:542-588 | the call on the objects is the compensate step of the model, so it refuses and goes on exactly as CompensateRefuses and CompensateGoesOn say |
| DnsConvergence.PlanConverges | src/cybercore/cloudflare_dns.py:722-789 | sending the plan leaves unmanaged records alone and makes the managed ones exactly the desired ones: always for a forward plan, for a rollback iff no overwritten record has metadata its replacement lacks |
| DnsExamples.UncoveredRollbackStaysInexact | src/cybercore/cloudflare_dns.py:833-848 | a loadable rollback manifest and a zone for which the rollback plan leaves a metadata field behind |
| DnsExamples.MixedIsLoadable | src/cybercore/cloudflare_dns.py:486-519 | the rules of a manifest let through both kinds of addresses with a text at one name, a proxied alias, a Null MX, several exchanges, and the ends of the ranges of TTLs and priorities |
| DnsConvergence.NoChangesIff | src/cybercore/cloudflare_dns.py:735-767 | the plan is empty exactly when the managed part of the zone is already as desired |
| DnsConvergence.PlanIsReady | src/cybercore/cloudflare_dns.py:744-767 | every change stays in its recordset, and no record id is touched by two changes |
| DnsGuarantees.ReplanningFindsNothing | src/cybercore/cloudflare_dns.py:1060-1080 | after a forward plan is sent, any new listing yields no change and the same verdict on conflicts |
| DnsGuarantees.WrittenIsWellFormed | src/cybercore/cloudflare_dns.py:297-326 | sending any plan, converged or not, leaves every managed record well-formed |
| DnsGuarantees.AcceptedPlanLeavesCleanNames | src/cybercore/cloudflare_dns.py:674-719 | afterwards a desired CNAME name holds one A/AAAA/CNAME record, a desired address name no CNAME and one proxy mode, and a Null MX is the only MX there (section 3 of RFC 7505) |
| DnsGuarantees.AcceptedIffCleanNames | src/cybercore/cloudflare_dns.py:674-719 | and the other way round: a listing is accepted if and only if the zone as desired, with its unmanaged records, has such names, so nothing else is ever a conflict |
| DnsGuarantees.KindsAre | src/cybercore/cloudflare_dns.py:19-22 | the kinds that resolve a name are A, AAAA and CNAME, the addresses A and AAAA, and the managed ones leave out NS and all unknown ones |
| DnsGuarantees.ConflictsStay | src/cybercore/cloudflare_dns.py:674-719 | the verdict on conflicts depends on the unmanaged records alone, so no write of managed records changes it |
| DnsMinimality.SetPlanLength | src/cybercore/cloudflare_dns.py:744-767 | per recordset the plan has as many changes as the larger of the two multiset differences of keys |
| DnsMinimality.PlanIsMinimal | src/cybercore/cloudflare_dns.py:735-767 | no sequence of creates, deletes and overwrites within a recordset reaches the desired records in fewer writes |
| DnsMinimality.PlanIgnoresListingOrder | src/cybercore/cloudflare_dns.py:735-767 | unless two managed records look alike, every order of the listing gives the same plan |
| DnsListingOrder.ListingOrderMattersIff | src/cybercore/cloudflare_dns.py:735-767 | every listing of a zone gives the same plan if and only if no two managed records look alike to the planner |
| DnsListingOrder.ApprovalSurvivesRelistingIff | src/cybercore/cloudflare_dns.py:641-658 | the fingerprint of an approved plan survives every re-listing of an unchanged zone under exactly that condition; otherwise a listing alone makes it drift |
| DnsListingOrder.TwinDeletesFollowTheListing | src/cybercore/cloudflare_dns.py:744-767 | two ids with one undesired record are deleted in the order in which they are listed |
| DnsRollback.RollbackRestores | src/cybercore/cloudflare_dns.py:833-848 | a forward plan, then the changes that a loadable rollback manifest of the records seen before it calls for, when sent, restore every managed record up to ids, fields and metadata, and never touch an unmanaged one |
| DnsRollback.RollbackUndoes | src/cybercore/cloudflare_dns.py:744-767 | each overwrite of the rollback plan puts a record back over the very record that replaced it |
| DnsRollbackAcceptance.RollbackAcceptedIff | src/cybercore/cloudflare_dns.py:674-719 | after an accepted forward plan the planner returns the rollback plan if and only if the recorded records do not conflict with the unmanaged ones listed then, which can be told when the rollback manifest is written; otherwise it refuses with a name conflict |
| DnsRollbackAcceptance.AcceptedRollbackRestores | src/cybercore/cloudflare_dns.py:722-789 | so on that condition two accepted plans, sent one after the other, leave the managed records as they were and the unmanaged ones untouched |
| DnsRollbackAcceptance.RefusedRollback | src/cybercore/cloudflare_dns.py:690-693 | a zone whose forward plan removes an address beside an unmanaged NS record; its rollback manifest is loadable and its rollback is refused |
| DnsPlanner.MatchSet | src/cybercore/cloudflare_dns.py:744-752 | the loop leaves the records that find no wanted key, and the keys that no record claimed |
| DnsPlanner.PairChanges | src/cybercore/cloudflare_dns.py:753-767 | updates for the common length, then creates or deletes for the rest, in order |
| DnsPlanner.BuildPlan | src/cybercore/cloudflare_dns.py:722-789 | conflict, too many changes, or the plan of all managed recordsets |
| DnsPlanner.PlanAcceptedIff | src/cybercore/cloudflare_dns.py:722-789 | a forward plan is refused for a name conflict exactly when the zone it would make has names that are not clean, and otherwise only for more than 200 changes |
| DnsPlanner.BuildBatch | src/cybercore/cloudflare_dns.py:297-326 | one request with deletes, patches and posts in plan order; refused when too long or when an id is missing |
| DnsPlanner.FingerprintFixesBatch | src/cybercore/cloudflare_dns.py:641-672 | two plans for one manifest with the same fingerprint send the same batch |
| DnsPlanner.ListingsAgreeIff | src/cybercore/cloudflare_dns.py:660-671 | the drift check on two listings tells exactly whether the managed records of their zones are the same, under the same ids |
| DnsPlanner.WriteAtBoundary | src/cybercore/cloudflare_dns.py:1030-1060 | what is sent is a plan with the approved fingerprint for a listing whose managed records are those planned from, so drift of either is refused without any write; a zone in which neither has drifted is never refused; unmanaged records are kept and a forward write leaves the zone as desired |
| DnsPlanner.VerifyZone | src/cybercore/cloudflare_dns.py:1060-1080 | the verifying plan accepts exactly a zone that is as desired and has no conflicts |
| DnsPlanner.ApplyManifest | src/cybercore/cloudflare_dns.py:952-1089 | a first plan with another fingerprint than the approved one is refused, and only a plan with the approved one is ever sent, to a zone whose managed records are still those it was made for; success means the zone is as desired, whatever others did meanwhile; without a write nothing is sent; an undisturbed forward write succeeds |
| LongRunRuns.StoredRunIsItsLog | src/cybercore/longrun/state.py:135-219 | after any calls, made one after the other, a run equals the replay of its events, each carrying the step and time of its row; a run not stored has no replay |
| LongRunRuns.CountersWithinLimits | src/cybercore/longrun/watchdog.py:12-27 | consecutive failures and duplicates of a stored run never exceed the limits of its mission |
| LongRunRuns.EndsAreJustified | src/cybercore/longrun/engine.py:329-374 | COMPLETED: the last event is a success with a PASS at or over the threshold, bound to the stored evidence, inside the time window; STOPPED: the budget is spent; BLOCKED: the last event names the block |
| LongRunRuns.OnlyAuthorizedStepsExecute | src/cybercore/longrun/governor.py:27-39 | every proposal handed to the executor was allowed and not prohibited by the run's own mission, the one whose digest it carries, and its gains exceeded its cost, risk and duplication; each such call has its event, except where the process stopped before saving it |
| LongRunRuns.GovernorMeans | src/cybercore/longrun/governor.py:17-39 | a proposal passes if and only if its effect is allowed, not prohibited, and its gains exceed its cost, risk and duplication; a refusal gives the first of the three grounds there is |
| LongRunOutcomes.StepTells | src/cybercore/longrun/engine.py:87-411 | the last event of a step is the one that its readings and callbacks call for, with the fingerprint, value, digest and status of what happened; a replan comes first exactly when the run is stuck and has time left; the executor is called exactly when two readings are within the budget and the proposal is cleared |
| LongRunOutcomes.StepReads | src/cybercore/longrun/engine.py:87-411 | a step reads the clock one to four times, by the way it ends, and its row carries the last reading |
| LongRunOutcomes.CompletesIff | src/cybercore/longrun/engine.py:350-374 | a step completes its run if and only if the proposal was cleared, the executor succeeded with evidence, a trusted evaluation of it passes at the threshold, the result can be stored, and the readings lie in the window |
| LongRunOutcomes.StopsIff | src/cybercore/longrun/engine.py:92-172 | a step stops its run if and only if its first or second reading, or the last one of a conclusive result, is past the budget |
| LongRunOutcomes.CutLeaves | src/cybercore/longrun/engine.py:87-190 | a process that stops inside a step leaves a replan that was due unless it stops before saving, and after the executor's call that call without an event, exactly when the step would have got there |
| LongRunOutcomes.TrustedMeans | src/cybercore/longrun/evaluation.py:76-98 | an evaluation is valid exactly when somebody with a name and a version gives reasons, a score on the scale and a known verdict for this very evidence |
| LongRunOutcomes.MissionIsInvalidIff | src/cybercore/longrun/manifest.py:32-53 | a mission is invalid exactly for a budget out of order, a threshold off the scale, no room for a failure or a duplicate, or an effect both allowed and prohibited |
| LongRunRuns.AtMostOneMoreForEachStop | src/cybercore/longrun/engine.py:186-222 | the executor is called as often as the events say, and at most once more for each stop between its call and its event |
| LongRunRuns.StopIsOffTheRecord | src/cybercore/longrun/engine.py:186-222 | that one more does occur: a first step stopped there has executed and no event says so |
| LongRunInvariants.HandsOverTheSame | src/cybercore/longrun/engine.py:142-190 | a step cut off after the executor's call hands over exactly what a whole step does |
| LongRunRuns.EndedForEver | src/cybercore/longrun/engine.py:87-90 | a run that has ended keeps its row, its log and its number of executor calls under any further calls of any engine that begin after it has ended |
| LongRunRuns.MissionIsImmutable | src/cybercore/longrun/engine.py:63-76 | calls with a changed mission text never alter the run the earlier text started |
| LongRunRuns.CallLeavesAlone | src/cybercore/longrun/engine.py:87-411 | neither a whole step nor one cut off anywhere changes another run, or a run that has ended or belongs to another mission |
| LongRunRuns.StepLeavesAlone | src/cybercore/longrun/engine.py:87-411 | a step changes no other run, and nothing at all when its own run has ended or belongs to another mission |
| LongRunInvariants.StepKeeps | src/cybercore/longrun/engine.py:87-411 | from a live row within limits, the events of one step fold to its new row, which is within limits and justified |
| LongRunInvariants.RunAllKeeps | src/cybercore/longrun/engine.py:87-411 | the invariant of all runs on the store survives any sequence of calls, whole or cut off |
| LongRunOverlaps.AloneIsRunStep | src/cybercore/longrun/engine.py:87-411 | a load and the writes of its step with nothing in between are one whole step of the engine |
| LongRunOverlaps.FreshSavesKeep | src/cybercore/longrun/state.py:197-219 | however the loads, writes and stops of any engines interleave, the invariant of all runs survives while every save finds, but for its time, the row that its step goes on from |
| LongRunOverlaps.FreshRunIsItsLog | src/cybercore/longrun/state.py:135-219 | from an empty store, under that condition, every run is the replay of its log, within limits and ended for cause |
| LongRunOverlaps.FreshEndedForEver | src/cybercore/longrun/engine.py:87-90 | under that condition a run that has ended keeps its row and its log, also against steps that loaded it before it ended |
| LongRunOverlaps.StaleSaveIff | src/cybercore/longrun/state.py:197-219 | a step that may get as far as the executor leaves its run equal to its log, whatever its callbacks and clock do, if and only if nothing but the time of the row has changed since the step loaded it |
| LongRunOverlaps.CompletedIsTakenBack | src/cybercore/longrun/state.py:197-219 | for any mission that can complete: two engines load one row, one completes the run, the other saves a failed step over it; the run is live again with its step number unchanged, and is no longer what its log says |
| LongRunTermination.EndsWithinBudget | src/cybercore/longrun/engine.py:413-421 | with an advancing clock the loop ends by itself, terminal or with a callback's exception, within n steps for any n with 4n readings exceeding the budget |
| LongRunTermination.BoundIsMet | src/cybercore/longrun/engine.py:413-421 | for the least such n, callbacks and a clock exist that take exactly n steps |
| LongRunTermination.NeverMoreThanLimit | src/cybercore/longrun/engine.py:413-421 | under any clock the loop takes at most the given number of steps, and stops earlier only when it is over |
| LongRunTermination.GoingOnTakesFourReadings | src/cybercore/longrun/engine.py:92-142 | a step that leaves the run live has read the clock four times, the last time within the budget |
| LongRunEngine.LongRunStateStore.CreateWithEvent | src/cybercore/longrun/state.py:135-155 | row and event are inserted together, or neither when the run exists |
| LongRunEngine.LongRunStateStore.SaveWithEvent | src/cybercore/longrun/state.py:197-219 | an unencodable payload writes nothing; otherwise the row, if there is one, and the event are written together |
| LongRunEngine.LongRunEngine.LoadOrCreate | src/cybercore/longrun/engine.py:63-76 | the engine's load is the load of the model |
| LongRunEngine.LongRunEngine.RunStep | src/cybercore/longrun/engine.py:87-411 | the engine's step is the step of the model, for any callback outcomes |
| LongRunEngine.LongRunEngine.RunUntilTerminal | src/cybercore/longrun/engine.py:413-421 | the loop ends as the model's bounded loop does; without a step limit its result is never a live run |
| ClaimTable.TableIsUnexpiredHistory | src/cybercore/action_kernel_hive_bridge.py:59-91 | after any history the table holds a key iff a recorded claim of it has never been seen to expire: no unexpired claim is dropped, no expired one kept |
| ClaimTable.BoundsHold | src/cybercore/action_kernel_hive_bridge.py:80-89 | the entries, and the entries of each actor, never exceed their limits |
| ClaimTable.ConsumedIff | src/cybercore/action_kernel_hive_bridge.py:67-78 | a claim is refused as consumed iff an earlier recorded claim of its key still stands |
| ClaimTable.AcceptedAgainOnlyAfterExpiry | src/cybercore/action_kernel_hive_bridge.py:59-91 | with a clock that never goes back, a key is accepted again only at or past the expiry of its recorded claim |
| ClaimTable.AtMostOnceBeforeExpiry | src/cybercore/action_kernel_hive_bridge.py:59-91 | a key with one expiry is accepted at most once before it |
| ClaimTable.BackwardClockForgets | src/cybercore/action_kernel_hive_bridge.py:67-74 | three claims under a clock that jumps ahead and back let one key through twice before its expiry |
| ReplayGuards.ExpiringProcessReplayGuard.ClaimOnce | src/cybercore/action_kernel_hive_bridge.py:59-91 | purge loop, count and insertion give the table and outcome of the model's claim |
| ReplayGuards.ExpiringProcessReplayGuard.CountFor | src/cybercore/action_kernel_hive_bridge.py:84-86 | the count is the number of held claims of the actor |
| ReplayGuards.DurableReplayGuard.ClaimOnce | src/cybercore/action_kernel_sqlite_replay.py:28-43 | a malformed key is an error, a known key loses, a new one wins and is kept |
| ReplayGuards.ExactlyTheFirstWins | src/cybercore/action_kernel_sqlite_replay.py:28-43 | in any history of claims asked of the durable guard, malformed ones included, exactly the first well-formed claim of a key wins, each key so claimed has its winner, and exactly the malformed ones are errors |
| HiveGuarantees.BudgetEndsAtExpiryPlusLag | src/cybercore/action_kernel_hive_bridge.py:199-210 | on a faithful monotonic clock the budget ends at the true expiry plus the lag of the better UTC sample |
| HiveGuarantees.BudgetSoundIff | src/cybercore/action_kernel_hive_bridge.py:199-210 | the budget never outlives the true expiry iff one UTC sample is at least the true time at which sampling began |
| HiveGuarantees.DispatchedAndReturnedInTime | src/cybercore/action_kernel_hive_bridge.py:236-261 | with one UTC sample not behind, a dispatch is checked before the true expiry, and a success was dispatched and returned before it, whatever the wall clock reads later |
| HiveGuarantees.TwoDispatchesNeedAnExpiredReading | src/cybercore/action_kernel_hive_bridge.py:127-149 | even if the durable guard always says yes, one key is dispatched twice only if the process guard has read a time at or past its expiry in between |
| HiveGuarantees.OneReadingAheadDispatchesTwice | src/cybercore/action_kernel_hive_bridge.py:67-74 | and it does happen: three calls with one guard reading ahead, after which one key has been dispatched twice, each time before its expiry by all its own readings |
| HiveGuarantees.DispatchedAtMostOnce | src/cybercore/action_kernel_hive_bridge.py:127-149 | behind a durable guard that never forgets, one key is dispatched at most once, whatever the clocks do |
| HiveInterleavings.OneDispatchPerKey | src/cybercore/action_kernel_hive_bridge.py:127-149 | however calls interleave at their claims, dispatches and results, and whatever the clocks and the process guard say, one key is dispatched at most once behind the durable guard's set of claims |
| HiveInterleavings.AloneIsRun | src/cybercore/action_kernel_hive_bridge.py:152-287 | a call that is not interrupted ends as the whole run of the bridge with the durable guard's own answer |
| HiveOutcomes.DispatchedIff | src/cybercore/action_kernel_hive_bridge.py:167-261 | a task is dispatched if and only if the kernel executed and allowed this very task of this actor with this expiry and a short enough lifetime, the bridge has a guard and a shape for it, both guards grant its key, and every check before finds it in time |
| HiveOutcomes.SucceedsIff | src/cybercore/action_kernel_hive_bridge.py:262-287 | a call succeeds if and only if it was dispatched, the reply is a dry-run health check for this task and target that denies no correlation, and it came back in time |
| HiveOutcomes.RefusalMeans | src/cybercore/action_kernel_hive_bridge.py:127-192 | each refusal for the receipt or by a guard is given exactly for its own ground, the receipt before any clock |
| HiveOutcomes.SomeRunDispatches | src/cybercore/action_kernel_hive_bridge.py:152-287 | any call that is entitled and in time is dispatched by some run of the bridge from the empty one, which then holds its claim |
| HiveGuarantees.TableIsThatOfClaims | src/cybercore/action_kernel_hive_bridge.py:134-142 | the process table after any calls is the one after the claims they made: nothing later in a call gives a claim back |
| HiveBridgeRunner.ClaimBoth | src/cybercore/action_kernel_hive_bridge.py:127-149 | the local claim is taken first and stays taken whatever the durable guard answers |
| HiveBridgeRunner.RunLocalDryRun | src/cybercore/action_kernel_hive_bridge.py:152-287 | checks, claims, dispatch and result checks in the source's order give the table, verdict and dispatch of the model, so it dispatches and succeeds exactly as DispatchedIff and SucceedsIff say |
| KernelGuarantees.AtMostOneExecuted | src/cybercore/action_kernel.py:179-306 | in every interleaving of calls one task id has at most one EXECUTED receipt |
| KernelGuarantees.ExecutedIsAudited | src/cybercore/action_kernel.py:179-306 | an EXECUTED receipt is of a permitted request, has exactly its request, ALLOW, COMPLETED and RECORDED records in that order, an expiry check that passed, and evidence of the target asked for |
| KernelOutcomes.LoneCallExecutesIff | src/cybercore/action_kernel.py:179-306 | a call by itself is EXECUTED if and only if there is a sink that takes all four events, the request is permitted and its id free, neither expiry check is late, and the evidence is not too long |
| KernelOutcomes.SomeRunExecutes | src/cybercore/action_kernel.py:179-306 | every permitted request is executed by some run from the empty kernel, which then holds just its id |
| KernelOutcomes.LogGrowsIff | src/cybercore/action_kernel.py:418-447 | the log grows by one event exactly when a call offers one and the sink stores it, whether it then fails or not |
| KernelGuarantees.AtMostOneDispatch | src/cybercore/action_kernel_trusted_broker.py:48-65 | at most one call per task id is handed on to a dispatch, even if every replay guard says yes |
| KernelGuarantees.AtMostOneCompletion | src/cybercore/action_kernel.py:271-291 | the sink never holds two COMPLETED records for one task id, also when it fails after storing |
| KernelGuarantees.ReservationsHaveOneHolder | src/cybercore/action_kernel.py:453-462 | every reserved id is held by exactly one call |
| KernelPolicy.PolicyMeans | src/cybercore/action_kernel.py:308-370 | a request is allowed if and only if it has not expired, its id is not taken, and it is permitted: a listed caller asking for himself, known contracts and provenance, a capability of that name that lists the target for reading and takes the arguments, and a known status of the target |
| KernelPolicy.RefusalNamesTheFirstFault | src/cybercore/action_kernel.py:308-370 | a refusal names a fault that the request has, and the request has none of the faults that come before it in the order of the policy |
| KernelGuarantees.RunInv | src/cybercore/action_kernel.py:179-306 | reservations and audit trails agree with where every call stands, in every interleaving |
| ActionKernels.CompleteIsARun | src/cybercore/action_kernel.py:179-306 | a call that runs without interruption is one of the interleavings and ends with a receipt |
| ActionKernels.ActionKernel.Execute | src/cybercore/action_kernel.py:179-306 | the method's kernel state and receipt are those of the state machine run to completion |
| ActionKernels.ActionKernel.ReserveTaskId | src/cybercore/action_kernel.py:457-462 | true exactly for an id not yet reserved, and reserved it is afterwards |
| TrustedBroker.TrustedLocalHiveBroker.Execute | src/cybercore/action_kernel_trusted_broker.py:48-65 | a foreign actor touches nothing; the bridge runs only on the kernel's own EXECUTED and allowed receipt, and the hand-over is recorded |
| TrustedBroker.DispatchedByBrokerIff | src/cybercore/action_kernel_trusted_broker.py:48-65 | after any calls, an uninterrupted request is executed by the kernel and dispatched by the bridge if and only if it is permitted, its id free, every check of the kernel in order, and the lifetime of its receipt, both guards and all readings of the bridge allow it |
| TrustedBroker.HandOverIsAStep | src/cybercore/action_kernel_trusted_broker.py:55-65 | the hand-over is a step of the kernel's state machine, so the results on dispatches cover the broker |
| AuditChain.AppendKeepsVerifiedIff | src/cybercore/action_kernel_sqlite_audit.py:43-62 | an append to a verified chain verifies iff the autoincrement counter equals the number of rows, that is, no row was removed at the end |
| AuditChain.AppendsExtend | src/cybercore/action_kernel_sqlite_audit.py:43-62 | any appends to a whole chain keep it verified, keep its rows and add the payloads in order |
| AuditChain.CheckpointSurvivesAppends | src/cybercore/action_kernel_audit_checkpoint.py:65-93 | a checkpoint taken at any time still verifies after any appends |
| AuditChain.SameDigestSameHistory | src/cybercore/action_kernel_audit_checkpoint.py:48-62 | two verified histories with one digest at one sequence number have the same rows up to it, or two of their texts collide |
| AuditChain.AnchorPinsTheHistory | src/cybercore/action_kernel_audit_checkpoint.py:74-93 | a database that passes against a checkpoint of an original has that original as a prefix, or two texts collide |
| AuditChain.AnchoredIffExtends | src/cybercore/action_kernel_audit_checkpoint.py:74-93 | without a collision, the databases that pass are exactly the verified extensions of the original under the identity that is expected |
| AuditChain.WidthIsLeast | src/cybercore/action_kernel_sqlite_audit.py:25-42 | each character counts as many bytes as the UTF-8 encoding of its code needs and no more (section 3 of RFC 3629) |
| AuditChain.LengthsAdd | src/cybercore/action_kernel_sqlite_audit.py:25-42 | the length of a payload is the sum of the lengths of its parts |
| AuditSinks.SQLiteAuditSink.Append | src/cybercore/action_kernel_sqlite_audit.py:25-62 | a payload over the limit in UTF-8 writes nothing; any other is appended, and an intact chain stays intact |
| AuditSinks.SQLiteAuditSink.VerifyChain | src/cybercore/action_kernel_sqlite_audit.py:64-80 | true iff every row has its number, its predecessor's digest and its own |
| AuditSinks.SQLiteAuditSink.VerifiedSnapshot | src/cybercore/action_kernel_audit_checkpoint.py:35-62 | a snapshot iff the chain is verified, with the number and digest of each row |
| AuditSinks.SQLiteAuditSink.TakeCheckpoint | src/cybercore/action_kernel_audit_checkpoint.py:65-71 | the last number and digest of a verified chain, genesis for an empty one |
| AuditSinks.SQLiteAuditSink.VerifyAnchored | src/cybercore/action_kernel_audit_checkpoint.py:74-93 | true iff the identity matches, the chain is verified and passes through the checkpoint |
| FileWriteAtomicity.AllOrNothing | src/cybercore/memory.py:28-73 | whatever fails, all targets are new, or all files are as before, or a replacement and later its undoing both failed; no file is ever torn and no other file touched |
| FileWriteAtomicity.ReportsAreTrue | src/cybercore/memory.py:49-73 | a normal return means all new, a write error means all as before; a clean-up exception comes exactly from a fault among the removals; without a failed removal the report is exact |
| FileWriteAtomicity.CleanUpFailsIff | src/cybercore/memory.py:69-73 | the clean-up raises if and only if one of as many operations as there are temporary files fails |
| FileWriteAtomicity.ExceptionHidesChangeIff | src/cybercore/memory.py:53-73 | an exception other than the one for an incomplete rollback leaves something changed if and only if the update changed something and then a removal fails |
| FileWriteAtomicity.UpdateChanges | src/cybercore/memory.py:49-67 | an update that is undone has changed nothing, and one that is done has changed something unless every target already had its content |
| FileWriteAtomicity.NothingLeftBehind | src/cybercore/checkpoint_memory.py:68-72 | if no removal of a temporary file fails, the temporary files are those from before, unchanged |
| FileWriteAtomicity.OneFaultIsHarmless | src/cybercore/post_merge_state.py:21-50 | a single failing operation, wherever it strikes, leaves all targets new or all files as before |
| FileWriteAtomicity.FaultFreeWriteSucceeds | src/cybercore/post_merge_state.py:31-37 | if nothing fails, and every target that has to be there is, the write returns normally with nothing left behind |
| FileWriteReports.ReturnsIff | src/cybercore/memory.py:28-91 | a write returns normally if and only if every operation it tried has worked and every target that has to be there was: no failing operation is passed over |
| FileWriteAtomicity.DoneYetRaises | src/cybercore/memory.py:69-73 | a failing clean-up makes a completed write of two new files end in an exception |
| FileWriteAtomicity.HalfWrittenYetHidden | src/cybercore/memory.py:53-73 | three faults after which one file is new, the other is missing, and the caller sees the clean-up exception only |
| FileWriteAtomicity.RollingBackIsSound | src/cybercore/memory.py:53-65 | undoing in reverse restores every replaced target, or an operation failed while undoing; no file is torn on the way |
| FileWriteLoss.LastCopyIsDeleted | src/cybercore/memory.py:53-73 | after an incomplete rollback and its clean-up some target is still new; its old content was still staged, the clean-up has deleted that copy, and no temporary file is left that was not there before, unless a removal while staging failed |
| FileWriteLoss.OldContentIsGone | src/cybercore/memory.py:53-73 | two faults after which the report is an incomplete rollback, one file is new, the other missing, and the old content is nowhere |
| FileWriteGuarantees.StagingIsSound | src/cybercore/memory.py:38-48 | staging changes no named file, stages new and old contents, and lists every file it leaves unless a removal failed |
| FileWriter.Disk.StageBytes | src/cybercore/memory.py:76-91 | a temporary file with the whole content, or none and an attempt to remove what was begun |
| FileWriter.RollTargetsBack | src/cybercore/checkpoint_memory.py:51-64 | the reverse loop goes on past failures and reports whether there were any |
| FileWriter.WritePlan | src/cybercore/memory.py:28-73 | the loops leave the files, and report, as the model's write does |
| LegacyBlocks.RemoveLegacyBlocks | src/cybercore/memory.py:140-170 | the nested loops keep exactly the lines that are neither a heading nor generated lines in an unbroken stretch after one |
| LegacyBlocks.HeadingMeans | src/cybercore/memory.py:153-159 | a heading is that very text with nothing but space around it |
| LegacyBlocks.GeneratedMeans | src/cybercore/memory.py:142-168 | a line is generated exactly when it is blank or begins, after any space, with one of the eight fields |
| LegacyBlocks.RemovalIsFinal | src/cybercore/checkpoint_memory.py:139-169 | no heading is left and a second removal changes nothing |
| LegacyBlocks.ProseSurvives | src/cybercore/memory.py:140-170 | a line that is neither heading nor generated is kept as often as it occurs |

## Left out

- SQLite, HTTP, the file system and threads as such: transactions, requests, file operations and lock sections are single steps that may fail.
- SHA-256 and JSON: in the LongRun and kernel parts a digest stands for its text; encodings are sizes or flags, or "has none".
- Floating point: times, scores and values are reals or integers.
- Time zones: timestamps that are compared are taken to carry one; the kernel's refusal of naive ones is a flag of the request.
- Failover effect identifiers as strings, and the command-line demonstration.
- DNS zone lookup and status, DNSSEC, paging and API errors, YAML loading and name normalisation, and the evidence files around a write.
- FailoverRuns.AtMostOneRestore: is stated for an idempotent provider; FailoverRestores.AtMostOneRestoreIff shows that it fails on any other that has a target.
- DnsMinimality.PlanIgnoresListingOrder: excludes listings with two managed records that look alike; DnsListingOrder.ListingOrderMattersIff shows that the plan depends on the order of all of those.
- LongRunEngine.LongRunEngine.RunUntilTerminal: without a step limit it asks for an advancing clock and a start at an earlier reading, since the loop need not end otherwise; other engines do not step in between its steps.
- LongRunRuns.StoredRunIsItsLog: takes calls one after the other, as do the other results of that module; LongRunOverlaps states which of them survive overlapping steps, and when.
- LongRunOverlaps.FreshEndedForEver: says nothing of executor calls, since a step that loaded its run before the end may still call the executor after it.
- DnsRollback.RollbackRestores: is about a rollback that is sent; DnsRollbackAcceptance.RollbackAcceptedIff says when the planner lets it be.
- LongRun `list_events`, `save`, `append_event` and the read-only opening of a store: plain queries and writes with no invariant of their own.
- The content of evaluator reasons in event payloads: the event kind and the digest are kept.
- HiveGuarantees.DispatchedAtMostOnce: takes the calls one after the other and the durable guard as an answer for each; HiveInterleavings.OneDispatchPerKey states it for interleaved steps and the guard's own claims.
- HiveGuarantees.TwoDispatchesNeedAnExpiredReading: is about keys, which join actor, task id and correlation id with colons; different triples may share a key and are then refused rather than dispatched.
- The in-memory replay guard for tests: it is the durable one without the check of keys.
- Anchor transitions: `check_anchor_transition` does not require a new anchor to extend the history of the old one, so no such claim is made.
- FileWriteAtomicity.AllOrNothing: asks for different target names, as both plans have them; the same path twice would lose track of one staged file.
- Directories, permissions and other processes during a two-file write, and the texts that are written.
- Single-purpose parts whose results are easier than these: the source-of-truth comparison, run metrics, voice buffers and gates, and the provider retry loop.
