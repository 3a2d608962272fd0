# Wisdoverse Cell: a verified model of its governance protocols

This project models, in Dafny, the parts of the control plane that must stay right under retries,
crashes, concurrent operators and unreliable executors, and proves what they promise over every run.

- **Execution governance.** A ledger of leases, per-budget reservations, usage rows, approvals, work items
  and runs. Its steps are claim, settle, mark uncertain, recover, request control and deciding approvals.
  The runner drives it around an external adapter; the receiving runtime keeps its own intent ledger.
  `ExecutionLedger` holds each transaction as a function on the tables, `ExecutionStore` the same
  transactions as an object that updates tables in place, `LedgerInvariant`, `LedgerSteps`, `LedgerRuns`
  and `LedgerTheorems` the invariant and its consequences, `LedgerLimits` and `LedgerTimeliness` the exact
  limits of the code, `ClaimLocks` the locks under which a claim counts as one step. `ClaimRules` and
  `SettlementRules` say in the tables' own fields what each transaction demands and writes, apart from the
  functions that compute it, and `LedgerPricing` what runs are said to cost. `AgentRunner`,
  `NativeExecutor`, `AtMostOnce` and `ProcessSupervision` the rest of the path from a wakeup to a handler
  call.
- **Skill releases.** A command and acknowledgement protocol between the control plane and the evolution
  runtime: `ReleaseControl`, `ReleaseStore`, `ReleaseRules`,
  `ReleaseRuns`, `ReleaseProtocol`, `ReleaseLimits`.
- **Template import, audit trail, timeline, knowledge, approvals, readiness.** `Hierarchy` and
  `TemplateImport`; `AuditAppend` and `AuditExport`; `Timeline`; `Knowledge`; `ApprovalGate`; `Readiness`.

Tables are sequences of rows in scan order, or maps by key. A transaction that holds a row lock is one
atomic step; code that reads without a lock is split at the read. A run is any finite sequence of such
steps from an initial state (`TransitionSystems`), interleaved with whatever the rest of the system may do.
Money is integer micro-USD, time is integer microseconds and does not go backwards, digests are injective,
generated identifiers are new. Both sides of a release read the same clock.

## Where the code falls short of what it promises

Each of these has a concrete instance and the exact condition under which the promise holds.

1. `mark_uncertain` looks at the owner of a lease and not at its state. After an operator has recovered the
   lease, a late call brings it back to life: two active leases on one resource, and an active lease whose
   reservations are settled (`LedgerLimits.LateUncertainBreaksExclusion`). Over any run exclusion and
   coupling hold if and only if every mark finds its lease active, or unreserved with its resource free
   (`LedgerTimeliness.SoundRunIff`). Runners that report before their lease time has passed satisfy this
   (`LedgerTimeliness.PunctualIsSound`). Budget safety, single dispatch and single-use approvals hold in all
   runs.
2. `recover` cannot close the lease of a work item that was cancelled meanwhile, because the work item
   cannot fail any more; the reservations stay held. `LedgerLimits.CancelledWorkStaysHeld` is such a run and
   `LedgerLimits.RecoverIff` the condition.
3. Release recovery asks the runtime for the command first and tests the expiry afterwards. A "not found"
   given before the expiry proves nothing: the command may still be applied, and is then superseded while
   live. `ReleaseLimits.EarlyLookupDiverges` is such a run and `ReleaseProtocol.AbsenceIff` the condition.
   The comment at shared/evolution/db/release_store.py:85-86 holds for lookups made at or after the expiry
   only.
4. A template key of blanks passes the length test and is then stripped to the empty key, which the import
   treats as no reference. `TemplateImport.BlankKeyLosesParent` is such a template; the created graph is the
   template's if and only if no reference is blank (`TemplateImport.IsomorphicIff`).
5. A keyed audit append records twice if and only if an insert finds its key purged since the last read
   (`AuditAppend.OneRecordIff`, `AuditAppend.SlowWriterDuplicates`). Appends that take less than half the
   shortest retention, of events not older than that, cannot (`AuditAppend.OneRecordPerKey`). Events take
   their creation time when they are built (shared/control_plane/models.py:383), so for events built on the
   spot this needs a writer that stalls for ninety days between its last read and its insert.
6. The timeline lists runs by start and shows them by completion, and likewise approvals by creation and
   resolution and decisions by creation and update, so an item that took long can be missing
   (`Timeline.LongRunIsMissed`). It is a newest page if and only if nothing that was cut from such a list
   completed after something that was kept (`Timeline.ListCutIff`).
7. Both hashes join their parts with a colon that the parts may contain. Two companies can meet on a lease
   key if and only if one identifier continues the other with a colon (`ExecutionPolicy.CompaniesMeetIff`);
   the second is then refused and never served the other's run (`LedgerTheorems.OtherCompanyIsRefused`). An
   approval digest determines its idempotency key and actor only up to the place of the colon
   (`ExecutionPolicy.BoundDigestEqualIff`, `ExecutionPolicy.ColonsCollide`).

## Model

| member | source | states |
|---|---|---|
| LedgerRuns.BudgetSafety | shared/control_plane/execution_store.py:261-321 | over every run, a policy's in-window charges, each capped at its execution's ceiling, plus its outstanding reservations never exceed the highest limit it has had, across claims, settlements with overruns, uncertain marks, recoveries and period boundaries |
| LedgerRuns.BudgetWithinLimit | shared/control_plane/execution_store.py:293-312 | while a limit is not lowered, that sum stays within the limit |
| LedgerRuns.SpendWithinLimitPlusOverruns | shared/control_plane/execution_store.py:482-526 | uncapped spending exceeds the limit by no more than the overruns executors reported |
| LedgerRuns.StepWithinLimit | shared/control_plane/execution_store.py:287-321 | a single step of any kind raises what is committed to a policy at most to its limit |
| Calendar.PeriodStartMonotone | shared/control_plane/domain/execution_policy.py:65-77 | budget windows only move forward with time, for every period kind |
| Calendar.PeriodStartIs | shared/control_plane/domain/execution_policy.py:65-77 | a window starts at midnight of the day, of the first of the month, of the first of the quarter, or of 1970 |
| Calendar.DatesCount | shared/control_plane/domain/execution_policy.py:65-77 | days count the Gregorian calendar from 1970-01-01 |
| Calendar.PeriodStartNotAfter | shared/control_plane/domain/execution_policy.py:65-77 | a budget window never starts in the future |
| Budget.ChargedWithinConsumed | shared/control_plane/execution_store.py:293-306 | what a claim sums as consumed, at the instant it read, covers all capped charges of the current window |
| Budget.SettleMovesMoney | shared/control_plane/execution_store.py:493-515 | settling turns each reservation into a charge that, capped, is no larger |
| LedgerRuns.ReachableCore | shared/control_plane/execution_store.py:49-526 | in every reachable state leases and runs match one to one, rows belong to leases and policies, one ceiling per execution, charges balance settled reservations, approvals are single-use and at most one is pending per intent |
| LedgerTimeliness.SoundRunIff | shared/control_plane/execution_store.py:355-368 | over any run, every state has at most one active lease per resource and reservations settled exactly with their leases, if and only if every uncertain mark finds its lease active, or unreserved with its resource free |
| LedgerTimeliness.PunctualIsSound | shared/control_plane/agent_runner.py:184-190 | runners whose uncertain mark is their first conclusion and comes within the lease time keep the whole invariant in every state: no recovery can have come first |
| LedgerTimeliness.OpenUntilConcluded | shared/control_plane/execution_store.py:411-417 | a dispatched lease that its runner has not concluded keeps its expiry and stays active until then |
| LedgerRuns.ReachableInv | shared/control_plane/execution_store.py:135-149 | in every state of a run whose uncertain marks find their lease active, which punctual runners ensure, exclusion and coupling hold |
| LedgerSteps.StepKeepsCore | shared/control_plane/execution_store.py:49-526 | every step keeps the core invariant |
| LedgerSteps.StepKeepsGuarded | shared/control_plane/execution_store.py:355-368 | every timely step keeps exclusion and coupling |
| LedgerInvariant.ClaimShape | shared/control_plane/execution_store.py:83-344 | the three things a claim can do: grant with lease and reservations, replay unchanged, or refuse leaving at most a parked lease or an approval request |
| ClaimRules.GrantedIff | shared/control_plane/execution_store.py:83-344 | a claim is granted at a ceiling if and only if company and agent are known, the role may run at it, the configuration is unchanged, the key is new, the resource free, the heartbeat rested, the work item open with its dependencies accepted, a demanded approval usable, and every applying budget fits |
| ClaimRules.GrantWrites | shared/control_plane/execution_store.py:250-344 | a granted claim writes exactly its lease for a thousand seconds, one reservation of the ceiling per applying policy, the run, the work item's start with its acceptance withdrawn, and the use of one approval where demanded |
| ClaimRules.RefusedUnauthorized | shared/control_plane/execution_store.py:95-115 | without a ceiling the role may run at, the first reason in order, and no change |
| ClaimRules.RefusedBeforeAdmission | shared/control_plane/execution_store.py:116-149 | intent, configuration, key conflict, a lease in the way, parked if its time ran out, or a replay: the first that applies |
| ClaimRules.AdmissionInOrder | shared/control_plane/execution_store.py:150-312 | past key and resource: heartbeat, work item, dependencies, approval, budgets, in that order; only the want of an approval leaves something behind |
| ClaimRules.ReplayedIff | shared/control_plane/execution_store.py:121-128 | a claim is replayed if and only if its key has a closed lease of the same intent, and then with that lease's run and owner |
| ClaimRules.AuthorizedIff | shared/control_plane/domain/execution_policy.py:49-62 | the ceiling a role may run at: nothing for a builtin, and otherwise its declared cost, given the three permissions |
| ClaimRules.ReservationsSay | shared/control_plane/execution_store.py:272-321 | one reservation per applying policy in table order if all fit, and otherwise the reason of the first that does not |
| ClaimRules.RestedIff | shared/control_plane/execution_store.py:150-168 | a heartbeat is refused exactly if its interval has not passed since the agent's newest run, by start and then identifier |
| LedgerTheorems.AtMostOneDispatch | shared/control_plane/execution_store.py:119-134 | over any run two dispatches never share a company and key, nor a run identifier |
| LedgerTheorems.LaterClaimReplays | shared/control_plane/execution_store.py:121-134 | after a dispatch every later claim with its company and key replays that run for the same intent or is refused |
| LedgerTheorems.OtherCompanyIsRefused | shared/control_plane/execution_store.py:121-127 | a request of another company that meets a lease key is refused at any later time |
| LedgerTheorems.DispatchRemembered | shared/control_plane/execution_store.py:250-260 | a dispatched lease keeps its run, owner, intent and ceiling for ever |
| LedgerTheorems.ClosedForever | shared/control_plane/execution_store.py:516-526 | in timely runs a closed lease never changes again |
| SettlementRules.SettlesIff | shared/control_plane/execution_store.py:485-503 | a ticket settles if and only if the lease it names is its owner's and running, none of its reservations is settled, and the run exists |
| SettlementRules.SettleWrites | shared/control_plane/execution_store.py:498-526 | one usage row per reservation of the execution, with its budget, the given cost, time, run and flags; those reservations settled; cost and estimate on the run; the lease closed; nothing else |
| SettlementRules.RecoverWrites | shared/control_plane/execution_store.py:401-468 | the lease failed, every reservation settled and charged the largest amount reserved as a failed estimate, an open run failed now, the work item failed; nothing else |
| SettlementRules.MarksIff | shared/control_plane/execution_store.py:355-368 | only the owner is asked for, and only state and expiry change |
| SettlementRules.ControlsIff | shared/control_plane/execution_store.py:370-399 | control is recorded exactly for a running lease whose run's agent drives a process |
| SettlementRules.ControlRead | shared/control_plane/execution_store.py:346-353 | a runner reads its own lease's control, and terminate once it has lost it |
| LedgerPricing.RunsSayTheirCharges | shared/control_plane/execution_store.py:504-524 | in every reachable state each usage row of an execution has the cost and estimate flag of its run |
| LedgerTheorems.SettleIff | shared/control_plane/execution_store.py:482-526 | a genuine ticket settles exactly while its lease runs; the denials for settled reservations and missing runs are unreachable |
| LedgerTheorems.ExactlyOneCharge | shared/control_plane/execution_store.py:498-515 | each reservation has exactly one usage row once its lease is closed and none before |
| LedgerTheorems.GrantedCeiling | shared/control_plane/execution_store.py:418-431 | the maximum that recovery takes over reservations is the ceiling the claim authorised |
| LedgerTheorems.RecoveryChargesCeiling | shared/control_plane/execution_store.py:411-431 | at any later time a recovery charges each reservation of the execution exactly the authorised ceiling, in a usage row of its own, and writes it on the run |
| LedgerTheorems.DispatchUsesApproval | shared/control_plane/execution_store.py:188-213 | a dispatch whose agent or work item demands an approval had a granted, unexpired, unused one for exactly its request and used it up; any other dispatch touches none |
| LedgerTheorems.DemandedApprovalIsUsed | shared/control_plane/execution_store.py:322-328 | over any run such a dispatch is for ever backed by an approval that no other execution used |
| LedgerTheorems.AskedOnlyIfDemanded | shared/control_plane/execution_store.py:214-249 | an approval is asked for only if agent or work item demand one and none granted for the request is usable |
| LedgerTheorems.ApprovalsUsedOnce | shared/control_plane/execution_store.py:192-213 | over any run a consumed approval matched the intent of its only consumer, and neither decision nor consumption is ever undone |
| LedgerTheorems.RequestedControlIsRead | shared/control_plane/execution_store.py:346-399 | the control an operator requests for a run is the one its runner reads next, and no other ticket notices |
| LedgerTheorems.RefusalDispatchesNothing | shared/control_plane/execution_store.py:60-81 | a refused claim writes no lease, reservation, charge or run, consumes nothing, and at most parks an expired lease or asks for one approval |
| LedgerTheorems.ClaimNeverAborts | shared/control_plane/execution_store.py:543-557 | the work-item life cycle never makes a claim fail half way |
| LedgerLimits.RecoverIff | shared/control_plane/execution_store.py:401-468 | exactly when an operator can close a lease: abandoned, work item not cancelled, agent of an open run known |
| LedgerLimits.CancelledWorkStaysHeld | shared/control_plane/execution_store.py:448-468 | a run in which a work item is cancelled, its lease expires with the reservation outstanding, and recovery is refused |
| LedgerLimits.RecoverFrees | shared/control_plane/execution_store.py:401-468 | after a recovery the resource can be leased again |
| LedgerLimits.UncertainSoundIff | shared/control_plane/execution_store.py:355-368 | exactly when marking uncertain keeps exclusion and coupling |
| LedgerLimits.LateUncertainBreaksExclusion | shared/control_plane/execution_store.py:355-368 | a concrete run in which a late mark leaves two active leases on one resource |
| ExecutionPolicy.JoinedEqualIff | shared/control_plane/execution_store.py:115-120 | exactly when two texts joined with a colon coincide: equal parts, or one cut at a later colon |
| ExecutionPolicy.CompaniesMeetIff | shared/control_plane/execution_store.py:120 | two companies can meet on a lease key if and only if one identifier continues the other with a colon |
| ExecutionPolicy.BoundDigestEqualIff | shared/control_plane/execution_store.py:119 | exactly which keys and actors share the digest an approval and a lease are bound to |
| ExecutionPolicy.ColonsCollide | shared/control_plane/execution_store.py:119-120 | two companies on one lease key, and two actors with different keys on one digest |
| ClaimLocks.OneSnapshot | shared/control_plane/execution_store.py:95-100 | in every interleaving of a claim's statements with settlements, recoveries, other usage and other claims, usage and reservations stand still from the company lock to its release, because a usage row needs the key share of the company row it refers to |
| ClaimLocks.ClaimIsOneStep | shared/control_plane/execution_store.py:287-321 | the claim that sums policy by policy, two statements each, decides exactly as an undivided claim on the ledger at its commit |
| ClaimLocks.QuietWriter | shared/control_plane/tables.py:299-308 | a settlement, recovery or recording that inserts no usage row, and so takes no key share, changes neither sum |
| ExecutionStore.GovernanceStore.Claim | shared/control_plane/execution_store.py:83-149 | the in-place claim does to the tables exactly what the transaction function says, refusals included |
| ExecutionStore.GovernanceStore.Admit | shared/control_plane/execution_store.py:150-249 | heartbeat interval, work gate and approval lookup, against the transaction function |
| ExecutionStore.GovernanceStore.AskForApproval | shared/control_plane/execution_store.py:214-249 | parks the work item and asks once per intent |
| ExecutionStore.GovernanceStore.DependenciesAccepted | shared/control_plane/execution_store.py:177-186 | true exactly when every dependency is an accepted item of the company |
| ExecutionStore.GovernanceStore.Reserve | shared/control_plane/execution_store.py:287-321 | the reservation loop stops at the first policy that refuses, or reserves the ceiling against each |
| ExecutionStore.GovernanceStore.Write | shared/control_plane/execution_store.py:250-344 | lease, reservations, consumed approval and work status, all or nothing |
| ExecutionStore.GovernanceStore.SettleEach | shared/control_plane/execution_store.py:498-515 | the settlement loop finds a reservation settled before, or settles each of the execution and charges it once |
| ExecutionStore.GovernanceStore.Settle | shared/control_plane/execution_store.py:482-526 | charges every reservation and closes the lease, or changes nothing |
| ExecutionStore.GovernanceStore.MarkUncertain | shared/control_plane/execution_store.py:355-368 | the lease waits for an operator from now on, whatever its state was |
| ExecutionStore.GovernanceStore.RebuildCeiling | shared/control_plane/execution_store.py:418-428 | the loop finds the largest reserved amount |
| ExecutionStore.GovernanceStore.Recover | shared/control_plane/execution_store.py:401-468 | reopen, settle as failed at the ceiling, fail run and work item; any refusal rolls all of it back |
| ExecutionStore.GovernanceStore.RequestControl | shared/control_plane/execution_store.py:370-399 | records the action for a running process lease only |
| AgentRunner.Runner.Begin | shared/control_plane/agent_runner.py:107-149 | claim and run start in one transaction; the ticket is kept only for a dispatch |
| AgentRunner.Runner.Conclude | shared/control_plane/agent_runner.py:151-216 | whatever the adapter answers, the ledger ends where the concluding step says and the caller gets its reply, also when a first settlement is refused and retried |
| AgentRunner.ReplyIsTrue | shared/control_plane/agent_runner.py:172-216 | the caller is told of success, an exceeded ceiling, uncertain effects or a lost lease exactly when that is what happened |
| AgentRunner.ChargeExact | shared/control_plane/agent_runner.py:151-203 | one settlement or one uncertain mark, with exactly this cost, estimate flag and run status for every answer |
| AgentRunner.WakeConcludes | shared/control_plane/agent_runner.py:151-203 | a running lease is closed, each reservation settled and charged the concluding cost in its own usage row, the run closed with it, and nothing else changes; or, with uncertain effects, only the lease waits for the operator |
| AgentRunner.ChargeWithin | shared/control_plane/agent_runner.py:160-178 | success costs at most the ceiling and failure no less than it |
| AgentRunner.WakeKeepsInv | shared/control_plane/agent_runner.py:184-195 | concluding while the lease is active keeps the ledger invariant |
| AgentRunner.LateSettleIsRefused | shared/control_plane/agent_runner.py:191-195 | a runner whose lease was taken over settles nothing |
| NativeExecutor.Executor.Execute | shared/app/native_executor.py:43-116 | a request of another company, with another key, action, input or trace is refused for that reason and calls nothing; a known run is answered from its receipt; a new one is called once and leaves its answer, or a doubtful or pending receipt |
| NativeExecutor.ScreenIs | shared/app/native_executor.py:44-54 | a request is let in if and only if company, key, a textual allowed action, input and trace agree, and the first reason otherwise |
| NativeExecutor.OnlyAcceptedCalls | shared/app/native_executor.py:43-116 | over any interleaving the handler is called only for the configured company and an allowed action, and a recorded answer charges the request's maximum |
| NativeExecutor.ConclusionWrites | shared/app/native_executor.py:78-116 | a worker leaves the handler's answer, or a doubtful or pending receipt, and replies accordingly |
| NativeExecutor.OncePerRun | shared/infra/native_executor_store.py:50-120 | over any interleaving of deliveries, workers and crashes a run's handler is called at most once and all successful replies agree |
| NativeExecutor.ReceiptsAreFinal | shared/infra/native_executor_store.py:89-120 | a recorded or uncertain receipt never changes |
| NativeExecutor.RepeatNeverCalls | shared/app/native_executor.py:55-60 | a repeated request gets the recorded answer unchanged or the uncertain refusal, and no new worker |
| AtMostOnce.AtMostOneHandlerCall | shared/app/native_executor.py:43-116 | end to end, with lost, repeated and delayed messages, each company and key gets at most one handler call |
| ProcessSupervision.Supervise | shared/control_plane/agent_runner.py:451-495 | stop and continue alternate starting with stop, the paused flag is the process state and the last request, each ending has exactly its cause, and leaves the process ended |
| ProcessSupervision.SlackIff | shared/control_plane/agent_runner.py:453-470 | no process outlives its lease if and only if start-up, timeout and poll latency fit into the lease time |
| ProcessSupervision.NotRecoverableWhileRunning | shared/control_plane/execution_store.py:413-416 | with at most 100 seconds of start-up and latency a supervised lease cannot be recovered |
| ReleaseStore.DeploymentStore.Prepare | shared/control_plane/evolution_deployment_store.py:134-299 | the in-place preparation is the transaction function: frozen snapshot, pending command, policy, approval |
| ReleaseStore.DeploymentStore.ReadApprovals | shared/control_plane/evolution_deployment_store.py:225-239 | the first standing grant of the decision, and whether one is waiting |
| ReleaseStore.DeploymentStore.Acknowledge | shared/control_plane/evolution_deployment_store.py:301-359 | the acknowledgement under command equality, or no change |
| ReleaseStore.DeploymentStore.RecoverExpired | shared/control_plane/evolution_deployment_store.py:50-132 | supersede, restore and prepare again; only a request for approval survives a refusal |
| ReleaseRules.EveryCommandEvidenced | shared/control_plane/domain/evolution_deployment.py:22-49 | over every run each requested command is of the first tier, about exactly its two versions, and, to go live, eligible with fifty samples a side and no worse rate; all but shadow were approved for exactly that |
| ReleaseRules.PolicyIs | shared/control_plane/domain/evolution_deployment.py:22-49 | the first reason of policy against a command, and exactly when there is none |
| ReleaseRules.PrepareAtRest | shared/control_plane/evolution_deployment_store.py:174-299 | on a row at rest: frozen, policy, approval, in that order, or a command for an hour with the approval it rests on |
| ReleaseRules.PreparePending | shared/control_plane/evolution_deployment_store.py:186-204 | while a command is pending nothing changes; the same order gets it back until it expires or its approval falls |
| ReleaseRules.AcknowledgeIs | shared/control_plane/evolution_deployment_store.py:301-359 | the first reason against an acknowledgement, or what it records |
| ReleaseRules.RecoverRefused | shared/control_plane/evolution_deployment_store.py:75-90 | recovery is refused without the pending command and before it expires |
| ReleaseRules.RecoverWrites | shared/control_plane/evolution_deployment_store.py:92-132 | a renewal closes the old command and writes the same release for another hour, keeping the acknowledgement |
| ReleaseRuns.LegalHistory | shared/control_plane/domain/evolution_deployment.py:7-30 | over every run the acknowledged stages follow the release policy from undeployed, and a row at rest stands at the last of them |
| ReleaseRuns.FrozenIdentity | shared/control_plane/evolution_deployment_store.py:174-218 | all commands of a proposal carry one deployment and one snapshot, also across deletion of the row, and identifiers name one command |
| ReleaseRuns.OneAcknowledgeable | shared/control_plane/evolution_deployment_store.py:329-338 | only the pending command can be acknowledged, and it is neither superseded nor applied |
| ReleaseRuns.SupersededNeverApplied | shared/control_plane/evolution_deployment_store.py:81-104 | no command is both superseded and acknowledged |
| ReleaseRuns.RecoveryRestores | shared/control_plane/evolution_deployment_store.py:90-132 | recovery of an expired command renews it exactly when no approval is needed or one stands, and otherwise rests at the acknowledged stage; the other refusals are unreachable |
| ReleaseRules.PendingStaysAllowed | shared/control_plane/domain/evolution_deployment.py:22-49 | a pending command is always evidenced and leads on from the acknowledged stage |
| ReleaseRuns.AcknowledgeIff | shared/control_plane/evolution_deployment_store.py:329-342 | the pending command's own receipt is refused exactly when the rollout state was moved out of its way |
| ReleaseRuns.UntouchedRolloutNeverBlocks | shared/control_plane/domain/evolution_proposal.py:46-69 | while nobody moves the rollout state by hand no acknowledgement is blocked |
| ReleaseProtocol.CarefulRunsAgree | shared/control_plane/api_routes/evolution_releases.py:60-98 | when recoveries rely on lookups made after expiry, the runtime is always at the acknowledged stage or at the target of the applied pending command, and no superseded command was applied |
| ReleaseProtocol.ApplyIs | shared/evolution/db/release_store.py:43-93 | what the runtime does with a command: refuse an expired or conflicting one, answer a known one, and apply a new one exactly if approved where needed, of the frozen snapshot, moving the release, and fit |
| ReleaseProtocol.PendingCanBeApplied | shared/evolution/domain/skill_release.py:30-96 | in those runs the runtime's life cycle never refuses the pending command |
| ReleaseProtocol.AbsenceIff | shared/evolution/db/release_store.py:80-90 | a "not found" rules out a later application exactly when it was given at or after the expiry |
| ReleaseLimits.EarlyLookupDiverges | shared/control_plane/api_routes/evolution_releases.py:60-98 | a concrete run that ends with a superseded command live and a replacement that can never be applied |
| Hierarchy.WalkUp | shared/control_plane/domain/company_template.py:174-182 | the walk with a seen-set finds a cycle exactly when the chain of parents does not end |
| Hierarchy.CheckHierarchy | shared/control_plane/domain/company_template.py:170-182 | accepts exactly closed references without cycles |
| Hierarchy.OrderRoles | shared/control_plane/company_template_use_cases.py:155-200 | the role loop ends, succeeds exactly on acyclic references, and creates each role once, after its manager |
| Hierarchy.OrderGoals | shared/control_plane/company_template_use_cases.py:202-229 | the goal loop, with its other readiness test, likewise |
| TemplateImport.CheckReferences | shared/control_plane/domain/company_template.py:184-223 | the loops over owners, budget links, scopes and playbook steps accept exactly resolved references |
| TemplateImport.Validate | shared/control_plane/domain/company_template.py:158-223 | accepts exactly templates with distinct keys, closed references, playbook steps included, and no cycles |
| TemplateImport.Company.CreateBudgets | shared/control_plane/company_template_use_cases.py:122-153 | one paused row per budget with its terms and its scope mapped |
| TemplateImport.Company.Import | shared/control_plane/company_template_use_cases.py:86-236 | succeeds exactly on a valid, reviewed template with a new name; then every entry is created once, parents first, and the created graph is the template's if and only if no reference is blank |
| TemplateImport.ManagersCreatedFirst | shared/control_plane/company_template_use_cases.py:155-200 | a manager's row precedes its reports' |
| TemplateImport.ParentsCreatedFirst | shared/control_plane/company_template_use_cases.py:202-229 | a parent goal's row precedes its children's |
| TemplateImport.IsomorphicIff | shared/control_plane/company_template_use_cases.py:114-229 | over the rows of a successful import, row k's manager, budget, parent or owner is row j exactly where k's entry references j's key, if and only if no reference is the blank key |
| TemplateImport.OneRowPerRole | shared/control_plane/company_template_use_cases.py:155-200 | every role has exactly one row and no two rows share an agent |
| TemplateImport.OneRowPerGoal | shared/control_plane/company_template_use_cases.py:202-229 | every goal has exactly one row and no two rows share an identifier |
| TemplateImport.ScopesAgree | shared/control_plane/company_template_use_cases.py:122-153 | each budget keeps its terms, is paused, and is scoped to the row of its goal or agent |
| TemplateImport.RoleOfRow | shared/control_plane/company_template_use_cases.py:166-198 | a created role is paused, is granted no permission, and notes those its one entry requests |
| TemplateImport.BlankKeyLosesParent | shared/control_plane/company_template_use_cases.py:218-220 | a valid template whose created child goal has no parent |
| AuditAppend.AuditStore.Append | shared/control_plane/audit_event_store.py:28-56 | a known key returns the recorded event; anything else is recorded and staged once |
| AuditAppend.OneRecordIff | shared/control_plane/audit_event_store.py:35-52 | over any run each key has at most one record, live or purged, in every state, if and only if no insert finds a tombstone of its key |
| AuditAppend.OneRecordPerKey | shared/control_plane/audit_event_store.py:35-52 | writers that insert within half the shortest retention always satisfy that |
| AuditAppend.SameIdForKey | shared/control_plane/audit_event_store.py:35-56 | over any run, as long as a key has one record all its appends return that record's identifier |
| AuditAppend.StagedOncePerRecord | shared/control_plane/audit_event_store.py:50-56 | over every run each recorded domain event is staged exactly once and nothing else is |
| AuditAppend.InsertDuplicatesIff | shared/control_plane/audit_event_store.py:44-52 | the insert makes a second record exactly when the key was purged since the last read |
| AuditAppend.SlowWriterDuplicates | shared/control_plane/retention_store.py:102-134 | a concrete run that records one key twice |
| AuditExport.OrderIs | shared/control_plane/audit_export_store.py:62-67 | by creation and then by the first character in which identifiers differ |
| AuditExport.PageIff | shared/control_plane/audit_export_store.py:25-68 | exactly when a page is refused, and that a page is the next rows of the window without a gap |
| AuditExport.ExportComplete | shared/control_plane/audit_export_store.py:35-68 | for every window and limit, with inserts between pages: strictly increasing, nothing twice, and complete for the rows there at the start |
| AuditExport.ExportTerminates | shared/control_plane/audit_export_store.py:35-68 | there are no more pages with rows than rows |
| Timeline.BuildTimeline | shared/control_plane/audit_timeline_use_cases.py:96-133 | the result is a newest page of everything the six sources hold: as many items as fit, newest first, nothing left out newer than anything in it |
| Timeline.TruncatedMergeIsNewest | shared/control_plane/audit_timeline_use_cases.py:60-133 | a newest page of cut audit, usage and artifact lists, ties in any order, is one of the complete lists |
| Timeline.ListCutIff | shared/control_plane/audit_timeline_use_cases.py:201-241 | for runs, approvals and decisions that holds if and only if nothing that was cut completed after something that was kept |
| Timeline.LongRunIsMissed | shared/control_plane/audit_timeline_use_cases.py:104-109 | two runs of which the last to finish is missing |
| Knowledge.KnowledgeStore.CreateKnowledge | shared/control_plane/knowledge_store.py:72-84 | version one, unless the identifier is buried or in use |
| Knowledge.KnowledgeStore.Publish | shared/control_plane/knowledge_use_cases.py:54-114 | source artifact, owner, provenance, reader roles, access and version tests, in that order, before the conditional update |
| Knowledge.KnowledgeStore.DeleteKnowledge | shared/control_plane/knowledge_use_cases.py:138-163 | marks the row and buries the identifier under the version test |
| Knowledge.RevisedIff | shared/control_plane/knowledge_use_cases.py:54-114 | exactly when a revision succeeds, and that it writes readers, retention and the next version only |
| Knowledge.DeletedIff | shared/control_plane/knowledge_use_cases.py:138-163 | exactly when a deletion succeeds, and that it only marks the row and buries the identifier |
| Knowledge.CreatedIff | shared/control_plane/knowledge_store.py:72-84 | an identifier is created exactly if it was never used |
| Knowledge.OnlyOwnerWrites | shared/control_plane/knowledge_use_cases.py:86-89 | over every run only the row's owner revises or deletes it, however old the copy decided on |
| Knowledge.LinearHistory | shared/control_plane/knowledge_store.py:86-112 | a version is one plus the number of revisions and is reached at most once |
| Knowledge.NoLostUpdate | shared/control_plane/knowledge_store.py:86-112 | a revision that succeeds replaces exactly the row its author read |
| Knowledge.NoResurrection | shared/control_plane/knowledge_store.py:114-135 | what is deleted or purged is never live, revised or created again |
| Knowledge.OwnerNeverChanges | shared/control_plane/knowledge_use_cases.py:88-96 | owner and provenance are fixed for ever |
| ApprovalGate.Gate.Decide | shared/control_plane/approval_gate.py:78-156 | decides exactly a pending, unexpired request, and audits that decision |
| ApprovalGate.ConsiderIff | shared/control_plane/approval_gate.py:78-88 | what the gate lets pass on an unlocked read |
| ApprovalGate.ResolveIff | shared/control_plane/approval_store.py:73-92 | only a pending request is decided under the lock, and what that changes |
| ApprovalGate.OnlyWinnerAudited | shared/control_plane/approval_store.py:73-92 | under any interleaving a request is audited once if decided and never otherwise, with the winner's name and verdict |
| ApprovalGate.ResolutionIsFinal | shared/control_plane/approval_store.py:73-92 | a request that is no longer pending never changes |
| Readiness.ExpectedDays | scripts/check_operational_readiness.py:169-174 | the day loop yields consecutive days from the first to the last of the window |
| Readiness.DaysAreCalendarDays | scripts/check_operational_readiness.py:169-174 | those are exactly the days that contain an instant of the window |
| Readiness.EvaluateSamples | scripts/check_operational_readiness.py:145-194 | accepts exactly evidence whose window, counts, days and totals agree |
| Readiness.AcceptanceMeans | scripts/check_operational_readiness.py:145-194 | accepted evidence has at least fourteen gap-free days with positive counts that add up to at least a thousand requests |
| Readiness.EveryInstantSampled | scripts/check_operational_readiness.py:169-194 | a day is sampled exactly when it contains an instant of the window |

## Left out

- HTTP, subprocess and asyncio mechanics: only the outcome of an adapter call is modelled, and what one turn of the polling loop reads.
- SQL text and sessions: a transaction is one step; where a decision rests on reads without a lock the reads are separate steps, and `ClaimLocks` justifies taking a claim as one.
- Rounding between decimal and binary floating point: money is integer micro-USD.
- ClaimLocks.OneSnapshot: covers the transactions of one company, and the lock of its company row only; the policy rows a claim also locks are read once.
- LedgerTheorems.ClosedForever: is about runs whose uncertain marks find their lease active; `LedgerTimeliness.SoundRunIff` says what the others do.
- LedgerSteps.StepKeepsGuarded: is about one step that is not a late uncertain mark; `LedgerLimits.UncertainSoundIff` is about that mark.
- LedgerRuns.ReachableInv: is the one-way form for timely runs of `LedgerTimeliness.SoundRunIff`.
- AuditAppend.OneRecordPerKey: is the one-way form for prompt writers of `AuditAppend.OneRecordIff`.
- AgentRunner.Runner.Conclude: leaves out evidence artifacts and output events of a completed run, the status codes of errors, and a wakeup without governance.
- NativeExecutor.Executor.Execute: the context passed to the handler and the size limit of an answer appear only as an interrupted attempt.
- ReleaseProtocol.CarefulRunsAgree: skill versions, experiments and quality gates of the runtime are one nondeterministic verdict per delivery.
- ReleaseStore.DeploymentStore.Prepare: proposals other than the one modelled, and reports that belong to another proposal, are not represented.
- TemplateImport.Company.Import: texts of roles and goals other than their titles, and how company names are compared, are left out; a taken name is an input.
- Exporting a company as a template: a projection of fields that would only add easy members.
- Reading a knowledge entry: a one-branch access test.
- AuditAppend.OneRecordPerKey: an event's pins and the state of its outbox row only restrict the purge further and are left out.
- Readiness.EvaluateSamples: thresholds, metrics, drills and manifest hashes are one-branch tests and are left out.
- Routers, middleware, migrations, agent catalogue, thin record stores and user interfaces.
