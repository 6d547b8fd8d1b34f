# A verified model of the assistant backend

This project models the durable state machines and the algorithmic cores of a personal-assistant
backend and proves properties of every run of them. It is written in Dafny 4.11; verify with
`dafny verify dfyconfig.toml`.

Every stateful component comes in three layers. A value-level function says what one service call
does to the tables (its name ends in `Spec`). An imperative method or class, written with the
statements and loops of the program, is proved to do exactly that. Lemmas about the value-level
functions show which invariant each call keeps, and theorems read facts about all runs off the
invariant. A driver per component (`AuthorityRuns.Serve`, `MemoryHistory.Serve`,
`Conversations.Serve`, `VoiceServer.ServeAll`, `BenchmarkRunner.Campaign`, `ResearchCache.Serve`)
shows that the imperative program reaches exactly the states the theorems speak of. The modules
named `...Meaning` say what each call answers and writes in those states, on the columns of the
rows alone and without the value-level functions: exactly when it succeeds, the error of every other
case, and every row afterwards.

- workflows, tasks, permissions and confirmations: `AuthorityStore`, `Scopes`, `PermissionsEngine`, `PermissionAdministration`, `TaskEngine`, `Orchestrator`; proofs in `AuthorityInvariant`, `AuthoritySafety`, `TaskSafety`, `FlowSafety`, `AuthorityRuns`, `AuthorityTheorems`, `ResumeProgress`; outcomes in fields in `AuthorizationMeaning`, `AdministrationMeaning`, `TaskMeaning`, `FlowMeaning`
- memory records and revisions: `MemoryCore`, `MemoryHistory`, `MemoryMeaning`
- conversations and realtime voice: `Conversations`, `VoiceSession`, `VoiceProtocol`, `VoiceRuns`, `VoiceServer`; outcomes in fields in `ConversationMeaning`, `VoiceMeaning`, `VoiceAudioMeaning`
- model routing and invocation: `Ordering`, `RoutingPolicy`, `RoutingTheorems`, `RoutingService`, `RoutingMeaning`
- benchmark checkpoints and runner: `BenchmarkStore`, `BenchmarkRunner`, `BenchmarkMeaning`
- TTL cache: `ResearchCache`
- metadata check and redaction: `Metadata`

Conventions. A table is a sequence of rows and a row's identifier is its position, so insertion
always draws an unused identifier. A SHA-256 fingerprint or digest is the value it is taken of.
A versioned UPDATE is a compare-and-set. A service call is atomic: it commits, or raises and is
rolled back; calls of the memory and conversation services are split between their statements, and
may overlap; the voice stream, which commits and rolls back by itself, is modelled with its own
commit points. Providers, clocks, identities, devices, capability tables and policies are parameters
of each call, so the theorems hold for all their behaviours.

Worth knowing about the program, as the model follows it:

- An overdue RUNNING task cannot become EXPIRED, so every read that checks its deadline raises
  (`TaskEngine.ExpiryRaisesOnlyWhileRunning`).
- Resuming a live waiting workflow, with its plan intact and its task neither cancelled nor expired,
  raises and is rolled back with the decision taken on the way exactly if a fresh authorisation puts
  its task into WAITING_PERMISSION, or into WAITING_CONFIRMATION while the workflow is already there.
  So it raises without progress, and also when the permission behind a pending confirmation was
  revoked (`ResumeProgress.ResumeTheorem`, `ResumeProgress.RevokedMeansWaiting`,
  `ResumeProgress.ResumeWithoutProgress`).
- Approving or rejecting an expired confirmation raises, so the EXPIRED mark it sets is rolled back
  (`AuthorityTheorems.LateAnswer`).
- Granting again with another expiry returns the live grant with its old one
  (`PermissionAdministration.GrantExpiry`, `PermissionAdministration.GrantKeepsOldExpiry`).
- A memory create that finds an overdue duplicate may answer with that record although it was
  deleted, archived or changed in the meantime and although another record holds the key; when
  exactly, is `MemoryHistory.CreateTheorem`, and a run is `MemoryHistory.CreateAnswersDeleted`. It
  raises if the holder of the key vanishes between its failed INSERT and its second look
  (`MemoryHistory.RereadTheorem`, `MemoryHistory.CreateRaises`).
- A memory read that loses the race to expire an overdue record answers with whatever the record has
  become, archived or deleted (`MemoryHistory.LostExpiryTheorem`).
- A text client may send the idempotency key of a voice turn; the turn then answers with that
  message or is refused, but never adds a second one (`VoiceRuns.TurnTheorem`).
- The runner never needs its selected pairs to be distinct: a repeated pair is stopped by the
  checkpoint (`BenchmarkRunner.OnceTheorem` holds for any list of pairs).
- Ending a stream reports ENDED to its client even if the stream is no longer the current one and
  the session therefore goes on (`VoiceRuns.StaleEnd`).

## Model

| member | source | states |
|---|---|---|
| AuthorityTheorems.EnvelopeTheorem | backend/app/orchestrator/service.py:575-621 | in every reachable state a workflow has an envelope iff its recorded steps ever reached READY_FOR_EXECUTION, never two; the envelope repeats the stored plan, the arguments of its single action, the linked task's capability, action, scope, device and confirmation, the workflow's expiry, and an ALLOW decision with its permission and risk and no financial block |
| AuthorizationMeaning.AuthorizeTheorem | backend/app/permissions/engine.py:60-205 | in every reachable state the new decision is ALLOW iff the user is known, has that auth identity and is not disabled, the capability exists, is enabled and its vocabulary covers the scope's operations and the action, it is not both financial and externally effecting, some ACTIVE, unexpired, covering, device-valid permission exists, and the newest such one asks for no confirmation or the one presented is the user's, bound to the use, approved, unexpired and unconsumed; the same iff for REQUIRE_CONFIRMATION; the reason of every DENY; all in fields |
| AuthorizationMeaning.EvaluationTheorem | backend/app/permissions/engine.py:244-483 | in every reachable state, everything an evaluation leaves behind: exactly the overdue permissions in front of the chosen one are EXPIRED, the used one is stamped, the presented confirmation is consumed or EXPIRED exactly as stated, and a new confirmation repeats the request for 300 seconds |
| AuthorizationMeaning.RiskTheorem | backend/app/permissions/risk.py:12-49 | the risk is the one least level that reaches the default and every floor that applies, and CRITICAL for a blocked capability |
| FlowMeaning.CreateTheorem | backend/app/orchestrator/service.py:128-375 | creating a workflow in every reachable state, in fields: replay or conflict of the key, refusal of an overdue request, and otherwise the exact steps and final state for every policy, memory answer, routing outcome and plan, the task proposed for the plan's action, the decision taken for it, and the envelope, wait or denial that follows |
| FlowMeaning.ResumeTheorem | backend/app/orchestrator/service.py:445-524 | resuming in every reachable state, in fields: the error of every guard, cancellation with the task, denial for a plan that is not the stored one, and otherwise the fresh decision for the task's own proposal and the state, step, columns and envelope the workflow gets from it |
| FlowMeaning.CancelTheorem | backend/app/orchestrator/service.py:403-443 | reading and cancelling in every reachable state, in fields: expiry at the deadline, the error of every refusal, and workflow and task cancelled together or not at all |
| TaskMeaning.TaskCallTheorem | backend/app/tasks/service.py:219-357 | in every reachable state, in fields: a claim succeeds iff the task is QUEUED at the expected version and not overdue, and starts its attempt; a cancellation iff it is cancelled already, or queued or waiting at the expected version; finishing iff RUNNING at the expected version; an overdue task expires, or raises if RUNNING; the error of every other case, and no other row changes |
| TaskMeaning.CreateTheorem | backend/app/tasks/service.py:91-194 | creating a task in every reachable state, in fields: replay or conflict of the key, the refused proposals, and otherwise the decision that answers exactly this proposal and the row, status and confirmation it gives, or no row |
| TaskMeaning.ReevaluateTheorem | backend/app/tasks/service.py:359-414 | evaluating a waiting task again in every reachable state: a fresh decision for its own proposal, device and confirmation, and the row changes iff its status does |
| AdministrationMeaning.ApproveTheorem | backend/app/permissions/service.py:178-216 | in every reachable state an approval succeeds iff the caller has AAL2, owns the confirmation, and it is unexpired and PENDING or APPROVED; the error of every other case; the rows left, with the ONCE permission confirmed |
| AdministrationMeaning.RejectTheorem | backend/app/permissions/service.py:218-248 | in every reachable state a rejection succeeds iff the caller has AAL2, owns the confirmation, and it is unexpired and not APPROVED; the error of every other case and the rows left |
| AdministrationMeaning.GrantTheorem | backend/app/permissions/service.py:47-116 | in every reachable state: the error of every refused grant, and otherwise the standing grant that answers it, or the new row column by column with the overdue row of the same terms EXPIRED |
| AdministrationMeaning.NoTwinsTheorem | backend/app/permissions/service.py:70-100 | in no reachable state are there two ACTIVE permissions with the same owner, capability, device, scope, policy and execution flag |
| AdministrationMeaning.RevokeTheorem | backend/app/permissions/service.py:132-176 | in every reachable state the owner and nobody else revokes, exactly that row changes, and an earlier revocation keeps its instant |
| AdministrationMeaning.ListTheorem | backend/app/permissions/service.py:118-130 | in every reachable state listing marks exactly the caller's overdue permissions EXPIRED |
| AuthorityTheorems.CouplingTheorem | backend/app/orchestrator/service.py:445-524 | in every reachable state a waiting workflow's task is in the same waiting state or CANCELLED/EXPIRED, a READY workflow's task was queued under an ALLOW decision, and a linked task belongs to its workflow's plan |
| AuthorityTheorems.CancelledForever | backend/app/orchestrator/service.py:410-443 | for any two states of a run: a workflow CANCELLED in the earlier one is the same row in the later one, and its task is CANCELLED then |
| AuthorityTheorems.ConservationTheorem | backend/app/permissions/engine.py:325-383 | over every run, for every use (user, permission, capability, action, scope), the ALLOW decisions that needed a confirmation are as many as the consumed confirmations, at each instant and over all instants together; a consumed confirmation was approved, never rejected, used after approval and before expiry, and bound to the decision that asked for it |
| AuthorityTheorems.AttemptTheorem | backend/app/tasks/service.py:269-357 | in every reachable state a task has at most one attempt, running exactly while the task is RUNNING; finishing raises iff the task is missing, not RUNNING, or at another version |
| AuthorityTheorems.LateAnswer | backend/app/permissions/service.py:178-248 | approving or rejecting a confirmation that has expired leaves the store as it was: the EXPIRED mark is rolled back with the raise |
| ResumeProgress.ResumeTheorem | backend/app/orchestrator/service.py:445-524 | in every reachable state resume raises iff: the workflow is missing or foreign; or it is neither EXPIRED nor overdue and is at another version or not waiting; or its task is not cancelled, its plan is intact, and the task is expired or overdue, or a fresh authorisation puts it into WAITING_PERMISSION, or into WAITING_CONFIRMATION while the workflow is already there |
| ResumeProgress.RevokedMeansWaiting | backend/app/tasks/service.py:397-414 | with no permission for the capability that is not revoked, a re-evaluated task goes to WAITING_PERMISSION, so the workflow cannot be resumed whichever way it waits |
| ResumeProgress.ResumeWithoutProgress | backend/app/orchestrator/service.py:445-524 | a concrete run: a plan without a permission waits, and resuming it raises |
| AuthorityTheorems.SpentOnce | backend/app/permissions/engine.py:367-383 | once consumed, a confirmation's consumption never changes in any continuation |
| AuthorityTheorems.OnceTheorem | backend/app/permissions/service.py:178-216 | every ALLOW under a ONCE permission has a confirmation of that permission approved no later than the decision |
| AuthorityTheorems.FinancialTheorem | backend/app/permissions/engine.py:140-192 | no run has an ALLOW or a confirmation, a queued, running, completed or confirmation-waiting task, or an envelope for a capability that is financial and externally effecting |
| AuthorityTheorems.PermissionTheorem | backend/app/permissions/service.py:153-176 | between any two states of a run a permission keeps its owner, capability, scope and policy, and its status only moves ACTIVE, EXPIRED, REVOKED |
| AuthorityTheorems.EvidenceTheorem | backend/app/orchestrator/service.py:709-795 | the recorded steps of a workflow are as many as its version, chain state to state along the transition table and end in the current state; at most eight transitions |
| AuthorityTheorems.CreateIsIdempotent | backend/app/orchestrator/service.py:128-169 | repeating a create request returns the same workflow and changes nothing, whatever the clock, the policy and the model answer then |
| AuthorityRuns.Run | backend/app/core/database.py:80-92 | the joint invariant of permissions, decisions, confirmations, tasks, workflows, plans, steps and envelopes holds after any chronological sequence of service calls, a raising call being rolled back |
| AuthorityRuns.RunEvolves | backend/app/core/database.py:80-92 | for any two states of a run, every row of the later one is a permitted evolution of the earlier one |
| AuthorityRuns.Serve | backend/app/core/database.py:80-92 | the imperative services, dispatched call by call on one session, reach exactly the states of `Run` |
| FlowSafety.AtMostEightTransitions | backend/app/orchestrator/state_machine.py:8-95 | the transition graph has no cycle: a workflow whose steps replay its state has at most eight transitions behind it |
| FlowSafety.CreateKept | backend/app/orchestrator/service.py:128-375 | a successful create keeps the joint invariant and evolves every row |
| FlowSafety.CancelKept | backend/app/orchestrator/service.py:410-443 | a successful cancel keeps the joint invariant; the linked task is cancelled with the workflow |
| FlowSafety.ResumeKept | backend/app/orchestrator/service.py:445-524 | a successful resume keeps the joint invariant, through re-evaluation, cancellation, denial and the envelope |
| FlowSafety.ConcludeKeeps | backend/app/orchestrator/service.py:345-370 | the shared ending of create and resume: the new workflow state agrees with the task, and READY comes with its envelope |
| Orchestrator.Create | backend/app/orchestrator/service.py:128-375 | the workflow, plan, step, task and envelope tables and the result are those of the value-level create; a raising call leaves the store as it was |
| Orchestrator.Cancel | backend/app/orchestrator/service.py:410-443 | store and result are those of the value-level cancel, with expiry and the version check first |
| Orchestrator.Resume | backend/app/orchestrator/service.py:445-524 | store and result are those of the value-level resume, including plan reloading, task states and safe mode |
| Orchestrator.CreateEnvelope | backend/app/orchestrator/service.py:575-621 | raises unless the decision is ALLOW with a permission and no financial block and safe mode is off; an existing envelope is kept if its plan is the same, otherwise one is built from workflow, plan, task and decision; that each column matches is EnvelopeTheorem and FlowMeaning.CreateTheorem |
| Orchestrator.Move | backend/app/orchestrator/service.py:709-769 | the versioned transition: target in the table or an error and no change; one step appended |
| Orchestrator.ExpireIfDue | backend/app/orchestrator/service.py:647-660 | an overdue non-terminal workflow becomes EXPIRED, any other is left alone |
| AuthoritySafety.AuthorizeKeeps | backend/app/permissions/engine.py:60-205 | authorize adds exactly one decision for exactly the request, and keeps every permission, decision and confirmation row and the balance of uses and consumptions |
| AuthoritySafety.CheckPays | backend/app/permissions/engine.py:325-383 | the confirmation check consumes one confirmation exactly if it lets a use through that needs one, bound to that user, permission, capability, action and scope |
| AuthoritySafety.ApproveKeeps | backend/app/permissions/service.py:178-216 | approving keeps the invariant: a confirmation is approved while pending and unexpired, and a ONCE permission is then confirmed |
| AuthoritySafety.RejectKeeps | backend/app/permissions/service.py:218-248 | rejecting keeps the invariant and touches confirmations only |
| AuthoritySafety.GrantKeeps | backend/app/permissions/service.py:47-116 | granting yields an unexpired ACTIVE permission with the requested owner, capability, device, scope, policy and execution flag, new or reused, and keeps the invariant; its expiry is the subject of GrantExpiry |
| PermissionAdministration.GrantExpiry | backend/app/permissions/service.py:70-100 | the returned permission has the requested expiry iff no live grant has the same other terms, or that grant has that expiry already |
| PermissionAdministration.GrantKeepsOldExpiry | backend/app/permissions/service.py:81-82 | a concrete input on which it does not: granted forever, then again until an instant |
| AuthoritySafety.RevokeKeeps | backend/app/permissions/service.py:153-176 | revoking keeps the invariant and touches permissions only |
| PermissionsEngine.FindPermission | backend/app/permissions/engine.py:244-323 | the search loop with its flags returns the first usable permission in newest-first order, or the reason of highest precedence, and records expiry on exactly the due permissions it looked at |
| PermissionsEngine.FoundIsNewest | backend/app/permissions/engine.py:244-323 | if any permission of the user would serve the request, one is found, and it is that one or a newer one |
| PermissionsEngine.CandidatesOrdered | backend/app/permissions/engine.py:250-259 | the candidates are in query order: newest grant first, ties by the random identifier |
| PermissionsEngine.CandidatesComplete | backend/app/permissions/engine.py:250-259 | no permission of the user for the capability is missing from the candidates |
| PermissionsEngine.Inspect | backend/app/permissions/engine.py:270-312 | one candidate against the request: revoked, expired, vocabulary, scope, device, in that order; an active due one is marked EXPIRED |
| PermissionsEngine.ConfirmationResult | backend/app/permissions/engine.py:325-383 | result and store of the confirmation check: not needed, missing, foreign, mismatched, expired, rejected, pending, consumed or spent now |
| PermissionsEngine.Finalize | backend/app/permissions/engine.py:385-483 | the decision is appended, together with a confirmation request exactly for REQUIRE_CONFIRMATION |
| PermissionsEngine.Authorize | backend/app/permissions/engine.py:60-205 | the decision pipeline changes the store exactly as its value-level meaning says and returns the new decision; what that decision is, in fields, is AuthorizationMeaning.AuthorizeTheorem |
| PermissionsEngine.Risk | backend/app/permissions/risk.py:12-49 | the risk level is at least the capability's default and every floor that applies, and CRITICAL whenever the financial guard blocks it |
| PermissionAdministration.Grant | backend/app/permissions/service.py:47-116 | store and result of grant: a live grant with the same terms is returned, otherwise one is added; errors change nothing |
| PermissionAdministration.ListOwned | backend/app/permissions/service.py:118-130 | listing marks every due permission of the user EXPIRED and no other |
| PermissionAdministration.Revoke | backend/app/permissions/service.py:153-176 | store and result of revoke; a foreign or missing permission raises |
| PermissionAdministration.ApproveConfirmation | backend/app/permissions/service.py:178-216 | store and result of approve, with ownership, assurance level, state and expiry checked in order |
| PermissionAdministration.RejectConfirmation | backend/app/permissions/service.py:218-248 | store and result of reject |
| Scopes.NormalizeMeaning | backend/app/permissions/schemas.py:86-92 | a value list is refused exactly if it repeats an entry; otherwise the stored list is sorted, duplicate-free and has the same entries |
| Scopes.MutualAuthorization | backend/app/permissions/schemas.py:94-107 | on normalised scopes, authorisation is transitive, and two scopes authorise each other iff they are equal |
| TaskSafety.CreateKeeps | backend/app/tasks/service.py:91-194 | creating a task keeps the invariant; a returned task has the caller, key and request given and a decision taken for them |
| TaskSafety.CancelStep | backend/app/tasks/service.py:241-267 | a successful cancel leaves a cancelled task as it is, or moves a queued or waiting one to CANCELLED from the expected version, or to EXPIRED if it was overdue; every other row is unchanged and the invariant kept |
| TaskSafety.ClaimStep | backend/app/tasks/service.py:269-316 | a successful claim moves the task from QUEUED at the expected version to RUNNING with one running attempt, or to EXPIRED if it was overdue; every other row is unchanged and the invariant kept |
| TaskSafety.FinishStep | backend/app/tasks/service.py:318-357 | completing or failing succeeds iff the task is RUNNING at the expected version; the task and its attempt end in the requested state and every other row is unchanged |
| TaskEngine.Create | backend/app/tasks/service.py:91-194 | store and result of create: idempotent replay, conflict, expiry, parent and device checks, initial state from the decision |
| TaskEngine.Cancel | backend/app/tasks/service.py:241-267 | store and result of cancel, expiry and version first |
| TaskEngine.Claim | backend/app/tasks/service.py:269-316 | store and result of claim, with the attempt it starts |
| TaskEngine.Finish | backend/app/tasks/service.py:318-357 | store and result of complete and fail, with the attempt they end |
| TaskEngine.Reevaluate | backend/app/tasks/service.py:359-395 | store and result of reevaluate: a fresh decision for the task's own request, and the state it implies |
| TaskEngine.Move | backend/app/tasks/service.py:494-555 | compare-and-set of status and version along the transition table, or an error and no change |
| TaskEngine.ExpiryRaisesOnlyWhileRunning | backend/app/tasks/state_machine.py:11-59 | observing a deadline raises iff the task is RUNNING and overdue |
| MemoryHistory.HistoryTheorem | backend/app/memory/service.py:338-358 | under every interleaving of overlapping calls, for any two points at the later of which a record is active, archived or expired: its revisions are numbered without gap, one per content it had before, and what it held at the earlier point is the revision of that number, or what it still holds |
| MemoryHistory.DeletionTheorem | backend/app/memory/service.py:471-519 | a deleted record and its revisions are the same in every continuation and hold only tombstones, also against calls that had read the record before |
| MemoryHistory.DeduplicationTheorem | backend/app/memory/service.py:142-219 | the key of an ACTIVE record is the fingerprint of its current contents, and no user has two ACTIVE records of one non-historical class with the same canonical content and subject |
| MemoryHistory.CreateBegins | backend/app/memory/service.py:139-141 | create raises before its first write iff the proposal is already expired or its provenance is invalid |
| MemoryHistory.CreateTheorem | backend/app/memory/service.py:147-219 | in every reachable state the record create answers with holds the key iff there was no overdue duplicate, or it has expired, or it is still as it was read, or it still holds the key; the INSERT fails iff another record has taken the key and no duplicate is in the way, and then nothing was written before |
| MemoryHistory.RereadTheorem | backend/app/memory/service.py:206-216 | after a failed INSERT create answers with the record that holds the key by then, and raises iff none does any more |
| MemoryHistory.CreateAnswersDeleted | backend/app/memory/service.py:147-165 | a concrete run: create answers with a deleted record although another one holds the key |
| MemoryHistory.CreateRaises | backend/app/memory/service.py:206-214 | a concrete run: the holder of the key is deleted between the failed INSERT and the re-read, and create raises |
| MemoryHistory.LostExpiryTheorem | backend/app/memory/service.py:674-713 | in every reachable state a call that found a record overdue answers with nothing iff the record is expired by then; it expires the record iff it is as it was read; otherwise it goes on with the record as refreshed: reading answers with it whatever it has become, updating and archiving only at the expected version |
| MemoryHistory.UpdateSucceeds | backend/app/memory/service.py:338-381 | the versioned UPDATE goes through iff the record is active and still exactly as it was read, and no other active record holds the new key |
| MemoryHistory.UpdateKept | backend/app/memory/service.py:338-381 | an update that goes through snapshots the record as it stood, re-keys it, and keeps the invariant |
| MemoryHistory.CreateKept | backend/app/memory/service.py:142-219 | inserting keeps the invariant whatever has become of the duplicate and of the key |
| MemoryHistory.ArchiveKept | backend/app/memory/service.py:405-446 | archiving keeps the invariant and the history |
| MemoryHistory.DeleteKept | backend/app/memory/service.py:472-519 | deleting scrubs the record and every revision of it, and of no other record |
| MemoryHistory.Run | backend/app/memory/service.py:122-230 | the invariant on records, revisions, keys and calls in flight holds after any interleaving of the statements of calls |
| MemoryHistory.RunEvolves | backend/app/memory/service.py:674-713 | between any two states of a run, every change of a record takes a version, inactive records never revive, deleted ones are frozen and history only grows |
| MemoryHistory.Serve | backend/app/memory/service.py:122-539 | the service, called statement by statement, reaches exactly the states of Run |
| MemoryCore.MemoryService.BeginCreate | backend/app/memory/service.py:122-165 | create up to its first write: expiry, provenance, duplicate |
| MemoryCore.MemoryService.Insert | backend/app/memory/service.py:147-205 | create from its first write up to the INSERT: the due duplicate expired if still as read, then the row inserted or the key found taken |
| MemoryCore.MemoryService.Reread | backend/app/memory/service.py:206-216 | create after a failed INSERT: the record that holds the key now, or an error |
| MemoryCore.MemoryService.Observe | backend/app/memory/service.py:294-337 | get, update and archive on an active record up to their first write: an overdue one is to be expired, any other is checked against the request |
| MemoryCore.MemoryService.CheckUpdate | backend/app/memory/service.py:306-335 | the checks of update on the row last read, in order |
| MemoryCore.MemoryService.Expire | backend/app/memory/service.py:674-713 | the same on a record found overdue: expired and answered with nothing, or pursued as refreshed |
| MemoryCore.MemoryService.WriteUpdate | backend/app/memory/service.py:338-381 | the versioned UPDATE with the snapshot of the row read: lost, duplicate key, or both tables changed, column by column as in MemoryMeaning.WriteTheorem |
| MemoryMeaning.WriteTheorem | backend/app/memory/service.py:306-519 | in every reachable state, column by column: an update, archive or delete goes through iff the record is the caller's, in a status that allows it, at the expected version and its new key free; each requested column holds the requested value and every other its own, the normalised text and the fingerprint and key follow content and subject, an emptied metadata is {}, the version is one higher, and a deleted record and its revisions are blanked; the error otherwise |
| MemoryMeaning.InsertTheorem | backend/app/memory/service.py:147-205 | in every reachable state: what inserting answers, the row added, and the duplicate expired iff it is as it was read |
| MemoryMeaning.BeginTheorem | backend/app/memory/service.py:122-470 | in every reachable state: what every call answers or does next from the rows it reads, with the row a proposal makes column by column; without an ALLOW nothing |
| MemoryMeaning.LapseTheorem | backend/app/memory/service.py:674-713 | in every reachable state: a record found overdue is expired iff it is as it was read, and otherwise the call goes on with the record as it is now, with every outcome of its checks |
| MemoryMeaning.SweepTheorem | backend/app/memory/service.py:660-672 | in every reachable state: a list expires its next overdue record iff it is as it was read, and goes on with the others |
| MemoryCore.MemoryService.WriteArchive | backend/app/memory/service.py:405-446 | the versioned archive, or a conflict |
| MemoryCore.MemoryService.BeginDelete | backend/app/memory/service.py:448-470 | delete up to the versioned UPDATE |
| MemoryCore.MemoryService.WriteDelete | backend/app/memory/service.py:472-519 | the versioned delete with the scrubbed revisions, or a conflict |
| MemoryCore.MemoryService.ExpireRow | backend/app/memory/service.py:681-701 | the versioned expiry: done, or lost, and then whether the record is expired anyway |
| MemoryCore.MemoryService.MaterializeDueExpirations | backend/app/memory/service.py:660-672 | the loop expires exactly the due active records of the user |
| Conversations.SequenceTheorem | backend/app/text_assistant/service.py:652-671 | under every interleaving of overlapping submissions: next_sequence is 2*version-1, sequence numbers of a conversation increase without repetition, and every user message is directly followed by its reply |
| ConversationMeaning.SubmitTheorem | backend/app/text_assistant/service.py:170-278 | in every reachable state of overlapping submissions: the error of every refusal as an iff, the message that answers a repeated request, and otherwise exactly two new rows, the user's with the request's content, key and fingerprint and the reply with the handler's text, numbered next, in a conversation one version on |
| ConversationMeaning.OpenTheorem | backend/app/text_assistant/service.py:104-123 | in every reachable state: a new conversation is one more row, of the user, at version 1, and nothing else changes |
| Conversations.KeyTheorem | backend/app/text_assistant/service.py:673-685 | in every reachable state at most one message of a user holds an idempotency key, and a user message carries the content its fingerprint covers |
| Conversations.Serve | backend/app/text_assistant/service.py:170-278 | the service, with submissions overlapping in any way, reaches exactly the states of Run |
| Conversations.AfterLater | backend/app/text_assistant/service.py:170-278 | whatever other clients commit, what a submission has read stays good enough to complete it |
| Conversations.TextAssistantService.CreateConversation | backend/app/text_assistant/service.py:104-123 | a new conversation of the user at version 1 |
| Conversations.CompleteKept | backend/app/text_assistant/service.py:176-248 | completing a submission, however stale the row it read, either changes nothing and answers with the message that holds the key, or appends exactly one pair |
| Conversations.Run | backend/app/text_assistant/service.py:170-278 | the pairing invariant holds after any interleaving of submissions split at the read and the write |
| Conversations.TextAssistantService.BeginSubmit | backend/app/text_assistant/service.py:170-185 | idempotency, ownership and version, on the state read |
| Conversations.TextAssistantService.CompleteSubmit | backend/app/text_assistant/service.py:197-278 | reservation, insertion and reply, all or nothing |
| Conversations.TextAssistantService.ReserveMessagePair | backend/app/text_assistant/service.py:652-671 | compare-and-set of version and next_sequence; the reserved number is the one read |
| VoiceRuns.CouplingTheorem | backend/app/voice/protocol.py:62-162 | in every reachable state PROCESSING and INTERRUPTING are never committed; while a stream is current and the session live, the state is LISTENING or SPEAKING, and the coordinator holds an assistant turn iff it is SPEAKING |
| VoiceMeaning.OpenTheorem | backend/app/voice/service.py:213-264 | in every reachable state a stream is opened iff the credential is the stored one and unexpired, the identity valid, the session neither terminal nor past its maximum, no connection current or the current one idle for the timeout, and it was never connected or has reconnects left; the error of each failing case and the session left, in fields |
| VoiceMeaning.AcceptTheorem | backend/app/voice/api.py:84-99 | in every reachable state a stream gets a coordinator iff it is opened, the provider is reached and the session is then still in time; what is committed in every other case |
| VoiceMeaning.LeaveTheorem | backend/app/voice/service.py:382-441 | in every reachable state: the rows after an idle timeout, a lost client, a crash, an ended session and a refreshed credential, column by column |
| VoiceMeaning.RefreshAnswer | backend/app/voice/service.py:187-211 | a refresh succeeds iff the session is alive and the new credential not expired already, with the error of each other case |
| VoiceMeaning.EventTheorem | backend/app/voice/protocol.py:62-96 | in every reachable state: answer, events sent, coordinator and rows for every interrupt, playback and end event |
| VoiceMeaning.FinalTheorem | backend/app/voice/service.py:273-339 | in every reachable state, with text clients committing between its read and its write: the error of each refused turn, the replay of a recorded one, and for a new one exactly when it is sent, the pair it adds, and the session and turn rows |
| VoiceAudioMeaning.AudioTheorem | backend/app/voice/protocol.py:98-162 | in every reachable state: which frames are accepted, which provider events are passed on and in which order, what the final transcript sends and when the frame fails, with coordinator and rows |
| VoiceAudioMeaning.ReceiveTheorem | backend/app/voice/api.py:101-148 | in every reachable state: what one payload commits, given what handling it answers, and whether the stream goes on |
| VoiceRuns.MatchingEventTheorem | backend/app/voice/service.py:341-380 | a matching interrupt or playback event succeeds and returns to LISTENING iff the session is neither terminal nor timed out, and otherwise is answered SessionExpired with a terminal session: never an invalid transition |
| VoiceRuns.ConnectionTheorem | backend/app/voice/service.py:213-264 | after n accepted streams the session counts n, its reconnect count is n-1 for n>=1, n is at most 1 + max_reconnect_attempts, and only connection n can be current |
| VoiceRuns.StaleStreamTheorem | backend/app/voice/service.py:468-482 | no step of a stream other than the last accepted one changes a committed row: all that changes meanwhile is what text clients commit |
| VoiceRuns.StaleEnd | backend/app/voice/protocol.py:83-95 | a stream that is no longer current is answered ENDED when it ends itself, and nothing is committed |
| VoiceRuns.TerminalTheorem | backend/app/voice/state_machine.py:5-73 | ENDED and FAILED are absorbing, and no turn is added after them |
| VoiceRuns.TransitionTheorem | backend/app/voice/service.py:382-429 | in no reachable state do disconnect, fail_connection or open_connection meet an invalid transition |
| VoiceRuns.TurnTheorem | backend/app/voice/service.py:280-339 | once a turn is on record, in every continuation and whatever text clients commit while it is submitted again, exactly one message holds its key and is followed by its reply; the same transcript is answered as a replay that changes neither messages nor state, any other is refused as a conflict |
| VoiceRuns.Run | backend/app/voice/api.py:84-157 | the coupling invariant holds after any sequence of connects, payloads, timeouts, disconnects, crashes, HTTP calls and text submissions, the latter also between a turn's read and write, across every commit and rollback |
| VoiceRuns.SubmitKept | backend/app/text_assistant/service.py:176-248 | a turn that reads the conversation in one state and writes in a later one answers with the message that holds its key and adds at most one pair |
| VoiceServer.Server.Serve | backend/app/voice/api.py:84-157 | one step of the server program is one step of Run, on the committed rows and every live coordinator |
| VoiceServer.ServeAll | backend/app/voice/api.py:84-157 | the server, step by step from a fresh session, reaches exactly the states of Run |
| VoiceRuns.HandleKept | backend/app/voice/protocol.py:62-162 | whatever is committed after handling an event keeps the rows consistent and coupled to the coordinator |
| VoiceRuns.HearKept | backend/app/voice/protocol.py:113-162 | the loop over provider events keeps rows and coordinator coupled at every final transcript |
| VoiceRuns.OpenKept | backend/app/voice/service.py:213-264 | opening keeps the session invariant, numbers the connection next, and leaves a terminal session alone |
| VoiceProtocol.ValidatedAudioEvents | backend/app/voice/protocol.py:164-179 | accepts exactly non-empty audio of the turn, numbered 0..n-1, whose last part and no other is final |
| VoiceProtocol.VoiceProtocolCoordinator.Audio | backend/app/voice/protocol.py:98-162 | result, coordinator and transaction of an audio frame are those of the recursive meaning of the event loop |
| VoiceProtocol.VoiceProtocolCoordinator.Handle | backend/app/voice/protocol.py:62-96 | result, coordinator and transaction for every kind of client event |
| VoiceProtocol.VoiceStream.Receive | backend/app/voice/api.py:101-148 | what is committed for one payload: success and expiry commit, a malformed event rolls back and disconnects, any other error rolls back and fails the connection |
| VoiceProtocol.VoiceStream.Accept | backend/app/voice/api.py:84-99 | what is committed for a new stream, and the coordinator it gets |
| VoiceSession.VoiceSessionService.OpenConnection | backend/app/voice/service.py:213-264 | session and result of open_connection wherever they are committed; whom it opens for is VoiceMeaning.OpenTheorem |
| VoiceSession.VoiceSessionService.FinalizeTurn | backend/app/voice/service.py:273-339 | session, turn, conversation and result of finalize_turn, for a conversation that may have moved on since it was read |
| VoiceSession.VoiceSessionService.Interrupt | backend/app/voice/service.py:341-365 | session, turns and result of interrupt |
| VoiceSession.VoiceSessionService.PlaybackCompleted | backend/app/voice/service.py:367-380 | session and result of playback_completed |
| VoiceSession.VoiceSessionService.Disconnect | backend/app/voice/service.py:382-406 | session and result of disconnect; another connection's session is left alone |
| VoiceSession.VoiceSessionService.FailConnection | backend/app/voice/service.py:408-429 | the session after fail_connection, which never raises |
| VoiceSession.VoiceSessionService.EndOwned | backend/app/voice/service.py:431-441 | the session after end_owned |
| VoiceSession.VoiceSessionService.RefreshCredential | backend/app/voice/service.py:187-211 | session and result of refresh_credential |
| BenchmarkRunner.OnceTheorem | scripts/run_nano_luna_benchmark.py:162-283 | over any sequence of launches, crashes at any point and resumptions: the provider is called at most once per run, case and model; every call was checkpointed before; every finished record was called |
| BenchmarkMeaning.RecordTheorem | scripts/run_nano_luna_benchmark.py:89-283 | in every reachable state the record on disk after a call has the tokens, latency, cost, status, reason, model and text of the provider's answer, the run's totals grow by them, no other record changes, and the runner goes on iff the call completed and pairs are left; an answer that makes no valid record writes nothing |
| BenchmarkMeaning.BeginTheorem | scripts/run_nano_luna_benchmark.py:207-236 | in every reachable state the pair is put on record as in progress before the call, unless the ceiling is reached, its name is not valid or it is on record |
| BenchmarkMeaning.LaunchTheorem | scripts/run_nano_luna_benchmark.py:127-206 | in every reachable state a launch starts a runner iff name and ceiling are well-formed, the run exists iff it is resumed, no selected pair is in progress, one is untried and calls are left; its pairs are the untried ones in order |
| BenchmarkMeaning.SelectionTheorem | scripts/run_nano_luna_benchmark.py:51-66 | the selected pairs are every fixture asked for with every model asked for, refused iff the case does not occur once or the model is unknown |
| BenchmarkRunner.CeilingTheorem | scripts/run_nano_luna_benchmark.py:195-210 | the calls on record for a run never exceed the largest ceiling with which a runner of it was actually started, which is at most 20; refused launches do not count |
| BenchmarkRunner.FinishedTheorem | backend/app/ai_router/benchmark_store.py:235-238 | a finished record is the same in every continuation |
| BenchmarkRunner.StoredTheorem | backend/app/ai_router/benchmark_store.py:204-213 | every stored document passes validation and can be resumed |
| BenchmarkRunner.ExecuteKept | scripts/run_nano_luna_benchmark.py:127-296 | every sequence of steps from a consistent state keeps it consistent and loses or changes no finished record |
| BenchmarkRunner.Bench.RunBenchmark | scripts/run_nano_luna_benchmark.py:127-296 | the program's effect is exactly that of a sequence of protocol steps with at most one launch, of the selected cases and models, wherever it stops; it reports completion only if every selected pair is finished |
| BenchmarkRunner.Bench.RunPairs | scripts/run_nano_luna_benchmark.py:145-296 | the same from the result store on |
| BenchmarkRunner.Campaign | scripts/run_nano_luna_benchmark.py:127-296 | any series of invocations on an empty result directory, each stopping where it may, leaves the state of a run of the protocol |
| BenchmarkRunner.Bench.CallPending | scripts/run_nano_luna_benchmark.py:207-283 | the call loop is a sequence of protocol steps; completion means every pending pair is finished |
| BenchmarkRunner.Bench.FindPending | scripts/run_nano_luna_benchmark.py:167-179 | the selected pairs without a record, in order, or a refusal iff one of them is in progress |
| BenchmarkStore.CheckpointKeeps | backend/app/ai_router/benchmark_store.py:215-250 | a checkpoint passes re-validation, changes exactly the record of its key, and only from absent to in progress or from in progress to finished |
| BenchmarkStore.CheckpointAccounts | backend/app/ai_router/benchmark_store.py:119-137 | the recomputed aggregates are the old ones plus exactly the share of the new record |
| BenchmarkStore.AggregatesAdd | backend/app/ai_router/benchmark_store.py:119-137 | the aggregates of two lists of calls add up |
| BenchmarkStore.ValidateRun | backend/app/ai_router/benchmark_store.py:153-166 | the loop with its key set accepts exactly documents with a valid identifier, records of that run, distinct keys and recomputable aggregates |
| BenchmarkStore.Checkpoint | backend/app/ai_router/benchmark_store.py:215-250 | result of checkpoint, valid again |
| RoutingTheorems.PermutationTheorem | backend/app/ai_router/policy.py:113-260 | permuting the catalog changes nothing in the decision: outcome, reasons, cost, selected model, fallbacks |
| RoutingTheorems.ChainTheorem | backend/app/ai_router/policy.py:125-260 | some filter leaves nothing iff no model passes them all; otherwise the selected model and the fallbacks are exactly the eligible models, each once, with the smallest class and then quality at the head, and the only denial left is the hard budget |
| RoutingMeaning.DecisionTheorem | backend/app/ai_router/policy.py:113-260 | every decision, in fields: denied with the reason of the first of six conditions that no model meets; otherwise selected and fallbacks are the eligible models in order of class, quality, availability, provider sensitivity, price, priority, provider and identifier for every two positions, denied for the budget iff the first costs more than the request, day or month limit leaves, with the least covering cost and exactly the reasons whose conditions hold, in order |
| RoutingMeaning.EligibilityTheorem | backend/app/ai_router/policy.py:125-188 | a model is eligible iff it and its provider are enabled and reachable, its class and quality fit the request, it has every capability, provider and model may see every sensitivity the request carries with the approval for the highest, and the tokens fit |
| RoutingTheorems.FallbackTheorem | backend/app/ai_router/policy.py:346-365 | the second sort never changes the order left by the first: the fallbacks are the sorted list without its head |
| RoutingTheorems.SensitivityTheorem | backend/app/ai_router/policy.py:80-96 | raising sensitivities or adding contexts only removes eligible models; a served request stays served when they are lowered unless the hard budget forbids it, and its chain is contained in the new one |
| RoutingTheorems.AllowsMonotone | backend/app/ai_router/schemas.py:82-88 | with a consistent approval chain, a model allowed for a sensitivity is allowed for every lower one |
| RoutingTheorems.HighestMonotone | backend/app/ai_router/schemas.py:174-176 | the effective sensitivity rises with any of its parts |
| RoutingTheorems.ReasonsDistinct | backend/app/ai_router/policy.py:211-255 | no reason is given twice, so removing duplicates leaves the list alone |
| RoutingPolicy.OrderTotal | backend/app/ai_router/policy.py:314-338 | the selection key orders any two models, and ties only the same provider and model identifier |
| RoutingPolicy.Highest | backend/app/security/classification.py:30-34 | an upper bound of all values that is one of them |
| RoutingPolicy.EstimateMicrounits | backend/app/ai_router/schemas.py:45-66 | raises iff a count is negative or cached exceeds input; otherwise the least number of microunits covering the exact price |
| RoutingService.Decide | backend/app/ai_router/policy.py:113-260 | the decision built step by step is that of the value-level policy, which DecisionTheorem spells out |
| RoutingService.FilterModels | backend/app/ai_router/policy.py:125-188 | the six filters in order, with the reason of the first that leaves nothing |
| RoutingService.BuildCatalog | backend/app/ai_router/catalog.py:25-52 | a catalog is accepted iff no provider key and no model repeats, each model names a known provider, and both lists are non-empty |
| RoutingService.CollectProviders | backend/app/ai_router/catalog.py:30-34 | the provider loop yields exactly the listed providers, or refuses iff a key repeats |
| RoutingService.AttemptsChronicle | backend/app/ai_router/service.py:175-253 | for every behaviour of the providers: attempts follow the chain from its head numbered 1..k, k at most max_attempts, every one but the last failed retryably, a success is within the token budget and last, and a retryable last failure means the chain or the limit is exhausted |
| RoutingService.AttemptsMean | backend/app/ai_router/service.py:323-391 | every usage record has the counts, actual cost and failure category of what its adapter answered, an unregistered adapter and an answer over budget being failures, and the least covering price of the model called |
| RoutingService.AIRouter.Invoke | backend/app/ai_router/service.py:148-253 | decision and usage records and result of invoke: refused, denied, failed or the first success |
| ResearchCache.HitTheorem | backend/app/research/cache.py:27-36 | after any operations a hit returns the latest put of its key, not older than the TTL, and the size is within the bound |
| ResearchCache.MustHitTheorem | backend/app/research/cache.py:27-42 | a key touched and then followed by fewer than max_entries distinct other keys put or hit, with no clear and its latest put unexpired, is a hit with that put |
| ResearchCache.RunRefines | backend/app/research/cache.py:27-45 | the cache is always a part of the unbounded map of latest puts |
| ResearchCache.Serve | backend/app/research/cache.py:15-45 | the cache, called operation by operation, holds exactly the entries of Run |
| ResearchCache.BoundedTTLCache.Get | backend/app/research/cache.py:27-36 | entries and result of get: miss, expiry with removal, or hit moved to the end |
| ResearchCache.BoundedTTLCache.Put | backend/app/research/cache.py:38-42 | entries after put: the key at the end, oldest entries evicted down to the bound |
| Metadata.ValidateJsonShape | backend/app/core/metadata.py:9-33 | the explicit-stack check terminates and accepts exactly the values whose recursive node count and depth are within bounds and that hold only string keys and JSON leaves |
| Metadata.RedactShrinks | backend/app/core/redaction.py:43-54 | redaction never increases node count or depth and keeps JSON values JSON |
| Metadata.RedactMarks | backend/app/core/redaction.py:43-54 | at every depth each sensitive key holds the redaction marker, and no key is lost or added |
| Metadata.RedactKeeps | backend/app/core/redaction.py:43-54 | redaction changes nothing else: every value on a path without a sensitive key is still there with its text cleaned, and no path is added |
| Metadata.RedactIdempotent | backend/app/core/redaction.py:43-54 | redacting twice is redacting once if cleaning text is idempotent |
| Metadata.SanitizeTheorem | backend/app/core/metadata.py:35-56 | whatever is let through passes every check again and is marked; and if cleaning text is idempotent and leaves the marker alone, a second pass returns it unchanged |
| Metadata.SanitizeMetadata | backend/app/core/metadata.py:35-56 | accepts iff entries, nodes, depth, JSON shape and encoded size are within the limits, and answers with the redacted value; otherwise the problem of the first check that fails, each as an iff |

## Left out

- One service call reads the clock once; the voice stream reads it at the call and again when it reports the state.
- Audit records, task and memory events, observers, logs and HTTP routes carry no invariant of their own.
- `reevaluate` is called through resume only, as in the program; called on its own it would decouple a workflow from its task.
- The from/to trail of task events, because the previous status is read after the UPDATE.
- Task result payloads, worker identities of attempts, and context packs of memory records.
- TaskEngine.Create: the replay after losing an insertion race, which needs two creations of one key at the same time; calls on the authority tables are serial.
- Concurrent transactions on one confirmation and concurrent benchmark runners: the program takes no lock there, and the steps are serial here; calls on one voice session are serialised by its row lock.
- Transcript confidence, device checks inside identity validation and the contents of audio.
- RoutingService.AIRouter.Invoke: latency and observer events are not recorded, and whether the caller's transaction keeps the usage records of a failed invocation is the caller's affair.
- Budgets of fallback models: the program checks the selected model's estimate only.
- The order of required capabilities in a decision, which depends on the request alone.
- BenchmarkRunner.Bench.RunBenchmark: a file write is one atomic step.
- Timestamps of benchmark documents and records.
- ResearchCache.BoundedTTLCache.constructor: the two positivity checks are preconditions instead of an exception.
- Metadata.ValidateJsonShape: lists and tuples are not told apart, numbers and booleans are opaque, and which of several problems is reported is not modelled.
- Which keys count as sensitive and how text is cleaned: two functions, of which only idempotence is assumed, and only where stated.
- Intent and sensitivity classifiers, research fetching, HTML extraction, provider adapters, authentication tokens, hashing, JSON encoding and Unicode normalisation.
- Web and Android clients, migrations and release scripts.
