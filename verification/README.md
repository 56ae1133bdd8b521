# Patrice: verified models of the API's stateful cores

Patrice runs an organization's tasks, roles and grants, and keeps role membership in step with
Discord. This project models the parts of its API whose correctness rests on state that several
operations share, and proves what those operations guarantee together: over every run, every
interleaving, every crash point.

`dafny verify dfyconfig.toml` checks everything. Each operation that the API performs by changing
rows or fields is a method proved equal to a specification function on the state; the theorems are
about those functions.

| component | files |
|---|---|
| Two-way role sync | `Reconciler`, `SyncRun`, `DiscordAdapter`, `SyncTheorems`, `SyncResults`, `SyncRecovery`, `SyncRefusals`, `SyncIntent`, `SyncRepointed`, `SyncSharedRole`, `FastPath` |
| Tasks, claims, submissions | `TaskStatus`, `TaskLifecycle`, `TaskService`, `TaskRuns`, `TaskResults`, `TaskHistory`, `TaskTemplate`, `ResubmittedFiles`, `RetiredAnswers`, `Validator`, `ValidatorMeaning` |
| Access decisions | `Cedar`, `Policies`, `PolicyMeaning`, `PolicyResults`, `PolicyCache`, `AdminFloor`, `AdminHistory` |
| Collection of retired rows | `Gc`, `GcResults`, `GcOneSweep`, `GcRows`, `GcSteps`, `GcLoops`, `Collector` |
| Gateway connection | `Gateway`, `GatewayHistory` |
| Keyset pagination | `KeysetPaging` |

`Common` holds the few shared definitions (ids, `Option`, sequence functions).

## What was found

Ten promises do not hold as they are usually stated. Each has a concrete counterexample or an
exact condition here. An eleventh holds only because of what its caller never does.

- *An admin's revoke wins.* Not right after an outbound add: the baseline stores the Discord bit
  observed before the run, so until the next run the revoke is read as a Discord-side grant. It wins
  exactly when the loaded baseline records the role (`SyncIntent.RevokeSurvivesIffRecorded`). The
  glossary in `api/CONTEXT.md` says every write updates the baseline; the code's own pushes do not.
- *A change in Discord reaches Patrice.* Re-pointing a mapping at another group leaves its baseline
  rows, no successful run removes them (`SyncRepointed.RepointLeavesRows`), and loaded rows are keyed by
  user and group alone. So the rows count for whichever mapping uses the old group next, and a
  member who gains that group in Discord loses it again. A change at a membership that is not native
  gets through exactly when the user had the role on Discord or no such row lingers
  (`SyncIntent.DiscordChangeReachesIff`, `SyncRepointed.DiscordChangeCanBeReverted`).
- *An interrupted run is made good by the next one.* It is, from every crash point and over any number
  of interruptions, exactly when no undecided edge hangs on a lingering row of a mapping that the run
  itself flags as broken (`SyncRecovery.CrashRecoveryIff`, `SyncRepointed.RecoveryCanDiffer`).
- *Every run converges.* Where two inbound mappings share a role and the user is in one of their groups
  only, no state is at rest unless the membership is native (`SyncSharedRole.ContestedHasWork`), and
  none will be as long as no other mapping writes those groups (`ContestedNeverRests`). The same goes
  for two outbound mappings on one group (`DisputedNeverRests`). Where sharing mappings all go the same
  one way, the sync comes to rest exactly if nothing is contested or disputed (`ComesToRestIff`), but
  not always in one run: the second of two agreeing grants hits the unique index, throws, and cuts the
  run short (`AgreeingGroupsCanTakeTwoRuns`).
- *The targeted reconcile of a member does what the sweep would.* It passes every mapped group as known.
  When a group has been deleted in Discord it reads its members as having left and revokes their synced
  roles, where the sweep flags the mapping and leaves them (`FastPath.FastPathCanRevoke`). The two plans
  are the same exactly when no active mapping of a live role has lost its group (`FastPathAgreesIff`),
  and reconciling all users one by one ends like a sweep exactly when such mappings would change nothing
  (`AnyOrderReachesTheSweepIff`). On the groups that exist they always agree.
- *A template unlocks when no active submission is left.* The foreign key of `answer.question_id`
  refuses the rewrite as long as a retired submission has answers
  (`TaskTemplate.TemplateEditableIff`, `RetiredAnswers.RetiredAnswersLockTemplate`).
- *Stored answers of an active submission stay valid.* A resubmission re-owns the attachments it
  references and so takes them from the version it answers (`TaskTemplate.StoredStillValidIff`,
  `ResubmittedFiles.StoredAnswersCanFail`). The answers as submitted do stay valid.
- *Active slots never exceed openings.* A claim compares with openings read before the lock; lowering
  the openings in between breaks it (`TaskResults.ClaimKeepsCapacityIff`, `CapacityCanBreak`).
- *An organization keeps an effective admin.* Three steps are not guarded and can remove the last one:
  retiring a division or team, unlinking, and a sync revoke of a membership in a mapped role, on which
  a governing grant can be made (`AdminFloor.OtherStepsKeepAdmin`, the three `KeepsAdminIff` lemmas,
  and a concrete organization for each).
- *One sweep collects all that can be collected.* Purging users frees roles after the role phase; two
  sweeps settle (`GcResults.TwoSweepsSettle`, `OneSweepNotEnough`). One is enough exactly when nothing
  past grace is kept back only by memberships of users past grace (`GcOneSweep.OneSweepSettlesIff`).
- *A RESUME names the last position of its session.* It does in every run in which Discord keeps to the
  protocol (`Gateway.ResumeIsExact`). The pure state machine does not enforce this: fed a READY after
  a resumable INVALID_SESSION, it keeps the old sequence number (`Gateway.OrderlyRunCanResumeWrong`).
  The connection service never gets there, because it only reconnects after INVALID_SESSION, so that no
  IDENTIFY is outstanding for a READY to answer.

## Reading the models

- Composite string keys such as `userId:roleId` are pairs; the ids contain no colon.
- The sync theorems compare runs over the same links, role rows and known groups (`World`), and
  assume what makes edges independent: links one-to-one (the unique indexes of `external_identity`)
  and no two active mappings on one role or one group (`Sound`). `SyncSharedRole` drops the second
  assumption where the mappings that share are all inbound or all outbound. The baseline rows are arbitrary throughout.
- A baseline row *lingers* on an edge when it names the edge's user and group but belongs to another
  active bidirectional mapping (`Lingering`); a role is *recorded* when the edge's own row is there or
  one lingers (`Recorded`).
- A crash is a stop after any prefix of the apply phase's separate writes. Failures that mark a
  mapping broken for good (403, 404) are part of the model but not of the recovery theorem: a broken
  mapping is skipped from then on, by design.
- A task run interleaves whole transactions, except that a claim's read of the openings and a review's
  read of the version are events of their own, as in the code.
- A run of the Gateway machine is told of one socket: after INVALID_SESSION the connection service
  drops its socket without closing it, and events that still arrive from there are not part of a run
  that conforms to the protocol.
- Access decisions evaluate a Cedar abstract syntax with `has`, short-circuit connectives, errors for
  missing attributes, forbid over permit, and erroring policies skipped.
- The collection model keeps, for every row, the rows its foreign keys name, with the RESTRICT and
  CASCADE rules of `api/prisma/schema.prisma`.

## Model

| member | source | states |
|---|---|---|
| Reconciler.IndexMembers | api/src/integrations/sync/reconciler.ts:79-87 | the reverse index holds a user under a group exactly when the membership answer lists the group for the user |
| Reconciler.ReconcileBidirectional | api/src/integrations/sync/reconciler.ts:161-216 | the nested branches append exactly the operations of one verdict on (Discord bit, Patrice source, baseline bit) |
| Reconciler.ReconcileEdge | api/src/integrations/sync/reconciler.ts:105-144 | one (mapping, link) edge adds its operations on both sides and its baseline row, by the Discord bit observed |
| Reconciler.ReconcileMapping | api/src/integrations/sync/reconciler.ts:89-145 | a broken, groupless or retired mapping plans nothing (or only its flag), any other one visits every link in order |
| Reconciler.Reconcile | api/src/integrations/sync/reconciler.ts:72-148 | the loops compute the plan defined edge by edge over mappings and links, all five lists in order |
| SyncRun.OutboundReport | api/src/integrations/sync/discord.adapter.ts:93-165 | applied and failed calls add up to all calls, also when a 401 aborts the loop |
| DiscordAdapter.Adapter.ApplyOutbound | api/src/integrations/sync/discord.adapter.ts:93-165 | delivered calls move Discord, the report lists them in order, each permanently refused group appears once |
| DiscordAdapter.Adapter.ApplyPaOps | api/src/integrations/sync/discord.adapter.ts:439-479 | creates and deletes membership rows one by one; the first rejected one throws and nothing after it happens |
| DiscordAdapter.Adapter.Push | api/src/integrations/sync/discord.adapter.ts:481-530 | Discord calls followed by the flags of mappings whose group was refused |
| DiscordAdapter.Adapter.WriteBaseline | api/src/integrations/sync/discord.adapter.ts:532-563 | upserts row by row, then one delete of all vanished rows |
| DiscordAdapter.Adapter.ApplyReconcileResult | api/src/integrations/sync/discord.adapter.ts:412-566 | the new state is the execution of the plan's writes in the code's order: flags, Patrice, Discord, refusals, baseline |
| DiscordAdapter.Adapter.LoadBaseline | api/src/integrations/sync/discord.adapter.ts:256-269 | loads the rows of active bidirectional mappings, and nothing when there is none |
| DiscordAdapter.Adapter.Sync | api/src/integrations/sync/discord.adapter.ts:237-285 | a sweep executes the plan of the current state against Discord's answers |
| DiscordAdapter.Adapter.PlanUser | api/src/integrations/sync/discord.adapter.ts:354-391 | the fast path's inputs give the planner's plan for a one-link world with every mapped group known |
| DiscordAdapter.Adapter.SyncUser | api/src/integrations/sync/discord.adapter.ts:329-406 | executes the one-user plan by the same apply phase |
| SyncTheorems.ProgressPartway | api/src/integrations/sync/discord.adapter.ts:439-563 | any allowed progress through the writes is accepted, changes only the plan's own edges, and has every Patrice effect in before any Discord or baseline effect |
| SyncResults.StoppedRun | api/src/integrations/sync/discord.adapter.ts:412-566 | a run cut off after any number of writes leaves each edge either as it was or as planned, Patrice first |
| SyncRefusals.ReportNamesRefused | api/src/integrations/sync/discord.adapter.ts:93-165 | the report names a group exactly if a call on it was answered 403 or 404 before any 401, each once, and an invalid token exactly if a 401 came |
| SyncRefusals.BrokenAfterRun | api/src/integrations/sync/discord.adapter.ts:412-530 | after a run, however Discord answers, a mapping is broken if and only if it was, its group was gone, or a call on its group was refused for good before any 401 |
| SyncRefusals.DiscordAfterRun | api/src/integrations/sync/discord.adapter.ts:481-506 | each Discord membership is as the last delivered call before any 401 says, and as before if none was delivered |
| SyncRefusals.PlannerFlagsExactly | api/src/integrations/sync/reconciler.ts:89-100 | the planner flags exactly the active mappings whose group is unknown, and none when the membership answer is empty |
| SyncResults.LoadedBit | api/src/integrations/sync/reconciler.ts:59 | the baseline bit an edge is decided with is its own row or a lingering row of another active bidirectional mapping, because the key has no mapping id |
| SyncRecovery.EdgeRecovers | api/src/integrations/sync/reconciler.ts:105-143 | planning again from a half-applied edge aims at the same two bits, whatever rows linger, unless the only record is one that the run takes out of use |
| SyncRecovery.CrashRecoveryIff | api/src/integrations/sync/discord.adapter.ts:412-563 | every stop at any write, with any transient failures, is followed by a successful run that ends with the roles of an uninterrupted one, if and only if no undecided edge hangs on a lingering row of a mapping whose group is gone |
| SyncRecovery.RepeatedCrashRecoveryIff | api/src/integrations/sync/discord.adapter.ts:412-563 | the same equivalence for every series of interrupted runs |
| SyncRepointed.RecoveryCanDiffer | api/src/integrations/sync/discord.adapter.ts:412-440 | a state and a stopping point after which the next run grants what an undisturbed run would have removed |
| SyncResults.Converges | api/src/integrations/sync/reconciler.ts:105-145 | from any state, after one successful run the next plan has no operation on either side |
| SyncResults.SecondRunRests | api/src/integrations/sync/reconciler.ts:137-143 | after two successful runs the baseline matches Discord as well |
| SyncResults.AtRestIsFixed | api/src/integrations/sync/reconciler.ts:105-145 | a run from there changes neither side nor the baseline |
| SyncResults.RunsAgree | api/src/integrations/sync/discord.adapter.ts:412-566 | any number of further runs keeps the roles that the first one reached |
| SyncIntent.WinnerNeverConsulted | api/src/integrations/sync/reconciler.ts:166-201 | in every configuration, with a loaded baseline the conflict winner of a mapping never affects the decision |
| SyncIntent.WinnerDecides | api/src/integrations/sync/reconciler.ts:189-215 | without a baseline the winner's side stands and the other follows, but a native role is never taken away for Discord |
| SyncIntent.ThreeWayMerge | api/src/integrations/sync/reconciler.ts:161-216 | after a run both sides of a bidirectional edge show the merge of Discord bit, Patrice source and loaded baseline bit, lingering rows included |
| SyncIntent.NativeSurvives | api/src/integrations/sync/reconciler.ts:178-187 | in every configuration, no run, finished or cut off, however Discord answers, removes a natively granted role |
| SyncIntent.AdminChangePropagates | api/src/integrations/sync/reconciler.ts:188-195 | from rest, a grant or revoke in Patrice reaches Discord, is never reverted, and moves nothing else |
| SyncIntent.DiscordChangePropagates | api/src/integrations/sync/reconciler.ts:174-187 | from rest, a change in Discord reaches Patrice and stays, or, where it removes a native role or adds one that a lingering row records, both sides return to what they were |
| SyncIntent.DiscordChangeReachesIff | api/src/integrations/sync/reconciler.ts:166-187 | a change in Discord at a membership that is not native reaches Patrice if and only if the user had the role on Discord or no other active bidirectional mapping has a row for it |
| SyncRepointed.DiscordChangeCanBeReverted | api/src/integrations/integrations.service.ts:289-321 | a state at rest after a re-pointing, from which a role gained in Discord is taken away by the next run |
| SyncRepointed.RepointLeavesRows | api/src/integrations/integrations.service.ts:300-311 | the rows of a re-pointed mapping linger on the edges of the mapping that uses the old group, however many runs follow |
| SyncIntent.RevokeSurvivesIffRecorded | api/src/integrations/sync/reconciler.ts:137-143 | an admin's revoke of a role present on both sides survives the next run if and only if its own row or a lingering one records it |
| SyncSharedRole.ContestedHasWork | api/src/integrations/sync/reconciler.ts:111-116 | whatever else is mapped and linked, a plan is never empty while two inbound mappings share a role that is not native and the user is in one of the groups only |
| SyncSharedRole.ContestedNeverRests | api/src/integrations/sync/reconciler.ts:111-116 | as long as no other mapping writes those groups, the sync does not come to rest after any number of runs |
| SyncSharedRole.DisputedNeverRests | api/src/integrations/sync/reconciler.ts:117-124 | nor does it while two outbound mappings share a group of which the user has one role only, and no other mapping writes those roles |
| SyncSharedRole.ComesToRestIff | api/src/integrations/sync/reconciler.ts:89-145 | among any number of links and mappings, where only mappings of the same one way may share, some number of runs comes to rest if and only if no shared membership is contested and no shared group disputed |
| SyncSharedRole.CutShrinks | api/src/integrations/sync/discord.adapter.ts:442-479 | a run that a rejected second write cuts short still makes the next plan shorter |
| SyncSharedRole.ContestedReturns | api/src/integrations/sync/reconciler.ts:111-116 | two runs in a row that go through flip a contested membership and flip it back |
| SyncSharedRole.RestIsKept | api/src/integrations/sync/reconciler.ts:105-145 | what has come to rest stays so, on both sides |
| SyncSharedRole.AgreeingGroupsCanTakeTwoRuns | api/src/integrations/sync/discord.adapter.ts:442-479 | two mappings that agree on a role can keep a third mapping's grant from happening in that run |
| FastPath.FastPathIsSubsequence | api/src/integrations/sync/discord.adapter.ts:354-391 | of what the fast path plans for a user, the part on groups that exist is exactly the in-order part of the sweep's plan that concerns the user |
| FastPath.FastPathAgreesIff | api/src/integrations/sync/discord.adapter.ts:376-387 | the whole plans are the same if and only if no active mapping of a live role has lost its group |
| FastPath.AnyOrderReachesTheSweep | api/src/integrations/sync/discord.adapter.ts:329-406 | reconciling the linked users one by one, in any order and with repetition, reaches what one sweep reaches at every membership of a mapping whose group exists, and touches nothing else but memberships of mappings whose group is gone |
| FastPath.AnyOrderReachesTheSweepIff | api/src/integrations/sync/discord.adapter.ts:376-387 | it reaches what the sweep reaches everywhere if and only if no edge of a mapping whose group is gone would be changed |
| FastPath.FastPathCanRevoke | api/src/integrations/sync/discord.adapter.ts:376-387 | a deleted group, and a synced role that the fast path revokes and the sweep keeps |
| Validator.ValidateAnswer | api/src/request-templates/validate-submission.ts:102-169 | reports exactly the codes that the answer breaks, per type |
| Validator.ValidateAttachment | api/src/request-templates/validate-submission.ts:172-206 | reports exactly the file-count, missing-file and file-type faults |
| Validator.IndexAnswers | api/src/request-templates/validate-submission.ts:31-32 | the last answer to a question counts |
| Validator.ValidateSubmission | api/src/request-templates/validate-submission.ts:25-81 | succeeds if and only if the submission is valid; the entries reported are exactly the genuine ones |
| Validator.ValidIffNoGenuineError | api/src/request-templates/validate-submission.ts:25-206 | validity, stated as a property of the answers, is the absence of every genuine error |
| Validator.WrongTypeOnlyFromNumbers | api/src/submissions/submissions.service.ts:546-588 | after coercion of submitted values only a numeric question can be reported for a wrong type, and only for a value that is no finite number |
| ValidatorMeaning.RefusedForExactly | api/src/submissions/submissions.service.ts:546-588 | after coercion the entries are exactly the faults of the submitted JSON values, code by code: blank by code points, whole numbers, counts, options, file types |
| TaskStatus.ComputeMinRuleStatus | api/src/tasks/task-status.ts:70-90 | the push-and-reduce loop computes the min-rule table |
| TaskStatus.MinRuleIsMinimum | api/src/tasks/task-status.ts:28-46 | the table is the lowest contribution of open spots and slots, or claimed when nothing contributes |
| TaskStatus.CreationRuleAgrees | api/src/tasks/task-status.ts:22-26 | the rule used at creation agrees with the min-rule as long as no slot has submitted |
| TaskStatus.OrderIrrelevant | api/src/tasks/task-status.service.ts:26-39 | the order in which slots are read does not change the status |
| TaskService.TaskRows.constructor | api/src/tasks/tasks.service.ts:149-168 | a created task starts with the derived status of an empty task |
| TaskService.TaskRows.FindLatest | api/src/submissions/submissions.service.ts:187-191 | the row found is the highest-numbered one of the claimant, among all or among active rows |
| TaskService.TaskRows.Recompute | api/src/tasks/task-status.service.ts:18-49 | the loop over active slots writes the min-rule of the slots' latest active submissions |
| TaskService.TaskRows.CommitClaim | api/src/tasks/tasks.service.ts:423-449 | the locked half of a claim refuses a held slot and a full task by the openings it read, else holds the slot and recomputes |
| TaskService.TaskRows.Leave | api/src/tasks/tasks.service.ts:483-509 | frees a held slot and recomputes; refusals change nothing |
| TaskService.TaskRows.RemoveClaimant | api/src/tasks/tasks.service.ts:665-694 | eviction makes the same change to a named user's slot |
| TaskService.TaskRows.ManageClaims | api/src/tasks/tasks.service.ts:536-577 | changes openings and the closed flag under the checks of the code, in their order |
| TaskService.TaskRows.Complete | api/src/tasks/tasks.service.ts:621-629 | forces the cached status to approved and nothing else |
| TaskService.TaskRows.Submit | api/src/submissions/submissions.service.ts:117-259 | validates, numbers and links the new version, re-owns its attachments and recomputes; on invalid answers reports exactly the genuine errors |
| TaskService.TaskRows.OwnAttachments | api/src/submissions/submissions.service.ts:221-244 | each answer in turn takes over the known attachments it references |
| TaskService.TaskRows.CommitReview | api/src/submissions/submissions.service.ts:358-406 | the version-guarded update decides and bumps the version, or is refused as stale |
| TaskService.TaskRows.RetireSubmission | api/src/submissions/submissions.service.ts:447-514 | retires an active submission, bumps its version and recomputes |
| TaskService.TaskRows.PutTemplate | api/src/request-templates/request-templates.service.ts:66-110 | replaces the questions unless a submission is active or an answer row still names one of them |
| TaskResults.SubmissionChain | api/src/submissions/submissions.service.ts:187-219 | in every run a claimant's numbers are exactly 1..k, each once; the only version that can be in review, approved or rejected while active is k; a predecessor is the returned version numbered one lower |
| TaskResults.DecisionsAreFinal | api/src/submissions/submissions.service.ts:347-374 | over any continuation of a run no row is deleted or renumbered, no decided row changes state, no retired row returns |
| TaskResults.ExactlyOneDecision | api/src/submissions/submissions.service.ts:328-374 | with reads and commits of reviews interleaved with everything else, no submission is decided twice, and an accepted review finds it active and in review |
| TaskResults.StatusAgrees | api/src/tasks/task-status.service.ts:18-49 | in every run the cached status is the min-rule over the current slots unless a manual completion wrote it last |
| TaskResults.RowsFollowHistory | api/src/tasks/tasks.service.ts:416-577 | in every run openings, closed flag, held slots and the task's lifecycle are what the accepted claims, departures, changes and retirements add up to |
| TaskHistory.SubmissionsFollowHistory | api/src/submissions/submissions.service.ts:187-219 | in every run a submission is approved, returned, rejected or in review exactly as the accepted review carried, retired exactly if a retirement was accepted, with the author, number, answers and predecessor it was submitted with |
| TaskHistory.ContentFollowsHistory | api/src/submissions/submissions.service.ts:221-244 | in every run the template is the last accepted one and a known attachment belongs to the last answer that brought it |
| TaskHistory.DerivedMeans | api/src/tasks/task-status.service.ts:18-49 | the derived status in terms of free spots and of each held slot's latest active submission |
| TaskHistory.StatusShowsSlots | api/src/tasks/tasks.service.ts:621-629 | the cached status is approved after a completion, and otherwise the derived one |
| TaskHistory.RefusedExactly | api/src/tasks/tasks.service.ts:423-577 | each error is answered in exactly the listed situations, and every other request is accepted |
| TaskHistory.ReadsRefusedExactly | api/src/submissions/submissions.service.ts:328-346 | what the unlocked reads of claims and reviews return and refuse |
| TaskResults.Capacity | api/src/tasks/tasks.service.ts:416-449 | active slots never exceed openings in a run that does not lower the openings below what an uncommitted claim has read |
| TaskResults.ClaimKeepsCapacityIff | api/src/tasks/tasks.service.ts:435-440 | one commit keeps capacity if and only if not (slots are all taken and the openings it read exceed those of now) |
| TaskResults.CapacityCanBreak | api/src/tasks/tasks.service.ts:417-449 | a run in which a claim races a lowering of the openings ends over capacity |
| TaskTemplate.TemplateLock | api/src/request-templates/request-templates.service.ts:85-95 | in every run the answers that an active submission was submitted with are valid against the current template |
| TaskTemplate.TemplateEditableIff | api/src/request-templates/request-templates.service.ts:85-110 | in every run the template can be replaced if and only if every submission is retired and was submitted without an answer |
| TaskTemplate.StoredStillValidIff | api/src/submissions/submissions.service.ts:221-244 | what the database still holds of an active submission is valid if and only if each required attachment question's answer still owns a file |
| TaskTemplate.ResubmittingTakesFiles | api/src/submissions/submissions.service.ts:234-243 | resubmitting the files of a required attachment answer leaves the older version without them |
| ResubmittedFiles.StoredAnswersCanFail | api/src/submissions/submissions.service.ts:221-244 | a run after which the stored answers of an active submission are invalid |
| RetiredAnswers.RetiredAnswersLockTemplate | api/src/request-templates/request-templates.service.ts:85-110 | a run after which no submission is active and every edit of the template is refused |
| PolicyResults.StaticsMean | api/src/access/cedar/policies.ts:154-187 | the hard deny fires exactly on retired targets, self-access exactly when users update themselves, the self-review forbid exactly when a reviewer is the claimant |
| PolicyMeaning.DedupeEntities | api/src/access/access.service.ts:179-195 | each uid is listed once, with the last write of every attribute and the union of parents |
| PolicyMeaning.Decide | api/src/access/access.service.ts:198-227 | the decision is Cedar's on the merged entities of principal, roles and resource |
| PolicyMeaning.EnvFacts | api/src/access/access.service.ts:142-217 | the principal is in exactly its active roles, its membership sets name exactly the divisions and teams of those, also when it is itself the resource, and the resource keeps its attributes |
| PolicyMeaning.OwnAttrIsOwner | api/src/access/cedar/policies.ts:42-64 | an own policy compares the requester, sender, uploader or claimant, by the action |
| PolicyResults.NeverMissing | api/src/access/cedar/policies.ts:96-132 | no projected condition stops at a missing attribute, for any principal and any resource attributes, self-targeting included |
| PolicyResults.StaticsNeverMissing | api/src/access/cedar/policies.ts:154-187 | nor does any static condition |
| PolicyResults.ClaimMeansEligible | api/src/access/cedar/policies.ts:66-80 | the claim condition holds exactly when each of division and team leaves claims open or is that of an active role of the user |
| PolicyResults.GrantMeans | api/src/access/cedar/policies.ts:96-144 | a grant's policy is satisfied exactly when the user holds its active role, the action is its action and its scope holds of the rows: ids, owners, and the divisions and teams of held roles |
| PolicyResults.DecisionMeansRows | api/src/access/cedar/policies.ts:96-187 | the decision on the projected policies is: self-access or an applicable permit, and no retired target, applicable forbid or forbidden self-review |
| PolicyResults.ProjectionFailsIff | api/src/access/cedar/policies.ts:116-130 | a projection throws if and only if some own grant has an action without an owner relation |
| PolicyResults.AssertShapeIff | api/src/grants/grants.service.ts:94-149 | the shape checks pass exactly the grants with the one scope id their scope needs, on a resource that can be so scoped |
| PolicyResults.AssertShapeComplains | api/src/grants/grants.service.ts:94-149 | the complaint about any other grant: unknown action, then the missing id, then an id too many, then an unscopable resource |
| PolicyCache.NeverStale | api/src/access/access.service.ts:57-113 | under every interleaving of requests, cache drops and committed config writes, a request that read version v decides on a setting and grants each current at v or later |
| PolicyCache.CurrentIsFresh | api/src/access/access.service.ts:61-67 | if no config write committed since, the policies are a fresh projection |
| PolicyCache.UndisturbedDecision | api/src/access/access.service.ts:198-227 | then the decision is the one the rows of that version call for, cached or not |
| PolicyCache.RequestCompletes | api/src/access/access.service.ts:57-113 | an uninterrupted request ends deciding on the cached policies of the current version or on a fresh projection that it stores, and a projection that throws stores nothing |
| PolicyCache.DropsAreSeen | api/src/access/access.service.ts:48-67 | after a cache drop or a committed configuration the next request projects anew |
| PolicyCache.AccessService.GetPolicies | api/src/access/access.service.ts:57-67 | returns the fresh projection, from the cache or by projecting and storing; a projection that throws stores nothing |
| PolicyCache.AccessService.ProjectPolicies | api/src/access/access.service.ts:70-113 | statics followed by one policy per grant, or none when a grant cannot be projected |
| PolicyCache.AccessService.Decide | api/src/access/access.service.ts:198-227 | an undisturbed request is allowed exactly when the rows allow it |
| AdminFloor.Organization.EffectiveAdminCount | api/src/access/administrability.service.ts:38-58 | the join counts exactly the active users with an active, global permit of one of the six governing actions through an active role |
| AdminFloor.AdminsAre | api/src/access/administrability.service.ts:20-58 | those users are the effective admins of the invariants |
| AdminFloor.Organization.WithAdminFloor | api/src/access/administrability.service.ts:112-141 | the change is kept if and only if an effective admin remains after it, else rolled back |
| AdminFloor.Organization.Perform | api/src/users/users.service.ts:124-232 | guarded steps pass the floor, unguarded ones do not, refused ones change nothing |
| AdminHistory.StepChanges | api/src/users/users.service.ts:124-232 | what each applied change makes of every user, role, membership, grant and mapping row |
| AdminHistory.RefusedExactly | api/src/integrations/integrations.service.ts:236-262 | the changes that are refused or find nothing to do, a mapping of a governing role among them |
| AdminHistory.AppliedExactly | api/src/access/administrability.service.ts:112-141 | any other change is applied, a guarded one exactly if somebody administers afterwards |
| AdminFloor.NeverWithoutAdmin | api/src/access/administrability.service.ts:91-141 | no sequence of grant, role, user, group, mapping, sync, unlink and collection steps removes the last admin, if governing grants are made only on standalone, unmapped roles without synced members |
| AdminFloor.RetireGroupKeepsAdminIff | api/src/divisions/divisions.service.ts:173-219 | retiring a division or team leaves an admin if and only if some admin does not depend on its role |
| AdminFloor.UnlinkKeepsAdminIff | api/src/integrations/discord-link.service.ts:163-175 | unlinking leaves an admin if and only if some admin's membership is not among those it drops |
| AdminFloor.SyncRevokeKeepsAdminIff | api/src/integrations/sync/discord.adapter.ts:464-479 | a sync revoke leaves an admin if and only if some admin does not rest on the synced membership it drops |
| AdminFloor.OtherStepsKeepAdmin | api/src/access/administrability.service.ts:91-141 | every step but these three, guarded or not, leaves an admin, wherever governing grants and mappings sit |
| AdminFloor.DivisionRetireCanRemoveLastAdmin | api/src/divisions/divisions.service.ts:173-219 | without the placement rule the unguarded cascade can remove the last admin |
| AdminFloor.SyncRevokeCanRemoveLastAdmin | api/src/grants/grants.service.ts:222-260 | a governing grant on a mapped role lets a guarded removal pass, after which a sync revoke removes the last admin |
| AdminFloor.UnlinkCanRemoveLastAdmin | api/src/integrations/discord-link.service.ts:163-175 | unlinking the account of the only admin, who holds a mapped governing role by the sync, leaves none |
| Collector.Collector.Delete | api/prisma/schema.prisma:573-622 | a delete with its cascades happens as a whole unless a surviving row names a deleted one |
| Collector.Collector.DeleteTaskAggregate | api/src/gc/gc.service.ts:449-486 | its statements, in order, all succeed and remove exactly the task's aggregate |
| Collector.Collector.DeleteDivision | api/src/gc/gc.service.ts:488-509 | template, inherent role and division go in an order that nothing blocks |
| Collector.Collector.DeleteTeam | api/src/gc/gc.service.ts:511-527 | inherent role and team go |
| Collector.Collector.PurgeUserSatellites | api/src/gc/gc.service.ts:371-392 | sign-in rows, memberships, links and the baselines of the linked accounts go, nothing else |
| Collector.Collector.ScrubUser | api/src/gc/gc.service.ts:307-337 | a user with history stays as a tombstone without satellites and e-mail |
| Collector.Collector.DeleteUser | api/src/gc/gc.service.ts:340-368 | a user without history goes with every row that names it |
| Collector.Collector.SweepGroups | api/src/gc/gc.service.ts:239-248 | working through the lists found at the start of the phase equals removing all of it at once |
| Collector.Collector.SweepUsers | api/src/gc/gc.service.ts:253-259 | scrubs exactly the due users with history and deletes the others |
| Collector.Collector.Sweep | api/src/gc/gc.service.ts:218-272 | the sweep equals the composition of its phases, blocks on nothing, and reports exactly the rows that have vanished and the users scrubbed |
| Collector.Collector.ReconcileOrphanedBlobs | api/src/gc/gc.service.ts:604-635 | exactly the stored blobs with an attachment row are kept |
| GcSteps.StatementRuns | api/src/gc/gc.service.ts:455-475 | each statement of a task's deletion finds nothing that still names what it deletes |
| GcResults.SweepKeepsIntegrity | api/src/gc/gc.service.ts:218-272 | a sweep leaves no dangling reference and keeps aggregates and inherent roles coherent |
| GcResults.RevivableOrPastGrace | api/src/common/lifecycle.ts:18-21 | a row retired at a known time is at every moment either revivable or past grace, up to and including the last moment of the window |
| GcResults.NeverCollectsRevivable | api/src/common/lifecycle.ts:18-21 | no task, division, team, role, user or connection that could still be revived since the sweep started is collected |
| GcResults.LiveContentStays | api/src/gc/gc.service.ts:449-486 | messages, submissions, answers, attachments and claims of other tasks are never touched |
| GcRows.SweepRemovesExactly | api/src/gc/gc.service.ts:218-527 | for each table, exactly which rows a sweep removes, told from the rows before it; every other row stays as it was but for the e-mail of a scrubbed user |
| GcRows.AccountGoesIs | api/src/gc/gc.service.ts:380-391 | the baselines purged with a user are those with the external id and the connection of one of its links |
| GcResults.TwoSweepsSettle | api/src/gc/gc.service.ts:218-272 | with a fixed cutoff the second sweep collects only groups and roles, and a third changes nothing |
| GcResults.OneSweepNotEnough | api/src/gc/gc.service.ts:239-259 | a database on which the second sweep still collects a role |
| GcOneSweep.OneSweepSettlesIff | api/src/gc/gc.service.ts:218-272 | a second sweep changes nothing if and only if no due role, division or team is referenced by nothing but memberships of due users |
| GcOneSweep.RoleFreeAfter | api/src/gc/gc.service.ts:239-259 | a role is unreferenced after a sweep if and only if only memberships of due users referenced it before |
| Gateway.ReconnectDelay | api/src/integrations/gateway/gateway-connection.state-machine.ts:187-190 | the delay stays within 1 and 30 seconds and at or above the doubled base until the cap |
| Gateway.ResumeIsExact | api/src/integrations/gateway/gateway-connection.state-machine.ts:93-181 | in every run in which READY answers an outstanding IDENTIFY, RESUMED an outstanding RESUME, and dispatches come only in a session or its replay, each RESUME carries the session of the last READY and the position of the last DISPATCH since |
| Gateway.ResumeRightIff | api/src/integrations/gateway/gateway-connection.state-machine.ts:101-181 | for any event sequence fed to the machine, accepting a READY keeps all later RESUMEs right if and only if no sequence number is recorded when it arrives |
| Gateway.OrderlyRunCanResumeWrong | api/src/integrations/gateway/gateway-connection.state-machine.ts:172-181 | the machine alone, fed READY in its identifying state after a resumable INVALID_SESSION, resumes wrongly |
| Gateway.OneReconcilePerSession | api/src/integrations/gateway/gateway-connection.state-machine.ts:116-133 | the reconciles triggered over a run are as many as its READYs |
| Gateway.DisconnectedReconnects | api/src/integrations/gateway/gateway-connection.state-machine.ts:139-163 | whenever a connection that has been up is disconnected, a reconnect is pending with a delay between 1 and 30 seconds |
| Gateway.BackoffDoubles | api/src/integrations/gateway/gateway-connection.state-machine.ts:139-190 | the wait after the k-th consecutive failure is at least the base doubled k times, up to the cap |
| GatewayHistory.ContextFollowsEvents | api/src/integrations/gateway/gateway-connection.state-machine.ts:93-190 | in every run each recorded field is what the events say |
| GatewayHistory.ActionsFollowEvents | api/src/integrations/gateway/gateway-connection.state-machine.ts:93-190 | each event makes the machine send exactly what it owes, in order: one IDENTIFY or RESUME per HELLO, health on READY, RESUMED and drops, reconnects with their bounds |
| GatewayHistory.MemberEventsAreHandedOn | api/src/integrations/gateway/gateway-connection.state-machine.ts:165-170 | over a run the member events handed on are exactly the dispatched member and role events, once each and in order |
| KeysetPaging.PageSplits | api/src/tasks/tasks.service.ts:229-244 | a page is everything left, or the first rows with a cursor that leaves exactly the others |
| KeysetPaging.NewestFirstComplete | api/src/activity/activity.service.ts:115-150 | following the cursor ends and yields exactly the rows of the first call, once each and in order, while newer rows arrive |
| KeysetPaging.OldestFirstComplete | api/src/messages/messages.service.ts:263-280 | when a call returns no cursor, the calls have listed exactly the rows of that moment, once each and in order |
| KeysetPaging.AnyWalk | api/src/tasks/tasks.service.ts:210-244 | whatever rows enter or leave the filter between the calls, the items are strictly in order, each was there at some call, and a row that is there at every call is listed |

## Left out

- HTTP routing, guards, sessions, sign-in, e-mail, OAuth, the WebSocket and REST clients, queues and the web tier: input and output; only the outcomes of Discord calls enter the model.
- Cedar's concrete syntax, its parser and its strict schema validator: a library; the model starts from the abstract syntax, with ids that need no quoting.
- Activity rows, notifications, system messages, observability columns (`lastError`, sync times) and `sourceConnectionId`: written along the way, read by nothing modelled.
- Notification paging: its order is not that of its cursor, so the paging result does not apply to it.
- Database isolation beyond the two split reads: concurrent admin removals under the floor, two overlapping `manageClaims`, a review racing a submit inside one transaction. Steps are serial.
- A sync operation applied to a membership row that changed since it was planned: in `AdminFloor` each sync write is a step that sees current rows.
- Changing the grace window while rows are retired: the cutoff is the window at the start of a sweep.
- The `has_submitted` flag of a slot and the version counters that guard nothing (task, user, role, grant).
- Invitations: revoking a collected user's pending invites and clearing received addresses touch no foreign key.
- The organization row, which every table references and nothing deletes.
- UTF-16: lengths count characters, and case folding or normalization never matters here.
- SyncRecovery.CrashRecoveryIff: failures that break a mapping for good are excluded, because the next run then skips that mapping on purpose.
- SyncSharedRole.ComesToRestIff: a role or group shared by mappings of different directions, or by bidirectional ones; those relay changes to each other, in rings without end.
- FastPath.AnyOrderReachesTheSweepIff: every Discord call counts as delivered; a call on a deleted group would be refused and flag its mapping on the way.
- PolicyResults.DecisionMeansRows: assumes boolean flags and no membership attributes among a resource's own; a condition that faults on a wrong type is skipped, as in Cedar.
- TaskTemplate.TemplateLock: with the attachment lookup fixed; retiring a referenced attachment can invalidate its answer.
- AdminFloor.NeverWithoutAdmin: the grant service does not itself enforce where governing grants are placed; the three steps that can remove the last admin otherwise, and exactly when, are stated separately.
- KeysetPaging.NewestFirstComplete: rows are only added during the walk, with ids above every existing one; rows that leave or enter the filter are the subject of `AnyWalk`, where a row there at some calls only may be listed or not.
