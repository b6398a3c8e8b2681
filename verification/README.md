# Durable state machines of the control plane

A Dafny model of the control plane's record stores and of the protocols that run over them, with proofs
of what they keep over whole histories.

A store is a class over maps of records. Its durable writes are explicit: a call can die before any of
them, and a restart finds what the last write left. Beside each class stands a transition system with one
action for each write. Its histories are arbitrary interleavings of such actions, so they cover crashes,
retries and other callers. Every method takes only allowed actions (`Valid()` ties the record fields to the
last state of a history), and its contract gives the whole new state and every refusal; a call dies only when
`fuel`, the number of writes it is given, runs out. The theorems are about all histories. The modules named
`...Answers` say what each call's answers mean in terms of record fields alone.

- **Component deployments**: `DeploymentModel` (records, actions and their guards), `DeploymentInvariant`,
  `DeploymentSteps` (each action keeps the invariant), `DeploymentTheorems`, `DeploymentPass` and
  `DeploymentProgress` (one pass over a run, and why runs end), `DeploymentCalls` (what each call decides),
  `DeploymentAnswers` (what the answers mean, told from the records), `DeploymentStore` (the calls), `ComponentOrder`
  (the dependency order), `DeploymentExamples` (histories).
- **Pairing**: `Pairing`, `PairingApproval`, `PairingAnswers`, `PairingStore`.
- **Single-target deployments**: `Servix`, `ServixCalls`, `ServixAnswers`, `ServixStore`, `ServixExamples`, and
  `PollMerge` for the client.
- **Self-updates**: `SelfUpdates`.
- **Notifications**: `Notifications`, `NotificationStore`.
- **Git publication**: `GitPublication` (the branch), `SourceJobs` (the jobs that lead to imports).
- **Agents**: `AgentTree`, `AgentPlacement`. **Sign-in**: `Lockout`. Shared: `Basics`, `Sorting`.

## Where the code does less than it seems to promise

Each of these is proved, with the condition under which it happens and, where it is not a mere refusal, a history that
reaches it.

- `current` depends on the directory order when two releases of a component share creation and update instants
  (`CurrentIsLastDelivered`, `TieMisleads`, `TieHappens`).
- A repeated deployment request is recognised although it leaves out its component or connector, and refused when it
  lists the same expected releases in another order (`RetriesAreAnswered`, `ReorderedRetryIsRefused`).
- A queued job of an ended run stays offered to its executor until the job expires, and a claim that picks it fails
  although other work is waiting (`LeftoverBlocksItsExecutor`, `LeftoverIsInTheWay`).
- Evidence, device and policy files are created in place. A crash that tears one makes its enrollment unapprovable for
  good (`RetryFinishes`, `TornForever`), as does an approval not resumed within ten minutes
  (`UnfinishedAtExpiryIsStuck`). A torn policy does more: it stops every later approval with file activity by the
  owner of its device and by the administrator (`TornPolicyStopsItsOwner`, `TornPolicyStopsAnotherDevice`).
- The save after a source publication does not look at the run's expiry. Only the shorter expiry of the source
  job keeps a second run from becoming active (`LatePublicationKeepsOneActiveIff`, `LatePublicationBreaksExclusion`).
- `state` offers no rollback when its target is not among the thirty latest successes, while `restore` accepts it
  (`OfferedIsAccepted`, `RollbackHiddenFromState`).
- A self-update call whose candidate is replaced in the catalog during the call answers another candidate's
  request or none (`LastReadDecides`, `OvertakenCallAnswersNothing`).
- A notification whose approval was cut short between its two writes can never be approved (`HalfApprovedIsStuck`).
- A source job whose upload was refused or cut short after its bundle file was created is never published, even if the
  branch has moved to its head. It does not expire either: it stays working unless its device reports that it failed
  (`AbandonedIsNeverPublished`, `BranchMovesWithoutItsJob`).
- An agent revision cut short after its files were written is refused when retried (`SaveAgent`).
- The export in `servix-deployment.ts`, unlike the one in `component-git.ts`, does not exclude the tip when it
  chooses the common commit, so its bundle can be empty (`CutAtTipIsEmpty`).

## Model

| member | source | states |
|---|---|---|
| DeploymentTheorems.EveryStateIsSound | apps/control-plane/src/component-deployments.ts:379-503 | Every state any interleaving of calls and crashes can leave satisfies the whole invariant: unique jobs, exclusive open runs, runs of a project one after another, provenance, owned roots. |
| DeploymentSteps.StepKeeps | apps/control-plane/src/component-deployments.ts:584-740 | Each single durable write, whoever makes it and wherever a crash cut the call, keeps that invariant and forgets nothing already settled. |
| DeploymentTheorems.NothingIsForgotten | apps/control-plane/src/component-deployments.ts:912-949 | Between any two states of a history: outputs once set, reported results, given artifacts, succeeded parts and ended runs never change again. |
| DeploymentTheorems.OneDeploymentPerTarget | apps/control-plane/src/component-deployments.ts:403-417 | Deploy work that is under way or uncertain is the only such work on its destination binding. |
| DeploymentTheorems.TargetLockIsHeld | apps/control-plane/src/component-deployments.ts:403-417 | While such work is unresolved no run of its project and no run that selects its destination can be recorded. |
| DeploymentTheorems.EndedRunsHoldNothing | apps/control-plane/src/component-deployments.ts:584-740 | A run that is no longer pending has no working and no recovery-required deploy job. |
| DeploymentTheorems.LeftoversAreNeverClaimed | apps/control-plane/src/component-deployments.ts:860-883 | A job left queued when its run stopped keeps its exact record in every later state, so it is never handed out. |
| DeploymentCalls.LeftoverBlocksItsExecutor | apps/control-plane/src/component-deployments.ts:860-869 | In every later state such a job is still offered to its executor exactly until it expires, and a claim that picks it fails. |
| DeploymentExamples.LeftoverIsInTheWay | apps/control-plane/src/component-deployments.ts:860-869 | It happens: a history that ends with such a job offered beside one that can be worked on. |
| DeploymentTheorems.WorkFollowsDependencies | apps/control-plane/src/component-deployments.ts:651-675 | A job for a component exists only once everything it depends on inside the run, along any chain, was deployed. |
| DeploymentTheorems.BlockedHasCause | apps/control-plane/src/component-deployments.ts:651-658 | Every blocked component leads along in-run dependencies to one that failed or needs recovery; the path is constructed. |
| DeploymentTheorems.DeployedArtifactWasBuilt | apps/control-plane/src/component-deployments.ts:660-725 | The artifact of any deploy job is the output of a succeeded build, from the same source, in the deploy run its release names, whose own component succeeded with it. |
| DeploymentTheorems.JobsKnowWhatTheyReplace | apps/control-plane/src/component-deployments.ts:690-721 | In every state of every history a job carries the artifact that the deploy job of its part's previous release delivered, and none exactly if there is no previous release. |
| DeploymentTheorems.RollbackTwice | apps/control-plane/src/component-deployments.ts:466-487 | Rolling back a rollback gives the artifact and release one started from, whatever happened in between. |
| DeploymentTheorems.SucceededMeansDeployed | apps/control-plane/src/component-deployments.ts:586-610 | In an idle project a component succeeded in a run exactly when its destination reported success for that run. |
| DeploymentTheorems.CurrentIsLastDelivered | apps/control-plane/src/component-deployments.ts:368-378 | In an idle project `current` is the last delivered release, for every directory order, unless two runs share both instants. |
| DeploymentTheorems.TieMisleads | apps/control-plane/src/component-deployments.ts:368-378 | The exception is exact: with such a tie some directory order makes `current` name the other run. |
| DeploymentExamples.TieHappens | apps/control-plane/src/component-deployments.ts:368-378 | It happens: two complete deployments within one millisecond, the second delivered last and the first shown as current. |
| DeploymentTheorems.OverlapMeansSharedPath | apps/control-plane/src/component-deployments.ts:323-346 | The overlap test on roots refuses two roots exactly when some path lies under both. |
| DeploymentAnswers.SpellingIsIrrelevant | apps/control-plane/src/component-deployments.ts:323-325 | Roots that differ only in case and in which separators they use are the same root. |
| DeploymentAnswers.UnderMeansBelow | apps/control-plane/src/component-deployments.ts:323-325 | A path that continues a root lies under it exactly if it continues with a separator. |
| DeploymentTheorems.OneOwnerPerPath | apps/control-plane/src/component-deployments.ts:318-354 | In no reachable state does a path lie under roots of two different active destination executors of one system. |
| DeploymentPass.PassMoves | apps/control-plane/src/component-deployments.ts:646-727 | A pass over the components moves each part only as far as stored jobs and its dependencies allow. |
| DeploymentPass.VisitCreates | apps/control-plane/src/component-deployments.ts:659-726 | Every job a pass creates is one no earlier write could have created for that run, component and kind, and all its dependencies are deployed. |
| DeploymentPass.AlwaysPrepared | apps/control-plane/src/component-deployments.ts:676-725 | When a component is due, its executor, binding and source head are always found, and the artifact of its previous release if it has one. |
| DeploymentPass.PassMayBeSaved | apps/control-plane/src/component-deployments.ts:728-740 | The run record a pass ends with is an allowed write after the jobs it created, also when the process dies in between. |
| DeploymentProgress.PassMakesProgress | apps/control-plane/src/component-deployments.ts:643-736 | With no job outstanding a permitted, unexpired pass ends the run or strictly lowers the sum of its component stages. |
| DeploymentProgress.StepDescends | apps/control-plane/src/component-deployments.ts:584-740 | No write by any call gives a run that stays open more stages than it had. |
| DeploymentProgress.RunsEnd | apps/control-plane/src/component-deployments.ts:643-736 | In any history an open run has been through at most four passes per component of its project that began with all its jobs reported, whatever claims, reports and further passes lie within and between them. |
| DeploymentCalls.AdvanceIsAPass | apps/control-plane/src/component-deployments.ts:643-740 | Every complete call of advance on a permitted, unexpired run is such a pass. |
| DeploymentProgress.ExpiryEndsThePass | apps/control-plane/src/component-deployments.ts:586-610 | A pass after expiry leaves the run neither publishing nor running, and needing recovery exactly if deploy work may have touched a destination. |
| DeploymentAnswers.EndedAsDeployed | apps/control-plane/src/component-deployments.ts:604-610 | A run that is over succeeded, failed or is partial exactly as all, none or some of its components were deployed by a reported deploy job, and every other component says why it was not. |
| DeploymentCalls.AcceptedMayBeAdded | apps/control-plane/src/component-deployments.ts:379-503 | Every request that is accepted starts a run whose targets are free, whose executors are equipped and whose rollback artifacts come from succeeded releases. |
| DeploymentAnswers.AnsweredForCause | apps/control-plane/src/component-deployments.ts:396-487 | A new request is accepted exactly when no reason to refuse it holds - revision, component, owner, busy project or target, executor out of service, expectation not current, dependency without a release, nothing to roll back to, connector offline - and refused only for one that holds. |
| DeploymentAnswers.AcceptedOnWhatIsDeployed | apps/control-plane/src/component-deployments.ts:442-454 | Whoever's request is accepted expected, for every component, the release its destination last took, and the run starts from it; without a tie this is the last delivered run for every directory order. |
| DeploymentCalls.RetriesAreAnswered | apps/control-plane/src/component-deployments.ts:384-394 | At any later time a retry by the requester is answered with the run exactly if it is the stored request, in the same order, but for a component or connector it leaves out; any other is refused. |
| DeploymentCalls.RetriesThatMeanTheSame | apps/control-plane/src/component-deployments.ts:386-391 | So of two retries that mean the same, the one that leaves out its component is answered and the one that reorders the expected releases is refused. |
| DeploymentExamples.ReorderedRetryIsRefused | apps/control-plane/src/component-deployments.ts:386-391 | It happens: a stored request for two components, and its refused reordering. |
| DeploymentStore.ComponentDeployments.Advance | apps/control-plane/src/component-deployments.ts:584-740 | One pass leaves exactly the records `Advanced` names when it is not cut short, adds only its own jobs when it is, and takes only allowed writes. |
| DeploymentStore.ComponentDeployments.RunPass | apps/control-plane/src/component-deployments.ts:643-727 | The loop that writes jobs one by one; cut short it leaves a prefix of the jobs of the whole pass. |
| DeploymentStore.ComponentDeployments.ExpireParts | apps/control-plane/src/component-deployments.ts:590-610 | The parts of an expired run: delivered ones succeed, possibly touched ones need recovery, the rest fail. |
| DeploymentStore.ComponentDeployments.AdvanceAll | apps/control-plane/src/component-deployments.ts:856-859 | Passes over all runs in listing order compose to the fold of single passes. |
| DeploymentStore.ComponentDeployments.Request | apps/control-plane/src/component-deployments.ts:379-503 | A request is refused with the first problem in the order of the checks and no change, repeats its stored run, or records its run and makes the first pass. |
| DeploymentStore.ComponentDeployments.Claim | apps/control-plane/src/component-deployments.ts:856-883 | A claim hands out an offered job of a running, permitted run to the right executor, marking it first; it fails exactly on a job that may not be worked on; it answers none exactly when nothing is offered. |
| DeploymentAnswers.WorkIsHandedOut | apps/control-plane/src/component-deployments.ts:860-874 | An offered job of a history is handed out exactly if it is unexpired work of the executor's own project and role for a running run of a permitted requester. |
| DeploymentAnswers.RevokedIsRefused | apps/control-plane/src/component-deployments.ts:298-307 | An executor once revoked or expired is refused in every later state, whatever it asks. |
| DeploymentStore.ComponentDeployments.Upload | apps/control-plane/src/component-deployments.ts:912-927 | Only the executor working on a build sets its output, and only once. |
| DeploymentStore.ComponentDeployments.Complete | apps/control-plane/src/component-deployments.ts:928-958 | A report is accepted once, for the output a build uploaded or the artifact of the part, and is followed by a pass; repeats change nothing; every refusal is the one named. |
| DeploymentStore.ComponentDeployments.CloseInterruptedBuild | apps/control-plane/src/component-deployments.ts:504-558 | Only the requester, with the run's head, closes a run none of whose work could have been deployed; a retry after a crash finishes closing its jobs. |
| DeploymentAnswers.ClosedOnlyWithoutTrace | apps/control-plane/src/component-deployments.ts:504-531 | A run not closed before is closed exactly by its requester, for its own source, while it waits for recovery, a build of it was interrupted and it has only failed or uncertain builds without output; nothing of it was deployed then. |
| DeploymentStore.ComponentDeployments.Enroll | apps/control-plane/src/component-deployments.ts:249-279 | A new executor belongs to an existing project and has no system and no roots yet. |
| DeploymentStore.ComponentDeployments.Heartbeat | apps/control-plane/src/component-deployments.ts:308-357 | The first heartbeat of a destination fixes its system and roots unless they overlap another's; later ones must repeat them. |
| DeploymentAnswers.HeartbeatIsRefused | apps/control-plane/src/component-deployments.ts:308-357 | The first heartbeat of a destination is refused exactly if some path would lie under a root of its own and of another active destination of its system. |
| DeploymentStore.ComponentDeployments.Revoke | apps/control-plane/src/component-deployments.ts:298-307 | Revoking an executor deactivates it and forgets its heartbeat, and nothing else. |
| DeploymentStore.ComponentDeployments.Save | apps/control-plane/src/component-deployments.ts:185-224 | A project is saved only while idle, at the next revision, with an order of its components that respects all dependencies. |
| ComponentOrder.Order | packages/contracts/src/component-deployments.ts:45-64 | The ordering succeeds exactly for unique ids, known dependencies and no cycle, names the reason otherwise, and lists every component after all it depends on. |
| ComponentOrder.OrderedIsAcyclic | packages/contracts/src/component-deployments.ts:45-64 | A complete dependency order exists only without cycles, by descent along any walk. |
| Pairing.WriteKeeps | apps/control-plane/src/developer-connectors.ts:1135-1264 | Every single write of pairing, torn or whole and in any interleaving, keeps the chain device, consumed evidence, committed record, intent. |
| Pairing.EvidenceChain | apps/control-plane/src/developer-connectors.ts:1181-1262 | An enrolled device leads back to consumed evidence, a committed record and an intent that all name the same actor, device and digest. |
| Pairing.ConsumedMeansCommitted | apps/control-plane/src/developer-connectors.ts:1204-1233 | Consumed evidence, even torn, belongs to a record that is approving or approved and to a matching intent. |
| Pairing.OneActorPerEnrollment | apps/control-plane/src/developer-connectors.ts:1147-1158 | However far apart, two states never show one enrollment committed to two actors, devices or targets. |
| Pairing.ApprovingIsFinal | apps/control-plane/src/developer-connectors.ts:990-1001 | An approving record is never rejected, reset or pruned, and an approved one stays approved. |
| Pairing.NothingIsUndone | apps/control-plane/src/developer-connectors.ts:964-976 | Evidence and torn files are permanent, a policy is never taken away, and a device keeps its owner and credential. |
| PairingApproval.ApprovesIff | apps/control-plane/src/developer-connectors.ts:1181-1262 | An approval succeeds exactly when each file it needs is absent or already what it would write and, with file activity, discovery can read the policies of all the actor's systems; it then leaves exactly the completed enrollment. |
| PairingApproval.RetryFinishes | apps/control-plane/src/developer-connectors.ts:1181-1262 | After an approval that was going to succeed is cut short at any write, the same actor's retry reaches the uninterrupted end state exactly if the crash tore no file. |
| PairingApproval.TornForever | apps/control-plane/src/developer-connectors.ts:1026-1047 | A torn file of an enrollment is never repaired: no later approval of it succeeds, by anybody. |
| PairingApproval.TornPolicyStopsItsOwner | apps/control-plane/src/system-discovery.ts:747-759 | One torn policy stops every later approval with file activity by the owner of its device and by the administrator, whichever device is enrolled. |
| PairingApproval.TornPolicyStopsAnotherDevice | apps/control-plane/src/system-discovery.ts:136-148 | It happens: a history in which a policy torn on one device stops the enrollment of another. |
| PairingApproval.IntentDecidesActor | apps/control-plane/src/developer-connectors.ts:1184-1219 | Whoever's intent is on disk is the only one who can ever be committed to or approve the enrollment. |
| PairingApproval.OnlyTheSameActorResumes | apps/control-plane/src/developer-connectors.ts:1151-1262 | Once committed, others are refused with no change, and the actor succeeds exactly when the files are intact, the device fits, a device may be added and, with file activity, discovery can read all the actor's policies. |
| PairingStore.UnfinishedAtExpiryIsStuck | apps/control-plane/src/developer-connectors.ts:1149-1150 | An approval not finished within its ten minutes is refused for good and its record never pruned. |
| PairingStore.SystemPairings.Prune | apps/control-plane/src/developer-connectors.ts:977-1001 | Exactly the pending and rejected records half an hour past expiry are forgotten; cut short, only such records are gone. |
| PairingStore.SystemPairings.Start | apps/control-plane/src/developer-connectors.ts:1062-1105 | A repeated proposal changes nothing, a changed one or a code in use is refused, and a device never has two records. |
| PairingStore.SystemPairings.ApproveRecord | apps/control-plane/src/developer-connectors.ts:1158-1262 | The ordered writes of an approval, step by step: it ends as `Approve` says, or was cut short on the way of that very approval. |
| PairingStore.SystemPairings.AcceptEnrollment | apps/control-plane/src/developer-connectors.ts:574-611 | The device is created once; one already there must be the actor's own, with the same credential, and active. |
| PairingStore.SystemPairings.Decide | apps/control-plane/src/developer-connectors.ts:1135-1264 | A decision acts on the record of its id, digest and actor before expiry, and otherwise refuses with the first objection and only stale records gone. |
| PairingAnswers.DecidedForCause | apps/control-plane/src/developer-connectors.ts:1147-1157 | A decision counts only for the exact digest that is recorded, before it expires and by the actor who began it: each of the three refusals applies exactly then and leaves no trace, and an approval that passes them fails only on files. |
| PairingAnswers.NotFoundMeansUnknown | apps/control-plane/src/developer-connectors.ts:1147-1148 | An id is not found exactly if no readable record bears it. |
| PairingAnswers.StoppedForCause | apps/control-plane/src/developer-connectors.ts:1181-1262 | An approval that fails on files names its cause as the files were before it began: evidence torn, evidence of something else, ten active devices of the actor, another device in its place, an unreadable device or policy. |
| PairingAnswers.AtMostTenDevices | apps/control-plane/src/developer-connectors.ts:574-611 | An approval that creates a device leaves its owner with at most ten active ones; devices of others and revoked ones do not count. |
| PairingAnswers.TornDeviceStopsNewApprovals | apps/control-plane/src/developer-connectors.ts:443-462 | One torn device file stops every approval not yet begun. |
| PairingStore.SystemPairings.Pair | apps/control-plane/src/developer-connectors.ts:483-520 | Pairing directly respects the device limit and never replaces a device. |
| PairingStore.SystemPairings.Revoke | apps/control-plane/src/developer-connectors.ts:658-674 | Only the owner or the administrator revokes a device, which only deactivates it. |
| PollMerge.Merge | apps/control-center/src/servix-deployment-state.ts:5-30 | The loops over the insertion-ordered map compute `Merged`, for which the following hold. |
| PollMerge.MergeKeepsTop | apps/control-center/src/servix-deployment-state.ts:9-24 | If the view shows the newest records of the thirty latest requests of all seen, then so it does after the merge, with the response included. |
| PollMerge.TopIsUnique | apps/control-center/src/servix-deployment-state.ts:22-24 | There is only one such list. |
| PollMerge.FoldIsTop | apps/control-center/src/servix-deployment-state.ts:5-30 | After any responses in any order the list is the top thirty by creation of the newest record of each request. |
| PollMerge.ArrivalOrderIsIrrelevant | apps/control-center/src/servix-deployment-state.ts:3-4 | Permuting or repeating responses does not change the list. |
| PollMerge.NeverOlder | apps/control-center/src/servix-deployment-state.ts:10-14 | No record shown is ever replaced by an older one of its request, whatever the response holds. |
| PollMerge.CurrentIsNewestSuccess | apps/control-center/src/servix-deployment-state.ts:16-29 | The current release named is a success received or shown before, updated no earlier than any success shown, and created no earlier at equal updates; a rollback is shown only as the server paired it with that release. |
| SelfUpdates.NextKeeps | apps/control-plane/src/self-updates.ts:113-151 | Every step of any caller keeps: a request file equals its note's request, notes match their candidate, and every caller's knowledge stays true. |
| SelfUpdates.AllAnswersAgree | apps/control-plane/src/self-updates.ts:133-151 | All calls answered for a candidate, at any times, got one request with one set of change details, and the files say so. |
| SelfUpdates.OtherDetailsNeverSucceed | apps/control-plane/src/self-updates.ts:143-149 | Once a note is there a call with other details is never answered for that candidate. |
| SelfUpdates.OneRequestPerCandidate | apps/control-plane/src/self-updates.ts:55-65 | At most one request is ever bound to a candidate and it is its note's; one left by an older release without a note never gets one. |
| SelfUpdates.IdentityNeverMismatches | apps/control-plane/src/self-updates.ts:96-104 | The identity check on the note never fails for any caller. |
| SelfUpdates.LastReadDecides | apps/control-plane/src/self-updates.ts:150-151 | A call that linked its request answers it exactly when the catalog still names its candidate at the last read. |
| SelfUpdates.OvertakenCallAnswersNothing | apps/control-plane/src/self-updates.ts:150-151 | It happens: a call that has bound its request answers that there is none. |
| SelfUpdates.OneCandidateAlwaysAnswers | apps/control-plane/src/self-updates.ts:113-151 | With one candidate sealed throughout, every call that returns is answered with the bound request. |
| SelfUpdates.StepsRunOut | apps/control-plane/src/self-updates.ts:113-151 | Every call ends after at most nine accesses, whatever the others do. |
| SelfUpdates.AloneCompletesTheNote | apps/control-plane/src/self-updates.ts:130-151 | A call running alone completes the request of the note it finds, so a retry finishes the crashed call's request and not a new one. |
| SelfUpdates.MismatchMeansForeignNote | apps/control-plane/src/self-updates.ts:96-104 | A lone call refuses a note exactly if it names another candidate or manifest than the catalog, or another request than the one linked. |
| SelfUpdates.AloneIsAnswered | apps/control-plane/src/self-updates.ts:113-151 | Otherwise it is answered exactly for the unexpired catalog entry with the details of the note, or with neither note nor request there; note and request then hold the answer, and a refusal leaves the files alone. |
| SelfUpdates.Store.Apply | apps/control-plane/src/self-updates.ts:113-151 | The straight-line call does exactly that; killed at a link it leaves nothing or the note alone. |
| SelfUpdates.Store.Advance | apps/control-plane/src/self-updates.ts:55-151 | Each access of a call to the shared files is one step of the protocol the theorems quantify over. |
| Servix.AtMostOneActive | apps/control-plane/src/servix-deployment.ts:22-23 | Across requests, restores, background builds, receipts, expiry and restarts at most one run is active, as long as no publication outlives its run. |
| Servix.LatePublicationKeepsOneActiveIff | apps/control-plane/src/servix-deployment.ts:611-621 | The save after a publication keeps that exactly when no other run became active; one in time always does. |
| Servix.LatePublicationBreaksExclusion | apps/control-plane/src/servix-deployment.ts:611-621 | The premise is needed: a history in which a run given up at expiry comes back beside its successor. |
| Servix.FinalIsForever | apps/control-plane/src/servix-deployment.ts:296-336 | A succeeded run and one that needs recovery never change again, restarts and late builds included. |
| Servix.RecoveryBlocksTheTarget | apps/control-plane/src/servix-deployment.ts:449-514 | From then on no deployment and no restore is accepted. |
| Servix.ActivationNeedsReceipt | apps/control-plane/src/servix-deployment.ts:296-336 | A run handed over for activation is resolved only by a receipt for its head and artifact. |
| Servix.RestoresNameDeployments | apps/control-plane/src/servix-deployment.ts:341-354 | Every restore names a deployment that built and succeeded with equal head and artifact and has no origin itself, then and ever after. |
| ServixCalls.CompletedHolds | apps/control-plane/src/servix-deployment.ts:24-29 | The completed list is every succeeded record once, in release order. |
| ServixCalls.OfferedIsAccepted | apps/control-plane/src/servix-deployment.ts:393-406 | `state` offers exactly the rollback `restore` compares with when it is among the thirty latest successes, and none otherwise. |
| ServixCalls.ShownRollbackIsAccepted | apps/control-plane/src/servix-deployment.ts:514-538 | On an idle target a rollback request is accepted exactly if it is the one shown and the bytes of both releases are intact. |
| ServixCalls.HiddenRollbackIsAccepted | apps/control-plane/src/servix-deployment.ts:522-534 | A rollback is accepted though not shown exactly when thirty newer successes precede it. |
| ServixExamples.RollbackHiddenFromState | apps/control-plane/src/servix-deployment.ts:396-406 | It happens: a history of thirty-two deployments after which the oldest can be rolled back to and none is offered. |
| ServixCalls.AcceptedRestoreMayBeAdded | apps/control-plane/src/servix-deployment.ts:535-562 | Every accepted restore releases a succeeded original deployment. |
| ServixStore.ServixDeploymentStore.Records | apps/control-plane/src/servix-deployment.ts:281-340 | Reading settles every open run by its receipt, expiry or lost build, and fails exactly if a receipt contradicts its run. |
| ServixAnswers.ReadingSettles | apps/control-plane/src/servix-deployment.ts:294-338 | In every state of every history reading ends each open run with a receipt as the receipt says, gives up one that expired or whose build this process does not run, and changes no other run. |
| ServixAnswers.OpenMeansUnderWay | apps/control-plane/src/servix-deployment.ts:323-333 | So whatever is open after reading has its build in this process or is being activated, has time left and no receipt. |
| ServixAnswers.RestartGivesUpBuilds | apps/control-plane/src/servix-deployment.ts:323-333 | After a restart and a read nothing is publishing or building. |
| ServixAnswers.EveryChangeIsStamped | apps/control-plane/src/servix-deployment.ts:296-336 | Every write that changes a run sets its update instant, on which the release order rests; only the recovery record of an unconfirmed hand-over keeps that of the activation. |
| ServixStore.ServixDeploymentStore.ReadState | apps/control-plane/src/servix-deployment.ts:390-432 | The view after reading shows current, restorable and offered releases as specified. |
| ServixAnswers.ShowsTheLatest | apps/control-plane/src/servix-deployment.ts:390-432 | The view lists the latest created runs, at most thirty and in that order; current is a success than which none is later, and none exactly if nothing succeeded. |
| ServixStore.ServixDeploymentStore.Request | apps/control-plane/src/servix-deployment.ts:433-494 | A deployment is repeated, refused, or recorded before its build starts. |
| ServixAnswers.DeploymentFollowsTheLatest | apps/control-plane/src/servix-deployment.ts:447-488 | A new deployment is busy exactly while a run is active or needs recovery; an accepted one follows a success than which none is later, has forty minutes, and publishes first exactly with a publisher. |
| ServixStore.ServixDeploymentStore.RestoreRelease | apps/control-plane/src/servix-deployment.ts:495-564 | An accepted restore is recorded and handed over, or needs recovery when the hand-over is not confirmed. |
| ServixAnswers.RestoreAnsweredForCause | apps/control-plane/src/servix-deployment.ts:514-540 | A restore is refused as busy or not selectable exactly then, and for a changed current release, a changed rollback, missing or changed bytes or an archived project only if that holds. |
| ServixAnswers.RestoreActivatesWhatWasAsked | apps/control-plane/src/servix-deployment.ts:535-562 | An accepted restore activates the head and artifact of the release asked for, under the deployment that built it, over a success than which none is later; a rollback goes to the latest release on disk with another artifact. |
| ServixAnswers.RestoreIsRepeated | apps/control-plane/src/servix-deployment.ts:500-513 | A repeated restore is answered by its run exactly if actor, change, operation, expected release and the origin of the requested one are the run's, and refused otherwise. |
| ServixStore.ServixDeploymentStore.EnqueueActivation | apps/control-plane/src/servix-deployment.ts:565-599 | The record says activating before the target is asked; unconfirmed hand-overs end as recovery-required. |
| ServixStore.ServixDeploymentStore.PublicationEnds | apps/control-plane/src/servix-deployment.ts:600-622 | The end of a publication writes the remembered record back, without a look at its expiry; a closed controller writes nothing. |
| ServixStore.ServixDeploymentStore.BuildEnds | apps/control-plane/src/servix-deployment.ts:623-655 | The end of a build activates an unexpired, permitted run and fails any other. |
| Notifications.WriteKeeps | apps/control-plane/src/agent-notifications.ts:148-166 | Every write, forgetting included, keeps all grants spaced, unique and matched by records, and hand-outs unique and granted. |
| Notifications.ApprovalsAreAnHourApart | apps/control-plane/src/agent-notifications.ts:281-291 | Any two approvals ever queued for one device are at least an hour apart, forgotten ones included. |
| Notifications.ForgettingKeepsTheLimit | apps/control-plane/src/agent-notifications.ts:148-166 | The rate limit answers the same on the retained records as on everything ever granted. |
| Notifications.HandedAsApproved | apps/control-plane/src/agent-notifications.ts:323-340 | A notification is handed out at most once, with the digest that was approved, within ten minutes of the approval. |
| Notifications.HalfApprovedIsStuck | apps/control-plane/src/agent-notifications.ts:305-306 | A crash between approval file and record leaves a draft whose every later approval is refused. |
| Notifications.ApprovedForCause | apps/control-plane/src/agent-notifications.ts:253-300 | An approval has no problem exactly for the actor's own unexpired draft at its revision and digest, on a device that within half a minute said for this actor that it can and will show it, with no grant within the hour and no approval file; each refusal has its own cause. |
| Notifications.RevisionTellsTheStatus | apps/control-plane/src/agent-notifications.ts:304-363 | At any two times the revision of a notification says how far it got, its content is the same, and equal revisions mean equal records. |
| NotificationStore.AgentNotifications.Approve | apps/control-plane/src/agent-notifications.ts:253-309 | An approval fails with the first problem, or writes file then record; cut short it leaves the file alone. |
| NotificationStore.AgentNotifications.Claim | apps/control-plane/src/agent-notifications.ts:310-343 | The first eligible notification is recorded as taken before it is handed out; none only if none is eligible. |
| NotificationStore.AgentNotifications.Finish | apps/control-plane/src/agent-notifications.ts:344-367 | Only the device it was handed to reports, with its digest and before expiry. |
| NotificationStore.AgentNotifications.DraftNotice | apps/control-plane/src/agent-notifications.ts:221-252 | A draft starts a day before it expires, with the week-old records gone. |
| NotificationStore.AgentNotifications.Records | apps/control-plane/src/agent-notifications.ts:148-166 | Exactly the records older than a week are forgotten, record before approval file. |
| GitPublication.OnlyFastForwards | apps/control-plane/src/component-git.ts:89-104 | Every commit the branch ever pointed at is in the history of every later tip, with any number of concurrent imports. |
| GitPublication.OneImportPerBase | apps/control-plane/src/component-git.ts:94-100 | Of imports that would each add to one base at most one ever moves the branch. |
| GitPublication.PublishedStaysPublished | apps/control-plane/src/developer-connectors.ts:840-873 | What a published source job brought extends its base and stays in the branch for good. |
| GitPublication.ExportIsComplete | apps/control-plane/src/component-git.ts:105-115 | Bundle and history of the common commit are together exactly the branch, and the tip is in the bundle even if the branch moved after it was listed. |
| GitPublication.ReceiverIsComplete | apps/control-plane/src/component-git.ts:105-115 | A receiver with the common commit has the whole branch once it adds the bundle. |
| GitPublication.CutAtTipIsEmpty | apps/control-plane/src/servix-deployment.ts:109-131 | An export that does not exclude the tip from the choice has its tip exactly when the chosen commit is not the tip, and is empty otherwise. |
| GitPublication.ChooseCommon | apps/control-plane/src/component-git.ts:110-113 | The first head of the receiver that is listed and is not the tip. |
| SourceJobs.SourcePublication.Seed | apps/control-plane/src/component-git.ts:66-88 | A repository begins as the complete bundle of its first head. |
| SourceJobs.SourcePublication.ImportBundle | apps/control-plane/src/component-git.ts:89-104 | An import moves the branch exactly if its prerequisites are there, the branch is at the base and the head descends from it. |
| SourceJobs.SourcePublication.Queue | apps/control-plane/src/developer-connectors.ts:738-798 | A repeated request is answered by its job if it is the same, a different one refused; a ready device gets a job based on a head the branch has had. |
| SourceJobs.SourcePublication.Claim | apps/control-plane/src/developer-connectors.ts:800-839 | A device gets the first of its own live jobs in the listing, with its dead ones before it failed; none only if none is live. |
| SourceJobs.SourcePublication.Complete | apps/control-plane/src/developer-connectors.ts:840-873 | Only the job's device completes it, once: the bundle file first, then the branch, then the record; each refusal or crash leaves exactly what was written before it. |
| SourceJobs.AbandonedIsNeverPublished | apps/control-plane/src/developer-connectors.ts:857-871 | A working job whose bundle file exists and whose upload is over is never published and never expires: it stays working unless its device reports that it failed. |
| SourceJobs.BranchMovesWithoutItsJob | apps/control-plane/src/developer-connectors.ts:866-871 | It happens: a crash after the branch moved leaves the job that moved it like that. |
| SourceJobs.SourcePublication.Fail | apps/control-plane/src/developer-connectors.ts:874-905 | Only the device working on a job can report that it failed. |
| AgentTree.Walk | apps/control-plane/src/agent-workspace.ts:470-481 | The walk ends on any stored data and allows a parent exactly if its chain ends without the agent; its two refusals are justified. |
| AgentTree.SavingKeepsForest | apps/control-plane/src/agent-workspace.ts:460-527 | Saving with an allowed parent leaves every agent's chain ending inside one actor and workspace. |
| AgentTree.NoCycles | apps/control-plane/src/agent-workspace.ts:470-481 | In such a forest no agent is its own ancestor. |
| AgentTree.ParentsStayWithTheirActor | apps/control-plane/src/agent-workspace.ts:470-481 | And every parent is there, is another agent, and has the actor and workspace of the agent below it. |
| AgentTree.CycleMeansDescendant | apps/control-plane/src/agent-workspace.ts:472-473 | In a forest an owned parent is refused exactly if it is the agent or one of its descendants. |
| AgentTree.AgentWorkspace.SaveAgent | apps/control-plane/src/agent-workspace.ts:460-527 | Any sequence of saves keeps the forest; each succeeds or refuses for the stated reason, changes one agent at most, and cut short only leaves a revision file. |
| AgentPlacement.AgentPositions | apps/control-center/src/AgentNetwork.tsx:3-34 | For any list with distinct ids every agent gets exactly one position, set once, those within twenty levels of a root first. |
| AgentPlacement.PlaceRoots | apps/control-center/src/AgentNetwork.tsx:29-31 | The first pass places exactly the agents at most twenty levels below a root. |
| AgentPlacement.LevelsFollowParents | apps/control-center/src/AgentNetwork.tsx:5-11 | An agent whose parent is missing from the list is on the top level, any other exactly one level below its parent. |
| AgentPlacement.Layout.Place | apps/control-center/src/AgentNetwork.tsx:7-28 | Placement ends on cycles and long chains, sets nothing twice, reaches only what is below, and misses nothing below an agent on its own level. |
| AgentPlacement.OnePerLevel | apps/control-center/src/AgentNetwork.tsx:12-13 | Nothing lies below two different agents of one level. |
| Lockout.GuessesAreLimited | apps/control-plane/src/repositories.ts:335-354 | From any counter, without a success, at most five attempts and one more per quarter of an hour are evaluated in any window. |
| Lockout.LimitIsReached | apps/control-plane/src/repositories.ts:343-344 | The bound is attained for every window. |
| Lockout.LocalCredential.Authenticate | apps/control-plane/src/repositories.ts:335-366 | An attempt counts only on an active, unlocked account; success resets, the fifth failure locks for fifteen minutes, and a locked account ignores the password. |

## Left out

- Credentials, hashes and digests: a digest stands for the exact contents it is taken over, a credential check is
  that the named record exists; random identifiers are assumed fresh.
- Permissions, connector presence, source checks and git or PowerShell results are parameters of the calls, read once
  per call.
- File formats, symbolic-link and path checks, size and record-count limits, temporary files, redaction and
  trimming.
- Time is in whole milliseconds and never runs backwards.
- Deployments: artifact bytes on disk and their download; `test`, `state` and `projectSettings` beyond the passes they
  make; saved history copies of projects; Unicode case folding of roots (ASCII letters only).
- Pairing: lookup by code, polling, `status`, rate limits and capacity; `list` looks at a device owner's first hundred
  records, the model at all of them. The other records that discovery reads (observations, activity settings, project
  plans) are not modelled one by one: for each actor they are readable or not, and that may change at any time.
- Source jobs: the checks that make a device ready for a job (online, project, notes, repository) are one parameter.
- Only pairing models files torn in the middle of being created; elsewhere a write happens or not.
- `Servix.AtMostOneActive`: assumes that no publication outlives its run, because the save after it does not look;
  what happens without it is `LatePublicationBreaksExclusion`.
- Single-target store: a save that fails without ending the process is modelled only for the hand-over of an
  activation; the save of the recovery record is assumed to succeed then.
- `SelfUpdates.AllAnswersAgree`: a candidate id is assumed to stand for one pair of manifests for ever; results of an
  update are not modelled.
- `PollMerge.ArrivalOrderIsIrrelevant`: speaks of the list only, because the current release shown also depends on
  which responses still listed it; assumes one creation instant per request, distinct between requests, and distinct
  update instants.
- Git: commits are their contents and parents; packing, object checks and the temporary incoming refs are not
  modelled.
- Agent placement: coordinates and angles; only which agent is placed when. Agent contents other than the parent,
  revision and owner are opaque.
- Sign-in: password hashing, sessions and row locking; a row is read and written in one step.
- React pages, HTTP routes, local development jobs, folder search and deployment settings.
