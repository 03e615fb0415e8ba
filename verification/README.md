# Kokumi: promotion, approval and ownership, verified

Kokumi delivers Products to clusters. An Order is a variant of a Product; its
Serving is a stage that deploys Preparations, which are immutable rendered
artifacts, through Argo CD. This project models what decides which Preparation
a stage runs, and proves what the design promises of it in every run.

* **Promotion.** A stage keeps a bounded history of its deployments, newest
  first. A gate holds it until every upstream stage ran the same Product revision
  healthily for a soak time. A promotion takes two passes of a write-ahead
  protocol: a time goes into the status one pass before the signed record that
  contains it goes into the registry. `Times`, `Histories`, `HistoryRuns`,
  `HistoryEntries` and `Soak` are the history; `Gate` and `GateProperties` the
  gate; `Records`, `Servings` and `ServingProperties` one reconcile of a Serving;
  `Promotions`, `PromotionInvariant`, `PromotionSteps` and `PromotionRuns` the
  protocol of all stages together, with stale reads, lost patches, conflicts and
  crashes between any two writes; `Pipeline` the search for cycles among stages;
  `Targets` the clusters of one stage.
* **Approval.** The latest vote of each approver counts, an eligible rejection
  vetoes, and sealing freezes the result. `Sequences`, `Sorting` and `Latest` are
  the tables behind it; `Preparations`, `Approvals`, `ApprovalProperties`,
  `SealingPreserves` and `Attestations` the evaluation, the seal and the
  statement that archives it; `Sealing`, `SealingRuns` and `StatementRuns` the
  protocol, in which votes arrive while reconciles work from stale caches.
* **Ownership.** Clusters compete for API servers through Secrets with unique
  names, and Applications are only written with the opt-in of their Order.
  `Objects` is the API server with its conditional writes, `Ownership` and
  `AppOwnership` what Kokumi writes, `Applications` what it reads and caches.
* **Graph and table.** `Graph` is the bounded breadth-first walk over what is
  attached to an artifact, `Vendoring` the table of images to copy.

Code that assigns step by step is a method, in a class where Kokumi has an
object, proved against a specification function; the lemmas are about those
functions. A protocol is a state machine whose steps use the same functions, and a
run is a sequence of states. `dafny verify dfyconfig.toml` covers all of it.

A time is a number of nanoseconds since Go's zero time, which is 0 and means
unset; differences of times saturate and those of durations wrap in 64 bits, as
Go's do. A log message is a value of a
datatype instead of formatted text. Records and attestations live in a registry
that is only added to, where pushing a statement that is there finds it.

## Model

| member | source | states |
|---|---|---|
| Histories.Start | internal/promotion/history.go:129-140 | The history after the pending entry starts, from one loop-free update of a copy. |
| Histories.Observe | internal/promotion/history.go:197-230 | The history after a report on the deployed entry, and that the returned flag says exactly whether it changed. |
| Histories.RecordDeployment | internal/promotion/history.go:234-242 | The record is set on every entry of the digest that became healthy then, and on no other. |
| Histories.Unrecorded | internal/promotion/history.go:246-254 | Exactly the promoted entries that were healthy and have no deployment record, in order. |
| HistoryRuns.ApplyKeeps | internal/promotion/history.go:106-260 | Every operation keeps: at most 16 entries, only the head may be pending, only the newest promoted entry may be running and it is never superseded, an end has a reason, all times are whole seconds. |
| HistoryRuns.ReachableIsWellFormed | internal/promotion/history.go:67-260 | That invariant holds of every history reached by any operations in any order. |
| HistoryRuns.DropUndoesOpen | internal/promotion/history.go:106-124 | Dropping what was opened gives the history without its pending entry cut to 15, and restores it exactly when there was room. |
| HistoryRuns.StartHandsOver | internal/promotion/history.go:129-140 | The deployed entry, if it runs, is superseded at the time the next one was opened, the pending one is deployed under the record, and nothing else changes. |
| HistoryRuns.RecoveryRestartsTheClock | internal/promotion/history.go:209-221 | After a degradation the health clock starts anew in an entry of its own, without a record, and the degraded entry stays. |
| HistoryRuns.OnlyStartChangesWhatRuns | internal/promotion/history.go:74-242 | The deployed Preparation, digest and promotion record change only when a pending entry starts. |
| HistoryRuns.ReportsKeepPromotion | internal/promotion/history.go:197-242 | No reports between opening and starting a promotion change the pending entry, what runs, or what the record says came before. |
| HistoryRuns.TwoPassesDeploy | internal/promotion/history.go:106-166 | While the gates hold, two passes deploy the candidate whatever is reported in between, and from then on a pass changes nothing. |
| HistoryRuns.ConstantReportSettles | internal/promotion/history.go:197-230 | A report that stays the same changes the history at most once. |
| Soak.TrackKeeps | internal/promotion/history.go:106-242 | With an identity for every entry and a log of the reports on it, every operation keeps that reports are about promoted entries, that degradations and health clocks match reports, and that newer entries are reported on later. |
| Soak.UninterruptedSoak | internal/promotion/history.go:197-230 | In every reachable history an entry that can qualify was never reported degraded while deployed, and its clock started at a healthy report on it, after every report on an older entry. |
| Soak.DegradedWhenReported | internal/promotion/history.go:222-225 | In every reachable history an entry that ended degraded ended at the time of a degraded report on it. |
| Gate.EvaluateStage | internal/promotion/gate.go:166-207 | The verdict on one stage: the first entry that qualifies, else the first that waits. |
| Gate.EvaluateStages | internal/promotion/gate.go:133-157 | The fold over the stages: most severe outcome, its messages, shortest wait, what qualifies. |
| Gate.Evaluate | internal/promotion/gate.go:121-163 | The decision of the gate for every request. |
| GateProperties.StageSatisfiedIff | internal/promotion/gate.go:166-207 | A stage is satisfied exactly when its Order exists, is of the same Product, and has a deployment of the revision that is promoted, healthy, not degraded, soaked and recorded. |
| GateProperties.SatisfiedIff | internal/promotion/gate.go:121-163 | The gate lets through exactly without stages, after an earlier promotion of the Preparation, or when every stage has such a deployment. |
| GateProperties.QualifiedLinesUp | internal/promotion/gate.go:133-163 | What qualified lines up index by index with the stages, each the newest deployment of that stage's own that qualifies. |
| GateProperties.HeldReportsTheWorst | internal/promotion/gate.go:133-157 | A gate that holds reports the most severe outcome with the messages of exactly the stages of that outcome, in their order. |
| GateProperties.EndedBeforeHealthyNeverQualifies | internal/promotion/gate.go:176-197 | A deployment that ended before it was first healthy never qualifies nor waits, whatever the soak. |
| GateProperties.StartEndsEarlyIff | internal/promotion/history.go:129-140 | Starting leaves such a deployment exactly when the deployed one still runs and was reported healthy only after the next one was opened. |
| GateProperties.EndedBeforeHealthyIsReachable | internal/promotion/history.go:129-140 | Such a deployment is reachable: a concrete run of five operations. |
| GateProperties.SatisfiedIsMonotone | internal/promotion/gate.go:121-163 | A satisfied gate stays satisfied while only time passes. |
| GateProperties.StageWakesUp | internal/promotion/gate.go:176-207 | While a stage counts down its verdict is constant until the soak ends, and then it has soaked; what remains is exact when in range, and no wakeup is set otherwise; a stage that does not count down never changes with time alone. |
| GateProperties.NoMissedWakeup | internal/promotion/gate.go:121-163 | For every request with well-formed histories: outcome and message are constant until RequeueAfter has passed, and forever when it is 0, exactly when there are no stages, the Preparation was promoted before, every soak under way ends in range, one of them does, or a stage lacks a deployment. |
| GateProperties.WakesExactlyAtTheEnd | internal/promotion/gate.go:133-157 | When RequeueAfter has passed, and not before, the stage that set it has just stopped counting down. |
| GateProperties.RemainingIsExactIff | internal/promotion/gate.go:181-196 | What remains is the exact length while it fits 64 bits, and negative, so that no wakeup is set, as soon as it does not. |
| GateProperties.OutOfRangeMissesTheWakeup | internal/promotion/gate.go:181-196 | A concrete request with a clock 292 years ahead soaks without a wakeup and is satisfied later. |
| Records.StageEvidenceOf | internal/promotion/record.go:148-169 | The evidence of the gate, one entry per stage. |
| Records.EvidenceNamesEachStage | internal/promotion/record.go:148-169 | After a gate was passed, the evidence names for each stage a qualifying deployment of its own, or the earlier promotion. |
| Records.VerifiesIff | internal/promotion/record.go:192-221 | A deployment record verifies against exactly the deployments by the same Order of the same artifact and revision that became healthy in the same second. |
| Servings.Serving.Promote | internal/controller/serving_controller.go:234-308 | The decision, the new history, the target and the pushed statement of considering a candidate. |
| Servings.Serving.Advance | internal/controller/serving_controller.go:281-308 | What becomes of an approved target: kept, held for its evidence, opened, or recorded and started. |
| Servings.Serving.EvaluateUpstream | internal/controller/serving_controller.go:768-849 | The upstream gate with requirements and the verification of every qualifying record, errors included. |
| Servings.Serving.PassesGate | internal/controller/serving_controller.go:719-750 | The approval gate of the target, the evaluation alone of any other candidate, and who becomes the target. |
| Servings.Serving.RecordPromotion | internal/controller/serving_controller.go:1083-1101 | The statement that is pushed for the pending entry, with the evidence of every gate. |
| Servings.Serving.Deploy | internal/controller/serving_controller.go:320-392 | What becomes of the Applications, their removal included, and the history after observing or recording. |
| Servings.Serving.RecordDeployments | internal/controller/serving_controller.go:1106-1146 | Every unrecorded deployment is recorded, or, on any error, none in the history. |
| ServingProperties.PromotesIff | internal/controller/serving_controller.go:217-308 | A candidate is promoted exactly when it is not what runs, is Ready, every upstream stage verifiably ran the revision or nothing is asked of them, its checks pass, no policy applies or its sealed votes are archived and approve, and its evidence verifies. |
| ServingProperties.UpstreamSatisfiedIff | internal/controller/serving_controller.go:752-849 | The upstream gate passes exactly when nothing is required, the stage promoted the Preparation before, or the requirements are met and the newest qualifying deployment of every stage has a record that verifies. |
| ServingProperties.PromotesOnlyArchived | internal/controller/serving_controller.go:268-307 | With a policy only a Preparation with sealed and archived votes that approve is promoted, its record names their attestation, and no votes read at the time change what is decided. |
| ServingProperties.HoldsKeepWhatRuns | internal/controller/serving_controller.go:234-308 | Until a promotion starts, what is deployed stays deployed; then it is the candidate. |
| ServingProperties.DeployKeepsPromotion | internal/controller/serving_controller.go:320-392 | Deploying changes neither what runs, nor the pending entry, nor what its record will say. |
| ServingProperties.SetHistory | internal/controller/serving_controller.go:1427-1450 | Every entry is stored in order, unset times absent. |
| ServingProperties.HistoryOf | internal/controller/serving_controller.go:1396-1424 | Every stored entry is loaded in order. |
| ServingProperties.StoredSurvivesIff | internal/controller/serving_controller.go:1396-1458 | An entry survives the status exactly when its times are whole seconds, as in every reachable history. |
| PromotionSteps.StepKeeps | internal/controller/serving_controller.go:162-392 | Every step of the protocol of all stages keeps its invariant. |
| PromotionSteps.StepsAreReconciles | internal/controller/serving_controller.go:234-392 | The steps of one pass come to the histories that promoting and deploying leave in one reconcile, whatever becomes of it. |
| PromotionSteps.StepsLeaveApps | internal/controller/serving_controller.go:320-392 | They remove the Applications or point them at what is deployed as deploying does, and leave those of other stages. |
| PromotionRuns.PromotionsAreGrounded | internal/controller/serving_controller.go:234-308 | In every run, each recorded promotion has no upstream stages, or follows one of the Preparation by the same stage, or follows for each stage it names an upstream promotion of the same revision whose deployment soaked without interruption in the version read, has its record in the registry, and is cited. |
| PromotionRuns.CurrentReadsAreSafe | internal/controller/serving_controller.go:768-849 | When current histories are read, those deployments soaked undegraded as of the newest version when the promotion was recorded. |
| PromotionRuns.PipelineIsSafe | internal/controller/serving_controller.go:217-308 | In every state of every run, however Orders and stages are edited, every recorded promotion is grounded all the way up: it names no stages, or rests on one of the Preparation by the same stage, or on one for each stage it names whose deployment soaked without interruption, is recorded and cited; and each of these is grounded all the way up. |
| PromotionRuns.AllUpstreamRan | internal/promotion/gate.go:113-163 | Along every path of stages that the promotions of a revision name as upstream, the last stage promoted that revision, and ran it healthily and undegraded for the soak that the stage before it asks for. |
| PromotionRuns.RecordsAreWrittenAhead | internal/controller/serving_controller.go:1083-1146 | In every run an Application points only at an artifact whose promotion record was pushed before; every promotion record is the statement of an entry a committed status held pending, with its time; every deployment record is that of an entry a committed status held healthy, with its time, and names a promotion record that is there. |
| Pipeline.Search.Walk | internal/promotion/pipeline.go:45-63 | Finds the rest of a path back to the Order, or leaves the path as it was and everything newly visited explored. |
| Pipeline.FindCycle | internal/promotion/pipeline.go:42-68 | Ends for every map, finds a real path back with distinct inner stages, and finds none only when there is none. |
| Pipeline.FindProblem | internal/promotion/pipeline.go:24-38 | A problem is found exactly when an upstream Order is of another Product or a cycle leads back. |
| Pipeline.ValidIsWellFounded | internal/promotion/pipeline.go:24-68 | Without problems no path of upstream stages is longer than the number of Orders and one. |
| Pipeline.ConnectedShareProduct | internal/promotion/pipeline.go:24-38 | Without problems, existing Orders that upstream stages connect share one Product. |
| Targets.TargetsOf | internal/controller/serving_controller.go:448-454 | The target of every selected Cluster, with why it is held. |
| Targets.TargetOf | internal/controller/serving_controller.go:461-489 | One target, and which servers are taken after it. |
| Targets.DeployableAreDistinct | internal/controller/serving_controller.go:457-489 | No two targets that are deployed to have the same server. |
| Targets.FirstDeploys | internal/controller/serving_controller.go:457-489 | The first ready Cluster of a server is never held for another, and deploys unless only the bundled registry has its images. |
| Targets.ApplyTargets | internal/controller/serving_controller.go:540-565 | Succeeds exactly when the engine fails on no target that is not held and removing from the clusters that are not kept succeeds; then says what every target reports and which are held, and keeps every target's cluster. |
| Targets.Status.SetTargets | internal/controller/serving_controller.go:584-624 | The counts, and the listed targets: held, then degraded, then progressing, each in order, at most 64. |
| Targets.Status.MarkDeployment | internal/controller/serving_controller.go:1302-1351 | The Ready condition that the counts and the observation give. |
| Targets.Observe | internal/controller/serving_controller.go:1502-1524 | Degraded once any target is, healthy once every target on a ready Cluster is and there is one, else progressing. |
| Targets.CountsAgree | internal/controller/serving_controller.go:584-624 | Selected is the sum of the four counts, and all but the healthy ones are listed. |
| Targets.AccountingAgrees | internal/controller/serving_controller.go:1302-1351 | Degraded is observed exactly when one is counted, healthy exactly when one is counted healthy and all others are on Clusters that are not ready; Ready is Deployed exactly when healthy is observed, and failed exactly when a target is degraded or held while its Cluster is ready. |
| Approvals.EncodedKeyIdentifies | internal/approval/evaluate.go:220-222 | Without the separator in the issuer, the joined key stands for exactly one approver. |
| Approvals.SortMatching | internal/approval/evaluate.go:60-72 | The matching Approvals in order, and mismatch verdicts on exactly the others. |
| Approvals.EvaluateOpen | internal/approval/evaluate.go:136-176 | The vote of every approver, cut to 64, and the verdict on every Approval, while voting is open. |
| Approvals.EvaluateSealed | internal/approval/evaluate.go:179-209 | The verdict on every Approval once votes are sealed. |
| Approvals.Tally | internal/approval/evaluate.go:90-104 | The three counts, and who approved and rejected. |
| Approvals.Evaluate | internal/approval/evaluate.go:42-121 | The evaluation, and a verdict on exactly the given Approvals. |
| Approvals.Gate | internal/approval/gate.go:24-48 | Lets a Preparation pass exactly when it has no policy, or its sealed votes are archived, none that counts rejects and enough approve, whatever was cast since; and says which of these holds it. |
| ApprovalProperties.OrderIndependent | internal/approval/evaluate.go:42-121 | Outcome and verdicts are the same for every order of the Approvals. |
| ApprovalProperties.VotesAreGreatest | internal/approval/evaluate.go:136-176 | Each vote is the greatest Approval of its approver, and every approver has exactly one. |
| ApprovalProperties.ApprovedIff | internal/approval/evaluate.go:90-121 | With at most 64 approvers, approved exactly when no eligible approver's latest vote rejects and enough approve. |
| ApprovalProperties.SupersededAreIdle | internal/approval/evaluate.go:136-176 | With at most 64 approvers, removing superseded votes changes neither outcome, counts nor votes. |
| ApprovalProperties.ApproveKeepsApproved | internal/approval/evaluate.go:42-176 | A newest approval of an eligible approver never makes an approved Preparation unapproved. |
| ApprovalProperties.CountsAddUp | internal/approval/evaluate.go:90-104 | Approved, rejected and ineligible add up to the votes. |
| SealingPreserves.VerdictKeptIff | internal/approval/evaluate.go:161-209 | A vote keeps its verdict over any later votes exactly when the latest vote of its approver is among the first 64. |
| SealingPreserves.SealingKeepsVerdictsIff | internal/approval/evaluate.go:136-209 | Sealing preserves Counted and Reason of all votes over any later votes exactly when at most 64 approvers voted. |
| SealingPreserves.SealingFixesTheOutcome | internal/approval/evaluate.go:79-121 | Once sealed, outcome, reason, counts and votes depend on no vote. |
| Attestations.BuildAttestation | internal/approval/attestation.go:77-124 | The statement, or why there is none. |
| Attestations.StatementIsOrderIndependent | internal/approval/attestation.go:77-124 | The same statement for every order of the Approvals. |
| Attestations.StatementIsStableIff | internal/approval/attestation.go:74-124 | The same statement after votes were added exactly when none of them sorts before the sealed vote of its approver. |
| Attestations.CreatedLaterIsAfter | internal/approval/evaluate.go:231-241 | Votes created later than all that were there sort after the sealed ones. |
| Sealing.Reconcile.MarkApproval | internal/controller/preparation_controller.go:416-426 | The aggregated status and the Approved condition, which says whether the votes approve; nothing else changes, nothing is sealed or unsealed, and the same Approvals evaluate to the same again. |
| Sealing.Reconcile.Seal | internal/controller/preparation_controller.go:232-251 | The status after the votes were read afresh and, if they still approve, sealed. |
| Sealing.Reconcile.Archive | internal/controller/preparation_controller.go:255-286 | The status after archiving, for every way it can fail. |
| Sealing.Reconcile.ReconcilePreparation | internal/controller/preparation_controller.go:133-159 | The status one reconcile leaves. |
| Sealing.ReconcileKeeps | internal/controller/preparation_controller.go:133-286 | Whatever is read, a reconcile never changes sealed votes, their time or their attestation; sealed votes approve, and only they are attested. |
| SealingRuns.StepKeeps | internal/controller/preparation_controller.go:133-364 | Every step keeps that for all versions and all reconciles in flight. |
| SealingRuns.VersionsGrow | internal/controller/preparation_controller.go:339-364 | Versions and votes are only ever added. |
| SealingRuns.SealsAreFinal | internal/controller/preparation_controller.go:133-364 | In every run, seals and attestations are final, sealed votes approve whatever was cast since, and a Preparation with a policy is promoted only sealed and archived. |
| StatementRuns.OneStatement | internal/controller/preparation_controller.go:253-286 | While no vote is cast after the seal that sorts before the sealed vote of its approver, at most one statement is ever archived, under one digest, that of the votes at the seal, and every attested version points at it. |
| Objects.HitsWhatWasListed | internal/controller/argocd.go:287-313 | From however stale a cache, a conditional write changes only the very version that was listed. |
| Ownership.ClusterSecretIsManaged | internal/argocd/cluster.go:75-121 | The Secret of a Cluster is recognised as managed for it, with its server. |
| Ownership.Conflicts | internal/argocd/cluster.go:129-142 | Names every unmanaged cluster Secret with the server or the name, and nothing else. |
| Ownership.Unregister | internal/controller/argocd.go:290-313 | Deletes every Secret that registers the Cluster but the kept one, or a prefix of them on failure. |
| Ownership.Register | internal/controller/argocd.go:210-279 | The calls of a registration: none on others' Secrets, as the plan from the list has them. |
| Ownership.RegistersItsOwn | internal/controller/argocd.go:210-313 | Those calls are calls for the Cluster itself. |
| Ownership.OneSecretPerServer | internal/argocd/cluster.go:41-49 | In every interleaving no two Secrets Kokumi manages have the same server. |
| Ownership.OnlyItsOwn | internal/controller/argocd.go:203-313 | In every interleaving what is done for a Cluster changes only Secrets whose labels name it, before and after. |
| AppOwnership.Apply | internal/controller/argocd.go:97-148 | The call for an Application: create, update when opted in and different, else none. |
| AppOwnership.AppliesItsOwn | internal/controller/argocd.go:97-148 | Whatever was read at any time, that is a call for an opted-in Application of the Order. |
| AppOwnership.Remove | internal/controller/argocd.go:171-201 | Deletes opted-in Applications on clusters that are not kept, and no others. |
| AppOwnership.RemovesItsOwn | internal/controller/argocd.go:171-201 | Whatever was listed at any time, those are calls for opted-in Applications of the Order. |
| AppOwnership.NeverWithoutOptIn | internal/argocd/application.go:205-215 | In every interleaving, an Application that is not opted in when the write arrives is not changed. |
| Applications.TrimStatus | internal/argocd/application.go:369-381 | The trimmed Application. |
| Applications.TrimIsFaithful | internal/argocd/application.go:245-345 | For every JSON tree, its state and what the watch compares are the same before and after trimming. |
| Applications.TrimIsMinimal | internal/argocd/application.go:347-381 | Trimming twice is trimming once, and keeps no field of the status that is not read. |
| Graph.Walker.Attached | internal/oci/graph.go:168-200 | The candidates of a node in order, and the error mark. |
| Graph.Walker.Add | internal/oci/graph.go:202-227 | A candidate is added once, found before, or marked as an error. |
| Graph.Walker.Visit | internal/oci/graph.go:126-141 | A node is finished: everything attached is found, or the node is marked. |
| Graph.Walker.Walk | internal/oci/graph.go:126-149 | The walk ends with every node finished and its referrers oldest first. |
| Graph.WalkFrom | internal/oci/graph.go:77-109 | At most 64 nodes with distinct digests, at most 4 levels deep, each attached to its parent. |
| Graph.TreeIsReachable | internal/oci/graph.go:126-227 | With no node marked, the tree is exactly what is reachable, each manifest at its shortest distance. |
| Graph.ReferrersAreSubjects | internal/oci/graph.go:177-186 | What is attached to a manifest as a referrer is exactly what names it as its subject, in a repository that lists referrers as section "Listing Referrers" of the OCI Distribution Specification v1.1 has it. |
| Graph.SubjectsAreInTree | internal/oci/graph.go:177-186 | With no node marked, every manifest whose subject is in the tree is in it, at most one level below. |
| Vendoring.UniqueRefs | internal/images/stage.go:144-164 | The same references sorted and once each, within the limits. |
| Vendoring.MatchMirror | internal/images/reference.go:69-85 | The mirror with the longest prefix at a path boundary, if any, and of several the first. |
| Vendoring.RewriteRefs | internal/images/stage.go:295-369 | When it succeeds, what every reference is rewritten to, and the jobs. |
| Vendoring.Queue | internal/images/stage.go:341-356 | One more reference keeps the job table right. |
| Vendoring.CoveredOnce | internal/images/stage.go:341-356 | Every vendored reference is covered by exactly one job, with its repository, digest and tag. |
| Vendoring.TagPushedTwiceIff | internal/images/stage.go:341-356 | Two jobs push the same tag exactly when two references name it with different digests. |

## Left out

- Kubernetes client, watches, predicates, indexers, events and finalizers: a reconcile may run at any time on any version.
- Signing, hashing and verification: a record that verifies is one that is in the registry and attests the deployment.
- Network, OCI transport, rendering, the Kitchen, Registry, Repository, Recipe and scan controllers: input, output and sequencing.
- Text of messages, including cut digests and names; a message is a datatype value with what it mentions.
- Attestations.BuildAttestation: leaves out the namespace, which is the same for all objects here, and the encoding as JSON.
- Approvals.EvaluateOpen: keys an approver by the pair instead of the joined string, and a latest vote by its position instead of its address.
- Approvals.Evaluate: an approver is without the mail address, which nothing reads.
- Gate.Evaluate: a result is for soak seconds of at least 0, as the API validates them.
- PromotionRuns.PromotionsAreGrounded: is about the version of an upstream history that was read, which may be stale; CurrentReadsAreSafe is about current ones.
- Promotions: Preparations do not change and names are not used again; one registry holds the records of all stages.
- Servings.Serving.EvaluateUpstream: requirements, Orders and verifications are given values, and how soon to check again is not modelled.
- Servings.Serving.Deploy: the Applications of one stage are one, which applying points at what is deployed; what is reported on them together is in Targets.
- Ownership.OneSecretPerServer: others never write Secrets with Kokumi's labels, but may delete them.
- Targets.Status.SetTargets: keeps no transition times of conditions.
- Targets.Status.MarkDeployment: lists no names in the message.
- Vendoring.RewriteRefs: resolving, prepare and resolveAll are left out, so a resolved reference is given; a vendored reference is a record of repository, tag and digest instead of its text; copying is left out.
- Applications.TrimIsFaithful: comparing two values that Go cannot compare panics in Go, before and after trimming, and is equality here.
- Graph.WalkFrom: the repository does not change during the walk, and where the tag points now is left out.
