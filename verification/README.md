# Verified model of the Talos platform's control plane

This project models the parts of the platform that decide what happens when several processes,
retries and people act at once, and proves what they guarantee.

- **The durable workflow engine.** `Dispatch` is a transition system over the rows of one
  workflow, the dispatch messages in flight and any number of handlers, Resumes and the Enqueue
  call, each with a program counter and private copies; one transition is one repository or
  broker call, and the step function is an arbitrary outcome. Its environments range from
  crashes, lost writes and duplicates (`Hostile`) over duplicates with overlap (`Racing`) to
  overlap without duplicates (`Concurrent`) and duplicates without overlap (`Repeating`).
  `Delivery` holds what the last two keep, `Refinement` reduces the last to atomic handlers, and
  `Interference` has the exact conditions for a RUNNING step to be stuck, for SUCCEEDED to mean
  that all steps are, and for Resume's write to be safe. `Interpreter` and
  `Engine` show that over the in-process broker the recursive engine terminates and computes what
  a left-to-right interpreter computes.
- **Provisioning and upgrade.** `ProvisionSteps` states the step functions, with every read, write
  and external call that can fail; `ProvisionObjects` writes them as the source does and proves
  one dispatcher for both definitions equal to them. `Approval` composes them with the engine and
  with people merging, closing and reopening pull requests, and has what orderly runs do.
  `GateSafety` has what the merge gate guarantees in every environment, `GateBypass` the exact
  conditions and the runs that pass it without a merge, `StatusOrder` when change set statuses
  only move up, `RowsTell` what single rows reveal, `StepMeaning` what each step needs and leaves
  and what its SUCCEEDED row vouches for, and `Gates` treats waiting at the gate.
  `ClusterLifecycle` and `PullRequestUrl` supply the state graph and the URL printing and parsing.
- **Leader election.** `Lease` has the Redis commands and the elector, `Election` any number of
  electors on one key over time, with errors whose command was applied, was not, or arrives late.
- **Alerts.** `Alerts` shows that the scheduler's incremental firing and resolving, through the
  SQL upsert, agrees with a function of the observation history.
- **Rollback.** `Rollback` has a map-of-trees Git with branches, first parents and three-way
  merges.
- **Idempotency keys, Cluster API manifests, access control.** `Idempotency`, `Manifests`, `Rbac`.

Check everything with `dafny verify dfyconfig.toml`. Every lemma carries `{:induction false}`:
where an induction is needed its proof makes the recursive call, and no proof rests on a
hypothesis added automatically.

## Where the code and its documentation differ

The model follows the code.

- `internal/workflows/engine.go:37-41` and `docs/adr/0005-workflow-architecture.md:18-20` expect a
  crashed worker's step to be run again. ClaimNextStep selects only PENDING steps, so a step left
  RUNNING is never claimed again (`Interference.StuckIffAbandoned`), and the redelivered message
  goes on with the next step or declares the workflow SUCCEEDED
  (`Interference.CrashFinishesEarly`).
- `internal/workflows/engine.go:31-34` promises that nothing runs again until Resume is called.
  executeNext treats only four statuses as terminal, so a message left over from a duplicate
  re-runs the waiting step. The promise holds exactly when no message is in flight
  (`Interference.WaitsForResumeIff`, `Interference.DuplicateOutlastsWait`), which is always so
  without duplicates and crashes (`Interference.WaitingIsQuiet`).
- `internal/workflows/engine.go:158-166` reads and then writes. The write keeps the rows in order
  exactly when the stored row is still the one that was read, current_step included
  (`Interference.ResumeWriteIff`, `Interference.StaleResumeRollsBack`).
- SUCCEEDED means "nothing left to claim", not "every step succeeded": the two agree exactly when
  every row is SUCCEEDED at that claim (`Interference.SucceededTruthfullyIff`).
- The human merge gate of an upgrade holds in orderly runs only. With a slow or dead worker at the
  gate, verify-and-mark-ready persists READY without a merge (`GateBypass.UpgradeBypassesGate`);
  of the gate's row only SUCCEEDED would tell, and only if no earlier change set can stand in
  (`GateBypass.UpgradeGateIff`). A check that works for every cluster is that the latest change
  set carries the workflow's id and is MERGED or SYNCED (`RowsTell.OwnChangeSetTells`). In a
  provisioning run the lifecycle graph itself keeps the order, and the gate holds in every
  environment unless the newest change set of an earlier run can stand in for the run's own
  (`GateSafety.ApprovalGate`, `GateBypass.ProvisionGateIff`).
- beginOperation's comment speaks of an "already-recorded terminal Operation"; the record returned
  for a repeated key may still be RUNNING, and stays so forever if its owner died
  (`Idempotency.OrphanForever`).
- Enqueue returns the row as it was created (PENDING) even when the in-process broker has already
  driven the workflow to its end.
- Lease exclusion counts from the instant Redis served the grant, not from the moment the caller
  saw the reply.
- A worker pool named "control-plane" collides with the control plane's machine template when
  Proxmox is configured, and two pools of one name always collide; nothing in RenderManifests
  rejects them (`Manifests.PathsDistinctIff`, `Manifests.ResolvesIff`).

## Model

| member | source | states |
|---|---|---|
| `Workflow.FirstPending` | `internal/infrastructure/postgres/workflow_repo.go:196-203` | the claim query picks the lowest PENDING step: everything before it is not PENDING |
| `Workflow.CleanPending` | `internal/infrastructure/postgres/workflow_repo.go:196-203` | on SUCCEEDED^k PENDING* the claim query picks step k, and nothing exactly when k is the length |
| `Dispatch.StepOwnership` | `internal/infrastructure/postgres/workflow_repo.go:185-224` | environment with crashes, duplicates, lost writes and any overlap: no two actors ever hold one step, a held row is RUNNING and equals the holder's copy, attempts = number of claims and bounds the calls of the step function |
| `Dispatch.StepPermanence` | `internal/workflows/engine.go:248-264` | in every environment a SUCCEEDED or FAILED step row is never changed again |
| `Dispatch.ResultsAreReturned` | `internal/workflows/engine.go:231-264` | in every environment a SUCCEEDED row holds the output, and a FAILED row the error, that a call of that step returned in this run |
| `Dispatch.OwnershipStep` | `internal/infrastructure/postgres/workflow_repo.go:205-223` | each single transition keeps step ownership |
| `Dispatch.AccountedStep` | `internal/infrastructure/postgres/workflow_repo.go:210-218` | each single transition keeps "attempts = claims, calls <= claims" |
| `Delivery.TokenConservation` | `internal/workflows/engine.go:151-273` | overlapping workers, no duplicates, crashes or racing Resumes: a PENDING or RUNNING workflow has exactly one token (message, handler or Resume that may still publish), any other status has none; steps read SUCCEEDED^k, at most one RUNNING or FAILED, PENDING*; current_step is k between handlers; SUCCEEDED means all steps are; executed strictly in order |
| `Delivery.AtLeastOnceTolerance` | `internal/workflows/engine.go:193-273` | any number of duplicate messages, no two actors overlapping: the same shape, no step is run after it succeeded or beyond a failed one, SUCCEEDED only when all steps are |
| `Delivery.TerminalForever` | `internal/workflows/engine.go:198-201` | in both environments a terminal workflow row and its step rows never change again |
| `Delivery.InOrderCounts` | `internal/workflows/engine.go:231-272` | in-order execution as counts: each step below the cursor returned nil exactly once, every other never, none beyond the cursor was called, the one at the cursor was called before only if it waited |
| `Delivery.ActorStep` | `internal/workflows/engine.go:193-289` | an actor's own action keeps what the actor knows about the rows, for every program counter |
| `Delivery.ConcurrentStep` | `internal/workflows/engine.go:157-273` | every transition of the overlapping environment keeps the token invariant |
| `Delivery.RepeatingStep` | `internal/workflows/engine.go:157-273` | every transition of the non-overlapping environment keeps its invariant; terminal rows stand still |
| `Refinement.HandlerIsRun` | `internal/workflows/engine.go:193-273` | conversely every atomic handler is a legal run, and it publishes exactly when its step returned nil |
| `Interference.StuckIffAbandoned` | `internal/infrastructure/postgres/workflow_repo.go:196-203` | a RUNNING step can ever leave RUNNING if and only if some actor still holds it |
| `Interference.CrashAbandons` | `internal/infrastructure/rabbitmq/broker.go:74-90` | a crash of the holder between claim and UpdateStep abandons the step |
| `Interference.AbandonedStays` | `internal/infrastructure/postgres/workflow_repo.go:196-203` | an abandoned step stays RUNNING, with the same row, in every continuation, and its function is not called again |
| `Interference.OwnerSettles` | `internal/workflows/engine.go:231-264` | a held step can be settled by its holder |
| `Interference.DuplicateFinishesEarly` | `internal/workflows/engine.go:212-215` | a run with one duplicate and overlapping handlers in which the workflow is SUCCEEDED while its only step is RUNNING |
| `Interference.CrashFinishesEarly` | `internal/infrastructure/rabbitmq/broker.go:84-86` | a run with one crash and redelivery in which the workflow is SUCCEEDED while its only step is RUNNING |
| `Interpreter.DriveInterprets` | `internal/workflows/engine.go:193-273` | handling messages until none is published leaves exactly the rows and world of a left-to-right interpreter that stops at the first error or wait |
| `Interpreter.NewRunLeaves` | `internal/workflows/engine.go:193-289` | a new run, field by field: every step it got through is SUCCEEDED with the output its function returned and one attempt, the failed one FAILED with the error, the waiting one PENDING again, those behind untouched, and the workflow row says so with the failing step and cause |
| `Interpreter.StandsStillIff` | `internal/workflows/engine.go:198-201` | a message changes nothing if and only if the workflow is SUCCEEDED, FAILED, CANCELLED or NEEDS_ATTENTION |
| `Interpreter.MissingDefinition` | `internal/workflows/engine.go:220-223` | a step beyond the registered definition is left RUNNING and the workflow FAILED, naming the sequence and the type |
| `Interpreter.PendingDrops` | `internal/infrastructure/postgres/workflow_repo.go:205-218` | a claim lowers the number of PENDING steps, the measure by which the dispatch recursion ends |
| `Interpreter.WaitingStutters` | `internal/workflows/engine.go:233-247` | any number of Resumes of a waiting step leaves row, world and all other steps alone and adds one attempt each |
| `Interpreter.GateEquivalence` | `internal/workflows/engine.go:151-273` | waiting, any number of futile Resumes, opening the gate and one more Resume end like a run whose gate was open from the start, except for the attempts of the gate step |
| `Engine.WorkflowRepository.Create` | `internal/infrastructure/postgres/workflow_repo.go:28-75` | inserts row and steps together, or nothing if the idempotency key exists |
| `Engine.WorkflowRepository.Get` | `internal/infrastructure/postgres/workflow_repo.go:80-83` | the row of an id |
| `Engine.WorkflowRepository.GetByIdempotencyKey` | `internal/infrastructure/postgres/workflow_repo.go:85-88` | finds a row of the key if and only if there is one |
| `Engine.WorkflowRepository.UpdateStep` | `internal/infrastructure/postgres/workflow_repo.go:166-183` | whole-step write by id; false when there is none |
| `Engine.WorkflowRepository.ClaimNextStep` | `internal/infrastructure/postgres/workflow_repo.go:189-224` | the lowest PENDING step becomes RUNNING with one more attempt, nothing else changes; none exactly when nothing is PENDING |
| `Engine.Broker.Subscribe` | `internal/infrastructure/inprocess/broker.go:39-44` | appends the handler and returns its slot |
| `Engine.Broker.Unsubscribe` | `internal/infrastructure/inprocess/broker.go:45-52` | clears the slot but keeps it |
| `Engine.Engine.Register` | `internal/workflows/engine.go:79-81` | replaces the definition of one type |
| `Engine.Engine.StartConsuming` | `internal/workflows/engine.go:88-95` | subscribes; alone on the topic, the engine is then the live subscriber |
| `Engine.Engine.Enqueue` | `internal/workflows/engine.go:109-149` | an existing key returns its run and changes nothing; an unknown type is an error and changes nothing; otherwise the rows stored for the new run are, field by field, those of the interpreter's outputs and verdict, other workflows are untouched, and the caller gets the row as created |
| `Engine.Engine.Insert` | `internal/workflows/engine.go:116-143` | after the insert the store holds the new row, its PENDING steps and the unchanged world |
| `Engine.Engine.Resume` | `internal/workflows/engine.go:157-171` | succeeds exactly for AWAITING_APPROVAL, and then equals driving the store with status RUNNING |
| `Engine.Engine.Dispatch` | `internal/workflows/engine.go:173-179` | publishing drives the workflow until no message is left, and terminates |
| `Engine.Engine.HandleDispatch` | `internal/workflows/engine.go:181-187` | as executeNext |
| `Engine.Engine.ExecuteNext` | `internal/workflows/engine.go:193-201` | equals driving the store; false exactly for an unknown id; other workflows untouched |
| `Engine.Engine.Proceed` | `internal/workflows/engine.go:203-273` | the same from the terminal test on |
| `Engine.Engine.ClaimOrFinish` | `internal/workflows/engine.go:203-218` | starts a PENDING workflow, claims the first PENDING step, or finishes SUCCEEDED when there is none |
| `Engine.Engine.RunStep` | `internal/workflows/engine.go:220-273` | an unregistered step fails the workflow; otherwise run, settle, and drive on if the step succeeded |
| `Engine.Engine.RunRegistered` | `internal/workflows/engine.go:231-273` | the same for a registered step |
| `Engine.Engine.Call` | `internal/workflows/engine.go:231-269` | calls the function once and stores its outcome in step and workflow row |
| `Engine.Engine.Settle` | `internal/workflows/engine.go:233-269` | the two row writes after a nil, an error or a wait |
| `Engine.Engine.Finish` | `internal/workflows/engine.go:275-289` | final status, error and finish time in one row write |
| `ClusterLifecycle.FirstReady` | `internal/domain/cluster/cluster.go:45-69` | on every legal trace from DRAFT the first READY is immediately preceded by PLANNING through CONFIGURING |
| `ClusterLifecycle.DeletedAbsorbs` | `internal/domain/cluster/cluster.go:45-69` | DELETED is entered only from DELETING and never left |
| `ClusterLifecycle.CanBeDeleted` | `internal/domain/cluster/cluster.go:45-69` | every other state reaches DELETED within three transitions |
| `ClusterLifecycle.DeletionNeedsThree` | `internal/domain/cluster/cluster.go:45-69` | from UPGRADING fewer than three are not enough |
| `ClusterLifecycle.NoShortcut` | `internal/domain/cluster/cluster.go:45-69` | no trace is DEGRADED or UPGRADING before its first READY |
| `ClusterLifecycle.PipelineEnteredFrom` | `internal/domain/cluster/cluster.go:45-69` | from which states each pipeline state up to CONFIGURING is entered |
| `ClusterLifecycle.OthersEnteredFrom` | `internal/domain/cluster/cluster.go:45-69` | from which states READY and the states beside the pipeline are entered |
| `ClusterLifecycle.Cluster.Transition` | `internal/domain/cluster/cluster.go:184-191` | moves exactly along the table, otherwise an error and no change |
| `PullRequestUrl.RoundTrip` | `internal/workflows/cluster_provision.go:166-179` | parsing a printed URL gives the number back for every owner, repository and number an int can hold, and an error for a larger one |
| `PullRequestUrl.NumberIff` | `internal/workflows/cluster_provision.go:169-179` | a URL parses if and only if digits, at least one, perhaps signed, and in int range, are all that follows its last slash |
| `PullRequestUrl.Injective` | `internal/integrations/github/mock.go:83-92` | two pull requests with the same URL have the same number |
| `PullRequestUrl.LastSlash` | `internal/workflows/cluster_provision.go:170-173` | the index of the last slash, -1 exactly when there is none |
| `ProvisionObjects.GitHost.CreatePullRequest` | `internal/integrations/github/mock.go:78-92` | a fresh, strictly larger number, its URL, and an open (or at once merged) pull request |
| `ProvisionObjects.GitHost.GetPullRequest` | `internal/integrations/github/mock.go:94-102` | the state of an existing pull request, an error otherwise |
| `Approval.ProvisionKeeps` | `internal/workflows/cluster_provision.go:253-437` | each provisioning step takes the world from its cursor to the next on nil, leaves it safe on an error, untouched on a wait |
| `Approval.UpgradeKeeps` | `internal/workflows/cluster_upgrade.go:31-87` | the same for each upgrade step |
| `Approval.PullRequestsOnly` | `internal/workflows/cluster_provision.go:376-382` | what others do to pull requests does not disturb the invariant |
| `Approval.SucceededCursor` | `internal/workflows/engine.go:212-215` | SUCCEEDED means the cursor is past the last step |
| `Gates.WaitsIff` | `internal/workflows/cluster_provision.go:376-382` | a step waits if and only if it is the gate, its pull request can be read and is not merged; then it changes nothing |
| `Gates.WaitingChangesNothing` | `internal/workflows/capi_change.go:90-113` | any number of Resumes while unmerged leaves cluster, change sets, Git, workflow row and other steps alone and adds one attempt each, for both gates |
| `Interference.SucceededTruthfullyIff` | `internal/infrastructure/postgres/workflow_repo.go:196-203` | at a claim that finds nothing PENDING, with crashes or racing handlers: every SUCCEEDED row of every continuation means that all steps are SUCCEEDED, if and only if they already are, which the claim query does not check |
| `Interference.ResumeWriteIff` | `internal/workflows/engine.go:158-166` | Resume's unconditional write keeps the invariant of tokens, row, steps and cursor, and terminal rows, exactly when the stored row is still the one it read |
| `Interference.StaleResumeRollsBack` | `internal/workflows/engine.go:158-166` | a run with two overlapping Resumes over two waits whose slower write finds AWAITING_APPROVAL again and takes current_step back |
| `Interference.TidyRun` | `internal/workflows/engine.go:193-289` | in every environment all copies of a row agree on identity, and only final ones carry an error or a finish time |
| `Refinement.AtomicHandlers` | `internal/workflows/engine.go:151-289` | whenever nobody is active, the rows a non-overlapping run has left are those of a sequence of atomic handlers and atomic Resumes in which the step functions return, in order, exactly what they returned in the run |
| `Refinement.EventsAreRuns` | `internal/workflows/engine.go:151-289` | conversely every such sequence is a legal run |
| `Refinement.ResumeIsRun` | `internal/workflows/engine.go:157-171` | a whole Resume is a legal run and puts one message in flight |
| `Interpreter.GateTriedAgain` | `internal/workflows/engine.go:151-273` | the same when the gate is opened by an event followed by a change no later step looks at |
| `Engine.WorkflowRepository.Update` | `internal/infrastructure/postgres/workflow_repo.go:127-144` | writes the copy's status, progress, error and times by id, leaving type and key alone; false when there is no such row |
| `Engine.Broker.Publish` | `internal/infrastructure/inprocess/broker.go:26-37` | delivers in order before returning; nothing happens without a subscriber, and with one live subscriber the workflow has been driven to the end |
| `Idempotency.OperationService.BeginOperation` | `internal/application/machineservice/service.go:117-144` | an existing key returns its record and changes nothing, in whatever status; otherwise one RUNNING record, or an error when the lookup, the machine or the insert fails |
| `Idempotency.OperationService.RunOperation` | `internal/application/machineservice/service.go:166-197` | fn called at most once and not at all for a known key, a failing lookup or insert, an unknown machine or unresolved prerequisites; record, answer and error in each case |
| `ProvisionObjects.GitHost.Commit` | `internal/integrations/github/mock.go:49-61` | a commit with a name no recorded commit has, on top of the branch, its parent remembered |
| `ProvisionObjects.FirstNotReady` | `internal/workflows/capi_change.go:145-149` | the first resource that is not ready, if any |
| `ProvisionObjects.FilePaths` | `internal/workflows/cluster_provision.go:144-150` | the paths of the files, in order, as recorded on the change set |
| `ProvisionObjects.ProbeMachines` | `internal/workflows/cluster_provision.go:209-223` | succeeds exactly when every machine is registered (if need be), reachable and healthy |
| `ProvisionObjects.Steps.TransitionAndSave` | `internal/workflows/cluster_provision.go:70-78` | nothing when already there, otherwise the legal move persisted; an error and no stored change when it is illegal or cannot be saved |
| `ProvisionObjects.Steps.ReadPullRequest` | `internal/workflows/cluster_provision.go:357-379` | the state of the pull request named by the newest change set, and each way this can fail, in each gate's order |
| `ProvisionObjects.Steps.CommitToGit` | `internal/workflows/cluster_provision.go:296-330` | branch, commit and COMMITTED change set with the rendered paths, as far as the first failing call |
| `ProvisionObjects.Steps.AwaitPullRequestMerge` | `internal/workflows/cluster_provision.go:356-392` | waits without a change unless merged; then MERGED recorded and INSTALLING persisted, as far as the first failing write |
| `ProvisionObjects.Steps.AwaitClusterAPIChangeMerge` | `internal/workflows/capi_change.go:90-131` | waits without a change unless merged; then MERGED, and SYNCED after Argo CD synced, as far as the first failing call |
| `ProvisionObjects.Steps.Run` | `internal/workflows/cluster_provision.go:246-439` | the imperative steps of both definitions, one dispatcher for all, compute the outcome and leave the records of RunStep, which the theorems are about; the commit goes to the operation's branch off the trunk, its pull request asks to merge that branch into the trunk, and no other step touches either |
| `StepMeaning.ValidationIff` | `internal/workflows/cluster_provision.go:246-295` | the validations and the generator return nil exactly when these fields are set and the manifests render |
| `StepMeaning.ResourcesReadyIff` | `internal/workflows/capi_change.go:137-151` | wait-for-cluster-api returns nil exactly when the resources of a CAPI-managed cluster were listed and every one is ready, in both definitions |
| `StepMeaning.MachinesSoundIff` | `internal/workflows/cluster_provision.go:186-244` | check-talos-health moves INSTALLING to CONFIGURING first, and returns nil exactly when every machine is reachable, healthy and, with credentials, registered |
| `StepMeaning.ProvisionMovesIff` | `internal/workflows/cluster_provision.go:70-88` | from which states the moves to BOOTSTRAPPING and READY succeed and what they persist |
| `StepMeaning.UpgradeMovesIff` | `internal/workflows/cluster_upgrade.go:32-87` | from which states the moves to UPGRADING and back to READY succeed and what they persist |
| `StepMeaning.CommitMeans` | `internal/workflows/cluster_provision.go:296-330` | nil exactly when every call up to the record succeeds; then one change set of this workflow with the rendered paths and the new commit's name; the commit may be made and not recorded |
| `StepMeaning.OpenMeans` | `internal/workflows/cluster_provision.go:331-355` | nil exactly when the pull request is opened and recorded on the latest change set; it may be open and not recorded |
| `StepMeaning.CommitChangeMeans` | `internal/workflows/capi_change.go:34-88` | the same for an upgrade's commit and pull request, with what each failing call leaves |
| `StepMeaning.GateMeans` | `internal/workflows/cluster_provision.go:356-387` | a readable pull request: waits if not merged; if merged, records MERGED before it moves the cluster, and what each failing write leaves |
| `StepMeaning.UpgradeGateMeans` | `internal/workflows/capi_change.go:90-135` | the same for an upgrade, which goes on to the Argo CD sync |
| `StepMeaning.UnreadableGate` | `internal/workflows/capi_change.go:95-118` | an unreadable pull request is an error in both gates and changes nothing |
| `StepMeaning.SyncMeans` | `internal/workflows/cluster_provision.go:388-405` | nil exactly without Argo CD or after a sync; SYNCED is recorded if it can be |
| `StepMeaning.SucceededRowVouches` | `internal/workflows/engine.go:260-264` | in every environment a SUCCEEDED step row holds the output of a call of this run that met everything the step checks |
| `StepMeaning.ReadyRowSawResources` | `internal/workflows/capi_change.go:137-151` | in every environment a SUCCEEDED wait-for-cluster-api row means that a call saw every resource ready |
| `StepMeaning.HealthRowSawMachines` | `internal/workflows/cluster_provision.go:186-244` | in every environment a SUCCEEDED check-talos-health row means that a call found every machine sound |
| `Approval.OrderlyRun` | `internal/workflows/cluster_provision.go:246-439` | without duplicates or without overlap: persisted states are a prefix of the chain, the gated part only after the one pull request of this run was merged, older change sets are untouched, SUCCEEDED implies READY and the whole chain |
| `Approval.ChangeSetsClimb` | `internal/workflows/cluster_provision.go:318-402` | in orderly runs change set statuses only move up COMMITTED, PR_CREATED, MERGED, SYNCED, and none disappears |
| `Approval.GateReadsOwn` | `internal/workflows/cluster_provision.go:357-379` | in orderly runs the gate looks up exactly the pull request the create step of this run opened |
| `GateSafety.ApprovalGate` | `internal/workflows/cluster_provision.go:246-439` | every environment, crashes, lost writes and racing handlers included: a provisioning run persists a prefix of BOOTSTRAPPING, INSTALLING, CONFIGURING, READY, and with a harmless older change set the gate step is SUCCEEDED, or the cluster INSTALLING or later, only after a pull request of the run's own was merged |
| `GateSafety.GateSeesOwn` | `internal/workflows/cluster_provision.go:357-382` | what either gate sees merged is a pull request of the run's own unless an older change set names another |
| `GateSafety.StepClimbs` | `internal/domain/cluster/cluster.go:45-59` | whatever the order in which provisioning steps run, the lifecycle graph keeps their states in order |
| `GateBypass.ProvisionGateIff` | `internal/workflows/cluster_provision.go:155-164` | with crashes or racing handlers a provisioning run gets past BOOTSTRAPPING only after a merge of its own if and only if the newest change set it found names no pull request that exists or may yet be opened |
| `GateBypass.UpgradeGateIff` | `internal/workflows/cluster_upgrade.go:56-86` | when the last upgrade step is about to be claimed, a gate row in a given status guarantees a merge of the run's own if and only if that status is SUCCEEDED (and the older change set harmless) |
| `GateBypass.UpgradeBypassesGate` | `internal/workflows/cluster_upgrade.go:66-86` | with racing handlers or crashes every upgrade of a READY CAPI cluster has a history that persists READY and ends SUCCEEDED with its own pull request still open |
| `Gates.DefinitionTransparent` | `internal/workflows/cluster_provision.go:246-439` | every step that does not wait does the same when the run's own pull request is merged from the start |
| `Gates.HumanMergeEqualsAutoMerge` | `internal/workflows/cluster_provision.go:237-245` | a merge of the run's own pull request after any number of futile Resumes ends like a Git host that merges it at once, for every cluster and history, except for that host's setting and the attempts of the gate step |
| `Rollback.RollbackInverts` | `internal/application/clusterservice/service.go:320-330` | on trees: undoing a commit's generated files on its own tree gives back the tree before |
| `Rollback.RollbackRestores` | `internal/application/clusterservice/service.go:320-330` | in the repository: while the trunk has the tree of the target's commit, and that touched only its files, a rollback past the merge leaves the trunk with exactly the parent's tree |
| `ClusterLifecycle.ClusterService.Provision` | `internal/application/clusterservice/service.go:128-144` | persists PROVISIONING exactly from DRAFT or FAILED with a valid plan and a row that can be read and written; otherwise every stored row is untouched |
| `Interference.WaitsForResumeIff` | `internal/workflows/engine.go:26-35` | "nothing runs again until something calls Resume": of a workflow that waits and nobody handles, some continuation without Resume, duplicate or redelivery calls a step function if and only if a copy of a dispatch message is still in flight |
| `Interference.DuplicateOutlastsWait` | `internal/workflows/engine.go:198-201` | a run with one duplicated message that reaches such a state |
| `Interference.WaitingIsQuiet` | `internal/workflows/engine.go:26-35` | without duplicates, crashes and racing Resumes the promise holds: no step is called between AWAITING_APPROVAL and the next Resume write |
| `StatusOrder.StatusesClimb` | `internal/workflows/cluster_provision.go:318-402` | in every environment, for both definitions: a run that finds a steady world never moves a change set status down |
| `StatusOrder.StatusesClimbIff` | `internal/workflows/cluster_provision.go:318-402` | with racing handlers or crashes, statuses only move up if and only if the world is steady: provisioning without Argo CD and with a latest earlier change set not past PR_CREATED whose pull request cannot pass the gate first; upgrading without a SYNCED one that can |
| `StatusOrder.FallsBehindSync` | `internal/workflows/cluster_provision.go:331-405` | with Argo CD a slow create-pull-request writes PR_CREATED over the SYNCED of wait-for-argocd-sync |
| `StatusOrder.FallsBehindGate` | `internal/workflows/cluster_provision.go:331-387` | with an earlier pull request that passes, it writes PR_CREATED over the gate's MERGED |
| `StatusOrder.FallsOnOld` | `internal/workflows/cluster_provision.go:331-355` | before the run's own commit it overwrites an earlier MERGED or SYNCED |
| `StatusOrder.UpgradeFalls` | `internal/workflows/capi_change.go:95-128` | an upgrade's gate writes MERGED over an earlier run's SYNCED |
| `RowsTell.OwnChangeSetTells` | `internal/workflows/capi_change.go:95-128` | in every environment and after any earlier runs: a latest change set with this workflow's id that is MERGED (or, when upgrading, SYNCED) means that a pull request of this run was merged |
| `RowsTell.ReadyRowTells` | `internal/workflows/cluster_provision.go:428-436` | in every environment: the mark-ready row of a provisioning run is SUCCEEDED only if the whole chain is persisted and the cluster READY |
| `RowsTell.UpgradeTellsIff` | `internal/workflows/cluster_upgrade.go:32-87` | with racing handlers or crashes the last row of an upgrade tells this if and only if the state it found neither is READY nor can move there, so that it cannot succeed |
| `Idempotency.OrphanArises` | `internal/application/machineservice/service.go:135-143` | four actions that leave such a record: Enter, Check, Insert, Crash |
| `Rollback.RollbackOverMovedTrunk` | `internal/application/clusterservice/service.go:398-416` | in the repository, others having built on the trunk since the undo commit: the merge is refused if and only if somebody changed a path the rollback changes to something else; otherwise exactly those paths become the parent's |
| `Rollback.MergeOverMovedTrunk` | `internal/integrations/github/client.go:161-170` | the same for the three trees of the merge |
| `Rollback.ForkStaysBase` | `internal/integrations/github/client.go:161-170` | commits on top of the trunk leave the fork as the merge base |
| `Lease.Redis.AcquireLock` | `internal/infrastructure/redis/client.go:60-70` | SET NX PX: taken exactly when no live key exists; what an error leaves behind |
| `Lease.Redis.Renew` | `internal/infrastructure/redis/client.go:92-105` | extends exactly when the live key carries the token |
| `Lease.Redis.Unlock` | `internal/infrastructure/redis/client.go:75-83` | deletes exactly when the live key carries the token |
| `Lease.Elector.IsLeader` | `internal/infrastructure/leaderelection/leaderelection.go:46-72` | true exactly when the lease was renewed, or there was none of its own left and the key was free; then the key carries this elector's token for a full ttl, otherwise no lock is remembered; lock and key for every error |
| `Lease.Elector.Resign` | `internal/infrastructure/leaderelection/leaderelection.go:77-85` | clears the lock whatever happens, and the key if it is its own |
| `Election.CallIsActions` | `internal/infrastructure/leaderelection/leaderelection.go:46-72` | one IsLeader call is exactly a renewal and, if that was answered no, an acquisition in the timed system |
| `Election.InvStep` | `internal/infrastructure/redis/client.go:60-105` | tokens stay unshared, no straggler carries a held token, the key expires within a ttl |
| `Election.Exclusion` | `internal/infrastructure/leaderelection/leaderelection.go:46-85` | after a grant at time t no other elector is granted before t + ttl unless the first resigned, for all interleavings of ticks, commands, errors applied or not, and stragglers |
| `Election.PassesDisjoint` | `cmd/platform-scheduler/main.go:114-119` | passes no longer than a ttl never overlap across replicas if nobody resigns during its own pass |
| `Election.Retention` | `internal/infrastructure/leaderelection/leaderelection.go:46-58` | an elector without errors whose calls are less than a ttl apart is granted every call forever |
| `Election.SoleLeader` | `internal/infrastructure/leaderelection/leaderelection.go:46-72` | and nobody else is granted in the meantime |
| `Election.SchedulerKeepsLease` | `cmd/platform-scheduler/main.go:92-105` | the 30 s tick keeps the 45 s lease while each tick is served less than 15 s late |
| `Election.Failover` | `internal/infrastructure/leaderelection/leaderelection.go:61-71` | a ttl after the key was last lengthened the first call without an error is granted, whoever makes it |
| `Election.Handover` | `internal/infrastructure/leaderelection/leaderelection.go:77-85` | right after a resignation that reached Redis as well |
| `Alerts.Reconciler.UpsertAlert` | `internal/infrastructure/postgres/audit_repo.go:139-166` | insert, or the ON CONFLICT update of status, detail, fired_at and resolved_at |
| `Alerts.Reconciler.FiringAlertTitles` | `cmd/platform-scheduler/main.go:183-195` | exactly the FIRING titles of the cluster, none when the read fails |
| `Alerts.Reconciler.RaiseAlert` | `cmd/platform-scheduler/main.go:239-256` | one upsert of one title, resolved_at set exactly when resolving; no other row is touched |
| `Alerts.Reconciler.ReconcileArgoCD` | `cmd/platform-scheduler/main.go:201-237` | drift and health rows move by their own looks, or stay when Argo CD tells nothing; no other row is touched |
| `Alerts.Reconciler.ReconcileCluster` | `cmd/platform-scheduler/main.go:151-176` | a DEGRADED or FAILED cluster, an application out of sync, a degraded or missing one: the row is FIRING with its severity, since when it was already; otherwise a FIRING row that was read is RESOLVED; every other row stays |
| `Alerts.VisitReconciles` | `cmd/platform-scheduler/main.go:151-255` | the look at each title that the history theorems use says exactly this |
| `Alerts.Reconciler.Run` | `cmd/platform-scheduler/main.go:135-149` | a pass moves each row by the visits to its cluster, in order |
| `Alerts.TableShowsHistory` | `cmd/platform-scheduler/main.go:151-256` | starting empty, after any passes over any clusters with any read and write failures: a row is absent iff its condition was never seen, FIRING iff nothing cleared it since its latest streak began, fired_at is the start of that streak, resolved_at the first clear after it |
| `Alerts.RowShowsHistory` | `internal/infrastructure/postgres/audit_repo.go:146-162` | the same for one row and its looks |
| `Alerts.LatestStreakUnique` | `internal/infrastructure/postgres/audit_repo.go:146-162` | a history has one latest streak, so the dates are determined |
| `Alerts.RowAfterJoins` | `cmd/platform-scheduler/main.go:135-149` | passes compose |
| `Rollback.GitProvider.CreateBranch` | `internal/integrations/github/client.go:47-60` | a new branch at the tip of another; an error leaves everything |
| `Rollback.GitProvider.GetCommitParent` | `internal/integrations/github/client.go:77-87` | the first parent, or an error |
| `Rollback.GitProvider.GetFile` | `internal/application/ports/git.go:49-66` | the content of a path in a commit's tree, or not found |
| `Rollback.GitProvider.Commit` | `internal/integrations/github/client.go:92-138` | one commit with all changes on top of the branch tip, and the branch moved to it |
| `Rollback.GitProvider.CreatePullRequest` | `internal/integrations/github/client.go:140-151` | a new open pull request with a fresh number |
| `Rollback.GitProvider.MergePullRequest` | `internal/integrations/github/client.go:161-170` | merges cleanly or refuses; the base branch gets the three-way tree |
| `Rollback.Service.Plan` | `internal/application/clusterservice/service.go:359-372` | one change per generated file: its content at the parent, or its deletion |
| `Rollback.Service.CommitUndo` | `internal/application/clusterservice/service.go:359-385` | the undo commit on a new branch, or no commit at all |
| `Rollback.Service.Deliver` | `internal/application/clusterservice/service.go:398-431` | pull request, merge and sync with the status recorded after each |
| `Rollback.Service.OpenRequest` | `internal/application/clusterservice/service.go:398-410` | the pull request and PR_CREATED |
| `Rollback.Service.MergeAndSync` | `internal/application/clusterservice/service.go:412-431` | the merge and MERGED, then the sync and SYNCED |
| `Rollback.Service.RecordAndDeliver` | `internal/application/clusterservice/service.go:387-434` | from the change set record to the end, for every failing call |
| `Rollback.Service.Revert` | `internal/application/clusterservice/service.go:359-434` | the whole rollback of an acceptable change set |
| `Rollback.Service.Rollback` | `internal/application/clusterservice/service.go:331-435` | refused without any effect for a foreign, unknown, commitless or parentless change set or where the branch cannot be made; otherwise, if no call fails, no error and the recorded change set MERGED or SYNCED; and Git, change sets, answer and error after whichever call fails first |
| `Rollback.StatusTells` | `internal/application/clusterservice/service.go:387-434` | which failing call leaves which record: none before the commit, then COMMITTED, PR_CREATED, MERGED or SYNCED with commit and pull request |
| `Rollback.StatusTrailsGit` | `internal/application/clusterservice/service.go:398-434` | the trunk has moved if and only if the record is MERGED or SYNCED, or its MERGED could not be written |
| `Rollback.RollbackLeaves` | `internal/application/clusterservice/service.go:374-434` | no commit unless it got that far; the rollback commit sits on the trunk's tip with the reverted tree, which becomes the trunk's exactly if the run passed the merge; no other branch moves |
| `Rollback.UndoneAt` | `internal/application/clusterservice/service.go:359-372` | the rollback tree is the parent's on the generated files and the trunk's elsewhere |
| `Rollback.RestoresParentIff` | `internal/application/clusterservice/service.go:320-330` | it is exactly the parent's tree if and only if the trunk agrees with the parent outside the generated files |
| `Rollback.RollbackOfRollback` | `internal/application/clusterservice/service.go:387-396` | rolling the rollback back restores the generated files, and the whole tree if nobody moved the trunk |
| `Rollback.MergeOntoFork` | `internal/integrations/github/client.go:161-170` | merging onto an unmoved base is never refused and gives the branch's tree |
| `Idempotency.OperationService.FinishOperation` | `internal/application/machineservice/service.go:146-163` | SUCCEEDED or FAILED stored, or an error and no record when it cannot be |
| `Idempotency.AtMostOnce` | `migrations/0004_workflows.up.sql:7-39` | racing callers, crashes, lost and unanswered requests: at most one record a key, fn called at most once a key and never before the record exists |
| `Idempotency.SameRecord` | `internal/application/machineservice/service.go:117-144` | all answers that carry a record carry the same one for the same key, at all times |
| `Idempotency.FinishedTruthfully` | `internal/application/machineservice/service.go:146-163` | a finished operation is SUCCEEDED, with the result "ok", if and only if fn was called and returned nil |
| `Idempotency.OrphanForever` | `internal/application/machineservice/service.go:117-144` | a RUNNING record nobody works on stays RUNNING forever and its fn is never called again |
| `Idempotency.OwnedCanFinish` | `internal/application/machineservice/service.go:166-175` | while its owner lives, two actions finish it |
| `Idempotency.InvStep` | `internal/workflows/engine.go:109-149` | each action of Enqueue or RunOperation keeps the invariant |
| `Manifests.RenderManifests` | `internal/integrations/clusterapi/client.go:401-546` | the loop appends exactly the specified documents in order |
| `Manifests.RenderCluster` | `internal/integrations/clusterapi/client.go:401-481` | the cluster-wide documents, two or four |
| `Manifests.RenderPool` | `internal/integrations/clusterapi/client.go:483-543` | the documents of one pool, two or three |
| `Manifests.PathsDistinctIff` | `internal/integrations/clusterapi/client.go:401-546` | paths (and document identities) are pairwise distinct if and only if pool names are, and with Proxmox none is "control-plane" |
| `Manifests.ResolvesIff` | `internal/integrations/clusterapi/client.go:407-543` | every controlPlaneRef, configRef and infrastructure reference names exactly one document under exactly the same condition |
| `Manifests.DanglingIff` | `internal/integrations/clusterapi/client.go:451-481` | an empty infrastructureTemplate, naming nothing, is rendered exactly without Proxmox |
| `Manifests.ClusterDocuments` | `internal/integrations/clusterapi/client.go:401-481` | the cluster-wide documents written out: path, identity, networks, control plane size and version, references, and the Proxmox node, template, port and credentials |
| `Manifests.PoolDeployment` | `internal/integrations/clusterapi/client.go:483-520` | each worker pool has a MachineDeployment with its label, replicas, version and references |
| `Manifests.PoolConfig` | `internal/integrations/clusterapi/client.go:483-543` | and a TalosConfigTemplate with the Talos version and, with Proxmox, a machine template |
| `Manifests.Totals` | `internal/integrations/clusterapi/client.go:401-546` | 4 + 3n documents with Proxmox, 2 + 2n without, and MachineDeployment replicas sum to the worker replicas |
| `Rbac.RoleLadder` | `internal/domain/user/user.go:29-41` | the six roles form a ladder, each satisfying exactly those up to itself; a role outside it satisfies nothing on it |
| `Rbac.ScopeChain` | `internal/auth/rbac.go:31-102` | the unrolled lookups give, for every kind, exactly the listed scopes up to PLATFORM, which is the scope followed by its parent's chain, or fail where a lookup fails |
| `Rbac.Authorize` | `internal/auth/rbac.go:106-134` | allowed exactly for the entitled, when bindings and lookups are available; unavailable exactly when the bindings cannot be loaded or, for a user who has some, a lookup fails |
| `Rbac.EntitledToCluster` | `internal/auth/rbac.go:31-134` | entitled to a cluster: a binding of enough weight on it, its environment, project or organization, or the platform, and on nothing else |
| `Rbac.ChainMembers` | `internal/auth/rbac.go:29-101` | the chain holds exactly the resource, everything above it and PLATFORM |
| `Rbac.GrantedIffEntitled` | `internal/auth/rbac.go:104-134` | access is granted if and only if a binding on the resource, above it or on PLATFORM weighs enough |
| `Rbac.Inheritance` | `internal/auth/rbac.go:14-17` | access above implies access below, and there the lookups cannot fail if those below succeed |
| `Rbac.Monotone` | `internal/auth/rbac.go:120-132` | adding bindings, raising roles or asking for less never revokes access |

## Left out

- One workflow per transition system: every repository call is keyed by the workflow's id. That other workflows are untouched is proved for the engine over the in-process broker.
- SKIP LOCKED lets a racing claim skip a locked row. The Hostile environment therefore lets a claim take any PENDING row, or find none; the orderly environments take the lowest.
- Failing repository writes of the engine outside the Hostile environment. The writes of the step functions may fail everywhere, with nothing stored.
- Interpreter.GateEquivalence: assumes that awaiting attempts have no effect and that steps do not depend on whether the gate is open; Gates.DefinitionTransparent proves this of both definitions.
- Gates.HumanMergeEqualsAutoMerge: the results of external calls are fixed per step, so it compares runs whose environment differs only in when the pull request is merged.
- GateSafety.ApprovalGate: only this workflow writes the cluster and its change sets; others may act on pull requests. A step is atomic with respect to them, also when two steps race.
- Approval.ChangeSetsClimb: for orderly runs; StatusOrder.StatusesClimbIff has the exact condition for the others.
- StatusOrder.StatusesClimbIff: of a provisioning run for which the pull request numbers, which are ints, are not used up.
- RowsTell.ReadyRowTells: of provisioning; the last row of an upgrade does not tell it (RowsTell.UpgradeTellsIff).
- Engine.Broker.Publish: at most one live subscriber; publishing to a cleared slot would call nil, and several subscribers would each handle every message.
- ClusterLifecycle.ClusterService.Provision: ends at the persisted row; the Enqueue that follows is Engine.Engine.Enqueue.
- A workflow's input, targets and requester, which the engine only passes on, and the audit events it emits.
- Error texts of the step functions are abbreviated, as are the numbers the upgrade placeholders report; clusters have at most one page of machines.
- WORKER_SCALE, which commits and waits through the same two functions as the upgrade, and the cluster deletion workflow.
- Idempotency.AtMostOnce: identifiers and tokens are fresh by assumption, here and in Election; UUID generation is not modelled.
- Election.Exclusion: one clock, Redis's, and a ttl that is a whole number of milliseconds. Clock drift between Redis and a replica's own timer is not modelled.
- Alerts.TableShowsHistory: the scheduler is the only writer, so acknowledged alerts do not occur; a failed read or write counts as an observation not made. The 500-cluster page, the 50-alert page and the cached Argo CD Application are not modelled.
- Rollback.Service.Rollback: a failing call leaves nothing behind, and nobody else writes between its calls; Rollback.RollbackOverMovedTrunk covers the one that matters, a moved trunk before the merge. Merge bases follow first parents.
- Deleting a path that the branch no longer has, which GitHub rejects, is treated as no change.
- The GitHub client's mapping of a missing file; Plan relies on the port's not-found contract.
- ListAlerts' generic filters, manifests as YAML text, and every adapter behind a port (HTTP, webhooks, Argo CD, Proxmox, Redfish, Vault, Talos), which would add wrappers only.
- A merge webhook that arrives before AWAITING_APPROVAL is written is rejected by Resume, so nothing is claimed about every merge being noticed.
- Timestamps other than fired_at, resolved_at, lease expiry and whether started_at and finished_at are set.
