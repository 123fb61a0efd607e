# RunStack control plane: a verified model

RunStack is a small container and job orchestrator. Its control plane keeps everything in memory: registries of
applications, deployments, instances, jobs, nodes, services, domains and ingresses; a loop that once a second
schedules jobs, reconciles instances, schedules instances and rebuilds the proxy's route table; and agents that
claim work and report on it at any moment. This project models that core and proves what it guarantees, mostly over
whole runs.

The registries, controllers and schedulers are classes whose methods change their fields step by step, each proved
against a specification function or relation; the laws are lemmas about those specifications. Where Go ranges over a
map, the model picks the next element arbitrarily, so what is proved holds for every iteration order.

| files | part of the system |
|---|---|
| `Ids`, `Nodes` | identifiers and their order, fresh ids, sorting; nodes |
| `Instances`, `Deployments`, `Applications` | the instance, deployment and application registries |
| `RolloutMath`, `RolloutController`, `TargetLaws` | rollout targets: arithmetic, imperative controller, laws about targets |
| `StrategyLaws`, `CrashLaws` | what a pass makes of each strategy, in numbers of instances; crash accounting and lost nodes over a pass |
| `Reconciler`, `PassLaws`, `Draining` | the instance reconciler, what one pass does, scaling under any drain period |
| `Rollouts`, `ManyOld`, `RollingRuns` | rolling updates over whole runs: from any number of old deployments, and from one |
| `ValidationLaws` | what the validation of specs rules out and lets through |
| `Routing`, `ControlPlane` | the routing reconciler; runs of reconcile, schedule and route with agents and operators in between |
| `Jobs`, `JobRuns` | the job registry; runs of all its operations |
| `Capacity`, `RoundRobin`, `InstanceScheduler`, `JobScheduler` | capacity table, cursor, and the two schedulers |
| `SchedulingLaws`, `JobSchedulingLaws`, `NoOvercommit` | what passes guarantee, alone and with agents interleaved |
| `LogBuffer` | the agent's crash-log buffer |
| `Sites`, `Networking`, `Apply` | domain ownership, the networking registries, declarative apply |
| `RollbackLaws` | two ways for an application to end up with nothing that serves |

`dafny verify dfyconfig.toml` checks everything.

## What the code does differently from what it says

These are results about the code as it is; each names the lemma that shows it.

- A rolling update with MaxSurge > 0 that starts with old instances never becomes COMPLETED, on any run, although the
  comment at `internal/scheduler/rollout_controller.go:251` wants no old instances at the end:
  `RollingRuns.SurgeNeverCompletes`, and `RollingRuns.CompletesIffNoSurge` for both directions.
- With the drain period the program ships with, instances that exist may exceed D + S, because draining ones still
  count: `RollingRuns.LiveTotalExceeds` at a state, `Rollouts.LiveTotalFits` for exactly when. Those that do not drain
  never do (`Rollouts.CeilingHolds`).
- With two or more old deployments the ready floor can break, because old targets go by deployment id and not by
  readiness: `Rollouts.FloorBreaks` at a state, `Rollouts.FloorHoldsIff` for exactly when. With one old deployment it
  holds on every run (`RollingRuns.RollingSafety`), and with several on every run that starts with all old instances
  ready and none draining (`ManyOld.SafetyFromMany`).
- The validation rule against rollouts without slack looks at one kind of strategy only, while every kind but the
  immediate one is rolled: an accepted spec can get stuck for good. `ValidationLaws.AcceptedIsLiveIff` says which
  accepted specs have slack, `ValidationLaws.UnslackNeverRolls` follows one that has none.
- Capacity can be overcommitted if an agent reports a status the program does not know and later RUNNING or STOPPING:
  `NoOvercommit.UnknownNameOvercommits` gives the whole family and says exactly when it ends badly,
  `NoOvercommit.OvercommitWitness` a state; `NoOvercommit.OnlyUnknownStatusesRevive` shows it is the only way, and
  `NoOvercommit.NeverOvercommitted` that nothing else does harm.
- An `Update` of a job that is answered with an error can still end the job, with no event and no result:
  `JobRuns.RejectedUpdateMoves` says exactly when, `JobRuns.ErrorEndsJob` what follows on every run.
- The job event log does not account for every `Update`: `JobRuns.UpdateReplays` says which ones it does, and
  `JobRuns.UpdateOutrunsLog` shows a move to RUNNING that it misses.
- A deployment made by apply carries neither replicas nor strategy, so the controller wants no instance of any
  deployment of the application: `RollbackLaws.AppliedWantsNothing`, `RollbackLaws.PassAfterApply`.
- Rolling back to a deployment whose instances are draining leaves them counted as active and ready, never replaced
  and never routed: `RollbackLaws.DrainingActiveStaysDark` on every run, `RollbackLaws.RollbackReachesDark` at a state,
  `RollbackLaws.DarkIff` for exactly when a pass leaves it so.
- A domain name that a manifest gives only in another spelling than it is stored under is created by one apply, removed
  by the next, and so on: `Sites.OtherSpellingFlaps`. `Sites.ApplyConverges` says exactly when an apply ends with the listed domains.
- `Jobs.Registry.Create` accepts resource arguments and drops them, as `internal/job/registry.go:24-35` does, so no job
  holds capacity in practice (`JobRuns.JobsAreWeightless`); the capacity laws are proved for jobs with any
  non-negative request.

## Model

| member | source | states |
|---|---|---|
| `RolloutMath.ComputePlan` | internal/scheduler/rollout_controller.go:223-278 | the step-by-step reassignments come to the closed form: old instances that exist, fit under D+S and are within S or needed for the floor; active ones up to D that fit, never fewer than exist |
| `RolloutMath.PlanIsGreatest` | internal/scheduler/rollout_controller.go:223-278 | a plan is the one computed if and only if it keeps the greatest number of old instances that fit and are within S or leave no more serving than the floor, and asks for the greatest number of active ones, up to D, that fit beside them, giving none up |
| `RolloutMath.PlanIsFixedPoint` | internal/scheduler/rollout_controller.go:231-278 | planning again once the counts meet the plan gives the same plan, for all parameters, negative ones included |
| `RolloutMath.GreedyIsExact` | internal/scheduler/rollout_controller.go:302-320 | shares add up to the total or to all there is, none exceeds what its deployment has, and after the first cut one every share is 0 |
| `RolloutMath.GreedyIsFixedPoint` | internal/scheduler/rollout_controller.go:302-320 | sharing the same total among deployments that hold their shares changes nothing |
| `RolloutMath.TickIsSafe` | internal/scheduler/rollout_controller.go:223-278 | the invariant with "active not yet ready plus floor fits under the ceiling" is kept by a pass of any drain period, which ends with at most D+S viable and at least max(0,D-U) ready, draining ones not counted |
| `RolloutMath.PlanFits` | internal/scheduler/rollout_controller.go:231-278 | the plan fits under D+S whatever was there before, as long as the active ones do |
| `RolloutMath.TickApproaches` | internal/scheduler/rollout_controller.go:223-278 | with all active instances ready a pass never moves away from active = D and old <= S, is idle there, and strictly lowers what is left to create, mark and stop as soon as all that drains is due |
| `RolloutMath.IdleIffSettled` | internal/scheduler/rollout_controller.go:223-278 | with slack and all active instances ready, the plan asks for what is there if and only if active = D and old <= S |
| `RolloutMath.DeadlockWithoutSlack` | internal/scheduler/rollout_controller.go:223-278 | with D old and no active instances, S = U = 0 and D >= 1 holds if and only if D >= 1 and the plan asks for exactly what is there: without slack the rollout is stuck, and only then |
| `RolloutMath.SurgeKeepsOld` | internal/scheduler/rollout_controller.go:255-266 | with S >= 1 no pass of any drain period removes the last old instance |
| `ValidationLaws.AcceptedIsLiveIff` | internal/application/validation.go:19-23 | an accepted, not immediate spec with S, U >= 0 has slack if and only if it is a rolling update, wants no replica, or has S + U > 0 |
| `ValidationLaws.UnslackIsAccepted` | internal/application/validation.go:5-47 | a spec of another kind with one replica and S = U = 0 passes the validation, defaults included, and is rolled without slack |
| `ValidationLaws.UnslackNeverRolls` | internal/scheduler/rollout_controller.go:91-98 | on every run, such an update of one ready old instance never gets an active instance and never completes |
| `RolloutController.CountAll` | internal/scheduler/rollout_controller.go:157-181 | one loop in any order yields the four sizes: active and old, viable and ready |
| `RolloutController.WantedBounds` | internal/scheduler/rollout_controller.go:100-141 | no wanted count is negative, and only an active deployment that is not degraded can be wanted at more than it has |
| `RolloutController.Controller.ComputeImmediateTarget` | internal/scheduler/rollout_controller.go:100-141 | the wanted counts and statuses written, for every deployment of the application; what they are is `StrategyLaws.ImmediateIsExact` and `StrategyLaws.ImmediateMarks` |
| `RolloutController.Controller.ComputeRollingTarget` | internal/scheduler/rollout_controller.go:152-339 | each deployment once with its wanted count; metrics and rollout statuses of exactly the application's deployments are written |
| `RolloutController.Controller.ComputeAppTarget` | internal/scheduler/rollout_controller.go:63-98 | a target exactly if the active deployment is one of the application's, by the strategy of the active one |
| `RolloutController.Controller.ComputeTargets` | internal/scheduler/rollout_controller.go:39-61 | every application with an active deployment is planned once, from the deployments as they were, in any order |
| `TargetLaws.OldAddsUp` | internal/scheduler/rollout_controller.go:173-181 | the old viable count is the sum over the old deployments |
| `TargetLaws.SharesAddUp` | internal/scheduler/rollout_controller.go:302-320 | over any number of old deployments the targets sum exactly to the old total and none exceeds its viable count |
| `TargetLaws.TargetsAreFixedPoint` | internal/scheduler/rollout_controller.go:231-320 | once all counts meet their targets, with active readiness unchanged, the active target and every old target come out the same again |
| `StrategyLaws.ImmediateWants` | internal/scheduler/rollout_controller.go:100-141 | an immediate deployment wants the replicas of its spec, or as many as it has when degraded; the others of the application want nothing |
| `StrategyLaws.ImmediateIsExact` | internal/scheduler/rollout_controller.go:100-141 | without a drain period a whole pass leaves an immediate deployment exactly its replicas, or what it had when degraded, and every other deployment of the application nothing |
| `StrategyLaws.ImmediateStays` | internal/scheduler/instance_reconciler.go:65-136 | the same for every drain period, counting the instances that do not drain |
| `StrategyLaws.DegradedRollingHolds` | internal/scheduler/rollout_controller.go:195-219 | a whole pass creates, drains and stops nothing of an application whose rolling update has a degraded active deployment |
| `StrategyLaws.RollingMarks` | internal/scheduler/rollout_controller.go:183-193 | the five metrics in numbers of instances, and the status: FAILED when degraded, PENDING to PROGRESSING, COMPLETED with all desired ready and no old one left |
| `StrategyLaws.ImmediateMarks` | internal/scheduler/rollout_controller.go:109-138 | an immediate deployment is COMPLETED at once, FAILED when degraded; what it replaces is ROLLED_BACK unless superseded or completed |
| `StrategyLaws.OldMarks` | internal/scheduler/rollout_controller.go:302-336 | an old deployment is ROLLED_BACK exactly when nothing viable is left of it, unless superseded or held |
| `Reconciler.InstanceReconciler.RecoverOrphanedInstances` | internal/scheduler/instance_reconciler.go:168-195 | every instance of an offline node becomes UNKNOWN, every one UNKNOWN for 5 minutes becomes CRASHED, no other changes |
| `Reconciler.InstanceReconciler.EvaluateHealthAndCrashes` | internal/scheduler/instance_reconciler.go:141-166 | unhealthy running instances end as CRASHED; crash counters are those of some visiting order, which matters |
| `Reconciler.HealthFoldLatches` | internal/scheduler/instance_reconciler.go:145-155 | no visiting order releases a degraded mark or changes a spec |
| `CrashLaws.CrashesCount` | internal/scheduler/instance_reconciler.go:141-166 | for every visiting order, with nothing recovering: every unhealthy running instance counts once, and the deployment is degraded if and only if it was or the crashes make five |
| `CrashLaws.RecoveryClears` | internal/scheduler/instance_reconciler.go:151-157 | with nothing failing the counter starts over if and only if a healthy instance that has run for a minute is visited |
| `CrashLaws.LatchClosesIff` | internal/deployment/registry.go:137-153 | over a whole pass: degraded afterwards if and only if degraded before, or crashes so far and running unhealthy instances on live nodes make five |
| `CrashLaws.LatchedGetsNothing` | internal/scheduler/rollout_controller.go:109-120 | from that very pass on the deployment gets no new instance |
| `CrashLaws.NothingFailing` | internal/scheduler/instance_reconciler.go:141-166 | after a pass nothing runs unhealthy; what did is CRASHED |
| `CrashLaws.LostButCounted` | internal/scheduler/instance_reconciler.go:168-195 | an instance of a lost node is UNKNOWN and goes on counting; recovery takes away exactly those that have been UNKNOWN for five minutes |
| `Reconciler.InstanceReconciler.ScaleUp` | internal/scheduler/instance_reconciler.go:85-95 | exactly the missing number of new PENDING instances, nothing else touched |
| `Reconciler.InstanceReconciler.ScaleDown` | internal/scheduler/instance_reconciler.go:97-134 | the victims are the first of the order draining, then not ready, then larger id; each is drained, and stopped once drained long enough |
| `Reconciler.InstanceReconciler.Reconcile` | internal/scheduler/instance_reconciler.go:51-139 | a pass recovers, evaluates, plans, and brings every targeted deployment to its target leaving all others alone |
| `PassLaws.PassRecords` | internal/scheduler/instance_reconciler.go:65-136 | no instance is lost in a pass; after recovery and health checks each is kept as it is or retired |
| `PassLaws.PassCreations` | internal/scheduler/instance_reconciler.go:85-95 | whatever is new is a fresh PENDING instance of a targeted deployment that had too few |
| `PassLaws.PassIsExact` | internal/scheduler/instance_reconciler.go:65-136 | with DrainTimeout <= 0 a pass leaves every targeted deployment at exactly its wanted number of viable instances |
| `PassLaws.ScaledSparesReady` | internal/scheduler/instance_reconciler.go:102-115 | a ready, non-draining instance is stopped only if every kept one of that deployment is ready and non-draining too |
| `PassLaws.ScaledKeepsReady` | internal/scheduler/instance_reconciler.go:82-134 | scaling to n keeps min(ready, n) ready instances |
| `PassLaws.ScaledKeepsSmallerId` | internal/scheduler/instance_reconciler.go:102-118 | between instances that drain alike and are ready alike the one with the smaller id is kept |
| `PassLaws.PassKeepsLifecycle` | internal/scheduler/instance_reconciler.go:51-139 | a pass keeps the lifecycle invariant and takes nothing back from any instance |
| `PassLaws.PassLatch` | internal/scheduler/rollout_controller.go:109-120 | a pass releases no degraded mark, and creates only for active deployments that are not degraded even after its own crash accounting |
| `Draining.VictimsAreFirst` | internal/scheduler/instance_reconciler.go:102-118 | which instances a pass gives up is known beforehand: those with fewer than that many before them in the order |
| `Draining.ScaledDown` | internal/scheduler/instance_reconciler.go:97-134 | for every drain period: min(not draining, n) stay, min(ready and not draining, n) of them serve, and n plus exactly those given up but not yet due are alive |
| `Draining.AllDueEmpties` | internal/scheduler/instance_reconciler.go:126-132 | once all that drains is due, max(not draining, n) are left alive, and n without a drain period |
| `Draining.ScaledDrains` | internal/scheduler/instance_reconciler.go:119-124 | new drain marks carry the instant of the pass, and none is set if as many stay as before |
| `Rollouts.PassScales` | internal/scheduler/instance_reconciler.go:65-136 | with nothing failing a pass scales every deployment of the application, however many, to what the plan and the shares ask of it |
| `Rollouts.PassKeeps` | internal/scheduler/instance_reconciler.go:51-139 | a pass keeps the rollout's shape and moves the rollout status as the counts say |
| `Rollouts.EditCarries` | internal/instance/registry.go:73-211 | scheduling and claiming are steps between passes; a report of RUNNING is one if and only if the instance counted before and goes on serving if it served |
| `Rollouts.EditIsAgentStep` | internal/instance/registry.go:113-211 | such an edit of the registry is a step of the runs below |
| `Rollouts.AgentsProgress` | internal/instance/registry.go:141-211 | between passes viable and staying counts stay and ready counts only grow |
| `Rollouts.OldAfterPass` | internal/scheduler/rollout_controller.go:302-320 | over any number of old deployments at most the planned old total stays, and exactly that total plus what lingers is alive |
| `Rollouts.CeilingHolds` | internal/scheduler/rollout_controller.go:223-278 | over any number of old deployments, for every drain period, every pass of every run leaves at most D+S instances that are viable and not draining |
| `Rollouts.LiveTotalFits` | internal/scheduler/instance_reconciler.go:126-132 | the live total after a pass is what it asks for plus those it gives up without stopping, so it is within D+S if and only if those, known beforehand, fit |
| `Rollouts.NothingLingers` | internal/scheduler/instance_reconciler.go:126-132 | without a drain period live totals are exactly what the plan asks for |
| `Rollouts.FloorHoldsIff` | internal/scheduler/rollout_controller.go:302-320 | over any number of old deployments, a pass leaves max(0,D-U) ready and not draining if and only if the active ready ones and what each share spares are that many |
| `Rollouts.FloorBreaks` | internal/scheduler/rollout_controller.go:298-320 | with a starting instance in the old deployment that comes first and the only ready one in the next, every pass gives up the ready one although the floor is 1 |
| `Rollouts.BreakFloor` | internal/scheduler/instance_reconciler.go:51-139 | a pass that does so can be run from that state |
| `Rollouts.RunPass` | internal/scheduler/instance_reconciler.go:51-139 | from every well-keyed state a pass can be run |
| `ManyOld.SafetyFromMany` | internal/scheduler/rollout_controller.go:152-320 | from any number of old deployments, for every drain period: if at the start all old instances are ready and none drains, every state of every run has max(0,D-U) ready and not draining, and every pass ends with at most D+S viable and not draining |
| `ManyOld.AlignedTicks` | internal/scheduler/rollout_controller.go:302-320 | while all that stays serves and is a cut of what there is, a pass over any number of old deployments is a tick of the arithmetic and leaves such a cut |
| `ManyOld.GreedyAgain` | internal/scheduler/rollout_controller.go:302-320 | cutting what a cut left over, leftovers that linger included, to the same total gives the same shares |
| `RollingRuns.PassTicks` | internal/scheduler/instance_reconciler.go:51-139 | refinement: with one previous deployment and nothing failing, a pass of any drain period over the registries is a tick of the arithmetic, rollout status included |
| `RollingRuns.RollingSafety` | internal/scheduler/rollout_controller.go:152-278 | in every run, for every drain period, from a full previous version and no active instance: ready and not draining instances never fall below max(0,D-U), and every pass ends with at most D+S viable and not draining |
| `RollingRuns.SurgeNeverCompletes` | internal/scheduler/rollout_controller.go:255-266 | on every run, with S >= 1 and an old instance, one is left in every state and COMPLETED is never reached |
| `RollingRuns.RollingConverges` | internal/scheduler/rollout_controller.go:223-278 | for every drain period: if active instances come up between passes, after D + old (plus old not yet draining, when there is a period) stretches of that length active = D and old <= S, draining ones included, for good |
| `RollingRuns.LapFalls` | internal/scheduler/instance_reconciler.go:117-133 | a stretch of passes that lasts the drain period strictly lowers the measure unless settled, wherever in it the marks were set |
| `RollingRuns.CompletesIffNoSurge` | internal/scheduler/rollout_controller.go:328-336 | given such stretches and two more passes, the rollout is COMPLETED if and only if S = 0 or there was no old instance, for every drain period |
| `RollingRuns.DrainKeepsAlive` | internal/scheduler/instance_reconciler.go:126-132 | with a drain period all old instances that were staying are alive after the pass, beside the new ones |
| `RollingRuns.LiveTotalExceeds` | internal/scheduler/instance_reconciler.go:47-134 | one ready old instance, one replica, S = 0 and U = 1: every pass with a drain period leaves two instances alive where D+S is 1 |
| `RollingRuns.Overshoot` | internal/scheduler/instance_reconciler.go:51-139 | such a pass can be run |
| `RollingRuns.StuckForever` | internal/scheduler/rollout_controller.go:223-278 | without slack, on every run from a full old version: no active instance ever, no old one lost, never COMPLETED |
| `Instances.Registry.Create` | internal/instance/registry.go:33-47 | one new PENDING record under an unused id |
| `Instances.Registry.UpdateState` | internal/instance/registry.go:73-111 | fails exactly for unknown and terminal instances; otherwise the whole new table |
| `Instances.Registry.Claim` | internal/instance/registry.go:113-139 | succeeds exactly for ASSIGNED, or UNKNOWN never claimed, on the caller's node; then STARTING with a new execution id |
| `Instances.Registry.ReportStatus` | internal/instance/registry.go:141-211 | accepted exactly from the holding node and execution with a status an agent may report, terminal ones only repeated; the whole new table, as `Instances.ReportTakesOver` tells |
| `Instances.Registry.MarkUnknown` | internal/instance/registry.go:213-234 | UNKNOWN with its first instant, unless terminal |
| `Instances.Registry.MarkDraining` | internal/instance/registry.go:236-257 | drain mark with its first instant, unless terminal |
| `Instances.ReportTakesOver` | internal/instance/registry.go:154-211 | a report leaves its status, a health that is told, the first container id, ports that are new, and the first instants of running and ending; repeated, it only fills in what was missing |
| `Instances.StateTakesOver` | internal/instance/registry.go:85-111 | a change by the control plane writes the status, a node and container id that are given, and the first instants; nothing else |
| `Instances.WhatCounts` | internal/scheduler/instance_reconciler.go:197-206 | viable: from PENDING to RUNNING and UNKNOWN; ready: RUNNING and healthy |
| `Instances.EditKeepsLifecycle` | internal/instance/registry.go:73-257 | every edit a caller makes keeps: STARTING or RUNNING has node and execution, RUNNING has a start time, a stop time exactly when terminal, drain mark and time together |
| `Instances.RunKeepsLifecycle` | internal/api/instance.go:29-126 | over every run of creations and callers' edits: execution id, node, drain mark and start time are written once, STOPPED and CRASHED are final |
| `Deployments.DeploymentRegistry.Create` | internal/deployment/registry.go:38-71 | a new ACTIVE record with the next version of its application |
| `Deployments.DeploymentRegistry.RecordCrash` | internal/deployment/registry.go:137-153 | one crash more, degraded if and only if it was or the threshold is reached; nothing else changes |
| `Deployments.DeploymentRegistry.ResetCrashCounter` | internal/deployment/registry.go:155-170 | clears the counter, never the latch |
| `Deployments.DeploymentRegistry.UpdateRolloutStatus` | internal/deployment/registry.go:172-190 | metrics, status and reason of one record; the latch stays |
| `Deployments.DeploymentRegistry.UpdateRolloutStatusOnly` | internal/deployment/registry.go:192-206 | status and reason of one record; the latch stays |
| `Routing.RoutingReconciler.Reconcile` | internal/scheduler/routing_reconciler.go:47-152 | the proxy gets one rule per routable ingress with one endpoint per eligible instance, in any order; what an endpoint is, is `Routing.EndpointsTell` |
| `Routing.OnlyEligibleRouted` | internal/scheduler/routing_reconciler.go:104-137 | a routed instance is running, healthy and not draining |
| `Routing.EligibleIsRouted` | internal/scheduler/routing_reconciler.go:81-144 | for every ingress of its service, a rule with that ingress's host and path has the endpoint of every eligible instance |
| `Routing.HostPortIsFirst` | internal/scheduler/routing_reconciler.go:123-135 | the host port is the external port of the first mapping with the wanted internal port, 0 without one |
| `Routing.EndpointsTell` | internal/scheduler/routing_reconciler.go:81-144 | every endpoint of the table stands for a running, healthy, not draining instance of the ingress's application, at its node's address and the external port of its first mapping of the service's port, under the name and path of the ingress |
| `Routing.WhatTellsIsRouted` | internal/scheduler/routing_reconciler.go:81-144 | conversely, whatever can be such an endpoint is one |
| `ControlPlane.RunIsSound` | cmd/runstack/cp.go:143-166 | in every run of whole ticks with agent and operator steps anywhere: lifecycle, anchoring to deployments, and after routing nothing that drains is routed |
| `ControlPlane.RunOnlyEvolves` | cmd/runstack/cp.go:143-166 | over a whole run no instance takes anything back and no degraded mark is released |
| `ControlPlane.DrainBeforeStop` | internal/scheduler/instance_reconciler.go:117-133 | with a positive DrainTimeout, what the reconciler stops has been draining at least that long, is not in the route table, and is never routed again |
| `ControlPlane.NeverRoutedAgain` | internal/scheduler/routing_reconciler.go:104-137 | a draining instance that is out of the table stays out, whatever an agent reports |
| `ControlPlane.DrainWasMarked` | internal/instance/registry.go:236-257 | a drain time is the instant of an earlier reconcile pass that found the instance not draining |
| `ControlPlane.CrashLoopLatch` | internal/deployment/registry.go:137-168 | once degraded a deployment stays so and never gets another instance, active, superseded or rolled back to |
| `ControlPlane.AppService.RollbackApp` | internal/service/app_service.go:88-123 | succeeds if and only if the deployment is the application's and, when degraded or failed, force is given; then the former active one is superseded and the target active with a rollout to begin, nothing else changes, and no latch is released |
| `RollbackLaws.CreatesIffShort` | internal/scheduler/rollout_controller.go:268-278 | a pass creates for the active deployment if and only if it has fewer viable instances, draining ones counted, than it may have |
| `RollbackLaws.DrainingActiveStaysDark` | internal/service/app_service.go:88-123 | on every run: passes go on counting an active deployment made of enough draining instances as viable and ready, never give it another one, and no route table ever has one of its instances |
| `RollbackLaws.DarkIff` | internal/scheduler/rollout_controller.go:268-278 | a pass leaves the active deployment made of draining instances only if and only if it was so before and has as many as it may have |
| `RollbackLaws.RollbackReachesDark` | internal/service/app_service.go:88-123 | the deployments after a rollback to a deployment whose one ready instance is draining, one replica wanted: that state meets the hypotheses |
| `RollbackLaws.AppliedWantsNothing` | internal/manifest/manifest.go:119-150 | while a manifest's deployment is active and not degraded the wanted count of every deployment of the application is 0 |
| `RollbackLaws.PassAfterApply` | internal/scheduler/rollout_controller.go:100-141 | so a pass leaves none that does not drain, and none at all without a drain period |
| `Jobs.Registry.Create` | internal/job/registry.go:24-42 | a PENDING job under an unused id with its CREATED event |
| `Jobs.Registry.Update` | internal/job/registry.go:104-166 | succeeds exactly for a permitted move and, when it writes node, start time or result, for a job that is or becomes assigned; the fields written, and the moves it makes even when answered with an error |
| `Jobs.Registry.Claim` | internal/job/registry.go:168-199 | succeeds exactly for ASSIGNED on the caller's node, counts the attempt, with a new execution id and event |
| `Jobs.Registry.ReportResult` | internal/job/registry.go:201-268 | from the holder, exit code 0 is SUCCEEDED, any other PENDING while a retry is left and FAILED after; each with its result, times and event; from anyone else nothing changes |
| `Jobs.Registry.RecoverExecutionTimeouts` | internal/job/registry.go:272-328 | exactly the overdue running jobs are retried or failed, and counted, in any order |
| `Jobs.Registry.RecoverNodeJobs` | internal/job/registry.go:332-386 | exactly the node's assigned and running jobs are retried or failed, and counted, in any order |
| `JobRuns.StepIsMethod` | internal/job/registry.go:24-386 | the step of the run model is what the registry's methods do |
| `JobRuns.RunIsGood` | internal/job/registry.go:24-386 | budget and fencing hold in every state of every run of all operations, arbitrary updates included |
| `JobRuns.RetryBudget` | internal/job/registry.go:186-374 | attempts are the CLAIMED events and at most MaxRetries+1, waiting jobs have a retry left, and losing the node of an ASSIGNED job never fails it |
| `JobRuns.JobsAreWeightless` | internal/job/registry.go:24-35 | no reachable job has a CPU or memory request |
| `JobRuns.TerminalFrozen` | internal/job/registry.go:104-386 | of a finished job only the completion time can change and its log is final; every log only grows |
| `JobRuns.ExecutionsAreFenced` | internal/job/registry.go:168-268 | each execution id is opened by at most one CLAIMED event of one job, exactly one while current, and closed at most once, by that job |
| `JobRuns.StaleReportsAreInert` | internal/job/registry.go:201-268 | once an execution is closed or replaced, no report carrying it, for any job, from any node, ever after, changes the registry |
| `JobRuns.ReportCounts` | internal/job/registry.go:211-232 | a report changes something if and only if node and execution hold the running job |
| `JobRuns.ExitCodeDecides` | internal/job/registry.go:234-261 | on every recorded run a finished job has a result, and it is SUCCEEDED if and only if its exit code is 0 |
| `JobRuns.EventsAreStamped` | internal/job/registry.go:66-80 | every new event carries the instant of its operation |
| `JobRuns.LogReplays` | internal/job/registry.go:66-80 | in every run whose updates the log accounts for, events chain from status to status and folding them gives status, node, execution and attempts |
| `JobRuns.UpdateReplays` | internal/job/registry.go:104-166 | an update keeps the log telling if and only if it moves the status nowhere but to ASSIGNED and does not hand an assigned job to another node |
| `JobRuns.SchedulerIsRecorded` | internal/scheduler/scheduler.go:113-116 | the scheduler's update always is one of those, and succeeds |
| `JobRuns.UpdateOutrunsLog` | internal/job/registry.go:130-162 | moving any assigned job to RUNNING through update leaves its log at ASSIGNED |
| `JobRuns.AssignedReplays` | internal/job/registry.go:160-162 | an assignment by the scheduler keeps the log telling |
| `JobRuns.RejectedUpdateMoves` | internal/job/registry.go:113-145 | an update answered with an error changes the job if and only if it asks to end a running job and to write node, start time or result; then the status moves and nothing else |
| `JobRuns.ErrorEndsJob` | internal/job/registry.go:130-137 | on every run such a job is finished for good with the result and log it had, and no report is heard any more |
| `JobRuns.ErrorCanEnd` | internal/job/registry.go:130-137 | every running job of every run can be ended so |
| `JobRuns.RunningIsReachable` | internal/job/registry.go:24-199 | running jobs without a result are reachable for every id, node and execution |
| `Capacity.CalculateAll` | internal/scheduler/node_capacity.go:32-81 | the table is capacity minus all consuming instances and jobs, for listed nodes and for any other something sits on |
| `Capacity.DeductInAnyOrder` | internal/scheduler/node_capacity.go:49-78 | with exact arithmetic the table is the same along every enumeration |
| `Capacity.ReservedShrinks` | internal/scheduler/node_capacity.go:83-100 | fewer loads never reserve more, when none is negative |
| `Capacity.HeldAmounts` | internal/scheduler/node_capacity.go:49-78 | an instance holds, on its node, what the spec of its deployment names, if it names anything; a job its own request |
| `Capacity.HoldingStatuses` | internal/scheduler/node_capacity.go:83-100 | exactly ASSIGNED, STARTING, RUNNING, UNKNOWN and STOPPING instances and ASSIGNED and RUNNING jobs hold capacity |
| `Capacity.WholeMebibytes` | internal/scheduler/node_capacity.go:34-39 | a node offers its cores and its memory in whole mebibytes, rounded down |
| `RoundRobin.PickNode` | internal/scheduler/instance_scheduler.go:85-99 | the least eligible id beyond the cursor, else the least, stated on the ids themselves |
| `RoundRobin.NextIsSuccessor` | internal/scheduler/instance_scheduler.go:89-99 | over a fixed set the cursor moves to the cyclic successor in id order |
| `RoundRobin.RoundRobinIsFair` | internal/scheduler/instance_scheduler.go:85-105 | in any window of assignments over a fixed eligible set, from any cursor, two nodes differ by at most one |
| `InstanceScheduler.Scheduler.AssignTurn` | internal/scheduler/instance_scheduler.go:58-112 | one pending instance: skipped, marked short of capacity, or assigned with cursor and cache moved |
| `InstanceScheduler.Scheduler.SchedulePendingInstances` | internal/scheduler/instance_scheduler.go:28-116 | the outcome of a pass is a function of registries and cursor: pending instances in id order; no listing order enters |
| `SchedulingLaws.CacheIsExact` | internal/scheduler/instance_scheduler.go:107-111 | at the end of a pass the deducted table equals a fresh computation on every node |
| `SchedulingLaws.WorkConserving` | internal/scheduler/instance_scheduler.go:58-113 | an instance still pending after a pass, with a deployment, fits on no online node under what is left |
| `SchedulingLaws.WaitingFitsNowhereOnline` | internal/scheduler/instance_scheduler.go:71-83 | in numbers: for what is left waiting every node that is online lacks cores or memory |
| `SchedulingLaws.PassPlacesOnline` | internal/scheduler/instance_scheduler.go:28-112 | a pass assigns pending instances only, to online nodes only, and changes nothing else of an instance |
| `SchedulingLaws.SmallerIdFirst` | internal/scheduler/instance_scheduler.go:46-56 | of two pending instances that ask for the same, the one with the larger id is not assigned while the other waits |
| `SchedulingLaws.TurnReasons` | internal/scheduler/instance_scheduler.go:79-106 | a turn marks the deployment short of capacity exactly if the instance is left waiting, and clears the mark otherwise |
| `SchedulingLaws.PassWalks` | internal/scheduler/instance_scheduler.go:85-105 | while the eligible nodes stay the same a pass walks them cyclically and leaves the cursor where the next goes on |
| `SchedulingLaws.PassIsFair` | internal/scheduler/instance_scheduler.go:85-105 | such a pass gives no node two more than another |
| `SchedulingLaws.TicksAreFair` | internal/scheduler/instance_scheduler.go:85-105 | the same over any number of ticks, whatever changes between them, because the cursor is kept |
| `SchedulingLaws.PassIsScheduleStep` | internal/scheduler/instance_scheduler.go:28-116 | a pass is the schedule step of the control-plane runs |
| `JobScheduler.Scheduler.RecoverLostNodes` | internal/scheduler/scheduler.go:42-50 | the jobs of every node offline beyond the grace period are given back once, in any node order |
| `JobScheduler.RecoveredSays` | internal/scheduler/scheduler.go:42-50 | no job stays with a node that has been offline for the grace period: it waits again, or fails without a retry; no other job is touched |
| `JobScheduler.Scheduler.SchedulePendingJobs` | internal/scheduler/scheduler.go:33-130 | recovery, then pending jobs oldest first against a fresh table; jobs of equal age in any order |
| `JobSchedulingLaws.JobCacheIsExact` | internal/scheduler/scheduler.go:118-126 | the deducted table of a job pass equals a fresh computation at its end |
| `JobSchedulingLaws.JobsWorkConserving` | internal/scheduler/scheduler.go:79-127 | a job still pending after a pass fits on no online node under what is left |
| `JobSchedulingLaws.OlderJobFirst` | internal/scheduler/scheduler.go:64-77 | of two jobs that ask for the same, the younger is not assigned while the older waits |
| `JobSchedulingLaws.JobHoldsThroughout` | internal/scheduler/node_capacity.go:65-78 | between assignment and end a job holds the same amount on the same node |
| `JobSchedulingLaws.JobGivesBack` | internal/scheduler/node_capacity.go:65-78 | ending a job or giving it back returns exactly its request on its node |
| `JobSchedulingLaws.JobPassIsFair` | internal/scheduler/scheduler.go:96-120 | over a steady set of eligible nodes no node gets two more jobs than another |
| `JobSchedulingLaws.JobTicksAreFair` | internal/scheduler/scheduler.go:96-120 | the same over any number of ticks, whatever recoveries and reports come between them, because the cursor is kept |
| `JobSchedulingLaws.TurnIsRecordedUpdate` | internal/scheduler/scheduler.go:113-116 | a turn is nothing or one update the event log accounts for |
| `JobSchedulingLaws.PassReplays` | internal/scheduler/scheduler.go:33-130 | if every log tells its job's state before a whole pass, recovery included, it does after |
| `NoOvercommit.NeverOvercommitted` | internal/scheduler/instance_scheduler.go:44-113 | in every run of passes with claims, reports, recovery, drains and creations between snapshot, listing and each assignment, what is reserved on a node never exceeds its capacity, unless a report of RUNNING or STOPPING revives an instance in a status the program does not know |
| `NoOvercommit.EmptyStart` | internal/scheduler/node_capacity.go:32-39 | a control plane that has just started meets the invariant such runs begin with |
| `NoOvercommit.TurnIsAssignment` | internal/scheduler/instance_scheduler.go:71-112 | a turn of the instance scheduler that finds a node is an assignment of that machine |
| `NoOvercommit.JobTurnIsAssignment` | internal/scheduler/scheduler.go:83-126 | so is a turn of the job scheduler |
| `NoOvercommit.OnlyUnknownStatusesRevive` | internal/instance/registry.go:141-211 | outside the scheduler an instance starts to hold capacity if and only if its status was unknown to the program and RUNNING or STOPPING is reported |
| `NoOvercommit.UnknownNameOvercommits` | internal/instance/registry.go:154-187 | for a name outside the eight constants: both reports are accepted, after the first the node has its request back and is eligible for another instance exactly if that fits there, and the node ends within capacity if and only if both had fitted side by side |
| `NoOvercommit.OvercommitWitness` | internal/instance/registry.go:154-187 | a node of one core, one instance that fills it and one waiting: within the invariant before, overcommitted after |
| `LogBuffer.JoinOfSplit` | internal/executor/log_buffer.go:71 | joining the lines of a text gives the text back; no line holds a newline |
| `LogBuffer.SplitOfJoin` | internal/executor/log_buffer.go:71 | newline-free lines are the lines of their text |
| `LogBuffer.TailLines` | internal/executor/log_buffer.go:66-82 | of the lines of the first 1048576 bytes the last 500, less one empty last line, with their byte count |
| `LogBuffer.LogRingBuffer.Evict` | internal/executor/log_buffer.go:103-111 | the eviction loop keeps the longest newest part that leaves room, with the total exact |
| `LogBuffer.LogRingBuffer.Freeze` | internal/executor/log_buffer.go:95-118 | nothing for a known instance; otherwise that part with the record appended |
| `LogBuffer.LogRingBuffer.CaptureAndFreeze` | internal/executor/log_buffer.go:48-118 | one capture freezes the kept tail of the output, or changes nothing without output |
| `LogBuffer.LogRingBuffer.Get` | internal/executor/log_buffer.go:120-135 | the lines, exactly for the owning application and execution, or any execution when none is named |
| `LogBuffer.RunIsGood` | internal/executor/log_buffer.go:95-118 | under any interleaving of captures: order without duplicates and equal to the keys, sizes summing to at most 50 MiB |
| `LogBuffer.RunIsWindow` | internal/executor/log_buffer.go:103-117 | the buffer is always exactly the newest part of what was stored, in order and unchanged |
| `LogBuffer.RecordsAreFrozen` | internal/executor/log_buffer.go:98-101 | a record stays as it is for as long as it stays |
| `LogBuffer.CutUnique` | internal/executor/log_buffer.go:103-111 | eviction has one outcome |
| `LogBuffer.CutInNumbers` | internal/executor/log_buffer.go:103-111 | what eviction keeps leaves room within 52428800 bytes, and one record more would not |
| `Networking.DomainRegistry.Create` | internal/ingress/domain.go:57-86 | succeeds exactly for a new non-empty normalised name (`Sites.NormalForm`, `Sites.CaseDoesNotMatter`); keeps names and domains a two-way index |
| `Networking.DomainRegistry.GetByName` | internal/ingress/domain.go:99-116 | finds the domain exactly under its normalised name |
| `Networking.DomainRegistry.Delete` | internal/ingress/domain.go:143-155 | removes domain and name together |
| `Networking.IngressRegistry.Create` | internal/ingress/ingress.go:31-54 | refused exactly if domain and path are taken; keeps them unique |
| `Applications.AppRegistry.Create` | internal/application/registry.go:35-62 | refused exactly for a taken name or an invalid spec; an omitted strategy is stored as a rolling update with surge and unavailable 1, anything else as given |
| `Applications.AppRegistry.Update` | internal/application/registry.go:86-108 | spec with defaults, active deployment and status, exactly if known and valid |
| `Sites.NormalizeIsNotIdempotent` | internal/ingress/domain.go:53-55 | normalising "a.." twice is not the same as once |
| `Sites.NormalForm` | internal/ingress/domain.go:53-55 | a normalised name is the name without its outer spaces, in lower case, less one final dot |
| `Sites.NormalIsLower` | internal/ingress/domain.go:53-55 | it has no capital letter |
| `Sites.CaseDoesNotMatter` | internal/ingress/domain.go:53-55 | names that differ in case only normalise to one name |
| `Sites.OtherCaseIsRefused` | internal/api/apply.go:112-137 | a list with a name that another application owns, in any case of its letters, is refused |
| `Sites.ApplySucceeds` | internal/api/apply.go:112-165 | the domain part succeeds if and only if every listed name is non-empty when normalised and not another application's |
| `Sites.ApplyIsolates` | internal/api/apply.go:111-187 | no apply, successful or aborted, creates, changes or removes another application's domain |
| `Sites.ApplyOutcome` | internal/api/apply.go:104-187 | the exact set of names owned after a successful apply, for any spelling |
| `Sites.ApplyConverges` | internal/api/apply.go:104-187 | that set is the listed names if and only if each listed name owned before is spelled as stored in the list, and each owned name spelled so is what some entry normalises to |
| `Sites.ApplyTwice` | internal/api/apply.go:104-187 | with distinct names in stored spelling, flags are as listed and a second apply changes nothing |
| `Sites.OtherSpellingFlaps` | internal/api/apply.go:114-169 | for any accepted list and any name it gives only in other spellings: owned after an apply if and only if it was not before, so every apply flips it |
| `Apply.ToDeploymentSpec` | internal/manifest/manifest.go:119-150 | every secret stands for itself, every other name has the value of its last entry, there is no other name; image, command, arguments and resources are taken over, replicas and strategy are not |
| `Apply.Handler.EnsureService` | internal/api/apply.go:71-101 | the application's only service, found or created, with the port; reports a change exactly if there was one |
| `Apply.Handler.EnsureIngress` | internal/api/apply.go:139-158 | the domain has its one ingress to the service; untouched if it had |
| `Apply.Handler.MapDomains` | internal/api/apply.go:111-165 | the list in order up to the first refusal, as the site table says, every mapped domain with its ingress |
| `Apply.Handler.PruneDomains` | internal/api/apply.go:167-187 | exactly the former domains not listed as stored are removed with their ingresses |
| `Apply.Handler.ApplyNetwork` | internal/api/apply.go:71-187 | outcome as the site table says; in place afterwards, and nothing changes if it was in place before |
| `Apply.Handler.ChooseDeployment` | internal/api/apply.go:189-239 | the application's deployment of that hash, reused or created, at most one per hash |
| `Apply.Handler.Apply` | internal/api/apply.go:31-255 | convergence: a successful apply leaves everything in place; idempotence: repeating it answers unchanged and changes nothing; isolation: whatever the outcome nothing of another application changes; a refused one creates no deployment |

## Left out

- Interleaving inside one reconcile pass, one routing pass or one apply: these run as one step; interleaving is modelled between steps, and inside scheduler passes and log captures.
- Failing instances during a rollout: the runs of `Rollouts` and `RollingRuns` have none.
- Clock readings: a pass reads the clock once, where the source reads it again for each record it writes.
- RollingRuns.RollingSafety: with unready old instances the floor is for one previous deployment (`ManyOld.SafetyFromMany` and `Rollouts.FloorHoldsIff` are for several); it needs S, U >= 0, which `internal/application/validation.go:19-23` does not enforce.
- Reconciler.InstanceReconciler.Reconcile: takes replica counts as non-negative, as `internal/application/validation.go:15-17` makes them.
- Floating point: CPU amounts are reals; `float64` sums depend on the order.
- Random ids and SHA-256: generated ids are new and non-empty; the spec hash is any function, assumed non-empty where an apply converges.
- Apply.Handler.Apply: keeps at most one ingress per domain, one service per application and one deployment per hash, which holds in runs of apply alone; other API calls can break it.
- Sites.NormalizeIsNotIdempotent: normalisation lowers ASCII letters and trims the spaces below U+0100 only, not all of Unicode.
- Job statuses outside the five names: the registry refuses them as transitions and the model has no such value.
- Error texts and event reasons: kept as values, not as formatted strings; event ids are their position.
- Endpoints also remember their instance, which the proxy's table does not; it is what lets routing be stated.
- Listing instances twice in a degraded immediate rollout: the controller counts the same listing.
- Manifest probes: they carry no type, so the application update fails validation; the model has no probes.
- HTTP handlers, JSON, YAML, the CLI, clients and authentication: only the guards the registries rely on are kept.
- Docker runtime, agent loops, prober and port allocator: agents are arbitrary claims and reports.
- Certificates and ACME, request serving by the proxy, PostgreSQL, secrets storage, deep copies: plumbing or easy members.
- Creating and updating applications through the application service: registry calls in sequence; only rollback matters for the latch.
- Node registration and heartbeats: node capacities and states are inputs of each pass.
