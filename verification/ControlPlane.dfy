/** Whole runs of the control plane: reconcile, schedule, route, again and again, with agent calls and
    operator commands falling anywhere in between. */
module ControlPlane {
  import opened Ids
  import opened Instances
  import opened Deployments
  import opened RolloutController
  import opened Reconciler
  import opened PassLaws
  import opened Routing

  /** What the tick does next. */
  datatype Phase = ToReconcile | ToSchedule | ToRoute

  datatype State = State(instances: Table, deployments: DeploymentTable, apps: AppTable, routes: seq<RouteRule>, phase: Phase)

  // ----- steps

  ghost predicate ReconcileStep(s: State, s': State, drainTimeout: Time, now: Time) {
    && s.phase.ToReconcile? && s' == s.(instances := s'.instances, deployments := s'.deployments, phase := ToSchedule)
    && exists online :: Pass(s.instances, s.deployments, s'.instances, s'.deployments, s.apps, online, drainTimeout, now)
  }

  /** Pending instances are handed to nodes; the scheduler also writes rollout bookkeeping. */
  ghost predicate ScheduleStep(s: State, s': State, now: Time) {
    && s.phase.ToSchedule? && s' == s.(instances := s'.instances, deployments := s'.deployments, phase := ToRoute)
    && s'.instances.Keys == s.instances.Keys
    && (forall id :: id in s.instances ==>
          s'.instances[id] == s.instances[id]
          || exists node :: Allowed(s.instances[id], Schedule(node)) && s'.instances[id] == Edited(s.instances[id], Schedule(node), now))
    && Kept(s.deployments, s'.deployments) && s'.deployments.Keys == s.deployments.Keys
  }

  ghost predicate RouteStep(s: State, s': State) {
    && s.phase.ToRoute? && s' == s.(routes := s'.routes, phase := ToReconcile)
    && exists c :: IsRouteTable(s'.routes, c, s.instances)
  }

  /** An agent's claim or report, or a claim that fails on a missing secret. */
  ghost predicate AgentStep(s: State, s': State, id: Id, edit: Edit, now: Time) {
    && id in s.instances && (edit.ClaimBy? || edit.Report? || edit.SecretMissing?)
    && Allowed(s.instances[id], edit)
    && s' == s.(instances := s.instances[id := Edited(s.instances[id], edit, now)])
  }

  /** Deployments are created, superseded, rolled back to, or record a crash; applications change their
      active deployment as they like. */
  ghost predicate OperatorStep(s: State, s': State) {
    && s' == s.(deployments := s'.deployments, apps := s'.apps)
    && Kept(s.deployments, s'.deployments) && AppsKeyed(s'.apps)
  }

  ghost predicate Kept(deps: DeploymentTable, deps': DeploymentTable) {
    TableLatched(deps, deps') && Deployments.WellKeyed(deps') && SpecsValidated(deps')
  }

  datatype Step =
    | DoReconcile(drainTimeout: Time, at: Time)
    | DoSchedule(at: Time)
    | DoRoute
    | DoAgent(id: Id, edit: Edit, at: Time)
    | DoOperator

  ghost predicate StepOf(s: State, s': State, step: Step) {
    match step
    case DoReconcile(drainTimeout, at) => ReconcileStep(s, s', drainTimeout, at)
    case DoSchedule(at) => ScheduleStep(s, s', at)
    case DoRoute => RouteStep(s, s')
    case DoAgent(id, edit, at) => AgentStep(s, s', id, edit, at)
    case DoOperator => OperatorStep(s, s')
  }

  /** The drain period is fixed for a run. */
  ghost predicate RunOf(run: seq<State>, steps: seq<Step>, drainTimeout: Time) {
    && |run| == |steps| + 1 && Sound(run[0])
    && forall k {:trigger steps[k]} :: 0 <= k < |steps| ==>
         && StepOf(run[k], run[k + 1], steps[k])
         && (steps[k].DoReconcile? ==> steps[k].drainTimeout == drainTimeout)
  }

  // ----- the invariant

  ghost predicate Anchored(m: Table, deps: DeploymentTable) {
    forall id :: id in m ==> m[id].deploymentId in deps && deps[m[id].deploymentId].applicationId == m[id].applicationId
  }

  /** Between a routing step and the next reconcile pass, nothing that drains is routed. */
  ghost predicate Unrouted(s: State) {
    s.phase.ToReconcile? ==> forall id :: id in s.instances && s.instances[id].draining ==> !Routed(s.routes, id)
  }

  ghost predicate Sound(s: State) {
    && AllLifecycle(s.instances) && Anchored(s.instances, s.deployments)
    && Deployments.WellKeyed(s.deployments) && SpecsValidated(s.deployments) && AppsKeyed(s.apps)
    && Unrouted(s)
  }

  lemma AnchoredLatched(m: Table, deps: DeploymentTable, deps': DeploymentTable)
    requires Anchored(m, deps) && TableLatched(deps, deps')
    ensures Anchored(m, deps')
  {
    forall id | id in m
      ensures m[id].deploymentId in deps' && deps'[m[id].deploymentId].applicationId == m[id].applicationId
    {
      assert Latched(deps[m[id].deploymentId], deps'[m[id].deploymentId]);
    }
  }

  lemma AnchoredEvolves(m: Table, m': Table, deps: DeploymentTable)
    requires Anchored(m, deps) && TableEvolves(m, m')
    requires forall id :: id in m' && id !in m ==>
               m'[id].deploymentId in deps && deps[m'[id].deploymentId].applicationId == m'[id].applicationId
    ensures Anchored(m', deps)
  {
    forall id | id in m'
      ensures m'[id].deploymentId in deps && deps[m'[id].deploymentId].applicationId == m'[id].applicationId
    {
      if id in m {
        assert Evolves(m[id], m'[id]);
      }
    }
  }

  /** What each step keeps, and what it cannot take back. */
  lemma ReconcileKeeps(s: State, s': State, drainTimeout: Time, now: Time)
    requires Sound(s) && ReconcileStep(s, s', drainTimeout, now)
    ensures Sound(s') && TableEvolves(s.instances, s'.instances) && TableLatched(s.deployments, s'.deployments)
    ensures forall id :: id in s'.instances && id !in s.instances ==> Entitled(s'.instances[id], s.apps, s'.deployments)
  {
    var online :| Pass(s.instances, s.deployments, s'.instances, s'.deployments, s.apps, online, drainTimeout, now);
    PassKeepsLifecycle(s.instances, s.deployments, s'.instances, s'.deployments, s.apps, online, drainTimeout, now);
    assert Owned(s.instances, s.deployments);
    PassLatch(s.instances, s.deployments, s'.instances, s'.deployments, s.apps, online, drainTimeout, now);
    AnchoredLatched(s.instances, s.deployments, s'.deployments);
    AnchoredEvolves(s.instances, s'.instances, s'.deployments);
    LatchedKeeps(s.deployments, s'.deployments);
  }

  lemma LatchedKeeps(deps: DeploymentTable, deps': DeploymentTable)
    requires Deployments.WellKeyed(deps) && SpecsValidated(deps)
    requires TableLatched(deps, deps') && deps'.Keys == deps.Keys
    ensures Deployments.WellKeyed(deps') && SpecsValidated(deps')
  {
    forall d | d in deps'
      ensures d != NO_ID && deps'[d].id == d && deps'[d].spec.replicas >= 0
    {
      assert Latched(deps[d], deps'[d]);
    }
  }

  lemma ScheduleKeeps(s: State, s': State, now: Time)
    requires Sound(s) && ScheduleStep(s, s', now)
    ensures Sound(s') && TableEvolves(s.instances, s'.instances) && TableLatched(s.deployments, s'.deployments)
    ensures s'.instances.Keys == s.instances.Keys
  {
    forall id | id in s.instances
      ensures Lifecycle(s'.instances[id]) && Evolves(s.instances[id], s'.instances[id])
    {
      if s'.instances[id] != s.instances[id] {
        var node :| Allowed(s.instances[id], Schedule(node)) && s'.instances[id] == Edited(s.instances[id], Schedule(node), now);
        EditKeepsLifecycle(s.instances[id], Schedule(node), now);
      }
    }
    assert Instances.WellKeyed(s'.instances) by {
      assert forall id :: id in s'.instances ==> Evolves(s.instances[id], s'.instances[id]);
    }
    AnchoredEvolves(s.instances, s'.instances, s.deployments);
    AnchoredLatched(s'.instances, s.deployments, s'.deployments);
  }

  lemma AgentsLeaveDrainMark(i: Instance, edit: Edit, now: Time)
    requires edit.ClaimBy? || edit.Report? || edit.SecretMissing?
    ensures Edited(i, edit, now).draining == i.draining
  {
  }

  lemma AgentKeeps(s: State, s': State, id: Id, edit: Edit, now: Time)
    requires Sound(s) && AgentStep(s, s', id, edit, now)
    ensures Sound(s') && TableEvolves(s.instances, s'.instances)
    ensures s'.instances.Keys == s.instances.Keys
    ensures forall x :: x in s.instances ==> s'.instances[x].draining == s.instances[x].draining
  {
    var edited := Edited(s.instances[id], edit, now);
    EditKeepsLifecycle(s.instances[id], edit, now);
    AgentsLeaveDrainMark(s.instances[id], edit, now);
    ReplacedRecord(s.instances, id, edited);
    AnchoredEvolves(s.instances, s'.instances, s.deployments);
  }

  lemma ReplacedRecord(m: Table, id: Id, i: Instance)
    requires AllLifecycle(m) && id in m && Lifecycle(i) && Evolves(m[id], i)
    ensures AllLifecycle(m[id := i]) && TableEvolves(m, m[id := i])
  {
  }

  lemma RouteKeeps(s: State, s': State)
    requires Sound(s) && RouteStep(s, s')
    ensures Sound(s')
    ensures forall id :: id in s'.instances && s'.instances[id].draining ==> !Routed(s'.routes, id)
  {
    var c :| IsRouteTable(s'.routes, c, s.instances);
    forall id | id in s'.instances && Routed(s'.routes, id)
      ensures !s'.instances[id].draining
    {
      OnlyEligibleRouted(s'.routes, c, s.instances, id);
    }
  }

  /** Every step keeps the invariant, evolves instances forwards, and keeps the latch. */
  lemma StepKeeps(s: State, s': State, step: Step)
    requires Sound(s) && StepOf(s, s', step)
    ensures Sound(s') && TableEvolves(s.instances, s'.instances) && TableLatched(s.deployments, s'.deployments)
    ensures forall id :: id in s'.instances && id !in s.instances ==> Entitled(s'.instances[id], s.apps, s'.deployments)
    ensures s'.routes == s.routes || RouteStep(s, s')
  {
    match step {
      case DoReconcile(drainTimeout, at) => ReconcileKeeps(s, s', drainTimeout, at);
      case DoSchedule(at) => ScheduleKeeps(s, s', at);
      case DoRoute => RouteKeeps(s, s');
      case DoAgent(id, edit, at) => AgentKeeps(s, s', id, edit, at);
      case DoOperator => AnchoredLatched(s.instances, s.deployments, s'.deployments);
    }
  }

  lemma {:induction false} RunIsSound(run: seq<State>, steps: seq<Step>, drainTimeout: Time, j: nat)
    requires RunOf(run, steps, drainTimeout) && j < |run|
    ensures Sound(run[j])
  {
    if j > 0 {
      var k := j - 1;
      RunIsSound(run, steps, drainTimeout, k);
      RunStep(run, steps, drainTimeout, k, j);
      StepKeeps(run[k], run[j], steps[k]);
    }
  }

  /** Over any stretch of a run no instance takes anything back and no latch is released. */
  lemma {:induction false} RunOnlyEvolves(run: seq<State>, steps: seq<Step>, drainTimeout: Time, i: nat, j: nat)
    requires RunOf(run, steps, drainTimeout) && i <= j < |run|
    ensures TableEvolves(run[i].instances, run[j].instances) && TableLatched(run[i].deployments, run[j].deployments)
    decreases j
  {
    if i < j {
      var k := j - 1;
      RunOnlyEvolves(run, steps, drainTimeout, i, k);
      RunIsSound(run, steps, drainTimeout, k);
      RunStep(run, steps, drainTimeout, k, j);
      var s, s' := run[k], run[j];
      StepKeeps(s, s', steps[k]);
      TableEvolvesTransitive(run[i].instances, s.instances, s'.instances);
      TableLatchedTransitive(run[i].deployments, s.deployments, s'.deployments);
    }
  }

  lemma RunStep(run: seq<State>, steps: seq<Step>, drainTimeout: Time, k: nat, j: nat)
    requires RunOf(run, steps, drainTimeout) && k < |steps| && j == k + 1
    ensures StepOf(run[k], run[j], steps[k])
    ensures steps[k].DoReconcile? ==> steps[k].drainTimeout == drainTimeout
  {
  }

  // ----- drain before stop

  /** The reconciler tells an instance to stop, or stops one that never started. */
  ghost predicate StoppedBy(s: State, s': State, id: Id) {
    && id in s.instances && id in s'.instances
    && s'.instances[id].status != s.instances[id].status
    && (s'.instances[id].status.Stopping? || s'.instances[id].status.Stopped?)
  }

  /** Draining for at least the given period. */
  ghost predicate DrainedFor(i: Instance, period: Time, now: Time) {
    i.draining && i.drainStartedAt.Some? && now - i.drainStartedAt.value >= period
  }

  /** What a pass does to the status and the drain mark of one record. */
  lemma RecordMoves(i: Instance, i': Instance, online: set<Id>, drainTimeout: Time, now: Time)
    requires Lifecycle(i)
    requires KeptOrRetired(Evaluated(Recovered(i, online, now), now), i', drainTimeout, now)
    ensures drainTimeout > 0 && i'.status != i.status && (i'.status.Stopping? || i'.status.Stopped?)
            ==> DrainedFor(i, drainTimeout, now)
    ensures i'.draining && !i.draining ==> i'.drainStartedAt == Some(now)
  {
    var r := Recovered(i, online, now);
    assert r.draining == i.draining && r.drainStartedAt == i.drainStartedAt;
    assert r.status == i.status || r.status.Unknown? || r.status.Crashed?;
    var e := Evaluated(r, now);
    assert e.draining == i.draining && e.drainStartedAt == i.drainStartedAt;
    assert e.status == r.status || e.status.Crashed?;
  }

  lemma PassMoves(s: State, s': State, drainTimeout: Time, now: Time, id: Id)
    requires Sound(s) && ReconcileStep(s, s', drainTimeout, now) && id in s.instances
    ensures id in s'.instances
    ensures drainTimeout > 0 && StoppedBy(s, s', id) ==> DrainedFor(s.instances[id], drainTimeout, now)
    ensures s'.instances[id].draining && !s.instances[id].draining ==> s'.instances[id].drainStartedAt == Some(now)
  {
    var m, m' := s.instances, s'.instances;
    var online :| Pass(m, s.deployments, m', s'.deployments, s.apps, online, drainTimeout, now);
    var order, results :| PassWith(m, s.deployments, m', s'.deployments, s.apps, online, drainTimeout, now, order, results);
    PassRecords(m, s.deployments, m', s'.deployments, s.apps, online, drainTimeout, now, order, results, id);
    assert Settle(m, online, now)[id] == Evaluated(Recovered(m[id], online, now), now);
    RecordMoves(m[id], m'[id], online, drainTimeout, now);
  }

  lemma PassCreatesUndrained(s: State, s': State, drainTimeout: Time, now: Time, id: Id)
    requires ReconcileStep(s, s', drainTimeout, now) && id in s'.instances && id !in s.instances
    ensures !s'.instances[id].draining
  {
    var m, m' := s.instances, s'.instances;
    var online :| Pass(m, s.deployments, m', s'.deployments, s.apps, online, drainTimeout, now);
    var order, results :| PassWith(m, s.deployments, m', s'.deployments, s.apps, online, drainTimeout, now, order, results);
    PassCreations(m, s.deployments, m', s'.deployments, s.apps, online, drainTimeout, now, order, results, id);
  }

  /** Once draining and off the table, never on it again. */
  lemma {:induction false} NeverRoutedAgain(run: seq<State>, steps: seq<Step>, drainTimeout: Time, i: nat, j: nat, id: Id)
    requires RunOf(run, steps, drainTimeout) && i <= j < |run|
    requires id in run[i].instances && run[i].instances[id].draining && !Routed(run[i].routes, id)
    ensures id in run[j].instances && run[j].instances[id].draining && !Routed(run[j].routes, id)
    decreases j
  {
    if i < j {
      var k := j - 1;
      NeverRoutedAgain(run, steps, drainTimeout, i, k, id);
      RunIsSound(run, steps, drainTimeout, k);
      RunStep(run, steps, drainTimeout, k, j);
      StepKeeps(run[k], run[j], steps[k]);
      assert Evolves(run[k].instances[id], run[j].instances[id]);
      if RouteStep(run[k], run[j]) {
        RouteKeeps(run[k], run[j]);
      }
    }
  }

  /** Drain before stop: with a positive drain period, whenever a pass stops an instance, it has been
      draining for at least that period, is off the proxy's table, and stays off it for the rest of the
      run whatever agents report. */
  lemma DrainBeforeStop(run: seq<State>, steps: seq<Step>, drainTimeout: Time, k: nat, j: nat, id: Id)
    requires RunOf(run, steps, drainTimeout) && drainTimeout > 0
    requires k < |steps| && steps[k].DoReconcile? && StoppedBy(run[k], run[k + 1], id)
    requires k <= j < |run|
    ensures DrainedFor(run[k].instances[id], drainTimeout, steps[k].at)
    ensures !Routed(run[j].routes, id)
  {
    RunIsSound(run, steps, drainTimeout, k);
    RunStep(run, steps, drainTimeout, k, k + 1);
    PassMoves(run[k], run[k + 1], drainTimeout, steps[k].at, id);
    NeverRoutedAgain(run, steps, drainTimeout, k, j, id);
  }

  /** The drain mark of every instance was set by a reconcile pass of the run, at the recorded instant. */
  lemma {:induction false} DrainWasMarked(run: seq<State>, steps: seq<Step>, drainTimeout: Time, j: nat, id: Id) returns (k: nat)
    requires RunOf(run, steps, drainTimeout) && j < |run|
    requires forall x :: x in run[0].instances ==> !run[0].instances[x].draining
    requires id in run[j].instances && run[j].instances[id].draining
    ensures k < j && steps[k].DoReconcile? && run[j].instances[id].drainStartedAt == Some(steps[k].at)
    ensures id in run[k].instances && !run[k].instances[id].draining
  {
    var p := j - 1;
    RunIsSound(run, steps, drainTimeout, p);
    RunStep(run, steps, drainTimeout, p, j);
    StepKeeps(run[p], run[j], steps[p]);
    if id in run[p].instances && run[p].instances[id].draining {
      assert Evolves(run[p].instances[id], run[j].instances[id]);
      k := DrainWasMarked(run, steps, drainTimeout, p, id);
    } else {
      MarkedByPass(run[p], run[j], steps[p], id);
      k := p;
    }
  }

  lemma MarkedByPass(s: State, s': State, step: Step, id: Id)
    requires Sound(s) && StepOf(s, s', step)
    requires id in s'.instances && s'.instances[id].draining && (id in s.instances ==> !s.instances[id].draining)
    ensures step.DoReconcile? && id in s.instances && s'.instances[id].drainStartedAt == Some(step.at)
  {
    match step {
      case DoReconcile(drainTimeout, now) =>
        if id in s.instances {
          PassMoves(s, s', drainTimeout, now, id);
        } else {
          PassCreatesUndrained(s, s', drainTimeout, now, id);
        }
      case DoSchedule(at) =>
      case DoRoute =>
      case DoAgent(x, edit, at) => AgentKeeps(s, s', x, edit, at);
      case DoOperator =>
    }
  }

  // ----- the crash-loop latch

  /** Once a deployment is degraded it stays so, and from then on no instance of it is ever created,
      whether it is active, superseded or activated again by a forced rollback. */
  lemma {:induction false} CrashLoopLatch(run: seq<State>, steps: seq<Step>, drainTimeout: Time, i: nat, j: nat, d: Id)
    requires RunOf(run, steps, drainTimeout) && i <= j < |run|
    requires d in run[i].deployments && run[i].deployments[d].degraded
    ensures d in run[j].deployments && run[j].deployments[d].degraded
    ensures forall id :: id in run[j].instances && run[j].instances[id].deploymentId == d ==> id in run[i].instances
    decreases j
  {
    if i < j {
      var k := j - 1;
      CrashLoopLatch(run, steps, drainTimeout, i, k, d);
      RunIsSound(run, steps, drainTimeout, k);
      RunStep(run, steps, drainTimeout, k, j);
      StepKeeps(run[k], run[j], steps[k]);
      assert Latched(run[k].deployments[d], run[j].deployments[d]);
      forall id | id in run[j].instances && run[j].instances[id].deploymentId == d
        ensures id in run[i].instances
      {
        assert id in run[k].instances;
        assert Evolves(run[k].instances[id], run[j].instances[id]);
      }
    }
  }

  // ----- rolling back

  datatype RollbackError = AppNotFound | DeploymentNotFound | Forbidden | NeedsForce

  /** The part of the application service that reactivates an earlier deployment. */
  class AppService {
    const depReg: DeploymentRegistry
    var apps: AppTable

    constructor (depReg: DeploymentRegistry, apps: AppTable)
      ensures this.depReg == depReg && this.apps == apps
    {
      this.depReg := depReg;
      this.apps := apps;
    }

    method RollbackApp(id: Id, target: Id, force: bool) returns (error: Option<RollbackError>)
      requires depReg.Valid() && AppsKeyed(apps)
      modifies this`apps, depReg`deployments
      ensures depReg.Valid() && AppsKeyed(apps)
      ensures error.None? <==> RollbackAllowed(old(apps), old(depReg.deployments), id, target, force)
      ensures error.Some? ==> apps == old(apps) && depReg.deployments == old(depReg.deployments)
      ensures error.None? ==>
                && apps == old(apps)[id := old(apps)[id].(activeDeploymentId := target)]
                && depReg.deployments == RolledBack(old(depReg.deployments), old(apps)[id].activeDeploymentId, target)
      ensures TableLatched(old(depReg.deployments), depReg.deployments)
      ensures depReg.deployments.Keys == old(depReg.deployments).Keys
      // in particular
      ensures error == Some(NeedsForce) <==>
                && !force && id in apps && target in depReg.deployments && depReg.deployments[target].applicationId == id
                && old(depReg.deployments[target].degraded || depReg.deployments[target].rolloutStatus.RolloutFailed?)
      ensures error.None? ==>
                && depReg.deployments[target].applicationId == id && apps[id].activeDeploymentId == target
                && depReg.deployments[target].status.Active? && depReg.deployments[target].rolloutStatus.RolloutPending?
      ensures error.None? ==> forall d :: d in depReg.deployments && d != target ==>
                depReg.deployments[d].rolloutStatus == old(depReg.deployments)[d].rolloutStatus
                && depReg.deployments[d].status == (if d == old(apps)[id].activeDeploymentId && d != NO_ID then Superseded else old(depReg.deployments)[d].status)
    {
      if id !in apps {
        return Some(AppNotFound);
      }
      if target !in depReg.deployments {
        return Some(DeploymentNotFound);
      }
      var dep := depReg.deployments[target];
      if dep.applicationId != id {
        return Some(Forbidden);
      }
      if !force && (dep.degraded || dep.rolloutStatus.RolloutFailed?) {
        return Some(NeedsForce);
      }
      var oldDepId := apps[id].activeDeploymentId;
      apps := apps[id := apps[id].(activeDeploymentId := target)];
      RolledBackLatches(depReg.deployments, oldDepId, target);
      SwitchDeployments(oldDepId, target);
      error := None;
    }

    method SwitchDeployments(former: Id, target: Id)
      requires depReg.Valid() && target in depReg.deployments
      modifies depReg`deployments
      ensures depReg.Valid() && depReg.deployments == RolledBack(old(depReg.deployments), former, target)
    {
      SwitchedStepByStep(depReg.deployments, former, target);
      if former != NO_ID && former != target {
        var _ := depReg.UpdateState(former, Superseded);
      }
      var _ := depReg.UpdateState(target, Active);
      var _ := depReg.UpdateRolloutStatusOnly(target, RolloutPending, "");
    }
  }

  function FormerSuperseded(deps: DeploymentTable, former: Id, target: Id): DeploymentTable {
    if former in deps && former != NO_ID && former != target then deps[former := deps[former].(status := Superseded)] else deps
  }

  lemma SwitchedStepByStep(deps: DeploymentTable, former: Id, target: Id)
    requires target in deps
    ensures var d1 := FormerSuperseded(deps, former, target);
            var d2 := d1[target := d1[target].(status := Active)];
            d2[target := RolloutSet(d2[target], RolloutPending, "")] == RolledBack(deps, former, target)
  {
    var d1 := FormerSuperseded(deps, former, target);
    var d2 := d1[target := d1[target].(status := Active)];
    var d3 := d2[target := RolloutSet(d2[target], RolloutPending, "")];
    forall d | d in deps ensures d in d3 && d3[d] == RolledBack(deps, former, target)[d] {
    }
  }

  lemma RolledBackLatches(deps: DeploymentTable, former: Id, target: Id)
    ensures TableLatched(deps, RolledBack(deps, former, target)) && RolledBack(deps, former, target).Keys == deps.Keys
  {
  }

  /** A deployment of the application; one that is degraded or whose rollout failed only by force. */
  predicate RollbackAllowed(apps: AppTable, deps: DeploymentTable, id: Id, target: Id, force: bool) {
    && id in apps && target in deps && deps[target].applicationId == id
    && (deps[target].degraded || deps[target].rolloutStatus.RolloutFailed? ==> force)
  }

  /** The former active deployment is superseded, the target active with a rollout to begin; nothing else. */
  function RolledBack(deps: DeploymentTable, former: Id, target: Id): DeploymentTable {
    map d | d in deps ::
      if d == target then RolloutSet(deps[d].(status := Active), RolloutPending, "")
      else if d == former && former != NO_ID then deps[d].(status := Superseded)
      else deps[d]
  }
}
