/** The instance reconciler: recover instances of lost nodes, end unhealthy ones, then create, drain
    or stop instances until every deployment meets its target.

    A pass reads the clock once; everything it writes carries that instant.
 */
module Reconciler {
  import opened Ids
  import opened Instances
  import opened Deployments
  import opened RolloutController

  const SECOND: Time := 1_000_000_000
  const INSTANCE_UNKNOWN_TIMEOUT: Time := 300 * SECOND
  const HEALTHY_RECOVERY_WINDOW: Time := 60 * SECOND
  const DEFAULT_DRAIN_TIMEOUT: Time := 10 * SECOND

  // ----- phases one and two, record by record

  /** Instances of an offline node become UNKNOWN; UNKNOWN for too long counts as crashed. */
  function Recovered(i: Instance, online: set<Id>, now: Time): Instance {
    if i.nodeId != NO_ID && i.nodeId !in online && Viable(i.status) && !i.status.Unknown? then
      MarkedUnknown(i, now)
    else if i.status.Unknown? && i.unknownSince.Some? && now - i.unknownSince.value >= INSTANCE_UNKNOWN_TIMEOUT then
      Stated(i, Crashed, i.nodeId, i.containerId, now)
    else i
  }

  /** An instance that runs but is unhealthy is ended. */
  function Evaluated(i: Instance, now: Time): Instance {
    if i.status.Running? && i.health.Unhealthy? then Stated(i, Crashed, i.nodeId, i.containerId, now) else i
  }

  ghost function AllRecovered(m: Table, done: set<Id>, online: set<Id>, now: Time): Table {
    map id | id in m :: if id in done then Recovered(m[id], online, now) else m[id]
  }

  ghost function AllEvaluated(m: Table, done: set<Id>, now: Time): Table {
    map id | id in m :: if id in done then Evaluated(m[id], now) else m[id]
  }

  /** What one instance's health does to the crash counter of its deployment. */
  function HealthRecorded(deps: DeploymentTable, i: Instance, now: Time): DeploymentTable {
    if i.deploymentId !in deps || !i.status.Running? then deps
    else if i.health.Unhealthy? then
      deps[i.deploymentId := CrashRecorded(deps[i.deploymentId], MAX_CRASH_LOOP_THRESHOLD)]
    else if i.health.Healthy? && i.startedAt.Some? && now - i.startedAt.value >= HEALTHY_RECOVERY_WINDOW then
      deps[i.deploymentId := CounterReset(deps[i.deploymentId])]
    else deps
  }

  /** The counters after the instances were visited in the given order; the order matters, because a
      reset and a crash do not commute. */
  ghost function HealthFold(deps: DeploymentTable, m: Table, order: seq<Id>, now: Time): DeploymentTable {
    if order == [] then deps else
      var k := |order| - 1;
      var before := HealthFold(deps, m, order[..k], now);
      if order[k] in m then HealthRecorded(before, m[order[k]], now) else before
  }

  lemma {:induction false} HealthFoldLatches(deps: DeploymentTable, m: Table, order: seq<Id>, now: Time)
    requires Deployments.WellKeyed(deps)
    ensures HealthFold(deps, m, order, now).Keys == deps.Keys
    ensures Deployments.WellKeyed(HealthFold(deps, m, order, now))
    ensures TableLatched(deps, HealthFold(deps, m, order, now))
  {
    if order != [] {
      HealthFoldLatches(deps, m, order[..|order| - 1], now);
    }
  }

  // ----- phase three: scaling one deployment

  /** Which of two viable instances goes first: draining ones, then unready ones, then larger ids. */
  predicate VictimBefore(a: Instance, b: Instance) {
    if a.draining != b.draining then a.draining
    else if Ready(a) != Ready(b) then !Ready(a)
    else Less(b.id, a.id)
  }

  lemma VictimOrderIsWeak()
    ensures WeakOrder(VictimBefore)
  {
    LessIsWeakOrder();
    forall a, b | VictimBefore(a, b) ensures !VictimBefore(b, a) {
      assert Less(b.id, a.id) ==> !Less(a.id, b.id);
    }
    forall a, b, c | !VictimBefore(a, b) && !VictimBefore(b, c) ensures !VictimBefore(a, c) {
      assert !Less(c.id, b.id) && !Less(b.id, a.id) ==> !Less(c.id, a.id);
    }
  }

  /** Drain, and stop once drained for long enough. */
  function Retired(i: Instance, drainTimeout: Time, now: Time): Instance {
    var d := Drained(i, now);
    if d.drainStartedAt.Some? && (drainTimeout <= 0 || now - d.drainStartedAt.value >= drainTimeout) then
      Stated(d, if d.status.Assigned? || d.status.Pending? then Stopped else Stopping, d.nodeId, d.containerId, now)
    else d
  }

  ghost function Shrunk(m: Table, victims: set<Id>, drainTimeout: Time, now: Time): Table {
    map id | id in m :: if id in victims then Retired(m[id], drainTimeout, now) else m[id]
  }

  /** The `k` members of `viable` that go first. */
  ghost predicate AreVictims(m: Table, viable: set<Id>, victims: set<Id>, k: int) {
    && viable <= m.Keys && victims <= viable && |victims| == k
    && forall v, w :: v in victims && w in viable && w !in victims ==> VictimBefore(m[v], m[w])
  }

  ghost function NewIds(m: Table, m': Table): set<Id> {
    set id | id in m' && id !in m
  }

  ghost predicate Grown(m: Table, m': Table, app: Id, dep: Id, k: int, now: Time) {
    && (forall id :: id in m ==> id in m' && m'[id] == m[id])
    && |NewIds(m, m')| == k
    && forall id :: id in m' && id !in m ==> id != NO_ID && m'[id] == NewInstance(id, app, dep, now)
  }

  /** One deployment brought to its target. */
  ghost predicate Scaled(m: Table, m': Table, app: Id, dep: Id, n: int, drainTimeout: Time, now: Time) {
    var viable := Where(m, ViableIn(app, dep));
    if |viable| < n then Grown(m, m', app, dep, n - |viable|, now)
    else exists victims :: AreVictims(m, viable, victims, |viable| - n) && m' == Shrunk(m, victims, drainTimeout, now)
  }

  class InstanceReconciler {
    const depReg: DeploymentRegistry
    const instReg: Registry
    const drainTimeout: Time

    /** As the control plane builds it. */
    constructor (depReg: DeploymentRegistry, instReg: Registry)
      ensures this.depReg == depReg && this.instReg == instReg && this.drainTimeout == 10_000_000_000
    {
      this.depReg := depReg;
      this.instReg := instReg;
      this.drainTimeout := DEFAULT_DRAIN_TIMEOUT;
    }

    constructor WithDrainTimeout(depReg: DeploymentRegistry, instReg: Registry, drainTimeout: Time)
      ensures this.depReg == depReg && this.instReg == instReg && this.drainTimeout == drainTimeout
    {
      this.depReg := depReg;
      this.instReg := instReg;
      this.drainTimeout := drainTimeout;
    }

    method RecoverOrphanedInstances(online: set<Id>, now: Time)
      requires instReg.Valid()
      modifies instReg
      ensures instReg.Valid()
      ensures instReg.instances == AllRecovered(old(instReg.instances), old(instReg.instances).Keys, online, now)
    {
      var all := instReg.instances;
      var todo := all.Keys;
      ghost var done: set<Id> := {};
      assert all == AllRecovered(all, done, online, now);
      while todo != {}
        invariant instReg.Valid()
        invariant todo <= all.Keys && done == all.Keys - todo
        invariant instReg.instances == AllRecovered(all, done, online, now)
        decreases todo
      {
        var id :| id in todo;
        RecoverTurn(all[id], online, now);
        todo := todo - {id};
        done := done + {id};
      }
      assert done == all.Keys;
    }

    method RecoverTurn(inst: Instance, online: set<Id>, now: Time)
      requires instReg.Valid()
      requires inst.id in instReg.instances && instReg.instances[inst.id] == inst
      modifies instReg
      ensures instReg.Valid()
      ensures instReg.instances == old(instReg.instances)[inst.id := Recovered(inst, online, now)]
    {
      if inst.nodeId != NO_ID && inst.nodeId !in online {
        if Viable(inst.status) && !inst.status.Unknown? {
          var _ := instReg.MarkUnknown(inst.id, now);
        }
      }
      if inst.status.Unknown? && inst.unknownSince.Some? {
        if now - inst.unknownSince.value >= INSTANCE_UNKNOWN_TIMEOUT {
          var _ := instReg.UpdateState(inst.id, Crashed, inst.nodeId, inst.containerId, now);
        }
      }
    }

    method EvaluateHealthAndCrashes(now: Time) returns (ghost order: seq<Id>)
      requires instReg.Valid() && depReg.Valid()
      modifies instReg, depReg`deployments
      ensures instReg.Valid() && depReg.Valid()
      ensures instReg.instances == AllEvaluated(old(instReg.instances), old(instReg.instances).Keys, now)
      ensures IsOrder(order, old(instReg.instances).Keys)
      ensures depReg.deployments == HealthFold(old(depReg.deployments), old(instReg.instances), order, now)
    {
      var all := instReg.instances;
      var todo := all.Keys;
      ghost var deps := depReg.deployments;
      ghost var done: set<Id> := {};
      order := [];
      assert all == AllEvaluated(all, done, now);
      while todo != {}
        invariant instReg.Valid() && depReg.Valid()
        invariant todo <= all.Keys && done == all.Keys - todo
        invariant IsOrder(order, done)
        invariant instReg.instances == AllEvaluated(all, done, now)
        invariant depReg.deployments == HealthFold(deps, all, order, now)
        decreases todo
      {
        var id :| id in todo;
        HealthVisit(all, id, now, deps, order, done);
        OrderOneMore(order, done, id);
        order := order + [id];
        todo := todo - {id};
        done := done + {id};
      }
      assert done == all.Keys;
    }

    method HealthVisit(all: Table, id: Id, now: Time, ghost deps: DeploymentTable, ghost order: seq<Id>, ghost done: set<Id>)
      requires instReg.Valid() && depReg.Valid() && Instances.WellKeyed(all)
      requires id in all && id !in done
      requires instReg.instances == AllEvaluated(all, done, now)
      requires depReg.deployments == HealthFold(deps, all, order, now)
      modifies instReg, depReg`deployments
      ensures instReg.Valid() && depReg.Valid()
      ensures instReg.instances == AllEvaluated(all, done + {id}, now)
      ensures depReg.deployments == HealthFold(deps, all, order + [id], now)
    {
      EvaluateOneMore(all, done, id, now);
      HealthFoldStep(deps, all, order, id, now);
      HealthTurn(all[id], now);
    }

    method HealthTurn(inst: Instance, now: Time)
      requires instReg.Valid() && depReg.Valid()
      requires inst.id in instReg.instances && instReg.instances[inst.id] == inst
      modifies instReg, depReg`deployments
      ensures instReg.Valid() && depReg.Valid()
      ensures instReg.instances == old(instReg.instances)[inst.id := Evaluated(inst, now)]
      ensures depReg.deployments == HealthRecorded(old(depReg.deployments), inst, now)
    {
      if inst.status.Running? {
        if inst.health.Unhealthy? {
          var _ := instReg.UpdateState(inst.id, Crashed, inst.nodeId, inst.containerId, now);
          var _ := depReg.RecordCrash(inst.deploymentId, MAX_CRASH_LOOP_THRESHOLD);
        } else if inst.health.Healthy? && inst.startedAt.Some? {
          if now - inst.startedAt.value >= HEALTHY_RECOVERY_WINDOW {
            var _ := depReg.ResetCrashCounter(inst.deploymentId);
          }
        }
      }
    }

    method ScaleUp(app: Id, dep: Id, toCreate: nat, now: Time)
      requires instReg.Valid()
      modifies instReg
      ensures instReg.Valid()
      ensures Grown(old(instReg.instances), instReg.instances, app, dep, toCreate, now)
    {
      ghost var before := instReg.instances;
      assert NewIds(before, before) == {};
      for i := 0 to toCreate
        invariant instReg.Valid()
        invariant Grown(before, instReg.instances, app, dep, i, now)
      {
        ghost var grown := instReg.instances;
        var inst := instReg.Create(app, dep, now);
        GrowOneMore(before, grown, inst, app, dep, i, now);
      }
    }

    method ScaleDown(viable: set<Instance>, toStop: nat, now: Time) returns (ghost victims: set<Id>)
      requires instReg.Valid()
      requires forall v :: v in viable ==> v.id in instReg.instances && instReg.instances[v.id] == v && Viable(v.status)
      requires toStop <= |viable|
      modifies instReg
      ensures instReg.Valid()
      ensures AreVictims(old(instReg.instances), IdsOf(viable), victims, toStop)
      ensures instReg.instances == Shrunk(old(instReg.instances), victims, drainTimeout, now)
    {
      ghost var before := instReg.instances;
      VictimOrderIsWeak();
      var ranked := SortBy(viable, VictimBefore);
      RankedApart(viable, ranked);
      PrefixAreVictims(before, viable, ranked, toStop);
      StopFirst(ranked, toStop, now);
      victims := IdsUpTo(ranked, toStop);
    }

    method StopFirst(ranked: seq<Instance>, toStop: nat, now: Time)
      requires instReg.Valid() && toStop <= |ranked|
      requires forall v :: v in ranked ==> v.id in instReg.instances && instReg.instances[v.id] == v && Viable(v.status)
      requires forall i, j :: 0 <= i < j < |ranked| ==> ranked[i].id != ranked[j].id
      modifies instReg
      ensures instReg.Valid()
      ensures instReg.instances == Shrunk(old(instReg.instances), IdsUpTo(ranked, toStop), drainTimeout, now)
    {
      ghost var before := instReg.instances;
      NobodyRetired(before, ranked, drainTimeout, now);
      for i := 0 to toStop
        invariant instReg.Valid()
        invariant instReg.instances == Shrunk(before, IdsUpTo(ranked, i), drainTimeout, now)
      {
        NextVictim(before, ranked, i);
        RetireOneMore(before, IdsUpTo(ranked, i), ranked[i], drainTimeout, now);
        StopTurn(ranked[i], now);
      }
    }

    method StopTurn(inst: Instance, now: Time)
      requires instReg.Valid()
      requires inst.id in instReg.instances && instReg.instances[inst.id] == inst && Viable(inst.status)
      modifies instReg
      ensures instReg.Valid()
      ensures instReg.instances == old(instReg.instances)[inst.id := Retired(inst, drainTimeout, now)]
      // marked once, and stopped exactly when it has drained for the period; what never started is stopped at once
      ensures instReg.instances[inst.id].draining
      ensures instReg.instances[inst.id].drainStartedAt == if inst.draining then inst.drainStartedAt else Some(now)
      ensures instReg.instances[inst.id].status ==
                if (drainTimeout <= 0 && (inst.draining ==> inst.drainStartedAt.Some?))
                   || (inst.draining && inst.drainStartedAt.Some? && now - inst.drainStartedAt.value >= drainTimeout)
                then (if inst.status == Assigned || inst.status == Pending then Stopped else Stopping)
                else inst.status
    {
      var draining := inst;
      if !inst.draining {
        var _ := instReg.MarkDraining(inst.id, now);
        draining := draining.(draining := true, drainStartedAt := Some(now));
      }
      if draining.drainStartedAt.Some? && (drainTimeout <= 0 || now - draining.drainStartedAt.value >= drainTimeout) {
        if draining.status.Assigned? || draining.status.Pending? {
          var _ := instReg.UpdateState(inst.id, Stopped, inst.nodeId, inst.containerId, now);
        } else {
          var _ := instReg.UpdateState(inst.id, Stopping, inst.nodeId, inst.containerId, now);
        }
      }
    }

    /** One deployment target: list its viable instances, then scale up or down. */
    method ReconcileDeployment(app: Id, dep: Id, desiredCount: nat, now: Time)
      requires instReg.Valid()
      modifies instReg
      ensures instReg.Valid()
      ensures Scaled(old(instReg.instances), instReg.instances, app, dep, desiredCount, drainTimeout, now)
    {
      ghost var before := instReg.instances;
      var all := instReg.instances;
      var viable := set id | id in all && ViableIn(app, dep)(all[id]) :: all[id];
      ViableListing(all, app, dep, viable);
      var actualCount := |viable|;
      if actualCount < desiredCount {
        ScaleUp(app, dep, desiredCount - actualCount, now);
      } else if actualCount > desiredCount {
        ghost var victims := ScaleDown(viable, actualCount - desiredCount, now);
      } else {
        NoVictims(before, app, dep, drainTimeout, now);
      }
    }

    /** The nested loops over the targets. */
    method ReconcileTargets(results: seq<AppTarget>, apps: AppTable, deps: DeploymentTable, now: Time)
      requires instReg.Valid()
      requires PlannedFor(results, apps, deps, instReg.instances, apps.Keys)
      requires SpecsValidated(deps) && deps.Keys <= depReg.deployments.Keys
      modifies instReg
      ensures instReg.Valid()
      ensures GroupsDone(old(instReg.instances), instReg.instances, results, |results|, 0, drainTimeout, now)
    {
      ghost var before := instReg.instances;
      NoGroupDone(before, results, drainTimeout, now);
      for p := 0 to |results|
        invariant instReg.Valid()
        invariant GroupsDone(before, instReg.instances, results, p, 0, drainTimeout, now)
      {
        ReconcileApp(results, p, apps, deps, before, now);
      }
    }

    method ReconcileApp(results: seq<AppTarget>, p: nat, apps: AppTable, deps: DeploymentTable, ghost before: Table, now: Time)
      requires instReg.Valid()
      requires PlannedFor(results, apps, deps, before, apps.Keys)
      requires SpecsValidated(deps) && deps.Keys <= depReg.deployments.Keys
      requires p < |results|
      requires GroupsDone(before, instReg.instances, results, p, 0, drainTimeout, now)
      modifies instReg
      ensures instReg.Valid()
      ensures GroupsDone(before, instReg.instances, results, p + 1, 0, drainTimeout, now)
    {
      var targets := results[p].targets;
      for q := 0 to |targets|
        invariant instReg.Valid()
        invariant GroupsDone(before, instReg.instances, results, p, q, drainTimeout, now)
      {
        TargetTurn(results, p, q, apps, deps, before, now);
      }
      NextApplication(before, instReg.instances, results, p, drainTimeout, now);
    }

    method TargetTurn(results: seq<AppTarget>, p: nat, q: nat, apps: AppTable, deps: DeploymentTable, ghost before: Table, now: Time)
      requires instReg.Valid()
      requires PlannedFor(results, apps, deps, before, apps.Keys)
      requires SpecsValidated(deps) && deps.Keys <= depReg.deployments.Keys
      requires p < |results| && q < |results[p].targets|
      requires GroupsDone(before, instReg.instances, results, p, q, drainTimeout, now)
      modifies instReg
      ensures instReg.Valid()
      ensures GroupsDone(before, instReg.instances, results, p, q + 1, drainTimeout, now)
    {
      var target := results[p].targets[q];
      TargetIsKnown(results, p, q, apps, deps, before);
      if target.deploymentId in depReg.deployments {
        ghost var m := instReg.instances;
        ReconcileDeployment(results[p].appId, target.deploymentId, target.desiredCount, now);
        NextTarget(before, m, instReg.instances, results, p, q, apps, deps, drainTimeout, now);
      }
    }

    /** One whole pass. */
    method Reconcile(apps: AppTable, online: set<Id>, now: Time)
      requires instReg.Valid() && depReg.Valid() && AppsKeyed(apps)
      requires SpecsValidated(depReg.deployments)
      modifies instReg, depReg`deployments
      ensures instReg.Valid() && depReg.Valid()
      ensures Pass(old(instReg.instances), old(depReg.deployments), instReg.instances, depReg.deployments,
                   apps, online, drainTimeout, now)
    {
      ghost var m, deps := instReg.instances, depReg.deployments;
      RecoverOrphanedInstances(online, now);
      ghost var order := EvaluateHealthAndCrashes(now);
      HealthFoldLatches(deps, Recover(m, online, now), order, now);
      var counted := depReg.deployments;
      var rc := new Controller(depReg);
      var results := rc.ComputeTargets(apps, instReg.instances);
      ReconcileTargets(results, apps, counted, now);
      assert PassWith(m, deps, instReg.instances, depReg.deployments, apps, online, drainTimeout, now, order, results);
    }
  }

  // ----- what a whole pass does

  ghost predicate SpecsValidated(deps: DeploymentTable) {
    forall d :: d in deps ==> deps[d].spec.replicas >= 0
  }

  /** The instances of one deployment of one application. */
  ghost function Group(m: Table, app: Id, dep: Id): Table {
    map id | id in m && m[id].applicationId == app && m[id].deploymentId == dep :: m[id]
  }

  /** One of the first targets: those before application `p`, and the first `q` of application `p`. */
  ghost predicate TargetBefore(results: seq<AppTarget>, p: nat, q: nat, a: Id, d: Id, n: int) {
    exists i, j :: 0 <= i < |results| && 0 <= j < |results[i].targets| && (i < p || (i == p && j < q))
      && results[i].appId == a && results[i].targets[j] == DeploymentTarget(d, n)
  }

  ghost predicate GroupDone(m: Table, m': Table, results: seq<AppTarget>, p: nat, q: nat, drainTimeout: Time, now: Time, a: Id, d: Id) {
    && (forall n :: TargetBefore(results, p, q, a, d, n) ==> Scaled(Group(m, a, d), Group(m', a, d), a, d, n, drainTimeout, now))
    && ((forall n :: !TargetBefore(results, p, q, a, d, n)) ==> Group(m', a, d) == Group(m, a, d))
  }

  /** Every targeted deployment is brought to its target; every other one is left alone. */
  ghost predicate GroupsDone(m: Table, m': Table, results: seq<AppTarget>, p: nat, q: nat, drainTimeout: Time, now: Time) {
    forall a, d :: GroupDone(m, m', results, p, q, drainTimeout, now, a, d)
  }

  ghost function Recover(m: Table, online: set<Id>, now: Time): Table { AllRecovered(m, m.Keys, online, now) }

  ghost function Evaluate(m: Table, now: Time): Table { AllEvaluated(m, m.Keys, now) }

  ghost predicate PassWith(m: Table, deps: DeploymentTable, m': Table, deps': DeploymentTable, apps: AppTable,
                           online: set<Id>, drainTimeout: Time, now: Time, order: seq<Id>, results: seq<AppTarget>)
  {
    var m1 := Recover(m, online, now);
    var m2 := Evaluate(m1, now);
    var counted := HealthFold(deps, m1, order, now);
    && AppsKeyed(apps) && Instances.WellKeyed(m')
    && IsOrder(order, m1.Keys)
    && PlannedFor(results, apps, counted, m2, apps.Keys)
    && deps' == AllMarked(apps, apps.Keys, counted, m2)
    && GroupsDone(m2, m', results, |results|, 0, drainTimeout, now)
  }

  /** A whole reconcile pass, for some order of visiting the instances and the applications. */
  ghost predicate Pass(m: Table, deps: DeploymentTable, m': Table, deps': DeploymentTable, apps: AppTable,
                       online: set<Id>, drainTimeout: Time, now: Time)
  {
    exists order, results :: PassWith(m, deps, m', deps', apps, online, drainTimeout, now, order, results)
  }

  lemma NoGroupDone(m: Table, results: seq<AppTarget>, drainTimeout: Time, now: Time)
    ensures GroupsDone(m, m, results, 0, 0, drainTimeout, now)
  {
  }

  lemma NextApplication(m: Table, m': Table, results: seq<AppTarget>, p: nat, drainTimeout: Time, now: Time)
    requires p < |results|
    requires GroupsDone(m, m', results, p, |results[p].targets|, drainTimeout, now)
    ensures GroupsDone(m, m', results, p + 1, 0, drainTimeout, now)
  {
    var p' := p + 1;
    var q := |results[p].targets|;
    forall a, d
      ensures GroupDone(m, m', results, p', 0, drainTimeout, now, a, d)
    {
      assert GroupDone(m, m', results, p, q, drainTimeout, now, a, d);
      assert forall n :: TargetBefore(results, p', 0, a, d, n) <==> TargetBefore(results, p, q, a, d, n);
    }
  }

  lemma TargetIsKnown(results: seq<AppTarget>, p: nat, q: nat, apps: AppTable, deps: DeploymentTable, m: Table)
    requires PlannedFor(results, apps, deps, m, apps.Keys) && SpecsValidated(deps)
    requires p < |results| && q < |results[p].targets|
    ensures results[p].targets[q].deploymentId in deps && results[p].targets[q].desiredCount >= 0
  {
    var t := results[p];
    assert IsTargetFor(t, apps[t.appId], deps, m);
    assert t.targets[q].deploymentId in Listed(t.targets);
    WantedBounds(apps[t.appId], deps, m, t.targets[q].deploymentId, t.targets[q].desiredCount);
  }

  /** No two targets are for the same deployment of the same application. */
  lemma TargetsApart(results: seq<AppTarget>, apps: AppTable, deps: DeploymentTable, m: Table, p: nat, q: nat, i: nat, j: nat)
    requires PlannedFor(results, apps, deps, m, apps.Keys)
    requires p < |results| && q < |results[p].targets| && i < |results| && j < |results[i].targets|
    requires results[i].appId == results[p].appId
    requires results[i].targets[j].deploymentId == results[p].targets[q].deploymentId
    ensures i == p && j == q
  {
    assert IsTargetFor(results[p], apps[results[p].appId], deps, m);
  }

  lemma NextTarget(m: Table, before: Table, after: Table, results: seq<AppTarget>, p: nat, q: nat,
                   apps: AppTable, deps: DeploymentTable, drainTimeout: Time, now: Time)
    requires PlannedFor(results, apps, deps, m, apps.Keys)
    requires p < |results| && q < |results[p].targets|
    requires GroupsDone(m, before, results, p, q, drainTimeout, now)
    requires
      var t := results[p].targets[q];
      Scaled(before, after, results[p].appId, t.deploymentId, t.desiredCount, drainTimeout, now)
    ensures GroupsDone(m, after, results, p, q + 1, drainTimeout, now)
  {
    var t := results[p].targets[q];
    var a0 := results[p].appId;
    var q' := q + 1;
    ThisTarget(results, apps, deps, m, p, q);
    ScaledOwnGroup(before, after, a0, t.deploymentId, t.desiredCount, drainTimeout, now);
    forall a, d
      ensures GroupDone(m, after, results, p, q', drainTimeout, now, a, d)
    {
      assert GroupDone(m, before, results, p, q, drainTimeout, now, a, d);
      if a != a0 || d != t.deploymentId {
        ScaledOtherGroup(before, after, a0, t.deploymentId, t.desiredCount, drainTimeout, now, a, d);
        OtherTarget(results, p, q, a, d);
      }
    }
  }

  lemma ThisTarget(results: seq<AppTarget>, apps: AppTable, deps: DeploymentTable, m: Table, p: nat, q: nat)
    requires PlannedFor(results, apps, deps, m, apps.Keys)
    requires p < |results| && q < |results[p].targets|
    ensures
      var t := results[p].targets[q];
      var a := results[p].appId;
      && TargetBefore(results, p, q + 1, a, t.deploymentId, t.desiredCount)
      && forall n :: !TargetBefore(results, p, q, a, t.deploymentId, n)
                     && (TargetBefore(results, p, q + 1, a, t.deploymentId, n) ==> n == t.desiredCount)
  {
    var t := results[p].targets[q];
    var a := results[p].appId;
    assert results[p].targets[q] == DeploymentTarget(t.deploymentId, t.desiredCount);
    forall i: nat, j: nat | i < |results| && j < |results[i].targets| && results[i].appId == a
                            && results[i].targets[j].deploymentId == t.deploymentId
      ensures i == p && j == q
    {
      TargetsApart(results, apps, deps, m, p, q, i, j);
    }
  }

  lemma OtherTarget(results: seq<AppTarget>, p: nat, q: nat, a: Id, d: Id)
    requires p < |results| && q < |results[p].targets|
    requires a != results[p].appId || d != results[p].targets[q].deploymentId
    ensures forall n :: TargetBefore(results, p, q + 1, a, d, n) <==> TargetBefore(results, p, q, a, d, n)
  {
  }

  lemma ScaledOwnGroup(m: Table, m': Table, a: Id, d: Id, n: int, drainTimeout: Time, now: Time)
    requires Scaled(m, m', a, d, n, drainTimeout, now)
    ensures Scaled(Group(m, a, d), Group(m', a, d), a, d, n, drainTimeout, now)
  {
    var viable := Where(m, ViableIn(a, d));
    assert Where(Group(m, a, d), ViableIn(a, d)) == viable;
    if |viable| < n {
      GrownOwnGroup(m, m', a, d, n - |viable|, now);
    } else {
      var victims :| AreVictims(m, viable, victims, |viable| - n) && m' == Shrunk(m, victims, drainTimeout, now);
      ShrunkGroup(m, victims, drainTimeout, now, a, d);
      assert AreVictims(Group(m, a, d), viable, victims, |viable| - n);
    }
  }

  lemma ScaledOtherGroup(m: Table, m': Table, a0: Id, d0: Id, n: int, drainTimeout: Time, now: Time, a: Id, d: Id)
    requires Scaled(m, m', a0, d0, n, drainTimeout, now)
    requires a != a0 || d != d0
    ensures Group(m', a, d) == Group(m, a, d)
  {
    var viable := Where(m, ViableIn(a0, d0));
    if |viable| < n {
      GrownOtherGroup(m, m', a0, d0, n - |viable|, now, a, d);
    } else {
      var victims :| AreVictims(m, viable, victims, |viable| - n) && m' == Shrunk(m, victims, drainTimeout, now);
      ShrunkOtherGroup(m, victims, drainTimeout, now, a0, d0, a, d);
    }
  }

  lemma ShrunkOtherGroup(m: Table, victims: set<Id>, drainTimeout: Time, now: Time, a0: Id, d0: Id, a: Id, d: Id)
    requires victims <= Where(m, ViableIn(a0, d0)) && (a != a0 || d != d0)
    ensures Group(Shrunk(m, victims, drainTimeout, now), a, d) == Group(m, a, d)
  {
    ShrunkGroup(m, victims, drainTimeout, now, a, d);
    OthersShrinkNot(Group(m, a, d), victims, drainTimeout, now);
  }

  lemma OthersShrinkNot(g: Table, victims: set<Id>, drainTimeout: Time, now: Time)
    requires forall id :: id in g ==> id !in victims
    ensures Shrunk(g, victims, drainTimeout, now) == g
  {
  }

  lemma GrownOwnGroup(m: Table, m': Table, a: Id, d: Id, k: int, now: Time)
    requires Grown(m, m', a, d, k, now)
    ensures Grown(Group(m, a, d), Group(m', a, d), a, d, k, now)
  {
    assert NewIds(Group(m, a, d), Group(m', a, d)) == NewIds(m, m');
  }

  lemma GrownOtherGroup(m: Table, m': Table, a0: Id, d0: Id, k: int, now: Time, a: Id, d: Id)
    requires Grown(m, m', a0, d0, k, now)
    requires a != a0 || d != d0
    ensures Group(m', a, d) == Group(m, a, d)
  {
    forall id | id in Group(m', a, d)
      ensures id in m
    {
      assert id !in m ==> m'[id] == NewInstance(id, a0, d0, now);
    }
  }

  lemma RetiredStays(i: Instance, drainTimeout: Time, now: Time)
    ensures Retired(i, drainTimeout, now).applicationId == i.applicationId
    ensures Retired(i, drainTimeout, now).deploymentId == i.deploymentId
  {
  }

  lemma ShrunkGroup(m: Table, victims: set<Id>, drainTimeout: Time, now: Time, a: Id, d: Id)
    ensures Group(Shrunk(m, victims, drainTimeout, now), a, d) == Shrunk(Group(m, a, d), victims, drainTimeout, now)
  {
    var m' := Shrunk(m, victims, drainTimeout, now);
    forall id | id in m
      ensures m'[id].applicationId == m[id].applicationId && m'[id].deploymentId == m[id].deploymentId
    {
      RetiredStays(m[id], drainTimeout, now);
    }
  }

  // ----- lemmas for the loops

  lemma HealthFoldStep(deps: DeploymentTable, m: Table, order: seq<Id>, id: Id, now: Time)
    requires id in m
    ensures HealthFold(deps, m, order + [id], now) == HealthRecorded(HealthFold(deps, m, order, now), m[id], now)
  {
    assert (order + [id])[..|order|] == order;
  }

  /** A visit of every member of `s`, once. */
  ghost predicate IsOrder(order: seq<Id>, s: set<Id>) {
    && Elements(order) == s
    && forall i, j :: 0 <= i < j < |order| ==> order[i] != order[j]
  }

  lemma OrderOneMore(order: seq<Id>, s: set<Id>, id: Id)
    requires IsOrder(order, s) && id !in s
    ensures IsOrder(order + [id], s + {id})
  {
    assert Elements(order + [id]) == Elements(order) + {id};
    assert forall i :: 0 <= i < |order| ==> order[i] in Elements(order);
  }

  lemma EvaluateOneMore(m: Table, done: set<Id>, id: Id, now: Time)
    requires id in m && id !in done
    ensures AllEvaluated(m, done, now)[id] == m[id]
    ensures AllEvaluated(m, done + {id}, now) == AllEvaluated(m, done, now)[id := Evaluated(m[id], now)]
  {
  }

  lemma GrowOneMore(before: Table, grown: Table, inst: Instance, app: Id, dep: Id, k: nat, now: Time)
    requires Grown(before, grown, app, dep, k, now)
    requires inst.id !in grown && inst.id != NO_ID && inst == NewInstance(inst.id, app, dep, now)
    ensures Grown(before, grown[inst.id := inst], app, dep, k + 1, now)
  {
    var after := grown[inst.id := inst];
    var added := NewIds(before, grown);
    assert NewIds(before, after) == added + {inst.id};
    assert inst.id !in added;
    forall id | id in after && id !in before
      ensures id != NO_ID && after[id] == NewInstance(id, app, dep, now)
    {
    }
  }

  ghost function IdsOf(s: set<Instance>): set<Id> {
    set i | i in s :: i.id
  }

  ghost function IdsUpTo(ranked: seq<Instance>, k: nat): set<Id>
    requires k <= |ranked|
  {
    set i | 0 <= i < k :: ranked[i].id
  }

  ghost predicate DistinctIds(s: set<Instance>) {
    forall a, b :: a in s && b in s && a.id == b.id ==> a == b
  }

  /** Ranked instances of different ids are strictly ordered. */
  lemma RankedApart(viable: set<Instance>, ranked: seq<Instance>)
    requires DistinctIds(viable)
    requires SortedBy(ranked, VictimBefore)
    requires (forall y :: y in ranked <==> y in viable) && |ranked| == |viable|
    ensures forall i, j :: 0 <= i < j < |ranked| ==> ranked[i].id != ranked[j].id && VictimBefore(ranked[i], ranked[j])
  {
    assert Elements(ranked) == viable;
    DistinctByCount(ranked);
    forall i, j | 0 <= i < j < |ranked|
      ensures ranked[i].id != ranked[j].id && VictimBefore(ranked[i], ranked[j])
    {
      assert ranked[i] in viable && ranked[j] in viable;
      LessTotal(ranked[i].id, ranked[j].id);
    }
  }

  lemma NobodyRetired(m: Table, ranked: seq<Instance>, drainTimeout: Time, now: Time)
    ensures Shrunk(m, IdsUpTo(ranked, 0), drainTimeout, now) == m
  {
  }

  lemma RetireOneMore(m: Table, victims: set<Id>, v: Instance, drainTimeout: Time, now: Time)
    requires v.id in m && m[v.id] == v && v.id !in victims
    ensures Shrunk(m, victims, drainTimeout, now)[v.id] == v
    ensures Shrunk(m, victims + {v.id}, drainTimeout, now)
         == Shrunk(m, victims, drainTimeout, now)[v.id := Retired(v, drainTimeout, now)]
  {
  }

  lemma NextVictim(before: Table, ranked: seq<Instance>, k: nat)
    requires k < |ranked|
    requires forall i, j :: 0 <= i < j < |ranked| ==> ranked[i].id != ranked[j].id
    ensures ranked[k].id !in IdsUpTo(ranked, k)
    ensures IdsUpTo(ranked, k + 1) == IdsUpTo(ranked, k) + {ranked[k].id}
  {
  }

  lemma PrefixAreVictims(before: Table, viable: set<Instance>, ranked: seq<Instance>, k: nat)
    requires forall v :: v in viable ==> v.id in before && before[v.id] == v
    requires forall y :: y in ranked <==> y in viable
    requires forall i, j :: 0 <= i < j < |ranked| ==> ranked[i].id != ranked[j].id && VictimBefore(ranked[i], ranked[j])
    requires k <= |ranked|
    ensures AreVictims(before, IdsOf(viable), IdsUpTo(ranked, k), k)
  {
    var victims := IdsUpTo(ranked, k);
    IdsUpToSize(ranked, k);
    forall v | v in victims ensures v in IdsOf(viable) {
      var i :| 0 <= i < k && ranked[i].id == v;
      assert ranked[i] in viable;
    }
    forall v, w | v in victims && w in IdsOf(viable) && w !in victims
      ensures VictimBefore(before[v], before[w])
    {
      var i :| 0 <= i < k && ranked[i].id == v;
      var b :| b in viable && b.id == w;
      var j :| 0 <= j < |ranked| && ranked[j] == b;
      assert ranked[i] in viable;
    }
  }

  lemma {:induction false} IdsUpToSize(ranked: seq<Instance>, k: nat)
    requires k <= |ranked|
    requires forall i, j :: 0 <= i < j < |ranked| ==> ranked[i].id != ranked[j].id
    ensures |IdsUpTo(ranked, k)| == k
  {
    if k > 0 {
      IdsUpToSize(ranked, k - 1);
      NextVictim(map[], ranked, k - 1);
    }
  }

  lemma ViableListing(m: Table, app: Id, dep: Id, viable: set<Instance>)
    requires Instances.WellKeyed(m)
    requires viable == set id | id in m && ViableIn(app, dep)(m[id]) :: m[id]
    ensures IdsOf(viable) == Where(m, ViableIn(app, dep)) && |viable| == |Where(m, ViableIn(app, dep))|
    ensures forall v :: v in viable ==> v.id in m && m[v.id] == v && Viable(v.status)
  {
    forall id | id in Where(m, ViableIn(app, dep)) ensures id in IdsOf(viable) {
      assert m[id] in viable && m[id].id == id;
    }
    SameSize(viable);
  }

  lemma {:induction false} SameSize(s: set<Instance>)
    requires DistinctIds(s)
    ensures |IdsOf(s)| == |s|
  {
    if s != {} {
      var x :| x in s;
      SameSize(s - {x});
      assert IdsOf(s) == IdsOf(s - {x}) + {x.id};
    }
  }

  lemma NoVictims(m: Table, app: Id, dep: Id, drainTimeout: Time, now: Time)
    ensures Scaled(m, m, app, dep, |Where(m, ViableIn(app, dep))|, drainTimeout, now)
  {
    var viable := Where(m, ViableIn(app, dep));
    assert AreVictims(m, viable, {}, 0) && m == Shrunk(m, {}, drainTimeout, now);
  }
}
