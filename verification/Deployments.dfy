/** Applications and the deployment registry: immutable spec snapshots with rollout bookkeeping,
    a crash counter and the degraded latch. */
module Deployments {
  import opened Ids

  datatype StrategyKind = Immediate | RollingUpdate | OtherKind(name: string)

  datatype Strategy = Strategy(kind: StrategyKind, maxSurge: int, maxUnavailable: int)

  datatype Resources = Resources(cpu: real, memoryMB: int)

  datatype Container = Container(image: string, command: seq<string>, args: seq<string>, env: map<string, string>)

  datatype AppSpec = AppSpec(
    replicas: int,
    strategy: Option<Strategy>,
    resources: Option<Resources>,
    container: Container)

  datatype AppStatus = AppPending | AppDeploying | AppReady | AppDegraded | AppStopped

  datatype Application = Application(
    id: Id,
    name: string,
    spec: AppSpec,
    activeDeploymentId: Id,
    status: AppStatus)

  datatype DeploymentStatus = Active | Superseded | DeploymentFailed | DeploymentRolledBack

  datatype RolloutStatus =
    RolloutPending | RolloutProgressing | RolloutPaused | RolloutFailed | RolloutCompleted | RolloutRolledBack

  datatype Deployment = Deployment(
    id: Id,
    applicationId: Id,
    version: int,
    spec: AppSpec,
    hash: string,
    status: DeploymentStatus,
    rolloutStatus: RolloutStatus,
    desiredReplicas: int,
    updatedReplicas: int,
    readyReplicas: int,
    unavailableReplicas: int,
    blockedReason: string,
    consecutiveCrashes: int,
    degraded: bool)

  type DeploymentTable = map<Id, Deployment>

  const MAX_CRASH_LOOP_THRESHOLD := 5

  function CrashRecorded(d: Deployment, threshold: int): Deployment {
    d.(consecutiveCrashes := d.consecutiveCrashes + 1,
       degraded := d.degraded || d.consecutiveCrashes + 1 >= threshold)
  }

  function CounterReset(d: Deployment): Deployment {
    d.(consecutiveCrashes := 0)
  }

  function RolloutSet(d: Deployment, status: RolloutStatus, reason: string): Deployment {
    d.(rolloutStatus := status, blockedReason := reason)
  }

  function MetricsSet(d: Deployment, status: RolloutStatus, desired: int, updated: int, ready: int,
                      unavailable: int, reason: string): Deployment
  {
    d.(rolloutStatus := status, desiredReplicas := desired, updatedReplicas := updated,
       readyReplicas := ready, unavailableReplicas := unavailable, blockedReason := reason)
  }

  ghost predicate WellKeyed(m: DeploymentTable) {
    forall id :: id in m ==> id != NO_ID && m[id].id == id
  }

  /** What no operation on a deployment changes, and the latch no operation releases. */
  ghost predicate Latched(a: Deployment, b: Deployment) {
    && b.id == a.id && b.applicationId == a.applicationId && b.spec == a.spec
    && b.version == a.version && b.hash == a.hash
    && (a.degraded ==> b.degraded)
  }

  ghost predicate TableLatched(m: DeploymentTable, m': DeploymentTable) {
    forall id :: id in m ==> id in m' && Latched(m[id], m'[id])
  }

  lemma TableLatchedTransitive(a: DeploymentTable, b: DeploymentTable, c: DeploymentTable)
    requires TableLatched(a, b) && TableLatched(b, c)
    ensures TableLatched(a, c)
  {
    forall id | id in a
      ensures id in c && Latched(a[id], c[id])
    {
      assert Latched(a[id], b[id]) && Latched(b[id], c[id]);
    }
  }

  class DeploymentRegistry {
    var deployments: DeploymentTable
    var appVersions: map<Id, int>

    ghost predicate Valid()
      reads this
    {
      WellKeyed(deployments)
    }

    constructor ()
      ensures Valid() && deployments == map[] && appVersions == map[]
    {
      deployments := map[];
      appVersions := map[];
    }

    method Create(app: Id, spec: AppSpec, hash: string) returns (dep: Deployment)
      requires Valid()
      modifies this
      ensures Valid()
      ensures dep.id !in old(deployments) && deployments == old(deployments)[dep.id := dep]
      ensures dep.applicationId == app && dep.spec == spec && dep.hash == hash && !dep.degraded
      ensures dep.status.Active? && dep.rolloutStatus.RolloutPending?
      ensures dep.version == (if app in old(appVersions) then old(appVersions)[app] else 0) + 1
      ensures appVersions == old(appVersions)[app := dep.version]
    {
      var version := (if app in appVersions then appVersions[app] else 0) + 1;
      appVersions := appVersions[app := version];
      var id := GenerateId(deployments.Keys);
      dep := Deployment(id, app, version, spec, hash, Active, RolloutPending, 0, 0, 0, 0, "", 0, false);
      deployments := deployments[id := dep];
    }

    method UpdateState(id: Id, status: DeploymentStatus) returns (found: bool)
      requires Valid()
      modifies this`deployments
      ensures Valid()
      ensures found <==> id in old(deployments)
      ensures found ==> deployments == old(deployments)[id := old(deployments)[id].(status := status)]
      ensures !found ==> deployments == old(deployments)
      ensures TableLatched(old(deployments), deployments)
    {
      found := id in deployments;
      if found {
        deployments := deployments[id := deployments[id].(status := status)];
      }
    }

    method RecordCrash(id: Id, threshold: int) returns (found: bool)
      requires Valid()
      modifies this`deployments
      ensures Valid()
      ensures found <==> id in old(deployments)
      ensures found ==> deployments == old(deployments)[id := CrashRecorded(old(deployments)[id], threshold)]
      ensures found ==> deployments[id].consecutiveCrashes == old(deployments)[id].consecutiveCrashes + 1
      ensures found ==>
                (deployments[id].degraded
                 <==> old(deployments)[id].degraded || old(deployments)[id].consecutiveCrashes + 1 >= threshold)
      ensures !found ==> deployments == old(deployments)
      ensures TableLatched(old(deployments), deployments)
    {
      found := id in deployments;
      if found {
        var dep := deployments[id];
        dep := dep.(consecutiveCrashes := dep.consecutiveCrashes + 1);
        if dep.consecutiveCrashes >= threshold {
          dep := dep.(degraded := true);
        }
        deployments := deployments[id := dep];
      }
    }

    method ResetCrashCounter(id: Id) returns (found: bool)
      requires Valid()
      modifies this`deployments
      ensures Valid()
      ensures found <==> id in old(deployments)
      ensures found ==> deployments == old(deployments)[id := CounterReset(old(deployments)[id])]
      ensures found ==> deployments[id] == old(deployments)[id].(consecutiveCrashes := 0)
      ensures !found ==> deployments == old(deployments)
      ensures TableLatched(old(deployments), deployments)
    {
      found := id in deployments;
      if found {
        deployments := deployments[id := deployments[id].(consecutiveCrashes := 0)];
      }
    }

    method UpdateRolloutStatus(id: Id, status: RolloutStatus, desired: int, updated: int, ready: int,
                               unavailable: int, reason: string) returns (found: bool)
      requires Valid()
      modifies this`deployments
      ensures Valid()
      ensures found <==> id in old(deployments)
      ensures found ==> deployments == old(deployments)[id := MetricsSet(old(deployments)[id], status, desired, updated, ready, unavailable, reason)]
      ensures found ==> deployments[id] == old(deployments)[id].(
                          rolloutStatus := status, desiredReplicas := desired, updatedReplicas := updated,
                          readyReplicas := ready, unavailableReplicas := unavailable, blockedReason := reason)
      ensures !found ==> deployments == old(deployments)
      ensures TableLatched(old(deployments), deployments)
    {
      found := id in deployments;
      if found {
        var dep := deployments[id];
        dep := dep.(rolloutStatus := status);
        dep := dep.(desiredReplicas := desired);
        dep := dep.(updatedReplicas := updated);
        dep := dep.(readyReplicas := ready);
        dep := dep.(unavailableReplicas := unavailable);
        dep := dep.(blockedReason := reason);
        deployments := deployments[id := dep];
      }
    }

    method UpdateRolloutStatusOnly(id: Id, status: RolloutStatus, reason: string) returns (found: bool)
      requires Valid()
      modifies this`deployments
      ensures Valid()
      ensures found <==> id in old(deployments)
      ensures found ==> deployments == old(deployments)[id := RolloutSet(old(deployments)[id], status, reason)]
      ensures found ==> deployments[id] == old(deployments)[id].(rolloutStatus := status, blockedReason := reason)
      ensures !found ==> deployments == old(deployments)
      ensures TableLatched(old(deployments), deployments)
    {
      found := id in deployments;
      if found {
        var dep := deployments[id];
        dep := dep.(rolloutStatus := status);
        dep := dep.(blockedReason := reason);
        deployments := deployments[id := dep];
      }
    }
  }
}
