/** A rolling update from any number of old deployments, under any drain period: what a pass does to each
    deployment, the ceiling it keeps over whole runs, and when live totals go beyond it. */
module Rollouts {
  import opened Ids
  import opened Instances
  import opened Deployments
  import opened RolloutMath
  import opened RolloutController
  import opened TargetLaws
  import opened Reconciler
  import opened PassLaws
  import opened Draining

  /** The application being rolled, its active deployment and its parameters. */
  datatype Rollout = Rollout(app: Id, active: Id, params: Params)

  datatype State = State(instances: Table, deployments: DeploymentTable)

  function StayingOutside(app: Id, dep: Id): Instance -> bool {
    (i: Instance) => i.applicationId == app && i.deploymentId != dep && Viable(i.status) && !i.draining
  }

  function ServingOutside(app: Id, dep: Id): Instance -> bool {
    (i: Instance) => i.applicationId == app && i.deploymentId != dep && Ready(i) && !i.draining
  }

  ghost function CountsIn(m: Table, r: Rollout): Counts {
    Counts(ActiveViable(m, r.app, r.active), ActiveReady(m, r.app, r.active), OldViable(m, r.app, r.active),
           |Where(m, StayingOutside(r.app, r.active))|, |Where(m, ServingOutside(r.app, r.active))|)
  }

  ghost function CountsAt(s: State, r: Rollout): Counts { CountsIn(s.instances, r) }

  ghost function PlanAt(s: State, r: Rollout): Plan { PlanOf(r.params, CountsAt(s, r)) }

  /** The active deployment is the application's, rolls with the given parameters and is not degraded. */
  ghost predicate RollsAlong(deps: DeploymentTable, r: Rollout) {
    && Deployments.WellKeyed(deps) && SpecsValidated(deps)
    && r.active != NO_ID && r.active in AppDeps(deps, r.app)
    && !IsImmediate(deps[r.active].spec) && ParamsOf(deps[r.active].spec) == r.params
    && !deps[r.active].degraded
  }

  /** The application's instances belong to its deployments. */
  ghost predicate Homed(m: Table, deps: DeploymentTable, app: Id) {
    forall id :: id in m && m[id].applicationId == app ==> m[id].deploymentId in AppDeps(deps, app)
  }

  ghost predicate Rolling(s: State, r: Rollout) {
    && r.params.Sane()
    && AllLifecycle(s.instances) && Owned(s.instances, s.deployments)
    && Homed(s.instances, s.deployments, r.app) && RollsAlong(s.deployments, r)
  }

  /** No instance of the application is failing when the pass runs. */
  ghost predicate Calm(m: Table, r: Rollout, online: set<Id>) {
    forall id :: id in m && m[id].applicationId == r.app ==>
      && !m[id].status.Unknown?
      && (m[id].nodeId != NO_ID ==> m[id].nodeId in online)
      && !(m[id].status.Running? && m[id].health.Unhealthy?)
  }

  ghost predicate Rolls(apps: AppTable, r: Rollout) {
    AppsKeyed(apps) && r.app in apps && apps[r.app].activeDeploymentId == r.active
  }

  /** A reconcile pass while nothing fails, with its drain period and its instant. */
  ghost predicate PassAt(s: State, s': State, r: Rollout, drainTimeout: Time, now: Time) {
    exists apps, online ::
      && Rolls(apps, r) && Calm(s.instances, r, online)
      && Pass(s.instances, s.deployments, s'.instances, s'.deployments, apps, online, drainTimeout, now)
  }

  ghost predicate PassStep(s: State, s': State, r: Rollout) {
    exists drainTimeout, now :: PassAt(s, s', r, drainTimeout, now)
  }

  /** What agents, the scheduler and other applications may do between passes: instances of this
      application are neither created nor lost, and none that serves stops doing so. */
  ghost predicate AgentStep(s: State, s': State, r: Rollout) {
    && (forall id :: id in s.instances && s.instances[id].applicationId == r.app ==>
          id in s'.instances && Carries(s.instances[id], s'.instances[id]))
    && (forall id :: id in s'.instances && s'.instances[id].applicationId == r.app ==>
          id in s.instances && s.instances[id].applicationId == r.app)
    && AllLifecycle(s'.instances) && Owned(s'.instances, s'.deployments)
    && RollsAlong(s'.deployments, r) && AppDeps(s'.deployments, r.app) == AppDeps(s.deployments, r.app)
    && StatusAt(s', r) == StatusAt(s, r)
  }

  ghost predicate Carries(i: Instance, i': Instance) {
    && i'.applicationId == i.applicationId && i'.deploymentId == i.deploymentId
    && Viable(i'.status) == Viable(i.status) && i'.draining == i.draining && i'.drainStartedAt == i.drainStartedAt
    && (Ready(i) && !i.draining ==> Ready(i'))
  }

  ghost function StatusAt(s: State, r: Rollout): RolloutStatus {
    if r.active in s.deployments then s.deployments[r.active].rolloutStatus else RolloutPending
  }

  /** Scheduling, claiming, and reporting RUNNING without spoiling health are such steps; a report of RUNNING
      is one if and only if the instance counted before and serves on if it served. */
  lemma EditCarries(i: Instance, e: Edit, now: Time)
    requires Lifecycle(i) && Allowed(i, e)
    ensures e.Schedule? || e.ClaimBy? ==> Carries(i, Edited(i, e, now))
    ensures e.Report? && e.status.Running? ==>
              (Carries(i, Edited(i, e, now))
               <==> Viable(i.status) && (Ready(i) && !i.draining ==> e.health.Healthy? || e.health.NoHealth?))
  {
  }

  lemma EditIsAgentStep(s: State, r: Rollout, id: Id, e: Edit, now: Time)
    requires Rolling(s, r) && id in s.instances && Allowed(s.instances[id], e)
    requires Carries(s.instances[id], Edited(s.instances[id], e, now))
    ensures AgentStep(s, s.(instances := s.instances[id := Edited(s.instances[id], e, now)]), r)
  {
    EditKeepsLifecycle(s.instances[id], e, now);
    ReplacedRecords(s.instances, s.deployments, id, Edited(s.instances[id], e, now));
  }

  lemma ReplacedRecords(m: Table, deps: DeploymentTable, id: Id, i: Instance)
    requires AllLifecycle(m) && Owned(m, deps) && id in m && Lifecycle(i) && i.id == id && Carries(m[id], i)
    ensures AllLifecycle(m[id := i]) && Owned(m[id := i], deps)
    ensures forall x :: x in m ==> Carries(m[x], m[id := i][x])
  {
  }

  // ----- from a pass to the deployments of the application

  /** The old deployments in the order in which they are served. */
  ghost function Olds(s: State, r: Rollout): seq<Id> { Sorted(AppDeps(s.deployments, r.app) - {r.active}) }

  ghost function Shares(s: State, r: Rollout): (shares: seq<int>)
    ensures |shares| == |Olds(s, r)|
  {
    Greedy(Held(s.instances, r.app, Olds(s, r)), PlanAt(s, r).oldTotal)
  }

  /** What the controller asks of a deployment of the application. */
  ghost predicate AskedOf(s: State, r: Rollout, d: Id, n: int) {
    if d == r.active then n == PlanAt(s, r).active
    else exists k :: 0 <= k < |Olds(s, r)| && Olds(s, r)[k] == d && n == Shares(s, r)[k]
  }

  lemma CalmGroups(m: Table, r: Rollout, online: set<Id>, now: Time, d: Id)
    requires Calm(m, r, online)
    ensures Group(Settle(m, online, now), r.app, d) == Group(m, r.app, d)
    ensures Where(Settle(m, online, now), ViableIn(r.app, d)) == Where(m, ViableIn(r.app, d))
    ensures Where(Settle(m, online, now), ReadyIn(r.app, d)) == Where(m, ReadyIn(r.app, d))
    ensures Where(Settle(m, online, now), ViableOutside(r.app, d)) == Where(m, ViableOutside(r.app, d))
  {
    CalmSettles(m, r, online, now);
    var m2 := Settle(m, online, now);
    forall id ensures id in Where(m2, ViableIn(r.app, d)) <==> id in Where(m, ViableIn(r.app, d)) {
    }
    forall id ensures id in Where(m2, ReadyIn(r.app, d)) <==> id in Where(m, ReadyIn(r.app, d)) {
    }
    forall id ensures id in Where(m2, ViableOutside(r.app, d)) <==> id in Where(m, ViableOutside(r.app, d)) {
    }
  }

  lemma CalmSettles(m: Table, r: Rollout, online: set<Id>, now: Time)
    requires Calm(m, r, online)
    ensures forall id :: id in m && m[id].applicationId == r.app ==> Settle(m, online, now)[id] == m[id]
    ensures Settle(m, online, now).Keys == m.Keys
    ensures forall id :: id in m ==> Settle(m, online, now)[id].applicationId == m[id].applicationId
  {
  }

  lemma {:induction false} HealthFoldSpares(deps: DeploymentTable, m: Table, order: seq<Id>, now: Time, d: Id)
    requires Deployments.WellKeyed(deps) && d in deps
    requires forall id :: id in m && m[id].deploymentId == d ==> !(m[id].status.Running? && m[id].health.Unhealthy?)
    ensures d in HealthFold(deps, m, order, now)
    ensures HealthFold(deps, m, order, now)[d].degraded == deps[d].degraded
    ensures HealthFold(deps, m, order, now)[d].rolloutStatus == deps[d].rolloutStatus
  {
    HealthFoldLatches(deps, m, order, now);
    if order != [] {
      HealthFoldSpares(deps, m, order[..|order| - 1], now, d);
    }
  }

  /** The deployment table the targets are computed from. */
  ghost function CountedAt(s: State, online: set<Id>, now: Time, order: seq<Id>): DeploymentTable {
    HealthFold(s.deployments, Recover(s.instances, online, now), order, now)
  }

  lemma CountedRollsAlong(s: State, r: Rollout, online: set<Id>, now: Time, order: seq<Id>)
    requires Rolling(s, r) && Calm(s.instances, r, online)
    ensures RollsAlong(CountedAt(s, online, now, order), r)
    ensures AppDeps(CountedAt(s, online, now, order), r.app) == AppDeps(s.deployments, r.app)
    ensures CountedAt(s, online, now, order)[r.active].rolloutStatus == s.deployments[r.active].rolloutStatus
    ensures TableLatched(s.deployments, CountedAt(s, online, now, order))
  {
    var m1 := Recover(s.instances, online, now);
    var counted := CountedAt(s, online, now, order);
    HealthFoldLatches(s.deployments, m1, order, now);
    HealthFoldSpares(s.deployments, m1, order, now, r.active);
    SameShape(s.deployments, counted, r);
  }

  lemma SameShape(deps: DeploymentTable, deps': DeploymentTable, r: Rollout)
    requires RollsAlong(deps, r) && Deployments.WellKeyed(deps')
    requires TableLatched(deps, deps') && deps'.Keys == deps.Keys
    requires !deps'[r.active].degraded
    ensures RollsAlong(deps', r) && AppDeps(deps', r.app) == AppDeps(deps, r.app)
  {
    assert AppDeps(deps', r.app) == AppDeps(deps, r.app) by {
      assert forall d :: d in deps ==> Latched(deps[d], deps'[d]);
    }
    assert Latched(deps[r.active], deps'[r.active]);
  }

  lemma WantedIsAsked(s: State, r: Rollout, app: Application, deps: DeploymentTable, m: Table, d: Id, n: int)
    requires app.id == r.app && app.activeDeploymentId == r.active
    requires RollsAlong(deps, r) && AppDeps(deps, r.app) == AppDeps(s.deployments, r.app)
    requires HasTarget(app, deps) && d in AppDeps(deps, r.app) && Wanted(app, deps, m, d, n)
    requires forall x :: Where(m, ViableIn(r.app, x)) == Where(s.instances, ViableIn(r.app, x))
    requires Where(m, ReadyIn(r.app, r.active)) == Where(s.instances, ReadyIn(r.app, r.active))
    requires Where(m, ViableOutside(r.app, r.active)) == Where(s.instances, ViableOutside(r.app, r.active))
    ensures AskedOf(s, r, d, n)
  {
    assert RollingPlan(app, deps, m) == PlanAt(s, r);
    assert Held(m, app.id, OldDeps(app, deps)) == Held(s.instances, r.app, Olds(s, r));
  }

  /** What one pass does to one deployment of the application. */
  lemma PassScales(s: State, s': State, r: Rollout, drainTimeout: Time, now: Time, d: Id) returns (n: nat)
    requires Rolling(s, r) && PassAt(s, s', r, drainTimeout, now) && d in AppDeps(s.deployments, r.app)
    ensures AskedOf(s, r, d, n)
    ensures Scaled(Group(s.instances, r.app, d), Group(s'.instances, r.app, d), r.app, d, n, drainTimeout, now)
  {
    var apps, online :|
      && Rolls(apps, r) && Calm(s.instances, r, online)
      && Pass(s.instances, s.deployments, s'.instances, s'.deployments, apps, online, drainTimeout, now);
    var order, results :|
      PassWith(s.instances, s.deployments, s'.instances, s'.deployments, apps, online, drainTimeout, now, order, results);
    var m2 := Settle(s.instances, online, now);
    var counted := CountedAt(s, online, now, order);
    CountedRollsAlong(s, r, online, now, order);
    WantedIsTarget(results, apps, counted, m2, r.app, d);
    var k :| TargetBefore(results, |results|, 0, r.app, d, k);
    TargetIsWanted(results, apps, counted, m2, r.app, d, k);
    WantedBounds(apps[r.app], counted, m2, d, k);
    n := k;
    forall x ensures Where(m2, ViableIn(r.app, x)) == Where(s.instances, ViableIn(r.app, x)) {
      CalmGroups(s.instances, r, online, now, x);
    }
    CalmGroups(s.instances, r, online, now, r.active);
    CalmGroups(s.instances, r, online, now, d);
    WantedIsAsked(s, r, apps[r.app], counted, m2, d, n);
    assert GroupDone(m2, s'.instances, results, |results|, 0, drainTimeout, now, r.app, d);
  }

  lemma GroupIsOne(m: Table, a: Id, d: Id)
    requires AllLifecycle(m)
    ensures OneDeployment(Group(m, a, d), a, d)
  {
  }

  /** Counting in the table or in the group is the same. */
  lemma GroupCounts(m: Table, a: Id, d: Id)
    ensures Where(Group(m, a, d), ViableIn(a, d)) == Where(m, ViableIn(a, d))
    ensures Where(Group(m, a, d), ReadyIn(a, d)) == Where(m, ReadyIn(a, d))
    ensures Where(Group(m, a, d), StayingIn(a, d)) == Where(m, StayingIn(a, d))
    ensures Where(Group(m, a, d), ServingIn(a, d)) == Where(m, ServingIn(a, d))
  {
  }

  lemma GroupLingers(m: Table, a: Id, d: Id, n: int, drainTimeout: Time, now: Time)
    ensures Lingering(Group(m, a, d), a, d, n, drainTimeout, now) == Lingering(m, a, d, n, drainTimeout, now)
  {
    var g := Group(m, a, d);
    GroupCounts(m, a, d);
    var viable := Where(m, ViableIn(a, d));
    forall id | id in viable ensures Before(g, viable, id) == Before(m, viable, id) {
    }
  }

  /** The active deployment is never scaled down: its records stay as they are, new ones are fresh. */
  lemma ActiveGrows(s: State, s': State, r: Rollout, drainTimeout: Time, now: Time)
    requires Rolling(s, r) && PassAt(s, s', r, drainTimeout, now)
    ensures var g, g' := Group(s.instances, r.app, r.active), Group(s'.instances, r.app, r.active);
            && (forall id :: id in g ==> id in g' && g'[id] == g[id])
            && (forall id :: id in g' && id !in g ==> g'[id] == NewInstance(id, r.app, r.active, now))
    ensures ActiveViable(s'.instances, r.app, r.active) == PlanAt(s, r).active
    ensures ActiveReady(s'.instances, r.app, r.active) == ActiveReady(s.instances, r.app, r.active)
  {
    var n := PassScales(s, s', r, drainTimeout, now, r.active);
    GroupCounts(s.instances, r.app, r.active);
    GroupCounts(s'.instances, r.app, r.active);
    ScaledUp(Group(s.instances, r.app, r.active), Group(s'.instances, r.app, r.active), r.app, r.active, n, drainTimeout, now);
  }

  lemma AsApplication(r: Rollout) returns (app: Application)
    ensures app.id == r.app && app.activeDeploymentId == r.active
  {
    app := Application(r.app, "", AppSpec(0, None, None, Container("", [], [], map[])), r.active, AppPending);
  }

  /** The shares of the old deployments add up to the plan, and none exceeds what its deployment has. */
  lemma SharesOf(s: State, r: Rollout)
    requires Rolling(s, r)
    ensures Sum(Shares(s, r)) == PlanAt(s, r).oldTotal
    ensures forall k :: 0 <= k < |Olds(s, r)| ==> 0 <= Shares(s, r)[k] <= |Where(s.instances, ViableIn(r.app, Olds(s, r)[k]))|
  {
    var app := AsApplication(r);
    assert RollsOn(app, s.deployments) && Placed(s.instances, app, s.deployments);
    assert RollingPlan(app, s.deployments, s.instances) == PlanAt(s, r);
    SharesAddUp(app, s.deployments, s.instances);
  }

  lemma OldAt(s: State, r: Rollout, k: nat)
    requires k < |Olds(s, r)|
    ensures Olds(s, r)[k] in AppDeps(s.deployments, r.app) && Olds(s, r)[k] != r.active
    ensures forall n :: AskedOf(s, r, Olds(s, r)[k], n) ==> n == Shares(s, r)[k]
  {
    var ds := AppDeps(s.deployments, r.app) - {r.active};
    SortedPrefix(ds, k);
    SortedDistinct(ds);
  }

  /** How many of old deployment `k` a pass gives up without stopping them. */
  ghost function LingeringOf(s: State, r: Rollout, k: nat, drainTimeout: Time, now: Time): nat
    requires k < |Olds(s, r)|
  {
    |Lingering(s.instances, r.app, Olds(s, r)[k], Shares(s, r)[k], drainTimeout, now)|
  }

  /** Old deployment `k` after a pass. */
  lemma OldShrinks(s: State, s': State, r: Rollout, drainTimeout: Time, now: Time, k: nat)
    requires Rolling(s, r) && PassAt(s, s', r, drainTimeout, now) && k < |Olds(s, r)|
    ensures var d, n := Olds(s, r)[k], Shares(s, r)[k];
            && Scaled(Group(s.instances, r.app, d), Group(s'.instances, r.app, d), r.app, d, n, drainTimeout, now)
            && 0 <= n <= |Where(s.instances, ViableIn(r.app, d))|
            && |Where(s'.instances, StayingIn(r.app, d))| == Min(|Where(s.instances, StayingIn(r.app, d))|, n)
            && |Where(s'.instances, ServingIn(r.app, d))| == Min(|Where(s.instances, ServingIn(r.app, d))|, n)
            && |Where(s'.instances, ViableIn(r.app, d))| == n + LingeringOf(s, r, k, drainTimeout, now)
            && Where(s'.instances, ViableIn(r.app, d)) <= Where(s.instances, ViableIn(r.app, d))
            && Where(s'.instances, StayingIn(r.app, d)) <= Where(s.instances, StayingIn(r.app, d))
  {
    OldAt(s, r, k);
    SharesOf(s, r);
    var d := Olds(s, r)[k];
    var n := PassScales(s, s', r, drainTimeout, now, d);
    GroupIsOne(s.instances, r.app, d);
    GroupCounts(s.instances, r.app, d);
    GroupCounts(s'.instances, r.app, d);
    GroupLingers(s.instances, r.app, d, n, drainTimeout, now);
    ScaledDown(Group(s.instances, r.app, d), Group(s'.instances, r.app, d), r.app, d, n, drainTimeout, now);
  }

  // ----- what a pass keeps

  /** How the rollout status of the active deployment moves in one pass. */
  function NextStatus(status: RolloutStatus, p: Params, c: Counts): RolloutStatus {
    if status.RolloutPending? then RolloutProgressing
    else if c.activeReady == p.desired && c.oldViable == 0 then RolloutCompleted
    else status
  }

  ghost predicate RecordFits(i: Instance, app: Id, deps: DeploymentTable) {
    && (i.deploymentId in deps ==> deps[i.deploymentId].applicationId == i.applicationId)
    && (i.applicationId == app ==> i.deploymentId in AppDeps(deps, app))
  }

  lemma OldRecordFits(s: State, s': State, r: Rollout, apps: AppTable, online: set<Id>, drainTimeout: Time, now: Time,
                      order: seq<Id>, results: seq<AppTarget>, id: Id)
    requires Rolling(s, r) && id in s.instances
    requires PassWith(s.instances, s.deployments, s'.instances, s'.deployments, apps, online, drainTimeout, now, order, results)
    requires TableLatched(s.deployments, s'.deployments) && s'.deployments.Keys == s.deployments.Keys
    ensures id in s'.instances && RecordFits(s'.instances[id], r.app, s'.deployments)
  {
    var m := s.instances;
    var i := Settle(m, online, now)[id];
    PassRecords(m, s.deployments, s'.instances, s'.deployments, apps, online, drainTimeout, now, order, results, id);
    assert i == Evaluated(Recovered(m[id], online, now), now);
    SettledEvolves(m[id], online, now);
    RetiredStays(i, drainTimeout, now);
    if i.deploymentId in s.deployments {
      assert Latched(s.deployments[i.deploymentId], s'.deployments[i.deploymentId]);
    }
  }

  lemma NewRecordFits(s: State, s': State, r: Rollout, apps: AppTable, id: Id)
    requires Rolls(apps, r) && id in s'.instances && Entitled(s'.instances[id], apps, s'.deployments)
    ensures RecordFits(s'.instances[id], r.app, s'.deployments)
  {
  }

  lemma PassKeepsHomes(s: State, s': State, r: Rollout, apps: AppTable, online: set<Id>, drainTimeout: Time, now: Time,
                       order: seq<Id>, results: seq<AppTarget>)
    requires Rolling(s, r) && Rolls(apps, r)
    requires PassWith(s.instances, s.deployments, s'.instances, s'.deployments, apps, online, drainTimeout, now, order, results)
    requires Pass(s.instances, s.deployments, s'.instances, s'.deployments, apps, online, drainTimeout, now)
    ensures Homed(s'.instances, s'.deployments, r.app) && Owned(s'.instances, s'.deployments)
  {
    var m' := s'.instances;
    PassLatch(s.instances, s.deployments, m', s'.deployments, apps, online, drainTimeout, now);
    forall id | id in m' ensures RecordFits(m'[id], r.app, s'.deployments) {
      if id in s.instances {
        OldRecordFits(s, s', r, apps, online, drainTimeout, now, order, results, id);
      } else {
        NewRecordFits(s, s', r, apps, id);
      }
    }
  }

  lemma PassKeepsShape(s: State, s': State, r: Rollout, apps: AppTable, online: set<Id>, drainTimeout: Time, now: Time,
                       order: seq<Id>, results: seq<AppTarget>)
    requires Rolling(s, r) && Rolls(apps, r) && Calm(s.instances, r, online)
    requires PassWith(s.instances, s.deployments, s'.instances, s'.deployments, apps, online, drainTimeout, now, order, results)
    ensures RollsAlong(s'.deployments, r) && AppDeps(s'.deployments, r.app) == AppDeps(s.deployments, r.app)
  {
    var m2 := Settle(s.instances, online, now);
    var counted := CountedAt(s, online, now, order);
    CountedRollsAlong(s, r, online, now, order);
    MarkedLatches(apps, counted, m2);
    MarkKeepsHealth(apps, counted, m2, r.active);
    SameShape(counted, s'.deployments, r);
  }

  lemma PassMovesStatus(s: State, s': State, r: Rollout, apps: AppTable, online: set<Id>, drainTimeout: Time, now: Time,
                        order: seq<Id>, results: seq<AppTarget>)
    requires Rolling(s, r) && Rolls(apps, r) && Calm(s.instances, r, online)
    requires PassWith(s.instances, s.deployments, s'.instances, s'.deployments, apps, online, drainTimeout, now, order, results)
    ensures StatusAt(s', r) == NextStatus(StatusAt(s, r), r.params, CountsAt(s, r))
  {
    var m2 := Settle(s.instances, online, now);
    var counted := CountedAt(s, online, now, order);
    CountedRollsAlong(s, r, online, now, order);
    CalmGroups(s.instances, r, online, now, r.active);
    assert r.active in AppDeps(counted, r.app) && r.active in AppDeps(s.deployments, r.app);
    MarkedStatus(apps[r.app], counted, m2, r);
    assert s'.deployments[r.active] == Marked(apps[r.app], counted, m2, r.active);
  }

  lemma MarkedStatus(app: Application, deps: DeploymentTable, m: Table, r: Rollout)
    requires RollsAlong(deps, r) && app.id == r.app && app.activeDeploymentId == r.active && HasTarget(app, deps)
    ensures Marked(app, deps, m, r.active).rolloutStatus ==
            NextStatus(deps[r.active].rolloutStatus, r.params, CountsIn(m, r))
  {
  }

  /** A pass, whatever the drain period and however many old deployments there are. */
  lemma PassKeeps(s: State, s': State, r: Rollout, drainTimeout: Time, now: Time)
    requires Rolling(s, r) && PassAt(s, s', r, drainTimeout, now)
    ensures Rolling(s', r) && AppDeps(s'.deployments, r.app) == AppDeps(s.deployments, r.app)
    ensures TableEvolves(s.instances, s'.instances)
    ensures StatusAt(s', r) == NextStatus(StatusAt(s, r), r.params, CountsAt(s, r))
  {
    var apps, online :|
      && Rolls(apps, r) && Calm(s.instances, r, online)
      && Pass(s.instances, s.deployments, s'.instances, s'.deployments, apps, online, drainTimeout, now);
    var order, results :|
      PassWith(s.instances, s.deployments, s'.instances, s'.deployments, apps, online, drainTimeout, now, order, results);
    PassKeepsLifecycle(s.instances, s.deployments, s'.instances, s'.deployments, apps, online, drainTimeout, now);
    PassKeepsHomes(s, s', r, apps, online, drainTimeout, now, order, results);
    PassKeepsShape(s, s', r, apps, online, drainTimeout, now, order, results);
    PassMovesStatus(s, s', r, apps, online, drainTimeout, now, order, results);
  }

  // ----- sums over the old deployments

  lemma {:induction false} SumBounded(xs: seq<int>, ys: seq<int>)
    requires |xs| == |ys| && forall k :: 0 <= k < |xs| ==> xs[k] <= ys[k]
    ensures Sum(xs) <= Sum(ys)
  {
    if xs != [] {
      SumBounded(xs[1..], ys[1..]);
    }
  }

  lemma {:induction false} SumOfSums(xs: seq<int>, ys: seq<int>, zs: seq<int>)
    requires |xs| == |ys| == |zs| && forall k :: 0 <= k < |xs| ==> zs[k] == xs[k] + ys[k]
    ensures Sum(zs) == Sum(xs) + Sum(ys)
  {
    if xs != [] {
      SumOfSums(xs[1..], ys[1..], zs[1..]);
    }
  }

  ghost function Lingerings(s: State, r: Rollout, drainTimeout: Time, now: Time): (xs: seq<int>)
    ensures |xs| == |Olds(s, r)|
  {
    seq(|Olds(s, r)|, k requires 0 <= k < |Olds(s, r)| => LingeringOf(s, r, k, drainTimeout, now))
  }

  lemma OldStayingAddsUp(m: Table, deps: DeploymentTable, r: Rollout)
    requires Homed(m, deps, r.app)
    ensures |Where(m, StayingOutside(r.app, r.active))|
         == Sum(Sizes(m, r.app, IsStaying(), Sorted(AppDeps(deps, r.app) - {r.active})))
  {
    OldByDeployment(m, r.app, deps, r.active, IsStaying());
    forall id ensures id in Where(m, StayingOutside(r.app, r.active)) <==> id in Where(m, Outside(r.app, IsStaying(), r.active)) {
    }
    assert Where(m, StayingOutside(r.app, r.active)) == Where(m, Outside(r.app, IsStaying(), r.active));
  }

  lemma OldViableAddsUp(m: Table, deps: DeploymentTable, r: Rollout)
    requires Homed(m, deps, r.app)
    ensures OldViable(m, r.app, r.active) == Sum(Held(m, r.app, Sorted(AppDeps(deps, r.app) - {r.active})))
  {
    OldByDeployment(m, r.app, deps, r.active, IsViable());
    HeldAreSizes(m, r.app, Sorted(AppDeps(deps, r.app) - {r.active}));
    forall id ensures id in Where(m, ViableOutside(r.app, r.active)) <==> id in Where(m, Outside(r.app, IsViable(), r.active)) {
    }
    assert Where(m, ViableOutside(r.app, r.active)) == Where(m, Outside(r.app, IsViable(), r.active));
  }

  /** The staying instances of each old deployment after a pass are within its share. */
  lemma OldStayingAfter(s: State, s': State, r: Rollout, drainTimeout: Time, now: Time)
    requires Rolling(s, r) && PassAt(s, s', r, drainTimeout, now)
    ensures Sum(Sizes(s'.instances, r.app, IsStaying(), Olds(s, r))) <= Sum(Shares(s, r))
  {
    var olds := Olds(s, r);
    var staying := Sizes(s'.instances, r.app, IsStaying(), olds);
    forall k | 0 <= k < |olds| ensures staying[k] <= Shares(s, r)[k] {
      OldShrinks(s, s', r, drainTimeout, now, k);
      SizesAt(s'.instances, r.app, IsStaying(), olds, k);
      SameStaying(s'.instances, r.app, olds[k]);
    }
    SumBounded(staying, Shares(s, r));
  }

  /** Each old deployment has its share and what lingers of it. */
  lemma OldHeldAfter(s: State, s': State, r: Rollout, drainTimeout: Time, now: Time)
    requires Rolling(s, r) && PassAt(s, s', r, drainTimeout, now)
    ensures Sum(Held(s'.instances, r.app, Olds(s, r))) == Sum(Shares(s, r)) + Sum(Lingerings(s, r, drainTimeout, now))
  {
    var olds := Olds(s, r);
    var alive := Held(s'.instances, r.app, olds);
    forall k | 0 <= k < |olds| ensures alive[k] == Shares(s, r)[k] + Lingerings(s, r, drainTimeout, now)[k] {
      OldShrinks(s, s', r, drainTimeout, now, k);
    }
    SumOfSums(Shares(s, r), Lingerings(s, r, drainTimeout, now), alive);
  }

  /** After a pass the old instances that do not drain are at most the planned old total, and the old ones alive
      are exactly that total and those that linger. */
  lemma OldAfterPass(s: State, s': State, r: Rollout, drainTimeout: Time, now: Time)
    requires Rolling(s, r) && PassAt(s, s', r, drainTimeout, now)
    ensures CountsAt(s', r).oldStaying <= PlanAt(s, r).oldTotal
    ensures CountsAt(s', r).oldViable == PlanAt(s, r).oldTotal + Sum(Lingerings(s, r, drainTimeout, now))
  {
    PassKeeps(s, s', r, drainTimeout, now);
    SharesOf(s, r);
    OldStayingAddsUp(s'.instances, s'.deployments, r);
    OldViableAddsUp(s'.instances, s'.deployments, r);
    OldStayingAfter(s, s', r, drainTimeout, now);
    OldHeldAfter(s, s', r, drainTimeout, now);
  }

  lemma SameStaying(m: Table, app: Id, d: Id)
    ensures Where(m, OneOf(app, IsStaying(), d)) == Where(m, StayingIn(app, d))
  {
    forall id ensures id in Where(m, OneOf(app, IsStaying(), d)) <==> id in Where(m, StayingIn(app, d)) {
    }
  }

  // ----- the ceiling, over whole runs

  lemma CountsAreProper(m: Table, r: Rollout)
    ensures CountsIn(m, r).Proper()
  {
    SubsetSize(Where(m, ReadyIn(r.app, r.active)), Where(m, ViableIn(r.app, r.active)));
    SubsetSize(Where(m, StayingOutside(r.app, r.active)), Where(m, ViableOutside(r.app, r.active)));
    SubsetSize(Where(m, ServingOutside(r.app, r.active)), Where(m, StayingOutside(r.app, r.active)));
  }

  /** Between passes the counts only improve. */
  lemma AgentsProgress(s: State, s': State, r: Rollout)
    requires Rolling(s, r) && AgentStep(s, s', r) && ActiveStays(s.instances, r)
    ensures Rolling(s', r) && ActiveStays(s'.instances, r) && Progress(CountsAt(s, r), CountsAt(s', r))
    ensures AppDeps(s'.deployments, r.app) == AppDeps(s.deployments, r.app) && StatusAt(s', r) == StatusAt(s, r)
  {
    var m, m' := s.instances, s'.instances;
    CountsAreProper(m', r);
    AgentsKeepCounts(s, s', r);
    SubsetSize(Where(m, ReadyIn(r.app, r.active)), Where(m', ReadyIn(r.app, r.active)));
    SubsetSize(Where(m, ServingOutside(r.app, r.active)), Where(m', ServingOutside(r.app, r.active)));
  }

  lemma AgentsKeepCounts(s: State, s': State, r: Rollout)
    requires Rolling(s, r) && AgentStep(s, s', r)
    ensures Rolling(s', r)
    ensures CountsAt(s', r).activeViable == CountsAt(s, r).activeViable && CountsAt(s', r).oldViable == CountsAt(s, r).oldViable
    ensures CountsAt(s', r).oldStaying == CountsAt(s, r).oldStaying
  {
    var m, m' := s.instances, s'.instances;
    assert Where(m', ViableIn(r.app, r.active)) == Where(m, ViableIn(r.app, r.active));
    assert Where(m', ViableOutside(r.app, r.active)) == Where(m, ViableOutside(r.app, r.active));
    assert Where(m', StayingOutside(r.app, r.active)) == Where(m, StayingOutside(r.app, r.active));
  }

  /** No viable instance of the active deployment has been told to drain. */
  ghost predicate ActiveStays(m: Table, r: Rollout) {
    forall id :: id in m && m[id].applicationId == r.app && m[id].deploymentId == r.active && Viable(m[id].status)
      ==> !m[id].draining
  }

  lemma PassKeepsActive(s: State, s': State, r: Rollout, drainTimeout: Time, now: Time)
    requires Rolling(s, r) && ActiveStays(s.instances, r) && PassAt(s, s', r, drainTimeout, now)
    ensures ActiveStays(s'.instances, r)
  {
    ActiveGrows(s, s', r, drainTimeout, now);
    var g, g' := Group(s.instances, r.app, r.active), Group(s'.instances, r.app, r.active);
    forall id | id in s'.instances && s'.instances[id].applicationId == r.app && s'.instances[id].deploymentId == r.active
                && Viable(s'.instances[id].status)
      ensures !s'.instances[id].draining
    {
      assert id in g' && g'[id] == s'.instances[id];
    }
  }

  ghost predicate StepOf(s: State, s': State, r: Rollout) {
    PassStep(s, s', r) || AgentStep(s, s', r)
  }

  /** A run: passes, each with whatever drain period, and agents in between. */
  ghost predicate RunOf(run: seq<State>, r: Rollout) {
    && run != [] && Rolling(run[0], r)
    && forall k :: 0 < k < |run| ==> StepOf(run[k - 1], run[k], r)
  }

  lemma PassCeiling(s: State, s': State, r: Rollout)
    requires Rolling(s, r) && PassStep(s, s', r) && CountsAt(s, r).activeViable <= r.params.Ceiling()
    ensures Rolling(s', r) && CountsAt(s', r).activeViable <= r.params.Ceiling()
    ensures CountsAt(s', r).Staying() <= r.params.Ceiling()
  {
    var drainTimeout, now :| PassAt(s, s', r, drainTimeout, now);
    var c := CountsAt(s, r);
    CountsAreProper(s.instances, r);
    PassKeeps(s, s', r, drainTimeout, now);
    ActiveGrows(s, s', r, drainTimeout, now);
    OldAfterPass(s, s', r, drainTimeout, now);
    PlanFits(r.params, c.activeViable, c.activeReady, c.oldViable);
  }

  /** The ceiling: over any number of old deployments and for every drain period, every pass of every run leaves
      at most D + S instances that are viable and not draining. */
  lemma {:induction false} CeilingHolds(run: seq<State>, r: Rollout, k: nat)
    requires RunOf(run, r) && k < |run| && CountsAt(run[0], r).activeViable <= r.params.Ceiling()
    ensures Rolling(run[k], r) && CountsAt(run[k], r).activeViable <= r.params.Ceiling()
    ensures k > 0 && PassStep(run[k - 1], run[k], r) ==> CountsAt(run[k], r).Staying() <= r.params.Ceiling()
  {
    if k > 0 {
      CeilingHolds(run, r, k - 1);
      assert StepOf(run[k - 1], run[k], r);
      if PassStep(run[k - 1], run[k], r) {
        PassCeiling(run[k - 1], run[k], r);
      } else {
        AgentsKeepCounts(run[k - 1], run[k], r);
      }
    }
  }

  // ----- live totals

  /** Instances that exist, draining or not. */
  ghost function LiveTotal(s: State, r: Rollout): int { CountsAt(s, r).activeViable + CountsAt(s, r).oldViable }

  /** When one pass leaves more than D + S instances alive: exactly when those it gives up without stopping them,
      known before the pass, do not fit beside what it asks for. */
  lemma LiveTotalFits(s: State, s': State, r: Rollout, drainTimeout: Time, now: Time)
    requires Rolling(s, r) && PassAt(s, s', r, drainTimeout, now)
    ensures LiveTotal(s', r) == PlanAt(s, r).active + PlanAt(s, r).oldTotal + Sum(Lingerings(s, r, drainTimeout, now))
    ensures LiveTotal(s', r) <= r.params.Ceiling()
            <==> Sum(Lingerings(s, r, drainTimeout, now)) <= r.params.Ceiling() - PlanAt(s, r).active - PlanAt(s, r).oldTotal
  {
    ActiveGrows(s, s', r, drainTimeout, now);
    OldAfterPass(s, s', r, drainTimeout, now);
  }

  /** Without a drain period nothing lingers, so live totals keep the ceiling too. */
  lemma NothingLingers(s: State, s': State, r: Rollout, drainTimeout: Time, now: Time)
    requires Rolling(s, r) && PassAt(s, s', r, drainTimeout, now) && drainTimeout <= 0
    ensures LiveTotal(s', r) == PlanAt(s, r).active + PlanAt(s, r).oldTotal
  {
    LiveTotalFits(s, s', r, drainTimeout, now);
    var xs := Lingerings(s, r, drainTimeout, now);
    forall k | 0 <= k < |xs| ensures xs[k] == 0 {
      assert Lingering(s.instances, r.app, Olds(s, r)[k], Shares(s, r)[k], drainTimeout, now) == {};
    }
    SumOfZeros(xs);
  }

  lemma {:induction false} SumOfZeros(xs: seq<int>)
    requires forall k :: 0 <= k < |xs| ==> xs[k] == 0
    ensures Sum(xs) == 0
  {
    if xs != [] {
      SumOfZeros(xs[1..]);
    }
  }

  // ----- passes exist

  /** From every state a pass can be run: registries filled with it, reconciled. */
  method RunPass(s: State, apps: AppTable, online: set<Id>, drainTimeout: Time, now: Time) returns (s': State)
    requires Instances.WellKeyed(s.instances) && Deployments.WellKeyed(s.deployments)
    requires AppsKeyed(apps) && SpecsValidated(s.deployments)
    ensures Pass(s.instances, s.deployments, s'.instances, s'.deployments, apps, online, drainTimeout, now)
  {
    var instReg := new Registry();
    instReg.instances := s.instances;
    var depReg := new DeploymentRegistry();
    depReg.deployments := s.deployments;
    var reconciler := new InstanceReconciler.WithDrainTimeout(depReg, instReg, drainTimeout);
    reconciler.Reconcile(apps, online, now);
    s' := State(instReg.instances, depReg.deployments);
  }

  /** A pass of a rollout in which nothing fails. */
  method RunRolloutPass(s: State, r: Rollout, online: set<Id>, drainTimeout: Time, now: Time) returns (s': State)
    requires Rolling(s, r) && Calm(s.instances, r, online) && r.app != NO_ID && r.active in s.deployments
    ensures PassAt(s, s', r, drainTimeout, now)
  {
    var apps := map[r.app := Application(r.app, "", s.deployments[r.active].spec, r.active, AppDeploying)];
    s' := RunPass(s, apps, online, drainTimeout, now);
    assert Rolls(apps, r);
  }

  // ----- the floor with several old deployments

  function IsServing(): Instance -> bool { (i: Instance) => Ready(i) && !i.draining }

  /** What a pass leaves serving of each old deployment: old targets go by deployment id, not by readiness. */
  ghost function Spared(s: State, r: Rollout): (xs: seq<int>)
    ensures |xs| == |Olds(s, r)|
  {
    seq(|Olds(s, r)|, k requires 0 <= k < |Olds(s, r)| =>
      Min(|Where(s.instances, ServingIn(r.app, Olds(s, r)[k]))|, Shares(s, r)[k]))
  }

  lemma SameServing(m: Table, app: Id, d: Id)
    ensures Where(m, OneOf(app, IsServing(), d)) == Where(m, ServingIn(app, d))
  {
    forall id ensures id in Where(m, OneOf(app, IsServing(), d)) <==> id in Where(m, ServingIn(app, d)) {
    }
  }

  lemma OldServingAddsUp(m: Table, deps: DeploymentTable, r: Rollout)
    requires Homed(m, deps, r.app)
    ensures |Where(m, ServingOutside(r.app, r.active))|
         == Sum(Sizes(m, r.app, IsServing(), Sorted(AppDeps(deps, r.app) - {r.active})))
  {
    OldByDeployment(m, r.app, deps, r.active, IsServing());
    forall id ensures id in Where(m, ServingOutside(r.app, r.active)) <==> id in Where(m, Outside(r.app, IsServing(), r.active)) {
    }
    assert Where(m, ServingOutside(r.app, r.active)) == Where(m, Outside(r.app, IsServing(), r.active));
  }

  lemma OldServingAfter(s: State, s': State, r: Rollout, drainTimeout: Time, now: Time)
    requires Rolling(s, r) && PassAt(s, s', r, drainTimeout, now)
    ensures Sizes(s'.instances, r.app, IsServing(), Olds(s, r)) == Spared(s, r)
  {
    var olds := Olds(s, r);
    var serving := Sizes(s'.instances, r.app, IsServing(), olds);
    forall k | 0 <= k < |olds| ensures serving[k] == Spared(s, r)[k] {
      OldShrinks(s, s', r, drainTimeout, now, k);
      SizesAt(s'.instances, r.app, IsServing(), olds, k);
      SameServing(s'.instances, r.app, olds[k]);
    }
  }

  /** The floor over any number of old deployments: after a pass there are at least max(0, D - U) instances that
      are ready and not draining if and only if the active ready ones and what the shares spare are that many. */
  lemma FloorHoldsIff(s: State, s': State, r: Rollout, drainTimeout: Time, now: Time)
    requires Rolling(s, r) && PassAt(s, s', r, drainTimeout, now)
    ensures CountsAt(s', r).Ready() == CountsAt(s, r).activeReady + Sum(Spared(s, r))
    ensures CountsAt(s', r).Ready() >= r.params.Floor() <==> Sum(Spared(s, r)) >= r.params.Floor() - CountsAt(s, r).activeReady
  {
    PassKeeps(s, s', r, drainTimeout, now);
    ActiveGrows(s, s', r, drainTimeout, now);
    OldServingAddsUp(s'.instances, s'.deployments, r);
    OldServingAfter(s, s', r, drainTimeout, now);
  }

  /** An old deployment `a` with one instance that is starting and an old deployment `b` with one that is ready,
      rolled to one replica with MaxSurge 1 and MaxUnavailable 0. */
  function TwoOld(app: Id, active: Id, a: Id, b: Id, starting: Id, ready: Id, node: Id, exec: Id): State {
    var spec := AppSpec(1, Some(Strategy(RollingUpdate, 1, 0)), None, Container("image", [], [], map[]));
    var i := Instance(starting, app, a, node, exec, Starting, NoHealth, false, None, NO_ID, [], 0, None, None, None);
    var j := Instance(ready, app, b, node, exec, Running, Healthy, false, None, NO_ID, [], 0, Some(0), None, None);
    var next := Deployment(active, app, 3, spec, "", Active, RolloutPending, 0, 0, 0, 0, "", 0, false);
    var first := Deployment(a, app, 1, spec, "", Superseded, RolloutCompleted, 0, 0, 0, 0, "", 0, false);
    var second := Deployment(b, app, 2, spec, "", Superseded, RolloutProgressing, 0, 0, 0, 0, "", 0, false);
    State(map[starting := i, ready := j], map[active := next, a := first, b := second])
  }

  lemma SortedTwo(a: Id, b: Id)
    requires Less(a, b)
    ensures Sorted({a, b}) == [a, b]
  {
    LessAsymmetric(a, b);
    SortedAscends({a, b});
    assert Elements([a, b]) == {a, b} && Ascending([a, b]);
    AscendingUnique(Sorted({a, b}), [a, b]);
  }

  /** Ids that can stand for the parts of that state. */
  predicate TwoOldIds(active: Id, a: Id, b: Id, starting: Id, ready: Id, node: Id, exec: Id) {
    NO_ID !in {active, a, b, starting, ready, node, exec} && active != a && active != b && Less(a, b) && starting != ready
  }

  lemma TwoOldDeployments(app: Id, active: Id, a: Id, b: Id, starting: Id, ready: Id, node: Id, exec: Id)
    requires TwoOldIds(active, a, b, starting, ready, node, exec)
    ensures var s, r := TwoOld(app, active, a, b, starting, ready, node, exec), Rollout(app, active, Params(1, 1, 0));
            RollsAlong(s.deployments, r) && AppDeps(s.deployments, app) == {active, a, b} && Olds(s, r) == [a, b]
  {
    var s := TwoOld(app, active, a, b, starting, ready, node, exec);
    LessAsymmetric(a, b);
    assert AppDeps(s.deployments, app) == {active, a, b};
    assert {active, a, b} - {active} == {a, b};
    SortedTwo(a, b);
  }

  lemma TwoOldCounts(app: Id, active: Id, a: Id, b: Id, starting: Id, ready: Id, node: Id, exec: Id)
    requires TwoOldIds(active, a, b, starting, ready, node, exec)
    ensures var s, r := TwoOld(app, active, a, b, starting, ready, node, exec), Rollout(app, active, Params(1, 1, 0));
            CountsAt(s, r) == Counts(0, 0, 2, 2, 1)
  {
    var m := TwoOld(app, active, a, b, starting, ready, node, exec).instances;
    assert Where(m, ViableIn(app, active)) == {};
    assert Where(m, ReadyIn(app, active)) == {};
    assert Where(m, ViableOutside(app, active)) == {starting, ready};
    assert Where(m, StayingOutside(app, active)) == {starting, ready};
    assert Where(m, ServingOutside(app, active)) == {ready};
  }

  lemma TwoOldRolls(app: Id, active: Id, a: Id, b: Id, starting: Id, ready: Id, node: Id, exec: Id)
    requires TwoOldIds(active, a, b, starting, ready, node, exec)
    ensures var s, r := TwoOld(app, active, a, b, starting, ready, node, exec), Rollout(app, active, Params(1, 1, 0)); Rolling(s, r)
  {
    TwoOldDeployments(app, active, a, b, starting, ready, node, exec);
    var m := TwoOld(app, active, a, b, starting, ready, node, exec).instances;
    assert Lifecycle(m[starting]) && Lifecycle(m[ready]);
  }

  /** There every pass, whatever the drain period, gives up the only ready instance: the floor is 1 and nothing
      serves any more. */
  lemma FloorBreaks(app: Id, active: Id, a: Id, b: Id, starting: Id, ready: Id, node: Id, exec: Id, s': State,
                    drainTimeout: Time, now: Time)
    requires TwoOldIds(active, a, b, starting, ready, node, exec)
    requires PassAt(TwoOld(app, active, a, b, starting, ready, node, exec), s', Rollout(app, active, Params(1, 1, 0)), drainTimeout, now)
    ensures var s, r := TwoOld(app, active, a, b, starting, ready, node, exec), Rollout(app, active, Params(1, 1, 0));
            CountsAt(s, r).Ready() == r.params.Floor() == 1 && CountsAt(s', r).Ready() == 0
  {
    var s, r := TwoOld(app, active, a, b, starting, ready, node, exec), Rollout(app, active, Params(1, 1, 0));
    TwoOldRolls(app, active, a, b, starting, ready, node, exec);
    TwoOldCounts(app, active, a, b, starting, ready, node, exec);
    TwoOldShares(app, active, a, b, starting, ready, node, exec);
    FloorHoldsIff(s, s', r, drainTimeout, now);
    assert Sum([0, 0]) == 0;
  }

  /** And such a pass can be run. */
  method BreakFloor(app: Id, active: Id, a: Id, b: Id, starting: Id, ready: Id, node: Id, exec: Id, drainTimeout: Time, now: Time)
    returns (s': State)
    requires TwoOldIds(active, a, b, starting, ready, node, exec) && app != NO_ID
    ensures PassAt(TwoOld(app, active, a, b, starting, ready, node, exec), s', Rollout(app, active, Params(1, 1, 0)), drainTimeout, now)
    ensures CountsAt(s', Rollout(app, active, Params(1, 1, 0))).Ready() == 0
  {
    var s := TwoOld(app, active, a, b, starting, ready, node, exec);
    TwoOldRolls(app, active, a, b, starting, ready, node, exec);
    s' := RunRolloutPass(s, Rollout(app, active, Params(1, 1, 0)), {node}, drainTimeout, now);
    FloorBreaks(app, active, a, b, starting, ready, node, exec, s', drainTimeout, now);
  }

  lemma TwoOldShares(app: Id, active: Id, a: Id, b: Id, starting: Id, ready: Id, node: Id, exec: Id)
    requires TwoOldIds(active, a, b, starting, ready, node, exec)
    ensures var s, r := TwoOld(app, active, a, b, starting, ready, node, exec), Rollout(app, active, Params(1, 1, 0));
            Spared(s, r) == [0, 0]
  {
    var s, r := TwoOld(app, active, a, b, starting, ready, node, exec), Rollout(app, active, Params(1, 1, 0));
    TwoOldDeployments(app, active, a, b, starting, ready, node, exec);
    TwoOldCounts(app, active, a, b, starting, ready, node, exec);
    TwoOldHolds(app, active, a, b, starting, ready, node, exec);
    GreedyOnes();
  }

  lemma TwoOldHolds(app: Id, active: Id, a: Id, b: Id, starting: Id, ready: Id, node: Id, exec: Id)
    requires TwoOldIds(active, a, b, starting, ready, node, exec)
    ensures var m := TwoOld(app, active, a, b, starting, ready, node, exec).instances;
            Held(m, app, [a, b]) == [1, 1] && Where(m, ServingIn(app, a)) == {}
  {
    var m := TwoOld(app, active, a, b, starting, ready, node, exec).instances;
    LessAsymmetric(a, b);
    assert Where(m, ViableIn(app, a)) == {starting};
    assert Where(m, ViableIn(app, b)) == {ready};
  }

  lemma GreedyOnes()
    ensures Greedy([1, 1], 1) == [1, 0]
  {
    assert [1, 1][1..] == [1];
    assert Greedy([1], 0) == [0];
  }
}
