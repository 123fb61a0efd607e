/** The rollout controller: from the registries to per-deployment instance targets.

    Listings come out of Go maps in no particular order, so a listing is a map here and each range
    loop takes an arbitrary remaining key; the results below hold for every order.
 */
module RolloutController {
  import opened Ids
  import opened Instances
  import opened Deployments
  import opened RolloutMath

  datatype DeploymentTarget = DeploymentTarget(deploymentId: Id, desiredCount: int)

  datatype AppTarget = AppTarget(appId: Id, activeDeploymentId: Id, targets: seq<DeploymentTarget>)

  type AppTable = map<Id, Application>

  // ----- counting instances

  /** The keys, among those in `seen`, of the instances that satisfy `p`. */
  ghost function Hits(m: Table, seen: set<Id>, p: Instance -> bool): set<Id> {
    set id | id in seen && id in m && p(m[id])
  }

  lemma HitsAdd(m: Table, seen: set<Id>, p: Instance -> bool, k: Id)
    requires k !in seen && k in m
    ensures |Hits(m, seen + {k}, p)| == |Hits(m, seen, p)| + (if p(m[k]) then 1 else 0)
  {
    if p(m[k]) {
      assert Hits(m, seen + {k}, p) == Hits(m, seen, p) + {k};
    } else {
      assert Hits(m, seen + {k}, p) == Hits(m, seen, p);
    }
  }

  function ViableIn(app: Id, dep: Id): Instance -> bool {
    (i: Instance) => i.applicationId == app && i.deploymentId == dep && Viable(i.status)
  }

  function ReadyIn(app: Id, dep: Id): Instance -> bool {
    (i: Instance) => i.applicationId == app && i.deploymentId == dep && Ready(i)
  }

  function ViableOutside(app: Id, dep: Id): Instance -> bool {
    (i: Instance) => i.applicationId == app && i.deploymentId != dep && Viable(i.status)
  }

  function ReadyOutside(app: Id, dep: Id): Instance -> bool {
    (i: Instance) => i.applicationId == app && i.deploymentId != dep && Ready(i)
  }

  function ViableAnywhere(dep: Id): Instance -> bool {
    (i: Instance) => i.deploymentId == dep && Viable(i.status)
  }

  ghost function Where(m: Table, p: Instance -> bool): set<Id> {
    Hits(m, m.Keys, p)
  }

  /** One counting loop over a listing. */
  method Count(m: Table, p: Instance -> bool) returns (n: nat)
    ensures n == |Where(m, p)|
  {
    n := 0;
    var todo := m.Keys;
    ghost var seen: set<Id> := {};
    while todo != {}
      invariant todo <= m.Keys && seen == m.Keys - todo
      invariant n == |Hits(m, seen, p)|
      decreases todo
    {
      var id :| id in todo;
      HitsAdd(m, seen, p, id);
      if p(m[id]) {
        n := n + 1;
      }
      todo := todo - {id};
      seen := seen + {id};
    }
    assert seen == m.Keys;
  }

  // The counts a rolling update is decided on.

  ghost function ActiveViable(m: Table, app: Id, active: Id): nat { |Where(m, ViableIn(app, active))| }

  ghost function ActiveReady(m: Table, app: Id, active: Id): nat { |Where(m, ReadyIn(app, active))| }

  ghost function OldViable(m: Table, app: Id, active: Id): nat { |Where(m, ViableOutside(app, active))| }

  ghost function OldReady(m: Table, app: Id, active: Id): nat { |Where(m, ReadyOutside(app, active))| }

  function One(b: bool): nat { if b then 1 else 0 }

  ghost predicate Tallied(m: Table, seen: set<Id>, app: Id, active: Id, av: nat, ar: nat, ov: nat, or: nat) {
    && av == |Hits(m, seen, ViableIn(app, active))| && ar == |Hits(m, seen, ReadyIn(app, active))|
    && ov == |Hits(m, seen, ViableOutside(app, active))| && or == |Hits(m, seen, ReadyOutside(app, active))|
  }

  lemma TallyAdd(m: Table, seen: set<Id>, app: Id, active: Id, k: Id, av: nat, ar: nat, ov: nat, or: nat)
    requires k !in seen && k in m && Tallied(m, seen, app, active, av, ar, ov, or)
    ensures
      var viable := m[k].applicationId == app && Viable(m[k].status);
      var ready := m[k].applicationId == app && Ready(m[k]);
      var current := m[k].deploymentId == active;
      Tallied(m, seen + {k}, app, active, av + One(viable && current), ar + One(ready && current),
              ov + One(viable && !current), or + One(ready && !current))
  {
    HitsAdd(m, seen, ViableIn(app, active), k);
    HitsAdd(m, seen, ReadyIn(app, active), k);
    HitsAdd(m, seen, ViableOutside(app, active), k);
    HitsAdd(m, seen, ReadyOutside(app, active), k);
  }

  lemma TallyAll(m: Table, app: Id, active: Id, av: nat, ar: nat, ov: nat, or: nat)
    requires Tallied(m, m.Keys, app, active, av, ar, ov, or)
    ensures av == ActiveViable(m, app, active) && ar == ActiveReady(m, app, active)
    ensures ov == OldViable(m, app, active) && or == OldReady(m, app, active)
  {
  }

  lemma TallyNone(m: Table, app: Id, active: Id)
    ensures Tallied(m, {}, app, active, 0, 0, 0, 0)
  {
    assert forall p :: Hits(m, {}, p) == {};
  }

  /** The body of the counting loop. */
  method CountOne(inst: Instance, app: Id, active: Id, activeViable: nat, activeReady: nat, oldViable: nat, oldReady: nat)
    returns (activeViable': nat, activeReady': nat, oldViable': nat, oldReady': nat)
    ensures
      var viable := inst.applicationId == app && Viable(inst.status);
      var ready := inst.applicationId == app && Ready(inst);
      var current := inst.deploymentId == active;
      && activeViable' == activeViable + One(viable && current) && activeReady' == activeReady + One(ready && current)
      && oldViable' == oldViable + One(viable && !current) && oldReady' == oldReady + One(ready && !current)
  {
    activeViable', activeReady', oldViable', oldReady' := activeViable, activeReady, oldViable, oldReady;
    if inst.applicationId == app {
      var viable := Viable(inst.status);
      var ready := inst.status.Running? && inst.health.Healthy?;
      if inst.deploymentId == active {
        if viable { activeViable' := activeViable' + 1; }
        if ready { activeReady' := activeReady' + 1; }
      } else {
        if viable { oldViable' := oldViable' + 1; }
        if ready { oldReady' := oldReady' + 1; }
      }
    }
  }

  /** The single loop with four counters. */
  method CountAll(m: Table, app: Id, active: Id)
    returns (activeViable: nat, activeReady: nat, oldViable: nat, oldReady: nat)
    ensures activeViable == ActiveViable(m, app, active) && activeReady == ActiveReady(m, app, active)
    ensures oldViable == OldViable(m, app, active) && oldReady == OldReady(m, app, active)
  {
    activeViable, activeReady, oldViable, oldReady := 0, 0, 0, 0;
    var todo := m.Keys;
    ghost var seen: set<Id> := {};
    TallyNone(m, app, active);
    while todo != {}
      invariant todo <= m.Keys && seen == m.Keys - todo
      invariant Tallied(m, seen, app, active, activeViable, activeReady, oldViable, oldReady)
      decreases todo
    {
      var id :| id in todo;
      TallyAdd(m, seen, app, active, id, activeViable, activeReady, oldViable, oldReady);
      todo := todo - {id};
      seen := seen + {id};
      activeViable, activeReady, oldViable, oldReady :=
        CountOne(m[id], app, active, activeViable, activeReady, oldViable, oldReady);
    }
    assert seen == m.Keys;
    TallyAll(m, app, active, activeViable, activeReady, oldViable, oldReady);
  }

  // ----- what each deployment of an application should have

  ghost function AppDeps(deps: DeploymentTable, app: Id): set<Id> {
    set d | d in deps && deps[d].applicationId == app
  }

  ghost predicate HasTarget(app: Application, deps: DeploymentTable) {
    && app.activeDeploymentId != NO_ID
    && app.activeDeploymentId in AppDeps(deps, app.id)
  }

  predicate IsImmediate(spec: AppSpec) {
    spec.strategy.None? || spec.strategy.value.kind.Immediate?
  }

  function ParamsOf(spec: AppSpec): Params
    requires spec.strategy.Some?
  {
    Params(spec.replicas, spec.strategy.value.maxSurge, spec.strategy.value.maxUnavailable)
  }

  /** What each deployment in `ds` has now. */
  ghost function Held(m: Table, app: Id, ds: seq<Id>): (held: seq<nat>)
    ensures |held| == |ds|
    ensures forall i :: 0 <= i < |ds| ==> held[i] == |Where(m, ViableIn(app, ds[i]))|
  {
    seq(|ds|, i requires 0 <= i < |ds| => |Where(m, ViableIn(app, ds[i]))|)
  }

  ghost function OldDeps(app: Application, deps: DeploymentTable): seq<Id> {
    Sorted(AppDeps(deps, app.id) - {app.activeDeploymentId})
  }

  ghost function RollingPlan(app: Application, deps: DeploymentTable, m: Table): Plan
    requires HasTarget(app, deps) && !IsImmediate(deps[app.activeDeploymentId].spec)
  {
    var active := app.activeDeploymentId;
    PlanFor(ParamsOf(deps[active].spec),
            ActiveViable(m, app.id, active), ActiveReady(m, app.id, active), OldViable(m, app.id, active))
  }

  ghost function OldShares(app: Application, deps: DeploymentTable, m: Table): (shares: seq<int>)
    requires HasTarget(app, deps) && !IsImmediate(deps[app.activeDeploymentId].spec)
    ensures |shares| == |OldDeps(app, deps)|
  {
    Greedy(Held(m, app.id, OldDeps(app, deps)), RollingPlan(app, deps, m).oldTotal)
  }

  /** The wanted count of deployment `d`. */
  ghost predicate Wanted(app: Application, deps: DeploymentTable, m: Table, d: Id, n: int)
    requires HasTarget(app, deps)
  {
    var active := deps[app.activeDeploymentId];
    if IsImmediate(active.spec) then
      if d != app.activeDeploymentId then n == 0
      else if active.degraded then n == |Where(m, ViableAnywhere(d))|
      else n == active.spec.replicas
    else if active.degraded then
      n == |Where(m, ViableIn(app.id, d))|
    else if d == app.activeDeploymentId then
      n == RollingPlan(app, deps, m).active
    else
      exists i :: 0 <= i < |OldDeps(app, deps)| && OldDeps(app, deps)[i] == d && n == OldShares(app, deps, m)[i]
  }

  /** With a validated spec no wanted count is negative, and only an active deployment that is not
      degraded can be wanted at more than it has. */
  lemma WantedBounds(app: Application, deps: DeploymentTable, m: Table, d: Id, n: int)
    requires HasTarget(app, deps) && d in AppDeps(deps, app.id)
    requires deps[app.activeDeploymentId].spec.replicas >= 0
    requires Wanted(app, deps, m, d, n)
    ensures n >= 0
    ensures d != app.activeDeploymentId || deps[d].degraded ==> n <= |Where(m, ViableAnywhere(d))|
  {
    var active := deps[app.activeDeploymentId];
    SubsetSize(Where(m, ViableIn(app.id, d)), Where(m, ViableAnywhere(d)));
    if !IsImmediate(active.spec) && !active.degraded && d != app.activeDeploymentId {
      var held := Held(m, app.id, OldDeps(app, deps));
      GreedyIsExact(held, RollingPlan(app, deps, m).oldTotal);
    }
  }

  lemma SubsetSize<T>(a: set<T>, b: set<T>)
    requires a <= b
    ensures |a| <= |b|
  {
    assert b == a + (b - a);
  }

  /** A target lists each deployment of its application once, with its wanted count. */
  ghost predicate IsTargetFor(t: AppTarget, app: Application, deps: DeploymentTable, m: Table) {
    && HasTarget(app, deps)
    && t.appId == app.id && t.activeDeploymentId == app.activeDeploymentId
    && Listed(t.targets) == AppDeps(deps, app.id)
    && (forall i, j :: 0 <= i < j < |t.targets| ==> t.targets[i].deploymentId != t.targets[j].deploymentId)
    && forall i :: 0 <= i < |t.targets| ==> Wanted(app, deps, m, t.targets[i].deploymentId, t.targets[i].desiredCount)
  }

  ghost function Listed(targets: seq<DeploymentTarget>): set<Id> {
    set i | 0 <= i < |targets| :: targets[i].deploymentId
  }

  lemma ListedAppend(targets: seq<DeploymentTarget>, t: DeploymentTarget)
    ensures Listed(targets + [t]) == Listed(targets) + {t.deploymentId}
  {
    var after := targets + [t];
    forall d | d in Listed(targets) + {t.deploymentId}
      ensures d in Listed(after)
    {
      if d == t.deploymentId {
        assert after[|targets|] == t;
      } else {
        var i :| 0 <= i < |targets| && targets[i].deploymentId == d;
        assert after[i] == targets[i];
      }
    }
  }

  // ----- the bookkeeping written back to the deployment registry

  const CRASH_LOOP := "Deployment degraded (crash loop)"
  const REPLACED := "Superseded by immediate rollout"
  const SCALED_AWAY := "Scaled to 0 by rollout"

  /** The active record of a rolling update once its metrics are written. */
  ghost function Counted(app: Application, deps: DeploymentTable, m: Table): Deployment
    requires HasTarget(app, deps)
  {
    var active := app.activeDeploymentId;
    var dep := deps[active];
    var ready := ActiveReady(m, app.id, active);
    MetricsSet(dep, dep.rolloutStatus, dep.spec.replicas, ActiveViable(m, app.id, active), ready,
               dep.spec.replicas - (ready + OldReady(m, app.id, active)), dep.blockedReason)
  }

  /** The record of deployment `d` of `app` after its targets were computed. */
  ghost function Marked(app: Application, deps: DeploymentTable, m: Table, d: Id): Deployment
    requires HasTarget(app, deps) && d in AppDeps(deps, app.id)
  {
    var active := deps[app.activeDeploymentId];
    var dep := deps[d];
    if IsImmediate(active.spec) then
      if d == app.activeDeploymentId then
        if dep.degraded then
          if dep.rolloutStatus.RolloutFailed? then dep else RolloutSet(dep, RolloutFailed, CRASH_LOOP)
        else
          if dep.rolloutStatus.RolloutCompleted? then dep else RolloutSet(dep, RolloutCompleted, "")
      else if dep.rolloutStatus.RolloutRolledBack? || dep.rolloutStatus.RolloutCompleted? || dep.status.Superseded? then dep
      else RolloutSet(dep, RolloutRolledBack, REPLACED)
    else if d == app.activeDeploymentId then
      var counted := Counted(app, deps, m);
      if dep.degraded then
        if dep.rolloutStatus.RolloutFailed? then counted else RolloutSet(counted, RolloutFailed, CRASH_LOOP)
      else if dep.rolloutStatus.RolloutPending? then RolloutSet(counted, RolloutProgressing, "")
      else if ActiveReady(m, app.id, d) == dep.spec.replicas && OldViable(m, app.id, d) == 0 then RolloutSet(counted, RolloutCompleted, "")
      else counted
    else if active.degraded || |Where(m, ViableIn(app.id, d))| != 0
            || dep.rolloutStatus.RolloutRolledBack? || dep.status.Superseded? then dep
    else RolloutSet(dep, RolloutRolledBack, SCALED_AWAY)
  }

  /** `deps` with the deployments in `done` replaced by their marked records. */
  ghost function MarkedUpTo(app: Application, deps: DeploymentTable, m: Table, done: set<Id>, current: DeploymentTable): DeploymentTable
    requires HasTarget(app, deps)
  {
    map d | d in current :: if d in done && d in AppDeps(deps, app.id) then Marked(app, deps, m, d) else current[d]
  }

  ghost predicate Agrees(current: DeploymentTable, deps: DeploymentTable, app: Id) {
    forall d :: d in AppDeps(deps, app) ==> d in current && current[d] == deps[d]
  }

  /** The targets gathered so far: each deployment in `done` once, with its wanted count. */
  ghost predicate Gathered(targets: seq<DeploymentTarget>, app: Application, deps: DeploymentTable, m: Table, done: set<Id>)
    requires HasTarget(app, deps)
  {
    && Listed(targets) == done
    && (forall i, j :: 0 <= i < j < |targets| ==> targets[i].deploymentId != targets[j].deploymentId)
    && forall i :: 0 <= i < |targets| ==> Wanted(app, deps, m, targets[i].deploymentId, targets[i].desiredCount)
  }

  lemma GatherOneMore(targets: seq<DeploymentTarget>, app: Application, deps: DeploymentTable, m: Table,
                      done: set<Id>, d: Id, n: int)
    requires HasTarget(app, deps) && Gathered(targets, app, deps, m, done)
    requires d !in done && Wanted(app, deps, m, d, n)
    ensures Gathered(targets + [DeploymentTarget(d, n)], app, deps, m, done + {d})
  {
    ListedAppend(targets, DeploymentTarget(d, n));
    assert forall i :: 0 <= i < |targets| ==> targets[i].deploymentId in Listed(targets);
  }

  lemma MarkOneMore(app: Application, deps: DeploymentTable, m: Table, done: set<Id>, before: DeploymentTable, d: Id)
    requires HasTarget(app, deps) && d in AppDeps(deps, app.id) && d in before
    ensures MarkedUpTo(app, deps, m, done + {d}, before) == MarkedUpTo(app, deps, m, done, before)[d := Marked(app, deps, m, d)]
  {
  }

  class Controller {
    const depReg: DeploymentRegistry

    constructor (depReg: DeploymentRegistry)
      ensures this.depReg == depReg
    {
      this.depReg := depReg;
    }

    /** One turn of the loop over the deployments of an application deployed immediately. */
    method ImmediateTurn(app: Application, deps: DeploymentTable, m: Table, d: Id) returns (desiredCount: int)
      requires depReg.Valid() && Deployments.WellKeyed(deps)
      requires HasTarget(app, deps) && IsImmediate(deps[app.activeDeploymentId].spec)
      requires d in AppDeps(deps, app.id) && d in depReg.deployments && depReg.deployments[d] == deps[d]
      modifies depReg`deployments
      ensures depReg.Valid()
      ensures Wanted(app, deps, m, d, desiredCount)
      ensures depReg.deployments == old(depReg.deployments)[d := Marked(app, deps, m, d)]
    {
      var active := deps[app.activeDeploymentId];
      var dep := deps[d];
      if d == app.activeDeploymentId {
        desiredCount := dep.spec.replicas;
        if active.degraded {
          desiredCount := Count(m, ViableAnywhere(d));
          if !dep.rolloutStatus.RolloutFailed? {
            var _ := depReg.UpdateRolloutStatusOnly(d, RolloutFailed, CRASH_LOOP);
          }
        } else if !dep.rolloutStatus.RolloutCompleted? {
          var _ := depReg.UpdateRolloutStatusOnly(d, RolloutCompleted, "");
        }
      } else {
        desiredCount := 0;
        if !dep.rolloutStatus.RolloutRolledBack? && !dep.rolloutStatus.RolloutCompleted? && !dep.status.Superseded? {
          var _ := depReg.UpdateRolloutStatusOnly(d, RolloutRolledBack, REPLACED);
        }
      }
    }

    method ComputeImmediateTarget(app: Application, deps: DeploymentTable, m: Table) returns (target: AppTarget)
      requires depReg.Valid() && Deployments.WellKeyed(deps)
      requires HasTarget(app, deps) && IsImmediate(deps[app.activeDeploymentId].spec)
      requires Agrees(depReg.deployments, deps, app.id)
      modifies depReg`deployments
      ensures depReg.Valid()
      ensures IsTargetFor(target, app, deps, m)
      ensures depReg.deployments == MarkedUpTo(app, deps, m, AppDeps(deps, app.id), old(depReg.deployments))
    {
      var targets: seq<DeploymentTarget> := [];
      var todo := set d | d in deps && deps[d].applicationId == app.id;
      ghost var done: set<Id> := {};
      ghost var before := depReg.deployments;
      assert before == MarkedUpTo(app, deps, m, done, before);
      while todo != {}
        invariant depReg.Valid()
        invariant todo <= AppDeps(deps, app.id) && done == AppDeps(deps, app.id) - todo
        invariant depReg.deployments == MarkedUpTo(app, deps, m, done, before)
        invariant Gathered(targets, app, deps, m, done)
        decreases todo
      {
        var d :| d in todo;
        assert d in before && depReg.deployments[d] == deps[d];
        var desiredCount := ImmediateTurn(app, deps, m, d);
        GatherOneMore(targets, app, deps, m, done, d, desiredCount);
        targets := targets + [DeploymentTarget(d, desiredCount)];
        MarkOneMore(app, deps, m, done, before, d);
        todo := todo - {d};
        done := done + {d};
      }
      assert done == AppDeps(deps, app.id);
      target := AppTarget(app.id, app.activeDeploymentId, targets);
    }

    /** Degraded: every deployment keeps what it has. */
    method HoldTargets(app: Application, deps: DeploymentTable, m: Table, activeViable: nat)
      returns (targets: seq<DeploymentTarget>)
      requires HasTarget(app, deps)
      requires !IsImmediate(deps[app.activeDeploymentId].spec) && deps[app.activeDeploymentId].degraded
      requires activeViable == |Where(m, ViableIn(app.id, app.activeDeploymentId))|
      ensures Gathered(targets, app, deps, m, AppDeps(deps, app.id))
    {
      targets := [];
      var todo := set d | d in deps && deps[d].applicationId == app.id;
      ghost var done: set<Id> := {};
      while todo != {}
        invariant todo <= AppDeps(deps, app.id) && done == AppDeps(deps, app.id) - todo
        invariant Gathered(targets, app, deps, m, done)
        decreases todo
      {
        var d :| d in todo;
        var desiredCount := activeViable;
        if d != app.activeDeploymentId {
          desiredCount := Count(m, ViableIn(app.id, d));
        }
        GatherOneMore(targets, app, deps, m, done, d, desiredCount);
        targets := targets + [DeploymentTarget(d, desiredCount)];
        todo := todo - {d};
        done := done + {d};
      }
      assert done == AppDeps(deps, app.id);
    }

    /** One turn of the loop over the old deployments: its share, and its retirement. */
    method OldTurn(app: Application, deps: DeploymentTable, m: Table, d: Id, remainingOld: nat) returns (assign: int)
      requires depReg.Valid() && HasTarget(app, deps)
      requires !IsImmediate(deps[app.activeDeploymentId].spec) && !deps[app.activeDeploymentId].degraded
      requires d in AppDeps(deps, app.id) && d != app.activeDeploymentId
      requires d in depReg.deployments && depReg.deployments[d] == deps[d]
      modifies depReg`deployments
      ensures depReg.Valid()
      ensures assign == Min(|Where(m, ViableIn(app.id, d))|, remainingOld)
      ensures depReg.deployments == old(depReg.deployments)[d := Marked(app, deps, m, d)]
    {
      var depViable := Count(m, ViableIn(app.id, d));
      assign := depViable;
      if assign > remainingOld {
        assign := remainingOld;
      }
      var dep := deps[d];
      if assign == 0 && depViable == 0 && !dep.rolloutStatus.RolloutRolledBack? && !dep.status.Superseded? {
        var _ := depReg.UpdateRolloutStatusOnly(d, RolloutRolledBack, SCALED_AWAY);
      }
    }

    /** The body of the loop over the sorted old deployments. */
    method ShareTurn(app: Application, deps: DeploymentTable, m: Table, olds: seq<Id>, k: nat,
                     targets: seq<DeploymentTarget>, remainingOld: nat, ghost before: DeploymentTable)
      returns (targets': seq<DeploymentTarget>, remainingOld': nat)
      requires depReg.Valid() && HasTarget(app, deps)
      requires !IsImmediate(deps[app.activeDeploymentId].spec) && !deps[app.activeDeploymentId].degraded
      requires olds == OldDeps(app, deps) && k < |olds|
      requires AgreesOnOld(before, deps, app)
      requires SharedUpTo(app, deps, m, k, remainingOld)
      requires Gathered(targets, app, deps, m, OldPrefix(app, deps, k) + {app.activeDeploymentId})
      requires depReg.deployments == MarkedUpTo(app, deps, m, OldPrefix(app, deps, k), before)
      modifies depReg`deployments
      ensures depReg.Valid()
      ensures SharedUpTo(app, deps, m, k + 1, remainingOld')
      ensures Gathered(targets', app, deps, m, OldPrefix(app, deps, k + 1) + {app.activeDeploymentId})
      ensures depReg.deployments == MarkedUpTo(app, deps, m, OldPrefix(app, deps, k + 1), before)
    {
      var d := olds[k];
      ghost var done := OldPrefix(app, deps, k);
      NextOld(app, deps, k);
      UnmarkedYet(app, deps, m, done, before, d);
      MarkOneMore(app, deps, m, done, before, d);
      var assign := OldTurn(app, deps, m, d, remainingOld);
      ShareStep(app, deps, m, k, remainingOld);
      GatherNextOld(targets, app, deps, m, k, assign);
      remainingOld' := remainingOld - assign;
      targets' := targets + [DeploymentTarget(d, assign)];
    }

    /** Hand the old total out in id order and retire the deployments that have nothing left. */
    method ShareOldTargets(app: Application, deps: DeploymentTable, m: Table, first: DeploymentTarget, total: nat)
      returns (targets: seq<DeploymentTarget>)
      requires depReg.Valid() && HasTarget(app, deps)
      requires !IsImmediate(deps[app.activeDeploymentId].spec) && !deps[app.activeDeploymentId].degraded
      requires first.deploymentId == app.activeDeploymentId
      requires Wanted(app, deps, m, first.deploymentId, first.desiredCount)
      requires total == RollingPlan(app, deps, m).oldTotal
      requires AgreesOnOld(depReg.deployments, deps, app)
      modifies depReg`deployments
      ensures depReg.Valid()
      ensures Gathered(targets, app, deps, m, AppDeps(deps, app.id))
      ensures depReg.deployments ==
              MarkedUpTo(app, deps, m, AppDeps(deps, app.id) - {app.activeDeploymentId}, old(depReg.deployments))
    {
      var active := app.activeDeploymentId;
      var oldIds := set d | d in deps && deps[d].applicationId == app.id && d != active;
      assert oldIds == AppDeps(deps, app.id) - {active};
      var olds := SortIds(oldIds);
      ghost var before := depReg.deployments;
      targets := [first];
      var remainingOld: nat := total;
      SharingStarts(first, app, deps, m, before);
      for k := 0 to |olds|
        invariant depReg.Valid()
        invariant SharedUpTo(app, deps, m, k, remainingOld)
        invariant Gathered(targets, app, deps, m, OldPrefix(app, deps, k) + {active})
        invariant depReg.deployments == MarkedUpTo(app, deps, m, OldPrefix(app, deps, k), before)
      {
        targets, remainingOld := ShareTurn(app, deps, m, olds, k, targets, remainingOld, before);
      }
      AllOld(app, deps);
    }

    /** Write the metrics of the active deployment. */
    method WriteMetrics(app: Application, deps: DeploymentTable, m: Table)
      returns (activeViable: nat, activeReady: nat, oldViable: nat)
      requires depReg.Valid() && HasTarget(app, deps) && Deployments.WellKeyed(deps)
      requires app.activeDeploymentId in depReg.deployments
      requires depReg.deployments[app.activeDeploymentId] == deps[app.activeDeploymentId]
      modifies depReg`deployments
      ensures depReg.Valid()
      ensures depReg.deployments == old(depReg.deployments)[app.activeDeploymentId := Counted(app, deps, m)]
      ensures activeViable == ActiveViable(m, app.id, app.activeDeploymentId)
      ensures activeReady == ActiveReady(m, app.id, app.activeDeploymentId)
      ensures oldViable == OldViable(m, app.id, app.activeDeploymentId)
    {
      var active := deps[app.activeDeploymentId];
      var desired := active.spec.replicas;
      var oldReady: nat;
      activeViable, activeReady, oldViable, oldReady := CountAll(m, app.id, app.activeDeploymentId);
      var totalReady := activeReady + oldReady;
      var missing := desired - totalReady;
      ghost var counted := MetricsSet(active, active.rolloutStatus, desired, activeViable, activeReady, missing, active.blockedReason);
      assert counted == Counted(app, deps, m);
      var _ := depReg.UpdateRolloutStatus(app.activeDeploymentId, active.rolloutStatus, desired, activeViable, activeReady,
                                          missing, active.blockedReason);
      assert depReg.deployments == old(depReg.deployments)[app.activeDeploymentId := counted];
    }

    /** Move the rollout status of the active deployment on. */
    method AdvanceActive(app: Application, deps: DeploymentTable, m: Table, activeReady: nat, oldViable: nat)
      requires depReg.Valid() && HasTarget(app, deps) && !IsImmediate(deps[app.activeDeploymentId].spec)
      requires app.activeDeploymentId in depReg.deployments
      requires depReg.deployments[app.activeDeploymentId] == Counted(app, deps, m)
      requires activeReady == ActiveReady(m, app.id, app.activeDeploymentId)
      requires oldViable == OldViable(m, app.id, app.activeDeploymentId)
      modifies depReg`deployments
      ensures depReg.Valid()
      ensures depReg.deployments == old(depReg.deployments)[app.activeDeploymentId := Marked(app, deps, m, app.activeDeploymentId)]
    {
      var active := deps[app.activeDeploymentId];
      if active.degraded {
        if !active.rolloutStatus.RolloutFailed? {
          var _ := depReg.UpdateRolloutStatusOnly(app.activeDeploymentId, RolloutFailed, CRASH_LOOP);
        }
      } else if active.rolloutStatus.RolloutPending? {
        var _ := depReg.UpdateRolloutStatusOnly(app.activeDeploymentId, RolloutProgressing, "");
      } else if activeReady == active.spec.replicas && oldViable == 0 {
        var _ := depReg.UpdateRolloutStatusOnly(app.activeDeploymentId, RolloutCompleted, "");
      }
    }

    method ComputeRollingTarget(app: Application, deps: DeploymentTable, m: Table) returns (target: AppTarget)
      requires depReg.Valid() && Deployments.WellKeyed(deps)
      requires HasTarget(app, deps) && !IsImmediate(deps[app.activeDeploymentId].spec)
      requires Agrees(depReg.deployments, deps, app.id)
      modifies depReg`deployments
      ensures depReg.Valid()
      ensures IsTargetFor(target, app, deps, m)
      ensures depReg.deployments == MarkedUpTo(app, deps, m, AppDeps(deps, app.id), old(depReg.deployments))
    {
      ghost var before := depReg.deployments;
      var activeId := app.activeDeploymentId;
      var activeViable, activeReady, oldViable := WriteMetrics(app, deps, m);
      ghost var counted := depReg.deployments;
      var targets: seq<DeploymentTarget>;
      if deps[activeId].degraded {
        AdvanceActive(app, deps, m, activeReady, oldViable);
        targets := HoldTargets(app, deps, m, activeViable);
        OnlyActiveMarked(app, deps, m, before, counted, depReg.deployments);
      } else {
        targets := PlanTargets(app, deps, m, activeViable, activeReady, oldViable);
        AdvanceActive(app, deps, m, activeReady, oldViable);
        ActiveMarkedLast(app, deps, m, before, counted, depReg.deployments);
      }
      target := AppTarget(app.id, activeId, targets);
    }

    /** Decide the totals and hand them out. */
    method PlanTargets(app: Application, deps: DeploymentTable, m: Table, activeViable: nat, activeReady: nat, oldViable: nat)
      returns (targets: seq<DeploymentTarget>)
      requires depReg.Valid() && HasTarget(app, deps)
      requires !IsImmediate(deps[app.activeDeploymentId].spec) && !deps[app.activeDeploymentId].degraded
      requires activeViable == ActiveViable(m, app.id, app.activeDeploymentId)
      requires activeReady == ActiveReady(m, app.id, app.activeDeploymentId)
      requires oldViable == OldViable(m, app.id, app.activeDeploymentId)
      requires AgreesOnOld(depReg.deployments, deps, app)
      modifies depReg`deployments
      ensures depReg.Valid()
      ensures Gathered(targets, app, deps, m, AppDeps(deps, app.id))
      ensures depReg.deployments ==
              MarkedUpTo(app, deps, m, AppDeps(deps, app.id) - {app.activeDeploymentId}, old(depReg.deployments))
    {
      var plan := ComputePlan(ParamsOf(deps[app.activeDeploymentId].spec), activeViable, activeReady, oldViable);
      assert plan == RollingPlan(app, deps, m);
      var first := DeploymentTarget(app.activeDeploymentId, plan.active);
      assert Wanted(app, deps, m, first.deploymentId, first.desiredCount);
      targets := ShareOldTargets(app, deps, m, first, plan.oldTotal);
    }

    method ComputeAppTarget(app: Application, deps: DeploymentTable, m: Table) returns (target: Option<AppTarget>)
      requires depReg.Valid() && Deployments.WellKeyed(deps)
      requires Agrees(depReg.deployments, deps, app.id)
      modifies depReg`deployments
      ensures depReg.Valid()
      ensures target.Some? <==> app.activeDeploymentId in AppDeps(deps, app.id)
      ensures target.Some? ==> IsTargetFor(target.value, app, deps, m)
      ensures target.Some? ==>
                depReg.deployments == MarkedUpTo(app, deps, m, AppDeps(deps, app.id), old(depReg.deployments))
      ensures target.None? ==> depReg.deployments == old(depReg.deployments)
    {
      var active := app.activeDeploymentId;
      if active !in deps || deps[active].applicationId != app.id {
        return None;
      }
      var t: AppTarget;
      if deps[active].spec.strategy.None? || deps[active].spec.strategy.value.kind.Immediate? {
        t := ComputeImmediateTarget(app, deps, m);
      } else {
        t := ComputeRollingTarget(app, deps, m);
      }
      target := Some(t);
    }

    /** The body of the loop over the applications. */
    method PlanTurn(apps: AppTable, deps: DeploymentTable, m: Table, a: Id, results: seq<AppTarget>, ghost done: set<Id>)
      returns (results': seq<AppTarget>)
      requires depReg.Valid() && AppsKeyed(apps) && Deployments.WellKeyed(deps)
      requires a in apps && a !in done
      requires PlannedFor(results, apps, deps, m, done)
      requires depReg.deployments == AllMarked(apps, done, deps, m)
      modifies depReg`deployments
      ensures depReg.Valid()
      ensures PlannedFor(results', apps, deps, m, done + {a})
      ensures depReg.deployments == AllMarked(apps, done + {a}, deps, m)
    {
      var app := apps[a];
      NextApp(apps, done, deps, m, a);
      results' := results;
      if app.activeDeploymentId == NO_ID {
        PlanNone(results, apps, deps, m, done, a);
        return;
      }
      var target := ComputeAppTarget(app, deps, m);
      if target.Some? {
        PlanOneMore(results, target.value, apps, deps, m, done);
        results' := results' + [target.value];
      } else {
        PlanNone(results, apps, deps, m, done, a);
      }
    }

    /** Targets for every application that has an active deployment. */
    method ComputeTargets(apps: AppTable, m: Table) returns (results: seq<AppTarget>)
      requires depReg.Valid() && AppsKeyed(apps)
      modifies depReg`deployments
      ensures depReg.Valid()
      ensures PlannedFor(results, apps, old(depReg.deployments), m, apps.Keys)
      ensures depReg.deployments == AllMarked(apps, apps.Keys, old(depReg.deployments), m)
    {
      var deps := depReg.deployments;
      results := [];
      var todo := apps.Keys;
      ghost var done: set<Id> := {};
      NoAppMarked(apps, deps, m);
      while todo != {}
        invariant depReg.Valid()
        invariant todo <= apps.Keys && done == apps.Keys - todo
        invariant PlannedFor(results, apps, deps, m, done)
        invariant depReg.deployments == AllMarked(apps, done, deps, m)
        decreases todo
      {
        var a :| a in todo;
        results := PlanTurn(apps, deps, m, a, results, done);
        todo := todo - {a};
        done := done + {a};
      }
      assert done == apps.Keys;
    }
  }

  // ----- all applications together

  ghost predicate AppsKeyed(apps: AppTable) {
    forall a :: a in apps ==> a != NO_ID && apps[a].id == a
  }

  ghost predicate Targeted(apps: AppTable, deps: DeploymentTable, a: Id) {
    a in apps && HasTarget(apps[a], deps)
  }

  /** The deployment table once the applications in `done` are planned. */
  ghost function AllMarked(apps: AppTable, done: set<Id>, deps: DeploymentTable, m: Table): DeploymentTable
    requires AppsKeyed(apps)
  {
    map d | d in deps ::
      var a := deps[d].applicationId;
      if a in done && Targeted(apps, deps, a) then Marked(apps[a], deps, m, d) else deps[d]
  }

  /** One target per application in `done` that has an active deployment. */
  ghost predicate PlannedFor(results: seq<AppTarget>, apps: AppTable, deps: DeploymentTable, m: Table, done: set<Id>) {
    && (forall i :: 0 <= i < |results| ==>
          results[i].appId in done && results[i].appId in apps && IsTargetFor(results[i], apps[results[i].appId], deps, m))
    && (forall i, j :: 0 <= i < j < |results| ==> results[i].appId != results[j].appId)
    && (forall a :: a in done && Targeted(apps, deps, a) ==> exists i :: 0 <= i < |results| && results[i].appId == a)
  }

  lemma NoAppMarked(apps: AppTable, deps: DeploymentTable, m: Table)
    requires AppsKeyed(apps)
    ensures AllMarked(apps, {}, deps, m) == deps
  {
  }

  lemma NextApp(apps: AppTable, done: set<Id>, deps: DeploymentTable, m: Table, a: Id)
    requires AppsKeyed(apps) && a in apps && a !in done
    ensures Agrees(AllMarked(apps, done, deps, m), deps, a)
    ensures HasTarget(apps[a], deps) ==>
              AllMarked(apps, done + {a}, deps, m) ==
              MarkedUpTo(apps[a], deps, m, AppDeps(deps, a), AllMarked(apps, done, deps, m))
    ensures !HasTarget(apps[a], deps) ==> AllMarked(apps, done + {a}, deps, m) == AllMarked(apps, done, deps, m)
  {
  }

  lemma PlanOneMore(results: seq<AppTarget>, t: AppTarget, apps: AppTable, deps: DeploymentTable, m: Table, done: set<Id>)
    requires PlannedFor(results, apps, deps, m, done)
    requires t.appId in apps && t.appId !in done && IsTargetFor(t, apps[t.appId], deps, m)
    ensures PlannedFor(results + [t], apps, deps, m, done + {t.appId})
  {
    var after := results + [t];
    forall a | a in done + {t.appId} && Targeted(apps, deps, a)
      ensures exists i :: 0 <= i < |after| && after[i].appId == a
    {
      if a == t.appId {
        assert after[|results|] == t;
      } else {
        var i :| 0 <= i < |results| && results[i].appId == a;
        assert after[i] == results[i];
      }
    }
  }

  lemma PlanNone(results: seq<AppTarget>, apps: AppTable, deps: DeploymentTable, m: Table, done: set<Id>, a: Id)
    requires PlannedFor(results, apps, deps, m, done)
    requires !Targeted(apps, deps, a)
    ensures PlannedFor(results, apps, deps, m, done + {a})
  {
  }

  ghost predicate AgreesOnOld(current: DeploymentTable, deps: DeploymentTable, app: Application) {
    forall d :: d in AppDeps(deps, app.id) && d != app.activeDeploymentId ==> d in current && current[d] == deps[d]
  }

  lemma NothingShared(app: Application, deps: DeploymentTable, m: Table)
    requires HasTarget(app, deps) && !IsImmediate(deps[app.activeDeploymentId].spec)
    ensures SharedUpTo(app, deps, m, 0, RollingPlan(app, deps, m).oldTotal)
  {
    var held := Held(m, app.id, OldDeps(app, deps));
    assert held[0..] == held && OldShares(app, deps, m)[0..] == OldShares(app, deps, m);
  }

  lemma NothingMarked(app: Application, deps: DeploymentTable, m: Table, before: DeploymentTable)
    requires HasTarget(app, deps)
    ensures MarkedUpTo(app, deps, m, {}, before) == before
  {
  }

  lemma SharingStarts(first: DeploymentTarget, app: Application, deps: DeploymentTable, m: Table, before: DeploymentTable)
    requires HasTarget(app, deps) && !IsImmediate(deps[app.activeDeploymentId].spec)
    requires first.deploymentId == app.activeDeploymentId && Wanted(app, deps, m, first.deploymentId, first.desiredCount)
    ensures SharedUpTo(app, deps, m, 0, RollingPlan(app, deps, m).oldTotal)
    ensures Gathered([first], app, deps, m, OldPrefix(app, deps, 0) + {first.deploymentId})
    ensures MarkedUpTo(app, deps, m, OldPrefix(app, deps, 0), before) == before
  {
    assert OldPrefix(app, deps, 0) == {} && OldPrefix(app, deps, 0) + {first.deploymentId} == {first.deploymentId};
    FirstGathered(first, app, deps, m);
    NothingShared(app, deps, m);
    NothingMarked(app, deps, m, before);
  }

  lemma UnmarkedYet(app: Application, deps: DeploymentTable, m: Table, done: set<Id>, before: DeploymentTable, d: Id)
    requires HasTarget(app, deps) && AgreesOnOld(before, deps, app)
    requires d in AppDeps(deps, app.id) && d != app.activeDeploymentId && d !in done
    ensures d in before && d in MarkedUpTo(app, deps, m, done, before)
    ensures MarkedUpTo(app, deps, m, done, before)[d] == deps[d]
  {
  }

  /** What is left to hand out before old deployment number `k`. */
  ghost predicate SharedUpTo(app: Application, deps: DeploymentTable, m: Table, k: nat, remaining: int)
    requires HasTarget(app, deps) && !IsImmediate(deps[app.activeDeploymentId].spec)
  {
    var held := Held(m, app.id, OldDeps(app, deps));
    && k <= |held|
    && OldShares(app, deps, m)[k..] == Greedy(held[k..], remaining)
  }

  lemma ShareStep(app: Application, deps: DeploymentTable, m: Table, k: nat, remaining: int)
    requires HasTarget(app, deps)
    requires !IsImmediate(deps[app.activeDeploymentId].spec) && !deps[app.activeDeploymentId].degraded
    requires k < |OldDeps(app, deps)| && SharedUpTo(app, deps, m, k, remaining)
    ensures
      var d := OldDeps(app, deps)[k];
      var share := Min(|Where(m, ViableIn(app.id, d))|, remaining);
      Wanted(app, deps, m, d, share) && SharedUpTo(app, deps, m, k + 1, remaining - share)
  {
    var held := Held(m, app.id, OldDeps(app, deps));
    var shares := OldShares(app, deps, m);
    assert shares[k] == shares[k..][0] && held[k] == held[k..][0];
    assert held[k..][1..] == held[k + 1..] && shares[k..][1..] == shares[k + 1..];
    NextOld(app, deps, k);
  }

  /** The first `k` old deployments in id order. */
  ghost function OldPrefix(app: Application, deps: DeploymentTable, k: nat): set<Id>
    requires k <= |OldDeps(app, deps)|
  {
    Elements(OldDeps(app, deps)[..k])
  }

  lemma NextOld(app: Application, deps: DeploymentTable, k: nat)
    requires k < |OldDeps(app, deps)|
    ensures
      var d := OldDeps(app, deps)[k];
      && d in AppDeps(deps, app.id) && d != app.activeDeploymentId && d !in OldPrefix(app, deps, k)
      && OldPrefix(app, deps, k + 1) == OldPrefix(app, deps, k) + {d}
  {
    SortedPrefix(AppDeps(deps, app.id) - {app.activeDeploymentId}, k);
  }

  lemma GatherNextOld(targets: seq<DeploymentTarget>, app: Application, deps: DeploymentTable, m: Table, k: nat, n: int)
    requires HasTarget(app, deps) && k < |OldDeps(app, deps)|
    requires Gathered(targets, app, deps, m, OldPrefix(app, deps, k) + {app.activeDeploymentId})
    requires Wanted(app, deps, m, OldDeps(app, deps)[k], n)
    ensures Gathered(targets + [DeploymentTarget(OldDeps(app, deps)[k], n)], app, deps, m,
                     OldPrefix(app, deps, k + 1) + {app.activeDeploymentId})
  {
    var d := OldDeps(app, deps)[k];
    var done := OldPrefix(app, deps, k);
    NextOld(app, deps, k);
    GatherOneMore(targets, app, deps, m, done + {app.activeDeploymentId}, d, n);
    assert done + {app.activeDeploymentId} + {d} == done + {d} + {app.activeDeploymentId};
  }

  lemma AllOld(app: Application, deps: DeploymentTable)
    requires HasTarget(app, deps)
    ensures OldPrefix(app, deps, |OldDeps(app, deps)|) == AppDeps(deps, app.id) - {app.activeDeploymentId}
    ensures OldPrefix(app, deps, |OldDeps(app, deps)|) + {app.activeDeploymentId} == AppDeps(deps, app.id)
  {
    SortedElements(AppDeps(deps, app.id) - {app.activeDeploymentId});
    assert OldDeps(app, deps)[..|OldDeps(app, deps)|] == OldDeps(app, deps);
  }

  lemma FirstGathered(first: DeploymentTarget, app: Application, deps: DeploymentTable, m: Table)
    requires HasTarget(app, deps) && Wanted(app, deps, m, first.deploymentId, first.desiredCount)
    ensures Gathered([first], app, deps, m, {first.deploymentId})
  {
    ListedAppend([], first);
    assert [] + [first] == [first] && {} + {first.deploymentId} == {first.deploymentId};
  }

  lemma OnlyActiveMarked(app: Application, deps: DeploymentTable, m: Table,
                         before: DeploymentTable, counted: DeploymentTable, after: DeploymentTable)
    requires HasTarget(app, deps) && Agrees(before, deps, app.id)
    requires !IsImmediate(deps[app.activeDeploymentId].spec) && deps[app.activeDeploymentId].degraded
    requires counted == before[app.activeDeploymentId := Counted(app, deps, m)]
    requires after == counted[app.activeDeploymentId := Marked(app, deps, m, app.activeDeploymentId)]
    ensures after == MarkedUpTo(app, deps, m, AppDeps(deps, app.id), before)
  {
  }

  lemma ActiveMarkedLast(app: Application, deps: DeploymentTable, m: Table,
                         before: DeploymentTable, counted: DeploymentTable, after: DeploymentTable)
    requires HasTarget(app, deps) && app.activeDeploymentId in before
    requires counted == before[app.activeDeploymentId := Counted(app, deps, m)]
    requires after == MarkedUpTo(app, deps, m, AppDeps(deps, app.id) - {app.activeDeploymentId}, counted)
                      [app.activeDeploymentId := Marked(app, deps, m, app.activeDeploymentId)]
    ensures after == MarkedUpTo(app, deps, m, AppDeps(deps, app.id), before)
  {
  }
}
