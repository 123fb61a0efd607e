/** What a whole pass makes of an application, strategy by strategy, in numbers of instances; and what the
    controller writes down about it. */
module StrategyLaws {
  import opened Ids
  import opened Instances
  import opened Deployments
  import opened RolloutMath
  import opened RolloutController
  import opened Reconciler
  import opened PassLaws
  import opened Draining

  /** The deployments after crash accounting: what the targets are computed from. */
  ghost function CountedFrom(m: Table, deps: DeploymentTable, online: set<Id>, now: Time, order: seq<Id>): DeploymentTable {
    HealthFold(deps, Recover(m, online, now), order, now)
  }

  /** Each deployment of an application with an active one is scaled to its wanted count. */
  lemma PassScalesTo(m: Table, deps: DeploymentTable, m': Table, deps': DeploymentTable, apps: AppTable, online: set<Id>,
                     drainTimeout: Time, now: Time, order: seq<Id>, results: seq<AppTarget>, a: Id, d: Id) returns (n: int)
    requires PassWith(m, deps, m', deps', apps, online, drainTimeout, now, order, results)
    requires var counted := CountedFrom(m, deps, online, now, order);
             Targeted(apps, counted, a) && d in AppDeps(counted, a)
    ensures var counted, m2 := CountedFrom(m, deps, online, now, order), Settle(m, online, now);
            && Wanted(apps[a], counted, m2, d, n)
            && Scaled(Group(m2, a, d), Group(m', a, d), a, d, n, drainTimeout, now)
  {
    var counted, m2 := CountedFrom(m, deps, online, now, order), Settle(m, online, now);
    WantedIsTarget(results, apps, counted, m2, a, d);
    n :| TargetBefore(results, |results|, 0, a, d, n);
    TargetIsWanted(results, apps, counted, m2, a, d, n);
    assert GroupDone(m2, m', results, |results|, 0, drainTimeout, now, a, d);
  }

  /** An application whose active deployment is deployed at once. */
  ghost predicate AtOnce(apps: AppTable, counted: DeploymentTable, a: Id) {
    && a in apps && apps[a].activeDeploymentId != NO_ID && apps[a].activeDeploymentId in AppDeps(counted, a) && apps[a].id == a
    && var spec := counted[apps[a].activeDeploymentId].spec;
       spec.strategy.None? || spec.strategy.value.kind == Immediate
  }

  /** What an immediate deployment asks for: the replicas of its spec, nothing for the other deployments, and when it
      is degraded as many as it has. */
  lemma ImmediateWants(app: Application, deps: DeploymentTable, m: Table, d: Id, n: int)
    requires HasTarget(app, deps) && Wanted(app, deps, m, d, n)
    requires var spec := deps[app.activeDeploymentId].spec; spec.strategy.None? || spec.strategy.value.kind == Immediate
    ensures d != app.activeDeploymentId ==> n == 0
    ensures d == app.activeDeploymentId && !deps[d].degraded ==> n == deps[d].spec.replicas
    ensures d == app.activeDeploymentId && deps[d].degraded ==> n == |Where(m, ViableAnywhere(d))|
  {
  }

  /** Without a drain period a pass leaves an immediate deployment exactly its replicas, or, degraded, what it had,
      and every other deployment of the application nothing. */
  lemma ImmediateIsExact(m: Table, deps: DeploymentTable, m': Table, deps': DeploymentTable, apps: AppTable, online: set<Id>,
                         drainTimeout: Time, now: Time, order: seq<Id>, results: seq<AppTarget>, a: Id, d: Id)
    requires PassWith(m, deps, m', deps', apps, online, drainTimeout, now, order, results)
    requires AllLifecycle(m) && Owned(m, deps) && drainTimeout <= 0
    requires Deployments.WellKeyed(deps) && SpecsValidated(deps)
    requires AtOnce(apps, CountedFrom(m, deps, online, now, order), a) && d in AppDeps(CountedFrom(m, deps, online, now, order), a)
    ensures var counted, m2 := CountedFrom(m, deps, online, now, order), Settle(m, online, now);
            |Where(m', ViableIn(a, d))| ==
              if d != apps[a].activeDeploymentId then 0
              else if counted[d].degraded then |Where(m2, ViableIn(a, d))|
              else counted[d].spec.replicas
  {
    var counted, m2 := CountedFrom(m, deps, online, now, order), Settle(m, online, now);
    PassIsExact(m, deps, m', deps', apps, online, drainTimeout, now, order, results, a, d);
    ImmediateWants(apps[a], counted, m2, d, |Where(m', ViableIn(a, d))|);
    CountedFacts(m, deps, online, now, order);
    OwnedViable(m2, counted, a, d);
  }

  /** Of the instances that do not drain, for every drain period: others of the application keep none; the active
      deployment has its replicas, counting as missing only what is not viable at all. */
  lemma ImmediateStays(m: Table, deps: DeploymentTable, m': Table, deps': DeploymentTable, apps: AppTable, online: set<Id>,
                       drainTimeout: Time, now: Time, order: seq<Id>, results: seq<AppTarget>, a: Id, d: Id)
    requires PassWith(m, deps, m', deps', apps, online, drainTimeout, now, order, results)
    requires AllLifecycle(m) && Owned(m, deps)
    requires Deployments.WellKeyed(deps) && SpecsValidated(deps)
    requires AtOnce(apps, CountedFrom(m, deps, online, now, order), a) && d in AppDeps(CountedFrom(m, deps, online, now, order), a)
    ensures var counted, m2 := CountedFrom(m, deps, online, now, order), Settle(m, online, now);
            var viable, staying := |Where(m2, ViableIn(a, d))|, |Where(m2, StayingIn(a, d))|;
            |Where(m', StayingIn(a, d))| ==
              if d != apps[a].activeDeploymentId then 0
              else if counted[d].degraded then staying
              else if viable < counted[d].spec.replicas then staying + (counted[d].spec.replicas - viable)
              else Min(staying, counted[d].spec.replicas)
  {
    var n := ImmediateScales(m, deps, m', deps', apps, online, drainTimeout, now, order, results, a, d);
    SettledStays(m, m', a, d, n, online, drainTimeout, now);
  }

  lemma SettledStays(m: Table, m': Table, a: Id, d: Id, n: nat, online: set<Id>, drainTimeout: Time, now: Time)
    requires AllLifecycle(m) && Scaled(Group(Settle(m, online, now), a, d), Group(m', a, d), a, d, n, drainTimeout, now)
    ensures var viable, staying := |Where(Settle(m, online, now), ViableIn(a, d))|, |Where(Settle(m, online, now), StayingIn(a, d))|;
            staying <= viable && |Where(m', StayingIn(a, d))| == if viable < n then staying + (n - viable) else Min(staying, n)
  {
    SettledLifecycle(m, online, now);
    StayingScaled(Settle(m, online, now), m', a, d, n, drainTimeout, now);
  }

  lemma StayingWithin(m: Table, a: Id, d: Id)
    ensures |Where(m, StayingIn(a, d))| <= |Where(m, ViableIn(a, d))|
  {
    SubsetSize(Where(m, StayingIn(a, d)), Where(m, ViableIn(a, d)));
  }

  lemma ImmediateScales(m: Table, deps: DeploymentTable, m': Table, deps': DeploymentTable, apps: AppTable, online: set<Id>,
                        drainTimeout: Time, now: Time, order: seq<Id>, results: seq<AppTarget>, a: Id, d: Id) returns (n: nat)
    requires PassWith(m, deps, m', deps', apps, online, drainTimeout, now, order, results)
    requires Owned(m, deps) && Deployments.WellKeyed(deps) && SpecsValidated(deps)
    requires AtOnce(apps, CountedFrom(m, deps, online, now, order), a) && d in AppDeps(CountedFrom(m, deps, online, now, order), a)
    ensures var counted, m2 := CountedFrom(m, deps, online, now, order), Settle(m, online, now);
            && n == (if d != apps[a].activeDeploymentId then 0
                     else if counted[d].degraded then |Where(m2, ViableIn(a, d))|
                     else counted[d].spec.replicas)
            && Scaled(Group(m2, a, d), Group(m', a, d), a, d, n, drainTimeout, now)
  {
    var counted, m2 := CountedFrom(m, deps, online, now, order), Settle(m, online, now);
    var k := PassScalesTo(m, deps, m', deps', apps, online, drainTimeout, now, order, results, a, d);
    ImmediateWants(apps[a], counted, m2, d, k);
    CountedFacts(m, deps, online, now, order);
    OwnedViable(m2, counted, a, d);
    n := k;
  }

  lemma StayingScaled(m: Table, m': Table, a: Id, d: Id, n: nat, drainTimeout: Time, now: Time)
    requires AllLifecycle(m) && Scaled(Group(m, a, d), Group(m', a, d), a, d, n, drainTimeout, now)
    ensures var viable, staying := |Where(m, ViableIn(a, d))|, |Where(m, StayingIn(a, d))|;
            staying <= viable && |Where(m', StayingIn(a, d))| == if viable < n then staying + (n - viable) else Min(staying, n)
  {
    StayingWithin(m, a, d);
    var g, g' := Group(m, a, d), Group(m', a, d);
    GroupCounted(m, a, d);
    GroupCounted(m', a, d);
    assert OneDeployment(g, a, d);
    if |Where(g, ViableIn(a, d))| < n {
      GrownStays(g, g', a, d, n - |Where(g, ViableIn(a, d))|, now);
    } else {
      ScaledDown(g, g', a, d, n, drainTimeout, now);
    }
  }

  lemma GroupCounted(m: Table, a: Id, d: Id)
    ensures Where(Group(m, a, d), ViableIn(a, d)) == Where(m, ViableIn(a, d))
    ensures Where(Group(m, a, d), StayingIn(a, d)) == Where(m, StayingIn(a, d))
  {
  }

  lemma GrownStays(g: Table, g': Table, a: Id, d: Id, k: int, now: Time)
    requires Grown(g, g', a, d, k, now)
    ensures |Where(g', StayingIn(a, d))| == |Where(g, StayingIn(a, d))| + k
  {
    var staying, added := Where(g, StayingIn(a, d)), NewIds(g, g');
    forall id ensures id in Where(g', StayingIn(a, d)) <==> id in staying || id in added {
    }
    assert Where(g', StayingIn(a, d)) == staying + added && staying !! added;
  }

  // ----- a degraded rolling update

  /** A rolling update whose active deployment is degraded is held: a pass creates, drains and stops nothing of the
      application. */
  lemma DegradedRollingHolds(m: Table, deps: DeploymentTable, m': Table, deps': DeploymentTable, apps: AppTable, online: set<Id>,
                             drainTimeout: Time, now: Time, order: seq<Id>, results: seq<AppTarget>, a: Id, d: Id)
    requires PassWith(m, deps, m', deps', apps, online, drainTimeout, now, order, results)
    requires var counted := CountedFrom(m, deps, online, now, order);
             && Targeted(apps, counted, a) && d in AppDeps(counted, a) && AppsKeyed(apps)
             && counted[apps[a].activeDeploymentId].degraded
             && counted[apps[a].activeDeploymentId].spec.strategy.Some?
             && counted[apps[a].activeDeploymentId].spec.strategy.value.kind != Immediate
    ensures Group(m', a, d) == Group(Settle(m, online, now), a, d)
  {
    var m2 := Settle(m, online, now);
    var n := PassScalesTo(m, deps, m', deps', apps, online, drainTimeout, now, order, results, a, d);
    assert n == |Where(m2, ViableIn(a, d))|;
    GroupCounted(m2, a, d);
    NothingScaled(Group(m2, a, d), Group(m', a, d), a, d, n, drainTimeout, now);
  }

  lemma NothingScaled(g: Table, g': Table, a: Id, d: Id, n: nat, drainTimeout: Time, now: Time)
    requires Scaled(g, g', a, d, n, drainTimeout, now) && n == |Where(g, ViableIn(a, d))|
    ensures g' == g
  {
    var viable := Where(g, ViableIn(a, d));
    var victims :| AreVictims(g, viable, victims, 0) && g' == Shrunk(g, victims, drainTimeout, now);
    assert victims == {};
  }

  // ----- bookkeeping

  /** What is written about the active deployment: its wanted, viable and ready instances and what is missing of the
      desired ones over all versions; it fails when degraded, and otherwise goes from PENDING to PROGRESSING and,
      with all desired active ones ready and no old one left, to COMPLETED. */
  lemma RollingMarks(app: Application, deps: DeploymentTable, m: Table)
    requires HasTarget(app, deps)
    requires var spec := deps[app.activeDeploymentId].spec; spec.strategy.Some? && spec.strategy.value.kind != Immediate
    ensures var d, dep := Marked(app, deps, m, app.activeDeploymentId), deps[app.activeDeploymentId];
            var viable, ready := |Where(m, ViableIn(app.id, app.activeDeploymentId))|, |Where(m, ReadyIn(app.id, app.activeDeploymentId))|;
            && d.desiredReplicas == dep.spec.replicas && d.updatedReplicas == viable && d.readyReplicas == ready
            && d.unavailableReplicas == dep.spec.replicas - ready - |Where(m, ReadyOutside(app.id, app.activeDeploymentId))|
            && d.rolloutStatus ==
                 if dep.degraded then RolloutFailed
                 else if dep.rolloutStatus == RolloutPending then RolloutProgressing
                 else if ready == dep.spec.replicas && |Where(m, ViableOutside(app.id, app.activeDeploymentId))| == 0
                 then RolloutCompleted
                 else dep.rolloutStatus
  {
  }

  /** An immediate deployment is COMPLETED at once, or FAILED when degraded, and what it replaces is ROLLED_BACK
      unless it was superseded, completed or rolled back before. */
  lemma ImmediateMarks(app: Application, deps: DeploymentTable, m: Table, d: Id)
    requires HasTarget(app, deps) && d in AppDeps(deps, app.id)
    requires var spec := deps[app.activeDeploymentId].spec; spec.strategy.None? || spec.strategy.value.kind == Immediate
    ensures var marked, dep := Marked(app, deps, m, d), deps[d];
            && (d == app.activeDeploymentId ==> marked.rolloutStatus == if dep.degraded then RolloutFailed else RolloutCompleted)
            && (d != app.activeDeploymentId ==>
                  marked.rolloutStatus == if dep.rolloutStatus == RolloutCompleted || dep.status == Superseded then dep.rolloutStatus
                                          else RolloutRolledBack)
  {
  }

  /** An old deployment of a rolling update is ROLLED_BACK once nothing viable is left of it, unless it is superseded
      or the update is held. */
  lemma OldMarks(app: Application, deps: DeploymentTable, m: Table, d: Id)
    requires HasTarget(app, deps) && d in AppDeps(deps, app.id) && d != app.activeDeploymentId
    requires var spec := deps[app.activeDeploymentId].spec; spec.strategy.Some? && spec.strategy.value.kind != Immediate
    ensures Marked(app, deps, m, d).rolloutStatus ==
              if Where(m, ViableIn(app.id, d)) == {} && !deps[app.activeDeploymentId].degraded && deps[d].status != Superseded
              then RolloutRolledBack else deps[d].rolloutStatus
  {
    assert |Where(m, ViableIn(app.id, d))| == 0 <==> Where(m, ViableIn(app.id, d)) == {};
  }
}
