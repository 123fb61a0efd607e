/** Two ways in which an application can end up without instances that serve. */
module RollbackLaws {
  import opened Ids
  import opened Instances
  import opened Deployments
  import opened RolloutMath
  import opened RolloutController
  import opened Reconciler
  import opened PassLaws
  import opened Draining
  import opened Rollouts
  import opened Routing
  import ControlPlane
  import Apply

  // ----- rolling back to a deployment that is draining away

  /** Every viable instance of the active deployment has been told to drain, as after rolling back to a deployment
      that was being scaled down. */
  ghost predicate ActiveDrains(m: Table, r: Rollout) {
    forall id :: id in m && m[id].applicationId == r.app && m[id].deploymentId == r.active && Viable(m[id].status)
      ==> m[id].draining
  }

  /** A pass creates an instance of the active deployment if and only if draining instances and all it has fewer
      than it may have: that they drain does not count. */
  lemma CreatesIffShort(s: State, s': State, r: Rollout, drainTimeout: Time, now: Time)
    requires Rolling(s, r) && PassAt(s, s', r, drainTimeout, now)
    ensures var g, g' := Group(s.instances, r.app, r.active), Group(s'.instances, r.app, r.active);
            && (g' != g <==> CountsAt(s, r).activeViable < Min(r.params.desired, r.params.Ceiling() - PlanAt(s, r).oldTotal))
            && (forall id :: id in g ==> id in g' && g'[id] == g[id])
  {
    ActiveGrows(s, s', r, drainTimeout, now);
    var g, g' := Group(s.instances, r.app, r.active), Group(s'.instances, r.app, r.active);
    GroupCounts(s.instances, r.app, r.active);
    GroupCounts(s'.instances, r.app, r.active);
    SameUnlessMore(g, g', r.app, r.active, now);
  }

  lemma SameUnlessMore(g: Table, g': Table, a: Id, d: Id, now: Time)
    requires forall id :: id in g ==> id in g' && g'[id] == g[id]
    requires forall id :: id in g' && id !in g ==> g'[id] == NewInstance(id, a, d, now)
    ensures g' == g <==> |Where(g', ViableIn(a, d))| == |Where(g, ViableIn(a, d))|
  {
    if id :| id in g' && id !in g {
      NewIsViable(g, g', a, d, now, id);
    } else {
      assert g'.Keys == g.Keys;
      assert g' == g;
    }
  }

  lemma NewIsViable(g: Table, g': Table, a: Id, d: Id, now: Time, id: Id)
    requires forall x :: x in g ==> x in g' && g'[x] == g[x]
    requires id in g' && id !in g && g'[id] == NewInstance(id, a, d, now)
    ensures |Where(g', ViableIn(a, d))| > |Where(g, ViableIn(a, d))|
  {
    var viable, viable' := Where(g, ViableIn(a, d)), Where(g', ViableIn(a, d));
    assert id in viable' && id !in viable;
    SubsetSize(viable + {id}, viable');
  }

  lemma PassKeepsDark(s: State, s': State, r: Rollout, drainTimeout: Time, now: Time)
    requires Rolling(s, r) && PassAt(s, s', r, drainTimeout, now)
    requires ActiveDrains(s.instances, r) && CountsAt(s, r).activeViable >= r.params.desired
    ensures Rolling(s', r) && ActiveDrains(s'.instances, r) && CountsAt(s', r).activeViable >= r.params.desired
    ensures CountsAt(s', r).activeReady == CountsAt(s, r).activeReady
  {
    PassKeeps(s, s', r, drainTimeout, now);
    ActiveGrows(s, s', r, drainTimeout, now);
    CreatesIffShort(s, s', r, drainTimeout, now);
    var g, g' := Group(s.instances, r.app, r.active), Group(s'.instances, r.app, r.active);
    forall id | id in s'.instances && s'.instances[id].applicationId == r.app && s'.instances[id].deploymentId == r.active
                && Viable(s'.instances[id].status)
      ensures s'.instances[id].draining
    {
      assert id in g' && g'[id] == s'.instances[id] && g[id] == s.instances[id];
    }
  }

  /** What makes the active deployment consist of draining instances after a pass: it did before, and there were
      as many as it may have. */
  lemma DarkIff(s: State, s': State, r: Rollout, drainTimeout: Time, now: Time)
    requires Rolling(s, r) && PassAt(s, s', r, drainTimeout, now)
    ensures ActiveDrains(s'.instances, r)
            <==> ActiveDrains(s.instances, r)
                 && CountsAt(s, r).activeViable >= Min(r.params.desired, r.params.Ceiling() - PlanAt(s, r).oldTotal)
  {
    ActiveGrows(s, s', r, drainTimeout, now);
    CreatesIffShort(s, s', r, drainTimeout, now);
    DrainsInGroup(s.instances, r);
    DrainsInGroup(s'.instances, r);
    DarkUnlessMore(Group(s.instances, r.app, r.active), Group(s'.instances, r.app, r.active), r.app, r.active, now);
  }

  ghost predicate AllDrain(g: Table) {
    forall id :: id in g && Viable(g[id].status) ==> g[id].draining
  }

  lemma DrainsInGroup(m: Table, r: Rollout)
    ensures ActiveDrains(m, r) <==> AllDrain(Group(m, r.app, r.active))
  {
    var g := Group(m, r.app, r.active);
    if AllDrain(g) {
      forall id | id in m && m[id].applicationId == r.app && m[id].deploymentId == r.active && Viable(m[id].status)
        ensures m[id].draining
      {
        assert id in g;
      }
    }
  }

  lemma DarkUnlessMore(g: Table, g': Table, a: Id, d: Id, now: Time)
    requires forall id :: id in g ==> id in g' && g'[id] == g[id]
    requires forall id :: id in g' && id !in g ==> g'[id] == NewInstance(id, a, d, now)
    ensures AllDrain(g') <==> AllDrain(g) && g' == g
  {
    if id :| id in g' && id !in g {
      assert !g'[id].draining && Viable(g'[id].status);
    } else {
      assert g'.Keys == g.Keys;
      assert g' == g;
    }
  }

  /** Over every run: once the active deployment consists of enough draining instances, passes go on counting them
      as viable and ready, none is ever created beside them, and no route table ever has one of its instances. */
  lemma {:induction false} DrainingActiveStaysDark(run: seq<State>, r: Rollout, k: nat, rules: seq<RouteRule>, c: Config, id: Id)
    requires RunOf(run, r) && k < |run|
    requires ActiveDrains(run[0].instances, r) && CountsAt(run[0], r).activeViable >= r.params.desired
    ensures Rolling(run[k], r) && ActiveDrains(run[k].instances, r) && CountsAt(run[k], r).activeViable >= r.params.desired
    ensures k > 0 && PassStep(run[k - 1], run[k], r) ==>
              CountsAt(run[k], r).activeReady == CountsAt(run[k - 1], r).activeReady
              && CountsAt(run[k], r).activeViable == CountsAt(run[k - 1], r).activeViable
    ensures (id in run[k].instances && run[k].instances[id].applicationId == r.app && run[k].instances[id].deploymentId == r.active
             && IsRouteTable(rules, c, run[k].instances)) ==> !Routed(rules, id)
  {
    if k > 0 {
      DrainingActiveStaysDark(run, r, k - 1, rules, c, id);
      var s, s' := run[k - 1], run[k];
      assert StepOf(s, s', r);
      if PassStep(s, s', r) {
        DarkStep(s, s', r);
      } else {
        AgentsKeepCounts(s, s', r);
      }
    }
    if IsRouteTable(rules, c, run[k].instances) && Routed(rules, id) {
      OnlyEligibleRouted(rules, c, run[k].instances, id);
    }
  }

  lemma DarkStep(s: State, s': State, r: Rollout)
    requires Rolling(s, r) && PassStep(s, s', r)
    requires ActiveDrains(s.instances, r) && CountsAt(s, r).activeViable >= r.params.desired
    ensures Rolling(s', r) && ActiveDrains(s'.instances, r)
    ensures CountsAt(s', r).activeViable == CountsAt(s, r).activeViable && CountsAt(s', r).activeReady == CountsAt(s, r).activeReady
  {
    var drainTimeout, now :| PassAt(s, s', r, drainTimeout, now);
    PassKeepsDark(s, s', r, drainTimeout, now);
    ActiveGrows(s, s', r, drainTimeout, now);
  }

  /** A rollback to `target` while its one ready instance is draining, and nothing is left of `former`. */
  function RolledBackWhileDraining(app: Id, former: Id, target: Id, inst: Id, node: Id, exec: Id, at: Time): State {
    var spec := AppSpec(1, Some(Strategy(RollingUpdate, 0, 1)), None, Container("image", [], [], map[]));
    var i := Instance(inst, app, target, node, exec, Running, Healthy, true, Some(at), NO_ID, [], 0, Some(0), None, None);
    var d1 := Deployment(target, app, 1, spec, "", Superseded, RolloutCompleted, 0, 0, 0, 0, "", 0, false);
    var d2 := Deployment(former, app, 2, spec, "", Active, RolloutProgressing, 0, 0, 0, 0, "", 0, false);
    State(map[inst := i], ControlPlane.RolledBack(map[target := d1, former := d2], former, target))
  }

  /** That state meets the hypotheses above with one replica desired: the instance is counted as viable and ready. */
  lemma RollbackReachesDark(app: Id, former: Id, target: Id, inst: Id, node: Id, exec: Id, at: Time)
    requires NO_ID !in {former, target, inst, node, exec} && former != target
    ensures var s, r := RolledBackWhileDraining(app, former, target, inst, node, exec, at), Rollout(app, target, Params(1, 0, 1));
            && Rolling(s, r) && ActiveDrains(s.instances, r)
            && CountsAt(s, r).activeViable == CountsAt(s, r).activeReady == r.params.desired == 1
  {
    var s, r := RolledBackWhileDraining(app, former, target, inst, node, exec, at), Rollout(app, target, Params(1, 0, 1));
    assert Lifecycle(s.instances[inst]);
    assert AppDeps(s.deployments, app) == {former, target};
    assert Where(s.instances, ViableIn(app, target)) == {inst};
    assert Where(s.instances, ReadyIn(app, target)) == {inst};
  }

  // ----- deployments made by apply

  /** A manifest's deployment carries neither replicas nor a strategy, so while it is active and not degraded the
      controller wants no instance of any deployment of the application. */
  lemma AppliedWantsNothing(app: Application, deps: DeploymentTable, m: Table, mf: Apply.Manifest, d: Id, n: int)
    requires HasTarget(app, deps) && deps[app.activeDeploymentId].spec == Apply.DeploymentSpec(mf)
    requires !deps[app.activeDeploymentId].degraded && Wanted(app, deps, m, d, n)
    ensures n == 0
  {
  }

  /** So a reconcile pass gives up every instance the application has, and creates none. */
  lemma PassAfterApply(m: Table, deps: DeploymentTable, m': Table, deps': DeploymentTable, apps: AppTable, online: set<Id>,
                       drainTimeout: Time, now: Time, order: seq<Id>, results: seq<AppTarget>, a: Id, d: Id, mf: Apply.Manifest)
    requires PassWith(m, deps, m', deps', apps, online, drainTimeout, now, order, results) && AllLifecycle(m)
    requires var counted := HealthFold(deps, Recover(m, online, now), order, now);
             && Targeted(apps, counted, a) && d in AppDeps(counted, a)
             && counted[apps[a].activeDeploymentId].spec == Apply.DeploymentSpec(mf)
             && !counted[apps[a].activeDeploymentId].degraded
    ensures Where(m', StayingIn(a, d)) == {}
    ensures drainTimeout <= 0 ==> Where(m', ViableIn(a, d)) == {}
  {
    var m2 := Settle(m, online, now);
    var counted := HealthFold(deps, Recover(m, online, now), order, now);
    WantedIsTarget(results, apps, counted, m2, a, d);
    var n :| TargetBefore(results, |results|, 0, a, d, n);
    TargetIsWanted(results, apps, counted, m2, a, d, n);
    AppliedWantsNothing(apps[a], counted, m2, mf, d, n);
    SettledLifecycle(m, online, now);
    var g, g' := Group(m2, a, d), Group(m', a, d);
    assert GroupDone(m2, m', results, |results|, 0, drainTimeout, now, a, d);
    GroupIsOne(m2, a, d);
    GroupCounts(m', a, d);
    ScaledDown(g, g', a, d, n, drainTimeout, now);
    if drainTimeout <= 0 {
      ScaledExactly(g, g', a, d, n, drainTimeout, now);
    }
  }
}
