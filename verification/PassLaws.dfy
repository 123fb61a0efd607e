/** What every whole reconcile pass guarantees, derived from the description `Pass` that the
    imperative reconciler is proved to meet. */
module PassLaws {
  import opened Ids
  import opened Instances
  import opened Deployments
  import opened RolloutMath
  import opened RolloutController
  import opened Reconciler

  /** Instances carry the application of their deployment; creation is the only place that sets it. */
  ghost predicate Owned(m: Table, deps: DeploymentTable) {
    forall id :: id in m && m[id].deploymentId in deps ==> deps[m[id].deploymentId].applicationId == m[id].applicationId
  }

  // ----- record by record

  /** What scaling does to a record that was there before. */
  ghost predicate KeptOrRetired(i: Instance, i': Instance, drainTimeout: Time, now: Time) {
    i' == i || (Viable(i.status) && i' == Retired(i, drainTimeout, now))
  }

  lemma ScaledRecords(g: Table, g': Table, a: Id, d: Id, n: int, drainTimeout: Time, now: Time)
    requires Scaled(g, g', a, d, n, drainTimeout, now)
    ensures forall id :: id in g ==> id in g' && KeptOrRetired(g[id], g'[id], drainTimeout, now)
    ensures forall id :: id in g' && id !in g ==> g'[id] == NewInstance(id, a, d, now) && |Where(g, ViableIn(a, d))| < n
  {
    var viable := Where(g, ViableIn(a, d));
    if |viable| >= n {
      var victims :| AreVictims(g, viable, victims, |viable| - n) && g' == Shrunk(g, victims, drainTimeout, now);
      assert forall id :: id in victims ==> id in viable;
    }
  }

  /** The table a pass scales: after recovery and health evaluation. */
  ghost function Settle(m: Table, online: set<Id>, now: Time): Table {
    Evaluate(Recover(m, online, now), now)
  }

  lemma PassRecords(m: Table, deps: DeploymentTable, m': Table, deps': DeploymentTable, apps: AppTable,
                    online: set<Id>, drainTimeout: Time, now: Time, order: seq<Id>, results: seq<AppTarget>, id: Id)
    requires PassWith(m, deps, m', deps', apps, online, drainTimeout, now, order, results)
    requires id in m
    ensures id in m' && KeptOrRetired(Settle(m, online, now)[id], m'[id], drainTimeout, now)
  {
    var m2 := Settle(m, online, now);
    var a, d := m2[id].applicationId, m2[id].deploymentId;
    var g, g' := Group(m2, a, d), Group(m', a, d);
    assert id in g;
    assert GroupDone(m2, m', results, |results|, 0, drainTimeout, now, a, d);
    if n :| TargetBefore(results, |results|, 0, a, d, n) {
      ScaledRecords(g, g', a, d, n, drainTimeout, now);
      assert g'[id] == m'[id];
    } else {
      assert g'[id] == m'[id];
    }
  }

  /** A record that is new after a pass belongs to a target that asked for more than it had. */
  lemma PassCreations(m: Table, deps: DeploymentTable, m': Table, deps': DeploymentTable, apps: AppTable,
                      online: set<Id>, drainTimeout: Time, now: Time, order: seq<Id>, results: seq<AppTarget>, id: Id)
    requires PassWith(m, deps, m', deps', apps, online, drainTimeout, now, order, results)
    requires id in m' && id !in m
    ensures
      var a, d := m'[id].applicationId, m'[id].deploymentId;
      && m'[id] == NewInstance(id, a, d, now)
      && exists n :: TargetBefore(results, |results|, 0, a, d, n) && |Where(Settle(m, online, now), ViableIn(a, d))| < n
  {
    var m2 := Settle(m, online, now);
    var a, d := m'[id].applicationId, m'[id].deploymentId;
    var g, g' := Group(m2, a, d), Group(m', a, d);
    assert id in g' && id !in g;
    assert GroupDone(m2, m', results, |results|, 0, drainTimeout, now, a, d);
    var n :| TargetBefore(results, |results|, 0, a, d, n);
    ScaledRecords(g, g', a, d, n, drainTimeout, now);
    GroupViable(m2, a, d);
  }

  lemma GroupViable(m: Table, a: Id, d: Id)
    ensures Where(Group(m, a, d), ViableIn(a, d)) == Where(m, ViableIn(a, d))
  {
  }

  /** Every target of a pass is the wanted count of a deployment of a known application. */
  lemma TargetIsWanted(results: seq<AppTarget>, apps: AppTable, deps: DeploymentTable, m: Table, a: Id, d: Id, n: int)
    requires PlannedFor(results, apps, deps, m, apps.Keys) && AppsKeyed(apps)
    requires TargetBefore(results, |results|, 0, a, d, n)
    ensures Targeted(apps, deps, a) && d in AppDeps(deps, a) && Wanted(apps[a], deps, m, d, n)
  {
    var i, j :| 0 <= i < |results| && 0 <= j < |results[i].targets| && (i < |results| || (i == |results| && j < 0))
      && results[i].appId == a && results[i].targets[j] == DeploymentTarget(d, n);
    assert IsTargetFor(results[i], apps[a], deps, m);
    assert results[i].targets[j].deploymentId in Listed(results[i].targets);
  }

  /** Every deployment of an application with an active deployment has a target. */
  lemma WantedIsTarget(results: seq<AppTarget>, apps: AppTable, deps: DeploymentTable, m: Table, a: Id, d: Id)
    requires PlannedFor(results, apps, deps, m, apps.Keys) && AppsKeyed(apps)
    requires Targeted(apps, deps, a) && d in AppDeps(deps, a)
    ensures exists n :: TargetBefore(results, |results|, 0, a, d, n)
  {
    var i :| 0 <= i < |results| && results[i].appId == a;
    var t := results[i];
    assert IsTargetFor(t, apps[a], deps, m);
    assert d in Listed(t.targets);
    var j :| 0 <= j < |t.targets| && t.targets[j].deploymentId == d;
    assert results[i].targets[j] == DeploymentTarget(d, t.targets[j].desiredCount);
    assert TargetBefore(results, |results|, 0, a, d, t.targets[j].desiredCount);
  }

  // ----- lifecycle and latch

  lemma SettledEvolves(i: Instance, online: set<Id>, now: Time)
    requires Lifecycle(i)
    ensures
      var i' := Evaluated(Recovered(i, online, now), now);
      Lifecycle(i') && Evolves(i, i')
  {
    var r := Recovered(i, online, now);
    assert Lifecycle(r) && Evolves(i, r) by {
      if i.nodeId != NO_ID && i.nodeId !in online && Viable(i.status) && !i.status.Unknown? {
        EditKeepsLifecycle(i, LoseNode, now);
      } else if i.status.Unknown? {
        EditKeepsLifecycle(i, GiveUp, now);
      }
    }
    if r.status.Running? {
      EditKeepsLifecycle(r, GiveUp, now);
    }
    EvolvesTransitive(i, r, Evaluated(r, now));
  }

  lemma RetiredEvolves(i: Instance, drainTimeout: Time, now: Time)
    requires Lifecycle(i) && Viable(i.status)
    ensures Lifecycle(Retired(i, drainTimeout, now)) && Evolves(i, Retired(i, drainTimeout, now))
  {
    var d := Drained(i, now);
    EditKeepsLifecycle(i, Drain, now);
    EditKeepsLifecycle(d, Retire, now);
    EvolvesTransitive(i, d, Retired(i, drainTimeout, now));
  }

  /** A pass keeps every lifecycle fact and takes nothing back. */
  lemma PassKeepsLifecycle(m: Table, deps: DeploymentTable, m': Table, deps': DeploymentTable, apps: AppTable,
                           online: set<Id>, drainTimeout: Time, now: Time)
    requires Pass(m, deps, m', deps', apps, online, drainTimeout, now)
    requires AllLifecycle(m)
    ensures AllLifecycle(m') && TableEvolves(m, m')
  {
    var order, results :| PassWith(m, deps, m', deps', apps, online, drainTimeout, now, order, results);
    forall id | id in m'
      ensures Lifecycle(m'[id]) && (id in m ==> Evolves(m[id], m'[id]))
    {
      if id in m {
        PassRecords(m, deps, m', deps', apps, online, drainTimeout, now, order, results, id);
        SettledEvolves(m[id], online, now);
        var i := Settle(m, online, now)[id];
        assert i == Evaluated(Recovered(m[id], online, now), now);
        if Viable(i.status) {
          RetiredEvolves(i, drainTimeout, now);
        }
        EvolvesTransitive(m[id], i, m'[id]);
      } else {
        PassCreations(m, deps, m', deps', apps, online, drainTimeout, now, order, results, id);
      }
    }
    forall id | id in m
      ensures id in m'
    {
      PassRecords(m, deps, m', deps', apps, online, drainTimeout, now, order, results, id);
    }
  }

  lemma MarkedLatches(apps: AppTable, deps: DeploymentTable, m: Table)
    requires AppsKeyed(apps)
    ensures TableLatched(deps, AllMarked(apps, apps.Keys, deps, m))
    ensures AllMarked(apps, apps.Keys, deps, m).Keys == deps.Keys
  {
    var deps' := AllMarked(apps, apps.Keys, deps, m);
    forall d | d in deps
      ensures d in deps' && Latched(deps[d], deps'[d])
    {
      var a := deps[d].applicationId;
      if Targeted(apps, deps, a) {
        MarkLatches(apps[a], deps, m, d);
      }
    }
  }

  lemma MarkLatches(app: Application, deps: DeploymentTable, m: Table, d: Id)
    requires HasTarget(app, deps) && d in AppDeps(deps, app.id)
    ensures Latched(deps[d], Marked(app, deps, m, d))
  {
  }

  /** An instance that may be created: it belongs to the active deployment of its application, and
      that deployment is not degraded. */
  ghost predicate Entitled(i: Instance, apps: AppTable, deps: DeploymentTable) {
    && i.applicationId in apps && apps[i.applicationId].activeDeploymentId == i.deploymentId
    && i.deploymentId in deps && !deps[i.deploymentId].degraded
    && deps[i.deploymentId].applicationId == i.applicationId
  }

  /** The crash-loop latch: a pass never releases it, and whatever a pass creates was entitled to it
      even after this pass's own crash accounting. */
  lemma PassLatch(m: Table, deps: DeploymentTable, m': Table, deps': DeploymentTable, apps: AppTable,
                  online: set<Id>, drainTimeout: Time, now: Time)
    requires Pass(m, deps, m', deps', apps, online, drainTimeout, now)
    requires Deployments.WellKeyed(deps) && SpecsValidated(deps) && Owned(m, deps)
    ensures TableLatched(deps, deps') && deps'.Keys == deps.Keys
    ensures forall id :: id in m' && id !in m ==> Entitled(m'[id], apps, deps')
  {
    var order, results :| PassWith(m, deps, m', deps', apps, online, drainTimeout, now, order, results);
    var m1 := Recover(m, online, now);
    var counted := HealthFold(deps, m1, order, now);
    HealthFoldLatches(deps, m1, order, now);
    MarkedLatches(apps, counted, Settle(m, online, now));
    TableLatchedTransitive(deps, counted, deps');
    forall id | id in m' && id !in m
      ensures Entitled(m'[id], apps, deps')
    {
      CreatedEntitled(m, deps, m', deps', apps, online, drainTimeout, now, order, results, id);
    }
  }

  lemma CreatedEntitled(m: Table, deps: DeploymentTable, m': Table, deps': DeploymentTable, apps: AppTable,
                        online: set<Id>, drainTimeout: Time, now: Time, order: seq<Id>, results: seq<AppTarget>, id: Id)
    requires PassWith(m, deps, m', deps', apps, online, drainTimeout, now, order, results)
    requires Deployments.WellKeyed(deps) && SpecsValidated(deps) && Owned(m, deps)
    requires id in m' && id !in m
    ensures Entitled(m'[id], apps, deps')
  {
    var m2 := Settle(m, online, now);
    var counted := HealthFold(deps, Recover(m, online, now), order, now);
    var a, d := m'[id].applicationId, m'[id].deploymentId;
    PassCreations(m, deps, m', deps', apps, online, drainTimeout, now, order, results, id);
    var n :| TargetBefore(results, |results|, 0, a, d, n) && |Where(m2, ViableIn(a, d))| < n;
    TargetIsWanted(results, apps, counted, m2, a, d, n);
    CountedFacts(m, deps, online, now, order);
    OnlyEntitledGrow(apps, counted, m2, a, d, n);
    MarkKeepsHealth(apps, counted, m2, d);
  }

  lemma CountedFacts(m: Table, deps: DeploymentTable, online: set<Id>, now: Time, order: seq<Id>)
    requires Deployments.WellKeyed(deps) && SpecsValidated(deps) && Owned(m, deps)
    ensures
      var counted := HealthFold(deps, Recover(m, online, now), order, now);
      SpecsValidated(counted) && Owned(Settle(m, online, now), counted)
  {
    var counted := HealthFold(deps, Recover(m, online, now), order, now);
    HealthFoldLatches(deps, Recover(m, online, now), order, now);
    assert forall d :: d in counted ==> d in deps && Latched(deps[d], counted[d]);
  }

  lemma OnlyEntitledGrow(apps: AppTable, deps: DeploymentTable, m: Table, a: Id, d: Id, n: int)
    requires AppsKeyed(apps) && SpecsValidated(deps) && Owned(m, deps)
    requires Targeted(apps, deps, a) && d in AppDeps(deps, a) && Wanted(apps[a], deps, m, d, n)
    requires |Where(m, ViableIn(a, d))| < n
    ensures d == apps[a].activeDeploymentId && !deps[d].degraded
  {
    WantedBounds(apps[a], deps, m, d, n);
    OwnedViable(m, deps, a, d);
  }

  lemma MarkKeepsHealth(apps: AppTable, deps: DeploymentTable, m: Table, d: Id)
    requires AppsKeyed(apps) && d in deps
    ensures AllMarked(apps, apps.Keys, deps, m)[d].degraded == deps[d].degraded
    ensures AllMarked(apps, apps.Keys, deps, m)[d].applicationId == deps[d].applicationId
  {
    var a := deps[d].applicationId;
    if Targeted(apps, deps, a) {
      MarkedHealth(apps[a], deps, m, d);
    }
  }

  lemma MarkedHealth(app: Application, deps: DeploymentTable, m: Table, d: Id)
    requires HasTarget(app, deps) && d in AppDeps(deps, app.id)
    ensures Marked(app, deps, m, d).degraded == deps[d].degraded
    ensures Marked(app, deps, m, d).applicationId == deps[d].applicationId
  {
  }

  lemma OwnedViable(m: Table, deps: DeploymentTable, a: Id, d: Id)
    requires Owned(m, deps) && d in deps && deps[d].applicationId == a
    ensures Where(m, ViableAnywhere(d)) == Where(m, ViableIn(a, d))
  {
  }

  // ----- exactness without a drain period

  /** Every record belongs to the deployment, with a sound lifecycle. */
  ghost predicate OneDeployment(g: Table, a: Id, d: Id) {
    forall id :: id in g ==> g[id].applicationId == a && g[id].deploymentId == d && Lifecycle(g[id])
  }

  lemma RetiredAtOnce(i: Instance, drainTimeout: Time, now: Time)
    requires drainTimeout <= 0 && Lifecycle(i)
    ensures !Viable(Retired(i, drainTimeout, now).status) && !Ready(Retired(i, drainTimeout, now))
  {
  }

  lemma ShrunkWhere(g: Table, victims: set<Id>, a: Id, d: Id, drainTimeout: Time, now: Time)
    requires drainTimeout <= 0 && OneDeployment(g, a, d)
    ensures Where(Shrunk(g, victims, drainTimeout, now), ViableIn(a, d)) == Where(g, ViableIn(a, d)) - victims
    ensures Where(Shrunk(g, victims, drainTimeout, now), ReadyIn(a, d)) == Where(g, ReadyIn(a, d)) - victims
  {
    var g' := Shrunk(g, victims, drainTimeout, now);
    forall id | id in g && id in victims
      ensures !Viable(g'[id].status) && !Ready(g'[id])
    {
      RetiredAtOnce(g[id], drainTimeout, now);
    }
  }

  lemma GrownWhere(g: Table, g': Table, a: Id, d: Id, k: int, now: Time)
    requires Grown(g, g', a, d, k, now)
    ensures |Where(g', ViableIn(a, d))| == |Where(g, ViableIn(a, d))| + k
    ensures Where(g', ReadyIn(a, d)) == Where(g, ReadyIn(a, d))
  {
    var viable, added := Where(g, ViableIn(a, d)), NewIds(g, g');
    var viable' := Where(g', ViableIn(a, d));
    assert viable' == viable + added by {
      assert forall id :: id in viable' <==> id in viable || id in added;
    }
    assert viable !! added;
    GrownReady(g, g', a, d, k, now);
  }

  lemma GrownReady(g: Table, g': Table, a: Id, d: Id, k: int, now: Time)
    requires Grown(g, g', a, d, k, now)
    ensures Where(g', ReadyIn(a, d)) == Where(g, ReadyIn(a, d))
  {
    forall id | id in g' && id !in g ensures !Ready(g'[id]) {
      assert g'[id] == NewInstance(id, a, d, now);
    }
  }

  /** A deployment scaled without a drain period has exactly its target. */
  lemma ScaledExactly(g: Table, g': Table, a: Id, d: Id, n: nat, drainTimeout: Time, now: Time)
    requires Scaled(g, g', a, d, n, drainTimeout, now)
    requires drainTimeout <= 0 && OneDeployment(g, a, d)
    ensures |Where(g', ViableIn(a, d))| == n
  {
    var viable := Where(g, ViableIn(a, d));
    if |viable| < n {
      GrownWhere(g, g', a, d, n - |viable|, now);
    } else {
      var victims :| AreVictims(g, viable, victims, |viable| - n) && g' == Shrunk(g, victims, drainTimeout, now);
      ShrunkExactly(g, victims, |viable| - n, a, d, drainTimeout, now);
    }
  }

  lemma ShrunkExactly(g: Table, victims: set<Id>, k: int, a: Id, d: Id, drainTimeout: Time, now: Time)
    requires drainTimeout <= 0 && OneDeployment(g, a, d) && AreVictims(g, Where(g, ViableIn(a, d)), victims, k)
    ensures |Where(Shrunk(g, victims, drainTimeout, now), ViableIn(a, d))| == |Where(g, ViableIn(a, d))| - k
  {
    ShrunkWhere(g, victims, a, d, drainTimeout, now);
    RemovedSize(Where(g, ViableIn(a, d)), victims);
  }

  lemma RemovedSize<T>(s: set<T>, removed: set<T>)
    requires removed <= s
    ensures |s - removed| == |s| - |removed|
  {
  }

  /** Of the viable instances, unready ones are given up before ready ones: as many ready instances
      survive as the target allows. */
  lemma ScaledKeepsReady(g: Table, g': Table, a: Id, d: Id, n: nat, drainTimeout: Time, now: Time)
    requires Scaled(g, g', a, d, n, drainTimeout, now)
    requires drainTimeout <= 0 && OneDeployment(g, a, d)
    requires forall id :: id in g && Viable(g[id].status) ==> !g[id].draining
    ensures |Where(g', ReadyIn(a, d))| == Min(|Where(g, ReadyIn(a, d))|, n)
  {
    var viable, ready := Where(g, ViableIn(a, d)), Where(g, ReadyIn(a, d));
    ReadyAmongViable(g, a, d);
    if |viable| < n {
      GrownWhere(g, g', a, d, n - |viable|, now);
    } else {
      var victims :| AreVictims(g, viable, victims, |viable| - n) && g' == Shrunk(g, victims, drainTimeout, now);
      ShrunkWhere(g, victims, a, d, drainTimeout, now);
      VictimsSpareReady(g, viable, ready, victims, n);
    }
  }

  lemma ReadyAmongViable(g: Table, a: Id, d: Id)
    ensures Where(g, ReadyIn(a, d)) <= Where(g, ViableIn(a, d))
    ensures |Where(g, ReadyIn(a, d))| <= |Where(g, ViableIn(a, d))|
    ensures forall id :: id in Where(g, ReadyIn(a, d)) <==> id in Where(g, ViableIn(a, d)) && Ready(g[id])
  {
    SubsetSize(Where(g, ReadyIn(a, d)), Where(g, ViableIn(a, d)));
  }

  lemma VictimsSpareReady(g: Table, viable: set<Id>, ready: set<Id>, victims: set<Id>, n: nat)
    requires n <= |viable| && AreVictims(g, viable, victims, |viable| - n)
    requires ready <= viable && forall id :: id in ready <==> id in viable && Ready(g[id])
    requires forall id :: id in viable ==> !g[id].draining
    ensures |ready - victims| == Min(|ready|, n)
  {
    var kept := viable - victims;
    RemovedSize(viable, victims);
    if v :| v in victims && v in ready {
      assert forall w :: w in kept ==> VictimBefore(g[v], g[w]) && w in ready;
      assert ready - victims == kept;
      SubsetSize(kept, ready);
    } else {
      assert ready - victims == ready;
      SubsetSize(ready, kept);
    }
  }

  /** A ready instance that is not draining is never given up while a draining or unready one of the
      same deployment is kept. */
  lemma ScaledSparesReady(g: Table, g': Table, a: Id, d: Id, n: int, drainTimeout: Time, now: Time, v: Id, w: Id)
    requires Scaled(g, g', a, d, n, drainTimeout, now)
    requires drainTimeout <= 0 && OneDeployment(g, a, d)
    requires v in g && v in g' && Viable(g[v].status) && !Viable(g'[v].status)
    requires w in g && w in g' && Viable(g'[w].status)
    requires Ready(g[v]) && !g[v].draining
    ensures Ready(g[w]) && !g[w].draining
  {
    var viable := Where(g, ViableIn(a, d));
    assert v in viable;
    var victims :| AreVictims(g, viable, victims, |viable| - n) && g' == Shrunk(g, victims, drainTimeout, now);
    ShrunkWhere(g, victims, a, d, drainTimeout, now);
    assert w in Where(g', ViableIn(a, d));
    assert VictimBefore(g[v], g[w]);
  }

  /** Between instances that drain alike and are ready alike, the one with the smaller id is kept. */
  lemma ScaledKeepsSmallerId(g: Table, g': Table, a: Id, d: Id, n: int, drainTimeout: Time, now: Time, v: Id, w: Id)
    requires Scaled(g, g', a, d, n, drainTimeout, now)
    requires drainTimeout <= 0 && OneDeployment(g, a, d) && Instances.WellKeyed(g)
    requires v in g && v in g' && Viable(g[v].status) && !Viable(g'[v].status)
    requires w in g && w in g' && Viable(g'[w].status)
    requires g[v].draining == g[w].draining && (g[v].status == Running && g[v].health == Healthy <==> g[w].status == Running && g[w].health == Healthy)
    ensures Less(w, v)
  {
    var viable := Where(g, ViableIn(a, d));
    assert v in viable;
    var victims :| AreVictims(g, viable, victims, |viable| - n) && g' == Shrunk(g, victims, drainTimeout, now);
    ShrunkWhere(g, victims, a, d, drainTimeout, now);
    assert w in Where(g', ViableIn(a, d));
    assert VictimBefore(g[v], g[w]);
  }

  /** Reconcile exactness: with no drain period one pass leaves every deployment of every application
      with an active deployment at exactly its wanted count. */
  lemma PassIsExact(m: Table, deps: DeploymentTable, m': Table, deps': DeploymentTable, apps: AppTable,
                    online: set<Id>, drainTimeout: Time, now: Time, order: seq<Id>, results: seq<AppTarget>, a: Id, d: Id)
    requires PassWith(m, deps, m', deps', apps, online, drainTimeout, now, order, results)
    requires AllLifecycle(m) && drainTimeout <= 0
    requires Deployments.WellKeyed(deps) && SpecsValidated(deps)
    requires
      var counted := HealthFold(deps, Recover(m, online, now), order, now);
      Targeted(apps, counted, a) && d in AppDeps(counted, a)
    ensures
      var counted := HealthFold(deps, Recover(m, online, now), order, now);
      Wanted(apps[a], counted, Settle(m, online, now), d, |Where(m', ViableIn(a, d))|)
  {
    var m2 := Settle(m, online, now);
    var counted := HealthFold(deps, Recover(m, online, now), order, now);
    WantedIsTarget(results, apps, counted, m2, a, d);
    var n :| TargetBefore(results, |results|, 0, a, d, n);
    TargetIsWanted(results, apps, counted, m2, a, d, n);
    HealthFoldLatches(deps, Recover(m, online, now), order, now);
    assert Latched(deps[apps[a].activeDeploymentId], counted[apps[a].activeDeploymentId]);
    WantedBounds(apps[a], counted, m2, d, n);
    SettledLifecycle(m, online, now);
    assert GroupDone(m2, m', results, |results|, 0, drainTimeout, now, a, d);
    ScaledExactly(Group(m2, a, d), Group(m', a, d), a, d, n, drainTimeout, now);
    GroupViable(m', a, d);
  }

  lemma SettledLifecycle(m: Table, online: set<Id>, now: Time)
    requires AllLifecycle(m)
    ensures AllLifecycle(Settle(m, online, now)) && Settle(m, online, now).Keys == m.Keys
  {
    var m2 := Settle(m, online, now);
    forall id | id in m2
      ensures id != NO_ID && m2[id].id == id && Lifecycle(m2[id])
    {
      assert m2[id] == Evaluated(Recovered(m[id], online, now), now);
      SettledEvolves(m[id], online, now);
    }
  }
}
