/** The targets of a rolling update with any number of old deployments: they add up, and meeting them
    makes the controller ask for exactly the same again. */
module TargetLaws {
  import opened Ids
  import opened Instances
  import opened Deployments
  import opened RolloutMath
  import opened RolloutController

  /** Every instance of the application belongs to a deployment of the application. */
  ghost predicate Placed(m: Table, app: Application, deps: DeploymentTable) {
    forall id :: id in m && m[id].applicationId == app.id ==> m[id].deploymentId in AppDeps(deps, app.id)
  }

  ghost predicate RollsOn(app: Application, deps: DeploymentTable) {
    && HasTarget(app, deps)
    && !IsImmediate(deps[app.activeDeploymentId].spec) && !deps[app.activeDeploymentId].degraded
  }

  // ----- counting by deployment

  function IsViable(): Instance -> bool { (i: Instance) => Viable(i.status) }

  function IsStaying(): Instance -> bool { (i: Instance) => Viable(i.status) && !i.draining }

  function OneOf(app: Id, q: Instance -> bool, d: Id): Instance -> bool {
    (i: Instance) => i.applicationId == app && i.deploymentId == d && q(i)
  }

  function Among(app: Id, q: Instance -> bool, ds: set<Id>): Instance -> bool {
    (i: Instance) => i.applicationId == app && i.deploymentId in ds && q(i)
  }

  function Outside(app: Id, q: Instance -> bool, d: Id): Instance -> bool {
    (i: Instance) => i.applicationId == app && i.deploymentId != d && q(i)
  }

  /** How many instances of each deployment satisfy `q`. */
  ghost function Sizes(m: Table, app: Id, q: Instance -> bool, ds: seq<Id>): (sizes: seq<nat>)
    ensures |sizes| == |ds|
  {
    if ds == [] then [] else [|Where(m, OneOf(app, q, ds[0]))|] + Sizes(m, app, q, ds[1..])
  }

  lemma {:induction false} SizesAt(m: Table, app: Id, q: Instance -> bool, ds: seq<Id>, k: nat)
    requires k < |ds|
    ensures Sizes(m, app, q, ds)[k] == |Where(m, OneOf(app, q, ds[k]))|
  {
    if k > 0 {
      SizesAt(m, app, q, ds[1..], k - 1);
    }
  }

  lemma SplitOff(m: Table, app: Id, q: Instance -> bool, ds: set<Id>, d: Id)
    requires d !in ds
    ensures |Where(m, Among(app, q, ds + {d}))| == |Where(m, Among(app, q, ds))| + |Where(m, OneOf(app, q, d))|
  {
    var all, rest, own := Where(m, Among(app, q, ds + {d})), Where(m, Among(app, q, ds)), Where(m, OneOf(app, q, d));
    forall id ensures id in all <==> id in rest || id in own {
    }
    assert all == rest + own && rest !! own;
  }

  /** Counting the instances of several deployments together or one by one. */
  lemma {:induction false} CountByDeployment(m: Table, app: Id, q: Instance -> bool, ds: seq<Id>, all: set<Id>)
    requires (forall i, j :: 0 <= i < j < |ds| ==> ds[i] != ds[j]) && all == Elements(ds)
    ensures |Where(m, Among(app, q, all))| == Sum(Sizes(m, app, q, ds))
  {
    if ds == [] {
      assert Where(m, Among(app, q, all)) == {};
    } else {
      var d, rest := ds[0], Elements(ds[1..]);
      CountByDeployment(m, app, q, ds[1..], rest);
      assert ds == [d] + ds[1..];
      assert all == rest + {d} && d !in rest;
      SplitOff(m, app, q, rest, d);
      assert Sizes(m, app, q, ds)[1..] == Sizes(m, app, q, ds[1..]);
    }
  }

  /** All instances outside the active deployment, deployment by deployment. */
  lemma OldByDeployment(m: Table, app: Id, deps: DeploymentTable, active: Id, q: Instance -> bool)
    requires forall id :: id in m && m[id].applicationId == app ==> m[id].deploymentId in AppDeps(deps, app)
    ensures |Where(m, Outside(app, q, active))| == Sum(Sizes(m, app, q, Sorted(AppDeps(deps, app) - {active})))
  {
    var s := AppDeps(deps, app) - {active};
    var p := Outside(app, q, active);
    SortedElements(s);
    SortedDistinct(s);
    CountByDeployment(m, app, q, Sorted(s), s);
    forall id ensures id in Where(m, p) <==> id in Where(m, Among(app, q, s)) {
    }
    assert Where(m, p) == Where(m, Among(app, q, s));
  }

  lemma HeldAreSizes(m: Table, app: Id, ds: seq<Id>)
    ensures Held(m, app, ds) == Sizes(m, app, IsViable(), ds)
  {
    forall k | 0 <= k < |ds| ensures Held(m, app, ds)[k] == Sizes(m, app, IsViable(), ds)[k] {
      SizesAt(m, app, IsViable(), ds, k);
      assert Where(m, ViableIn(app, ds[k])) == Where(m, OneOf(app, IsViable(), ds[k]));
    }
  }

  lemma OldAddsUp(app: Application, deps: DeploymentTable, m: Table)
    requires HasTarget(app, deps) && Placed(m, app, deps)
    ensures OldViable(m, app.id, app.activeDeploymentId) == Sum(Held(m, app.id, OldDeps(app, deps)))
  {
    var active := app.activeDeploymentId;
    OldByDeployment(m, app.id, deps, active, IsViable());
    HeldAreSizes(m, app.id, OldDeps(app, deps));
    assert Where(m, ViableOutside(app.id, active))
        == Where(m, Outside(app.id, IsViable(), active));
  }

  /** The old targets together are exactly the planned old total, none exceeds what its deployment has. */
  lemma SharesAddUp(app: Application, deps: DeploymentTable, m: Table)
    requires RollsOn(app, deps) && Placed(m, app, deps)
    ensures Sum(OldShares(app, deps, m)) == RollingPlan(app, deps, m).oldTotal
    ensures forall i :: 0 <= i < |OldDeps(app, deps)| ==>
              0 <= OldShares(app, deps, m)[i] <= |Where(m, ViableIn(app.id, OldDeps(app, deps)[i]))|
  {
    OldAddsUp(app, deps, m);
    GreedyIsExact(Held(m, app.id, OldDeps(app, deps)), RollingPlan(app, deps, m).oldTotal);
  }

  /** Wanted counts are unique. */
  lemma WantedShare(app: Application, deps: DeploymentTable, m: Table, i: nat, n: int)
    requires RollsOn(app, deps) && i < |OldDeps(app, deps)| && Wanted(app, deps, m, OldDeps(app, deps)[i], n)
    ensures n == OldShares(app, deps, m)[i]
  {
    var s := AppDeps(deps, app.id) - {app.activeDeploymentId};
    var xs := OldDeps(app, deps);
    SortedPrefix(s, i);
    var j :| 0 <= j < |xs| && xs[j] == xs[i] && n == OldShares(app, deps, m)[j];
    SortedDistinct(s);
  }

  /** Counts that meet the targets. */
  ghost predicate Meets(app: Application, deps: DeploymentTable, m: Table, m': Table)
    requires HasTarget(app, deps)
  {
    && (forall d :: d in AppDeps(deps, app.id) ==> Wanted(app, deps, m, d, |Where(m', ViableIn(app.id, d))|))
    && ActiveReady(m', app.id, app.activeDeploymentId) == ActiveReady(m, app.id, app.activeDeploymentId)
  }

  lemma HeldAreShares(app: Application, deps: DeploymentTable, m: Table, m': Table)
    requires RollsOn(app, deps) && Meets(app, deps, m, m')
    ensures Held(m', app.id, OldDeps(app, deps)) == OldShares(app, deps, m)
  {
    var s := AppDeps(deps, app.id) - {app.activeDeploymentId};
    var xs := OldDeps(app, deps);
    forall i | 0 <= i < |xs|
      ensures Held(m', app.id, xs)[i] == OldShares(app, deps, m)[i]
    {
      SortedPrefix(s, i);
      WantedShare(app, deps, m, i, |Where(m', ViableIn(app.id, xs[i]))|);
    }
  }

  /** Targets are a fixed point: recomputing them once the counts meet them, with the readiness of the
      active deployment unchanged, gives the same plan and the same share to every old deployment. */
  lemma TargetsAreFixedPoint(app: Application, deps: DeploymentTable, m: Table, m': Table)
    requires RollsOn(app, deps) && Placed(m, app, deps) && Placed(m', app, deps)
    requires Meets(app, deps, m, m')
    ensures RollingPlan(app, deps, m') == RollingPlan(app, deps, m)
    ensures OldShares(app, deps, m') == OldShares(app, deps, m)
  {
    var active := app.activeDeploymentId;
    var plan := RollingPlan(app, deps, m);
    HeldAreShares(app, deps, m, m');
    SharesAddUp(app, deps, m);
    OldAddsUp(app, deps, m');
    assert ActiveViable(m', app.id, active) == plan.active by {
      assert active in AppDeps(deps, app.id);
    }
    assert OldViable(m', app.id, active) == plan.oldTotal;
    PlanIsFixedPoint(ParamsOf(deps[active].spec), ActiveViable(m, app.id, active), ActiveReady(m, app.id, active),
                     OldViable(m, app.id, active));
    GreedyIsFixedPoint(Held(m, app.id, OldDeps(app, deps)), plan.oldTotal, Held(m', app.id, OldDeps(app, deps)));
  }
}
