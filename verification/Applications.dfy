/** The application registry and the checks every stored spec has passed. */
module Applications {
  import opened Ids
  import opened Deployments
  import opened RolloutController

  function WithDefaults(spec: AppSpec): AppSpec {
    if spec.strategy.None? then spec.(strategy := Some(Strategy(RollingUpdate, 1, 1))) else spec
  }

  /** Probes aside, what a spec must satisfy. */
  predicate ValidSpec(spec: AppSpec) {
    && (spec.resources.Some? ==> spec.resources.value.cpu > 0.0 && spec.resources.value.memoryMB > 0)
    && spec.replicas >= 0
    && (spec.strategy.Some? && spec.strategy.value.kind.RollingUpdate? ==>
          !(spec.replicas >= 1 && spec.strategy.value.maxSurge == 0 && spec.strategy.value.maxUnavailable == 0))
  }

  /** No resource that is not positive, no negative count, and no rolling update of something without slack. */
  ghost predicate Sound(spec: AppSpec) {
    && (forall r :: spec.resources == Some(r) ==> 0.0 < r.cpu && 1 <= r.memoryMB)
    && 0 <= spec.replicas
    && !(spec.replicas > 0 && spec.strategy == Some(Strategy(RollingUpdate, 0, 0)))
  }

  class AppRegistry {
    var apps: AppTable
    var names: map<string, Id>

    ghost predicate Valid()
      reads this
    {
      AppsKeyed(apps) && forall n :: n in names ==> names[n] in apps && apps[names[n]].name == n
    }

    constructor ()
      ensures Valid() && apps == map[] && names == map[]
    {
      apps, names := map[], map[];
    }

    method Create(name: string, spec: AppSpec) returns (id: Id, ok: bool)
      requires Valid()
      modifies this
      ensures Valid()
      ensures ok <==> name !in old(names) && ValidSpec(WithDefaults(spec))
      ensures ok ==> id !in old(apps) && id != NO_ID && names == old(names)[name := id]
                     && apps == old(apps)[id := Application(id, name, WithDefaults(spec), NO_ID, AppPending)]
      ensures !ok ==> apps == old(apps) && names == old(names)
      // defaults, and what no stored spec can be
      ensures ok ==> apps[id].spec == spec.(strategy := apps[id].spec.strategy) && Sound(apps[id].spec)
      ensures ok && spec.strategy.Some? ==> apps[id].spec == spec
      ensures ok && spec.strategy.None? ==> apps[id].spec.strategy == Some(Strategy(RollingUpdate, 1, 1))
      ensures name !in old(names) && Sound(spec) ==> ok
    {
      id := NO_ID;
      if name in names {
        return NO_ID, false;
      }
      var full := WithDefaults(spec);
      if !ValidSpec(full) {
        return NO_ID, false;
      }
      id := GenerateId(apps.Keys);
      apps := apps[id := Application(id, name, full, NO_ID, AppPending)];
      names := names[name := id];
      ok := true;
    }

    method Update(id: Id, spec: AppSpec, active: Id, status: AppStatus) returns (ok: bool)
      requires Valid()
      modifies this`apps
      ensures Valid()
      ensures ok <==> id in old(apps) && ValidSpec(WithDefaults(spec))
      ensures ok ==> apps == old(apps)[id := old(apps)[id].(spec := WithDefaults(spec), activeDeploymentId := active, status := status)]
      ensures !ok ==> apps == old(apps)
      ensures ok ==> apps[id].spec == spec.(strategy := apps[id].spec.strategy) && Sound(apps[id].spec)
      ensures ok && spec.strategy.Some? ==> apps[id].spec == spec
      ensures ok && spec.strategy.None? ==> apps[id].spec.strategy == Some(Strategy(RollingUpdate, 1, 1))
      ensures id in old(apps) && Sound(spec) ==> ok
    {
      if id !in apps {
        return false;
      }
      var full := WithDefaults(spec);
      if !ValidSpec(full) {
        return false;
      }
      apps := apps[id := apps[id].(spec := full, activeDeploymentId := active, status := status)];
      ok := true;
    }
  }
}
