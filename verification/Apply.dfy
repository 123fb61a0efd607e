/** Declarative apply: bring one application's service, domains, ingresses and deployment to what a manifest
    says. */
module Apply {
  import opened Ids
  import opened Deployments
  import opened RolloutController
  import opened Applications
  import opened Routing
  import opened Sites
  import opened Networking

  datatype Manifest = Manifest(
    name: string,
    image: string,
    replicas: int,
    command: seq<string>,
    args: seq<string>,
    cpu: real,
    memory: int,
    env: seq<(string, string)>,
    secrets: seq<string>,
    service: Option<int>,
    domains: seq<DomainSpec>)

  predicate IsNameChar(c: char) { 'a' <= c <= 'z' || '0' <= c <= '9' || c == '-' }

  predicate ValidManifest(m: Manifest) {
    && m.name != "" && (forall i :: 0 <= i < |m.name| ==> IsNameChar(m.name[i]))
    && m.image != "" && m.replicas >= 0 && m.cpu > 0.0 && m.memory > 0
    && (m.service.Some? ==> m.service.value > 0)
    && (|m.domains| > 0 ==> m.service.Some?)
    && (forall i :: 0 <= i < |m.domains| ==> m.domains[i].name != "")
  }

  function EnvOf(env: seq<(string, string)>): map<string, string> {
    if env == [] then map[] else EnvOf(env[..|env| - 1])[env[|env| - 1].0 := env[|env| - 1].1]
  }

  function WithSecrets(env: map<string, string>, secrets: seq<string>): map<string, string> {
    if secrets == [] then env
    else WithSecrets(env, secrets[..|secrets| - 1])[secrets[|secrets| - 1] := "secret:" + secrets[|secrets| - 1]]
  }

  /** The part of a manifest that asks for a deployment of its own when it changes. */
  function DeploymentSpec(m: Manifest): AppSpec {
    AppSpec(0, None, Some(Resources(m.cpu, m.memory)), Container(m.image, m.command, m.args, WithSecrets(EnvOf(m.env), m.secrets)))
  }

  /** The last entry for a name. */
  predicate LastFor(env: seq<(string, string)>, k: string, i: nat) {
    i < |env| && env[i].0 == k && forall j :: i < j < |env| ==> env[j].0 != k
  }

  /** Every secret stands for itself; every other name has the value of its last entry; there is no other name. */
  ghost predicate IsEnvironment(e: map<string, string>, env: seq<(string, string)>, secrets: seq<string>) {
    && (forall s :: s in secrets ==> s in e && e[s] == "secret:" + s)
    && (forall i :: 0 <= i < |env| && env[i].0 !in secrets && LastFor(env, env[i].0, i) ==> env[i].0 in e && e[env[i].0] == env[i].1)
    && (forall k :: k in e ==> k in secrets || exists i: nat :: LastFor(env, k, i))
  }

  lemma LastForEarlier(env: seq<(string, string)>, k: string, i: nat)
    requires env != [] && k != env[|env| - 1].0
    ensures LastFor(env, k, i) <==> LastFor(env[..|env| - 1], k, i)
  {
    var less := env[..|env| - 1];
    assert forall j :: 0 <= j < |less| ==> less[j] == env[j];
  }

  lemma {:induction false} EnvValues(env: seq<(string, string)>)
    ensures IsEnvironment(EnvOf(env), env, [])
  {
    if env != [] {
      var n := |env| - 1;
      var less := env[..n];
      EnvValues(less);
      EnvHasLast(env, less);
      EnvHasOnly(env, less);
    }
  }

  lemma EnvHasLast(env: seq<(string, string)>, less: seq<(string, string)>)
    requires env != [] && less == env[..|env| - 1] && IsEnvironment(EnvOf(less), less, [])
    ensures forall i :: 0 <= i < |env| && LastFor(env, env[i].0, i) ==> env[i].0 in EnvOf(env) && EnvOf(env)[env[i].0] == env[i].1
  {
    forall i | 0 <= i < |env| && LastFor(env, env[i].0, i) ensures env[i].0 in EnvOf(env) && EnvOf(env)[env[i].0] == env[i].1 {
      if i < |less| {
        LastForEarlier(env, env[i].0, i);
        assert LastFor(less, less[i].0, i);
      }
    }
  }

  lemma EnvHasOnly(env: seq<(string, string)>, less: seq<(string, string)>)
    requires env != [] && less == env[..|env| - 1] && IsEnvironment(EnvOf(less), less, [])
    ensures forall k :: k in EnvOf(env) ==> exists i: nat :: LastFor(env, k, i)
  {
    forall k | k in EnvOf(env) ensures exists i: nat :: LastFor(env, k, i) {
      if k == env[|env| - 1].0 {
        assert LastFor(env, k, |env| - 1);
      } else {
        var i: nat :| LastFor(less, k, i);
        LastForEarlier(env, k, i);
      }
    }
  }

  lemma {:induction false} SecretValues(env: seq<(string, string)>, secrets: seq<string>)
    ensures IsEnvironment(WithSecrets(EnvOf(env), secrets), env, secrets)
  {
    if secrets == [] {
      EnvValues(env);
    } else {
      var less, last := secrets[..|secrets| - 1], secrets[|secrets| - 1];
      SecretValues(env, less);
      assert forall s :: s in secrets <==> s in less || s == last;
    }
  }

  function AppliedSpec(m: Manifest): AppSpec { WithDefaults(DeploymentSpec(m).(replicas := m.replicas)) }

  method BuildEnvironment(vars: seq<(string, string)>, secrets: seq<string>) returns (env: map<string, string>)
    ensures env == WithSecrets(EnvOf(vars), secrets)
  {
    env := map[];
    var i := 0;
    while i < |vars|
      invariant 0 <= i <= |vars| && env == EnvOf(vars[..i])
    {
      var next := i + 1;
      assert vars[..next][..i] == vars[..i];
      env := env[vars[i].0 := vars[i].1];
      i := next;
    }
    assert vars[..i] == vars;
    i := 0;
    while i < |secrets|
      invariant 0 <= i <= |secrets| && env == WithSecrets(EnvOf(vars), secrets[..i])
    {
      var next := i + 1;
      assert secrets[..next][..i] == secrets[..i];
      env := env[secrets[i] := "secret:" + secrets[i]];
      i := next;
    }
    assert secrets[..i] == secrets;
  }

  /** Which value every name of the environment ends with; neither replicas nor a strategy are taken over. */
  method ToDeploymentSpec(m: Manifest) returns (spec: AppSpec)
    ensures spec == DeploymentSpec(m)
    ensures IsEnvironment(spec.container.env, m.env, m.secrets)
    ensures spec.container.image == m.image && spec.container.command == m.command && spec.container.args == m.args
    ensures spec.resources == Some(Resources(m.cpu, m.memory)) && spec.replicas == 0 && spec.strategy.None?
  {
    var env := BuildEnvironment(m.env, m.secrets);
    SecretValues(m.env, m.secrets);
    spec := AppSpec(0, None, Some(Resources(m.cpu, m.memory)), Container(m.image, m.command, m.args, env));
  }

  datatype Action = Created | Updated | Unchanged

  datatype Refusal = InvalidManifest | MissingSecret | BadDomain(problem: Problem)

  datatype Outcome = Done(app: Id, deployment: Id, action: Action) | Refused(reason: Refusal)

  function Touched(action: Action, changed: bool): Action {
    if changed && action.Unchanged? then Updated else action
  }

  // ----- what holds before and after

  /** At most one deployment of an application for one hash. */
  ghost predicate UniqueHashes(deps: DeploymentTable) {
    forall a, b :: a in deps && b in deps && deps[a].applicationId == deps[b].applicationId && deps[a].hash == deps[b].hash ==> a == b
  }

  /** Every stored hash is that of the stored spec. */
  ghost predicate HashesTell(deps: DeploymentTable, hash: AppSpec -> string) {
    forall d :: d in deps ==> deps[d].hash == hash(deps[d].spec)
  }

  /** The application's service, if it listens on the port. */
  ghost predicate Serves(services: map<Id, Service>, app: Id, svc: Id, port: int) {
    svc in services && services[svc].applicationId == app && services[svc].targetPort == port
  }

  /** Every listed domain has an ingress to the service. */
  ghost predicate AllPoint(net: Net, ds: seq<DomainSpec>, svc: Id) {
    forall d :: d in ds ==> PointsTo(net, d, svc)
  }

  /** The network is what the manifest asks of it. */
  ghost predicate NetInPlace(net: Net, app: Id, m: Manifest)
    requires Indexed(net.domains, net.names)
  {
    var sites := SitesOf(net.domains, net.names);
    && ShowsList(sites, app, m.domains) && Owned(sites, app) <= Raws(m.domains)
    && (m.service.Some? ==> exists svc :: Serves(net.services, app, svc, m.service.value) && AllPoint(net, m.domains, svc))
  }

  /** Edits towards a service: names keep their domains, and domains their ingress to it. */
  ghost predicate Onward(net: Net, net': Net, svc: Id) {
    && net'.services == net.services
    && (forall n :: n in net.names ==> n in net'.names && net'.names[n] == net.names[n])
    && (forall d :: Points(net.ingresses, d, svc) ==> Points(net'.ingresses, d, svc))
  }

  lemma OnwardTransitive(a: Net, b: Net, c: Net, svc: Id)
    requires Onward(a, b, svc) && Onward(b, c, svc)
    ensures Onward(a, c, svc)
  {
  }

  lemma OnwardPoints(net: Net, net': Net, ds: seq<DomainSpec>, svc: Id)
    requires Onward(net, net', svc) && AllPoint(net, ds, svc)
    ensures AllPoint(net', ds, svc)
  {
  }

  class Handler {
    const apps: AppRegistry
    const deps: DeploymentRegistry
    const doms: DomainRegistry
    const ings: IngressRegistry
    const svcs: ServiceRegistry
    const hash: AppSpec -> string

    constructor (apps: AppRegistry, deps: DeploymentRegistry, doms: DomainRegistry, ings: IngressRegistry, svcs: ServiceRegistry,
                 hash: AppSpec -> string)
      ensures this.apps == apps && this.deps == deps && this.doms == doms && this.ings == ings && this.svcs == svcs && this.hash == hash
    {
      this.apps, this.deps, this.doms, this.ings, this.svcs, this.hash := apps, deps, doms, ings, svcs, hash;
    }

    ghost function Now(): Net
      reads doms, ings, svcs
    {
      Net(doms.domains, doms.names, ings.ingresses, svcs.services)
    }

    ghost function Sites(): SiteTable
      reads doms
      requires doms.Valid()
    {
      SitesOf(doms.domains, doms.names)
    }

    /** Find or create the application's service and give it the port. */
    method EnsureService(app: Id, port: int) returns (svc: Id, changed: bool)
      requires Tidy(Now())
      modifies svcs
      ensures Tidy(Now()) && Apart(old(Now()), Now(), app)
      ensures Serves(svcs.services, app, svc, port)
      ensures forall s :: s in old(svcs.services) && old(svcs.services)[s].applicationId == app ==> s == svc
      ensures changed <==> !old(Serves(svcs.services, app, svc, port))
      ensures !changed ==> svcs.services == old(svcs.services)
    {
      var found := svcs.FindByApp(app);
      if found.None? {
        svc := svcs.Create(app, port, "tcp");
        changed := true;
      } else {
        svc := found.value;
        changed := svcs.services[svc].targetPort != port;
        if changed {
          var _ := svcs.Update(svc, port, "tcp");
        }
      }
    }

    method AddIngress(domain: Id, svc: Id)
      requires Tidy(Now()) && domain in doms.domains
      requires forall k :: k in ings.ingresses ==> ings.ingresses[k].domainId != domain
      modifies ings
      ensures Tidy(Now()) && Apart(old(Now()), Now(), doms.domains[domain].applicationId)
      ensures Points(ings.ingresses, domain, svc) && Onward(old(Now()), Now(), svc)
    {
      ghost var before := Now();
      TidyPaths(before);
      var i, ok := ings.Create(domain, svc, ROOT);
      IngressAdded(before, i, domain, svc);
      PointsKept(before.ingresses, ings.ingresses, svc);
    }

    method RemoveIngress(i: Id)
      requires Tidy(Now()) && i in ings.ingresses
      modifies ings
      ensures Tidy(Now()) && Apart(old(Now()), Now(), doms.domains[old(ings.ingresses)[i].domainId].applicationId)
      ensures ings.ingresses == old(ings.ingresses) - {i}
      ensures forall k :: k in ings.ingresses ==> ings.ingresses[k].domainId != old(ings.ingresses)[i].domainId
    {
      TidyPaths(Now());
      IngressRemoved(Now(), i);
      var _ := ings.Delete(i);
    }

    /** Make the domain's ingress point to the service. */
    method EnsureIngress(domain: Id, svc: Id)
      requires Tidy(Now()) && domain in doms.domains
      modifies ings
      ensures Tidy(Now()) && Apart(old(Now()), Now(), doms.domains[domain].applicationId)
      ensures Points(ings.ingresses, domain, svc) && Onward(old(Now()), Now(), svc)
      ensures old(Points(ings.ingresses, domain, svc)) ==> ings.ingresses == old(ings.ingresses)
    {
      ghost var before := Now();
      var found := ings.FindByDomain(domain);
      if found.None? {
        AddIngress(domain, svc);
      } else if ings.ingresses[found.value].serviceId != svc {
        RemoveIngress(found.value);
        ghost var between := Now();
        OthersPoint(before.ingresses, found.value, svc);
        AddIngress(domain, svc);
        ApartTransitive(before, between, Now(), doms.domains[domain].applicationId);
      }
    }

    /** Find, create or adjust the domain of one list entry. */
    method MapName(app: Id, d: DomainSpec) returns (id: Id, error: Option<Problem>, changed: bool)
      requires Tidy(Now())
      modifies doms
      ensures Tidy(Now()) && Apart(old(Now()), Now(), app)
      ensures NamesKept(old(Now()), Now())
      ensures Sites() == MapOne(old(Sites()), app, d).sites && error == MapOne(old(Sites()), app, d).error
      ensures error.None? ==> Holds(Now(), app, d, id)
      ensures error.None? ==> (changed <==> !ShownIn(old(Sites()), app, d))
      ensures !changed ==> doms.domains == old(doms.domains) && doms.names == old(doms.names)
    {
      id, changed := NO_ID, false;
      var n := NormalizeDomain(d.name);
      var found := doms.GetByName(d.name);
      if found.None? {
        ghost var before := Now();
        var err: Option<DomainError>;
        id, err := doms.Create(d.name, app, d.tls);
        if err.Some? {
          return id, Some(InvalidName), false;
        }
        DomainAdded(before, id, n, app, d.tls);
        return id, None, true;
      }
      id := found.value.id;
      if found.value.applicationId != app {
        return id, Some(OwnedByOther), false;
      }
      if found.value.tls != d.tls {
        TlsSet(Now(), id, d.tls);
        var _ := doms.UpdateTLS(id, d.tls);
        return id, None, true;
      }
      SameSite(Sites(), n, Site(app, d.tls));
      error := None;
    }

    /** One list entry: its domain, then its ingress. */
    method MapDomain(app: Id, svc: Id, d: DomainSpec) returns (error: Option<Problem>, changed: bool)
      requires Tidy(Now())
      modifies doms, ings
      ensures Tidy(Now()) && Apart(old(Now()), Now(), app) && Onward(old(Now()), Now(), svc)
      ensures Sites() == MapOne(old(Sites()), app, d).sites && error == MapOne(old(Sites()), app, d).error
      ensures error.None? ==> PointsTo(Now(), d, svc)
      ensures error.None? ==> (changed <==> !ShownIn(old(Sites()), app, d))
      ensures !changed ==> doms.domains == old(doms.domains) && doms.names == old(doms.names)
      ensures !changed && old(PointsTo(Now(), d, svc)) ==> Now() == old(Now())
    {
      ghost var before := Now();
      var id;
      id, error, changed := MapName(app, d);
      if error.None? {
        ghost var between := Now();
        EnsureIngress(id, svc);
        ApartTransitive(before, between, Now(), app);
      }
    }

    /** Where the mapping loop stands after `k` entries. */
    ghost predicate MappedUpTo(net: Net, app: Id, svc: Id, ds: seq<DomainSpec>, k: nat, changed: bool)
      reads doms, ings, svcs
      requires Tidy(net)
    {
      && k <= |ds| && Tidy(Now()) && Apart(net, Now(), app) && Onward(net, Now(), svc)
      && MapAll(SitesOf(net.domains, net.names), app, ds[..k]) == Mapped(Sites(), None)
      && AllPoint(Now(), ds[..k], svc)
      && (!changed ==> doms.domains == net.domains && doms.names == net.names)
    }

    /** One turn of the mapping loop. */
    method MapTurn(ghost net: Net, app: Id, svc: Id, ds: seq<DomainSpec>, k: nat, soFar: bool)
      returns (error: Option<Problem>, changed: bool)
      requires Tidy(net) && k < |ds| && MappedUpTo(net, app, svc, ds, k, soFar)
      modifies doms, ings
      ensures Tidy(Now()) && Apart(net, Now(), app) && svcs.services == old(svcs.services)
      ensures error.None? ==> MappedUpTo(net, app, svc, ds, k + 1, changed)
      ensures error.Some? ==> Mapped(Sites(), error) == MapAll(SitesOf(net.domains, net.names), app, ds)
      ensures !changed ==> doms.domains == net.domains && doms.names == net.names
      ensures !soFar && old(ShownIn(Sites(), app, ds[k]) && PointsTo(Now(), ds[k], svc)) ==> error.None? && !changed && Now() == old(Now())
    {
      ghost var between := Now();
      OneMoreMapped(SitesOf(net.domains, net.names), app, ds, k);
      var c;
      error, c := MapDomain(app, svc, ds[k]);
      ApartTransitive(net, between, Now(), app);
      OnwardTransitive(net, between, Now(), svc);
      changed := soFar || c;
      if error.None? {
        AllPointOneMore(between, Now(), ds, k, svc);
      }
    }

    /** The list, in order, until an entry is refused. */
    method MapDomains(app: Id, svc: Id, ds: seq<DomainSpec>) returns (error: Option<Problem>, changed: bool)
      requires Tidy(Now())
      modifies doms, ings
      ensures Tidy(Now()) && Apart(old(Now()), Now(), app) && svcs.services == old(svcs.services)
      ensures Mapped(Sites(), error) == MapAll(old(Sites()), app, ds)
      ensures error.None? ==> MappedUpTo(old(Now()), app, svc, ds, |ds|, changed)
      ensures !changed ==> doms.domains == old(doms.domains) && doms.names == old(doms.names)
      ensures old(ShowsList(Sites(), app, ds) && AllPoint(Now(), ds, svc)) ==> error.None? && !changed && Now() == old(Now())
    {
      ghost var before, idle := Now(), ShowsList(Sites(), app, ds) && AllPoint(Now(), ds, svc);
      changed := false;
      var k := 0;
      NothingMapped(before, app, svc, ds);
      while k < |ds|
        invariant MappedUpTo(before, app, svc, ds, k, changed)
        invariant idle ==> !changed && Now() == before
      {
        error, changed := MapTurn(before, app, svc, ds, k, changed);
        if error.Some? {
          return;
        }
        k := k + 1;
      }
      assert ds[..k] == ds;
      error := None;
    }

    /** Drop the domain's ingress, if it has one. */
    method PruneIngress(id: Id)
      requires Tidy(Now()) && id in doms.domains
      modifies ings
      ensures Tidy(Now()) && Apart(old(Now()), Now(), doms.domains[id].applicationId)
      ensures forall k :: k in ings.ingresses ==> ings.ingresses[k].domainId != id
      ensures forall d, s :: d != id && Points(old(ings.ingresses), d, s) ==> Points(ings.ingresses, d, s)
    {
      ghost var before := Now();
      ApartFromItself(before, doms.domains[id].applicationId);
      var found := ings.FindByDomain(id);
      if found.Some? {
        RemoveIngress(found.value);
      }
      ThinnedByIngress(before, Now(), id);
    }

    method PruneDomain(id: Id)
      requires Tidy(Now()) && id in doms.domains
      modifies doms, ings
      ensures Tidy(Now()) && Apart(old(Now()), Now(), old(doms.domains)[id].applicationId) && Thinned(old(Now()), Now())
      ensures doms.domains == old(doms.domains) - {id}
      ensures Sites() == old(Sites()) - {old(doms.domains)[id].name}
    {
      ghost var before, app := Now(), doms.domains[id].applicationId;
      PruneIngress(id);
      ghost var between := Now();
      DomainRemoved(between, id);
      var _ := doms.Delete(id);
      ApartTransitive(before, between, Now(), app);
    }

    method PruneStale(ghost net: Net, app: Id, current: map<Id, Domain>, desired: set<string>, ghost todo: set<Id>, id: Id)
      requires Tidy(net) && id in todo && todo <= current.Keys && current[id].name !in desired
      requires Tidy(Now()) && Apart(net, Now(), app) && Thinned(net, Now()) && StillThere(Now(), app, current, todo)
      requires Sites() == SitesOf(net.domains, net.names) - Pruned(current, desired, todo)
      modifies doms, ings
      ensures PrunedUpTo(net, Now(), app, current, desired, todo - {id}, true)
    {
      ghost var between, sites := Now(), Sites();
      PruneDomain(id);
      ApartTransitive(net, between, Now(), app);
      ThinnedTransitive(net, between, Now());
      SitesStep(SitesOf(net.domains, net.names), sites, Sites(), current, desired, todo, id);
      StillThereStep(between, Now(), app, current, todo, id);
    }

    method PruneTurn(ghost net: Net, app: Id, current: map<Id, Domain>, desired: set<string>, ghost todo: set<Id>, id: Id, soFar: bool)
      returns (changed: bool)
      requires Tidy(net) && PrunedUpTo(net, Now(), app, current, desired, todo, soFar) && id in todo
      modifies doms, ings
      ensures PrunedUpTo(net, Now(), app, current, desired, todo - {id}, changed)
    {
      changed := soFar;
      if current[id].name !in desired {
        PruneStale(net, app, current, desired, todo, id);
        changed := true;
      } else {
        PrunedSkip(current, desired, todo, id);
      }
    }

    /** Drop the application's former domains that the list does not name as they are stored. */
    method PruneDomains(app: Id, current: map<Id, Domain>, desired: set<string>) returns (changed: bool)
      requires Tidy(Now())
      requires forall id :: id in current ==>
                 id in doms.domains && doms.domains[id].name == current[id].name && doms.domains[id].applicationId == app
      modifies doms, ings
      ensures Tidy(old(Now())) && PrunedUpTo(old(Now()), Now(), app, current, desired, {}, changed)
    {
      ghost var before := Now();
      changed := false;
      var todo := current.Keys;
      NothingPruned(before, app, current, desired);
      while todo != {}
        invariant PrunedUpTo(before, Now(), app, current, desired, todo, changed)
        decreases todo
      {
        var id :| id in todo;
        changed := PruneTurn(before, app, current, desired, todo, id, changed);
        todo := todo - {id};
      }
    }

    /** The list, then the pruning; `svc` is the service the ingresses go to. */
    method ApplyDomains(app: Id, svc: Id, ds: seq<DomainSpec>) returns (error: Option<Problem>, changed: bool)
      requires Tidy(Now())
      modifies doms, ings
      ensures Tidy(Now()) && Apart(old(Now()), Now(), app) && svcs.services == old(svcs.services)
      ensures Mapped(Sites(), error) == Applied(old(Sites()), app, ds)
      ensures error.None? && Normal(ds) && DistinctNames(ds) ==>
                ShowsList(Sites(), app, ds) && Owned(Sites(), app) <= Raws(ds) && AllPoint(Now(), ds, svc)
      ensures old(ShowsList(Sites(), app, ds) && Owned(Sites(), app) <= Raws(ds) && AllPoint(Now(), ds, svc))
              ==> error.None? && !changed && Now() == old(Now())
      ensures error.None? && !changed ==> doms.domains == old(doms.domains) && doms.names == old(doms.names)
    {
      ghost var before, sites := Now(), Sites();
      var current := map id | id in doms.domains && doms.domains[id].applicationId == app :: doms.domains[id];
      error, changed := MapDomains(app, svc, ds);
      if error.Some? {
        return;
      }
      ghost var mid := Now();
      CurrentStays(before, mid, app, ds, current);
      var c := PruneDomains(app, current, Raws(ds));
      PrunedIsStale(before, app, ds, current);
      ApartTransitive(before, mid, Now(), app);
      changed := changed || c;
      ListInPlace(sites, mid, Now(), app, ds, svc);
    }

    /** Service, domains and ingresses. */
    method ApplyNetwork(app: Id, m: Manifest) returns (error: Option<Problem>, changed: bool)
      requires Tidy(Now()) && (|m.domains| > 0 ==> m.service.Some?)
      modifies doms, ings, svcs
      ensures Tidy(Now()) && Apart(old(Now()), Now(), app)
      ensures Mapped(Sites(), error) == Applied(old(Sites()), app, m.domains)
      ensures error.None? && Normal(m.domains) && DistinctNames(m.domains) ==> NetInPlace(Now(), app, m)
      ensures old(NetInPlace(Now(), app, m)) ==> error.None? && !changed && Now() == old(Now())
      ensures error.None? && !changed ==>
                doms.domains == old(doms.domains) && doms.names == old(doms.names) && svcs.services == old(svcs.services)
    {
      if m.service.None? {
        error, changed := ApplyDomains(app, NO_ID, m.domains);
        return;
      }
      ghost var before := Now();
      var svc, moved := EnsureService(app, m.service.value);
      ghost var mid := Now();
      InPlaceService(before, mid, app, m, svc);
      error, changed := ApplyDomains(app, svc, m.domains);
      ApartTransitive(before, mid, Now(), app);
      changed := moved || changed;
      PutInPlace(Now(), app, m, svc);
    }

    method CheckSecrets(known: set<string>, wanted: seq<string>) returns (ok: bool)
      ensures ok <==> forall s :: s in wanted ==> s in known
    {
      var i := 0;
      while i < |wanted|
        invariant 0 <= i <= |wanted|
        invariant forall j :: 0 <= j < i ==> wanted[j] in known
      {
        if wanted[i] !in known {
          return false;
        }
        i := i + 1;
      }
      ok := true;
    }

    /** Find the application by name or create it. */
    method ResolveApp(name: string) returns (id: Id, created: bool)
      requires apps.Valid()
      modifies apps
      ensures apps.Valid() && name in apps.names && apps.names[name] == id
      ensures created <==> name !in old(apps.names)
      ensures created ==> id !in old(apps.apps) && apps.apps[id].activeDeploymentId == NO_ID && apps.apps == old(apps.apps)[id := apps.apps[id]]
                          && apps.names == old(apps.names)[name := id]
      ensures !created ==> apps.apps == old(apps.apps) && apps.names == old(apps.names)
    {
      if name in apps.names {
        return apps.names[name], false;
      }
      var ok;
      id, ok := apps.Create(name, AppSpec(0, None, None, Container("", [], [], map[])));
      created := true;
    }

    /** The application, and whether it has the secrets the manifest names. */
    method Admit(m: Manifest, secrets: map<Id, set<string>>) returns (id: Id, created: bool, ok: bool)
      requires apps.Valid()
      modifies apps
      ensures apps.Valid() && m.name in apps.names && apps.names[m.name] == id && (ok <==> SecretsKnown(secrets, id, m))
      ensures created <==> m.name !in old(apps.names)
      ensures !created ==> apps.apps == old(apps.apps) && apps.names == old(apps.names)
    {
      id, created := ResolveApp(m.name);
      var known := if id in secrets then secrets[id] else {};
      ok := CheckSecrets(known, m.secrets);
    }

    /** A deployment of the application with the hash, if a listing shows one. */
    method FindMatch(app: Id, h: string) returns (found: Option<Id>)
      ensures found.Some? ==> Runs(deps.deployments, app, found.value, h)
      ensures found.None? ==> forall d :: !Runs(deps.deployments, app, d, h)
    {
      var todo := deps.deployments.Keys;
      while todo != {}
        invariant todo <= deps.deployments.Keys
        invariant forall d :: d in deps.deployments && d !in todo ==> !Runs(deps.deployments, app, d, h)
        decreases todo
      {
        var d :| d in todo;
        if deps.deployments[d].applicationId == app && deps.deployments[d].hash == h {
          return Some(d);
        }
        todo := todo - {d};
      }
      found := None;
    }

    /** Reuse the application's deployment of that spec or create one. */
    method ChooseDeployment(app: Id, active: Id, spec: AppSpec) returns (dep: Id, created: bool)
      requires deps.Valid() && UniqueHashes(deps.deployments) && HashesTell(deps.deployments, hash)
      modifies deps
      ensures deps.Valid() && UniqueHashes(deps.deployments) && HashesTell(deps.deployments, hash)
      ensures TableLatched(old(deps.deployments), deps.deployments)
      ensures OnlyOwn(old(deps.deployments), deps.deployments, app, dep, created)
      ensures !created ==> deps.deployments == old(deps.deployments) && deps.appVersions == old(deps.appVersions)
      ensures hash(spec) != "" ==> Runs(deps.deployments, app, dep, hash(spec))
      ensures forall d :: Runs(old(deps.deployments), app, d, hash(spec)) ==> dep == d && !created
    {
      var newHash := hash(spec);
      var found := FindMatch(app, newHash);
      if found.Some? {
        return found.value, false;
      }
      var activeHash := "";
      if active in deps.deployments && deps.deployments[active].applicationId == app {
        activeHash := deps.deployments[active].hash;
      }
      if active == NO_ID || activeHash != newHash {
        ghost var before := deps.deployments;
        var d := deps.Create(app, spec, newHash);
        NewHashUnique(before, d);
        return d.id, true;
      }
      dep, created := active, false;
    }

    /** Everything the manifest asks for is there already. */
    ghost predicate InPlace(m: Manifest, secrets: map<Id, set<string>>)
      reads apps, deps, doms, ings, svcs
      requires Tidy(Now())
    {
      m.name in apps.names && SecretsKnown(secrets, apps.names[m.name], m) && AppInPlace(apps.names[m.name], m)
    }

    ghost predicate AppInPlace(a: Id, m: Manifest)
      reads apps, deps, doms, ings, svcs
      requires Tidy(Now())
    {
      && a in apps.apps && apps.apps[a].spec == AppliedSpec(m)
      && Runs(deps.deployments, a, apps.apps[a].activeDeploymentId, hash(DeploymentSpec(m)))
      && NetInPlace(Now(), a, m)
    }

    ghost predicate Valid()
      reads apps, deps, doms, ings, svcs
    {
      apps.Valid() && deps.Valid() && UniqueHashes(deps.deployments) && HashesTell(deps.deployments, hash) && Tidy(Now())
    }

    /** The deployment, then the application's record. */
    method Deploy(id: Id, m: Manifest) returns (dep: Id, changed: bool)
      requires apps.Valid() && deps.Valid() && UniqueHashes(deps.deployments) && HashesTell(deps.deployments, hash)
      requires id in apps.apps && ValidManifest(m)
      modifies apps`apps, deps
      ensures apps.Valid() && deps.Valid() && UniqueHashes(deps.deployments) && HashesTell(deps.deployments, hash)
      ensures TableLatched(old(deps.deployments), deps.deployments) && OthersSame(old(deps.deployments), deps.deployments, id)
      ensures apps.apps == old(apps.apps)[id := old(apps.apps)[id].(spec := AppliedSpec(m), activeDeploymentId := dep)]
      ensures hash(DeploymentSpec(m)) != "" ==> Runs(deps.deployments, id, dep, hash(DeploymentSpec(m)))
      ensures !changed ==> deps.deployments == old(deps.deployments)
      ensures old(Runs(deps.deployments, id, apps.apps[id].activeDeploymentId, hash(DeploymentSpec(m))) && apps.apps[id].spec == AppliedSpec(m))
              ==> !changed && apps.apps == old(apps.apps) && deps.deployments == old(deps.deployments)
                  && deps.appVersions == old(deps.appVersions)
    {
      var app := apps.apps[id];
      var spec := ToDeploymentSpec(m);
      var created;
      dep, created := ChooseDeployment(id, app.activeDeploymentId, spec);
      changed := created || app.activeDeploymentId != dep;
      var full := spec.(replicas := m.replicas);
      assert ValidSpec(WithDefaults(full));
      var ok := apps.Update(id, full, dep, app.status);
      if app.spec.replicas != m.replicas && !created {
        changed := true;
      }
    }

    /** Bring an existing application to its manifest. */
    method ApplyTo(id: Id, m: Manifest) returns (error: Option<Problem>, dep: Id, changed: bool)
      requires Valid() && id in apps.apps && ValidManifest(m)
      modifies apps`apps, deps, doms, ings, svcs
      ensures Valid() && TableLatched(old(deps.deployments), deps.deployments)
      ensures Apart(old(Now()), Now(), id) && OthersSame(old(deps.deployments), deps.deployments, id)
      ensures Mapped(Sites(), error) == Applied(old(Sites()), id, m.domains)
      ensures error.Some? ==> deps.deployments == old(deps.deployments)
      ensures error.None? ==> id in apps.apps && apps.apps[id].activeDeploymentId == dep && apps.apps[id].spec.replicas == m.replicas
      ensures error.None? && Telling(hash, DeploymentSpec(m)) ==>
                dep in deps.deployments && deps.deployments[dep].spec == DeploymentSpec(m)
      ensures error.None? && Normal(m.domains) && DistinctNames(m.domains) && hash(DeploymentSpec(m)) != "" ==> AppInPlace(id, m)
      ensures old(AppInPlace(id, m)) ==>
                && error.None? && !changed && Now() == old(Now()) && apps.apps == old(apps.apps)
                && deps.deployments == old(deps.deployments) && deps.appVersions == old(deps.appVersions)
      ensures error.None? && !changed ==>
                && doms.domains == old(doms.domains) && doms.names == old(doms.names) && svcs.services == old(svcs.services)
                && deps.deployments == old(deps.deployments)
    {
      dep := NO_ID;
      error, changed := ApplyNetwork(id, m);
      if error.None? {
        var deployed;
        dep, deployed := Deploy(id, m);
        changed := changed || deployed;
      }
    }

    /** One apply. */
    method Apply(m: Manifest, secrets: map<Id, set<string>>) returns (r: Outcome)
      requires Valid()
      modifies apps, deps, doms, ings, svcs
      ensures Valid() && TableLatched(old(deps.deployments), deps.deployments)
      ensures r == Refused(InvalidManifest) <==> !ValidManifest(m)
      ensures r == Refused(InvalidManifest) ==>
                Now() == old(Now()) && apps.apps == old(apps.apps) && deps.deployments == old(deps.deployments)
      ensures ValidManifest(m) ==> m.name in apps.names
      // isolation, whatever the outcome
      ensures ValidManifest(m) ==> Apart(old(Now()), Now(), apps.names[m.name])
      ensures ValidManifest(m) ==> OthersSame(old(deps.deployments), deps.deployments, apps.names[m.name])
      ensures r.Refused? ==> deps.deployments == old(deps.deployments)
      // what it comes to
      ensures r.Done? ==> Mapped(Sites(), None) == Applied(old(Sites()), apps.names[m.name], m.domains)
      ensures r.Done? ==> r.app == apps.names[m.name] && r.app in apps.apps && apps.apps[r.app].activeDeploymentId == r.deployment
      ensures r.Refused? && r.reason.BadDomain? ==>
                Mapped(Sites(), Some(r.reason.problem)) == Applied(old(Sites()), apps.names[m.name], m.domains)
      ensures r.Done? && Telling(hash, DeploymentSpec(m)) ==>
                r.deployment in deps.deployments && deps.deployments[r.deployment].spec == DeploymentSpec(m)
      // convergence and idempotence
      ensures r.Done? && Normal(m.domains) && DistinctNames(m.domains) && hash(DeploymentSpec(m)) != "" ==> InPlace(m, secrets)
      ensures ValidManifest(m) && old(InPlace(m, secrets)) ==> r.Done? && r.action.Unchanged? && Same(old(Everything()))
      ensures r.Done? && r.action.Unchanged? ==>
                && doms.domains == old(doms.domains) && doms.names == old(doms.names) && svcs.services == old(svcs.services)
                && deps.deployments == old(deps.deployments) && apps.names == old(apps.names)
      ensures r.Done? ==> (r.action.Created? <==> m.name !in old(apps.names)) && apps.apps[r.app].spec.replicas == m.replicas
    {
      if !ValidManifest(m) {
        return Refused(InvalidManifest);
      }
      var id, created, ok := Admit(m, secrets);
      r := ApplyAdmitted(id, created, ok, m);
    }

    ghost function Everything(): (Net, AppTable, map<string, Id>, DeploymentTable, map<Id, int>)
      reads apps, deps, doms, ings, svcs
    {
      (Now(), apps.apps, apps.names, deps.deployments, deps.appVersions)
    }

    ghost predicate Same(all: (Net, AppTable, map<string, Id>, DeploymentTable, map<Id, int>))
      reads apps, deps, doms, ings, svcs
    {
      Everything() == all
    }

    method ApplyAdmitted(id: Id, created: bool, ok: bool, m: Manifest) returns (r: Outcome)
      requires Valid() && ValidManifest(m) && id in apps.apps
      modifies apps`apps, deps, doms, ings, svcs
      ensures Valid() && TableLatched(old(deps.deployments), deps.deployments)
      ensures Apart(old(Now()), Now(), id) && OthersSame(old(deps.deployments), deps.deployments, id)
      ensures r.Refused? ==> deps.deployments == old(deps.deployments) && !r.reason.InvalidManifest?
      ensures r.Done? ==> ok && Mapped(Sites(), None) == Applied(old(Sites()), id, m.domains)
      ensures r.Done? ==> r.app == id && id in apps.apps && apps.apps[id].activeDeploymentId == r.deployment
      ensures r.Done? && Telling(hash, DeploymentSpec(m)) ==>
                r.deployment in deps.deployments && deps.deployments[r.deployment].spec == DeploymentSpec(m)
      ensures r.Refused? && r.reason.BadDomain? ==> Mapped(Sites(), Some(r.reason.problem)) == Applied(old(Sites()), id, m.domains)
      ensures r.Done? && Normal(m.domains) && DistinctNames(m.domains) && hash(DeploymentSpec(m)) != "" ==> AppInPlace(id, m)
      ensures ok && !created && old(AppInPlace(id, m)) ==> r.Done? && r.action.Unchanged? && Same(old(Everything()))
      ensures r.Done? && r.action.Unchanged? ==>
                && doms.domains == old(doms.domains) && doms.names == old(doms.names) && svcs.services == old(svcs.services)
                && deps.deployments == old(deps.deployments) && !created
      ensures r.Done? ==> (r.action.Created? <==> created) && apps.apps[id].spec.replicas == m.replicas
    {
      if !ok {
        ApartFromItself(Now(), id);
        return Refused(MissingSecret);
      }
      var error, dep, changed := ApplyTo(id, m);
      if error.Some? {
        return Refused(BadDomain(error.value));
      }
      r := Done(id, dep, if created then Created else Touched(Unchanged, changed));
    }
  }

  lemma ApartFromItself(net: Net, app: Id)
    ensures Apart(net, net, app)
  {
  }

  lemma NewHashUnique(deps: DeploymentTable, d: Deployment)
    requires UniqueHashes(deps) && d.id !in deps && forall x :: !Runs(deps, d.applicationId, x, d.hash)
    ensures UniqueHashes(deps[d.id := d])
  {
    var deps' := deps[d.id := d];
    forall x | x in deps ensures deps'[x].applicationId != d.applicationId || deps'[x].hash != d.hash {
      assert x != d.id && !Runs(deps, d.applicationId, x, d.hash);
    }
  }

  /** No other spec has the hash, and it is not empty. */
  ghost predicate Telling(hash: AppSpec -> string, spec: AppSpec) {
    hash(spec) != "" && forall s :: hash(s) == hash(spec) ==> s == spec
  }

  ghost predicate SecretsKnown(secrets: map<Id, set<string>>, app: Id, m: Manifest) {
    forall s :: s in m.secrets ==> app in secrets && s in secrets[app]
  }

  ghost predicate Runs(deps: DeploymentTable, app: Id, d: Id, h: string) {
    d in deps && deps[d].applicationId == app && deps[d].hash == h
  }

  /** At most one deployment is new, and it is the application's. */
  ghost predicate OnlyOwn(deps: DeploymentTable, deps': DeploymentTable, app: Id, dep: Id, created: bool) {
    if created then dep !in deps && dep in deps' && deps'[dep].applicationId == app && deps' == deps[dep := deps'[dep]]
    else deps' == deps
  }

  ghost predicate OthersSame(deps: DeploymentTable, deps': DeploymentTable, app: Id) {
    && (forall d :: d in deps && deps[d].applicationId != app ==> d in deps' && deps'[d] == deps[d])
    && (forall d :: d in deps' && deps'[d].applicationId != app ==> d in deps)
  }

  /** In a network that is in place the service found is the one everything points to. */
  lemma InPlaceService(net: Net, net': Net, app: Id, m: Manifest, svc: Id)
    requires Tidy(net) && m.service.Some? && net'.domains == net.domains && net'.names == net.names && net'.ingresses == net.ingresses
    requires forall s :: s in net.services && net.services[s].applicationId == app ==> s == svc
    ensures NetInPlace(net, app, m) ==> Serves(net.services, app, svc, m.service.value) && AllPoint(net', m.domains, svc)
  {
    if NetInPlace(net, app, m) {
      var s :| Serves(net.services, app, s, m.service.value) && AllPoint(net, m.domains, s);
      forall d | d in m.domains ensures PointsTo(net', d, svc) {
        assert PointsTo(net, d, s);
      }
    }
  }

  lemma PutInPlace(net: Net, app: Id, m: Manifest, svc: Id)
    requires Tidy(net) && m.service.Some? && Serves(net.services, app, svc, m.service.value)
    ensures var sites := SitesOf(net.domains, net.names);
            ShowsList(sites, app, m.domains) && Owned(sites, app) <= Raws(m.domains) && AllPoint(net, m.domains, svc)
            ==> NetInPlace(net, app, m)
  {
  }

  /** The domains an application had are found where they were after mapping. */
  lemma CurrentStays(net: Net, net': Net, app: Id, ds: seq<DomainSpec>, current: map<Id, Domain>)
    requires Tidy(net) && Tidy(net') && NamesStay(net, net')
    requires current == map id | id in net.domains && net.domains[id].applicationId == app :: net.domains[id]
    requires MapAll(SitesOf(net.domains, net.names), app, ds) == Mapped(SitesOf(net'.domains, net'.names), None)
    ensures StillThere(net', app, current, current.Keys)
  {
    var sites, sites' := SitesOf(net.domains, net.names), SitesOf(net'.domains, net'.names);
    MapAllEffect(sites, app, ds);
    forall id | id in current
      ensures id in net'.domains && net'.domains[id].name == current[id].name && net'.domains[id].applicationId == app
    {
      var n := net.domains[id].name;
      assert n in Owned(sites, app);
      assert n in Owned(sites', app);
    }
  }

  ghost predicate NamesStay(net: Net, net': Net) {
    forall n :: n in net.names ==> n in net'.names && net'.names[n] == net.names[n]
  }

  lemma PrunedIsStale(net: Net, app: Id, ds: seq<DomainSpec>, current: map<Id, Domain>)
    requires Tidy(net)
    requires current == map id | id in net.domains && net.domains[id].applicationId == app :: net.domains[id]
    ensures Pruned(current, Raws(ds), {}) == Stale(SitesOf(net.domains, net.names), app, ds)
  {
    var sites := SitesOf(net.domains, net.names);
    forall n | n in Stale(sites, app, ds) ensures n in Pruned(current, Raws(ds), {}) {
      var id := net.names[n];
      assert id in current && current[id].name == n;
    }
  }

  lemma ListInPlace(sites: SiteTable, net: Net, net': Net, app: Id, ds: seq<DomainSpec>, svc: Id)
    requires Tidy(net) && Tidy(net') && Thinned(net, net') && AllPoint(net, ds, svc)
    requires Applied(sites, app, ds) == Mapped(SitesOf(net'.domains, net'.names), None)
    ensures Normal(ds) && DistinctNames(ds) ==>
              var sites' := SitesOf(net'.domains, net'.names);
              ShowsList(sites', app, ds) && Owned(sites', app) <= Raws(ds) && AllPoint(net', ds, svc)
  {
    if Normal(ds) && DistinctNames(ds) {
      ApplyTwice(sites, app, ds);
      NormalConverges(sites, app, ds);
      PointsSurvive(net, net', app, ds, svc);
    }
  }

  lemma PointsSurvive(net: Net, net': Net, app: Id, ds: seq<DomainSpec>, svc: Id)
    requires Tidy(net) && Tidy(net') && Thinned(net, net') && AllPoint(net, ds, svc)
    requires ShowsList(SitesOf(net'.domains, net'.names), app, ds)
    ensures AllPoint(net', ds, svc)
  {
    forall d | d in ds ensures PointsTo(net', d, svc) {
      assert ShownIn(SitesOf(net'.domains, net'.names), app, d) && PointsTo(net, d, svc);
    }
  }

  /** Where the pruning loop stands with the domains of `todo` still ahead. */
  ghost predicate PrunedUpTo(net: Net, net': Net, app: Id, current: map<Id, Domain>, desired: set<string>, todo: set<Id>, changed: bool)
    requires Tidy(net)
  {
    && todo <= current.Keys && Tidy(net') && Apart(net, net', app) && Thinned(net, net')
    && StillThere(net', app, current, todo)
    && SitesOf(net'.domains, net'.names) == SitesOf(net.domains, net.names) - Pruned(current, desired, todo)
    && (changed <==> Pruned(current, desired, todo) != {})
    && (!changed ==> net' == net)
  }

  ghost predicate StillThere(net: Net, app: Id, current: map<Id, Domain>, todo: set<Id>) {
    forall id :: id in todo && id in current ==>
      id in net.domains && net.domains[id].name == current[id].name && net.domains[id].applicationId == app
  }

  lemma SitesStep(sites: SiteTable, mid: SiteTable, sites': SiteTable, current: map<Id, Domain>, desired: set<string>, todo: set<Id>, id: Id)
    requires id in todo && id in current && current[id].name !in desired
    requires mid == sites - Pruned(current, desired, todo) && sites' == mid - {current[id].name}
    ensures sites' == sites - Pruned(current, desired, todo - {id}) && Pruned(current, desired, todo - {id}) != {}
  {
    PrunedOneMore(current, desired, todo, id);
    var gone, n := Pruned(current, desired, todo), current[id].name;
    assert sites - gone - {n} == sites - (gone + {n});
    assert n in gone + {n};
  }

  lemma StillThereStep(net: Net, net': Net, app: Id, current: map<Id, Domain>, todo: set<Id>, id: Id)
    requires StillThere(net, app, current, todo) && net'.domains == net.domains - {id}
    ensures StillThere(net', app, current, todo - {id})
  {
  }

  ghost function Pruned(current: map<Id, Domain>, desired: set<string>, todo: set<Id>): set<string> {
    set id | id in current && id !in todo && current[id].name !in desired :: current[id].name
  }

  lemma NothingPruned(net: Net, app: Id, current: map<Id, Domain>, desired: set<string>)
    requires Tidy(net)
    ensures Pruned(current, desired, current.Keys) == {} && Apart(net, net, app) && Thinned(net, net)
    ensures SitesOf(net.domains, net.names) - {} == SitesOf(net.domains, net.names)
  {
  }

  lemma PrunedOneMore(current: map<Id, Domain>, desired: set<string>, todo: set<Id>, id: Id)
    requires id in todo && id in current
    ensures Pruned(current, desired, todo - {id})
         == Pruned(current, desired, todo) + if current[id].name in desired then {} else {current[id].name}
  {
    var a, b := Pruned(current, desired, todo - {id}), Pruned(current, desired, todo);
    forall n | n in b ensures n in a {
      var k :| k in current && k !in todo && current[k].name !in desired && current[k].name == n;
      assert k !in todo - {id};
    }
    assert current[id].name !in desired ==> id !in todo - {id} && current[id].name in a;
  }

  lemma PrunedSkip(current: map<Id, Domain>, desired: set<string>, todo: set<Id>, id: Id)
    requires id in todo && id in current && current[id].name in desired
    ensures Pruned(current, desired, todo - {id}) == Pruned(current, desired, todo)
  {
    PrunedOneMore(current, desired, todo, id);
  }

  /** Fewer domains; those left keep their name and their ingresses. */
  ghost predicate Thinned(net: Net, net': Net) {
    && net'.services == net.services
    && (forall n :: n in net'.names ==> n in net.names && net'.names[n] == net.names[n])
    && (forall d, s :: d in net'.domains && Points(net.ingresses, d, s) ==> Points(net'.ingresses, d, s))
    && net'.domains.Keys <= net.domains.Keys
  }

  lemma ThinnedTransitive(a: Net, b: Net, c: Net)
    requires Thinned(a, b) && Thinned(b, c)
    ensures Thinned(a, c)
  {
  }

  /** Only ingresses of one domain went. */
  lemma ThinnedByIngress(net: Net, net': Net, id: Id)
    requires net' == net.(ingresses := net'.ingresses)
    requires forall i :: i in net.ingresses && net.ingresses[i].domainId != id ==> i in net'.ingresses && net'.ingresses[i] == net.ingresses[i]
    ensures forall d, s :: d != id && Points(net.ingresses, d, s) ==> Points(net'.ingresses, d, s)
  {
    forall d, s | d != id && Points(net.ingresses, d, s) ensures Points(net'.ingresses, d, s) {
      var i :| i in net.ingresses && net.ingresses[i].domainId == d && net.ingresses[i].serviceId == s;
      assert net'.ingresses[i].domainId == d && net'.ingresses[i].serviceId == s;
    }
  }

  lemma NothingMapped(net: Net, app: Id, svc: Id, ds: seq<DomainSpec>)
    requires Tidy(net)
    ensures MapAll(SitesOf(net.domains, net.names), app, ds[..0]) == Mapped(SitesOf(net.domains, net.names), None)
    ensures AllPoint(net, ds[..0], svc) && Apart(net, net, app) && Onward(net, net, svc)
  {
  }

  lemma OneMoreMapped(sites: SiteTable, app: Id, ds: seq<DomainSpec>, k: nat)
    requires k < |ds| && MapAll(sites, app, ds[..k]).error.None?
    ensures MapAll(sites, app, ds[..k + 1]) == MapOne(MapAll(sites, app, ds[..k]).sites, app, ds[k])
    ensures MapOne(MapAll(sites, app, ds[..k]).sites, app, ds[k]).error.Some?
            ==> MapAll(sites, app, ds) == MapOne(MapAll(sites, app, ds[..k]).sites, app, ds[k])
  {
    assert ds[..k + 1][..k] == ds[..k];
    if MapAll(sites, app, ds[..k + 1]).error.Some? {
      RefusalStands(sites, app, ds, k + 1);
    }
  }

  lemma {:induction false} RefusalStands(sites: SiteTable, app: Id, ds: seq<DomainSpec>, k: nat)
    requires k <= |ds| && MapAll(sites, app, ds[..k]).error.Some?
    ensures MapAll(sites, app, ds) == MapAll(sites, app, ds[..k])
    decreases |ds|
  {
    if k == |ds| {
      assert ds[..k] == ds;
    } else {
      var less := ds[..|ds| - 1];
      assert less[..k] == ds[..k];
      RefusalStands(sites, app, less, k);
    }
  }

  lemma AllPointOneMore(net: Net, net': Net, ds: seq<DomainSpec>, k: nat, svc: Id)
    requires k < |ds| && AllPoint(net, ds[..k], svc) && Onward(net, net', svc) && PointsTo(net', ds[k], svc)
    ensures AllPoint(net', ds[..k + 1], svc)
  {
    OnwardPoints(net, net', ds[..k], svc);
    assert ds[..k + 1] == ds[..k] + [ds[k]];
  }

  /** The entry's name leads to the domain, which the application owns. */
  ghost predicate Holds(net: Net, app: Id, d: DomainSpec, id: Id) {
    var n := NormalizeDomain(d.name);
    n in net.names && net.names[n] == id && id in net.domains && net.domains[id].applicationId == app
  }

  ghost predicate NamesKept(net: Net, net': Net) {
    && net'.services == net.services && net'.ingresses == net.ingresses
    && forall n :: n in net.names ==> n in net'.names && net'.names[n] == net.names[n]
  }

  ghost predicate PointsTo(net: Net, d: DomainSpec, svc: Id) {
    var n := NormalizeDomain(d.name);
    n in net.names && Points(net.ingresses, net.names[n], svc)
  }

  lemma SameSite(sites: SiteTable, n: string, s: Site)
    requires n in sites && sites[n] == s
    ensures sites[n := s] == sites
  {
  }

  lemma TidyPaths(net: Net)
    requires Tidy(net)
    ensures PathsUnique(net.ingresses)
  {
  }

  lemma PointsKept(m: map<Id, Ingress>, m': map<Id, Ingress>, svc: Id)
    requires forall i :: i in m ==> i in m' && m'[i] == m[i]
    ensures forall d :: Points(m, d, svc) ==> Points(m', d, svc)
  {
    forall d | Points(m, d, svc) ensures Points(m', d, svc) {
      var i :| i in m && m[i].domainId == d && m[i].serviceId == svc;
      assert m'[i].domainId == d && m'[i].serviceId == svc;
    }
  }

  /** Removing an ingress to another service. */
  lemma OthersPoint(m: map<Id, Ingress>, i: Id, svc: Id)
    requires i in m && m[i].serviceId != svc
    ensures forall d :: Points(m, d, svc) ==> Points(m - {i}, d, svc)
  {
    forall d | Points(m, d, svc) ensures Points(m - {i}, d, svc) {
      var k :| k in m && m[k].domainId == d && m[k].serviceId == svc;
      assert k in m - {i};
    }
  }
}
