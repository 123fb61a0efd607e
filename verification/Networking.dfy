/** Services, domains and ingresses: three registries and the network they describe together. */
module Networking {
  import opened Ids
  import opened Routing
  import opened Sites

  const ROOT := "/"

  /** The contents of the three registries, with the domain registry's index by name. */
  datatype Net = Net(domains: map<Id, Domain>, names: map<string, Id>, ingresses: map<Id, Ingress>, services: map<Id, Service>)

  /** The two-way index: every domain is found under its name and every name leads to its domain. */
  ghost predicate Indexed(domains: map<Id, Domain>, names: map<string, Id>) {
    && (forall id :: id in domains ==>
          id != NO_ID && domains[id].id == id && domains[id].name in names && names[domains[id].name] == id)
    && (forall n :: n in names ==> n != "" && names[n] in domains && domains[names[n]].name == n)
  }

  /** The registry as a table of sites. */
  ghost function SitesOf(domains: map<Id, Domain>, names: map<string, Id>): SiteTable
    requires Indexed(domains, names)
  {
    map n | n in names :: Site(domains[names[n]].applicationId, domains[names[n]].tls)
  }

  datatype DomainError = DomainNotFound | DomainExists | DomainHijack | InvalidDomain

  class DomainRegistry {
    var domains: map<Id, Domain>
    var names: map<string, Id>

    ghost predicate Valid()
      reads this
    {
      Indexed(domains, names)
    }

    constructor ()
      ensures Valid() && domains == map[] && names == map[]
    {
      domains, names := map[], map[];
    }

    method Create(name: string, app: Id, tls: bool) returns (id: Id, error: Option<DomainError>)
      requires Valid()
      modifies this
      ensures Valid()
      ensures error.None? <==> NormalizeDomain(name) != "" && NormalizeDomain(name) !in old(names)
      ensures error.None? ==>
                var n := NormalizeDomain(name);
                && id !in old(domains) && id != NO_ID && n !in old(names)
                && domains == old(domains)[id := Domain(id, n, app, tls, DomainPending)] && names == old(names)[n := id]
      ensures error.Some? ==> domains == old(domains) && names == old(names)
    {
      id := NO_ID;
      var n := NormalizeDomain(name);
      if n == "" {
        return NO_ID, Some(InvalidDomain);
      }
      if n in names {
        if domains[names[n]].applicationId != app {
          return NO_ID, Some(DomainHijack);
        }
        return NO_ID, Some(DomainExists);
      }
      id := GenerateId(domains.Keys);
      domains := domains[id := Domain(id, n, app, tls, DomainPending)];
      names := names[n := id];
      error := None;
    }

    method GetByName(name: string) returns (d: Option<Domain>)
      requires Valid()
      ensures d.Some? <==> NormalizeDomain(name) in names
      ensures d.Some? ==> d.value.id in domains && domains[d.value.id] == d.value
      ensures d.Some? ==> d.value.name == NormalizeDomain(name) && names[d.value.name] == d.value.id
    {
      var n := NormalizeDomain(name);
      if n !in names {
        return None;
      }
      var id := names[n];
      d := Some(domains[id]);
    }

    method Delete(id: Id) returns (found: bool)
      requires Valid()
      modifies this
      ensures Valid()
      ensures found <==> id in old(domains)
      ensures found ==> domains == old(domains) - {id} && names == old(names) - {old(domains)[id].name}
      ensures !found ==> domains == old(domains) && names == old(names)
    {
      found := id in domains;
      if found {
        names := names - {domains[id].name};
        domains := domains - {id};
      }
    }

    method UpdateTLS(id: Id, tls: bool) returns (found: bool)
      requires Valid()
      modifies this`domains
      ensures Valid()
      ensures found <==> id in old(domains)
      ensures domains == if found then old(domains)[id := old(domains)[id].(tls := tls)] else old(domains)
    {
      found := id in domains;
      if found {
        domains := domains[id := domains[id].(tls := tls)];
      }
    }
  }

  /** At most one ingress for a domain and a path. */
  ghost predicate PathsUnique(m: map<Id, Ingress>) {
    && (forall i :: i in m ==> m[i].id == i)
    && (forall i, j :: i in m && j in m && m[i].domainId == m[j].domainId && m[i].path == m[j].path ==> i == j)
  }

  class IngressRegistry {
    var ingresses: map<Id, Ingress>

    ghost predicate Valid()
      reads this
    {
      PathsUnique(ingresses)
    }

    constructor ()
      ensures Valid() && ingresses == map[]
    {
      ingresses := map[];
    }

    method Create(domain: Id, service: Id, path: string) returns (id: Id, ok: bool)
      requires Valid()
      modifies this
      ensures Valid()
      ensures ok <==> forall i :: i in old(ingresses) ==>
                        !(old(ingresses)[i].domainId == domain && old(ingresses)[i].path == (if path == "" then ROOT else path))
      ensures ok ==> id !in old(ingresses)
                     && ingresses == old(ingresses)[id := Ingress(id, domain, service, if path == "" then ROOT else path)]
      ensures !ok ==> ingresses == old(ingresses)
    {
      id := NO_ID;
      var p := if path == "" then ROOT else path;
      var todo := ingresses.Keys;
      while todo != {}
        invariant todo <= ingresses.Keys
        invariant forall i :: i in ingresses && i !in todo ==> !(ingresses[i].domainId == domain && ingresses[i].path == p)
        decreases todo
      {
        var i :| i in todo;
        if ingresses[i].domainId == domain && ingresses[i].path == p {
          return NO_ID, false;
        }
        todo := todo - {i};
      }
      id := GenerateId(ingresses.Keys);
      ingresses := ingresses[id := Ingress(id, domain, service, p)];
      ok := true;
    }

    method Delete(id: Id) returns (found: bool)
      requires Valid()
      modifies this
      ensures Valid()
      ensures found <==> id in old(ingresses)
      ensures ingresses == if found then old(ingresses) - {id} else old(ingresses)
    {
      found := id in ingresses;
      if found {
        ingresses := ingresses - {id};
      }
    }

    /** The first ingress of a domain that a listing shows. */
    method FindByDomain(domain: Id) returns (id: Option<Id>)
      ensures id.Some? ==> id.value in ingresses && ingresses[id.value].domainId == domain
      ensures id.None? ==> forall i :: i in ingresses ==> ingresses[i].domainId != domain
    {
      var todo := ingresses.Keys;
      while todo != {}
        invariant todo <= ingresses.Keys
        invariant forall i :: i in ingresses && i !in todo ==> ingresses[i].domainId != domain
        decreases todo
      {
        var i :| i in todo;
        if ingresses[i].domainId == domain {
          return Some(i);
        }
        todo := todo - {i};
      }
      id := None;
    }
  }

  class ServiceRegistry {
    var services: map<Id, Service>

    constructor ()
      ensures services == map[]
    {
      services := map[];
    }

    method Create(app: Id, port: int, protocol: string) returns (id: Id)
      modifies this
      ensures id !in old(services) && id != NO_ID
      ensures services == old(services)[id := Service(id, app, port, protocol)]
    {
      id := GenerateId(services.Keys);
      services := services[id := Service(id, app, port, protocol)];
    }

    method Update(id: Id, port: int, protocol: string) returns (found: bool)
      modifies this
      ensures found <==> id in old(services)
      ensures services == if found then old(services)[id := old(services)[id].(targetPort := port, protocol := protocol)]
                          else old(services)
    {
      found := id in services;
      if found {
        services := services[id := services[id].(targetPort := port, protocol := protocol)];
      }
    }

    /** The first service of an application that a listing shows. */
    method FindByApp(app: Id) returns (id: Option<Id>)
      ensures id.Some? ==> id.value in services && services[id.value].applicationId == app
      ensures id.None? ==> forall s :: s in services ==> services[s].applicationId != app
    {
      var todo := services.Keys;
      while todo != {}
        invariant todo <= services.Keys
        invariant forall s :: s in services && s !in todo ==> services[s].applicationId != app
        decreases todo
      {
        var s :| s in todo;
        if services[s].applicationId == app {
          return Some(s);
        }
        todo := todo - {s};
      }
      id := None;
    }
  }

  // ----- the network as a whole

  /** What runs of apply keep: one ingress at most per domain, at the root, none without its domain, and one
      service at most per application. */
  ghost predicate Tidy(net: Net) {
    && Indexed(net.domains, net.names)
    && OneIngressEach(net.ingresses, net.domains.Keys)
    && OneServiceEach(net.services)
  }

  ghost predicate OneIngressEach(m: map<Id, Ingress>, domains: set<Id>) {
    && (forall i :: i in m ==> m[i].id == i && m[i].domainId in domains && m[i].path == ROOT)
    && (forall i, j :: i in m && j in m && m[i].domainId == m[j].domainId ==> i == j)
  }

  ghost predicate OneServiceEach(m: map<Id, Service>) {
    && (forall s :: s in m ==> s != NO_ID && m[s].id == s)
    && (forall s, t :: s in m && t in m && m[s].applicationId == m[t].applicationId ==> s == t)
  }

  /** The domain has an ingress to the service. */
  ghost predicate Points(m: map<Id, Ingress>, domain: Id, service: Id) {
    exists i :: i in m && m[i].domainId == domain && m[i].serviceId == service
  }

  /** Nothing of another application is created, changed or removed. */
  ghost predicate Apart(net: Net, net': Net, app: Id) {
    DomainsApart(net, net', app) && IngressesApart(net, net', app) && ServicesApart(net, net', app)
  }

  ghost predicate DomainsApart(net: Net, net': Net, app: Id) {
    && (forall d :: d in net.domains && net.domains[d].applicationId != app ==> d in net'.domains && net'.domains[d] == net.domains[d])
    && (forall d :: d in net'.domains && net'.domains[d].applicationId != app ==> d in net.domains && net'.domains[d] == net.domains[d])
  }

  /** The ingress of a domain that another application owns. */
  ghost predicate Foreign(net: Net, i: Id, app: Id) {
    i in net.ingresses && net.ingresses[i].domainId in net.domains && net.domains[net.ingresses[i].domainId].applicationId != app
  }

  ghost predicate IngressesApart(net: Net, net': Net, app: Id) {
    forall i :: Foreign(net, i, app) || Foreign(net', i, app)
      ==> i in net.ingresses && i in net'.ingresses && net'.ingresses[i] == net.ingresses[i]
  }

  ghost predicate ServicesApart(net: Net, net': Net, app: Id) {
    && (forall s :: s in net.services && net.services[s].applicationId != app ==> s in net'.services && net'.services[s] == net.services[s])
    && (forall s :: s in net'.services && net'.services[s].applicationId != app ==> s in net.services && net'.services[s] == net.services[s])
  }

  lemma ApartTransitive(a: Net, b: Net, c: Net, app: Id)
    requires Apart(a, b, app) && Apart(b, c, app)
    ensures Apart(a, c, app)
  {
    forall i | Foreign(a, i, app) || Foreign(c, i, app)
      ensures i in a.ingresses && i in c.ingresses && c.ingresses[i] == a.ingresses[i]
    {
      assert Foreign(b, i, app);
    }
  }

  // ----- the edits of an apply

  function WithDomain(net: Net, id: Id, n: string, app: Id, tls: bool): Net {
    net.(domains := net.domains[id := Domain(id, n, app, tls, DomainPending)], names := net.names[n := id])
  }

  function WithTls(net: Net, id: Id, tls: bool): Net
    requires id in net.domains
  {
    net.(domains := net.domains[id := net.domains[id].(tls := tls)])
  }

  function WithIngress(net: Net, i: Id, domain: Id, service: Id): Net {
    net.(ingresses := net.ingresses[i := Ingress(i, domain, service, ROOT)])
  }

  function WithoutIngress(net: Net, i: Id): Net {
    net.(ingresses := net.ingresses - {i})
  }

  function WithoutDomain(net: Net, id: Id): Net
    requires id in net.domains
  {
    net.(domains := net.domains - {id}, names := net.names - {net.domains[id].name})
  }

  lemma IndexAdded(domains: map<Id, Domain>, names: map<string, Id>, d: Domain)
    requires Indexed(domains, names) && d.id !in domains && d.id != NO_ID && d.name != "" && d.name !in names
    ensures Indexed(domains[d.id := d], names[d.name := d.id])
    ensures SitesOf(domains[d.id := d], names[d.name := d.id]) == SitesOf(domains, names)[d.name := Site(d.applicationId, d.tls)]
  {
  }

  lemma IndexUpdated(domains: map<Id, Domain>, names: map<string, Id>, d: Domain)
    requires Indexed(domains, names) && d.id in domains && d.name == domains[d.id].name
    ensures Indexed(domains[d.id := d], names)
    ensures SitesOf(domains[d.id := d], names) == SitesOf(domains, names)[d.name := Site(d.applicationId, d.tls)]
  {
  }

  lemma IndexRemoved(domains: map<Id, Domain>, names: map<string, Id>, d: Domain)
    requires Indexed(domains, names) && d.id in domains && d.name == domains[d.id].name
    ensures Indexed(domains - {d.id}, names - {d.name})
    ensures SitesOf(domains - {d.id}, names - {d.name}) == SitesOf(domains, names) - {d.name}
  {
  }

  lemma DomainAdded(net: Net, id: Id, n: string, app: Id, tls: bool)
    requires Tidy(net) && id !in net.domains && id != NO_ID && n != "" && n !in net.names
    ensures var net' := WithDomain(net, id, n, app, tls);
            && Tidy(net') && Apart(net, net', app)
            && SitesOf(net'.domains, net'.names) == SitesOf(net.domains, net.names)[n := Site(app, tls)]
  {
    IndexAdded(net.domains, net.names, Domain(id, n, app, tls, DomainPending));
    AddedApart(net, WithDomain(net, id, n, app, tls), id, app);
  }

  lemma AddedApart(net: Net, net': Net, id: Id, app: Id)
    requires OneIngressEach(net.ingresses, net.domains.Keys) && id !in net.domains
    requires id in net'.domains && net' == net.(domains := net.domains[id := net'.domains[id]], names := net'.names)
    requires net'.domains[id].applicationId == app
    ensures Apart(net, net', app)
  {
  }

  lemma TlsSet(net: Net, id: Id, tls: bool)
    requires Tidy(net) && id in net.domains
    ensures var net', d := WithTls(net, id, tls), net.domains[id];
            && Tidy(net') && Apart(net, net', d.applicationId)
            && SitesOf(net'.domains, net'.names) == SitesOf(net.domains, net.names)[d.name := Site(d.applicationId, tls)]
  {
    IndexUpdated(net.domains, net.names, net.domains[id].(tls := tls));
  }

  lemma IngressAdded(net: Net, i: Id, domain: Id, service: Id)
    requires Tidy(net) && domain in net.domains && i !in net.ingresses
    requires forall k :: k in net.ingresses ==> net.ingresses[k].domainId != domain
    ensures var net' := WithIngress(net, i, domain, service);
            && Tidy(net') && Apart(net, net', net.domains[domain].applicationId) && Points(net'.ingresses, domain, service)
  {
    var net' := WithIngress(net, i, domain, service);
    assert net'.ingresses[i].domainId == domain && net'.ingresses[i].serviceId == service;
  }

  lemma IngressRemoved(net: Net, i: Id)
    requires Tidy(net) && i in net.ingresses
    ensures var net', domain := WithoutIngress(net, i), net.ingresses[i].domainId;
            && Tidy(net') && Apart(net, net', net.domains[domain].applicationId)
            && (forall k :: k in net'.ingresses ==> net'.ingresses[k].domainId != domain)
  {
  }

  lemma DomainRemoved(net: Net, id: Id)
    requires Tidy(net) && id in net.domains && forall k :: k in net.ingresses ==> net.ingresses[k].domainId != id
    ensures var net', d := WithoutDomain(net, id), net.domains[id];
            && Tidy(net') && Apart(net, net', d.applicationId)
            && SitesOf(net'.domains, net'.names) == SitesOf(net.domains, net.names) - {d.name}
  {
    IndexRemoved(net.domains, net.names, net.domains[id]);
    RemovedApart(net, WithoutDomain(net, id), id);
  }

  lemma RemovedApart(net: Net, net': Net, id: Id)
    requires id in net.domains && forall k :: k in net.ingresses ==> net.ingresses[k].domainId != id
    requires net' == net.(domains := net.domains - {id}, names := net'.names)
    ensures Apart(net, net', net.domains[id].applicationId)
  {
  }
}
