/** Services, domains, ingresses, and the routing reconciler that turns them into the proxy's table. */
module Routing {
  import opened Ids
  import opened Instances
  import opened RolloutController
  import opened Nodes

  datatype Service = Service(id: Id, applicationId: Id, targetPort: int, protocol: string)

  datatype DomainStatus = DomainPending | DomainActive | DomainTLSFailed

  datatype Domain = Domain(id: Id, name: string, applicationId: Id, tls: bool, status: DomainStatus)

  datatype Ingress = Ingress(id: Id, domainId: Id, serviceId: Id, path: string)

  /** An endpoint of the table; the model also remembers which instance it stands for. */
  datatype Endpoint = Endpoint(ip: string, port: int, instanceId: Id)

  datatype RouteRule = RouteRule(host: string, path: string, endpoints: seq<Endpoint>)

  /** Everything the reconciler lists besides the instances. */
  datatype Config = Config(
    services: map<Id, Service>,
    apps: AppTable,
    nodes: map<Id, Node>,
    domains: map<Id, Domain>,
    ingresses: map<Id, Ingress>)

  /** The host port mapped to a container port; 0 when there is none. */
  function HostPort(ports: seq<PortMapping>, target: int): int {
    if ports == [] then 0
    else if ports[0].internalPort == target then ports[0].externalPort
    else HostPort(ports[1..], target)
  }

  method FindHostPort(ports: seq<PortMapping>, target: int) returns (port: int)
    ensures port == HostPort(ports, target)
  {
    port := 0;
    var k := 0;
    while k < |ports|
      invariant 0 <= k <= |ports|
      invariant HostPort(ports, target) == HostPort(ports[k..], target)
    {
      if ports[k].internalPort == target {
        return ports[k].externalPort;
      }
      assert ports[k..][1..] == ports[k + 1..];
      k := k + 1;
    }
  }

  /** The first mapping of a container port. */
  predicate MapsFirst(ports: seq<PortMapping>, target: int, i: nat) {
    i < |ports| && ports[i].internalPort == target && forall j :: 0 <= j < i ==> ports[j].internalPort != target
  }

  /** The host port of the first mapping, or 0 without one. */
  lemma {:induction false} HostPortIsFirst(ports: seq<PortMapping>, target: int)
    ensures forall i: nat :: MapsFirst(ports, target, i) ==> HostPort(ports, target) == ports[i].externalPort
    ensures (forall i: nat :: !MapsFirst(ports, target, i)) ==> HostPort(ports, target) == 0
  {
    if ports != [] {
      if ports[0].internalPort == target {
        assert MapsFirst(ports, target, 0);
      } else {
        HostPortIsFirst(ports[1..], target);
        forall i: nat | MapsFirst(ports, target, i) ensures HostPort(ports, target) == ports[i].externalPort {
          var k := i - 1;
          assert MapsFirst(ports[1..], target, k);
        }
        forall k: nat | MapsFirst(ports[1..], target, k) ensures MapsFirst(ports, target, k + 1) {
          assert ports[k + 1] == ports[1..][k];
        }
      }
    }
  }

  /** An ingress whose domain, application and service exist and belong together. */
  predicate Routable(c: Config, ing: Ingress) {
    && ing.domainId in c.domains && c.domains[ing.domainId].applicationId in c.apps
    && ing.serviceId in c.services
    && c.services[ing.serviceId].applicationId == c.domains[ing.domainId].applicationId
  }

  predicate Eligible(c: Config, srv: Service, i: Instance) {
    && i.applicationId == srv.applicationId
    && !i.draining && i.status.Running? && i.health.Healthy?
    && i.executionId != NO_ID && i.nodeId != NO_ID
    && i.nodeId in c.nodes && c.nodes[i.nodeId].ipAddress != ""
    && HostPort(i.ports, srv.targetPort) > 0
  }

  function EndpointOf(c: Config, srv: Service, i: Instance): Endpoint
    requires i.nodeId in c.nodes
  {
    Endpoint(c.nodes[i.nodeId].ipAddress, HostPort(i.ports, srv.targetPort), i.id)
  }

  /** The endpoints of a service: those of its eligible instances among `seen`, each once. */
  ghost predicate EndpointsFor(endpoints: seq<Endpoint>, c: Config, srv: Service, m: Table, seen: set<Id>) {
    && (forall e :: e in endpoints ==>
          e.instanceId in seen && e.instanceId in m && Eligible(c, srv, m[e.instanceId]) && e == EndpointOf(c, srv, m[e.instanceId]))
    && (forall id :: id in seen && id in m && Eligible(c, srv, m[id]) ==> EndpointOf(c, srv, m[id]) in endpoints)
    && (forall i, j :: 0 <= i < j < |endpoints| ==> endpoints[i].instanceId != endpoints[j].instanceId)
  }

  ghost predicate RuleFor(rule: RouteRule, c: Config, ing: Ingress, m: Table) {
    && Routable(c, ing)
    && rule.host == c.domains[ing.domainId].name && rule.path == ing.path
    && EndpointsFor(rule.endpoints, c, c.services[ing.serviceId], m, m.Keys)
  }

  /** The table: one rule for every routable ingress among `seen`, in some order. */
  ghost predicate RulesFor(rules: seq<RouteRule>, origin: seq<Id>, c: Config, m: Table, seen: set<Id>) {
    && |origin| == |rules|
    && (forall k :: 0 <= k < |rules| ==>
          origin[k] in seen && origin[k] in c.ingresses && RuleFor(rules[k], c, c.ingresses[origin[k]], m))
    && (forall ing :: ing in seen && ing in c.ingresses && Routable(c, c.ingresses[ing]) ==> ing in origin)
    && (forall i, j :: 0 <= i < j < |origin| ==> origin[i] != origin[j])
  }

  ghost predicate IsRouteTable(rules: seq<RouteRule>, c: Config, m: Table) {
    exists origin :: RulesFor(rules, origin, c, m, c.ingresses.Keys)
  }

  ghost predicate Routed(rules: seq<RouteRule>, id: Id) {
    exists k, e :: 0 <= k < |rules| && e in rules[k].endpoints && e.instanceId == id
  }

  /** Traffic only ever goes to an instance that runs, is healthy and is not draining. */
  lemma OnlyEligibleRouted(rules: seq<RouteRule>, c: Config, m: Table, id: Id)
    requires IsRouteTable(rules, c, m) && Routed(rules, id)
    ensures id in m && Ready(m[id]) && !m[id].draining
  {
    var origin :| RulesFor(rules, origin, c, m, c.ingresses.Keys);
    var k, e :| 0 <= k < |rules| && e in rules[k].endpoints && e.instanceId == id;
    assert RuleFor(rules[k], c, c.ingresses[origin[k]], m);
  }

  /** And for every ingress of its service, the rule with that ingress's host and path has the endpoint of every
      eligible instance. */
  lemma EligibleIsRouted(rules: seq<RouteRule>, c: Config, m: Table, ing: Id, id: Id)
    requires IsRouteTable(rules, c, m) && Instances.WellKeyed(m)
    requires ing in c.ingresses && Routable(c, c.ingresses[ing])
    requires id in m && Eligible(c, c.services[c.ingresses[ing].serviceId], m[id])
    ensures exists k :: 0 <= k < |rules| && rules[k].host == c.domains[c.ingresses[ing].domainId].name
                        && rules[k].path == c.ingresses[ing].path
                        && EndpointOf(c, c.services[c.ingresses[ing].serviceId], m[id]) in rules[k].endpoints
    ensures Routed(rules, id)
  {
    var origin :| RulesFor(rules, origin, c, m, c.ingresses.Keys);
    assert ing in origin;
    var k :| 0 <= k < |origin| && origin[k] == ing;
    assert RuleFor(rules[k], c, c.ingresses[origin[k]], m);
    var e := EndpointOf(c, c.services[c.ingresses[ing].serviceId], m[id]);
    assert e in rules[k].endpoints && e.instanceId == id;
  }

  /** What an endpoint of the table is, in full: it stands for a running, healthy instance of the service's
      application that does not drain, at its node's address and at the host port its first mapping gives for the
      service's port; its rule has the name and path of an ingress within one application. */
  ghost predicate EndpointTells(e: Endpoint, rule: RouteRule, c: Config, m: Table, ing: Id, i: nat) {
    && ing in c.ingresses && c.ingresses[ing].domainId in c.domains && c.ingresses[ing].serviceId in c.services
    && var domain, srv := c.domains[c.ingresses[ing].domainId], c.services[c.ingresses[ing].serviceId];
       && domain.applicationId in c.apps && srv.applicationId == domain.applicationId
       && rule.host == domain.name && rule.path == c.ingresses[ing].path
       && e.instanceId in m
       && var inst := m[e.instanceId];
          && inst.applicationId == srv.applicationId && inst.status == Running && inst.health == Healthy && !inst.draining
          && inst.executionId != NO_ID && inst.nodeId in c.nodes
          && MapsFirst(inst.ports, srv.targetPort, i) && inst.ports[i].externalPort > 0
          && e.port == inst.ports[i].externalPort && e.ip == c.nodes[inst.nodeId].ipAddress && e.ip != ""
  }

  /** Every endpoint is one of those. */
  lemma EndpointsTell(rules: seq<RouteRule>, c: Config, m: Table, k: nat, e: Endpoint) returns (ing: Id, i: nat)
    requires IsRouteTable(rules, c, m) && k < |rules| && e in rules[k].endpoints
    ensures EndpointTells(e, rules[k], c, m, ing, i)
  {
    var origin :| RulesFor(rules, origin, c, m, c.ingresses.Keys);
    ing := origin[k];
    assert RuleFor(rules[k], c, c.ingresses[ing], m);
    var srv, inst := c.services[c.ingresses[ing].serviceId], m[e.instanceId];
    HostPortIsFirst(inst.ports, srv.targetPort);
    assert HostPort(inst.ports, srv.targetPort) > 0;
    i :| MapsFirst(inst.ports, srv.targetPort, i);
  }

  /** And whatever can be one is: every ingress within one application has its rule, with an endpoint for every
      instance that fits. */
  lemma WhatTellsIsRouted(rules: seq<RouteRule>, c: Config, m: Table, e: Endpoint, rule: RouteRule, ing: Id, i: nat)
    requires IsRouteTable(rules, c, m) && Instances.WellKeyed(m) && EndpointTells(e, rule, c, m, ing, i)
    requires m[e.instanceId].nodeId != NO_ID
    ensures exists k :: 0 <= k < |rules| && rules[k].host == rule.host && rules[k].path == rule.path && e in rules[k].endpoints
  {
    var srv, inst := c.services[c.ingresses[ing].serviceId], m[e.instanceId];
    HostPortIsFirst(inst.ports, srv.targetPort);
    EligibleIsRouted(rules, c, m, ing, e.instanceId);
    assert e == EndpointOf(c, srv, inst);
  }

  /** The proxy; its table is replaced as a whole. */
  class Proxy {
    var routes: seq<RouteRule>

    constructor ()
      ensures routes == []
    {
      routes := [];
    }

    method UpdateRoutes(rules: seq<RouteRule>)
      modifies this
      ensures routes == rules
    {
      routes := rules;
    }
  }

  class RoutingReconciler {
    const instReg: Registry
    const proxy: Proxy

    constructor (instReg: Registry, proxy: Proxy)
      ensures this.instReg == instReg && this.proxy == proxy
    {
      this.instReg := instReg;
      this.proxy := proxy;
    }

    method CollectEndpoints(c: Config, srv: Service, m: Table) returns (endpoints: seq<Endpoint>)
      requires Instances.WellKeyed(m)
      ensures EndpointsFor(endpoints, c, srv, m, m.Keys)
    {
      endpoints := [];
      var todo := m.Keys;
      ghost var seen: set<Id> := {};
      while todo != {}
        invariant todo <= m.Keys && seen == m.Keys - todo
        invariant EndpointsFor(endpoints, c, srv, m, seen)
        decreases todo
      {
        var id :| id in todo;
        todo := todo - {id};
        endpoints := EndpointTurn(c, srv, m, id, endpoints, seen);
        seen := seen + {id};
      }
      assert seen == m.Keys;
    }

    method EndpointTurn(c: Config, srv: Service, m: Table, id: Id, endpoints: seq<Endpoint>, ghost seen: set<Id>)
      returns (endpoints': seq<Endpoint>)
      requires Instances.WellKeyed(m) && id in m && id !in seen
      requires EndpointsFor(endpoints, c, srv, m, seen)
      ensures EndpointsFor(endpoints', c, srv, m, seen + {id})
    {
      endpoints' := endpoints;
      var inst := m[id];
      if inst.applicationId != srv.applicationId {
        return;
      }
      if inst.draining || !inst.status.Running? || !inst.health.Healthy? {
        return;
      }
      if inst.executionId == NO_ID || inst.nodeId == NO_ID {
        return;
      }
      if inst.nodeId !in c.nodes || c.nodes[inst.nodeId].ipAddress == "" {
        return;
      }
      var targetHostPort := FindHostPort(inst.ports, srv.targetPort);
      if targetHostPort > 0 {
        var e := Endpoint(c.nodes[inst.nodeId].ipAddress, targetHostPort, inst.id);
        endpoints' := endpoints + [e];
      }
    }

    method Reconcile(c: Config)
      requires instReg.Valid()
      modifies proxy
      ensures IsRouteTable(proxy.routes, c, instReg.instances)
    {
      var m := instReg.instances;
      var rules: seq<RouteRule> := [];
      ghost var origin: seq<Id> := [];
      var todo := c.ingresses.Keys;
      ghost var seen: set<Id> := {};
      while todo != {}
        invariant todo <= c.ingresses.Keys && seen == c.ingresses.Keys - todo
        invariant RulesFor(rules, origin, c, m, seen)
        decreases todo
      {
        var id :| id in todo;
        var ing := c.ingresses[id];
        todo := todo - {id};
        if ing.domainId in c.domains && c.domains[ing.domainId].applicationId in c.apps && ing.serviceId in c.services
           && c.services[ing.serviceId].applicationId == c.domains[ing.domainId].applicationId
        {
          var endpoints := CollectEndpoints(c, c.services[ing.serviceId], m);
          var rule := RouteRule(c.domains[ing.domainId].name, ing.path, endpoints);
          RuleOneMore(rules, origin, c, m, seen, rule, id);
          rules := rules + [rule];
          origin := origin + [id];
        }
        seen := seen + {id};
      }
      assert seen == c.ingresses.Keys;
      proxy.UpdateRoutes(rules);
    }
  }

  lemma RuleOneMore(rules: seq<RouteRule>, origin: seq<Id>, c: Config, m: Table, seen: set<Id>, rule: RouteRule, id: Id)
    requires RulesFor(rules, origin, c, m, seen)
    requires id in c.ingresses && id !in seen && RuleFor(rule, c, c.ingresses[id], m)
    ensures RulesFor(rules + [rule], origin + [id], c, m, seen + {id})
  {
  }
}
