/** What is left of each node once every consuming instance and job has been deducted. */
module Capacity {
  import opened Ids
  import Instances
  import opened Deployments
  import Jobs
  import opened Nodes

  datatype Amount = Amount(cpu: real, mem: int)

  const ZERO := Amount(0.0, 0)

  function Plus(a: Amount, b: Amount): Amount { Amount(a.cpu + b.cpu, a.mem + b.mem) }

  function Minus(a: Amount, b: Amount): Amount { Amount(a.cpu - b.cpu, a.mem - b.mem) }

  predicate Fits(req: Amount, available: Amount) { available.cpu >= req.cpu && available.mem >= req.mem }

  predicate NonNegative(a: Amount) { Fits(ZERO, a) }

  /** Something that holds an amount on a node. */
  datatype Load = Load(node: Id, amount: Amount)

  type Loads = map<Id, Load>

  predicate InstanceConsumes(s: Instances.Status) {
    match s
    case Assigned => true
    case Starting => true
    case Running => true
    case Unknown => true
    case Stopping => true
    case _ => false
  }

  predicate JobConsumes(s: Jobs.Status) {
    match s
    case Assigned => true
    case Running => true
    case _ => false
  }

  /** What the spec of a deployment asks for; nothing when it names no resources. */
  function Request(d: Deployment): Amount {
    match d.spec.resources
    case None => ZERO
    case Some(r) => Amount(r.cpu, r.memoryMB)
  }

  predicate InstanceLoaded(i: Instances.Instance, deps: DeploymentTable) {
    && InstanceConsumes(i.status)
    && i.deploymentId in deps && deps[i.deploymentId].spec.resources.Some?
  }

  predicate JobLoaded(j: Jobs.Job) { JobConsumes(j.status) && (j.cpu > 0.0 || j.memoryMB > 0) }

  function InstanceLoads(instances: Instances.Table, deps: DeploymentTable): Loads {
    map id | id in instances && InstanceLoaded(instances[id], deps)
           :: Load(instances[id].nodeId, Request(deps[instances[id].deploymentId]))
  }

  function JobLoads(jobs: map<Id, Jobs.Job>): Loads {
    map id | id in jobs && JobLoaded(jobs[id]) :: Load(jobs[id].assignedNodeId, Amount(jobs[id].cpu, jobs[id].memoryMB))
  }

  function On(l: Load, node: Id): Amount { if l.node == node then l.amount else ZERO }

  ghost function AnyOf(loads: Loads): (id: Id)
    requires loads != map[]
    ensures id in loads
  {
    var id :| id in loads;
    id
  }

  /** The sum of the loads on a node. */
  ghost function Reserved(loads: Loads, node: Id): Amount {
    if loads == map[] then ZERO
    else
      var id := AnyOf(loads);
      Plus(On(loads[id], node), Reserved(loads - {id}, node))
  }

  /** It does not matter which load is counted first. */
  lemma {:induction false} ReservedWithout(loads: Loads, id: Id, node: Id)
    requires id in loads
    ensures Reserved(loads, node) == Plus(On(loads[id], node), Reserved(loads - {id}, node))
    decreases loads.Keys
  {
    var first := AnyOf(loads);
    if first != id {
      ReservedWithout(loads - {first}, id, node);
      ReservedWithout(loads - {id}, first, node);
      RemoveSwap(loads, first, id);
      PlusSwap(On(loads[id], node), On(loads[first], node), Reserved(loads - {id} - {first}, node));
    }
  }

  lemma RemoveSwap(loads: Loads, a: Id, b: Id)
    ensures loads - {a} - {b} == loads - {b} - {a}
  {
  }

  lemma PlusSwap(a: Amount, b: Amount, c: Amount)
    ensures Plus(a, Plus(b, c)) == Plus(b, Plus(a, c))
  {
  }

  lemma ReservedInsert(loads: Loads, id: Id, l: Load, node: Id)
    requires id !in loads
    ensures Reserved(loads[id := l], node) == Plus(On(l, node), Reserved(loads, node))
  {
    var more := loads[id := l];
    assert more - {id} == loads;
    ReservedWithout(more, id, node);
  }

  /** Nothing sits on a node that no load names. */
  lemma {:induction false} ReservedElsewhere(loads: Loads, node: Id)
    requires forall id :: id in loads ==> loads[id].node != node
    ensures Reserved(loads, node) == ZERO
    decreases |loads|
  {
    if loads != map[] {
      var id :| id in loads;
      ReservedWithout(loads, id, node);
      ReservedElsewhere(loads - {id}, node);
    }
  }

  /** Fewer or unchanged loads reserve no more, when no load is negative. */
  lemma {:induction false} ReservedShrinks(fewer: Loads, more: Loads, node: Id)
    requires forall id :: id in fewer ==> id in more && more[id] == fewer[id]
    requires forall id :: id in more ==> NonNegative(more[id].amount)
    ensures Fits(Reserved(fewer, node), Reserved(more, node))
    decreases more.Keys
  {
    if more == map[] {
      assert fewer == map[];
    } else {
      var id :| id in more;
      if id in fewer {
        ReservedShrinks(fewer - {id}, more - {id}, node);
        BothLoaded(fewer, more, id, node);
      } else {
        ReservedShrinks(fewer, more - {id}, node);
        OneLoaded(Reserved(fewer, node), more, id, node);
      }
    }
  }

  lemma BothLoaded(fewer: Loads, more: Loads, id: Id, node: Id)
    requires id in fewer && id in more && fewer[id] == more[id]
    requires Fits(Reserved(fewer - {id}, node), Reserved(more - {id}, node))
    ensures Fits(Reserved(fewer, node), Reserved(more, node))
  {
    ReservedWithout(fewer, id, node);
    ReservedWithout(more, id, node);
    FitsBeside(On(more[id], node), Reserved(fewer - {id}, node), Reserved(more - {id}, node));
  }

  lemma OneLoaded(small: Amount, more: Loads, id: Id, node: Id)
    requires id in more && NonNegative(more[id].amount) && Fits(small, Reserved(more - {id}, node))
    ensures Fits(small, Reserved(more, node))
  {
    ReservedWithout(more, id, node);
    OnNonNegative(more[id], node);
    FitsBeside(On(more[id], node), small, Reserved(more - {id}, node));
  }

  lemma OnNonNegative(l: Load, node: Id)
    requires NonNegative(l.amount)
    ensures NonNegative(On(l, node))
  {
  }

  lemma FitsBeside(a: Amount, small: Amount, large: Amount)
    requires Fits(small, large)
    ensures Fits(Plus(a, small), Plus(a, large))
    ensures NonNegative(a) ==> Fits(small, Plus(a, large))
  {
  }

  function Total(n: Node): Amount { Amount(n.cpuCores as real, n.totalMemoryBytes / 1024 / 1024) }

  /** A node offers its cores and the whole mebibytes of its memory. */
  lemma WholeMebibytes(n: Node)
    ensures Total(n).cpu == n.cpuCores as real
    ensures Total(n).mem * 1_048_576 <= n.totalMemoryBytes < (Total(n).mem + 1) * 1_048_576
  {
  }

  /** Which statuses hold capacity. */
  lemma HoldingStatuses(s: Instances.Status, j: Jobs.Status)
    ensures InstanceConsumes(s) <==> s in {Instances.Assigned, Instances.Starting, Instances.Running, Instances.Unknown, Instances.Stopping}
    ensures JobConsumes(j) <==> j in {Jobs.Assigned, Jobs.Running}
  {
  }

  /** What is held: by an instance what the spec of its deployment names, on its node; by a job its own request. */
  lemma HeldAmounts(instances: Instances.Table, deps: DeploymentTable, jobs: map<Id, Jobs.Job>, id: Id)
    ensures id in InstanceLoads(instances, deps) <==>
              && id in instances && InstanceConsumes(instances[id].status) && instances[id].deploymentId in deps
              && deps[instances[id].deploymentId].spec.resources != None
    ensures forall r :: (id in InstanceLoads(instances, deps) && deps[instances[id].deploymentId].spec.resources == Some(r)) ==>
              InstanceLoads(instances, deps)[id] == Load(instances[id].nodeId, Amount(r.cpu, r.memoryMB))
    ensures id in JobLoads(jobs) <==> id in jobs && JobConsumes(jobs[id].status) && (jobs[id].cpu > 0.0 || jobs[id].memoryMB > 0)
    ensures id in JobLoads(jobs) ==> JobLoads(jobs)[id] == Load(jobs[id].assignedNodeId, Amount(jobs[id].cpu, jobs[id].memoryMB))
  {
  }

  function TotalOf(nodes: NodeTable, node: Id): Amount { if node in nodes then Total(nodes[node]) else ZERO }

  /** What a node has left under the given registries. */
  ghost function Available(nodes: NodeTable, instances: Instances.Table, deps: DeploymentTable, jobs: map<Id, Jobs.Job>,
                           node: Id): Amount
  {
    Minus(Minus(TotalOf(nodes, node), Reserved(InstanceLoads(instances, deps), node)), Reserved(JobLoads(jobs), node))
  }

  type Caps = map<Id, Amount>

  /** A Go map read: the zero amount where there is no entry. */
  function At(caps: Caps, node: Id): Amount { if node in caps then caps[node] else ZERO }

  /** The table gives, node by node, what is left after `loads`. */
  ghost predicate LeftAfter(caps: Caps, before: Caps, loads: Loads) {
    && (forall n :: At(caps, n) == Minus(At(before, n), Reserved(loads, n)))
    && caps.Keys == before.Keys + NodesOf(loads)
  }

  ghost function NodesOf(loads: Loads): set<Id> {
    set id | id in loads :: loads[id].node
  }

  lemma NothingDeducted(caps: Caps)
    ensures LeftAfter(caps, caps, map[])
  {
  }

  lemma DeductLater(a: Amount, b: Amount, c: Amount)
    ensures Minus(a, Plus(c, b)) == Minus(Minus(a, b), c)
    ensures Minus(a, ZERO) == a
  {
  }

  lemma OneMoreDeducted(caps: Caps, before: Caps, loads: Loads, id: Id, l: Load)
    requires LeftAfter(caps, before, loads) && id !in loads
    ensures LeftAfter(caps[l.node := Minus(At(caps, l.node), l.amount)], before, loads[id := l])
  {
    var caps' := caps[l.node := Minus(At(caps, l.node), l.amount)];
    forall n ensures At(caps', n) == Minus(At(before, n), Reserved(loads[id := l], n)) {
      OneMoreDeductedAt(caps, before, loads, id, l, n);
    }
    OneMoreNode(loads, id, l);
  }

  lemma OneMoreDeductedAt(caps: Caps, before: Caps, loads: Loads, id: Id, l: Load, n: Id)
    requires At(caps, n) == Minus(At(before, n), Reserved(loads, n)) && id !in loads
    ensures At(caps[l.node := Minus(At(caps, l.node), l.amount)], n) == Minus(At(before, n), Reserved(loads[id := l], n))
  {
    ReservedInsert(loads, id, l, n);
    DeductLater(At(before, n), Reserved(loads, n), On(l, n));
    DeductOn(caps, l, n);
  }

  lemma DeductOn(caps: Caps, l: Load, n: Id)
    ensures At(caps[l.node := Minus(At(caps, l.node), l.amount)], n) == Minus(At(caps, n), On(l, n))
  {
    DeductLater(At(caps, n), ZERO, ZERO);
  }

  lemma OneMoreNode(loads: Loads, id: Id, l: Load)
    requires id !in loads
    ensures NodesOf(loads[id := l]) == NodesOf(loads) + {l.node}
  {
    var loads' := loads[id := l];
    forall n | n in NodesOf(loads) ensures n in NodesOf(loads') {
      var k :| k in loads && loads[k].node == n;
      assert loads'[k].node == n;
    }
    assert loads'[id].node == l.node;
  }

  /** The part of `all` that lies outside `todo`. */
  ghost predicate DoneOutside(loads: Loads, all: Loads, todo: set<Id>) {
    && (forall id :: id in loads ==> id in all && id !in todo && loads[id] == all[id])
    && (forall id :: id in all && id !in todo ==> id in loads)
  }

  /** Deducting one load after the other, in a given order. */
  function DeductAlong(caps: Caps, loads: Loads, order: seq<Id>): Caps
    requires forall id :: id in order ==> id in loads
  {
    if order == [] then caps
    else
      var l := loads[order[|order| - 1]];
      var rest := DeductAlong(caps, loads, order[..|order| - 1]);
      rest[l.node := Minus(At(rest, l.node), l.amount)]
  }

  ghost predicate Enumerates(order: seq<Id>, ids: set<Id>) {
    && (forall id :: id in order <==> id in ids)
    && (forall i, j :: 0 <= i < j < |order| ==> order[i] != order[j])
  }

  lemma {:induction false} DeductAlongLeaves(caps: Caps, loads: Loads, order: seq<Id>, part: Loads)
    requires forall id :: id in order ==> id in loads
    requires Enumerates(order, part.Keys) && forall id :: id in part ==> part[id] == loads[id]
    ensures LeftAfter(DeductAlong(caps, loads, order), caps, part)
    decreases |order|
  {
    if order == [] {
      assert part == map[];
      NothingDeducted(caps);
    } else {
      var id := order[|order| - 1];
      var less, smaller := order[..|order| - 1], part - {id};
      assert id in order;
      assert Enumerates(less, smaller.Keys) by {
        forall x | x in smaller ensures x in less {
          assert x in order;
        }
      }
      DeductAlongLeaves(caps, loads, less, smaller);
      OneMoreDeducted(DeductAlong(caps, loads, less), caps, smaller, id, loads[id]);
      assert smaller[id := loads[id]] == part;
    }
  }

  /** Order independence: the table is the same along every enumeration of what holds capacity. */
  lemma DeductInAnyOrder(caps: Caps, loads: Loads, a: seq<Id>, b: seq<Id>)
    requires Enumerates(a, loads.Keys) && Enumerates(b, loads.Keys)
    ensures DeductAlong(caps, loads, a) == DeductAlong(caps, loads, b)
  {
    DeductAlongLeaves(caps, loads, a, loads);
    DeductAlongLeaves(caps, loads, b, loads);
    var x, y := DeductAlong(caps, loads, a), DeductAlong(caps, loads, b);
    forall n | n in x ensures x[n] == y[n] {
      assert At(x, n) == At(y, n);
    }
  }

  method ListNodes(nodes: NodeTable) returns (caps: Caps)
    ensures caps.Keys == nodes.Keys && forall n :: At(caps, n) == TotalOf(nodes, n)
  {
    caps := map[];
    var todo := nodes.Keys;
    while todo != {}
      invariant todo <= nodes.Keys && caps.Keys == nodes.Keys - todo
      invariant forall n :: n in caps ==> caps[n] == Total(nodes[n])
      decreases todo
    {
      var n :| n in todo;
      caps := caps[n := Amount(nodes[n].cpuCores as real, nodes[n].totalMemoryBytes / 1024 / 1024)];
      todo := todo - {n};
    }
  }

  method DeductInstances(before: Caps, instances: Instances.Table, deps: DeploymentTable) returns (caps: Caps)
    ensures LeftAfter(caps, before, InstanceLoads(instances, deps))
  {
    caps := before;
    var todo := instances.Keys;
    ghost var all := InstanceLoads(instances, deps);
    ghost var loads: Loads := map[];
    NothingDeducted(before);
    while todo != {}
      invariant todo <= instances.Keys
      invariant DoneOutside(loads, all, todo)
      invariant LeftAfter(caps, before, loads)
      decreases todo
    {
      var id :| id in todo;
      var inst := instances[id];
      todo := todo - {id};
      if InstanceConsumes(inst.status) && inst.deploymentId in deps {
        var dep := deps[inst.deploymentId];
        if dep.spec.resources.Some? {
          var amount := Amount(dep.spec.resources.value.cpu, dep.spec.resources.value.memoryMB);
          OneMoreDeducted(caps, before, loads, id, Load(inst.nodeId, amount));
          caps := caps[inst.nodeId := Minus(At(caps, inst.nodeId), amount)];
          loads := loads[id := Load(inst.nodeId, amount)];
        }
      }
    }
    assert loads == all;
  }

  method DeductJobs(before: Caps, jobs: map<Id, Jobs.Job>) returns (caps: Caps)
    ensures LeftAfter(caps, before, JobLoads(jobs))
  {
    caps := before;
    var todo := jobs.Keys;
    ghost var all := JobLoads(jobs);
    ghost var loads: Loads := map[];
    NothingDeducted(before);
    while todo != {}
      invariant todo <= jobs.Keys
      invariant DoneOutside(loads, all, todo)
      invariant LeftAfter(caps, before, loads)
      decreases todo
    {
      var id :| id in todo;
      var j := jobs[id];
      todo := todo - {id};
      if JobConsumes(j.status) && (j.cpu > 0.0 || j.memoryMB > 0) {
        var amount := Amount(j.cpu, j.memoryMB);
        OneMoreDeducted(caps, before, loads, id, Load(j.assignedNodeId, amount));
        caps := caps[j.assignedNodeId := Minus(At(caps, j.assignedNodeId), amount)];
        loads := loads[id := Load(j.assignedNodeId, amount)];
      }
    }
    assert loads == all;
  }

  /** The capacity table: every listed node, and every other node that something still sits on, which then
      goes below zero. */
  ghost function CapacityTable(nodes: NodeTable, instances: Instances.Table, deps: DeploymentTable, jobs: map<Id, Jobs.Job>): Caps
  {
    map n | n in nodes.Keys + NodesOf(InstanceLoads(instances, deps)) + NodesOf(JobLoads(jobs))
          :: Available(nodes, instances, deps, jobs, n)
  }

  /** A node without an entry has nothing left and nothing on it. */
  lemma TableIsAvailable(nodes: NodeTable, instances: Instances.Table, deps: DeploymentTable, jobs: map<Id, Jobs.Job>, n: Id)
    ensures At(CapacityTable(nodes, instances, deps, jobs), n) == Available(nodes, instances, deps, jobs, n)
  {
    var a, b := InstanceLoads(instances, deps), JobLoads(jobs);
    if n !in nodes.Keys + NodesOf(a) + NodesOf(b) {
      ReservedElsewhere(a, n);
      ReservedElsewhere(b, n);
    }
  }

  /** The listings arrive in any order; the table does not depend on it. */
  method CalculateAll(nodes: NodeTable, instances: Instances.Table, deps: DeploymentTable, jobs: map<Id, Jobs.Job>)
    returns (caps: Caps)
    ensures caps == CapacityTable(nodes, instances, deps, jobs)
  {
    var listed := ListNodes(nodes);
    var afterInstances := DeductInstances(listed, instances, deps);
    caps := DeductJobs(afterInstances, jobs);
    ghost var expected := CapacityTable(nodes, instances, deps, jobs);
    forall n | n in expected ensures caps[n] == expected[n] {
      assert At(caps, n) == Available(nodes, instances, deps, jobs, n);
    }
  }
}
