/** The instance scheduler: pending instances, in id order, go to the online nodes that still have room,
    round robin, against a capacity table that is deducted locally as the pass goes on. */
module InstanceScheduler {
  import opened Ids
  import opened Instances
  import opened Deployments
  import Jobs
  import opened Nodes
  import opened Capacity
  import opened RoundRobin

  const INSUFFICIENT := "insufficient_capacity"

  /** Where a pass stands. */
  datatype PassState = PassState(instances: Table, deployments: DeploymentTable, caps: Caps, cursor: Id)

  function OnlineNodes(nodes: NodeTable): NodeTable {
    map n | n in nodes && nodes[n].status.Online? :: nodes[n]
  }

  function PendingIds(m: Table): set<Id> {
    set id | id in m && m[id].status.Pending?
  }

  function EligibleNodes(caps: Caps, online: set<Id>, req: Amount): set<Id> {
    set n | n in online && Fits(req, At(caps, n))
  }

  /** The turn of one pending instance. */
  ghost function Turn(p: PassState, id: Id, online: set<Id>, now: Time): PassState
    requires id in p.instances
  {
    var i := p.instances[id];
    if i.deploymentId !in p.deployments then p
    else
      var dep := p.deployments[i.deploymentId];
      var req := Request(dep);
      var eligible := EligibleNodes(p.caps, online, req);
      if eligible == {} then
        p.(deployments := p.deployments[i.deploymentId := RolloutSet(dep, dep.rolloutStatus, INSUFFICIENT)])
      else
        var n := Next(eligible, p.cursor);
        PassState(p.instances[id := Stated(i, Assigned, n, NO_ID, now)],
             p.deployments[i.deploymentId := RolloutSet(dep, dep.rolloutStatus, "")],
             p.caps[n := Minus(At(p.caps, n), req)],
             n)
  }

  ghost function Turns(p: PassState, ids: seq<Id>, online: set<Id>, now: Time): (p': PassState)
    requires forall id :: id in ids ==> id in p.instances
    ensures p'.instances.Keys == p.instances.Keys
  {
    if ids == [] then p
    else Turn(Turns(p, ids[..|ids| - 1], online, now), ids[|ids| - 1], online, now)
  }

  class Scheduler {
    const instances: Registry
    const deployments: DeploymentRegistry
    var lastAssignedNodeId: Id

    constructor (instances: Registry, deployments: DeploymentRegistry)
      ensures this.instances == instances && this.deployments == deployments && lastAssignedNodeId == NO_ID
    {
      this.instances, this.deployments := instances, deployments;
      lastAssignedNodeId := NO_ID;
    }

    ghost predicate Valid()
      reads this, instances, deployments
    {
      instances.Valid() && deployments.Valid()
    }

    /** The registries and the cursor, with a capacity table. */
    ghost function Now(caps: Caps): PassState
      reads this, instances, deployments
    {
      PassState(instances.instances, deployments.deployments, caps, lastAssignedNodeId)
    }

    method AssignTurn(id: Id, caps: Caps, online: set<Id>, now: Time) returns (caps': Caps)
      requires Valid()
      requires id in instances.instances && !Terminal(instances.instances[id].status)
      modifies this, instances, deployments
      ensures Valid() && deployments.appVersions == old(deployments.appVersions)
      ensures Now(caps') == Turn(old(Now(caps)), id, online, now)
    {
      caps' := caps;
      var dep := instances.instances[id].deploymentId;
      if dep !in deployments.deployments {
        return;
      }
      var status := deployments.deployments[dep].rolloutStatus;
      var req, eligible := FindEligible(deployments.deployments[dep], caps, online);
      if eligible == {} {
        var _ := deployments.UpdateRolloutStatusOnly(dep, status, INSUFFICIENT);
        return;
      }
      var n := PickNode(eligible, lastAssignedNodeId);
      var r := instances.UpdateState(id, Assigned, n, NO_ID, now);
      if r.Ok? {
        var _ := deployments.UpdateRolloutStatusOnly(dep, status, "");
        lastAssignedNodeId := n;
        caps' := caps[n := Minus(At(caps, n), req)];
      }
    }

    method AssignAll(pending: seq<Id>, caps: Caps, online: set<Id>, now: Time) returns (caps': Caps)
      requires Valid() && pending == Sorted(PendingIds(instances.instances))
      modifies this, instances, deployments
      ensures Valid() && deployments.appVersions == old(deployments.appVersions)
      ensures Now(caps') == FullPass(old(Now(caps)), online, now)
    {
      caps' := caps;
      ghost var start := Now(caps);
      PendingInTable(start.instances);
      var k := 0;
      assert pending[..0] == [];
      while k < |pending|
        invariant 0 <= k <= |pending|
        invariant Valid() && deployments.appVersions == old(deployments.appVersions)
        invariant Now(caps') == Turns(start, pending[..k], online, now)
      {
        StillPending(start, pending, k, online, now);
        OneTurnMore(start, pending, k, online, now);
        caps' := AssignTurn(pending[k], caps', online, now);
        k := k + 1;
      }
      assert pending[..k] == pending;
    }

    /** One pass.  Its outcome is a function of the registries and the cursor: no listing order enters. */
    method SchedulePendingInstances(nodes: NodeTable, jobs: map<Id, Jobs.Job>, now: Time) returns (caps: Caps)
      requires Valid()
      modifies this, instances, deployments
      ensures Valid() && deployments.appVersions == old(deployments.appVersions)
      ensures OnlineNodes(nodes) == map[] ==> Now(caps) == old(Now(map[]))
      ensures OnlineNodes(nodes) != map[] ==>
                Now(caps) == FullPass(Started(old(Now(map[])), OnlineNodes(nodes), jobs), OnlineNodes(nodes).Keys, now)
    {
      var online := OnlineNodes(nodes);
      if online == map[] {
        return map[];
      }
      caps := CalculateAll(online, instances.instances, deployments.deployments, jobs);
      var pending := SortIds(PendingIds(instances.instances));
      caps := AssignAll(pending, caps, online.Keys, now);
    }
  }

  /** The same registries with a freshly computed capacity table. */
  ghost function Started(p: PassState, nodes: NodeTable, jobs: map<Id, Jobs.Job>): PassState {
    p.(caps := CapacityTable(nodes, p.instances, p.deployments, jobs))
  }

  /** What the deployment asks for and the online nodes that have it. */
  method FindEligible(dep: Deployment, caps: Caps, online: set<Id>) returns (req: Amount, eligible: set<Id>)
    ensures req == Request(dep) && eligible == EligibleNodes(caps, online, req)
  {
    var reqCPU, reqMem := 0.0, 0;
    if dep.spec.resources.Some? {
      reqCPU := dep.spec.resources.value.cpu;
      reqMem := dep.spec.resources.value.memoryMB;
    }
    req := Amount(reqCPU, reqMem);
    eligible := set n | n in online && At(caps, n).cpu >= reqCPU && At(caps, n).mem >= reqMem;
  }

  lemma PendingInTable(m: Table)
    ensures forall id :: id in Sorted(PendingIds(m)) ==> id in m && m[id].status.Pending?
  {
    SortedElements(PendingIds(m));
    assert forall id :: id in Sorted(PendingIds(m)) ==> id in Elements(Sorted(PendingIds(m)));
  }

  /** A whole pass over the pending instances. */
  ghost function FullPass(p: PassState, online: set<Id>, now: Time): (p': PassState)
    ensures p'.instances.Keys == p.instances.Keys
  {
    PendingInTable(p.instances);
    Turns(p, Sorted(PendingIds(p.instances)), online, now)
  }

  /** An instance whose turn has not come is untouched. */
  lemma {:induction false} Untouched(p: PassState, ids: seq<Id>, id: Id, online: set<Id>, now: Time)
    requires forall x :: x in ids ==> x in p.instances
    requires id in p.instances && id !in ids
    ensures Turns(p, ids, online, now).instances[id] == p.instances[id]
  {
    if ids != [] {
      Untouched(p, ids[..|ids| - 1], id, online, now);
    }
  }

  lemma OneTurnMore(p: PassState, ids: seq<Id>, k: nat, online: set<Id>, now: Time)
    requires k < |ids| && forall x :: x in ids ==> x in p.instances
    ensures Turns(p, ids[..k + 1], online, now) == Turn(Turns(p, ids[..k], online, now), ids[k], online, now)
  {
    assert ids[..k + 1][..k] == ids[..k];
  }

  lemma StillPending(p: PassState, ids: seq<Id>, k: nat, online: set<Id>, now: Time)
    requires ids == Sorted(PendingIds(p.instances)) && k < |ids|
    ensures forall id :: id in ids[..k] ==> id in p.instances
    ensures ids[k] in p.instances && p.instances[ids[k]].status.Pending?
    ensures Turns(p, ids[..k], online, now).instances[ids[k]] == p.instances[ids[k]]
  {
    PendingInTable(p.instances);
    SortedDistinct(PendingIds(p.instances));
    Untouched(p, ids[..k], ids[k], online, now);
  }
}
