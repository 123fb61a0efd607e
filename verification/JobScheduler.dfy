/** The job scheduler: recover what timed out or was lost with its node, then hand the pending jobs, oldest
    first, to online nodes with room. */
module JobScheduler {
  import opened Ids
  import Instances
  import opened Deployments
  import opened Jobs
  import opened Nodes
  import opened Capacity
  import opened RoundRobin
  import opened InstanceScheduler

  const OFFLINE_TEXT := "Node offline grace period exceeded"

  function JobsOf(t: Table): map<Id, Job> {
    map id | id in t :: t[id].job
  }

  function JobRequest(j: Job): Amount { Amount(j.cpu, j.memoryMB) }

  /** How the scheduler uses `Update`. */
  function SchedulerUpdate(node: Id): UpdateParams {
    UpdateParams(Some(Assigned), Some(node), None, None, None)
  }

  // ----- recovery

  predicate Overdue(n: Node, grace: Time, now: Time) {
    n.status.Offline? && n.offlineSince.Some? && now - n.offlineSince.value >= grace
  }

  function OverdueNodes(nodes: NodeTable, grace: Time, now: Time): set<Id> {
    set n | n in nodes && Overdue(nodes[n], grace, now)
  }

  /** The jobs of every lost node given back; a job is held by one node only. */
  ghost function Recovered(t: Table, lost: set<Id>, now: Time): Table {
    map id | id in t :: if t[id].job.assignedNodeId in lost then NodeLost(t[id], t[id].job.assignedNodeId, OFFLINE_TEXT, now) else t[id]
  }

  /** The node has been offline for the grace period. */
  predicate Gone(nodes: NodeTable, n: Id, grace: Time, now: Time) {
    n in nodes && nodes[n].status == Offline && nodes[n].offlineSince != None && nodes[n].offlineSince.value + grace <= now
  }

  /** No job is left on a node that has been gone for the grace period, and no other job is touched. */
  lemma RecoveredSays(t: Table, nodes: NodeTable, grace: Time, now: Time)
    ensures forall id :: id in t ==>
              var j, j' := t[id].job, Recovered(t, OverdueNodes(nodes, grace, now), now)[id].job;
              if (j.status == Running || j.status == Assigned) && Gone(nodes, j.assignedNodeId, grace, now)
              then j'.status == (if j.attempts <= j.maxRetries then Pending else Failed)
              else j' == j
  {
  }

  lemma RecoveredOneMore(t: Table, lost: set<Id>, n: Id, now: Time)
    requires n !in lost
    ensures AllNodeLost(Recovered(t, lost, now), n, OFFLINE_TEXT, now) == Recovered(t, lost + {n}, now)
  {
    var a, b := AllNodeLost(Recovered(t, lost, now), n, OFFLINE_TEXT, now), Recovered(t, lost + {n}, now);
    forall id | id in t ensures a[id] == b[id] {
      if t[id].job.assignedNodeId != n {
        LostOnce(t[id], t[id].job.assignedNodeId, n, now);
      }
    }
  }

  lemma LostOnce(e: Entry, a: Id, b: Id, now: Time)
    requires e.job.assignedNodeId == a && a != b
    ensures NodeLost(NodeLost(e, a, OFFLINE_TEXT, now), b, OFFLINE_TEXT, now) == NodeLost(e, a, OFFLINE_TEXT, now)
    ensures NodeLost(e, b, OFFLINE_TEXT, now) == e
  {
  }

  // ----- assignment

  datatype JobPass = JobPass(table: Table, caps: Caps, cursor: Id)

  ghost function JobTurn(p: JobPass, id: Id, online: set<Id>, now: Time): JobPass
    requires id in p.table
  {
    var req := JobRequest(p.table[id].job);
    var eligible := EligibleNodes(p.caps, online, req);
    if eligible == {} then p
    else
      var n := Next(eligible, p.cursor);
      JobPass(p.table[id := Updated(p.table[id], SchedulerUpdate(n), now)], p.caps[n := Minus(At(p.caps, n), req)], n)
  }

  ghost function JobTurns(p: JobPass, ids: seq<Id>, online: set<Id>, now: Time): (p': JobPass)
    requires forall id :: id in ids ==> id in p.table
    ensures p'.table.Keys == p.table.Keys
  {
    if ids == [] then p
    else JobTurn(JobTurns(p, ids[..|ids| - 1], online, now), ids[|ids| - 1], online, now)
  }

  function PendingJobs(t: Table): set<Id> {
    set id | id in t && t[id].job.status.Pending?
  }

  /** The pending jobs, each once, none before an older one; equal times come in any order. */
  ghost predicate OldestFirst(ids: seq<Id>, t: Table) {
    && (forall id :: id in ids <==> id in PendingJobs(t))
    && (forall i, j :: 0 <= i < j < |ids| ==> ids[i] != ids[j])
    && (forall i, j :: 0 <= i < j < |ids| && ids[i] in t && ids[j] in t ==> t[ids[i]].job.createdAt <= t[ids[j]].job.createdAt)
  }

  predicate Older(a: (Id, Time), b: (Id, Time)) { a.1 < b.1 }

  method SortByAge(jobs: map<Id, Job>) returns (ids: seq<Id>)
    ensures forall id :: id in ids <==> id in jobs && jobs[id].status.Pending?
    ensures forall i, j :: 0 <= i < j < |ids| ==> ids[i] != ids[j]
    ensures forall i, j :: 0 <= i < j < |ids| ==> jobs[ids[i]].createdAt <= jobs[ids[j]].createdAt
  {
    var listed := set id | id in jobs && jobs[id].status.Pending? :: (id, jobs[id].createdAt);
    var ys := SortBy(listed, Older);
    assert Elements(ys) == listed;
    DistinctByCount(ys);
    ids := seq(|ys|, i requires 0 <= i < |ys| => ys[i].0);
    forall i | 0 <= i < |ys| ensures ids[i] in jobs && jobs[ids[i]].status.Pending? && ys[i] == (ids[i], jobs[ids[i]].createdAt) {
      assert ys[i] in listed;
    }
    forall id | id in jobs && jobs[id].status.Pending? ensures id in ids {
      assert (id, jobs[id].createdAt) in ys;
      var i :| 0 <= i < |ys| && ys[i] == (id, jobs[id].createdAt);
      assert ids[i] == id;
    }
  }

  class Scheduler {
    const jobs: Registry
    const executionTimeout: Time
    const nodeGracePeriod: Time
    var lastAssignedNodeId: Id

    constructor (jobs: Registry, executionTimeout: Time, nodeGracePeriod: Time)
      ensures this.jobs == jobs && this.executionTimeout == executionTimeout && this.nodeGracePeriod == nodeGracePeriod
      ensures lastAssignedNodeId == NO_ID
    {
      this.jobs, this.executionTimeout, this.nodeGracePeriod := jobs, executionTimeout, nodeGracePeriod;
      lastAssignedNodeId := NO_ID;
    }

    ghost function Now(caps: Caps): JobPass
      reads this, jobs
      requires jobs.Valid()
    {
      JobPass(jobs.Entries(), caps, lastAssignedNodeId)
    }

    method RecoverLostNodes(nodes: NodeTable, now: Time)
      requires jobs.Valid()
      modifies jobs
      ensures jobs.Valid() && jobs.Entries() == Recovered(old(jobs.Entries()), OverdueNodes(nodes, nodeGracePeriod, now), now)
    {
      ghost var before := jobs.Entries();
      ghost var lost: set<Id> := {};
      var todo := nodes.Keys;
      assert Recovered(before, {}, now) == before;
      while todo != {}
        invariant jobs.Valid() && todo <= nodes.Keys
        invariant lost == OverdueNodes(nodes, nodeGracePeriod, now) - todo
        invariant jobs.Entries() == Recovered(before, lost, now)
        decreases todo
      {
        var n :| n in todo;
        if nodes[n].status.Offline? && nodes[n].offlineSince.Some? {
          if now - nodes[n].offlineSince.value >= nodeGracePeriod {
            RecoveredOneMore(before, lost, n, now);
            var _ := jobs.RecoverNodeJobs(n, OFFLINE_TEXT, now);
            lost := lost + {n};
          }
        }
        todo := todo - {n};
      }
      assert OverdueNodes(nodes, nodeGracePeriod, now) - {} == OverdueNodes(nodes, nodeGracePeriod, now);
    }

    method AssignTurn(id: Id, caps: Caps, online: set<Id>, now: Time) returns (caps': Caps)
      requires jobs.Valid() && id in jobs.jobs && jobs.jobs[id].status.Pending?
      modifies this, jobs
      ensures jobs.Valid() && Now(caps') == JobTurn(old(Now(caps)), id, online, now)
    {
      caps' := caps;
      var req := Amount(jobs.jobs[id].cpu, jobs.jobs[id].memoryMB);
      var eligible := set n | n in online && At(caps, n).cpu >= req.cpu && At(caps, n).mem >= req.mem;
      assert eligible == EligibleNodes(caps, online, req);
      if eligible == {} {
        return;
      }
      var n := PickNode(eligible, lastAssignedNodeId);
      var r := jobs.Update(id, SchedulerUpdate(n), now);
      if r.Ok? {
        lastAssignedNodeId := n;
        caps' := caps[n := Minus(At(caps, n), req)];
      }
    }

    method AssignAll(pending: seq<Id>, caps: Caps, online: set<Id>, now: Time) returns (caps': Caps)
      requires jobs.Valid() && OldestFirst(pending, jobs.Entries())
      modifies this, jobs
      ensures jobs.Valid() && Now(caps') == JobTurns(old(Now(caps)), pending, online, now)
    {
      caps' := caps;
      ghost var start := Now(caps);
      PendingListed(pending, start.table);
      var k := 0;
      assert pending[..0] == [];
      while k < |pending|
        invariant 0 <= k <= |pending| && jobs.Valid()
        invariant Now(caps') == JobTurns(start, pending[..k], online, now)
      {
        JobStillPending(start, pending, k, online, now);
        OneJobMore(start, pending, k, online, now);
        assert jobs.Entries()[pending[k]] == start.table[pending[k]];
        caps' := AssignTurn(pending[k], caps', online, now);
        k := k + 1;
      }
      assert pending[..k] == pending;
    }

    /** The registry after timeouts and lost nodes are dealt with. */
    ghost function AfterRecovery(t: Table, nodes: NodeTable, now: Time): Table {
      Recovered(if executionTimeout > 0 then AllTimedOut(t, executionTimeout, now) else t,
                OverdueNodes(nodes, nodeGracePeriod, now), now)
    }

    /** The recovery half of a pass. */
    method Recover(nodes: NodeTable, now: Time)
      requires jobs.Valid()
      modifies jobs
      ensures jobs.Valid() && jobs.Entries() == AfterRecovery(old(jobs.Entries()), nodes, now)
    {
      if executionTimeout > 0 {
        var _ := jobs.RecoverExecutionTimeouts(executionTimeout, now);
      }
      RecoverLostNodes(nodes, now);
    }

    method ListPending() returns (pending: seq<Id>)
      requires jobs.Valid()
      ensures OldestFirst(pending, jobs.Entries())
    {
      pending := SortByAge(jobs.jobs);
      ghost var t := jobs.Entries();
      forall id ensures id in pending <==> id in PendingJobs(t) {
      }
    }

    /** The assigning half. */
    method AssignPending(online: NodeTable, instances: Instances.Table, deps: DeploymentTable, now: Time)
      returns (caps: Caps, ghost order: seq<Id>)
      requires jobs.Valid()
      modifies this, jobs
      ensures jobs.Valid() && OldestFirst(order, old(jobs.Entries()))
      ensures (forall id :: id in order ==> id in old(jobs.Entries()))
              && Now(caps) == JobTurns(JobStarted(old(jobs.Entries()), old(lastAssignedNodeId), online, instances, deps), order, online.Keys, now)
    {
      JobsOfEntries(jobs);
      caps := CalculateAll(online, instances, deps, jobs.jobs);
      var pending := ListPending();
      order := pending;
      PendingListed(order, jobs.Entries());
      caps := AssignAll(pending, caps, online.Keys, now);
    }

    method SchedulePendingJobs(nodes: NodeTable, instances: Instances.Table, deps: DeploymentTable, now: Time)
      returns (caps: Caps, ghost order: seq<Id>)
      requires jobs.Valid()
      modifies this, jobs
      ensures jobs.Valid()
      ensures OnlineNodes(nodes) == map[] ==>
                jobs.Entries() == AfterRecovery(old(jobs.Entries()), nodes, now) && lastAssignedNodeId == old(lastAssignedNodeId)
      ensures OnlineNodes(nodes) != map[] ==>
                IsJobPass(Now(caps), AfterRecovery(old(jobs.Entries()), nodes, now), old(lastAssignedNodeId), OnlineNodes(nodes),
                          instances, deps, order, now)
    {
      caps, order := map[], [];
      Recover(nodes, now);
      var online := OnlineNodes(nodes);
      if online == map[] {
        return;
      }
      caps, order := AssignPending(online, instances, deps, now);
    }
  }

  /** The outcome of the assigning half along an order, oldest first. */
  ghost predicate IsJobPass(p: JobPass, t: Table, cursor: Id, online: NodeTable, instances: Instances.Table, deps: DeploymentTable,
                            order: seq<Id>, now: Time)
  {
    && OldestFirst(order, t) && (forall id :: id in order ==> id in t)
    && p == JobTurns(JobStarted(t, cursor, online, instances, deps), order, online.Keys, now)
  }

  lemma JobsOfEntries(r: Registry)
    requires r.Valid()
    ensures JobsOf(r.Entries()) == r.jobs
  {
  }

  /** A pass begins with a fresh capacity table. */
  ghost function JobStarted(t: Table, cursor: Id, nodes: NodeTable, instances: Instances.Table, deps: DeploymentTable): JobPass {
    JobPass(t, CapacityTable(nodes, instances, deps, JobsOf(t)), cursor)
  }

  lemma OneJobMore(p: JobPass, ids: seq<Id>, k: nat, online: set<Id>, now: Time)
    requires k < |ids| && forall x :: x in ids ==> x in p.table
    ensures JobTurns(p, ids[..k + 1], online, now) == JobTurn(JobTurns(p, ids[..k], online, now), ids[k], online, now)
  {
    assert ids[..k + 1][..k] == ids[..k];
  }

  lemma {:induction false} NotYet(p: JobPass, ids: seq<Id>, id: Id, online: set<Id>, now: Time)
    requires (forall x :: x in ids ==> x in p.table) && id in p.table && id !in ids
    ensures JobTurns(p, ids, online, now).table[id] == p.table[id]
  {
    if ids != [] {
      NotYet(p, ids[..|ids| - 1], id, online, now);
    }
  }

  lemma PendingListed(ids: seq<Id>, t: Table)
    requires OldestFirst(ids, t)
    ensures forall id :: id in ids ==> id in t && t[id].job.status.Pending?
  {
    forall id | id in ids ensures id in t && t[id].job.status.Pending? {
      assert id in PendingJobs(t);
    }
  }

  lemma JobStillPending(p: JobPass, ids: seq<Id>, k: nat, online: set<Id>, now: Time)
    requires OldestFirst(ids, p.table) && k < |ids|
    ensures forall id :: id in ids ==> id in p.table
    ensures ids[k] in p.table && p.table[ids[k]].job.status.Pending?
    ensures JobTurns(p, ids[..k], online, now).table[ids[k]] == p.table[ids[k]]
  {
    PendingListed(ids, p.table);
    assert ids[k] in ids;
    assert ids[k] !in ids[..k];
    NotYet(p, ids[..k], ids[k], online, now);
  }

  lemma JobAssignmentLoads(t: Table, id: Id, node: Id, now: Time)
    requires id in t && t[id].job.status.Pending?
    ensures var t' := t[id := Updated(t[id], SchedulerUpdate(node), now)];
            var a, b := JobLoads(JobsOf(t)), JobLoads(JobsOf(t'));
            && id !in a
            && (t[id].job.cpu > 0.0 || t[id].job.memoryMB > 0 ==> b == a[id := Load(node, JobRequest(t[id].job))])
            && (!(t[id].job.cpu > 0.0 || t[id].job.memoryMB > 0) ==> b == a)
  {
    var t' := t[id := Updated(t[id], SchedulerUpdate(node), now)];
    assert t'[id].job == t[id].job.(status := Assigned, assignedNodeId := node);
    assert JobsOf(t') == JobsOf(t)[id := t'[id].job];
  }
}
