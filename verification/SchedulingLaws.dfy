/** What a scheduling pass guarantees: its deducted table ends equal to a fresh computation, nothing that
    fits is left waiting, and assignments go round the nodes. */
module SchedulingLaws {
  import opened Ids
  import opened Instances
  import opened Deployments
  import Jobs
  import opened Nodes
  import opened Capacity
  import opened RoundRobin
  import opened InstanceScheduler
  import opened Reconciler
  import ControlPlane

  /** The cached table is what a fresh computation would give. */
  ghost predicate Exact(p: PassState, nodes: NodeTable, jobs: map<Id, Jobs.Job>) {
    forall n :: At(p.caps, n) == Available(nodes, p.instances, p.deployments, jobs, n)
  }

  ghost predicate SameSpecs(a: DeploymentTable, b: DeploymentTable) {
    a.Keys == b.Keys && forall d :: d in a ==> a[d].spec == b[d].spec
  }

  lemma SameSpecsSameLoads(m: Table, a: DeploymentTable, b: DeploymentTable)
    requires SameSpecs(a, b)
    ensures InstanceLoads(m, a) == InstanceLoads(m, b)
  {
    forall id | id in m ensures InstanceLoaded(m[id], a) == InstanceLoaded(m[id], b) {
    }
  }

  /** Assigning a pending instance adds its request on the chosen node and changes nothing else. */
  lemma AssignmentLoads(m: Table, deps: DeploymentTable, id: Id, node: Id, now: Time)
    requires id in m && m[id].status.Pending? && m[id].deploymentId in deps && node != NO_ID
    ensures var dep := deps[m[id].deploymentId];
            var m' := m[id := Stated(m[id], Assigned, node, NO_ID, now)];
            && id !in InstanceLoads(m, deps)
            && (dep.spec.resources.Some? ==> InstanceLoads(m', deps) == InstanceLoads(m, deps)[id := Load(node, Request(dep))])
            && (dep.spec.resources.None? ==> InstanceLoads(m', deps) == InstanceLoads(m, deps))
  {
  }

  lemma AssignmentReserves(m: Table, deps: DeploymentTable, id: Id, node: Id, now: Time, n: Id)
    requires id in m && m[id].status.Pending? && m[id].deploymentId in deps && node != NO_ID
    ensures var m' := m[id := Stated(m[id], Assigned, node, NO_ID, now)];
            Reserved(InstanceLoads(m', deps), n)
              == Plus(On(Load(node, Request(deps[m[id].deploymentId])), n), Reserved(InstanceLoads(m, deps), n))
  {
    AssignmentLoads(m, deps, id, node, now);
    ReservedInsert(InstanceLoads(m, deps), id, Load(node, Request(deps[m[id].deploymentId])), n);
  }

  lemma TurnKeepsSpecs(p: PassState, id: Id, online: set<Id>, now: Time)
    requires id in p.instances
    ensures SameSpecs(p.deployments, Turn(p, id, online, now).deployments)
  {
  }

  lemma DeductEarlier(total: Amount, more: Amount, reserved: Amount, jobs: Amount)
    ensures Minus(Minus(total, Plus(more, reserved)), jobs) == Minus(Minus(Minus(total, reserved), jobs), more)
    ensures Minus(total, ZERO) == total
  {
  }

  /** An assignment takes its request from the chosen node and from no other. */
  lemma AssignmentAvailable(m: Table, deps: DeploymentTable, id: Id, node: Id, now: Time, nodes: NodeTable,
                            jobs: map<Id, Jobs.Job>, n: Id)
    requires id in m && m[id].status.Pending? && m[id].deploymentId in deps && node != NO_ID
    ensures var m' := m[id := Stated(m[id], Assigned, node, NO_ID, now)];
            Available(nodes, m', deps, jobs, n)
              == Minus(Available(nodes, m, deps, jobs, n), On(Load(node, Request(deps[m[id].deploymentId])), n))
  {
    AssignmentReserves(m, deps, id, node, now, n);
    DeductEarlier(TotalOf(nodes, n), On(Load(node, Request(deps[m[id].deploymentId])), n),
                  Reserved(InstanceLoads(m, deps), n), Reserved(JobLoads(jobs), n));
  }

  lemma DeductedAt(caps: Caps, node: Id, req: Amount, n: Id)
    ensures At(caps[node := Minus(At(caps, node), req)], n) == Minus(At(caps, n), On(Load(node, req), n))
  {
  }

  lemma TurnKeepsExactAt(p: PassState, id: Id, online: set<Id>, now: Time, nodes: NodeTable, jobs: map<Id, Jobs.Job>, n: Id)
    requires id in p.instances && p.instances[id].status.Pending? && NO_ID !in online
    requires At(p.caps, n) == Available(nodes, p.instances, p.deployments, jobs, n)
    ensures var p' := Turn(p, id, online, now);
            At(p'.caps, n) == Available(nodes, p'.instances, p'.deployments, jobs, n)
  {
    var p' := Turn(p, id, online, now);
    var i := p.instances[id];
    TurnKeepsSpecs(p, id, online, now);
    SameSpecsSameLoads(p'.instances, p.deployments, p'.deployments);
    if i.deploymentId in p.deployments {
      var req := Request(p.deployments[i.deploymentId]);
      if EligibleNodes(p.caps, online, req) != {} {
        AssignmentAvailable(p.instances, p.deployments, id, p'.cursor, now, nodes, jobs, n);
        DeductedAt(p.caps, p'.cursor, req, n);
      }
    }
  }

  lemma TurnKeepsExact(p: PassState, id: Id, online: set<Id>, now: Time, nodes: NodeTable, jobs: map<Id, Jobs.Job>)
    requires id in p.instances && p.instances[id].status.Pending? && NO_ID !in online
    requires Exact(p, nodes, jobs)
    ensures Exact(Turn(p, id, online, now), nodes, jobs)
  {
    var p' := Turn(p, id, online, now);
    forall n ensures At(p'.caps, n) == Available(nodes, p'.instances, p'.deployments, jobs, n) {
      TurnKeepsExactAt(p, id, online, now, nodes, jobs, n);
    }
  }

  // ----- along a pass

  lemma {:induction false} TurnsKeepExact(p: PassState, k: nat, online: set<Id>, now: Time, nodes: NodeTable, jobs: map<Id, Jobs.Job>)
    requires k <= |Sorted(PendingIds(p.instances))| && NO_ID !in online
    requires Exact(p, nodes, jobs)
    ensures forall id :: id in Sorted(PendingIds(p.instances))[..k] ==> id in p.instances
    ensures Exact(Turns(p, Sorted(PendingIds(p.instances))[..k], online, now), nodes, jobs)
    decreases k
  {
    var ids := Sorted(PendingIds(p.instances));
    PendingInTable(p.instances);
    if k > 0 {
      var j := k - 1;
      TurnsKeepExact(p, j, online, now, nodes, jobs);
      StillPending(p, ids, j, online, now);
      OneTurnMore(p, ids, j, online, now);
      TurnKeepsExact(Turns(p, ids[..j], online, now), ids[j], online, now, nodes, jobs);
    }
  }

  /** The deducted cache equals a fresh computation at the end of the pass, on every node. */
  lemma CacheIsExact(p: PassState, nodes: NodeTable, jobs: map<Id, Jobs.Job>, now: Time)
    requires NO_ID !in nodes
    ensures Exact(FullPass(Started(p, nodes, jobs), nodes.Keys, now), nodes, jobs)
  {
    var start := Started(p, nodes, jobs);
    var ids := Sorted(PendingIds(start.instances));
    forall n ensures At(start.caps, n) == Available(nodes, start.instances, start.deployments, jobs, n) {
      TableIsAvailable(nodes, p.instances, p.deployments, jobs, n);
    }
    TurnsKeepExact(start, |ids|, nodes.Keys, now, nodes, jobs);
    assert ids[..|ids|] == ids;
  }

  // ----- work conservation

  ghost predicate RequestsNonNegative(deps: DeploymentTable) {
    forall d :: d in deps ==> NonNegative(Request(deps[d]))
  }

  /** A waiting instance that no online node can take. */
  ghost predicate Stuck(p: PassState, id: Id, online: set<Id>) {
    (id in p.instances && p.instances[id].status.Pending? && p.instances[id].deploymentId in p.deployments)
    ==> forall n :: n in online ==> !Fits(Request(p.deployments[p.instances[id].deploymentId]), At(p.caps, n))
  }

  lemma TurnShrinksCaps(p: PassState, id: Id, online: set<Id>, now: Time, n: Id)
    requires id in p.instances && RequestsNonNegative(p.deployments)
    ensures Fits(At(Turn(p, id, online, now).caps, n), At(p.caps, n))
    ensures RequestsNonNegative(Turn(p, id, online, now).deployments)
  {
    var p' := Turn(p, id, online, now);
    TurnKeepsSpecs(p, id, online, now);
    forall d | d in p'.deployments ensures NonNegative(Request(p'.deployments[d])) {
      assert Request(p'.deployments[d]) == Request(p.deployments[d]);
    }
  }

  lemma TurnKeepsStuck(p: PassState, id: Id, other: Id, online: set<Id>, now: Time)
    requires id in p.instances && id != other && RequestsNonNegative(p.deployments) && Stuck(p, other, online)
    ensures Stuck(Turn(p, id, online, now), other, online)
  {
    var p' := Turn(p, id, online, now);
    TurnKeepsSpecs(p, id, online, now);
    forall n | n in online ensures Fits(At(p'.caps, n), At(p.caps, n)) {
      TurnShrinksCaps(p, id, online, now, n);
    }
  }

  lemma OwnTurnSticks(p: PassState, id: Id, online: set<Id>, now: Time)
    requires id in p.instances
    ensures Stuck(Turn(p, id, online, now), id, online)
  {
    var i := p.instances[id];
    if i.deploymentId in p.deployments {
      var req := Request(p.deployments[i.deploymentId]);
      if EligibleNodes(p.caps, online, req) == {} {
        forall n | n in online ensures !Fits(req, At(p.caps, n)) {
          assert n !in EligibleNodes(p.caps, online, req);
        }
      }
    }
  }

  lemma {:induction false} TurnsLeaveStuck(p: PassState, ids: seq<Id>, id: Id, online: set<Id>, now: Time)
    requires forall x :: x in ids ==> x in p.instances
    requires RequestsNonNegative(p.deployments) && id in ids
    ensures RequestsNonNegative(Turns(p, ids, online, now).deployments)
    ensures Stuck(Turns(p, ids, online, now), id, online)
    decreases |ids|
  {
    var less, last := ids[..|ids| - 1], ids[|ids| - 1];
    TurnsKeepRequests(p, less, online, now);
    var q := Turns(p, less, online, now);
    TurnShrinksCaps(q, last, online, now, NO_ID);
    if id == last {
      OwnTurnSticks(q, id, online, now);
    } else {
      TurnsLeaveStuck(p, less, id, online, now);
      TurnKeepsStuck(q, last, id, online, now);
    }
  }

  lemma {:induction false} TurnsKeepRequests(p: PassState, ids: seq<Id>, online: set<Id>, now: Time)
    requires (forall x :: x in ids ==> x in p.instances) && RequestsNonNegative(p.deployments)
    ensures RequestsNonNegative(Turns(p, ids, online, now).deployments)
    decreases |ids|
  {
    if ids != [] {
      var less := ids[..|ids| - 1];
      TurnsKeepRequests(p, less, online, now);
      TurnShrinksCaps(Turns(p, less, online, now), ids[|ids| - 1], online, now, NO_ID);
    }
  }

  /** Work conservation: an instance still pending after the pass, with a deployment, fits on no online node
      under what is left at the end. */
  lemma WorkConserving(p: PassState, nodes: NodeTable, jobs: map<Id, Jobs.Job>, now: Time, id: Id, n: Id)
    requires NO_ID !in nodes && RequestsNonNegative(p.deployments)
    requires var q := FullPass(Started(p, nodes, jobs), nodes.Keys, now);
             id in q.instances && q.instances[id].status.Pending? && q.instances[id].deploymentId in q.deployments
    requires n in nodes
    ensures var q := FullPass(Started(p, nodes, jobs), nodes.Keys, now);
            !Fits(Request(q.deployments[q.instances[id].deploymentId]),
                  Available(nodes, q.instances, q.deployments, jobs, n))
  {
    var start := Started(p, nodes, jobs);
    var ids := Sorted(PendingIds(start.instances));
    var q := FullPass(start, nodes.Keys, now);
    PendingInTable(start.instances);
    CacheIsExact(p, nodes, jobs, now);
    SortedElements(PendingIds(start.instances));
    assert id in Elements(ids) <==> id in ids;
    if id !in ids {
      Untouched(start, ids, id, nodes.Keys, now);
    } else {
      TurnsLeaveStuck(start, ids, id, nodes.Keys, now);
    }
  }

  /** The first come, in id order: of two pending instances that ask for the same, the one with the larger id is not
      assigned while the other is left waiting. */
  lemma SmallerIdFirst(p: PassState, nodes: NodeTable, jobs: map<Id, Jobs.Job>, now: Time, a: Id, b: Id)
    requires RequestsNonNegative(p.deployments) && Less(a, b)
    requires a in p.instances && b in p.instances && p.instances[a].status == Pending && p.instances[b].status == Pending
    requires p.instances[a].deploymentId in p.deployments && p.instances[b].deploymentId in p.deployments
    requires p.deployments[p.instances[a].deploymentId].spec.resources == p.deployments[p.instances[b].deploymentId].spec.resources
    requires FullPass(Started(p, nodes, jobs), nodes.Keys, now).instances[a].status == Pending
    ensures FullPass(Started(p, nodes, jobs), nodes.Keys, now).instances[b].status == Pending
  {
    var start := Started(p, nodes, jobs);
    var ids := Sorted(PendingIds(start.instances));
    PendingInTable(start.instances);
    var i, k := Positions(PendingIds(start.instances), a, b);
    assert ids[..|ids|] == ids;
    InstanceAfterOwnTurn(start, ids, i, |ids|, nodes.Keys, now);
    InstanceAfterOwnTurn(start, ids, i, k, nodes.Keys, now);
    InstanceAfterOwnTurn(start, ids, k, |ids|, nodes.Keys, now);
    NoTurnForEqual(start, ids, i, k, nodes.Keys, now);
  }

  lemma Positions(s: set<Id>, a: Id, b: Id) returns (i: nat, k: nat)
    requires a in s && b in s && Less(a, b)
    ensures i < k < |Sorted(s)| && Sorted(s)[i] == a && Sorted(s)[k] == b
  {
    var xs := Sorted(s);
    SortedAscends(s);
    assert a in Elements(xs) && b in Elements(xs);
    i :| 0 <= i < |xs| && xs[i] == a;
    k :| 0 <= k < |xs| && xs[k] == b;
    LessAsymmetric(a, b);
  }

  /** After its own turn an instance's record is what the pass leaves. */
  lemma {:induction false} InstanceAfterOwnTurn(p: PassState, ids: seq<Id>, k: nat, m: nat, online: set<Id>, now: Time)
    requires ids == Sorted(PendingIds(p.instances)) && k < m <= |ids| && forall id :: id in ids ==> id in p.instances
    ensures Turns(p, ids[..m], online, now).instances[ids[k]] == Turns(p, ids[..k + 1], online, now).instances[ids[k]]
  {
    var own := k + 1;
    SortedDistinct(PendingIds(p.instances));
    assert ids[..m][..own] == ids[..own];
    OwnTurnStands(p, ids[..m], k, own, online, now);
  }

  lemma {:induction false} OwnTurnStands(p: PassState, ids: seq<Id>, k: nat, own: nat, online: set<Id>, now: Time)
    requires (forall i, j :: 0 <= i < j < |ids| ==> ids[i] != ids[j]) && (forall id :: id in ids ==> id in p.instances)
    requires k < own == k + 1 <= |ids|
    ensures Turns(p, ids, online, now).instances[ids[k]] == Turns(p, ids[..own], online, now).instances[ids[k]]
  {
    if own == |ids| {
      assert ids[..own] == ids;
    } else {
      var less := ids[..|ids| - 1];
      assert less[..own] == ids[..own] && less[k] == ids[k];
      OwnTurnStands(p, less, k, own, online, now);
      OtherTurn(p, ids, ids[k], online, now);
    }
  }

  /** The last turn is another instance's. */
  lemma OtherTurn(p: PassState, ids: seq<Id>, id: Id, online: set<Id>, now: Time)
    requires ids != [] && id != ids[|ids| - 1] && id in p.instances && forall x :: x in ids ==> x in p.instances
    ensures Turns(p, ids, online, now).instances[id] == Turns(p, ids[..|ids| - 1], online, now).instances[id]
  {
  }

  /** An instance that asks for what a waiting one before it asks for gets no node in its turn. */
  lemma NoTurnForEqual(p: PassState, ids: seq<Id>, i: nat, k: nat, online: set<Id>, now: Time)
    requires ids == Sorted(PendingIds(p.instances)) && i < k < |ids| && forall id :: id in ids ==> id in p.instances
    requires RequestsNonNegative(p.deployments)
    requires p.instances[ids[i]].deploymentId in p.deployments && p.instances[ids[k]].deploymentId in p.deployments
    requires Request(p.deployments[p.instances[ids[i]].deploymentId]) == Request(p.deployments[p.instances[ids[k]].deploymentId])
    requires Turns(p, ids[..k], online, now).instances[ids[i]].status == Pending
    ensures Turns(p, ids[..k + 1], online, now).instances[ids[k]].status == Pending
  {
    var q := Turns(p, ids[..k], online, now);
    StillPending(p, ids, k, online, now);
    OneTurnMore(p, ids, k, online, now);
    assert ids[i] in ids[..k];
    TurnsLeaveStuck(p, ids[..k], ids[i], online, now);
    TurnsKeepRecords(p, ids[..k], ids[i], online, now);
    assert EligibleNodes(q.caps, online, Request(q.deployments[q.instances[ids[k]].deploymentId])) == {};
  }

  lemma {:induction false} TurnsKeepRecords(p: PassState, ids: seq<Id>, id: Id, online: set<Id>, now: Time)
    requires (forall x :: x in ids ==> x in p.instances) && id in p.instances
    ensures var q := Turns(p, ids, online, now);
            q.instances[id].deploymentId == p.instances[id].deploymentId && SameSpecs(p.deployments, q.deployments)
  {
    if ids != [] {
      var less := ids[..|ids| - 1];
      TurnsKeepRecords(p, less, id, online, now);
      TurnKeepsSpecs(Turns(p, less, online, now), ids[|ids| - 1], online, now);
    }
  }

  /** A pass assigns to online nodes only, pending instances only, and nothing else of an instance changes. */
  lemma PassPlacesOnline(p: PassState, nodes: NodeTable, jobs: map<Id, Jobs.Job>, now: Time, id: Id)
    requires NO_ID !in nodes && id in p.instances
    ensures var i, i' := p.instances[id], FullPass(Started(p, OnlineNodes(nodes), jobs), OnlineNodes(nodes).Keys, now).instances[id];
            i' == i || (i.status == Pending && i'.nodeId in nodes && nodes[i'.nodeId].status == Online
                        && i' == i.(status := Assigned, nodeId := i'.nodeId))
  {
    var start := Started(p, OnlineNodes(nodes), jobs);
    var ids := Sorted(PendingIds(p.instances));
    TurnsPlace(start, |ids|, id, OnlineNodes(nodes).Keys, now);
    assert ids[..|ids|] == ids;
  }

  /** No online node has room for what is left waiting. */
  lemma WaitingFitsNowhereOnline(p: PassState, nodes: NodeTable, jobs: map<Id, Jobs.Job>, now: Time, id: Id, n: Id)
    requires NO_ID !in nodes && RequestsNonNegative(p.deployments) && n in nodes && nodes[n].status == Online
    requires var q := FullPass(Started(p, OnlineNodes(nodes), jobs), OnlineNodes(nodes).Keys, now);
             id in q.instances && q.instances[id].status == Pending && q.instances[id].deploymentId in q.deployments
    ensures var q := FullPass(Started(p, OnlineNodes(nodes), jobs), OnlineNodes(nodes).Keys, now);
            var req, left := Request(q.deployments[q.instances[id].deploymentId]),
                             Available(OnlineNodes(nodes), q.instances, q.deployments, jobs, n);
            req.cpu > left.cpu || req.mem > left.mem
  {
    WorkConserving(p, OnlineNodes(nodes), jobs, now, id, n);
  }

  /** What a turn writes about the deployment: short of capacity exactly if the instance is left waiting. */
  lemma TurnReasons(p: PassState, id: Id, online: set<Id>, now: Time)
    requires id in p.instances && p.instances[id].status == Pending && p.instances[id].deploymentId in p.deployments
    ensures var p', d := Turn(p, id, online, now), p.instances[id].deploymentId;
            && (p'.deployments[d].blockedReason == if p'.instances[id].status == Pending then "insufficient_capacity" else "")
            && p'.deployments == p.deployments[d := p.deployments[d].(blockedReason := p'.deployments[d].blockedReason)]
  {
  }

  // ----- round robin

  /** The node a turn picks, if any. */
  ghost function Picked(p: PassState, id: Id, online: set<Id>): seq<Id>
    requires id in p.instances
  {
    var i := p.instances[id];
    if i.deploymentId !in p.deployments then []
    else
      var eligible := EligibleNodes(p.caps, online, Request(p.deployments[i.deploymentId]));
      if eligible == {} then [] else [Next(eligible, p.cursor)]
  }

  ghost function Picks(p: PassState, ids: seq<Id>, online: set<Id>, now: Time): seq<Id>
    requires forall id :: id in ids ==> id in p.instances
  {
    if ids == [] then []
    else
      var less := ids[..|ids| - 1];
      Picks(p, less, online, now) + Picked(Turns(p, less, online, now), ids[|ids| - 1], online)
  }

  /** Every instance of the list that has a deployment finds the same nodes eligible at its turn. */
  ghost predicate SteadyAt(p: PassState, id: Id, online: set<Id>, eligible: set<Id>) {
    (id in p.instances && p.instances[id].deploymentId in p.deployments)
    ==> EligibleNodes(p.caps, online, Request(p.deployments[p.instances[id].deploymentId])) == eligible
  }

  ghost predicate Steady(p: PassState, ids: seq<Id>, online: set<Id>, now: Time, eligible: set<Id>)
    requires forall id :: id in ids ==> id in p.instances
  {
    forall k :: 0 <= k < |ids| ==> SteadyTurn(p, ids, k, online, now, eligible)
  }

  ghost predicate SteadyTurn(p: PassState, ids: seq<Id>, k: nat, online: set<Id>, now: Time, eligible: set<Id>)
    requires k < |ids| && forall id :: id in ids ==> id in p.instances
  {
    SteadyAt(Turns(p, ids[..k], online, now), ids[k], online, eligible)
  }

  /** While the eligible nodes stay the same, the assignments of a pass are a walk of the cursor, which ends
      where the next pass goes on. */
  lemma {:induction false} PassWalks(p: PassState, ids: seq<Id>, online: set<Id>, now: Time, eligible: set<Id>)
    requires forall id :: id in ids ==> id in p.instances
    requires eligible != {} && Steady(p, ids, online, now, eligible)
    ensures Walk(eligible, p.cursor, Picks(p, ids, online, now))
    ensures Turns(p, ids, online, now).cursor == Last(p.cursor, Picks(p, ids, online, now))
    decreases |ids|
  {
    if ids != [] {
      var m := |ids| - 1;
      var less := ids[..m];
      SteadyPrefix(p, ids, online, now, eligible);
      PassWalks(p, less, online, now, eligible);
      var q := Turns(p, less, online, now);
      assert SteadyTurn(p, ids, m, online, now, eligible);
      WalksJoin(eligible, p.cursor, Picks(p, less, online, now), Picked(q, ids[m], online));
    }
  }

  lemma SteadyPrefix(p: PassState, ids: seq<Id>, online: set<Id>, now: Time, eligible: set<Id>)
    requires forall id :: id in ids ==> id in p.instances
    requires ids != [] && Steady(p, ids, online, now, eligible)
    ensures Steady(p, ids[..|ids| - 1], online, now, eligible)
  {
    var less := ids[..|ids| - 1];
    forall k | 0 <= k < |less| ensures SteadyTurn(p, less, k, online, now, eligible) {
      assert less[..k] == ids[..k];
      assert SteadyTurn(p, ids, k, online, now, eligible);
    }
  }

  /** Fairness of a pass: over a steady set of eligible nodes no node gets two assignments more than another. */
  lemma PassIsFair(p: PassState, ids: seq<Id>, online: set<Id>, now: Time, eligible: set<Id>, x: Id, y: Id)
    requires forall id :: id in ids ==> id in p.instances
    requires Steady(p, ids, online, now, eligible) && NO_ID !in eligible && x in eligible && y in eligible
    ensures Occurs(Picks(p, ids, online, now), x) <= Occurs(Picks(p, ids, online, now), y) + 1
  {
    PassWalks(p, ids, online, now, eligible);
    RoundRobinIsFair(eligible, p.cursor, Picks(p, ids, online, now), x, y);
  }

  /** One tick's pass of the scheduler: the registries it finds, the cursor included, and the online nodes. */
  datatype Tick = Tick(start: PassState, online: set<Id>, now: Time)

  ghost function TickPicks(t: Tick): seq<Id> {
    PendingInTable(t.start.instances);
    Picks(t.start, Sorted(PendingIds(t.start.instances)), t.online, t.now)
  }

  ghost predicate SteadyTick(t: Tick, eligible: set<Id>) {
    PendingInTable(t.start.instances);
    Steady(t.start, Sorted(PendingIds(t.start.instances)), t.online, t.now, eligible)
  }

  ghost function AllPicks(ts: seq<Tick>): seq<Id> {
    if ts == [] then [] else AllPicks(ts[..|ts| - 1]) + TickPicks(ts[|ts| - 1])
  }

  /** Between ticks everything may change but the cursor. */
  ghost predicate CursorCarried(ts: seq<Tick>, cursor: Id) {
    forall k :: 0 <= k < |ts| ==> ts[k].start.cursor == CursorBefore(ts, cursor, k)
  }

  ghost function CursorBefore(ts: seq<Tick>, cursor: Id, k: nat): Id
    requires k < |ts|
  {
    if k == 0 then cursor else var t := ts[k - 1]; FullPass(t.start, t.online, t.now).cursor
  }

  lemma {:induction false} TicksWalk(ts: seq<Tick>, cursor: Id, eligible: set<Id>)
    requires eligible != {} && CursorCarried(ts, cursor)
    requires forall k :: 0 <= k < |ts| ==> SteadyTick(ts[k], eligible)
    ensures Walk(eligible, cursor, AllPicks(ts))
    ensures ts != [] ==> var t := ts[|ts| - 1]; FullPass(t.start, t.online, t.now).cursor == Last(cursor, AllPicks(ts))
    decreases |ts|
  {
    if ts != [] {
      var m := |ts| - 1;
      var less, t := ts[..m], ts[m];
      forall k | 0 <= k < m ensures less[k].start.cursor == CursorBefore(less, cursor, k) {
        assert ts[k].start.cursor == CursorBefore(ts, cursor, k);
      }
      TicksWalk(less, cursor, eligible);
      assert t.start.cursor == CursorBefore(ts, cursor, m) == Last(cursor, AllPicks(less));
      PendingInTable(t.start.instances);
      PassWalks(t.start, Sorted(PendingIds(t.start.instances)), t.online, t.now, eligible);
      WalksJoin(eligible, cursor, AllPicks(less), TickPicks(t));
    }
  }

  /** Fairness across ticks: as long as the same nodes are eligible, the assignments of any number of
      consecutive ticks are shared evenly, whatever else happens in between. */
  lemma TicksAreFair(ts: seq<Tick>, cursor: Id, eligible: set<Id>, x: Id, y: Id)
    requires CursorCarried(ts, cursor) && forall k :: 0 <= k < |ts| ==> SteadyTick(ts[k], eligible)
    requires NO_ID !in eligible && x in eligible && y in eligible
    ensures Occurs(AllPicks(ts), x) <= Occurs(AllPicks(ts), y) + 1
  {
    TicksWalk(ts, cursor, eligible);
    RoundRobinIsFair(eligible, cursor, AllPicks(ts), x, y);
  }

  // ----- the pass as a step of the control plane

  /** A pending instance handed to an online node, once. */
  ghost predicate PlacedOn(i: Instance, i': Instance, online: set<Id>, now: Time) {
    i.status.Pending? && exists n :: n in online && i' == Edited(i, Schedule(n), now)
  }

  lemma {:induction false} TurnsPlace(p: PassState, k: nat, id: Id, online: set<Id>, now: Time)
    requires k <= |Sorted(PendingIds(p.instances))| && id in p.instances
    ensures forall x :: x in Sorted(PendingIds(p.instances))[..k] ==> x in p.instances
    ensures var q := Turns(p, Sorted(PendingIds(p.instances))[..k], online, now);
            q.instances[id] == p.instances[id] || PlacedOn(p.instances[id], q.instances[id], online, now)
    decreases k
  {
    var ids := Sorted(PendingIds(p.instances));
    PendingInTable(p.instances);
    if k > 0 {
      var j := k - 1;
      TurnsPlace(p, j, id, online, now);
      StillPending(p, ids, j, online, now);
      OneTurnMore(p, ids, j, online, now);
      var q := Turns(p, ids[..j], online, now);
      var q' := Turn(q, ids[j], online, now);
      if id == ids[j] && q'.instances[id] != q.instances[id] {
        assert q'.instances[id] == Edited(p.instances[id], Schedule(q'.cursor), now);
      }
    }
  }

  lemma {:induction false} TurnsLatch(p: PassState, ids: seq<Id>, online: set<Id>, now: Time)
    requires (forall x :: x in ids ==> x in p.instances) && Deployments.WellKeyed(p.deployments)
    ensures var q := Turns(p, ids, online, now);
            SameSpecs(p.deployments, q.deployments) && TableLatched(p.deployments, q.deployments) && Deployments.WellKeyed(q.deployments)
    decreases |ids|
  {
    if ids != [] {
      var less := ids[..|ids| - 1];
      TurnsLatch(p, less, online, now);
      var q := Turns(p, less, online, now);
      TurnLatches(q, ids[|ids| - 1], online, now);
      TableLatchedTransitive(p.deployments, q.deployments, Turns(p, ids, online, now).deployments);
    }
  }

  lemma TurnLatches(p: PassState, id: Id, online: set<Id>, now: Time)
    requires id in p.instances && Deployments.WellKeyed(p.deployments)
    ensures var q := Turn(p, id, online, now);
            SameSpecs(p.deployments, q.deployments) && TableLatched(p.deployments, q.deployments) && Deployments.WellKeyed(q.deployments)
  {
  }

  /** The scheduler's pass is the schedule step of the control-plane runs. */
  lemma PassIsScheduleStep(p: PassState, nodes: NodeTable, jobs: map<Id, Jobs.Job>, now: Time, s: ControlPlane.State)
    requires NO_ID !in nodes && s.instances == p.instances && s.deployments == p.deployments && s.phase.ToSchedule?
    requires Deployments.WellKeyed(p.deployments) && SpecsValidated(p.deployments)
    ensures var q := FullPass(Started(p, nodes, jobs), nodes.Keys, now);
            ControlPlane.ScheduleStep(s, s.(instances := q.instances, deployments := q.deployments, phase := ControlPlane.ToRoute), now)
  {
    var start := Started(p, nodes, jobs);
    var ids := Sorted(PendingIds(p.instances));
    PendingInTable(p.instances);
    var q := FullPass(start, nodes.Keys, now);
    assert ids[..|ids|] == ids;
    forall id | id in p.instances
      ensures q.instances[id] == p.instances[id]
              || exists node :: Allowed(p.instances[id], Schedule(node)) && q.instances[id] == Edited(p.instances[id], Schedule(node), now)
    {
      TurnsPlace(start, |ids|, id, nodes.Keys, now);
    }
    TurnsLatch(start, ids, nodes.Keys, now);
  }
}
