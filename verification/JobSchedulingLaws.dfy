/** What a job scheduling pass guarantees, and how it looks from the job registry's runs. */
module JobSchedulingLaws {
  import opened Ids
  import Instances
  import opened Deployments
  import opened Jobs
  import JobRuns
  import opened Nodes
  import opened Capacity
  import opened RoundRobin
  import opened InstanceScheduler
  import opened JobScheduler
  import opened SchedulingLaws

  ghost predicate Requests(t: Table) {
    forall id :: id in t ==> NonNegative(JobRequest(t[id].job))
  }

  ghost predicate JobsExact(p: JobPass, nodes: NodeTable, instances: Instances.Table, deps: DeploymentTable) {
    forall n :: At(p.caps, n) == Available(nodes, instances, deps, JobsOf(p.table), n)
  }

  /** Assigning a pending job takes its request from the chosen node and from no other. */
  lemma JobTakes(nodes: NodeTable, instances: Instances.Table, deps: DeploymentTable, t: Table, id: Id, node: Id, now: Time, n: Id)
    requires id in t && t[id].job.status.Pending? && NonNegative(JobRequest(t[id].job))
    ensures var t' := t[id := Updated(t[id], SchedulerUpdate(node), now)];
            Available(nodes, instances, deps, JobsOf(t'), n)
              == Minus(Available(nodes, instances, deps, JobsOf(t), n), On(Load(node, JobRequest(t[id].job)), n))
  {
    var l, a := Load(node, JobRequest(t[id].job)), JobLoads(JobsOf(t));
    JobAssignmentLoads(t, id, node, now);
    ReservedInsert(a, id, l, n);
    DeductLater(Minus(TotalOf(nodes, n), Reserved(InstanceLoads(instances, deps), n)), Reserved(a, n), On(l, n));
  }

  /** Between its assignment and its end a job holds the same amount on the same node: claiming it moves nothing. */
  lemma JobHoldsThroughout(t: Table, id: Id, j: Job)
    requires id in t && JobRequest(j) == JobRequest(t[id].job) && j.assignedNodeId == t[id].job.assignedNodeId
    requires t[id].job.status == Assigned || t[id].job.status == Running
    requires j.status == Assigned || j.status == Running
    ensures JobLoads(JobsOf(t)[id := j]) == JobLoads(JobsOf(t))
  {
  }

  lemma JobLoadsWithout(t: Table, id: Id, j: Job)
    requires id in t && (t[id].job.status == Assigned || t[id].job.status == Running)
    requires j.status == Pending || j.status == Succeeded || j.status == Failed
    ensures var before, after := JobLoads(JobsOf(t)), JobLoads(JobsOf(t)[id := j]);
            && id !in after
            && before == if t[id].job.cpu > 0.0 || t[id].job.memoryMB > 0
                         then after[id := Load(t[id].job.assignedNodeId, JobRequest(t[id].job))] else after
  {
  }

  /** Ending it or giving it back returns exactly its request, on its node. */
  lemma JobGivesBack(nodes: NodeTable, instances: Instances.Table, deps: DeploymentTable, t: Table, id: Id, j: Job, n: Id)
    requires id in t && NonNegative(JobRequest(t[id].job)) && (t[id].job.status == Assigned || t[id].job.status == Running)
    requires j.status == Pending || j.status == Succeeded || j.status == Failed
    ensures Available(nodes, instances, deps, JobsOf(t)[id := j], n)
         == Plus(Available(nodes, instances, deps, JobsOf(t), n), On(Load(t[id].job.assignedNodeId, JobRequest(t[id].job)), n))
  {
    var l := Load(t[id].job.assignedNodeId, JobRequest(t[id].job));
    var before, after := JobLoads(JobsOf(t)), JobLoads(JobsOf(t)[id := j]);
    JobLoadsWithout(t, id, j);
    if t[id].job.cpu > 0.0 || t[id].job.memoryMB > 0 {
      ReservedInsert(after, id, l, n);
    }
    Returned(Minus(TotalOf(nodes, n), Reserved(InstanceLoads(instances, deps), n)), Reserved(before, n), Reserved(after, n), On(l, n));
  }

  lemma Returned(total: Amount, all: Amount, rest: Amount, own: Amount)
    requires all == Plus(own, rest) || (own == ZERO && all == rest)
    ensures Minus(total, rest) == Plus(Minus(total, all), own)
  {
  }

  lemma TurnKeepsRequests(p: JobPass, id: Id, online: set<Id>, now: Time)
    requires id in p.table && Requests(p.table)
    ensures Requests(JobTurn(p, id, online, now).table)
  {
  }

  lemma JobTurnKeepsExact(p: JobPass, id: Id, nodes: NodeTable, now: Time, instances: Instances.Table, deps: DeploymentTable)
    requires id in p.table && p.table[id].job.status.Pending? && Requests(p.table)
    requires JobsExact(p, nodes, instances, deps)
    ensures JobsExact(JobTurn(p, id, nodes.Keys, now), nodes, instances, deps)
  {
    var p', req := JobTurn(p, id, nodes.Keys, now), JobRequest(p.table[id].job);
    if EligibleNodes(p.caps, nodes.Keys, req) != {} {
      forall n ensures At(p'.caps, n) == Available(nodes, instances, deps, JobsOf(p'.table), n) {
        JobTakes(nodes, instances, deps, p.table, id, p'.cursor, now, n);
        DeductedAt(p.caps, p'.cursor, req, n);
      }
    }
  }

  lemma {:induction false} JobTurnsKeepExact(p: JobPass, ids: seq<Id>, k: nat, nodes: NodeTable, now: Time,
                                             instances: Instances.Table, deps: DeploymentTable)
    requires OldestFirst(ids, p.table) && k <= |ids| && Requests(p.table) && JobsExact(p, nodes, instances, deps)
    ensures forall id :: id in ids ==> id in p.table
    ensures var q := JobTurns(p, ids[..k], nodes.Keys, now); Requests(q.table) && JobsExact(q, nodes, instances, deps)
    decreases k
  {
    PendingListed(ids, p.table);
    if k > 0 {
      var j := k - 1;
      JobTurnsKeepExact(p, ids, j, nodes, now, instances, deps);
      JobStillPending(p, ids, j, nodes.Keys, now);
      OneJobMore(p, ids, j, nodes.Keys, now);
      var q := JobTurns(p, ids[..j], nodes.Keys, now);
      TurnKeepsRequests(q, ids[j], nodes.Keys, now);
      JobTurnKeepsExact(q, ids[j], nodes, now, instances, deps);
    }
  }

  /** The deducted cache of a job pass equals a fresh computation at its end. */
  lemma JobCacheIsExact(p: JobPass, t: Table, cursor: Id, online: NodeTable, instances: Instances.Table, deps: DeploymentTable,
                        order: seq<Id>, now: Time)
    requires IsJobPass(p, t, cursor, online, instances, deps, order, now) && Requests(t)
    ensures JobsExact(p, online, instances, deps)
  {
    var start := JobStarted(t, cursor, online, instances, deps);
    forall n ensures At(start.caps, n) == Available(online, instances, deps, JobsOf(start.table), n) {
      TableIsAvailable(online, instances, deps, JobsOf(t), n);
    }
    JobTurnsKeepExact(start, order, |order|, online, now, instances, deps);
    assert order[..|order|] == order;
  }

  // ----- work conservation

  ghost predicate JobStuck(p: JobPass, id: Id, online: set<Id>) {
    (id in p.table && p.table[id].job.status.Pending?)
    ==> forall n :: n in online ==> !Fits(JobRequest(p.table[id].job), At(p.caps, n))
  }

  lemma JobTurnKeepsStuck(p: JobPass, id: Id, other: Id, online: set<Id>, now: Time)
    requires id in p.table && Requests(p.table)
    requires id == other || JobStuck(p, other, online)
    ensures JobStuck(JobTurn(p, id, online, now), other, online)
  {
    var req := JobRequest(p.table[id].job);
    if EligibleNodes(p.caps, online, req) == {} {
      forall n | n in online ensures !Fits(req, At(p.caps, n)) {
        assert n !in EligibleNodes(p.caps, online, req);
      }
    } else {
      var p' := JobTurn(p, id, online, now);
      forall n | n in online ensures Fits(At(p'.caps, n), At(p.caps, n)) {
        DeductedAt(p.caps, p'.cursor, req, n);
      }
    }
  }

  lemma {:induction false} JobTurnsLeaveStuck(p: JobPass, ids: seq<Id>, id: Id, online: set<Id>, now: Time)
    requires (forall x :: x in ids ==> x in p.table) && Requests(p.table)
    ensures Requests(JobTurns(p, ids, online, now).table)
    ensures id in ids ==> JobStuck(JobTurns(p, ids, online, now), id, online)
    decreases |ids|
  {
    if ids != [] {
      var less, last := ids[..|ids| - 1], ids[|ids| - 1];
      JobTurnsLeaveStuck(p, less, id, online, now);
      var q := JobTurns(p, less, online, now);
      TurnKeepsRequests(q, last, online, now);
      assert id in ids && id != last ==> id in less;
      if id in ids {
        JobTurnKeepsStuck(q, last, id, online, now);
      }
    }
  }

  /** Work conservation for jobs, whatever order jobs of the same age come in. */
  lemma JobsWorkConserving(p: JobPass, t: Table, cursor: Id, online: NodeTable, instances: Instances.Table, deps: DeploymentTable,
                           order: seq<Id>, now: Time, id: Id, n: Id)
    requires IsJobPass(p, t, cursor, online, instances, deps, order, now) && Requests(t)
    requires id in p.table && p.table[id].job.status.Pending? && n in online
    ensures !Fits(JobRequest(p.table[id].job), Available(online, instances, deps, JobsOf(p.table), n))
  {
    var start := JobStarted(t, cursor, online, instances, deps);
    JobCacheIsExact(p, t, cursor, online, instances, deps, order, now);
    assert id in order <==> id in PendingJobs(t);
    if id in order {
      JobTurnsLeaveStuck(start, order, id, online.Keys, now);
    } else {
      NotYet(start, order, id, online.Keys, now);
    }
  }

  /** Older jobs go first: of two that ask for the same, the later in the order is not assigned while the earlier is
      left waiting. */
  lemma OlderJobFirst(p: JobPass, t: Table, cursor: Id, online: NodeTable, instances: Instances.Table, deps: DeploymentTable,
                      order: seq<Id>, now: Time, i: nat, k: nat)
    requires IsJobPass(p, t, cursor, online, instances, deps, order, now) && Requests(t) && i < k < |order|
    requires t[order[i]].job.cpu == t[order[k]].job.cpu && t[order[i]].job.memoryMB == t[order[k]].job.memoryMB
    requires order[i] in p.table && p.table[order[i]].job.status == Pending
    ensures t[order[i]].job.createdAt <= t[order[k]].job.createdAt
    ensures order[k] in p.table && p.table[order[k]].job.status == Pending
  {
    var start := JobStarted(t, cursor, online, instances, deps);
    PendingListed(order, t);
    assert order[..|order|] == order;
    JobAfterOwnTurn(start, order, i, |order|, online.Keys, now);
    JobAfterOwnTurn(start, order, i, k, online.Keys, now);
    JobAfterOwnTurn(start, order, k, |order|, online.Keys, now);
    NoTurnForEqual(start, order, i, k, online.Keys, now);
  }

  /** After its own turn a job's record is what the pass leaves. */
  lemma {:induction false} JobAfterOwnTurn(p: JobPass, order: seq<Id>, k: nat, m: nat, online: set<Id>, now: Time)
    requires OldestFirst(order, p.table) && k < m <= |order| && forall id :: id in order ==> id in p.table
    ensures JobTurns(p, order[..m], online, now).table[order[k]] == JobTurns(p, order[..k + 1], online, now).table[order[k]]
  {
    var own := k + 1;
    assert order[..m][..own] == order[..own];
    OwnTurnStands(p, order[..m], k, own, online, now);
  }

  lemma {:induction false} OwnTurnStands(p: JobPass, ids: seq<Id>, k: nat, own: nat, online: set<Id>, now: Time)
    requires (forall i, j :: 0 <= i < j < |ids| ==> ids[i] != ids[j]) && (forall id :: id in ids ==> id in p.table)
    requires k < own == k + 1 <= |ids|
    ensures JobTurns(p, ids, online, now).table[ids[k]] == JobTurns(p, ids[..own], online, now).table[ids[k]]
  {
    if own == |ids| {
      assert ids[..own] == ids;
    } else {
      var less := ids[..|ids| - 1];
      assert less[..own] == ids[..own] && less[k] == ids[k];
      OwnTurnStands(p, less, k, own, online, now);
      OtherTurn(p, ids, ids[k], online, now);
    }
  }

  /** The last turn is another job's. */
  lemma OtherTurn(p: JobPass, ids: seq<Id>, id: Id, online: set<Id>, now: Time)
    requires ids != [] && id != ids[|ids| - 1] && id in p.table && forall x :: x in ids ==> x in p.table
    ensures JobTurns(p, ids, online, now).table[id] == JobTurns(p, ids[..|ids| - 1], online, now).table[id]
  {
  }

  /** A job that asks for what a waiting one before it asks for gets no node in its turn. */
  lemma NoTurnForEqual(p: JobPass, order: seq<Id>, i: nat, k: nat, online: set<Id>, now: Time)
    requires OldestFirst(order, p.table) && Requests(p.table) && i < k < |order| && forall id :: id in order ==> id in p.table
    requires JobRequest(p.table[order[i]].job) == JobRequest(p.table[order[k]].job)
    requires JobTurns(p, order[..k], online, now).table[order[i]].job.status == Pending
    ensures JobTurns(p, order[..k + 1], online, now).table[order[k]].job.status == Pending
  {
    var q := JobTurns(p, order[..k], online, now);
    JobStillPending(p, order, k, online, now);
    OneJobMore(p, order, k, online, now);
    assert order[i] in order[..k];
    JobTurnsLeaveStuck(p, order[..k], order[i], online, now);
    JobsKeepRequests(p, order[..k], order[i], online, now);
    assert EligibleNodes(q.caps, online, JobRequest(q.table[order[k]].job)) == {};
  }

  lemma {:induction false} JobsKeepRequests(p: JobPass, ids: seq<Id>, id: Id, online: set<Id>, now: Time)
    requires (forall x :: x in ids ==> x in p.table) && id in p.table
    ensures JobRequest(JobTurns(p, ids, online, now).table[id].job) == JobRequest(p.table[id].job)
  {
    if ids != [] {
      JobsKeepRequests(p, ids[..|ids| - 1], id, online, now);
    }
  }

  // ----- round robin

  ghost function JobPicks(p: JobPass, ids: seq<Id>, online: set<Id>, now: Time): seq<Id>
    requires forall id :: id in ids ==> id in p.table
  {
    if ids == [] then []
    else
      var less := ids[..|ids| - 1];
      var q := JobTurns(p, less, online, now);
      var eligible := EligibleNodes(q.caps, online, JobRequest(q.table[ids[|ids| - 1]].job));
      JobPicks(p, less, online, now) + if eligible == {} then [] else [Next(eligible, q.cursor)]
  }

  /** At the turn of job `k` the eligible nodes are the given ones. */
  ghost predicate JobSteadyAt(p: JobPass, ids: seq<Id>, k: nat, online: set<Id>, now: Time, eligible: set<Id>)
    requires k < |ids| && forall id :: id in ids ==> id in p.table
  {
    var q := JobTurns(p, ids[..k], online, now);
    EligibleNodes(q.caps, online, JobRequest(q.table[ids[k]].job)) == eligible
  }

  /** While the eligible nodes stay the same, the assignments of a job pass are a walk of its cursor. */
  lemma {:induction false} JobPassWalks(p: JobPass, ids: seq<Id>, online: set<Id>, now: Time, eligible: set<Id>)
    requires forall id :: id in ids ==> id in p.table
    requires eligible != {} && forall k :: 0 <= k < |ids| ==> JobSteadyAt(p, ids, k, online, now, eligible)
    ensures Walk(eligible, p.cursor, JobPicks(p, ids, online, now))
    ensures JobTurns(p, ids, online, now).cursor == Last(p.cursor, JobPicks(p, ids, online, now))
    decreases |ids|
  {
    if ids != [] {
      var m := |ids| - 1;
      var less := ids[..m];
      forall k | 0 <= k < m ensures JobSteadyAt(p, less, k, online, now, eligible) {
        assert less[..k] == ids[..k];
        assert JobSteadyAt(p, ids, k, online, now, eligible);
      }
      JobPassWalks(p, less, online, now, eligible);
      assert JobSteadyAt(p, ids, m, online, now, eligible);
      var q := JobTurns(p, less, online, now);
      WalksJoin(eligible, p.cursor, JobPicks(p, less, online, now), [Next(eligible, q.cursor)]);
    }
  }

  /** Fairness of a job pass. */
  lemma JobPassIsFair(p: JobPass, ids: seq<Id>, online: set<Id>, now: Time, eligible: set<Id>, x: Id, y: Id)
    requires forall id :: id in ids ==> id in p.table
    requires forall k :: 0 <= k < |ids| ==> JobSteadyAt(p, ids, k, online, now, eligible)
    requires NO_ID !in eligible && x in eligible && y in eligible
    ensures Occurs(JobPicks(p, ids, online, now), x) <= Occurs(JobPicks(p, ids, online, now), y) + 1
  {
    JobPassWalks(p, ids, online, now, eligible);
    RoundRobinIsFair(eligible, p.cursor, JobPicks(p, ids, online, now), x, y);
  }

  /** The assigning half of one tick: the jobs it finds after recovery, the cursor included, its order and the
      online nodes. */
  datatype JobTick = JobTick(start: JobPass, order: seq<Id>, online: set<Id>, now: Time)

  ghost predicate TickListed(t: JobTick) { forall id :: id in t.order ==> id in t.start.table }

  ghost predicate SteadyJobTick(t: JobTick, eligible: set<Id>) {
    TickListed(t) && forall k :: 0 <= k < |t.order| ==> JobSteadyAt(t.start, t.order, k, t.online, t.now, eligible)
  }

  ghost function JobTickPicks(t: JobTick): seq<Id> {
    if TickListed(t) then JobPicks(t.start, t.order, t.online, t.now) else []
  }

  ghost function CursorAfter(t: JobTick): Id {
    if TickListed(t) then JobTurns(t.start, t.order, t.online, t.now).cursor else t.start.cursor
  }

  ghost function AllJobPicks(ts: seq<JobTick>): seq<Id> {
    if ts == [] then [] else AllJobPicks(ts[..|ts| - 1]) + JobTickPicks(ts[|ts| - 1])
  }

  /** Between ticks timeouts, lost nodes, reports and new jobs may change everything but the cursor. */
  ghost predicate JobCursorCarried(ts: seq<JobTick>, cursor: Id) {
    forall k :: 0 <= k < |ts| ==> ts[k].start.cursor == JobCursorBefore(ts, cursor, k)
  }

  ghost function JobCursorBefore(ts: seq<JobTick>, cursor: Id, k: nat): Id
    requires k < |ts|
  {
    if k == 0 then cursor else CursorAfter(ts[k - 1])
  }

  lemma JobCarriedPrefix(ts: seq<JobTick>, cursor: Id)
    requires ts != [] && JobCursorCarried(ts, cursor)
    ensures JobCursorCarried(ts[..|ts| - 1], cursor)
  {
    var less := ts[..|ts| - 1];
    forall k | 0 <= k < |less| ensures less[k].start.cursor == JobCursorBefore(less, cursor, k) {
      assert ts[k].start.cursor == JobCursorBefore(ts, cursor, k);
    }
  }

  /** One more tick continues the walk. */
  lemma JobTickJoins(picks: seq<Id>, t: JobTick, cursor: Id, eligible: set<Id>)
    requires eligible != {} && Walk(eligible, cursor, picks) && SteadyJobTick(t, eligible)
    requires t.start.cursor == Last(cursor, picks)
    ensures Walk(eligible, cursor, picks + JobTickPicks(t)) && CursorAfter(t) == Last(cursor, picks + JobTickPicks(t))
  {
    JobPassWalks(t.start, t.order, t.online, t.now, eligible);
    WalksJoin(eligible, cursor, picks, JobTickPicks(t));
  }

  lemma {:induction false} JobTicksWalk(ts: seq<JobTick>, cursor: Id, eligible: set<Id>)
    requires eligible != {} && JobCursorCarried(ts, cursor)
    requires forall k :: 0 <= k < |ts| ==> SteadyJobTick(ts[k], eligible)
    ensures Walk(eligible, cursor, AllJobPicks(ts))
    ensures ts != [] ==> CursorAfter(ts[|ts| - 1]) == Last(cursor, AllJobPicks(ts))
    decreases |ts|
  {
    if ts != [] {
      var m := |ts| - 1;
      var less, t := ts[..m], ts[m];
      JobCarriedPrefix(ts, cursor);
      JobTicksWalk(less, cursor, eligible);
      assert t.start.cursor == JobCursorBefore(ts, cursor, m);
      assert m > 0 ==> less[m - 1] == ts[m - 1];
      JobTickJoins(AllJobPicks(less), t, cursor, eligible);
    }
  }

  /** Fairness across ticks for jobs: as long as the same nodes are eligible, the assignments of any number of
      consecutive ticks are shared evenly, whatever recoveries happen in between. */
  lemma JobTicksAreFair(ts: seq<JobTick>, cursor: Id, eligible: set<Id>, x: Id, y: Id)
    requires JobCursorCarried(ts, cursor) && forall k :: 0 <= k < |ts| ==> SteadyJobTick(ts[k], eligible)
    requires NO_ID !in eligible && x in eligible && y in eligible
    ensures Occurs(AllJobPicks(ts), x) <= Occurs(AllJobPicks(ts), y) + 1
  {
    JobTicksWalk(ts, cursor, eligible);
    RoundRobinIsFair(eligible, cursor, AllJobPicks(ts), x, y);
  }

  // ----- the pass as operations of the registry

  /** A turn is nothing, or the one `Update` that the event log accounts for. */
  lemma TurnIsRecordedUpdate(p: JobPass, id: Id, online: set<Id>, now: Time)
    requires id in p.table && p.table[id].job.status.Pending?
    ensures var p', params := JobTurn(p, id, online, now), SchedulerUpdate(JobTurn(p, id, online, now).cursor);
            || p' == p
            || (JobRuns.ByScheduler(p.table[id].job, params) && JobRuns.Recorded(p.table[id].job, params)
                && p'.table == JobRuns.Step(p.table, JobRuns.Update(id, params, now)))
  {
    var p', params := JobTurn(p, id, online, now), SchedulerUpdate(JobTurn(p, id, online, now).cursor);
    if p' != p {
      JobRuns.StepIsMethod(p.table, JobRuns.Update(id, params, now));
    }
  }

  ghost predicate AllReplay(t: Table) {
    forall id :: id in t ==> JobRuns.Replays(t[id])
  }

  lemma {:induction false} TurnsReplay(p: JobPass, ids: seq<Id>, k: nat, online: set<Id>, now: Time)
    requires OldestFirst(ids, p.table) && k <= |ids| && AllReplay(p.table)
    ensures forall id :: id in ids ==> id in p.table
    ensures AllReplay(JobTurns(p, ids[..k], online, now).table)
    decreases k
  {
    PendingListed(ids, p.table);
    if k > 0 {
      var j := k - 1;
      TurnsReplay(p, ids, j, online, now);
      JobStillPending(p, ids, j, online, now);
      OneJobMore(p, ids, j, online, now);
      var q := JobTurns(p, ids[..j], online, now);
      var q' := JobTurn(q, ids[j], online, now);
      TurnReplays(q, ids[j], online, now);
    }
  }

  lemma TurnReplays(p: JobPass, id: Id, online: set<Id>, now: Time)
    requires id in p.table && p.table[id].job.status.Pending? && AllReplay(p.table)
    ensures AllReplay(JobTurn(p, id, online, now).table)
  {
    var p' := JobTurn(p, id, online, now);
    if p' != p {
      JobRuns.AssignedReplays(p.table[id], p'.cursor, now);
    }
  }

  lemma RecoveryReplays(t: Table, lost: set<Id>, now: Time)
    requires AllReplay(t)
    ensures AllReplay(Recovered(t, lost, now))
  {
    forall id | id in t ensures JobRuns.Replays(Recovered(t, lost, now)[id]) {
      JobRuns.StepReplays(id, t[id], JobRuns.NodeDown(t[id].job.assignedNodeId, OFFLINE_TEXT, now));
    }
  }

  /** Replay survives whole passes: if every log tells its job's state before, it does so after. */
  lemma PassReplays(p: JobPass, t: Table, cursor: Id, online: NodeTable, instances: Instances.Table, deps: DeploymentTable,
                    order: seq<Id>, now: Time, before: Table, timeout: Time, lost: set<Id>)
    requires AllReplay(before) && t == Recovered(if timeout > 0 then AllTimedOut(before, timeout, now) else before, lost, now)
    requires IsJobPass(p, t, cursor, online, instances, deps, order, now)
    ensures AllReplay(p.table)
  {
    var timedOut := if timeout > 0 then AllTimedOut(before, timeout, now) else before;
    forall id | id in timedOut ensures JobRuns.Replays(timedOut[id]) {
      JobRuns.StepReplays(id, before[id], JobRuns.Timeouts(timeout, now));
    }
    RecoveryReplays(timedOut, lost, now);
    TurnsReplay(JobStarted(t, cursor, online, instances, deps), order, |order|, online.Keys, now);
    assert order[..|order|] == order;
  }
}
