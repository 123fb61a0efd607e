/** Reservations under interleaving: scheduler passes take a capacity table, then assign against their own
    deductions, while agents claim and report and the reconciler drains and retires in between. */
module NoOvercommit {
  import opened Ids
  import opened Instances
  import opened Deployments
  import Jobs
  import JobRuns
  import opened Nodes
  import opened Capacity
  import opened InstanceScheduler
  import opened SchedulingLaws
  import opened JobScheduler
  import opened JobSchedulingLaws

  /** Of a running pass: the deducted table, and the pending instances or jobs listed and not yet tried. */
  datatype Round = Idle | Round(caps: Caps, instances: set<Id>, jobs: set<Id>)

  datatype State = State(instances: Table, deployments: DeploymentTable, jobs: Jobs.Table, round: Round)

  datatype Step =
    | Snapshot                                        // a pass computes its capacity table
    | ListPending                                     // and lists what is pending, some time later
    | AssignInstance(id: Id, node: Id, now: Time)
    | AssignJob(id: Id, node: Id, now: Time)
    | EndPass
    | NewDeployment(id: Id, record: Deployment)
    | EditDeployment(id: Id, record: Deployment)      // rollout bookkeeping, crashes, rollbacks
    | NewInstance(id: Id, app: Id, dep: Id, now: Time)
    | EditInstance(id: Id, edit: Edit, now: Time)     // agents and the reconciler
    | JobOp(op: JobRuns.Op)                           // agents, recovery, job creation

  ghost function LeftOn(s: State, nodes: NodeTable, n: Id): Amount {
    Available(nodes, s.instances, s.deployments, JobsOf(s.jobs), n)
  }

  /** A report that brings back the load of an instance whose last status the program does not know. */
  predicate Revives(i: Instance, e: Edit) {
    i.status.OtherStatus? && e.Report? && (e.status.Running? || e.status.Stopping?)
  }

  /** An edit that does not come from the scheduler and revives no load. */
  ghost predicate AgentEdit(i: Instance, e: Edit) {
    Allowed(i, e) && !e.Schedule? && !Revives(i, e)
  }

  ghost predicate Enabled(s: State, nodes: NodeTable, step: Step) {
    match step
    case Snapshot => s.round.Idle?
    case ListPending => s.round.Round? && s.round.instances == {} && s.round.jobs == {}
    case AssignInstance(id, node, _) =>
      && s.round.Round? && id in s.round.instances && node in nodes
      && id in s.instances && s.instances[id].deploymentId in s.deployments
      && Fits(Request(s.deployments[s.instances[id].deploymentId]), At(s.round.caps, node))
    case AssignJob(id, node, _) =>
      && s.round.Round? && id in s.round.jobs && node in nodes
      && id in s.jobs && Fits(JobRequest(s.jobs[id].job), At(s.round.caps, node))
    case EndPass => s.round.Round?
    case NewDeployment(id, dep) => id !in s.deployments && id != NO_ID && NonNegative(Request(dep))
    case EditDeployment(id, dep) => id in s.deployments && dep.spec == s.deployments[id].spec
    case NewInstance(id, _, dep, _) => id !in s.instances && id != NO_ID && dep in s.deployments
    case EditInstance(id, edit, _) => id in s.instances && AgentEdit(s.instances[id], edit)
    case JobOp(op) => JobRuns.Enabled(s.jobs, op) && (op.Update? ==> Weightless(s.jobs, op.id))
  }

  /** An operator may patch a job at will as long as it holds no capacity, which is so for every job the
      registry creates. */
  predicate Weightless(t: Jobs.Table, id: Id) {
    id in t ==> t[id].job.cpu == 0.0 && t[id].job.memoryMB == 0
  }

  function Taken(caps: Caps, node: Id, req: Amount): Caps { caps[node := Minus(At(caps, node), req)] }

  ghost function InstanceAssigned(s: State, id: Id, node: Id, now: Time): State
    requires s.round.Round? && id in s.instances && s.instances[id].deploymentId in s.deployments
  {
    var req := Request(s.deployments[s.instances[id].deploymentId]);
    var tried := s.round.(instances := s.round.instances - {id});
    if Terminal(s.instances[id].status) then s.(round := tried)
    else s.(instances := s.instances[id := Stated(s.instances[id], Assigned, node, NO_ID, now)],
            round := tried.(caps := Taken(s.round.caps, node, req)))
  }

  ghost function JobAssigned(s: State, id: Id, node: Id, now: Time): State
    requires s.round.Round? && id in s.jobs
  {
    var e := s.jobs[id];
    var tried := s.round.(jobs := s.round.jobs - {id});
    var t := s.jobs[id := Jobs.Updated(e, SchedulerUpdate(node), now)];
    if Jobs.UpdateOk(e.job, SchedulerUpdate(node))
    then s.(jobs := t, round := tried.(caps := Taken(s.round.caps, node, JobRequest(e.job))))
    else s.(jobs := t, round := tried)
  }

  ghost function Next(s: State, nodes: NodeTable, step: Step): State
    requires Enabled(s, nodes, step)
  {
    match step
    case Snapshot => s.(round := Round(CapacityTable(nodes, s.instances, s.deployments, JobsOf(s.jobs)), {}, {}))
    case ListPending =>
      s.(round := s.round.(instances := PendingIds(s.instances),
                           jobs := set id | id in s.jobs && s.jobs[id].job.status.Pending?))
    case AssignInstance(id, node, now) => InstanceAssigned(s, id, node, now)
    case AssignJob(id, node, now) => JobAssigned(s, id, node, now)
    case EndPass => s.(round := Idle)
    case NewDeployment(id, dep) => s.(deployments := s.deployments[id := dep])
    case EditDeployment(id, dep) => s.(deployments := s.deployments[id := dep])
    case NewInstance(id, app, dep, now) => s.(instances := s.instances[id := Instances.NewInstance(id, app, dep, now)])
    case EditInstance(id, edit, now) => s.(instances := s.instances[id := Edited(s.instances[id], edit, now)])
    case JobOp(op) => s.(jobs := JobRuns.Step(s.jobs, op))
  }

  // ----- invariant

  ghost predicate Sane(s: State) {
    && AllLifecycle(s.instances)
    && RequestsNonNegative(s.deployments)
    && (forall id :: id in s.instances ==> s.instances[id].deploymentId in s.deployments)
    && (forall id :: id in s.jobs ==> NonNegative(JobRequest(s.jobs[id].job)))
  }

  /** What a pass has listed has not been touched by anybody else, or is over. */
  ghost predicate ListedWaits(s: State) {
    s.round.Round? ==>
      && (forall id :: id in s.round.instances ==>
            id in s.instances && (s.instances[id].status.Pending? || Terminal(s.instances[id].status)))
      && (forall id :: id in s.round.jobs ==> id in s.jobs && (s.jobs[id].job.status.Pending? || Weightless(s.jobs, id)))
  }

  /** Nothing is overcommitted, and a running pass never believes in more than there is. */
  ghost predicate Covered(s: State, nodes: NodeTable) {
    forall n :: n in nodes ==> CoveredOn(s, nodes, n)
  }

  ghost predicate CoveredOn(s: State, nodes: NodeTable, n: Id) {
    NonNegative(LeftOn(s, nodes, n)) && (s.round.Round? ==> Fits(At(s.round.caps, n), LeftOn(s, nodes, n)))
  }

  ghost predicate Inv(s: State, nodes: NodeTable) {
    Sane(s) && ListedWaits(s) && Covered(s, nodes)
  }

  // ----- who can take capacity

  /** Outside the scheduler, the only way to start holding capacity is a report of RUNNING or STOPPING for an
      instance whose last report was a status the program does not know. */
  lemma OnlyUnknownStatusesRevive(i: Instance, e: Edit, now: Time)
    requires Lifecycle(i) && Allowed(i, e) && !e.Schedule?
    ensures !InstanceConsumes(i.status) && InstanceConsumes(Edited(i, e, now).status)
            <==> Revives(i, e)
  {
  }

  /** Loads that are a part of what they were. */
  ghost predicate Part(fewer: Loads, more: Loads) {
    forall id :: id in fewer ==> id in more && more[id] == fewer[id]
  }

  /** A change that only gives capacity back. */
  ghost predicate OnlyReleases(s: State, s': State) {
    && Part(InstanceLoads(s'.instances, s'.deployments), InstanceLoads(s.instances, s.deployments))
    && Part(JobLoads(JobsOf(s'.jobs)), JobLoads(JobsOf(s.jobs)))
    && s'.round == s.round
  }

  lemma LoadsNonNegative(s: State)
    requires Sane(s)
    ensures forall id :: id in InstanceLoads(s.instances, s.deployments)
              ==> NonNegative(InstanceLoads(s.instances, s.deployments)[id].amount)
    ensures forall id :: id in JobLoads(JobsOf(s.jobs)) ==> NonNegative(JobLoads(JobsOf(s.jobs))[id].amount)
  {
  }

  lemma LessReservedLeavesMore(total: Amount, a: Amount, a': Amount, b: Amount, b': Amount)
    requires Fits(a', a) && Fits(b', b)
    ensures Fits(Minus(Minus(total, a), b), Minus(Minus(total, a'), b'))
  {
  }

  lemma ReleasesCover(s: State, s': State, nodes: NodeTable)
    requires Sane(s) && Covered(s, nodes) && OnlyReleases(s, s')
    ensures Covered(s', nodes)
  {
    LoadsNonNegative(s);
    forall n | n in nodes ensures CoveredOn(s', nodes, n) {
      assert CoveredOn(s, nodes, n);
      var a, a' := InstanceLoads(s.instances, s.deployments), InstanceLoads(s'.instances, s'.deployments);
      var b, b' := JobLoads(JobsOf(s.jobs)), JobLoads(JobsOf(s'.jobs));
      ReservedShrinks(a', a, n);
      ReservedShrinks(b', b, n);
      LessReservedLeavesMore(TotalOf(nodes, n), Reserved(a, n), Reserved(a', n), Reserved(b, n), Reserved(b', n));
    }
  }

  // ----- step by step

  lemma SnapshotCovers(s: State, nodes: NodeTable)
    requires Covered(s, nodes) && s.round.Idle?
    ensures Covered(Next(s, nodes, Snapshot), nodes)
  {
    var s' := Next(s, nodes, Snapshot);
    forall n | n in nodes ensures CoveredOn(s', nodes, n) {
      assert CoveredOn(s, nodes, n);
      TableIsAvailable(nodes, s.instances, s.deployments, JobsOf(s.jobs), n);
    }
  }

  /** Taking a request that fits the table from both the table and the node. */
  lemma TakenCovers(s: State, s': State, nodes: NodeTable, node: Id, req: Amount)
    requires Covered(s, nodes) && s.round.Round? && s'.round.Round?
    requires node in nodes && Fits(req, At(s.round.caps, node)) && s'.round.caps == Taken(s.round.caps, node, req)
    requires forall n :: n in nodes ==> LeftOn(s', nodes, n) == Minus(LeftOn(s, nodes, n), On(Load(node, req), n))
    ensures Covered(s', nodes)
  {
    forall n | n in nodes ensures CoveredOn(s', nodes, n) {
      assert CoveredOn(s, nodes, n) && CoveredOn(s, nodes, node);
      DeductedAt(s.round.caps, node, req, n);
      TakingKeepsRoom(LeftOn(s, nodes, n), At(s.round.caps, n), On(Load(node, req), n));
    }
  }

  lemma TakingKeepsRoom(left: Amount, cached: Amount, req: Amount)
    requires NonNegative(left) && Fits(cached, left) && (req == ZERO || Fits(req, cached))
    ensures NonNegative(Minus(left, req)) && Fits(Minus(cached, req), Minus(left, req))
  {
  }

  lemma AssignInstanceCovers(s: State, nodes: NodeTable, id: Id, node: Id, now: Time)
    requires Inv(s, nodes) && NO_ID !in nodes && Enabled(s, nodes, AssignInstance(id, node, now))
    ensures Covered(Next(s, nodes, AssignInstance(id, node, now)), nodes)
  {
    if s.instances[id].status.Pending? {
      AssignPendingCovers(s, nodes, id, node, now);
    } else {
      TriedCovers(s, InstanceAssigned(s, id, node, now), nodes);
    }
  }

  /** Crossing something off the list changes no amount. */
  lemma TriedCovers(s: State, s': State, nodes: NodeTable)
    requires Covered(s, nodes) && s.round.Round? && s'.round.Round? && s'.round.caps == s.round.caps
    requires s'.instances == s.instances && s'.deployments == s.deployments && s'.jobs == s.jobs
    ensures Covered(s', nodes)
  {
    forall n | n in nodes ensures CoveredOn(s', nodes, n) {
      assert CoveredOn(s, nodes, n);
    }
  }

  lemma AssignPendingCovers(s: State, nodes: NodeTable, id: Id, node: Id, now: Time)
    requires Covered(s, nodes) && NO_ID !in nodes && s.round.Round? && node in nodes
    requires id in s.instances && s.instances[id].status.Pending? && s.instances[id].deploymentId in s.deployments
    requires Fits(Request(s.deployments[s.instances[id].deploymentId]), At(s.round.caps, node))
    ensures Covered(InstanceAssigned(s, id, node, now), nodes)
  {
    var s', req := InstanceAssigned(s, id, node, now), Request(s.deployments[s.instances[id].deploymentId]);
    forall n | n in nodes ensures LeftOn(s', nodes, n) == Minus(LeftOn(s, nodes, n), On(Load(node, req), n)) {
      AssignmentAvailable(s.instances, s.deployments, id, node, now, nodes, JobsOf(s.jobs), n);
    }
    TakenCovers(s, s', nodes, node, req);
  }

  lemma AssignPendingJobCovers(s: State, nodes: NodeTable, id: Id, node: Id, now: Time)
    requires Covered(s, nodes) && s.round.Round? && id in s.jobs && node in nodes
    requires s.jobs[id].job.status.Pending? && NonNegative(JobRequest(s.jobs[id].job))
    requires Fits(JobRequest(s.jobs[id].job), At(s.round.caps, node))
    ensures Covered(JobAssigned(s, id, node, now), nodes)
  {
    var s', req := JobAssigned(s, id, node, now), JobRequest(s.jobs[id].job);
    assert s'.round.caps == Taken(s.round.caps, node, req);
    forall n | n in nodes ensures LeftOn(s', nodes, n) == Minus(LeftOn(s, nodes, n), On(Load(node, req), n)) {
      JobTakes(nodes, s.instances, s.deployments, s.jobs, id, node, now, n);
    }
    TakenCovers(s, s', nodes, node, req);
  }

  lemma WeightlessLoads(t: Jobs.Table, id: Id, e: Jobs.Entry)
    requires id in t && Weightless(t, id) && e.job.cpu == t[id].job.cpu && e.job.memoryMB == t[id].job.memoryMB
    ensures JobLoads(JobsOf(t[id := e])) == JobLoads(JobsOf(t))
  {
    assert JobsOf(t[id := e]) == JobsOf(t)[id := e.job];
  }

  lemma AssignJobCovers(s: State, nodes: NodeTable, id: Id, node: Id, now: Time)
    requires Inv(s, nodes) && Enabled(s, nodes, AssignJob(id, node, now))
    ensures Covered(Next(s, nodes, AssignJob(id, node, now)), nodes)
  {
    if s.jobs[id].job.status.Pending? {
      AssignPendingJobCovers(s, nodes, id, node, now);
    } else {
      AssignWeightlessCovers(s, nodes, id, node, now);
    }
  }

  lemma AssignWeightlessCovers(s: State, nodes: NodeTable, id: Id, node: Id, now: Time)
    requires Covered(s, nodes) && s.round.Round? && id in s.jobs && Weightless(s.jobs, id)
    ensures Covered(JobAssigned(s, id, node, now), nodes)
  {
    var e := Jobs.Updated(s.jobs[id], SchedulerUpdate(node), now);
    UpdateKeepsRequest(s.jobs[id], SchedulerUpdate(node), now);
    WeightlessLoads(s.jobs, id, e);
    WeightlessJobCovers(s, JobAssigned(s, id, node, now), nodes, node);
  }

  lemma UpdateKeepsRequest(e: Jobs.Entry, p: Jobs.UpdateParams, now: Time)
    ensures JobRequest(Jobs.Updated(e, p, now).job) == JobRequest(e.job)
  {
  }

  lemma WeightlessJobCovers(s: State, s': State, nodes: NodeTable, node: Id)
    requires Covered(s, nodes) && s.round.Round? && s'.round.Round?
    requires s'.instances == s.instances && s'.deployments == s.deployments
    requires s'.round.caps == s.round.caps || s'.round.caps == Taken(s.round.caps, node, ZERO)
    requires JobLoads(JobsOf(s'.jobs)) == JobLoads(JobsOf(s.jobs))
    ensures Covered(s', nodes)
  {
    forall n | n in nodes ensures CoveredOn(s', nodes, n) {
      assert CoveredOn(s, nodes, n);
    }
  }

  lemma EditReleases(s: State, nodes: NodeTable, id: Id, edit: Edit, now: Time)
    requires Sane(s) && Enabled(s, nodes, EditInstance(id, edit, now))
    ensures OnlyReleases(s, Next(s, nodes, EditInstance(id, edit, now)))
  {
    var i, i' := s.instances[id], Edited(s.instances[id], edit, now);
    EditHolds(i, edit, now);
    var m, m' := s.instances, s.instances[id := i'];
    forall x | x in InstanceLoads(m', s.deployments)
      ensures x in InstanceLoads(m, s.deployments) && InstanceLoads(m, s.deployments)[x] == InstanceLoads(m', s.deployments)[x]
    {
    }
  }

  /** What an instance still holds after an edit, it held before, on the same node. */
  lemma EditHolds(i: Instance, e: Edit, now: Time)
    requires Lifecycle(i) && AgentEdit(i, e)
    ensures var i' := Edited(i, e, now);
            i'.deploymentId == i.deploymentId
            && (InstanceConsumes(i'.status) ==> InstanceConsumes(i.status) && i'.nodeId == i.nodeId)
  {
    OnlyUnknownStatusesRevive(i, e, now);
  }

  lemma JobOpReleases(s: State, nodes: NodeTable, op: JobRuns.Op)
    requires Sane(s) && Enabled(s, nodes, JobOp(op))
    ensures OnlyReleases(s, Next(s, nodes, JobOp(op)))
  {
    var t, t' := JobsOf(s.jobs), JobsOf(JobRuns.Step(s.jobs, op));
    forall id | id in JobLoads(t') ensures id in JobLoads(t) && JobLoads(t)[id] == JobLoads(t')[id] {
      JobRuns.StepAt(s.jobs, op, id);
      if id in s.jobs {
        JobOpHolds(id, s.jobs[id], op);
      }
    }
  }

  /** What a job still holds after an operation, it held before, on the same node. */
  lemma JobOpHolds(id: Id, e: Jobs.Entry, op: JobRuns.Op)
    requires op.Update? && op.id == id ==> JobRequest(e.job) == ZERO
    ensures var j := JobRuns.EntryStep(id, e, op).job;
            JobRequest(j) == JobRequest(e.job)
            && (JobLoaded(j) ==> JobLoaded(e.job) && j.assignedNodeId == e.job.assignedNodeId)
  {
  }

  /** Creating deployments and instances reserves nothing. */
  lemma CreationReleases(s: State, nodes: NodeTable, step: Step)
    requires Sane(s) && Enabled(s, nodes, step) && (step.NewDeployment? || step.NewInstance?)
    ensures OnlyReleases(s, Next(s, nodes, step))
  {
    var s' := Next(s, nodes, step);
    forall id | id in s'.instances && InstanceLoaded(s'.instances[id], s'.deployments)
      ensures id in s.instances && s'.instances[id] == s.instances[id] && InstanceLoaded(s.instances[id], s.deployments)
           && s'.deployments[s.instances[id].deploymentId] == s.deployments[s.instances[id].deploymentId]
    {
    }
  }

  /** A deployment's spec is what counts, and no edit changes it. */
  lemma BookkeepingReleases(s: State, id: Id, dep: Deployment)
    requires Sane(s) && id in s.deployments && dep.spec == s.deployments[id].spec
    ensures var s' := s.(deployments := s.deployments[id := dep]);
            OnlyReleases(s, s') && Sane(s') && (ListedWaits(s) ==> ListedWaits(s'))
  {
    var deps' := s.deployments[id := dep];
    SameSpecsSameLoads(s.instances, s.deployments, deps');
    forall d | d in deps' ensures NonNegative(Request(deps'[d])) {
      assert Request(deps'[d]) == Request(s.deployments[d]);
    }
  }

  lemma AssignmentKeepsSane(s: State, id: Id, node: Id, now: Time)
    requires Sane(s) && ListedWaits(s) && s.round.Round? && id in s.round.instances && node != NO_ID && id in s.instances
    ensures var s' := InstanceAssigned(s, id, node, now); Sane(s') && ListedWaits(s')
  {
  }

  lemma CreationKeepsSane(s: State, nodes: NodeTable, step: Step)
    requires Sane(s) && ListedWaits(s) && Enabled(s, nodes, step) && step.NewInstance?
    ensures Sane(Next(s, nodes, step)) && ListedWaits(Next(s, nodes, step))
  {
  }

  lemma EditsKeepSane(s: State, nodes: NodeTable, id: Id, edit: Edit, now: Time)
    requires Sane(s) && ListedWaits(s) && Enabled(s, nodes, EditInstance(id, edit, now))
    ensures var s' := Next(s, nodes, EditInstance(id, edit, now)); Sane(s') && ListedWaits(s')
  {
    EditKeepsLifecycle(s.instances[id], edit, now);
    PendingStaysOrEnds(s.instances[id], edit, now);
    TerminalStays(s.instances[id], Edited(s.instances[id], edit, now));
    ReplacementKeepsSane(s, id, Edited(s.instances[id], edit, now));
  }

  lemma ReplacementKeepsSane(s: State, id: Id, i: Instance)
    requires Sane(s) && ListedWaits(s) && id in s.instances
    requires i.id == id && Lifecycle(i) && i.deploymentId == s.instances[id].deploymentId
    requires s.instances[id].status.Pending? || Terminal(s.instances[id].status) ==> i.status.Pending? || Terminal(i.status)
    ensures var s' := s.(instances := s.instances[id := i]); Sane(s') && ListedWaits(s')
  {
  }

  lemma TerminalStays(i: Instance, i': Instance)
    requires Evolves(i, i')
    ensures Terminal(i.status) ==> Terminal(i'.status)
    ensures i'.id == i.id && i'.deploymentId == i.deploymentId
  {
  }

  /** Nobody but the scheduler gets a pending instance to work. */
  lemma PendingStaysOrEnds(i: Instance, e: Edit, now: Time)
    requires Lifecycle(i) && AgentEdit(i, e)
    ensures var i' := Edited(i, e, now);
            && (i.status.Pending? ==> i'.status.Pending? || Terminal(i'.status))
            && i'.deploymentId == i.deploymentId
  {
  }

  lemma JobAssignmentKeepsSane(s: State, id: Id, node: Id, now: Time)
    requires Sane(s) && ListedWaits(s) && s.round.Round? && id in s.jobs
    ensures var s' := JobAssigned(s, id, node, now); Sane(s') && ListedWaits(s')
  {
    UpdateKeepsRequest(s.jobs[id], SchedulerUpdate(node), now);
  }

  lemma JobOpKeepsSane(s: State, nodes: NodeTable, op: JobRuns.Op)
    requires Sane(s) && ListedWaits(s) && Enabled(s, nodes, JobOp(op))
    ensures Sane(Next(s, nodes, JobOp(op))) && ListedWaits(Next(s, nodes, JobOp(op)))
  {
    var s' := Next(s, nodes, JobOp(op));
    forall id | id in s'.jobs
      ensures NonNegative(JobRequest(s'.jobs[id].job))
      ensures id in s.jobs && (s.jobs[id].job.status.Pending? || Weightless(s.jobs, id))
              ==> s'.jobs[id].job.status.Pending? || Weightless(s'.jobs, id)
    {
      JobRuns.StepAt(s.jobs, op, id);
    }
  }

  lemma StepKeepsSane(s: State, nodes: NodeTable, step: Step)
    requires Sane(s) && ListedWaits(s) && NO_ID !in nodes && Enabled(s, nodes, step)
    ensures Sane(Next(s, nodes, step)) && ListedWaits(Next(s, nodes, step))
  {
    if step.AssignInstance? {
      AssignmentKeepsSane(s, step.id, step.node, step.now);
    } else if step.NewInstance? {
      CreationKeepsSane(s, nodes, step);
    } else if step.EditInstance? {
      EditsKeepSane(s, nodes, step.id, step.edit, step.now);
    } else if step.AssignJob? {
      JobAssignmentKeepsSane(s, step.id, step.node, step.now);
    } else if step.JobOp? {
      JobOpKeepsSane(s, nodes, step.op);
    } else if step.EditDeployment? {
      BookkeepingReleases(s, step.id, step.record);
    }
  }

  lemma BookkeepingCovers(s: State, nodes: NodeTable, step: Step)
    requires Covered(s, nodes) && Enabled(s, nodes, step) && (step.ListPending? || step.EndPass?)
    ensures Covered(Next(s, nodes, step), nodes)
  {
    forall n | n in nodes ensures CoveredOn(Next(s, nodes, step), nodes, n) {
      assert CoveredOn(s, nodes, n);
    }
  }

  lemma StepKeepsCovered(s: State, nodes: NodeTable, step: Step)
    requires Inv(s, nodes) && NO_ID !in nodes && Enabled(s, nodes, step)
    ensures Covered(Next(s, nodes, step), nodes)
  {
    match step
    case Snapshot => SnapshotCovers(s, nodes);
    case ListPending => BookkeepingCovers(s, nodes, step);
    case EndPass => BookkeepingCovers(s, nodes, step);
    case AssignInstance(id, node, now) => AssignInstanceCovers(s, nodes, id, node, now);
    case AssignJob(id, node, now) => AssignJobCovers(s, nodes, id, node, now);
    case EditInstance(id, edit, now) =>
      EditReleases(s, nodes, id, edit, now);
      ReleasesCover(s, Next(s, nodes, step), nodes);
    case JobOp(op) =>
      JobOpReleases(s, nodes, op);
      ReleasesCover(s, Next(s, nodes, step), nodes);
    case EditDeployment(id, dep) =>
      BookkeepingReleases(s, id, dep);
      ReleasesCover(s, Next(s, nodes, step), nodes);
    case NewDeployment(_, _) =>
      CreationReleases(s, nodes, step);
      ReleasesCover(s, Next(s, nodes, step), nodes);
    case NewInstance(_, _, _, _) =>
      CreationReleases(s, nodes, step);
      ReleasesCover(s, Next(s, nodes, step), nodes);
  }

  ghost predicate IsRun(run: seq<State>, steps: seq<Step>, nodes: NodeTable) {
    && |run| == |steps| + 1
    && Inv(run[0], nodes)
    && forall k :: 0 <= k < |steps| ==> Moves(run, steps, nodes, k)
  }

  ghost predicate Moves(run: seq<State>, steps: seq<Step>, nodes: NodeTable, k: nat)
    requires |run| == |steps| + 1 && k < |steps|
  {
    Enabled(run[k], nodes, steps[k]) && run[k + 1] == Next(run[k], nodes, steps[k])
  }

  /** A control plane that has just started, with nodes of any size. */
  lemma EmptyStart(nodes: NodeTable)
    requires forall n :: n in nodes ==> nodes[n].cpuCores >= 0
    ensures Inv(State(map[], map[], map[], Idle), nodes)
  {
    var s := State(map[], map[], map[], Idle);
    assert InstanceLoads(s.instances, s.deployments) == map[] && JobLoads(JobsOf(s.jobs)) == map[];
    forall n | n in nodes ensures CoveredOn(s, nodes, n) {
      assert Total(nodes[n]).mem >= 0;
    }
  }

  /** No overcommit: in every run, whatever agents do between the snapshot and each assignment, what is reserved
      on a node never exceeds its capacity. */
  lemma {:induction false} NeverOvercommitted(run: seq<State>, steps: seq<Step>, nodes: NodeTable, k: nat)
    requires IsRun(run, steps, nodes) && NO_ID !in nodes && k < |run|
    ensures Inv(run[k], nodes)
    ensures forall n :: n in nodes ==> NonNegative(LeftOn(run[k], nodes, n))
  {
    if k > 0 {
      var j := k - 1;
      NeverOvercommitted(run, steps, nodes, j);
      assert Moves(run, steps, nodes, j);
      StepKeepsSane(run[j], nodes, steps[j]);
      StepKeepsCovered(run[j], nodes, steps[j]);
    }
    forall n | n in nodes ensures NonNegative(LeftOn(run[k], nodes, n)) {
      assert CoveredOn(run[k], nodes, n);
    }
  }

  /** A turn of the instance scheduler that finds a node is an enabled assignment of this machine, followed by
      bookkeeping on the deployment. */
  lemma TurnIsAssignment(s: State, nodes: NodeTable, cursor: Id, id: Id, now: Time)
    requires s.round.Round? && id in s.round.instances && id in s.instances
    requires s.instances[id].status.Pending? && s.instances[id].deploymentId in s.deployments
    requires EligibleNodes(s.round.caps, nodes.Keys, Request(s.deployments[s.instances[id].deploymentId])) != {}
    ensures var p := Turn(PassState(s.instances, s.deployments, s.round.caps, cursor), id, nodes.Keys, now);
            var step := AssignInstance(id, p.cursor, now);
            && Enabled(s, nodes, step)
            && Next(s, nodes, step).instances == p.instances && Next(s, nodes, step).round.caps == p.caps
            && SameSpecs(s.deployments, p.deployments)
  {
    TurnKeepsSpecs(PassState(s.instances, s.deployments, s.round.caps, cursor), id, nodes.Keys, now);
  }

  /** And so is a turn of the job scheduler. */
  lemma JobTurnIsAssignment(s: State, nodes: NodeTable, cursor: Id, id: Id, now: Time)
    requires s.round.Round? && id in s.round.jobs && id in s.jobs && s.jobs[id].job.status.Pending?
    requires EligibleNodes(s.round.caps, nodes.Keys, JobRequest(s.jobs[id].job)) != {}
    ensures var p := JobTurn(JobPass(s.jobs, s.round.caps, cursor), id, nodes.Keys, now);
            var step := AssignJob(id, p.cursor, now);
            && Enabled(s, nodes, step)
            && Next(s, nodes, step).jobs == p.table && Next(s, nodes, step).round.caps == p.caps
  {
  }

  // ----- what a reviving report can do

  const KNOWN_NAMES: set<string> := {"PENDING", "ASSIGNED", "STARTING", "RUNNING", "STOPPING", "CRASHED", "STOPPED", "UNKNOWN"}

  /** A status string the handler accepts and the program does not know. */
  predicate UnknownName(name: string) { name != "" && name !in KNOWN_NAMES }

  /** The table after an agent reports RUNNING instance `a` under a name the program does not know, the
      scheduler places `b` beside it, and the agent reports `a` RUNNING again. */
  function Resumed(m: Table, a: Id, b: Id, name: string, health: Health, now: Time): (Table, Table, Table)
    requires a in m && b in m
  {
    var m1 := m[a := Edited(m[a], Report(m[a].nodeId, m[a].executionId, OtherStatus(name), health, NO_ID, []), now)];
    var m2 := m1[b := Stated(m1[b], Assigned, m[a].nodeId, NO_ID, now)];
    var m3 := m2[a := Edited(m2[a], Report(m[a].nodeId, m[a].executionId, Running, health, NO_ID, []), now)];
    (m1, m2, m3)
  }

  /** Both reports are accepted; the first makes the node look as free as if `a` were gone, so that the scheduler
      counts it eligible for `b` exactly if `b` fits there; and the node ends within its capacity exactly if `b`
      had fitted beside `a` from the start. */
  lemma UnknownNameOvercommits(m: Table, deps: DeploymentTable, a: Id, b: Id, name: string, health: Health, now: Time,
                               nodes: NodeTable, jobs: map<Id, Jobs.Job>)
    requires a in m && b in m && Lifecycle(m[a]) && m[a].status.Running? && m[b].status.Pending? && UnknownName(name)
    requires m[a].deploymentId in deps && m[b].deploymentId in deps && m[a].nodeId in nodes
    ensures var (m1, m2, m3) := Resumed(m, a, b, name, health, now);
            var n, left, need := m[a].nodeId, Available(nodes, m, deps, jobs, m[a].nodeId), Request(deps[m[b].deploymentId]);
            && Allowed(m[a], Report(n, m[a].executionId, OtherStatus(name), health, NO_ID, []))
            && Allowed(m2[a], Report(n, m[a].executionId, Running, health, NO_ID, []))
            && Available(nodes, m1, deps, jobs, n) == Plus(left, Request(deps[m[a].deploymentId]))
            && (n in EligibleNodes(CapacityTable(nodes, m1, deps, jobs), nodes.Keys, need)
                <==> Fits(need, Plus(left, Request(deps[m[a].deploymentId]))))
            && (NonNegative(Available(nodes, m3, deps, jobs, n)) <==> Fits(need, left))
  {
    var n := m[a].nodeId;
    var (m1, m2, m3) := Resumed(m, a, b, name, health, now);
    ResumedLoads(m, deps, a, b, name, health, now);
    AssignmentAvailable(m, deps, b, n, now, nodes, jobs, n);
    PausedAvailable(m, m1[a], deps, a, nodes, jobs);
    TableIsAvailable(nodes, m1, deps, jobs, n);
  }

  /** What a node has left once one of its instances stops counting. */
  lemma PausedAvailable(m: Table, i: Instance, deps: DeploymentTable, a: Id, nodes: NodeTable, jobs: map<Id, Jobs.Job>)
    requires a in m && InstanceConsumes(m[a].status) && !InstanceConsumes(i.status) && m[a].deploymentId in deps
    ensures var n, req := m[a].nodeId, Request(deps[m[a].deploymentId]);
            Available(nodes, m[a := i], deps, jobs, n) == Plus(Available(nodes, m, deps, jobs, n), req)
  {
    var n, dep := m[a].nodeId, deps[m[a].deploymentId];
    var loads, without := InstanceLoads(m, deps), InstanceLoads(m[a := i], deps);
    PausedLoads(m, i, deps, a);
    if dep.spec.resources.Some? {
      ReservedInsert(without, a, Load(n, Request(dep)), n);
      assert Reserved(loads, n) == Plus(Request(dep), Reserved(without, n));
    } else {
      assert Reserved(loads, n) == Reserved(without, n) && Request(dep) == ZERO;
    }
    GivenBack(TotalOf(nodes, n), Request(dep), Reserved(without, n), Reserved(loads, n), Reserved(JobLoads(jobs), n));
  }

  lemma PausedLoads(m: Table, i: Instance, deps: DeploymentTable, a: Id)
    requires a in m && InstanceConsumes(m[a].status) && !InstanceConsumes(i.status) && m[a].deploymentId in deps
    ensures var dep := deps[m[a].deploymentId];
            && a !in InstanceLoads(m[a := i], deps)
            && (dep.spec.resources.Some? ==>
                  InstanceLoads(m, deps) == InstanceLoads(m[a := i], deps)[a := Load(m[a].nodeId, Request(dep))])
            && (dep.spec.resources.None? ==> InstanceLoads(m, deps) == InstanceLoads(m[a := i], deps))
  {
  }

  lemma GivenBack(total: Amount, own: Amount, others: Amount, all: Amount, jobs: Amount)
    requires all == Plus(own, others) || (own == ZERO && all == others)
    ensures Minus(Minus(total, others), jobs) == Plus(Minus(Minus(total, all), jobs), own)
  {
  }

  lemma ResumedLoads(m: Table, deps: DeploymentTable, a: Id, b: Id, name: string, health: Health, now: Time)
    requires a in m && b in m && m[a].status.Running? && m[b].status.Pending?
    ensures var (m1, m2, m3) := Resumed(m, a, b, name, health, now);
            InstanceLoads(m3, deps) == InstanceLoads(m[b := Stated(m[b], Assigned, m[a].nodeId, NO_ID, now)], deps)
  {
    var (m1, m2, m3) := Resumed(m, a, b, name, health, now);
    var beside := m[b := Stated(m[b], Assigned, m[a].nodeId, NO_ID, now)];
    var paused := Edited(m[a], Report(m[a].nodeId, m[a].executionId, OtherStatus(name), health, NO_ID, []), now);
    var running := Edited(paused, Report(m[a].nodeId, m[a].executionId, Running, health, NO_ID, []), now);
    assert m3 == beside[a := running];
    ReplacementLoads(beside, deps, a, running);
  }

  lemma ReplacementLoads(m: Table, deps: DeploymentTable, id: Id, i: Instance)
    requires id in m && InstanceConsumes(i.status) == InstanceConsumes(m[id].status)
    requires i.nodeId == m[id].nodeId && i.deploymentId == m[id].deploymentId
    ensures InstanceLoads(m[id := i], deps) == InstanceLoads(m, deps)
  {
  }

  /** A node of one core and one MiB, an instance that takes all of it, and another one waiting. */
  function FullNode(node: Id): NodeTable {
    map[node := Node(node, "", 1, 1024 * 1024, Online, None)]
  }

  function OneEach(app: Id, dep: Id): DeploymentTable {
    var spec := AppSpec(2, None, Some(Resources(1.0, 1)), Container("image", [], [], map[]));
    map[dep := Deployment(dep, app, 1, spec, "", Active, RolloutCompleted, 0, 0, 0, 0, "", 0, false)]
  }

  function RunningAndWaiting(app: Id, dep: Id, node: Id, exec: Id, a: Id, b: Id): Table {
    map[a := Instance(a, app, dep, node, exec, Running, Healthy, false, None, NO_ID, [], 0, Some(0), None, None),
        b := Instances.NewInstance(b, app, dep, 0)]
  }

  lemma WitnessIsFull(app: Id, dep: Id, node: Id, exec: Id, a: Id, b: Id)
    requires a != b
    ensures Available(FullNode(node), RunningAndWaiting(app, dep, node, exec, a, b), OneEach(app, dep), map[], node) == ZERO
  {
    var m, deps := RunningAndWaiting(app, dep, node, exec, a, b), OneEach(app, dep);
    var l := Load(node, Amount(1.0, 1));
    assert Request(deps[dep]) == l.amount;
    var none: Loads := map[];
    assert InstanceLoads(m, deps) == none[a := l];
    ReservedInsert(none, a, l, node);
    assert JobLoads(map[]) == map[];
    assert TotalOf(FullNode(node), node) == l.amount;
  }

  lemma WitnessIsSane(app: Id, dep: Id, node: Id, exec: Id, a: Id, b: Id)
    requires NO_ID !in {dep, node, exec, a, b} && a != b
    ensures Sane(State(RunningAndWaiting(app, dep, node, exec, a, b), OneEach(app, dep), map[], Idle))
  {
    var m, deps := RunningAndWaiting(app, dep, node, exec, a, b), OneEach(app, dep);
    assert Lifecycle(m[a]) && Lifecycle(m[b]);
    assert Request(deps[dep]) == Amount(1.0, 1);
  }

  lemma WitnessHolds(app: Id, dep: Id, node: Id, exec: Id, a: Id, b: Id)
    requires NO_ID !in {dep, node, exec, a, b} && a != b
    ensures Inv(State(RunningAndWaiting(app, dep, node, exec, a, b), OneEach(app, dep), map[], Idle), FullNode(node))
  {
    WitnessIsSane(app, dep, node, exec, a, b);
    WitnessIsFull(app, dep, node, exec, a, b);
    var s := State(RunningAndWaiting(app, dep, node, exec, a, b), OneEach(app, dep), map[], Idle);
    assert JobsOf(s.jobs) == map[];
    assert CoveredOn(s, FullNode(node), node);
  }

  /** There the sequence starts within the invariant of the runs above and ends with the node overcommitted,
      although the scheduler found room. */
  lemma OvercommitWitness(app: Id, dep: Id, node: Id, exec: Id, a: Id, b: Id, name: string, now: Time)
    requires NO_ID !in {dep, node, exec, a, b} && a != b && UnknownName(name)
    ensures var m, deps, nodes := RunningAndWaiting(app, dep, node, exec, a, b), OneEach(app, dep), FullNode(node);
            var (m1, m2, m3) := Resumed(m, a, b, name, Healthy, now);
            && Inv(State(m, deps, map[], Idle), nodes)
            && node in EligibleNodes(CapacityTable(nodes, m1, deps, map[]), nodes.Keys, Request(deps[dep]))
            && !NonNegative(Available(nodes, m3, deps, map[], node))
  {
    var m, deps, nodes := RunningAndWaiting(app, dep, node, exec, a, b), OneEach(app, dep), FullNode(node);
    WitnessHolds(app, dep, node, exec, a, b);
    WitnessIsFull(app, dep, node, exec, a, b);
    assert Lifecycle(m[a]) && m[a].nodeId == node && m[a].deploymentId == m[b].deploymentId == dep;
    assert Request(deps[dep]) == Amount(1.0, 1);
    UnknownNameOvercommits(m, deps, a, b, name, Healthy, now, nodes, map[]);
  }
}
