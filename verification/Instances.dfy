/** The instance registry: lifecycle records of the containers the control plane manages.

    Each mutating method of the registry is an in-place edit of one map entry.  The record
    functions (`Stated`, `Claimed`, ...) say what happens to the entry; the registry methods are
    proved against them.  `Lifecycle` is what every caller in the program keeps true, and
    `Evolves` is what one instance can never undo.
 */
module Instances {
  import opened Ids

  datatype Status =
    | Pending | Assigned | Starting | Running | Stopping | Crashed | Stopped | Unknown
    | OtherStatus(name: string)  // an agent may report any string

  datatype Health = NoHealth | Healthy | Unhealthy | HealthUnknown | OtherHealth(name: string)

  datatype PortMapping = PortMapping(internalPort: int, externalPort: int)

  datatype Instance = Instance(
    id: Id,
    applicationId: Id,
    deploymentId: Id,
    nodeId: Id,
    executionId: Id,
    status: Status,
    health: Health,
    draining: bool,
    drainStartedAt: Option<Time>,
    containerId: Id,
    ports: seq<PortMapping>,
    createdAt: Time,
    startedAt: Option<Time>,
    stoppedAt: Option<Time>,
    unknownSince: Option<Time>)

  datatype Error = NotFound | InvalidStateTransition | NodeMismatch | StaleExecution

  datatype Result<+T> = Ok(value: T) | Err(error: Error)

  type Table = map<Id, Instance>

  predicate Terminal(s: Status) { s.Stopped? || s.Crashed? }

  predicate Viable(s: Status) {
    s.Pending? || s.Assigned? || s.Starting? || s.Running? || s.Unknown?
  }

  predicate Ready(i: Instance) { i.status.Running? && i.health.Healthy? }

  // ----- what each operation does to one record

  function NewInstance(id: Id, app: Id, dep: Id, now: Time): Instance {
    Instance(id, app, dep, NO_ID, NO_ID, Pending, NoHealth, false, None, NO_ID, [], now, None, None, None)
  }

  function Stated(i: Instance, status: Status, node: Id, container: Id, now: Time): Instance {
    i.(status := status,
       nodeId := if node != NO_ID then node else i.nodeId,
       containerId := if container != NO_ID then container else i.containerId,
       startedAt := if status.Running? && i.startedAt.None? then Some(now) else i.startedAt,
       stoppedAt := if Terminal(status) && i.stoppedAt.None? then Some(now) else i.stoppedAt)
  }

  function Claimed(i: Instance, exec: Id): Instance {
    i.(status := Starting, executionId := exec, unknownSince := None)
  }

  predicate Claimable(i: Instance, node: Id) {
    && (i.status.Assigned? || (i.status.Unknown? && i.executionId == NO_ID))
    && i.nodeId == node
  }

  /** A status an agent must not report: those are the control plane's own. */
  predicate ControlPlaneOnly(s: Status) {
    s.Pending? || s.Assigned? || s.Starting? || s.Unknown?
  }

  predicate Reportable(i: Instance, node: Id, exec: Id, status: Status, health: Health) {
    && i.nodeId == node && i.executionId == exec
    && !ControlPlaneOnly(status)
    && (Terminal(i.status) ==> i.status == status && i.health == health)
  }

  function Reported(i: Instance, status: Status, health: Health, container: Id,
                    ports: seq<PortMapping>, now: Time): Instance
  {
    var container' := if container != NO_ID && i.containerId == NO_ID then container else i.containerId;
    if i.status == status && i.health == health then
      i.(containerId := container',
         ports := if |ports| > 0 && |i.ports| == 0 then ports else i.ports)
    else
      i.(status := status,
         health := if health.NoHealth? then i.health else health,
         unknownSince := None,
         containerId := container',
         ports := if |ports| > 0 then ports else i.ports,
         startedAt := if status.Running? && i.startedAt.None? then Some(now) else i.startedAt,
         stoppedAt := if Terminal(status) && i.stoppedAt.None? then Some(now) else i.stoppedAt)
  }

  /** What a report leaves: its status, a health that is told, the first container id, ports that are new, and the
      first instants of running and of ending. */
  lemma ReportTakesOver(i: Instance, status: Status, health: Health, container: Id, ports: seq<PortMapping>, now: Time)
    ensures var i' := Reported(i, status, health, container, ports, now);
            var again := i.status == status && i.health == health;
            && i'.status == status && i'.health == (if health == NoHealth then i.health else health)
            && i'.containerId == (if i.containerId == NO_ID then container else i.containerId)
            && i'.ports == (if ports == [] || (again && i.ports != []) then i.ports else ports)
            && i'.startedAt == (if status == Running && i.startedAt.None? && !again then Some(now) else i.startedAt)
            && i'.stoppedAt == (if (status == Stopped || status == Crashed) && i.stoppedAt.None? && !again then Some(now) else i.stoppedAt)
            && i'.unknownSince == (if again then i.unknownSince else None)
  {
  }

  /** What a change by the control plane leaves. */
  lemma StateTakesOver(i: Instance, status: Status, node: Id, container: Id, now: Time)
    ensures var i' := Stated(i, status, node, container, now);
            && i'.status == status && i'.executionId == i.executionId && i'.health == i.health && i'.draining == i.draining
            && i'.nodeId == (if node == NO_ID then i.nodeId else node)
            && i'.containerId == (if container == NO_ID then i.containerId else container)
            && i'.startedAt == (if status == Running && i.startedAt.None? then Some(now) else i.startedAt)
            && i'.stoppedAt == (if (status == Stopped || status == Crashed) && i.stoppedAt.None? then Some(now) else i.stoppedAt)
  {
  }

  /** Which instances count: everything on its way to running, running, or out of sight; not what is being stopped or
      has ended, nor what reports a status of its own. */
  lemma WhatCounts(i: Instance)
    ensures Viable(i.status) <==> i.status in {Pending, Assigned, Starting, Running, Unknown}
    ensures Terminal(i.status) <==> i.status in {Stopped, Crashed}
    ensures Ready(i) <==> i.status == Running && i.health == Healthy
  {
  }

  function MarkedUnknown(i: Instance, now: Time): Instance {
    i.(status := Unknown, unknownSince := if i.unknownSince.None? then Some(now) else i.unknownSince)
  }

  function Drained(i: Instance, now: Time): Instance {
    if i.draining then i else i.(draining := true, drainStartedAt := Some(now))
  }

  /** A repeated report: only a container id or ports not known yet are taken over. */
  method Refresh(i: Instance, container: Id, ports: seq<PortMapping>) returns (i': Instance)
    ensures forall now :: i' == Reported(i, i.status, i.health, container, ports, now)
  {
    i' := i;
    if container != NO_ID && i'.containerId == NO_ID {
      i' := i'.(containerId := container);
    }
    if |ports| > 0 && |i'.ports| == 0 {
      i' := i'.(ports := ports);
    }
  }

  /** A report that says something new. */
  method Observe(i: Instance, status: Status, health: Health, container: Id,
                 ports: seq<PortMapping>, now: Time) returns (i': Instance)
    requires !(i.status == status && i.health == health)
    ensures i' == Reported(i, status, health, container, ports, now)
  {
    i' := i.(status := status);
    if !health.NoHealth? {
      i' := i'.(health := health);
    }
    i' := i'.(unknownSince := None);
    if container != NO_ID && i'.containerId == NO_ID {
      i' := i'.(containerId := container);
    }
    if |ports| > 0 {
      i' := i'.(ports := ports);
    }
    if status.Running? && i'.startedAt.None? {
      i' := i'.(startedAt := Some(now));
    } else if (status.Stopped? || status.Crashed?) && i'.stoppedAt.None? {
      i' := i'.(stoppedAt := Some(now));
    }
  }

  // ----- the registry

  class Registry {
    var instances: Table

    ghost predicate Valid()
      reads this
    {
      WellKeyed(instances)
    }

    constructor ()
      ensures Valid() && instances == map[]
    {
      instances := map[];
    }

    method Create(app: Id, dep: Id, now: Time) returns (inst: Instance)
      requires Valid()
      modifies this
      ensures Valid()
      ensures inst.id !in old(instances) && inst.id != NO_ID && inst == NewInstance(inst.id, app, dep, now)
      ensures instances == old(instances)[inst.id := inst]
    {
      var id := GenerateId(instances.Keys);
      inst := NewInstance(id, app, dep, now);
      instances := instances[id := inst];
    }

    method UpdateState(id: Id, status: Status, node: Id, container: Id, now: Time) returns (r: Result<Instance>)
      requires Valid()
      modifies this
      ensures Valid()
      ensures r.Ok? <==> id in old(instances) && !Terminal(old(instances)[id].status)
      ensures r.Ok? ==> instances == old(instances)[id := Stated(old(instances)[id], status, node, container, now)]
      ensures r.Ok? ==> r.value == instances[id]
      ensures r.Err? ==> instances == old(instances)
      ensures r == Err(NotFound) <==> id !in old(instances)
    {
      if id !in instances {
        return Err(NotFound);
      }
      var inst := instances[id];
      if inst.status.Stopped? || inst.status.Crashed? {
        return Err(InvalidStateTransition);
      }
      inst := inst.(status := status);
      if node != NO_ID {
        inst := inst.(nodeId := node);
      }
      if container != NO_ID {
        inst := inst.(containerId := container);
      }
      if status.Running? && inst.startedAt.None? {
        inst := inst.(startedAt := Some(now));
      }
      if (status.Stopped? || status.Crashed?) && inst.stoppedAt.None? {
        inst := inst.(stoppedAt := Some(now));
      }
      instances := instances[id := inst];
      r := Ok(inst);
    }

    method Claim(id: Id, node: Id, issued: set<Id>) returns (r: Result<Instance>)
      requires Valid()
      modifies this
      ensures Valid()
      ensures r.Ok? <==> id in old(instances) && Claimable(old(instances)[id], node)
      ensures r.Ok? ==> r.value.executionId !in issued && r.value.executionId != NO_ID
      ensures r.Ok? ==> r.value == Claimed(old(instances)[id], r.value.executionId)
      ensures r.Ok? <==>
                && id in old(instances) && old(instances)[id].nodeId == node
                && (old(instances)[id].status == Assigned || (old(instances)[id].status == Unknown && old(instances)[id].executionId == NO_ID))
      ensures r.Ok? ==> r.value.status == Starting && r.value.nodeId == node
      ensures r.Ok? ==> instances == old(instances)[id := r.value]
      ensures r.Err? ==> instances == old(instances)
    {
      if id !in instances {
        return Err(NotFound);
      }
      var inst := instances[id];
      if !inst.status.Assigned? && !inst.status.Unknown? {
        return Err(InvalidStateTransition);
      }
      if inst.status.Unknown? && inst.executionId != NO_ID {
        return Err(InvalidStateTransition);
      }
      if inst.nodeId != node {
        return Err(NodeMismatch);
      }
      var exec := GenerateId(issued);
      inst := inst.(status := Starting);
      inst := inst.(executionId := exec);
      inst := inst.(unknownSince := None);
      instances := instances[id := inst];
      r := Ok(inst);
    }

    method ReportStatus(id: Id, node: Id, exec: Id, status: Status, health: Health,
                        container: Id, ports: seq<PortMapping>, now: Time) returns (r: Result<Instance>)
      requires Valid()
      modifies this
      ensures Valid()
      ensures r.Ok? <==> id in old(instances) && Reportable(old(instances)[id], node, exec, status, health)
      ensures r.Ok? ==> instances == old(instances)[id := Reported(old(instances)[id], status, health, container, ports, now)]
      ensures r.Ok? ==> r.value == instances[id]
      // who may report what
      ensures r.Ok? <==>
                && id in old(instances) && old(instances)[id].nodeId == node && old(instances)[id].executionId == exec
                && status != Pending && status != Assigned && status != Starting && status != Unknown
                && (old(instances)[id].status == Stopped || old(instances)[id].status == Crashed
                    ==> old(instances)[id].status == status && old(instances)[id].health == health)
      ensures r.Err? ==> instances == old(instances)
    {
      if id !in instances {
        return Err(NotFound);
      }
      var inst := instances[id];
      if inst.nodeId != node {
        return Err(NodeMismatch);
      }
      if inst.executionId != exec {
        return Err(StaleExecution);
      }
      if status.Pending? || status.Assigned? || status.Starting? || status.Unknown? {
        return Err(InvalidStateTransition);
      }
      if inst.status == status && inst.health == health {
        inst := Refresh(inst, container, ports);
      } else if inst.status.Stopped? || inst.status.Crashed? {
        return Err(InvalidStateTransition);
      } else {
        inst := Observe(inst, status, health, container, ports, now);
      }
      assert inst == Reported(instances[id], status, health, container, ports, now);
      assert inst.id == id;
      instances := instances[id := inst];
      r := Ok(inst);
    }

    method MarkUnknown(id: Id, now: Time) returns (found: bool)
      requires Valid()
      modifies this
      ensures Valid()
      ensures found <==> id in old(instances)
      ensures instances == if found && !Terminal(old(instances)[id].status)
                           then old(instances)[id := MarkedUnknown(old(instances)[id], now)]
                           else old(instances)
    {
      if id !in instances {
        return false;
      }
      var inst := instances[id];
      if inst.status.Stopped? || inst.status.Crashed? {
        return true;
      }
      inst := inst.(status := Unknown);
      if inst.unknownSince.None? {
        inst := inst.(unknownSince := Some(now));
      }
      instances := instances[id := inst];
      found := true;
    }

    method MarkDraining(id: Id, now: Time) returns (found: bool)
      requires Valid()
      modifies this
      ensures Valid()
      ensures found <==> id in old(instances)
      ensures instances == if found && !Terminal(old(instances)[id].status)
                           then old(instances)[id := Drained(old(instances)[id], now)]
                           else old(instances)
    {
      if id !in instances {
        return false;
      }
      var inst := instances[id];
      if inst.status.Stopped? || inst.status.Crashed? {
        return true;
      }
      if !inst.draining {
        inst := inst.(draining := true);
        inst := inst.(drainStartedAt := Some(now));
        instances := instances[id := inst];
      }
      found := true;
    }
  }

  ghost predicate WellKeyed(m: Table) {
    forall id :: id in m ==> id != NO_ID && m[id].id == id
  }

  // ----- what the callers of the registry keep true

  /** The states an instance can be in when only the control plane's own callers edit it. */
  ghost predicate Lifecycle(i: Instance) {
    && (i.status.Pending? ==> i.nodeId == NO_ID)
    && (i.status.Pending? || i.status.Assigned? ==> i.executionId == NO_ID)
    && (i.status.Assigned? || i.status.Starting? || i.status.Running? ==> i.nodeId != NO_ID)
    && (i.status.Starting? || i.status.Running? ==> i.executionId != NO_ID)
    && (i.executionId != NO_ID ==> i.nodeId != NO_ID)
    && (i.status.Unknown? ==> i.nodeId != NO_ID)
    && (i.status.Running? ==> i.startedAt.Some?)
    && (i.stoppedAt.Some? <==> Terminal(i.status))
    && (i.draining <==> i.drainStartedAt.Some?)
  }

  ghost predicate AllLifecycle(m: Table) {
    WellKeyed(m) && forall id :: id in m ==> Lifecycle(m[id])
  }

  /** What no later edit of an instance takes back. */
  ghost predicate Evolves(a: Instance, b: Instance) {
    && b.id == a.id && b.applicationId == a.applicationId && b.deploymentId == a.deploymentId
    && (a.executionId != NO_ID ==> b.executionId == a.executionId && b.nodeId == a.nodeId)
    && (a.draining ==> b.draining && b.drainStartedAt == a.drainStartedAt)
    && (Terminal(a.status) ==> b.status == a.status && b.stoppedAt == a.stoppedAt)
    && (a.startedAt.Some? ==> b.startedAt == a.startedAt)
  }

  /** No record disappears and none takes anything back. */
  ghost predicate TableEvolves(m: Table, m': Table) {
    forall id :: id in m ==> id in m' && Evolves(m[id], m'[id])
  }

  /** Every edit the program makes to an existing instance, with the guard of its caller. */
  datatype Edit =
    | Schedule(node: Id)                              // instance scheduler, on a PENDING instance
    | ClaimBy(node: Id, exec: Id)                     // agent, with a generated execution id
    | Report(node: Id, exec: Id, status: Status, health: Health, container: Id, ports: seq<PortMapping>)
    | SecretMissing                                   // claim handler, when a secret cannot be resolved
    | LoseNode                                        // reconciler, node offline
    | GiveUp                                          // reconciler, UNKNOWN too long or unhealthy
    | Drain                                           // reconciler, scale down
    | Retire                                          // reconciler, drain finished

  ghost predicate Allowed(i: Instance, e: Edit) {
    match e
    case Schedule(node) => i.status.Pending? && node != NO_ID
    case ClaimBy(node, exec) => node != NO_ID && exec != NO_ID && Claimable(i, node)
    case Report(node, exec, status, health, _, _) =>
      node != NO_ID && exec != NO_ID && Reportable(i, node, exec, status, health)
    case SecretMissing => !Terminal(i.status)
    case LoseNode => i.nodeId != NO_ID && Viable(i.status) && !i.status.Unknown?
    case GiveUp => i.status.Unknown? || i.status.Running?
    case Drain => Viable(i.status)
    case Retire => Viable(i.status) && i.draining
  }

  function Edited(i: Instance, e: Edit, now: Time): Instance {
    match e
    case Schedule(node) => Stated(i, Assigned, node, NO_ID, now)
    case ClaimBy(_, exec) => Claimed(i, exec)
    case Report(_, _, status, health, container, ports) => Reported(i, status, health, container, ports, now)
    case SecretMissing => Stated(i, Crashed, i.nodeId, NO_ID, now)
    case LoseNode => MarkedUnknown(i, now)
    case GiveUp => Stated(i, Crashed, i.nodeId, i.containerId, now)
    case Drain => Drained(i, now)
    case Retire =>
      Stated(i, if i.status.Assigned? || i.status.Pending? then Stopped else Stopping, i.nodeId, i.containerId, now)
  }

  lemma EditKeepsLifecycle(i: Instance, e: Edit, now: Time)
    requires Lifecycle(i) && Allowed(i, e)
    ensures Lifecycle(Edited(i, e, now)) && Evolves(i, Edited(i, e, now))
  {
  }

  lemma EvolvesTransitive(a: Instance, b: Instance, c: Instance)
    requires Evolves(a, b) && Evolves(b, c)
    ensures Evolves(a, c)
  {
  }

  /** One step of a run: a creation or one allowed edit. */
  datatype Step = CreateStep(id: Id, app: Id, dep: Id, now: Time) | EditStep(id: Id, edit: Edit, now: Time)

  ghost predicate StepAllowed(m: Table, s: Step) {
    match s
    case CreateStep(id, _, _, _) => id !in m && id != NO_ID
    case EditStep(id, edit, _) => id in m && Allowed(m[id], edit)
  }

  ghost function After(m: Table, s: Step): Table
    requires StepAllowed(m, s)
  {
    match s
    case CreateStep(id, app, dep, now) => m[id := NewInstance(id, app, dep, now)]
    case EditStep(id, edit, now) => m[id := Edited(m[id], edit, now)]
  }

  ghost predicate Run(ms: seq<Table>, steps: seq<Step>) {
    && |ms| == |steps| + 1
    && forall k :: 0 <= k < |steps| ==> StepAllowed(ms[k], steps[k]) && ms[k + 1] == After(ms[k], steps[k])
  }

  lemma StepKeepsLifecycle(m: Table, s: Step)
    requires AllLifecycle(m) && StepAllowed(m, s)
    ensures AllLifecycle(After(m, s)) && TableEvolves(m, After(m, s))
  {
    if s.EditStep? {
      EditKeepsLifecycle(m[s.id], s.edit, s.now);
    }
  }

  lemma TableEvolvesTransitive(a: Table, b: Table, c: Table)
    requires TableEvolves(a, b) && TableEvolves(b, c)
    ensures TableEvolves(a, c)
  {
    forall id | id in a
      ensures id in c && Evolves(a[id], c[id])
    {
      EvolvesTransitive(a[id], b[id], c[id]);
    }
  }

  /** Every run of creations and allowed edits keeps `Lifecycle`; execution id, node, drain mark,
      start time and terminal status are written once and for all. */
  lemma {:induction false} RunKeepsLifecycle(ms: seq<Table>, steps: seq<Step>, i: nat, j: nat)
    requires Run(ms, steps)
    requires AllLifecycle(ms[0])
    requires i <= j < |ms|
    ensures AllLifecycle(ms[j]) && TableEvolves(ms[i], ms[j])
    decreases j
  {
    if j > 0 {
      RunKeepsLifecycle(ms, steps, if i < j then i else i - 1, j - 1);
      StepKeepsLifecycle(ms[j - 1], steps[j - 1]);
      if i < j {
        TableEvolvesTransitive(ms[i], ms[j - 1], ms[j]);
      }
    }
  }
}
