/** The job registry: a job state machine with retries, timeout and node-loss recovery, fenced by
    execution ids, and an append-only event log per job. */
module Jobs {
  import opened Ids

  datatype Status = Pending | Assigned | Running | Succeeded | Failed

  datatype JobResult = JobResult(exitCode: int, stdout: string, stderr: string, error: string)

  datatype Job = Job(
    id: Id,
    name: string,
    command: string,
    status: Status,
    createdAt: Time,
    startedAt: Option<Time>,
    completedAt: Option<Time>,
    assignedNodeId: Id,
    executionId: Id,
    cpu: real,
    memoryMB: int,
    maxRetries: int,
    attempts: int,
    result: Option<JobResult>)

  datatype EventType =
    EventCreated | EventAssigned | EventClaimed | EventSucceeded | EventFailed | EventRecovered | EventRetried

  datatype Reason = Plain(text: string) | ExitCode(code: int, exhausted: bool) | Lost(text: string, exhausted: bool)

  datatype Event = Event(
    number: nat,
    timestamp: Time,
    kind: EventType,
    from: Option<Status>,
    to: Status,
    nodeId: Id,
    executionId: Id,
    attempts: int,
    reason: Reason)

  datatype UpdateParams = UpdateParams(
    status: Option<Status>,
    assignedNodeId: Option<Id>,
    startedAt: Option<Time>,
    completedAt: Option<Time>,
    result: Option<JobResult>)

  datatype Error = NotFound | InvalidTransition | Rejected | OtherNode | Stale | Contradictory

  datatype Result<+T> = Ok(value: T) | Err(error: Error)

  const TIMEOUT_TEXT := "Execution timeout exceeded"

  predicate IsTerminal(s: Status) { s.Succeeded? || s.Failed? }

  predicate IsValidTransition(current: Status, next: Status) {
    if current == next then true
    else match current
      case Pending => next.Assigned? || next.Failed?
      case Assigned => next.Running? || next.Failed? || next.Pending?
      case Running => next.Succeeded? || next.Failed? || next.Pending?
      case Succeeded => false
      case Failed => false
  }

  // ----- one job with its log

  datatype Entry = Entry(job: Job, log: seq<Event>)

  type Table = map<Id, Entry>

  function Logged(log: seq<Event>, now: Time, kind: EventType, from: Option<Status>, to: Status,
                  node: Id, exec: Id, attempts: int, reason: Reason): seq<Event>
  {
    log + [Event(|log| + 1, now, kind, from, to, node, exec, attempts, reason)]
  }

  function NewEntry(id: Id, name: string, command: string, maxRetries: int, now: Time): Entry {
    var job := Job(id, name, command, Pending, now, None, None, NO_ID, NO_ID, 0.0, 0, maxRetries, 0, None);
    Entry(job, Logged([], now, EventCreated, None, Pending, NO_ID, NO_ID, 0, Plain("Job created")))
  }

  /** A status change that `Update` refuses. */
  predicate Refused(current: Status, next: Status) {
    || !IsValidTransition(current, next)
    || (next.Pending? && (current.Running? || current.Assigned?))
    || (next.Failed? && (current.Pending? || current.Assigned?))
  }

  predicate SetsExecution(p: UpdateParams) {
    p.assignedNodeId.Some? || p.startedAt.Some? || p.result.Some?
  }

  /** Whether `Update` succeeds; a failing one may still have moved the status. */
  predicate UpdateOk(j: Job, p: UpdateParams) {
    && !(p.status.Some? && Refused(j.status, p.status.value))
    && (SetsExecution(p) ==> j.status.Assigned? || (j.status.Pending? && p.status == Some(Assigned)))
  }

  function Moved(e: Entry, status: Option<Status>): Entry {
    if status.None? || Refused(e.job.status, status.value) then e
    else Entry(e.job.(status := status.value), e.log)
  }

  function Updated(e: Entry, p: UpdateParams, now: Time): Entry {
    if UpdateOk(e.job, p) then Edited(Moved(e, p.status), e.job.status, p, now) else Moved(e, p.status)
  }

  /** The fields written by an `Update` that moved the status away from `before`. */
  function Edited(e: Entry, before: Status, p: UpdateParams, now: Time): Entry {
    var j := e.job.(assignedNodeId := if p.assignedNodeId.Some? then p.assignedNodeId.value else e.job.assignedNodeId,
                    startedAt := if p.startedAt.Some? then p.startedAt else e.job.startedAt,
                    completedAt := if p.completedAt.Some? then p.completedAt else e.job.completedAt,
                    result := if p.result.Some? then p.result else e.job.result);
    if j.status.Assigned? && before != j.status then
      Entry(j, Logged(e.log, now, EventAssigned, Some(before), Assigned, j.assignedNodeId, NO_ID, j.attempts,
                      Plain("Job assigned by scheduler")))
    else Entry(j, e.log)
  }

  predicate Claimable(j: Job, node: Id) { j.status.Assigned? && j.assignedNodeId == node }

  function Claimed(e: Entry, node: Id, exec: Id, now: Time): Entry {
    var j := e.job.(attempts := e.job.attempts + 1, status := Running, startedAt := Some(now), executionId := exec);
    Entry(j, Logged(e.log, now, EventClaimed, Some(Assigned), Running, node, exec, j.attempts, Plain("Job claimed by agent")))
  }

  /** Give the job up for another attempt, or for good when no retry is left. */
  function Returned(e: Entry, kind: EventType, node: Id, exec: Id, again: Reason, over: Reason, result: JobResult, now: Time): Entry {
    var j := e.job;
    if j.attempts <= j.maxRetries then
      Entry(j.(status := Pending, assignedNodeId := NO_ID, startedAt := None, executionId := NO_ID),
            Logged(e.log, now, kind, Some(j.status), Pending, node, exec, j.attempts, again))
    else
      Entry(j.(status := Failed, completedAt := Some(now), result := Some(result)),
            Logged(e.log, now, EventFailed, Some(j.status), Failed, node, exec, j.attempts, over))
  }

  /** The report of the execution that currently holds the job. */
  predicate Current(j: Job, node: Id, exec: Id) {
    j.status.Running? && j.assignedNodeId == node && j.executionId == exec
  }

  function Reported(e: Entry, node: Id, exec: Id, res: JobResult, now: Time): Entry {
    if !Current(e.job, node, exec) then e
    else if res.exitCode == 0 then
      Entry(e.job.(status := Succeeded, completedAt := Some(now), result := Some(res)),
            Logged(e.log, now, EventSucceeded, Some(Running), Succeeded, node, exec, e.job.attempts,
                   Plain("Job completed successfully")))
    else
      Returned(e, EventRetried, node, exec, ExitCode(res.exitCode, false), ExitCode(res.exitCode, true), res, now)
  }

  predicate Expired(j: Job, timeout: Time, now: Time) {
    j.status.Running? && j.startedAt.Some? && now - j.startedAt.value >= timeout
  }

  predicate HeldBy(j: Job, node: Id) {
    (j.status.Running? || j.status.Assigned?) && j.assignedNodeId == node
  }

  function TimedOut(e: Entry, timeout: Time, now: Time): Entry {
    var j := e.job;
    if Expired(j, timeout, now) then
      Returned(e, EventRecovered, j.assignedNodeId, j.executionId, Lost(TIMEOUT_TEXT, false), Lost(TIMEOUT_TEXT, true),
               JobResult(-1, "", "", TIMEOUT_TEXT), now)
    else e
  }

  function NodeLost(e: Entry, node: Id, reason: string, now: Time): Entry {
    var j := e.job;
    if HeldBy(j, node) then
      Returned(e, EventRecovered, node, j.executionId, Lost(reason, false), Lost(reason, true),
               JobResult(-1, "", "", reason), now)
    else e
  }

  /** The moves a caller of `Update` can make. */
  predicate MovesByUpdate(current: Status, next: Status) {
    || (current == Pending && next == Assigned)
    || (current == Assigned && next == Running)
    || (current == Running && (next == Succeeded || next == Failed))
  }

  // ----- the registry

  class Registry {
    var jobs: map<Id, Job>
    var events: map<Id, seq<Event>>

    ghost predicate Valid()
      reads this
    {
      && events.Keys == jobs.Keys
      && forall id :: id in jobs ==> id != NO_ID && jobs[id].id == id
    }

    /** Jobs and logs side by side. */
    ghost function Entries(): Table
      reads this
      requires Valid()
    {
      map id | id in jobs :: Entry(jobs[id], events[id])
    }

    constructor ()
      ensures Valid() && Entries() == map[]
    {
      jobs := map[];
      events := map[];
    }

    /** Write back the record of a known job. */
    method Store(id: Id, j: Job)
      requires Valid() && id in jobs && j.id == id
      modifies this`jobs
      ensures Valid() && jobs == old(jobs)[id := j]
      ensures Entries() == old(Entries())[id := Entry(j, old(Entries())[id].log)]
    {
      jobs := jobs[id := j];
    }

    /** Write back the record of a known job and append one event to its log. */
    method Record(j: Job, kind: EventType, from: Option<Status>, to: Status, node: Id, exec: Id, attempts: int,
                  reason: Reason, now: Time)
      requires Valid() && j.id in jobs
      modifies this
      ensures Valid() && jobs == old(jobs)[j.id := j]
      ensures Entries() == old(Entries())[j.id := Entry(j, Logged(old(Entries())[j.id].log, now, kind, from, to, node, exec, attempts, reason))]
    {
      var id := j.id;
      var log := events[id];
      jobs := jobs[id := j];
      events := events[id := log + [Event(|log| + 1, now, kind, from, to, node, exec, attempts, reason)]];
    }

    /** The resource arguments of the source are accepted and not stored. */
    method Create(name: string, command: string, maxRetries: int, cpu: real, mem: int, now: Time) returns (job: Job)
      requires Valid()
      modifies this
      ensures Valid()
      ensures job.id !in old(jobs) && job == NewEntry(job.id, name, command, maxRetries, now).job
      ensures Entries() == old(Entries())[job.id := NewEntry(job.id, name, command, maxRetries, now)]
    {
      var id := GenerateId(jobs.Keys + events.Keys);
      job := Job(id, name, command, Pending, now, None, None, NO_ID, NO_ID, 0.0, 0, maxRetries, 0, None);
      jobs := jobs[id := job];
      events := events[id := [Event(1, now, EventCreated, None, Pending, NO_ID, NO_ID, 0, Plain("Job created"))]];
      assert Entries()[id] == NewEntry(id, name, command, maxRetries, now);
    }

    method Update(id: Id, params: UpdateParams, now: Time) returns (r: Result<Job>)
      requires Valid()
      modifies this
      ensures Valid()
      ensures r.Ok? <==> id in old(jobs) && UpdateOk(old(jobs)[id], params)
      ensures r.Ok? ==> id in jobs && r.value == jobs[id]
      ensures id in old(jobs) ==> Entries() == old(Entries())[id := Updated(old(Entries())[id], params, now)]
      ensures id !in old(jobs) ==> Entries() == old(Entries()) && r == Err(NotFound)
      ensures r.Ok? && params.startedAt.Some? ==> r.value.startedAt == params.startedAt
      ensures r.Ok? && params.assignedNodeId.Some? ==> r.value.assignedNodeId == params.assignedNodeId.value
      ensures r.Ok? && params.completedAt.Some? ==> r.value.completedAt == params.completedAt
      ensures r.Ok? && params.result.Some? ==> r.value.result == params.result
      ensures r.Ok? <==>
                && id in old(jobs)
                && (params.status.None? || params.status.value == old(jobs)[id].status
                    || MovesByUpdate(old(jobs)[id].status, params.status.value))
                && (params.assignedNodeId.Some? || params.startedAt.Some? || params.result.Some? ==>
                      || old(jobs)[id].status == Assigned
                      || (old(jobs)[id].status == Pending && params.status == Some(Assigned)))
      // the moves it makes, answered with an error or not
      ensures id in old(jobs) ==>
                && id in jobs
                && jobs[id].status ==
                     if params.status.Some? && MovesByUpdate(old(jobs)[id].status, params.status.value) then params.status.value
                     else old(jobs)[id].status
    {
      if id !in jobs {
        return Err(NotFound);
      }
      var oldStatus := jobs[id].status;
      var err := Move(id, params.status);
      if err.Some? {
        return Err(err.value);
      }
      ghost var moved := Entries();
      var locked := ExecutionLocked(oldStatus, jobs[id].status, params);
      assert Entries()[id] == Moved(old(Entries())[id], params.status);
      if locked {
        return Err(Rejected);
      }
      var j := Edit(id, oldStatus, params, now);
      Overwritten(old(Entries()), id, moved[id], Entries()[id]);
      assert Entries()[id] == Updated(old(Entries())[id], params, now);
      r := Ok(j);
    }

    /** Write the new status, if one is given and not refused. */
    method Move(id: Id, status: Option<Status>) returns (err: Option<Error>)
      requires Valid() && id in jobs
      modifies this
      ensures Valid() && jobs.Keys == old(jobs).Keys
      ensures err.Some? <==> status.Some? && Refused(old(jobs)[id].status, status.value)
      ensures Entries() == old(Entries())[id := Moved(old(Entries())[id], status)]
    {
      err := None;
      if status.Some? {
        var j := jobs[id];
        err := CheckMove(j.status, status.value);
        if err.None? {
          Store(id, j.(status := status.value));
        }
      }
    }

    method Edit(id: Id, oldStatus: Status, params: UpdateParams, now: Time) returns (j: Job)
      requires Valid() && id in jobs
      modifies this
      ensures Valid() && id in jobs && j == jobs[id]
      ensures Entries() == old(Entries())[id := Edited(old(Entries())[id], oldStatus, params, now)]
    {
      j := SetFields(jobs[id], params);
      if oldStatus != j.status && j.status.Assigned? {
        Record(j, EventAssigned, Some(oldStatus), j.status, j.assignedNodeId, NO_ID, j.attempts,
               Plain("Job assigned by scheduler"), now);
      } else {
        Store(id, j);
      }
    }

    method Claim(id: Id, node: Id, issued: set<Id>, now: Time) returns (r: Result<Job>)
      requires Valid()
      modifies this
      ensures Valid()
      ensures r.Ok? <==> id in old(jobs) && Claimable(old(jobs)[id], node)
      ensures r.Ok? ==> id in jobs && r.value == jobs[id] && r.value.executionId !in issued && r.value.executionId != NO_ID
      ensures r.Ok? ==> Entries() == old(Entries())[id := Claimed(old(Entries())[id], node, r.value.executionId, now)]
      ensures r.Ok? <==> id in old(jobs) && old(jobs)[id].status == Assigned && old(jobs)[id].assignedNodeId == node
      ensures r.Ok? ==> r.value == old(jobs)[id].(status := Running, startedAt := Some(now), attempts := old(jobs)[id].attempts + 1,
                                                  executionId := r.value.executionId)
      ensures r.Err? ==> Entries() == old(Entries())
    {
      if id !in jobs {
        return Err(NotFound);
      }
      var j := jobs[id];
      if !j.status.Assigned? {
        return Err(InvalidTransition);
      }
      if j.assignedNodeId != node {
        return Err(OtherNode);
      }
      var exec := GenerateId(issued);
      j := j.(attempts := j.attempts + 1);
      j := j.(status := Running);
      j := j.(startedAt := Some(now));
      j := j.(executionId := exec);
      Record(j, EventClaimed, Some(Assigned), Running, node, exec, j.attempts, Plain("Job claimed by agent"), now);
      r := Ok(j);
    }

    method ReportResult(id: Id, node: Id, exec: Id, res: JobResult, now: Time) returns (r: Result<Job>)
      requires Valid()
      modifies this
      ensures Valid()
      ensures id in old(jobs) ==> Entries() == old(Entries())[id := Reported(old(Entries())[id], node, exec, res, now)]
      ensures id !in old(jobs) ==> Entries() == old(Entries()) && r == Err(NotFound)
      ensures r.Ok? ==> id in jobs && r.value == jobs[id]
      ensures r.Ok? <==> id in old(jobs) && Accepted(old(jobs)[id], node, exec, res)
      // what a running job becomes when its holder reports
      ensures Holds(old(jobs), id, node, exec) && res.exitCode == 0 ==>
                && id in jobs && jobs[id] == old(jobs)[id].(status := Succeeded, completedAt := Some(now), result := Some(res))
                && |events[id]| == |old(events)[id]| + 1 && events[id][|old(events)[id]|].kind == EventSucceeded
      ensures Holds(old(jobs), id, node, exec) && res.exitCode != 0 && old(jobs)[id].attempts <= old(jobs)[id].maxRetries ==>
                && id in jobs
                && jobs[id] == old(jobs)[id].(status := Pending, assignedNodeId := NO_ID, startedAt := None, executionId := NO_ID)
                && |events[id]| == |old(events)[id]| + 1 && events[id][|old(events)[id]|].kind == EventRetried
      ensures Holds(old(jobs), id, node, exec) && res.exitCode != 0 && old(jobs)[id].attempts > old(jobs)[id].maxRetries ==>
                && id in jobs && jobs[id] == old(jobs)[id].(status := Failed, completedAt := Some(now), result := Some(res))
                && |events[id]| == |old(events)[id]| + 1 && events[id][|old(events)[id]|].kind == EventFailed
      ensures !Holds(old(jobs), id, node, exec) ==> jobs == old(jobs) && events == old(events)
    {
      if id !in jobs {
        return Err(NotFound);
      }
      var j := jobs[id];
      if j.status.Succeeded? || j.status.Failed? {
        if j.assignedNodeId != node || j.executionId != exec {
          return Err(Stale);
        }
        if j.result.Some? && j.result.value.exitCode != res.exitCode {
          return Err(Contradictory);
        }
        return Ok(j);
      }
      if !j.status.Running? {
        return Err(InvalidTransition);
      }
      if j.assignedNodeId != node || j.executionId != exec {
        return Err(Stale);
      }
      if res.exitCode == 0 {
        j := j.(status := Succeeded);
        j := j.(completedAt := Some(now));
        j := j.(result := Some(res));
        Record(j, EventSucceeded, Some(Running), j.status, node, exec, j.attempts, Plain("Job completed successfully"), now);
      } else {
        j := GiveBack(id, EventRetried, node, exec, ExitCode(res.exitCode, false), ExitCode(res.exitCode, true), res, now);
      }
      assert Entries()[id] == Reported(old(Entries())[id], node, exec, res, now);
      assert Entries()[id] == Entry(jobs[id], events[id]) && old(Entries())[id] == Entry(old(jobs)[id], old(events)[id]);
      r := Ok(j);
    }

    /** The retry-or-fail ending shared by a failed report and the two recoveries. */
    method GiveBack(id: Id, kind: EventType, node: Id, exec: Id, again: Reason, over: Reason, result: JobResult, now: Time)
      returns (j: Job)
      requires Valid() && id in jobs
      modifies this
      ensures Valid() && id in jobs && j == jobs[id]
      ensures Entries() == old(Entries())[id := Returned(old(Entries())[id], kind, node, exec, again, over, result, now)]
    {
      j := jobs[id];
      var oldStatus := j.status;
      if j.attempts <= j.maxRetries {
        j := j.(status := Pending);
        j := j.(assignedNodeId := NO_ID);
        j := j.(startedAt := None);
        j := j.(executionId := NO_ID);
        Record(j, kind, Some(oldStatus), Pending, node, exec, j.attempts, again, now);
      } else {
        j := j.(status := Failed);
        j := j.(completedAt := Some(now));
        j := j.(result := Some(result));
        Record(j, EventFailed, Some(oldStatus), Failed, node, exec, j.attempts, over, now);
      }
    }

    /** One job of the timeout loop. */
    method TimeoutTurn(id: Id, recovered: nat, ghost before: Table, ghost todo: set<Id>, timeout: Time, now: Time) returns (n: nat)
      requires Valid() && id in todo && todo <= before.Keys
      requires Timeouts(before, todo, Entries(), recovered, timeout, now)
      modifies this
      ensures Valid()
      ensures Timeouts(before, todo - {id}, Entries(), n, timeout, now)
    {
      TimeoutsStep(before, todo, Entries(), recovered, id, timeout, now);
      var j := jobs[id];
      n := recovered;
      if j.status.Running? && j.startedAt.Some? {
        if now - j.startedAt.value >= timeout {
          var _ := GiveBack(id, EventRecovered, j.assignedNodeId, j.executionId, Lost(TIMEOUT_TEXT, false),
                            Lost(TIMEOUT_TEXT, true), JobResult(-1, "", "", TIMEOUT_TEXT), now);
          n := n + 1;
        }
      }
    }

    method RecoverExecutionTimeouts(timeout: Time, now: Time) returns (recovered: nat)
      requires Valid()
      modifies this
      ensures Valid()
      ensures Entries() == AllTimedOut(old(Entries()), timeout, now)
      ensures recovered == |ExpiredIn(old(Entries()), old(Entries()).Keys, timeout, now)|
      // no running job is older than the timeout, and no other job was touched
      ensures forall id :: (id in old(jobs) && old(jobs)[id].status == Running && old(jobs)[id].startedAt.Some?
                && now - old(jobs)[id].startedAt.value >= timeout) ==>
                id in jobs && jobs[id].status == if old(jobs)[id].attempts <= old(jobs)[id].maxRetries then Pending else Failed
      ensures forall id :: (id in old(jobs)
                && !(old(jobs)[id].status == Running && old(jobs)[id].startedAt.Some? && now - old(jobs)[id].startedAt.value >= timeout)) ==>
                id in jobs && jobs[id] == old(jobs)[id] && events[id] == old(events)[id]
    {
      recovered := 0;
      var todo := jobs.Keys;
      ghost var before := Entries();
      TimeoutsStart(before, timeout, now);
      while todo != {}
        invariant Valid() && todo <= before.Keys
        invariant Timeouts(before, todo, Entries(), recovered, timeout, now)
        decreases todo
      {
        var id :| id in todo;
        recovered := TimeoutTurn(id, recovered, before, todo, timeout, now);
        todo := todo - {id};
      }
      TimeoutsEnd(before, Entries(), recovered, timeout, now);
    }

    /** One job of the node-loss loop. */
    method NodeLossTurn(id: Id, recovered: nat, ghost before: Table, ghost todo: set<Id>, node: Id, reason: string, now: Time)
      returns (n: nat)
      requires Valid() && id in todo && todo <= before.Keys
      requires NodeLosses(before, todo, Entries(), recovered, node, reason, now)
      modifies this
      ensures Valid()
      ensures NodeLosses(before, todo - {id}, Entries(), n, node, reason, now)
    {
      NodeLossesStep(before, todo, Entries(), recovered, id, node, reason, now);
      var j := jobs[id];
      n := recovered;
      if (j.status.Running? || j.status.Assigned?) && j.assignedNodeId == node {
        var _ := GiveBack(id, EventRecovered, node, j.executionId, Lost(reason, false), Lost(reason, true),
                          JobResult(-1, "", "", reason), now);
        n := n + 1;
      }
    }

    method RecoverNodeJobs(node: Id, reason: string, now: Time) returns (recovered: nat)
      requires Valid()
      modifies this
      ensures Valid()
      ensures Entries() == AllNodeLost(old(Entries()), node, reason, now)
      ensures recovered == |HeldIn(old(Entries()), old(Entries()).Keys, node)|
      // no job is left on the node, and no other job was touched
      ensures forall id :: (id in old(jobs) && (old(jobs)[id].status == Running || old(jobs)[id].status == Assigned)
                && old(jobs)[id].assignedNodeId == node) ==>
                id in jobs && jobs[id].status == if old(jobs)[id].attempts <= old(jobs)[id].maxRetries then Pending else Failed
      ensures forall id :: (id in old(jobs)
                && !((old(jobs)[id].status == Running || old(jobs)[id].status == Assigned) && old(jobs)[id].assignedNodeId == node)) ==>
                id in jobs && jobs[id] == old(jobs)[id] && events[id] == old(events)[id]
    {
      recovered := 0;
      var todo := jobs.Keys;
      ghost var before := Entries();
      NodeLossesStart(before, node, reason, now);
      while todo != {}
        invariant Valid() && todo <= before.Keys
        invariant NodeLosses(before, todo, Entries(), recovered, node, reason, now)
        decreases todo
      {
        var id :| id in todo;
        recovered := NodeLossTurn(id, recovered, before, todo, node, reason, now);
        todo := todo - {id};
      }
      NodeLossesEnd(before, Entries(), recovered, node, reason, now);
    }
  }

  /** The job runs, on that node, under that execution. */
  predicate Holds(jobs: map<Id, Job>, id: Id, node: Id, exec: Id) {
    id in jobs && jobs[id].status == Running && jobs[id].assignedNodeId == node && jobs[id].executionId == exec
  }

  method CheckMove(current: Status, next: Status) returns (err: Option<Error>)
    ensures err.Some? <==> Refused(current, next)
  {
    if !IsValidTransition(current, next) {
      return Some(InvalidTransition);
    }
    if current.Running? && next.Pending? {
      return Some(Rejected);
    }
    if current.Assigned? && next.Pending? {
      return Some(Rejected);
    }
    if next.Failed? && (current.Pending? || current.Assigned?) {
      return Some(Rejected);
    }
    err := None;
  }

  /** Node, start time and result may be written only on the way to, or in, ASSIGNED. */
  method ExecutionLocked(before: Status, current: Status, params: UpdateParams) returns (locked: bool)
    ensures locked <==> SetsExecution(params) && (before.Running? || IsTerminal(before) || (before.Pending? && current.Pending?))
  {
    if before.Running? || before.Succeeded? || before.Failed? {
      if params.assignedNodeId.Some? || params.startedAt.Some? || params.result.Some? {
        return true;
      }
    }
    if before.Pending? && current.Pending? {
      if params.assignedNodeId.Some? || params.startedAt.Some? || params.result.Some? {
        return true;
      }
    }
    locked := false;
  }

  method SetFields(j: Job, params: UpdateParams) returns (j': Job)
    ensures j' == j.(assignedNodeId := if params.assignedNodeId.Some? then params.assignedNodeId.value else j.assignedNodeId,
                     startedAt := if params.startedAt.Some? then params.startedAt else j.startedAt,
                     completedAt := if params.completedAt.Some? then params.completedAt else j.completedAt,
                     result := if params.result.Some? then params.result else j.result)
  {
    j' := j;
    if params.assignedNodeId.Some? {
      j' := j'.(assignedNodeId := params.assignedNodeId.value);
    }
    if params.startedAt.Some? {
      j' := j'.(startedAt := params.startedAt);
    }
    if params.completedAt.Some? {
      j' := j'.(completedAt := params.completedAt);
    }
    if params.result.Some? {
      j' := j'.(result := params.result);
    }
  }

  /** A report that is answered without an error; one for a finished job changes nothing. */
  predicate Accepted(j: Job, node: Id, exec: Id, res: JobResult) {
    && j.assignedNodeId == node && j.executionId == exec
    && (j.status.Running? || (IsTerminal(j.status) && (j.result.Some? ==> j.result.value.exitCode == res.exitCode)))
  }

  ghost function AllTimedOut(t: Table, timeout: Time, now: Time): Table {
    map id | id in t :: TimedOut(t[id], timeout, now)
  }

  ghost function AllNodeLost(t: Table, node: Id, reason: string, now: Time): Table {
    map id | id in t :: NodeLost(t[id], node, reason, now)
  }

  ghost function ExpiredIn(t: Table, ids: set<Id>, timeout: Time, now: Time): set<Id> {
    set id | id in ids && id in t && Expired(t[id].job, timeout, now)
  }

  ghost function HeldIn(t: Table, ids: set<Id>, node: Id): set<Id> {
    set id | id in ids && id in t && HeldBy(t[id].job, node)
  }

  lemma Overwritten(t: Table, id: Id, first: Entry, second: Entry)
    ensures t[id := first][id := second] == t[id := second]
  {
  }

  /** Where the timeout loop stands with the jobs of `todo` still ahead. */
  ghost predicate Timeouts(t: Table, todo: set<Id>, t': Table, n: nat, timeout: Time, now: Time) {
    && t'.Keys == t.Keys
    && (forall id :: id in t ==> t'[id] == if id in todo then t[id] else TimedOut(t[id], timeout, now))
    && n == |ExpiredIn(t, t.Keys - todo, timeout, now)|
  }

  lemma TimeoutsStart(t: Table, timeout: Time, now: Time)
    ensures Timeouts(t, t.Keys, t, 0, timeout, now)
  {
    assert ExpiredIn(t, t.Keys - t.Keys, timeout, now) == {};
  }

  lemma TimeoutsEnd(t: Table, t': Table, n: nat, timeout: Time, now: Time)
    requires Timeouts(t, {}, t', n, timeout, now)
    ensures t' == AllTimedOut(t, timeout, now) && n == |ExpiredIn(t, t.Keys, timeout, now)|
  {
    assert t.Keys - {} == t.Keys;
  }

  lemma TimeoutsStep(t: Table, todo: set<Id>, t': Table, n: nat, id: Id, timeout: Time, now: Time)
    requires id in todo && todo <= t.Keys && Timeouts(t, todo, t', n, timeout, now)
    ensures id in t' && t'[id] == t[id]
    ensures Expired(t[id].job, timeout, now)
            ==> Timeouts(t, todo - {id}, t'[id := TimedOut(t'[id], timeout, now)], n + 1, timeout, now)
    ensures !Expired(t[id].job, timeout, now)
            ==> Timeouts(t, todo - {id}, t'[id := TimedOut(t'[id], timeout, now)], n, timeout, now)
  {
    TimeoutsCount(t, todo, id, timeout, now);
    var next := t'[id := TimedOut(t'[id], timeout, now)];
    forall x | x in t ensures next[x] == if x in todo - {id} then t[x] else TimedOut(t[x], timeout, now) {
    }
  }

  lemma TimeoutsCount(t: Table, todo: set<Id>, id: Id, timeout: Time, now: Time)
    requires id in todo && todo <= t.Keys
    ensures |ExpiredIn(t, t.Keys - (todo - {id}), timeout, now)| == |ExpiredIn(t, t.Keys - todo, timeout, now)| + if Expired(t[id].job, timeout, now) then 1 else 0
  {
    assert ExpiredIn(t, t.Keys - (todo - {id}), timeout, now)
        == ExpiredIn(t, t.Keys - todo, timeout, now) + if Expired(t[id].job, timeout, now) then {id} else {};
  }

  /** Where the node-loss loop stands with the jobs of `todo` still ahead. */
  ghost predicate NodeLosses(t: Table, todo: set<Id>, t': Table, n: nat, node: Id, reason: string, now: Time) {
    && t'.Keys == t.Keys
    && (forall id :: id in t ==> t'[id] == if id in todo then t[id] else NodeLost(t[id], node, reason, now))
    && n == |HeldIn(t, t.Keys - todo, node)|
  }

  lemma NodeLossesStart(t: Table, node: Id, reason: string, now: Time)
    ensures NodeLosses(t, t.Keys, t, 0, node, reason, now)
  {
    assert HeldIn(t, t.Keys - t.Keys, node) == {};
  }

  lemma NodeLossesEnd(t: Table, t': Table, n: nat, node: Id, reason: string, now: Time)
    requires NodeLosses(t, {}, t', n, node, reason, now)
    ensures t' == AllNodeLost(t, node, reason, now) && n == |HeldIn(t, t.Keys, node)|
  {
    assert t.Keys - {} == t.Keys;
  }

  lemma NodeLossesStep(t: Table, todo: set<Id>, t': Table, n: nat, id: Id, node: Id, reason: string, now: Time)
    requires id in todo && todo <= t.Keys && NodeLosses(t, todo, t', n, node, reason, now)
    ensures id in t' && t'[id] == t[id]
    ensures HeldBy(t[id].job, node)
            ==> NodeLosses(t, todo - {id}, t'[id := NodeLost(t'[id], node, reason, now)], n + 1, node, reason, now)
    ensures !HeldBy(t[id].job, node)
            ==> NodeLosses(t, todo - {id}, t'[id := NodeLost(t'[id], node, reason, now)], n, node, reason, now)
  {
    NodeLossesCount(t, todo, id, node);
    var next := t'[id := NodeLost(t'[id], node, reason, now)];
    forall x | x in t ensures next[x] == if x in todo - {id} then t[x] else NodeLost(t[x], node, reason, now) {
    }
  }

  lemma NodeLossesCount(t: Table, todo: set<Id>, id: Id, node: Id)
    requires id in todo && todo <= t.Keys
    ensures |HeldIn(t, t.Keys - (todo - {id}), node)| == |HeldIn(t, t.Keys - todo, node)| + if HeldBy(t[id].job, node) then 1 else 0
  {
    assert HeldIn(t, t.Keys - (todo - {id}), node)
        == HeldIn(t, t.Keys - todo, node) + if HeldBy(t[id].job, node) then {id} else {};
  }
}
