/** Whole runs of the job registry, every operation by every caller included: the retry budget, the
    fencing of executions, and what the event log records. */
module JobRuns {
  import opened Ids
  import opened Jobs

  datatype Op =
    | Create(id: Id, name: string, command: string, maxRetries: int, now: Time)
    | Update(id: Id, params: UpdateParams, now: Time)
    | Claim(id: Id, node: Id, exec: Id, now: Time)
    | Report(id: Id, node: Id, exec: Id, res: JobResult, now: Time)
    | Timeouts(timeout: Time, now: Time)
    | NodeDown(node: Id, reason: string, now: Time)

  /** What one operation does to the job filed under `id`. */
  function EntryStep(id: Id, e: Entry, op: Op): Entry {
    match op
    case Create(_, _, _, _, _) => e
    case Update(i, p, now) => if i == id then Updated(e, p, now) else e
    case Claim(i, node, exec, now) => if i == id && Claimable(e.job, node) then Claimed(e, node, exec, now) else e
    case Report(i, node, exec, res, now) => if i == id then Reported(e, node, exec, res, now) else e
    case Timeouts(timeout, now) => TimedOut(e, timeout, now)
    case NodeDown(node, reason, now) => NodeLost(e, node, reason, now)
  }

  function Step(t: Table, op: Op): Table {
    var kept := map id | id in t :: EntryStep(id, t[id], op);
    if op.Create? then kept[op.id := NewEntry(op.id, op.name, op.command, op.maxRetries, op.now)] else kept
  }

  /** Generated ids are new, and the API admits no negative retry count. */
  ghost predicate Enabled(t: Table, op: Op) {
    && (op.Create? ==> op.id !in t && op.maxRetries >= 0)
    && (op.Claim? ==> op.exec != NO_ID && forall id :: id in t ==> Count(t[id].log, Open(op.exec)) == 0)
  }

  /** `Step` is what the registry's methods do to its entries. */
  lemma StepIsMethod(t: Table, op: Op)
    ensures op.Create? && op.id !in t
            ==> Step(t, op) == t[op.id := NewEntry(op.id, op.name, op.command, op.maxRetries, op.now)]
    ensures op.Update? && op.id in t ==> Step(t, op) == t[op.id := Updated(t[op.id], op.params, op.now)]
    ensures op.Claim? && op.id in t && Claimable(t[op.id].job, op.node)
            ==> Step(t, op) == t[op.id := Claimed(t[op.id], op.node, op.exec, op.now)]
    ensures op.Report? && op.id in t ==> Step(t, op) == t[op.id := Reported(t[op.id], op.node, op.exec, op.res, op.now)]
    ensures op.Timeouts? ==> Step(t, op) == AllTimedOut(t, op.timeout, op.now)
    ensures op.NodeDown? ==> Step(t, op) == AllNodeLost(t, op.node, op.reason, op.now)
  {
  }

  // ----- counting events

  datatype Mark = AnyClaim | Open(exec: Id) | Close(exec: Id)

  predicate Marks(ev: Event, m: Mark) {
    match m
    case AnyClaim => ev.kind.EventClaimed?
    case Open(x) => ev.kind.EventClaimed? && ev.executionId == x
    case Close(x) =>
      && (ev.kind.EventRetried? || ev.kind.EventRecovered? || ev.kind.EventSucceeded? || ev.kind.EventFailed?)
      && ev.executionId == x
  }

  function Count(log: seq<Event>, m: Mark): nat {
    if log == [] then 0
    else Count(log[..|log| - 1], m) + if Marks(log[|log| - 1], m) then 1 else 0
  }

  lemma CountAppended(log: seq<Event>, ev: Event, m: Mark)
    ensures Count(log + [ev], m) == Count(log, m) + if Marks(ev, m) then 1 else 0
  {
    assert (log + [ev])[..|log|] == log;
  }

  /** What one operation can do to one job's log: nothing, or one more event. */
  lemma LogStep(id: Id, e: Entry, op: Op)
    ensures var e' := EntryStep(id, e, op);
            e'.log == e.log || (|e'.log| == |e.log| + 1 && e'.log == e.log + [e'.log[|e.log|]])
  {
  }

  lemma CountStep(id: Id, e: Entry, op: Op, m: Mark)
    ensures var e' := EntryStep(id, e, op);
            Count(e'.log, m) == Count(e.log, m)
              + if |e'.log| > |e.log| && Marks(e'.log[|e.log|], m) then 1 else 0
  {
    LogStep(id, e, op);
    var e' := EntryStep(id, e, op);
    if e'.log != e.log {
      CountAppended(e.log, e'.log[|e.log|], m);
    }
  }

  // ----- invariants of one job

  /** A waiting job holds no execution and has a retry left. */
  predicate Waiting(j: Job) {
    j.status.Pending? || j.status.Assigned?
  }

  predicate Budget(e: Entry) {
    && e.job.maxRetries >= 0
    && e.job.attempts == Count(e.log, AnyClaim)
    && e.job.attempts <= e.job.maxRetries + 1
    && (Waiting(e.job) ==> e.job.attempts <= e.job.maxRetries && e.job.executionId == NO_ID)
  }

  /** One execution id against one log: opened at most once, closed at most once and only if opened,
      still open while it runs. */
  ghost predicate FencedFor(e: Entry, x: Id) {
    && Count(e.log, Open(x)) <= 1
    && Count(e.log, Close(x)) <= Count(e.log, Open(x))
    && (e.job.executionId == x ==> Count(e.log, Open(x)) == 1)
    && (e.job.executionId == x && e.job.status.Running? ==> Count(e.log, Close(x)) == 0)
  }

  ghost predicate Fenced(e: Entry) {
    forall x :: x != NO_ID ==> FencedFor(e, x)
  }

  lemma CountOfOne(log: seq<Event>, m: Mark)
    requires |log| == 1
    ensures Count(log, m) == if Marks(log[0], m) then 1 else 0
  {
    assert log[..0] == [];
  }

  lemma NewEntryIsGood(id: Id, name: string, command: string, maxRetries: int, now: Time)
    requires maxRetries >= 0
    ensures var e := NewEntry(id, name, command, maxRetries, now); Budget(e) && Fenced(e)
    ensures forall x :: Count(NewEntry(id, name, command, maxRetries, now).log, Open(x)) == 0
  {
    var e := NewEntry(id, name, command, maxRetries, now);
    var log := e.log;
    assert |log| == 1 && log[0].kind.EventCreated?;
    CountOfOne(log, AnyClaim);
    forall x ensures Count(log, Open(x)) == 0 && Count(log, Close(x)) == 0 {
      CountOfOne(log, Open(x));
      CountOfOne(log, Close(x));
    }
  }

  lemma BudgetKept(id: Id, e: Entry, op: Op)
    requires Budget(e)
    ensures Budget(EntryStep(id, e, op))
  {
    CountStep(id, e, op, AnyClaim);
    JobAfter(id, e, op);
  }

  /** Attempts move with claims only, and what waits again has a retry left and no execution. */
  lemma JobAfter(id: Id, e: Entry, op: Op)
    requires Waiting(e.job) ==> e.job.executionId == NO_ID
    ensures var e' := EntryStep(id, e, op);
            && e'.job.maxRetries == e.job.maxRetries
            && e'.job.attempts == e.job.attempts + (if |e'.log| > |e.log| && Marks(e'.log[|e.log|], AnyClaim) then 1 else 0)
            && (e'.job.attempts > e.job.attempts ==> e.job.status.Assigned? && !Waiting(e'.job))
            && (Waiting(e'.job) ==> e'.job.executionId == NO_ID && (Waiting(e.job) || e.job.attempts <= e.job.maxRetries))
  {
  }

  /** The event an operation adds, if any. */
  ghost predicate Adds(id: Id, e: Entry, op: Op, m: Mark) {
    var e' := EntryStep(id, e, op);
    |e'.log| > |e.log| && Marks(e'.log[|e.log|], m)
  }

  /** How an execution id moves: opened by its claim only, closed by the running job that holds it only. */
  lemma ExecutionAfter(id: Id, e: Entry, op: Op, x: Id)
    requires (Waiting(e.job) ==> e.job.executionId == NO_ID) && x != NO_ID
    ensures var j, j' := e.job, EntryStep(id, e, op).job;
            && (Adds(id, e, op, Open(x)) ==> op.Claim? && op.id == id && op.exec == x && !Adds(id, e, op, Close(x)))
            && (Adds(id, e, op, Close(x)) ==> j.executionId == x && j.status.Running? && !(j'.executionId == x && j'.status.Running?))
            && (j'.executionId == x ==> Adds(id, e, op, Open(x)) || j.executionId == x)
            && (j'.executionId == x && j'.status.Running? ==> Adds(id, e, op, Open(x)) || (j.executionId == x && j.status.Running?))
  {
  }

  lemma FenceKept(id: Id, e: Entry, op: Op, x: Id)
    requires Budget(e) && x != NO_ID && FencedFor(e, x)
    requires op.Claim? && op.exec == x ==> Count(e.log, Open(x)) == 0
    ensures FencedFor(EntryStep(id, e, op), x)
    ensures Count(EntryStep(id, e, op).log, Open(x)) == Count(e.log, Open(x))
            || (op.Claim? && op.id == id && op.exec == x)
  {
    ExecutionAfter(id, e, op, x);
    CountStep(id, e, op, Open(x));
    CountStep(id, e, op, Close(x));
  }

  // ----- runs

  /** No execution belongs to two jobs. */
  ghost predicate OwnedOnce(t: Table, x: Id) {
    forall a, b :: a in t && b in t && Count(t[a].log, Open(x)) > 0 && Count(t[b].log, Open(x)) > 0 ==> a == b
  }

  ghost predicate Good(t: Table) {
    && (forall id :: id in t ==> t[id].job.id == id && Budget(t[id]) && Fenced(t[id]))
    && (forall x :: x != NO_ID ==> OwnedOnce(t, x))
  }

  lemma StepAt(t: Table, op: Op, id: Id)
    requires Enabled(t, op)
    ensures id in Step(t, op) <==> id in t || (op.Create? && op.id == id)
    ensures id in t ==> Step(t, op)[id] == EntryStep(id, t[id], op)
    ensures op.Create? ==> Step(t, op)[op.id] == NewEntry(op.id, op.name, op.command, op.maxRetries, op.now)
  {
  }

  lemma EntryKept(t: Table, op: Op, id: Id)
    requires Good(t) && Enabled(t, op) && id in Step(t, op)
    ensures var e := Step(t, op)[id]; e.job.id == id && Budget(e) && Fenced(e)
  {
    StepAt(t, op, id);
    if id in t {
      BudgetKept(id, t[id], op);
      forall x | x != NO_ID ensures FencedFor(EntryStep(id, t[id], op), x) {
        FenceKept(id, t[id], op, x);
      }
    } else {
      NewEntryIsGood(op.id, op.name, op.command, op.maxRetries, op.now);
    }
  }

  lemma OwnerKept(t: Table, op: Op, x: Id)
    requires Good(t) && Enabled(t, op) && x != NO_ID
    ensures OwnedOnce(Step(t, op), x)
    ensures forall id :: id in Step(t, op) && Count(Step(t, op)[id].log, Open(x)) > 0
                      ==> (id in t && Count(t[id].log, Open(x)) > 0) || (op.Claim? && op.id == id && op.exec == x)
  {
    var t' := Step(t, op);
    assert OwnedOnce(t, x);
    forall id | id in t' && Count(t'[id].log, Open(x)) > 0
      ensures (id in t && Count(t[id].log, Open(x)) > 0) || (op.Claim? && op.id == id && op.exec == x)
    {
      StepAt(t, op, id);
      if id in t {
        FenceKept(id, t[id], op, x);
      } else {
        NewEntryIsGood(op.id, op.name, op.command, op.maxRetries, op.now);
      }
    }
  }

  lemma StepKeepsGood(t: Table, op: Op)
    requires Good(t) && Enabled(t, op)
    ensures Good(Step(t, op))
  {
    var t' := Step(t, op);
    forall id | id in t' ensures t'[id].job.id == id && Budget(t'[id]) && Fenced(t'[id]) {
      EntryKept(t, op, id);
    }
    forall x | x != NO_ID ensures OwnedOnce(t', x) {
      OwnerKept(t, op, x);
    }
  }

  /** A run of the registry from empty: `ts[k]` is the state before operation `k`. */
  ghost predicate IsRun(ts: seq<Table>, ops: seq<Op>) {
    && |ts| == |ops| + 1
    && ts[0] == map[]
    && forall k :: 0 <= k < |ops| ==> Moves(ts, ops, k)
  }

  ghost predicate Moves(ts: seq<Table>, ops: seq<Op>, k: nat)
    requires |ts| == |ops| + 1 && k < |ops|
  {
    Enabled(ts[k], ops[k]) && ts[k + 1] == Step(ts[k], ops[k])
  }

  lemma {:induction false} RunIsGood(ts: seq<Table>, ops: seq<Op>, k: nat)
    requires IsRun(ts, ops) && k < |ts|
    ensures Good(ts[k])
  {
    if k > 0 {
      RunIsGood(ts, ops, k - 1);
      assert Moves(ts, ops, k - 1);
      StepKeepsGood(ts[k - 1], ops[k - 1]);
    }
  }

  /** The retry budget: attempts are the claims on record, never more than one beyond the retries. */
  lemma RetryBudget(ts: seq<Table>, ops: seq<Op>, k: nat, id: Id)
    requires IsRun(ts, ops) && k < |ts| && id in ts[k]
    ensures var e := ts[k][id];
            && e.job.attempts == Count(e.log, AnyClaim) <= e.job.maxRetries + 1
            && (Waiting(e.job) ==> e.job.attempts <= e.job.maxRetries)
    ensures forall node, reason, now :: ts[k][id].job.status.Assigned? && HeldBy(ts[k][id].job, node)
              ==> NodeLost(ts[k][id], node, reason, now).job.status.Pending?
  {
    RunIsGood(ts, ops, k);
  }

  /** Creation drops the resource arguments, so no reachable job ever holds capacity. */
  lemma {:induction false} JobsAreWeightless(ts: seq<Table>, ops: seq<Op>, k: nat, id: Id)
    requires IsRun(ts, ops) && k < |ts| && id in ts[k]
    ensures ts[k][id].job.cpu == 0.0 && ts[k][id].job.memoryMB == 0
  {
    if k > 0 {
      var t, op := ts[k - 1], ops[k - 1];
      assert Moves(ts, ops, k - 1);
      StepAt(t, op, id);
      if id in t {
        JobsAreWeightless(ts, ops, k - 1, id);
      }
    }
  }

  // ----- what later operations leave alone

  /** Nothing but the completion time of a finished job can be written; logs only grow. */
  ghost predicate Later(e: Entry, e': Entry) {
    && e.log <= e'.log
    && e'.job.id == e.job.id && e'.job.maxRetries == e.job.maxRetries
    && (IsTerminal(e.job.status) ==> e'.log == e.log && e'.job == e.job.(completedAt := e'.job.completedAt))
  }

  lemma {:induction false} TerminalFrozen(ts: seq<Table>, ops: seq<Op>, k: nat, m: nat, id: Id)
    requires IsRun(ts, ops) && k <= m < |ts| && id in ts[k]
    ensures id in ts[m] && Later(ts[k][id], ts[m][id])
    decreases m
  {
    if m > k {
      TerminalFrozen(ts, ops, k, m - 1, id);
      assert Moves(ts, ops, m - 1);
      StepAt(ts[m - 1], ops[m - 1], id);
      EntryLater(id, ts[m - 1][id], ops[m - 1]);
    }
  }

  lemma EntryLater(id: Id, e: Entry, op: Op)
    ensures Later(e, EntryStep(id, e, op))
  {
  }

  // ----- fencing

  /** Execution `x` was handed out and runs nowhere any more. */
  ghost predicate Dead(t: Table, x: Id) {
    && x != NO_ID
    && (exists id :: id in t && Count(t[id].log, Open(x)) > 0)
    && forall id :: id in t ==> !(t[id].job.status.Running? && t[id].job.executionId == x)
  }

  /** Closed or replaced on the job that opened it means dead. */
  lemma SpentIsDead(t: Table, id: Id, x: Id)
    requires Good(t) && id in t && x != NO_ID
    requires Count(t[id].log, Open(x)) > 0
    requires Count(t[id].log, Close(x)) > 0 || t[id].job.executionId != x || IsTerminal(t[id].job.status)
    ensures Dead(t, x)
  {
    assert FencedFor(t[id], x) && OwnedOnce(t, x);
    forall other | other in t ensures !(t[other].job.status.Running? && t[other].job.executionId == x) {
      assert FencedFor(t[other], x);
    }
  }

  lemma DeadStaysDead(t: Table, op: Op, x: Id)
    requires Good(t) && Enabled(t, op) && Dead(t, x)
    ensures Dead(Step(t, op), x)
  {
    var t' := Step(t, op);
    var owner :| owner in t && Count(t[owner].log, Open(x)) > 0;
    StepAt(t, op, owner);
    CountStep(owner, t[owner], op, Open(x));
    assert Count(t'[owner].log, Open(x)) > 0;
    forall id | id in t' ensures !(t'[id].job.status.Running? && t'[id].job.executionId == x) {
      StepAt(t, op, id);
      if id in t {
        NotRevived(id, t[id], op, x);
      }
    }
  }

  lemma NotRevived(id: Id, e: Entry, op: Op, x: Id)
    requires Budget(e) && x != NO_ID && !(e.job.status.Running? && e.job.executionId == x)
    requires op.Claim? ==> op.exec != x
    ensures var j := EntryStep(id, e, op).job; !(j.status.Running? && j.executionId == x)
  {
  }

  lemma {:induction false} DeadForever(ts: seq<Table>, ops: seq<Op>, k: nat, m: nat, x: Id)
    requires IsRun(ts, ops) && k <= m < |ts| && Dead(ts[k], x)
    ensures Dead(ts[m], x)
    decreases m
  {
    if m > k {
      DeadForever(ts, ops, k, m - 1, x);
      assert Moves(ts, ops, m - 1);
      RunIsGood(ts, ops, m - 1);
      DeadStaysDead(ts[m - 1], ops[m - 1], x);
    }
  }

  /** Execution fencing: once execution `x` of job `id` has been closed or replaced, no report carrying it,
      for whatever job, from whatever node, at whatever later point, changes anything. */
  lemma StaleReportsAreInert(ts: seq<Table>, ops: seq<Op>, k: nat, m: nat, id: Id, x: Id,
                             target: Id, node: Id, res: JobResult, now: Time)
    requires IsRun(ts, ops) && k <= m < |ts| && id in ts[k] && x != NO_ID
    requires Count(ts[k][id].log, Open(x)) > 0
    requires Count(ts[k][id].log, Close(x)) > 0 || ts[k][id].job.executionId != x || IsTerminal(ts[k][id].job.status)
    ensures Step(ts[m], Report(target, node, x, res, now)) == ts[m]
  {
    RunIsGood(ts, ops, k);
    SpentIsDead(ts[k], id, x);
    DeadForever(ts, ops, k, m, x);
    var t, op := ts[m], Report(target, node, x, res, now);
    forall other | other in t ensures EntryStep(other, t[other], op) == t[other] {
    }
  }

  /** Over every log of a reachable registry an execution is opened at most once, by one job, and closed at
      most once, by the job that opened it. */
  lemma ExecutionsAreFenced(ts: seq<Table>, ops: seq<Op>, k: nat, a: Id, b: Id, x: Id)
    requires IsRun(ts, ops) && k < |ts| && a in ts[k] && b in ts[k] && x != NO_ID
    ensures Count(ts[k][a].log, Close(x)) <= Count(ts[k][a].log, Open(x)) <= 1
    ensures a != b ==> Count(ts[k][a].log, Open(x)) == 0 || Count(ts[k][b].log, Open(x)) == 0
    ensures ts[k][a].job.executionId == x ==> Count(ts[k][a].log, Open(x)) == 1
    ensures Current(ts[k][a].job, ts[k][a].job.assignedNodeId, x) ==> Count(ts[k][a].log, Close(x)) == 0
  {
    RunIsGood(ts, ops, k);
    assert FencedFor(ts[k][a], x) && OwnedOnce(ts[k], x);
  }

  /** A report has an effect exactly when it comes from the execution and node that hold the job. */
  lemma ReportCounts(t: Table, id: Id, node: Id, x: Id, res: JobResult, now: Time)
    ensures Step(t, Report(id, node, x, res, now)) != t <==> id in t && Current(t[id].job, node, x)
  {
    var op := Report(id, node, x, res, now);
    if id in t && Current(t[id].job, node, x) {
      assert |EntryStep(id, t[id], op).log| > |t[id].log|;
      assert Step(t, op)[id] != t[id];
    } else {
      assert Step(t, op) == t;
    }
  }

  // ----- replay

  /** What can be known of a job from its log alone. */
  datatype View = NoJob | View(status: Status, node: Id, exec: Id, attempts: int)

  function ViewOf(j: Job): View { View(j.status, j.assignedNodeId, j.executionId, j.attempts) }

  function Apply(v: View, ev: Event): View {
    if v.NoJob? then View(Pending, NO_ID, NO_ID, 0)
    else match ev.kind
      case EventCreated => v
      case EventAssigned => v.(status := Assigned, node := ev.nodeId)
      case EventClaimed => v.(status := Running, exec := ev.executionId, attempts := v.attempts + 1)
      case EventSucceeded => v.(status := Succeeded)
      case EventFailed => v.(status := Failed)
      case EventRetried => v.(status := Pending, node := NO_ID, exec := NO_ID)
      case EventRecovered => v.(status := Pending, node := NO_ID, exec := NO_ID)
  }

  function Replay(log: seq<Event>): View {
    if log == [] then NoJob else Apply(Replay(log[..|log| - 1]), log[|log| - 1])
  }

  /** The event says where it starts, who held the job and how many attempts there were, as the log before it
      says. */
  predicate Follows(v: View, ev: Event) {
    if v.NoJob? then ev.kind.EventCreated? && ev.from.None? && ev.to.Pending?
    else
      && ev.from == Some(v.status) && ev.to == Apply(v, ev).status && !ev.kind.EventCreated?
      && ev.attempts == Apply(v, ev).attempts
      && (!ev.kind.EventAssigned? ==> ev.nodeId == v.node)
      && (Marks(ev, Close(ev.executionId)) ==> ev.executionId == v.exec)
  }

  predicate ChainedAt(log: seq<Event>, i: nat)
    requires i < |log|
  {
    log[i].number == i + 1 && Follows(Replay(log[..i]), log[i])
  }

  predicate Chained(log: seq<Event>) {
    forall i :: 0 <= i < |log| ==> ChainedAt(log, i)
  }

  predicate Replays(e: Entry) {
    && |e.log| > 0
    && Replay(e.log) == ViewOf(e.job)
    && Chained(e.log)
  }

  lemma ReplayAppended(log: seq<Event>, ev: Event)
    ensures Replay(log + [ev]) == Apply(Replay(log), ev)
    ensures Chained(log) && ev.number == |log| + 1 && Follows(Replay(log), ev) ==> Chained(log + [ev])
  {
    var more := log + [ev];
    assert more[..|log|] == log;
    if Chained(log) && ev.number == |log| + 1 && Follows(Replay(log), ev) {
      forall i | 0 <= i < |more| ensures ChainedAt(more, i) {
        if i < |log| {
          assert ChainedAt(log, i) && more[..i] == log[..i];
        }
      }
    }
  }

  /** An `Update` that the log accounts for: it neither moves the status anywhere but to ASSIGNED nor hands an
      already assigned job to another node. */
  predicate Recorded(j: Job, p: UpdateParams) {
    && (p.status.Some? && !Refused(j.status, p.status.value) ==> p.status.value == j.status || p.status.value.Assigned?)
    && (j.status.Assigned? && UpdateOk(j, p) && p.assignedNodeId.Some? ==> p.assignedNodeId.value == j.assignedNodeId)
  }

  /** The change from `e` to `e'` is the one its new event, if any, tells. */
  predicate Told(e: Entry, e': Entry) {
    if e'.log == e.log then ViewOf(e'.job) == ViewOf(e.job)
    else
      && |e'.log| == |e.log| + 1 && e.log <= e'.log
      && var ev := e'.log[|e.log|];
         ev.number == |e.log| + 1 && Follows(ViewOf(e.job), ev) && Apply(ViewOf(e.job), ev) == ViewOf(e'.job)
  }

  lemma ToldReplays(e: Entry, e': Entry)
    requires Replays(e) && e.log <= e'.log && |e'.log| <= |e.log| + 1
    ensures Told(e, e') ==> Replays(e')
    ensures e'.log == e.log && !Told(e, e') ==> !Replays(e')
  {
    if e'.log != e.log {
      var ev := e'.log[|e.log|];
      assert e'.log == e.log + [ev];
      ReplayAppended(e.log, ev);
    }
  }

  lemma UpdateTold(e: Entry, p: UpdateParams, now: Time)
    ensures var e' := Updated(e, p, now);
            && e.log <= e'.log && |e'.log| <= |e.log| + 1
            && (Told(e, e') <==> Recorded(e.job, p))
            && (!Recorded(e.job, p) ==> e'.log == e.log)
  {
  }

  lemma StepTold(id: Id, e: Entry, op: Op)
    requires !op.Update?
    ensures var e' := EntryStep(id, e, op); e.log <= e'.log && |e'.log| <= |e.log| + 1 && Told(e, e')
  {
  }

  /** Replay survives an `Update` if and only if the update is a recorded one. */
  lemma UpdateReplays(e: Entry, p: UpdateParams, now: Time)
    requires Replays(e)
    ensures Replays(Updated(e, p, now)) <==> Recorded(e.job, p)
  {
    UpdateTold(e, p, now);
    ToldReplays(e, Updated(e, p, now));
  }

  /** The scheduler's call: a pending job to ASSIGNED, with a node. */
  predicate ByScheduler(j: Job, p: UpdateParams) {
    j.status.Pending? && p.assignedNodeId.Some? && p == UpdateParams(Some(Assigned), p.assignedNodeId, None, None, None)
  }

  lemma SchedulerIsRecorded(j: Job, p: UpdateParams)
    requires ByScheduler(j, p)
    ensures Recorded(j, p) && UpdateOk(j, p)
  {
  }

  lemma StepReplays(id: Id, e: Entry, op: Op)
    requires Replays(e)
    requires op.Update? && op.id == id ==> Recorded(e.job, op.params)
    ensures Replays(EntryStep(id, e, op))
  {
    if op.Update? {
      UpdateReplays(e, op.params, op.now);
    } else {
      StepTold(id, e, op);
      ToldReplays(e, EntryStep(id, e, op));
    }
  }

  /** Every `Update` of the run is recorded. */
  ghost predicate RecordedRun(ts: seq<Table>, ops: seq<Op>) {
    && IsRun(ts, ops)
    && forall k :: 0 <= k < |ops| && ops[k].Update? && ops[k].id in ts[k] ==> Recorded(ts[k][ops[k].id].job, ops[k].params)
  }

  /** Event log replay: each log chains from event to event, and folding it gives the job's status, node,
      execution and attempts, in every reachable state. */
  lemma {:induction false} LogReplays(ts: seq<Table>, ops: seq<Op>, k: nat, id: Id)
    requires RecordedRun(ts, ops) && k < |ts| && id in ts[k]
    ensures Replay(ts[k][id].log) == ViewOf(ts[k][id].job) && Chained(ts[k][id].log)
    ensures Replays(ts[k][id])
  {
    if k > 0 {
      var t, op := ts[k - 1], ops[k - 1];
      assert Moves(ts, ops, k - 1);
      StepAt(t, op, id);
      if id in t {
        LogReplays(ts, ops, k - 1, id);
        StepReplays(id, t[id], op);
      } else {
        NewReplays(op.id, op.name, op.command, op.maxRetries, op.now);
      }
    }
  }

  lemma NewReplays(id: Id, name: string, command: string, maxRetries: int, now: Time)
    ensures Replays(NewEntry(id, name, command, maxRetries, now))
  {
    var e := NewEntry(id, name, command, maxRetries, now);
    ReplayAppended([], e.log[0]);
    assert [] + [e.log[0]] == e.log;
  }

  // ----- results

  /** A finished job has a result, and it succeeded exactly if the exit code is 0. */
  predicate ResultTells(j: Job) {
    j.status == Succeeded || j.status == Failed ==>
      j.result.Some? && (j.status == Succeeded <==> j.result.value.exitCode == 0)
  }

  lemma StepTells(id: Id, e: Entry, op: Op)
    requires ResultTells(e.job) && (op.Update? && op.id == id ==> Recorded(e.job, op.params))
    ensures ResultTells(EntryStep(id, e, op).job)
  {
  }

  /** On every run whose updates the log accounts for, a finished job has a result, and SUCCEEDED means exit code 0
      and FAILED any other. */
  lemma {:induction false} ExitCodeDecides(ts: seq<Table>, ops: seq<Op>, k: nat, id: Id)
    requires RecordedRun(ts, ops) && k < |ts| && id in ts[k]
    ensures IsTerminal(ts[k][id].job.status) ==>
              ts[k][id].job.result.Some? && (ts[k][id].job.status.Succeeded? <==> ts[k][id].job.result.value.exitCode == 0)
    ensures ResultTells(ts[k][id].job)
  {
    if k > 0 {
      var t, op := ts[k - 1], ops[k - 1];
      assert Moves(ts, ops, k - 1);
      StepAt(t, op, id);
      if id in t {
        ExitCodeDecides(ts, ops, k - 1, id);
        StepTells(id, t[id], op);
      }
    }
  }

  /** Every new event carries the instant of its operation. */
  lemma EventsAreStamped(id: Id, e: Entry, op: Op)
    ensures var e' := EntryStep(id, e, op); |e'.log| > |e.log| ==> e'.log[|e.log|].timestamp == op.now
  {
  }

  /** A caller that moves an assigned job to RUNNING through `Update` always leaves the log behind. */
  lemma UpdateOutrunsLog(e: Entry, now: Time)
    requires Replays(e) && e.job.status.Assigned?
    ensures var p := UpdateParams(Some(Running), None, None, None, None);
            && UpdateOk(e.job, p) && Updated(e, p, now).job.status.Running?
            && Replay(Updated(e, p, now).log).status.Assigned?
  {
  }

  /** Every job just assigned by the scheduler is such a job. */
  lemma AssignedReplays(e: Entry, node: Id, now: Time)
    requires Replays(e) && e.job.status.Pending?
    ensures var p := UpdateParams(Some(Assigned), Some(node), None, None, None);
            Replays(Updated(e, p, now)) && Updated(e, p, now).job.status.Assigned?
  {
    var p := UpdateParams(Some(Assigned), Some(node), None, None, None);
    assert Recorded(e.job, p);
    UpdateReplays(e, p, now);
  }

  // ----- a rejected update can end a job

  /** An `Update` answered with an error changes the job if and only if it asks to end a running job and also to
      write node, start time or result; the status moves, nothing else does, and no event is logged. */
  lemma RejectedUpdateMoves(e: Entry, p: UpdateParams, now: Time)
    requires !UpdateOk(e.job, p)
    ensures Updated(e, p, now) != e
            <==> e.job.status.Running? && SetsExecution(p) && (p.status == Some(Succeeded) || p.status == Some(Failed))
    ensures Updated(e, p, now) != e ==> Updated(e, p, now) == Entry(e.job.(status := p.status.value), e.log)
  {
  }

  /** An answered error that ends the job it refuses to edit. */
  ghost predicate EndsBehindError(t: Table, op: Op, id: Id) {
    && op.Update? && op.id == id && id in t && t[id].job.status.Running?
    && SetsExecution(op.params) && (op.params.status == Some(Succeeded) || op.params.status == Some(Failed))
  }

  /** On every run: after such a call, although it was answered with an error, the job is finished for good, with
      the result and the log it had while running, and not even the execution that holds it can report any more. */
  lemma ErrorEndsJob(ts: seq<Table>, ops: seq<Op>, k: nat, m: nat, id: Id, node: Id, x: Id, res: JobResult, now: Time)
    requires IsRun(ts, ops) && k < |ops| && k < m < |ts| && EndsBehindError(ts[k], ops[k], id)
    ensures !UpdateOk(ts[k][id].job, ops[k].params)
    ensures id in ts[m] && Some(ts[m][id].job.status) == ops[k].params.status
    ensures ts[m][id].log == ts[k][id].log && ts[m][id].job.result == ts[k][id].job.result
    ensures Step(ts[m], Report(id, node, x, res, now)) == ts[m]
  {
    assert Moves(ts, ops, k);
    StepAt(ts[k], ops[k], id);
    RejectedUpdateMoves(ts[k][id], ops[k].params, ops[k].now);
    TerminalFrozen(ts, ops, k + 1, m, id);
    ReportCounts(ts[m], id, node, x, res, now);
  }

  /** Every running job of every run can be ended so. */
  lemma ErrorCanEnd(ts: seq<Table>, ops: seq<Op>, id: Id, res: JobResult, now: Time)
    requires IsRun(ts, ops) && id in ts[|ops|] && ts[|ops|][id].job.status.Running?
    ensures var op := Update(id, UpdateParams(Some(Succeeded), None, None, None, Some(res)), now);
            EndsBehindError(ts[|ops|], op, id) && IsRun(ts + [Step(ts[|ops|], op)], ops + [op])
  {
    var op := Update(id, UpdateParams(Some(Succeeded), None, None, None, Some(res)), now);
    RunExtends(ts, ops, op);
  }

  lemma RunExtends(ts: seq<Table>, ops: seq<Op>, op: Op)
    requires IsRun(ts, ops) && Enabled(ts[|ops|], op)
    ensures IsRun(ts + [Step(ts[|ops|], op)], ops + [op])
  {
    var ts', ops' := ts + [Step(ts[|ops|], op)], ops + [op];
    forall k | 0 <= k < |ops'| ensures Moves(ts', ops', k) {
      if k < |ops| {
        assert Moves(ts, ops, k);
      }
    }
  }

  /** A run that has just created a job. */
  lemma CreatedIsReachable(id: Id, name: string, command: string, maxRetries: nat) returns (ts: seq<Table>, ops: seq<Op>)
    ensures IsRun(ts, ops) && ts[|ops|] == map[id := NewEntry(id, name, command, maxRetries, 0)]
  {
    var create := Create(id, name, command, maxRetries, 0);
    assert IsRun([map[]], []);
    RunExtends([map[]], [], create);
    ts, ops := [map[]] + [Step(map[], create)], [] + [create];
    assert Step(map[], create) == map[id := NewEntry(id, name, command, maxRetries, 0)];
  }

  /** The one job of a run, moved by one more operation on it. */
  lemma OneMoreOp(ts: seq<Table>, ops: seq<Op>, id: Id, e: Entry, op: Op) returns (ts': seq<Table>, ops': seq<Op>)
    requires IsRun(ts, ops) && ts[|ops|] == map[id := e] && Enabled(ts[|ops|], op) && !op.Create?
    ensures IsRun(ts', ops') && ts'[|ops'|] == map[id := EntryStep(id, e, op)]
  {
    RunExtends(ts, ops, op);
    ts', ops' := ts + [Step(ts[|ops|], op)], ops + [op];
    assert Step(map[id := e], op) == map[id := EntryStep(id, e, op)];
  }

  /** A run that reaches a running job, for every id, node and execution. */
  lemma RunningIsReachable(id: Id, name: string, command: string, node: Id, exec: Id, maxRetries: nat)
    returns (ts: seq<Table>, ops: seq<Op>)
    requires exec != NO_ID
    ensures IsRun(ts, ops) && id in ts[|ops|] && ts[|ops|][id].job.status.Running? && ts[|ops|][id].job.result.None?
  {
    var e1 := NewEntry(id, name, command, maxRetries, 0);
    var assign, claim := Update(id, UpdateParams(Some(Assigned), Some(node), None, None, None), 1), Claim(id, node, exec, 2);
    NewEntryIsGood(id, name, command, maxRetries, 0);
    WaysToRunning(id, e1, node, exec, assign, claim);
    ts, ops := CreatedIsReachable(id, name, command, maxRetries);
    ts, ops := OneMoreOp(ts, ops, id, e1, assign);
    ts, ops := OneMoreOp(ts, ops, id, EntryStep(id, e1, assign), claim);
  }

  lemma WaysToRunning(id: Id, e: Entry, node: Id, exec: Id, assign: Op, claim: Op)
    requires e.job.status.Pending? && e.job.result.None? && Count(e.log, Open(exec)) == 0
    requires assign == Update(id, UpdateParams(Some(Assigned), Some(node), None, None, None), 1) && claim == Claim(id, node, exec, 2)
    ensures var e2 := EntryStep(id, e, assign);
            && Count(e2.log, Open(exec)) == 0
            && EntryStep(id, e2, claim).job.status.Running? && EntryStep(id, e2, claim).job.result.None?
  {
    CountStep(id, e, assign, Open(exec));
  }
}
