/** Rolling updates from a single previous deployment over whole runs: availability, convergence and completion,
    for every drain period. */
module RollingRuns {
  import opened Ids
  import opened Instances
  import opened Deployments
  import opened RolloutMath
  import opened RolloutController
  import opened Reconciler
  import opened PassLaws
  import opened Draining
  import opened Rollouts

  /** The application has one previous deployment besides the active one, and nothing active drains. */
  ghost predicate FromOne(s: State, r: Rollout, previous: Id) {
    && Rolling(s, r) && ActiveStays(s.instances, r)
    && previous != r.active && AppDeps(s.deployments, r.app) == {r.active, previous}
  }

  lemma SortedSingle(x: Id)
    ensures Sorted({x}) == [x]
  {
    SortedAscends({x});
    SortedElements({x});
    assert Sorted({x})[0] in Elements(Sorted({x}));
  }

  lemma OutsideIsPrevious(s: State, r: Rollout, previous: Id)
    requires FromOne(s, r, previous)
    ensures Where(s.instances, ViableOutside(r.app, r.active)) == Where(s.instances, ViableIn(r.app, previous))
    ensures Where(s.instances, StayingOutside(r.app, r.active)) == Where(s.instances, StayingIn(r.app, previous))
    ensures Where(s.instances, ServingOutside(r.app, r.active)) == Where(s.instances, ServingIn(r.app, previous))
  {
    var m := s.instances;
    forall id | id in m && m[id].applicationId == r.app ensures m[id].deploymentId != r.active <==> m[id].deploymentId == previous {
      assert m[id].deploymentId in AppDeps(s.deployments, r.app);
    }
  }

  /** The whole old total goes to the one previous deployment. */
  lemma OneShare(s: State, r: Rollout, previous: Id)
    requires FromOne(s, r, previous)
    ensures Olds(s, r) == [previous] && Shares(s, r) == [PlanAt(s, r).oldTotal]
  {
    assert AppDeps(s.deployments, r.app) - {r.active} == {previous};
    SortedSingle(previous);
    OutsideIsPrevious(s, r, previous);
    SharesOf(s, r);
    assert Shares(s, r)[0] == PlanAt(s, r).oldTotal by {
      assert Held(s.instances, r.app, Olds(s, r))[0] == CountsAt(s, r).oldViable;
    }
  }

  lemma PassKeepsOne(s: State, s': State, r: Rollout, previous: Id, drainTimeout: Time, now: Time)
    requires FromOne(s, r, previous) && PassAt(s, s', r, drainTimeout, now)
    ensures FromOne(s', r, previous)
  {
    PassKeeps(s, s', r, drainTimeout, now);
    PassKeepsActive(s, s', r, drainTimeout, now);
  }

  /** The refinement: a pass over the registries is a tick of the arithmetic, whatever the drain period. */
  lemma PassTicks(s: State, s': State, r: Rollout, previous: Id, drainTimeout: Time, now: Time)
    requires FromOne(s, r, previous) && PassAt(s, s', r, drainTimeout, now)
    ensures FromOne(s', r, previous)
    ensures Ticks(r.params, CountsAt(s, r), CountsAt(s', r))
    ensures StatusAt(s', r) == NextStatus(StatusAt(s, r), r.params, CountsAt(s, r))
  {
    PassKeeps(s, s', r, drainTimeout, now);
    PassKeepsOne(s, s', r, previous, drainTimeout, now);
    OneShare(s, r, previous);
    ActiveGrows(s, s', r, drainTimeout, now);
    OldShrinks(s, s', r, drainTimeout, now, 0);
    OutsideIsPrevious(s, r, previous);
    OutsideIsPrevious(s', r, previous);
    SubsetSize(Where(s'.instances, ViableIn(r.app, previous)), Where(s.instances, ViableIn(r.app, previous)));
    CountsAreProper(s'.instances, r);
  }

  // ----- availability

  /** Availability: from a full previous version and no active instance, every state of every run, for whatever
      drain period, has at least max(0, D - U) instances that are ready and not draining, and every pass leaves at
      most D + S that are viable and not draining. */
  lemma {:induction false} RollingSafety(run: seq<State>, r: Rollout, previous: Id, k: nat)
    requires RunOf(run, r) && k < |run| && FromOne(run[0], r, previous)
    requires CountsAt(run[0], r).activeViable == 0 && CountsAt(run[0], r).oldReady >= r.params.Floor()
    ensures FromOne(run[k], r, previous) && Safe(r.params, CountsAt(run[k], r))
    ensures CountsAt(run[k], r).Ready() >= r.params.Floor()
    ensures k > 0 && PassStep(run[k - 1], run[k], r) ==> CountsAt(run[k], r).Staying() <= r.params.Ceiling()
  {
    if k == 0 {
      CountsAreProper(run[0].instances, r);
      StartIsSafe(r.params, CountsAt(run[0], r));
    } else {
      RollingSafety(run, r, previous, k - 1);
      assert StepOf(run[k - 1], run[k], r);
      if PassStep(run[k - 1], run[k], r) {
        var drainTimeout, now :| PassAt(run[k - 1], run[k], r, drainTimeout, now);
        PassTicks(run[k - 1], run[k], r, previous, drainTimeout, now);
        TickIsSafe(r.params, CountsAt(run[k - 1], r), CountsAt(run[k], r));
      } else {
        AgentsProgress(run[k - 1], run[k], r);
        ProgressIsSafe(r.params, CountsAt(run[k - 1], r), CountsAt(run[k], r));
      }
    }
  }

  // ----- a surge keeps old instances, on every run

  /** Old instances are left, the active deployment is within its desired count, and COMPLETED was not reached. */
  ghost predicate Unfinished(s: State, r: Rollout, previous: Id) {
    && FromOne(s, r, previous)
    && CountsAt(s, r).oldViable >= 1 && CountsAt(s, r).activeViable <= r.params.desired
    && !StatusAt(s, r).RolloutCompleted?
  }

  lemma SurgeStep(s: State, s': State, r: Rollout, previous: Id)
    requires Unfinished(s, r, previous) && StepOf(s, s', r) && r.params.surge >= 1
    ensures Unfinished(s', r, previous)
  {
    CountsAreProper(s.instances, r);
    if PassStep(s, s', r) {
      var drainTimeout, now :| PassAt(s, s', r, drainTimeout, now);
      PassTicks(s, s', r, previous, drainTimeout, now);
      SurgeKeepsOld(r.params, CountsAt(s, r), CountsAt(s', r));
    } else {
      AgentsProgress(s, s', r);
    }
  }

  /** With MaxSurge >= 1 an old instance is left in every state of every run, and the rollout never becomes
      COMPLETED, however slowly or quickly instances come up and whatever the drain period. */
  lemma {:induction false} SurgeNeverCompletes(run: seq<State>, r: Rollout, previous: Id, k: nat)
    requires RunOf(run, r) && k < |run| && Unfinished(run[0], r, previous) && r.params.surge >= 1
    ensures Unfinished(run[k], r, previous)
    ensures CountsAt(run[k], r).oldViable >= 1 && !StatusAt(run[k], r).RolloutCompleted?
  {
    if k > 0 {
      SurgeNeverCompletes(run, r, previous, k - 1);
      assert StepOf(run[k - 1], run[k], r);
      SurgeStep(run[k - 1], run[k], r, previous);
    }
  }

  // ----- drain times

  /** What drains of the previous deployment was told so by the instant `t`. */
  ghost predicate DrainsBy(m: Table, app: Id, previous: Id, t: Time) {
    ToldBy(Group(m, app, previous), t)
  }

  lemma PassDrains(s: State, s': State, r: Rollout, previous: Id, drainTimeout: Time, now: Time, t: Time)
    requires FromOne(s, r, previous) && PassAt(s, s', r, drainTimeout, now) && DrainsBy(s.instances, r.app, previous, t) && t <= now
    ensures DrainsBy(s'.instances, r.app, previous, now)
    ensures CountsAt(s', r).oldStaying == CountsAt(s, r).oldStaying ==> DrainsBy(s'.instances, r.app, previous, t)
  {
    PassKeepsOne(s, s', r, previous, drainTimeout, now);
    OneShare(s, r, previous);
    OldShrinks(s, s', r, drainTimeout, now, 0);
    OutsideIsPrevious(s, r, previous);
    OutsideIsPrevious(s', r, previous);
    GroupIsOne(s.instances, r.app, previous);
    GroupCounts(s.instances, r.app, previous);
    GroupCounts(s'.instances, r.app, previous);
    ScaledDrains(Group(s.instances, r.app, previous), Group(s'.instances, r.app, previous), r.app, previous,
                 PlanAt(s, r).oldTotal, drainTimeout, now, t);
  }

  /** Once everything that drains has done so for the whole period, a pass empties what it gives up. */
  lemma DuePassEmpties(s: State, s': State, r: Rollout, previous: Id, drainTimeout: Time, now: Time, t: Time)
    requires FromOne(s, r, previous) && PassAt(s, s', r, drainTimeout, now)
    requires DrainsBy(s.instances, r.app, previous, t) && now - t >= drainTimeout
    ensures Empties(r.params, CountsAt(s, r), CountsAt(s', r), drainTimeout <= 0)
  {
    PassKeepsOne(s, s', r, previous, drainTimeout, now);
    OneShare(s, r, previous);
    OldShrinks(s, s', r, drainTimeout, now, 0);
    OutsideIsPrevious(s, r, previous);
    OutsideIsPrevious(s', r, previous);
    GroupIsOne(s.instances, r.app, previous);
    GroupCounts(s.instances, r.app, previous);
    GroupCounts(s'.instances, r.app, previous);
    AllDueEmpties(Group(s.instances, r.app, previous), Group(s'.instances, r.app, previous), r.app, previous,
                  PlanAt(s, r).oldTotal, drainTimeout, now);
  }

  // ----- convergence

  /** The agents bring every active instance up, then a pass runs. */
  ghost predicate Round(s: State, up: State, s': State, r: Rollout, drainTimeout: Time, now: Time) {
    && AgentStep(s, up, r) && PassAt(up, s', r, drainTimeout, now)
    && CountsAt(up, r).activeReady == CountsAt(up, r).activeViable
  }

  /** Rounds: `starts[k]` before round `k`, whose pass runs at `times[k]` on `ups[k]`. */
  datatype Rounds = Rounds(starts: seq<State>, ups: seq<State>, times: seq<Time>)

  ghost predicate RoundAt(w: Rounds, r: Rollout, drainTimeout: Time, k: nat)
    requires |w.starts| == |w.ups| + 1 && |w.times| == |w.ups| && k < |w.ups|
  {
    && Round(w.starts[k], w.ups[k], w.starts[k + 1], r, drainTimeout, w.times[k])
    && (k > 0 ==> w.times[k - 1] <= w.times[k])
  }

  ghost predicate AreRounds(w: Rounds, r: Rollout, previous: Id, drainTimeout: Time) {
    && |w.starts| == |w.ups| + 1 && |w.times| == |w.ups|
    && UnderwayAt(w, r, previous, 0)
    && forall k :: 0 <= k < |w.ups| ==> RoundAt(w, r, drainTimeout, k)
  }

  ghost function MeasureAt(s: State, r: Rollout, drainTimeout: Time): int {
    Measure(r.params, CountsAt(s, r), drainTimeout <= 0)
  }

  ghost predicate SettledAt(s: State, r: Rollout) { Settled(r.params, CountsAt(s, r)) }

  /** What one pass does once every active instance is up. */
  lemma PassApproaches(s: State, s': State, r: Rollout, previous: Id, drainTimeout: Time, now: Time, t: Time)
    requires FromOne(s, r, previous) && Live(r.params) && PassAt(s, s', r, drainTimeout, now)
    requires CountsAt(s, r).activeReady == CountsAt(s, r).activeViable <= r.params.desired
    requires DrainsBy(s.instances, r.app, previous, t) && t <= now
    ensures FromOne(s', r, previous) && CountsAt(s', r).activeViable <= r.params.desired
    ensures DrainsBy(s'.instances, r.app, previous, now)
    ensures MeasureAt(s', r, drainTimeout) <= MeasureAt(s, r, drainTimeout)
    ensures MeasureAt(s', r, drainTimeout) == MeasureAt(s, r, drainTimeout) ==> DrainsBy(s'.instances, r.app, previous, t)
    ensures SettledAt(s, r) ==> SettledAt(s', r)
    ensures now - t >= drainTimeout && !SettledAt(s, r) ==> MeasureAt(s', r, drainTimeout) < MeasureAt(s, r, drainTimeout)
  {
    var c, c', atOnce := CountsAt(s, r), CountsAt(s', r), drainTimeout <= 0;
    CountsAreProper(s.instances, r);
    PassTicks(s, s', r, previous, drainTimeout, now);
    PassDrains(s, s', r, previous, drainTimeout, now, t);
    if now - t >= drainTimeout {
      DuePassEmpties(s, s', r, previous, drainTimeout, now, t);
    }
    TickApproaches(r.params, c, c', atOnce);
    SameMeasure(r.params, c, c', atOnce);
  }

  lemma SameMeasure(p: Params, c: Counts, c': Counts, atOnce: bool)
    requires p.Sane() && c.Proper() && Ticks(p, c, c') && c.activeViable <= p.desired
    requires atOnce ==> Empties(p, c, c', atOnce)
    ensures Measure(p, c', atOnce) == Measure(p, c, atOnce) ==> c'.oldStaying == c.oldStaying
  {
  }

  /** A round, seen from the state it starts in. */
  lemma RoundApproaches(s: State, up: State, s': State, r: Rollout, previous: Id, drainTimeout: Time, now: Time, t: Time)
    requires FromOne(s, r, previous) && Live(r.params) && Round(s, up, s', r, drainTimeout, now)
    requires CountsAt(s, r).activeViable <= r.params.desired && DrainsBy(s.instances, r.app, previous, t) && t <= now
    ensures FromOne(s', r, previous) && CountsAt(s', r).activeViable <= r.params.desired
    ensures DrainsBy(s'.instances, r.app, previous, now)
    ensures MeasureAt(s', r, drainTimeout) <= MeasureAt(s, r, drainTimeout)
    ensures MeasureAt(s', r, drainTimeout) == MeasureAt(s, r, drainTimeout) ==> DrainsBy(s'.instances, r.app, previous, t)
    ensures SettledAt(s, r) ==> SettledAt(s', r)
    ensures now - t >= drainTimeout && !SettledAt(s, r) ==> MeasureAt(s', r, drainTimeout) < MeasureAt(s, r, drainTimeout)
  {
    UpBefore(s, up, r, previous, drainTimeout, t);
    PassApproaches(up, s', r, previous, drainTimeout, now, t);
  }

  /** Coming up changes neither the measure nor what drains. */
  lemma UpBefore(s: State, up: State, r: Rollout, previous: Id, drainTimeout: Time, t: Time)
    requires FromOne(s, r, previous) && AgentStep(s, up, r) && DrainsBy(s.instances, r.app, previous, t)
    ensures FromOne(up, r, previous) && DrainsBy(up.instances, r.app, previous, t)
    ensures CountsAt(up, r).activeViable == CountsAt(s, r).activeViable
    ensures MeasureAt(up, r, drainTimeout) == MeasureAt(s, r, drainTimeout) && SettledAt(up, r) == SettledAt(s, r)
  {
    AgentsProgress(s, up, r);
    AgentsKeepDrains(s, up, r, previous, t);
  }

  lemma AgentsKeepDrains(s: State, s': State, r: Rollout, previous: Id, t: Time)
    requires AgentStep(s, s', r) && DrainsBy(s.instances, r.app, previous, t)
    ensures DrainsBy(s'.instances, r.app, previous, t)
  {
    var g, g' := Group(s.instances, r.app, previous), Group(s'.instances, r.app, previous);
    forall id | id in g' ensures id in g && Carries(g[id], g'[id]) {
    }
  }

  /** What holds before every round. */
  ghost predicate Underway(s: State, r: Rollout, previous: Id) {
    FromOne(s, r, previous) && CountsAt(s, r).activeViable <= r.params.desired
  }

  lemma RoundKeeps(s: State, up: State, s': State, r: Rollout, previous: Id, drainTimeout: Time, now: Time)
    requires Underway(s, r, previous) && DrainsBy(s.instances, r.app, previous, now)
    requires Live(r.params) && Round(s, up, s', r, drainTimeout, now)
    ensures Underway(s', r, previous) && DrainsBy(s'.instances, r.app, previous, now)
  {
    RoundApproaches(s, up, s', r, previous, drainTimeout, now, now);
  }

  lemma NextUnderway(w: Rounds, r: Rollout, previous: Id, drainTimeout: Time, j: nat, k: nat)
    requires AreRounds(w, r, previous, drainTimeout) && Live(r.params) && k == j + 1 <= |w.ups|
    requires UnderwayAt(w, r, previous, j)
    ensures UnderwayAt(w, r, previous, k)
  {
    RoundAfter(w, r, previous, drainTimeout, j, k);
    if k < |w.ups| {
      TimesAscend(w, r, previous, drainTimeout, j, k);
      ToldLater(w.starts[k], r, previous, w.times[j], w.times[k]);
    }
  }

  lemma RoundAfter(w: Rounds, r: Rollout, previous: Id, drainTimeout: Time, j: nat, k: nat)
    requires AreRounds(w, r, previous, drainTimeout) && Live(r.params) && k == j + 1 <= |w.ups|
    requires UnderwayAt(w, r, previous, j)
    ensures Underway(w.starts[k], r, previous) && DrainsBy(w.starts[k].instances, r.app, previous, w.times[j])
  {
    assert RoundAt(w, r, drainTimeout, j);
    RoundKeeps(w.starts[j], w.ups[j], w.starts[k], r, previous, drainTimeout, w.times[j]);
  }

  lemma TimesAscend(w: Rounds, r: Rollout, previous: Id, drainTimeout: Time, j: nat, k: nat)
    requires AreRounds(w, r, previous, drainTimeout) && k == j + 1 < |w.ups|
    ensures w.times[j] <= w.times[k]
  {
    assert RoundAt(w, r, drainTimeout, k);
  }

  /** What holds before round `k`. */
  ghost predicate UnderwayAt(w: Rounds, r: Rollout, previous: Id, k: nat)
    requires |w.starts| == |w.ups| + 1 && |w.times| == |w.ups| && k <= |w.ups|
  {
    && Underway(w.starts[k], r, previous)
    && (k < |w.ups| ==> DrainsBy(w.starts[k].instances, r.app, previous, w.times[k]))
  }

  lemma {:induction false} RoundsKeep(w: Rounds, r: Rollout, previous: Id, drainTimeout: Time, k: nat)
    requires AreRounds(w, r, previous, drainTimeout) && Live(r.params) && k <= |w.ups|
    ensures UnderwayAt(w, r, previous, k)
  {
    if k == 0 {
      assert UnderwayAt(w, r, previous, 0);
    } else {
      var j := k - 1;
      RoundsKeep(w, r, previous, drainTimeout, j);
      NextUnderway(w, r, previous, drainTimeout, j, k);
    }
  }

  lemma ToldLater(s: State, r: Rollout, previous: Id, t: Time, t': Time)
    requires DrainsBy(s.instances, r.app, previous, t) && t <= t'
    ensures DrainsBy(s.instances, r.app, previous, t')
  {
  }

  /** What the argument for convergence needs of a sequence of rounds: the measures, whether settled, the instants,
      and by when everything that drains before a round was told so. */
  datatype Descent = Descent(measures: seq<int>, settled: seq<bool>, times: seq<Time>, told: (nat, Time) -> bool)

  ghost predicate DescendsAt(d: Descent, period: Time, k: nat)
    requires |d.measures| == |d.settled| == |d.times| + 1 && k < |d.times|
  {
    && d.told(k, d.times[k]) && (k > 0 ==> d.times[k - 1] <= d.times[k])
    && (d.settled[k] ==> d.settled[k + 1])
    && forall t :: d.told(k, t) && t <= d.times[k] ==>
         && d.measures[k + 1] <= d.measures[k]
         && (d.measures[k + 1] == d.measures[k] ==> d.told(k + 1, t))
         && (d.times[k] - t >= period && !d.settled[k] ==> d.measures[k + 1] < d.measures[k])
  }

  ghost predicate Descends(d: Descent, period: Time) {
    && |d.measures| == |d.settled| == |d.times| + 1
    && forall k :: 0 <= k < |d.times| ==> DescendsAt(d, period, k)
  }

  /** Over a stretch the measure only falls, settled stays settled, and while the measure stands still nothing new
      drains. */
  lemma {:induction false} StretchFalls(d: Descent, period: Time, j: nat, k: nat)
    requires Descends(d, period) && j <= k < |d.measures| && j < |d.times|
    ensures d.measures[k] <= d.measures[j] && (d.settled[j] ==> d.settled[k])
    ensures d.measures[k] == d.measures[j] ==> d.told(k, d.times[j])
    ensures k < |d.times| ==> d.times[j] <= d.times[k]
    decreases k
  {
    assert DescendsAt(d, period, j);
    if k > j {
      var i := k - 1;
      StretchFalls(d, period, j, i);
      assert DescendsAt(d, period, i);
      if k < |d.times| {
        assert DescendsAt(d, period, k);
      }
    }
  }

  /** A stretch that lasts the period strictly approaches the settled state. */
  lemma LapFalls(d: Descent, period: Time, j: nat, k: nat)
    requires Descends(d, period) && j < k <= |d.times| && d.times[k - 1] - d.times[j] >= period
    ensures d.settled[k] || d.measures[k] < d.measures[j]
  {
    var i := k - 1;
    StretchFalls(d, period, j, i);
    assert DescendsAt(d, period, i);
    assert d.measures[i] < d.measures[j] || d.told(i, d.times[j]);
  }

  /** Consecutive stretches, each at least the period long; without a period, single rounds will do. */
  ghost predicate AreLaps(laps: seq<nat>, times: seq<Time>, period: Time) {
    && laps != [] && laps[0] == 0
    && forall i :: 0 < i < |laps| ==> LapAt(laps, times, period, i)
  }

  ghost predicate LapAt(laps: seq<nat>, times: seq<Time>, period: Time, i: nat)
    requires 0 < i < |laps|
  {
    laps[i - 1] < laps[i] <= |times| && times[laps[i] - 1] - times[laps[i - 1]] >= period
  }

  lemma {:induction false} LapsFall(d: Descent, period: Time, laps: seq<nat>, i: nat)
    requires Descends(d, period) && AreLaps(laps, d.times, period) && i < |laps|
    ensures laps[i] <= |d.times|
    ensures d.settled[laps[i]] || d.measures[laps[i]] + i <= d.measures[0]
  {
    if i > 0 {
      LapsFall(d, period, laps, i - 1);
      assert LapAt(laps, d.times, period, i);
      LapFalls(d, period, laps[i - 1], laps[i]);
      StretchFalls(d, period, laps[i - 1], laps[i]);
    }
  }

  ghost function DescentOf(w: Rounds, r: Rollout, previous: Id, drainTimeout: Time): Descent {
    Descent(seq(|w.starts|, k requires 0 <= k < |w.starts| => MeasureAt(w.starts[k], r, drainTimeout)),
            seq(|w.starts|, k requires 0 <= k < |w.starts| => SettledAt(w.starts[k], r)),
            w.times,
            (k: nat, t: Time) => k < |w.starts| && DrainsBy(w.starts[k].instances, r.app, previous, t))
  }

  /** How a round moves, for every instant by which what drains was told so. */
  ghost predicate Falls(s: State, s': State, r: Rollout, previous: Id, drainTimeout: Time, now: Time) {
    forall t :: DrainsBy(s.instances, r.app, previous, t) && t <= now ==>
      && MeasureAt(s', r, drainTimeout) <= MeasureAt(s, r, drainTimeout)
      && (MeasureAt(s', r, drainTimeout) == MeasureAt(s, r, drainTimeout) ==> DrainsBy(s'.instances, r.app, previous, t))
      && (now - t >= drainTimeout && !SettledAt(s, r) ==> MeasureAt(s', r, drainTimeout) < MeasureAt(s, r, drainTimeout))
  }

  lemma RoundFalls(s: State, up: State, s': State, r: Rollout, previous: Id, drainTimeout: Time, now: Time)
    requires Underway(s, r, previous) && DrainsBy(s.instances, r.app, previous, now)
    requires Live(r.params) && Round(s, up, s', r, drainTimeout, now)
    ensures Falls(s, s', r, previous, drainTimeout, now) && (SettledAt(s, r) ==> SettledAt(s', r))
  {
    RoundApproaches(s, up, s', r, previous, drainTimeout, now, now);
    forall t | DrainsBy(s.instances, r.app, previous, t) && t <= now
      ensures MeasureAt(s', r, drainTimeout) == MeasureAt(s, r, drainTimeout) ==> DrainsBy(s'.instances, r.app, previous, t)
      ensures now - t >= drainTimeout && !SettledAt(s, r) ==> MeasureAt(s', r, drainTimeout) < MeasureAt(s, r, drainTimeout)
    {
      RoundApproaches(s, up, s', r, previous, drainTimeout, now, t);
    }
  }

  lemma FallsDescends(w: Rounds, r: Rollout, previous: Id, drainTimeout: Time, k: nat, next: nat)
    requires |w.starts| == |w.ups| + 1 && |w.times| == |w.ups| && k < |w.ups| && next == k + 1
    requires DrainsBy(w.starts[k].instances, r.app, previous, w.times[k]) && (k > 0 ==> w.times[k - 1] <= w.times[k])
    requires Falls(w.starts[k], w.starts[next], r, previous, drainTimeout, w.times[k])
    requires SettledAt(w.starts[k], r) ==> SettledAt(w.starts[next], r)
    ensures DescendsAt(DescentOf(w, r, previous, drainTimeout), drainTimeout, k)
  {
    var d := DescentOf(w, r, previous, drainTimeout);
    assert d.measures[k] == MeasureAt(w.starts[k], r, drainTimeout) && d.measures[next] == MeasureAt(w.starts[next], r, drainTimeout);
    assert d.settled[k] == SettledAt(w.starts[k], r) && d.settled[next] == SettledAt(w.starts[next], r);
    assert forall t :: d.told(k, t) == DrainsBy(w.starts[k].instances, r.app, previous, t);
    assert forall t :: d.told(next, t) == DrainsBy(w.starts[next].instances, r.app, previous, t);
  }

  lemma RoundDescends(w: Rounds, r: Rollout, previous: Id, drainTimeout: Time, k: nat)
    requires AreRounds(w, r, previous, drainTimeout) && Live(r.params) && k < |w.ups|
    ensures DescendsAt(DescentOf(w, r, previous, drainTimeout), drainTimeout, k)
  {
    RoundsKeep(w, r, previous, drainTimeout, k);
    assert RoundAt(w, r, drainTimeout, k);
    RoundFalls(w.starts[k], w.ups[k], w.starts[k + 1], r, previous, drainTimeout, w.times[k]);
    FallsDescends(w, r, previous, drainTimeout, k, k + 1);
  }

  lemma RoundsDescend(w: Rounds, r: Rollout, previous: Id, drainTimeout: Time)
    requires AreRounds(w, r, previous, drainTimeout) && Live(r.params)
    ensures Descends(DescentOf(w, r, previous, drainTimeout), drainTimeout)
  {
    var d := DescentOf(w, r, previous, drainTimeout);
    forall k | 0 <= k < |d.times| ensures DescendsAt(d, drainTimeout, k) {
      RoundDescends(w, r, previous, drainTimeout, k);
    }
  }

  /** Laps enough for everything to be created, marked and stopped. */
  ghost function Needed(s: State, r: Rollout, drainTimeout: Time): int {
    r.params.desired + CountsAt(s, r).oldViable + if drainTimeout <= 0 then 0 else CountsAt(s, r).oldStaying
  }

  lemma DoneIsSettled(p: Params, c: Counts, atOnce: bool)
    requires p.Sane() && c.Proper() && c.activeViable <= p.desired && Measure(p, c, atOnce) <= 0
    ensures Settled(p, c)
  {
  }

  /** Convergence for every drain period: if active instances come up between passes, then after enough stretches
      of that length the active deployment is at its desired count and at most the surge is left of the old one,
      draining instances included, and it stays so. */
  lemma RollingConverges(w: Rounds, r: Rollout, previous: Id, drainTimeout: Time, laps: seq<nat>, k: nat)
    requires AreRounds(w, r, previous, drainTimeout) && Live(r.params) && AreLaps(laps, w.times, drainTimeout)
    requires |laps| > Needed(w.starts[0], r, drainTimeout) && laps[|laps| - 1] <= k <= |w.ups|
    ensures CountsAt(w.starts[k], r).activeViable == r.params.desired
    ensures CountsAt(w.starts[k], r).oldViable <= r.params.surge
  {
    var n := |laps| - 1;
    RoundsDescend(w, r, previous, drainTimeout);
    DescentEnds(w, r, previous, drainTimeout, laps, n);
    EnoughLaps(w, r, previous, drainTimeout, laps[n], n);
    SettledStays(w, r, previous, drainTimeout, laps[n], k);
  }

  lemma DescentEnds(w: Rounds, r: Rollout, previous: Id, drainTimeout: Time, laps: seq<nat>, n: nat)
    requires |w.starts| == |w.ups| + 1 && |w.times| == |w.ups|
    requires Descends(DescentOf(w, r, previous, drainTimeout), drainTimeout)
    requires AreLaps(laps, w.times, drainTimeout) && n < |laps|
    ensures laps[n] <= |w.ups|
    ensures SettledAt(w.starts[laps[n]], r) || MeasureAt(w.starts[laps[n]], r, drainTimeout) + n <= MeasureAt(w.starts[0], r, drainTimeout)
  {
    LapsFall(DescentOf(w, r, previous, drainTimeout), drainTimeout, laps, n);
  }

  lemma SettledStays(w: Rounds, r: Rollout, previous: Id, drainTimeout: Time, j: nat, k: nat)
    requires |w.starts| == |w.ups| + 1 && |w.times| == |w.ups| && j <= k <= |w.ups|
    requires Descends(DescentOf(w, r, previous, drainTimeout), drainTimeout) && SettledAt(w.starts[j], r)
    ensures SettledAt(w.starts[k], r)
  {
    if j < |w.ups| {
      StretchFalls(DescentOf(w, r, previous, drainTimeout), drainTimeout, j, k);
    }
  }

  lemma EnoughLaps(w: Rounds, r: Rollout, previous: Id, drainTimeout: Time, k: nat, n: nat)
    requires AreRounds(w, r, previous, drainTimeout) && Live(r.params) && k <= |w.ups|
    requires n >= Needed(w.starts[0], r, drainTimeout)
    requires SettledAt(w.starts[k], r) || MeasureAt(w.starts[k], r, drainTimeout) + n <= MeasureAt(w.starts[0], r, drainTimeout)
    ensures SettledAt(w.starts[k], r)
  {
    RoundsKeep(w, r, previous, drainTimeout, k);
    CountsAreProper(w.starts[k].instances, r);
    CountsAreProper(w.starts[0].instances, r);
    if !SettledAt(w.starts[k], r) {
      DoneIsSettled(r.params, CountsAt(w.starts[k], r), drainTimeout <= 0);
    }
  }

  // ----- completion

  lemma {:induction false} NoOldStaysGone(w: Rounds, r: Rollout, previous: Id, drainTimeout: Time, k: nat)
    requires AreRounds(w, r, previous, drainTimeout) && Live(r.params) && k <= |w.ups|
    requires CountsAt(w.starts[0], r).oldViable == 0
    ensures CountsAt(w.starts[k], r).oldViable == 0
  {
    if k > 0 {
      var j := k - 1;
      NoOldStaysGone(w, r, previous, drainTimeout, j);
      RoundsKeep(w, r, previous, drainTimeout, j);
      assert RoundAt(w, r, drainTimeout, j);
      AgentsProgress(w.starts[j], w.ups[j], r);
      PassTicks(w.ups[j], w.starts[k], r, previous, drainTimeout, w.times[j]);
      CountsAreProper(w.starts[k].instances, r);
    }
  }

  lemma {:induction false} OldStayForever(w: Rounds, r: Rollout, previous: Id, drainTimeout: Time, k: nat)
    requires AreRounds(w, r, previous, drainTimeout) && k <= |w.ups|
    requires r.params.surge >= 1 && Unfinished(w.starts[0], r, previous)
    ensures Unfinished(w.starts[k], r, previous)
  {
    if k > 0 {
      var j := k - 1;
      OldStayForever(w, r, previous, drainTimeout, j);
      assert RoundAt(w, r, drainTimeout, j);
      SurgeStep(w.starts[j], w.ups[j], r, previous);
      SurgeStep(w.ups[j], w.starts[k], r, previous);
    }
  }

  /** The status a round ends with. */
  lemma RoundStatus(w: Rounds, r: Rollout, previous: Id, drainTimeout: Time, j: nat, k: nat)
    requires AreRounds(w, r, previous, drainTimeout) && Live(r.params) && j < |w.ups| && k == j + 1
    ensures var c := CountsAt(w.starts[j], r);
            StatusAt(w.starts[k], r) ==
              if StatusAt(w.starts[j], r).RolloutPending? then RolloutProgressing
              else if c.activeViable == r.params.desired && c.oldViable == 0 then RolloutCompleted
              else StatusAt(w.starts[j], r)
  {
    RoundsKeep(w, r, previous, drainTimeout, j);
    assert RoundAt(w, r, drainTimeout, j);
    AgentsProgress(w.starts[j], w.ups[j], r);
    PassTicks(w.ups[j], w.starts[k], r, previous, drainTimeout, w.times[j]);
  }

  /** Completion: given laps enough and two more rounds, an update is marked COMPLETED if and only if MaxSurge is
      zero or there was no old instance to begin with, for every drain period. */
  lemma CompletesIffNoSurge(w: Rounds, r: Rollout, previous: Id, drainTimeout: Time, laps: seq<nat>)
    requires AreRounds(w, r, previous, drainTimeout) && Live(r.params) && AreLaps(laps, w.times, drainTimeout)
    requires StatusAt(w.starts[0], r).RolloutPending?
    requires |laps| > Needed(w.starts[0], r, drainTimeout) && laps[|laps| - 1] + 2 <= |w.ups|
    ensures StatusAt(w.starts[|w.ups|], r).RolloutCompleted?
            <==> r.params.surge == 0 || CountsAt(w.starts[0], r).oldViable == 0
  {
    var n := |w.ups|;
    CountsAreProper(w.starts[0].instances, r);
    if r.params.surge >= 1 && CountsAt(w.starts[0], r).oldViable >= 1 {
      OldStayForever(w, r, previous, drainTimeout, n);
    } else {
      CompletesAtEnd(w, r, previous, drainTimeout, laps, n);
    }
  }

  lemma CompletesAtEnd(w: Rounds, r: Rollout, previous: Id, drainTimeout: Time, laps: seq<nat>, n: nat)
    requires AreRounds(w, r, previous, drainTimeout) && Live(r.params) && AreLaps(laps, w.times, drainTimeout)
    requires |laps| > Needed(w.starts[0], r, drainTimeout) && laps[|laps| - 1] + 2 <= n == |w.ups|
    requires r.params.surge == 0 || CountsAt(w.starts[0], r).oldViable == 0
    ensures StatusAt(w.starts[n], r).RolloutCompleted?
  {
    var i, j := n - 2, n - 1;
    RollingConverges(w, r, previous, drainTimeout, laps, j);
    CountsAreProper(w.starts[j].instances, r);
    if CountsAt(w.starts[0], r).oldViable == 0 {
      NoOldStaysGone(w, r, previous, drainTimeout, j);
    }
    RoundStatus(w, r, previous, drainTimeout, i, j);
    RoundStatus(w, r, previous, drainTimeout, j, n);
  }

  // ----- beyond the ceiling

  /** With a drain period, old instances that were staying are all still alive after the pass. */
  lemma DrainKeepsAlive(s: State, s': State, r: Rollout, previous: Id, drainTimeout: Time, now: Time)
    requires FromOne(s, r, previous) && PassAt(s, s', r, drainTimeout, now) && drainTimeout > 0
    ensures LiveTotal(s', r) >= PlanAt(s, r).active + CountsAt(s, r).oldStaying
  {
    PassKeepsOne(s, s', r, previous, drainTimeout, now);
    ActiveGrows(s, s', r, drainTimeout, now);
    OneShare(s, r, previous);
    OldShrinks(s, s', r, drainTimeout, now, 0);
    OutsideIsPrevious(s, r, previous);
    OutsideIsPrevious(s', r, previous);
    GroupIsOne(s.instances, r.app, previous);
    GroupCounts(s.instances, r.app, previous);
    GroupCounts(s'.instances, r.app, previous);
    ScaledKeepsAlive(Group(s.instances, r.app, previous), Group(s'.instances, r.app, previous), r.app, previous,
                     PlanAt(s, r).oldTotal, drainTimeout, now);
  }

  /** One ready old instance, nothing active, and an update of one replica with MaxSurge 0 and MaxUnavailable 1. */
  function OneToReplace(app: Id, active: Id, previous: Id, inst: Id, node: Id, exec: Id): State {
    var container := Container("image", [], [], map[]);
    var spec := AppSpec(1, Some(Strategy(RollingUpdate, 0, 1)), None, container);
    var i := Instance(inst, app, previous, node, exec, Running, Healthy, false, None, NO_ID, [], 0, Some(0), None, None);
    var next := Deployment(active, app, 2, spec, "", Active, RolloutPending, 0, 0, 0, 0, "", 0, false);
    var old0 := Deployment(previous, app, 1, spec, "", Superseded, RolloutCompleted, 0, 0, 0, 0, "", 0, false);
    State(map[inst := i], map[active := next, previous := old0])
  }

  lemma OneToReplaceRolls(app: Id, active: Id, previous: Id, inst: Id, node: Id, exec: Id)
    requires NO_ID !in {active, previous, inst, node, exec} && active != previous
    ensures var s, r := OneToReplace(app, active, previous, inst, node, exec), Rollout(app, active, Params(1, 0, 1));
            FromOne(s, r, previous) && CountsAt(s, r) == Counts(0, 0, 1, 1, 1)
  {
    var s, r := OneToReplace(app, active, previous, inst, node, exec), Rollout(app, active, Params(1, 0, 1));
    assert AppDeps(s.deployments, app) == {active, previous};
    assert Where(s.instances, ViableIn(app, active)) == {};
    assert Where(s.instances, ReadyIn(app, active)) == {};
    assert Where(s.instances, ViableOutside(app, active)) == {inst};
    assert Where(s.instances, StayingOutside(app, active)) == {inst};
    assert Where(s.instances, ServingOutside(app, active)) == {inst};
  }

  /** From there every pass with a drain period leaves two instances alive, one more than D + S. */
  lemma LiveTotalExceeds(app: Id, active: Id, previous: Id, inst: Id, node: Id, exec: Id, s': State, drainTimeout: Time, now: Time)
    requires NO_ID !in {active, previous, inst, node, exec} && active != previous && drainTimeout > 0
    requires PassAt(OneToReplace(app, active, previous, inst, node, exec), s', Rollout(app, active, Params(1, 0, 1)), drainTimeout, now)
    ensures var r := Rollout(app, active, Params(1, 0, 1)); LiveTotal(s', r) == 2 && r.params.Ceiling() == 1
  {
    var s, r := OneToReplace(app, active, previous, inst, node, exec), Rollout(app, active, Params(1, 0, 1));
    OneToReplaceRolls(app, active, previous, inst, node, exec);
    DrainKeepsAlive(s, s', r, previous, drainTimeout, now);
    PassTicks(s, s', r, previous, drainTimeout, now);
  }

  /** And such a pass can be run. */
  method Overshoot(app: Id, active: Id, previous: Id, inst: Id, node: Id, exec: Id, drainTimeout: Time, now: Time) returns (s': State)
    requires NO_ID !in {app, active, previous, inst, node, exec} && active != previous && drainTimeout > 0
    ensures PassAt(OneToReplace(app, active, previous, inst, node, exec), s', Rollout(app, active, Params(1, 0, 1)), drainTimeout, now)
    ensures LiveTotal(s', Rollout(app, active, Params(1, 0, 1))) == 2
  {
    var s := OneToReplace(app, active, previous, inst, node, exec);
    OneToReplaceRolls(app, active, previous, inst, node, exec);
    s' := RunRolloutPass(s, Rollout(app, active, Params(1, 0, 1)), {node}, drainTimeout, now);
    LiveTotalExceeds(app, active, previous, inst, node, exec, s', drainTimeout, now);
  }

  // ----- stuck without slack

  /** A full old version, nothing active, and no slack. */
  ghost predicate Stuck(s: State, r: Rollout, previous: Id) {
    && FromOne(s, r, previous) && !Live(r.params)
    && CountsAt(s, r).activeViable == 0 && CountsAt(s, r).oldViable == r.params.desired
    && !StatusAt(s, r).RolloutCompleted?
  }

  lemma StuckStep(s: State, s': State, r: Rollout, previous: Id)
    requires Stuck(s, r, previous) && StepOf(s, s', r)
    ensures Stuck(s', r, previous)
  {
    CountsAreProper(s.instances, r);
    if PassStep(s, s', r) {
      var drainTimeout, now :| PassAt(s, s', r, drainTimeout, now);
      PassTicks(s, s', r, previous, drainTimeout, now);
      DeadlockWithoutSlack(r.params, CountsAt(s, r));
      IdleTicks(r.params, CountsAt(s, r), CountsAt(s', r));
    } else {
      AgentsProgress(s, s', r);
    }
  }

  /** Without slack no run ever gets an instance of the active deployment, or loses an old one, or completes. */
  lemma {:induction false} StuckForever(run: seq<State>, r: Rollout, previous: Id, k: nat)
    requires RunOf(run, r) && k < |run| && Stuck(run[0], r, previous)
    ensures Stuck(run[k], r, previous)
  {
    if k > 0 {
      StuckForever(run, r, previous, k - 1);
      assert StepOf(run[k - 1], run[k], r);
      StuckStep(run[k - 1], run[k], r, previous);
    }
  }
}
