/** Availability while several old deployments are rolled away: it holds on every run that starts with all old
    instances serving, although old targets do not look at readiness. */
module ManyOld {
  import opened Ids
  import opened Instances
  import opened Deployments
  import opened RolloutMath
  import opened RolloutController
  import opened TargetLaws
  import opened Reconciler
  import opened PassLaws
  import opened Draining
  import opened Rollouts

  // ----- greedy shares

  lemma {:induction false} GreedyBeyond(viable: seq<nat>, total: nat)
    ensures Greedy(viable, Min(Sum(viable), total)) == Greedy(viable, total)
  {
    SumNonNegative(viable);
    if viable != [] {
      SumNonNegative(viable[1..]);
      var rest := total - Min(viable[0], total);
      GreedyBeyond(viable[1..], rest);
      if total >= viable[0] {
        assert Min(Sum(viable), total) - viable[0] == Min(Sum(viable[1..]), rest);
      } else {
        assert Min(Sum(viable), total) == total;
      }
    }
  }

  /** What is left after a cut, together with leftovers of it, is cut to the same. */
  lemma {:induction false} GreedyAgain(viable: seq<nat>, total: nat, left: seq<nat>)
    requires |left| == |viable| && forall k :: 0 <= k < |viable| ==> Greedy(viable, total)[k] <= left[k] <= viable[k]
    ensures Greedy(left, total) == Greedy(viable, total)
  {
    if viable != [] {
      var share := Min(viable[0], total);
      assert Greedy(viable, total) == [share] + Greedy(viable[1..], total - share);
      assert Greedy(viable, total)[0] == share && share <= left[0] <= viable[0];
      forall k | 0 <= k < |viable| - 1 ensures Greedy(viable[1..], total - share)[k] <= left[1..][k] <= viable[1..][k] {
        var next := k + 1;
        assert Greedy(viable, total)[next] == Greedy(viable[1..], total - share)[k];
      }
      GreedyAgain(viable[1..], total - share, left[1..]);
    }
  }

  /** A smaller total gives nobody more. */
  lemma {:induction false} GreedyMonotone(viable: seq<nat>, small: nat, large: nat)
    requires small <= large
    ensures forall k :: 0 <= k < |viable| ==> Greedy(viable, small)[k] <= Greedy(viable, large)[k]
  {
    if viable != [] {
      GreedyMonotone(viable[1..], small - Min(viable[0], small), large - Min(viable[0], large));
    }
  }

  lemma {:induction false} GreedyAll(viable: seq<nat>, total: nat)
    requires total >= Sum(viable)
    ensures Greedy(viable, total) == viable
  {
    if viable != [] {
      SumNonNegative(viable[1..]);
      GreedyAll(viable[1..], total - viable[0]);
      assert viable == [viable[0]] + viable[1..];
    }
  }

  // ----- the condition

  /** The most old instances a plan keeps, however many there are. */
  function Cap(p: Params, c: Counts): int {
    Min(Max(0, p.Ceiling() - c.activeViable), Max(p.surge, RequiredOld(p, c.activeReady)))
  }

  ghost function CapAt(s: State, r: Rollout): int { Cap(r.params, CountsAt(s, r)) }

  lemma PlanIsCapped(s: State, r: Rollout)
    requires Rolling(s, r)
    ensures CapAt(s, r) >= 0 && PlanAt(s, r).oldTotal == Min(CountsAt(s, r).oldViable, CapAt(s, r))
  {
  }

  /** Every old instance that does not drain is ready. */
  ghost predicate OldServe(m: Table, r: Rollout) {
    forall id :: id in m && m[id].applicationId == r.app && m[id].deploymentId != r.active && Viable(m[id].status) && !m[id].draining
      ==> Ready(m[id])
  }

  ghost function StayingSizes(s: State, r: Rollout): seq<nat> { Sizes(s.instances, r.app, IsStaying(), Olds(s, r)) }

  ghost function HeldSizes(s: State, r: Rollout): seq<nat> { Held(s.instances, r.app, Olds(s, r)) }

  /** All old instances that stay serve, and they are what a cut of the old deployments to `b` leaves; draining
      ones only stand where the cut fell. */
  ghost predicate Aligned(s: State, r: Rollout, b: nat) {
    && Rolling(s, r) && ActiveStays(s.instances, r) && OldServe(s.instances, r)
    && b >= CapAt(s, r) && StayingSizes(s, r) == Greedy(HeldSizes(s, r), b)
  }

  lemma StayingServe(s: State, r: Rollout)
    requires OldServe(s.instances, r)
    ensures CountsAt(s, r).oldReady == CountsAt(s, r).oldStaying
  {
    var m := s.instances;
    forall id ensures id in Where(m, StayingOutside(r.app, r.active)) <==> id in Where(m, ServingOutside(r.app, r.active)) {
    }
    assert Where(m, StayingOutside(r.app, r.active)) == Where(m, ServingOutside(r.app, r.active));
  }

  // ----- a pass

  lemma StartAligned(s: State, r: Rollout) returns (b: nat)
    requires Rolling(s, r) && ActiveStays(s.instances, r) && OldServe(s.instances, r)
    requires CountsAt(s, r).oldStaying == CountsAt(s, r).oldViable
    ensures Aligned(s, r, b)
  {
    var m, olds := s.instances, Olds(s, r);
    PlanIsCapped(s, r);
    SumNonNegative(HeldSizes(s, r));
    b := Max(CapAt(s, r), Sum(HeldSizes(s, r)));
    GreedyAll(HeldSizes(s, r), b);
    NothingOldDrains(s, r);
    forall k | 0 <= k < |olds| ensures StayingSizes(s, r)[k] == HeldSizes(s, r)[k] {
      SizesAt(m, r.app, IsStaying(), olds, k);
      OldAt(s, r, k);
      StayingIsViable(m, r, olds[k]);
    }
  }

  lemma StayingIsViable(m: Table, r: Rollout, d: Id)
    requires d != r.active && forall id :: id in Where(m, ViableOutside(r.app, r.active)) ==> !m[id].draining
    ensures Where(m, OneOf(r.app, IsStaying(), d)) == Where(m, ViableIn(r.app, d))
  {
    forall id | id in Where(m, ViableIn(r.app, d)) ensures id in Where(m, OneOf(r.app, IsStaying(), d)) {
      assert id in Where(m, ViableOutside(r.app, r.active));
    }
  }

  lemma NothingOldDrains(s: State, r: Rollout)
    requires CountsAt(s, r).oldStaying == CountsAt(s, r).oldViable
    ensures forall id :: id in Where(s.instances, ViableOutside(r.app, r.active)) ==> !s.instances[id].draining
  {
    var m := s.instances;
    var staying, viable := Where(m, StayingOutside(r.app, r.active)), Where(m, ViableOutside(r.app, r.active));
    assert staying <= viable;
    RemovedSize(viable, staying);
    assert viable - staying == {};
    forall id | id in viable ensures !m[id].draining {
      assert id !in viable - staying;
    }
  }

  /** The shares are a cut to the cap. */
  lemma SharesAreCut(s: State, r: Rollout)
    requires Rolling(s, r)
    ensures CapAt(s, r) >= 0 && Shares(s, r) == Greedy(HeldSizes(s, r), CapAt(s, r))
  {
    PlanIsCapped(s, r);
    OldViableAddsUp(s.instances, s.deployments, r);
    GreedyBeyond(HeldSizes(s, r), CapAt(s, r));
  }

  /** After a pass every old deployment has exactly its share staying, and at most what it had. */
  lemma AlignedShrinks(s: State, s': State, r: Rollout, b: nat, drainTimeout: Time, now: Time)
    requires Aligned(s, r, b) && PassAt(s, s', r, drainTimeout, now)
    ensures CapAt(s, r) >= 0 && Olds(s', r) == Olds(s, r)
    ensures StayingSizes(s', r) == Shares(s, r)
    ensures StayingSizes(s', r) == Greedy(HeldSizes(s', r), CapAt(s, r))
  {
    PassKeeps(s, s', r, drainTimeout, now);
    SharesAreCut(s, r);
    GreedyMonotone(HeldSizes(s, r), CapAt(s, r), b);
    var olds := Olds(s, r);
    forall k | 0 <= k < |olds|
      ensures StayingSizes(s', r)[k] == Shares(s, r)[k] <= HeldSizes(s', r)[k] <= HeldSizes(s, r)[k]
    {
      OldShrinks(s, s', r, drainTimeout, now, k);
      SizesAt(s.instances, r.app, IsStaying(), olds, k);
      SizesAt(s'.instances, r.app, IsStaying(), olds, k);
      SameStaying(s.instances, r.app, olds[k]);
      SameStaying(s'.instances, r.app, olds[k]);
      SubsetSize(Where(s'.instances, ViableIn(r.app, olds[k])), Where(s.instances, ViableIn(r.app, olds[k])));
    }
    GreedyAgain(HeldSizes(s, r), CapAt(s, r), HeldSizes(s', r));
  }

  /** An old instance that stays after a pass is as it was. */
  lemma PassKeepsServing(s: State, s': State, r: Rollout, drainTimeout: Time, now: Time)
    requires Rolling(s, r) && OldServe(s.instances, r) && PassAt(s, s', r, drainTimeout, now)
    ensures OldServe(s'.instances, r)
  {
    PassKeeps(s, s', r, drainTimeout, now);
    var m' := s'.instances;
    forall id | id in m' && m'[id].applicationId == r.app && m'[id].deploymentId != r.active && Viable(m'[id].status) && !m'[id].draining
      ensures Ready(m'[id])
    {
      var d := m'[id].deploymentId;
      assert d in AppDeps(s'.deployments, r.app);
      OldRecord(s, s', r, drainTimeout, now, d, id);
    }
  }

  lemma OldRecord(s: State, s': State, r: Rollout, drainTimeout: Time, now: Time, d: Id, id: Id)
    requires Rolling(s, r) && PassAt(s, s', r, drainTimeout, now) && d in AppDeps(s.deployments, r.app) && d != r.active
    requires id in s'.instances && s'.instances[id].applicationId == r.app && s'.instances[id].deploymentId == d
    requires Viable(s'.instances[id].status) && !s'.instances[id].draining
    ensures id in s.instances && s.instances[id] == s'.instances[id]
  {
    var k := IndexOfOld(s, r, d);
    OldShrinks(s, s', r, drainTimeout, now, k);
    var g, g' := Group(s.instances, r.app, d), Group(s'.instances, r.app, d);
    ScaledRecords(g, g', r.app, d, Shares(s, r)[k], drainTimeout, now);
    assert id in Where(s'.instances, ViableIn(r.app, d));
    assert id in g && id in g' && g'[id] == s'.instances[id];
    GroupIsOne(s.instances, r.app, d);
    if g'[id] != g[id] {
      RetiredIffDue(g[id], drainTimeout, now);
    }
  }

  lemma IndexOfOld(s: State, r: Rollout, d: Id) returns (k: nat)
    requires d in AppDeps(s.deployments, r.app) && d != r.active
    ensures k < |Olds(s, r)| && Olds(s, r)[k] == d
  {
    SortedElements(AppDeps(s.deployments, r.app) - {r.active});
    assert d in Elements(Olds(s, r));
    k :| 0 <= k < |Olds(s, r)| && Olds(s, r)[k] == d;
  }

  lemma CapFalls(p: Params, c: Counts, c': Counts)
    requires p.Sane() && c'.activeViable >= c.activeViable && c'.activeReady >= c.activeReady
    ensures Cap(p, c') <= Cap(p, c)
  {
  }

  lemma AlignedCounts(s: State, r: Rollout, b: nat)
    requires Aligned(s, r, b)
    ensures CountsAt(s, r).oldStaying == Min(CountsAt(s, r).oldViable, b) && CountsAt(s, r).oldReady == CountsAt(s, r).oldStaying
  {
    StayingServe(s, r);
    OldStayingAddsUp(s.instances, s.deployments, r);
    OldViableAddsUp(s.instances, s.deployments, r);
    GreedyIsExact(HeldSizes(s, r), b);
  }

  lemma PassKeepsAligned(s: State, s': State, r: Rollout, b: nat, drainTimeout: Time, now: Time) returns (b': nat)
    requires Aligned(s, r, b) && PassAt(s, s', r, drainTimeout, now)
    ensures Aligned(s', r, b')
  {
    PassKeeps(s, s', r, drainTimeout, now);
    PassKeepsActive(s, s', r, drainTimeout, now);
    PassKeepsServing(s, s', r, drainTimeout, now);
    ActiveGrows(s, s', r, drainTimeout, now);
    AlignedShrinks(s, s', r, b, drainTimeout, now);
    CapFalls(r.params, CountsAt(s, r), CountsAt(s', r));
    b' := CapAt(s, r);
  }

  /** A pass over any number of old deployments, aligned, is a tick of the arithmetic, and it stays aligned. */
  lemma AlignedTicks(s: State, s': State, r: Rollout, b: nat, drainTimeout: Time, now: Time) returns (b': nat)
    requires Aligned(s, r, b) && PassAt(s, s', r, drainTimeout, now)
    ensures Aligned(s', r, b') && Ticks(r.params, CountsAt(s, r), CountsAt(s', r))
  {
    b' := PassKeepsAligned(s, s', r, b, drainTimeout, now);
    ActiveGrows(s, s', r, drainTimeout, now);
    AlignedShrinks(s, s', r, b, drainTimeout, now);
    AlignedPassCounts(s, s', r, drainTimeout, now);
    AlignedCounts(s, r, b);
    AlignedCounts(s', r, b');
    PlanIsCapped(s, r);
    CountsAreProper(s'.instances, r);
  }

  lemma AlignedPassCounts(s: State, s': State, r: Rollout, drainTimeout: Time, now: Time)
    requires Rolling(s, r) && Rolling(s', r) && PassAt(s, s', r, drainTimeout, now)
    requires Olds(s', r) == Olds(s, r) && StayingSizes(s', r) == Shares(s, r)
    ensures CountsAt(s', r).oldStaying == PlanAt(s, r).oldTotal
    ensures PlanAt(s, r).oldTotal <= CountsAt(s', r).oldViable <= CountsAt(s, r).oldViable
  {
    SharesOf(s, r);
    OldStayingAddsUp(s'.instances, s'.deployments, r);
    OldViableAddsUp(s.instances, s.deployments, r);
    OldViableAddsUp(s'.instances, s'.deployments, r);
    CountsAreProper(s'.instances, r);
    var olds := Olds(s, r);
    forall k | 0 <= k < |olds| ensures HeldSizes(s', r)[k] <= HeldSizes(s, r)[k] {
      OldShrinks(s, s', r, drainTimeout, now, k);
      SubsetSize(Where(s'.instances, ViableIn(r.app, olds[k])), Where(s.instances, ViableIn(r.app, olds[k])));
    }
    SumBounded(HeldSizes(s', r), HeldSizes(s, r));
  }

  // ----- between passes

  lemma AgentsKeepAligned(s: State, s': State, r: Rollout, b: nat)
    requires Aligned(s, r, b) && AgentStep(s, s', r)
    ensures Aligned(s', r, b) && Progress(CountsAt(s, r), CountsAt(s', r))
  {
    AgentsProgress(s, s', r);
    CapFalls(r.params, CountsAt(s, r), CountsAt(s', r));
    AgentsKeepServing(s, s', r);
    var olds := Olds(s, r);
    assert Olds(s', r) == olds;
    forall k | 0 <= k < |olds|
      ensures StayingSizes(s', r)[k] == StayingSizes(s, r)[k] && HeldSizes(s', r)[k] == HeldSizes(s, r)[k]
    {
      SizesAt(s.instances, r.app, IsStaying(), olds, k);
      SizesAt(s'.instances, r.app, IsStaying(), olds, k);
      AgentsKeepSizes(s, s', r, olds[k]);
    }
    assert StayingSizes(s', r) == StayingSizes(s, r) && HeldSizes(s', r) == HeldSizes(s, r);
  }

  lemma AgentsKeepSizes(s: State, s': State, r: Rollout, d: Id)
    requires AgentStep(s, s', r)
    ensures Where(s'.instances, OneOf(r.app, IsStaying(), d)) == Where(s.instances, OneOf(r.app, IsStaying(), d))
    ensures Where(s'.instances, ViableIn(r.app, d)) == Where(s.instances, ViableIn(r.app, d))
  {
    forall id ensures id in Where(s'.instances, OneOf(r.app, IsStaying(), d)) <==> id in Where(s.instances, OneOf(r.app, IsStaying(), d)) {
    }
    forall id ensures id in Where(s'.instances, ViableIn(r.app, d)) <==> id in Where(s.instances, ViableIn(r.app, d)) {
    }
  }

  lemma AgentsKeepServing(s: State, s': State, r: Rollout)
    requires AgentStep(s, s', r) && OldServe(s.instances, r)
    ensures OldServe(s'.instances, r)
  {
  }

  // ----- runs

  lemma {:induction false} RunStaysAligned(run: seq<State>, r: Rollout, k: nat) returns (b: nat)
    requires RunOf(run, r) && k < |run|
    requires CountsAt(run[0], r).activeViable == 0 && CountsAt(run[0], r).oldReady >= r.params.Floor()
    requires CountsAt(run[0], r).oldReady == CountsAt(run[0], r).oldViable
    ensures Aligned(run[k], r, b) && Safe(r.params, CountsAt(run[k], r))
    ensures k > 0 && PassStep(run[k - 1], run[k], r) ==> CountsAt(run[k], r).Staying() <= r.params.Ceiling()
  {
    if k == 0 {
      b := FullStart(run[0], r);
    } else {
      var b0 := RunStaysAligned(run, r, k - 1);
      var s, s' := run[k - 1], run[k];
      assert StepOf(s, s', r);
      if PassStep(s, s', r) {
        var drainTimeout, now :| PassAt(s, s', r, drainTimeout, now);
        b := AlignedTicks(s, s', r, b0, drainTimeout, now);
        TickIsSafe(r.params, CountsAt(s, r), CountsAt(s', r));
      } else {
        AgentsKeepAligned(s, s', r, b0);
        b := b0;
        ProgressIsSafe(r.params, CountsAt(s, r), CountsAt(s', r));
      }
    }
  }

  /** A full old side: everything viable serves, and nothing is active yet. */
  lemma FullStart(s: State, r: Rollout) returns (b: nat)
    requires Rolling(s, r)
    requires CountsAt(s, r).activeViable == 0 && CountsAt(s, r).oldReady >= r.params.Floor()
    requires CountsAt(s, r).oldReady == CountsAt(s, r).oldViable
    ensures Aligned(s, r, b) && Safe(r.params, CountsAt(s, r))
  {
    CountsAreProper(s.instances, r);
    StartIsSafe(r.params, CountsAt(s, r));
    NobodyActive(s, r);
    AllServe(s, r);
    b := StartAligned(s, r);
  }

  lemma NobodyActive(s: State, r: Rollout)
    requires CountsAt(s, r).activeViable == 0
    ensures ActiveStays(s.instances, r)
  {
    var m := s.instances;
    var viable := Where(m, ViableIn(r.app, r.active));
    assert forall id :: id in m && m[id].applicationId == r.app && m[id].deploymentId == r.active && Viable(m[id].status)
             ==> id in viable;
    assert viable == {};
  }

  lemma AllServe(s: State, r: Rollout)
    requires CountsAt(s, r).oldReady == CountsAt(s, r).oldViable
    ensures OldServe(s.instances, r)
  {
    var m := s.instances;
    var serving, viable := Where(m, ServingOutside(r.app, r.active)), Where(m, ViableOutside(r.app, r.active));
    assert serving <= viable;
    RemovedSize(viable, serving);
    assert viable - serving == {};
    forall id | id in m && m[id].applicationId == r.app && m[id].deploymentId != r.active && Viable(m[id].status) && !m[id].draining
      ensures Ready(m[id])
    {
      assert id in viable && id !in viable - serving;
    }
  }

  /** Availability from any number of old deployments: if at the start every old instance is ready and none drains,
      and they are at least max(0, D - U), then for every drain period every state of every run has that many ready
      and not draining, and every pass leaves at most D + S viable and not draining. */
  lemma SafetyFromMany(run: seq<State>, r: Rollout, k: nat)
    requires RunOf(run, r) && k < |run|
    requires CountsAt(run[0], r).activeViable == 0 && CountsAt(run[0], r).oldReady >= r.params.Floor()
    requires CountsAt(run[0], r).oldReady == CountsAt(run[0], r).oldViable
    ensures CountsAt(run[k], r).Ready() >= r.params.Floor()
    ensures k > 0 && PassStep(run[k - 1], run[k], r) ==> CountsAt(run[k], r).Staying() <= r.params.Ceiling()
  {
    var b := RunStaysAligned(run, r, k);
  }
}
