/** The arithmetic of a rolling update: how many instances of the active deployment and of all old
    deployments together are wanted next, and what iterating that decision achieves. */
module RolloutMath {

  function Min(a: int, b: int): int { if a < b then a else b }

  function Max(a: int, b: int): int { if a > b then a else b }

  /** desired replicas, MaxSurge, MaxUnavailable */
  datatype Params = Params(desired: int, surge: int, unavailable: int) {
    predicate Sane() { desired >= 0 && surge >= 0 && unavailable >= 0 }

    /** Most instances allowed over all versions. */
    function Ceiling(): int { desired + surge }

    /** Fewest ready instances allowed over all versions. */
    function Floor(): int { Max(0, desired - unavailable) }
  }

  datatype Plan = Plan(active: int, oldTotal: int)

  /** Old instances still needed to hold the floor. */
  function RequiredOld(p: Params, activeReady: int): int {
    Max(0, p.Floor() - activeReady)
  }

  /** The decision in closed form: as many old instances as there are, fit under the ceiling beside
      the active ones, and are either within the surge or needed for the floor; then as many active
      ones as are desired and fit, but never fewer than exist. */
  function PlanFor(p: Params, activeViable: int, activeReady: int, oldViable: int): Plan {
    var oldTotal := Min(oldViable, Min(Max(0, p.Ceiling() - activeViable), Max(p.surge, RequiredOld(p, activeReady))));
    Plan(Max(activeViable, Min(p.desired, p.Ceiling() - oldTotal)), oldTotal)
  }

  /** The step-by-step computation of the rollout controller. */
  method ComputePlan(p: Params, activeViable: nat, activeReady: nat, oldViable: nat) returns (plan: Plan)
    ensures plan == PlanFor(p, activeViable, activeReady, oldViable)
  {
    var totalViable := activeViable + oldViable;
    var maxAllowedTotal := p.desired + p.surge;
    var minAvailable := p.desired - p.unavailable;
    if minAvailable < 0 {
      minAvailable := 0;
    }
    var oldTargetTotal: int := oldViable;
    if totalViable > maxAllowedTotal {
      var excess := totalViable - maxAllowedTotal;
      if excess > oldTargetTotal {
        excess := oldTargetTotal;
      }
      oldTargetTotal := oldTargetTotal - excess;
    }
    var requiredOld := minAvailable - activeReady;
    if requiredOld < 0 {
      requiredOld := 0;
    }
    var maxOld := maxAllowedTotal - p.desired;
    if maxOld < requiredOld {
      maxOld := requiredOld;
    }
    if oldTargetTotal > maxOld {
      oldTargetTotal := maxOld;
    }
    var newActiveTarget := p.desired;
    var allowedActive := maxAllowedTotal - oldTargetTotal;
    if newActiveTarget > allowedActive {
      newActiveTarget := allowedActive;
    }
    if newActiveTarget < activeViable {
      newActiveTarget := activeViable;
    }
    plan := Plan(newActiveTarget, oldTargetTotal);
  }

  /** `k` old instances may be kept: they fit beside the active ones, and are within the surge or do not lift what
      serves above the floor. */
  predicate Keepable(p: Params, activeViable: int, activeReady: int, k: int) {
    k == 0 || (activeViable + k <= p.desired + p.surge && (k <= p.surge || activeReady + k <= p.desired - p.unavailable))
  }

  /** The plan is the greatest there is: it keeps as many old instances as may be kept, and beside them asks for as many
      active ones as are desired and fit, giving up none; no other plan does. */
  lemma PlanIsGreatest(p: Params, activeViable: nat, activeReady: nat, oldViable: nat, plan: Plan)
    ensures plan == PlanFor(p, activeViable, activeReady, oldViable) <==>
              && 0 <= plan.oldTotal <= oldViable && Keepable(p, activeViable, activeReady, plan.oldTotal)
              && (forall k :: plan.oldTotal < k <= oldViable ==> !Keepable(p, activeViable, activeReady, k))
              && plan.active >= activeViable
              && (plan.active == activeViable || (plan.active <= p.desired && plan.active + plan.oldTotal <= p.desired + p.surge))
              && (plan.active >= p.desired || plan.active + plan.oldTotal >= p.desired + p.surge)
  {
    var best := PlanFor(p, activeViable, activeReady, oldViable).oldTotal;
    assert Keepable(p, activeViable, activeReady, best);
    assert forall k :: best < k <= oldViable ==> !Keepable(p, activeViable, activeReady, k);
  }

  /** Once the counts meet the plan, planning again gives the same plan, for every parameter value. */
  lemma PlanIsFixedPoint(p: Params, activeViable: int, activeReady: int, oldViable: nat)
    ensures
      var plan := PlanFor(p, activeViable, activeReady, oldViable);
      PlanFor(p, plan.active, activeReady, plan.oldTotal) == plan
  {
    var plan := PlanFor(p, activeViable, activeReady, oldViable);
    assert plan.oldTotal <= Max(0, p.Ceiling() - plan.active);
  }

  // ----- sharing the old total among the old deployments, in id order

  function Sum(xs: seq<int>): int {
    if xs == [] then 0 else xs[0] + Sum(xs[1..])
  }

  /** Give each deployment what it has while something is left. */
  function Greedy(viable: seq<nat>, total: int): (shares: seq<int>)
    ensures |shares| == |viable|
  {
    if viable == [] then [] else
      var share := Min(viable[0], total);
      [share] + Greedy(viable[1..], total - share)
  }

  /** The shares hand out exactly the total, or everything there is if that is less, and no
      deployment gets more than it has; only one deployment can be cut without being emptied. */
  lemma {:induction false} GreedyIsExact(viable: seq<nat>, total: nat)
    ensures Sum(Greedy(viable, total)) == Min(total, Sum(viable))
    ensures forall i :: 0 <= i < |viable| ==> 0 <= Greedy(viable, total)[i] <= viable[i]
    ensures forall i, j :: 0 <= i < j < |viable| && Greedy(viable, total)[i] < viable[i] ==> Greedy(viable, total)[j] == 0
  {
    SumNonNegative(viable);
    if viable != [] {
      var share := Min(viable[0], total);
      var rest := Greedy(viable[1..], total - share);
      SumNonNegative(viable[1..]);
      GreedyIsExact(viable[1..], total - share);
      assert Greedy(viable, total) == [share] + rest;
      assert Greedy(viable, total)[1..] == rest;
      if share < viable[0] {
        GreedyOfNothing(viable[1..]);
      }
    }
  }

  lemma {:induction false} GreedyOfNothing(viable: seq<nat>)
    ensures forall i :: 0 <= i < |viable| ==> Greedy(viable, 0)[i] == 0
  {
    if viable != [] {
      GreedyOfNothing(viable[1..]);
    }
  }

  lemma {:induction false} SumNonNegative(xs: seq<nat>)
    ensures Sum(xs) >= 0
  {
    if xs != [] {
      SumNonNegative(xs[1..]);
    }
  }

  /** Sharing the same total among deployments that already hold their shares changes nothing. */
  lemma {:induction false} GreedyIsFixedPoint(viable: seq<nat>, total: nat, held: seq<nat>)
    requires held == Greedy(viable, total)
    ensures Greedy(held, total) == held
  {
    if viable != [] {
      GreedyIsFixedPoint(viable[1..], total - Min(viable[0], total), held[1..]);
      assert held == [held[0]] + held[1..];
    }
  }

  // ----- one reconcile pass, seen as counts

  /** Old instances that have been told to drain stay viable until the drain period is over; `oldStaying` are
      the others, and `oldReady` the ready ones among those. */
  datatype Counts = Counts(activeViable: int, activeReady: int, oldViable: int, oldStaying: int, oldReady: int) {
    predicate Proper() { 0 <= activeReady <= activeViable && 0 <= oldReady <= oldStaying <= oldViable }

    /** Viable and not draining. */
    function Staying(): int { activeViable + oldStaying }

    /** Ready and not draining. */
    function Ready(): int { activeReady + oldReady }
  }

  function PlanOf(p: Params, c: Counts): Plan { PlanFor(p, c.activeViable, c.activeReady, c.oldViable) }

  /** A pass, whatever the drain period: new active instances start unready; of the old ones the draining are
      given up first and then the unready, down to the plan; how many of those given up are stopped is open. */
  ghost predicate Ticks(p: Params, c: Counts, c': Counts) {
    var kept := PlanOf(p, c).oldTotal;
    && c'.activeViable == PlanOf(p, c).active && c'.activeReady == c.activeReady
    && c'.oldStaying == Min(c.oldStaying, kept) && c'.oldReady == Min(c.oldReady, kept)
    && kept <= c'.oldViable <= c.oldViable && c'.oldStaying <= c'.oldViable
  }

  /** A pass that finds every draining instance drained for long enough stops all it gives up that was
      draining, and without a drain period all it gives up. */
  ghost predicate Empties(p: Params, c: Counts, c': Counts, atOnce: bool) {
    c'.oldViable == if atOnce then PlanOf(p, c).oldTotal else Max(c.oldStaying, PlanOf(p, c).oldTotal)
  }

  /** Between passes instances become ready; none fails and none is created. */
  ghost predicate Progress(c: Counts, c': Counts) {
    && c'.Proper()
    && c'.activeViable == c.activeViable && c'.oldViable == c.oldViable && c'.oldStaying == c.oldStaying
    && c.activeReady <= c'.activeReady && c.oldReady <= c'.oldReady
  }

  /** The inductive invariant: besides the floor, the active instances that are not ready yet must
      leave room for the floor under the ceiling. */
  ghost predicate Safe(p: Params, c: Counts) {
    && c.Proper()
    && c.activeViable <= p.Ceiling()
    && (c.activeViable - c.activeReady) + p.Floor() <= p.Ceiling()
    && c.Ready() >= p.Floor()
  }

  lemma StartIsSafe(p: Params, c: Counts)
    requires p.Sane() && c.Proper() && c.activeViable == 0 && c.oldReady >= p.Floor()
    ensures Safe(p, c)
  {
  }

  lemma TickIsSafe(p: Params, c: Counts, c': Counts)
    requires p.Sane() && Safe(p, c) && Ticks(p, c, c')
    ensures Safe(p, c')
    ensures c'.Staying() <= p.Ceiling()
    ensures p.Floor() <= c'.Ready()
  {
    var plan := PlanOf(p, c);
    assert plan.oldTotal <= p.Ceiling() - c.activeViable;
    assert c.activeReady + Min(c.oldReady, plan.oldTotal) >= p.Floor();
  }

  lemma ProgressIsSafe(p: Params, c: Counts, c': Counts)
    requires Safe(p, c) && Progress(c, c')
    ensures Safe(p, c')
  {
  }

  /** The plan alone respects the ceiling, whatever was there before. */
  lemma PlanFits(p: Params, activeViable: int, activeReady: int, oldViable: nat)
    requires p.Sane() && activeViable <= p.Ceiling()
    ensures var plan := PlanFor(p, activeViable, activeReady, oldViable);
            0 <= plan.oldTotal <= oldViable && activeViable <= plan.active && plan.active + plan.oldTotal <= p.Ceiling()
  {
  }

  // ----- convergence

  /** Slack to move: nothing is desired, or something may surge or be unavailable.  The validation of specs
      demands it of rolling updates only, not of the other kinds of strategy that are rolled as well. */
  predicate Live(p: Params) { p.desired == 0 || p.surge + p.unavailable > 0 }

  /** Nothing left to do for the controller: it never asks for fewer old instances than the surge. */
  predicate Settled(p: Params, c: Counts) {
    c.activeViable == p.desired && c.oldViable <= p.surge
  }

  /** The plan asks for exactly what is there. */
  predicate Idle(p: Params, c: Counts) { PlanOf(p, c) == Plan(c.activeViable, c.oldViable) }

  /** Instances to create, to mark and to stop; without a drain period marking and stopping are one. */
  function Measure(p: Params, c: Counts, atOnce: bool): int {
    (p.desired - c.activeViable) + c.oldViable + if atOnce then 0 else c.oldStaying
  }

  lemma IdleTicks(p: Params, c: Counts, c': Counts)
    requires c.Proper() && Idle(p, c) && Ticks(p, c, c')
    ensures c' == c
  {
  }

  /** With every active instance ready, only a settled plan is idle: slack is enough. */
  lemma IdleIffSettled(p: Params, c: Counts)
    requires p.Sane() && Live(p) && c.Proper() && c.activeReady == c.activeViable <= p.desired
    ensures Idle(p, c) <==> Settled(p, c)
  {
    var plan := PlanOf(p, c);
    if !Settled(p, c) && plan.active == c.activeViable {
      assert c.activeViable < p.desired ==> plan.oldTotal == p.Ceiling() - c.activeViable;
      assert plan.oldTotal < c.oldViable;
    }
  }

  /** A pass never moves away, and approaches strictly as soon as what drains has drained long enough. */
  lemma TickApproaches(p: Params, c: Counts, c': Counts, atOnce: bool)
    requires p.Sane() && Live(p) && c.Proper() && Ticks(p, c, c')
    requires c.activeReady == c.activeViable <= p.desired
    ensures c'.activeViable <= p.desired && Measure(p, c', atOnce) <= Measure(p, c, atOnce)
    ensures Settled(p, c) ==> c' == c
    ensures !Settled(p, c) && Empties(p, c, c', atOnce) ==> Measure(p, c', atOnce) < Measure(p, c, atOnce)
  {
    IdleIffSettled(p, c);
  }

  /** Without slack a rollout can be stuck for good, and only then. */
  lemma DeadlockWithoutSlack(p: Params, c: Counts)
    requires p.Sane() && c.Proper() && c.oldViable == p.desired && c.activeViable == 0
    ensures !Live(p) <==> p.desired >= 1 && Idle(p, c)
  {
    var plan := PlanFor(p, 0, 0, p.desired);
    if Live(p) && p.desired >= 1 {
      assert plan.active > 0 || plan.oldTotal < p.desired;
    }
  }

  /** A surge keeps old instances alive: a pass removes the last old instance only if MaxSurge is 0. */
  lemma SurgeKeepsOld(p: Params, c: Counts, c': Counts)
    requires p.Sane() && c.Proper() && c.activeViable <= p.desired && Ticks(p, c, c')
    requires c.oldViable >= 1 && p.surge >= 1
    ensures c'.oldViable >= 1 && c'.activeViable <= p.desired
  {
  }
}
