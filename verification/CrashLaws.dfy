/** Crash accounting over a whole pass: when the crash-loop latch closes and when the counter starts over. */
module CrashLaws {
  import opened Ids
  import opened Instances
  import opened Deployments
  import opened RolloutController
  import opened Reconciler
  import opened PassLaws

  /** It runs and fails its health checks. */
  predicate Failing(i: Instance, d: Id) { i.deploymentId == d && i.status == Running && i.health == Unhealthy }

  /** It has been running for a minute and is healthy: crashes before it no longer count as consecutive. */
  predicate Recovering(i: Instance, d: Id, now: Time) {
    i.deploymentId == d && i.status == Running && i.health == Healthy
    && i.startedAt.Some? && now - i.startedAt.value >= 60_000_000_000
  }

  ghost function FailingIn(m: Table, order: seq<Id>, d: Id): nat {
    if order == [] then 0
    else
      var k := |order| - 1;
      FailingIn(m, order[..k], d) + if order[k] in m && Failing(m[order[k]], d) then 1 else 0
  }

  /** With nothing recovering, every failing instance counts once, and the fifth crash in a row latches. */
  lemma {:induction false} CrashesCount(deps: DeploymentTable, m: Table, order: seq<Id>, now: Time, d: Id)
    requires Deployments.WellKeyed(deps) && d in deps
    requires forall id :: id in m ==> !Recovering(m[id], d, now)
    ensures d in HealthFold(deps, m, order, now)
    ensures HealthFold(deps, m, order, now)[d].consecutiveCrashes == deps[d].consecutiveCrashes + FailingIn(m, order, d)
    ensures deps[d].consecutiveCrashes < 5 || deps[d].degraded ==>
              (HealthFold(deps, m, order, now)[d].degraded
               <==> deps[d].degraded || deps[d].consecutiveCrashes + FailingIn(m, order, d) >= 5)
  {
    HealthFoldLatches(deps, m, order, now);
    if order != [] {
      var k := |order| - 1;
      CrashesCount(deps, m, order[..k], now, d);
      HealthFoldLatches(deps, m, order[..k], now);
      assert order[k] in m ==> !Recovering(m[order[k]], d, now);
    }
  }

  /** With nothing failing, the counter is cleared exactly if something recovering is visited. */
  lemma {:induction false} RecoveryClears(deps: DeploymentTable, m: Table, order: seq<Id>, now: Time, d: Id)
    requires Deployments.WellKeyed(deps) && d in deps
    requires forall id :: id in m ==> !Failing(m[id], d)
    ensures d in HealthFold(deps, m, order, now)
    ensures HealthFold(deps, m, order, now)[d].consecutiveCrashes ==
              if exists id :: id in order && id in m && Recovering(m[id], d, now) then 0 else deps[d].consecutiveCrashes
    ensures HealthFold(deps, m, order, now)[d].degraded == deps[d].degraded
  {
    HealthFoldLatches(deps, m, order, now);
    if order != [] {
      var k := |order| - 1;
      var less, last := order[..k], order[k];
      RecoveryClears(deps, m, less, now, d);
      HealthFoldLatches(deps, m, less, now);
      assert order == less + [last];
      assert last in m ==> !Failing(m[last], d);
      assert forall id :: id in order <==> id in less || id == last;
    }
  }

  ghost function FailingSet(m: Table, ids: set<Id>, d: Id): set<Id> {
    set id | id in ids && id in m && Failing(m[id], d)
  }

  lemma FailingOneMore(m: Table, ids: set<Id>, id: Id, d: Id)
    requires id !in ids
    ensures |FailingSet(m, ids + {id}, d)| == |FailingSet(m, ids, d)| + if id in m && Failing(m[id], d) then 1 else 0
  {
    if id in m && Failing(m[id], d) {
      assert FailingSet(m, ids + {id}, d) == FailingSet(m, ids, d) + {id};
    } else {
      assert FailingSet(m, ids + {id}, d) == FailingSet(m, ids, d);
    }
  }

  lemma LastElement(order: seq<Id>)
    requires order != [] && forall i, j :: 0 <= i < j < |order| ==> order[i] != order[j]
    ensures var less, last := order[..|order| - 1], order[|order| - 1];
            Elements(order) == Elements(less) + {last} && last !in Elements(less)
  {
    var less, last := order[..|order| - 1], order[|order| - 1];
    assert order == less + [last];
  }

  lemma {:induction false} FailingAreCounted(m: Table, order: seq<Id>, d: Id)
    requires forall i, j :: 0 <= i < j < |order| ==> order[i] != order[j]
    ensures FailingIn(m, order, d) == |FailingSet(m, Elements(order), d)|
  {
    if order != [] {
      var k := |order| - 1;
      FailingAreCounted(m, order[..k], d);
      LastElement(order);
      FailingOneMore(m, Elements(order[..k]), order[k], d);
    } else {
      assert FailingSet(m, Elements(order), d) == {};
    }
  }

  /** The instances of `d` whose crash a pass counts: running, unhealthy, and not on a node that is gone. */
  ghost function Crashing(m: Table, online: set<Id>, d: Id): set<Id> {
    set id | id in m && m[id].deploymentId == d && m[id].status == Running && m[id].health == Unhealthy
             && (m[id].nodeId == NO_ID || m[id].nodeId in online)
  }

  lemma CrashingAfterRecovery(m: Table, online: set<Id>, now: Time, d: Id)
    ensures FailingSet(Recover(m, online, now), m.Keys, d) == Crashing(m, online, d)
    ensures forall id :: id in m && Recovering(Recover(m, online, now)[id], d, now) ==> Recovering(m[id], d, now)
  {
    var m1 := Recover(m, online, now);
    forall id | id in m ensures Failing(m1[id], d) <==> id in Crashing(m, online, d) {
    }
  }

  /** The crash-loop latch closes: if no instance of a deployment has recovered, a pass leaves it degraded exactly if
      it was, or its crashes before and the crashing instances of this pass make five. */
  lemma LatchClosesIff(m: Table, deps: DeploymentTable, m': Table, deps': DeploymentTable, apps: AppTable, online: set<Id>,
                       drainTimeout: Time, now: Time, order: seq<Id>, results: seq<AppTarget>, d: Id)
    requires PassWith(m, deps, m', deps', apps, online, drainTimeout, now, order, results)
    requires Deployments.WellKeyed(deps) && d in deps && (deps[d].consecutiveCrashes < 5 || deps[d].degraded)
    requires forall id :: id in m ==> !Recovering(m[id], d, now)
    ensures d in deps'
    ensures deps'[d].degraded <==> deps[d].degraded || deps[d].consecutiveCrashes + |Crashing(m, online, d)| >= 5
  {
    var counted := HealthFold(deps, Recover(m, online, now), order, now);
    CountedLatchesIff(m, deps, online, now, order, d);
    HealthFoldLatches(deps, Recover(m, online, now), order, now);
    MarkKeepsHealth(apps, counted, Settle(m, online, now), d);
  }

  lemma CountedLatchesIff(m: Table, deps: DeploymentTable, online: set<Id>, now: Time, order: seq<Id>, d: Id)
    requires IsOrder(order, m.Keys)
    requires Deployments.WellKeyed(deps) && d in deps && (deps[d].consecutiveCrashes < 5 || deps[d].degraded)
    requires forall id :: id in m ==> !Recovering(m[id], d, now)
    ensures var counted := HealthFold(deps, Recover(m, online, now), order, now);
            && d in counted
            && (counted[d].degraded <==> deps[d].degraded || deps[d].consecutiveCrashes + |Crashing(m, online, d)| >= 5)
            && counted[d].consecutiveCrashes == deps[d].consecutiveCrashes + |Crashing(m, online, d)|
  {
    var m1 := Recover(m, online, now);
    CrashingAfterRecovery(m, online, now, d);
    CrashesCount(deps, m1, order, now, d);
    FailingAreCounted(m1, order, d);
  }

  /** And from that very pass on the deployment gets no new instance. */
  lemma LatchedGetsNothing(m: Table, deps: DeploymentTable, m': Table, deps': DeploymentTable, apps: AppTable, online: set<Id>,
                           drainTimeout: Time, now: Time, order: seq<Id>, results: seq<AppTarget>, d: Id, id: Id)
    requires PassWith(m, deps, m', deps', apps, online, drainTimeout, now, order, results)
    requires Deployments.WellKeyed(deps) && SpecsValidated(deps) && Owned(m, deps)
    requires d in deps && (deps[d].consecutiveCrashes < 5 || deps[d].degraded)
    requires forall x :: x in m ==> !Recovering(m[x], d, now)
    requires deps[d].consecutiveCrashes + |Crashing(m, online, d)| >= 5
    requires id in m' && m'[id].deploymentId == d
    ensures id in m
  {
    LatchClosesIff(m, deps, m', deps', apps, online, drainTimeout, now, order, results, d);
    if id !in m {
      CreatedEntitled(m, deps, m', deps', apps, online, drainTimeout, now, order, results, id);
    }
  }

  /** After a pass nothing runs unhealthy: what did counts as crashed. */
  lemma NothingFailing(m: Table, deps: DeploymentTable, m': Table, deps': DeploymentTable, apps: AppTable, online: set<Id>,
                       drainTimeout: Time, now: Time, order: seq<Id>, results: seq<AppTarget>, id: Id)
    requires PassWith(m, deps, m', deps', apps, online, drainTimeout, now, order, results)
    requires id in m'
    ensures !(m'[id].status == Running && m'[id].health == Unhealthy)
    ensures id in m && id in Crashing(m, online, m[id].deploymentId) ==> m'[id].status == Crashed
  {
    if id in m {
      PassRecords(m, deps, m', deps', apps, online, drainTimeout, now, order, results, id);
    } else {
      PassCreations(m, deps, m', deps', apps, online, drainTimeout, now, order, results, id);
    }
  }

  // ----- lost nodes

  /** An instance of a lost node goes on counting, so nothing replaces it, until it has been unknown for five minutes:
      recovery takes exactly those away. */
  lemma LostButCounted(m: Table, online: set<Id>, now: Time, a: Id, d: Id)
    ensures Where(Recover(m, online, now), ViableIn(a, d)) == Where(m, ViableIn(a, d)) - LongUnknown(m, online, now)
    ensures forall id :: id in m && id in LongUnknown(m, online, now) ==> Recover(m, online, now)[id].status == Crashed
    ensures forall id :: (id in m && m[id].nodeId != NO_ID && m[id].nodeId !in online && Viable(m[id].status)
                          && id !in LongUnknown(m, online, now)) ==> Recover(m, online, now)[id].status == Unknown
  {
    var m1 := Recover(m, online, now);
    forall id ensures id in Where(m1, ViableIn(a, d)) <==> id in Where(m, ViableIn(a, d)) - LongUnknown(m, online, now) {
    }
  }

  ghost function LongUnknown(m: Table, online: set<Id>, now: Time): set<Id> {
    set id | id in m && m[id].status == Unknown && m[id].unknownSince.Some? && now - m[id].unknownSince.value >= 300_000_000_000
  }
}
