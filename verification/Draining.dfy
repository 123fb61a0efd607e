/** Scaling a deployment with any drain period: who stays, who lingers, and how many of each. */
module Draining {
  import opened Ids
  import opened Instances
  import opened RolloutMath
  import opened RolloutController
  import opened Reconciler
  import opened PassLaws

  function StayingIn(app: Id, dep: Id): Instance -> bool {
    (i: Instance) => i.applicationId == app && i.deploymentId == dep && Viable(i.status) && !i.draining
  }

  function ServingIn(app: Id, dep: Id): Instance -> bool {
    (i: Instance) => i.applicationId == app && i.deploymentId == dep && Ready(i) && !i.draining
  }

  /** A pass stops it if it gives it up. */
  ghost predicate Due(i: Instance, drainTimeout: Time, now: Time) {
    drainTimeout <= 0 || (i.draining && i.drainStartedAt.Some? && now - i.drainStartedAt.value >= drainTimeout)
  }

  lemma RetiredIffDue(i: Instance, drainTimeout: Time, now: Time)
    requires Lifecycle(i) && Viable(i.status)
    ensures var i' := Retired(i, drainTimeout, now);
            && (Viable(i'.status) <==> !Due(i, drainTimeout, now))
            && i'.draining && (Ready(i') ==> Ready(i))
            && i'.applicationId == i.applicationId && i'.deploymentId == i.deploymentId
            && (i.draining ==> i'.drainStartedAt == i.drainStartedAt)
            && (!i.draining ==> i'.drainStartedAt == Some(now))
  {
  }

  // ----- the victims are known beforehand

  /** The viable instances that go before this one. */
  ghost function Before(m: Table, viable: set<Id>, id: Id): set<Id>
    requires viable <= m.Keys && id in m
  {
    set w | w in viable && VictimBefore(m[w], m[id])
  }

  /** The first `k` in the order of victims. */
  ghost function First(m: Table, viable: set<Id>, k: int): set<Id>
    requires viable <= m.Keys
  {
    set id | id in viable && |Before(m, viable, id)| < k
  }

  lemma VictimsAreFirst(m: Table, viable: set<Id>, victims: set<Id>, k: int)
    requires AreVictims(m, viable, victims, k)
    ensures victims == First(m, viable, k)
  {
    VictimOrderIsWeak();
    forall id | id in viable ensures id in victims <==> |Before(m, viable, id)| < k {
      var before := Before(m, viable, id);
      if id in victims {
        assert forall w :: w in viable && w !in victims ==> VictimBefore(m[id], m[w]);
        assert forall w :: w in before ==> !VictimBefore(m[id], m[w]) && w in victims;
        assert id !in before;
        SubsetSize(before, victims - {id});
      } else {
        assert forall v :: v in victims ==> v in before;
        SubsetSize(victims, before);
      }
    }
  }

  /** Given up in this pass, but not drained long enough to be stopped. */
  ghost function Lingering(m: Table, a: Id, d: Id, n: int, drainTimeout: Time, now: Time): set<Id> {
    var viable := Where(m, ViableIn(a, d));
    set id | id in First(m, viable, |viable| - n) && !Due(m[id], drainTimeout, now)
  }

  // ----- counts after scaling

  lemma VictimsSpareStaying(g: Table, viable: set<Id>, staying: set<Id>, victims: set<Id>, n: nat)
    requires n <= |viable| && AreVictims(g, viable, victims, |viable| - n)
    requires staying <= viable && forall id :: id in staying <==> id in viable && !g[id].draining
    ensures |staying - victims| == Min(|staying|, n)
  {
    var kept := viable - victims;
    RemovedSize(viable, victims);
    if v :| v in victims && v in staying {
      assert forall w :: w in kept ==> VictimBefore(g[v], g[w]) && w in staying;
      assert staying - victims == kept;
      SubsetSize(kept, staying);
    } else {
      assert staying - victims == staying;
      SubsetSize(staying, kept);
    }
  }

  lemma VictimsSpareServing(g: Table, viable: set<Id>, serving: set<Id>, victims: set<Id>, n: nat)
    requires n <= |viable| && AreVictims(g, viable, victims, |viable| - n)
    requires serving <= viable && forall id :: id in serving <==> id in viable && Ready(g[id]) && !g[id].draining
    ensures |serving - victims| == Min(|serving|, n)
  {
    var kept := viable - victims;
    RemovedSize(viable, victims);
    if v :| v in victims && v in serving {
      assert forall w :: w in kept ==> VictimBefore(g[v], g[w]) && w in serving;
      assert serving - victims == kept;
      SubsetSize(kept, serving);
    } else {
      assert serving - victims == serving;
      SubsetSize(serving, kept);
    }
  }

  lemma ShrunkSets(g: Table, victims: set<Id>, a: Id, d: Id, drainTimeout: Time, now: Time)
    requires OneDeployment(g, a, d) && victims <= Where(g, ViableIn(a, d))
    ensures var g' := Shrunk(g, victims, drainTimeout, now);
            && Where(g', StayingIn(a, d)) == Where(g, StayingIn(a, d)) - victims
            && Where(g', ServingIn(a, d)) == Where(g, ServingIn(a, d)) - victims
            && Where(g', ViableIn(a, d)) == Where(g, ViableIn(a, d)) - DueAmong(g, victims, drainTimeout, now)
  {
    var g' := Shrunk(g, victims, drainTimeout, now);
    forall id | id in g && id in victims
      ensures g'[id].draining && (Viable(g'[id].status) <==> !Due(g[id], drainTimeout, now))
      ensures g'[id].applicationId == a && g'[id].deploymentId == d
    {
      RetiredIffDue(g[id], drainTimeout, now);
    }
  }

  /** The counts of a deployment that gives up `victims`. */
  lemma LingeringAre(g: Table, victims: set<Id>, a: Id, d: Id, n: nat, drainTimeout: Time, now: Time)
    requires n <= |Where(g, ViableIn(a, d))| && AreVictims(g, Where(g, ViableIn(a, d)), victims, |Where(g, ViableIn(a, d))| - n)
    ensures var viable, due := Where(g, ViableIn(a, d)), DueAmong(g, victims, drainTimeout, now);
            && Lingering(g, a, d, n, drainTimeout, now) == victims - due
            && |viable - due| == n + |victims - due|
  {
    var viable, due := Where(g, ViableIn(a, d)), DueAmong(g, victims, drainTimeout, now);
    VictimsAreFirst(g, viable, victims, |viable| - n);
    RemovedSize(viable, due);
    RemovedSize(victims, due);
  }

  ghost function DueAmong(g: Table, victims: set<Id>, drainTimeout: Time, now: Time): set<Id> {
    set id | id in victims && id in g && Due(g[id], drainTimeout, now)
  }

  /** Scaling down, whatever the drain period: of those that do not drain, and of the ready ones among them, as
      many stay as the target allows; beyond the target exactly the lingering ones are left. */
  lemma ScaledDown(g: Table, g': Table, a: Id, d: Id, n: nat, drainTimeout: Time, now: Time)
    requires Scaled(g, g', a, d, n, drainTimeout, now) && OneDeployment(g, a, d) && n <= |Where(g, ViableIn(a, d))|
    ensures |Where(g', StayingIn(a, d))| == Min(|Where(g, StayingIn(a, d))|, n)
    ensures |Where(g', ServingIn(a, d))| == Min(|Where(g, ServingIn(a, d))|, n)
    ensures |Where(g', ViableIn(a, d))| == n + |Lingering(g, a, d, n, drainTimeout, now)|
    ensures Where(g', ViableIn(a, d)) <= Where(g, ViableIn(a, d)) && Where(g', StayingIn(a, d)) <= Where(g, StayingIn(a, d))
  {
    var viable := Where(g, ViableIn(a, d));
    var victims :| AreVictims(g, viable, victims, |viable| - n) && g' == Shrunk(g, victims, drainTimeout, now);
    ShrunkSets(g, victims, a, d, drainTimeout, now);
    StayingAfter(g, victims, a, d, n);
    LingeringAre(g, victims, a, d, n, drainTimeout, now);
  }

  lemma StayingAfter(g: Table, victims: set<Id>, a: Id, d: Id, n: nat)
    requires n <= |Where(g, ViableIn(a, d))| && AreVictims(g, Where(g, ViableIn(a, d)), victims, |Where(g, ViableIn(a, d))| - n)
    ensures |Where(g, StayingIn(a, d)) - victims| == Min(|Where(g, StayingIn(a, d))|, n)
    ensures |Where(g, ServingIn(a, d)) - victims| == Min(|Where(g, ServingIn(a, d))|, n)
  {
    VictimsSpareStaying(g, Where(g, ViableIn(a, d)), Where(g, StayingIn(a, d)), victims, n);
    VictimsSpareServing(g, Where(g, ViableIn(a, d)), Where(g, ServingIn(a, d)), victims, n);
  }

  /** Scaling up or not at all touches no record that was there. */
  lemma ScaledUp(g: Table, g': Table, a: Id, d: Id, n: nat, drainTimeout: Time, now: Time)
    requires Scaled(g, g', a, d, n, drainTimeout, now) && |Where(g, ViableIn(a, d))| <= n
    ensures forall id :: id in g ==> id in g' && g'[id] == g[id]
    ensures forall id :: id in g' && id !in g ==> g'[id] == NewInstance(id, a, d, now)
    ensures |Where(g', ViableIn(a, d))| == n && Where(g', ReadyIn(a, d)) == Where(g, ReadyIn(a, d))
  {
    var viable := Where(g, ViableIn(a, d));
    if |viable| < n {
      GrownWhere(g, g', a, d, n - |viable|, now);
    } else {
      var victims :| AreVictims(g, viable, victims, |viable| - n) && g' == Shrunk(g, victims, drainTimeout, now);
      assert victims == {};
      assert g' == g;
    }
  }

  /** Once all that drains is due, a pass that gives up something stops every draining victim, and nothing
      else unless there is no drain period. */
  lemma AllDueEmpties(g: Table, g': Table, a: Id, d: Id, n: nat, drainTimeout: Time, now: Time)
    requires Scaled(g, g', a, d, n, drainTimeout, now) && OneDeployment(g, a, d) && n <= |Where(g, ViableIn(a, d))|
    requires forall id :: id in g && Viable(g[id].status) && g[id].draining ==> Due(g[id], drainTimeout, now)
    ensures |Where(g', ViableIn(a, d))| == if drainTimeout <= 0 then n else Max(|Where(g, StayingIn(a, d))|, n)
  {
    var viable := Where(g, ViableIn(a, d));
    var victims :| AreVictims(g, viable, victims, |viable| - n) && g' == Shrunk(g, victims, drainTimeout, now);
    ShrunkSets(g, victims, a, d, drainTimeout, now);
    LingeringAre(g, victims, a, d, n, drainTimeout, now);
    DueVictims(g, victims, a, d, n, drainTimeout, now);
  }

  lemma DueVictims(g: Table, victims: set<Id>, a: Id, d: Id, n: nat, drainTimeout: Time, now: Time)
    requires n <= |Where(g, ViableIn(a, d))| && AreVictims(g, Where(g, ViableIn(a, d)), victims, |Where(g, ViableIn(a, d))| - n)
    requires forall id :: id in g && Viable(g[id].status) && g[id].draining ==> Due(g[id], drainTimeout, now)
    ensures n + |victims - DueAmong(g, victims, drainTimeout, now)|
         == if drainTimeout <= 0 then n else Max(|Where(g, StayingIn(a, d))|, n)
  {
    var staying, rest := Where(g, StayingIn(a, d)), victims - DueAmong(g, victims, drainTimeout, now);
    if drainTimeout <= 0 {
      assert rest == {};
    } else {
      forall id ensures id in rest <==> id in victims && id in staying {
      }
      StayingAfter(g, victims, a, d, n);
      PartSizes(staying, victims, rest);
    }
  }

  lemma PartSizes(s: set<Id>, t: set<Id>, both: set<Id>)
    requires forall id :: id in both <==> id in t && id in s
    ensures |s - t| == |s| - |both|
  {
    assert s - t == s - both;
    RemovedSize(s, both);
  }

  // ----- drain times

  /** Everything viable that drains was told so by the instant `t`. */
  ghost predicate ToldBy(g: Table, t: Time) {
    forall id :: id in g && Viable(g[id].status) && g[id].draining ==> g[id].drainStartedAt.Some? && g[id].drainStartedAt.value <= t
  }

  /** Scaling down marks at the instant of the pass; if as many stay as before, it marks nothing. */
  lemma ScaledDrains(g: Table, g': Table, a: Id, d: Id, n: nat, drainTimeout: Time, now: Time, t: Time)
    requires Scaled(g, g', a, d, n, drainTimeout, now) && OneDeployment(g, a, d) && n <= |Where(g, ViableIn(a, d))|
    requires ToldBy(g, t) && t <= now
    ensures ToldBy(g', now)
    ensures |Where(g', StayingIn(a, d))| == |Where(g, StayingIn(a, d))| ==> ToldBy(g', t)
  {
    var viable := Where(g, ViableIn(a, d));
    var victims :| AreVictims(g, viable, victims, |viable| - n) && g' == Shrunk(g, victims, drainTimeout, now);
    var staying := Where(g, StayingIn(a, d));
    ShrunkSets(g, victims, a, d, drainTimeout, now);
    if |staying - victims| == |staying| {
      PartSizes(staying, victims, staying * victims);
      assert staying * victims == {};
    }
    forall id | id in g' && Viable(g'[id].status) && g'[id].draining
      ensures g'[id].drainStartedAt.Some? && g'[id].drainStartedAt.value <= now
      ensures |staying - victims| == |staying| ==> g'[id].drainStartedAt.value <= t
    {
      if id in victims {
        RetiredIffDue(g[id], drainTimeout, now);
        assert !g[id].draining ==> id in staying * victims;
      }
    }
  }

  /** With a drain period nothing that was staying dies in the pass that gives it up. */
  lemma ScaledKeepsAlive(g: Table, g': Table, a: Id, d: Id, n: nat, drainTimeout: Time, now: Time)
    requires Scaled(g, g', a, d, n, drainTimeout, now) && OneDeployment(g, a, d) && n <= |Where(g, ViableIn(a, d))|
    requires drainTimeout > 0
    ensures |Where(g', ViableIn(a, d))| >= |Where(g, StayingIn(a, d))|
  {
    var viable, staying := Where(g, ViableIn(a, d)), Where(g, StayingIn(a, d));
    var victims :| AreVictims(g, viable, victims, |viable| - n) && g' == Shrunk(g, victims, drainTimeout, now);
    ShrunkSets(g, victims, a, d, drainTimeout, now);
    SubsetSize(staying, viable - DueAmong(g, victims, drainTimeout, now));
  }
}
